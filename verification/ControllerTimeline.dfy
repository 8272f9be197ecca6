/** The phase history of a transition: phases in order without a gap, each left when the
    next was entered, the last one left exactly on completion, and a deadline that
    belongs to the current phase. */
module ControllerTimeline {
  import opened Control
  import opened Transition
  import opened ControllerState
  import opened ControllerSteps
  import opened ControllerRestart
  import opened ControllerProgress

  /** One phase after the other. */
  predicate Consecutive(h: seq<PhaseEvent>) {
    forall i :: 0 < i < |h| ==>
      && Rank(h[i].phase) == Rank(h[i - 1].phase) + 1
      && h[i - 1].exitedAt == Some(h[i].enteredAt) && h[i - 1].enteredAt <= h[i].enteredAt
  }

  predicate Timeline(a: Progress, t: Times, now: Time, timeout: nat) {
    var h := t.history;
    && h != [] && Consecutive(h)
    && h[0].phase == Prepare && h[0].enteredAt == t.startedAt
    && h[|h| - 1].phase == a.phase && h[|h| - 1].enteredAt == t.phaseEnteredAt <= now
    && h[|h| - 1].exitedAt == (if a.completed then t.completedAt else None)
    && (a.completed ==> t.completedAt.Some? && t.phaseEnteredAt <= t.completedAt.value <= now)
    && t.phaseDeadline == if a.completed then 0 else t.phaseEnteredAt + timeout
  }

  predicate TimelineInv(w: World, timeout: nat) {
    w.p.group.Some? ==> Timeline(w.p.group.value.at, w.p.group.value.times, w.now, timeout)
  }

  lemma Entered(a: Progress, b: Progress, t: Times, phase: Phase, now: Time, timeout: nat)
    requires Timeline(a, t, now, timeout) && !a.completed && !b.completed && b.phase == phase
             && Rank(phase) == Rank(a.phase) + 1
    ensures Timeline(b, EnterPhase(t, phase, now, timeout), now, timeout)
  {
    var left := LeavePhase(t.history, now);
    var h := left + [PhaseEvent(phase, now, None)];
    assert forall i :: 0 <= i < |left| - 1 ==> left[i] == t.history[i];
    assert forall i :: 0 <= i < |left| ==> h[i] == left[i];
  }

  lemma Finished(a: Progress, b: Progress, t: Times, now: Time, timeout: nat)
    requires Timeline(a, t, now, timeout) && !a.completed && b.completed && b.phase == a.phase
    ensures Timeline(b, CompleteAt(t, now), now, timeout)
  {
  }

  lemma TimelineMoved(a: Progress, t: Times, step: Step, now: Time, timeout: nat)
    requires Timeline(a, t, now, timeout) && MovesGroup(step) && Guard(a, step)
    ensures Timeline(ProgressAfter(a, step), TimesAfter(t, step, now, timeout), now, timeout)
  {
    CompletesOnly(a, step);
    if step.EnterPause? || step.EnterDrain? || step.EnterActivate? {
      Entered(a, ProgressAfter(a, step), t, ProgressAfter(a, step).phase, now, timeout);
    } else if step.EnterCommit? {
      Entered(a, ProgressAfter(a, step), t.(fenceVerifiedAt := Some(step.observedAt)), Commit, now, timeout);
    } else if step.Complete? {
      Finished(a, ProgressAfter(a, step), t, now, timeout);
    } else {
      PhaseAfter(a, step);
      hide Guard, ProgressAfter, EnterPhase, CompleteAt;
    }
  }

  lemma SavedTimes(w: World, g: GroupState, step: Step, o: Options)
    requires SavesGroup(step) && w.p.group == Some(g)
    ensures MovesGroup(step) ==> GroupAfter(w, step, o).times == TimesAfter(g.times, step, w.now, o.phaseTimeout)
    ensures !MovesGroup(step) ==> GroupAfter(w, step, o).times == g.times && ProgressAfter(g.at, step) == g.at
  {
    hide LeavePhase, ObservedAll, Expected;
    if step.Observe? {
      ObservedKeeps(g, SourcesFor(g.spec, step.sample), step.sample, o.telemetryFreshness);
    }
  }

  lemma SaveTimeline(w: World, step: Step, h: World, o: Options)
    requires SavesGroup(step) && TimelineInv(w, o.phaseTimeout) && Take(w, step, o) == Some(h)
    ensures TimelineInv(h, o.phaseTimeout)
  {
    hide Guard, Justified, GroupAfter, ProgressAfter, TimesAfter, Timeline, After;
    var g := w.p.group.value;
    SavedGroup(w, step, o);
    SavedProgress(w, step, o);
    SavedTimes(w, g, step, o);
    if MovesGroup(step) {
      TimelineMoved(g.at, g.times, step, w.now, o.phaseTimeout);
    }
  }

  lemma BeginTimeline(w: World, step: Step, h: World, o: Options)
    requires step.Begin? && Take(w, step, o) == Some(h)
    ensures TimelineInv(h, o.phaseTimeout)
  {
    hide MayBegin;
  }

  lemma RestartTimeline(w: World, step: Step, h: World, o: Options)
    requires step.Restart? && Inv(w) && TimelineInv(w, o.phaseTimeout) && Take(w, step, o) == Some(h)
    ensures TimelineInv(h, o.phaseTimeout)
  {
    hide Justified, Guard, ProgressInv, TimesInv, MessageInv, TelemetryInv, Reopened, Timeline, Replayed;
    RestartedGroup(w, step, o);
    ReopenedIs(w.p.group.value, w.now, o);
  }

  lemma OtherTimeline(w: World, step: Step, h: World, o: Options)
    requires !SavesGroup(step) && !step.Begin? && !step.Restart? && TimelineInv(w, o.phaseTimeout)
             && Take(w, step, o) == Some(h)
    ensures TimelineInv(h, o.phaseTimeout)
  {
    hide Justified, Guard, Consecutive;
    SameGroup(w, step, o);
    assert w.now <= h.now;
  }

  lemma StepTimeline(w: World, step: Step, h: World, o: Options)
    requires Inv(w) && TimelineInv(w, o.phaseTimeout) && Take(w, step, o) == Some(h)
    ensures TimelineInv(h, o.phaseTimeout)
  {
    hide Take, Inv, TimelineInv;
    if SavesGroup(step) {
      SaveTimeline(w, step, h, o);
    } else if step.Begin? {
      BeginTimeline(w, step, h, o);
    } else if step.Restart? {
      RestartTimeline(w, step, h, o);
    } else {
      OtherTimeline(w, step, h, o);
    }
  }

  /** In every reachable state the phase history is the transition's path so far: it
      starts with PREPARE at the start, skips no phase, and each phase was left when the
      next was entered; a phase not completed has its own deadline. */
  lemma {:induction false} PhaseTimeline(run: seq<World>, steps: seq<Step>, o: Options, n: nat)
    requires IsRun(run, steps, o) && n < |run|
    ensures TimelineInv(run[n], o.phaseTimeout)
  {
    hide Take, Inv, Valid, Timeline;
    if n > 0 {
      PhaseTimeline(run, steps, o, n - 1);
      RunInv(run, steps, o, n - 1);
      RunStep(run, steps, o, n - 1);
      hide TimelineInv;
      StepTimeline(run[n - 1], steps[n - 1], run[n], o);
    }
  }
}
