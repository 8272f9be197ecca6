/** The point of no return, single completion, and termination of the reconcile
    loop. */
module ControllerProgress {
  import opened Control
  import opened Transition
  import opened ControllerState
  import opened ControllerSteps
  import opened ControllerRestart

  /** Only the four entering steps change the phase. */
  lemma PhaseAfter(a: Progress, step: Step)
    ensures ProgressAfter(a, step).phase ==
            if step.EnterPause? then Pause else if step.EnterDrain? then Drain else if step.EnterCommit? then Commit
            else if step.EnterActivate? then Activate else a.phase
  {
    match step
    case RecordPublished(phase) =>
    case _ =>
  }

  /** What is announced may be intended and retained before. */
  lemma AnnounceGuards(a: Progress, phase: Phase)
    requires Guard(a, RecordPublished(phase))
    ensures Guard(a, RecordIntent(phase)) && Guard(a, Retain(phase, false)) && phase != Commit && phase != Activate
  {
  }

  /** How many more changes Reconcile can report for this transition. */
  function Remaining(a: Progress): nat {
    if a.completed then 0
    else if a.rollingBack then
      1 + (if a.rollbackPublished then 0 else 1) + (if AnyFence(a) && !a.unfenced then 1 else 0)
    else match a.phase
      case Prepare => 16 + (if a.preparePublished then 0 else 1)
      case Pause => 13 + (if a.pausePublished then 0 else 1) + (if a.fenced then 0 else 1)
      case Drain => 11 + (if a.drainPublished then 0 else 1)
      case Commit => 9 + (if a.commitPublished then 0 else 1)
      case Activate => 4 + (if a.targetEnabled then 0 else 1) + (if a.targetVerified then 0
                                                                 else 1) + (if a.activatePublished then 0 else 1)
  }

  /** The saves that Reconcile reports as a change. */
  predicate ReportsChange(step: Step) {
    || step.RecordPublished? || step.EnterPause? || step.RecordFenced? || step.EnterDrain? || step.EnterCommit?
    || step.RecordCommitPublished? || step.EnterActivate? || step.RecordEnabled? || step.RecordVerified?
    || step.RecordActivatePublished? || step.RecordUnfenced? || step.RecordRollbackPublished? || step.Complete?
  }

  /** What one step but Begin may do to the progress of a transition. */
  predicate Progresses(a: Progress, step: Step, b: Progress) {
    && Remaining(b) <= Remaining(a)
    && (ReportsChange(step) || step.RequestRollback? ==> Remaining(b) < Remaining(a))
    && Rank(b.phase) >= Rank(a.phase)
    && (a.completed ==> b == a)
    && (b.completed ==> a.completed || step.Complete?)
  }

  lemma GuardedProgress(a: Progress, step: Step)
    requires ProgressInv(a) && Guard(a, step)
    ensures Progresses(a, step, ProgressAfter(a, step))
  {
    GuardedBudget(a, step);
    GuardedRank(a, step);
    hide Guard, ProgressInv, ProgressAfter, Remaining, Rank;
  }

  lemma GuardedBudget(a: Progress, step: Step)
    requires ProgressInv(a) && Guard(a, step)
    ensures Remaining(ProgressAfter(a, step)) <= Remaining(a)
    ensures ReportsChange(step) || step.RequestRollback? ==> Remaining(ProgressAfter(a, step)) < Remaining(a)
  {
  }

  lemma GuardedRank(a: Progress, step: Step)
    requires ProgressInv(a) && Guard(a, step)
    ensures Rank(ProgressAfter(a, step).phase) >= Rank(a.phase)
    ensures a.completed ==> ProgressAfter(a, step) == a
    ensures ProgressAfter(a, step).completed ==> a.completed || step.Complete?
  {
    PhaseAfter(a, step);
    CompletesOnly(a, step);
    if SavesGroup(step) {
      CompletedIsLeft(a, step);
      hide ProgressAfter, PhasePublished, ProgressInv;
      if !step.EnterPause? && !step.EnterDrain? && !step.EnterCommit? && !step.EnterActivate? {
        hide Guard;
      }
    } else {
      hide Guard, PhasePublished, ProgressInv;
    }
  }

  lemma SavedProgress(w: World, step: Step, o: Options)
    requires SavesGroup(step) && w.p.group.Some?
    ensures GroupAfter(w, step, o).at == ProgressAfter(w.p.group.value.at, step)
  {
    if step.Observe? {
      ObservedKeeps(w.p.group.value, SourcesFor(w.p.group.value.spec, step.sample), step.sample, o.telemetryFreshness);
    }
  }

  /** A transition never goes back: every step but Begin keeps the phase or moves
      it forward, a reported change uses up part of a finite budget, and a
      completed transition stays as it is. */
  lemma StepProgress(w: World, step: Step, h: World, o: Options)
    requires Inv(w) && Take(w, step, o) == Some(h) && !step.Begin? && w.p.group.Some?
    ensures h.p.group.Some? && Progresses(w.p.group.value.at, step, h.p.group.value.at)
  {
    hide Guard, Justified, ProgressInv, TimesInv, MessageInv, TelemetryInv, ProgressAfter, GroupAfter, Reopened;
    if SavesGroup(step) {
      SavedGroup(w, step, o);
      SavedProgress(w, step, o);
      GuardedProgress(w.p.group.value.at, step);
    } else if step.Restart? {
      RestartedGroup(w, step, o);
      ReopenedIs(w.p.group.value, w.now, o);
    } else {
      SameGroup(w, step, o);
    }
  }

  predicate NoBegin(steps: seq<Step>, i: nat, j: nat) {
    forall k :: i <= k < j && k < |steps| ==> !steps[k].Begin?
  }

  /** The progress of the group's transition at one point of a run. */
  function ProgressAt(run: seq<World>, i: nat): Progress {
    if i < |run| && run[i].p.group.Some? then run[i].p.group.value.at else NOT_STARTED
  }

  lemma RunProgress(run: seq<World>, steps: seq<Step>, o: Options, i: nat)
    requires IsRun(run, steps, o) && i < |steps| && !steps[i].Begin? && run[i].p.group.Some?
    ensures run[i + 1].p.group.Some? && Progresses(ProgressAt(run, i), steps[i], ProgressAt(run, i + 1))
  {
    hide Take, Inv, Progresses;
    RunInv(run, steps, o, i);
    RunStep(run, steps, o, i);
    StepProgress(run[i], steps[i], run[i + 1], o);
  }

  lemma {:induction false} WhileRunning(run: seq<World>, steps: seq<Step>, o: Options, i: nat, j: nat)
    requires IsRun(run, steps, o) && i <= j < |run| && NoBegin(steps, i, j) && run[i].p.group.Some?
    ensures run[j].p.group.Some?
    ensures Remaining(ProgressAt(run, j)) <= Remaining(ProgressAt(run, i))
    ensures Rank(ProgressAt(run, j).phase) >= Rank(ProgressAt(run, i).phase)
    ensures ProgressAt(run, i).completed ==> ProgressAt(run, j) == ProgressAt(run, i)
    decreases j
  {
    hide Take, Remaining;
    if i < j {
      assert |run| == |steps| + 1;
      hide IsRun;
      WhileRunning(run, steps, o, i, j - 1);
      RunProgress(run, steps, o, j - 1);
    }
  }

  /** Once a transition is at COMMIT or ACTIVATE it stays there and never rolls
      back. */
  lemma PointOfNoReturn(run: seq<World>, steps: seq<Step>, o: Options, i: nat, j: nat)
    requires IsRun(run, steps, o) && i <= j < |run| && NoBegin(steps, i, j)
    requires run[i].p.group.Some? && (ProgressAt(run, i).phase == Commit || ProgressAt(run, i).phase == Activate)
    ensures run[j].p.group.Some?
    ensures (ProgressAt(run, j).phase == Commit || ProgressAt(run, j).phase == Activate)
            && !ProgressAt(run, j).rollingBack
  {
    hide IsRun, TimesInv, MessageInv, TelemetryInv;
    WhileRunning(run, steps, o, i, j);
    RunInv(run, steps, o, j);
  }

  /** A transition completes at most once, with one result. */
  lemma CompletesOnce(run: seq<World>, steps: seq<Step>, o: Options, i: nat, j: nat)
    requires IsRun(run, steps, o) && i < j < |steps| && steps[i].Complete? && NoBegin(steps, i, j)
    ensures !steps[j].Complete?
  {
    hide Take, Inv, Remaining;
    RunStep(run, steps, o, i);
    RunStep(run, steps, o, j);
    CompleteCompletes(run[i], steps[i], run[i + 1], o);
    if steps[j].Complete? {
      CompleteCompletes(run[j], steps[j], run[j + 1], o);
    }
    WhileRunning(run, steps, o, i + 1, j);
  }

  lemma CompleteCompletes(w: World, step: Step, h: World, o: Options)
    requires step.Complete? && Take(w, step, o) == Some(h)
    ensures w.p.group.Some? && !w.p.group.value.at.completed
    ensures h.p.group.Some? && h.p.group.value.at.completed
  {
    SavedGroup(w, step, o);
  }

  function Changes(steps: seq<Step>, i: nat, j: nat): nat
    requires i <= j <= |steps|
    decreases j
  {
    if i == j then 0 else Changes(steps, i, j - 1) + (if ReportsChange(steps[j - 1]) then 1 else 0)
  }

  /** However acknowledgements, telemetry, failures and restarts interleave,
      Reconcile reports at most as many changes as the transition has left. */
  lemma {:induction false} ChangesBounded(run: seq<World>, steps: seq<Step>, o: Options, i: nat, j: nat)
    requires IsRun(run, steps, o) && i <= j < |run| && NoBegin(steps, i, j) && run[i].p.group.Some?
    ensures run[j].p.group.Some?
    ensures Changes(steps, i, j) + Remaining(ProgressAt(run, j)) <= Remaining(ProgressAt(run, i))
    decreases j
  {
    hide Take, Remaining;
    if i < j {
      assert |run| == |steps| + 1;
      hide IsRun;
      ChangesBounded(run, steps, o, i, j - 1);
      RunProgress(run, steps, o, j - 1);
    }
  }

  // ------------------------------------------------------------- the recorded results

  predicate Unrecorded(history: seq<Record>, id: string) {
    forall i :: 0 <= i < |history| ==> history[i].transitionId != id
  }

  predicate OneEach(history: seq<Record>, used: set<string>) {
    && (forall i :: 0 <= i < |history| ==> history[i].transitionId in used)
    && (forall i, j :: 0 <= i < j < |history| ==> history[i].transitionId != history[j].transitionId)
  }

  /** The newest record is the result of this transition. */
  predicate RecordedLast(history: seq<Record>, g: GroupState) {
    history != [] && g.times.completedAt.Some? && history[|history| - 1] == RecordOf(g)
  }

  predicate HistoryInv(w: World, limit: nat) {
    && OneEach(w.p.history, w.used) && |w.p.history| <= limit
    && (w.p.group.Some? ==>
          && w.p.group.value.spec.id in w.used
          && if w.p.group.value.at.completed then RecordedLast(w.p.history, w.p.group.value)
             else Unrecorded(w.p.history, w.p.group.value.spec.id))
  }

  lemma RecordAppended(history: seq<Record>, used: set<string>, r: Record, limit: nat)
    requires OneEach(history, used) && Unrecorded(history, r.transitionId) && r.transitionId in used && limit > 0
    ensures OneEach(Trim(history + [r], limit), used) && |Trim(history + [r], limit)| <= limit
    ensures Trim(history + [r], limit) != [] && Trim(history + [r], limit)[|Trim(history + [r], limit)| - 1] == r
  {
  }

  /** Only completing adds a record. */
  lemma HistoryAfter(w: World, step: Step, o: Options)
    requires SavesGroup(step) && w.p.group.Some? && Guard(w.p.group.value.at, step)
    ensures After(w, step, o).used == w.used
    ensures step.Complete? ==> GroupAfter(w, step, o).times.completedAt.Some?
    ensures step.Complete? ==>
              After(w, step, o).p.history == Trim(w.p.history + [RecordOf(GroupAfter(w, step, o))], o.historyLimit)
    ensures !step.Complete? ==> After(w, step, o).p.history == w.p.history
  {
    SavedProgress(w, step, o);
    CompletesOnly(w.p.group.value.at, step);
    hide Guard, ProgressAfter, EvidenceReady, EvidenceOf, RecordOf;
    if !step.Complete? {
      hide GroupAfter;
    }
  }

  lemma CompletesOnly(a: Progress, step: Step)
    requires Guard(a, step)
    ensures step.Complete? ==> !a.completed && ProgressAfter(a, step).completed
                               && ProgressAfter(a, step).rollingBack == a.rollingBack
    ensures !step.Complete? ==> ProgressAfter(a, step).completed == a.completed
  {
    hide MarkPublished, PhasePublished;
  }

  /** Nothing is saved for a completed transition. */
  lemma CompletedIsLeft(a: Progress, step: Step)
    requires Guard(a, step) && ProgressInv(a) && SavesGroup(step)
    ensures !a.completed
  {
    hide PhasePublished;
  }

  lemma SaveHistory(w: World, step: Step, h: World, o: Options)
    requires SavesGroup(step) && Inv(w) && ValidOptions(o) && HistoryInv(w, o.historyLimit)
             && Take(w, step, o) == Some(h)
    ensures HistoryInv(h, o.historyLimit)
  {
    hide Guard, Justified, ProgressInv, TimesInv, MessageInv, TelemetryInv, GroupAfter, ProgressAfter, OneEach,
         Unrecorded, Trim, After;
    var g := w.p.group.value;
    HistoryAfter(w, step, o);
    SavedGroup(w, step, o);
    SavedProgress(w, step, o);
    SpecKept(w, step, h, o);
    CompletesOnly(g.at, step);
    CompletedIsLeft(g.at, step);
    if step.Complete? {
      RecordAppended(w.p.history, w.used, RecordOf(GroupAfter(w, step, o)), o.historyLimit);
    }
  }

  lemma BeginHistory(w: World, step: Step, h: World, o: Options)
    requires step.Begin? && HistoryInv(w, o.historyLimit) && Take(w, step, o) == Some(h)
    ensures HistoryInv(h, o.historyLimit)
  {
    hide ValidSpec, BuiltFrom, CanReplaceCompleted, RecordOf;
  }

  lemma RestartHistory(w: World, step: Step, h: World, o: Options)
    requires step.Restart? && Inv(w) && HistoryInv(w, o.historyLimit) && Take(w, step, o) == Some(h)
    ensures HistoryInv(h, o.historyLimit)
  {
    hide Justified, Guard, ProgressInv, TimesInv, MessageInv, TelemetryInv, Reopened, OneEach, Unrecorded, Replayed;
    RestartedGroup(w, step, o);
    ReopenedIs(w.p.group.value, w.now, o);
  }

  lemma OtherHistory(w: World, step: Step, h: World, o: Options)
    requires !SavesGroup(step) && !step.Begin? && !step.Restart? && HistoryInv(w, o.historyLimit)
             && Take(w, step, o) == Some(h)
    ensures HistoryInv(h, o.historyLimit)
  {
    hide Justified, Guard, OneEach, Unrecorded, RecordOf;
    SameGroup(w, step, o);
  }

  lemma StepHistory(w: World, step: Step, h: World, o: Options)
    requires Inv(w) && ValidOptions(o) && HistoryInv(w, o.historyLimit) && Take(w, step, o) == Some(h)
    ensures HistoryInv(h, o.historyLimit)
  {
    hide Take, HistoryInv, Inv;
    if SavesGroup(step) {
      SaveHistory(w, step, h, o);
    } else if step.Begin? {
      BeginHistory(w, step, h, o);
    } else if step.Restart? {
      RestartHistory(w, step, h, o);
    } else {
      OtherHistory(w, step, h, o);
    }
  }

  lemma {:induction false} RunHistory(run: seq<World>, steps: seq<Step>, o: Options, n: nat)
    requires IsRun(run, steps, o) && n < |run|
    ensures HistoryInv(run[n], o.historyLimit)
  {
    hide Take, Inv, Valid, RecordedLast;
    if n > 0 {
      RunHistory(run, steps, o, n - 1);
      RunInv(run, steps, o, n - 1);
      RunStep(run, steps, o, n - 1);
      hide HistoryInv;
      StepHistory(run[n - 1], steps[n - 1], run[n], o);
    }
  }

  /** The bounded history has at most one record of any transition; a completed one is
      its newest record, with the one result it completed with. */
  lemma OneRecordEach(run: seq<World>, steps: seq<Step>, o: Options, n: nat)
    requires IsRun(run, steps, o) && n < |run|
    ensures var history := run[n].p.history;
            && |history| <= o.historyLimit
            && (forall i, j :: 0 <= i < j < |history| ==> history[i].transitionId != history[j].transitionId)
            && (run[n].p.group.Some? && run[n].p.group.value.at.completed ==>
                  var g, last := run[n].p.group.value, |history| - 1;
                  && last >= 0 && history[last].transitionId == g.spec.id
                  && history[last].result == (if g.at.rollingBack then RolledBackResult else CommittedResult)
                  && Some(history[last].completedAt) == g.times.completedAt)
  {
    hide IsRun;
    RunHistory(run, steps, o, n);
  }
}
