/** Ingress mutual exclusion: no queue of the source epoch and queue of the target
    epoch accept messages together, whatever subset of queues a failing fence,
    unfence, enable or restart changed. */
module ControllerIngress {
  import opened Control
  import opened Transition
  import opened ControllerState
  import opened ControllerSteps
  import opened ControllerRestart
  import opened ControllerProgress
  import opened ControllerChain

  /** Where ingress may be enabled, given how far the transition is. */
  predicate IngressFits(a: Progress, s: Spec, open: set<Resource>) {
    if a.rollingBack then open <= Queues(s.currentResources)
    else if a.phase == Activate then open <= Queues(s.proposedResources)
    else open <= Queues(s.currentResources) && (a.fenced ==> open == {})
  }

  predicate IngressInv(w: World) {
    && w.p.membership.Some?
    && (w.p.group.None? ==> w.open <= Queues(w.p.membership.value.currentResources))
    && (w.p.group.Some? ==> IngressFits(w.p.group.value.at, w.p.group.value.spec, w.open))
  }

  // -------------------------------------------------------- what every step keeps

  predicate FencedMeans(step: Step, s: Spec, open: set<Resource>) {
    step.RecordFenced? ==> open !! Queues(s.currentResources)
  }

  lemma IngressSaved(a: Progress, step: Step, s: Spec, open: set<Resource>)
    requires ProgressInv(a) && Guard(a, step) && SavesGroup(step) && IngressFits(a, s, open)
             && FencedMeans(step, s, open)
    ensures IngressFits(ProgressAfter(a, step), s, open)
  {
    hide Queues;
    if step.RecordFenced? {
      assert open == open * Queues(s.currentResources);
    }
  }

  /** The decision made from the durable flags at a restart keeps the exclusion. */
  lemma IngressReplayed(a: Progress, s: Spec, open: set<Resource>, sourceChanged: set<Resource>,
                        targetOpened: set<Resource>)
    requires ProgressInv(a) && IngressFits(a, s, open)
    requires sourceChanged <= Queues(s.currentResources) && targetOpened <= Queues(s.proposedResources)
    ensures IngressFits(a, s, Replayed(a, open, sourceChanged, targetOpened))
  {
    hide Queues;
  }

  lemma IngressEffect(a: Progress, s: Spec, open: set<Resource>, step: Step)
    requires ProgressInv(a) && IngressFits(a, s, open) && Guard(a, step)
    ensures step.FenceEffect? ==> IngressFits(a, s, open - step.closed)
    ensures step.EnableEffect? && step.lifted <= Queues(s.proposedResources) ==> IngressFits(a, s, open + step.lifted)
    ensures step.UnfenceEffect? && step.lifted <= Queues(s.currentResources) ==> IngressFits(a, s, open + step.lifted)
  {
    hide Queues;
  }

  lemma SavesNoIngress(w: World, step: Step, o: Options)
    requires SavesGroup(step) && w.p.group.Some?
    ensures After(w, step, o).open == w.open
  {
    hide GroupAfter, UpdateGroup;
  }

  lemma JustifiedFence(w: World, g: GroupState, step: Step, o: Options)
    requires Justified(w, g, step, o)
    ensures FencedMeans(step, g.spec, w.open)
  {
    hide AckInScope, SampleInScope, SaveMembership, Open, DrainComplete, ControlSnapshot, CommandsIssued,
         AllAcknowledged, Queues;
  }

  lemma SaveKeepsIngress(w: World, step: Step, h: World, o: Options)
    requires SavesGroup(step) && Inv(w) && IngressInv(w) && Take(w, step, o) == Some(h)
    ensures IngressInv(h)
  {
    hide Guard, Justified, ProgressInv, TimesInv, MessageInv, TelemetryInv, IngressFits, GroupAfter, ProgressAfter,
         FencedMeans;
    SavedGroup(w, step, o);
    SavedProgress(w, step, o);
    SpecKept(w, step, h, o);
    SavesNoIngress(w, step, o);
    MembershipSaved(w, step, o);
    JustifiedFence(w, w.p.group.value, step, o);
    IngressSaved(w.p.group.value.at, step, w.p.group.value.spec, w.open);
  }

  /** Completion leaves only queues of the retained snapshot open, and the next
      specification is built from that snapshot. */
  lemma CompletedIngress(g: GroupState, m: Snapshot, next: Spec, open: set<Resource>)
    requires ProgressInv(g.at) && g.at.completed && Fits(g.at, g.spec, m) && IngressFits(g.at, g.spec, open)
             && BuiltFrom(next, m)
    ensures IngressFits(NOT_STARTED, next, open)
  {
    hide Queues;
  }

  lemma BeginKeepsIngress(w: World, step: Step, h: World, o: Options)
    requires step.Begin? && Inv(w) && Retained(w) && IngressInv(w) && Take(w, step, o) == Some(h)
    ensures IngressInv(h)
  {
    hide ValidSpec, BuiltFrom, Fits, ProgressInv, TimesInv, MessageInv, TelemetryInv, IngressFits;
    if w.p.group.Some? {
      CompletedIngress(w.p.group.value, w.p.membership.value, step.spec, w.open);
    } else {
      FirstIngress(w.p.membership.value, step.spec, w.open);
    }
  }

  lemma FirstIngress(m: Snapshot, next: Spec, open: set<Resource>)
    requires open <= Queues(m.currentResources) && BuiltFrom(next, m)
    ensures IngressFits(NOT_STARTED, next, open)
  {
    hide Queues;
  }

  lemma RestartKeepsIngress(w: World, step: Step, h: World, o: Options)
    requires step.Restart? && Inv(w) && IngressInv(w) && Take(w, step, o) == Some(h)
    ensures IngressInv(h)
  {
    hide ProgressInv, TimesInv, MessageInv, TelemetryInv, Reopened, IngressFits, Open, Queues, Replayed;
    ReopenedIs(w.p.group.value, w.now, o);
    IngressReplayed(w.p.group.value.at, w.p.group.value.spec, w.open, step.sourceChanged, step.targetOpened);
  }

  lemma EffectKeepsIngress(w: World, step: Step, h: World, o: Options)
    requires step.FenceEffect? || step.EnableEffect? || step.UnfenceEffect?
    requires Inv(w) && IngressInv(w) && Take(w, step, o) == Some(h)
    ensures IngressInv(h)
  {
    hide Guard, ProgressInv, TimesInv, MessageInv, TelemetryInv, IngressFits, Queues;
    IngressEffect(w.p.group.value.at, w.p.group.value.spec, w.open, step);
  }

  lemma StepIngress(w: World, step: Step, h: World, o: Options)
    requires Inv(w) && Retained(w) && IngressInv(w) && Take(w, step, o) == Some(h)
    ensures IngressInv(h)
  {
    hide Guard, Justified, Inv, Retained, MayBegin, IngressFits;
    if step.Begin? {
      BeginKeepsIngress(w, step, h, o);
    } else if SavesGroup(step) {
      SaveKeepsIngress(w, step, h, o);
    } else if step.Restart? {
      RestartKeepsIngress(w, step, h, o);
    } else if step.Retain? || step.Tick? {
    } else {
      EffectKeepsIngress(w, step, h, o);
    }
  }

  lemma {:induction false} RunIngress(run: seq<World>, steps: seq<Step>, o: Options, n: nat)
    requires IsRun(run, steps, o) && n < |run|
    ensures IngressInv(run[n])
  {
    hide Take, Inv, Valid, ChainInv, Retained, IngressFits;
    if n > 0 {
      RunIngress(run, steps, o, n - 1);
      RunInv(run, steps, o, n - 1);
      RunChain(run, steps, o, n - 1);
      RunStep(run, steps, o, n - 1);
      assert Retained(run[n - 1]) by { ChainRetains(run[n - 1]); }
      StepIngress(run[n - 1], steps[n - 1], run[n], o);
    }
  }

  lemma ChainRetains(w: World)
    requires ChainInv(w)
    ensures Retained(w)
  {
    hide Retained, Logged;
  }

  // ------------------------------------------------------------- the main result

  predicate OneEpoch(open: set<Resource>) {
    forall a, b :: a in open && b in open ==> a.epoch == b.epoch
  }

  lemma QueueEpochs(rs: seq<Resource>, epoch: nat, m: Membership)
    requires ValidResources(rs, epoch, m)
    ensures forall r :: r in Queues(rs) ==> r.epoch == epoch
  {
    forall r | r in Queues(rs) ensures r.epoch == epoch {
      var i :| 0 <= i < |rs| && rs[i] == r;
      assert ValidResource(rs[i], epoch, m);
    }
  }

  lemma SpecQueueEpochs(s: Spec)
    requires ValidSpec(s)
    ensures forall r :: r in Queues(s.currentResources) ==> r.epoch == s.fromEpoch
    ensures forall r :: r in Queues(s.proposedResources) ==> r.epoch == s.toEpoch
    ensures s.toEpoch == s.fromEpoch + 1
  {
    hide ValidNames, ValidMembership, ValidDescriptors, ValidResources, Queues;
    var p := ControlSnapshot(s, Prepare, false);
    assert Valid(p) && ValidPhase(p);
    QueueEpochs(s.currentResources, s.fromEpoch, p.current);
    QueueEpochs(s.proposedResources, s.toEpoch, p.proposed);
  }

  lemma SnapshotQueueEpochs(s: Snapshot)
    requires Valid(s)
    ensures forall r :: r in Queues(s.currentResources) ==> r.epoch == s.epoch
  {
    hide ValidNames, ValidMembership, ValidDescriptors, ValidResources, ValidPhase, Queues;
    QueueEpochs(s.currentResources, s.epoch, s.current);
  }

  /** In every reachable state all queues that accept messages belong to one
      epoch: the source epoch until every source queue was fenced and ACTIVATE was
      entered, the target epoch after that. */
  lemma IngressExclusion(run: seq<World>, steps: seq<Step>, o: Options, n: nat)
    requires IsRun(run, steps, o) && n < |run|
    ensures OneEpoch(run[n].open)
    ensures run[n].p.group.Some? ==>
              var g := run[n].p.group.value;
              && (run[n].open !! Queues(g.spec.currentResources) || run[n].open !! Queues(g.spec.proposedResources))
              && (g.at.phase == Commit ==> run[n].open == {})
              && (g.at.phase == Activate ==> run[n].open !! Queues(g.spec.currentResources))
              && (g.at.phase != Activate ==> run[n].open !! Queues(g.spec.proposedResources))
  {
    hide IsRun, Valid, ValidSpec, Queues, TimesInv, MessageInv, TelemetryInv;
    RunIngress(run, steps, o, n);
    RunInv(run, steps, o, n);
    RunDocument(run, steps, o, n);
    SnapshotQueueEpochs(run[n].p.membership.value);
    if run[n].p.group.Some? {
      SpecQueueEpochs(run[n].p.group.value.spec);
    }
  }

  // ------------------------------------------------- what is announced can be used

  /** Recorded openings are in effect, and ACTIVE is retained only after them. */
  predicate OpenedFirst(a: Progress, s: Spec, m: Snapshot, open: set<Resource>) {
    && (a.targetEnabled ==> Queues(s.proposedResources) <= open)
    && (a.unfenced ==> Queues(s.currentResources) <= open)
    && (a.phase == Activate && m == Forwards(s, Activate) ==> a.targetVerified)
    && (a.rollingBack && m == Rollback(s) && AnyFence(a) ==> a.unfenced)
  }

  predicate OpenedInv(w: World) {
    w.p.group.Some? && w.p.membership.Some? ==>
          OpenedFirst(w.p.group.value.at, w.p.group.value.spec, w.p.membership.value, w.open)
  }

  lemma ForwardIsNotRollback(s: Spec, phase: Phase)
    ensures Forwards(s, phase) != Rollback(s)
    ensures phase != Activate ==> Forwards(s, phase) != Forwards(s, Activate)
  {
  }

  lemma BaseIsNotOurs(s: Spec, m: Snapshot)
    requires BuiltFrom(s, m)
    ensures m != Rollback(s) && m != Forwards(s, Activate)
  {
  }

  /** Asking for a rollback, or entering ACTIVATE, finds an older snapshot retained. */
  lemma NotYetRetained(a: Progress, s: Spec, m: Snapshot)
    requires ProgressInv(a) && Fits(a, s, m) && !a.rollingBack
    ensures m != Rollback(s)
    ensures a.phase != Activate ==> m != Forwards(s, Activate)
  {
    hide ControlSnapshot, BuiltFrom;
    if BuiltFrom(s, m) {
      BaseIsNotOurs(s, m);
    }
    ForwardIsNotRollback(s, a.phase);
    ForwardIsNotRollback(s, Previous(a.phase));
  }

  /** What a recorded opening rests on. */
  predicate OpeningMeans(step: Step, s: Spec, open: set<Resource>) {
    && (step.RecordEnabled? ==> Queues(s.proposedResources) <= open)
    && (step.RecordUnfenced? ==> Queues(s.currentResources) <= open)
  }

  lemma JustifiedOpening(w: World, g: GroupState, step: Step, o: Options)
    requires Justified(w, g, step, o)
    ensures OpeningMeans(step, g.spec, w.open)
  {
    hide AckInScope, SampleInScope, SaveMembership, Open, DrainComplete, ControlSnapshot, CommandsIssued,
         AllAcknowledged, Queues;
  }

  lemma OpenedSaved(a: Progress, step: Step, s: Spec, m: Snapshot, open: set<Resource>)
    requires ProgressInv(a) && Guard(a, step) && SavesGroup(step) && OpenedFirst(a, s, m, open)
             && OpeningMeans(step, s, open)
    requires !a.rollingBack ==> m != Rollback(s) && (a.phase != Activate ==> m != Forwards(s, Activate))
    ensures OpenedFirst(ProgressAfter(a, step), s, m, open)
  {
    hide Queues, Forwards, Rollback;
  }

  lemma OpenedRetained(a: Progress, s: Spec, m: Snapshot, open: set<Resource>, phase: Phase, rollback: bool)
    requires ProgressInv(a) && Guard(a, Retain(phase, rollback)) && OpenedFirst(a, s, m, open)
    ensures OpenedFirst(a, s, ControlSnapshot(s, phase, rollback), open)
  {
    RollbackOnce(s, phase);
    ForwardIsNotRollback(s, phase);
    hide Queues, ControlSnapshot;
  }

  lemma OpenedReplayed(a: Progress, s: Spec, m: Snapshot, open: set<Resource>, sourceChanged: set<Resource>,
                       targetOpened: set<Resource>)
    requires ProgressInv(a) && OpenedFirst(a, s, m, open) && Queues(s.currentResources) !! Queues(s.proposedResources)
    requires sourceChanged <= Queues(s.currentResources)
    ensures OpenedFirst(a, s, m, Replayed(a, open, sourceChanged, targetOpened))
  {
    hide Queues, Forwards, Rollback;
  }

  lemma SourceIsNotTarget(s: Spec)
    requires ValidSpec(s)
    ensures Queues(s.currentResources) !! Queues(s.proposedResources)
  {
    hide ValidSpec, Queues;
    SpecQueueEpochs(s);
  }

  lemma SaveKeepsOpened(w: World, step: Step, h: World, o: Options)
    requires SavesGroup(step) && Inv(w) && Retained(w) && OpenedInv(w) && Take(w, step, o) == Some(h)
    ensures OpenedInv(h)
  {
    hide Guard, Justified, ProgressInv, TimesInv, MessageInv, TelemetryInv, OpenedFirst, GroupAfter, ProgressAfter,
         OpeningMeans, Fits, Rollback, Forwards;
    var g := w.p.group.value;
    SavedGroup(w, step, o);
    SavedProgress(w, step, o);
    SpecKept(w, step, h, o);
    SavesNoIngress(w, step, o);
    MembershipSaved(w, step, o);
    JustifiedOpening(w, g, step, o);
    if !g.at.rollingBack {
      NotYetRetained(g.at, g.spec, w.p.membership.value);
    }
    OpenedSaved(g.at, step, g.spec, w.p.membership.value, w.open);
  }

  lemma BeginOpens(w: World, step: Step, h: World, o: Options)
    requires step.Begin? && Take(w, step, o) == Some(h)
    ensures OpenedInv(h)
  {
    hide MayBegin, Queues, Forwards, Rollback;
  }

  lemma EffectKeepsOpened(a: Progress, s: Spec, m: Snapshot, open: set<Resource>, step: Step)
    requires ProgressInv(a) && OpenedFirst(a, s, m, open) && Guard(a, step)
    ensures step.FenceEffect? ==> OpenedFirst(a, s, m, open - step.closed)
    ensures step.EnableEffect? || step.UnfenceEffect? ==> OpenedFirst(a, s, m, open + step.lifted)
  {
    hide Queues, Forwards, Rollback, PhasePublished;
  }

  lemma RestartOpened(w: World, step: Step, h: World, o: Options)
    requires step.Restart? && Inv(w) && DocumentInv(w) && OpenedInv(w) && Take(w, step, o) == Some(h)
    ensures OpenedInv(h)
  {
    hide Guard, ProgressInv, TimesInv, MessageInv, TelemetryInv, OpenedFirst, Open, Queues, Replayed, Reopened, Valid,
         ValidSpec;
    ReopenedIs(w.p.group.value, w.now, o);
    SourceIsNotTarget(w.p.group.value.spec);
    OpenedReplayed(w.p.group.value.at, w.p.group.value.spec, w.p.membership.value, w.open, step.sourceChanged,
                   step.targetOpened);
  }

  lemma RetainOpened(w: World, step: Step, h: World, o: Options)
    requires step.Retain? && Inv(w) && DocumentInv(w) && OpenedInv(w) && Take(w, step, o) == Some(h)
    ensures OpenedInv(h)
  {
    hide Guard, ProgressInv, TimesInv, MessageInv, TelemetryInv, OpenedFirst, Valid, ValidSpec, ControlSnapshot,
         SaveMembership;
    OpenedRetained(w.p.group.value.at, w.p.group.value.spec, w.p.membership.value, w.open, step.phase, step.rollback);
  }

  lemma EffectOpened(w: World, step: Step, h: World, o: Options)
    requires step.FenceEffect? || step.EnableEffect? || step.UnfenceEffect?
    requires Inv(w) && DocumentInv(w) && OpenedInv(w) && Take(w, step, o) == Some(h)
    ensures OpenedInv(h)
  {
    hide Guard, ProgressInv, TimesInv, MessageInv, TelemetryInv, OpenedFirst, Valid, ValidSpec, Queues;
    EffectKeepsOpened(w.p.group.value.at, w.p.group.value.spec, w.p.membership.value, w.open, step);
  }

  lemma TickOpened(w: World, step: Step, h: World, o: Options)
    requires step.Tick? && OpenedInv(w) && Take(w, step, o) == Some(h)
    ensures OpenedInv(h)
  {
    hide OpenedFirst;
  }

  lemma StepOpened(w: World, step: Step, h: World, o: Options)
    requires Inv(w) && DocumentInv(w) && Retained(w) && OpenedInv(w) && Take(w, step, o) == Some(h)
    ensures OpenedInv(h)
  {
    hide Inv, DocumentInv, Retained, OpenedInv, Take;
    if step.Begin? {
      BeginOpens(w, step, h, o);
    } else if SavesGroup(step) {
      SaveKeepsOpened(w, step, h, o);
    } else if step.Restart? {
      RestartOpened(w, step, h, o);
    } else if step.Retain? {
      RetainOpened(w, step, h, o);
    } else if step.Tick? {
      TickOpened(w, step, h, o);
    } else {
      EffectOpened(w, step, h, o);
    }
  }

  lemma {:induction false} RunOpened(run: seq<World>, steps: seq<Step>, o: Options, n: nat)
    requires IsRun(run, steps, o) && n < |run|
    ensures OpenedInv(run[n])
  {
    hide Take, Inv, DocumentInv, Valid, ChainInv, Retained, OpenedFirst;
    if n > 0 {
      RunOpened(run, steps, o, n - 1);
      RunInv(run, steps, o, n - 1);
      RunDocument(run, steps, o, n - 1);
      RunChain(run, steps, o, n - 1);
      RunStep(run, steps, o, n - 1);
      assert Retained(run[n - 1]) by { ChainRetains(run[n - 1]); }
      StepOpened(run[n - 1], steps[n - 1], run[n], o);
    }
  }

  /** Whenever the ACTIVE snapshot of the target is retained, every target queue accepts
      messages; whenever the ACTIVE snapshot of a rollback is retained after a fence was
      attempted, every source queue does. */
  lemma ActiveIsUsable(run: seq<World>, steps: seq<Step>, o: Options, n: nat)
    requires IsRun(run, steps, o) && n < |run| && run[n].p.group.Some? && run[n].p.membership.Some?
    ensures var g, m := run[n].p.group.value, run[n].p.membership.value;
            && (g.at.phase == Activate && m == Forwards(g.spec, Activate) ==>
                Queues(g.spec.proposedResources) <= run[n].open)
            && (g.at.rollingBack && m == Rollback(g.spec) && AnyFence(g.at) ==>
                Queues(g.spec.currentResources) <= run[n].open)
  {
    hide IsRun, TimesInv, MessageInv, TelemetryInv, Forwards, Rollback, Queues;
    RunOpened(run, steps, o, n);
    RunInv(run, steps, o, n);
  }
}
