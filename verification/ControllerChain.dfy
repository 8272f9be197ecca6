/** The publication chain: every snapshot the controller makes authoritative, over
    any number of transitions, rollbacks and restarts, is a valid advance of the
    one before it. */
module ControllerChain {
  import opened Control
  import opened Transition
  import opened ControllerState
  import opened ControllerSteps
  import opened ControllerRestart
  import opened ControllerProgress
  import opened Bootstrap

  function Previous(phase: Phase): Phase {
    match phase
    case Prepare => Prepare
    case Pause => Prepare
    case Drain => Pause
    case Commit => Drain
    case Activate => Commit
  }

  function Forwards(s: Spec, phase: Phase): Snapshot {
    ControlSnapshot(s, phase, false)
  }

  function Rollback(s: Spec): Snapshot {
    ControlSnapshot(s, Prepare, true)
  }

  // ------------------------------------------- what is retained, at each point

  /** The snapshot of this phase, or the one before it while this phase is not
      yet published. */
  predicate Reached(a: Progress, s: Spec, m: Snapshot) {
    || m == Forwards(s, a.phase)
    || (!PhasePublished(a, a.phase) && if a.phase == Prepare then BuiltFrom(s, m)
        else m == Forwards(s, Previous(a.phase)))
  }

  predicate Fits(a: Progress, s: Spec, m: Snapshot) {
    if a.rollingBack then m == Rollback(s) || (!a.rollbackPublished && Reached(a, s, m))
    else Reached(a, s, m)
  }

  predicate Retained(w: World) {
    && w.p.membership.Some?
    && (w.p.group.None? ==> w.p.membership.value.phase == ACTIVE)
    && (w.p.group.Some? ==> Fits(w.p.group.value.at, w.p.group.value.spec, w.p.membership.value))
  }

  predicate Chain(log: seq<Snapshot>) {
    forall i :: 0 < i < |log| ==> Compare(log[i - 1], log[i]) == Newer
  }

  predicate Logged(w: World) {
    && w.log != [] && w.p.membership == Some(w.log[|w.log| - 1])
    && Chain(w.log)
  }

  predicate ChainInv(w: World) {
    Retained(w) && Logged(w)
  }

  // ---------------------------------------------------- no save is ever refused

  lemma RollbackOnce(s: Spec, phase: Phase)
    ensures ControlSnapshot(s, phase, true) == Rollback(s)
  {
  }

  /** What the guard of a save lets through is already retained, or is a valid
      advance of what is retained. */
  lemma Advances(a: Progress, s: Spec, m: Snapshot, phase: Phase, rollback: bool)
    requires ProgressInv(a) && s.toEpoch == s.fromEpoch + 1 && Fits(a, s, m) && Guard(a, Retain(phase, rollback))
    ensures var next := ControlSnapshot(s, phase, rollback);
            m == next || Compare(m, next) == Newer
  {
    hide ControlSnapshot, Compare, BuiltFrom;
    if BuiltFrom(s, m) {
      FirstAdvances(s, m);
    }
    if rollback {
      RollbackOnce(s, phase);
      RollbackOnce(s, a.phase);
      RollbackOnce(s, Previous(a.phase));
      RollbackAdvances(s, a.phase);
      RollbackAdvances(s, Previous(a.phase));
    } else if phase != Prepare {
      ForwardAdvances(s, Previous(phase));
    }
  }

  lemma NewerIsStored(p: Persistent, s: Snapshot)
    requires p.membership.Some? && Valid(s)
    requires p.membership.value == s || Compare(p.membership.value, s) == Newer
    ensures SaveMembership(p, s) == if p.membership.value == s then Unchanged else Stored(p.(membership := Some(s)))
  {
    hide Valid, Advance;
  }

  lemma SpecEpochs(s: Spec)
    requires ValidSpec(s)
    ensures s.toEpoch == s.fromEpoch + 1
  {
    hide Valid;
  }

  /** Wherever the controller saves a snapshot, the save is accepted: it stores a
      valid advance or finds the very snapshot already retained. */
  lemma SaveNeverRefused(w: World, g: GroupState, phase: Phase, rollback: bool)
    requires ProgressInv(g.at) && DocumentInv(w) && Retained(w) && w.p.group == Some(g)
             && Guard(g.at, Retain(phase, rollback))
    ensures var next := ControlSnapshot(g.spec, phase, rollback);
            SaveMembership(w.p, next) == if w.p.membership == Some(next) then Unchanged
                  else Stored(w.p.(membership := Some(next)))
    ensures w.p.membership == Some(ControlSnapshot(g.spec, phase, rollback))
            || Compare(w.p.membership.value, ControlSnapshot(g.spec, phase, rollback)) == Newer
  {
    hide Valid, ValidSpec, ControlSnapshot, Compare, Fits, Guard, ProgressInv, SaveMembership;
    PublicationsValid(g.spec, phase);
    SpecEpochs(g.spec);
    Advances(g.at, g.spec, w.p.membership.value, phase, rollback);
    NewerIsStored(w.p, ControlSnapshot(g.spec, phase, rollback));
  }

  // -------------------------------------------------------- what every step keeps

  /** The snapshot that must be retained before a publication is recorded. */
  predicate RecordsRetained(g: GroupState, step: Step, m: Snapshot) {
    && (step.RecordPublished? ==> m == Forwards(g.spec, step.phase))
    && (step.RecordCommitPublished? ==> m == Forwards(g.spec, Commit))
    && (step.RecordActivatePublished? ==> m == Forwards(g.spec, Activate))
    && (step.RecordRollbackPublished? ==> m == Rollback(g.spec))
  }

  lemma RecordsWhatIsRetained(w: World, g: GroupState, step: Step, o: Options)
    requires Justified(w, g, step, o) && w.p.membership.Some?
    ensures RecordsRetained(g, step, w.p.membership.value)
  {
    hide AckInScope, SampleInScope, SaveMembership, Open, DrainComplete, SnapshotAt, CommandsIssued, AllAcknowledged;
    RollbackOnce(g.spec, g.at.phase);
  }

  lemma FitsMoved(g: GroupState, step: Step, m: Snapshot)
    requires ProgressInv(g.at) && Guard(g.at, step) && Fits(g.at, g.spec, m) && RecordsRetained(g, step, m)
    requires SavesGroup(step)
    ensures Fits(ProgressAfter(g.at, step), g.spec, m)
  {
    hide ControlSnapshot, BuiltFrom;
  }

  lemma FitsRetained(g: GroupState, phase: Phase, rollback: bool)
    requires Guard(g.at, Retain(phase, rollback))
    ensures Fits(g.at, g.spec, ControlSnapshot(g.spec, phase, rollback))
  {
    hide SnapshotAt;
    RollbackOnce(g.spec, phase);
  }

  lemma RetainedByBegin(w: World, step: Step, h: World, o: Options)
    requires step.Begin? && Take(w, step, o) == Some(h) && Retained(w)
    ensures Retained(h) && h.log == w.log && h.p.membership == w.p.membership
  {
    hide ValidSpec, BuiltFrom, CanReplaceCompleted, ControlSnapshot, Fits;
    assert BuiltFrom(step.spec, w.p.membership.value);
    assert h.p.group.value.at == NOT_STARTED && h.p.group.value.spec == step.spec;
    assert Fits(NOT_STARTED, step.spec, w.p.membership.value) by {
      FitsFirst(step.spec, w.p.membership.value);
    }
  }

  lemma FitsFirst(s: Spec, m: Snapshot)
    requires BuiltFrom(s, m)
    ensures Fits(NOT_STARTED, s, m)
  {
    hide BuiltFrom, ControlSnapshot;
  }

  /** Only a save of a snapshot touches the retained membership and the log. */
  lemma MembershipSaved(w: World, step: Step, o: Options)
    requires NeedsGroup(step) ==> w.p.group.Some?
    ensures var h := After(w, step, o);
            if step.Retain? then
              var next := ControlSnapshot(w.p.group.value.spec, step.phase, step.rollback);
              h.p.membership == Some(next) && h.log == w.log + [next]
            else h.p.membership == w.p.membership && h.log == w.log
  {
    hide GroupAfter, EvidenceReady, EvidenceOf, RecordOf, ControlSnapshot;
  }

  lemma NoGroupStays(w: World, step: Step, h: World, o: Options)
    requires Take(w, step, o) == Some(h) && w.p.group.None? && !step.Begin?
    ensures h.p.group.None?
  {
    hide MayBegin;
  }

  lemma MembershipSavedStep(w: World, step: Step, h: World, o: Options)
    requires Take(w, step, o) == Some(h)
    ensures h.used == if step.Begin? then w.used + {step.spec.id} else w.used
    ensures step.Retain? ==> w.p.group.Some? && Guard(w.p.group.value.at, step)
    ensures if step.Retain? then
              var next := ControlSnapshot(w.p.group.value.spec, step.phase, step.rollback);
              h.p.membership == Some(next) && h.log == w.log + [next]
            else h.p.membership == w.p.membership && h.log == w.log
  {
    hide Guard, Justified, MayBegin, GroupAfter, EvidenceReady, EvidenceOf, RecordOf, ControlSnapshot, Reopened, Begun;
  }

  lemma RetainedBySave(w: World, step: Step, h: World, o: Options)
    requires SavesGroup(step) && Inv(w) && Take(w, step, o) == Some(h) && Retained(w)
    ensures Retained(h)
  {
    hide Guard, Justified, Fits, ProgressInv, TimesInv, MessageInv, TelemetryInv, GroupAfter, ProgressAfter;
    var g := w.p.group.value;
    SavedGroup(w, step, o);
    SavedProgress(w, step, o);
    SpecKept(w, step, h, o);
    MembershipSaved(w, step, o);
    RecordsWhatIsRetained(w, g, step, o);
    FitsMoved(g, step, w.p.membership.value);
  }

  lemma RetainedByRestart(w: World, step: Step, h: World, o: Options)
    requires step.Restart? && Inv(w) && Take(w, step, o) == Some(h) && Retained(w)
    ensures Retained(h)
  {
    hide Justified, Fits, ProgressInv, TimesInv, MessageInv, TelemetryInv, Reopened;
    RestartedGroup(w, step, o);
    ReopenedIs(w.p.group.value, w.now, o);
    MembershipSaved(w, step, o);
  }

  lemma RetainedByRetain(w: World, step: Step, h: World, o: Options)
    requires step.Retain? && Take(w, step, o) == Some(h) && Retained(w)
    ensures Retained(h)
  {
    hide Justified, Fits, Guard, ControlSnapshot;
    SameGroup(w, step, o);
    MembershipSaved(w, step, o);
    FitsRetained(w.p.group.value, step.phase, step.rollback);
  }

  lemma RetainedKept(w: World, step: Step, h: World, o: Options)
    requires Inv(w) && Take(w, step, o) == Some(h) && Retained(w)
    ensures Retained(h)
  {
    hide Inv, Retained;
    if step.Begin? {
      RetainedByBegin(w, step, h, o);
    } else if SavesGroup(step) {
      RetainedBySave(w, step, h, o);
    } else if step.Restart? {
      RetainedByRestart(w, step, h, o);
    } else if step.Retain? {
      RetainedByRetain(w, step, h, o);
    } else {
      RetainedOtherwise(w, step, h, o);
    }
  }

  lemma RetainedOtherwise(w: World, step: Step, h: World, o: Options)
    requires !SavesGroup(step) && !step.Begin? && !step.Restart? && !step.Retain?
    requires Take(w, step, o) == Some(h) && Retained(w)
    ensures Retained(h)
  {
    hide Justified, Guard, Fits;
    SameGroup(w, step, o);
    MembershipSaved(w, step, o);
  }

  lemma LoggedKept(w: World, step: Step, h: World, o: Options)
    requires Inv(w) && DocumentInv(w) && ChainInv(w) && Take(w, step, o) == Some(h)
    ensures Logged(h)
  {
    hide Justified, Guard, Fits, ControlSnapshot, Compare, Valid, ValidSpec, ProgressInv, TimesInv, MessageInv,
         TelemetryInv;
    MembershipSaved(w, step, o);
    if step.Retain? {
      SaveNeverRefused(w, w.p.group.value, step.phase, step.rollback);
      assert SaveMembership(w.p, ControlSnapshot(w.p.group.value.spec, step.phase, step.rollback)).Stored? by {
        RetainIsStored(w, step, h, o);
      }
    }
  }

  lemma RetainIsStored(w: World, step: Step, h: World, o: Options)
    requires step.Retain? && Take(w, step, o) == Some(h)
    ensures SaveMembership(w.p, ControlSnapshot(w.p.group.value.spec, step.phase, step.rollback)).Stored?
    ensures Guard(w.p.group.value.at, step)
  {
    hide SaveMembership, ControlSnapshot, Guard, CommandsIssued;
  }

  lemma {:induction false} RunChain(run: seq<World>, steps: seq<Step>, o: Options, n: nat)
    requires IsRun(run, steps, o) && n < |run|
    ensures ChainInv(run[n])
  {
    hide Take, Inv, Valid, ValidSpec, DocumentInv, Retained;
    if n == 0 {
      InitialRetained(run[0]);
    } else {
      RunChain(run, steps, o, n - 1);
      RunInv(run, steps, o, n - 1);
      RunDocument(run, steps, o, n - 1);
      RunStep(run, steps, o, n - 1);
      RetainedKept(run[n - 1], steps[n - 1], run[n], o);
      LoggedKept(run[n - 1], steps[n - 1], run[n], o);
    }
  }

  lemma InitialRetained(w: World)
    requires Initial(w)
    ensures Retained(w) && Logged(w)
  {
    hide Valid;
  }

  // ------------------------------------------------------------ the main results

  lemma {:induction false} ChainIncreases(log: seq<Snapshot>, i: nat, j: nat)
    requires Chain(log) && i < j < |log|
    ensures log[i].revision < log[j].revision && log[i].epoch <= log[j].epoch
    ensures log[i].version == log[j].version && log[i].group == log[j].group
    decreases j
  {
    hide Advance;
    if i + 1 < j {
      ChainIncreases(log, i, j - 1);
    }
  }

  /** Over any number of transitions every published snapshot has a larger
      revision than all before it, never a smaller epoch, and is accepted by a
      reconciler that has seen the one before it. */
  lemma PublicationChain(run: seq<World>, steps: seq<Step>, o: Options, n: nat)
    requires IsRun(run, steps, o) && n < |run|
    ensures var log := run[n].log;
            && log != [] && run[n].p.membership == Some(log[|log| - 1])
            && (forall i :: 0 < i < |log| ==> Compare(log[i - 1], log[i]) == Newer)
            && (forall i, j :: 0 <= i < j < |log| ==> log[i].revision < log[j].revision && log[i].epoch <= log[j].epoch)
  {
    hide IsRun, Compare, Retained;
    RunChain(run, steps, o, n);
    var log := run[n].log;
    forall i, j | 0 <= i < j < |log| ensures log[i].revision < log[j].revision && log[i].epoch <= log[j].epoch {
      ChainIncreases(log, i, j);
    }
  }

  /** The controller never finds its own snapshot refused, in any reachable state
      in which it would save one. */
  lemma PublicationNeverRefused(run: seq<World>, steps: seq<Step>, o: Options, n: nat, phase: Phase, rollback: bool)
    requires IsRun(run, steps, o) && n < |run| && run[n].p.group.Some?
    requires Guard(run[n].p.group.value.at, Retain(phase, rollback))
    ensures !SaveMembership(run[n].p, ControlSnapshot(run[n].p.group.value.spec, phase, rollback)).RefusedSave?
  {
    hide IsRun, Guard, SaveMembership, ControlSnapshot, Retained, DocumentInv, MessageInv, TimesInv, TelemetryInv,
         ProgressInv;
    RunInv(run, steps, o, n);
    RunDocument(run, steps, o, n);
    RunChain(run, steps, o, n);
    SaveNeverRefused(run[n], run[n].p.group.value, phase, rollback);
  }

  /** The published snapshots from one point of the log to another. */
  function Slice(log: seq<Snapshot>, i: nat, j: nat): set<Snapshot>
    requires i <= j < |log|
  {
    set k | i <= k <= j :: log[k]
  }

  predicate Rising(log: seq<Snapshot>) {
    forall a, b :: 0 <= a < b < |log| ==>
      log[a].revision < log[b].revision && log[a].epoch <= log[b].epoch && log[a].version == log[b].version
      && log[a].group == log[b].group
  }

  lemma ChainRises(log: seq<Snapshot>)
    requires Chain(log)
    ensures Rising(log)
  {
    hide Chain;
    forall a, b | 0 <= a < b < |log|
      ensures log[a].revision < log[b].revision && log[a].epoch <= log[b].epoch && log[a].version == log[b].version
              && log[a].group == log[b].group
    {
      ChainIncreases(log, a, b);
    }
  }

  lemma AdjacentIsNext(log: seq<Snapshot>, low: nat, j: nat, a: nat, b: nat)
    requires Rising(log) && low <= j < |log| && low <= a <= j && low <= b <= j
    requires Adjacent(log[a], log[b], Slice(log, low, j))
    ensures b == a + 1
  {
    assert a < b;
    assert log[a + 1] in Slice(log, low, j);
  }

  lemma SliceAdvances(log: seq<Snapshot>, low: nat, i: nat, j: nat)
    requires Chain(log) && Rising(log) && low <= i <= j < |log|
    ensures ChainAdvances(log[i], Slice(log, low, j))
  {
    hide Compare, Rising, Adjacent;
    var updates := Slice(log, low, j);
    assert log[i] in updates;
    forall v, u | v in updates + {log[i]} && u in updates && log[i].revision <= v.revision && Adjacent(v, u, updates)
      ensures Compare(v, u) == Newer
    {
      var a :| low <= a <= j && log[a] == v;
      var b :| low <= b <= j && log[b] == u;
      AdjacentIsNext(log, low, j, a, b);
    }
  }

  lemma SliceCoherent(log: seq<Snapshot>, low: nat, i: nat, j: nat)
    requires Chain(log) && low <= i <= j < |log|
    ensures Coherent(log[i], Slice(log, low, j)) && Latest(log[j], log[i], Slice(log, low, j))
  {
    hide Chain, ChainAdvances;
    ChainRises(log);
    SliceAdvances(log, low, i, j);
  }

  /** A client that reads any published snapshot as its baseline and has buffered,
      in any order and with any repeats, the deliveries from some earlier
      publication up to a later one ends at that later one. */
  lemma BootstrapFollowsChain(run: seq<World>, steps: seq<Step>, o: Options, n: nat, buffered: seq<Snapshot>, low: nat,
                              i: nat, j: nat)
    requires IsRun(run, steps, o) && n < |run| && low <= i <= j < |run[n].log|
    requires Elements(buffered) == Slice(run[n].log, low, j)
    ensures Finish(run[n].log[i], buffered) == Installed(run[n].log[j])
  {
    hide IsRun, Retained, Finish, Coherent;
    RunChain(run, steps, o, n);
    SliceCoherent(run[n].log, low, i, j);
    FinishMeaning(run[n].log[i], buffered);
    LatestUnique(run[n].log[i], Elements(buffered), Finish(run[n].log[i], buffered).snapshot, run[n].log[j]);
  }
}
