/** Missed updates: which later snapshot of the published chain a client installs over an
    earlier one when it saw nothing in between, over any number of transitions and
    rollbacks. Follows control/reconciler.go and controller/controller.go. */
module ControllerCatchup {
  import opened Control
  import opened Transition
  import opened ControllerState
  import opened ControllerSteps
  import opened ControllerRestart
  import opened ControllerChain

  // ------------------------------------------------------- how the chain is linked

  predicate SameRouting(a: Snapshot, b: Snapshot) {
    && a.version == b.version && a.group == b.group && a.namespace == b.namespace
    && a.libraryVersion == b.libraryVersion && a.hashContract == b.hashContract && a.algorithm == b.algorithm
    && a.queue == b.queue && a.destination == b.destination
  }

  /** Epoch, members and resources in use. */
  predicate SameServing(a: Snapshot, b: Snapshot) {
    a.epoch == b.epoch && a.current == b.current && a.currentResources == b.currentResources
  }

  predicate SameMove(a: Snapshot, b: Snapshot) {
    a.transition == b.transition && a.proposed == b.proposed && a.proposedResources == b.proposedResources
  }

  /** On the way to the next epoch. */
  predicate Moves(s: Snapshot) {
    s.transition.Some? && s.transition.value.toEpoch == s.epoch + 1
  }

  predicate Links(a: Snapshot, b: Snapshot) {
    && SameRouting(a, b) && a.revision < b.revision
    && match b.phase
       case PREPARE => a.phase == ACTIVE && SameServing(a, b) && Moves(b)
       case PAUSED => a.phase == PREPARE && SameServing(a, b) && SameMove(a, b) && Moves(b)
       case DRAIN => a.phase == PAUSED && SameServing(a, b) && SameMove(a, b) && Moves(b)
       case COMMITTED =>
         && a.phase == DRAIN && b.transition == a.transition && Moves(a) && b.epoch == a.epoch + 1
         && b.current == a.proposed && b.currentResources == a.proposedResources
       case ACTIVE => SameServing(a, b)
       case UNSUPPORTED(_) => false
  }

  predicate Linked(log: seq<Snapshot>) {
    && log != [] && log[0].phase == ACTIVE
    && forall i :: 0 < i < |log| ==> Links(log[i - 1], log[i])
  }

  /** No transition begins under an identity published before. */
  predicate NewMoves(log: seq<Snapshot>) {
    forall i, j :: 0 <= i < j < |log| && log[j].phase == PREPARE && log[i].phase != ACTIVE ==>
      log[i].transition != log[j].transition
  }

  /** Whatever was published under this identity belongs to the specification. */
  predicate OwnSnapshots(log: seq<Snapshot>, s: Spec) {
    forall i :: 0 <= i < |log| && log[i].transition.Some? && log[i].transition.value.id == s.id ==>
      log[i].revision >= RevisionFor(s.revision, 0)
  }

  predicate LogInv(w: World) {
    && Linked(w.log) && NewMoves(w.log)
    && (forall i :: 0 <= i < |w.log| && w.log[i].transition.Some? ==> w.log[i].transition.value.id in w.used)
    && (w.p.group.Some? ==> w.p.group.value.spec.id in w.used && OwnSnapshots(w.log, w.p.group.value.spec))
  }

  /** The snapshot a save lets through is linked to the one retained. */
  lemma SavedLinks(a: Progress, s: Spec, m: Snapshot, phase: Phase, rollback: bool)
    requires ProgressInv(a) && s.toEpoch == s.fromEpoch + 1 && Fits(a, s, m) && Guard(a, Retain(phase, rollback))
    requires m != ControlSnapshot(s, phase, rollback)
    ensures Links(m, ControlSnapshot(s, phase, rollback))
  {
    if rollback {
      RollbackOnce(s, phase);
    }
  }

  lemma SnapshotOf(s: Spec, phase: Phase, rollback: bool)
    ensures var c := ControlSnapshot(s, phase, rollback);
            && c.revision >= RevisionFor(s.revision, 0)
            && (c.transition.Some? ==> c.transition.value.id == s.id)
            && (c.phase == PREPARE ==> c.revision == RevisionFor(s.revision, 0) && c.transition.Some?)
  {
  }

  lemma LinkedNext(log: seq<Snapshot>, next: Snapshot)
    requires Linked(log) && Links(log[|log| - 1], next)
    ensures Linked(log + [next])
  {
    hide Links;
  }

  lemma NewMovesNext(log: seq<Snapshot>, s: Spec, phase: Phase, rollback: bool)
    requires NewMoves(log) && OwnSnapshots(log, s)
    requires forall i :: 0 <= i < |log| ==> log[i].revision < ControlSnapshot(s, phase, rollback).revision
    ensures NewMoves(log + [ControlSnapshot(s, phase, rollback)])
    ensures OwnSnapshots(log + [ControlSnapshot(s, phase, rollback)], s)
  {
    SnapshotOf(s, phase, rollback);
    hide ControlSnapshot, RevisionFor;
  }

  lemma LogRetained(w: World, step: Step, h: World, o: Options)
    requires Inv(w) && DocumentInv(w) && ChainInv(w) && LogInv(w) && step.Retain? && Take(w, step, o) == Some(h)
    ensures LogInv(h)
  {
    hide Justified, Guard, Fits, ControlSnapshot, Compare, Valid, ValidSpec, ProgressInv, TimesInv, MessageInv,
         TelemetryInv, Linked, NewMoves, OwnSnapshots, Chain, SaveMembership, Links;
    var g := w.p.group.value;
    var next := ControlSnapshot(g.spec, step.phase, step.rollback);
    MembershipSaved(w, step, o);
    SameGroup(w, step, o);
    RetainIsStored(w, step, h, o);
    SpecEpochs(g.spec);
    StoredIsNew(w.p, next);
    SavedLinks(g.at, g.spec, w.p.membership.value, step.phase, step.rollback);
    LinkedNext(w.log, next);
    forall i | 0 <= i < |w.log| ensures w.log[i].revision < next.revision {
      LinksRise(w.log[|w.log| - 1], next);
      if i < |w.log| - 1 {
        ChainIncreases(w.log, i, |w.log| - 1);
      }
    }
    NewMovesNext(w.log, g.spec, step.phase, step.rollback);
    SnapshotOf(g.spec, step.phase, step.rollback);
    MembershipSavedStep(w, step, h, o);
  }

  lemma LinksRise(a: Snapshot, b: Snapshot)
    requires Links(a, b)
    ensures a.revision < b.revision
  {
  }

  lemma StoredIsNew(p: Persistent, s: Snapshot)
    requires SaveMembership(p, s).Stored?
    ensures p.membership != Some(s)
  {
    hide Valid;
  }

  lemma LogBegun(w: World, step: Step, h: World, o: Options)
    requires LogInv(w) && step.Begin? && Take(w, step, o) == Some(h)
    ensures LogInv(h)
  {
    hide ValidSpec, BuiltFrom, CanReplaceCompleted, Linked, NewMoves;
  }

  lemma LogKept(w: World, step: Step, h: World, o: Options)
    requires Inv(w) && DocumentInv(w) && ChainInv(w) && LogInv(w) && Take(w, step, o) == Some(h)
    ensures LogInv(h)
  {
    if step.Begin? {
      LogBegun(w, step, h, o);
    } else if step.Retain? {
      LogRetained(w, step, h, o);
    } else {
      hide Inv, DocumentInv, ChainInv, Take, Linked, NewMoves, OwnSnapshots;
      MembershipSavedStep(w, step, h, o);
      if w.p.group.None? {
        NoGroupStays(w, step, h, o);
      } else {
        SpecKept(w, step, h, o);
      }
    }
  }

  lemma {:induction false} RunLog(run: seq<World>, steps: seq<Step>, o: Options, n: nat)
    requires IsRun(run, steps, o) && n < |run|
    ensures LogInv(run[n])
  {
    hide Take, Inv, DocumentInv, ChainInv, LogInv, Initial;
    if n == 0 {
      LogStarts(run[0]);
    } else {
      RunLog(run, steps, o, n - 1);
      RunInv(run, steps, o, n - 1);
      RunDocument(run, steps, o, n - 1);
      RunChain(run, steps, o, n - 1);
      RunStep(run, steps, o, n - 1);
      LogKept(run[n - 1], steps[n - 1], run[n], o);
    }
  }

  lemma LogStarts(w: World)
    requires Initial(w)
    ensures LogInv(w)
  {
    hide ValidNames, ValidMembership, ValidDescriptors, ValidResources;
  }

  // ------------------------------------------------------------- along the chain

  lemma {:induction false} RoutingStays(log: seq<Snapshot>, i: nat, j: nat)
    requires Linked(log) && i < j < |log|
    ensures SameRouting(log[i], log[j]) && log[i].revision < log[j].revision && log[i].epoch <= log[j].epoch
    decreases j
  {
    if i + 1 < j {
      RoutingStays(log, i, j - 1);
    }
  }

  /** Within an epoch members and resources stay, rolled back or not. */
  lemma {:induction false} ServingStays(log: seq<Snapshot>, i: nat, j: nat)
    requires Linked(log) && i < j < |log| && log[i].epoch == log[j].epoch
    ensures SameServing(log[i], log[j])
    decreases j
  {
    if i + 1 < j {
      RoutingStays(log, i, j - 1);
      RoutingStays(log, j - 1, j);
      ServingStays(log, i, j - 1);
    }
  }

  predicate NoneActive(log: seq<Snapshot>, i: nat, j: nat) {
    forall k :: i <= k <= j && k < |log| ==> log[k].phase != ACTIVE
  }

  predicate Proposes(s: Snapshot) {
    s.phase == PREPARE || s.phase == PAUSED || s.phase == DRAIN
  }

  /** Without an ACTIVE one between they are of one transition, in the order of phases. */
  lemma {:induction false} OneMove(log: seq<Snapshot>, i: nat, j: nat)
    requires Linked(log) && i < j < |log| && NoneActive(log, i, j)
    ensures log[i].transition == log[j].transition && Proposes(log[i]) && Moves(log[i])
    ensures if log[j].phase == COMMITTED
            then log[j].epoch == log[i].epoch + 1 && log[j].current == log[i].proposed
                 && log[j].currentResources == log[i].proposedResources
            else SameServing(log[i], log[j]) && SameMove(log[i], log[j])
    ensures log[j].phase == PAUSED ==> log[i].phase == PREPARE
    ensures log[j].phase == DRAIN ==> log[i].phase == PREPARE || log[i].phase == PAUSED
    ensures log[j].phase == COMMITTED ==> j == i + 1 || log[i].phase == PREPARE || log[i].phase == PAUSED
    ensures log[j].phase != PREPARE
    decreases j
  {
    if i + 1 < j {
      OneMove(log, i, j - 1);
    }
  }

  /** The PREPARE snapshot a transition began with. */
  lemma {:induction false} FirstOf(log: seq<Snapshot>, j: nat) returns (p: nat)
    requires Linked(log) && j < |log| && log[j].phase != ACTIVE
    ensures p <= j && log[p].phase == PREPARE && NoneActive(log, p, j)
    decreases j
  {
    if log[j].phase == PREPARE {
      p := j;
    } else {
      p := FirstOf(log, j - 1);
    }
  }

  lemma OtherMove(log: seq<Snapshot>, i: nat, j: nat)
    requires Linked(log) && NewMoves(log) && i < j < |log| && log[i].phase != ACTIVE && log[j].phase != ACTIVE
    ensures log[i].transition == log[j].transition <==> NoneActive(log, i, j)
  {
    if NoneActive(log, i, j) {
      OneMove(log, i, j);
    } else {
      var p := FirstOf(log, j);
      assert i < p;
      if p < j {
        OneMove(log, p, j);
      }
    }
  }

  lemma {:induction false} Shaped(log: seq<Snapshot>, i: nat)
    requires Linked(log) && i < |log|
    ensures !log[i].phase.UNSUPPORTED? && (Proposes(log[i]) ==> Moves(log[i]))
    ensures log[i].phase == COMMITTED ==>
              log[i].transition.Some? && log[i].transition.value.toEpoch == log[i].epoch
  {
    if i > 0 {
      assert Links(log[i - 1], log[i]);
    }
  }

  // -------------------------------------------------------------------- the main result

  /** What a client that has the left one and missed everything since does with the right
      one: an ACTIVE one is taken over another, within the epoch, and as the outcome of
      the proposal it knows; the others only in the order of one transition. */
  predicate CatchesUp(left: Snapshot, right: Snapshot) {
    match right.phase
    case ACTIVE =>
      || left.phase == ACTIVE || right.epoch == left.epoch
      || (Proposes(left) && right.epoch == left.epoch + 1
          && right.current == left.proposed && right.currentResources == left.proposedResources)
    case PREPARE => left.phase == ACTIVE && right.epoch == left.epoch
    case PAUSED => left.phase == PREPARE && right.transition == left.transition
    case DRAIN => (left.phase == PREPARE || left.phase == PAUSED) && right.transition == left.transition
    case COMMITTED => left.phase == DRAIN && right.transition == left.transition
    case UNSUPPORTED(_) => false
  }

  /** What is known of two snapshots of the chain. */
  predicate OnChain(left: Snapshot, right: Snapshot) {
    && SameRouting(left, right) && left.revision < right.revision && left.epoch <= right.epoch
    && (left.epoch == right.epoch ==> SameServing(left, right))
    && !left.phase.UNSUPPORTED? && !right.phase.UNSUPPORTED?
    && (Proposes(left) ==> Moves(left))
    && (left.phase == COMMITTED ==> left.transition.Some? && left.transition.value.toEpoch == left.epoch)
    && (left.phase != ACTIVE && right.phase != ACTIVE && left.transition == right.transition ==>
          && Proposes(left) && right.phase != PREPARE
          && (right.phase == PAUSED ==> left.phase == PREPARE)
          && (right.phase == DRAIN ==> left.phase == PREPARE || left.phase == PAUSED)
          && if right.phase == COMMITTED
             then right.epoch == left.epoch + 1 && right.current == left.proposed
                  && right.currentResources == left.proposedResources
             else SameServing(left, right) && SameMove(left, right))
  }

  lemma PairExact(left: Snapshot, right: Snapshot)
    requires OnChain(left, right)
    ensures Compare(left, right) == Newer <==> CatchesUp(left, right)
    ensures Compare(left, right) != Same && Compare(left, right) != Older
  {
  }

  lemma PairOnChain(log: seq<Snapshot>, i: nat, j: nat)
    requires Linked(log) && NewMoves(log) && i < j < |log|
    ensures OnChain(log[i], log[j])
  {
    hide Linked, NewMoves, Links;
    RoutingStays(log, i, j);
    if log[i].epoch == log[j].epoch {
      ServingStays(log, i, j);
    }
    Shaped(log, i);
    Shaped(log, j);
    if log[i].phase != ACTIVE && log[j].phase != ACTIVE {
      OtherMove(log, i, j);
      if log[i].transition == log[j].transition {
        OneMove(log, i, j);
      }
    }
  }

  /** Missed updates, exactly: of any two published snapshots, over any number of
      transitions and rollbacks, the later is installed over the earlier if and only if
      it catches up; otherwise it is refused as a conflict. Two of them are of one
      transition exactly when no ACTIVE one was published from the first to the second. */
  lemma MissedUpdates(run: seq<World>, steps: seq<Step>, o: Options, n: nat, i: nat, j: nat)
    requires IsRun(run, steps, o) && n < |run| && i < j < |run[n].log|
    ensures var left, right := run[n].log[i], run[n].log[j];
            && (Compare(left, right) == Newer <==> CatchesUp(left, right))
            && (!CatchesUp(left, right) ==> Compare(left, right) == Conflict)
            && (left.phase != ACTIVE && right.phase != ACTIVE ==>
                  (left.transition == right.transition <==> NoneActive(run[n].log, i, j)))
  {
    hide IsRun, Compare, CatchesUp, OnChain;
    RunLog(run, steps, o, n);
    var log := run[n].log;
    PairOnChain(log, i, j);
    PairExact(log[i], log[j]);
    PairConflicts(log[i], log[j]);
    if log[i].phase != ACTIVE && log[j].phase != ACTIVE {
      OtherMove(log, i, j);
    }
  }

  lemma PairConflicts(left: Snapshot, right: Snapshot)
    requires OnChain(left, right)
    ensures Compare(left, right) == Newer || Compare(left, right) == Conflict
  {
  }

  /** So whoever has an ACTIVE snapshot can take any later ACTIVE one, and whoever follows
      a transition can take its outcome, whatever was missed. */
  lemma ActiveCatchesUp(run: seq<World>, steps: seq<Step>, o: Options, n: nat, i: nat, j: nat)
    requires IsRun(run, steps, o) && n < |run| && i < j < |run[n].log| && run[n].log[j].phase == ACTIVE
    requires run[n].log[i].phase == ACTIVE || NoneActive(run[n].log, i, j - 1)
    ensures Compare(run[n].log[i], run[n].log[j]) == Newer
  {
    hide IsRun, Compare;
    RunLog(run, steps, o, n);
    MissedUpdates(run, steps, o, n, i, j);
    var log := run[n].log;
    if log[i].phase != ACTIVE {
      assert Links(log[j - 1], log[j]);
      if i < j - 1 {
        OneMove(log, i, j - 1);
      }
    }
  }

  /** A client at COMMITTED that misses the activation is not caught up by a later epoch. */
  lemma CommittedStays(run: seq<World>, steps: seq<Step>, o: Options, n: nat, i: nat, j: nat)
    requires IsRun(run, steps, o) && n < |run| && i < j < |run[n].log| && run[n].log[i].phase == COMMITTED
    ensures Compare(run[n].log[i], run[n].log[j]) == Newer <==>
              run[n].log[j].phase == ACTIVE && run[n].log[j].epoch == run[n].log[i].epoch
  {
    hide IsRun, Compare;
    MissedUpdates(run, steps, o, n, i, j);
  }
}
