/** The dispatcher over whole runs: accounting under every interleaving, what a status
    means although it is three reads, and how long quiescence lasts. */
module DispatcherRuns {
  import opened Control
  import opened OutboxRecords
  import opened OutboxChanges
  import opened OutboxOrder
  import opened DispatcherSteps
  import opened DispatcherAccounting
  import PS = PublisherSteps

  lemma NothingPending(broker: string)
    ensures PendingOn(map[], broker) == 0
  {
    var none: map<string, Pending> := map[];
    assert (set id | id in none && none[id].broker == broker) == {};
  }

  lemma InitialKeeps(d: DispatcherState, cap: Capacity)
    requires Initial(d)
    ensures DispatchInv(d, cap)
  {
    hide PendingOn, OrderInv, StartedKnown;
    forall b ensures PendingOn(d.pending, b) == 0 {
      NothingPending(b);
    }
  }

  lemma PathStep(path: seq<DispatcherState>, steps: seq<Step>, cap: Capacity, i: nat)
    requires IsPath(path, steps, cap) && i < |steps|
    ensures CanDo(path[i], steps[i], cap) && path[i + 1] == Do(path[i], steps[i], cap)
  {
    hide CanDo, Do;
  }

  lemma {:induction false} PathKeeps(path: seq<DispatcherState>, steps: seq<Step>, cap: Capacity, n: nat)
    requires IsPath(path, steps, cap) && DispatchInv(path[0], cap) && n < |path|
    ensures DispatchInv(path[n], cap)
  {
    if n > 0 {
      PathStep(path, steps, cap, n - 1);
      hide DispatchInv, CanDo, Do;
      PathKeeps(path, steps, cap, n - 1);
      StepKeeps(path[n - 1], steps[n - 1], cap);
    }
  }

  lemma RunKeeps(run: seq<DispatcherState>, steps: seq<Step>, cap: Capacity, n: nat)
    requires IsDispatchRun(run, steps, cap) && n < |run|
    ensures DispatchInv(run[n], cap)
  {
    hide IsPath, Initial, DispatchInv;
    InitialKeeps(run[0], cap);
    PathKeeps(run, steps, cap, n);
  }

  /** However admissions, results, failed persistence, accepted messages, snapshots and
      operators interleave: pending attempts together with those being admitted stay
      within both limits, and every durable record in flight has a pending entry with its
      exact attempt and epoch, or is in the marked batch with exactly these. */
  lemma Accounting(run: seq<DispatcherState>, steps: seq<Step>, cap: Capacity, n: nat)
    requires IsDispatchRun(run, steps, cap) && n < |run|
    ensures var d := run[n];
            && |d.pending| + |Unregistered(d.stage)| <= cap.total
            && (cap.perBroker > 0 ==>
                forall b :: PendingOn(d.pending, b) + OnBroker(Unregistered(d.stage), b) <= cap.perBroker)
            && (forall id :: id in d.held.records && d.held.records[id].state == InFlight ==>
                  || (id in d.pending && d.pending[id] == PendingOf(d.held.records[id]))
                  || AdmittedFor(Unregistered(d.stage), d.held.records[id]))
  {
    hide IsDispatchRun, OrderInv, StartedKnown, PendingKnown, StageOk, ResultsOk, PendingOn, AdmittedFor;
    RunKeeps(run, steps, cap, n);
    var d := run[n];
    if cap.perBroker > 0 {
      forall b ensures PendingOn(d.pending, b) + OnBroker(Unregistered(d.stage), b) <= cap.perBroker {
        assert PendingOn(d.pending, b) + ReservedOn(d.stage, b) <= cap.perBroker;
      }
    }
  }

  // ------------------------------------------------------------------- quiescence

  /** Everything unsettled was so before, in the same epoch. */
  predicate StartsNone(a: Records, b: Records) {
    forall id :: id in b && Unsettled(b[id]) ==>
      id in a && Unsettled(a[id]) && b[id].content == a[id].content && b[id].route == a[id].route
      && b[id].attempts == a[id].attempts
  }

  lemma AcceptStartsNone(h: Held, batch: seq<Record>, first: nat)
    requires Acceptable(batch, first, h)
    ensures StartsNone(h.records, Overlay(h.records, batch))
  {
    OverlayIs(h.records, batch);
    hide Overlay;
    var after := Overlay(h.records, batch);
    forall id | id in after && id in EventIds(batch) ensures !Unsettled(after[id]) {
      var i :| 0 <= i < |batch| && batch[i] == after[id];
    }
  }

  lemma SettleStartsNone(records: Records, applied: seq<Completion>, now: nat)
    requires Matching(applied, records)
    ensures StartsNone(records, Settled(records, applied, applied, now))
  {
    var after := Settled(records, applied, applied, now);
    forall id | id in after && Changes(applied, id).Ok? ensures Unsettled(records[id]) {
      assert Applies(Changes(applied, id).value, records);
    }
  }

  lemma MutationStartsNone(records: Records, ids: set<string>, mutate: Mutation, now: nat)
    requires forall id :: id in records && mutate(id, records[id]).Ok? ==> !Unsettled(mutate(id, records[id]).value)
    ensures StartsNone(records, Mutated(records, ids, mutate, now))
  {
  }

  lemma BesideStartsNone(h: Held, c: Change)
    requires Possible(h, c) && (c.Accept? || c.Assign? || c.Retry? || c.Complete?)
    ensures StartsNone(h.records, Changed(h, c).records)
  {
    hide Overlay, Issue, Mutated, Settled, StartsNone;
    match c
    case Accept(batch, first) => AcceptStartsNone(h, batch, first);
    case Assign(ids, assignments, now) => MutationStartsNone(h.records, ids, Assigning(assignments), now);
    case Retry(ids, now) => MutationStartsNone(h.records, ids, Retrying(), now);
    case Complete(applied, now) => SettleStartsNone(h.records, applied, now);
  }

  predicate Barred(membership: map<string, Snapshot>, group: string) {
    group in membership ==> !PS.Dispatchable(membership[group])
  }

  /** The step installs a snapshot under which the group may be dispatched. */
  predicate Admits(step: Step, group: string) {
    step.Install? && step.snapshot.group == group && PS.Dispatchable(step.snapshot)
  }

  /** Whether a step takes its change of the outbox from beside the admission. */
  lemma ChangesBeside(d: DispatcherState, step: Step, cap: Capacity)
    requires CanDo(d, step, cap) && !step.MarkBatch? && ChangeOf(d, step).Some?
    ensures var c := ChangeOf(d, step).value;
            Possible(d.held, c) && (c.Accept? || c.Assign? || c.Retry? || c.Complete?)
            && (HoldsMembership(d.stage) ==> c.Accept? || c.Complete?)
  {
    hide Applied, UniqueBatch, Matching, Acceptable;
    match step
    case StoreAll(now) => StoredPossible(d.held.records, d.held.issued, CompletionsOf(d.committing.batch), now);
    case StoreOne(i, now) =>
      OneIsUnique(CompletionOf(d.committing.batch[i]));
      StoredPossible(d.held.records, d.held.issued, [CompletionOf(d.committing.batch[i])], now);
    case _ =>
  }

  lemma HeldStartsNone(d: DispatcherState, step: Step, cap: Capacity)
    requires CanDo(d, step, cap) && !step.MarkBatch?
    ensures StartsNone(d.held.records, OutboxAfter(d, step).records)
  {
    if ChangeOf(d, step).Some? {
      ChangesBeside(d, step, cap);
      hide CanDo, ChangeOf, Changed, Possible, StartsNone;
      BesideStartsNone(d.held, ChangeOf(d, step).value);
    } else {
      hide CanDo, ChangeOf;
    }
  }

  /** Marking starts attempts of the groups of its batch only. */
  lemma MarkedElsewhere(batch: seq<Record>, records: Records, now: nat, group: string)
    requires DistinctEvents(batch) && BatchReady(batch, records) && DurablyQuiet(records, group)
    requires forall i :: 0 <= i < |batch| ==> batch[i].content.group != group
    ensures DurablyQuiet(Mutated(records, EventIds(batch), Marking(), now), group)
  {
    var after := Mutated(records, EventIds(batch), Marking(), now);
    MarkedIs(batch, records, now);
    hide Mutated, DistinctEvents, BatchReady, EventIds;
    forall id | id in after ensures !InGroup(after[id], group) {
      MarkedEach(batch, records, now, id);
    }
  }

  lemma RegisteredElsewhere(pending: map<string, Pending>, batch: seq<Record>, group: string)
    requires NativelyQuiet(pending, group) && DistinctEvents(batch) && forall i :: 0 <= i < |batch| ==>
               batch[i].content.group != group
    ensures NativelyQuiet(Admitted(pending, batch), group)
  {
    AdmittedIs(pending, batch);
    hide Admitted, DistinctEvents;
    forall id | id in Admitted(pending, batch) ensures Admitted(pending, batch)[id].group != group {
      if id in EventIds(batch) {
        var i :| 0 <= i < |batch| && batch[i].content.eventId == id;
      }
    }
  }

  lemma OpenElsewhere(batch: seq<Record>, membership: map<string, Snapshot>, group: string)
    requires BatchOpen(batch, membership) && Barred(membership, group)
    ensures DistinctEvents(batch) && forall i :: 0 <= i < |batch| ==> batch[i].content.group != group
  {
  }

  lemma StepDurablyQuiet(d: DispatcherState, step: Step, cap: Capacity, group: string)
    requires DispatchInv(d, cap) && CanDo(d, step, cap) && Barred(d.membership, group)
             && DurablyQuiet(d.held.records, group)
    ensures DurablyQuiet(OutboxAfter(d, step).records, group)
  {
    if step.MarkBatch? {
      var batch := d.stage.batch;
      assert BatchOpen(batch, d.membership) && BatchReady(batch, d.held.records);
      hide DispatchInv, BatchOpen, BatchReady, Mutated, EventIds, DurablyQuiet;
      OpenElsewhere(batch, d.membership, group);
      MarkedElsewhere(batch, d.held.records, step.now, group);
    } else {
      hide DispatchInv, CanDo, OutboxAfter;
      HeldStartsNone(d, step, cap);
    }
  }

  lemma StepNativelyQuiet(d: DispatcherState, step: Step, cap: Capacity, group: string)
    requires DispatchInv(d, cap) && CanDo(d, step, cap) && Barred(d.membership, group)
             && NativelyQuiet(d.pending, group)
    ensures NativelyQuiet(Do(d, step, cap).pending, group)
  {
    if step.RegisterBatch? {
      assert BatchOpen(d.stage.batch, d.membership);
      hide DispatchInv, BatchOpen, Admitted, NativelyQuiet;
      OpenElsewhere(d.stage.batch, d.membership, group);
      RegisteredElsewhere(d.pending, d.stage.batch, group);
    } else if step.ReleaseStored? {
      hide DispatchInv, LeftPending;
      LeftPendingIs(d.pending, d.committing.batch, FailedIds(d.committing.batch, d.committing.stored));
    } else {
      hide DispatchInv, OutboxAfter, Chosen;
    }
  }

  lemma StepBars(d: DispatcherState, step: Step, cap: Capacity, group: string)
    requires CanDo(d, step, cap) && Barred(d.membership, group) && !Admits(step, group)
    ensures Barred(Do(d, step, cap).membership, group)
  {
    hide OutboxAfter, Chosen;
  }

  lemma StepQuiet(d: DispatcherState, step: Step, cap: Capacity, group: string)
    requires DispatchInv(d, cap) && CanDo(d, step, cap) && Barred(d.membership, group) && Quiet(d, group)
             && !Admits(step, group)
    ensures Quiet(Do(d, step, cap), group) && Barred(Do(d, step, cap).membership, group)
  {
    StepDurablyQuiet(d, step, cap, group);
    StepNativelyQuiet(d, step, cap, group);
    StepBars(d, step, cap, group);
    HeldIs(d, step, cap);
    hide DispatchInv, CanDo, Do, OutboxAfter;
  }

  lemma HeldIs(d: DispatcherState, step: Step, cap: Capacity)
    requires CanDo(d, step, cap)
    ensures Do(d, step, cap).held == OutboxAfter(d, step)
  {
    hide OutboxAfter, Chosen;
  }

  /** Quiescence of a group that may not be dispatched, once true, stays true until a
      dispatchable snapshot of the group is applied, also while an admission that began
      before is still under way. */
  lemma {:induction false} QuiescenceLasts(run: seq<DispatcherState>, steps: seq<Step>, cap: Capacity, i: nat, j: nat,
                                           group: string)
    requires IsDispatchRun(run, steps, cap) && i <= j < |run|
    requires Barred(run[i].membership, group) && Quiet(run[i], group)
    requires forall k :: i <= k < j ==> !Admits(steps[k], group)
    ensures Quiet(run[j], group) && Barred(run[j].membership, group)
    decreases j
  {
    hide DispatchInv, Quiet, Barred, CanDo, Do, Admits, Initial;
    if i < j {
      QuiescenceLasts(run, steps, cap, i, j - 1, group);
      RunKeeps(run, steps, cap, j - 1);
      PathStep(run, steps, cap, j - 1);
      StepQuiet(run[j - 1], steps[j - 1], cap, group);
    }
  }

  lemma {:induction false} DurablyQuietLasts(run: seq<DispatcherState>, steps: seq<Step>, cap: Capacity, i: nat, j: nat,
                                             group: string)
    requires IsDispatchRun(run, steps, cap) && i <= j < |run| && Barred(run[i].membership, group)
    requires forall k :: i <= k < j ==> !Admits(steps[k], group)
    ensures Barred(run[j].membership, group)
    ensures DurablyQuiet(run[i].held.records, group) ==> DurablyQuiet(run[j].held.records, group)
    decreases j
  {
    hide DispatchInv, DurablyQuiet, Barred, CanDo, Do, Admits, Initial, OutboxAfter;
    if i < j {
      DurablyQuietLasts(run, steps, cap, i, j - 1, group);
      RunKeeps(run, steps, cap, j - 1);
      PathStep(run, steps, cap, j - 1);
      var d, step := run[j - 1], steps[j - 1];
      HeldIs(d, step, cap);
      StepBars(d, step, cap, group);
      if DurablyQuiet(d.held.records, group) {
        StepDurablyQuiet(d, step, cap, group);
      }
    }
  }

  /** A status is three reads with anything in between: the group is found barred, then
      no record of it unsettled, then no attempt of it pending. Unless a dispatchable
      snapshot of the group is applied meanwhile, the group is quiet at the last read,
      and from then on. */
  lemma StatusSound(run: seq<DispatcherState>, steps: seq<Step>, cap: Capacity, phase: nat, durable: nat, native: nat,
                    n: nat, group: string)
    requires IsDispatchRun(run, steps, cap) && phase <= durable <= native <= n < |run|
    requires Barred(run[phase].membership, group) && DurablyQuiet(run[durable].held.records, group)
             && NativelyQuiet(run[native].pending, group)
    requires forall k :: phase <= k < n ==> !Admits(steps[k], group)
    ensures Quiet(run[n], group)
  {
    hide DurablyQuiet, NativelyQuiet, Barred, Admits, IsDispatchRun;
    RunIsLonger(run, steps, cap);
    DurablyQuietLasts(run, steps, cap, phase, durable, group);
    DurablyQuietLasts(run, steps, cap, durable, native, group);
    QuiescenceLasts(run, steps, cap, native, n, group);
  }

  lemma RunIsLonger(run: seq<DispatcherState>, steps: seq<Step>, cap: Capacity)
    requires IsDispatchRun(run, steps, cap)
    ensures |run| == |steps| + 1
  {
    hide CanDo, Do, Initial;
  }
}
