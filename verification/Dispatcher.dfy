/** The asynchronous dispatcher as an object. Each method up to Release is one critical
    section of the original, and the object is always at the end of a run of
    DispatcherSteps and of a run of the outbox; so what holds over these runs, under
    every interleaving, holds of it. Dispatch and ApplyCompletions are their sections
    in a row. Follows shim/publisher/async_dispatcher.go. */
module Dispatcher {
  import opened Control
  import opened OutboxRecords
  import opened OutboxIndex
  import opened OutboxUpkeep
  import opened OutboxChanges
  import opened OutboxOrder
  import opened DispatcherSteps
  import opened DispatcherAccounting
  import opened DispatcherRuns
  import opened DispatcherEffects
  import OutboxEffects
  import DispatcherChoice
  import DispatcherClose
  import OutboxRecovery
  import OutboxSelection
  import OutboxStorage
  import Outbox
  import Placement
  import PO = PublisherObject

  // -------------------------------------------------------------------- the traces

  /** The dispatcher's run and the outbox's run both end here. */
  ghost predicate Traces(run: seq<DispatcherState>, steps: seq<Step>, history: seq<Held>, changes: seq<Change>,
                         cap: Capacity, d: DispatcherState) {
    && IsDispatchRun(run, steps, cap) && run[|run| - 1] == d
    && IsOutboxRun(history, changes) && history[|history| - 1] == d.held
  }

  function HistoryAfter(history: seq<Held>, d: DispatcherState, step: Step): seq<Held> {
    if ChangeOf(d, step).Some? then history + [OutboxAfter(d, step)] else history
  }

  function ChangesAfter(changes: seq<Change>, d: DispatcherState, step: Step): seq<Change> {
    if ChangeOf(d, step).Some? then changes + [ChangeOf(d, step).value] else changes
  }

  lemma RunGrows(run: seq<DispatcherState>, steps: seq<Step>, cap: Capacity, step: Step)
    requires IsDispatchRun(run, steps, cap) && CanDo(run[|run| - 1], step, cap)
    ensures IsDispatchRun(run + [Do(run[|run| - 1], step, cap)], steps + [step], cap)
  {
    hide CanDo, Do, Initial;
    var next := Do(run[|run| - 1], step, cap);
    var more, taken := run + [next], steps + [step];
    assert more[0] == run[0];
    forall i | 0 <= i < |taken| ensures CanDo(more[i], taken[i], cap) && more[i + 1] == Do(more[i], taken[i], cap) {
      if i < |steps| {
        PathStep(run, steps, cap, i);
      }
    }
  }

  lemma OutboxRunGrows(history: seq<Held>, changes: seq<Change>, c: Change)
    requires IsOutboxRun(history, changes) && Possible(history[|history| - 1], c)
    ensures IsOutboxRun(history + [Changed(history[|history| - 1], c)], changes + [c])
  {
    hide Possible, Changed;
  }

  /** What a step does to the outbox is a change the outbox's runs allow. */
  lemma StepPossible(d: DispatcherState, step: Step, cap: Capacity)
    requires DispatchInv(d, cap) && CanDo(d, step, cap) && ChangeOf(d, step).Some?
    ensures Possible(d.held, ChangeOf(d, step).value)
  {
    if step.MarkBatch? {
      assert BatchReady(d.stage.batch, d.held.records);
      hide DispatchInv, BatchReady;
      ReadyPossible(d.held, d.stage.batch, step.now);
    } else {
      hide DispatchInv;
      ChangesBeside(d, step, cap);
    }
  }

  lemma TraceGrows(run: seq<DispatcherState>, steps: seq<Step>, history: seq<Held>, changes: seq<Change>, cap: Capacity,
                   d: DispatcherState, step: Step)
    requires Traces(run, steps, history, changes, cap, d) && CanDo(d, step, cap)
    ensures Traces(run + [Do(d, step, cap)], steps + [step], HistoryAfter(history, d, step),
                   ChangesAfter(changes, d, step), cap, Do(d, step, cap))
  {
    hide CanDo, Do, DispatchInv, IsDispatchRun, IsOutboxRun, Possible, Changed, ChangeOf;
    RunLength(run, steps, history, changes, cap);
    RunGrows(run, steps, cap, step);
    RunKeeps(run, steps, cap, |run| - 1);
    HeldIs(d, step, cap);
    if ChangeOf(d, step).Some? {
      StepPossible(d, step, cap);
      OutboxRunGrows(history, changes, ChangeOf(d, step).value);
    }
  }

  lemma RunLength(run: seq<DispatcherState>, steps: seq<Step>, history: seq<Held>, changes: seq<Change>, cap: Capacity)
    requires IsDispatchRun(run, steps, cap) && IsOutboxRun(history, changes)
    ensures |run| > 0 && |history| > 0
  {
    hide CanDo, Do, Initial, Possible, Changed;
  }

  // ------------------------------------------------------------------- helpers

  function IdsOf(batch: seq<Record>): (ids: seq<string>)
    ensures |ids| == |batch| && forall i :: 0 <= i < |ids| ==> ids[i] == batch[i].content.eventId
  {
    seq(|batch|, i requires 0 <= i < |batch| => batch[i].content.eventId)
  }

  lemma BatchMutable(batch: seq<Record>, records: Records)
    requires DistinctEvents(batch) && BatchReady(batch, records) && forall id :: id in records ==> id != ""
    ensures Mutable(IdsOf(batch), records, Marking())
    ensures OutboxStorage.Elements(IdsOf(batch)) == EventIds(batch)
  {
    hide Oldest;
  }

  function FinishedIds(s: seq<Finished>): set<string> {
    set i | 0 <= i < |s| :: s[i].eventId
  }

  /** The results of a prefix that were not stored. */
  function Failures(batch: seq<Finished>, stored: set<nat>): seq<Finished> {
    if batch == [] then []
    else Failures(batch[..|batch| - 1], stored) + if |batch| - 1 in stored then [] else [batch[|batch| - 1]]
  }

  lemma {:induction false} FailuresAre(batch: seq<Finished>, stored: set<nat>)
    ensures FinishedIds(Failures(batch, stored)) == FailedIds(batch, stored)
    ensures forall f :: f in Failures(batch, stored) ==> f in batch
  {
    if batch != [] {
      var rest, f := batch[..|batch| - 1], batch[|batch| - 1];
      FailuresAre(rest, stored);
      FinishedIdsNext(Failures(rest, stored), f);
      FailedIdsNext(batch, stored);
    }
  }

  /** With distinct events the failures are the results not stored. */
  lemma {:induction false} FailedAre(batch: seq<Finished>, stored: set<nat>)
    requires DistinctResults(batch)
    ensures forall i :: 0 <= i < |batch| ==> (batch[i] in Failures(batch, stored) <==> i !in stored)
  {
    if batch != [] {
      var rest, f := batch[..|batch| - 1], batch[|batch| - 1];
      FailedAre(rest, stored);
      FailuresAre(rest, stored);
      assert f !in rest;
      forall i | 0 <= i < |rest| ensures rest[i] == batch[i] && batch[i] != f {
      }
    }
  }

  lemma FinishedIdsNext(s: seq<Finished>, f: Finished)
    ensures FinishedIds(s + [f]) == FinishedIds(s) + {f.eventId}
    ensures s + [] == s
  {
    var more := s + [f];
    assert more[|s|] == f;
    forall i | 0 <= i < |s| ensures more[i] == s[i] && s[i].eventId in FinishedIds(s) {
    }
  }

  lemma FailedIdsNext(batch: seq<Finished>, stored: set<nat>)
    requires batch != []
    ensures var rest, f := batch[..|batch| - 1], batch[|batch| - 1];
            FailedIds(batch, stored) == FailedIds(rest, stored) + if |batch| - 1 in stored then {} else {f.eventId}
  {
    var rest, f := batch[..|batch| - 1], batch[|batch| - 1];
    var a, b := FailedIds(batch, stored), FailedIds(rest, stored) + if |batch| - 1 in stored then {} else {f.eventId};
    forall id | id in a ensures id in b {
      var i :| 0 <= i < |batch| && i !in stored && batch[i].eventId == id;
      assert i < |rest| ==> rest[i] == batch[i] && rest[i].eventId in FailedIds(rest, stored);
    }
    forall id | id in b ensures id in a {
      if id in FailedIds(rest, stored) {
        var i :| 0 <= i < |rest| && i !in stored && rest[i].eventId == id;
        assert batch[i] == rest[i];
      }
    }
  }

  /** What a new record was stored as is not unsettled. */
  lemma NewIsSettled(m: PO.Message, membership: map<string, Snapshot>, contracts: map<string, PO.Contract>,
                     scoring: Placement.Scoring, sequence: nat, now: nat, size: Content -> nat)
    requires PO.RecordFor(m, membership, contracts, scoring).Some?
    ensures !Unsettled(Stamp(PO.RecordFor(m, membership, contracts, scoring).value, sequence, now, size))
  {
    hide Placement.RouteFor, PO.Admissible;
  }

  lemma NoneMarked(records: Records, now: nat)
    ensures Mutated(records, EventIds([]), Marking(), now) == records
    ensures OutboxEffects.WentInFlight(EventIds([]), records, records, now)
  {
  }

  datatype DispatcherStatus = DispatcherStatus(paused: bool, durable: nat, uncertain: nat, native: nat, quiescent: bool)

  // ------------------------------------------------------------------- the object

  class AsyncDispatcher {
    const publisher: PO.Publisher
    const cap: Capacity

    var pending: map<string, Pending>
    var stage: Stage             // the admission under dispatchMu
    var committing: Committing   // the results under commitMu
    var closed: bool
    var stopped: bool

    ghost var started: map<AttemptId, nat>
    ghost var run: seq<DispatcherState>
    ghost var steps: seq<Step>
    ghost var history: seq<Held>
    ghost var changes: seq<Change>

    ghost function Now(): DispatcherState
      reads this, publisher, publisher.store
    {
      DispatcherState(Held(publisher.store.records, publisher.store.issued), publisher.membership, pending, stage,
                      committing, started, closed, stopped)
    }

    ghost predicate Valid()
      reads this, publisher, publisher.store
    {
      publisher.Valid() && 0 < cap.total && Traces(run, steps, history, changes, cap, Now())
    }

    /** The run went on by exactly this step. */
    ghost predicate Took(before: seq<DispatcherState>, taken: seq<Step>, step: Step)
      reads this, publisher, publisher.store
    {
      run == before + [Now()] && steps == taken + [step]
    }

    /** A dispatcher starts on an outbox just opened, which has nothing in flight. */
    constructor (p: PO.Publisher, maximum: nat, perBroker: nat, ghost before: seq<Held>, ghost led: seq<Change>,
                 ghost made: map<AttemptId, nat>)
      requires p.Valid() && 0 < maximum && perBroker <= maximum
      requires IsOutboxRun(before, led) && before[|before| - 1] == Held(p.store.records, p.store.issued)
      requires forall id :: id in p.store.records ==> p.store.records[id].state != InFlight
      requires StartedKnown(Held(p.store.records, p.store.issued), made)
      ensures Valid() && publisher == p && cap == Capacity(maximum, perBroker)
      ensures pending == map[] && stage == Idle && committing == NoResults && !closed && !stopped
      ensures history == before && changes == led && started == made && steps == []
    {
      hide PO.Publisher.Valid, IsOutboxRun, OrderInv, StartedKnown;
      publisher, cap := p, Capacity(maximum, perBroker);
      pending, stage, committing, closed, stopped := map[], Idle, NoResults, false, false;
      started, steps, history, changes := made, [], before, led;
      run := [DispatcherState(Held(p.store.records, p.store.issued), p.membership, map[], Idle, NoResults, made,
                              false, false)];
      new;
      OutboxRunLength(before, led);
      RunInOrder(before, led, |before| - 1);
    }

    lemma Kept()
      requires Valid()
      ensures DispatchInv(Now(), cap) && publisher.store.Valid()
    {
      hide DispatchInv, IsDispatchRun, IsOutboxRun, Outbox.Store.Valid, Placement.Queued, Placement.Agrees,
           Control.Valid;
      RunLength(run, steps, history, changes, cap);
      RunKeeps(run, steps, cap, |run| - 1);
    }

    lemma Opened()
      requires Valid()
      ensures publisher.store.Valid() && 0 < cap.total
      ensures IsOutboxRun(history, changes) && |history| > 0
              && history[|history| - 1] == Held(publisher.store.records, publisher.store.issued)
      ensures StartedKnown(Held(publisher.store.records, publisher.store.issued), started)
    {
      hide IsDispatchRun, StartedKnown, OrderInv, PendingKnown, Accounted, WithinLimits, StageOk, ResultsOk;
      OutboxRunLength(history, changes);
      hide IsOutboxRun;
      Kept();
    }

    ghost method Note(before: DispatcherState, step: Step)
      requires publisher.Valid() && 0 < cap.total && Traces(run, steps, history, changes, cap, before)
      requires CanDo(before, step, cap) && Now() == Do(before, step, cap)
      modifies this`run, this`steps, this`history, this`changes
      ensures Valid() && Took(old(run), old(steps), step)
    {
      hide PO.Publisher.Valid, Traces, CanDo, Do;
      TraceGrows(run, steps, history, changes, cap, before, step);
      run, steps := run + [Now()], steps + [step];
      history, changes := HistoryAfter(history, before, step), ChangesAfter(changes, before, step);
    }

    // ------------------------------------------------------------------ admission

    /** Under the dispatcher's lock: not closed, and something is left of the limit. */
    method CheckLimits(limit: int) returns (ok: bool)
      requires Valid() && stage.Idle?
      modifies this`stage, this`run, this`steps, this`history, this`changes
      ensures Valid() && (ok <==> limit > 0 && !closed && |pending| < cap.total)
      ensures ok ==> stage == Checked(Wanted(limit), if cap.perBroker > 0 then Counts(pending) else map[])
      ensures ok ==> Took(old(run), old(steps), Step.CheckLimits(Wanted(limit)))
      ensures !ok ==> stage == Idle && run == old(run) && steps == old(steps)
    {
      hide PO.Publisher.Valid, Traces, Counts;
      ok := limit > 0 && !closed && |pending| < cap.total;
      if ok {
        ghost var before := Now();
        stage := Checked(Wanted(limit), if cap.perBroker > 0 then Counts(pending) else map[]);
        Note(before, Step.CheckLimits(Wanted(limit)));
      }
    }

    function Wanted(limit: int): nat
      requires limit > 0 && |pending| < cap.total
      reads this
    {
      if limit < cap.total - |pending| then limit else cap.total - |pending|
    }

    /** From here the membership is held. Takes the eligible records of the dispatchable
        groups. */
    method Select() returns (ok: bool)
      requires Valid() && stage.Checked?
      modifies this`stage, this`run, this`steps, this`history, this`changes
      ensures Valid()
      ensures var batch := Scan(publisher.store.LiveRecords(), publisher.store.records, old(stage).limit,
                                FilterFor(publisher.membership, old(stage).counts, cap.perBroker));
              && (ok <==> batch != []) && stage == (if ok then Selected(batch) else Idle)
              && DispatcherChoice.IsChoice(batch, publisher.store.records, publisher.membership, old(stage).limit,
                                           old(stage).counts, cap.perBroker)
      ensures if ok then Took(old(run), old(steps), Choose(publisher.store.LiveRecords()))
                else Took(old(run), old(steps), Withdraw)
    {
      hide Traces, Scan, FilterFor, Enumerates, Outbox.Store.Valid, Placement.Queued, Placement.Agrees, Control.Valid,
           CanDo, Do, DispatcherChoice.IsChoice, OutboxSelection.IsSelection;
      ghost var before := Now();
      var store := publisher.store;
      store.Listed();
      DispatcherChoice.ChosenExactly(before, store.LiveRecords(), cap);
      ChooseIs(before, store.LiveRecords(), cap);
      var batch := store.EligibleFor(stage.limit, FilterFor(publisher.membership, stage.counts, cap.perBroker));
      ok := |batch| > 0;
      if ok {
        stage := Selected(batch);
        Note(before, Choose(store.LiveRecords()));
      } else {
        stage := Idle;
        Note(before, Withdraw);
      }
    }

    /** The durable mark of the whole batch, or none. */
    method Mark(now: nat, committed: bool)
      requires Valid() && stage.Selected?
      modifies this`stage, this`started, this`run, this`steps, this`history, this`changes, publisher.store
      ensures Valid() && publisher.store.issued == old(publisher.store.issued)
      ensures stage == if committed then Marked(old(stage).batch) else Idle
      ensures publisher.store.records ==
                if committed then Mutated(old(publisher.store.records), EventIds(old(stage).batch), Marking(), now)
                  else old(publisher.store.records)
      ensures committed ==>
                OutboxEffects.WentInFlight(EventIds(old(stage).batch), old(publisher.store.records),
                                           publisher.store.records, now)
      ensures DistinctEvents(old(stage).batch)
      ensures if committed then Took(old(run), old(steps), MarkBatch(now)) else Took(old(run), old(steps), Withdraw)
    {
      hide OutboxEffects.WentInFlight, OutboxEffects.AllIn, Traces, Mutated, Mutable, EventIds, Outbox.Store.Valid,
           Placement.Queued, Placement.Agrees, Control.Valid, BatchReady, Attempted, OrderInv, StartedKnown,
           PendingKnown, Accounted, WithinLimits, ResultsOk, CanDo, Do;
      ghost var before := Now();
      var store, batch := publisher.store, stage.batch;
      Kept();
      MarkIs(before, now, cap);
      store.NamedRecords();
      BatchMutable(batch, store.records);
      var reply := store.MarkInFlightMany(IdsOf(batch), now, committed);
      if reply.Done? {
        stage := Marked(batch);
        started := Attempted(started, batch, publisher.membership);
        Note(before, MarkBatch(now));
      } else {
        stage := Idle;
        Note(before, Withdraw);
      }
    }

    /** Under the dispatcher's lock: the marked batch becomes pending. */
    method Register()
      requires Valid() && stage.Marked?
      modifies this`stage, this`pending, this`run, this`steps, this`history, this`changes
      ensures Valid() && stage == Submitting(old(stage).batch) && pending == Admitted(old(pending), old(stage).batch)
      ensures DistinctEvents(old(stage).batch) ==> WereRegistered(old(stage).batch, old(pending), pending)
      ensures Took(old(run), old(steps), RegisterBatch)
    {
      hide PO.Publisher.Valid, Traces, WereRegistered, DistinctEvents, Entry, CanDo, Do;
      ghost var before := Now();
      CanRegister(before, cap);
      var next, batch := pending, stage.batch;
      for i := 0 to |batch|
        invariant next == Admitted(pending, batch[..i])
      {
        assert batch[..i + 1][..i] == batch[..i];
        next := next[batch[i].content.eventId := Entry(batch[i])];
      }
      assert batch[..|batch|] == batch;
      hide Admitted;
      if DistinctEvents(batch) {
        AdmittingMeans(batch, pending);
      }
      pending, stage := next, Submitting(batch);
      Note(before, RegisterBatch);
    }

    /** Every submission has returned; the membership is let go. */
    method Finish()
      requires Valid() && stage.Submitting?
      modifies this`stage, this`run, this`steps, this`history, this`changes
      ensures Valid() && stage == Idle && Took(old(run), old(steps), EndAdmission)
    {
      hide PO.Publisher.Valid, Traces;
      ghost var before := Now();
      stage := Idle;
      Note(before, EndAdmission);
    }

    /** An admission that nothing comes between admits exactly the eligible records
        within the limits and the epochs of the dispatchable groups, and accounts for
        each. */
    method Dispatch(limit: int, now: nat, committed: bool) returns (admitted: seq<Record>)
      requires Valid() && stage.Idle?
      modifies this`stage, this`pending, this`started, this`run, this`steps, this`history, this`changes, publisher.store
      ensures Valid() && stage.Idle? && publisher.store.issued == old(publisher.store.issued)
      ensures admitted ==
                if limit > 0 && !closed && |old(pending)| < cap.total && committed
                then Scan(old(publisher.store.LiveRecords()), old(publisher.store.records), old(Wanted(limit)),
                          FilterFor(publisher.membership, Counts(old(pending)), cap.perBroker))
                else []
      ensures !closed && committed ==>
                DispatcherChoice.IsAdmission(admitted, old(publisher.store.records), publisher.membership, old(pending),
                                             limit, cap)
      ensures publisher.store.records == Mutated(old(publisher.store.records), EventIds(admitted), Marking(), now)
      ensures pending == Admitted(old(pending), admitted)
      ensures OutboxEffects.WentInFlight(EventIds(admitted), old(publisher.store.records), publisher.store.records, now)
      ensures WereRegistered(admitted, old(pending), pending)
    {
      hide Valid, Took, Scan, FilterFor, Mutated, EventIds, Admitted, Counts, DispatcherChoice.IsChoice,
           DispatcherChoice.IsAdmission, OutboxEffects.WentInFlight, WereRegistered, DistinctEvents;
      ghost var records, members, busy := publisher.store.records, publisher.membership, pending;
      admitted := [];
      NoneMarked(publisher.store.records, now);
      NoneAdmitted(pending);
      var ok := CheckLimits(limit);
      if !ok {
        if !closed {
          DispatcherChoice.NoRoom(records, members, busy, limit, cap);
        }
        return;
      }
      CountsUnused(publisher.membership, Counts(pending), cap.perBroker);
      ghost var wanted, counts := stage.limit, stage.counts;
      ok := Select();
      DispatcherChoice.CountsIrrelevant(if ok then stage.batch else [], records, members, wanted, counts, Counts(busy),
                                        cap.perBroker);
      DispatcherChoice.ChoiceIsAdmission(if ok then stage.batch else [], records, members, busy, limit, wanted, cap);
      if !ok {
        return;
      }
      var batch := stage.batch;
      Mark(now, committed);
      if !committed {
        return;
      }
      Register();
      Finish();
      admitted := batch;
    }

    // -------------------------------------------------------------------- results

    /** Under the commit lock: results of attempts made here are to be stored. */
    method Begin(results: seq<Finished>)
      requires Valid() && committing.NoResults? && forall f :: f in results ==>
                 AttemptId(f.eventId, f.number) in started
      modifies this`committing, this`run, this`steps, this`history, this`changes
      ensures Valid() && committing == Storing(results, {}) && Took(old(run), old(steps), Deliver(results))
    {
      hide PO.Publisher.Valid, Traces;
      ghost var before := Now();
      committing := Storing(results, {});
      Note(before, Deliver(results));
    }

    /** All results in one transaction. */
    method StoreTogether(now: nat, committed: bool) returns (ok: bool)
      requires Valid() && committing.Storing?
      modifies this`committing, this`run, this`steps, this`history, this`changes, publisher.store
      ensures Valid() && publisher.store.issued == old(publisher.store.issued)
      ensures ok <==>
                && DistinctResults(old(committing).batch)
                && (committed || forall f :: f in old(committing).batch ==> !Awaited(f, old(publisher.store.records)))
      ensures committing == Storing(old(committing).batch,
                                    if ok then Range(|old(committing).batch|) else old(committing).stored)
      ensures ok ==> ResultsShown(committing.batch, committing.stored, old(publisher.store.records),
                                  publisher.store.records, now)
      ensures ok ==> Took(old(run), old(steps), StoreAll(now))
      ensures !ok ==> publisher.store.records == old(publisher.store.records) && run == old(run) && steps == old(steps)
      ensures StartsNone(old(publisher.store.records), publisher.store.records)
    {
      hide Traces, Applied, Settled, UniqueBatch, Outbox.Store.Valid, Placement.Queued, Placement.Agrees, Control.Valid,
           StartsNone, CanDo, Do, OutboxAfter, CompletionsOf, Range, DistinctResults, Awaited, ResultsShown,
           OutboxEffects.TakesCurrent, OutboxEffects.WereSettled;
      ghost var before := Now();
      SameStartsNone(publisher.store.records);
      UniqueMeans(committing.batch);
      if DistinctResults(committing.batch) {
        NoneAwaited(committing.batch, publisher.store.records);
        TogetherShown(committing.batch, publisher.store.records, now);
      }
      var reply := publisher.store.CompleteBatch(CompletionsOf(committing.batch), now, committed);
      ok := reply.Completed?;
      if ok {
        committing := committing.(stored := Range(|committing.batch|));
        StoreAllIs(before, now, cap);
        HeldIs(before, StoreAll(now), cap);
        HeldStartsNone(before, StoreAll(now), cap);
        Note(before, StoreAll(now));
      }
    }

    /** One result in its own transaction. */
    method StoreSingly(i: nat, now: nat, committed: bool) returns (ok: bool)
      requires Valid() && committing.Storing? && i < |committing.batch|
      modifies this`committing, this`run, this`steps, this`history, this`changes, publisher.store
      ensures Valid() && publisher.store.issued == old(publisher.store.issued)
      ensures ok <==>
                && old(committing).batch[i].eventId != ""
                && (committed || !Awaited(old(committing).batch[i], old(publisher.store.records)))
      ensures committing == Storing(old(committing).batch,
                                    if ok then old(committing).stored + {i} else old(committing).stored)
      ensures ok ==>
                ResultsShown([committing.batch[i]], {0}, old(publisher.store.records), publisher.store.records, now)
      ensures ok ==> Took(old(run), old(steps), StoreOne(i, now))
      ensures !ok ==> publisher.store.records == old(publisher.store.records) && run == old(run) && steps == old(steps)
      ensures StartsNone(old(publisher.store.records), publisher.store.records)
    {
      hide Traces, Applied, Settled, UniqueBatch, Outbox.Store.Valid, Placement.Queued, Placement.Agrees, Control.Valid,
           StartsNone, CanDo, Do, OutboxAfter, Awaited, ResultsShown, OutboxEffects.TakesCurrent,
           OutboxEffects.WereSettled;
      ghost var before := Now();
      SameStartsNone(publisher.store.records);
      if committing.batch[i].eventId != "" {
        OneShown(committing.batch[i], publisher.store.records, now);
      }
      OneIsUnique(CompletionOf(committing.batch[i]));
      var reply := publisher.store.CompleteBatch([CompletionOf(committing.batch[i])], now, committed);
      ok := reply.Completed?;
      if ok {
        committing := committing.(stored := committing.stored + {i});
        StoreOneIs(before, i, now, cap);
        HeldIs(before, StoreOne(i, now), cap);
        HeldStartsNone(before, StoreOne(i, now), cap);
        Note(before, StoreOne(i, now));
      }
    }

    /** Under both locks: the attempts whose exact result was stored are let go. */
    method Release()
      requires Valid() && committing.Storing?
      modifies this`committing, this`pending, this`run, this`steps, this`history, this`changes
      ensures Valid() && committing == NoResults && Took(old(run), old(steps), ReleaseStored)
      ensures pending == LeftPending(old(pending), old(committing).batch,
                                     FailedIds(old(committing).batch, old(committing).stored))
    {
      hide PO.Publisher.Valid, Traces;
      ghost var before := Now();
      var next, batch := pending, committing.batch;
      var failed := FailedIds(batch, committing.stored);
      hide FailedIds;
      for i := 0 to |batch|
        invariant next == LeftPending(pending, batch[..i], failed)
      {
        assert batch[..i + 1][..i] == batch[..i];
        var f := batch[i];
        if f.eventId in next && next[f.eventId].number == f.number && next[f.eventId].epoch == f.epoch
            && f.eventId !in failed {
          next := next - {f.eventId};
        }
      }
      assert batch[..|batch|] == batch;
      hide LeftPending;
      pending, committing := next, NoResults;
      Note(before, ReleaseStored);
    }

    /** Stores the results that can be stored one by one. */
    method StoreEach(now: nat, persists: nat -> bool)
      requires Valid() && committing.Storing? && committing.stored == {}
      modifies this`committing, this`run, this`steps, this`history, this`changes, publisher.store
      ensures Valid() && publisher.store.issued == old(publisher.store.issued)
      ensures committing.Storing? && committing.batch == old(committing).batch
      ensures forall i :: i in committing.stored ==> i < |committing.batch|
      ensures forall i :: 0 <= i < |committing.batch| && committing.batch[i].eventId != "" && persists(i) ==>
                i in committing.stored
      ensures DistinctResults(committing.batch) ==>
                ResultsShown(committing.batch, committing.stored, old(publisher.store.records), publisher.store.records,
                             now)
      ensures StartsNone(old(publisher.store.records), publisher.store.records)
    {
      hide Valid, Took, StartsNone, Applied, ResultsShown, DistinctResults, Awaited;
      SameStartsNone(publisher.store.records);
      NothingShown(committing.batch, publisher.store.records, now);
      for i := 0 to |committing.batch|
        invariant Valid() && publisher.store.issued == old(publisher.store.issued)
        invariant committing.Storing? && committing.batch == old(committing).batch
        invariant forall k :: k in committing.stored ==> k < i
        invariant forall k :: 0 <= k < i && committing.batch[k].eventId != "" && persists(k) ==> k in committing.stored
        invariant DistinctResults(committing.batch) ==>
                    ResultsShown(committing.batch, committing.stored, old(publisher.store.records),
                                 publisher.store.records, now)
        invariant StartsNone(old(publisher.store.records), publisher.store.records)
      {
        ghost var records, stored := publisher.store.records, committing.stored;
        var ok := StoreSingly(i, now, persists(i));
        if ok && DistinctResults(committing.batch) {
          ShownNext(committing.batch, stored, i, old(publisher.store.records), records, publisher.store.records, now);
        }
        StartsNoneTwice(old(publisher.store.records), records, publisher.store.records);
      }
    }

    /** In one transaction, or one by one where that fails. */
    method StoreResults(now: nat, committed: bool, persists: nat -> bool)
      requires Valid() && committing.Storing? && committing.stored == {}
      modifies this`committing, this`run, this`steps, this`history, this`changes, publisher.store
      ensures Valid() && publisher.store.issued == old(publisher.store.issued)
      ensures committing.Storing? && committing.batch == old(committing).batch
      ensures StartsNone(old(publisher.store.records), publisher.store.records)
      ensures DistinctResults(committing.batch) ==>
                ResultsShown(committing.batch, committing.stored, old(publisher.store.records), publisher.store.records,
                             now)
      ensures DistinctResults(committing.batch) && committed ==>
                forall i :: 0 <= i < |committing.batch| ==> i in committing.stored
      ensures forall i :: 0 <= i < |committing.batch| && committing.batch[i].eventId != "" && persists(i) ==>
                i in committing.stored
    {
      hide Valid, Took, StartsNone, DistinctResults, Awaited, ResultsShown;
      var ok := StoreTogether(now, committed);
      if !ok {
        StoreEach(now, persists);
      }
    }

    lemma FailuresMean(batch: seq<Finished>, stored: set<nat>, before: Records, after: Records, now: nat)
      requires DistinctResults(batch) ==> ResultsShown(batch, stored, before, after, now)
      ensures var failed := Failures(batch, stored);
              && FinishedIds(failed) == FailedIds(batch, stored) && (forall f :: f in failed ==> f in batch)
              && ((forall i :: 0 <= i < |batch| ==> i in stored) ==> failed == [])
              && (DistinctResults(batch) ==>
                    ResultsShown(batch, (set i | 0 <= i < |batch| && batch[i] !in failed), before, after, now))
    {
      hide FailedIds, FinishedIds, ResultsShown, DistinctResults;
      FailuresAre(batch, stored);
      NoFailures(batch, stored);
      if DistinctResults(batch) {
        FailedAre(batch, stored);
        var kept := set i | 0 <= i < |batch| && batch[i] !in Failures(batch, stored);
        ShownSame(batch, stored, kept, before, after, now);
      }
    }

    /** Applies terminal results: in one transaction, or one by one where that fails, and
        releases exactly the attempts whose result was stored. */
    method ApplyCompletions(batch: seq<Finished>, now: nat, committed: bool, persists: nat -> bool)
      returns (failed: seq<Finished>)
      requires Valid() && committing.NoResults? && forall f :: f in batch ==> AttemptId(f.eventId, f.number) in started
      modifies this`committing, this`pending, this`run, this`steps, this`history, this`changes, publisher.store
      ensures Valid() && committing.NoResults? && publisher.store.issued == old(publisher.store.issued)
      ensures StartsNone(old(publisher.store.records), publisher.store.records)
      ensures pending == LeftPending(old(pending), batch, FinishedIds(failed)) && forall f :: f in failed ==> f in batch
      ensures forall i :: 0 <= i < |batch| && batch[i].eventId !in FinishedIds(failed) ==>
                && Resolved(CompletionOf(batch[i]), publisher.store.records)
                && !(batch[i].eventId in pending && pending[batch[i].eventId].number == batch[i].number
                     && pending[batch[i].eventId].epoch == batch[i].epoch)
      ensures DistinctResults(batch) ==>
                ResultsShown(batch, (set i | 0 <= i < |batch| && batch[i] !in failed), old(publisher.store.records),
                             publisher.store.records, now)
      ensures DistinctResults(batch) && committed ==> failed == []
      ensures (forall i :: 0 <= i < |batch| ==> batch[i].eventId != "" && persists(i)) ==> failed == []
      ensures forall g :: Quiet(old(Now()), g) ==> Quiet(Now(), g)
    {
      hide Valid, Took, StartsNone, DistinctResults, Awaited, ResultsShown, Resolved, LeftPending, FailedIds, Quiet,
           FinishedIds, Failures;
      ghost var records := publisher.store.records;
      Begin(batch);
      StoreResults(now, committed, persists);
      var stored := committing.stored;
      StoredResolved();
      failed := Failures(batch, stored);
      FailuresMean(batch, stored, records, publisher.store.records, now);
      LeftPendingIs(pending, batch, FailedIds(batch, stored));
      Release();
      NotFailed(batch, stored);
      forall g | Quiet(old(Now()), g) ensures Quiet(Now(), g) {
        StillQuiet(old(Now()), Now(), g);
      }
    }

    lemma StoredResolved()
      requires Valid() && committing.Storing?
      ensures forall i :: i in committing.stored ==>
                i < |committing.batch| && Resolved(CompletionOf(committing.batch[i]), publisher.store.records)
    {
      hide Traces, Resolved, OrderInv, StartedKnown, PendingKnown, Accounted, WithinLimits, StageOk;
      Kept();
    }

    // --------------------------------------------------------------------- status

    method ReadPhase(group: string) returns (paused: bool)
      ensures paused <==> group in publisher.membership && publisher.membership[group].phase == PAUSED
    {
      paused := group in publisher.membership && publisher.membership[group].phase == PAUSED;
    }

    /** How many records of the group are in flight, and in doubt. */
    method CountDurable(group: string) returns (durable: nat, uncertain: nat)
      requires Valid()
      ensures durable == |set id | id in publisher.store.records
              && InState(publisher.store.records[id], group, InFlight)|
      ensures uncertain == |set id | id in publisher.store.records
              && InState(publisher.store.records[id], group, Uncertain)|
      ensures durable == 0 && uncertain == 0 <==> DurablyQuiet(publisher.store.records, group)
    {
      hide Traces, Placement.Queued, Placement.Agrees, Control.Valid, Outbox.Store.Valid, Enumerates, CountIn;
      var live := publisher.store.ListRecords();
      durable, uncertain := 0, 0;
      NoneCounted(group);
      for i := 0 to |live|
        invariant durable == CountIn(live[..i], group, InFlight) && uncertain == CountIn(live[..i], group, Uncertain)
      {
        CountNext(live, i, group, InFlight);
        CountNext(live, i, group, Uncertain);
        if live[i].content.group == group {
          if live[i].state == InFlight {
            durable := durable + 1;
          } else if live[i].state == Uncertain {
            uncertain := uncertain + 1;
          }
        }
      }
      assert live[..|live|] == live;
      CountedAll(live, publisher.store.records, group, InFlight);
      CountedAll(live, publisher.store.records, group, Uncertain);
      QuietByCount(publisher.store.records, group);
    }

    method CountNative(group: string) returns (native: nat)
      ensures native == |set id | id in pending && pending[id].group == group|
      ensures native == 0 <==> NativelyQuiet(pending, group)
    {
      var ids := set id | id in pending && pending[id].group == group;
      native := |ids|;
      if native == 0 {
        forall id | id in pending ensures pending[id].group != group {
          assert id !in ids;
        }
      }
      if NativelyQuiet(pending, group) {
        assert ids == {};
      }
    }

    /** What a PAUSE acknowledgement rests on, with nothing between the three reads. */
    method Status(group: string) returns (s: DispatcherStatus)
      requires Valid() && committing.NoResults?
      ensures s.paused <==> group in publisher.membership && publisher.membership[group].phase == PAUSED
      ensures s.durable == |set id | id in publisher.store.records
              && InState(publisher.store.records[id], group, InFlight)|
      ensures s.uncertain == |set id | id in publisher.store.records
              && InState(publisher.store.records[id], group, Uncertain)|
      ensures s.native == |set id | id in pending && pending[id].group == group|
      ensures s.quiescent <==> s.paused && Quiet(Now(), group)
    {
      hide Valid, DurablyQuiet, NativelyQuiet;
      var paused := ReadPhase(group);
      var durable, uncertain := CountDurable(group);
      var native := CountNative(group);
      return DispatcherStatus(paused, durable, uncertain, native, paused && native == 0 && durable == 0
                              && uncertain == 0);
    }

    // -------------------------------------------------------------------- closing

    /** No admission begins from here on. */
    method Shut()
      requires Valid()
      modifies this`closed, this`run, this`steps, this`history, this`changes
      ensures Valid() && closed && Took(old(run), old(steps), CloseDown)
    {
      hide PO.Publisher.Valid, Traces;
      ghost var before := Now();
      closed := true;
      Note(before, CloseDown);
    }

    /** Stops once nothing is pending, and reports success at once if stopped before.
        What is marked and not yet registered is not looked at: a success leaves nothing
        in flight or pending, now and later, exactly when nothing is pending and no
        admission is past the closed flag and short of its registration. */
    method TryStop() returns (done: bool)
      requires Valid() && closed
      modifies this`stopped, this`run, this`steps, this`history, this`changes
      ensures Valid() && stopped == done && (done <==> old(stopped) || pending == map[])
      ensures done && !old(stopped) ==> Took(old(run), old(steps), Stop)
      ensures done ==> (DispatcherClose.NothingToCome(Now(), cap) <==>
                        !DispatcherClose.Admitting(stage) && pending == map[])
      ensures !done || old(stopped) ==> run == old(run) && steps == old(steps)
    {
      hide PO.Publisher.Valid, Traces, DispatcherClose.NothingToCome;
      if !stopped {
        if pending != map[] {
          return false;
        }
        ghost var before := Now();
        stopped := true;
        Note(before, Stop);
      }
      StoppedHere();
      return true;
    }

    lemma StoppedHere()
      requires Valid() && stopped
      ensures DispatcherClose.NothingToCome(Now(), cap) <==> !DispatcherClose.Admitting(stage) && pending == map[]
    {
      hide PO.Publisher.Valid, IsDispatchRun, DispatcherClose.NothingToCome, IsOutboxRun;
      RunLength(run, steps, history, changes, cap);
      DispatcherClose.StoppedCloseExact(run, steps, cap, |run| - 1);
    }

    method Close() returns (done: bool)
      requires Valid()
      modifies this`closed, this`stopped, this`run, this`steps, this`history, this`changes
      ensures Valid() && closed && stopped == done && (done <==> old(stopped) || pending == map[])
      ensures done ==> (DispatcherClose.NothingToCome(Now(), cap) <==>
                        !DispatcherClose.Admitting(stage) && pending == map[])
    {
      hide Valid, Took, DispatcherClose.NothingToCome;
      Shut();
      done := TryStop();
    }

    // ------------------------------------------- what the participant does beside it

    /** Waits for the admission in progress. */
    method ApplyMembership(s: Snapshot, now: nat, committed: bool) returns (r: PO.ApplyReply)
      requires Valid() && !HoldsMembership(stage)
      requires (s.group, s.revision) in publisher.names ==> publisher.names[(s.group, s.revision)] == s
      modifies this`run, this`steps, this`history, this`changes, publisher, publisher.store
      ensures Valid() && publisher.store.issued == old(publisher.store.issued)
      ensures publisher.membership == if r == PO.Applied then old(publisher.membership)[s.group := s]
                else old(publisher.membership)
      ensures r == PO.Applied ==>
                |steps| == |old(steps)| + 1 && steps[|old(steps)|].Install? && steps[|old(steps)|].snapshot == s
      ensures r == PO.Applied ==> Took(old(run), old(steps), steps[|old(steps)|])
      ensures r != PO.Applied ==>
                run == old(run) && steps == old(steps) && publisher.store.records == old(publisher.store.records)
    {
      hide PO.Publisher.Valid, Traces, PO.AllMoved, PO.AllCanMove, PO.NoneWaits, Mutated, Control.Valid;
      ghost var before := Now();
      ghost var routes;
      r, routes := publisher.ApplyMembership(s, now, committed);
      if r == PO.Applied {
        Note(before, Install(s, Change.Assign(routes.Keys, routes, now)));
      }
    }

    method AcceptBatch(messages: seq<PO.Message>, now: nat, committed: bool) returns (r: PO.AcceptReply)
      requires Valid() && (forall c: Content :: publisher.store.size(c) > 0)
      requires forall i :: 0 <= i < |messages| && messages[i].eventId in publisher.store.issued ==>
                 messages[i].eventId in publisher.store.records
      modifies this`run, this`steps, this`history, this`changes, publisher`cache, publisher.store
      ensures Valid()
      ensures r.Accepted? ==> Took(old(run), old(steps),
                                   Outside(Change.Accept(r.records, old(publisher.store.nextSeq))))
      ensures r.NotAccepted? ==> run == old(run) && steps == old(steps) && Now() == old(Now())
    {
      hide PO.Publisher.Valid, Traces, Overlay, Issue, PO.RecordFor, PO.NewEvents, Total, OutboxStorage.Appends, Newest;
      ghost var before := Now();
      ghost var first := publisher.store.nextSeq;
      r := publisher.AcceptBatch(messages, now, committed);
      if r.Accepted? {
        forall i | 0 <= i < |r.records| ensures !Unsettled(r.records[i]) {
          NewIsSettled(messages[i], publisher.membership, publisher.contracts, publisher.scoring, first + i, now,
                       publisher.store.size);
        }
        Note(before, Outside(Change.Accept(r.records, first)));
      }
    }

    /** Waits for the admission in progress. */
    method RetryAckUncertain(id: string, now: nat, committed: bool) returns (r: PO.RetryReply)
      requires Valid() && !HoldsMembership(stage)
      modifies this`run, this`steps, this`history, this`changes, publisher`cache, publisher.store
      ensures Valid()
      ensures if r == PO.Retried then Took(old(run), old(steps), Outside(Change.Retry({id}, now)))
              else run == old(run) && steps == old(steps) && Now() == old(Now())
    {
      hide PO.Publisher.Valid, Traces, Mutated, PO.SameRoute, OutboxEffects.WereRetried, CanDo, Do;
      ghost var before := Now();
      r := publisher.RetryAckUncertain(id, now, committed);
      if r == PO.Retried {
        CanRetry(before, id, now, cap);
        Note(before, Outside(Change.Retry({id}, now)));
      }
    }

    /** An operator's late acknowledgement of an exact attempt. */
    method Ack(id: string, attempts: nat, epoch: nat, now: nat, committed: bool) returns (ok: bool)
      requires Valid()
      modifies this`run, this`steps, this`history, this`changes, publisher.store
      ensures Valid() && publisher.store.issued == old(publisher.store.issued)
      ensures ok <==>
                && id != "" && id in old(publisher.store.records) && committed
                && old(publisher.store.records)[id].attempts == attempts
                && old(publisher.store.records)[id].route.epoch == epoch
                && (old(publisher.store.records)[id].state == InFlight
                    || old(publisher.store.records)[id].state == Uncertain)
      ensures ok ==> publisher.store.records == old(publisher.store.records) - {id}
      ensures ok ==> Took(old(run), old(steps),
                          Outside(Completing(old(publisher.store.records),
                                             [Completion(id, attempts, epoch, Acknowledged, "")], now)))
      ensures !ok ==> run == old(run) && steps == old(steps) && publisher.store.records == old(publisher.store.records)
    {
      hide Traces, Applied, Settled, Matching, UniqueBatch, Outbox.Store.Valid, Placement.Queued, Placement.Agrees,
           Control.Valid, OutboxEffects.TakesCurrent, OutboxEffects.WereSettled, CanDo, Do;
      ghost var before := Now();
      var completions := [Completion(id, attempts, epoch, Acknowledged, "")];
      OneIsUnique(completions[0]);
      if id != "" {
        AckMeans(id, attempts, epoch, publisher.store.records, now);
      }
      var reply := publisher.store.CompleteBatch(completions, now, committed);
      ok := reply.Completed? && |reply.applied| == 1;
      if ok {
        CanComplete(before, completions, now, cap);
        Note(before, Outside(Completing(before.held.records, completions, now)));
      }
    }

    /** Waits for the admission in progress. */
    method FailClosed(group: string)
      requires Valid() && !HoldsMembership(stage)
      modifies this`run, this`steps, this`history, this`changes, publisher`membership
      ensures Valid() && publisher.membership == old(publisher.membership) - {group}
              && Took(old(run), old(steps), Forget(group))
    {
      hide PO.Publisher.Valid, Traces;
      ghost var before := Now();
      publisher.FailClosed(group);
      Note(before, Forget(group));
    }
  }

  /** A process that died at any point of its run is followed by one that starts on the
      same outbox, whose history goes on. */
  method Restart(d: AsyncDispatcher, contracts: map<string, PO.Contract>, algorithm: string, scoring: Placement.Scoring,
                 placements: nat,
                 cursor: seq<nat>, now: nat, committed: bool) returns (next: AsyncDispatcher?)
    requires d.Valid() && placements > 0 && OutboxRecovery.Cursor(cursor, d.publisher.store.disk)
             && d.cap.perBroker <= d.cap.total
    modifies d.publisher.store
    ensures next != null <==> committed
    ensures next != null ==>
              && next.Valid() && next.publisher.store == d.publisher.store && next.cap == d.cap
              && next.history == old(d.history) + [next.Now().held]
              && next.changes == old(d.changes) + [Change.Reopen(now)]
              && next.publisher.store.records == Recovered(old(d.publisher.store.records), now)
              && next.started == d.started
  {
    hide PO.Publisher.Valid, AsyncDispatcher.Valid, Recovered, IsOutboxRun, StartedKnown, Outbox.Store.Valid,
         OutboxRecovery.Cursor;
    d.Opened();
    var store := d.publisher.store;
    ghost var held, history, changes, started := Held(store.records, store.issued), d.history, d.changes, d.started;
    var ok := store.Reopen(cursor, now, committed);
    if !ok {
      return null;
    }
    ghost var after := Held(store.records, store.issued);
    ReopenedHistory(history, changes, held, after, now);
    RecoveredStarts(held, started, now);
    var p := new PO.Publisher(store, contracts, algorithm, scoring, placements);
    next := new AsyncDispatcher(p, d.cap.total, d.cap.perBroker, history + [after], changes + [Change.Reopen(now)],
                                started);
  }

  /** An acknowledgement takes away the record whose very attempt it names, or nothing. */
  lemma CanRegister(d: DispatcherState, cap: Capacity)
    requires d.stage.Marked?
    ensures CanDo(d, RegisterBatch, cap)
    ensures Do(d, RegisterBatch, cap) ==
            d.(pending := Admitted(d.pending, d.stage.batch), stage := Submitting(d.stage.batch))
  {
  }

  lemma CanRetry(d: DispatcherState, id: string, now: nat, cap: Capacity)
    requires !HoldsMembership(d.stage)
    ensures CanDo(d, Outside(Change.Retry({id}, now)), cap)
    ensures Do(d, Outside(Change.Retry({id}, now)), cap) ==
            d.(held := d.held.(records := Mutated(d.held.records, {id}, Retrying(), now)))
  {
  }

  lemma CanComplete(d: DispatcherState, completions: seq<Completion>, now: nat, cap: Capacity)
    requires UniqueBatch(completions)
    ensures var applied := Applied(completions, d.held.records);
            var step := Outside(Completing(d.held.records, completions, now));
            && CanDo(d, step, cap)
            && Do(d, step, cap) == d.(held := d.held.(records := Settled(d.held.records, applied, applied, now)))
  {
    hide Applied, Settled, UniqueBatch;
    StoredPossible(d.held.records, d.held.issued, completions, now);
  }

  lemma AckMeans(id: string, attempts: nat, epoch: nat, records: Records, now: nat)
    requires id != ""
    ensures var c := Completion(id, attempts, epoch, Acknowledged, "");
            var applied := Applied([c], records);
            if id in records && records[id].attempts == attempts && records[id].route.epoch == epoch
               && (records[id].state == InFlight || records[id].state == Uncertain)
            then applied == [c] && Settled(records, applied, applied, now) == records - {id}
            else applied == [] && Settled(records, applied, applied, now) == records
  {
    var c := Completion(id, attempts, epoch, Acknowledged, "");
    assert [c][..0] == [];
    if Applies(c, records) {
      assert [c][0] == c && Deletes([c], id);
    }
  }

  lemma ReopenedHistory(history: seq<Held>, changes: seq<Change>, held: Held, after: Held, now: nat)
    requires IsOutboxRun(history, changes) && |history| > 0 && history[|history| - 1] == held
    requires after == Held(Recovered(held.records, now), held.issued)
    ensures IsOutboxRun(history + [after], changes + [Change.Reopen(now)])
  {
    hide IsOutboxRun, Recovered;
    OutboxRunGrows(history, changes, Change.Reopen(now));
  }

  lemma RecoveredStarts(h: Held, started: map<AttemptId, nat>, now: nat)
    requires StartedKnown(h, started)
    ensures StartedKnown(Held(Recovered(h.records, now), h.issued), started)
    ensures forall id :: id in Recovered(h.records, now) ==> Recovered(h.records, now)[id].state != InFlight
  {
  }

  lemma SameStartsNone(records: Records)
    ensures StartsNone(records, records)
  {
  }

  lemma StartsNoneTwice(a: Records, b: Records, c: Records)
    requires StartsNone(a, b) && StartsNone(b, c)
    ensures StartsNone(a, c)
  {
  }

  lemma StillQuiet(d: DispatcherState, e: DispatcherState, group: string)
    requires Quiet(d, group) && StartsNone(d.held.records, e.held.records)
    requires forall id :: id in e.pending ==> id in d.pending && e.pending[id] == d.pending[id]
    ensures Quiet(e, group)
  {
  }

  lemma NotFailed(batch: seq<Finished>, stored: set<nat>)
    ensures forall i :: 0 <= i < |batch| && batch[i].eventId !in FailedIds(batch, stored) ==> i in stored
  {
    forall i | 0 <= i < |batch| && i !in stored ensures batch[i].eventId in FailedIds(batch, stored) {
    }
  }

  lemma {:induction false} NoFailures(batch: seq<Finished>, stored: set<nat>)
    ensures (forall i :: 0 <= i < |batch| ==> i in stored) ==> Failures(batch, stored) == []
  {
    if batch != [] {
      NoFailures(batch[..|batch| - 1], stored);
    }
  }

  // ------------------------------------------------------------------- counting

  predicate InState(r: Record, group: string, state: State) {
    r.content.group == group && r.state == state
  }

  function CountIn(live: seq<Record>, group: string, state: State): nat {
    if live == [] then 0
    else CountIn(live[..|live| - 1], group, state) + if InState(live[|live| - 1], group, state) then 1 else 0
  }

  lemma NoneCounted(group: string)
    ensures CountIn([], group, InFlight) == 0 && CountIn([], group, Uncertain) == 0
  {
  }

  lemma CountNext(live: seq<Record>, i: nat, group: string, state: State)
    requires i < |live|
    ensures CountIn(live[..i + 1], group, state) == CountIn(live[..i], group, state) + if InState(live[i], group, state)
              then 1 else 0
  {
    assert live[..i + 1][..i] == live[..i];
  }

  function EventsIn(live: seq<Record>, group: string, state: State): set<string> {
    if live == [] then {}
    else EventsIn(live[..|live| - 1], group, state) + if InState(live[|live| - 1], group, state)
      then {live[|live| - 1].content.eventId} else {}
  }

  lemma {:induction false} EventsInAre(live: seq<Record>, group: string, state: State)
    ensures forall id :: id in EventsIn(live, group, state) <==>
              exists i :: 0 <= i < |live| && InState(live[i], group, state) && live[i].content.eventId == id
  {
    if live != [] {
      var rest, r := live[..|live| - 1], live[|live| - 1];
      assert live == rest + [r];
      EventsInAre(rest, group, state);
      forall id | id in EventsIn(rest, group, state)
        ensures exists i :: 0 <= i < |live| && InState(live[i], group, state) && live[i].content.eventId == id
      {
        var i :| 0 <= i < |rest| && InState(rest[i], group, state) && rest[i].content.eventId == id;
        assert live[i] == rest[i];
      }
    }
  }

  lemma {:induction false} EventsCounted(live: seq<Record>, group: string, state: State)
    requires DistinctEvents(live)
    ensures |EventsIn(live, group, state)| == CountIn(live, group, state)
  {
    if live != [] {
      var rest, r := live[..|live| - 1], live[|live| - 1];
      EventsCounted(rest, group, state);
      EventsInAre(rest, group, state);
    }
  }

  lemma ListedDistinct(live: seq<Record>, records: Records)
    requires Enumerates(live, records)
    ensures DistinctEvents(live)
  {
    forall i, j | 0 <= i < j < |live| ensures live[i].content.eventId != live[j].content.eventId {
      assert live[i].sequence < live[j].sequence;
    }
  }

  lemma ListedEvents(live: seq<Record>, records: Records, group: string, state: State)
    requires Enumerates(live, records)
    ensures EventsIn(live, group, state) == set id | id in records && InState(records[id], group, state)
  {
    EventsInAre(live, group, state);
    hide EventsIn, Ascending, InState;
    forall id | id in records && InState(records[id], group, state) ensures id in EventsIn(live, group, state) {
      var i :| 0 <= i < |live| && live[i] == records[id];
      assert live[i].content.eventId == id;
    }
    forall id | id in EventsIn(live, group, state) ensures id in records && InState(records[id], group, state) {
      var i :| 0 <= i < |live| && InState(live[i], group, state) && live[i].content.eventId == id;
    }
  }

  lemma CountedAll(live: seq<Record>, records: Records, group: string, state: State)
    requires Enumerates(live, records)
    ensures CountIn(live, group, state) == |set id | id in records && InState(records[id], group, state)|
  {
    hide EventsIn, CountIn, Enumerates, DistinctEvents, InState;
    ListedDistinct(live, records);
    EventsCounted(live, group, state);
    ListedEvents(live, records, group, state);
  }

  lemma QuietByCount(records: Records, group: string)
    ensures |set id | id in records && InState(records[id], group, InFlight)| == 0 && |set id | id in records
            && InState(records[id], group, Uncertain)| == 0
            <==> DurablyQuiet(records, group)
  {
    var a := set id | id in records && InState(records[id], group, InFlight);
    var b := set id | id in records && InState(records[id], group, Uncertain);
    if |a| == 0 && |b| == 0 {
      forall id | id in records ensures !InGroup(records[id], group) {
        assert id !in a && id !in b;
      }
    }
    if DurablyQuiet(records, group) {
      assert a == {} && b == {};
    }
  }

  lemma ChooseIs(d: DispatcherState, live: seq<Record>, cap: Capacity)
    requires d.stage.Checked? && Enumerates(live, d.held.records)
    ensures var batch := Scan(live, d.held.records, d.stage.limit,
                              FilterFor(d.membership, d.stage.counts, cap.perBroker));
            batch != [] ==> CanDo(d, Choose(live), cap) && Do(d, Choose(live), cap) == d.(stage := Selected(batch))
    ensures CanDo(d, Withdraw, cap) && Do(d, Withdraw, cap) == d.(stage := Idle)
  {
    hide Scan, FilterFor, Enumerates;
  }

  lemma MarkIs(d: DispatcherState, now: nat, cap: Capacity)
    requires d.stage.Selected?
    ensures CanDo(d, MarkBatch(now), cap)
    ensures Do(d, MarkBatch(now), cap) ==
            d.(held := d.held.(records := Mutated(d.held.records, EventIds(d.stage.batch), Marking(), now)),
               stage := Marked(d.stage.batch), started := Attempted(d.started, d.stage.batch, d.membership))
    ensures CanDo(d, Withdraw, cap) && Do(d, Withdraw, cap) == d.(stage := Idle)
  {
    hide Mutated, EventIds, Attempted;
  }

  /** Without a limit per broker nothing is counted. */
  lemma CountsUnused(membership: map<string, Snapshot>, counts: map<string, nat>, perBroker: nat)
    ensures FilterFor(membership, if perBroker > 0 then counts else map[], perBroker)
            == FilterFor(membership, counts, perBroker)
  {
  }

  lemma NoneAdmitted(pending: map<string, Pending>)
    ensures Admitted(pending, []) == pending && WereRegistered([], pending, pending)
  {
  }

  lemma OutboxRunLength(history: seq<Held>, changes: seq<Change>)
    requires IsOutboxRun(history, changes)
    ensures |history| > 0
  {
    hide Possible, Changed;
  }
}
