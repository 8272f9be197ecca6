/** What every step of the dispatcher keeps: pending attempts and those being admitted
    stay within both limits, and account for every durable attempt. */
module DispatcherAccounting {
  import opened Control
  import opened OutboxRecords
  import opened OutboxIndex
  import opened OutboxUpkeep
  import opened OutboxChanges
  import opened OutboxOrder
  import opened DispatcherSteps
  import PS = PublisherSteps

  // ---------------------------------------------------- changes beside the admission

  /** Records keep content and attempt, and none goes in flight; others are new. */
  predicate Keeps(h: Held, k: Held) {
    && (forall id :: id in h.issued ==> id in k.issued)
    && (forall id :: id in k.records ==>
          || id !in h.issued
          || (&& id in h.records && k.records[id].content == h.records[id].content
              && k.records[id].attempts == h.records[id].attempts
              && (k.records[id].state == InFlight ==> h.records[id].state == InFlight
                                                      && k.records[id].route == h.records[id].route)))
    && (forall id :: id in k.records && id !in h.issued ==> k.records[id].state != InFlight)
  }

  lemma MutatedKeeps(h: Held, ids: set<string>, mutate: Mutation, now: nat)
    requires OrderInv(h)
    requires forall id :: id in h.records && mutate(id, h.records[id]).Ok? ==>
               var s := mutate(id, h.records[id]).value;
               s.content == h.records[id].content && s.attempts == h.records[id].attempts
               && (s.state != InFlight || s == h.records[id])
    ensures Keeps(h, h.(records := Mutated(h.records, ids, mutate, now)))
  {
    hide InOrder;
  }

  lemma SettledKeeps(h: Held, applied: seq<Completion>, now: nat)
    requires OrderInv(h) && Matching(applied, h.records)
    ensures Keeps(h, h.(records := Settled(h.records, applied, applied, now)))
  {
    hide InOrder;
    var after := Settled(h.records, applied, applied, now);
    forall id | id in after && Changes(applied, id).Ok? ensures after[id].state != InFlight {
    }
  }

  lemma AcceptedKeeps(h: Held, batch: seq<Record>, first: nat)
    requires Acceptable(batch, first, h)
    requires OrderInv(h)
    ensures Keeps(h, Held(Overlay(h.records, batch), Issue(h.issued, batch)))
  {
    OverlayIs(h.records, batch);
    IssueIs(h.issued, batch);
    hide Overlay, Issue, InOrder;
    var after := Overlay(h.records, batch);
    forall id | id in after && id in EventIds(batch) ensures id !in h.issued && after[id].state != InFlight {
      var i :| 0 <= i < |batch| && batch[i] == after[id];
    }
  }

  /** Accepting, rerouting, retrying and storing results. */
  lemma ChangeBeside(h: Held, c: Change)
    requires OrderInv(h) && Possible(h, c) && (c.Accept? || c.Assign? || c.Retry? || c.Complete?)
    ensures Keeps(h, Changed(h, c)) && OrderInv(Changed(h, c))
  {
    hide OrderInv, Keeps, Overlay, Issue, Mutated, Settled;
    ChangeKeeps(h, c);
    match c
    case Accept(batch, first) => AcceptedKeeps(h, batch, first);
    case Assign(ids, assignments, now) => MutatedKeeps(h, ids, Assigning(assignments), now);
    case Retry(ids, now) => MutatedKeeps(h, ids, Retrying(), now);
    case Complete(applied, now) => SettledKeeps(h, applied, now);
  }

  // ----------------------------------------- what such a change leaves as it was

  lemma StartedKept(h: Held, k: Held, started: map<AttemptId, nat>)
    requires Keeps(h, k) && StartedKnown(h, started)
    ensures StartedKnown(k, started)
  {
  }

  lemma PendingKept(h: Held, k: Held, pending: map<string, Pending>)
    requires Keeps(h, k) && PendingKnown(h, pending)
    ensures PendingKnown(k, pending)
  {
  }

  lemma AccountedKept(h: Held, k: Held, pending: map<string, Pending>, batch: seq<Record>)
    requires Keeps(h, k) && Accounted(h.records, pending, batch)
    ensures Accounted(k.records, pending, batch)
  {
    forall id | id in k.records && k.records[id].state == InFlight
      ensures (id in pending && pending[id] == PendingOf(k.records[id])) || AdmittedFor(batch, k.records[id])
    {
      assert PendingOf(k.records[id]) == PendingOf(h.records[id]);
      if AdmittedFor(batch, h.records[id]) {
        var i :| 0 <= i < |batch| && batch[i].content.eventId == h.records[id].content.eventId
                 && Entry(batch[i]) == PendingOf(h.records[id]);
      }
    }
  }

  lemma ResolvedKept(h: Held, k: Held, c: Completion)
    requires Keeps(h, k) && c.eventId in h.issued && Resolved(c, h.records)
    ensures Resolved(c, k.records)
  {
  }

  lemma MadeKept(h: Held, k: Held, batch: seq<Record>, started: map<AttemptId, nat>, membership: map<string, Snapshot>)
    requires Keeps(h, k) && BatchMade(batch, h, started, membership) && StartedKnown(h, started)
    ensures BatchMade(batch, k, started, membership)
  {
    forall i | 0 <= i < |batch| && batch[i].content.eventId in k.records
      ensures MadeOf(k.records[batch[i].content.eventId], batch[i])
    {
      assert AttemptId(batch[i].content.eventId, batch[i].attempts + 1) in started;
    }
  }

  lemma ResultsKept(d: DispatcherState, k: Held)
    requires Keeps(d.held, k) && ResultsOk(d) && StartedKnown(d.held, d.started)
    ensures ResultsOk(d.(held := k))
  {
    hide Keeps, Resolved;
    if d.committing.Storing? {
      forall i | i in d.committing.stored ensures Resolved(CompletionOf(d.committing.batch[i]), k.records) {
        var f := d.committing.batch[i];
        assert AttemptId(f.eventId, f.number) in d.started;
        ResolvedKept(d.held, k, CompletionOf(f));
      }
    }
  }

  /** Ready records in selection are left alone by new records and by results. */
  lemma ReadyKept(h: Held, c: Change, batch: seq<Record>)
    requires OrderInv(h) && Possible(h, c) && (c.Accept? || c.Complete?) && BatchReady(batch, h.records)
    ensures BatchReady(batch, Changed(h, c).records)
  {
    if c.Accept? {
      ReadyAccepted(h, c.batch, c.first, batch);
    } else {
      ReadySettled(h, c.applied, c.now, batch);
    }
  }

  lemma ReadyAccepted(h: Held, added: seq<Record>, first: nat, batch: seq<Record>)
    requires OrderInv(h) && Acceptable(added, first, h) && BatchReady(batch, h.records)
    ensures BatchReady(batch, Overlay(h.records, added))
  {
    OverlayIs(h.records, added);
    hide Overlay, InOrder;
    var after := Overlay(h.records, added);
    forall id | id in EventIds(added) ensures id !in h.issued && (id in after ==> after[id].sequence >= first) {
      assert id in after;
      var i :| 0 <= i < |added| && added[i] == after[id];
    }
    forall i | 0 <= i < |batch|
      ensures batch[i].content.eventId in after && after[batch[i].content.eventId] == batch[i]
              && IsHead(batch[i], after)
    {
      HeadStaysUnder(h, after, added, first, batch[i]);
    }
  }

  lemma HeadStaysUnder(h: Held, after: Records, added: seq<Record>, first: nat, r: Record)
    requires RecordsOk(h.records, h.issued) && Newest(first, h.issued) && IsHead(r, h.records)
    requires r.content.eventId in h.records && h.records[r.content.eventId] == r
    requires forall id :: id in h.records && id !in EventIds(added) ==> id in after && after[id] == h.records[id]
    requires forall id :: id in after && id !in EventIds(added) ==> id in h.records
    requires forall id :: id in EventIds(added) ==> id !in h.issued && (id in after ==> after[id].sequence >= first)
    ensures r.content.eventId in after && after[r.content.eventId] == r && IsHead(r, after)
  {
    assert r.content.eventId !in EventIds(added);
    assert r.sequence < first;
  }

  lemma ReadySettled(h: Held, applied: seq<Completion>, now: nat, batch: seq<Record>)
    requires RecordsOk(h.records, h.issued) && Matching(applied, h.records) && BatchReady(batch, h.records)
    ensures BatchReady(batch, Settled(h.records, applied, applied, now))
  {
    var after := Settled(h.records, applied, applied, now);
    SettledTame(h.records, applied, now);
    forall i | 0 <= i < |batch|
      ensures batch[i].content.eventId in after && after[batch[i].content.eventId] == batch[i]
              && IsHead(batch[i], after)
    {
      ReadyUnnamed(h.records, applied, batch[i]);
      hide Changes;
      OldestStays(batch[i], batch[i], h.records, after);
    }
  }

  lemma ReadyUnnamed(records: Records, applied: seq<Completion>, r: Record)
    requires Matching(applied, records) && r.content.eventId in records && records[r.content.eventId] == r
             && r.state == Ready
    ensures !Deletes(applied, r.content.eventId) && Changes(applied, r.content.eventId).Refused?
  {
    forall i | 0 <= i < |applied| ensures applied[i].eventId != r.content.eventId {
      assert Applies(applied[i], records);
    }
  }

  /** The invariant after a change beside the admission. */
  lemma BesideKeeps(d: DispatcherState, c: Change, cap: Capacity)
    requires DispatchInv(d, cap) && Possible(d.held, c) && (c.Accept? || c.Assign? || c.Retry? || c.Complete?)
    requires HoldsMembership(d.stage) ==> c.Accept? || c.Complete?
    ensures DispatchInv(d.(held := Changed(d.held, c)), cap)
  {
    hide OrderInv, StartedKnown, PendingKnown, Accounted, WithinLimits, BatchOpen, BatchReady, BatchMade, ResultsOk,
         Keeps, Changed, Possible;
    var k := Changed(d.held, c);
    ChangeBeside(d.held, c);
    StartedKept(d.held, k, d.started);
    PendingKept(d.held, k, d.pending);
    AccountedKept(d.held, k, d.pending, Unregistered(d.stage));
    ResultsKept(d, k);
    LimitsSame(d, d.(held := k), cap);
    match d.stage
    case Selected(batch) => ReadyKept(d.held, c, batch);
    case Marked(batch) => MadeKept(d.held, k, batch, d.started, d.membership);
    case Submitting(batch) => MadeKept(d.held, k, batch, d.started, d.membership);
    case _ =>
  }

  lemma LimitsSame(d: DispatcherState, e: DispatcherState, cap: Capacity)
    requires WithinLimits(d, cap) && e.pending == d.pending && e.stage == d.stage
    ensures WithinLimits(e, cap)
  {
  }

  // ------------------------------------------------------------ counting and choosing

  lemma CountsAre(pending: map<string, Pending>, broker: string)
    ensures CountOf(Counts(pending), broker) == PendingOn(pending, broker)
  {
    if broker !in Counts(pending) {
      forall id | id in pending ensures pending[id].broker != broker {
        assert pending[id].broker in (set x | x in pending :: pending[x].broker);
      }
      assert (set id | id in pending && pending[id].broker == broker) == {};
    }
  }

  lemma {:induction false} ScanTakes(live: seq<Record>, records: Records, limit: int, f: Filter)
    ensures forall i :: 0 <= i < |Scan(live, records, limit, f)| ==>
              var r := Scan(live, records, limit, f)[i];
              r in live && IsHead(r, records) && EpochOpen(r, f)
    ensures limit >= 0 ==> |Scan(live, records, limit, f)| <= limit
    ensures Ascending(live) ==> Ascending(Scan(live, records, limit, f))
    ensures forall b :: f.slots.Only? ==> OnBroker(Scan(live, records, limit, f), b) <= Slots(f, b)
  {
    hide IsHead, EpochOpen;
    if live != [] {
      var rest, r := live[..|live| - 1], live[|live| - 1];
      ScanTakes(rest, records, limit, f);
      assert live == rest + [r];
      var taken := Scan(rest, records, limit, f);
      var all := taken + [r];
      assert all[..|taken|] == taken;
      if Ascending(live) {
        forall i | 0 <= i < |taken| ensures taken[i].sequence < r.sequence {
          assert taken[i] in rest;
        }
      }
    }
  }

  /** The selection is of ready oldest records, in the epochs of their groups. */
  lemma ScanIsReady(live: seq<Record>, records: Records, limit: int, membership: map<string, Snapshot>,
                    counts: map<string, nat>, perBroker: nat)
    requires Enumerates(live, records)
    ensures var batch := Scan(live, records, limit, FilterFor(membership, counts, perBroker));
            BatchReady(batch, records) && (batch != [] ==> BatchOpen(batch, membership))
  {
    var f := FilterFor(membership, counts, perBroker);
    ScanTakes(live, records, limit, f);
    hide Scan, IsHead, BrokerSlots;
    var batch := Scan(live, records, limit, f);
    forall i | 0 <= i < |batch|
      ensures batch[i].content.eventId in records && records[batch[i].content.eventId] == batch[i]
    {
      assert batch[i] in live;
    }
    forall i, j | 0 <= i < j < |batch| ensures batch[i].content.eventId != batch[j].content.eventId {
      assert batch[i].sequence < batch[j].sequence;
    }
    forall i | 0 <= i < |batch|
      ensures batch[i].content.group in membership && PS.Dispatchable(membership[batch[i].content.group])
              && batch[i].route.epoch == membership[batch[i].content.group].epoch
    {
      assert EpochOpen(batch[i], f);
    }
  }

  /** And it fits what is left of both limits. */
  lemma ScanFits(d: DispatcherState, live: seq<Record>, cap: Capacity)
    requires d.stage.Checked? && WithinLimits(d, cap)
    ensures WithinLimits(d.(stage := Selected(Chosen(d, live, cap))), cap)
  {
    var f := FilterFor(d.membership, d.stage.counts, cap.perBroker);
    ScanTakes(live, d.held.records, d.stage.limit, f);
    hide Scan, PendingOn, IsHead, EpochOpen;
    var batch := Chosen(d, live, cap);
    if cap.perBroker > 0 {
      forall b ensures PendingOn(d.pending, b) + OnBroker(batch, b) <= cap.perBroker {
        assert OnBroker(batch, b) <= Slots(f, b);
        assert PendingOn(d.pending, b) <= CountOf(d.stage.counts, b);
        assert PendingOn(d.pending, b) + ReservedOn(d.stage, b) <= cap.perBroker;
      }
    }
  }

  lemma CheckKeeps(d: DispatcherState, limit: nat, cap: Capacity)
    requires DispatchInv(d, cap) && CanDo(d, CheckLimits(limit), cap)
    ensures DispatchInv(Do(d, CheckLimits(limit), cap), cap)
  {
    hide OrderInv, StartedKnown, PendingKnown, Accounted, ResultsOk, Counts, PendingOn;
    forall b ensures CountOf(Counts(d.pending), b) == PendingOn(d.pending, b) {
      CountsAre(d.pending, b);
    }
    var e := Do(d, CheckLimits(limit), cap);
    if cap.perBroker > 0 {
      forall b ensures PendingOn(e.pending, b) + ReservedOn(e.stage, b) <= cap.perBroker {
        assert PendingOn(d.pending, b) + ReservedOn(d.stage, b) <= cap.perBroker;
      }
    }
    ResultsSame(d, e);
  }

  lemma ResultsSame(d: DispatcherState, e: DispatcherState)
    requires ResultsOk(d) && e.committing == d.committing && e.held == d.held && e.started == d.started
    ensures ResultsOk(e)
  {
  }

  lemma ChooseKeeps(d: DispatcherState, live: seq<Record>, cap: Capacity)
    requires DispatchInv(d, cap) && CanDo(d, Choose(live), cap)
    ensures DispatchInv(Do(d, Choose(live), cap), cap)
  {
    hide OrderInv, StartedKnown, PendingKnown, Accounted, ResultsOk, WithinLimits, BatchReady, BatchOpen, Enumerates,
         FilterFor, Scan;
    ScanIsReady(live, d.held.records, d.stage.limit, d.membership, d.stage.counts, cap.perBroker);
    ScanFits(d, live, cap);
    ResultsSame(d, Do(d, Choose(live), cap));
  }

  lemma WithdrawKeeps(d: DispatcherState, cap: Capacity)
    requires DispatchInv(d, cap) && CanDo(d, Withdraw, cap)
    ensures DispatchInv(Do(d, Withdraw, cap), cap)
  {
    hide OrderInv, StartedKnown, PendingKnown, Accounted, ResultsOk, PendingOn, OnBroker;
    ResultsSame(d, Do(d, Withdraw, cap));
    LessReserved(d.pending, d.stage, Idle, cap.perBroker);
  }

  lemma LessReserved(pending: map<string, Pending>, stage: Stage, less: Stage, perBroker: nat)
    requires BrokersWithin(pending, stage, perBroker) && forall b :: ReservedOn(less, b) <= ReservedOn(stage, b)
    ensures BrokersWithin(pending, less, perBroker)
  {
    hide PendingOn, ReservedOn;
    if perBroker > 0 {
      forall b ensures PendingOn(pending, b) + ReservedOn(less, b) <= perBroker {
        assert PendingOn(pending, b) + ReservedOn(stage, b) <= perBroker;
      }
    }
  }

  lemma EndKeeps(d: DispatcherState, cap: Capacity)
    requires DispatchInv(d, cap) && CanDo(d, EndAdmission, cap)
    ensures DispatchInv(Do(d, EndAdmission, cap), cap)
  {
    hide OrderInv, StartedKnown, PendingKnown, Accounted, ResultsOk, PendingOn, OnBroker;
    ResultsSame(d, Do(d, EndAdmission, cap));
    LessReserved(d.pending, d.stage, Idle, cap.perBroker);
  }

  // -------------------------------------------------------------------- marking

  /** Exactly the batch goes in flight, each record with its next attempt. */
  lemma MarkedIs(batch: seq<Record>, records: Records, now: nat)
    requires DistinctEvents(batch) && BatchReady(batch, records)
    ensures var after := Mutated(records, EventIds(batch), Marking(), now);
            && after.Keys == records.Keys
            && (forall id :: id in records && id !in EventIds(batch) ==> after[id] == records[id])
            && (forall i :: 0 <= i < |batch| ==>
                  after[batch[i].content.eventId] == batch[i].(state := InFlight, attempts := batch[i].attempts + 1,
                                                               lastError := "", updatedAt := now))
  {
    hide Oldest, DistinctEvents;
    forall i | 0 <= i < |batch| ensures batch[i].content.eventId in EventIds(batch) {
    }
  }

  /** Marking by record: untouched, or ready before and in flight with the next attempt. */
  predicate MarkedOrSame(batch: seq<Record>, before: Records, after: Records, id: string) {
    id in before && id in after &&
    (after[id] == before[id] ||
     exists i :: 0 <= i < |batch| && batch[i].content.eventId == id && batch[i] == before[id]
                 && before[id].state == Ready
                 && after[id].content == before[id].content && after[id].route == before[id].route
                 && after[id].attempts == before[id].attempts + 1)
  }

  lemma MarkedEach(batch: seq<Record>, records: Records, now: nat, id: string)
    requires DistinctEvents(batch) && BatchReady(batch, records) && id in records
    ensures MarkedOrSame(batch, records, Mutated(records, EventIds(batch), Marking(), now), id)
  {
    MarkedIs(batch, records, now);
    hide Mutated, DistinctEvents, Oldest;
    if id in EventIds(batch) {
      var i :| 0 <= i < |batch| && batch[i].content.eventId == id;
      assert batch[i] == records[id];
    }
  }

  lemma {:induction false} AttemptedIs(started: map<AttemptId, nat>, batch: seq<Record>,
                                       membership: map<string, Snapshot>)
    ensures forall a :: a in started ==> a in Attempted(started, batch, membership)
    ensures forall a :: a in Attempted(started, batch, membership) ==> a in started || MadeBy(batch, a)
  {
    if batch != [] {
      var rest, r := batch[..|batch| - 1], batch[|batch| - 1];
      AttemptedIs(started, rest, membership);
      forall a | MadeBy(rest, a) ensures MadeBy(batch, a) {
        var i :| 0 <= i < |rest| && a == AttemptId(rest[i].content.eventId, rest[i].attempts + 1);
        assert batch[i] == rest[i];
      }
      assert MadeBy(batch, AttemptId(r.content.eventId, r.attempts + 1));
    }
  }

  predicate MadeBy(batch: seq<Record>, a: AttemptId) {
    exists i :: 0 <= i < |batch| && a == AttemptId(batch[i].content.eventId, batch[i].attempts + 1)
  }

  lemma {:induction false} AttemptedAt(started: map<AttemptId, nat>, batch: seq<Record>,
                                       membership: map<string, Snapshot>, i: nat)
    requires DistinctEvents(batch) && i < |batch|
    ensures var a := AttemptId(batch[i].content.eventId, batch[i].attempts + 1);
            a in Attempted(started, batch, membership)
            && Attempted(started, batch, membership)[a] == RevisionIn(membership, batch[i].content.group)
  {
    if i < |batch| - 1 {
      var rest := batch[..|batch| - 1];
      assert rest[i] == batch[i];
      AttemptedAt(started, rest, membership, i);
    }
  }

  lemma {:induction false} AttemptedBefore(started: map<AttemptId, nat>, batch: seq<Record>,
                                           membership: map<string, Snapshot>, a: AttemptId)
    requires a in started && !MadeBy(batch, a)
    ensures a in Attempted(started, batch, membership) && Attempted(started, batch, membership)[a] == started[a]
  {
    if batch != [] {
      var rest, r := batch[..|batch| - 1], batch[|batch| - 1];
      assert batch[|batch| - 1] == r;
      forall i | 0 <= i < |rest| ensures a != AttemptId(rest[i].content.eventId, rest[i].attempts + 1) {
        assert batch[i] == rest[i];
      }
      AttemptedBefore(started, rest, membership, a);
    }
  }

  lemma MarkedStarted(h: Held, batch: seq<Record>, started: map<AttemptId, nat>, membership: map<string, Snapshot>,
                      now: nat)
    requires OrderInv(h) && DistinctEvents(batch) && BatchReady(batch, h.records) && StartedKnown(h, started)
    ensures StartedKnown(h.(records := Mutated(h.records, EventIds(batch), Marking(), now)),
                         Attempted(started, batch, membership))
  {
    AttemptedIs(started, batch, membership);
    MarkedIs(batch, h.records, now);
    var after := Mutated(h.records, EventIds(batch), Marking(), now);
    hide Attempted, Mutated, InOrder, DistinctEvents, Oldest, EventIds;
    forall a | a in Attempted(started, batch, membership)
      ensures a.event in h.issued && (a.event in after ==> a.number <= after[a.event].attempts)
    {
      if MadeBy(batch, a) {
        var i :| 0 <= i < |batch| && a == AttemptId(batch[i].content.eventId, batch[i].attempts + 1);
        assert batch[i].content.eventId in h.records;
      } else if a.event in after {
        MarkedEach(batch, h.records, now, a.event);
      }
    }
  }

  lemma MarkedPending(h: Held, batch: seq<Record>, pending: map<string, Pending>, now: nat)
    requires DistinctEvents(batch) && BatchReady(batch, h.records) && PendingKnown(h, pending)
    ensures PendingKnown(h.(records := Mutated(h.records, EventIds(batch), Marking(), now)), pending)
  {
    var after := Mutated(h.records, EventIds(batch), Marking(), now);
    MarkedIs(batch, h.records, now);
    hide Mutated, DistinctEvents, BatchReady, EventIds;
    forall id | id in pending && id in after
      ensures pending[id].group == after[id].content.group && pending[id].number <= after[id].attempts
    {
      MarkedEach(batch, h.records, now, id);
    }
  }

  lemma MarkedAccounted(batch: seq<Record>, records: Records, pending: map<string, Pending>, now: nat)
    requires DistinctEvents(batch) && BatchReady(batch, records) && Accounted(records, pending, [])
    ensures Accounted(Mutated(records, EventIds(batch), Marking(), now), pending, batch)
  {
    var after := Mutated(records, EventIds(batch), Marking(), now);
    MarkedIs(batch, records, now);
    hide Mutated, DistinctEvents, BatchReady, EventIds;
    forall id | id in after && after[id].state == InFlight
      ensures (id in pending && pending[id] == PendingOf(after[id])) || AdmittedFor(batch, after[id])
    {
      MarkedEach(batch, records, now, id);
      if after[id] != records[id] {
        var i :| 0 <= i < |batch| && batch[i].content.eventId == id && batch[i] == records[id]
          && after[id].content == records[id].content && after[id].route == records[id].route
          && after[id].attempts == records[id].attempts + 1;
        assert Entry(batch[i]) == PendingOf(after[id]);
      }
    }
  }

  lemma MarkedMadeAt(h: Held, batch: seq<Record>, now: nat, i: nat)
    requires DistinctEvents(batch) && BatchReady(batch, h.records) && i < |batch|
    ensures var after := Mutated(h.records, EventIds(batch), Marking(), now);
            batch[i].content.eventId in after && MadeOf(after[batch[i].content.eventId], batch[i])
  {
    MarkedIs(batch, h.records, now);
    hide Mutated, DistinctEvents, IsHead, EventIds;
  }

  lemma MarkedMade(h: Held, batch: seq<Record>, started: map<AttemptId, nat>, membership: map<string, Snapshot>,
                   now: nat)
    requires DistinctEvents(batch) && BatchReady(batch, h.records)
    ensures BatchMade(batch, h.(records := Mutated(h.records, EventIds(batch), Marking(), now)),
                      Attempted(started, batch, membership), membership)
  {
    hide Mutated, Attempted, DistinctEvents, BatchReady, EventIds, MadeOf;
    var after, made := Mutated(h.records, EventIds(batch), Marking(), now), Attempted(started, batch, membership);
    forall i | 0 <= i < |batch|
      ensures var a := AttemptId(batch[i].content.eventId, batch[i].attempts + 1);
              a in made && made[a] == RevisionIn(membership, batch[i].content.group)
      ensures batch[i].content.eventId in after && MadeOf(after[batch[i].content.eventId], batch[i])
    {
      AttemptedAt(started, batch, membership, i);
      MarkedMadeAt(h, batch, now, i);
    }
  }

  /** A stored result stays stored: another attempt of its record has a larger number. */
  lemma MarkedResolved(h: Held, batch: seq<Record>, started: map<AttemptId, nat>, now: nat, c: Completion)
    requires DistinctEvents(batch) && BatchReady(batch, h.records) && StartedKnown(h, started)
    requires AttemptId(c.eventId, c.attempts) in started && Resolved(c, h.records)
    ensures Resolved(c, Mutated(h.records, EventIds(batch), Marking(), now))
  {
    MarkedIs(batch, h.records, now);
    var after := Mutated(h.records, EventIds(batch), Marking(), now);
    hide Mutated, DistinctEvents, BatchReady, EventIds;
    if c.eventId in after {
      MarkedEach(batch, h.records, now, c.eventId);
      assert AttemptId(c.eventId, c.attempts).number <= h.records[c.eventId].attempts;
    }
  }

  lemma MarkedResults(d: DispatcherState, now: nat)
    requires d.stage.Selected? && StageOk(d) && StartedKnown(d.held, d.started) && ResultsOk(d)
    ensures var batch := d.stage.batch;
            ResultsOk(d.(held := d.held.(records := Mutated(d.held.records, EventIds(batch), Marking(), now)),
                         started := Attempted(d.started, batch, d.membership)))
  {
    var batch := d.stage.batch;
    AttemptedIs(d.started, batch, d.membership);
    hide Mutated, Attempted, BatchReady, Resolved, StartedKnown, EventIds;
    if d.committing.Storing? {
      forall i | i in d.committing.stored
        ensures Resolved(CompletionOf(d.committing.batch[i]),
                         Mutated(d.held.records, EventIds(batch), Marking(), now))
      {
        var f := d.committing.batch[i];
        assert f in d.committing.batch;
        MarkedResolved(d.held, batch, d.started, now, CompletionOf(f));
      }
    }
  }

  lemma ReadyPossible(h: Held, batch: seq<Record>, now: nat)
    requires BatchReady(batch, h.records)
    ensures Possible(h, Change.Attempt(EventIds(batch), now))
  {
    hide IsHead;
    forall id | id in EventIds(batch) ensures id in h.records && IsHead(h.records[id], h.records) {
      var i :| 0 <= i < |batch| && batch[i].content.eventId == id;
    }
  }

  function MarkedHeld(h: Held, batch: seq<Record>, now: nat): Held {
    h.(records := Mutated(h.records, EventIds(batch), Marking(), now))
  }

  lemma MarkKeeps(d: DispatcherState, now: nat, cap: Capacity)
    requires DispatchInv(d, cap) && CanDo(d, MarkBatch(now), cap)
    ensures DispatchInv(Do(d, MarkBatch(now), cap), cap)
  {
    var batch := d.stage.batch;
    var k, made := MarkedHeld(d.held, batch, now), Attempted(d.started, batch, d.membership);
    var e := d.(held := k, stage := Marked(batch), started := made);
    assert e == Do(d, MarkBatch(now), cap);
    MarkKeepsHeld(d, now, cap);
    MarkKeepsRest(d, now, cap);
    hide OrderInv, StartedKnown, PendingKnown, Accounted, WithinLimits, StageOk, ResultsOk, MarkedHeld, Attempted, Do;
  }

  lemma MarkKeepsHeld(d: DispatcherState, now: nat, cap: Capacity)
    requires DispatchInv(d, cap) && d.stage.Selected?
    ensures var batch := d.stage.batch;
            var k, made := MarkedHeld(d.held, batch, now), Attempted(d.started, batch, d.membership);
            OrderInv(k) && StartedKnown(k, made) && PendingKnown(k, d.pending) && Accounted(k.records, d.pending, batch)
  {
    var batch := d.stage.batch;
    assert BatchReady(batch, d.held.records) && DistinctEvents(batch);
    hide OrderInv, StartedKnown, PendingKnown, Accounted, WithinLimits, ResultsOk, Mutated, Attempted, BatchReady,
         DistinctEvents, EventIds, Possible;
    ReadyPossible(d.held, batch, now);
    ChangeKeeps(d.held, Change.Attempt(EventIds(batch), now));
    MarkedStarted(d.held, batch, d.started, d.membership, now);
    MarkedPending(d.held, batch, d.pending, now);
    MarkedAccounted(batch, d.held.records, d.pending, now);
  }

  lemma MarkKeepsRest(d: DispatcherState, now: nat, cap: Capacity)
    requires DispatchInv(d, cap) && d.stage.Selected?
    ensures var batch := d.stage.batch;
            var k, made := MarkedHeld(d.held, batch, now), Attempted(d.started, batch, d.membership);
            var e := d.(held := k, stage := Marked(batch), started := made);
            StageOk(e) && ResultsOk(e) && WithinLimits(e, cap)
  {
    hide OrderInv, StartedKnown, PendingKnown, Accounted, ResultsOk, Mutated, Attempted, BatchReady, BatchMade,
         DistinctEvents, EventIds, WithinLimits;
    var batch := d.stage.batch;
    var e := d.(held := MarkedHeld(d.held, batch, now), stage := Marked(batch),
                started := Attempted(d.started, batch, d.membership));
    MarkedMade(d.held, batch, d.started, d.membership, now);
    MarkedResults(d, now);
    ResultsSame(e.(stage := d.stage), e);
    MarkedWithin(d, e, cap);
  }

  lemma MarkedWithin(d: DispatcherState, e: DispatcherState, cap: Capacity)
    requires WithinLimits(d, cap) && d.stage.Selected? && e.pending == d.pending && e.stage == Marked(d.stage.batch)
    ensures WithinLimits(e, cap)
  {
    hide PendingOn, OnBroker;
    LessReserved(d.pending, d.stage, e.stage, cap.perBroker);
  }

  // ------------------------------------------------------------------ registering

  lemma {:induction false} AdmittedElsewhere(pending: map<string, Pending>, batch: seq<Record>)
    ensures forall id :: id in Admitted(pending, batch) <==> id in pending || id in EventIds(batch)
    ensures forall id :: id in pending && id !in EventIds(batch) ==> Admitted(pending, batch)[id] == pending[id]
  {
    if batch != [] {
      AdmittedElsewhere(pending, batch[..|batch| - 1]);
      EventIdsNext(batch, |batch| - 1);
      assert batch[..|batch|] == batch;
      hide EventIds;
    }
  }

  lemma {:induction false} AdmittedHere(pending: map<string, Pending>, batch: seq<Record>, i: nat)
    requires DistinctEvents(batch) && i < |batch|
    ensures batch[i].content.eventId in Admitted(pending, batch)
            && Admitted(pending, batch)[batch[i].content.eventId] == Entry(batch[i])
  {
    if i < |batch| - 1 {
      var rest := batch[..|batch| - 1];
      assert rest[i] == batch[i];
      AdmittedHere(pending, rest, i);
    }
  }

  lemma AdmittedIs(pending: map<string, Pending>, batch: seq<Record>)
    ensures forall id :: id in Admitted(pending, batch) <==> id in pending || id in EventIds(batch)
    ensures forall id :: id in pending && id !in EventIds(batch) ==> Admitted(pending, batch)[id] == pending[id]
    ensures DistinctEvents(batch) ==> forall i :: 0 <= i < |batch| ==>
              batch[i].content.eventId in Admitted(pending, batch)
              && Admitted(pending, batch)[batch[i].content.eventId] == Entry(batch[i])
  {
    hide Admitted, EventIds, DistinctEvents;
    AdmittedElsewhere(pending, batch);
    if DistinctEvents(batch) {
      forall i | 0 <= i < |batch|
        ensures batch[i].content.eventId in Admitted(pending, batch)
                && Admitted(pending, batch)[batch[i].content.eventId] == Entry(batch[i])
      {
        AdmittedHere(pending, batch, i);
      }
    }
  }

  lemma {:induction false} AdmittedCounts(pending: map<string, Pending>, batch: seq<Record>, broker: string)
    ensures |Admitted(pending, batch)| <= |pending| + |batch|
    ensures PendingOn(Admitted(pending, batch), broker) <= PendingOn(pending, broker) + OnBroker(batch, broker)
  {
    if batch != [] {
      var rest, r := batch[..|batch| - 1], batch[|batch| - 1];
      AdmittedCounts(pending, rest, broker);
      OneMore(Admitted(pending, rest), r.content.eventId, Entry(r), broker);
    }
  }

  lemma OneMore(pending: map<string, Pending>, id: string, p: Pending, broker: string)
    ensures |pending[id := p]| <= |pending| + 1
    ensures PendingOn(pending[id := p], broker) <= PendingOn(pending, broker) + if p.broker == broker then 1 else 0
  {
    var more := pending[id := p];
    var before := set x | x in pending && pending[x].broker == broker;
    var after := set x | x in more && more[x].broker == broker;
    assert more.Keys == pending.Keys + {id};
    assert |more.Keys| == |more| && |pending.Keys| == |pending|;
    if p.broker == broker {
      assert after <= before + {id};
      SubsetCount(after, before + {id});
    } else {
      assert after <= before;
      SubsetCount(after, before);
    }
  }

  lemma RegisteredPending(h: Held, batch: seq<Record>, pending: map<string, Pending>, started: map<AttemptId, nat>,
                          membership: map<string, Snapshot>)
    requires DistinctEvents(batch) && BatchMade(batch, h, started, membership) && StartedKnown(h, started)
             && PendingKnown(h, pending)
    ensures PendingKnown(h, Admitted(pending, batch))
  {
    AdmittedIs(pending, batch);
    hide Admitted, DistinctEvents;
    forall id | id in EventIds(batch)
      ensures id in h.issued && (id in h.records ==> Admitted(pending, batch)[id].group == h.records[id].content.group
                                                     && Admitted(pending, batch)[id].number <= h.records[id].attempts)
    {
      var i :| 0 <= i < |batch| && batch[i].content.eventId == id;
      assert AttemptId(id, batch[i].attempts + 1) in started;
    }
  }

  lemma RegisteredAccounted(h: Held, batch: seq<Record>, pending: map<string, Pending>, started: map<AttemptId, nat>,
                            membership: map<string, Snapshot>)
    requires DistinctEvents(batch) && Accounted(h.records, pending, batch) && RecordsOk(h.records, h.issued)
    requires BatchMade(batch, h, started, membership) && StartedKnown(h, started) && PendingKnown(h, pending)
    ensures Accounted(h.records, Admitted(pending, batch), [])
  {
    AdmittedIs(pending, batch);
    hide Admitted, DistinctEvents;
    forall id | id in h.records && h.records[id].state == InFlight
      ensures id in Admitted(pending, batch) && Admitted(pending, batch)[id] == PendingOf(h.records[id])
    {
      RegisteredRecord(h, batch, pending, started, membership, id);
    }
  }

  lemma RegisteredRecord(h: Held, batch: seq<Record>, pending: map<string, Pending>, started: map<AttemptId, nat>,
                         membership: map<string, Snapshot>, id: string)
    requires DistinctEvents(batch) && Accounted(h.records, pending, batch) && Filed(h.records) && id in h.records
             && h.records[id].state == InFlight
    requires BatchMade(batch, h, started, membership) && StartedKnown(h, started) && PendingKnown(h, pending)
    ensures id in Admitted(pending, batch) && Admitted(pending, batch)[id] == PendingOf(h.records[id])
  {
    AdmittedIs(pending, batch);
    hide Admitted;
    if id in EventIds(batch) {
      var i :| 0 <= i < |batch| && batch[i].content.eventId == id;
      assert AttemptId(id, batch[i].attempts + 1) in started;
      assert Entry(batch[i]) == PendingOf(h.records[id]);
    } else {
      assert !AdmittedFor(batch, h.records[id]);
    }
  }

  lemma RegisteredWithin(d: DispatcherState, cap: Capacity)
    requires d.stage.Marked? && WithinLimits(d, cap)
    ensures WithinLimits(d.(pending := Admitted(d.pending, d.stage.batch), stage := Submitting(d.stage.batch)), cap)
  {
    var batch := d.stage.batch;
    AdmittedCounts(d.pending, batch, "");
    hide Admitted, PendingOn, OnBroker;
    if cap.perBroker > 0 {
      forall b ensures PendingOn(Admitted(d.pending, batch), b) <= cap.perBroker {
        AdmittedCounts(d.pending, batch, b);
        assert PendingOn(d.pending, b) + ReservedOn(d.stage, b) <= cap.perBroker;
      }
    }
  }

  lemma RegisterKeeps(d: DispatcherState, cap: Capacity)
    requires DispatchInv(d, cap) && CanDo(d, RegisterBatch, cap)
    ensures DispatchInv(Do(d, RegisterBatch, cap), cap)
  {
    var batch := d.stage.batch;
    assert DistinctEvents(batch) && RecordsOk(d.held.records, d.held.issued);
    hide OrderInv, RecordsOk, StartedKnown, PendingKnown, Accounted, ResultsOk, Admitted, BatchMade, BatchOpen,
         DistinctEvents, WithinLimits;
    RegisteredPending(d.held, batch, d.pending, d.started, d.membership);
    RegisteredAccounted(d.held, batch, d.pending, d.started, d.membership);
    RegisteredWithin(d, cap);
    var e := d.(pending := Admitted(d.pending, batch), stage := Submitting(batch));
    assert e == Do(d, RegisterBatch, cap);
    ResultsSame(d, e);
  }

  // ---------------------------------------------------------------- storing results

  lemma DeliverKeeps(d: DispatcherState, results: seq<Finished>, cap: Capacity)
    requires DispatchInv(d, cap) && CanDo(d, Deliver(results), cap)
    ensures DispatchInv(Do(d, Deliver(results), cap), cap)
  {
    hide OrderInv, StartedKnown, PendingKnown, Accounted, WithinLimits, BatchReady, BatchMade, BatchOpen;
    LimitsSame(d, Do(d, Deliver(results), cap), cap);
  }

  /** Every result of a committed transaction is resolved: it applied, or named no
      attempt in flight. */
  lemma BatchResolves(records: Records, completions: seq<Completion>, now: nat, i: nat)
    requires UniqueBatch(completions) && i < |completions|
    ensures var applied := Applied(completions, records);
            Resolved(completions[i], Settled(records, applied, applied, now))
  {
    var applied := Applied(completions, records);
    AppliedMatching(completions, records);
    hide Applied, UniqueBatch;
    var c := completions[i];
    if Applies(c, records) {
      assert c in applied;
      AppliedTwice(applied, records, c, now);
    }
  }

  lemma AppliedTwice(applied: seq<Completion>, records: Records, c: Completion, now: nat)
    requires Matching(applied, records) && c in applied
    ensures Resolved(c, Settled(records, applied, applied, now))
  {
    var i :| 0 <= i < |applied| && applied[i] == c;
    if c.outcome == Acknowledged {
      assert Deletes(applied, c.eventId);
    } else {
      assert Changes(applied, c.eventId).Ok?;
    }
  }

  lemma StoredPossible(records: Records, issued: map<string, nat>, completions: seq<Completion>, now: nat)
    requires UniqueBatch(completions)
    ensures Possible(Held(records, issued), Completing(records, completions, now))
  {
    AppliedMatching(completions, records);
  }

  /** The state after some results were stored in one transaction. */
  function StoredTogether(d: DispatcherState, completions: seq<Completion>, stored: set<nat>, now: nat): DispatcherState
    requires d.committing.Storing?
  {
    var applied := Applied(completions, d.held.records);
    d.(held := d.held.(records := Settled(d.held.records, applied, applied, now)),
       committing := d.committing.(stored := stored))
  }

  lemma StoreAllIs(d: DispatcherState, now: nat, cap: Capacity)
    requires d.committing.Storing? && UniqueBatch(CompletionsOf(d.committing.batch))
    ensures CanDo(d, StoreAll(now), cap)
    ensures Do(d, StoreAll(now), cap) == StoredTogether(d, CompletionsOf(d.committing.batch),
                                                        Range(|d.committing.batch|), now)
  {
    hide Applied, Settled, UniqueBatch, CompletionsOf, Range;
  }

  lemma StoreOneIs(d: DispatcherState, i: nat, now: nat, cap: Capacity)
    requires d.committing.Storing? && i < |d.committing.batch| && d.committing.batch[i].eventId != ""
    ensures CanDo(d, StoreOne(i, now), cap)
    ensures Do(d, StoreOne(i, now), cap) == StoredTogether(d, [CompletionOf(d.committing.batch[i])],
                                                           d.committing.stored + {i}, now)
  {
    hide Applied, Settled, CompletionOf;
  }

  lemma StoredKeeps(d: DispatcherState, completions: seq<Completion>, stored: set<nat>, now: nat, cap: Capacity)
    requires DispatchInv(d, cap) && d.committing.Storing? && UniqueBatch(completions)
    requires forall i :: i in stored ==>
               i < |d.committing.batch|
               && (i in d.committing.stored || CompletionOf(d.committing.batch[i]) in completions)
    ensures DispatchInv(StoredTogether(d, completions, stored, now), cap)
  {
    hide DispatchInv, Settled, Applied, Resolved, UniqueBatch, Possible, CompletionOf;
    var change := Completing(d.held.records, completions, now);
    StoredPossible(d.held.records, d.held.issued, completions, now);
    BesideKeeps(d, change, cap);
    var k := d.(held := Changed(d.held, change));
    forall i | i in stored && i !in d.committing.stored
      ensures Resolved(CompletionOf(d.committing.batch[i]), k.held.records)
    {
      var j :| 0 <= j < |completions| && completions[j] == CompletionOf(d.committing.batch[i]);
      BatchResolves(d.held.records, completions, now, j);
    }
    ResultsOf(k, cap);
    CommittingKeeps(k, k.committing.(stored := stored), cap);
  }

  lemma ResultsOf(d: DispatcherState, cap: Capacity)
    requires DispatchInv(d, cap)
    ensures ResultsOk(d)
  {
    hide OrderInv, StartedKnown, PendingKnown, Accounted, WithinLimits, StageOk, ResultsOk;
  }

  lemma CommittingKeeps(d: DispatcherState, committing: Committing, cap: Capacity)
    requires DispatchInv(d, cap) && ResultsOk(d.(committing := committing))
    ensures DispatchInv(d.(committing := committing), cap)
  {
    hide OrderInv, StartedKnown, PendingKnown, Accounted, WithinLimits, ResultsOk, BatchReady, BatchMade, BatchOpen;
    LimitsSame(d, d.(committing := committing), cap);
  }

  lemma StoreAllKeeps(d: DispatcherState, now: nat, cap: Capacity)
    requires DispatchInv(d, cap) && CanDo(d, StoreAll(now), cap)
    ensures DispatchInv(Do(d, StoreAll(now), cap), cap)
  {
    hide DispatchInv, Do, StoredTogether, UniqueBatch, CompletionOf;
    StoreAllIs(d, now, cap);
    var completions := CompletionsOf(d.committing.batch);
    forall i | i in Range(|d.committing.batch|) ensures CompletionOf(d.committing.batch[i]) in completions {
      assert completions[i] == CompletionOf(d.committing.batch[i]);
    }
    StoredKeeps(d, completions, Range(|d.committing.batch|), now, cap);
  }

  lemma OneIsUnique(c: Completion)
    ensures UniqueBatch([c]) <==> c.eventId != ""
  {
    assert [c][0] == c;
  }

  lemma StoreOneKeeps(d: DispatcherState, i: nat, now: nat, cap: Capacity)
    requires DispatchInv(d, cap) && CanDo(d, StoreOne(i, now), cap)
    ensures DispatchInv(Do(d, StoreOne(i, now), cap), cap)
  {
    hide Do, StoredTogether, UniqueBatch, OrderInv, StartedKnown, PendingKnown, Accounted, WithinLimits, StageOk;
    StoreOneIs(d, i, now, cap);
    OneIsUnique(CompletionOf(d.committing.batch[i]));
    StoredKeeps(d, [CompletionOf(d.committing.batch[i])], d.committing.stored + {i}, now, cap);
  }

  // -------------------------------------------------------------- releasing results

  lemma {:induction false} LeftPendingIs(pending: map<string, Pending>, batch: seq<Finished>, failed: set<string>)
    ensures forall id :: id in LeftPending(pending, batch, failed) ==>
              id in pending && LeftPending(pending, batch, failed)[id] == pending[id]
    ensures forall id :: id in pending && id !in LeftPending(pending, batch, failed) ==>
              FinishedIn(batch, id, pending[id], failed)
    ensures forall i :: 0 <= i < |batch| && batch[i].eventId !in failed ==>
              !(batch[i].eventId in LeftPending(pending, batch, failed)
                && LeftPending(pending, batch, failed)[batch[i].eventId].number == batch[i].number
                && LeftPending(pending, batch, failed)[batch[i].eventId].epoch == batch[i].epoch)
  {
    if batch != [] {
      var rest, f := batch[..|batch| - 1], batch[|batch| - 1];
      LeftPendingIs(pending, rest, failed);
      forall id | id in pending && id !in LeftPending(pending, batch, failed)
        ensures FinishedIn(batch, id, pending[id], failed)
      {
        if id !in LeftPending(pending, rest, failed) {
          var i :| 0 <= i < |rest| && rest[i].eventId == id && rest[i].number == pending[id].number
                   && rest[i].epoch == pending[id].epoch && id !in failed;
          assert batch[i] == rest[i];
        } else {
          assert batch[|batch| - 1] == f;
        }
      }
    }
  }

  predicate FinishedIn(batch: seq<Finished>, id: string, p: Pending, failed: set<string>) {
    exists i :: 0 <= i < |batch| && batch[i].eventId == id && batch[i].number == p.number && batch[i].epoch == p.epoch
                && id !in failed
  }

  /** Releasing a pending entry never leaves a record in flight without one. */
  lemma LeftAccounted(d: DispatcherState)
    requires d.committing.Storing? && ResultsOk(d) && Accounted(d.held.records, d.pending, Unregistered(d.stage))
             && Filed(d.held.records)
    ensures Accounted(d.held.records,
                      LeftPending(d.pending, d.committing.batch, FailedIds(d.committing.batch, d.committing.stored)),
                      Unregistered(d.stage))
  {
    var batch, failed := d.committing.batch, FailedIds(d.committing.batch, d.committing.stored);
    LeftPendingIs(d.pending, batch, failed);
    hide LeftPending;
    forall i | 0 <= i < |batch| && batch[i].eventId !in failed
      ensures Resolved(CompletionOf(batch[i]), d.held.records)
    {
      assert i in d.committing.stored;
    }
    forall id | id in d.held.records && d.held.records[id].state == InFlight && id in d.pending
    && d.pending[id] == PendingOf(d.held.records[id])
      ensures id in LeftPending(d.pending, batch, failed)
    {
      assert !FinishedIn(batch, id, d.pending[id], failed);
    }
  }

  lemma FewerPending(less: map<string, Pending>, more: map<string, Pending>, broker: string)
    requires forall id :: id in less ==> id in more && more[id] == less[id]
    ensures |less| <= |more| && PendingOn(less, broker) <= PendingOn(more, broker)
  {
    SubsetCount(less.Keys, more.Keys);
    assert |less.Keys| == |less| && |more.Keys| == |more|;
    SubsetCount(set x | x in less && less[x].broker == broker, set x | x in more && more[x].broker == broker);
  }

  lemma LeftWithin(d: DispatcherState, less: map<string, Pending>, cap: Capacity)
    requires WithinLimits(d, cap) && forall id :: id in less ==> id in d.pending && d.pending[id] == less[id]
    ensures WithinLimits(d.(pending := less), cap)
  {
    FewerPending(less, d.pending, "");
    hide PendingOn, ReservedOn, Reserved;
    forall b ensures PendingOn(less, b) <= PendingOn(d.pending, b) {
      FewerPending(less, d.pending, b);
    }
  }

  lemma ReleaseKeeps(d: DispatcherState, cap: Capacity)
    requires DispatchInv(d, cap) && CanDo(d, ReleaseStored, cap)
    ensures DispatchInv(Do(d, ReleaseStored, cap), cap)
  {
    hide StartedKnown, Accounted, WithinLimits, BatchReady, BatchMade, BatchOpen, InOrder, ResultsOk, LeftPending;
    var batch, failed := d.committing.batch, FailedIds(d.committing.batch, d.committing.stored);
    var less := LeftPending(d.pending, batch, failed);
    LeftPendingIs(d.pending, batch, failed);
    LeftAccounted(d);
    LeftWithin(d, less, cap);
    LimitsSame(d.(pending := less), Do(d, ReleaseStored, cap), cap);
    assert ResultsOk(Do(d, ReleaseStored, cap)) by { NoResultsOk(Do(d, ReleaseStored, cap)); }
  }

  lemma NoResultsOk(d: DispatcherState)
    requires d.committing.NoResults?
    ensures ResultsOk(d)
  {
  }

  // --------------------------------------------------------------- every other step

  lemma MembershipKeeps(d: DispatcherState, membership: map<string, Snapshot>, cap: Capacity)
    requires DispatchInv(d, cap) && !HoldsMembership(d.stage)
    ensures DispatchInv(d.(membership := membership), cap)
  {
    hide OrderInv, StartedKnown, PendingKnown, Accounted, WithinLimits;
    LimitsSame(d, d.(membership := membership), cap);
  }

  lemma FlagKeeps(d: DispatcherState, closed: bool, stopped: bool, cap: Capacity)
    requires DispatchInv(d, cap) && (stopped ==> closed)
    ensures DispatchInv(d.(closed := closed, stopped := stopped), cap)
  {
    hide OrderInv, StartedKnown, PendingKnown, Accounted, WithinLimits, BatchReady, BatchMade, BatchOpen;
    LimitsSame(d, d.(closed := closed, stopped := stopped), cap);
  }

  lemma StepKeeps(d: DispatcherState, step: Step, cap: Capacity)
    requires DispatchInv(d, cap) && CanDo(d, step, cap)
    ensures DispatchInv(Do(d, step, cap), cap)
  {
    hide OrderInv, StartedKnown, PendingKnown, Accounted, WithinLimits, StageOk, ResultsOk, Possible, Changed;
    match step
    case CheckLimits(limit) => CheckKeeps(d, limit, cap);
    case Choose(live) => ChooseKeeps(d, live, cap);
    case Withdraw => WithdrawKeeps(d, cap);
    case MarkBatch(now) => MarkKeeps(d, now, cap);
    case RegisterBatch => RegisterKeeps(d, cap);
    case EndAdmission => EndKeeps(d, cap);
    case Deliver(results) => DeliverKeeps(d, results, cap);
    case StoreAll(now) => StoreAllKeeps(d, now, cap);
    case StoreOne(i, now) => StoreOneKeeps(d, i, now, cap);
    case ReleaseStored => ReleaseKeeps(d, cap);
    case Outside(change) => BesideKeeps(d, change, cap);
    case Install(s, change) =>
      AssignPossible(d.held, change);
      BesideKeeps(d, change, cap);
      MembershipKeeps(d.(held := Changed(d.held, change)), d.membership[s.group := s], cap);
    case Forget(group) => MembershipKeeps(d, d.membership - {group}, cap);
    case CloseDown => FlagKeeps(d, true, d.stopped, cap);
    case Stop => FlagKeeps(d, d.closed, true, cap);
  }

  lemma AssignPossible(h: Held, change: Change)
    requires change.Assign?
    ensures Possible(h, change)
  {
  }
}
