/** Per-key order over whole runs of the outbox, when only what EligibleFor returned is
    put in flight: through rejections, doubts, retries, reassignment and restarts, a
    record is attempted only after every earlier record of its key was acknowledged
    and deleted. */
module OutboxOrder {
  import opened OutboxRecords
  import opened OutboxIndex
  import opened OutboxUpkeep
  import opened OutboxChanges
  import opened OutboxStorage

  datatype Held = Held(records: Records, issued: map<string, nat>)

  datatype Change =
    | Accept(batch: seq<Record>, first: nat)
    | Assign(ids: set<string>, assignments: map<string, Route>, now: nat)
    | Attempt(ids: set<string>, now: nat)
    | Reject(ids: set<string>, reasons: map<string, string>, now: nat)
    | Doubt(ids: set<string>, reasons: map<string, string>, now: nat)
    | Retry(ids: set<string>, now: nat)
    | Complete(applied: seq<Completion>, now: nat)
    | Reopen(now: nat)

  predicate Unsettled(r: Record) {
    r.state == InFlight || r.state == Uncertain
  }

  predicate AllHeads(ids: set<string>, records: Records) {
    forall id :: id in ids ==> id in records && IsHead(records[id], records)
  }

  predicate Acceptable(batch: seq<Record>, first: nat, h: Held) {
    && Appends(batch, first, h.records) && Newest(first, h.issued)
    && (forall i :: 0 <= i < |batch| ==> batch[i].content.eventId !in h.issued && !Unsettled(batch[i]))
  }

  predicate Possible(h: Held, c: Change) {
    match c
    case Accept(batch, first) => Acceptable(batch, first, h)
    case Attempt(ids, _) => AllHeads(ids, h.records)
    case Complete(applied, _) => Matching(applied, h.records)
    case _ => true
  }

  function Changed(h: Held, c: Change): Held {
    match c
    case Accept(batch, _) => Held(Overlay(h.records, batch), Issue(h.issued, batch))
    case Assign(ids, assignments, now) => h.(records := Mutated(h.records, ids, Assigning(assignments), now))
    case Attempt(ids, now) => h.(records := Mutated(h.records, ids, Marking(), now))
    case Reject(ids, reasons, now) => h.(records := Mutated(h.records, ids, Rejecting(reasons), now))
    case Doubt(ids, reasons, now) => h.(records := Mutated(h.records, ids, Doubting(reasons), now))
    case Retry(ids, now) => h.(records := Mutated(h.records, ids, Retrying(), now))
    case Complete(applied, now) => h.(records := Settled(h.records, applied, applied, now))
    case Reopen(now) => h.(records := Recovered(h.records, now))
  }

  // ------------------------------------------------------------------- the invariant

  predicate InOrder(records: Records) {
    forall id :: id in records && Unsettled(records[id]) ==> Oldest(records[id], records)
  }

  predicate OrderInv(h: Held) {
    RecordsOk(h.records, h.issued) && InOrder(h.records)
  }

  /** Records keep their place; some may go, and only heads go in flight. */
  predicate Tame(a: Records, b: Records) {
    forall id :: id in b ==>
      && id in a && SamePlace(a[id], b[id])
      && (Unsettled(b[id]) ==> Unsettled(a[id]) || IsHead(a[id], a))
  }

  lemma OldestStays(r: Record, s: Record, a: Records, b: Records)
    requires Oldest(r, a) && SamePlace(r, s) && forall id :: id in b ==> id in a && SamePlace(a[id], b[id])
    ensures Oldest(s, b)
  {
  }

  lemma TameKeeps(a: Records, b: Records, issued: map<string, nat>)
    requires RecordsOk(a, issued) && InOrder(a) && Tame(a, b)
    ensures RecordsOk(b, issued) && InOrder(b)
  {
    forall id | id in b && Unsettled(b[id]) ensures Oldest(b[id], b) {
      OldestStays(a[id], b[id], a, b);
    }
  }

  lemma MutatedTame(records: Records, ids: set<string>, mutate: Mutation, now: nat)
    requires Filed(records)
    requires forall id :: id in records && id in ids && mutate(id, records[id]).Ok? ==>
               var s := mutate(id, records[id]).value;
               SamePlace(records[id], s) && (Unsettled(s) ==> Unsettled(records[id]) || IsHead(records[id], records))
    ensures Tame(records, Mutated(records, ids, mutate, now))
  {
    hide IsHead;
  }

  lemma RoutingTame(h: Held, c: Change)
    requires OrderInv(h) && Possible(h, c) && (c.Assign? || c.Attempt? || c.Retry?)
    ensures Tame(h.records, Changed(h, c).records)
  {
    hide Oldest, InOrder, Mutated, Tame;
    match c
    case Assign(ids, assignments, now) => MutatedTame(h.records, ids, Assigning(assignments), now);
    case Attempt(ids, now) => MutatedTame(h.records, ids, Marking(), now);
    case Retry(ids, now) => MutatedTame(h.records, ids, Retrying(), now);
  }

  lemma OutcomeTame(h: Held, c: Change)
    requires OrderInv(h) && (c.Reject? || c.Doubt?)
    ensures Tame(h.records, Changed(h, c).records)
  {
    hide Oldest, InOrder, Mutated, Tame;
    match c
    case Reject(ids, reasons, now) => MutatedTame(h.records, ids, Rejecting(reasons), now);
    case Doubt(ids, reasons, now) => MutatedTame(h.records, ids, Doubting(reasons), now);
  }

  lemma RecoveryTame(h: Held, now: nat)
    requires OrderInv(h)
    ensures Tame(h.records, Recovered(h.records, now))
  {
    hide Oldest, InOrder, Recovered;
    RecoveredMeans(h.records, now);
  }

  lemma ChangeTame(h: Held, c: Change)
    requires OrderInv(h) && Possible(h, c) && !c.Accept?
    ensures Tame(h.records, Changed(h, c).records) && Changed(h, c).issued == h.issued
  {
    hide OrderInv, Mutated, Settled, Tame, Recovered, AllHeads;
    match c
    case Complete(applied, now) => SettledTame(h.records, applied, now);
    case Reopen(now) => RecoveryTame(h, now);
    case Reject(_, _, _) => OutcomeTame(h, c);
    case Doubt(_, _, _) => OutcomeTame(h, c);
    case _ => RoutingTame(h, c);
  }

  lemma SettledTame(records: Records, applied: seq<Completion>, now: nat)
    requires Matching(applied, records)
    ensures Tame(records, Settled(records, applied, applied, now))
  {
    hide Oldest;
    var after := Settled(records, applied, applied, now);
    forall id | id in after ensures SamePlace(records[id], after[id])
    && (Unsettled(after[id]) ==> Unsettled(records[id])) {
      if Changes(applied, id).Ok? {
        assert Applies(Changes(applied, id).value, records);
      }
    }
  }

  lemma AcceptKeeps(h: Held, batch: seq<Record>, first: nat)
    requires OrderInv(h) && Acceptable(batch, first, h)
    ensures OrderInv(Held(Overlay(h.records, batch), Issue(h.issued, batch)))
  {
    AcceptRecordsOk(h, batch, first, |batch|);
    assert batch[..|batch|] == batch;
    AcceptInOrder(h, batch, first);
  }

  lemma {:induction false} AcceptRecordsOk(h: Held, batch: seq<Record>, first: nat, n: nat)
    requires RecordsOk(h.records, h.issued) && Acceptable(batch, first, h) && n <= |batch|
    ensures RecordsOk(Overlay(h.records, batch[..n]), Issue(h.issued, batch[..n]))
    ensures Newest(first + n, Issue(h.issued, batch[..n]))
  {
    hide RecordsOk, Overlay, Issue, Newest, Appends, Unsettled;
    if n == 0 {
      assert batch[..0] == [];
      OverlayNone(h.records);
      NothingIssued(h.issued);
    } else {
      AcceptRecordsOk(h, batch, first, n - 1);
      OverlayNext(h.records, batch, n - 1);
      IssueNext(h.issued, batch, n - 1);
      EventIdsLack(batch, n - 1, first, h.records);
      IssueLacks(batch, n - 1, first, h.records, h.issued);
      NewestNext(Issue(h.issued, batch[..n - 1]), first + n - 1, batch[n - 1].content.eventId);
      RecordsNext(Overlay(h.records, batch[..n - 1]), Issue(h.issued, batch[..n - 1]), batch[n - 1]);
    }
  }

  lemma RecordsNext(records: Records, issued: map<string, nat>, r: Record)
    requires RecordsOk(records, issued) && r.content.eventId !in issued && Newest(r.sequence, issued)
    ensures RecordsOk(records[r.content.eventId := r], issued[r.content.eventId := r.sequence])
  {
  }

  lemma AcceptInOrder(h: Held, batch: seq<Record>, first: nat)
    requires OrderInv(h) && Acceptable(batch, first, h)
    ensures InOrder(Overlay(h.records, batch))
  {
    var after := Overlay(h.records, batch);
    OverlayIs(h.records, batch);
    hide Overlay;
    forall id | id in after && Unsettled(after[id]) ensures Oldest(after[id], after) {
      assert id !in EventIds(batch);
      forall x | x in after && Key(after[x]) == Key(after[id]) ensures after[id].sequence <= after[x].sequence {
        if x in EventIds(batch) {
          var i :| 0 <= i < |batch| && batch[i] == after[x];
          assert h.issued[id] < first;
        }
      }
    }
  }

  lemma ChangeKeeps(h: Held, c: Change)
    requires OrderInv(h) && Possible(h, c)
    ensures OrderInv(Changed(h, c))
  {
    if c.Accept? {
      AcceptKeeps(h, c.batch, c.first);
    } else {
      hide Tame, Changed, Possible, InOrder;
      ChangeTame(h, c);
      TameKeeps(h.records, Changed(h, c).records, h.issued);
    }
  }

  // ----------------------------------------------------------------------- whole runs

  predicate IsOutboxRun(run: seq<Held>, changes: seq<Change>) {
    && |run| == |changes| + 1 && run[0] == Held(map[], map[])
    && forall i :: 0 <= i < |changes| ==> Possible(run[i], changes[i]) && run[i + 1] == Changed(run[i], changes[i])
  }

  lemma {:induction false} RunInOrder(run: seq<Held>, changes: seq<Change>, n: nat)
    requires IsOutboxRun(run, changes) && n < |run|
    ensures OrderInv(run[n])
  {
    hide Possible, Changed;
    if n > 0 {
      RunInOrder(run, changes, n - 1);
      ChangeKeeps(run[n - 1], changes[n - 1]);
    }
  }

  /** Each key has at most one record in flight or in doubt, and it is the key's
      oldest. */
  lemma OneUnsettledPerKey(run: seq<Held>, changes: seq<Change>, n: nat, a: string, b: string)
    requires IsOutboxRun(run, changes) && n < |run| && a in run[n].records && b in run[n].records
    requires Key(run[n].records[a]) == Key(run[n].records[b]) && Unsettled(run[n].records[a])
    ensures run[n].records[a].sequence <= run[n].records[b].sequence
    ensures Unsettled(run[n].records[b]) ==> a == b
  {
    hide IsOutboxRun;
    RunInOrder(run, changes, n);
  }

  predicate Acknowledges(c: Change, h: Held, id: string) {
    c.Complete? && exists i :: 0 <= i < |c.applied| && AcksRecord(c.applied[i], h, id)
  }

  /** The completion names the current attempt and epoch of the record. */
  predicate AcksRecord(c: Completion, h: Held, id: string) {
    && c.eventId == id && c.outcome == Acknowledged && id in h.records && Unsettled(h.records[id])
    && c.attempts == h.records[id].attempts && c.epoch == h.records[id].route.epoch
  }

  /** A record leaves the outbox only by an acknowledgement of its current attempt,
      and never comes back. */
  lemma LeavesByAcknowledgement(h: Held, c: Change, id: string)
    requires OrderInv(h) && Possible(h, c)
    ensures id in h.records && id !in Changed(h, c).records ==> Acknowledges(c, h, id)
    ensures id in h.issued ==> id in Changed(h, c).issued
    ensures id in h.issued && id !in h.records ==> id !in Changed(h, c).records
    ensures id in h.records && id in Changed(h, c).records ==> SamePlace(h.records[id], Changed(h, c).records[id])
  {
    if c.Accept? {
      OverlayIs(h.records, c.batch);
      IssueIs(h.issued, c.batch);
    } else {
      ChangeTame(h, c);
      if c.Complete? && id in h.records && id !in Changed(h, c).records {
        var i :| 0 <= i < |c.applied| && c.applied[i].eventId == id && c.applied[i].outcome == Acknowledged;
        assert Applies(c.applied[i], h.records);
        assert AcksRecord(c.applied[i], h, id);
      }
    }
  }

  /** A record once in the outbox is there with the same key and sequence, or was
      acknowledged since. */
  lemma {:induction false} StaysOrAcknowledged(run: seq<Held>, changes: seq<Change>, k: nat, n: nat, id: string)
    requires IsOutboxRun(run, changes) && k <= n < |run| && id in run[k].records
    ensures id in run[n].issued
    ensures id in run[n].records ==> SamePlace(run[k].records[id], run[n].records[id])
    ensures id !in run[n].records ==> exists j :: k <= j < n && Acknowledges(changes[j], run[j], id)
    decreases n
  {
    hide Possible, Changed, Acknowledges;
    RunInOrder(run, changes, k);
    if k < n {
      StaysOrAcknowledged(run, changes, k, n - 1, id);
      RunInOrder(run, changes, n - 1);
      LeavesByAcknowledgement(run[n - 1], changes[n - 1], id);
      if id !in run[n].records && id in run[n - 1].records {
        assert Acknowledges(changes[n - 1], run[n - 1], id);
      }
    }
  }

  /** Per-key first in, first out: when a record is attempted, every record of its key
      that was ever in the outbox with a smaller sequence has been acknowledged and
      deleted before. */
  lemma FirstInFirstOut(run: seq<Held>, changes: seq<Change>, k: nat, n: nat, earlier: string, later: string)
    requires IsOutboxRun(run, changes) && k <= n < |changes| && changes[n].Attempt? && later in changes[n].ids
    requires earlier in run[k].records && later in run[n].records
             && Key(run[k].records[earlier]) == Key(run[n].records[later])
    requires run[k].records[earlier].sequence < run[n].records[later].sequence
    ensures earlier !in run[n].records && exists j :: k <= j < n && Acknowledges(changes[j], run[j], earlier)
  {
    hide Changed, Acknowledges;
    StaysOrAcknowledged(run, changes, k, n, earlier);
    assert IsHead(run[n].records[later], run[n].records);
  }

  // ------------------------------------------------------------------ late results

  /** Attempt numbers never fall, and every attempt takes the next one. */
  lemma AttemptsGrow(h: Held, c: Change, id: string)
    requires OrderInv(h) && Possible(h, c) && id in h.records && id in Changed(h, c).records
    ensures Changed(h, c).records[id].attempts >= h.records[id].attempts
    ensures c.Attempt? && id in c.ids ==> Changed(h, c).records[id].attempts == h.records[id].attempts + 1
  {
    hide Oldest, InOrder;
    if c.Accept? {
      OverlayIs(h.records, c.batch);
    }
  }

  lemma {:induction false} AttemptsRise(run: seq<Held>, changes: seq<Change>, k: nat, n: nat, id: string)
    requires IsOutboxRun(run, changes) && k <= n < |run| && id in run[k].records && id in run[n].records
    ensures run[k].records[id].attempts <= run[n].records[id].attempts
    decreases n
  {
    hide Possible, Changed;
    if k < n {
      RunInOrder(run, changes, n - 1);
      LeavesByAcknowledgement(run[n - 1], changes[n - 1], id);
      StaysOrAcknowledged(run, changes, k, n - 1, id);
      AttemptsRise(run, changes, k, n - 1, id);
      AttemptsGrow(run[n - 1], changes[n - 1], id);
    }
  }

  /** The result of an attempt that was followed by another attempt of the same record
      is never applied, however late it arrives. */
  lemma LateResultHarmless(run: seq<Held>, changes: seq<Change>, i: nat, j: nat, n: nat, c: Completion)
    requires IsOutboxRun(run, changes) && i < j < n < |run|
    requires changes[i].Attempt? && c.eventId in changes[i].ids && changes[j].Attempt? && c.eventId in changes[j].ids
    requires c.eventId in run[i + 1].records && c.attempts == run[i + 1].records[c.eventId].attempts
    ensures !Applies(c, run[n].records)
  {
    hide IsHead;
    assert Possible(run[j], changes[j]) && c.eventId in run[j].records;
    RunInOrder(run, changes, j);
    hide Changed, Possible;
    if c.eventId in run[n].records {
      StaysOrAcknowledged(run, changes, j, n, c.eventId);
      AttemptsRise(run, changes, i + 1, j, c.eventId);
      StillThere(run, changes, j, n, c.eventId);
      AttemptsGrow(run[j], changes[j], c.eventId);
      AttemptsRise(run, changes, j + 1, n, c.eventId);
    }
  }

  /** A record that is there later was there all along. */
  lemma {:induction false} StillThere(run: seq<Held>, changes: seq<Change>, k: nat, n: nat, id: string)
    requires IsOutboxRun(run, changes) && k < n < |run| && id in run[k].records && id in run[n].records
    ensures id in run[k + 1].records
    decreases n
  {
    hide Possible, Changed, Acknowledges;
    if k + 1 < n {
      StaysOrAcknowledged(run, changes, k, n - 1, id);
      RunInOrder(run, changes, n - 1);
      LeavesByAcknowledgement(run[n - 1], changes[n - 1], id);
      StillThere(run, changes, k, n - 1, id);
    }
  }

  // ------------------------------------------------------------------- after a crash

  /** The change carries a result of the event or retries it. */
  predicate Decides(c: Change, id: string) {
    (c.Complete? && exists i :: 0 <= i < |c.applied| && c.applied[i].eventId == id) || (c.Retry? && id in c.ids)
  }

  lemma DoubtKept(h: Held, c: Change, id: string)
    requires OrderInv(h) && Possible(h, c) && id in h.records && h.records[id].state == Uncertain && !Decides(c, id)
    ensures id in Changed(h, c).records && Changed(h, c).records[id].state == Uncertain
    ensures Changed(h, c).records[id].attempts == h.records[id].attempts
            && Changed(h, c).records[id].route == h.records[id].route
  {
    hide Oldest, InOrder;
    if c.Accept? {
      OverlayIs(h.records, c.batch);
      hide Overlay;
      assert id !in EventIds(c.batch);
    }
  }

  lemma DoubtBlocks(h: Held, id: string, other: string)
    requires OrderInv(h) && id in h.records && h.records[id].state == Uncertain
    requires other in h.records && Key(h.records[other]) == Key(h.records[id])
    ensures !IsHead(h.records[other], h.records)
  {
    if other != id {
      assert h.records[id].sequence <= h.records[other].sequence;
    }
  }

  /** What was in flight when the process died is in doubt after reopening, with its
      attempt and route, and nothing of its key is taken for dispatch: until its own
      result comes or it is explicitly retried, through whatever else happens. */
  lemma {:induction false} CrashHoldsKey(run: seq<Held>, changes: seq<Change>, n: nat, m: nat, id: string)
    requires IsOutboxRun(run, changes) && n < m < |run| && changes[n].Reopen?
    requires id in run[n].records && run[n].records[id].state == InFlight
    requires forall j :: n < j < m ==> !Decides(changes[j], id)
    ensures id in run[m].records && run[m].records[id].state == Uncertain
    ensures run[m].records[id].attempts == run[n].records[id].attempts
            && run[m].records[id].route == run[n].records[id].route
    ensures forall x :: x in run[m].records && Key(run[m].records[x]) == Key(run[m].records[id]) ==>
              !IsHead(run[m].records[x], run[m].records)
    decreases m
  {
    if m == n + 1 {
      RunInOrder(run, changes, m);
    } else {
      CrashHoldsKey(run, changes, n, m - 1, id);
      RunInOrder(run, changes, m - 1);
      RunInOrder(run, changes, m);
      hide Changed, Possible, OrderInv, IsHead, Decides;
      DoubtKept(run[m - 1], changes[m - 1], id);
    }
    hide Changed, Possible, IsOutboxRun;
    forall x | x in run[m].records && Key(run[m].records[x]) == Key(run[m].records[id])
      ensures !IsHead(run[m].records[x], run[m].records)
    {
      DoubtBlocks(run[m], id, x);
    }
  }
}
