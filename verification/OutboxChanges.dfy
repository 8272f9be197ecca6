/** What each mutation of the outbox means for its records, free of any index, batch
    order or storage. Follows outbox/outbox.go. */
module OutboxChanges {
  import opened OutboxRecords
  import opened OutboxIndex
  import opened OutboxUpkeep

  datatype Result<T> = Ok(value: T) | Refused

  // -------------------------------------------------------------------- accepting

  /** The stored form of an accepted record. */
  function Stamp(r: Record, sequence: nat, now: nat, size: Content -> nat): Record {
    Record(r.content, r.algorithm, r.route, if r.state == Unset then Unassigned else r.state,
           0, "", sequence, now, now, size(r.content))
  }

  lemma StampIsStored(r: Record, sequence: nat, now: nat, size: Content -> nat)
    requires ValidNew(r) && sequence > 0 && size(r.content) > 0
    ensures ValidStored(Stamp(r, sequence, now, size), size)
  {
  }

  function Stamped(input: seq<Record>, sequence: nat, now: nat, size: Content -> nat): (r: seq<Record>)
    ensures |r| == |input|
    ensures forall i :: 0 <= i < |r| ==> r[i] == Stamp(input[i], sequence + i, now, size)
  {
    seq(|input|, i requires 0 <= i < |input| => Stamp(input[i], sequence + i, now, size))
  }

  function Total(records: seq<Record>): nat {
    if records == [] then 0 else Total(records[..|records| - 1]) + records[|records| - 1].size
  }

  /** Each record is well formed and new, here and in the store. */
  predicate FreshBatch(input: seq<Record>, records: Records) {
    && (forall i :: 0 <= i < |input| ==> ValidNew(input[i]) && input[i].content.eventId !in records)
    && (forall i, j :: 0 <= i < j < |input| ==> input[i].content.eventId != input[j].content.eventId)
  }

  /** The records with a batch filed over them. */
  function Overlay(records: Records, batch: seq<Record>): Records {
    if batch == [] then records
    else Overlay(records, batch[..|batch| - 1])[batch[|batch| - 1].content.eventId := batch[|batch| - 1]]
  }

  function EventIds(input: seq<Record>): set<string> {
    set i | 0 <= i < |input| :: input[i].content.eventId
  }

  lemma EventIdsNext(input: seq<Record>, i: nat)
    requires i < |input|
    ensures EventIds(input[..i + 1]) == EventIds(input[..i]) + {input[i].content.eventId}
  {
    var longer, shorter := input[..i + 1], input[..i];
    assert longer[i] == input[i];
    forall k | 0 <= k < i ensures longer[k] == shorter[k] && shorter[k].content.eventId in EventIds(shorter) {
    }
  }

  lemma OverlayNext(records: Records, batch: seq<Record>, i: nat)
    requires i < |batch|
    ensures Overlay(records, batch[..i + 1]) == Overlay(records, batch[..i])[batch[i].content.eventId := batch[i]]
  {
    assert batch[..i + 1][..i] == batch[..i];
  }

  /** The history of acceptance with a batch added. */
  function Issue(issued: map<string, nat>, batch: seq<Record>): map<string, nat> {
    if batch == [] then issued
    else Issue(issued, batch[..|batch| - 1])[batch[|batch| - 1].content.eventId := batch[|batch| - 1].sequence]
  }

  lemma IssueNext(issued: map<string, nat>, batch: seq<Record>, i: nat)
    requires i < |batch|
    ensures Issue(issued, batch[..i + 1]) == Issue(issued, batch[..i])[batch[i].content.eventId := batch[i].sequence]
  {
    assert batch[..i + 1][..i] == batch[..i];
  }

  lemma {:induction false} IssueIs(issued: map<string, nat>, batch: seq<Record>)
    ensures Issue(issued, batch).Keys == issued.Keys + EventIds(batch)
    ensures forall id :: id in issued && id !in EventIds(batch) ==> Issue(issued, batch)[id] == issued[id]
  {
    if batch != [] {
      IssueIs(issued, batch[..|batch| - 1]);
      EventIdsNext(batch, |batch| - 1);
      assert batch[..|batch|] == batch;
    }
  }

  predicate DistinctEvents(batch: seq<Record>) {
    forall i, j :: 0 <= i < j < |batch| ==> batch[i].content.eventId != batch[j].content.eventId
  }

  /** The batch is found under its events, and nothing else changed. */
  lemma {:induction false} OverlayIs(records: Records, batch: seq<Record>)
    ensures Overlay(records, batch).Keys == records.Keys + EventIds(batch)
    ensures forall id :: id in records && id !in EventIds(batch) ==> Overlay(records, batch)[id] == records[id]
    ensures forall id :: id in Overlay(records, batch) && id in EventIds(batch) ==>
              Overlay(records, batch)[id] in batch && Overlay(records, batch)[id].content.eventId == id
    ensures DistinctEvents(batch) ==> forall i :: 0 <= i < |batch| ==>
              Overlay(records, batch)[batch[i].content.eventId] == batch[i]
  {
    if batch != [] {
      var rest, last := batch[..|batch| - 1], batch[|batch| - 1];
      OverlayIs(records, rest);
      EventIdsNext(batch, |batch| - 1);
      assert batch[..|batch|] == batch;
      assert batch == rest + [last];
      if DistinctEvents(batch) {
        assert DistinctEvents(rest);
      }
    }
  }

  // -------------------------------------------------------------------- mutating

  /** A change of one record that the outbox may apply. */
  type Mutation = (string, Record) -> Result<Record>

  /** It touches neither content nor place nor size, and leaves a storable record. */
  ghost predicate Proper(mutate: Mutation, size: Content -> nat) {
    forall id, r :: ValidStored(r, size) && mutate(id, r).Ok? ==>
      SamePlace(r, mutate(id, r).value) && mutate(id, r).value.size == r.size && ValidStored(mutate(id, r).value, size)
  }

  predicate Mutable(ids: seq<string>, records: Records, mutate: Mutation) {
    && (forall i :: 0 <= i < |ids| ==> ids[i] in records && mutate(ids[i], records[ids[i]]).Ok?)
    && (forall i :: 0 <= i < |ids| ==> ids[i] != "")
    && (forall i, j :: 0 <= i < j < |ids| ==> ids[i] != ids[j])
  }

  function Mutated(records: Records, ids: set<string>, mutate: Mutation, now: nat): Records {
    map id | id in records ::
      if id in ids && mutate(id, records[id]).Ok? then mutate(id, records[id]).value.(updatedAt := now) else records[id]
  }

  function AssignTo(assignments: map<string, Route>, id: string, r: Record): Result<Record> {
    if id !in assignments || !Routed(assignments[id]) || assignments[id].endpoint == "" then Refused
    else if r.state == Ready && r.route == assignments[id] then Ok(r)
    else if r.state != Unassigned && r.state != Ready then Refused
    else Ok(r.(route := assignments[id], state := Ready, lastError := ""))
  }

  function MarkInFlight(r: Record): Result<Record> {
    if r.state != Ready then Refused else Ok(r.(state := InFlight, attempts := r.attempts + 1, lastError := ""))
  }

  function MarkRejected(r: Record, reason: string): Result<Record> {
    if r.state != InFlight then Refused else Ok(r.(state := Ready, lastError := reason))
  }

  function MarkUncertain(r: Record, reason: string): Result<Record> {
    if r.state != InFlight then Refused else Ok(r.(state := Uncertain, lastError := reason))
  }

  function Retry(r: Record): Result<Record> {
    if r.state != Uncertain then Refused
    else Ok(r.(state := Ready, lastError := "explicit retry after uncertain ACK; duplicate delivery is possible"))
  }

  function Assigning(assignments: map<string, Route>): Mutation {
    (id, r) => AssignTo(assignments, id, r)
  }

  function Marking(): Mutation {
    (id, r) => MarkInFlight(r)
  }

  function Reason(reasons: map<string, string>, id: string): string {
    if id in reasons then reasons[id] else ""
  }

  function Rejecting(reasons: map<string, string>): Mutation {
    (id, r) => MarkRejected(r, Reason(reasons, id))
  }

  function Doubting(reasons: map<string, string>): Mutation {
    (id, r) => MarkUncertain(r, Reason(reasons, id))
  }

  function Retrying(): Mutation {
    (id, r) => Retry(r)
  }

  /** Every state change of the outbox is proper. */
  lemma AllProper(size: Content -> nat, assignments: map<string, Route>, reasons: map<string, string>)
    ensures Proper(Assigning(assignments), size)
    ensures Proper(Marking(), size)
    ensures Proper(Rejecting(reasons), size)
    ensures Proper(Doubting(reasons), size)
    ensures Proper(Retrying(), size)
  {
  }

  // ------------------------------------------------------------------- completing

  datatype CompletionOutcome = Acknowledged | Rejected | AckUncertain

  datatype Completion = Completion(eventId: string, attempts: nat, epoch: nat, outcome: CompletionOutcome,
                                   reason: string)

  /** A completion counts only for the very attempt it names. */
  predicate Applies(c: Completion, records: Records) {
    && c.eventId in records
    && records[c.eventId].attempts == c.attempts && records[c.eventId].route.epoch == c.epoch
    && (records[c.eventId].state == InFlight || (c.outcome == Acknowledged && records[c.eventId].state == Uncertain))
  }

  function Applied(completions: seq<Completion>, records: Records): seq<Completion> {
    if completions == [] then []
    else
      var rest, last := Applied(completions[..|completions| - 1], records), completions[|completions| - 1];
      if Applies(last, records) then rest + [last] else rest
  }

  predicate UniqueBatch(completions: seq<Completion>) {
    && (forall i :: 0 <= i < |completions| ==> completions[i].eventId != "")
    && (forall i, j :: 0 <= i < j < |completions| ==> completions[i].eventId != completions[j].eventId)
  }

  function Complete(c: Completion, r: Record, now: nat): Record {
    r.(state := if c.outcome == Rejected then Ready else Uncertain, lastError := c.reason, updatedAt := now)
  }

  predicate Deletes(applied: seq<Completion>, id: string) {
    exists i :: 0 <= i < |applied| && applied[i].eventId == id && applied[i].outcome == Acknowledged
  }

  function Changes(applied: seq<Completion>, id: string): (c: Result<Completion>)
    ensures c.Ok? ==> c.value in applied && c.value.eventId == id && c.value.outcome != Acknowledged
    ensures c.Refused? ==> forall i :: 0 <= i < |applied| && applied[i].eventId == id ==>
              applied[i].outcome == Acknowledged
  {
    if applied == [] then Refused
    else
      var last := applied[|applied| - 1];
      assert applied == applied[..|applied| - 1] + [last];
      if last.eventId == id && last.outcome != Acknowledged then Ok(last) else Changes(applied[..|applied| - 1], id)
  }

  /** The records after a batch of matching completions: the acknowledged ones are
      gone, the rejected ones ready, the uncertain ones kept as uncertain. */
  function Settled(records: Records, changed: seq<Completion>, deleted: seq<Completion>, now: nat): Records {
    map id | id in records && !Deletes(deleted, id) ::
      if Changes(changed, id).Ok? then Complete(Changes(changed, id).value, records[id], now) else records[id]
  }

  /** The sizes of what a batch deletes. */
  function Released(records: Records, applied: seq<Completion>): nat {
    if applied == [] then 0
    else
      var last := applied[|applied| - 1];
      Released(records, applied[..|applied| - 1])
      + (if last.outcome == Acknowledged && last.eventId in records then records[last.eventId].size else 0)
  }

  /** Distinct completions, each of which applies. */
  predicate Matching(applied: seq<Completion>, records: Records) {
    UniqueBatch(applied) && forall i :: 0 <= i < |applied| ==> Applies(applied[i], records)
  }

  lemma {:induction false} AppliedAre(completions: seq<Completion>, records: Records)
    ensures forall c :: c in Applied(completions, records) <==> c in completions && Applies(c, records)
  {
    hide Applies;
    if completions != [] {
      var rest, last := completions[..|completions| - 1], completions[|completions| - 1];
      assert completions == rest + [last];
      AppliedAre(rest, records);
    }
  }

  lemma {:induction false} AppliedUnique(completions: seq<Completion>, records: Records)
    requires UniqueBatch(completions)
    ensures UniqueBatch(Applied(completions, records))
  {
    hide Applies;
    if completions != [] {
      var rest, last := completions[..|completions| - 1], completions[|completions| - 1];
      AppliedUnique(rest, records);
      AppliedAre(rest, records);
      forall c | c in Applied(rest, records) ensures c.eventId != last.eventId {
        var k :| 0 <= k < |rest| && rest[k] == c;
        assert completions[k] == c;
      }
    }
  }

  lemma AppliedMatching(completions: seq<Completion>, records: Records)
    requires UniqueBatch(completions)
    ensures Matching(Applied(completions, records), records)
    ensures forall c :: c in Applied(completions, records) <==> c in completions && Applies(c, records)
  {
    hide Applies, Applied, UniqueBatch;
    AppliedAre(completions, records);
    AppliedUnique(completions, records);
  }

  lemma SettledChange(records: Records, applied: seq<Completion>, i: nat, now: nat)
    requires i < |applied|
    ensures Settled(records, applied[..i + 1], [], now) ==
            if applied[i].outcome != Acknowledged && applied[i].eventId in records
            then Settled(records, applied[..i], [], now)
              [applied[i].eventId := Complete(applied[i], records[applied[i].eventId], now)]
            else Settled(records, applied[..i], [], now)
  {
    assert applied[..i + 1][..i] == applied[..i];
  }

  lemma SettledDelete(records: Records, applied: seq<Completion>, i: nat, now: nat)
    requires i < |applied|
    ensures Settled(records, applied, applied[..i + 1], now) ==
            if applied[i].outcome == Acknowledged
            then Settled(records, applied, applied[..i], now) - {applied[i].eventId}
            else Settled(records, applied, applied[..i], now)
  {
    hide Changes;
    forall id ensures Deletes(applied[..i + 1], id) <==>
          Deletes(applied[..i], id) || (applied[i].outcome == Acknowledged && applied[i].eventId == id) {
      DeletesNext(applied, i, id);
    }
  }

  lemma DeletesNext(applied: seq<Completion>, i: nat, id: string)
    requires i < |applied|
    ensures Deletes(applied[..i + 1], id) <==>
              Deletes(applied[..i], id) || (applied[i].outcome == Acknowledged && applied[i].eventId == id)
  {
    var longer, shorter := applied[..i + 1], applied[..i];
    if Deletes(shorter, id) {
      var k :| 0 <= k < |shorter| && shorter[k].eventId == id && shorter[k].outcome == Acknowledged;
      assert longer[k] == shorter[k];
    }
    if applied[i].outcome == Acknowledged && applied[i].eventId == id {
      assert longer[i] == applied[i];
    }
    if Deletes(longer, id) {
      var k :| 0 <= k < |longer| && longer[k].eventId == id && longer[k].outcome == Acknowledged;
      assert k < i ==> shorter[k] == longer[k];
    }
  }

  // -------------------------------------------------------------------- reopening

  const RECOVERED := "publish outcome unknown after outbox recovery; retry may duplicate"

  function Recover(r: Record, now: nat): Record {
    if r.state == InFlight then r.(state := Uncertain, lastError := RECOVERED, updatedAt := now) else r
  }

  function Recovered(records: Records, now: nat): Records {
    map id | id in records :: Recover(records[id], now)
  }

  /** After reopening nothing is in flight; what was is in doubt, the rest is as it was. */
  lemma RecoveredMeans(records: Records, now: nat)
    ensures Recovered(records, now).Keys == records.Keys
    ensures forall id :: id in records ==>
              var r := Recovered(records, now)[id];
              if records[id].state == InFlight
              then r == records[id].(state := Uncertain, lastError := r.lastError, updatedAt := now)
              else r == records[id]
  {
  }

  // ------------------------------------------------------------- sizes and places

  lemma {:induction false} TotalAppend(a: seq<Record>, r: Record)
    ensures Total(a + [r]) == Total(a) + r.size
  {
    assert (a + [r])[..|a|] == a;
  }

  /** Total size only depends on sizes. */
  lemma {:induction false} TotalSame(order: seq<string>, a: Records, b: Records)
    requires a.Keys == b.Keys && forall id :: id in a ==> a[id].size == b[id].size
    ensures Total(Live(order, a)) == Total(Live(order, b))
  {
    if order != [] {
      var rest, last := order[..|order| - 1], order[|order| - 1];
      TotalSame(rest, a, b);
      if last in a {
        TotalAppend(Live(rest, a), a[last]);
        TotalAppend(Live(rest, b), b[last]);
      }
    }
  }

  lemma {:induction false} LiveWithout(order: seq<string>, records: Records, id: string)
    requires id !in order
    ensures Live(order, records - {id}) == Live(order, records)
  {
    if order != [] {
      LiveWithout(order[..|order| - 1], records, id);
    }
  }

  lemma {:induction false} TotalWithout(order: seq<string>, records: Records, issued: map<string, nat>, id: string)
    requires Rising(order, issued) && id in order && id in records
    ensures Total(Live(order, records)) == Total(Live(order, records - {id})) + records[id].size
  {
    var rest, last := order[..|order| - 1], order[|order| - 1];
    assert order == rest + [last];
    if last == id {
      assert id !in rest;
      LiveWithout(rest, records, id);
      TotalAppend(Live(rest, records), records[id]);
    } else {
      TotalWithout(rest, records, issued, id);
      if last in records {
        TotalAppend(Live(rest, records), records[last]);
        TotalAppend(Live(rest, records - {id}), records[last]);
      }
    }
  }

  /** Dropping dead entries from the order. */
  function Compacted(order: seq<string>, records: Records): seq<string> {
    if order == [] then []
    else
      var rest, last := Compacted(order[..|order| - 1], records), order[|order| - 1];
      if last in records then rest + [last] else rest
  }

  lemma {:induction false} CompactedSame(order: seq<string>, records: Records, issued: map<string, nat>)
    requires Rising(order, issued)
    ensures Rising(Compacted(order, records), issued)
    ensures Live(Compacted(order, records), records) == Live(order, records)
    ensures forall id :: id in Compacted(order, records) <==> id in order && id in records
  {
    if order != [] {
      var rest, last := order[..|order| - 1], order[|order| - 1];
      assert order == rest + [last];
      CompactedSame(rest, records, issued);
      if last in records {
        var c := Compacted(rest, records);
        assert (c + [last])[..|c|] == c;
        forall i | 0 <= i < |c| ensures issued[c[i]] < issued[last] {
          assert c[i] in rest;
        }
      }
    }
  }
}
