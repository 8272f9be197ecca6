/** What each operation of the outbox leaves behind, field by field. These are the
    promises of the operations; the functions that compute the new records are proved to
    keep them. Follows outbox/outbox.go. */
module OutboxEffects {
  import opened OutboxRecords
  import opened OutboxChanges
  import opened OutboxStorage

  /** The listed events, each once, are live and in the state the operation starts from. */
  predicate AllIn(ids: seq<string>, records: Records, state: State) {
    && (forall i :: 0 <= i < |ids| ==> ids[i] != "" && ids[i] in records && records[ids[i]].state == state)
    && (forall i, j :: 0 <= i < j < |ids| ==> ids[i] != ids[j])
  }

  /** In flight, with one more attempt and no error. */
  predicate WentInFlight(ids: set<string>, before: Records, after: Records, now: nat) {
    && after.Keys == before.Keys
    && forall id :: id in before ==>
         after[id] ==
         if id in ids
         then before[id].(state := InFlight, attempts := before[id].attempts + 1, lastError := "", updatedAt := now)
         else before[id]
  }

  /** Ready again, with the reason of the rejection and the route it had. */
  predicate WereRejected(ids: set<string>, reasons: map<string, string>, before: Records, after: Records, now: nat) {
    && after.Keys == before.Keys
    && forall id :: id in before ==>
         after[id] ==
         if id in ids
         then before[id].(state := Ready, lastError := if id in reasons then reasons[id] else "", updatedAt := now)
         else before[id]
  }

  /** In doubt, with the reason. */
  predicate CameInDoubt(ids: set<string>, reasons: map<string, string>, before: Records, after: Records, now: nat) {
    && after.Keys == before.Keys
    && forall id :: id in before ==>
         after[id] ==
         if id in ids
         then before[id].(state := Uncertain, lastError := if id in reasons then reasons[id] else "", updatedAt := now)
         else before[id]
  }

  /** Ready again, by an explicit retry. */
  predicate WereRetried(ids: set<string>, before: Records, after: Records, now: nat) {
    && after.Keys == before.Keys
    && forall id :: id in before ==>
         after[id] ==
         if id in ids
         then before[id].(state := Ready, updatedAt := now,
                          lastError := "explicit retry after uncertain ACK; duplicate delivery is possible")
         else before[id]
  }

  /** A route can be given: complete, and to a record not yet routed or ready. */
  predicate TakesRoute(id: string, routes: map<string, Route>, records: Records) {
    && id != "" && id in records && (records[id].state == Unassigned || records[id].state == Ready)
    && id in routes && routes[id].epoch != 0 && routes[id].broker != "" && routes[id].endpoint != ""
    && routes[id].destination != ""
  }

  predicate AllTakeRoutes(ids: seq<string>, routes: map<string, Route>, records: Records) {
    && (forall i :: 0 <= i < |ids| ==> TakesRoute(ids[i], routes, records))
    && (forall i, j :: 0 <= i < j < |ids| ==> ids[i] != ids[j])
  }

  /** Ready with the route given. The error is forgotten unless the route is the one the
      record had. */
  predicate WereRouted(ids: set<string>, routes: map<string, Route>, before: Records, after: Records, now: nat) {
    && after.Keys == before.Keys
    && forall id :: id in before ==>
         if id in ids
         then id in routes && after[id] ==
              before[id].(state := Ready, route := routes[id], updatedAt := now,
                          lastError := if before[id].state == Ready && before[id].route == routes[id]
                                       then before[id].lastError else "")
         else after[id] == before[id]
  }

  /** Stored as handed in, with the next numbers in order, the time and the size. */
  predicate WereAccepted(input: seq<Record>, before: Records, after: Records, first: nat, now: nat,
                         size: Content -> nat) {
    && (forall i :: 0 <= i < |input| ==>
          var r := input[i];
          && r.content.eventId in after
          && after[r.content.eventId] ==
             Record(r.content, r.algorithm, r.route, if r.state == Unset then Unassigned else r.state,
                    0, "", first + i, now, now, size(r.content)))
    && (forall id :: id in before ==> id in after && after[id] == before[id])
    && (forall id :: id in after && id !in before ==>
          exists i :: 0 <= i < |input| && input[i].content.eventId == id)
  }

  /** In doubt if it was in flight, and as it was otherwise. */
  predicate WereRecovered(before: Records, after: Records, now: nat) {
    && after.Keys == before.Keys
    && forall id :: id in before ==>
         after[id] ==
         if before[id].state == InFlight
         then before[id].(state := Uncertain, updatedAt := now,
                          lastError := "publish outcome unknown after outbox recovery; retry may duplicate")
         else before[id]
  }

  // ----------------------------------------------------------------------- completions

  /** The completion names the current attempt, and the record still waits for it. An
      acknowledgement also resolves a doubt. */
  predicate Current(c: Completion, records: Records) {
    && c.eventId in records
    && records[c.eventId].attempts == c.attempts && records[c.eventId].route.epoch == c.epoch
    && match c.outcome
       case Acknowledged => records[c.eventId].state == InFlight || records[c.eventId].state == Uncertain
       case Rejected => records[c.eventId].state == InFlight
       case AckUncertain => records[c.eventId].state == InFlight
  }

  /** Exactly the current ones, in the order they were handed in. */
  ghost predicate TakesCurrent(applied: seq<Completion>, completions: seq<Completion>, records: Records) {
    (forall c :: c in applied <==> c in completions && Current(c, records)) && KeepsOrder(applied, completions)
  }

  predicate KeepsOrder(applied: seq<Completion>, completions: seq<Completion>) {
    forall i, j, k, l ::
      && 0 <= i < j < |applied| && 0 <= k < |completions| && 0 <= l < |completions|
      && applied[i] == completions[k] && applied[j] == completions[l] ==>
      k < l
  }

  /** The acknowledged are gone, the rejected ready and the uncertain in doubt, with the
      reason given; every other record is as it was. */
  predicate WereSettled(applied: seq<Completion>, before: Records, after: Records, now: nat) {
    && (forall c :: c in applied ==>
          match c.outcome
          case Acknowledged => c.eventId !in after
          case Rejected =>
            && c.eventId in before && c.eventId in after
            && after[c.eventId] == before[c.eventId].(state := Ready, lastError := c.reason, updatedAt := now)
          case AckUncertain =>
            && c.eventId in before && c.eventId in after
            && after[c.eventId] == before[c.eventId].(state := Uncertain, lastError := c.reason, updatedAt := now))
    && (forall id :: id in before && (forall c :: c in applied ==> c.eventId != id) ==>
          id in after && after[id] == before[id])
    && (forall id :: id in after ==> id in before)
  }

  // ------------------------------------------------------- the functions do what is promised

  lemma MarkingMeans(ids: seq<string>, records: Records, now: nat)
    ensures Mutable(ids, records, Marking()) <==> AllIn(ids, records, Ready)
    ensures ids == [] || AllIn(ids, records, Ready) ==>
              var all := Elements(ids);
              WentInFlight(all, records, Mutated(records, all, Marking(), now), now)
  {
  }

  lemma RejectingMeans(ids: seq<string>, reasons: map<string, string>, records: Records, now: nat)
    ensures Mutable(ids, records, Rejecting(reasons)) <==> AllIn(ids, records, InFlight)
    ensures ids == [] || AllIn(ids, records, InFlight) ==>
              var all := Elements(ids);
              WereRejected(all, reasons, records, Mutated(records, all, Rejecting(reasons), now), now)
  {
  }

  lemma DoubtingMeans(ids: seq<string>, reasons: map<string, string>, records: Records, now: nat)
    ensures Mutable(ids, records, Doubting(reasons)) <==> AllIn(ids, records, InFlight)
    ensures ids == [] || AllIn(ids, records, InFlight) ==>
              var all := Elements(ids);
              CameInDoubt(all, reasons, records, Mutated(records, all, Doubting(reasons), now), now)
  {
  }

  lemma RetryingMeans(ids: seq<string>, records: Records, now: nat)
    ensures Mutable(ids, records, Retrying()) <==> AllIn(ids, records, Uncertain)
    ensures ids == [] || AllIn(ids, records, Uncertain) ==>
              var all := Elements(ids);
              WereRetried(all, records, Mutated(records, all, Retrying(), now), now)
  {
  }

  lemma AssigningMeans(ids: seq<string>, routes: map<string, Route>, records: Records, now: nat)
    ensures Mutable(ids, records, Assigning(routes)) <==> AllTakeRoutes(ids, routes, records)
    ensures ids == [] || AllTakeRoutes(ids, routes, records) ==>
              var all := Elements(ids);
              WereRouted(all, routes, records, Mutated(records, all, Assigning(routes), now), now)
  {
  }

  lemma RecoveringMeans(records: Records, now: nat)
    ensures WereRecovered(records, Recovered(records, now), now)
  {
  }

  lemma StampedEvents(input: seq<Record>, records: Records, first: nat, now: nat, size: Content -> nat)
    requires FreshBatch(input, records)
    ensures var batch := Stamped(input, first, now, size);
            && DistinctEvents(batch)
            && (forall i :: 0 <= i < |input| ==> batch[i].content.eventId == input[i].content.eventId)
            && (forall id :: id in EventIds(batch) ==> id !in records)
  {
    hide ValidNew;
    var batch := Stamped(input, first, now, size);
    forall i | 0 <= i < |input| ensures batch[i].content.eventId == input[i].content.eventId {
    }
  }

  lemma AcceptedAt(input: seq<Record>, records: Records, first: nat, now: nat, size: Content -> nat, i: nat)
    requires FreshBatch(input, records) && i < |input|
    ensures var after := Overlay(records, Stamped(input, first, now, size));
            && input[i].content.eventId in after
            && after[input[i].content.eventId] == Stamp(input[i], first + i, now, size)
  {
    var batch := Stamped(input, first, now, size);
    StampedEvents(input, records, first, now, size);
    OverlayIs(records, batch);
    hide FreshBatch, DistinctEvents, Overlay, Stamp;
    assert batch[i].content.eventId in EventIds(batch);
  }

  lemma AcceptedElsewhere(input: seq<Record>, records: Records, first: nat, now: nat, size: Content -> nat, id: string)
    requires FreshBatch(input, records)
    ensures var after := Overlay(records, Stamped(input, first, now, size));
            && (id in records ==> id in after && after[id] == records[id])
            && (id in after && id !in records ==> exists i :: 0 <= i < |input| && input[i].content.eventId == id)
  {
    var batch := Stamped(input, first, now, size);
    StampedEvents(input, records, first, now, size);
    OverlayIs(records, batch);
    hide FreshBatch, DistinctEvents, Overlay, Stamp;
    if id in Overlay(records, batch) && id !in records {
      var i :| 0 <= i < |batch| && batch[i].content.eventId == id;
      assert input[i].content.eventId == id;
    }
  }

  lemma AcceptingMeans(input: seq<Record>, records: Records, first: nat, now: nat, size: Content -> nat)
    requires FreshBatch(input, records)
    ensures WereAccepted(input, records, Overlay(records, Stamped(input, first, now, size)), first, now, size)
  {
    hide FreshBatch, Overlay, Stamped;
    var after := Overlay(records, Stamped(input, first, now, size));
    forall i | 0 <= i < |input|
      ensures input[i].content.eventId in after
              && after[input[i].content.eventId] == Stamp(input[i], first + i, now, size)
    {
      AcceptedAt(input, records, first, now, size, i);
    }
    forall id
      ensures id in records ==> id in after && after[id] == records[id]
      ensures id in after && id !in records ==> exists i :: 0 <= i < |input| && input[i].content.eventId == id
    {
      AcceptedElsewhere(input, records, first, now, size, id);
    }
  }

  lemma NothingAccepted(records: Records, first: nat, now: nat, size: Content -> nat)
    ensures WereAccepted([], records, records, first, now, size)
  {
  }

  lemma AppliesMeans(c: Completion, records: Records)
    ensures Applies(c, records) <==> Current(c, records)
  {
  }

  lemma OrderNext(rest: seq<Completion>, last: Completion, earlier: seq<Completion>)
    requires UniqueBatch(rest + [last]) && KeepsOrder(earlier, rest) && forall c :: c in earlier ==> c in rest
    ensures KeepsOrder(earlier, rest + [last]) && KeepsOrder(earlier + [last], rest + [last])
  {
    var all, applied := rest + [last], earlier + [last];
    forall k | 0 <= k < |all| ensures all[k] == last <==> k == |rest| {
      if k < |rest| {
        assert all[k].eventId != all[|rest|].eventId;
      }
    }
    forall i | 0 <= i < |earlier| ensures earlier[i] != last && applied[i] == earlier[i] {
      assert earlier[i] in earlier && earlier[i] in rest;
      var k :| 0 <= k < |rest| && rest[k] == earlier[i];
      assert all[k] == rest[k];
    }
    forall i, j, k, l | 0 <= i < j < |applied| && 0 <= k < |all| && 0 <= l < |all|
                        && applied[i] == all[k] && applied[j] == all[l]
      ensures k < l
    {
      assert k < |rest| && rest[k] == earlier[i];
      if j < |earlier| {
        assert l < |rest| && rest[l] == earlier[j];
      }
    }
    forall i, j, k, l | 0 <= i < j < |earlier| && 0 <= k < |all| && 0 <= l < |all|
                        && earlier[i] == all[k] && earlier[j] == all[l]
      ensures k < l
    {
      assert applied[i] == earlier[i] && applied[j] == earlier[j];
    }
  }

  lemma {:induction false} AppliedOrder(completions: seq<Completion>, records: Records)
    requires UniqueBatch(completions)
    ensures KeepsOrder(Applied(completions, records), completions)
  {
    if completions != [] {
      var rest, last := completions[..|completions| - 1], completions[|completions| - 1];
      assert completions == rest + [last];
      AppliedOrder(rest, records);
      AppliedAre(rest, records);
      hide Applies, KeepsOrder, UniqueBatch;
      OrderNext(rest, last, Applied(rest, records));
    }
  }

  lemma AppliedInOrder(completions: seq<Completion>, records: Records)
    requires UniqueBatch(completions)
    ensures TakesCurrent(Applied(completions, records), completions, records)
  {
    hide Applies, Current, Applied, KeepsOrder, UniqueBatch;
    forall c ensures Applies(c, records) <==> Current(c, records) {
      AppliesMeans(c, records);
    }
    AppliedAre(completions, records);
    AppliedOrder(completions, records);
  }

  lemma SettlingMeans(applied: seq<Completion>, records: Records, now: nat)
    requires Matching(applied, records)
    ensures WereSettled(applied, records, Settled(records, applied, applied, now), now)
  {
    var after := Settled(records, applied, applied, now);
    forall c | c in applied
      ensures c.outcome == Acknowledged ==> c.eventId !in after
      ensures c.outcome != Acknowledged ==>
                c.eventId in after && after[c.eventId] == Complete(c, records[c.eventId], now)
    {
      var i :| 0 <= i < |applied| && applied[i] == c;
      SettledAt(applied, records, i, now);
    }
    forall id | id in records && (forall c :: c in applied ==> c.eventId != id)
      ensures id in after && after[id] == records[id]
    {
    }
  }

  lemma SettledAt(applied: seq<Completion>, records: Records, i: nat, now: nat)
    requires Matching(applied, records) && i < |applied|
    ensures var c, after := applied[i], Settled(records, applied, applied, now);
            if c.outcome == Acknowledged then c.eventId !in after
            else c.eventId in records && c.eventId in after
                 && after[c.eventId] == Complete(c, records[c.eventId], now)
  {
    var c := applied[i];
    assert Applies(c, records);
    if c.outcome == Acknowledged {
      assert Deletes(applied, c.eventId);
    } else {
      assert !Deletes(applied, c.eventId);
      var found := Changes(applied, c.eventId);
      assert found.Ok?;
      var k :| 0 <= k < |applied| && applied[k] == found.value;
      assert k == i;
    }
  }

  /** Sizes add up. */
  lemma {:induction false} TotalAdds(a: seq<Record>, b: seq<Record>)
    ensures Total(a + b) == Total(a) + Total(b)
    ensures |b| == 1 ==> Total(b) == b[0].size
  {
    if b == [] {
      assert a + b == a;
    } else {
      var rest, last := b[..|b| - 1], b[|b| - 1];
      TotalAdds(a, rest);
      assert a + b == (a + rest) + [last] && b == rest + [last];
      TotalAppend(a + rest, last);
      TotalAppend(rest, last);
    }
  }
}
