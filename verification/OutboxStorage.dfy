/** Storage of the outbox, and what a batch of changes does to it and to the records:
    two buckets and two counters that change atomically or not at all.
    Follows outbox/outbox.go. */
module OutboxStorage {
  import opened OutboxRecords
  import opened OutboxIndex
  import opened OutboxUpkeep
  import opened OutboxChanges

  const MAX_UINT64: nat := 0xFFFF_FFFF_FFFF_FFFF

  // ---------------------------------------------------------------------- storage

  /** Records by sequence, sequences by event, and the metadata. */
  datatype Disk = Disk(records: map<nat, Record>, events: map<string, nat>, nextSequence: nat, totalBytes: nat)

  predicate Mirrors(d: Disk, records: Records) {
    && d.events.Keys == records.Keys
    && (forall id :: id in records ==>
          d.events[id] == records[id].sequence && records[id].sequence in d.records
          && d.records[records[id].sequence] == records[id])
    && (forall s :: s in d.records ==>
          d.records[s].content.eventId in records && records[d.records[s].content.eventId].sequence == s)
  }

  lemma MirrorsInsert(d: Disk, records: Records, r: Record)
    requires Mirrors(d, records) && Filed(records) && r.content.eventId !in records && r.sequence !in d.records
    ensures Mirrors(d.(records := d.records[r.sequence := r], events := d.events[r.content.eventId := r.sequence]),
                    records[r.content.eventId := r])
  {
  }

  lemma MirrorsChange(d: Disk, records: Records, r: Record)
    requires Mirrors(d, records) && Filed(records) && r.content.eventId in records
             && SamePlace(records[r.content.eventId], r)
    ensures Mirrors(d.(records := d.records[r.sequence := r]), records[r.content.eventId := r])
  {
    var id := r.content.eventId;
    var e, after := d.(records := d.records[r.sequence := r]), records[id := r];
    forall x | x in after ensures e.records[after[x].sequence] == after[x] {
      assert d.records[records[x].sequence] == records[x];
    }
  }

  lemma MirrorsDelete(d: Disk, records: Records, id: string)
    requires Mirrors(d, records) && Filed(records) && id in records
    ensures Mirrors(d.(records := d.records - {records[id].sequence}, events := d.events - {id}), records - {id})
  {
    var e, after := d.(records := d.records - {records[id].sequence}, events := d.events - {id}), records - {id};
    forall x | x in after ensures after[x].sequence in e.records {
      assert d.records[records[x].sequence] == records[x];
      assert d.records[records[id].sequence] == records[id];
    }
  }

  datatype Limits = Limits(maxMessages: nat, maxBytes: nat)

  datatype Refusal = Full | Exhausted | InvalidRecord | Duplicate | InvalidState | NotPersisted

  datatype AcceptReply = Accepted(records: seq<Record>) | NotAccepted(why: Refusal)

  datatype CompleteReply = Completed(applied: seq<Completion>) | NotCompleted(why: Refusal)

  predicate AllStored(records: Records, size: Content -> nat) {
    forall id :: id in records ==> ValidStored(records[id], size)
  }

  method SettleDisk(d: Disk, applied: seq<Completion>, records: Records, now: nat) returns (r: Disk)
    requires Mirrors(d, records) && Filed(records) && Matching(applied, records)
    ensures Mirrors(r, Settled(records, applied, applied, now)) && r.nextSequence == d.nextSequence
            && r.totalBytes == d.totalBytes
  {
    hide Mirrors, Settled, Matching;
    r := d;
    NothingSettled(records, applied, now);
    assert applied[..0] == [];
    for i := 0 to |applied|
      invariant Mirrors(r, Settled(records, applied[..i], [], now)) && Filed(Settled(records, applied[..i], [], now))
      invariant r.nextSequence == d.nextSequence && r.totalBytes == d.totalBytes
    {
      SettledChange(records, applied, i, now);
      if applied[i].outcome != Acknowledged {
        NotYetChanged(records, applied, i, now);
        var changed := Complete(applied[i], records[applied[i].eventId], now);
        MirrorsChange(r, Settled(records, applied[..i], [], now), changed);
        r := r.(records := r.records[changed.sequence := changed]);
      }
    }
    assert applied[..|applied|] == applied;
    for i := 0 to |applied|
      invariant Mirrors(r, Settled(records, applied, applied[..i], now))
                && Filed(Settled(records, applied, applied[..i], now))
      invariant r.nextSequence == d.nextSequence && r.totalBytes == d.totalBytes
    {
      SettledDelete(records, applied, i, now);
      if applied[i].outcome == Acknowledged {
        NotYetDeleted(records, applied, i, now);
        MirrorsDelete(r, Settled(records, applied, applied[..i], now), applied[i].eventId);
        r := r.(records := r.records - {records[applied[i].eventId].sequence},
                events := r.events - {applied[i].eventId});
      }
    }
  }

  lemma SettledOk(records: Records, applied: seq<Completion>, now: nat, size: Content -> nat)
    requires AllStored(records, size) && Matching(applied, records)
    ensures AllStored(Settled(records, applied, applied, now), size)
    ensures |Settled(records, applied, applied, now)| <= |records|
  {
    var after := Settled(records, applied, applied, now);
    forall id | id in after ensures ValidStored(after[id], size) {
      assert ValidStored(records[id], size);
      if Changes(applied, id).Ok? {
        assert Applies(Changes(applied, id).value, records);
      }
    }
    SubsetCount(after.Keys, records.Keys);
    assert |after.Keys| == |after| && |records.Keys| == |records|;
  }

  lemma NothingApplied(records: Records)
    ensures Applied([], records) == [] && Released(records, []) == 0
  {
  }

  lemma AppliedNext(completions: seq<Completion>, i: nat, records: Records)
    requires i < |completions|
    ensures Applied(completions[..i + 1], records) ==
            if Applies(completions[i], records) then Applied(completions[..i], records) + [completions[i]]
              else Applied(completions[..i], records)
  {
    hide Applies;
    assert completions[..i + 1][..i] == completions[..i];
  }

  lemma ReleasedNext(records: Records, applied: seq<Completion>, c: Completion)
    requires Applies(c, records)
    ensures c.eventId in records
    ensures Released(records, applied + [c]) == Released(records, applied) + if c.outcome == Acknowledged
              then records[c.eventId].size else 0
  {
    assert (applied + [c])[..|applied|] == applied;
  }

  lemma ReleasedStep(records: Records, applied: seq<Completion>, i: nat)
    requires i < |applied| && Matching(applied, records)
    ensures applied[i].eventId in records
    ensures Released(records, applied[..i + 1]) == Released(records, applied[..i]) + if applied[i].outcome
              == Acknowledged then records[applied[i].eventId].size else 0
  {
    assert applied[..i + 1][..i] == applied[..i];
    assert Applies(applied[i], records);
  }

  lemma NothingSettled(records: Records, applied: seq<Completion>, now: nat)
    ensures Settled(records, [], [], now) == records && Released(records, []) == 0
  {
  }

  /** A record named once in a batch is untouched until its turn. */
  lemma NotYetChanged(records: Records, applied: seq<Completion>, i: nat, now: nat)
    requires i < |applied| && Matching(applied, records)
    ensures applied[i].eventId in records && applied[i].eventId in Settled(records, applied[..i], [], now)
    ensures Settled(records, applied[..i], [], now)[applied[i].eventId] == records[applied[i].eventId]
  {
    assert Applies(applied[i], records);
  }

  lemma NotYetDeleted(records: Records, applied: seq<Completion>, i: nat, now: nat)
    requires i < |applied| && Matching(applied, records) && applied[i].outcome == Acknowledged
    ensures applied[i].eventId in Settled(records, applied, applied[..i], now)
    ensures applied[i].eventId in records
    ensures Settled(records, applied, applied[..i], now)[applied[i].eventId] == records[applied[i].eventId]
  {
    assert Applies(applied[i], records);
  }

  lemma SameTotal(order: seq<string>, records: Records, id: string, r: Record)
    requires id in records && r.size == records[id].size
    ensures Total(Live(order, records[id := r])) == Total(Live(order, records))
  {
    TotalSame(order, records[id := r], records);
  }

  datatype Reply = Done | Failed(why: Refusal)

  function Elements(ids: seq<string>): set<string> {
    set id | id in ids
  }

  method CheckUnique(ids: seq<string>) returns (ok: bool)
    ensures ok <==> (forall i :: 0 <= i < |ids| ==> ids[i] != "")
                    && (forall i, j :: 0 <= i < j < |ids| ==> ids[i] != ids[j])
  {
    var seen: set<string> := {};
    for i := 0 to |ids|
      invariant seen == set k | 0 <= k < i :: ids[k]
      invariant forall k :: 0 <= k < i ==> ids[k] != ""
      invariant forall k, l :: 0 <= k < l < i ==> ids[k] != ids[l]
    {
      if ids[i] == "" {
        return false;
      }
      if ids[i] in seen {
        var k :| 0 <= k < i && ids[k] == ids[i];
        return false;
      }
      seen := seen + {ids[i]};
    }
    return true;
  }

  /** Changes that keep content, place and size of distinct stored records. */
  predicate InPlace(updated: seq<Record>, records: Records) {
    && DistinctEvents(updated)
    && forall i :: 0 <= i < |updated| ==>
         && updated[i].content.eventId in records
         && SamePlace(records[updated[i].content.eventId], updated[i])
         && updated[i].size == records[updated[i].content.eventId].size
         && (records[updated[i].content.eventId].state != Unset ==> updated[i].state != Unset)
         && (updated[i].state == Unassigned ==> Unrouted(updated[i].route))
         && (updated[i].state != Unassigned ==> Routed(updated[i].route))
  }

  lemma StillInPlace(updated: seq<Record>, records: Records, i: nat)
    requires i < |updated| && InPlace(updated, records)
    ensures updated[i].content.eventId in Overlay(records, updated[..i])
    ensures SamePlace(Overlay(records, updated[..i])[updated[i].content.eventId], updated[i])
  {
    OverlayIs(records, updated[..i]);
  }

  lemma FiledRecords(records: Records, issued: map<string, nat>)
    requires RecordsOk(records, issued)
    ensures Filed(records)
  {
  }

  method PutAll(d: Disk, updated: seq<Record>, ghost records: Records) returns (r: Disk)
    requires Mirrors(d, records) && Filed(records) && InPlace(updated, records)
    ensures Mirrors(r, Overlay(records, updated)) && r.nextSequence == d.nextSequence && r.totalBytes == d.totalBytes
  {
    hide Mirrors, Filed, Overlay, InPlace;
    r := d;
    OverlayNone(records);
    assert updated[..0] == [];
    for i := 0 to |updated|
      invariant Mirrors(r, Overlay(records, updated[..i])) && Filed(Overlay(records, updated[..i]))
      invariant r.nextSequence == d.nextSequence && r.totalBytes == d.totalBytes
    {
      StillInPlace(updated, records, i);
      OverlayNext(records, updated, i);
      MirrorsChange(r, Overlay(records, updated[..i]), updated[i]);
      FiledNext(Overlay(records, updated[..i]), updated[i]);
      r := r.(records := r.records[updated[i].sequence := updated[i]]);
    }
    assert updated[..|updated|] == updated;
  }

  lemma ReplacedOk(updated: seq<Record>, records: Records, order: seq<string>, size: Content -> nat)
    requires InPlace(updated, records) && AllStored(records, size) && Filed(records)
    ensures AllStored(Overlay(records, updated), size)
    ensures Total(Live(order, Overlay(records, updated))) == Total(Live(order, records))
    ensures |Overlay(records, updated)| == |records|
  {
    var after := Overlay(records, updated);
    OverlayIs(records, updated);
    assert after.Keys == records.Keys;
    forall id | id in after ensures ValidStored(after[id], size) && after[id].size == records[id].size {
      if id in EventIds(updated) {
        var i :| 0 <= i < |updated| && updated[i] == after[id];
        assert updated[i].content.eventId == id;
      }
    }
    TotalSame(order, after, records);
    assert |after.Keys| == |after| && |records.Keys| == |records|;
  }

  lemma MutatedNone(records: Records, ids: seq<string>, mutate: Mutation, now: nat)
    requires ids == []
    ensures Mutated(records, Elements(ids), mutate, now) == records
  {
  }

  predicate Collected(updated: seq<Record>, ids: seq<string>, records: Records, mutate: Mutation, now: nat) {
    && |updated| == |ids|
    && forall i :: 0 <= i < |ids| ==>
         ids[i] in records && mutate(ids[i], records[ids[i]]).Ok?
         && updated[i] == mutate(ids[i], records[ids[i]]).value.(updatedAt := now)
  }

  lemma CollectedInPlace(updated: seq<Record>, ids: seq<string>, records: Records, mutate: Mutation, now: nat,
                         size: Content -> nat)
    requires Mutable(ids, records, mutate) && Collected(updated, ids, records, mutate, now)
    requires Proper(mutate, size) && AllStored(records, size) && Filed(records)
    ensures InPlace(updated, records) && forall i :: 0 <= i < |updated| ==> updated[i].content.eventId == ids[i]
  {
    forall i | 0 <= i < |updated|
      ensures updated[i].content.eventId == ids[i] && SamePlace(records[ids[i]], updated[i])
              && updated[i].size == records[ids[i]].size
              && ValidStored(updated[i].(updatedAt := 0), size)
    {
      assert ValidStored(records[ids[i]], size);
    }
  }

  lemma MutatedInPlace(records: Records, ids: seq<string>, mutate: Mutation, now: nat, updated: seq<Record>,
                       size: Content -> nat)
    requires Mutable(ids, records, mutate) && Proper(mutate, size) && AllStored(records, size) && Filed(records)
    requires Collected(updated, ids, records, mutate, now)
    ensures InPlace(updated, records)
    ensures Overlay(records, updated) == Mutated(records, Elements(ids), mutate, now)
  {
    hide Proper, AllStored, InPlace;
    CollectedInPlace(updated, ids, records, mutate, now, size);
    OverlayIs(records, updated);
    assert DistinctEvents(updated);
    hide Overlay, Mutable, DistinctEvents;
    var after, expected := Overlay(records, updated), Mutated(records, Elements(ids), mutate, now);
    assert after.Keys == records.Keys;
    forall id | id in records ensures after[id] == expected[id] {
      if id in ids {
        var i :| 0 <= i < |ids| && ids[i] == id;
        assert after[updated[i].content.eventId] == updated[i];
      } else {
        assert id !in EventIds(updated);
      }
    }
  }

  /** New events with consecutive sequences. */
  predicate Appends(accepted: seq<Record>, first: nat, records: Records) {
    && (forall i :: 0 <= i < |accepted| ==> accepted[i].sequence == first + i
                                            && accepted[i].content.eventId !in records)
    && (forall i, j :: 0 <= i < j < |accepted| ==> accepted[i].content.eventId != accepted[j].content.eventId)
  }

  lemma EventIdsLack(accepted: seq<Record>, i: nat, first: nat, records: Records)
    requires i < |accepted| && Appends(accepted, first, records)
    ensures accepted[i].content.eventId !in EventIds(accepted[..i])
    ensures accepted[i].content.eventId !in Overlay(records, accepted[..i])
    ensures accepted[i].sequence == first + i
  {
    OverlayIs(records, accepted[..i]);
  }

  lemma IssueLacks(accepted: seq<Record>, i: nat, first: nat, records: Records, issued: map<string, nat>)
    requires i < |accepted| && Appends(accepted, first, records) && accepted[i].content.eventId !in issued
    ensures accepted[i].content.eventId !in Issue(issued, accepted[..i])
  {
    EventIdsLack(accepted, i, first, records);
    IssueIs(issued, accepted[..i]);
  }

  lemma NothingIssued(issued: map<string, nat>)
    ensures Issue(issued, []) == issued
  {
  }

  lemma OverlayNone(records: Records)
    ensures Overlay(records, []) == records
  {
  }

  lemma NewestNext(issued: map<string, nat>, sequence: nat, id: string)
    requires Newest(sequence, issued)
    ensures Newest(sequence + 1, issued[id := sequence])
  {
  }

  lemma StampedAppends(input: seq<Record>, first: nat, now: nat, size: Content -> nat, records: Records,
                       issued: map<string, nat>)
    requires FreshBatch(input, records) && first > 0
    requires forall i :: 0 <= i < |input| ==> size(input[i].content) > 0
    requires forall i :: 0 <= i < |input| && input[i].content.eventId in issued ==> input[i].content.eventId in records
    ensures var accepted := Stamped(input, first, now, size);
            && Appends(accepted, first, records) && EventIds(accepted) == EventIds(input)
            && (forall i :: 0 <= i < |accepted| ==> accepted[i].content.eventId !in issued
                                                    && ValidStored(accepted[i], size))
  {
    var accepted := Stamped(input, first, now, size);
    forall i | 0 <= i < |accepted| ensures ValidStored(accepted[i], size) && accepted[i].content.eventId !in issued {
      StampIsStored(input[i], first + i, now, size);
    }
  }

  lemma UnusedSequences(d: Disk, records: Records, issued: map<string, nat>, first: nat)
    requires Mirrors(d, records) && RecordsOk(records, issued) && Newest(first, issued)
    ensures forall s :: s in d.records ==> s < first
    ensures Filed(records)
  {
    forall s | s in d.records ensures s < first {
      var id := d.records[s].content.eventId;
      assert id in records && issued[id] == s;
    }
  }

  method InsertAll(d: Disk, accepted: seq<Record>, first: nat, ghost records: Records, ghost issued: map<string, nat>)
    returns (r: Disk)
    requires Mirrors(d, records) && Filed(records) && Appends(accepted, first, records)
    requires forall s :: s in d.records ==> s < first
    ensures Mirrors(r, Overlay(records, accepted))
  {
    hide Mirrors, Filed, Overlay, Appends;
    r := d;
    OverlayNone(records);
    assert accepted[..0] == [];
    for i := 0 to |accepted|
      invariant Mirrors(r, Overlay(records, accepted[..i])) && Filed(Overlay(records, accepted[..i]))
      invariant forall s :: s in r.records ==> s < first + i
    {
      EventIdsLack(accepted, i, first, records);
      OverlayNext(records, accepted, i);
      MirrorsInsert(r, Overlay(records, accepted[..i]), accepted[i]);
      FiledNext(Overlay(records, accepted[..i]), accepted[i]);
      r := r.(records := r.records[accepted[i].sequence := accepted[i]],
              events := r.events[accepted[i].content.eventId := accepted[i].sequence]);
    }
    assert accepted[..|accepted|] == accepted;
  }

  lemma MirrorsBuckets(d: Disk, e: Disk, records: Records)
    requires Mirrors(d, records) && e.records == d.records && e.events == d.events
    ensures Mirrors(e, records)
  {
  }

  lemma FiledNext(records: Records, r: Record)
    requires Filed(records)
    ensures Filed(records[r.content.eventId := r])
  {
  }

  lemma StoredAfter(records: Records, accepted: seq<Record>, size: Content -> nat)
    requires AllStored(records, size) && forall i :: 0 <= i < |accepted| ==> ValidStored(accepted[i], size)
    ensures AllStored(Overlay(records, accepted), size)
  {
    hide ValidStored;
    OverlayIs(records, accepted);
    var all := Overlay(records, accepted);
    forall id | id in all ensures ValidStored(all[id], size) {
      if id in EventIds(accepted) {
        assert all[id] in accepted;
      }
    }
  }

  lemma NothingPrepared(records: Records, sequence: nat, now: nat, size: Content -> nat)
    ensures FreshBatch([], records) && EventIds([]) == {} && Overlay(records, []) == records
            && Stamped([], sequence, now, size) == [] && Total([]) == 0
  {
  }

  lemma FreshNext(input: seq<Record>, i: nat, records: Records)
    requires i < |input| && FreshBatch(input[..i], records)
    ensures EventIds(input[..i + 1]) == EventIds(input[..i]) + {input[i].content.eventId}
    ensures FreshBatch(input[..i + 1], records) <==>
              ValidNew(input[i]) && input[i].content.eventId !in records
              && input[i].content.eventId !in EventIds(input[..i])
  {
    hide ValidNew;
    EventIdsNext(input, i);
    var longer, shorter := input[..i + 1], input[..i];
    assert longer[i] == input[i];
    forall k | 0 <= k < i ensures longer[k] == shorter[k] && shorter[k].content.eventId in EventIds(shorter) {
    }
  }

  lemma FreshPrefix(input: seq<Record>, i: nat, records: Records)
    requires i <= |input|
    ensures FreshBatch(input, records) ==> FreshBatch(input[..i], records)
  {
    hide ValidNew;
  }

  lemma StampedNext(input: seq<Record>, i: nat, sequence: nat, now: nat, size: Content -> nat)
    requires i < |input|
    ensures Stamped(input[..i + 1], sequence, now, size)
            == Stamped(input[..i], sequence, now, size) + [Stamp(input[i], sequence + i, now, size)]
  {
  }

  lemma {:induction false} TotalPrefix(input: seq<Record>, i: nat, sequence: nat, now: nat, size: Content -> nat)
    requires i <= |input|
    ensures Total(Stamped(input[..i], sequence, now, size)) <= Total(Stamped(input, sequence, now, size))
    decreases |input| - i
  {
    if i == |input| {
      assert input[..i] == input;
    } else {
      StampedNext(input, i, sequence, now, size);
      TotalAppend(Stamped(input[..i], sequence, now, size), Stamp(input[i], sequence + i, now, size));
      TotalPrefix(input, i + 1, sequence, now, size);
    }
  }

  lemma {:induction false} LiveIgnores(order: seq<string>, records: Records, id: string, r: Record)
    requires id !in order
    ensures Live(order, records[id := r]) == Live(order, records)
  {
    if order != [] {
      LiveIgnores(order[..|order| - 1], records, id, r);
    }
  }

  lemma LiveAppend(order: seq<string>, records: Records, issued: map<string, nat>, r: Record)
    requires OrderOk(order, records, issued) && r.content.eventId !in issued
    ensures Live(order + [r.content.eventId], records[r.content.eventId := r]) == Live(order, records) + [r]
  {
    var id := r.content.eventId;
    assert (order + [id])[..|order|] == order;
    LiveIgnores(order, records, id, r);
  }

  lemma ChangedOk(records: Records, order: seq<string>, issued: map<string, nat>, r: Record)
    requires RecordsOk(records, issued) && OrderOk(order, records, issued)
    requires r.content.eventId in records && SamePlace(records[r.content.eventId], r)
    ensures RecordsOk(records[r.content.eventId := r], issued)
            && OrderOk(order, records[r.content.eventId := r], issued)
  {
    hide Rising;
  }

  lemma AddedOk(records: Records, order: seq<string>, issued: map<string, nat>, r: Record)
    requires RecordsOk(records, issued) && OrderOk(order, records, issued)
    requires r.content.eventId !in issued && Newest(r.sequence, issued)
    ensures var id := r.content.eventId;
            RecordsOk(records[id := r], issued[id := r.sequence])
            && OrderOk(order + [id], records[id := r], issued[id := r.sequence])
  {
    RisingNext(order, issued, r.content.eventId, r.sequence);
  }

  /** A batch frees no more than is held. */
  lemma {:induction false} ReleasedWithin(order: seq<string>, records: Records, issued: map<string, nat>,
                                          applied: seq<Completion>, now: nat)
    requires RecordsOk(records, issued) && OrderOk(order, records, issued) && Matching(applied, records)
    ensures Released(records, applied) <= Total(Live(order, records))
    decreases |applied|
  {
    hide Settled;
    if applied != [] {
      var rest, last := applied[..|applied| - 1], applied[|applied| - 1];
      assert Applies(last, records);
      assert Matching(rest, records);
      if last.outcome == Acknowledged {
        var id := last.eventId;
        TotalWithout(order, records, issued, id);
        RestMatches(rest, records, id);
        ReleasedWithin(order, records - {id}, issued, rest, now);
        ReleasedElsewhere(rest, records, id);
      } else {
        ReleasedWithin(order, records, issued, rest, now);
      }
    }
  }

  lemma RestMatches(applied: seq<Completion>, records: Records, id: string)
    requires Matching(applied, records) && forall i :: 0 <= i < |applied| ==> applied[i].eventId != id
    ensures Matching(applied, records - {id})
  {
    forall i | 0 <= i < |applied| ensures Applies(applied[i], records - {id}) {
      assert Applies(applied[i], records);
    }
  }

  lemma {:induction false} ReleasedElsewhere(applied: seq<Completion>, records: Records, id: string)
    requires forall i :: 0 <= i < |applied| ==> applied[i].eventId != id
    ensures Released(records - {id}, applied) == Released(records, applied)
  {
    if applied != [] {
      ReleasedElsewhere(applied[..|applied| - 1], records, id);
    }
  }
}
