/** The durable outbox object: every mutation commits to storage first and then changes
    memory and index, one record at a time. Follows outbox/outbox.go. */
module Outbox {
  import opened OutboxRecords
  import opened OutboxIndex
  import opened OutboxUpkeep
  import opened OutboxChanges
  import opened OutboxEffects
  import opened OutboxStorage
  import OutboxSelection
  import opened OutboxRecovery
  import LaneHeap

  /** A record to be accepted: complete, and routed exactly when it is ready. */
  method CheckNew(r: Record) returns (ok: bool)
    ensures ok <==> ValidNew(r)
  {
    var c := r.content;
    if c.eventId == "" || c.topic == "" || c.orderingKey == "" || c.group == "" || c.hash == ""
       || c.hashContract == "" || c.libraryVersion == "" {
      return false;
    }
    match r.state
    case Ready => ok := r.route.epoch != 0 && r.route.broker != "" && r.route.destination != "";
    case Unset => ok := r.route.epoch == 0 && r.route.broker == "" && r.route.destination == "";
    case Unassigned => ok := r.route.epoch == 0 && r.route.broker == "" && r.route.destination == "";
    case _ => ok := false;
  }

  class Store {
    const limits: Limits
    const size: Content -> nat

    var records: Records
    var order: seq<string>
    var lanes: Lanes
    var readyLanes: ReadyHeap
    var nextSeq: nat
    var bytes: nat
    var deleted: nat
    var disk: Disk
    ghost var issued: map<string, nat>   // every event ever accepted, with its sequence

    /** The in-memory index is right for the in-memory records. */
    ghost predicate Indexed()
      reads this
    {
      && RecordsOk(records, issued) && OrderOk(order, records, issued)
      && LanesOk(lanes, records, issued) && HeapOk(readyLanes, lanes, records)
    }

    /** Memory is what is stored, within the limits. */
    ghost predicate Durable()
      reads this
    {
      && AllStored(records, size)
      && Mirrors(disk, records) && disk.nextSequence == nextSeq && disk.totalBytes == bytes
      && 0 < nextSeq <= MAX_UINT64 && Newest(nextSeq, issued)
      && |records| <= limits.maxMessages
      && bytes == Total(Live(order, records)) <= limits.maxBytes
    }

    ghost predicate Valid()
      reads this
    {
      Indexed() && Durable()
    }

    /** All live records in order of acceptance. */
    ghost function LiveRecords(): seq<Record>
      reads this
    {
      Live(order, records)
    }

    constructor (l: Limits, s: Content -> nat)
      ensures Valid() && records == map[] && issued == map[] && limits == l && size == s
    {
      limits := l;
      size := s;
      records := map[];
      order := [];
      lanes := map[];
      readyLanes := LaneHeap.Empty();
      nextSeq := 1;
      bytes := 0;
      deleted := 0;
      disk := Disk(map[], map[], 1, 0);
      issued := map[];
    }

    // ------------------------------------------------- one record in memory

    method ChangeOne(r: Record)
      requires Indexed() && r.content.eventId in records && SamePlace(records[r.content.eventId], r)
      modifies this`records, this`lanes, this`readyLanes
      ensures Indexed() && records == old(records)[r.content.eventId := r]
    {
      hide RecordsOk, OrderOk, LanesOk, HeapOk;
      ghost var before := records;
      records := records[r.content.eventId := r];
      lanes, readyLanes := RefreshLaneForRecord(records, lanes, readyLanes, r, before, issued);
      ChangedOk(before, order, issued, r);
    }

    method AddOne(r: Record)
      requires Indexed() && r.content.eventId !in records && r.content.eventId !in issued && Newest(r.sequence, issued)
      modifies this`records, this`order, this`lanes, this`readyLanes, this`issued
      ensures Indexed() && records == old(records)[r.content.eventId := r] && order == old(order) + [r.content.eventId]
      ensures issued == old(issued)[r.content.eventId := r.sequence]
      ensures LiveRecords() == old(LiveRecords()) + [r]
    {
      hide RecordsOk, OrderOk, LanesOk, HeapOk, Newest, Live;
      ghost var before := records;
      LiveAppend(order, records, issued, r);
      AddedOk(records, order, issued, r);
      records := records[r.content.eventId := r];
      order := order + [r.content.eventId];
      lanes, readyLanes := IndexAccepted(records, lanes, readyLanes, r, before, issued);
      issued := issued[r.content.eventId := r.sequence];
    }

    method DeleteOne(id: string)
      requires Indexed() && id in records
      modifies this`records, this`lanes, this`readyLanes
      ensures Indexed() && records == old(records) - {id} && |records| == |old(records)| - 1
      ensures Total(Live(order, old(records))) == Total(Live(order, records)) + old(records)[id].size
    {
      hide LanesOk, HeapOk, Total;
      ghost var before := records;
      var r := records[id];
      TotalWithout(order, records, issued, id);
      records := records - {id};
      lanes, readyLanes := RemoveIndexed(records, lanes, readyLanes, r, before, issued);
    }

    // -------------------------------------------------------------- accepting

    /** Checks a batch and stamps it, without touching the store. */
    method Prepare(input: seq<Record>, now: nat) returns (r: Result<seq<Record>>, why: Refusal, added: nat)
      requires bytes <= limits.maxBytes
      ensures r.Ok? <==> FreshBatch(input, records)
                         && bytes + Total(Stamped(input, nextSeq, now, size)) <= limits.maxBytes
      ensures r.Ok? ==> r.value == Stamped(input, nextSeq, now, size) && added == Total(r.value)
    {
      hide ValidNew, Stamp, FreshBatch, Total, Stamped, EventIds;
      var accepted: seq<Record> := [];
      var seen: set<string> := {};
      NothingPrepared(records, nextSeq, now, size);
      added := 0;
      why := Full;
      for i := 0 to |input|
        invariant seen == EventIds(input[..i]) && FreshBatch(input[..i], records)
        invariant accepted == Stamped(input[..i], nextSeq, now, size) && added == Total(accepted)
        invariant bytes + added <= limits.maxBytes
      {
        FreshNext(input, i, records);
        var valid := CheckNew(input[i]);
        if !valid {
          FreshPrefix(input, i + 1, records);
          return Refused, InvalidRecord, 0;
        }
        if input[i].content.eventId in records || input[i].content.eventId in seen {
          FreshPrefix(input, i + 1, records);
          return Refused, Duplicate, 0;
        }
        seen := seen + {input[i].content.eventId};
        var record := Stamp(input[i], nextSeq + i, now, size);
        StampedNext(input, i, nextSeq, now, size);
        TotalAppend(accepted, record);
        if record.size > limits.maxBytes - bytes - added {
          TotalPrefix(input, i + 1, nextSeq, now, size);
          return Refused, Full, 0;
        }
        added := added + record.size;
        accepted := accepted + [record];
      }
      assert input[..|input|] == input;
      return Ok(accepted), Full, added;
    }

    /** Files an accepted batch in memory. */
    method AddAll(accepted: seq<Record>, first: nat)
      requires Indexed() && Appends(accepted, first, records) && Newest(first, issued)
      requires forall i :: 0 <= i < |accepted| ==> accepted[i].content.eventId !in issued
      modifies this`records, this`order, this`lanes, this`readyLanes, this`issued
      ensures Indexed() && records == Overlay(old(records), accepted) && |records| == |old(records)| + |accepted|
      ensures Newest(first + |accepted|, issued)
      ensures Total(LiveRecords()) == old(Total(LiveRecords())) + Total(accepted)
      ensures issued == Issue(old(issued), accepted)
    {
      hide RecordsOk, OrderOk, LanesOk, HeapOk, Overlay, Issue, Total, Live, Newest, Appends, EventIds;
      NothingPrepared(records, first, 0, size);
      NothingIssued(issued);
      assert accepted[..0] == [];
      for i := 0 to |accepted|
        invariant Indexed() && records == Overlay(old(records), accepted[..i]) && |records| == |old(records)| + i
        invariant Newest(first + i, issued)
        invariant Total(LiveRecords()) == old(Total(LiveRecords())) + Total(accepted[..i])
        invariant issued == Issue(old(issued), accepted[..i])
      {
        EventIdsLack(accepted, i, first, old(records));
        IssueLacks(accepted, i, first, old(records), old(issued));
        IssueNext(old(issued), accepted, i);
        OverlayNext(old(records), accepted, i);
        NewestNext(issued, first + i, accepted[i].content.eventId);
        TotalAppend(LiveRecords(), accepted[i]);
        TotalAppend(accepted[..i], accepted[i]);
        assert accepted[..i] + [accepted[i]] == accepted[..i + 1];
        AddOne(accepted[i]);
      }
      assert accepted[..|accepted|] == accepted;
    }

    /** Appends a batch, all of it or nothing. Event identities are never reused
        after deletion. */
    method AcceptMany(input: seq<Record>, now: nat, committed: bool) returns (r: AcceptReply)
      requires Valid()
      requires forall i :: 0 <= i < |input| ==> size(input[i].content) > 0
      requires forall i :: 0 <= i < |input| && input[i].content.eventId in issued ==>
                 input[i].content.eventId in records
      modifies this
      ensures Valid()
      ensures r.Accepted? <==>
                || input == []
                || (&& |input| <= limits.maxMessages - |old(records)| && |input| <= MAX_UINT64 - old(nextSeq)
                    && FreshBatch(input, old(records))
                    && old(bytes) + Total(Stamped(input, old(nextSeq), now, size)) <= limits.maxBytes && committed)
      ensures r.Accepted? ==>
                && r.records == Stamped(input, old(nextSeq), now, size)
                && records == Overlay(old(records), r.records)
                && nextSeq == old(nextSeq) + |input| && bytes == old(bytes) + Total(r.records)
                && issued == Issue(old(issued), r.records)
                && Appends(r.records, old(nextSeq), old(records)) && Newest(old(nextSeq), old(issued))
                && (forall i :: 0 <= i < |r.records| ==> r.records[i].content.eventId !in old(issued))
      ensures r.Accepted? ==> WereAccepted(input, old(records), records, old(nextSeq), now, size)
      ensures !r.Accepted? ==> records == old(records) && nextSeq == old(nextSeq) && disk == old(disk)
                               && issued == old(issued)
    {
      hide RecordsOk, OrderOk, LanesOk, HeapOk, Overlay, Issue, Total, Live, Newest, Mirrors, AllStored, FreshBatch,
           Stamped, EventIds, WereAccepted;
      NothingPrepared(records, nextSeq, now, size);
      if FreshBatch(input, records) {
        AcceptingMeans(input, records, nextSeq, now, size);
      }
      NothingIssued(issued);
      if |input| == 0 {
        NothingAccepted(records, nextSeq, now, size);
        return Accepted([]);
      }
      if |input| > limits.maxMessages - |records| {
        return NotAccepted(Full);
      }
      if |input| > MAX_UINT64 - nextSeq {
        return NotAccepted(Exhausted);
      }
      var prepared, why, added := Prepare(input, now);
      if prepared.Refused? {
        return NotAccepted(why);
      }
      var accepted := prepared.value;
      StampedAppends(input, nextSeq, now, size, records, issued);
      UnusedSequences(disk, records, issued, nextSeq);
      var d := InsertAll(disk, accepted, nextSeq, records, issued);
      if !committed {
        return NotAccepted(NotPersisted);
      }
      Keep(accepted, added, d);
      return Accepted(accepted);
    }

    /** After the commit: memory follows what was stored. */
    method Keep(accepted: seq<Record>, added: nat, d: Disk)
      requires Valid() && Mirrors(d, Overlay(records, accepted))
      requires Appends(accepted, nextSeq, records) && |accepted| <= MAX_UINT64 - nextSeq
               && |accepted| <= limits.maxMessages - |records|
      requires forall i :: 0 <= i < |accepted| ==> accepted[i].content.eventId !in issued
                                                   && ValidStored(accepted[i], size)
      requires added == Total(accepted) && bytes + added <= limits.maxBytes
      modifies this
      ensures Valid() && records == Overlay(old(records), accepted)
      ensures nextSeq == old(nextSeq) + |accepted| && bytes == old(bytes) + added
      ensures issued == Issue(old(issued), accepted)
    {
      hide RecordsOk, OrderOk, LanesOk, HeapOk, Overlay, Issue, Total, Live, Newest, Mirrors, AllStored, EventIds,
           Appends, ValidStored;
      StoredAfter(records, accepted, size);
      disk := d.(nextSequence := nextSeq + |accepted|, totalBytes := bytes + added);
      MirrorsBuckets(d, disk, Overlay(records, accepted));
      AddAll(accepted, nextSeq);
      nextSeq := nextSeq + |accepted|;
      bytes := bytes + added;
    }

    // ---------------------------------------------------------- changing state

    /** Changes records in memory after the commit that stored them. */
    method ChangeAll(updated: seq<Record>)
      requires Indexed() && InPlace(updated, records)
      modifies this`records, this`lanes, this`readyLanes
      ensures Indexed() && records == Overlay(old(records), updated)
    {
      hide RecordsOk, OrderOk, LanesOk, HeapOk, Overlay, InPlace;
      OverlayNone(records);
      assert updated[..0] == [];
      for i := 0 to |updated|
        invariant Indexed() && records == Overlay(old(records), updated[..i])
      {
        StillInPlace(updated, old(records), i);
        OverlayNext(old(records), updated, i);
        ChangeOne(updated[i]);
      }
      assert updated[..|updated|] == updated;
    }

    /** Stores and then applies a batch of changes that keep content and place. */
    method Replace(updated: seq<Record>, committed: bool) returns (r: Reply)
      requires Valid() && InPlace(updated, records)
      modifies this
      ensures Valid() && nextSeq == old(nextSeq) && issued == old(issued) && bytes == old(bytes) && order == old(order)
      ensures r == if committed then Done else Failed(NotPersisted)
      ensures committed ==> records == Overlay(old(records), updated)
      ensures !committed ==> records == old(records) && disk == old(disk)
    {
      hide RecordsOk, OrderOk, LanesOk, HeapOk, Overlay, InPlace, Total, Live, Mirrors, AllStored, Newest;
      FiledRecords(records, issued);
      var d := PutAll(disk, updated, records);
      if !committed {
        return Failed(NotPersisted);
      }
      ReplacedOk(updated, records, order, size);
      disk := d;
      ChangeAll(updated);
      return Done;
    }

    method Collect(ids: seq<string>, mutate: Mutation, now: nat) returns (r: Result<seq<Record>>)
      ensures r.Ok? <==> forall i :: 0 <= i < |ids| ==> ids[i] in records && mutate(ids[i], records[ids[i]]).Ok?
      ensures r.Ok? ==> |r.value| == |ids| && forall i :: 0 <= i < |ids| ==>
                r.value[i] == mutate(ids[i], records[ids[i]]).value.(updatedAt := now)
    {
      var updated: seq<Record> := [];
      for i := 0 to |ids|
        invariant |updated| == i
        invariant forall k :: 0 <= k < i ==> ids[k] in records && mutate(ids[k], records[ids[k]]).Ok?
        invariant forall k :: 0 <= k < i ==> updated[k] == mutate(ids[k], records[ids[k]]).value.(updatedAt := now)
      {
        if ids[i] !in records {
          return Refused;
        }
        var changed := mutate(ids[i], records[ids[i]]);
        if changed.Refused? {
          return Refused;
        }
        updated := updated + [changed.value.(updatedAt := now)];
      }
      return Ok(updated);
    }

    /** Applies one change to every listed record, or to none. */
    method UpdateMany(ids: seq<string>, mutate: Mutation, now: nat, committed: bool) returns (r: Reply)
      requires Valid() && Proper(mutate, size)
      modifies this
      ensures Valid() && nextSeq == old(nextSeq) && issued == old(issued) && bytes == old(bytes) && order == old(order)
      ensures r.Done? <==> ids == [] || (Mutable(ids, old(records), mutate) && committed)
      ensures r.Done? ==> records == Mutated(old(records), Elements(ids), mutate, now)
      ensures !r.Done? ==> records == old(records) && disk == old(disk)
    {
      hide Indexed, Durable, Mutated, Elements, Overlay, InPlace, Proper;
      if |ids| == 0 {
        MutatedNone(records, ids, mutate, now);
        return Done;
      }
      var unique := CheckUnique(ids);
      if !unique {
        return Failed(InvalidRecord);
      }
      var updated := Collect(ids, mutate, now);
      if updated.Refused? {
        return Failed(InvalidState);
      }
      StoredRecords();
      MutatedInPlace(records, ids, mutate, now, updated.value, size);
      r := Replace(updated.value, committed);
    }

    lemma StoredRecords()
      requires Valid()
      ensures AllStored(records, size) && Filed(records)
    {
      hide LanesOk, HeapOk, Mirrors;
    }

    method AssignMany(ids: seq<string>, assignments: map<string, Route>, now: nat, committed: bool) returns (r: Reply)
      requires Valid()
      modifies this
      ensures Valid() && issued == old(issued)
      ensures r.Done? <==> ids == [] || (Mutable(ids, old(records), Assigning(assignments)) && committed)
      ensures records == if r.Done? then Mutated(old(records), Elements(ids), Assigning(assignments), now)
                else old(records)
      ensures r.Done? <==> ids == [] || (AllTakeRoutes(ids, assignments, old(records)) && committed)
      ensures r.Done? ==> WereRouted(Elements(ids), assignments, old(records), records, now)
    {
      hide Indexed, Durable, Elements, Proper, Mutated, Mutable, Assigning, AllTakeRoutes, WereRouted;
      AssigningMeans(ids, assignments, records, now);
      AllProper(size, assignments, map[]);
      r := UpdateMany(ids, Assigning(assignments), now, committed);
    }

    method MarkInFlightMany(ids: seq<string>, now: nat, committed: bool) returns (r: Reply)
      requires Valid()
      modifies this
      ensures Valid() && issued == old(issued)
      ensures r.Done? <==> ids == [] || (Mutable(ids, old(records), Marking()) && committed)
      ensures records == if r.Done? then Mutated(old(records), Elements(ids), Marking(), now) else old(records)
      ensures r.Done? <==> ids == [] || (AllIn(ids, old(records), Ready) && committed)
      ensures r.Done? ==> WentInFlight(Elements(ids), old(records), records, now)
    {
      hide Indexed, Durable, Elements, Proper, Mutated, Mutable, Marking, AllIn, WentInFlight;
      MarkingMeans(ids, records, now);
      AllProper(size, map[], map[]);
      r := UpdateMany(ids, Marking(), now, committed);
    }

    method MarkRejectedMany(ids: seq<string>, reasons: map<string, string>, now: nat, committed: bool)
      returns (r: Reply)
      requires Valid()
      modifies this
      ensures Valid() && issued == old(issued)
      ensures r.Done? <==> ids == [] || (Mutable(ids, old(records), Rejecting(reasons)) && committed)
      ensures records == if r.Done? then Mutated(old(records), Elements(ids), Rejecting(reasons), now) else old(records)
      ensures r.Done? <==> ids == [] || (AllIn(ids, old(records), InFlight) && committed)
      ensures r.Done? ==> WereRejected(Elements(ids), reasons, old(records), records, now)
    {
      hide Indexed, Durable, Elements, Proper, Mutated, Mutable, Rejecting, AllIn, WereRejected;
      RejectingMeans(ids, reasons, records, now);
      AllProper(size, map[], reasons);
      r := UpdateMany(ids, Rejecting(reasons), now, committed);
    }

    method MarkUncertainMany(ids: seq<string>, reasons: map<string, string>, now: nat, committed: bool)
      returns (r: Reply)
      requires Valid()
      modifies this
      ensures Valid() && issued == old(issued)
      ensures r.Done? <==> ids == [] || (Mutable(ids, old(records), Doubting(reasons)) && committed)
      ensures records == if r.Done? then Mutated(old(records), Elements(ids), Doubting(reasons), now) else old(records)
      ensures r.Done? <==> ids == [] || (AllIn(ids, old(records), InFlight) && committed)
      ensures r.Done? ==> CameInDoubt(Elements(ids), reasons, old(records), records, now)
    {
      hide Indexed, Durable, Elements, Proper, Mutated, Mutable, Doubting, AllIn, CameInDoubt;
      DoubtingMeans(ids, reasons, records, now);
      AllProper(size, map[], reasons);
      r := UpdateMany(ids, Doubting(reasons), now, committed);
    }

    method RetryMany(ids: seq<string>, now: nat, committed: bool) returns (r: Reply)
      requires Valid()
      modifies this
      ensures Valid() && issued == old(issued)
      ensures r.Done? <==> ids == [] || (Mutable(ids, old(records), Retrying()) && committed)
      ensures records == if r.Done? then Mutated(old(records), Elements(ids), Retrying(), now) else old(records)
      ensures r.Done? <==> ids == [] || (AllIn(ids, old(records), Uncertain) && committed)
      ensures r.Done? ==> WereRetried(Elements(ids), old(records), records, now)
    {
      hide Indexed, Durable, Elements, Proper, Mutated, Mutable, Retrying, AllIn, WereRetried;
      RetryingMeans(ids, records, now);
      AllProper(size, map[], map[]);
      r := UpdateMany(ids, Retrying(), now, committed);
    }

    lemma NamedRecords()
      requires Valid()
      ensures forall id :: id in records ==> id != ""
    {
      hide LanesOk, HeapOk, Mirrors, OrderOk, Newest;
      forall id | id in records ensures id != "" {
        assert ValidStored(records[id], size);
      }
    }

    // -------------------------------------------------------------- completing

    /** The completions that name a current attempt, and the bytes they free. */
    method Match(completions: seq<Completion>) returns (r: Result<seq<Completion>>, removed: nat)
      ensures r.Ok? <==> UniqueBatch(completions)
      ensures r.Ok? ==> r.value == Applied(completions, records) && removed == Released(records, r.value)
    {
      hide Applies, Applied, Released;
      var applied: seq<Completion> := [];
      var seen: set<string> := {};
      removed := 0;
      NothingApplied(records);
      for i := 0 to |completions|
        invariant seen == set k | 0 <= k < i :: completions[k].eventId
        invariant UniqueBatch(completions[..i])
        invariant applied == Applied(completions[..i], records) && removed == Released(records, applied)
      {
        var c := completions[i];
        if c.eventId == "" {
          return Refused, 0;
        }
        if c.eventId in seen {
          var k :| 0 <= k < i && completions[k].eventId == c.eventId;
          return Refused, 0;
        }
        seen := seen + {c.eventId};
        AppliedNext(completions, i, records);
        if Applies(c, records) {
          ReleasedNext(records, applied, c);
          applied := applied + [c];
          if c.outcome == Acknowledged {
            removed := removed + records[c.eventId].size;
          }
        }
      }
      assert completions[..|completions|] == completions;
      return Ok(applied), removed;
    }

    method SettleMemory(applied: seq<Completion>, now: nat) returns (gone: nat)
      requires Indexed() && Matching(applied, records)
      modifies this`records, this`lanes, this`readyLanes
      ensures Indexed() && records == Settled(old(records), applied, applied, now)
      ensures Total(Live(order, old(records))) == Total(Live(order, records)) + Released(old(records), applied)
      ensures |records| + gone == |old(records)|
    {
      hide RecordsOk, OrderOk, LanesOk, HeapOk, Settled, Released, Matching, Total, Live;
      NothingSettled(records, applied, now);
      assert applied[..0] == [];
      for i := 0 to |applied|
        invariant Indexed() && records == Settled(old(records), applied[..i], [], now) && |records| == |old(records)|
        invariant Total(Live(order, old(records))) == Total(Live(order, records))
      {
        SettledChange(old(records), applied, i, now);
        if applied[i].outcome != Acknowledged {
          NotYetChanged(old(records), applied, i, now);
          FiledRecords(records, issued);
          SameTotal(order, records, applied[i].eventId, Complete(applied[i], records[applied[i].eventId], now));
          ChangeOne(Complete(applied[i], records[applied[i].eventId], now));
        }
      }
      assert applied[..|applied|] == applied;
      gone := 0;
      for i := 0 to |applied|
        invariant Indexed() && records == Settled(old(records), applied, applied[..i], now)
                  && |records| + gone == |old(records)|
        invariant Total(Live(order, old(records))) == Total(Live(order, records)) + Released(old(records), applied[..i])
      {
        SettledDelete(old(records), applied, i, now);
        ReleasedStep(old(records), applied, i);
        if applied[i].outcome == Acknowledged {
          NotYetDeleted(old(records), applied, i, now);
          DeleteOne(applied[i].eventId);
          gone := gone + 1;
        }
      }
    }

    /** Applies mixed broker outcomes to the attempts they name, all of them or none,
        and ignores the rest. */
    method CompleteBatch(completions: seq<Completion>, now: nat, committed: bool) returns (r: CompleteReply)
      requires Valid()
      modifies this
      ensures Valid() && nextSeq == old(nextSeq) && issued == old(issued)
      ensures r.Completed? <==> UniqueBatch(completions) && (Applied(completions, old(records)) == [] || committed)
      ensures r.Completed? ==> r.applied == Applied(completions, old(records))
      ensures records == if r.Completed? then Settled(old(records), r.applied, r.applied, now) else old(records)
      ensures r.Completed? ==> old(bytes) == bytes + Released(old(records), r.applied)
      ensures r.Completed? ==> TakesCurrent(r.applied, completions, old(records))
      ensures r.Completed? ==> WereSettled(r.applied, old(records), records, now)
      ensures !r.Completed? ==> disk == old(disk) && bytes == old(bytes)
    {
      hide Indexed, Durable, Applied, Settled, Released, UniqueBatch, TakesCurrent, WereSettled;
      if UniqueBatch(completions) {
        AppliedInOrder(completions, records);
        AppliedMatching(completions, records);
        SettlingMeans(Applied(completions, records), records, now);
      }
      var matched, removed := Match(completions);
      if matched.Refused? {
        return NotCompleted(InvalidRecord);
      }
      var applied := matched.value;
      NothingSettled(records, applied, now);
      if |applied| == 0 {
        return Completed([]);
      }
      AppliedMatching(completions, records);
      if !committed {
        return NotCompleted(NotPersisted);
      }
      Settle(applied, removed, now);
      return Completed(applied);
    }

    method Settle(applied: seq<Completion>, removed: nat, now: nat)
      requires Valid() && Matching(applied, records) && removed == Released(records, applied)
      modifies this
      ensures Valid() && nextSeq == old(nextSeq) && issued == old(issued)
      ensures records == Settled(old(records), applied, applied, now) && old(bytes) == bytes + removed
    {
      hide OrderOk, LanesOk, HeapOk, Settled, Released, Matching, Total, Live, Mirrors, AllStored, Newest;
      ReleasedWithin(order, records, issued, applied, now);
      FiledRecords(records, issued);
      var d := SettleDisk(disk, applied, records, now);
      SettledOk(records, applied, now, size);
      MirrorsBuckets(d, d.(totalBytes := bytes - removed), Settled(records, applied, applied, now));
      Follow(applied, removed, d.(totalBytes := bytes - removed), now);
      CompactOrderIfNeeded();
    }

    /** After the commit: memory follows what was stored. */
    method Follow(applied: seq<Completion>, removed: nat, d: Disk, now: nat)
      requires Valid() && Matching(applied, records) && removed == Released(records, applied) <= bytes
      requires Mirrors(d, Settled(records, applied, applied, now)) && d.nextSequence == nextSeq
               && d.totalBytes == bytes - removed
      requires AllStored(Settled(records, applied, applied, now), size)
      modifies this
      ensures Valid() && nextSeq == old(nextSeq) && issued == old(issued)
      ensures records == Settled(old(records), applied, applied, now) && old(bytes) == bytes + removed
    {
      hide RecordsOk, OrderOk, LanesOk, HeapOk, Settled, Released, Matching, Total, Live, Mirrors, AllStored, Newest;
      var gone := SettleMemory(applied, now);
      bytes := bytes - removed;
      disk := d;
      deleted := deleted + gone;
    }

    method CompactOrderIfNeeded()
      requires Valid()
      modifies this`order, this`deleted
      ensures Valid() && LiveRecords() == old(LiveRecords())
    {
      hide RecordsOk, LanesOk, HeapOk, Mirrors, AllStored, Rising, Newest, Total, Live, Compacted;
      if deleted < 1024 && |order| <= 2 * |records| + 16 {
        return;
      }
      CompactedSame(order, records, issued);
      order := CompactOrder();
      deleted := 0;
    }

    method CompactOrder() returns (live: seq<string>)
      ensures live == Compacted(order, records)
    {
      live := [];
      for i := 0 to |order|
        invariant live == Compacted(order[..i], records)
      {
        assert order[..i + 1][..i] == order[..i];
        if order[i] in records {
          live := live + [order[i]];
        }
      }
      assert order[..|order|] == order;
    }

    // ---------------------------------------------------------------- reading

    method EligibleFor(limit: int, f: Filter) returns (eligible: seq<Record>)
      requires Valid()
      ensures eligible == Scan(LiveRecords(), records, limit, f)
      ensures OutboxSelection.IsSelection(eligible, records, limit, f)
    {
      hide RecordsOk, OrderOk, LanesOk, HeapOk, Scan, Live, Enumerates, OutboxSelection.IsSelection;
      LiveEnumerates(order, records, issued);
      eligible := OutboxIndex.EligibleFor(records, lanes, readyLanes, limit, f, Live(order, records), issued);
    }

    lemma Listed()
      requires Valid()
      ensures Enumerates(LiveRecords(), records)
    {
      hide RecordsOk, OrderOk, LanesOk, HeapOk, Enumerates, Live;
      LiveEnumerates(order, records, issued);
    }

    /** The live records in order of acceptance, each once. */
    method ListRecords() returns (live: seq<Record>)
      requires Valid()
      ensures live == LiveRecords() && Enumerates(live, records)
    {
      hide RecordsOk, OrderOk, LanesOk, HeapOk, Enumerates;
      live := [];
      for i := 0 to |order|
        invariant live == Live(order[..i], records)
      {
        assert order[..i + 1][..i] == order[..i];
        if order[i] in records {
          live := live + [records[order[i]]];
        }
      }
      assert order[..|order|] == order;
      LiveEnumerates(order, records, issued);
    }

    // ---------------------------------------------------------------- reopening

    /** Builds order, lanes and heap from scratch. */
    method Rebuild(batch: seq<Record>)
      requires Ascending(batch) && DistinctEvents(batch)
      modifies this`records, this`order, this`lanes, this`readyLanes, this`issued
      ensures Indexed() && records == Overlay(map[], batch) && issued == Issue(map[], batch) && LiveRecords() == batch
    {
      hide *;
      Clear();
      assert batch[..0] == [];
      for i := 0 to |batch|
        invariant Indexed() && records == Overlay(map[], batch[..i]) && issued == Issue(map[], batch[..i])
                  && LiveRecords() == batch[..i]
      {
        NextIsNewest(batch, i);
        OverlayOf(batch, i);
        OverlayNext(map[], batch, i);
        IssueNext(map[], batch, i);
        assert batch[..i] + [batch[i]] == batch[..i + 1];
        AddOne(batch[i]);
      }
      assert batch[..|batch|] == batch;
    }

    method Clear()
      modifies this`records, this`order, this`lanes, this`readyLanes, this`issued
      ensures Indexed() && records == Overlay(map[], []) && issued == Issue(map[], []) && LiveRecords() == []
    {
      records := map[];
      order := [];
      lanes := map[];
      readyLanes := LaneHeap.Empty();
      issued := map[];
    }

    /** Closing and opening again always succeeds, unless writing back fails, and
        changes nothing but that records in flight become uncertain. */
    method Reopen(cursor: seq<nat>, now: nat, committed: bool) returns (ok: bool)
      requires Valid() && Cursor(cursor, disk)
      modifies this
      ensures Valid() && issued == old(issued) && nextSeq == old(nextSeq) && bytes == old(bytes)
      ensures ok <==> committed
      ensures records == if ok then Recovered(old(records), now) else old(records)
      ensures ok ==> WereRecovered(old(records), records, now)
      ensures LiveRecords() == if ok then RecoverAll(old(LiveRecords()), now) else old(LiveRecords())
    {
      hide RecordsOk, OrderOk, LanesOk, HeapOk, Overlay, Issue, Live, Mirrors, AllStored, Newest, Total, InPlace,
           Recovered, Loadable, ReadAll, RecoverAll, InDoubt, Enumerates, Cursor, WereRecovered;
      RecoveringMeans(records, now);
      MirrorLoads(disk, cursor, records, order, issued, limits, size);
      var loaded := LoadAll(disk, cursor, limits, now, size);
      ok := loaded.Ok? && committed;
      if ok {
        WriteBack(loaded.value, now);
      }
    }

    /** What reading back means for the records of this store. */
    lemma ReadBack(now: nat)
      requires Valid()
      ensures var live := LiveRecords();
              && InPlace(InDoubt(live, now), records) && Filed(records)
              && Overlay(records, InDoubt(live, now)) == Recovered(records, now)
              && Overlay(map[], RecoverAll(live, now)) == Recovered(records, now)
              && DistinctEvents(RecoverAll(live, now)) && Ascending(RecoverAll(live, now))
              && AllStored(Recovered(records, now), size) && |Recovered(records, now)| == |records|
              && Total(RecoverAll(live, now)) == Total(live)
    {
      hide RecordsOk, OrderOk, LanesOk, HeapOk, Overlay, Live, Mirrors, AllStored, Newest, Total, InPlace, Recovered,
           RecoverAll, InDoubt, Enumerates, DistinctEvents, Ascending;
      var live := LiveRecords();
      LiveEnumerates(order, records, issued);
      FiledRecords(records, issued);
      RoutedRecords(records, size);
      InDoubtOverlay(live, records, now);
      RecoveredOverlay(live, records, now);
      RecoveredDistinct(live, records, now);
      RecoveredOk(live, records, now, size);
    }

    lemma History(now: nat)
      requires Valid()
      ensures forall id :: id in Issue(map[], RecoverAll(LiveRecords(), now)) ==>
                id in issued && issued[id] == Issue(map[], RecoverAll(LiveRecords(), now))[id]
      ensures forall a, b :: a in issued && b in issued && issued[a] == issued[b] ==> a == b
    {
      hide OrderOk, LanesOk, HeapOk, Live, Mirrors, AllStored, Newest, Total, RecoverAll, Enumerates, Issue;
      LiveEnumerates(order, records, issued);
      HistoryAgrees(LiveRecords(), records, issued, now);
    }

    method WriteBack(loaded: Loaded, now: nat)
      requires Valid() && loaded.nextSequence == nextSeq && loaded.totalBytes == bytes
      requires loaded.records == RecoverAll(LiveRecords(), now) && loaded.recovered == InDoubt(LiveRecords(), now)
      modifies this
      ensures Valid() && issued == old(issued) && nextSeq == old(nextSeq) && bytes == old(bytes)
      ensures records == Recovered(old(records), now) && LiveRecords() == RecoverAll(old(LiveRecords()), now)
    {
      hide RecordsOk, OrderOk, LanesOk, HeapOk, Overlay, Issue, Live, Mirrors, AllStored, Newest, Total, InPlace,
           Recovered, RecoverAll, InDoubt, Enumerates, DistinctEvents, Ascending;
      ReadBack(now);
      History(now);
      var d := PutAll(disk, loaded.recovered, records);
      disk := d;
      ghost var history := issued;
      Rebuild(loaded.records);
      assert bytes == Total(Live(order, records));
      IssuedGrows(records, order, lanes, issued, history);
      issued := history;
      deleted := 0;
    }
  }
}
