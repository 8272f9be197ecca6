/** Upkeep of the outbox index: what accepting, changing and deleting one record does
    to the lanes and to the heap of ready lanes. Follows outbox/outbox.go. */
module OutboxUpkeep {
  import opened OutboxRecords
  import opened OutboxIndex
  import LaneHeap

  const COMPACT_AFTER: nat := 1024

  // -------------------------------------------------------- one lane in the heap

  lemma RemovedFromHeap(heap: ReadyHeap, h: ReadyHeap, lanes: Lanes, records: Records, key: string)
    requires HeapOkBut(heap, lanes, records, key) && key in heap.index
    requires LaneHeap.Valid(h) && LaneHeap.Contents(h) == LaneHeap.Contents(heap) - {heap.items[heap.index[key]]}
    ensures HeapOkBut(h, lanes, records, key) && key !in h.index
  {
    assert heap.items[heap.index[key]].key == key;
    SameKeys(heap, h, key);
    forall i | 0 <= i < |h.items| && h.items[i].key != key
      ensures h.items[i].key in lanes && h.items[i].sequence == lanes[h.items[i].key].headSequence
    {
      assert h.items[i] in LaneHeap.Contents(h);
      assert h.items[i] in LaneHeap.Contents(heap);
    }
  }

  /** Taking out one entry takes out one key. */
  lemma SameKeys(heap: ReadyHeap, h: ReadyHeap, key: string)
    requires LaneHeap.Indexed(heap) && LaneHeap.Indexed(h) && key in heap.index
    requires LaneHeap.Contents(h) == LaneHeap.Contents(heap) - {heap.items[heap.index[key]]}
    ensures forall k :: k in h.index <==> k in heap.index && k != key
  {
    forall k | k in h.index ensures k in heap.index && k != key {
      assert h.items[h.index[k]] in LaneHeap.Contents(h);
      assert h.items[h.index[k]] in LaneHeap.Contents(heap);
    }
    forall k | k in heap.index && k != key ensures k in h.index {
      assert heap.items[heap.index[k]] in LaneHeap.Contents(heap);
      assert heap.items[heap.index[k]] in LaneHeap.Contents(h);
    }
  }

  lemma PushedOnHeap(heap: ReadyHeap, h: ReadyHeap, lanes: Lanes, records: Records, key: string)
    requires HeapOkBut(heap, lanes, records, key) && key !in heap.index && ReadyLane(key, lanes, records)
    requires LaneHeap.Valid(h)
             && LaneHeap.Contents(h) == LaneHeap.Contents(heap) + {LaneHeap.Entry(key, lanes[key].headSequence, ())}
    ensures HeapOk(h, lanes, records)
  {
    var e := LaneHeap.Entry(key, lanes[key].headSequence, ());
    forall k | k in h.index ensures k == key || k in heap.index {
      assert h.items[h.index[k]] in LaneHeap.Contents(h);
      assert h.items[h.index[k]] == e || h.items[h.index[k]] in LaneHeap.Contents(heap);
    }
    forall k | k == key || k in heap.index ensures k in h.index {
      var x := if k == key then e else heap.items[heap.index[k]];
      assert x in LaneHeap.Contents(h);
    }
    forall i | 0 <= i < |h.items|
      ensures h.items[i].key in lanes && h.items[i].sequence == lanes[h.items[i].key].headSequence
    {
      assert h.items[i] in LaneHeap.Contents(h);
      assert h.items[i] == e || h.items[i] in LaneHeap.Contents(heap);
    }
  }

  lemma LeftOut(heap: ReadyHeap, lanes: Lanes, records: Records, key: string)
    requires HeapOkBut(heap, lanes, records, key) && key !in heap.index && !ReadyLane(key, lanes, records)
    ensures HeapOk(heap, lanes, records)
  {
    forall i | 0 <= i < |heap.items| ensures heap.items[i].key != key {
      assert heap.items[i].key in heap.index;
    }
  }

  lemma OtherLane(heap: ReadyHeap, lanes: Lanes, records: Records, key: string, lane: Lane)
    requires HeapOkBut(heap, lanes, records, key)
    ensures HeapOkBut(heap, lanes[key := lane], records, key)
  {
    hide HeadOf;
    var l := lanes[key := lane];
    forall k | k != key ensures k in heap.index <==> ReadyLane(k, l, records) {
      assert ReadyLane(k, l, records) <==> ReadyLane(k, lanes, records);
    }
  }

  /** Takes the lane out of the heap and puts it back if its head is ready. */
  method RefreshLane(records: Records, lanes: Lanes, heap: ReadyHeap, key: string) returns (l: Lanes, h: ReadyHeap)
    requires key in lanes && lanes[key].head < |lanes[key].eventIDs| && lanes[key].eventIDs[lanes[key].head] in records
    requires HeapOkBut(heap, lanes, records, key)
    ensures l == lanes[key := lanes[key].(headSequence := HeadOf(lanes[key], records).sequence)]
    ensures HeapOk(h, l, records)
  {
    h := heap;
    if key in heap.index {
      h := LaneHeap.Remove(heap, heap.index[key]);
      RemovedFromHeap(heap, h, lanes, records, key);
    }
    hide HeapOkBut, HeapOk, LaneHeap.Valid, LaneHeap.Contents;
    var record := HeadOf(lanes[key], records);
    var lane := lanes[key].(headSequence := record.sequence);
    l := lanes[key := lane];
    OtherLane(h, lanes, records, key, lane);
    if record.state == Ready {
      HeapOkValid(h, l, records, key);
      var pushed := LaneHeap.Push(h, LaneHeap.Entry(key, lane.headSequence, ()));
      PushedOnHeap(h, pushed, l, records, key);
      h := pushed;
    } else {
      LeftOut(h, l, records, key);
    }
  }

  lemma HeapOkValid(heap: ReadyHeap, lanes: Lanes, records: Records, key: string)
    requires HeapOkBut(heap, lanes, records, key)
    ensures LaneHeap.Valid(heap)
  {
  }

  lemma LaneIn(lanes: Lanes, records: Records, issued: map<string, nat>, key: string)
    requires LanesOk(lanes, records, issued) && key in lanes
    ensures LaneOk(key, lanes[key], records, issued)
  {
    hide LaneOk, Holds;
  }

  // ------------------------------------------------------------ changing a record

  /** Changing a record leaves its key and its place in the order. */
  predicate SamePlace(a: Record, b: Record) {
    a.content == b.content && a.sequence == b.sequence
  }

  lemma LanesSame(lanes: Lanes, records: Records, issued: map<string, nat>, id: string, r: Record)
    requires LanesOk(lanes, records, issued) && id in records && SamePlace(records[id], r)
    ensures LanesOk(lanes, records[id := r], issued)
  {
    hide Rising, Holds;
    var after := records[id := r];
    forall key | key in lanes ensures LaneOk(key, lanes[key], after, issued) {
      assert LaneOk(key, lanes[key], records, issued);
    }
    forall x | x in after ensures Key(after[x]) in lanes && Holds(lanes[Key(after[x])], x) {
      assert Key(after[x]) == Key(records[x]);
    }
  }

  lemma HeapSame(heap: ReadyHeap, lanes: Lanes, records: Records, issued: map<string, nat>, id: string, r: Record)
    requires LanesOk(lanes, records, issued) && HeapOk(heap, lanes, records) && id in records
             && SamePlace(records[id], r)
    ensures HeapOkBut(heap, lanes, records[id := r], Key(r))
    ensures Key(r) in lanes && lanes[Key(r)].head < |lanes[Key(r)].eventIDs|
    ensures lanes[Key(r)].eventIDs[lanes[Key(r)].head] != id ==> HeapOk(heap, lanes, records[id := r])
  {
    hide Rising, Holds, LaneHeap.Valid;
    var after := records[id := r];
    assert LaneOk(Key(r), lanes[Key(r)], records, issued);
    forall k | k in lanes && lanes[k].eventIDs[lanes[k].head] != id ensures ReadyLane(k, lanes, after) <==>
          ReadyLane(k, lanes, records) {
      assert LaneOk(k, lanes[k], records, issued);
    }
    forall k | k in lanes && k != Key(r) ensures lanes[k].eventIDs[lanes[k].head] != id {
      assert LaneOk(k, lanes[k], records, issued);
      assert Key(records[lanes[k].eventIDs[lanes[k].head]]) == k;
    }
  }

  /** Only a change of a lane's head matters to the index. */
  method RefreshLaneForRecord(records: Records, lanes: Lanes, heap: ReadyHeap, r: Record, ghost before: Records,
                              ghost issued: map<string, nat>)
    returns (l: Lanes, h: ReadyHeap)
    requires LanesOk(lanes, before, issued) && HeapOk(heap, lanes, before)
    requires r.content.eventId in before && SamePlace(before[r.content.eventId], r)
             && records == before[r.content.eventId := r]
    ensures LanesOk(l, records, issued) && HeapOk(h, l, records)
  {
    l, h := lanes, heap;
    var key, id := Key(r), r.content.eventId;
    hide HeapOk, HeapOkBut, LanesOk, Rising;
    HeapSame(heap, lanes, before, issued, id, r);
    LanesSame(lanes, before, issued, id, r);
    LaneIn(lanes, records, issued, key);
    if lanes[key].eventIDs[lanes[key].head] == id {
      l, h := RefreshLane(records, lanes, heap, key);
      assert l[key] == lanes[key];
      assert l == lanes;
    }
  }

  // ----------------------------------------------------------- accepting a record

  function LaneWith(lanes: Lanes, key: string, id: string): Lane {
    if key in lanes then lanes[key].(eventIDs := lanes[key].eventIDs + [id]) else Lane([id], 0, 0)
  }

  predicate Newest(sequence: nat, issued: map<string, nat>) {
    forall id :: id in issued ==> issued[id] < sequence
  }

  lemma {:induction false} RisingNext(ids: seq<string>, issued: map<string, nat>, id: string, sequence: nat)
    requires Rising(ids, issued) && id !in issued && Newest(sequence, issued)
    ensures Rising(ids, issued[id := sequence]) && Rising(ids + [id], issued[id := sequence])
  {
  }

  lemma LaneExtended(key: string, lanes: Lanes, records: Records, issued: map<string, nat>, r: Record)
    requires LanesOk(lanes, records, issued) && r.content.eventId !in issued && r.content.eventId !in records
             && Newest(r.sequence, issued)
    ensures var id := r.content.eventId;
            LaneShape(Key(r), LaneWith(lanes, Key(r), id), records[id := r], issued[id := r.sequence])
  {
    hide Holds;
    var id := r.content.eventId;
    RisingNext([], issued, id, r.sequence);
    assert [] + [id] == [id];
    if Key(r) in lanes {
      assert LaneOk(Key(r), lanes[Key(r)], records, issued);
      RisingNext(lanes[Key(r)].eventIDs, issued, id, r.sequence);
    }
  }

  lemma OtherLaneOk(key: string, lane: Lane, records: Records, issued: map<string, nat>, r: Record)
    requires LaneOk(key, lane, records, issued) && r.content.eventId !in issued && Newest(r.sequence, issued)
    ensures LaneOk(key, lane, records[r.content.eventId := r], issued[r.content.eventId := r.sequence])
  {
    RisingNext(lane.eventIDs, issued, r.content.eventId, r.sequence);
  }

  lemma LanesExtended(lanes: Lanes, records: Records, issued: map<string, nat>, r: Record, lane: Lane)
    requires LanesOk(lanes, records, issued) && r.content.eventId !in issued && r.content.eventId !in records
             && Newest(r.sequence, issued)
    requires var base := LaneWith(lanes, Key(r), r.content.eventId);
             lane.eventIDs == base.eventIDs && lane.head == base.head && lane.head < |lane.eventIDs|
    requires LaneOk(Key(r), lane, records[r.content.eventId := r], issued[r.content.eventId := r.sequence])
    ensures LanesOk(lanes[Key(r) := lane], records[r.content.eventId := r], issued[r.content.eventId := r.sequence])
  {
    hide LaneOk, Holds, LaneWith, Newest;
    var id := r.content.eventId;
    var l, after, known := lanes[Key(r) := lane], records[id := r], issued[id := r.sequence];
    forall key | key in l ensures LaneOk(key, l[key], after, known) {
      if key != Key(r) {
        OtherLaneOk(key, lanes[key], records, issued, r);
      }
    }
    forall x | x in after ensures Key(after[x]) in l && Holds(l[Key(after[x])], x) {
      HeldAfter(lanes, records, r, lane, x);
    }
  }

  lemma HeldAfter(lanes: Lanes, records: Records, r: Record, lane: Lane, x: string)
    requires r.content.eventId !in records && x in records[r.content.eventId := r]
    requires x in records ==> Key(records[x]) in lanes && Holds(lanes[Key(records[x])], x)
    requires var base := LaneWith(lanes, Key(r), r.content.eventId);
             lane.eventIDs == base.eventIDs && lane.head == base.head && lane.head < |lane.eventIDs|
    ensures var after := records[r.content.eventId := r];
            Key(after[x]) in lanes[Key(r) := lane] && Holds(lanes[Key(r) := lane][Key(after[x])], x)
  {
    if x == r.content.eventId {
      assert lane.eventIDs[|lane.eventIDs| - 1] == x;
    } else if Key(records[x]) == Key(r) {
      var shorter := lanes[Key(r)];
      var i :| shorter.head <= i < |shorter.eventIDs| && shorter.eventIDs[i] == x;
      assert lane.eventIDs[i] == x;
    }
  }

  lemma ReadySame(k: string, lanes: Lanes, records: Records, issued: map<string, nat>, r: Record)
    requires k in lanes && LaneOk(k, lanes[k], records, issued) && r.content.eventId !in records
    ensures ReadyLane(k, lanes, records) <==>
              ReadyLane(k, lanes[Key(r) := LaneWith(lanes, Key(r), r.content.eventId)],
                        records[r.content.eventId := r])
  {
    hide Rising;
  }

  lemma HeapBeforeAccept(heap: ReadyHeap, lanes: Lanes, records: Records, issued: map<string, nat>, r: Record)
    requires LanesOk(lanes, records, issued) && HeapOk(heap, lanes, records) && r.content.eventId !in records
    ensures HeapOkBut(heap, lanes[Key(r) := LaneWith(lanes, Key(r), r.content.eventId)],
                      records[r.content.eventId := r], Key(r))
    ensures Key(r) in lanes ==>
              HeapOk(heap, lanes[Key(r) := LaneWith(lanes, Key(r), r.content.eventId)], records[r.content.eventId := r])
  {
    hide LaneOk, Holds, LaneHeap.Valid, HeadOf;
    var l, after := lanes[Key(r) := LaneWith(lanes, Key(r), r.content.eventId)], records[r.content.eventId := r];
    forall k | k in lanes ensures ReadyLane(k, l, after) <==> ReadyLane(k, lanes, records) {
      ReadySame(k, lanes, records, issued, r);
    }
    hide ReadyLane;
    assert forall k :: k in l && k != Key(r) ==> k in lanes;
    NotLanesNotReady(l, after);
    NotLanesNotReady(lanes, records);
  }

  lemma NotLanesNotReady(lanes: Lanes, records: Records)
    ensures forall k :: ReadyLane(k, lanes, records) ==> k in lanes
  {
  }

  /** A new record goes to the end of its lane, and its lane to the heap if it is
      the first there. */
  method IndexAccepted(records: Records, lanes: Lanes, heap: ReadyHeap, r: Record, ghost before: Records,
                       ghost issued: map<string, nat>)
    returns (l: Lanes, h: ReadyHeap)
    requires LanesOk(lanes, before, issued) && HeapOk(heap, lanes, before)
    requires r.content.eventId !in before && r.content.eventId !in issued && Newest(r.sequence, issued)
             && records == before[r.content.eventId := r]
    ensures LanesOk(l, records, issued[r.content.eventId := r.sequence]) && HeapOk(h, l, records)
  {
    var key, id := Key(r), r.content.eventId;
    hide LanesOk, HeapOk, HeapOkBut, Rising, Newest;
    HeapBeforeAccept(heap, lanes, before, issued, r);
    LaneExtended(key, lanes, before, issued, r);
    var lane := LaneWith(lanes, key, id);
    l, h := lanes[key := lane], heap;
    if |lane.eventIDs| == 1 {
      l, h := RefreshLane(records, l, heap, key);
      assert l == lanes[key := l[key]];
    } else {
      NotFirst(lanes, before, issued, key, id);
      KeptHead(lanes, before, issued, r);
    }
    LanesExtended(lanes, before, issued, r, l[key]);
  }

  lemma NotFirst(lanes: Lanes, records: Records, issued: map<string, nat>, key: string, id: string)
    requires LanesOk(lanes, records, issued)
    ensures key in lanes <==> |LaneWith(lanes, key, id).eventIDs| != 1
  {
    hide Rising, Holds;
    if key in lanes {
      assert LaneOk(key, lanes[key], records, issued);
    }
  }

  lemma KeptHead(lanes: Lanes, records: Records, issued: map<string, nat>, r: Record)
    requires LanesOk(lanes, records, issued) && Key(r) in lanes && r.content.eventId !in records
    ensures var lane := LaneWith(lanes, Key(r), r.content.eventId);
            lane.head < |lane.eventIDs| && lane.eventIDs[lane.head] in records
            && lane.headSequence == records[lane.eventIDs[lane.head]].sequence
  {
    hide Rising, Holds;
    assert LaneOk(Key(r), lanes[Key(r)], records, issued);
  }

  // ------------------------------------------------------------ deleting a record

  lemma LaneWithout(key: string, lane: Lane, records: Records, issued: map<string, nat>, id: string)
    requires LaneOk(key, lane, records, issued) && lane.eventIDs[lane.head] != id
    ensures LaneOk(key, lane, records - {id}, issued)
    ensures forall k, lanes: Lanes :: k in lanes && lanes[k] == lane ==>
              (ReadyLane(k, lanes, records - {id}) <==> ReadyLane(k, lanes, records))
  {
    hide Rising;
  }

  /** The lanes other than the deleted record's, and that one too unless the record
      was its head. */
  lemma OthersWithout(lanes: Lanes, records: Records, issued: map<string, nat>, id: string, k: string)
    requires LanesOk(lanes, records, issued) && id in records && k in lanes
    requires k != Key(records[id]) || lanes[k].head >= |lanes[k].eventIDs| || lanes[k].eventIDs[lanes[k].head] != id
    ensures LaneOk(k, lanes[k], records - {id}, issued)
    ensures ReadyLane(k, lanes, records - {id}) <==> ReadyLane(k, lanes, records)
  {
    hide Holds, Rising;
    LaneIn(lanes, records, issued, k);
    LaneWithout(k, lanes[k], records, issued, id);
  }

  lemma NotHeadDeleted(lanes: Lanes, heap: ReadyHeap, records: Records, issued: map<string, nat>, id: string)
    requires LanesOk(lanes, records, issued) && HeapOk(heap, lanes, records) && id in records
    requires var lane := lanes[Key(records[id])]; lane.head < |lane.eventIDs| && lane.eventIDs[lane.head] != id
    ensures LanesOk(lanes, records - {id}, issued) && HeapOk(heap, lanes, records - {id})
  {
    hide LaneOk, Holds, LaneHeap.Valid, HeadOf;
    var after := records - {id};
    forall k | k in lanes ensures LaneOk(k, lanes[k], after, issued) && (ReadyLane(k, lanes, after) <==>
                                                                         ReadyLane(k, lanes, records)) {
      OthersWithout(lanes, records, issued, id, k);
    }
    NotLanesNotReady(lanes, after);
    NotLanesNotReady(lanes, records);
    hide ReadyLane;
  }

  lemma HeadDeletedHeap(lanes: Lanes, heap: ReadyHeap, records: Records, issued: map<string, nat>, id: string)
    requires LanesOk(lanes, records, issued) && HeapOk(heap, lanes, records) && id in records
    ensures HeapOkBut(heap, lanes, records - {id}, Key(records[id]))
  {
    hide LaneOk, Holds, LaneHeap.Valid, HeadOf;
    var after := records - {id};
    forall k | k in lanes && k != Key(records[id]) ensures ReadyLane(k, lanes, after) <==>
          ReadyLane(k, lanes, records) {
      OthersWithout(lanes, records, issued, id, k);
    }
    NotLanesNotReady(lanes, after);
    NotLanesNotReady(lanes, records);
    hide ReadyLane;
  }

  /** The head moved past dead entries. */
  ghost predicate Passed(lane: Lane, head: nat, records: Records) {
    lane.head < head <= |lane.eventIDs| && forall i :: lane.head <= i < head ==> lane.eventIDs[i] !in records
  }

  function Advanced(lane: Lane, head: nat): Lane
    requires head <= |lane.eventIDs|
  {
    if head >= COMPACT_AFTER && head * 2 >= |lane.eventIDs| then Lane(lane.eventIDs[head..], 0, lane.headSequence)
    else lane.(head := head)
  }

  lemma AdvancedShape(key: string, lane: Lane, records: Records, issued: map<string, nat>, id: string, head: nat)
    requires LaneOk(key, lane, records, issued) && Passed(lane, head, records - {id}) && head < |lane.eventIDs|
    requires lane.eventIDs[head] in records - {id}
    ensures LaneShape(key, Advanced(lane, head), records - {id}, issued)
  {
    var a := Advanced(lane, head);
    if a.head == 0 {
      assert forall i :: 0 <= i < |a.eventIDs| ==> a.eventIDs[i] == lane.eventIDs[head + i];
    }
  }

  lemma AdvancedHolds(lane: Lane, head: nat, records: Records, x: string)
    requires Passed(lane, head, records) && Holds(lane, x) && x in records
    ensures head < |lane.eventIDs| && Holds(Advanced(lane, head), x)
  {
    var i :| lane.head <= i < |lane.eventIDs| && lane.eventIDs[i] == x;
    assert i >= head;
    var a := Advanced(lane, head);
    assert a.eventIDs[if a.eventIDs == lane.eventIDs && a.head == head then i else i - head] == x;
  }

  lemma LanesAdvanced(lanes: Lanes, records: Records, issued: map<string, nat>, id: string, head: nat, lane: Lane)
    requires LanesOk(lanes, records, issued) && id in records && Passed(lanes[Key(records[id])], head, records - {id})
    requires var a := Advanced(lanes[Key(records[id])], head); lane.eventIDs == a.eventIDs && lane.head == a.head
    requires LaneOk(Key(records[id]), lane, records - {id}, issued)
    ensures LanesOk(lanes[Key(records[id]) := lane], records - {id}, issued)
  {
    hide LaneOk, Passed, Advanced;
    var key, after := Key(records[id]), records - {id};
    var l := lanes[key := lane];
    forall k | k in l ensures LaneOk(k, l[k], after, issued) {
      if k != key {
        OthersWithout(lanes, records, issued, id, k);
      }
    }
    forall x | x in after ensures Key(after[x]) in l && Holds(l[Key(after[x])], x) {
      if Key(after[x]) == key {
        AdvancedHolds(lanes[key], head, after, x);
      }
    }
  }

  lemma LaneEmptied(lanes: Lanes, heap: ReadyHeap, records: Records, issued: map<string, nat>, id: string)
    requires LanesOk(lanes, records, issued) && id in records
    requires var lane := lanes[Key(records[id])]; Passed(lane, |lane.eventIDs|, records - {id})
    requires HeapOkBut(heap, lanes, records - {id}, Key(records[id])) && Key(records[id]) !in heap.index
    ensures LanesOk(lanes - {Key(records[id])}, records - {id}, issued)
            && HeapOk(heap, lanes - {Key(records[id])}, records - {id})
  {
    hide LaneOk, LaneHeap.Ordered, Advanced;
    var key, after := Key(records[id]), records - {id};
    var l := lanes - {key};
    forall k | k in l ensures LaneOk(k, l[k], after, issued) {
      OthersWithout(lanes, records, issued, id, k);
    }
    forall x | x in after ensures Key(after[x]) in l && Holds(l[Key(after[x])], x) {
      assert Holds(lanes[Key(after[x])], x);
    }
    forall k ensures ReadyLane(k, l, after) <==> k != key && ReadyLane(k, lanes, after) {
    }
    hide ReadyLane;
    forall i | 0 <= i < |heap.items| ensures heap.items[i].key != key {
      assert heap.items[i].key in heap.index;
    }
  }

  /** A deleted lane head gives way to the next live record of its key; a lane
      without one disappears; a long dead prefix is dropped. */
  method RemoveIndexed(records: Records, lanes: Lanes, heap: ReadyHeap, r: Record, ghost before: Records,
                       ghost issued: map<string, nat>)
    returns (l: Lanes, h: ReadyHeap)
    requires LanesOk(lanes, before, issued) && HeapOk(heap, lanes, before)
    requires r.content.eventId in before && before[r.content.eventId] == r && records == before - {r.content.eventId}
    ensures LanesOk(l, records, issued) && HeapOk(h, l, records)
  {
    var key, id := Key(r), r.content.eventId;
    assert key in lanes;
    hide LanesOk, HeapOk, HeapOkBut, Rising, Passed, LaneHeap.Indexed, LaneHeap.Ordered;
    LaneIn(lanes, before, issued, key);
    l, h := lanes, heap;
    var lane := lanes[key];
    if lane.eventIDs[lane.head] != id {
      NotHeadDeleted(lanes, heap, before, issued, id);
      return;
    }
    HeadDeletedHeap(lanes, heap, before, issued, id);
    h := TakeOut(lanes, heap, records, key);
    var head := NextLive(lane, records, id);
    if head == |lane.eventIDs| {
      LaneEmptied(lanes, h, before, issued, id);
      l := lanes - {key};
      return;
    }
    l, h := AdvanceLane(records, lanes, h, key, head, id, before, issued);
  }

  method AdvanceLane(records: Records, lanes: Lanes, heap: ReadyHeap, key: string, head: nat, id: string,
                     ghost before: Records, ghost issued: map<string, nat>)
    returns (l: Lanes, h: ReadyHeap)
    requires LanesOk(lanes, before, issued) && id in before && key == Key(before[id]) && key in lanes
             && records == before - {id}
    requires HeapOkBut(heap, lanes, records, key)
    requires LaneOk(key, lanes[key], before, issued) && Passed(lanes[key], head, records)
    requires head < |lanes[key].eventIDs| && lanes[key].eventIDs[head] in records
    ensures LanesOk(l, records, issued) && HeapOk(h, l, records)
  {
    hide LanesOk, HeapOk, HeapOkBut, Rising, Passed, Advanced;
    AdvancedShape(key, lanes[key], before, issued, id, head);
    var a := Advanced(lanes[key], head);
    OtherLane(heap, lanes, records, key, a);
    l, h := RefreshLane(records, lanes[key := a], heap, key);
    assert l == lanes[key := l[key]];
    LanesAdvanced(lanes, before, issued, id, head, l[key]);
  }

  method TakeOut(lanes: Lanes, heap: ReadyHeap, records: Records, key: string) returns (h: ReadyHeap)
    requires HeapOkBut(heap, lanes, records, key)
    ensures HeapOkBut(h, lanes, records, key) && key !in h.index
  {
    h := heap;
    if key in heap.index {
      h := LaneHeap.Remove(heap, heap.index[key]);
      RemovedFromHeap(heap, h, lanes, records, key);
    }
  }

  method NextLive(lane: Lane, records: Records, id: string) returns (head: nat)
    requires lane.head < |lane.eventIDs| && lane.eventIDs[lane.head] == id && id !in records
    ensures Passed(lane, head, records)
    ensures head < |lane.eventIDs| ==> lane.eventIDs[head] in records
  {
    head := lane.head + 1;
    while head < |lane.eventIDs| && lane.eventIDs[head] !in records
      invariant Passed(lane, head, records)
    {
      head := head + 1;
    }
  }
}
