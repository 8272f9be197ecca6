/** The index of the outbox: one lane per ordering key, and a heap of the lanes whose
    oldest record is ready. The walk over the heap selects exactly what the plain
    scan selects. Follows outbox/outbox.go.

    The instance issued maps every event identity ever accepted to its sequence. */
module OutboxIndex {
  import opened OutboxRecords
  import OutboxSelection
  import LaneHeap

  datatype Lane = Lane(eventIDs: seq<string>, head: nat, headSequence: nat)

  type Lanes = map<string, Lane>

  type ReadyHeap = LaneHeap.Heap<()>

  // ---------------------------------------------------------------- the invariant

  /** Listed in the order of acceptance, without repeats. */
  predicate Rising(ids: seq<string>, issued: map<string, nat>) {
    && (forall i :: 0 <= i < |ids| ==> ids[i] in issued)
    && (forall i, j :: 0 <= i < j < |ids| ==> issued[ids[i]] < issued[ids[j]])
  }

  predicate RecordsOk(records: Records, issued: map<string, nat>) {
    && Filed(records)
    && (forall id :: id in records ==> id in issued && records[id].sequence == issued[id])
    && (forall a, b :: a in issued && b in issued && issued[a] == issued[b] ==> a == b)
  }

  predicate OrderOk(order: seq<string>, records: Records, issued: map<string, nat>) {
    Rising(order, issued) && forall id :: id in records ==> id in order
  }

  predicate Holds(lane: Lane, id: string) {
    exists i :: lane.head <= i < |lane.eventIDs| && lane.eventIDs[i] == id
  }

  /** A lane lists records of its key in order of acceptance, and its head is
      live. */
  predicate LaneShape(key: string, lane: Lane, records: Records, issued: map<string, nat>) {
    && Rising(lane.eventIDs, issued)
    && lane.head < |lane.eventIDs|
    && lane.eventIDs[lane.head] in records
    && (forall i :: lane.head <= i < |lane.eventIDs| && lane.eventIDs[i] in records ==>
        Key(records[lane.eventIDs[i]]) == key)
  }

  predicate LaneOk(key: string, lane: Lane, records: Records, issued: map<string, nat>) {
    LaneShape(key, lane, records, issued) && lane.headSequence == records[lane.eventIDs[lane.head]].sequence
  }

  predicate LanesOk(lanes: Lanes, records: Records, issued: map<string, nat>) {
    && (forall key :: key in lanes ==> LaneOk(key, lanes[key], records, issued))
    && (forall id :: id in records ==> Key(records[id]) in lanes && Holds(lanes[Key(records[id])], id))
  }

  function HeadOf(lane: Lane, records: Records): Record
    requires lane.head < |lane.eventIDs| && lane.eventIDs[lane.head] in records
  {
    records[lane.eventIDs[lane.head]]
  }

  predicate ReadyLane(key: string, lanes: Lanes, records: Records)
  {
    && key in lanes && lanes[key].head < |lanes[key].eventIDs| && lanes[key].eventIDs[lanes[key].head] in records
    && HeadOf(lanes[key], records).state == Ready
  }

  /** The heap holds exactly the ready lanes, but for one lane left open. */
  ghost predicate HeapOkBut(heap: ReadyHeap, lanes: Lanes, records: Records, open: string) {
    && LaneHeap.Valid(heap)
    && (forall key :: key != open ==> (key in heap.index <==> ReadyLane(key, lanes, records)))
    && (forall i :: 0 <= i < |heap.items| && heap.items[i].key != open ==>
          heap.items[i].key in lanes && heap.items[i].sequence == lanes[heap.items[i].key].headSequence)
  }

  ghost predicate HeapOk(heap: ReadyHeap, lanes: Lanes, records: Records) {
    && LaneHeap.Valid(heap)
    && (forall key :: key in heap.index <==> ReadyLane(key, lanes, records))
    && (forall i :: 0 <= i < |heap.items| ==>
          heap.items[i].key in lanes && heap.items[i].sequence == lanes[heap.items[i].key].headSequence)
  }

  // -------------------------------------------------------------- what it means

  lemma {:induction false} LiveAre(order: seq<string>, records: Records, issued: map<string, nat>)
    requires RecordsOk(records, issued) && Rising(order, issued)
    ensures Ascending(Live(order, records))
    ensures forall r :: r in Live(order, records) <==>
              r.content.eventId in records && r.content.eventId in order && records[r.content.eventId] == r
  {
    if order != [] {
      var rest, last := order[..|order| - 1], order[|order| - 1];
      assert order == rest + [last];
      LiveAre(rest, records, issued);
      if last in records {
        forall r | r in Live(rest, records) ensures r.sequence < records[last].sequence {
          var i :| 0 <= i < |rest| && rest[i] == r.content.eventId;
          assert issued[order[i]] < issued[order[|order| - 1]];
        }
      }
    }
  }

  lemma LiveEnumerates(order: seq<string>, records: Records, issued: map<string, nat>)
    requires RecordsOk(records, issued) && OrderOk(order, records, issued)
    ensures Enumerates(Live(order, records), records)
  {
    LiveAre(order, records, issued);
    forall id | id in records ensures records[id] in Live(order, records) {
      assert records[id].content.eventId == id;
    }
  }

  lemma HeadIsFirst(key: string, lane: Lane, records: Records, issued: map<string, nat>, id: string)
    requires RecordsOk(records, issued) && LaneOk(key, lane, records, issued) && id in records && Holds(lane, id)
    ensures HeadOf(lane, records).sequence <= records[id].sequence
  {
    var i :| lane.head <= i < |lane.eventIDs| && lane.eventIDs[i] == id;
    assert i > lane.head ==> issued[lane.eventIDs[lane.head]] < issued[lane.eventIDs[i]];
  }

  /** The head of a lane is the oldest live record of its key. */
  lemma HeadIsOldest(key: string, lanes: Lanes, records: Records, issued: map<string, nat>)
    requires RecordsOk(records, issued) && LanesOk(lanes, records, issued) && key in lanes
    ensures LaneOk(key, lanes[key], records, issued)
    ensures var r := HeadOf(lanes[key], records);
            Key(r) == key && Oldest(r, records) && r.content.eventId in records && records[r.content.eventId] == r
  {
    hide Rising, Holds;
    var lane := lanes[key];
    var r := HeadOf(lane, records);
    assert Key(r) == key;
    forall id | id in records && Key(records[id]) == Key(r) ensures r.sequence <= records[id].sequence {
      HeadIsFirst(key, lane, records, issued, id);
    }
  }

  lemma OldestIsHead(r: Record, lanes: Lanes, records: Records, issued: map<string, nat>)
    requires RecordsOk(records, issued) && LanesOk(lanes, records, issued)
    requires r.content.eventId in records && records[r.content.eventId] == r && Oldest(r, records)
    ensures Key(r) in lanes && LaneOk(Key(r), lanes[Key(r)], records, issued) && HeadOf(lanes[Key(r)], records) == r
  {
    hide Rising, Holds;
    HeadIsOldest(Key(r), lanes, records, issued);
    SameSequence(HeadOf(lanes[Key(r)], records), r, records, issued);
  }

  lemma SameSequence(a: Record, b: Record, records: Records, issued: map<string, nat>)
    requires RecordsOk(records, issued)
    requires a.content.eventId in records && records[a.content.eventId] == a
    requires b.content.eventId in records && records[b.content.eventId] == b
    requires Oldest(a, records) && Oldest(b, records) && Key(a) == Key(b)
    ensures a == b
  {
    assert issued[a.content.eventId] == issued[b.content.eventId];
  }

  // --------------------------------------------------------- walking the ready heap

  type Candidates = LaneHeap.Heap<nat>

  function Slot(heap: ReadyHeap, i: nat): LaneHeap.Entry<nat>
    requires i < |heap.items|
  {
    LaneHeap.Entry(heap.items[i].key, heap.items[i].sequence, i)
  }

  /** Slots not yet visited whose parent was. */
  ghost function Frontier(visited: set<nat>, n: nat): set<nat> {
    set i | 0 <= i < n && i !in visited && (i == 0 || LaneHeap.Parent(i) in visited)
  }

  ghost predicate ParentsFirst(visited: set<nat>, n: nat) {
    forall i :: i in visited ==> i < n && (i == 0 || LaneHeap.Parent(i) in visited)
  }

  ghost predicate Awaiting(c: Candidates, heap: ReadyHeap, slots: set<nat>) {
    && LaneHeap.Valid(c)
    && (forall i :: i in slots ==> i < |heap.items| && Slot(heap, i) in LaneHeap.Contents(c))
    && (forall e :: e in LaneHeap.Contents(c) ==> e.payload in slots && e == Slot(heap, e.payload))
  }

  /** Every unvisited slot lies below a slot of the frontier. */
  lemma {:induction false} FrontierBelow(heap: ReadyHeap, visited: set<nat>, i: nat) returns (f: nat)
    requires LaneHeap.Ordered(heap.items) && i < |heap.items| && i !in visited
    ensures f in Frontier(visited, |heap.items|) && heap.items[f].sequence <= heap.items[i].sequence
  {
    if i == 0 || LaneHeap.Parent(i) in visited {
      f := i;
    } else {
      f := FrontierBelow(heap, visited, LaneHeap.Parent(i));
    }
  }

  function Children(i: nat, n: nat): set<nat> {
    (if 2 * i + 1 < n then {2 * i + 1} else {}) + (if 2 * i + 2 < n then {2 * i + 2} else {})
  }

  lemma FrontierNext(visited: set<nat>, n: nat, i: nat)
    requires ParentsFirst(visited, n) && i in Frontier(visited, n)
    ensures ParentsFirst(visited + {i}, n)
    ensures Frontier(visited + {i}, n) == Frontier(visited, n) - {i} + Children(i, n)
    ensures 2 * i + 1 !in Frontier(visited, n) && 2 * i + 2 !in Frontier(visited, n)
  {
    assert forall j :: 0 < j < n && LaneHeap.Parent(j) == i ==> j in Children(i, n) && j !in visited;
    assert LaneHeap.Parent(2 * i + 1) == i && LaneHeap.Parent(2 * i + 2) == i;
  }

  method PushSlot(c: Candidates, heap: ReadyHeap, i: nat, ghost slots: set<nat>) returns (r: Candidates)
    requires Awaiting(c, heap, slots) && LaneHeap.Indexed(heap) && i < |heap.items| && i !in slots
    ensures Awaiting(r, heap, slots + {i})
  {
    SlotKeyAbsent(c, heap, i, slots);
    hide LaneHeap.Valid, LaneHeap.Indexed, LaneHeap.Contents;
    r := LaneHeap.Push(c, Slot(heap, i));
  }

  lemma SlotKeyAbsent(c: Candidates, heap: ReadyHeap, i: nat, slots: set<nat>)
    requires Awaiting(c, heap, slots) && LaneHeap.Indexed(heap) && i < |heap.items| && i !in slots
    ensures heap.items[i].key !in c.index
  {
    forall key | key in c.index ensures key != heap.items[i].key {
      var e := c.items[c.index[key]];
      assert e in LaneHeap.Contents(c) && e.key == key;
      assert heap.index[key] == e.payload;
    }
  }

  /** The heads in order of acceptance are the entries of the ready heap. */
  ghost predicate HeadsListed(heads: seq<Record>, heap: ReadyHeap) {
    && Ascending(heads)
    && (forall j :: 0 <= j < |heads| ==>
          Key(heads[j]) in heap.index && heap.index[Key(heads[j])] < |heap.items|
          && heap.items[heap.index[Key(heads[j])]].sequence == heads[j].sequence)
    && (forall i :: 0 <= i < |heap.items| ==> ListedUnder(heads, heap.items[i].key))
  }

  predicate ListedUnder(heads: seq<Record>, key: string) {
    exists j :: 0 <= j < |heads| && Key(heads[j]) == key
  }

  lemma HeadsListedOk(live: seq<Record>, heap: ReadyHeap, lanes: Lanes, records: Records, issued: map<string, nat>)
    requires RecordsOk(records, issued) && LanesOk(lanes, records, issued) && HeapOk(heap, lanes, records)
             && Enumerates(live, records)
    ensures HeadsListed(Heads(live, records), heap)
    ensures forall i :: 0 <= i < |heap.items| ==> ReadyLane(heap.items[i].key, lanes, records)
                                                  && HeadOf(lanes[heap.items[i].key], records) in Heads(live, records)
  {
    hide LanesOk, RecordsOk, Oldest;
    var heads := Heads(live, records);
    HeadsAre(live, records);
    forall j | 0 <= j < |heads|
      ensures Key(heads[j]) in heap.index && heap.index[Key(heads[j])] < |heap.items|
              && heap.items[heap.index[Key(heads[j])]].sequence == heads[j].sequence
    {
      assert heads[j] in live && IsHead(heads[j], records);
      OldestIsHead(heads[j], lanes, records, issued);
      assert ReadyLane(Key(heads[j]), lanes, records);
    }
    forall i | 0 <= i < |heap.items|
      ensures ListedUnder(heads, heap.items[i].key) && ReadyLane(heap.items[i].key, lanes, records)
              && HeadOf(lanes[heap.items[i].key], records) in heads
    {
      var key := heap.items[i].key;
      assert key in heap.index;
      HeadIsOldest(key, lanes, records, issued);
      var r := HeadOf(lanes[key], records);
      assert r in live && IsHead(r, records);
      assert r in heads;
      var j :| 0 <= j < |heads| && heads[j] == r;
      assert Key(heads[j]) == key;
    }
  }

  ghost function Visited(heads: seq<Record>, heap: ReadyHeap, m: nat): set<nat>
    requires HeadsListed(heads, heap) && m <= |heads|
  {
    set j | 0 <= j < m :: heap.index[Key(heads[j])]
  }

  lemma HeadAtSlot(heads: seq<Record>, heap: ReadyHeap, i: nat) returns (k: nat)
    requires LaneHeap.Indexed(heap) && HeadsListed(heads, heap) && i < |heap.items|
    ensures k < |heads| && heap.index[Key(heads[k])] == i && heap.items[i].sequence == heads[k].sequence
  {
    assert ListedUnder(heads, heap.items[i].key);
    k :| 0 <= k < |heads| && Key(heads[k]) == heap.items[i].key;
  }

  /** The smallest candidate is the next head in acceptance order. */
  lemma NextHead(heads: seq<Record>, heap: ReadyHeap, m: nat, i: nat)
    requires LaneHeap.Valid(heap) && HeadsListed(heads, heap) && m <= |heads|
    requires i in Frontier(Visited(heads, heap, m), |heap.items|)
    requires forall f :: f in Frontier(Visited(heads, heap, m), |heap.items|) ==>
               heap.items[i].sequence <= heap.items[f].sequence
    ensures m < |heads| && heap.index[Key(heads[m])] == i && heap.items[i].sequence == heads[m].sequence
  {
    hide LaneHeap.Ordered;
    var k := HeadAtSlot(heads, heap, i);
    assert k >= m;
    Unvisited(heads, heap, m);
    NextIsSmallest(heads, heap, m, i);
    assert heads[k].sequence <= heads[m].sequence;
  }

  lemma NextIsSmallest(heads: seq<Record>, heap: ReadyHeap, m: nat, i: nat)
    requires LaneHeap.Valid(heap) && HeadsListed(heads, heap) && m < |heads| && i < |heap.items|
    requires heap.index[Key(heads[m])] !in Visited(heads, heap, m)
    requires forall f :: f in Frontier(Visited(heads, heap, m), |heap.items|) ==>
               heap.items[i].sequence <= heap.items[f].sequence
    ensures heap.items[i].sequence <= heads[m].sequence
  {
    hide Visited;
    var f := FrontierBelow(heap, Visited(heads, heap, m), heap.index[Key(heads[m])]);
    assert heap.items[i].sequence <= heap.items[f].sequence;
  }

  lemma Unvisited(heads: seq<Record>, heap: ReadyHeap, m: nat)
    requires LaneHeap.Indexed(heap) && HeadsListed(heads, heap) && m < |heads|
    ensures heap.index[Key(heads[m])] !in Visited(heads, heap, m)
  {
    forall j | 0 <= j < m ensures heap.index[Key(heads[j])] != heap.index[Key(heads[m])] {
      assert heads[j].sequence < heads[m].sequence;
    }
  }

  /** Nothing left to visit means every head was visited. */
  lemma AllVisited(heads: seq<Record>, heap: ReadyHeap, m: nat)
    requires LaneHeap.Valid(heap) && HeadsListed(heads, heap) && m <= |heads|
    requires Frontier(Visited(heads, heap, m), |heap.items|) == {}
    ensures m == |heads|
  {
    if m < |heads| {
      Unvisited(heads, heap, m);
      var f := FrontierBelow(heap, Visited(heads, heap, m), heap.index[Key(heads[m])]);
      assert false;
    }
  }

  lemma HeadsFit(heads: seq<Record>, heap: ReadyHeap, m: nat)
    requires LaneHeap.Indexed(heap) && HeadsListed(heads, heap) && m <= |heads|
    ensures m <= |heap.items|
  {
    VisitedCount(heads, heap, m);
    SubsetCount(Visited(heads, heap, m), Range(|heap.items|));
  }

  lemma {:induction false} VisitedCount(heads: seq<Record>, heap: ReadyHeap, m: nat)
    requires LaneHeap.Indexed(heap) && HeadsListed(heads, heap) && m <= |heads|
    ensures |Visited(heads, heap, m)| == m
  {
    hide HeadsListed, LaneHeap.Indexed;
    if m > 0 {
      hide Visited;
      VisitedCount(heads, heap, m - 1);
      Unvisited(heads, heap, m - 1);
      VisitedNext(heads, heap, m - 1);
    }
  }

  function Range(n: nat): (r: set<nat>)
    ensures |r| == n && forall i: nat :: i in r <==> i < n
  {
    if n == 0 then {} else Range(n - 1) + {n - 1}
  }

  lemma {:induction false} SubsetCount<T>(a: set<T>, b: set<T>)
    requires a <= b
    ensures |a| <= |b|
  {
    if a != {} {
      var x :| x in a;
      SubsetCount(a - {x}, b - {x});
    }
  }

  // ------------------------------------------------------------------ the walk

  lemma VisitedNext(heads: seq<Record>, heap: ReadyHeap, m: nat)
    requires HeadsListed(heads, heap) && m < |heads|
    ensures Visited(heads, heap, m + 1) == Visited(heads, heap, m) + {heap.index[Key(heads[m])]}
  {
    hide HeadsListed;
  }

  /** Takes the smallest candidate and offers its children. */
  method Next(c: Candidates, heap: ReadyHeap, ghost heads: seq<Record>, ghost m: nat)
    returns (key: string, r: Candidates)
    requires LaneHeap.Valid(heap) && HeadsListed(heads, heap) && m <= |heads| && c.items != []
    requires Awaiting(c, heap, Frontier(Visited(heads, heap, m), |heap.items|))
             && ParentsFirst(Visited(heads, heap, m), |heap.items|)
    ensures m < |heads| && key == Key(heads[m])
    ensures Awaiting(r, heap, Frontier(Visited(heads, heap, m + 1), |heap.items|))
            && ParentsFirst(Visited(heads, heap, m + 1), |heap.items|)
  {
    hide LaneHeap.Contents, LaneHeap.OrderedBut, Visited, Frontier, ParentsFirst, HeadsListed, LaneHeap.Indexed;
    ghost var n := |heap.items|;
    ghost var frontier := Frontier(Visited(heads, heap, m), n);
    var e;
    e, r := LaneHeap.Pop(c);
    var i := e.payload;
    assert i in frontier && e == Slot(heap, i);
    assert forall f :: f in frontier ==> heap.items[i].sequence <= Slot(heap, f).sequence;
    key := e.key;
    NextHead(heads, heap, m, i);
    KeyAtSlot(heads, heap, m, i);
    VisitedNext(heads, heap, m);
    FrontierNext(Visited(heads, heap, m), n, i);
    assert Awaiting(r, heap, frontier - {i});
    ghost var slots := frontier - {i};
    var left := 2 * i + 1;
    if left < |heap.items| {
      r := PushSlot(r, heap, left, slots);
      slots := slots + {left};
    }
    var right := left + 1;
    if right < |heap.items| {
      r := PushSlot(r, heap, right, slots);
      slots := slots + {right};
    }
    assert slots == frontier - {i} + Children(i, n);
  }

  lemma KeyAtSlot(heads: seq<Record>, heap: ReadyHeap, m: nat, i: nat)
    requires LaneHeap.Indexed(heap) && HeadsListed(heads, heap) && m < |heads| && i < |heap.items|
             && heap.index[Key(heads[m])] == i
    ensures heap.items[i].key == Key(heads[m])
  {
  }

  ghost predicate Counted(used: map<string, nat>, taken: seq<Record>) {
    forall b :: (if b in used then used[b] else 0) == OnBroker(taken, b)
  }

  lemma CountedNext(used: map<string, nat>, taken: seq<Record>, r: Record)
    requires Counted(used, taken)
    ensures var b := r.route.broker;
            Counted(used[b := (if b in used then used[b] else 0) + 1], taken + [r])
  {
    var next, b := taken + [r], r.route.broker;
    assert next[..|taken|] == taken;
    var grown := used[b := (if b in used then used[b] else 0) + 1];
    forall c ensures (if c in grown then grown[c] else 0) == OnBroker(next, c) {
      assert (if c in used then used[c] else 0) == OnBroker(taken, c);
    }
  }

  /** The walk over the heap with a second heap returns exactly what the plain scan
      of all live records returns, for every shape of the heap, and that is the one
      selection the filter and the limit allow. */
  method EligibleFor(records: Records, lanes: Lanes, heap: ReadyHeap, limit: int, f: Filter,
                     ghost live: seq<Record>, ghost issued: map<string, nat>)
    returns (eligible: seq<Record>)
    requires RecordsOk(records, issued) && LanesOk(lanes, records, issued) && HeapOk(heap, lanes, records)
             && Enumerates(live, records)
    ensures eligible == Scan(live, records, limit, f)
    ensures OutboxSelection.IsSelection(eligible, records, limit, f)
  {
    hide RecordsOk, LanesOk, HeapOk, Enumerates, HeadsListed, Visited, Frontier, ParentsFirst, Awaiting, LaneHeap.Valid,
         Counted, Select, IsHead, LaneOk, OutboxSelection.IsSelection;
    OutboxSelection.ScanIsSelection(live, records, limit, f);
    ghost var heads := Heads(live, records);
    ScanSelects(live, records, limit, f);
    HeadsListedOk(live, heap, lanes, records, issued);
    HeapIsValid(heap, lanes, records);
    SelectNone(limit, f);
    eligible := [];
    if limit <= 0 {
      SelectFull(heads, 0, limit, f);
      return;
    }
    var wanted := if limit < |heap.items| then limit else |heap.items|;
    var used: map<string, nat> := map[];
    assert Counted(used, []) by { NothingCounted(); }
    var candidates: Candidates := LaneHeap.Empty();
    EmptyAwaits(heads, heap);
    if |heap.items| > 0 {
      candidates := PushSlot(candidates, heap, 0, {});
    }
    FirstFrontier(heads, heap);
    ghost var none: set<nat> := {};
    assert none + {0} == {0};
    ghost var m := 0;
    while |eligible| < wanted && |candidates.items| != 0
      invariant m <= |heads| && eligible == Select(heads[..m], limit, f) && Counted(used, eligible)
      invariant Awaiting(candidates, heap, Frontier(Visited(heads, heap, m), |heap.items|))
                && ParentsFirst(Visited(heads, heap, m), |heap.items|)
      decreases |heads| - m
    {
      var key;
      key, candidates := Next(candidates, heap, heads, m);
      HeadInLane(live, heads, heap, lanes, records, issued, m);
      var record := HeadOf(lanes[key], records);
      SelectNext(heads, m, limit, f);
      var matches := EpochOpen(record, f);
      var b := record.route.broker;
      assert (if b in used then used[b] else 0) == OnBroker(eligible, b) by { CountedAt(used, eligible, b); }
      if matches && f.slots.Only? {
        matches := (if b in used then used[b] else 0) < Slots(f, b);
      }
      if matches {
        CountedNext(used, eligible, record);
        eligible := eligible + [record];
        used := used[b := (if b in used then used[b] else 0) + 1];
      }
      m := m + 1;
    }
    WalkDone(heads, heap, candidates, m, limit, wanted, f);
  }

  lemma HeapIsValid(heap: ReadyHeap, lanes: Lanes, records: Records)
    requires HeapOk(heap, lanes, records)
    ensures LaneHeap.Valid(heap) && LaneHeap.Indexed(heap)
  {
  }

  lemma NothingCounted()
    ensures Counted(map[], [])
  {
  }

  lemma CountedAt(used: map<string, nat>, taken: seq<Record>, b: string)
    requires Counted(used, taken)
    ensures (if b in used then used[b] else 0) == OnBroker(taken, b)
  {
  }

  lemma SelectNone(limit: int, f: Filter)
    ensures Select([], limit, f) == []
  {
  }

  lemma SelectNext(heads: seq<Record>, m: nat, limit: int, f: Filter)
    requires m < |heads|
    ensures heads[..m + 1][..m] == heads[..m]
    ensures var taken := Select(heads[..m], limit, f);
            Select(heads[..m + 1], limit, f) == if |taken| < limit && Fits(heads[m], taken, f) then taken + [heads[m]]
                  else taken
  {
    assert heads[..m + 1][..m] == heads[..m];
  }

  lemma EmptyAwaits(heads: seq<Record>, heap: ReadyHeap)
    requires HeadsListed(heads, heap)
    ensures Awaiting(LaneHeap.Empty(), heap, {})
    ensures Visited(heads, heap, 0) == {}
  {
    var none: Candidates := LaneHeap.Empty();
    assert LaneHeap.Contents(none) == {};
  }

  lemma FirstFrontier(heads: seq<Record>, heap: ReadyHeap)
    requires HeadsListed(heads, heap)
    ensures Frontier(Visited(heads, heap, 0), |heap.items|) == if |heap.items| > 0 then {0} else {}
    ensures ParentsFirst(Visited(heads, heap, 0), |heap.items|)
  {
  }

  lemma HeadInLane(live: seq<Record>, heads: seq<Record>, heap: ReadyHeap, lanes: Lanes, records: Records,
                   issued: map<string, nat>, m: nat)
    requires RecordsOk(records, issued) && LanesOk(lanes, records, issued) && HeapOk(heap, lanes, records)
             && Enumerates(live, records)
    requires heads == Heads(live, records) && HeadsListed(heads, heap) && m < |heads|
    ensures Key(heads[m]) in lanes
    ensures var lane := lanes[Key(heads[m])];
            lane.head < |lane.eventIDs| && lane.eventIDs[lane.head] in records && HeadOf(lane, records) == heads[m]
  {
    hide RecordsOk, LanesOk, HeapOk, HeadsListed, Oldest;
    HeadsAre(live, records);
    assert heads[m] in live;
    OldestIsHead(heads[m], lanes, records, issued);
  }

  lemma WalkDone(heads: seq<Record>, heap: ReadyHeap, candidates: Candidates, m: nat, limit: int, wanted: int,
                 f: Filter)
    requires LaneHeap.Valid(heap) && HeadsListed(heads, heap) && m <= |heads|
    requires Awaiting(candidates, heap, Frontier(Visited(heads, heap, m), |heap.items|))
    requires wanted == if limit < |heap.items| then limit else |heap.items|
    requires |Select(heads[..m], limit, f)| >= wanted || candidates.items == []
    ensures Select(heads, limit, f) == Select(heads[..m], limit, f)
  {
    hide HeadsListed, LaneHeap.Valid, Visited, Frontier, Select;
    if |Select(heads[..m], limit, f)| >= limit {
      SelectFull(heads, m, limit, f);
    } else {
      if candidates.items == [] {
        NothingAwaits(candidates, heap, Frontier(Visited(heads, heap, m), |heap.items|));
        AllVisited(heads, heap, m);
      } else {
        SelectBounded(heads[..m], limit, f);
        HeapIndexed(heap);
        HeadsFit(heads, heap, |heads|);
      }
      assert heads[..m] == heads;
    }
  }

  lemma HeapIndexed(heap: ReadyHeap)
    requires LaneHeap.Valid(heap)
    ensures LaneHeap.Indexed(heap)
  {
  }

  lemma NothingAwaits(c: Candidates, heap: ReadyHeap, slots: set<nat>)
    requires Awaiting(c, heap, slots) && c.items == []
    ensures slots == {}
  {
    assert LaneHeap.Contents(c) == {};
  }
}
