/** The binary heap over lane heads: sift up, sift down, push and remove at an
    index, with every entry's slot kept beside the heap. One implementation serves
    the shared index of ready lanes and the candidates of a walk over it.
    Follows the heap types of outbox/outbox.go and container/heap, which they
    instantiate. Sequences in one heap are distinct, so the tie-breaker on keys
    never decides and is not modelled. */
module LaneHeap {

  datatype Entry<T> = Entry(key: string, sequence: nat, payload: T)

  datatype Heap<T> = Heap(items: seq<Entry<T>>, index: map<string, nat>)

  function Empty<T>(): Heap<T> {
    Heap([], map[])
  }

  /** Every slot is found under its key and nothing else is. */
  predicate Indexed<T>(h: Heap<T>) {
    && (forall i :: 0 <= i < |h.items| ==> h.items[i].key in h.index && h.index[h.items[i].key] == i)
    && (forall k :: k in h.index ==> h.index[k] < |h.items| && h.items[h.index[k]].key == k)
  }

  function Parent(i: nat): nat
    requires i > 0
  {
    (i - 1) / 2
  }

  /** No entry but the one at slot hole is smaller than its parent. */
  predicate OrderedBut<T>(items: seq<Entry<T>>, hole: int) {
    forall i :: 0 < i < |items| && i != hole ==> items[Parent(i)].sequence <= items[i].sequence
  }

  predicate Ordered<T>(items: seq<Entry<T>>) {
    OrderedBut(items, -1)
  }

  predicate Valid<T>(h: Heap<T>) {
    Indexed(h) && Ordered(h.items)
  }

  ghost function Contents<T>(h: Heap<T>): set<Entry<T>> {
    set i | 0 <= i < |h.items| :: h.items[i]
  }

  // --------------------------------------------------------------------- swapping

  function Swap<T>(h: Heap<T>, i: nat, j: nat): (r: Heap<T>)
    requires i < |h.items| && j < |h.items|
  {
    Heap(h.items[i := h.items[j]][j := h.items[i]],
         h.index[h.items[j].key := i][h.items[i].key := j])
  }

  lemma SwapKeeps<T>(h: Heap<T>, i: nat, j: nat)
    requires Indexed(h) && i < |h.items| && j < |h.items|
    ensures Indexed(Swap(h, i, j)) && Contents(Swap(h, i, j)) == Contents(h)
  {
    var r := Swap(h, i, j);
    forall e | e in Contents(h) ensures e in Contents(r) {
      var k :| 0 <= k < |h.items| && h.items[k] == e;
      var l := if k == i then j else if k == j then i else k;
      assert r.items[l] == e;
    }
  }

  // ------------------------------------------------------------------ sifting up

  /** The entry at the hole may be smaller than its parent, but nothing below it is
      smaller than that parent. */
  predicate Rising<T>(items: seq<Entry<T>>, hole: nat) {
    && OrderedBut(items, hole)
    && (forall i :: 0 < i < |items| && Parent(i) == hole && hole > 0 ==>
        items[Parent(hole)].sequence <= items[i].sequence)
  }

  lemma SwapUp<T>(h: Heap<T>, j: nat)
    requires 0 < j < |h.items| && Rising(h.items, j) && h.items[j].sequence < h.items[Parent(j)].sequence
    ensures Rising(Swap(h, Parent(j), j).items, Parent(j))
  {
  }

  method Up<T>(h: Heap<T>, start: nat) returns (r: Heap<T>)
    requires Indexed(h) && start < |h.items| && Rising(h.items, start)
    ensures Valid(r) && Contents(r) == Contents(h) && |r.items| == |h.items|
  {
    hide Indexed, Rising, Contents, Swap;
    r := h;
    var j: nat := start;
    while j > 0 && r.items[j].sequence < r.items[Parent(j)].sequence
      invariant Indexed(r) && Contents(r) == Contents(h) && |r.items| == |h.items|
      invariant j < |r.items| && Rising(r.items, j)
      decreases j
    {
      SwapUp(r, j);
      SwapKeeps(r, Parent(j), j);
      SwapLength(r, Parent(j), j);
      r := Swap(r, Parent(j), j);
      j := Parent(j);
    }
    Risen(r, j);
  }

  lemma SwapLength<T>(h: Heap<T>, i: nat, j: nat)
    requires i < |h.items| && j < |h.items|
    ensures |Swap(h, i, j).items| == |h.items|
  {
  }

  lemma Risen<T>(h: Heap<T>, j: nat)
    requires Rising(h.items, j) && j < |h.items| && (j > 0 ==> h.items[Parent(j)].sequence <= h.items[j].sequence)
    ensures Ordered(h.items)
  {
  }

  // ---------------------------------------------------------------- sifting down

  /** Nothing but the children of the hole may be smaller than their parent, and
      they are no smaller than the parent of the hole. */
  predicate Sinking<T>(items: seq<Entry<T>>, hole: nat) {
    && (forall i :: 0 < i < |items| && Parent(i) != hole ==> items[Parent(i)].sequence <= items[i].sequence)
    && (forall i :: 0 < i < |items| && Parent(i) == hole && hole > 0 ==>
        items[Parent(hole)].sequence <= items[i].sequence)
  }

  function SmallerChild<T>(items: seq<Entry<T>>, i: nat): (c: nat)
    requires 2 * i + 1 < |items|
    ensures i < c < |items| && Parent(c) == i
    ensures forall k :: 0 < k < |items| && Parent(k) == i ==> items[c].sequence <= items[k].sequence
  {
    if 2 * i + 2 < |items| && items[2 * i + 2].sequence < items[2 * i + 1].sequence then 2 * i + 2 else 2 * i + 1
  }

  lemma SwapDown<T>(h: Heap<T>, i: nat)
    requires 2 * i + 1 < |h.items| && Sinking(h.items, i)
    requires h.items[SmallerChild(h.items, i)].sequence < h.items[i].sequence
    ensures Sinking(Swap(h, i, SmallerChild(h.items, i)).items, SmallerChild(h.items, i))
  {
    var c := SmallerChild(h.items, i);
    var r := Swap(h, i, c).items;
    forall k | 0 < k < |r| && Parent(k) != c ensures r[Parent(k)].sequence <= r[k].sequence {
      if Parent(k) == i && k != c {
        assert h.items[c].sequence <= h.items[k].sequence;
      }
    }
  }

  lemma Sunk<T>(items: seq<Entry<T>>, i: nat)
    requires Sinking(items, i) && forall k :: 0 < k < |items| && Parent(k) == i ==>
               items[i].sequence <= items[k].sequence
    ensures Ordered(items)
  {
  }

  method Down<T>(h: Heap<T>, start: nat) returns (r: Heap<T>)
    requires Indexed(h) && start < |h.items| && Sinking(h.items, start)
    ensures Valid(r) && Contents(r) == Contents(h) && |r.items| == |h.items|
  {
    hide Indexed, Sinking, Contents, Swap, SmallerChild;
    r := h;
    var i: nat := start;
    while 2 * i + 1 < |r.items| && r.items[SmallerChild(r.items, i)].sequence < r.items[i].sequence
      invariant Indexed(r) && Contents(r) == Contents(h) && |r.items| == |h.items|
      invariant i < |r.items| && Sinking(r.items, i)
      decreases |r.items| - i
    {
      var c := SmallerChild(r.items, i);
      SwapDown(r, i);
      SwapKeeps(r, i, c);
      SwapLength(r, i, c);
      r := Swap(r, i, c);
      i := c;
    }
    Sunk(r.items, i);
  }

  // ------------------------------------------------------------- the operations

  function Appended<T>(h: Heap<T>, e: Entry<T>): Heap<T> {
    Heap(h.items + [e], h.index[e.key := |h.items|])
  }

  lemma AppendKeeps<T>(h: Heap<T>, e: Entry<T>)
    requires Valid(h) && e.key !in h.index
    ensures Indexed(Appended(h, e)) && Rising(Appended(h, e).items, |h.items|)
    ensures Contents(Appended(h, e)) == Contents(h) + {e}
  {
    var r := Appended(h, e);
    forall x | x in Contents(h) + {e} ensures x in Contents(r) {
      if x == e {
        assert r.items[|h.items|] == e;
      } else {
        var k :| 0 <= k < |h.items| && h.items[k] == x;
        assert r.items[k] == x;
      }
    }
  }

  method Push<T>(h: Heap<T>, e: Entry<T>) returns (r: Heap<T>)
    requires Valid(h) && e.key !in h.index
    ensures Valid(r) && Contents(r) == Contents(h) + {e} && |r.items| == |h.items| + 1
  {
    hide Indexed, Rising, Contents, OrderedBut;
    AppendKeeps(h, e);
    r := Up(Appended(h, e), |h.items|);
  }

  /** The last entry takes the freed slot. */
  function Dropped<T>(h: Heap<T>, i: nat): Heap<T>
    requires i < |h.items|
  {
    var n := |h.items| - 1;
    if i == n then Heap(h.items[..n], h.index - {h.items[i].key})
    else Heap(h.items[..n][i := h.items[n]], (h.index - {h.items[i].key})[h.items[n].key := i])
  }

  lemma DropKeeps<T>(h: Heap<T>, i: nat)
    requires Indexed(h) && i < |h.items|
    ensures Indexed(Dropped(h, i)) && Contents(Dropped(h, i)) == Contents(h) - {h.items[i]}
    ensures |Dropped(h, i).items| == |h.items| - 1
  {
    var r, n := Dropped(h, i), |h.items| - 1;
    forall x | x in Contents(h) - {h.items[i]} ensures x in Contents(r) {
      var k :| 0 <= k < |h.items| && h.items[k] == x;
      assert r.items[if k == n then i else k] == x;
    }
    forall x | x in Contents(r) ensures x in Contents(h) - {h.items[i]} {
      var k :| 0 <= k < |r.items| && r.items[k] == x;
      assert h.items[if k == i then n else k] == x;
    }
  }

  lemma DropOrder<T>(h: Heap<T>, i: nat)
    requires Ordered(h.items) && i < |h.items| - 1
    ensures var r := Dropped(h, i).items;
            if i > 0 && r[i].sequence < r[Parent(i)].sequence then Rising(r, i) else Sinking(r, i)
  {
    var r := Dropped(h, i).items;
    if i > 0 {
      assert h.items[Parent(i)].sequence <= h.items[i].sequence;
    }
    forall k | 0 < k < |r| && Parent(k) == i ensures h.items[i].sequence <= r[k].sequence {
      assert h.items[Parent(k)].sequence <= h.items[k].sequence;
    }
  }

  lemma DropLast<T>(h: Heap<T>)
    requires Ordered(h.items) && h.items != []
    ensures Ordered(Dropped(h, |h.items| - 1).items)
  {
  }

  method Remove<T>(h: Heap<T>, i: nat) returns (r: Heap<T>)
    requires Valid(h) && i < |h.items|
    ensures Valid(r) && Contents(r) == Contents(h) - {h.items[i]} && |r.items| == |h.items| - 1
  {
    hide Indexed, Rising, Sinking, Contents, OrderedBut, Dropped;
    r := Dropped(h, i);
    DropKeeps(h, i);
    if i == |h.items| - 1 {
      DropLast(h);
    } else {
      DropOrder(h, i);
      if i > 0 && r.items[i].sequence < r.items[Parent(i)].sequence {
        r := Up(r, i);
      } else {
        r := Down(r, i);
      }
    }
  }

  /** The root is the smallest entry. */
  lemma {:induction false} RootSmallest<T>(items: seq<Entry<T>>, i: nat)
    requires Ordered(items) && i < |items|
    ensures items[0].sequence <= items[i].sequence
  {
    if i > 0 {
      RootSmallest(items, Parent(i));
    }
  }

  method Pop<T>(h: Heap<T>) returns (e: Entry<T>, r: Heap<T>)
    requires Valid(h) && h.items != []
    ensures Valid(r) && e in Contents(h) && Contents(r) == Contents(h) - {e}
    ensures forall x :: x in Contents(h) ==> e.sequence <= x.sequence
  {
    e := h.items[0];
    forall x | x in Contents(h) ensures e.sequence <= x.sequence {
      var k :| 0 <= k < |h.items| && h.items[k] == x;
      RootSmallest(h.items, k);
    }
    assert e in Contents(h);
    r := Remove(h, 0);
  }
}
