/** What may be published next, said without a walk: a record is selected exactly when
    it is live, ready, the oldest of its key and of its group's open epoch, and fewer
    than the limit, and fewer than its broker has slots, of those selected were accepted
    before it. There is exactly one such selection, and the plain scan finds it.
    Follows outbox/outbox.go. */
module OutboxSelection {
  import opened OutboxRecords

  function Earlier(taken: seq<Record>, r: Record): set<Record> {
    set x | x in taken && x.sequence < r.sequence
  }

  function EarlierBeside(taken: seq<Record>, r: Record): set<Record> {
    set x | x in taken && x.sequence < r.sequence && x.route.broker == r.route.broker
  }

  function SentTo(taken: seq<Record>, broker: string): set<Record> {
    set x | x in taken && x.route.broker == broker
  }

  /** The same ordering key: the one given, or else that of group and hash. */
  predicate SameKey(a: Record, b: Record) {
    (if a.content.orderingKey == "" then a.content.group + "\0" + a.content.hash else a.content.orderingKey) ==
    if b.content.orderingKey == "" then b.content.group + "\0" + b.content.hash else b.content.orderingKey
  }

  predicate Candidate(r: Record, records: Records, f: Filter) {
    && r.content.eventId in records && records[r.content.eventId] == r && r.state == Ready
    && (forall id :: id in records && SameKey(records[id], r) ==> r.sequence <= records[id].sequence)
    && match f.epochs
       case Anything => true
       case Only(epochs) => r.content.group in epochs && epochs[r.content.group] == r.route.epoch
  }

  predicate LimitLeft(r: Record, taken: seq<Record>, limit: int) {
    |Earlier(taken, r)| < limit
  }

  predicate SlotLeft(r: Record, taken: seq<Record>, f: Filter) {
    match f.slots
    case Anything => true
    case Only(slots) => r.route.broker in slots && |EarlierBeside(taken, r)| < slots[r.route.broker]
  }

  /** Nothing is taken without a reason, and nothing left out without one. */
  ghost predicate IsSelection(taken: seq<Record>, records: Records, limit: int, f: Filter) {
    && Ascending(taken)
    && forall r :: r in taken <==> Candidate(r, records, f) && LimitLeft(r, taken, limit) && SlotLeft(r, taken, f)
  }

  // ------------------------------------------------------------ the scan is the selection

  lemma EarlierNext(taken: seq<Record>, last: Record, r: Record)
    requires last.sequence < r.sequence && forall x :: x in taken ==> x.sequence < last.sequence
    ensures |Earlier(taken + [last], r)| == |Earlier(taken, r)| + 1
    ensures |EarlierBeside(taken + [last], r)| ==
            |EarlierBeside(taken, r)| + if last.route.broker == r.route.broker then 1 else 0
  {
    assert Earlier(taken + [last], r) == Earlier(taken, r) + {last};
    var beside := EarlierBeside(taken, r);
    if last.route.broker == r.route.broker {
      assert EarlierBeside(taken + [last], r) == beside + {last};
    } else {
      assert EarlierBeside(taken + [last], r) == beside;
    }
  }

  lemma WithoutLast(taken: seq<Record>)
    requires Ascending(taken) && taken != []
    ensures var rest, last := taken[..|taken| - 1], taken[|taken| - 1];
            taken == rest + [last] && Ascending(rest) && forall x :: x in rest ==> x.sequence < last.sequence
  {
    var rest := taken[..|taken| - 1];
    forall x | x in rest ensures x.sequence < taken[|taken| - 1].sequence {
      var i :| 0 <= i < |rest| && rest[i] == x;
      assert taken[i].sequence < taken[|taken| - 1].sequence;
    }
  }

  /** What was taken so far counts as often as the scan counts it. */
  lemma {:induction false} Counted(taken: seq<Record>, r: Record)
    requires Ascending(taken) && forall x :: x in taken ==> x.sequence < r.sequence
    ensures |Earlier(taken, r)| == |taken|
    ensures |EarlierBeside(taken, r)| == OnBroker(taken, r.route.broker)
  {
    if taken != [] {
      var rest, last := taken[..|taken| - 1], taken[|taken| - 1];
      WithoutLast(taken);
      hide Ascending, Earlier, EarlierBeside;
      assert last in taken;
      Counted(rest, r);
      EarlierNext(rest, last, r);
    } else {
      assert Earlier(taken, r) == {} && EarlierBeside(taken, r) == {};
    }
  }

  /** What comes later does not count. */
  lemma LaterUncounted(taken: seq<Record>, last: Record, r: Record)
    requires r.sequence <= last.sequence
    ensures Earlier(taken + [last], r) == Earlier(taken, r)
    ensures EarlierBeside(taken + [last], r) == EarlierBeside(taken, r)
  {
  }

  /** The selection among the first records of a listing. */
  ghost predicate SelectsFrom(taken: seq<Record>, live: seq<Record>, records: Records, limit: int, f: Filter) {
    && Ascending(taken)
    && forall r :: r in taken <==>
         r in live && Candidate(r, records, f) && LimitLeft(r, taken, limit) && SlotLeft(r, taken, f)
  }

  predicate Listing(live: seq<Record>, records: Records) {
    && Ascending(live)
    && forall i :: 0 <= i < |live| ==> live[i].content.eventId in records && records[live[i].content.eventId] == live[i]
  }

  lemma {:induction false} ScanSelectsFrom(live: seq<Record>, records: Records, limit: int, f: Filter)
    requires Listing(live, records)
    ensures SelectsFrom(Scan(live, records, limit, f), live, records, limit, f)
  {
    if live != [] {
      var rest, last := live[..|live| - 1], live[|live| - 1];
      ScanSelectsFrom(rest, records, limit, f);
      var taken := Scan(rest, records, limit, f);
      WithoutLast(live);
      Counted(taken, last);
      NextFits(taken, last, records, limit, f);
      NextSelected(taken, rest, last, records, limit, f);
    }
  }

  /** The test of the scan is the rule. */
  lemma NextFits(taken: seq<Record>, r: Record, records: Records, limit: int, f: Filter)
    requires r.content.eventId in records && records[r.content.eventId] == r
    requires |Earlier(taken, r)| == |taken| && |EarlierBeside(taken, r)| == OnBroker(taken, r.route.broker)
    ensures |taken| < limit && IsHead(r, records) && Fits(r, taken, f) <==>
              Candidate(r, records, f) && LimitLeft(r, taken, limit) && SlotLeft(r, taken, f)
  {
  }

  lemma NextSelected(taken: seq<Record>, rest: seq<Record>, last: Record, records: Records, limit: int, f: Filter)
    requires SelectsFrom(taken, rest, records, limit, f) && forall x :: x in rest ==> x.sequence < last.sequence
    ensures var chosen := Candidate(last, records, f) && LimitLeft(last, taken, limit) && SlotLeft(last, taken, f);
            SelectsFrom(if chosen then taken + [last] else taken, rest + [last], records, limit, f)
  {
    hide Candidate, Earlier, EarlierBeside;
    if Candidate(last, records, f) && LimitLeft(last, taken, limit) && SlotLeft(last, taken, f) {
      forall r | r in rest + [last]
        ensures LimitLeft(r, taken + [last], limit) <==> LimitLeft(r, taken, limit)
        ensures SlotLeft(r, taken + [last], f) <==> SlotLeft(r, taken, f)
      {
        LaterUncounted(taken, last, r);
      }
    }
  }

  lemma ScanIsSelection(live: seq<Record>, records: Records, limit: int, f: Filter)
    requires Enumerates(live, records)
    ensures IsSelection(Scan(live, records, limit, f), records, limit, f)
  {
    hide LimitLeft, SlotLeft;
    ScanSelectsFrom(live, records, limit, f);
    hide Scan;
    forall r | Candidate(r, records, f) ensures r in live {
      assert records[r.content.eventId] in live;
    }
  }

  // ---------------------------------------------------------------------- there is one

  /** Two selections agree on everything accepted before a point. */
  lemma {:induction false} AgreeBelow(a: seq<Record>, b: seq<Record>, records: Records, limit: int, f: Filter, n: nat)
    requires IsSelection(a, records, limit, f) && IsSelection(b, records, limit, f)
    ensures forall r: Record :: r.sequence < n ==> (r in a <==> r in b)
  {
    hide Candidate;
    if n > 0 {
      AgreeBelow(a, b, records, limit, f, n - 1);
      forall r: Record | r.sequence == n - 1 ensures r in a <==> r in b {
        assert Earlier(a, r) == Earlier(b, r);
        assert EarlierBeside(a, r) == EarlierBeside(b, r);
      }
    }
  }

  lemma TakenListed(s: seq<Record>, a: seq<Record>, records: Records, taken: Records)
    requires Filed(records) && Ascending(s) && taken == map id | id in records && records[id] in a :: records[id]
    requires forall r :: r in s ==> r.content.eventId in records && records[r.content.eventId] == r
    requires forall r :: r in a <==> r in s
    ensures Enumerates(s, taken)
  {
    forall i | 0 <= i < |s| ensures s[i].content.eventId in taken && taken[s[i].content.eventId] == s[i] {
      assert s[i] in s;
    }
  }

  lemma SelectionUnique(a: seq<Record>, b: seq<Record>, records: Records, limit: int, f: Filter)
    requires Filed(records) && IsSelection(a, records, limit, f) && IsSelection(b, records, limit, f)
    ensures a == b
  {
    hide LimitLeft, SlotLeft;
    forall r ensures r in a <==> r in b {
      AgreeBelow(a, b, records, limit, f, r.sequence + 1);
    }
    var taken := map id | id in records && records[id] in a :: records[id];
    TakenListed(a, a, records, taken);
    TakenListed(b, a, records, taken);
    EnumerationUnique(a, b, taken);
  }

  // ---------------------------------------------------------------------- what it bounds

  /** Never more than the limit, never more to a broker than it has slots, and nothing to
      a broker without any. */
  lemma SelectionBounded(taken: seq<Record>, records: Records, limit: int, f: Filter, broker: string)
    requires IsSelection(taken, records, limit, f)
    ensures limit >= 0 ==> |taken| <= limit
    ensures f.slots.Only? ==>
              |SentTo(taken, broker)| <= if broker in f.slots.values then f.slots.values[broker] else 0
  {
    hide Candidate, Earlier, EarlierBeside;
    if taken != [] {
      var rest, last := taken[..|taken| - 1], taken[|taken| - 1];
      assert last in taken && LimitLeft(last, taken, limit);
      WithoutLast(taken);
      Counted(rest, last);
      LaterUncounted(rest, last, last);
    }
    if f.slots.Only? && SentTo(taken, broker) != {} {
      var last := LastTo(taken, broker);
      assert last in taken && SlotLeft(last, taken, f);
      SentBefore(taken, broker, last);
    }
  }

  lemma SentBefore(taken: seq<Record>, broker: string, last: Record)
    requires last in SentTo(taken, broker)
    requires forall x :: x in SentTo(taken, broker) && x != last ==> x.sequence < last.sequence
    ensures |SentTo(taken, broker)| == |EarlierBeside(taken, last)| + 1
  {
    assert SentTo(taken, broker) == EarlierBeside(taken, last) + {last};
  }

  lemma LastTo(taken: seq<Record>, broker: string) returns (last: Record)
    requires Ascending(taken) && SentTo(taken, broker) != {}
    ensures last in SentTo(taken, broker)
    ensures forall x :: x in SentTo(taken, broker) && x != last ==> x.sequence < last.sequence
  {
    var y :| y in SentTo(taken, broker);
    var k :| 0 <= k < |taken| && taken[k] == y;
    var i := LastIndex(taken, broker, k);
    last := taken[i];
    forall x | x in SentTo(taken, broker) && x != last ensures x.sequence < last.sequence {
      var j :| 0 <= j < |taken| && taken[j] == x;
    }
  }

  lemma LastIndex(taken: seq<Record>, broker: string, k: nat) returns (i: nat)
    requires k < |taken| && taken[k].route.broker == broker
    ensures i < |taken| && taken[i].route.broker == broker
    ensures forall j :: i < j < |taken| ==> taken[j].route.broker != broker
  {
    i := |taken| - 1;
    while taken[i].route.broker != broker
      invariant k <= i < |taken| && forall j :: i < j < |taken| ==> taken[j].route.broker != broker
      decreases i
    {
      i := i - 1;
    }
  }
}
