/** The policy decision does not depend on the order in which groups, inventory and
    samples are supplied. */
module PolicyOrder {
  import opened Control
  import opened Routing
  import opened Policy
  import opened PolicyMeaning
  import opened PolicyEngine

  predicate DistinctBy<T, K(==)>(s: seq<T>, key: T -> K) {
    forall i, j :: 0 <= i < j < |s| ==> key(s[i]) != key(s[j])
  }

  lemma CountOne<T, K>(s: seq<T>, key: T -> K, a: nat)
    requires DistinctBy(s, key) && a < |s|
    ensures multiset(s)[s[a]] == 1
  {
    var before, after := s[..a], s[a + 1..];
    assert s == before + [s[a]] + after;
    forall i | 0 <= i < |before| ensures before[i] != s[a] {
      assert key(s[i]) != key(s[a]);
    }
    forall i | 0 <= i < |after| ensures after[i] != s[a] {
      assert key(s[a]) != key(s[a + 1 + i]);
    }
    assert s[a] !in before && s[a] !in after;
  }

  lemma CountTwo<T>(t: seq<T>, i: nat, j: nat)
    requires i < j < |t| && t[i] == t[j]
    ensures multiset(t)[t[i]] >= 2
  {
    assert t == t[..i] + [t[i]] + t[i + 1..];
    assert t[i + 1..][j - i - 1] == t[j];
    assert t[j] in multiset(t[i + 1..]);
  }

  /** Distinct names stay distinct in any order. */
  lemma DistinctPermutes<T, K>(s: seq<T>, t: seq<T>, key: T -> K)
    requires multiset(s) == multiset(t) && DistinctBy(s, key)
    ensures DistinctBy(t, key)
  {
    forall i, j | 0 <= i < j < |t| ensures key(t[i]) != key(t[j]) {
      assert t[i] in multiset(s) && t[j] in multiset(s);
      var a :| 0 <= a < |s| && s[a] == t[i];
      var b :| 0 <= b < |s| && s[b] == t[j];
      CountOne(s, key, a);
      if t[i] == t[j] {
        CountTwo(t, i, j);
      }
    }
  }

  // --------------------------------------------------------------------- the rows

  lemma ByBrokerSame(s: seq<BrokerSample>, t: seq<BrokerSample>)
    requires DistinctBrokers(s) && DistinctBrokers(t) && forall x :: x in s <==> x in t
    ensures ByBroker(s) == ByBroker(t)
  {
    ByBrokerIs(s);
    ByBrokerIs(t);
    hide ByBroker;
    forall id | id in ByBroker(s) ensures id in ByBroker(t) && ByBroker(t)[id] == ByBroker(s)[id] {
      assert ByBroker(s)[id] in t;
    }
    forall id | id in ByBroker(t) ensures id in ByBroker(s) {
      assert ByBroker(t)[id] in s;
    }
  }

  lemma ByGroupSame(s: seq<GroupSample>, t: seq<GroupSample>)
    requires DistinctSamples(s) && DistinctSamples(t) && forall x :: x in s <==> x in t
    ensures ByGroup(s) == ByGroup(t)
  {
    ByGroupIs(s);
    ByGroupIs(t);
    hide ByGroup;
    forall k | k in ByGroup(s) ensures k in ByGroup(t) && ByGroup(t)[k] == ByGroup(s)[k] {
      assert ByGroup(s)[k] in t;
    }
    forall k | k in ByGroup(t) ensures k in ByGroup(s) {
      assert ByGroup(t)[k] in s;
    }
  }

  lemma ByIdSame(s: seq<Broker>, t: seq<Broker>)
    requires DistinctInventory(s) && DistinctInventory(t) && forall x :: x in s <==> x in t
    ensures ById(s) == ById(t)
  {
    ByIdIs(s);
    ByIdIs(t);
    hide ById;
    forall id | id in ById(s) ensures id in ById(t) && ById(t)[id] == ById(s)[id] {
      assert ById(s)[id] in t;
    }
    forall id | id in ById(t) ensures id in ById(s) {
      assert ById(t)[id] in s;
    }
  }

  lemma DropLast<T>(s: seq<T>)
    requires s != []
    ensures multiset(s[..|s| - 1]) == multiset(s) - multiset{s[|s| - 1]}
  {
    assert s == s[..|s| - 1] + [s[|s| - 1]];
  }

  lemma SameLength<T>(s: seq<T>, t: seq<T>)
    requires multiset(s) == multiset(t)
    ensures |s| == |t|
  {
    assert |s| == |multiset(s)| && |t| == |multiset(t)|;
  }

  /** There is one ordered listing of the same groups. */
  lemma {:induction false} SortedSame(s: seq<Group>, t: seq<Group>)
    requires InOrder(s) && InOrder(t) && multiset(s) == multiset(t)
    ensures s == t
    decreases |s|
  {
    SameLength(s, t);
    if s != [] {
      SameElements(s, t);
      LastSame(s, t);
      DropLast(s);
      DropLast(t);
      hide Before;
      SortedSame(s[..|s| - 1], t[..|t| - 1]);
      assert s == s[..|s| - 1] + [s[|s| - 1]] && t == t[..|t| - 1] + [t[|t| - 1]];
    }
  }

  lemma LastSame(s: seq<Group>, t: seq<Group>)
    requires InOrder(s) && InOrder(t) && s != [] && t != [] && forall x :: x in s <==> x in t
    ensures s[|s| - 1] == t[|t| - 1]
  {
    var a, b := s[|s| - 1], t[|t| - 1];
    assert a in t && b in s;
    BeforeTotal(a.id, b.id);
  }

  lemma FirstEligibleSame(s: seq<Broker>, t: seq<Broker>, g: Group)
    requires forall x :: x in s <==> x in t
    ensures FirstEligible(s, g) == FirstEligible(t, g)
  {
    FirstIsSmallest(s, g);
    FirstIsSmallest(t, g);
    forall id ensures EligibleId(s, g, id) <==> EligibleId(t, g, id) {
      EligibleEither(s, t, g, id);
      EligibleEither(t, s, g, id);
    }
    hide EligibleId, FirstEligible;
    if FirstEligible(s, g).Some? && FirstEligible(t, g).Some? {
      BeforeTotal(FirstEligible(s, g).value, FirstEligible(t, g).value);
    }
  }

  lemma EligibleEither(s: seq<Broker>, t: seq<Broker>, g: Group, id: string)
    requires forall x :: x in s ==> x in t
    ensures EligibleId(s, g, id) ==> EligibleId(t, g, id)
  {
    if EligibleId(s, g, id) {
      var i :| 0 <= i < |s| && s[i].id == id && Eligible(s[i], g);
      assert s[i] in t;
      var j :| 0 <= j < |t| && t[j] == s[i];
    }
  }

  // -------------------------------------------------------------------- the cycle

  /** The same rows in another order. */
  ghost predicate Reordered(c: Cycle, d: Cycle) {
    && c.now == d.now && c.capturedAt == d.capturedAt
    && multiset(c.brokers) == multiset(d.brokers) && multiset(c.samples) == multiset(d.samples)
    && multiset(c.inventory) == multiset(d.inventory) && multiset(c.groups) == multiset(d.groups)
  }

  lemma ReorderedRows(c: Cycle, d: Cycle)
    requires Reordered(c, d)
    ensures forall x :: x in c.brokers <==> x in d.brokers
    ensures forall x :: x in c.samples <==> x in d.samples
    ensures forall x :: x in c.inventory <==> x in d.inventory
    ensures forall x :: x in c.groups <==> x in d.groups
  {
    SameElements(c.brokers, d.brokers);
    SameElements(c.samples, d.samples);
    SameElements(c.inventory, d.inventory);
    SameElements(c.groups, d.groups);
  }

  lemma ReorderedDistinct(c: Cycle, d: Cycle)
    requires Reordered(c, d)
    ensures DistinctBrokers(c.brokers) ==> DistinctBrokers(d.brokers)
    ensures DistinctSamples(c.samples) ==> DistinctSamples(d.samples)
    ensures DistinctInventory(c.inventory) ==> DistinctInventory(d.inventory)
    ensures DistinctGroups(c.groups) ==> DistinctGroups(d.groups)
  {
    if DistinctBrokers(c.brokers) {
      DistinctPermutes(c.brokers, d.brokers, (s: BrokerSample) => s.broker);
    }
    if DistinctSamples(c.samples) {
      DistinctPermutes(c.samples, d.samples, (s: GroupSample) => (s.group, s.broker));
    }
    if DistinctInventory(c.inventory) {
      DistinctPermutes(c.inventory, d.inventory, (b: Broker) => b.id);
    }
    if DistinctGroups(c.groups) {
      DistinctPermutes(c.groups, d.groups, (g: Group) => g.id);
    }
  }

  lemma ListsSame(c: Cycle, d: Cycle, id: string)
    requires Reordered(c, d)
    ensures ListsBroker(c.inventory, id) ==> ListsBroker(d.inventory, id)
    ensures ListsGroup(c.groups, id) ==> ListsGroup(d.groups, id)
  {
    ReorderedRows(c, d);
    if ListsBroker(c.inventory, id) {
      var i :| 0 <= i < |c.inventory| && c.inventory[i].id == id;
      assert c.inventory[i] in d.inventory;
    }
    if ListsGroup(c.groups, id) {
      var i :| 0 <= i < |c.groups| && c.groups[i].id == id;
      assert c.groups[i] in d.groups;
    }
  }

  /** A cycle is accepted in every order or in none. */
  lemma ReorderedValid(c: Cycle, d: Cycle)
    requires Reordered(c, d) && ValidCycle(c)
    ensures ValidCycle(d)
  {
    hide ValidPolicy, ValidUsage, ValidMetric, ListsBroker, ListsGroup, Positive, NoDuplicates;
    ReorderedRows(c, d);
    ReorderedDistinct(c, d);
    forall id ensures (ListsBroker(c.inventory, id) ==> ListsBroker(d.inventory, id))
    && (ListsGroup(c.groups, id) ==> ListsGroup(d.groups, id)) {
      ListsSame(c, d, id);
    }
    hide DistinctBrokers, DistinctSamples, DistinctInventory, DistinctGroups;
    forall i | 0 <= i < |d.brokers| ensures ValidBrokerSample(d.brokers[i], d) {
      assert d.brokers[i] in c.brokers;
      assert ValidBrokerSample(d.brokers[i], c);
    }
    forall i | 0 <= i < |d.samples| ensures ValidGroupSample(d.samples[i], d) {
      assert d.samples[i] in c.samples;
      assert ValidGroupSample(d.samples[i], c);
    }
    forall i | 0 <= i < |d.inventory| ensures d.inventory[i].id != "" && Positive(d.inventory[i].limits) {
      assert d.inventory[i] in c.inventory;
    }
    forall i | 0 <= i < |d.groups| ensures ValidGroup(d.groups[i], d.now, d.inventory) {
      assert d.groups[i] in c.groups;
      assert ValidGroup(d.groups[i], c.now, c.inventory);
    }
  }

  lemma ReorderedView(c: Cycle, d: Cycle)
    requires Reordered(c, d) && ValidCycle(c) && ValidCycle(d)
    ensures ViewOf(c) == ViewOf(d)
  {
    hide ValidBrokerSample, ValidGroupSample, ValidGroup, Positive, SortGroups, ByBroker, ByGroup, ById;
    ReorderedRows(c, d);
    ByBrokerSame(c.brokers, d.brokers);
    ByGroupSame(c.samples, d.samples);
    ByIdSame(c.inventory, d.inventory);
    SortedSame(SortGroups(c.groups), SortGroups(d.groups));
  }

  lemma {:induction false} DecideSame(groups: seq<Group>, budget: nat, pressure: map<string, Time>, v: View,
                                      s: seq<Broker>, t: seq<Broker>)
    requires forall x :: x in s <==> x in t
    ensures Decide(groups, budget, pressure, v, s) == Decide(groups, budget, pressure, v, t)
  {
    hide AssessGroup, FirstEligible;
    if groups != [] {
      DecideSame(groups[..|groups| - 1], budget, pressure, v, s, t);
      FirstEligibleSame(s, t, groups[|groups| - 1]);
    }
  }

  /** Whatever the order of groups, inventory and samples, the cycle is accepted or not,
      and the windows and the decision are the same. */
  lemma OrderIrrelevant(c: Cycle, d: Cycle, pressure: map<string, Time>, lastAt: Time, maximum: nat)
    requires Reordered(c, d)
    ensures ValidCycle(c) <==> ValidCycle(d)
    ensures ValidCycle(c) ==>
              && ViewOf(c) == ViewOf(d)
              && Windows(pressure, ViewOf(c).groups, lastAt, ViewOf(c)) == Windows(pressure, ViewOf(d).groups, lastAt,
                     ViewOf(d))
              && var next := Windows(pressure, ViewOf(c).groups, lastAt, ViewOf(c));
                 Decide(ViewOf(c).groups, Budget(maximum, ViewOf(c).groups), next, ViewOf(c), c.inventory)
                 == Decide(ViewOf(d).groups, Budget(maximum, ViewOf(d).groups), next, ViewOf(d), d.inventory)
  {
    if ValidCycle(c) {
      ReorderedValid(c, d);
    }
    if ValidCycle(d) {
      ReorderedValid(d, c);
    }
    if ValidCycle(c) {
      ReorderedView(c, d);
      ReorderedRows(c, d);
      CycleGroups(c);
      CycleGroups(d);
      hide ValidCycle, ViewOf, Windows, Decide;
      var v := ViewOf(c);
      DecideSame(v.groups, Budget(maximum, v.groups), Windows(pressure, v.groups, lastAt, v), v, c.inventory,
                 d.inventory);
    }
  }
}
