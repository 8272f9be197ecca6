/** The policy over whole evaluation histories: what is decided in a cycle is warranted
    by that cycle, and the states that may be restored are exactly those that a history
    of evaluations leads to. */
module PolicyHistory {
  import opened Control
  import opened Policy
  import opened PolicyMeaning
  import opened PolicyEngine
  import opened PolicyOrder

  // --------------------------------------------------------------- warranted decisions

  /** Every transition that a valid cycle decides on is for one of its groups and
      warranted by what the cycle measured of it. */
  lemma DecisionsWarranted(c: Cycle, maximum: nat, pressure: map<string, Time>, k: nat)
    requires ValidCycle(c) && DistinctGroups(c.groups)
    requires k < |Decide(ViewOf(c).groups, Budget(maximum, ViewOf(c).groups), pressure, ViewOf(c), c.inventory)
                  .transitions|
    ensures var r := Decide(ViewOf(c).groups, Budget(maximum, ViewOf(c).groups), pressure, ViewOf(c), c.inventory)
                     .transitions[k];
            exists g :: g in c.groups && g.id == r.group && Warranted(g, r, Since(pressure, g.id), ViewOf(c))
  {
    hide ValidCycle, Decide, Warranted, CountsValid, ValidGroup, DistinctGroups;
    CycleRows(c);
    var v := ViewOf(c);
    SameElements(v.groups, c.groups);
    TransitionsWarranted(v.groups, Budget(maximum, v.groups), pressure, v, c.inventory, k);
    var r := Decide(v.groups, Budget(maximum, v.groups), pressure, v, c.inventory).transitions[k];
    var i :| 0 <= i < |v.groups| && v.groups[i].id == r.group
             && Warranted(v.groups[i], r, Since(pressure, v.groups[i].id), v);
    assert v.groups[i] in c.groups;
  }

  // ------------------------------------------------------------ histories are restorable

  lemma {:induction false} EvaluatedLater(states: seq<EngineState>, cycles: seq<Cycle>, k: nat, n: nat)
    requires IsHistory(states, cycles) && k < n < |states|
    ensures 0 < cycles[k].now <= states[n].lastEvaluatedAt
    decreases n
  {
    hide ValidCycle, AfterCycle;
    HistoryAt(states, cycles, n - 1);
    AfterIsNow(states[n - 1], cycles[n - 1]);
    if k < n - 1 {
      EvaluatedLater(states, cycles, k, n - 1);
    }
  }

  lemma AfterIsNow(s: EngineState, c: Cycle)
    requires ValidCycle(c)
    ensures AfterCycle(s, c).lastEvaluatedAt == c.now > 0
  {
  }

  lemma SuppliedIsNamed(c: Cycle, id: string)
    requires ValidCycle(c) && DistinctGroups(c.groups) && CycleSupplies(c, id)
    ensures id != ""
  {
    hide CountsValid;
    CycleRows(c);
    hide ValidCycle;
  }

  lemma HistoryRestorable(states: seq<EngineState>, cycles: seq<Cycle>, n: nat, now: Time)
    requires IsHistory(states, cycles) && n < |states| && states[n].lastEvaluatedAt <= now
    ensures Restorable(states[n], now)
  {
    hide ValidCycle, AfterCycle, CycleSupplies, CyclePresses;
    forall g | g in states[n].pressureSince
      ensures g != "" && 0 < states[n].pressureSince[g] <= states[n].lastEvaluatedAt
    {
      PressureOrigin(states, cycles, n, g);
      var k :| 0 <= k < n && cycles[k].now == states[n].pressureSince[g] && UnbrokenFrom(states, cycles, g, k, n);
      EvaluatedLater(states, cycles, k, n);
      HistoryAt(states, cycles, k);
      SuppliedIsNamed(cycles[k], g);
    }
  }

  // --------------------------------------------------------- windows are exactly histories

  lemma HeldStep(s: EngineState, c: Cycle, id: string)
    requires ValidCycle(c) && DistinctGroups(c.groups) && CyclePresses(c, id, s.lastEvaluatedAt)
    requires id in s.pressureSince || CycleSupplies(c, id)
    ensures id in AfterCycle(s, c).pressureSince
    ensures AfterCycle(s, c).pressureSince[id] == if id in s.pressureSince then s.pressureSince[id] else c.now
  {
    CycleGroups(c);
    hide ValidCycle, Pressing, Supplies, Windows;
    var v := ViewOf(c);
    SortedDistinct(v.groups);
    WindowsAt(s.pressureSince, v.groups, s.lastEvaluatedAt, v, id);
  }

  lemma {:induction false} PressureHeld(states: seq<EngineState>, cycles: seq<Cycle>, id: string, k: nat, n: nat)
    requires IsHistory(states, cycles) && n <= |cycles|
    requires forall i :: 0 <= i < |cycles| ==> DistinctGroups(cycles[i].groups)
    requires UnbrokenFrom(states, cycles, id, k, n)
    ensures id in states[n].pressureSince && states[n].pressureSince[id] <= cycles[k].now
    decreases n
  {
    hide ValidCycle, CyclePresses, CycleSupplies, AfterCycle, DistinctGroups;
    HistoryAt(states, cycles, n - 1);
    hide IsHistory;
    if k < n - 1 {
      PressureHeld(states, cycles, id, k, n - 1);
    } else if id in states[k].pressureSince {
      PressureOrigin(states, cycles, k, id);
      var j :| 0 <= j < k && cycles[j].now == states[k].pressureSince[id] && UnbrokenFrom(states, cycles, id, j, k);
      EvaluatedLater(states, cycles, j, n);
      AfterIsNow(states[k], cycles[k]);
    }
    HeldStep(states[n - 1], cycles[n - 1], id);
  }

  /** A window is open exactly when the pressure is unbroken from some cycle on, and then
      since the earliest such cycle. */
  lemma WindowExactly(states: seq<EngineState>, cycles: seq<Cycle>, n: nat, id: string)
    requires IsHistory(states, cycles) && n <= |cycles|
    ensures forall i :: 0 <= i < |cycles| ==> DistinctGroups(cycles[i].groups)
    ensures id in states[n].pressureSince <==> exists k :: 0 <= k < n && UnbrokenFrom(states, cycles, id, k, n)
    ensures id in states[n].pressureSince ==>
              && (exists k :: 0 <= k < n && UnbrokenFrom(states, cycles, id, k, n)
                              && cycles[k].now == states[n].pressureSince[id])
              && (forall k :: 0 <= k < n && UnbrokenFrom(states, cycles, id, k, n) ==>
                    states[n].pressureSince[id] <= cycles[k].now)
  {
    HistoryGroups(states, cycles);
    hide ValidCycle, CyclePresses, CycleSupplies, AfterCycle, DistinctGroups, UnbrokenFrom;
    forall k | 0 <= k < n && UnbrokenFrom(states, cycles, id, k, n)
      ensures id in states[n].pressureSince && states[n].pressureSince[id] <= cycles[k].now
    {
      PressureHeld(states, cycles, id, k, n);
    }
    if id in states[n].pressureSince {
      PressureOrigin(states, cycles, n, id);
    }
  }

  // ------------------------------------------------------------ and the other way round

  const LENIENT := GroupPolicy(1, 1, 0, 0.0, 1, 1, 0, 1)
  const FULL := Resources(Known(1.0), Known(1.0), Known(1.0), Known(1.0))
  const UNUSED := Resources(Known(0.0), Known(0.0), Known(0.0), Known(0.0))
  const ONES := Amounts(1.0, 1.0, 1.0, 1.0)

  function BusyGroup(id: string): Group {
    Group(id, ["b"], LENIENT, 0, 0, None)
  }

  function BusySample(id: string, at: Time): GroupSample {
    GroupSample(id, "b", at, UNUSED, Known(0.0), Known(0.0))
  }

  /** A cycle in which the listed groups share one broker at its limits. */
  function Busy(ids: seq<string>, at: Time): Cycle {
    Cycle(at, at, [BrokerSample("b", at, FULL)], seq(|ids|, i requires 0 <= i < |ids| => BusySample(ids[i], at)),
          [Broker("b", ONES, true, {})], seq(|ids|, i requires 0 <= i < |ids| => BusyGroup(ids[i])))
  }

  predicate Names(ids: seq<string>) {
    NoDuplicates(ids) && forall i :: 0 <= i < |ids| ==> ids[i] != ""
  }

  lemma BusyGroupValid(id: string, at: Time)
    requires id != ""
    ensures ValidGroup(BusyGroup(id), at, [Broker("b", ONES, true, {})])
  {
    var inventory := [Broker("b", ONES, true, {})];
    assert ListsBroker(inventory, "b") by { assert inventory[0].id == "b"; }
    assert ValidPolicy(LENIENT);
    hide ListsBroker, ValidPolicy;
    var g := BusyGroup(id);
    assert |g.membership| == 1 && g.membership[0] == "b" && g.policy.maximum == 1;
    assert NoDuplicates(g.membership);
  }

  lemma BusySampleValid(ids: seq<string>, at: Time, i: nat)
    requires Names(ids) && at > 0 && i < |ids|
    ensures ValidGroupSample(BusySample(ids[i], at), Busy(ids, at))
  {
    var c := Busy(ids, at);
    assert c.inventory[0].id == "b" && c.groups[i].id == ids[i];
  }

  lemma BusyDistinct(ids: seq<string>, at: Time)
    requires Names(ids)
    ensures DistinctSamples(Busy(ids, at).samples) && DistinctGroups(Busy(ids, at).groups)
  {
    var c := Busy(ids, at);
    assert forall i :: 0 <= i < |ids| ==> c.samples[i].group == ids[i] && c.groups[i].id == ids[i];
  }

  lemma BusyValid(ids: seq<string>, at: Time)
    requires Names(ids) && at > 0
    ensures ValidCycle(Busy(ids, at))
  {
    var c := Busy(ids, at);
    BusyDistinct(ids, at);
    assert ValidBrokerSample(c.brokers[0], c) by { assert c.inventory[0].id == "b"; }
    hide ValidGroupSample, ValidGroup, DistinctSamples, DistinctGroups, ValidBrokerSample;
    forall i | 0 <= i < |c.samples| ensures ValidGroupSample(c.samples[i], c) {
      BusySampleValid(ids, at, i);
    }
    forall i | 0 <= i < |c.groups| ensures ValidGroup(c.groups[i], c.now, c.inventory) {
      BusyGroupValid(ids[i], at);
    }
  }

  predicate AllBusy(groups: seq<Group>, v: View) {
    forall i :: 0 <= i < |groups| ==>
      groups[i] == BusyGroup(groups[i].id) && (groups[i].id, "b") in v.samples
      && v.samples[(groups[i].id, "b")] == BusySample(groups[i].id, v.now)
  }

  lemma {:induction false} BusyTally(groups: seq<Group>, v: View)
    requires AllBusy(groups, v)
    ensures TallyGroups(groups, "b", v.now, v) == Tally(v.now, false, false, ZERO)
  {
    if groups != [] {
      var rest := groups[..|groups| - 1];
      assert forall i :: 0 <= i < |rest| ==> groups[i] == rest[i];
      BusyTally(rest, v);
    }
  }

  predicate BusyView(v: View) {
    && AllBusy(v.groups, v)
    && v.brokers == map["b" := BrokerSample("b", v.now, FULL)] && v.inventory == map["b" := Broker("b", ONES, true, {})]
  }

  lemma BusyBroker(v: View)
    requires BusyView(v)
    ensures AssessBroker("b", v) == BrokerAssessment(KnownTelemetry, v.now, ONES)
  {
    BusyTally(v.groups, v);
    hide TallyGroups, MaxAge, AllBusy;
  }

  lemma BusySaturated(v: View, i: nat)
    requires BusyView(v) && i < |v.groups|
    ensures Saturated(v.groups[i], v) && forall last: Time :: last < v.now ==> NewerThan(v.groups[i], v, last)
  {
    BusyBroker(v);
    hide AssessBroker;
    var g := v.groups[i];
    assert g.membership == ["b"] && ["b"][..0] == [];
    assert SumMembers(["b"], g, v) == Sum(false, false, ONES, 0.0, 0.0);
  }

  lemma BusyRow(ids: seq<string>, at: Time, g: Group)
    requires Names(ids) && g in Busy(ids, at).groups
    ensures g.id in ids && g == BusyGroup(g.id)
    ensures (g.id, "b") in ByGroup(Busy(ids, at).samples)
            && ByGroup(Busy(ids, at).samples)[(g.id, "b")] == BusySample(g.id, at)
  {
    var c := Busy(ids, at);
    BusyDistinct(ids, at);
    ByGroupIs(c.samples);
    hide ByGroup, DistinctSamples, DistinctGroups, Names;
    var k :| 0 <= k < |c.groups| && c.groups[k] == g;
    assert c.samples[k] == BusySample(ids[k], at);
  }

  lemma BusySupplies(ids: seq<string>, at: Time, groups: seq<Group>)
    requires Names(ids) && forall g :: g in groups <==> g in Busy(ids, at).groups
    ensures forall id :: Supplies(groups, id) <==> id in ids
  {
    var c := Busy(ids, at);
    forall id | id in ids ensures Supplies(groups, id) {
      var k :| 0 <= k < |ids| && ids[k] == id;
      assert c.groups[k] in groups;
      var i :| 0 <= i < |groups| && groups[i] == c.groups[k];
      assert groups[i].id == id;
    }
    forall id | Supplies(groups, id) ensures id in ids {
      var i :| 0 <= i < |groups| && groups[i].id == id;
      BusyRow(ids, at, groups[i]);
    }
  }

  lemma BusyRows(ids: seq<string>, at: Time)
    requires Names(ids)
    ensures DistinctGroups(Busy(ids, at).groups) && BusyView(ViewOf(Busy(ids, at))) && ViewOf(Busy(ids, at)).now == at
    ensures forall id :: Supplies(ViewOf(Busy(ids, at)).groups, id) <==> id in ids
  {
    var c := Busy(ids, at);
    BusyDistinct(ids, at);
    SameElements(ViewOf(c).groups, c.groups);
    BusyMaps(ids, at);
    hide ByGroup, ByBroker, ById, SortGroups, Names, DistinctGroups, DistinctSamples, Supplies;
    var v := ViewOf(c);
    BusySupplies(ids, at, v.groups);
    forall i | 0 <= i < |v.groups|
      ensures v.groups[i] == BusyGroup(v.groups[i].id)
              && (v.groups[i].id, "b") in v.samples
              && v.samples[(v.groups[i].id, "b")] == BusySample(v.groups[i].id, v.now)
    {
      BusyRow(ids, at, v.groups[i]);
    }
  }

  lemma BusyMaps(ids: seq<string>, at: Time)
    ensures ByBroker(Busy(ids, at).brokers) == map["b" := BrokerSample("b", at, FULL)]
    ensures ById(Busy(ids, at).inventory) == map["b" := Broker("b", ONES, true, {})]
  {
    var b, i := Busy(ids, at).brokers, Busy(ids, at).inventory;
    assert b[..0] == [] && i[..0] == [];
  }

  /** The windows, with one opened for each of the listed groups. */
  function Joined(pressure: map<string, Time>, ids: seq<string>, at: Time): map<string, Time> {
    map id | id in pressure.Keys + (set x | x in ids) :: if id in ids then at else pressure[id]
  }

  lemma BusyWindows(pressure: map<string, Time>, ids: seq<string>, v: View, last: Time)
    requires BusyView(v) && last < v.now && DistinctGroups(v.groups) && (forall id :: Supplies(v.groups, id) <==>
                                                                         id in ids)
    requires forall i :: 0 <= i < |ids| ==> ids[i] !in pressure
    ensures Windows(pressure, v.groups, last, v) == Joined(pressure, ids, v.now)
  {
    hide Windows, BusyView, Supplies, Pressing, DistinctGroups;
    var after := Windows(pressure, v.groups, last, v);
    forall id ensures id in after <==> id in ids || id in pressure
              ensures id in after ==> after[id] == if id in ids then v.now else pressure[id]
    {
      WindowsAt(pressure, v.groups, last, v, id);
      BusyPresses(v, id, last);
    }
  }

  lemma AfterBusy(s: EngineState, ids: seq<string>, at: Time)
    requires Names(ids) && s.lastEvaluatedAt < at && forall i :: 0 <= i < |ids| ==> ids[i] !in s.pressureSince
    ensures ValidCycle(Busy(ids, at)) && Busy(ids, at).now == at
    ensures AfterCycle(s, Busy(ids, at)) == EngineState(at, Joined(s.pressureSince, ids, at))
  {
    BusyValid(ids, at);
    BusyRows(ids, at);
    SortedDistinct(ViewOf(Busy(ids, at)).groups);
    hide ValidCycle, BusyView, ViewOf, DistinctGroups, Supplies, Windows, Joined, Names;
    BusyWindows(s.pressureSince, ids, ViewOf(Busy(ids, at)), s.lastEvaluatedAt);
  }

  lemma BusyPresses(v: View, id: string, last: Time)
    requires BusyView(v) && last < v.now
    ensures Pressing(v.groups, id, last, v)
  {
    hide Saturated, NewerThan, BusyView;
    forall i | 0 <= i < |v.groups| ensures Saturated(v.groups[i], v) && NewerThan(v.groups[i], v, last) {
      BusySaturated(v, i);
    }
  }

  lemma {:induction false} Listed(ids: set<string>) returns (s: seq<string>)
    ensures NoDuplicates(s) && forall id :: id in s <==> id in ids
  {
    if ids == {} {
      s := [];
    } else {
      var id :| id in ids;
      var rest := Listed(ids - {id});
      s := rest + [id];
    }
  }

  lemma HistoryGrows(states: seq<EngineState>, cycles: seq<Cycle>, c: Cycle)
    requires IsHistory(states, cycles) && ValidCycle(c) && states[|cycles|].lastEvaluatedAt < c.now
    ensures IsHistory(states + [AfterCycle(states[|cycles|], c)], cycles + [c])
  {
    hide ValidCycle, AfterCycle;
  }

  /** A history that ends in the given windows, with a cycle at every instant. */
  lemma {:induction false} Reach(pressure: map<string, Time>, last: Time)
    returns (states: seq<EngineState>, cycles: seq<Cycle>)
    requires forall id :: id in pressure ==> id != "" && 0 < pressure[id] <= last
    ensures IsHistory(states, cycles) && |states| == |cycles| + 1 && states[|cycles|] == EngineState(last, pressure)
    decreases last
  {
    hide ValidCycle, AfterCycle;
    if last == 0 {
      assert pressure == map[];
      states, cycles := [EngineState(0, map[])], [];
    } else {
      var now := set id | id in pressure && pressure[id] == last;
      var earlier := pressure - now;
      states, cycles := Reach(earlier, last - 1);
      var ids := Listed(now);
      assert Names(ids) && forall i :: 0 <= i < |ids| ==> ids[i] !in earlier by {
        assert forall i :: 0 <= i < |ids| ==> ids[i] in now;
      }
      AfterBusy(states[|cycles|], ids, last);
      HistoryGrows(states, cycles, Busy(ids, last));
      hide IsHistory, Busy;
      var next := AfterCycle(states[|cycles|], Busy(ids, last));
      assert next.pressureSince == pressure;
      states, cycles := states + [next], cycles + [Busy(ids, last)];
    }
  }

  /** What an engine accepts to be restored by some time is exactly what some history of
      valid cycles up to that time leads to. */
  lemma RestorableExact(state: EngineState, now: Time)
    ensures Restorable(state, now) <==>
              state.lastEvaluatedAt <= now
              && exists states: seq<EngineState>, cycles: seq<Cycle> :: IsHistory(states, cycles)
                                                                        && |states| == |cycles| + 1
                                                                           && states[|cycles|] == state
  {
    hide IsHistory;
    if Restorable(state, now) {
      var states, cycles := Reach(state.pressureSince, state.lastEvaluatedAt);
      assert IsHistory(states, cycles) && |states| == |cycles| + 1 && states[|cycles|] == state;
    }
    if state.lastEvaluatedAt <= now {
      forall states: seq<EngineState>, cycles: seq<Cycle> | IsHistory(states, cycles) && |states| == |cycles| + 1
      && states[|cycles|] == state
        ensures Restorable(state, now)
      {
        HistoryRestorable(states, cycles, |cycles|, now);
      }
    }
  }
}
