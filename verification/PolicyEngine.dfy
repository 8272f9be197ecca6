/** The policy engine over its evaluation history: when pressure counts as sustained,
    how many transitions are admitted, and that no input order matters.
    Follows policy/engine.go and the loops of policy/aggregate.go. */
module PolicyEngine {
  import opened Control
  import opened Routing
  import opened Policy
  import opened PolicyMeaning
  import PolicyChecks

  // -------------------------------------------------------------- what one cycle does

  /** The pressure window of one group after a cycle that supplied it. */
  function Window(pressure: map<string, Time>, g: Group, lastAt: Time, v: View): map<string, Time> {
    if !Saturated(g, v) then pressure - {g.id}
    else if lastAt == 0 || NewerThan(g, v, lastAt) then
      if g.id in pressure then pressure else pressure[g.id := v.now]
    else pressure - {g.id}
  }

  function Windows(pressure: map<string, Time>, groups: seq<Group>, lastAt: Time, v: View): map<string, Time> {
    if groups == [] then pressure
    else Window(Windows(pressure, groups[..|groups| - 1], lastAt, v), groups[|groups| - 1], lastAt, v)
  }

  function Active(groups: seq<Group>): nat {
    if groups == [] then 0 else Active(groups[..|groups| - 1]) + groups[|groups| - 1].activeTransitions
  }

  function Budget(maximum: nat, groups: seq<Group>): nat {
    if Active(groups) < maximum then maximum - Active(groups) else 0
  }

  function Since(pressure: map<string, Time>, id: string): Time {
    if id in pressure then pressure[id] else 0
  }

  datatype Decision = Decision(groups: seq<Recommendation>, transitions: seq<Recommendation>)

  /** Groups in order, each change against what is left of the budget. */
  function Decide(groups: seq<Group>, budget: nat, pressure: map<string, Time>, v: View,
                  inventory: seq<Broker>): Decision {
    if groups == [] then Decision([], [])
    else
      var d, g := Decide(groups[..|groups| - 1], budget, pressure, v, inventory), groups[|groups| - 1];
      var r := Recommend(v.now, g, AssessGroup(g, v), inventory, Since(pressure, g.id));
      if r.Stay? then d.(groups := d.groups + [r])
      else if |d.transitions| < budget then Decision(d.groups + [r], d.transitions + [r])
      else d.(groups := d.groups + [Stay(g.id)])
  }

  /** The changes among the answers, in order. */
  function Changes(answers: seq<Recommendation>): seq<Recommendation> {
    if answers == [] then []
    else
      var rest, last := Changes(answers[..|answers| - 1]), answers[|answers| - 1];
      if last.Stay? then rest else rest + [last]
  }

  predicate IsWanted(r: Recommendation, g: Group, pressure: map<string, Time>, v: View, inventory: seq<Broker>) {
    IsAnswer(r, g, v, inventory, if g.id in pressure then pressure[g.id] else 0)
  }

  /** The answer a group would have on its own, unless the budget was used up before it. */
  ghost predicate IsGranted(r: Recommendation, g: Group, made: nat, budget: nat, pressure: map<string, Time>, v: View,
                            inventory: seq<Broker>) {
    exists wanted :: IsWanted(wanted, g, pressure, v, inventory) && r == if made < budget then wanted else Stay(g.id)
  }

  /** Each group, in order, has its answer as long as fewer changes than the budget were made
      before it, and none after that; the transitions are the changes made. */
  ghost predicate IsDecision(d: Decision, groups: seq<Group>, budget: nat, pressure: map<string, Time>, v: View,
                             inventory: seq<Broker>) {
    && |d.groups| == |groups| && d.transitions == Changes(d.groups)
    && forall i :: 0 <= i < |groups| ==>
         IsGranted(d.groups[i], groups[i], |Changes(d.groups[..i])|, budget, pressure, v, inventory)
  }

  lemma WantedIs(g: Group, pressure: map<string, Time>, v: View, inventory: seq<Broker>)
    requires ValidGroup(g, v.now, inventory) && CountsValid(v)
    requires forall k :: k in v.groups ==> k.policy.telemetryMaxAge > 0
    ensures var r := Recommend(v.now, g, AssessGroup(g, v), inventory, Since(pressure, g.id));
            IsWanted(r, g, pressure, v, inventory) && (r.Stay? ==> r == Stay(g.id))
  {
    RecommendExactly(g, v, inventory, Since(pressure, g.id));
    RecommendationBounded(v.now, g, AssessGroup(g, v), inventory, Since(pressure, g.id));
    hide IsAnswer, Recommend, AssessGroup, ValidGroup;
  }

  lemma DecisionGrows(d: Decision, g: Group, r: Recommendation, groups: seq<Group>, budget: nat,
                      pressure: map<string, Time>, v: View, inventory: seq<Broker>)
    requires IsDecision(d, groups, budget, pressure, v, inventory)
    requires IsGranted(r, g, |d.transitions|, budget, pressure, v, inventory)
    ensures IsDecision(Decision(d.groups + [r], if r.Stay? then d.transitions else d.transitions + [r]), groups + [g],
                       budget, pressure, v, inventory)
  {
    hide IsGranted;
    var answers, all := d.groups + [r], groups + [g];
    assert answers[..|d.groups|] == d.groups;
    forall i | 0 <= i < |all|
      ensures IsGranted(answers[i], all[i], |Changes(answers[..i])|, budget, pressure, v, inventory)
    {
      if i < |groups| {
        assert answers[..i] == d.groups[..i] && answers[i] == d.groups[i] && all[i] == groups[i];
      }
    }
  }

  /** What is decided, exactly. */
  lemma {:induction false} DecideExactly(groups: seq<Group>, budget: nat, pressure: map<string, Time>, v: View,
                                         inventory: seq<Broker>)
    requires (forall i :: 0 <= i < |groups| ==> ValidGroup(groups[i], v.now, inventory)) && CountsValid(v)
    requires forall k :: k in v.groups ==> k.policy.telemetryMaxAge > 0
    ensures IsDecision(Decide(groups, budget, pressure, v, inventory), groups, budget, pressure, v, inventory)
    ensures |Decide(groups, budget, pressure, v, inventory).transitions| <= budget
  {
    hide ValidGroup, CountsValid, Recommend, AssessGroup, IsWanted;
    if groups != [] {
      var rest, g := groups[..|groups| - 1], groups[|groups| - 1];
      DecideExactly(rest, budget, pressure, v, inventory);
      var d := Decide(rest, budget, pressure, v, inventory);
      var wanted := Recommend(v.now, g, AssessGroup(g, v), inventory, Since(pressure, g.id));
      WantedIs(g, pressure, v, inventory);
      var r := if |d.transitions| < budget then wanted else Stay(g.id);
      assert IsGranted(r, g, |d.transitions|, budget, pressure, v, inventory);
      DecisionGrows(d, g, r, rest, budget, pressure, v, inventory);
      assert groups == rest + [g];
      hide IsDecision;
    }
  }

  // ------------------------------------------------------------------------ the loops

  method MeasureBroker(id: string, v: View) returns (a: BrokerAssessment)
    ensures a == AssessBroker(id, v)
  {
    hide Utilization, Larger, Plus;
    if id !in v.brokers || id !in v.inventory || !Positive(v.inventory[id].limits) {
      return BrokerAssessment(UnknownTelemetry, 0, ZERO);
    }
    var sample := v.brokers[id];
    var observedAt, stale, unknown, total, age := sample.observedAt, false, false, ZERO, 0;
    for i := 0 to |v.groups|
      invariant TallyGroups(v.groups[..i], id, sample.observedAt, v) == Tally(observedAt, stale, unknown, total)
      invariant MaxAge(v.groups[..i], id) == age
    {
      assert v.groups[..i + 1][..i] == v.groups[..i];
      var g := v.groups[i];
      if id in g.membership {
        if age == 0 || g.policy.telemetryMaxAge < age {
          age := g.policy.telemetryMaxAge;
        }
        if (g.id, id) !in v.samples {
          unknown := true;
        } else {
          var s := v.samples[(g.id, id)];
          if s.observedAt < observedAt {
            observedAt := s.observedAt;
          }
          if v.now > s.observedAt + g.policy.telemetryMaxAge {
            stale := true;
          }
          if AllKnown(s.resources) {
            total := Plus(total, Values(s.resources));
          } else {
            unknown := true;
          }
        }
      }
    }
    assert v.groups[..|v.groups|] == v.groups;
    if stale || (age != 0 && v.now > sample.observedAt + age) {
      return BrokerAssessment(StaleTelemetry, observedAt, ZERO);
    }
    if unknown || !AllKnown(sample.resources) {
      return BrokerAssessment(UnknownTelemetry, observedAt, ZERO);
    }
    var limits := v.inventory[id].limits;
    return BrokerAssessment(KnownTelemetry, observedAt,
                            Larger(Utilization(Values(sample.resources), limits), Utilization(total, limits)));
  }

  method MeasureGroup(g: Group, v: View) returns (a: GroupAssessment)
    ensures a == AssessGroup(g, v)
  {
    hide AssessBroker, Larger, Peak;
    var stale, unknown, shared, queued, unacked := false, false, ZERO, 0.0, 0.0;
    for i := 0 to |g.membership|
      invariant SumMembers(g.membership[..i], g, v) == Sum(stale, unknown, shared, queued, unacked)
    {
      assert g.membership[..i + 1][..i] == g.membership[..i];
      var id := g.membership[i];
      var broker := MeasureBroker(id, v);
      if broker.state == StaleTelemetry {
        stale := true;
      }
      if broker.state == UnknownTelemetry {
        unknown := true;
      }
      shared := Larger(shared, broker.shared);
      if (g.id, id) !in v.samples {
        unknown := true;
      } else {
        var s := v.samples[(g.id, id)];
        if v.now > s.observedAt + g.policy.telemetryMaxAge {
          stale := true;
        }
        if !AllKnown(s.resources) {
          unknown := true;
        }
        if s.queued.Known? && s.unacked.Known? {
          queued, unacked := queued + s.queued.value, unacked + s.unacked.value;
        } else {
          unknown := true;
        }
      }
    }
    assert g.membership[..|g.membership|] == g.membership;
    if stale {
      return GroupAssessment(StaleTelemetry, PressureUnknown);
    }
    if unknown || |g.membership| == 0 {
      return GroupAssessment(UnknownTelemetry, PressureUnknown);
    }
    if Peak(shared) >= Threshold(g.policy) {
      return GroupAssessment(KnownTelemetry, BrokerSaturation);
    }
    if queued > 0.0 || unacked > 0.0 {
      return GroupAssessment(KnownTelemetry, DownstreamBacklog);
    }
    return GroupAssessment(KnownTelemetry, PressureNone);
  }

  method CheckNewer(g: Group, v: View, after: Time) returns (ok: bool)
    ensures ok <==> NewerThan(g, v, after)
  {
    hide AssessBroker;
    for i := 0 to |g.membership|
      invariant forall k :: 0 <= k < i ==> AssessBroker(g.membership[k], v).observedAt > after
    {
      var a := MeasureBroker(g.membership[i], v);
      if a.observedAt <= after {
        return false;
      }
    }
    return true;
  }

  datatype EngineState = EngineState(lastEvaluatedAt: Time, pressureSince: map<string, Time>)

  class Engine {
    const maxConcurrentTransitions: nat
    var pressure: map<string, Time>
    var lastAt: Time

    constructor (maximum: nat)
      requires maximum >= 1
      ensures maxConcurrentTransitions == maximum && pressure == map[] && lastAt == 0
    {
      maxConcurrentTransitions := maximum;
      pressure := map[];
      lastAt := 0;
    }

    function State(): EngineState
      reads this
    {
      EngineState(lastAt, pressure)
    }

    /** Accepts exactly the states an engine can have had by that time. */
    method RestoreState(state: EngineState, now: Time) returns (ok: bool)
      modifies this
      ensures ok <==> now != 0 && Restorable(state, now)
      ensures ok ==> State() == state
      ensures !ok ==> State() == old(State())
    {
      if now == 0 || state.lastEvaluatedAt > now || (state.lastEvaluatedAt == 0 && state.pressureSince != map[]) {
        return false;
      }
      if exists g :: g in state.pressureSince && !(g != "" && 0 < state.pressureSince[g] <= state.lastEvaluatedAt) {
        return false;
      }
      lastAt, pressure := state.lastEvaluatedAt, state.pressureSince;
      return true;
    }

    /** One cycle. An invalid or repeated one changes nothing. */
    method Evaluate(c: Cycle) returns (r: Option<Decision>)
      modifies this
      ensures r.Some? <==> (old(lastAt) == 0 || c.now > old(lastAt)) && ValidCycle(c)
      ensures r.Some? ==>
                var v := ViewOf(c);
                && pressure == Windows(old(pressure), v.groups, old(lastAt), v) && lastAt == c.now
                && r.value == Decide(v.groups, Budget(maxConcurrentTransitions, v.groups), pressure, v, c.inventory)
                && IsDecision(r.value, v.groups, Budget(maxConcurrentTransitions, v.groups), pressure, v, c.inventory)
      ensures r.None? ==> State() == old(State())
    {
      hide ValidCycle;
      var valid := PolicyChecks.CheckCycle(c);
      if (lastAt != 0 && c.now <= lastAt) || !valid {
        return None;
      }
      CycleGroups(c);
      hide ViewOf, Decide, Windows, IsDecision;
      var v := ViewOf(c);
      ViewValid(c);
      var next := AdvanceWindows(v);
      var decision := Admit(v, next, c.inventory);
      DecideExactly(v.groups, Budget(maxConcurrentTransitions, v.groups), next, v, c.inventory);
      pressure, lastAt := next, c.now;
      return Some(decision);
    }

    method AdvanceWindows(v: View) returns (next: map<string, Time>)
      ensures next == Windows(pressure, v.groups, lastAt, v)
    {
      hide AssessGroup, NewerThan;
      next := pressure;
      for i := 0 to |v.groups|
        invariant next == Windows(pressure, v.groups[..i], lastAt, v)
      {
        assert v.groups[..i + 1][..i] == v.groups[..i];
        var g := v.groups[i];
        var a := MeasureGroup(g, v);
        if a.state == KnownTelemetry && a.pressure == BrokerSaturation {
          var renewed := lastAt == 0;
          if !renewed {
            renewed := CheckNewer(g, v, lastAt);
          }
          if g.id !in next && renewed {
            next := next[g.id := v.now];
          } else if g.id in next && !renewed {
            next := next - {g.id};
          }
          assert !renewed && g.id !in next ==> next - {g.id} == next;
        } else {
          next := next - {g.id};
        }
      }
      assert v.groups[..|v.groups|] == v.groups;
    }

    method Admit(v: View, windows: map<string, Time>, inventory: seq<Broker>) returns (d: Decision)
      ensures d == Decide(v.groups, Budget(maxConcurrentTransitions, v.groups), windows, v, inventory)
    {
      hide AssessGroup, Recommend;
      var active := 0;
      for i := 0 to |v.groups|
        invariant active == Active(v.groups[..i])
      {
        assert v.groups[..i + 1][..i] == v.groups[..i];
        active := active + v.groups[i].activeTransitions;
      }
      assert v.groups[..|v.groups|] == v.groups;
      ghost var budget := Budget(maxConcurrentTransitions, v.groups);
      var free: nat := if active < maxConcurrentTransitions then maxConcurrentTransitions - active else 0;
      d := Decision([], []);
      for i := 0 to |v.groups|
        invariant d == Decide(v.groups[..i], budget, windows, v, inventory)
        invariant free + |d.transitions| == budget
      {
        assert v.groups[..i + 1][..i] == v.groups[..i];
        var g := v.groups[i];
        var a := MeasureGroup(g, v);
        var r := Recommend(v.now, g, a, inventory, Since(windows, g.id));
        if r.Stay? {
          d := d.(groups := d.groups + [r]);
        } else if free > 0 {
          free := free - 1;
          d := Decision(d.groups + [r], d.transitions + [r]);
        } else {
          d := d.(groups := d.groups + [Stay(g.id)]);
        }
      }
      assert v.groups[..|v.groups|] == v.groups;
    }
  }

  predicate Restorable(state: EngineState, now: Time) {
    && state.lastEvaluatedAt <= now
    && forall g :: g in state.pressureSince ==> g != "" && 0 < state.pressureSince[g] <= state.lastEvaluatedAt
  }

  lemma ViewValid(c: Cycle)
    requires ValidCycle(c)
    ensures DistinctGroups(c.groups)
    ensures var v := ViewOf(c);
            && v.now == c.now && CountsValid(v) && (forall k :: k in v.groups ==> k.policy.telemetryMaxAge > 0)
            && (forall i :: 0 <= i < |v.groups| ==> ValidGroup(v.groups[i], v.now, c.inventory))
  {
    CycleRows(c);
    hide ValidCycle, SortGroups, ByBroker, ByGroup, ById, CountsValid;
    forall k | k in ViewOf(c).groups ensures k.policy.telemetryMaxAge > 0 {
      var i :| 0 <= i < |ViewOf(c).groups| && ViewOf(c).groups[i] == k;
      assert ValidGroup(ViewOf(c).groups[i], c.now, c.inventory);
    }
  }

  lemma CycleGroups(c: Cycle)
    requires ValidCycle(c)
    ensures DistinctGroups(c.groups)
  {
  }

  // --------------------------------------------------------- admitted transitions

  /** No more transitions than the free budget, each a bounded change of a supplied
      group that has none in progress. */
  lemma {:induction false} DecisionBounded(groups: seq<Group>, budget: nat, pressure: map<string, Time>, v: View,
                                           inventory: seq<Broker>)
    requires forall i :: 0 <= i < |groups| ==> ValidGroup(groups[i], v.now, inventory)
    ensures var d := Decide(groups, budget, pressure, v, inventory);
            && |d.transitions| <= budget && |d.groups| == |groups|
            && (forall i :: 0 <= i < |groups| ==> d.groups[i].group == groups[i].id)
            && (forall k :: 0 <= k < |d.transitions| ==> Admitted(groups, d.transitions[k], pressure, v, inventory))
  {
    hide ValidGroup, AssessGroup, Recommend, WellBounded;
    if groups != [] {
      var rest, g := groups[..|groups| - 1], groups[|groups| - 1];
      DecisionBounded(rest, budget, pressure, v, inventory);
      RecommendationBounded(v.now, g, AssessGroup(g, v), inventory, Since(pressure, g.id));
      var d := Decide(groups, budget, pressure, v, inventory);
      forall k | 0 <= k < |d.transitions| ensures Admitted(groups, d.transitions[k], pressure, v, inventory) {
        if k < |Decide(rest, budget, pressure, v, inventory).transitions| {
          var i :| 0 <= i < |rest| && AdmittedFor(rest[i], d.transitions[k], pressure, v, inventory);
          assert groups[i] == rest[i];
        } else {
          assert AdmittedFor(groups[|groups| - 1], d.transitions[k], pressure, v, inventory);
        }
      }
    }
  }

  predicate AdmittedFor(g: Group, r: Recommendation, pressure: map<string, Time>, v: View, inventory: seq<Broker>) {
    && r == Recommend(v.now, g, AssessGroup(g, v), inventory, Since(pressure, g.id)) && !r.Stay?
    && r.group == g.id && WellBounded(g, r, inventory)
  }

  predicate Admitted(groups: seq<Group>, r: Recommendation, pressure: map<string, Time>, v: View,
                     inventory: seq<Broker>) {
    exists i :: 0 <= i < |groups| && AdmittedFor(groups[i], r, pressure, v, inventory)
  }

  /** Every transition that a cycle decides on is for a supplied group and warranted by
      what the cycle measured of it. */
  lemma TransitionsWarranted(groups: seq<Group>, budget: nat, pressure: map<string, Time>, v: View,
                             inventory: seq<Broker>, k: nat)
    requires (forall i :: 0 <= i < |groups| ==> ValidGroup(groups[i], v.now, inventory)) && CountsValid(v)
    requires k < |Decide(groups, budget, pressure, v, inventory).transitions|
    ensures var r := Decide(groups, budget, pressure, v, inventory).transitions[k];
            exists i :: 0 <= i < |groups| && groups[i].id == r.group
                        && Warranted(groups[i], r, Since(pressure, groups[i].id), v)
  {
    hide ValidGroup, AssessGroup, Recommend, WellBounded, Warranted, Decide, CountsValid;
    DecisionBounded(groups, budget, pressure, v, inventory);
    var r := Decide(groups, budget, pressure, v, inventory).transitions[k];
    assert Admitted(groups, r, pressure, v, inventory);
    var i :| 0 <= i < |groups| && AdmittedFor(groups[i], r, pressure, v, inventory);
    RecommendationWarranted(groups[i], v, inventory, Since(pressure, groups[i].id));
  }

  // -------------------------------------------------------------- evaluation history

  function AfterCycle(s: EngineState, c: Cycle): EngineState
    requires ValidCycle(c)
  {
    EngineState(c.now, Windows(s.pressureSince, ViewOf(c).groups, s.lastEvaluatedAt, ViewOf(c)))
  }

  ghost predicate IsHistory(states: seq<EngineState>, cycles: seq<Cycle>) {
    && |states| == |cycles| + 1 && states[0] == EngineState(0, map[])
    && forall i :: 0 <= i < |cycles| ==>
         ValidCycle(cycles[i]) && cycles[i].now > states[i].lastEvaluatedAt
         && states[i + 1] == AfterCycle(states[i], cycles[i])
  }

  predicate Supplies(groups: seq<Group>, id: string) {
    exists i :: 0 <= i < |groups| && groups[i].id == id
  }

  /** Whatever the cycle says about the group, it is known, saturated and new. */
  predicate Pressing(groups: seq<Group>, id: string, lastAt: Time, v: View) {
    forall i :: 0 <= i < |groups| && groups[i].id == id ==> Saturated(groups[i], v)
                                                            && (lastAt == 0 || NewerThan(groups[i], v, lastAt))
  }

  /** How one cycle moves the window of one group. */
  lemma {:induction false} WindowsAt(pressure: map<string, Time>, groups: seq<Group>, lastAt: Time, v: View, id: string)
    requires DistinctGroups(groups)
    ensures var after := Windows(pressure, groups, lastAt, v);
            && (!Supplies(groups, id) ==> (id in after <==> id in pressure)
                                          && (id in pressure ==> after[id] == pressure[id]))
            && (Supplies(groups, id) ==> (id in after <==> Pressing(groups, id, lastAt, v)))
            && (Supplies(groups, id) && id in after ==> after[id] == if id in pressure then pressure[id] else v.now)
  {
    hide Saturated, NewerThan;
    if groups != [] {
      var rest, g := groups[..|groups| - 1], groups[|groups| - 1];
      WindowsAt(pressure, rest, lastAt, v, id);
      SuppliesNext(groups, id);
      PressingNext(groups, id, lastAt, v);
      hide Supplies, Pressing;
      if g.id == id {
        NotSuppliedBefore(groups, id, lastAt, v);
      }
    }
  }

  lemma SuppliesNext(groups: seq<Group>, id: string)
    requires groups != []
    ensures Supplies(groups, id) <==> Supplies(groups[..|groups| - 1], id) || groups[|groups| - 1].id == id
  {
    var rest := groups[..|groups| - 1];
    if Supplies(rest, id) {
      var i :| 0 <= i < |rest| && rest[i].id == id;
      assert groups[i] == rest[i];
    }
    if Supplies(groups, id) {
      var i :| 0 <= i < |groups| && groups[i].id == id;
      assert i < |rest| ==> rest[i] == groups[i];
    }
  }

  lemma PressingNext(groups: seq<Group>, id: string, lastAt: Time, v: View)
    requires groups != []
    ensures var rest, g := groups[..|groups| - 1], groups[|groups| - 1];
            Pressing(groups, id, lastAt, v) <==>
              Pressing(rest, id, lastAt, v)
              && (g.id == id ==> Saturated(g, v) && (lastAt == 0 || NewerThan(g, v, lastAt)))
  {
    hide Saturated, NewerThan;
    var rest := groups[..|groups| - 1];
    if Pressing(groups, id, lastAt, v) {
      forall i | 0 <= i < |rest| && rest[i].id == id
        ensures Saturated(rest[i], v) && (lastAt == 0 || NewerThan(rest[i], v, lastAt))
      {
        assert groups[i] == rest[i];
      }
    }
  }

  lemma NotSuppliedBefore(groups: seq<Group>, id: string, lastAt: Time, v: View)
    requires DistinctGroups(groups) && groups != [] && groups[|groups| - 1].id == id
    ensures !Supplies(groups[..|groups| - 1], id)
    ensures Pressing(groups[..|groups| - 1], id, lastAt, v)
  {
    var rest := groups[..|groups| - 1];
    forall i | 0 <= i < |rest| ensures rest[i].id != id {
      assert groups[i].id != groups[|groups| - 1].id;
    }
  }

  predicate CycleSupplies(c: Cycle, id: string)
    requires DistinctGroups(c.groups)
  {
    Supplies(ViewOf(c).groups, id)
  }

  predicate CyclePresses(c: Cycle, id: string, lastAt: Time)
    requires DistinctGroups(c.groups)
  {
    Pressing(ViewOf(c).groups, id, lastAt, ViewOf(c))
  }

  /** A cycle supplied the group, and from it on every cycle that supplied it found
      known telemetry, saturation and observations newer than the cycle before. */
  predicate UnbrokenFrom(states: seq<EngineState>, cycles: seq<Cycle>, id: string, k: nat, n: nat)
    requires |states| == |cycles| + 1 && n <= |cycles| && forall i :: 0 <= i < n ==> DistinctGroups(cycles[i].groups)
  {
    && k < n && CycleSupplies(cycles[k], id)
    && forall j :: k <= j < n ==> CyclePresses(cycles[j], id, states[j].lastEvaluatedAt)
  }

  /** What a window after a cycle says about that cycle. */
  lemma OriginStep(s: EngineState, c: Cycle, id: string)
    requires ValidCycle(c) && id in AfterCycle(s, c).pressureSince
    ensures DistinctGroups(c.groups) && CyclePresses(c, id, s.lastEvaluatedAt)
    ensures id in s.pressureSince ==> AfterCycle(s, c).pressureSince[id] == s.pressureSince[id]
    ensures id !in s.pressureSince ==> CycleSupplies(c, id) && AfterCycle(s, c).pressureSince[id] == c.now
  {
    CycleGroups(c);
    hide ValidCycle, Pressing, Supplies, Windows;
    var v := ViewOf(c);
    SortedDistinct(v.groups);
    WindowsAt(s.pressureSince, v.groups, s.lastEvaluatedAt, v, id);
    NotSuppliedPresses(v.groups, id, s.lastEvaluatedAt, v);
  }

  lemma SortedDistinct(s: seq<Group>)
    requires InOrder(s)
    ensures DistinctGroups(s)
  {
    forall i, j | 0 <= i < j < |s| ensures s[i].id != s[j].id {
      BeforeTotal(s[i].id, s[j].id);
    }
  }

  /** A pressure origin is the time of a cycle from which on the pressure of the group
      is unbroken. */
  lemma {:induction false} PressureOrigin(states: seq<EngineState>, cycles: seq<Cycle>, n: nat, id: string)
    requires IsHistory(states, cycles) && n <= |cycles| && id in states[n].pressureSince
    ensures forall i :: 0 <= i < |cycles| ==> DistinctGroups(cycles[i].groups)
    ensures exists k :: 0 <= k < n && cycles[k].now == states[n].pressureSince[id]
                        && UnbrokenFrom(states, cycles, id, k, n)
  {
    hide ValidCycle, CyclePresses, CycleSupplies, AfterCycle, DistinctGroups;
    HistoryGroups(states, cycles);
    if n > 0 {
      HistoryAt(states, cycles, n - 1);
      hide IsHistory;
      OriginStep(states[n - 1], cycles[n - 1], id);
      if id in states[n - 1].pressureSince {
        PressureOrigin(states, cycles, n - 1, id);
        var k :| 0 <= k < n - 1 && cycles[k].now == states[n - 1].pressureSince[id]
                 && UnbrokenFrom(states, cycles, id, k, n - 1);
        assert UnbrokenFrom(states, cycles, id, k, n);
      } else {
        assert UnbrokenFrom(states, cycles, id, n - 1, n);
      }
    }
  }

  lemma NotSuppliedPresses(groups: seq<Group>, id: string, lastAt: Time, v: View)
    ensures !Supplies(groups, id) ==> Pressing(groups, id, lastAt, v)
  {
  }

  lemma HistoryAt(states: seq<EngineState>, cycles: seq<Cycle>, i: nat)
    requires IsHistory(states, cycles) && i < |cycles|
    ensures ValidCycle(cycles[i]) && states[i + 1] == AfterCycle(states[i], cycles[i]) && |states| == |cycles| + 1
  {
    hide ValidCycle, AfterCycle;
  }

  lemma HistoryGroups(states: seq<EngineState>, cycles: seq<Cycle>)
    requires IsHistory(states, cycles)
    ensures forall i :: 0 <= i < |cycles| ==> DistinctGroups(cycles[i].groups)
  {
    forall i | 0 <= i < |cycles| ensures DistinctGroups(cycles[i].groups) {
      assert ValidCycle(cycles[i]);
    }
  }

  /** A scale-out for pressure needs a full unbroken window of it, up to and including
      the cycle that decides. */
  lemma PressureSustained(states: seq<EngineState>, cycles: seq<Cycle>, n: nat, g: Group, r: Recommendation)
    requires IsHistory(states, cycles) && n < |cycles| && DistinctGroups(cycles[n].groups)
    requires AdmittedFor(g, r, states[n + 1].pressureSince, ViewOf(cycles[n]), cycles[n].inventory) && r.ScaleOut?
             && r.forPressure
    ensures forall i :: 0 <= i < |cycles| ==> DistinctGroups(cycles[i].groups)
    ensures exists k :: 0 <= k <= n && cycles[n].now >= cycles[k].now + g.policy.pressureWindow
                        && UnbrokenFrom(states, cycles, g.id, k, n + 1)
  {
    HistoryGroups(states, cycles);
    assert Since(states[n + 1].pressureSince, g.id) != 0;
    hide IsHistory, UnbrokenFrom, AssessGroup;
    PressureOrigin(states, cycles, n + 1, g.id);
    var k :| 0 <= k < n + 1 && cycles[k].now == states[n + 1].pressureSince[g.id]
             && UnbrokenFrom(states, cycles, g.id, k, n + 1);
  }
}
