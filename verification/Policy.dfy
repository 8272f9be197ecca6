/** The capacity policy: assessing one telemetry cycle and recommending at most one
    membership change per group. Follows policy/aggregate.go, policy/types.go and the
    pure half of policy/engine.go. Measurements are reals; a broker carries the limits
    of its capacity profile. */
module Policy {
  import opened Control
  import opened Routing

  type Time = nat   // zero is a time that was never set

  // ------------------------------------------------------------------------ inputs

  datatype Metric = Known(value: real) | Unknown

  datatype Resources = Resources(ingress: Metric, egress: Metric, spool: Metric, connections: Metric)

  datatype Amounts = Amounts(ingress: real, egress: real, spool: real, connections: real)

  datatype BrokerSample = BrokerSample(broker: string, observedAt: Time, resources: Resources)

  datatype GroupSample = GroupSample(group: string, broker: string, observedAt: Time, resources: Resources,
                                     queued: Metric, unacked: Metric)

  datatype Broker = Broker(id: string, limits: Amounts, ready: bool, eligibleGroups: set<string>)

  datatype GroupPolicy = GroupPolicy(
    minimum: nat,
    maximum: nat,
    warm: nat,
    headroomPercent: real,
    pressureWindow: nat,
    telemetryMaxAge: nat,
    cooldown: nat,
    maxConcurrentChanges: nat)

  datatype Choice = Choice(broker: string, safe: bool, evidence: string)

  datatype Group = Group(
    id: string,
    membership: seq<string>,
    policy: GroupPolicy,
    activeTransitions: nat,
    lastTransitionAt: Time,
    choice: Option<Choice>)

  datatype Cycle = Cycle(
    now: Time,
    capturedAt: Time,
    brokers: seq<BrokerSample>,
    samples: seq<GroupSample>,
    inventory: seq<Broker>,
    groups: seq<Group>)

  // -------------------------------------------------------------------- validation

  predicate ValidMetric(m: Metric) {
    m.Known? ==> m.value >= 0.0
  }

  predicate ValidUsage(r: Resources) {
    ValidMetric(r.ingress) && ValidMetric(r.egress) && ValidMetric(r.spool) && ValidMetric(r.connections)
  }

  predicate Positive(a: Amounts) {
    a.ingress > 0.0 && a.egress > 0.0 && a.spool > 0.0 && a.connections > 0.0
  }

  function Floor(p: GroupPolicy): nat {
    p.minimum + p.warm
  }

  predicate ValidPolicy(p: GroupPolicy) {
    && 1 <= p.minimum <= p.maximum && Floor(p) <= p.maximum
    && 0.0 <= p.headroomPercent < 100.0
    && p.pressureWindow > 0 && p.telemetryMaxAge > 0 && p.maxConcurrentChanges >= 1
  }

  predicate ListsBroker(inventory: seq<Broker>, id: string) {
    exists i :: 0 <= i < |inventory| && inventory[i].id == id
  }

  predicate ListsGroup(groups: seq<Group>, id: string) {
    exists i :: 0 <= i < |groups| && groups[i].id == id
  }

  predicate ValidGroup(g: Group, now: Time, inventory: seq<Broker>) {
    && g.id != "" && ValidPolicy(g.policy) && g.lastTransitionAt <= now
    && |g.membership| <= g.policy.maximum
    && (forall i :: 0 <= i < |g.membership| ==> ListsBroker(inventory, g.membership[i]))
    && NoDuplicates(g.membership)
    && (g.choice.Some? ==>
          g.choice.value.broker != "" && g.choice.value.broker in g.membership
              && (g.choice.value.safe ==> g.choice.value.evidence != ""))
  }

  predicate DistinctBrokers(s: seq<BrokerSample>) {
    forall i, j :: 0 <= i < j < |s| ==> s[i].broker != s[j].broker
  }

  predicate DistinctSamples(s: seq<GroupSample>) {
    forall i, j :: 0 <= i < j < |s| ==> (s[i].group, s[i].broker) != (s[j].group, s[j].broker)
  }

  predicate DistinctInventory(s: seq<Broker>) {
    forall i, j :: 0 <= i < j < |s| ==> s[i].id != s[j].id
  }

  predicate DistinctGroups(s: seq<Group>) {
    forall i, j :: 0 <= i < j < |s| ==> s[i].id != s[j].id
  }

  predicate ValidBrokerSample(s: BrokerSample, c: Cycle) {
    s.broker != "" && 0 < s.observedAt <= c.capturedAt && ValidUsage(s.resources) && ListsBroker(c.inventory, s.broker)
  }

  predicate ValidGroupSample(s: GroupSample, c: Cycle) {
    && s.group != "" && s.broker != "" && 0 < s.observedAt <= c.capturedAt
    && ValidUsage(s.resources) && ValidMetric(s.queued) && ValidMetric(s.unacked)
    && ListsGroup(c.groups, s.group) && ListsBroker(c.inventory, s.broker)
  }

  predicate ValidCycle(c: Cycle) {
    && 0 < c.capturedAt <= c.now
    && (forall i :: 0 <= i < |c.brokers| ==> ValidBrokerSample(c.brokers[i], c)) && DistinctBrokers(c.brokers)
    && (forall i :: 0 <= i < |c.samples| ==> ValidGroupSample(c.samples[i], c)) && DistinctSamples(c.samples)
    && (forall i :: 0 <= i < |c.inventory| ==> c.inventory[i].id != "" && Positive(c.inventory[i].limits))
           && DistinctInventory(c.inventory)
    && (forall i :: 0 <= i < |c.groups| ==> ValidGroup(c.groups[i], c.now, c.inventory)) && DistinctGroups(c.groups)
  }

  // ------------------------------------------------------------- one cycle, by name

  /** A cycle with its rows under their names, and the groups in order. */
  datatype View = View(
    now: Time,
    brokers: map<string, BrokerSample>,
    samples: map<(string, string), GroupSample>,
    inventory: map<string, Broker>,
    groups: seq<Group>)

  function ByBroker(s: seq<BrokerSample>): map<string, BrokerSample> {
    if s == [] then map[] else ByBroker(s[..|s| - 1])[s[|s| - 1].broker := s[|s| - 1]]
  }

  function ByGroup(s: seq<GroupSample>): map<(string, string), GroupSample> {
    if s == [] then map[] else ByGroup(s[..|s| - 1])[(s[|s| - 1].group, s[|s| - 1].broker) := s[|s| - 1]]
  }

  function ById(s: seq<Broker>): map<string, Broker> {
    if s == [] then map[] else ById(s[..|s| - 1])[s[|s| - 1].id := s[|s| - 1]]
  }

  predicate InOrder(s: seq<Group>) {
    forall i, j :: 0 <= i < j < |s| ==> Before(s[i].id, s[j].id)
  }

  function InsertGroup(g: Group, s: seq<Group>): (r: seq<Group>)
    requires InOrder(s) && forall i :: 0 <= i < |s| ==> s[i].id != g.id
    ensures InOrder(r) && multiset(r) == multiset(s) + multiset{g}
  {
    if s == [] then [g]
    else if Before(s[|s| - 1].id, g.id) then
      forall i | 0 <= i < |s| - 1 ensures Before(s[i].id, g.id) {
        BeforeTransitive(s[i].id, s[|s| - 1].id, g.id);
      }
      s + [g]
    else
      var front := InsertGroup(g, s[..|s| - 1]);
      InsertedGroup(g, s, front);
      front + [s[|s| - 1]]
  }

  lemma InsertedGroup(g: Group, s: seq<Group>, front: seq<Group>)
    requires s != [] && InOrder(s) && s[|s| - 1].id != g.id && !Before(s[|s| - 1].id, g.id)
    requires InOrder(front) && multiset(front) == multiset(s[..|s| - 1]) + multiset{g}
    ensures InOrder(front + [s[|s| - 1]]) && multiset(front + [s[|s| - 1]]) == multiset(s) + multiset{g}
  {
    var rest, last := s[..|s| - 1], s[|s| - 1];
    BeforeTotal(last.id, g.id);
    assert s == rest + [last];
    forall i | 0 <= i < |front| ensures Before(front[i].id, last.id) {
      assert front[i] in multiset(front);
      if front[i] != g {
        assert front[i] in rest;
      }
    }
  }

  function SortGroups(s: seq<Group>): (r: seq<Group>)
    requires DistinctGroups(s)
    ensures InOrder(r) && multiset(r) == multiset(s)
  {
    if s == [] then []
    else
      var last := s[|s| - 1];
      assert s == s[..|s| - 1] + [last];
      var rest := SortGroups(s[..|s| - 1]);
      forall i | 0 <= i < |rest| ensures rest[i].id != last.id {
        assert rest[i] in multiset(rest);
        var k :| 0 <= k < |s| - 1 && s[..|s| - 1][k] == rest[i];
        assert s[k].id != s[|s| - 1].id;
      }
      InsertGroup(last, rest)
  }

  function ViewOf(c: Cycle): View
    requires DistinctGroups(c.groups)
  {
    View(c.now, ByBroker(c.brokers), ByGroup(c.samples), ById(c.inventory), SortGroups(c.groups))
  }

  // -------------------------------------------------------------------- assessments

  datatype Telemetry = KnownTelemetry | UnknownTelemetry | StaleTelemetry

  datatype Pressure = PressureUnknown | PressureNone | BrokerSaturation | DownstreamBacklog

  const ZERO := Amounts(0.0, 0.0, 0.0, 0.0)

  predicate AllKnown(r: Resources) {
    r.ingress.Known? && r.egress.Known? && r.spool.Known? && r.connections.Known?
  }

  function Values(r: Resources): Amounts
    requires AllKnown(r)
  {
    Amounts(r.ingress.value, r.egress.value, r.spool.value, r.connections.value)
  }

  function Plus(a: Amounts, b: Amounts): Amounts {
    Amounts(a.ingress + b.ingress, a.egress + b.egress, a.spool + b.spool, a.connections + b.connections)
  }

  function Max(a: real, b: real): real {
    if a < b then b else a
  }

  function Larger(a: Amounts, b: Amounts): Amounts {
    Amounts(Max(a.ingress, b.ingress), Max(a.egress, b.egress), Max(a.spool, b.spool),
            Max(a.connections, b.connections))
  }

  function Utilization(a: Amounts, limits: Amounts): Amounts
    requires Positive(limits)
  {
    Amounts(a.ingress / limits.ingress, a.egress / limits.egress, a.spool / limits.spool,
            a.connections / limits.connections)
  }

  function Peak(a: Amounts): real {
    Max(Max(a.ingress, a.egress), Max(a.spool, a.connections))
  }

  /** What the samples of the groups on one broker add up to. */
  datatype Tally = Tally(observedAt: Time, stale: bool, unknown: bool, total: Amounts)

  function TallyGroups(groups: seq<Group>, broker: string, observedAt: Time, v: View): Tally {
    if groups == [] then Tally(observedAt, false, false, ZERO)
    else
      var t, g := TallyGroups(groups[..|groups| - 1], broker, observedAt, v), groups[|groups| - 1];
      if broker !in g.membership then t
      else if (g.id, broker) !in v.samples then t.(unknown := true)
      else
        var s := v.samples[(g.id, broker)];
        var seen := t.(observedAt := if s.observedAt < t.observedAt then s.observedAt else t.observedAt,
                       stale := t.stale || v.now > s.observedAt + g.policy.telemetryMaxAge);
        if AllKnown(s.resources) then seen.(total := Plus(seen.total, Values(s.resources))) else seen.(unknown := true)
  }

  /** The strictest freshness limit of the groups on a broker, zero for none. */
  function MaxAge(groups: seq<Group>, broker: string): nat {
    if groups == [] then 0
    else
      var age, g := MaxAge(groups[..|groups| - 1], broker), groups[|groups| - 1];
      if broker in g.membership && (age == 0 || g.policy.telemetryMaxAge < age) then g.policy.telemetryMaxAge else age
  }

  datatype BrokerAssessment = BrokerAssessment(state: Telemetry, observedAt: Time, shared: Amounts)

  function AssessBroker(id: string, v: View): BrokerAssessment {
    if id !in v.brokers || id !in v.inventory || !Positive(v.inventory[id].limits)
      then BrokerAssessment(UnknownTelemetry, 0, ZERO)
    else
      var sample := v.brokers[id];
      var tally := TallyGroups(v.groups, id, sample.observedAt, v);
      var age := MaxAge(v.groups, id);
      if tally.stale || (age != 0 && v.now > sample.observedAt + age)
        then BrokerAssessment(StaleTelemetry, tally.observedAt, ZERO)
      else if tally.unknown || !AllKnown(sample.resources)
        then BrokerAssessment(UnknownTelemetry, tally.observedAt, ZERO)
      else
        var limits := v.inventory[id].limits;
        BrokerAssessment(KnownTelemetry, tally.observedAt,
                         Larger(Utilization(Values(sample.resources), limits), Utilization(tally.total, limits)))
  }

  /** What the members of one group add up to. */
  datatype Sum = Sum(stale: bool, unknown: bool, shared: Amounts, queued: real, unacked: real)

  function SumMembers(members: seq<string>, g: Group, v: View): Sum {
    if members == [] then Sum(false, false, ZERO, 0.0, 0.0)
    else
      var t, id := SumMembers(members[..|members| - 1], g, v), members[|members| - 1];
      var a := AssessBroker(id, v);
      var seen := t.(stale := t.stale || a.state == StaleTelemetry, unknown := t.unknown || a.state == UnknownTelemetry,
                     shared := Larger(t.shared, a.shared));
      if (g.id, id) !in v.samples then seen.(unknown := true)
      else
        var s := v.samples[(g.id, id)];
        var dated := seen.(stale := seen.stale || v.now > s.observedAt + g.policy.telemetryMaxAge,
                           unknown := seen.unknown || !AllKnown(s.resources));
        if s.queued.Known? && s.unacked.Known? then
          dated.(queued := dated.queued + s.queued.value, unacked := dated.unacked + s.unacked.value)
        else dated.(unknown := true)
  }

  datatype GroupAssessment = GroupAssessment(state: Telemetry, pressure: Pressure)

  function Threshold(p: GroupPolicy): real {
    1.0 - p.headroomPercent / 100.0
  }

  function AssessGroup(g: Group, v: View): GroupAssessment {
    var t := SumMembers(g.membership, g, v);
    if t.stale then GroupAssessment(StaleTelemetry, PressureUnknown)
    else if t.unknown || g.membership == [] then GroupAssessment(UnknownTelemetry, PressureUnknown)
    else if Peak(t.shared) >= Threshold(g.policy) then GroupAssessment(KnownTelemetry, BrokerSaturation)
    else if t.queued > 0.0 || t.unacked > 0.0 then GroupAssessment(KnownTelemetry, DownstreamBacklog)
    else GroupAssessment(KnownTelemetry, PressureNone)
  }

  predicate Saturated(g: Group, v: View) {
    AssessGroup(g, v) == GroupAssessment(KnownTelemetry, BrokerSaturation)
  }

  /** Every member was observed after the given instant. */
  predicate NewerThan(g: Group, v: View, after: Time) {
    forall i :: 0 <= i < |g.membership| ==> AssessBroker(g.membership[i], v).observedAt > after
  }

  // ------------------------------------------------------- what an assessment rests on

  /** The sample of a group on a broker is there, recent and complete. */
  predicate Measured(g: Group, broker: string, v: View) {
    (g.id, broker) in v.samples && v.now <= v.samples[(g.id, broker)].observedAt + g.policy.telemetryMaxAge
    && AllKnown(v.samples[(g.id, broker)].resources)
  }

  lemma {:induction false} TallyMeans(groups: seq<Group>, broker: string, observedAt: Time, v: View)
    ensures var t := TallyGroups(groups, broker, observedAt, v);
            && t.observedAt <= observedAt
            && (!t.stale && !t.unknown ==> forall i :: 0 <= i < |groups| && broker in groups[i].membership ==>
                Measured(groups[i], broker, v))
            && (forall i ::
                  0 <= i < |groups| && broker in groups[i].membership && (groups[i].id, broker) in v.samples ==>
                  t.observedAt <= v.samples[(groups[i].id, broker)].observedAt)
  {
    if groups != [] {
      var rest := groups[..|groups| - 1];
      TallyMeans(rest, broker, observedAt, v);
      assert forall i :: 0 <= i < |rest| ==> groups[i] == rest[i];
    }
  }

  lemma {:induction false} MaxAgeStrictest(groups: seq<Group>, broker: string)
    requires forall i :: 0 <= i < |groups| ==> groups[i].policy.telemetryMaxAge > 0
    ensures forall i :: 0 <= i < |groups| && broker in groups[i].membership ==>
              0 < MaxAge(groups, broker) <= groups[i].policy.telemetryMaxAge
  {
    if groups != [] {
      MaxAgeStrictest(groups[..|groups| - 1], broker);
      assert forall i :: 0 <= i < |groups| - 1 ==> groups[i] == groups[..|groups| - 1][i];
    }
  }

  /** A known broker was measured completely and recently, for every group on it. */
  lemma KnownBrokerMeasured(id: string, v: View)
    requires AssessBroker(id, v).state == KnownTelemetry
    requires forall i :: 0 <= i < |v.groups| ==> v.groups[i].policy.telemetryMaxAge > 0
    ensures id in v.brokers && AllKnown(v.brokers[id].resources)
    ensures forall i :: 0 <= i < |v.groups| && id in v.groups[i].membership ==>
              Measured(v.groups[i], id, v) && v.now <= v.brokers[id].observedAt + v.groups[i].policy.telemetryMaxAge
  {
    TallyMeans(v.groups, id, v.brokers[id].observedAt, v);
    MaxAgeStrictest(v.groups, id);
  }

  /** A broker observed after an instant has no older sample, its own or a group's. */
  lemma ObservedIsOldest(id: string, v: View, after: Time)
    requires AssessBroker(id, v).observedAt > after
    ensures id in v.brokers && v.brokers[id].observedAt > after
    ensures forall i :: 0 <= i < |v.groups| && id in v.groups[i].membership && (v.groups[i].id, id) in v.samples ==>
              v.samples[(v.groups[i].id, id)].observedAt > after
  {
    TallyMeans(v.groups, id, v.brokers[id].observedAt, v);
  }

  predicate Complete(g: Group, broker: string, v: View) {
    && AssessBroker(broker, v).state == KnownTelemetry && Measured(g, broker, v)
    && v.samples[(g.id, broker)].queued.Known? && v.samples[(g.id, broker)].unacked.Known?
  }

  lemma {:induction false} SumComplete(members: seq<string>, g: Group, v: View)
    ensures var t := SumMembers(members, g, v);
            !t.stale && !t.unknown <==> forall i :: 0 <= i < |members| ==> Complete(g, members[i], v)
  {
    hide AssessBroker, Larger, AllKnown;
    if members != [] {
      var rest := members[..|members| - 1];
      SumComplete(rest, g, v);
      assert members == rest + [members[|members| - 1]];
      assert forall i :: 0 <= i < |rest| ==> members[i] == rest[i];
    }
  }

  lemma PeakLarger(a: Amounts, b: Amounts)
    ensures Peak(Larger(a, b)) == Max(Peak(a), Peak(b))
  {
  }

  lemma SharedNext(members: seq<string>, g: Group, v: View)
    requires members != []
    ensures SumMembers(members, g, v).shared
            == Larger(SumMembers(members[..|members| - 1], g, v).shared, AssessBroker(members[|members| - 1], v).shared)
  {
    hide AssessBroker, Larger, AllKnown;
  }

  predicate ReachesPeak(members: seq<string>, v: View, peak: real) {
    exists i :: 0 <= i < |members| && Peak(AssessBroker(members[i], v).shared) == peak
  }

  /** The shared utilization of a group is that of its busiest member. */
  lemma {:induction false} SumPeak(members: seq<string>, g: Group, v: View)
    ensures var peak := Peak(SumMembers(members, g, v).shared);
            && peak >= 0.0 && (peak > 0.0 ==> ReachesPeak(members, v, peak))
            && (forall i :: 0 <= i < |members| ==> Peak(AssessBroker(members[i], v).shared) <= peak)
  {
    if members != [] {
      var rest, last := members[..|members| - 1], members[|members| - 1];
      SumPeak(rest, g, v);
      SharedNext(members, g, v);
      var earlier, here := Peak(SumMembers(rest, g, v).shared), Peak(AssessBroker(last, v).shared);
      PeakLarger(SumMembers(rest, g, v).shared, AssessBroker(last, v).shared);
      hide AssessBroker, Larger, Peak, SumMembers;
      assert members == rest + [last];
      if earlier >= here {
        if earlier > 0.0 {
          var i :| 0 <= i < |rest| && Peak(AssessBroker(rest[i], v).shared) == earlier;
          assert members[i] == rest[i];
        }
      } else {
        assert members[|members| - 1] == last;
      }
    }
  }

  /** A group is known exactly when it has members and every one of them was measured
      completely; and it is saturated exactly when, besides, some member's utilization
      reaches the threshold. */
  lemma AssessmentMeans(g: Group, v: View)
    requires ValidPolicy(g.policy)
    ensures AssessGroup(g, v).state == KnownTelemetry <==> g.membership != [] && forall i :: 0 <= i < |g.membership| ==>
              Complete(g, g.membership[i], v)
    ensures Saturated(g, v) <==>
              && AssessGroup(g, v).state == KnownTelemetry
              && exists i :: 0 <= i < |g.membership|
                     && Peak(AssessBroker(g.membership[i], v).shared) >= Threshold(g.policy)
  {
    hide AssessBroker, Complete, Peak, SumMembers, Threshold;
    SumComplete(g.membership, g, v);
    SumPeak(g.membership, g, v);
    ThresholdPositive(g.policy);
  }

  lemma ThresholdPositive(p: GroupPolicy)
    requires ValidPolicy(p)
    ensures Threshold(p) > 0.0
  {
  }

  // ---------------------------------------------------------------- recommendations

  datatype Recommendation =
    | Stay(group: string)
    | ScaleOut(group: string, broker: string, proposed: seq<string>, forPressure: bool)
    | ScaleIn(group: string, broker: string, proposed: seq<string>)

  predicate Eligible(b: Broker, g: Group) {
    b.ready && g.id in b.eligibleGroups && b.id !in g.membership
  }

  predicate EligibleId(inventory: seq<Broker>, g: Group, id: string) {
    exists i :: 0 <= i < |inventory| && inventory[i].id == id && Eligible(inventory[i], g)
  }

  /** The smallest identifier of an eligible broker. */
  function FirstEligible(inventory: seq<Broker>, g: Group): Option<string> {
    if inventory == [] then None
    else
      var earlier, b := FirstEligible(inventory[..|inventory| - 1], g), inventory[|inventory| - 1];
      if Eligible(b, g) && (earlier.None? || Before(b.id, earlier.value)) then Some(b.id) else earlier
  }

  lemma {:induction false} FirstIsSmallest(inventory: seq<Broker>, g: Group)
    ensures FirstEligible(inventory, g).None? ==> forall id :: !EligibleId(inventory, g, id)
    ensures FirstEligible(inventory, g).Some? ==>
              && EligibleId(inventory, g, FirstEligible(inventory, g).value)
              && forall id :: EligibleId(inventory, g, id) && id != FirstEligible(inventory, g).value ==>
                   Before(FirstEligible(inventory, g).value, id)
  {
    if inventory != [] {
      var rest, b := inventory[..|inventory| - 1], inventory[|inventory| - 1];
      FirstIsSmallest(rest, g);
      forall id ensures EligibleId(inventory, g, id) <==> EligibleId(rest, g, id) || (b.id == id && Eligible(b, g)) {
        EligibleNext(inventory, g, id);
      }
      hide EligibleId, Eligible;
      var earlier := FirstEligible(rest, g);
      if earlier.Some? {
        BeforeTotal(b.id, earlier.value);
        forall id | EligibleId(rest, g, id) && Before(b.id, earlier.value) && id != earlier.value
          ensures Before(b.id, id)
        {
          BeforeTransitive(b.id, earlier.value, id);
        }
      }
    }
  }

  lemma EligibleNext(inventory: seq<Broker>, g: Group, id: string)
    requires inventory != []
    ensures var rest, b := inventory[..|inventory| - 1], inventory[|inventory| - 1];
            EligibleId(inventory, g, id) <==> EligibleId(rest, g, id) || (b.id == id && Eligible(b, g))
  {
    var rest, b := inventory[..|inventory| - 1], inventory[|inventory| - 1];
    if EligibleId(rest, g, id) {
      var i :| 0 <= i < |rest| && rest[i].id == id && Eligible(rest[i], g);
      assert inventory[i] == rest[i];
    }
    if EligibleId(inventory, g, id) {
      var i :| 0 <= i < |inventory| && inventory[i].id == id && Eligible(inventory[i], g);
      assert i < |rest| ==> rest[i] == inventory[i];
    }
  }

  function Without(membership: seq<string>, id: string): seq<string> {
    if membership == [] then []
    else
      var rest := Without(membership[..|membership| - 1], id);
      if membership[|membership| - 1] != id then rest + [membership[|membership| - 1]] else rest
  }

  lemma {:induction false} WithoutIs(membership: seq<string>, id: string)
    ensures forall b :: b in Without(membership, id) <==> b in membership && b != id
    ensures id !in membership ==> Without(membership, id) == membership
  {
    if membership != [] {
      var rest, last := membership[..|membership| - 1], membership[|membership| - 1];
      WithoutIs(rest, id);
      assert membership == rest + [last];
    }
  }

  lemma {:induction false} WithoutOne(membership: seq<string>, id: string)
    requires NoDuplicates(membership)
    ensures NoDuplicates(Without(membership, id))
    ensures id in membership ==> |Without(membership, id)| == |membership| - 1
  {
    if membership != [] {
      var rest, last := membership[..|membership| - 1], membership[|membership| - 1];
      WithoutOne(rest, id);
      WithoutIs(rest, id);
      assert membership == rest + [last] && last !in rest;
      var kept := Without(rest, id);
      forall i | 0 <= i < |kept| ensures kept[i] != last {
        assert kept[i] in rest;
      }
    }
  }

  function ScaledOut(g: Group, inventory: seq<Broker>, forPressure: bool): Recommendation {
    if |g.membership| >= g.policy.maximum then Stay(g.id)
    else match FirstEligible(inventory, g)
      case None => Stay(g.id)
      case Some(b) => ScaleOut(g.id, b, g.membership + [b], forPressure)
  }

  /** The recommendation for one group, given how long it is under pressure. */
  function Recommend(now: Time, g: Group, a: GroupAssessment, inventory: seq<Broker>, since: Time): Recommendation {
    if a.state != KnownTelemetry then Stay(g.id)
    else if g.activeTransitions >= g.policy.maxConcurrentChanges || g.activeTransitions > 0 then Stay(g.id)
    else if g.lastTransitionAt != 0 && now < g.lastTransitionAt + g.policy.cooldown then Stay(g.id)
    else if |g.membership| < Floor(g.policy) then ScaledOut(g, inventory, false)
    else if a.pressure == BrokerSaturation then
      if since == 0 || now < since + g.policy.pressureWindow then Stay(g.id) else ScaledOut(g, inventory, true)
    else if a.pressure == DownstreamBacklog then Stay(g.id)
    else if |g.membership| <= Floor(g.policy) then Stay(g.id)
    else if g.choice.None? || !g.choice.value.safe then Stay(g.id)
    else
      var proposed := Without(g.membership, g.choice.value.broker);
      if |proposed| < Floor(g.policy) then Stay(g.id) else ScaleIn(g.id, g.choice.value.broker, proposed)
  }

  /** What an admitted change looks like. */
  predicate WellBounded(g: Group, r: Recommendation, inventory: seq<Broker>) {
    match r
    case Stay(_) => true
    case ScaleOut(_, b, proposed, _) =>
      && proposed == g.membership + [b] && b !in g.membership && EligibleId(inventory, g, b)
      && NoDuplicates(proposed) && |proposed| <= g.policy.maximum
    case ScaleIn(_, b, proposed) =>
      && b in g.membership && Members(proposed) == Members(g.membership) - {b} && |proposed| == |g.membership| - 1
      && NoDuplicates(proposed) && Floor(g.policy) <= |proposed| <= g.policy.maximum
  }

  /** Every recommendation is for its group, keeps the membership free of duplicates
      and within its bounds, and changes one broker. */
  lemma RecommendationBounded(now: Time, g: Group, a: GroupAssessment, inventory: seq<Broker>, since: Time)
    requires ValidGroup(g, now, inventory)
    ensures Recommend(now, g, a, inventory, since).group == g.id
    ensures WellBounded(g, Recommend(now, g, a, inventory, since), inventory)
  {
    FirstIsSmallest(inventory, g);
    if g.choice.Some? {
      WithoutIs(g.membership, g.choice.value.broker);
      WithoutOne(g.membership, g.choice.value.broker);
    }
  }

  /** No sample of the cycle is negative. */
  predicate CountsValid(v: View) {
    forall k :: k in v.samples ==> ValidMetric(v.samples[k].queued) && ValidMetric(v.samples[k].unacked)
  }

  predicate NothingWaits(g: Group, broker: string, v: View) {
    (g.id, broker) in v.samples && v.samples[(g.id, broker)].queued == Known(0.0)
        && v.samples[(g.id, broker)].unacked == Known(0.0)
  }

  lemma {:induction false} SumBacklog(members: seq<string>, g: Group, v: View)
    requires CountsValid(v) && forall i :: 0 <= i < |members| ==> Complete(g, members[i], v)
    ensures SumMembers(members, g, v).queued >= 0.0 && SumMembers(members, g, v).unacked >= 0.0
    ensures SumMembers(members, g, v).queued <= 0.0 && SumMembers(members, g, v).unacked <= 0.0 <==>
              forall i :: 0 <= i < |members| ==> NothingWaits(g, members[i], v)
  {
    hide AssessBroker, Larger, AllKnown;
    if members != [] {
      var rest, last := members[..|members| - 1], members[|members| - 1];
      assert forall i :: 0 <= i < |rest| ==> members[i] == rest[i];
      assert Complete(g, members[|members| - 1], v);
      SumBacklog(rest, g, v);
      assert members == rest + [last];
    }
  }

  /** What speaks for a change: every member was measured completely, no change is in
      progress or too recent; and growth is due to a shortfall, or to a member at the
      threshold after a full pressure window; shrinking to a safe choice above the floor
      with no member at the threshold and nothing waiting anywhere. */
  predicate Warranted(g: Group, r: Recommendation, since: Time, v: View) {
    && g.membership != [] && (forall i :: 0 <= i < |g.membership| ==> Complete(g, g.membership[i], v))
    && g.activeTransitions == 0 && (g.lastTransitionAt == 0 || v.now >= g.lastTransitionAt + g.policy.cooldown)
    && match r
       case Stay(_) => false
       case ScaleOut(_, _, _, false) => |g.membership| < Floor(g.policy)
       case ScaleOut(_, _, _, true) => AtThreshold(g, v) && since != 0 && v.now >= since + g.policy.pressureWindow
       case ScaleIn(_, b, _) =>
         && |g.membership| > Floor(g.policy) && g.choice.Some? && g.choice.value.safe && g.choice.value.evidence != ""
         && b == g.choice.value.broker
         && !AtThreshold(g, v) && forall i :: 0 <= i < |g.membership| ==> NothingWaits(g, g.membership[i], v)
  }

  predicate AtThreshold(g: Group, v: View) {
    exists i :: 0 <= i < |g.membership| && Peak(AssessBroker(g.membership[i], v).shared) >= Threshold(g.policy)
  }

  lemma PressureMeans(g: Group, v: View)
    requires ValidPolicy(g.policy) && CountsValid(v) && AssessGroup(g, v).state == KnownTelemetry
    ensures g.membership != [] && forall i :: 0 <= i < |g.membership| ==> Complete(g, g.membership[i], v)
    ensures AssessGroup(g, v).pressure == BrokerSaturation <==> AtThreshold(g, v)
    ensures AssessGroup(g, v).pressure == PressureNone <==>
              !AtThreshold(g, v) && forall i :: 0 <= i < |g.membership| ==> NothingWaits(g, g.membership[i], v)
    ensures AssessGroup(g, v).pressure in {BrokerSaturation, DownstreamBacklog, PressureNone}
  {
    AssessmentMeans(g, v);
    hide AssessBroker, Complete, Peak, SumMembers, Threshold, NothingWaits;
    SumBacklog(g.membership, g, v);
  }

  /** Whatever is recommended is warranted by what was measured. */
  lemma RecommendationWarranted(g: Group, v: View, inventory: seq<Broker>, since: Time)
    requires ValidGroup(g, v.now, inventory) && CountsValid(v)
    ensures var r := Recommend(v.now, g, AssessGroup(g, v), inventory, since);
            r.Stay? || Warranted(g, r, since, v)
  {
    hide FirstEligible, AssessGroup, AtThreshold, NothingWaits, Complete, CountsValid;
    if AssessGroup(g, v).state == KnownTelemetry {
      PressureMeans(g, v);
    }
  }

  /** Under any admitted change, for every scoring: adding a broker moves a key to it or
      nowhere, and removing one moves only its own keys. */
  lemma ChangeDisruptsLeast(g: Group, r: Recommendation, inventory: seq<Broker>, before: string, after: string,
                            score: Score)
    requires WellBounded(g, r, inventory) && !r.Stay?
    requires Wins(before, Members(g.membership), score) && Wins(after, Members(r.proposed), score)
    ensures r.ScaleOut? ==> after == before || after == r.broker
    ensures r.ScaleIn? ==> after == before || before == r.broker
  {
    if r.ScaleOut? {
      assert Members(r.proposed) == Members(g.membership) + {r.broker};
      AddingMovesOnlyThere(Members(g.membership), r.broker, before, after, score);
    } else if before != r.broker {
      RemovingMovesOnlyThose(Members(g.membership), r.broker, before, after, score);
    }
  }
}
