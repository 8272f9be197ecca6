/** What the policy decides, said over the measurements themselves: when a group counts as
    measured, when a broker is strained, and that a change is recommended exactly when there
    is an occasion for it. Follows policy/aggregate.go and policy/engine.go. */
module PolicyMeaning {
  import opened Control
  import opened Routing
  import opened Policy

  // ------------------------------------------------------------------------ measurements

  datatype Dimension = Ingress | Egress | Spool | Connections

  function Metered(r: Resources, d: Dimension): Metric {
    match d
    case Ingress => r.ingress
    case Egress => r.egress
    case Spool => r.spool
    case Connections => r.connections
  }

  function Amount(a: Amounts, d: Dimension): real {
    match d
    case Ingress => a.ingress
    case Egress => a.egress
    case Spool => a.spool
    case Connections => a.connections
  }

  predicate EveryMetric(r: Resources) {
    forall d :: Metered(r, d).Known?
  }

  /** What one group uses of a broker. */
  function Share(g: Group, broker: string, d: Dimension, v: View): real {
    if broker in g.membership && (g.id, broker) in v.samples && Metered(v.samples[(g.id, broker)].resources, d).Known?
    then Metered(v.samples[(g.id, broker)].resources, d).value else 0.0
  }

  /** What all groups together use of it. */
  function Load(groups: seq<Group>, broker: string, d: Dimension, v: View): real {
    if groups == [] then 0.0 else Share(groups[0], broker, d, v) + Load(groups[1..], broker, d, v)
  }

  /** The sample is there, complete, and no older than the group allows. */
  predicate Sampled(g: Group, broker: string, v: View) {
    && (g.id, broker) in v.samples && EveryMetric(v.samples[(g.id, broker)].resources)
    && v.now <= v.samples[(g.id, broker)].observedAt + g.policy.telemetryMaxAge
  }

  /** The broker has a capacity and a complete sample recent enough for every group on it,
      and so has each of these groups there. */
  predicate FullyMeasured(broker: string, v: View) {
    && broker in v.brokers && broker in v.inventory && EveryMetric(v.brokers[broker].resources)
    && (forall d :: Amount(v.inventory[broker].limits, d) > 0.0)
    && forall g :: g in v.groups && broker in g.membership ==>
         Sampled(g, broker, v) && v.now <= v.brokers[broker].observedAt + g.policy.telemetryMaxAge
  }

  /** What the headroom leaves of a capacity. */
  function Mark(limit: real, p: GroupPolicy): real {
    limit * (1.0 - p.headroomPercent / 100.0)
  }

  /** The broker itself, or all its groups together, use at least that much of its capacity
      in this dimension. */
  predicate StrainedIn(broker: string, d: Dimension, p: GroupPolicy, v: View)
    requires broker in v.brokers && broker in v.inventory
  {
    var mark := Mark(Amount(v.inventory[broker].limits, d), p);
    || (Metered(v.brokers[broker].resources, d).Known? && Metered(v.brokers[broker].resources, d).value >= mark)
    || Load(v.groups, broker, d, v) >= mark
  }

  predicate Strained(broker: string, p: GroupPolicy, v: View) {
    broker in v.brokers && broker in v.inventory && exists d :: StrainedIn(broker, d, p, v)
  }

  /** Both the broker and what the group has and leaves there are known. */
  predicate MeasuredAt(g: Group, broker: string, v: View) {
    && FullyMeasured(broker, v) && Sampled(g, broker, v)
    && v.samples[(g.id, broker)].queued.Known? && v.samples[(g.id, broker)].unacked.Known?
  }

  predicate WellMeasured(g: Group, v: View) {
    g.membership != [] && forall b :: b in g.membership ==> MeasuredAt(g, b, v)
  }

  predicate AnyStrained(g: Group, v: View) {
    exists b :: b in g.membership && Strained(b, g.policy, v)
  }

  predicate NothingQueued(g: Group, v: View) {
    forall b :: b in g.membership ==>
      && (g.id, b) in v.samples
      && v.samples[(g.id, b)].queued == Known(0.0) && v.samples[(g.id, b)].unacked == Known(0.0)
  }

  lemma MetricsMean(r: Resources)
    ensures AllKnown(r) <==> EveryMetric(r)
  {
    if AllKnown(r) {
      forall d ensures Metered(r, d).Known? {
      }
    }
    if EveryMetric(r) {
      assert Metered(r, Ingress).Known? && Metered(r, Egress).Known? && Metered(r, Spool).Known?
             && Metered(r, Connections).Known?;
    }
  }

  lemma LimitsMean(a: Amounts)
    ensures Positive(a) <==> forall d :: Amount(a, d) > 0.0
  {
    if forall d :: Amount(a, d) > 0.0 {
      assert Amount(a, Ingress) > 0.0 && Amount(a, Egress) > 0.0 && Amount(a, Spool) > 0.0
             && Amount(a, Connections) > 0.0;
    }
  }

  lemma {:induction false} LoadAppend(groups: seq<Group>, g: Group, broker: string, d: Dimension, v: View)
    ensures Load(groups + [g], broker, d, v) == Load(groups, broker, d, v) + Share(g, broker, d, v)
  {
    hide Share;
    if groups == [] {
      assert ([] + [g])[1..] == [];
    } else {
      assert (groups + [g])[1..] == groups[1..] + [g];
      LoadAppend(groups[1..], g, broker, d, v);
    }
  }

  /** The tally of a completely sampled broker is its load. */
  lemma {:induction false} TallyIsLoad(groups: seq<Group>, broker: string, at: Time, v: View, d: Dimension)
    requires !TallyGroups(groups, broker, at, v).unknown
    ensures Amount(TallyGroups(groups, broker, at, v).total, d) == Load(groups, broker, d, v)
  {
    if groups != [] {
      var rest, g := groups[..|groups| - 1], groups[|groups| - 1];
      assert groups == rest + [g];
      TallyIsLoad(rest, broker, at, v, d);
      LoadAppend(rest, g, broker, d, v);
    }
  }

  /** What makes a tally complete. */
  lemma {:induction false} TallyComplete(groups: seq<Group>, broker: string, at: Time, v: View)
    ensures var t := TallyGroups(groups, broker, at, v);
            !t.stale && !t.unknown <==> forall g :: g in groups && broker in g.membership ==> Sampled(g, broker, v)
  {
    if groups != [] {
      var rest, g := groups[..|groups| - 1], groups[|groups| - 1];
      assert groups == rest + [g];
      TallyComplete(rest, broker, at, v);
      if (g.id, broker) in v.samples {
        MetricsMean(v.samples[(g.id, broker)].resources);
      }
      hide AllKnown, EveryMetric, Plus;
    }
  }

  lemma {:induction false} AgeMeans(groups: seq<Group>, broker: string, at: Time, now: Time)
    requires forall g :: g in groups ==> g.policy.telemetryMaxAge > 0
    ensures MaxAge(groups, broker) != 0 && now > at + MaxAge(groups, broker) <==>
              exists g :: g in groups && broker in g.membership && now > at + g.policy.telemetryMaxAge
    ensures MaxAge(groups, broker) == 0 <==> forall g :: g in groups ==> broker !in g.membership
  {
    if groups != [] {
      var rest, g := groups[..|groups| - 1], groups[|groups| - 1];
      assert groups == rest + [g];
      AgeMeans(rest, broker, at, now);
    }
  }

  /** When a broker counts as known, exactly. */
  lemma KnownMeans(broker: string, v: View)
    requires forall g :: g in v.groups ==> g.policy.telemetryMaxAge > 0
    ensures AssessBroker(broker, v).state == KnownTelemetry <==> FullyMeasured(broker, v)
  {
    if broker in v.brokers && broker in v.inventory {
      var at := v.brokers[broker].observedAt;
      TallyComplete(v.groups, broker, at, v);
      AgeMeans(v.groups, broker, at, v.now);
      MetricsMean(v.brokers[broker].resources);
      LimitsMean(v.inventory[broker].limits);
      hide TallyGroups, MaxAge, AllKnown, EveryMetric, Positive, Sampled, Utilization, Larger;
    }
  }

  // ---------------------------------------------------------------- shared utilization

  /** What the assessment of a known broker says of one dimension: the larger of its own use
      and of what its groups use together, in parts of its capacity. */
  lemma SharedMeans(broker: string, v: View, d: Dimension)
    requires AssessBroker(broker, v).state == KnownTelemetry
    ensures broker in v.brokers && broker in v.inventory && Metered(v.brokers[broker].resources, d).Known?
    ensures var limit := Amount(v.inventory[broker].limits, d);
            var own, load := Metered(v.brokers[broker].resources, d).value, Load(v.groups, broker, d, v);
            limit > 0.0 && Amount(AssessBroker(broker, v).shared, d) == (if own < load then load else own) / limit
  {
    TallyIsLoad(v.groups, broker, v.brokers[broker].observedAt, v, d);
    LimitsMean(v.inventory[broker].limits);
    var limit := Amount(v.inventory[broker].limits, d);
    Divides(Metered(v.brokers[broker].resources, d).value, Load(v.groups, broker, d, v), limit);
    hide Load, TallyGroups, MaxAge;
  }

  lemma Divides(a: real, b: real, limit: real)
    requires limit > 0.0
    ensures Max(a / limit, b / limit) == (if a < b then b else a) / limit
  {
    if a < b {
      assert b / limit - a / limit == (b - a) / limit > 0.0;
    } else {
      assert a / limit - b / limit == (a - b) / limit >= 0.0;
    }
  }

  lemma Reaches(used: real, limit: real, part: real)
    requires limit > 0.0
    ensures used / limit >= part <==> used >= limit * part
  {
    var ratio := used / limit;
    assert used == ratio * limit;
    if ratio >= part {
      assert (ratio - part) * limit >= 0.0;
    } else {
      assert (part - ratio) * limit > 0.0;
    }
  }

  lemma PeakMeans(a: Amounts, mark: real)
    ensures Peak(a) >= mark <==> exists d :: Amount(a, d) >= mark
  {
    assert Amount(a, Ingress) == a.ingress && Amount(a, Egress) == a.egress && Amount(a, Spool) == a.spool
           && Amount(a, Connections) == a.connections;
  }

  lemma AtMark(shared: real, own: real, load: real, limit: real, part: real)
    requires limit > 0.0 && shared == (if own < load then load else own) / limit
    ensures shared >= part <==> own >= limit * part || load >= limit * part
  {
    Reaches(own, limit, part);
    Reaches(load, limit, part);
    Divides(own, load, limit);
  }

  lemma MarkMeans(shared: real, own: real, load: real, limit: real, p: GroupPolicy)
    requires limit > 0.0 && shared == (if own < load then load else own) / limit
    ensures shared >= Threshold(p) <==> own >= Mark(limit, p) || load >= Mark(limit, p)
  {
    var part := 1.0 - p.headroomPercent / 100.0;
    AtMark(shared, own, load, limit, part);
    assert Threshold(p) == part;
    assert Mark(limit, p) == limit * part;
  }

  lemma StrainedAt(broker: string, d: Dimension, p: GroupPolicy, v: View)
    requires AssessBroker(broker, v).state == KnownTelemetry
    ensures broker in v.brokers && broker in v.inventory
    ensures Amount(AssessBroker(broker, v).shared, d) >= Threshold(p) <==> StrainedIn(broker, d, p, v)
  {
    hide AssessBroker, Load, Metered, Amount, Mark, Threshold;
    SharedMeans(broker, v, d);
    MarkMeans(Amount(AssessBroker(broker, v).shared, d), Metered(v.brokers[broker].resources, d).value,
              Load(v.groups, broker, d, v), Amount(v.inventory[broker].limits, d), p);
  }

  /** A known broker reaches the threshold exactly when it is strained. */
  lemma StrainedMeans(broker: string, p: GroupPolicy, v: View)
    requires AssessBroker(broker, v).state == KnownTelemetry
    ensures Peak(AssessBroker(broker, v).shared) >= Threshold(p) <==> Strained(broker, p, v)
  {
    PeakMeans(AssessBroker(broker, v).shared, Threshold(p));
    SharedMeans(broker, v, Ingress);
    forall d ensures Amount(AssessBroker(broker, v).shared, d) >= Threshold(p) <==> StrainedIn(broker, d, p, v) {
      StrainedAt(broker, d, p, v);
    }
    hide AssessBroker, Peak, Threshold, Amount, StrainedIn;
  }

  lemma CompleteMeans(g: Group, b: string, v: View)
    requires forall k :: k in v.groups ==> k.policy.telemetryMaxAge > 0
    ensures Complete(g, b, v) <==> MeasuredAt(g, b, v)
  {
    KnownMeans(b, v);
    hide AssessBroker, FullyMeasured, AllKnown, EveryMetric;
    if (g.id, b) in v.samples {
      MetricsMean(v.samples[(g.id, b)].resources);
    }
  }

  lemma AllCompleteMeans(g: Group, v: View)
    requires forall k :: k in v.groups ==> k.policy.telemetryMaxAge > 0
    ensures WellMeasured(g, v) <==>
              g.membership != [] && forall i :: 0 <= i < |g.membership| ==> Complete(g, g.membership[i], v)
  {
    hide Complete, MeasuredAt;
    forall b ensures Complete(g, b, v) <==> MeasuredAt(g, b, v) {
      CompleteMeans(g, b, v);
    }
    if WellMeasured(g, v) {
      forall i | 0 <= i < |g.membership| ensures Complete(g, g.membership[i], v) {
        assert g.membership[i] in g.membership;
      }
    }
  }

  /** The assessment of a group, exactly. */
  lemma GroupMeans(g: Group, v: View)
    requires ValidPolicy(g.policy) && CountsValid(v) && forall k :: k in v.groups ==> k.policy.telemetryMaxAge > 0
    ensures AssessGroup(g, v).state == KnownTelemetry <==> WellMeasured(g, v)
    ensures WellMeasured(g, v) ==>
              && (AssessGroup(g, v).pressure == BrokerSaturation <==> AnyStrained(g, v))
              && (AssessGroup(g, v).pressure == PressureNone <==> !AnyStrained(g, v) && NothingQueued(g, v))
              && AssessGroup(g, v).pressure in {BrokerSaturation, DownstreamBacklog, PressureNone}
  {
    AssessmentMeans(g, v);
    AllCompleteMeans(g, v);
    hide AssessGroup, WellMeasured, ValidPolicy, CountsValid, Complete;
    if AssessGroup(g, v).state == KnownTelemetry {
      PressureMeans(g, v);
      ThresholdMeans(g, v);
      QueuedMeans(g, v);
    }
  }

  lemma KnownWhenComplete(g: Group, b: string, v: View)
    requires Complete(g, b, v)
    ensures AssessBroker(b, v).state == KnownTelemetry
  {
  }

  lemma ThresholdMeans(g: Group, v: View)
    requires forall i :: 0 <= i < |g.membership| ==> Complete(g, g.membership[i], v)
    ensures AtThreshold(g, v) <==> AnyStrained(g, v)
  {
    hide Complete, AssessBroker, Peak, Threshold, Strained;
    forall i | 0 <= i < |g.membership|
      ensures Peak(AssessBroker(g.membership[i], v).shared) >= Threshold(g.policy) <==>
                Strained(g.membership[i], g.policy, v)
    {
      KnownWhenComplete(g, g.membership[i], v);
      StrainedMeans(g.membership[i], g.policy, v);
    }
    if AtThreshold(g, v) {
      var i :| 0 <= i < |g.membership| && Peak(AssessBroker(g.membership[i], v).shared) >= Threshold(g.policy);
      assert g.membership[i] in g.membership;
    }
  }

  lemma QueuedMeans(g: Group, v: View)
    ensures NothingQueued(g, v) <==> forall i :: 0 <= i < |g.membership| ==> NothingWaits(g, g.membership[i], v)
  {
    if NothingQueued(g, v) {
      forall i | 0 <= i < |g.membership| ensures NothingWaits(g, g.membership[i], v) {
        assert g.membership[i] in g.membership;
      }
    }
  }

  // -------------------------------------------------------------------- recommendations

  /** No change in progress, and none too recent. */
  predicate Free(g: Group, now: Time) {
    g.activeTransitions == 0 && (g.lastTransitionAt == 0 || now >= g.lastTransitionAt + g.policy.cooldown)
  }

  /** Fewer members than the minimum and the warm ones. */
  predicate Short(g: Group) {
    |g.membership| < g.policy.minimum + g.policy.warm
  }

  /** A member is strained, and has been for the whole window. */
  predicate Pressed(g: Group, since: Time, v: View) {
    AnyStrained(g, v) && since != 0 && v.now >= since + g.policy.pressureWindow
  }

  /** More members than the floor, none strained, nothing queued, and one safe to take. */
  predicate Spare(g: Group, v: View) {
    && |g.membership| > g.policy.minimum + g.policy.warm && !AnyStrained(g, v) && NothingQueued(g, v)
    && g.choice.Some? && g.choice.value.safe
  }

  predicate Suits(b: Broker, g: Group) {
    b.ready && g.id in b.eligibleGroups && b.id !in g.membership
  }

  predicate CanGrow(g: Group, inventory: seq<Broker>) {
    |g.membership| < g.policy.maximum && exists b :: b in inventory && Suits(b, g)
  }

  /** The suitable broker whose name comes before all others. */
  predicate FirstToSuit(id: string, g: Group, inventory: seq<Broker>) {
    && (exists b :: b in inventory && b.id == id && Suits(b, g))
    && forall b :: b in inventory && Suits(b, g) && b.id != id ==> Before(id, b.id)
  }

  predicate RemovedFrom(membership: seq<string>, id: string, left: seq<string>) {
    exists i :: 0 <= i < |membership| && membership[i] == id && left == membership[..i] + membership[i + 1..]
  }

  /** The one answer for a group: growth by the first suitable broker when it is short or
      pressed and can grow, the safe choice taken away when it has one to spare, and
      otherwise, or without measurements or while another change counts, none. */
  predicate IsAnswer(r: Recommendation, g: Group, v: View, inventory: seq<Broker>, since: Time) {
    if !WellMeasured(g, v) || !Free(g, v.now) then r == Stay(g.id)
    else if Short(g) || Pressed(g, since, v) then
      if CanGrow(g, inventory)
      then && r.ScaleOut? && r.group == g.id && r.forPressure == !Short(g)
           && FirstToSuit(r.broker, g, inventory) && r.proposed == g.membership + [r.broker]
      else r == Stay(g.id)
    else if Spare(g, v)
      then && r.ScaleIn? && r.group == g.id && r.broker == g.choice.value.broker
           && RemovedFrom(g.membership, r.broker, r.proposed)
    else r == Stay(g.id)
  }

  lemma {:induction false} WithoutAt(membership: seq<string>, i: nat)
    requires NoDuplicates(membership) && i < |membership|
    ensures Without(membership, membership[i]) == membership[..i] + membership[i + 1..]
  {
    var rest, last := membership[..|membership| - 1], membership[|membership| - 1];
    assert membership == rest + [last];
    if i == |rest| {
      WithoutIs(rest, last);
      assert last !in rest;
    } else {
      WithoutAt(rest, i);
      assert membership[..i] + membership[i + 1..] == rest[..i] + rest[i + 1..] + [last];
    }
  }

  lemma FirstMeans(g: Group, inventory: seq<Broker>)
    ensures FirstEligible(inventory, g).Some? <==> exists b :: b in inventory && Suits(b, g)
    ensures FirstEligible(inventory, g).Some? ==> FirstToSuit(FirstEligible(inventory, g).value, g, inventory)
  {
    FirstIsSmallest(inventory, g);
    hide FirstEligible;
    forall b | b in inventory && Suits(b, g) ensures EligibleId(inventory, g, b.id) {
      var i :| 0 <= i < |inventory| && inventory[i] == b;
      assert Eligible(inventory[i], g);
    }
    if FirstEligible(inventory, g).Some? {
      var id := FirstEligible(inventory, g).value;
      var i :| 0 <= i < |inventory| && inventory[i].id == id && Eligible(inventory[i], g);
      assert inventory[i] in inventory && Suits(inventory[i], g);
    }
  }

  /** Growth, exactly. */
  lemma GrowthMeans(g: Group, inventory: seq<Broker>, pressed: bool)
    ensures var r := ScaledOut(g, inventory, pressed);
            if CanGrow(g, inventory)
            then && r.ScaleOut? && r.group == g.id && r.forPressure == pressed && FirstToSuit(r.broker, g, inventory)
                 && r.proposed == g.membership + [r.broker]
            else r == Stay(g.id)
  {
    FirstMeans(g, inventory);
    hide FirstEligible, FirstToSuit, Suits;
  }

  lemma SpareMeans(g: Group, now: Time, inventory: seq<Broker>)
    requires ValidGroup(g, now, inventory) && g.choice.Some?
    ensures var left := Without(g.membership, g.choice.value.broker);
            RemovedFrom(g.membership, g.choice.value.broker, left) && |left| == |g.membership| - 1
  {
    var i :| 0 <= i < |g.membership| && g.membership[i] == g.choice.value.broker;
    WithoutAt(g.membership, i);
  }

  /** The policy gives every group exactly this answer. */
  lemma RecommendExactly(g: Group, v: View, inventory: seq<Broker>, since: Time)
    requires ValidGroup(g, v.now, inventory) && CountsValid(v)
    requires forall k :: k in v.groups ==> k.policy.telemetryMaxAge > 0
    ensures IsAnswer(Recommend(v.now, g, AssessGroup(g, v), inventory, since), g, v, inventory, since)
  {
    GroupMeans(g, v);
    GrowthMeans(g, inventory, true);
    GrowthMeans(g, inventory, false);
    if g.choice.Some? {
      SpareMeans(g, v.now, inventory);
    }
    hide WellMeasured, AnyStrained, NothingQueued, AssessGroup, ScaledOut, FirstToSuit, RemovedFrom, CanGrow, Without,
         CountsValid, NoDuplicates, ListsBroker;
  }

  // ------------------------------------------------------------------ the rows of a cycle

  lemma SameElements<T>(s: seq<T>, t: seq<T>)
    requires multiset(s) == multiset(t)
    ensures forall x :: x in s <==> x in t
  {
    forall x ensures x in s <==> x in t {
      assert x in s <==> x in multiset(s);
      assert x in t <==> x in multiset(t);
    }
  }

  lemma {:induction false} ByBrokerIs(s: seq<BrokerSample>)
    requires DistinctBrokers(s)
    ensures forall id :: id in ByBroker(s) ==> ByBroker(s)[id] in s && ByBroker(s)[id].broker == id
    ensures forall i :: 0 <= i < |s| ==> s[i].broker in ByBroker(s) && ByBroker(s)[s[i].broker] == s[i]
  {
    if s != [] {
      ByBrokerIs(s[..|s| - 1]);
      assert s == s[..|s| - 1] + [s[|s| - 1]];
    }
  }

  lemma {:induction false} ByGroupIs(s: seq<GroupSample>)
    requires DistinctSamples(s)
    ensures forall k :: k in ByGroup(s) ==> ByGroup(s)[k] in s && (ByGroup(s)[k].group, ByGroup(s)[k].broker) == k
    ensures forall i :: 0 <= i < |s| ==> (s[i].group, s[i].broker) in ByGroup(s)
                                         && ByGroup(s)[(s[i].group, s[i].broker)] == s[i]
  {
    if s != [] {
      ByGroupIs(s[..|s| - 1]);
      assert s == s[..|s| - 1] + [s[|s| - 1]];
    }
  }

  lemma {:induction false} ByIdIs(s: seq<Broker>)
    requires DistinctInventory(s)
    ensures forall id :: id in ById(s) ==> ById(s)[id] in s && ById(s)[id].id == id
    ensures forall i :: 0 <= i < |s| ==> s[i].id in ById(s) && ById(s)[s[i].id] == s[i]
  {
    if s != [] {
      ByIdIs(s[..|s| - 1]);
      assert s == s[..|s| - 1] + [s[|s| - 1]];
    }
  }

  lemma CycleRows(c: Cycle)
    requires ValidCycle(c)
    ensures DistinctGroups(c.groups) && CountsValid(ViewOf(c))
    ensures forall i :: 0 <= i < |ViewOf(c).groups| ==> ValidGroup(ViewOf(c).groups[i], c.now, c.inventory)
    ensures forall g :: g in ViewOf(c).groups <==> g in c.groups
  {
    ByGroupIs(c.samples);
    SameElements(ViewOf(c).groups, c.groups);
    hide ByGroup, ByBroker, ById, SortGroups, ValidGroup;
    var v := ViewOf(c);
    forall k | k in v.samples ensures ValidMetric(v.samples[k].queued) && ValidMetric(v.samples[k].unacked) {
      var i :| 0 <= i < |c.samples| && c.samples[i] == v.samples[k];
      assert ValidGroupSample(c.samples[i], c);
    }
    forall i | 0 <= i < |v.groups| ensures ValidGroup(v.groups[i], c.now, c.inventory) {
      assert v.groups[i] in c.groups;
    }
  }
}
