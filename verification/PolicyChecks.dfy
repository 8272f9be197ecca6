/** The loops that check a telemetry cycle before anything is decided on it.
    Follows policy/types.go and the head of Aggregate in policy/aggregate.go. */
module PolicyChecks {
  import opened Control
  import opened Policy

  method CheckUsage(r: Resources) returns (ok: bool)
    ensures ok <==> ValidUsage(r)
  {
    ok := !((r.ingress.Known? && r.ingress.value < 0.0) || (r.egress.Known? && r.egress.value < 0.0)
            || (r.spool.Known? && r.spool.value < 0.0) || (r.connections.Known? && r.connections.value < 0.0));
  }

  method CheckPolicy(p: GroupPolicy) returns (ok: bool)
    ensures ok <==> ValidPolicy(p)
  {
    if p.minimum == 0 || p.maximum < p.minimum || p.minimum + p.warm > p.maximum {
      return false;
    }
    return !(p.headroomPercent < 0.0 || p.headroomPercent >= 100.0 || p.pressureWindow == 0 || p.telemetryMaxAge == 0
             || p.maxConcurrentChanges == 0);
  }

  lemma Listed(inventory: seq<Broker>, ids: set<string>, id: string)
    requires ids == set k | 0 <= k < |inventory| :: inventory[k].id
    ensures id in ids <==> ListsBroker(inventory, id)
  {
  }

  lemma ListedGroup(groups: seq<Group>, ids: set<string>, id: string)
    requires ids == set k | 0 <= k < |groups| :: groups[k].id
    ensures id in ids <==> ListsGroup(groups, id)
  {
  }

  /** Named, with positive limits, and each once. */
  method CheckInventory(inventory: seq<Broker>) returns (ok: bool, ids: set<string>)
    ensures ok <==> (forall i :: 0 <= i < |inventory| ==> inventory[i].id != "" && Positive(inventory[i].limits))
                    && DistinctInventory(inventory)
    ensures ok ==> ids == set k | 0 <= k < |inventory| :: inventory[k].id
  {
    ids := {};
    for i := 0 to |inventory|
      invariant ids == set k | 0 <= k < i :: inventory[k].id
      invariant forall k :: 0 <= k < i ==> inventory[k].id != "" && Positive(inventory[k].limits)
      invariant forall k, l :: 0 <= k < l < i ==> inventory[k].id != inventory[l].id
    {
      var b := inventory[i];
      if b.id == "" || b.limits.ingress <= 0.0 || b.limits.egress <= 0.0 || b.limits.spool <= 0.0
         || b.limits.connections <= 0.0 {
        return false, ids;
      }
      if b.id in ids {
        var k :| 0 <= k < i && inventory[k].id == b.id;
        return false, ids;
      }
      ids := ids + {b.id};
    }
    return true, ids;
  }

  /** Members of the inventory, each once. */
  method CheckMembers(membership: seq<string>, inventory: seq<Broker>, ids: set<string>) returns (ok: bool)
    requires ids == set k | 0 <= k < |inventory| :: inventory[k].id
    ensures ok <==> (forall i :: 0 <= i < |membership| ==> ListsBroker(inventory, membership[i]))
                    && NoDuplicates(membership)
  {
    hide ListsBroker;
    var seen: set<string> := {};
    for i := 0 to |membership|
      invariant seen == set k | 0 <= k < i :: membership[k]
      invariant forall k :: 0 <= k < i ==> ListsBroker(inventory, membership[k])
      invariant forall k, l :: 0 <= k < l < i ==> membership[k] != membership[l]
    {
      Listed(inventory, ids, membership[i]);
      if membership[i] !in ids {
        return false;
      }
      if membership[i] in seen {
        var k :| 0 <= k < i && membership[k] == membership[i];
        return false;
      }
      seen := seen + {membership[i]};
    }
    return true;
  }

  method CheckGroup(g: Group, now: Time, inventory: seq<Broker>, ids: set<string>) returns (ok: bool)
    requires ids == set k | 0 <= k < |inventory| :: inventory[k].id
    ensures ok <==> ValidGroup(g, now, inventory)
  {
    hide ValidPolicy, ListsBroker, NoDuplicates;
    if g.id == "" || g.lastTransitionAt > now || |g.membership| > g.policy.maximum {
      return false;
    }
    ok := CheckPolicy(g.policy);
    if !ok { return; }
    ok := CheckMembers(g.membership, inventory, ids);
    if !ok { return; }
    if g.choice.Some? {
      var c := g.choice.value;
      if c.broker == "" || c.broker !in g.membership || (c.safe && c.evidence == "") {
        return false;
      }
    }
    return true;
  }

  method CheckGroups(c: Cycle, ids: set<string>) returns (ok: bool, names: set<string>)
    requires ids == set k | 0 <= k < |c.inventory| :: c.inventory[k].id
    ensures ok <==> (forall i :: 0 <= i < |c.groups| ==> ValidGroup(c.groups[i], c.now, c.inventory))
                    && DistinctGroups(c.groups)
    ensures ok ==> names == set k | 0 <= k < |c.groups| :: c.groups[k].id
  {
    hide ValidGroup;
    names := {};
    for i := 0 to |c.groups|
      invariant names == set k | 0 <= k < i :: c.groups[k].id
      invariant forall k :: 0 <= k < i ==> ValidGroup(c.groups[k], c.now, c.inventory)
      invariant forall k, l :: 0 <= k < l < i ==> c.groups[k].id != c.groups[l].id
    {
      if c.groups[i].id in names {
        var k :| 0 <= k < i && c.groups[k].id == c.groups[i].id;
        return false, names;
      }
      ok := CheckGroup(c.groups[i], c.now, c.inventory, ids);
      if !ok {
        return false, names;
      }
      names := names + {c.groups[i].id};
    }
    return true, names;
  }

  method CheckBrokers(c: Cycle, ids: set<string>) returns (ok: bool)
    requires ids == set k | 0 <= k < |c.inventory| :: c.inventory[k].id
    ensures ok <==> (forall i :: 0 <= i < |c.brokers| ==> ValidBrokerSample(c.brokers[i], c))
                    && DistinctBrokers(c.brokers)
  {
    hide ValidUsage, ListsBroker;
    var seen: set<string> := {};
    for i := 0 to |c.brokers|
      invariant seen == set k | 0 <= k < i :: c.brokers[k].broker
      invariant forall k :: 0 <= k < i ==> ValidBrokerSample(c.brokers[k], c)
      invariant forall k, l :: 0 <= k < l < i ==> c.brokers[k].broker != c.brokers[l].broker
    {
      var s := c.brokers[i];
      Listed(c.inventory, ids, s.broker);
      ok := CheckUsage(s.resources);
      if !ok || s.broker == "" || s.observedAt == 0 || s.observedAt > c.capturedAt || s.broker !in ids {
        assert !ValidBrokerSample(c.brokers[i], c);
        return false;
      }
      if s.broker in seen {
        var k :| 0 <= k < i && c.brokers[k].broker == s.broker;
        return false;
      }
      seen := seen + {s.broker};
    }
    return true;
  }

  method CheckSample(s: GroupSample, c: Cycle, ids: set<string>, names: set<string>) returns (ok: bool)
    requires ids == set k | 0 <= k < |c.inventory| :: c.inventory[k].id
    requires names == set k | 0 <= k < |c.groups| :: c.groups[k].id
    ensures ok <==> ValidGroupSample(s, c)
  {
    hide ValidUsage, ListsBroker, ListsGroup;
    Listed(c.inventory, ids, s.broker);
    ListedGroup(c.groups, names, s.group);
    ok := CheckUsage(s.resources);
    ok := ok && !(s.group == "" || s.broker == "" || s.observedAt == 0 || s.observedAt > c.capturedAt
                  || (s.queued.Known? && s.queued.value < 0.0) || (s.unacked.Known? && s.unacked.value < 0.0)
                  || s.group !in names || s.broker !in ids);
  }

  method CheckSamples(c: Cycle, ids: set<string>, names: set<string>) returns (ok: bool)
    requires ids == set k | 0 <= k < |c.inventory| :: c.inventory[k].id
    requires names == set k | 0 <= k < |c.groups| :: c.groups[k].id
    ensures ok <==> (forall i :: 0 <= i < |c.samples| ==> ValidGroupSample(c.samples[i], c))
                    && DistinctSamples(c.samples)
  {
    hide ValidGroupSample;
    var seen: set<(string, string)> := {};
    for i := 0 to |c.samples|
      invariant seen == set k | 0 <= k < i :: (c.samples[k].group, c.samples[k].broker)
      invariant forall k :: 0 <= k < i ==> ValidGroupSample(c.samples[k], c)
      invariant forall k, l :: 0 <= k < l < i ==>
                  (c.samples[k].group, c.samples[k].broker) != (c.samples[l].group, c.samples[l].broker)
    {
      var s := c.samples[i];
      ok := CheckSample(s, c, ids, names);
      if !ok {
        return false;
      }
      if (s.group, s.broker) in seen {
        var k :| 0 <= k < i && (c.samples[k].group, c.samples[k].broker) == (s.group, s.broker);
        return false;
      }
      seen := seen + {(s.group, s.broker)};
    }
    return true;
  }

  method CheckCycle(c: Cycle) returns (ok: bool)
    ensures ok <==> ValidCycle(c)
  {
    hide ValidBrokerSample, ValidGroupSample, ValidGroup, Positive, DistinctBrokers, DistinctSamples, DistinctInventory,
         DistinctGroups;
    if c.capturedAt == 0 || c.capturedAt > c.now {
      return false;
    }
    var ids, names;
    ok, ids := CheckInventory(c.inventory);
    if !ok { return; }
    ok, names := CheckGroups(c, ids);
    if !ok { return; }
    ok := CheckBrokers(c, ids);
    if !ok { return; }
    ok := CheckSamples(c, ids, names);
  }
}
