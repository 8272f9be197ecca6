/** Routes: where a message of a business hash goes under a snapshot, and the bounded
    cache of such routes. Follows the two assignmentFor functions of
    shim/publisher/publisher.go. */
module Placement {
  import opened Control
  import R = Routing
  import opened OutboxRecords

  /** Score of a broker for a group and a business hash. */
  type Scoring = (string, string, string) -> Option<nat>

  function ScoreOf(scoring: Scoring, group: string, hash: string): R.Score {
    b => scoring(group, hash, b)
  }

  // ---------------------------------------------------------------- the plain route

  function Serving(rs: seq<Resource>, broker: string): seq<Resource> {
    if rs == [] then []
    else
      var rest := Serving(rs[..|rs| - 1], broker);
      if rs[|rs| - 1].broker == broker then rest + [rs[|rs| - 1]] else rest
  }

  /** The ingress topic without its wildcard, closed by a fixed word. */
  function EventsTopic(topic: string): string {
    (if topic != "" && topic[|topic| - 1] == '>' then topic[..|topic| - 1] else topic) + "events"
  }

  function Endpoint(ds: seq<Descriptor>, id: string): (r: Option<string>)
    ensures r.Some? <==> exists i :: 0 <= i < |ds| && ds[i].id == id
  {
    if ds == [] then None
    else if ds[0].id == id then Some(ds[0].endpoint)
    else
      var r := Endpoint(ds[1..], id);
      assert forall i :: 0 < i < |ds| ==> ds[i] == ds[1..][i - 1];
      assert r.Some? ==> exists i :: 0 <= i < |ds[1..]| && ds[1..][i].id == id;
      r
  }

  function RouteVia(s: Snapshot, broker: string): Option<Route> {
    var serving := Serving(s.currentResources, broker);
    if s.currentResources != [] && |serving| != 1 then None
    else match Endpoint(s.currentBrokers, broker)
      case None => None
      case Some(endpoint) =>
        Some(Route(s.epoch, broker, endpoint, if s.currentResources == [] then s.destination.name
                   else EventsTopic(serving[0].ingressTopic)))
  }

  /** The route of a business hash: the winning broker, its endpoint and its topic. */
  function RouteFor(scoring: Scoring, hash: string, s: Snapshot): Option<Route> {
    var score := ScoreOf(scoring, s.group, hash);
    if !R.Routable(s.current, score) then None else RouteVia(s, R.Champion(s.current, score))
  }

  method FindRoute(scoring: Scoring, hash: string, s: Snapshot) returns (r: Option<Route>)
    ensures r == RouteFor(scoring, hash, s)
  {
    var score := ScoreOf(scoring, s.group, hash);
    var broker := R.RendezvousBroker(s.current, score);
    if broker.None? {
      return None;
    }
    var matched: Option<Resource> := None;
    if |s.currentResources| != 0 {
      for i := 0 to |s.currentResources|
        invariant Serving(s.currentResources[..i], broker.value) == if matched.None? then [] else [matched.value]
      {
        assert s.currentResources[..i + 1][..i] == s.currentResources[..i];
        if s.currentResources[i].broker == broker.value {
          if matched.Some? {
            ServingGrows(s.currentResources, i + 1, broker.value);
            return None;
          }
          matched := Some(s.currentResources[i]);
        }
      }
      assert s.currentResources[..|s.currentResources|] == s.currentResources;
      if matched.None? {
        return None;
      }
    }
    var endpoint := Endpoint(s.currentBrokers, broker.value);
    if endpoint.None? {
      return None;
    }
    return Some(Route(s.epoch, broker.value, endpoint.value,
                      if matched.None? then s.destination.name else EventsTopic(matched.value.ingressTopic)));
  }

  lemma {:induction false} ServingGrows(rs: seq<Resource>, i: nat, broker: string)
    requires i <= |rs|
    ensures |Serving(rs, broker)| >= |Serving(rs[..i], broker)|
    decreases |rs|
  {
    if i == |rs| {
      assert rs[..i] == rs;
    } else {
      var rest := rs[..|rs| - 1];
      assert rest[..i] == rs[..i];
      ServingGrows(rest, i, broker);
    }
  }

  /** The topic events are published to: the ingress topic, without its wildcard. */
  predicate PublishesTo(ingress: string, destination: string) {
    && |destination| >= |"events"| && destination[|destination| - |"events"|..] == "events"
    && var stem := destination[..|destination| - |"events"|];
       ingress == stem + ">" || (ingress == stem && (stem == "" || stem[|stem| - 1] != '>'))
  }

  /** The broker has the best score of all members, and among equals the first name. */
  predicate Chosen(broker: string, hash: string, s: Snapshot, scoring: Scoring) {
    && broker in s.current
    && forall other :: other in s.current && other != broker ==>
         && scoring(s.group, hash, broker).Some? && scoring(s.group, hash, other).Some?
         && var mine, theirs := scoring(s.group, hash, broker).value, scoring(s.group, hash, other).value;
            mine > theirs || (mine == theirs && R.Before(broker, other))
  }

  predicate ReachedBy(broker: string, endpoint: string, ds: seq<Descriptor>) {
    exists i :: 0 <= i < |ds| && ds[i] == Descriptor(broker, endpoint) && forall j :: 0 <= j < i ==> ds[j].id != broker
  }

  /** The one resource of the broker takes events at the destination. */
  predicate ServedAt(broker: string, destination: string, rs: seq<Resource>) {
    exists i :: 0 <= i < |rs| && rs[i].broker == broker && PublishesTo(rs[i].ingressTopic, destination)
                && forall j :: 0 <= j < |rs| && j != i ==> rs[j].broker != broker
  }

  /** The route of a hash under a snapshot: in its epoch to the winner among the members,
      by its own endpoint, to the topic of the one resource that serves it. */
  predicate IsRoute(r: Route, hash: string, s: Snapshot, scoring: Scoring) {
    && r.epoch == s.epoch && Chosen(r.broker, hash, s, scoring) && ReachedBy(r.broker, r.endpoint, s.currentBrokers)
    && if s.currentResources == [] then r.destination == s.destination.name
       else ServedAt(r.broker, r.destination, s.currentResources)
  }

  lemma TopicMeans(ingress: string, destination: string)
    ensures PublishesTo(ingress, destination) <==> destination == EventsTopic(ingress)
  {
    if destination == EventsTopic(ingress) {
      var stem := destination[..|destination| - |"events"|];
      assert destination == stem + "events";
      if ingress != "" && ingress[|ingress| - 1] == '>' {
        assert stem == ingress[..|ingress| - 1] && ingress == stem + ">";
      } else {
        assert stem == ingress;
      }
    }
    if PublishesTo(ingress, destination) {
      var stem := destination[..|destination| - |"events"|];
      assert destination == stem + "events";
      if ingress == stem + ">" {
        assert ingress[..|ingress| - 1] == stem;
      }
    }
  }

  lemma {:induction false} EndpointMeans(ds: seq<Descriptor>, broker: string, endpoint: string)
    ensures ReachedBy(broker, endpoint, ds) <==> Endpoint(ds, broker) == Some(endpoint)
  {
    if ds != [] {
      if ds[0].id == broker {
        assert ds[0].endpoint == endpoint ==> ds[0] == Descriptor(broker, endpoint);
      } else {
        EndpointMeans(ds[1..], broker, endpoint);
        if ReachedBy(broker, endpoint, ds) {
          var i :| 0 <= i < |ds| && ds[i] == Descriptor(broker, endpoint)
                   && forall j :: 0 <= j < i ==> ds[j].id != broker;
          assert ds[1..][i - 1] == ds[i];
        }
        if ReachedBy(broker, endpoint, ds[1..]) {
          var i :| 0 <= i < |ds[1..]| && ds[1..][i] == Descriptor(broker, endpoint)
                   && forall j :: 0 <= j < i ==> ds[1..][j].id != broker;
          assert ds[i + 1] == ds[1..][i];
          forall j | 0 <= j < i + 1 ensures ds[j].id != broker {
            assert j > 0 ==> ds[j] == ds[1..][j - 1];
          }
        }
      }
    }
  }

  lemma {:induction false} ServingMeans(rs: seq<Resource>, broker: string, destination: string)
    ensures ServedAt(broker, destination, rs) <==>
              |Serving(rs, broker)| == 1 && destination == EventsTopic(Serving(rs, broker)[0].ingressTopic)
    ensures Serving(rs, broker) == [] <==> forall i :: 0 <= i < |rs| ==> rs[i].broker != broker
  {
    if rs != [] {
      hide PublishesTo, EventsTopic;
      var rest, last := rs[..|rs| - 1], rs[|rs| - 1];
      assert rs == rest + [last];
      ServingMeans(rest, broker, destination);
      ServedNext(rest, last, broker, destination);
      TopicMeans(last.ingressTopic, destination);
    }
  }

  lemma ServedNext(rest: seq<Resource>, last: Resource, broker: string, destination: string)
    ensures ServedAt(broker, destination, rest + [last]) <==>
              if last.broker != broker then ServedAt(broker, destination, rest)
              else && PublishesTo(last.ingressTopic, destination)
                   && forall i :: 0 <= i < |rest| ==> rest[i].broker != broker
  {
    hide PublishesTo;
    var rs := rest + [last];
    assert rs[|rest|] == last;
    forall i | 0 <= i < |rest| ensures rs[i] == rest[i] {
    }
    if ServedAt(broker, destination, rs) {
      var i :| 0 <= i < |rs| && rs[i].broker == broker && PublishesTo(rs[i].ingressTopic, destination)
               && forall j :: 0 <= j < |rs| && j != i ==> rs[j].broker != broker;
      if last.broker == broker {
        assert i == |rest|;
      } else {
        assert i < |rest| && rest[i] == rs[i];
      }
    }
    if last.broker != broker && ServedAt(broker, destination, rest) {
      var i :| 0 <= i < |rest| && rest[i].broker == broker && PublishesTo(rest[i].ingressTopic, destination)
               && forall j :: 0 <= j < |rest| && j != i ==> rest[j].broker != broker;
      assert rs[i].broker == broker;
    }
  }

  lemma WinnerIsChosen(broker: string, hash: string, s: Snapshot, scoring: Scoring)
    ensures R.Wins(broker, R.Members(s.current), ScoreOf(scoring, s.group, hash)) <==> Chosen(broker, hash, s, scoring)
  {
    var score, members := ScoreOf(scoring, s.group, hash), R.Members(s.current);
    if R.Wins(broker, members, score) {
      forall other | other in s.current && other != broker ensures R.Beats(broker, other, score) {
        assert other in members;
      }
    }
    if Chosen(broker, hash, s, scoring) {
      forall other | other in members && other != broker ensures R.Beats(broker, other, score) {
        assert other in s.current;
      }
    }
  }

  /** A hash has a route exactly when the members are usable and something is its route,
      and then that is it. */
  lemma RouteExactly(scoring: Scoring, hash: string, s: Snapshot, r: Route)
    ensures RouteFor(scoring, hash, s) == Some(r) <==>
              R.Routable(s.current, ScoreOf(scoring, s.group, hash)) && IsRoute(r, hash, s, scoring)
  {
    hide Chosen, ReachedBy, ServedAt, Serving, Endpoint, EventsTopic;
    var score := ScoreOf(scoring, s.group, hash);
    if R.Routable(s.current, score) {
      var winner := R.Champion(s.current, score);
      R.ChampionWins(s.current, score);
      WinnerIsChosen(winner, hash, s, scoring);
      WinnerIsChosen(r.broker, hash, s, scoring);
      if R.Wins(r.broker, R.Members(s.current), score) {
        R.WinnerUnique(winner, r.broker, R.Members(s.current), score);
      }
      EndpointMeans(s.currentBrokers, r.broker, r.endpoint);
      ServingMeans(s.currentResources, r.broker, r.destination);
    }
  }

  // ------------------------------------------------------- which snapshots can route

  /** Every resource belongs to one consumer set. */
  predicate OneConsumerSet(s: Snapshot) {
    forall i, j :: 0 <= i < |s.currentResources| && 0 <= j < |s.currentResources| ==>
      s.currentResources[i].consumerSet == s.currentResources[j].consumerSet
  }

  lemma {:induction false} ServingAre(rs: seq<Resource>, broker: string)
    ensures forall r :: r in Serving(rs, broker) <==> r in rs && r.broker == broker
    ensures DistinctResources(rs) ==> DistinctResources(Serving(rs, broker))
  {
    if rs != [] {
      var rest, last := rs[..|rs| - 1], rs[|rs| - 1];
      assert rs == rest + [last];
      ServingAre(rest, broker);
      if DistinctResources(rs) {
        var kept := Serving(rest, broker);
        forall i | 0 <= i < |kept|
          ensures (kept[i].broker, kept[i].consumerSet) != (last.broker, last.consumerSet)
                  && kept[i].queue != last.queue
        {
          assert kept[i] in rest;
        }
      }
    }
  }

  lemma ServedOnce(rs: seq<Resource>, m: Membership, broker: string)
    requires rs != [] && DistinctResources(rs) && CoversEveryBroker(rs, m) && broker in m
    ensures |Serving(rs, broker)| >= 1
    ensures |Serving(rs, broker)| == 1 <==>
              forall i, j :: 0 <= i < |rs| && 0 <= j < |rs| ==> rs[i].consumerSet == rs[j].consumerSet
  {
    ServingAre(rs, broker);
    hide Serving;
    var serving := Serving(rs, broker);
    var b :| 0 <= b < |m| && m[b] == broker;
    forall i | 0 <= i < |rs| ensures exists k :: 0 <= k < |serving| && serving[k].consumerSet == rs[i].consumerSet {
      assert Serves(rs, m[b], rs[i].consumerSet);
      var k :| 0 <= k < |rs| && rs[k].broker == broker && rs[k].consumerSet == rs[i].consumerSet;
      assert rs[k] in serving;
    }
    assert exists k :: 0 <= k < |serving| && serving[k].consumerSet == rs[0].consumerSet;
    if |serving| > 1 {
      assert serving[0] in rs && serving[1] in rs;
      assert serving[0].consumerSet != serving[1].consumerSet;
    }
  }

  /** A valid snapshot can route a hash that every member scores exactly when the
      group has one consumer set: with two, each broker serves both, and the route of
      any hash is refused as ambiguous. */
  lemma RoutesExactly(scoring: Scoring, hash: string, s: Snapshot)
    requires Valid(s) && forall i :: 0 <= i < |s.current| ==> scoring(s.group, hash, s.current[i]).Some?
    ensures RouteFor(scoring, hash, s).Some? <==> OneConsumerSet(s)
  {
    hide ValidNames, ValidPhase, ValidDescriptors;
    var score := ScoreOf(scoring, s.group, hash);
    assert R.Routable(s.current, score);
    R.ChampionWins(s.current, score);
    var broker := R.Champion(s.current, score);
    ServedOnce(s.currentResources, s.current, broker);
    DescribesEveryMember(s, broker);
  }

  /** One broker, two consumer sets: valid, and no hash can be routed. */
  const TWO_SETS := Snapshot(
    SNAPSHOT_VERSION, "", "", "g", 1, 1, ACTIVE, "h", "a", ["b"], [], [Descriptor("b", "amqp://h")], [], None,
    QueueInfo("q", true), Topic("t"), TWO_RESOURCES, [])

  const TWO_RESOURCES := [Resource(1, "b", "x", "q1", "t1"), Resource(1, "b", "y", "q2", "t2")]

  lemma TwoResourcesValid()
    ensures ValidResources(TWO_RESOURCES, 1, ["b"])
  {
    var rs := TWO_RESOURCES;
    assert ValidResource(rs[0], 1, ["b"]) && ValidResource(rs[1], 1, ["b"]);
    hide ValidResource, NoControlCharacter, NameCharacters, ByteLength;
    assert Serves(rs, "b", "x") by { assert rs[0].broker == "b" && rs[0].consumerSet == "x"; }
    assert Serves(rs, "b", "y") by { assert rs[1].broker == "b" && rs[1].consumerSet == "y"; }
    hide Serves;
    assert DistinctResources(rs);
    forall b, i | 0 <= b < |["b"]| && 0 <= i < |rs| ensures Serves(rs, ["b"][b], rs[i].consumerSet) {
      assert rs[i].consumerSet == "x" || rs[i].consumerSet == "y";
    }
  }

  lemma TwoSetsDescribed()
    ensures ValidDescriptors([Descriptor("b", "amqp://h")], ["b"], true)
  {
    assert "amqp://h"[7..] == "h";
    assert ValidHost("h");
    assert ValidDescriptor(Descriptor("b", "amqp://h"), ["b"]);
  }

  lemma TwoSetsValid()
    ensures Valid(TWO_SETS)
  {
    TwoResourcesValid();
    TwoSetsDescribed();
    assert ValidNames(TWO_SETS);
    assert ValidMembership(["b"], true) && ValidMembership([], false);
    hide ValidNames, ValidMembership, ValidResources;
    assert ValidDescriptors([], [], false);
  }

  /** With two consumer sets a valid snapshot routes nothing. */
  lemma TwoSetsRefused(scoring: Scoring, hash: string)
    ensures Valid(TWO_SETS) && RouteFor(scoring, hash, TWO_SETS).None?
  {
    TwoSetsValid();
    hide Valid, RouteVia;
    if R.Routable(TWO_SETS.current, ScoreOf(scoring, TWO_SETS.group, hash)) {
      assert TWO_SETS.currentResources[0].consumerSet != TWO_SETS.currentResources[1].consumerSet;
      RoutesExactly(scoring, hash, TWO_SETS);
    }
  }

  /** As many descriptors as members, for members, all different: all of them. */
  lemma DescribesEveryMember(s: Snapshot, broker: string)
    requires ValidDescriptors(s.currentBrokers, s.current, true) && ValidMembership(s.current, true)
             && broker in s.current
    ensures Endpoint(s.currentBrokers, broker).Some?
  {
    var ids := set i | 0 <= i < |s.currentBrokers| :: s.currentBrokers[i].id;
    var members := set b | b in s.current;
    IdsCount(s.currentBrokers);
    MembersCount(s.current);
    forall id | id in ids ensures id in members {
      var i :| 0 <= i < |s.currentBrokers| && s.currentBrokers[i].id == id;
      assert ValidDescriptor(s.currentBrokers[i], s.current);
    }
    SubsetEqual(ids, members);
    assert broker in ids;
  }

  lemma {:induction false} IdsCount(ds: seq<Descriptor>)
    requires DistinctDescriptors(ds)
    ensures |set i | 0 <= i < |ds| :: ds[i].id| == |ds|
  {
    if ds != [] {
      var rest, last := ds[..|ds| - 1], ds[|ds| - 1];
      IdsCount(rest);
      var few := set i | 0 <= i < |rest| :: rest[i].id;
      var all := set i | 0 <= i < |ds| :: ds[i].id;
      forall id | id in all ensures id in few + {last.id} {
        var i :| 0 <= i < |ds| && ds[i].id == id;
        assert i < |rest| ==> rest[i].id in few;
      }
      forall id | id in few ensures id in all && id != last.id {
        var i :| 0 <= i < |rest| && rest[i].id == id;
        assert ds[i].id == id;
      }
      assert last.id in all;
      assert all == few + {last.id};
    }
  }

  lemma {:induction false} MembersCount(m: Membership)
    requires NoDuplicates(m)
    ensures |set b | b in m| == |m|
  {
    if m != [] {
      var rest, last := m[..|m| - 1], m[|m| - 1];
      assert m == rest + [last];
      MembersCount(rest);
      assert last !in rest;
      assert (set b | b in m) == (set b | b in rest) + {last};
    }
  }

  lemma {:induction false} SubsetEqual(a: set<string>, b: set<string>)
    requires a <= b && |a| == |b|
    ensures a == b
  {
    if a != {} {
      var x :| x in a;
      SubsetEqual(a - {x}, b - {x});
    }
  }

  // ------------------------------------------------------------------- the cache

  datatype CacheKey = CacheKey(group: string, hash: string, revision: nat)

  datatype Cache = Cache(entries: map<CacheKey, Route>, order: seq<CacheKey>)

  /** Which snapshot a revision of a group names. */
  type Names = map<(string, nat), Snapshot>

  predicate NamesIt(names: Names, s: Snapshot) {
    (s.group, s.revision) in names && names[(s.group, s.revision)] == s
  }

  /** The cached keys are exactly the eviction queue, without repeats and within the
      limit. */
  ghost predicate Queued(c: Cache, limit: nat) {
    |c.order| <= limit && NoDuplicates(c.order) && forall k :: k in c.entries <==> k in c.order
  }

  /** Every cached route is what computing it again would give. */
  predicate Agrees(c: Cache, scoring: Scoring, names: Names) {
    forall k :: k in c.entries ==>
      (k.group, k.revision) in names && RouteFor(scoring, k.hash, names[(k.group, k.revision)]) == Some(c.entries[k])
  }

  lemma AgreesWithMore(c: Cache, scoring: Scoring, names: Names, more: Names)
    requires Agrees(c, scoring, names) && forall k :: k in names ==> k in more && more[k] == names[k]
    ensures Agrees(c, scoring, more)
  {
    hide RouteFor;
  }

  /** Drops the oldest entry. */
  function Evicted(c: Cache): Cache
    requires c.order != []
  {
    Cache(c.entries - {c.order[0]}, c.order[1..])
  }

  lemma EvictedQueued(c: Cache, limit: nat)
    requires Queued(c, limit) && c.order != []
    ensures Queued(Evicted(c), limit - 1)
  {
    var d := Evicted(c);
    forall k ensures k in d.entries <==> k in d.order {
      if k in d.order {
        var i :| 0 <= i < |d.order| && d.order[i] == k;
        assert c.order[i + 1] == k;
      }
      if k in d.entries {
        var i :| 0 <= i < |c.order| && c.order[i] == k;
        assert d.order[i - 1] == k;
      }
    }
  }

  lemma AddedQueued(c: Cache, limit: nat, k: CacheKey, route: Route)
    requires Queued(c, limit) && k !in c.entries
    ensures Queued(Cache(c.entries[k := route], c.order + [k]), limit + 1)
  {
  }

  /** The cached route: a hit equals computing it again and changes nothing; a miss is
      remembered, in place of the oldest entry when the cache is full. */
  method CachedRoute(c: Cache, limit: nat, scoring: Scoring, hash: string, s: Snapshot, ghost names: Names)
    returns (r: Option<Route>, d: Cache)
    requires limit > 0 && Queued(c, limit) && Agrees(c, scoring, names) && NamesIt(names, s)
    ensures r == RouteFor(scoring, hash, s)
    ensures Queued(d, limit) && Agrees(d, scoring, names)
    ensures var key := CacheKey(s.group, hash, s.revision);
            if key in c.entries || r.None? then d == c
            else var full := |c.order| == limit;
                 && d.order == (if full then c.order[1..] else c.order) + [key]
                 && d.entries == (if full then c.entries - {c.order[0]} else c.entries)[key := r.value]
  {
    hide RouteFor, Queued;
    CacheSize(c, limit);
    var key := CacheKey(s.group, hash, s.revision);
    d := c;
    if key in c.entries {
      return Some(c.entries[key]), c;
    }
    r := FindRoute(scoring, hash, s);
    if r.Some? {
      if |c.order| >= limit {
        EvictedQueued(c, limit);
        d := Evicted(c);
      } else {
        QueuedTighter(c, limit);
      }
      AddedQueued(d, limit - 1, key, r.value);
      d := Cache(d.entries[key := r.value], d.order + [key]);
    }
  }

  lemma CacheSize(c: Cache, limit: nat)
    requires Queued(c, limit)
    ensures |c.order| <= limit
  {
  }

  lemma QueuedTighter(c: Cache, limit: nat)
    requires Queued(c, limit) && |c.order| < limit
    ensures Queued(c, limit - 1)
  {
  }
}
