/** The publisher shim: membership per group, admission of messages under it, and
    reassignment of everything retryable when a new epoch becomes ACTIVE.
    Follows shim/publisher/publisher.go and shim/publisher/fail_closed.go. What the
    customer library computes from a message is part of the message here. */
module PublisherObject {
  import opened Control
  import opened OutboxRecords
  import opened OutboxChanges
  import opened OutboxEffects
  import OutboxStorage
  import OutboxUpkeep
  import Outbox
  import opened Placement
  import R = Routing
  import PS = PublisherSteps

  datatype Contract = Contract(hashContract: string, libraryVersion: string)

  datatype Message = Message(eventId: string, topic: string, headers: map<string, string>, payload: string,
                             group: string, hash: string)

  const RESERVED_PREFIX := "swlb."
  const QUEUE_PARTITION := "JMSXGroupID"

  // -------------------------------------------------------------------- admission

  predicate ReservedHeader(key: string) {
    RESERVED_PREFIX <= key || key == QUEUE_PARTITION
  }

  /** Everything about a message but its route is in order. */
  predicate Admissible(m: Message, membership: map<string, Snapshot>, contracts: map<string, Contract>) {
    && m.eventId != "" && m.topic != ""
    && (forall k :: k in m.headers ==> !ReservedHeader(k))
    && m.group != "" && m.group in membership && m.group in contracts
    && membership[m.group].hashContract == contracts[m.group].hashContract
    && membership[m.group].libraryVersion == contracts[m.group].libraryVersion
  }

  function ContentOf(m: Message, c: Contract): Content {
    Content(m.eventId, m.payload, m.topic, m.headers, m.group + "\0" + m.hash, m.group, m.hash, c.hashContract,
            c.libraryVersion)
  }

  /** The record of a message: routed under a dispatchable snapshot, unassigned
      otherwise, and none where the message or its route is refused. */
  function RecordFor(m: Message, membership: map<string, Snapshot>, contracts: map<string, Contract>,
                     scoring: Scoring): Option<Record> {
    if !Admissible(m, membership, contracts) then None
    else
      var s, c := membership[m.group], contracts[m.group];
      var unrouted := Record(ContentOf(m, c), s.algorithm, NO_ROUTE, Unassigned, 0, "", 0, 0, 0, 0);
      if !PS.Dispatchable(s) then Some(unrouted)
      else match RouteFor(scoring, m.hash, s)
        case None => None
        case Some(route) => Some(unrouted.(route := route, state := Ready))
  }

  /** A header the publisher sets itself. */
  predicate OwnHeader(key: string) {
    (|key| >= 5 && key[..5] == "swlb.") || key == "JMSXGroupID"
  }

  /** The record keeps what the message says, under the contract of its group, and is
      routed by its own hash while the membership lets the group dispatch. */
  predicate StoredAs(m: Message, s: Snapshot, c: Contract, scoring: Scoring, r: Record) {
    && r.content.eventId == m.eventId && r.content.payload == m.payload && r.content.topic == m.topic
    && r.content.properties == m.headers && r.content.group == m.group && r.content.hash == m.hash
    && r.content.orderingKey == m.group + "\0" + m.hash
    && r.content.hashContract == c.hashContract && r.content.libraryVersion == c.libraryVersion
    && r.algorithm == s.algorithm
    && if s.phase == ACTIVE || s.phase == PREPARE then r.state == Ready && IsRoute(r.route, m.hash, s, scoring)
       else r.state == Unassigned && r.route == Route(0, "", "", "")
  }

  /** Named and addressed, without headers of the publisher, for a group whose membership
      and contract agree, and routable where it would be routed. */
  ghost predicate MayAccept(m: Message, membership: map<string, Snapshot>, contracts: map<string, Contract>,
                            scoring: Scoring) {
    && m.eventId != "" && m.topic != "" && (forall k :: k in m.headers ==> !OwnHeader(k))
    && m.group != "" && m.group in membership && m.group in contracts
    && Contract(membership[m.group].hashContract, membership[m.group].libraryVersion) == contracts[m.group]
    && (membership[m.group].phase == ACTIVE || membership[m.group].phase == PREPARE ==>
          && R.Routable(membership[m.group].current, ScoreOf(scoring, membership[m.group].group, m.hash))
          && exists route :: IsRoute(route, m.hash, membership[m.group], scoring))
  }

  /** A record is built exactly for acceptable messages, and it is the message's. */
  lemma RecordExactly(m: Message, membership: map<string, Snapshot>, contracts: map<string, Contract>,
                      scoring: Scoring)
    ensures RecordFor(m, membership, contracts, scoring).Some? <==> MayAccept(m, membership, contracts, scoring)
    ensures RecordFor(m, membership, contracts, scoring).Some? ==>
              && m.group in membership && m.group in contracts
              && StoredAs(m, membership[m.group], contracts[m.group], scoring,
                          RecordFor(m, membership, contracts, scoring).value)
  {
    hide RouteFor, IsRoute, R.Routable;
    forall k ensures ReservedHeader(k) <==> OwnHeader(k) {
      assert RESERVED_PREFIX == "swlb.";
    }
    if Admissible(m, membership, contracts) {
      var s := membership[m.group];
      forall route
        ensures RouteFor(scoring, m.hash, s) == Some(route) <==>
                  R.Routable(s.current, ScoreOf(scoring, s.group, m.hash)) && IsRoute(route, m.hash, s, scoring)
      {
        RouteExactly(scoring, m.hash, s, route);
      }
    }
  }

  /** What the publisher builds passes the checks of the outbox exactly when message and
      contract are complete: it is routed in the epoch of a dispatchable membership, or
      unassigned, and keyed by group and hash. */
  lemma RecordStorable(m: Message, membership: map<string, Snapshot>, contracts: map<string, Contract>,
                       scoring: Scoring)
    requires RecordFor(m, membership, contracts, scoring).Some? && Valid(membership[m.group])
    ensures var r := RecordFor(m, membership, contracts, scoring).value;
            && (ValidNew(r) <==> Filled(m, contracts))
            && r.content.eventId == m.eventId && r.content.group == m.group && r.content.hash == m.hash
            && (r.state == Ready <==> PS.Dispatchable(membership[m.group]))
            && (r.state == Ready ==> r.route.epoch == membership[m.group].epoch)
  {
    assert contracts[m.group].hashContract != "";
    hide Valid, RouteFor;
    if PS.Dispatchable(membership[m.group]) {
      RouteComplete(scoring, m.hash, membership[m.group]);
    }
  }

  /** What a record needs and neither message admission nor membership checks. */
  predicate Filled(m: Message, contracts: map<string, Contract>) {
    m.hash != "" && m.group in contracts && contracts[m.group].libraryVersion != ""
  }

  predicate NoSeparator(group: string) {
    forall i :: 0 <= i < |group| ==> group[i] != '\0'
  }

  lemma FirstSeparator(group: string, hash: string)
    requires NoSeparator(group)
    ensures var x := group + "\0" + hash;
            |x| > |group| && x[|group|] == '\0' && forall i :: 0 <= i < |group| ==> x[i] != '\0'
  {
  }

  /** The records of two messages are kept in order exactly when they share group and hash. */
  lemma KeysAreGroupAndHash(a: Message, c: Contract, b: Message, d: Contract, r: Record, s: Record)
    requires NoSeparator(a.group) && NoSeparator(b.group)
    requires r.content == ContentOf(a, c) && s.content == ContentOf(b, d)
    ensures Key(r) == Key(s) <==> a.group == b.group && a.hash == b.hash
  {
    var x, y := a.group + "\0" + a.hash, b.group + "\0" + b.hash;
    if x == y {
      FirstSeparator(a.group, a.hash);
      FirstSeparator(b.group, b.hash);
      assert a.group == x[..|a.group|] && b.group == y[..|b.group|];
      assert a.hash == x[|a.group| + 1..] && b.hash == y[|b.group| + 1..];
    }
  }

  /** The records of messages that are all admissible. */
  function RecordsFor(messages: seq<Message>, membership: map<string, Snapshot>, contracts: map<string, Contract>,
                      scoring: Scoring): (r: seq<Record>)
    requires forall i :: 0 <= i < |messages| ==> RecordFor(messages[i], membership, contracts, scoring).Some?
    ensures |r| == |messages| && forall i :: 0 <= i < |r| ==>
              r[i] == RecordFor(messages[i], membership, contracts, scoring).value
  {
    seq(|messages|, i requires 0 <= i < |messages| => RecordFor(messages[i], membership, contracts, scoring).value)
  }

  /** Complete messages with events that are neither live nor repeated. */
  predicate NewEvents(messages: seq<Message>, contracts: map<string, Contract>, records: Records) {
    && (forall i :: 0 <= i < |messages| ==> Filled(messages[i], contracts) && messages[i].eventId !in records)
    && (forall i, j :: 0 <= i < j < |messages| ==> messages[i].eventId != messages[j].eventId)
  }

  lemma NewEventsFresh(messages: seq<Message>, membership: map<string, Snapshot>, contracts: map<string, Contract>,
                       scoring: Scoring, records: Records)
    requires forall i :: 0 <= i < |messages| ==> RecordFor(messages[i], membership, contracts, scoring).Some?
    requires forall g :: g in membership ==> Valid(membership[g])
    ensures FreshBatch(RecordsFor(messages, membership, contracts, scoring), records) <==>
              NewEvents(messages, contracts, records)
  {
    var built := RecordsFor(messages, membership, contracts, scoring);
    forall i | 0 <= i < |messages|
      ensures (ValidNew(built[i]) <==> Filled(messages[i], contracts))
              && built[i].content.eventId == messages[i].eventId
    {
      assert messages[i].group in membership;
      RecordStorable(messages[i], membership, contracts, scoring);
    }
    hide RecordFor, RecordsFor, ValidNew, Filled, Valid;
  }

  /** The message is stored under its event as what it says, new and not yet attempted. */
  predicate MessageStored(m: Message, membership: map<string, Snapshot>, contracts: map<string, Contract>,
                          scoring: Scoring, after: Records, sequence: nat, now: nat) {
    && m.group in membership && m.group in contracts && m.eventId in after
    && StoredAs(m, membership[m.group], contracts[m.group], scoring, after[m.eventId])
    && after[m.eventId].sequence == sequence && after[m.eventId].attempts == 0
    && after[m.eventId].lastError == "" && after[m.eventId].acceptedAt == after[m.eventId].updatedAt == now
  }

  /** So is every message, in order, and nothing else changed. */
  predicate MessagesStored(messages: seq<Message>, membership: map<string, Snapshot>, contracts: map<string, Contract>,
                           scoring: Scoring, before: Records, after: Records, first: nat, now: nat) {
    && (forall i :: 0 <= i < |messages| ==>
          MessageStored(messages[i], membership, contracts, scoring, after, first + i, now))
    && (forall id :: id in before ==> id in after && after[id] == before[id])
    && (forall id :: id in after && id !in before ==> exists i :: 0 <= i < |messages| && messages[i].eventId == id)
  }

  lemma RecordStored(m: Message, membership: map<string, Snapshot>, contracts: map<string, Contract>,
                      scoring: Scoring, r: Record, stored: Record)
    requires Some(r) == RecordFor(m, membership, contracts, scoring)
    requires stored.content == r.content && stored.algorithm == r.algorithm && stored.route == r.route
             && stored.state == if r.state == Unset then Unassigned else r.state
    ensures m.group in membership && m.group in contracts
    ensures StoredAs(m, membership[m.group], contracts[m.group], scoring, stored)
  {
    hide RecordFor, IsRoute;
    RecordExactly(m, membership, contracts, scoring);
  }

  ghost predicate BuiltFor(messages: seq<Message>, built: seq<Record>, membership: map<string, Snapshot>,
                           contracts: map<string, Contract>, scoring: Scoring) {
    && |built| == |messages|
    && forall i :: 0 <= i < |messages| ==>
         Some(built[i]) == RecordFor(messages[i], membership, contracts, scoring)
         && built[i].content.eventId == messages[i].eventId
  }

  lemma StoredAt(messages: seq<Message>, built: seq<Record>, membership: map<string, Snapshot>,
                 contracts: map<string, Contract>, scoring: Scoring, before: Records, after: Records, first: nat,
                 now: nat, size: Content -> nat, i: nat)
    requires BuiltFor(messages, built, membership, contracts, scoring) && i < |messages|
    requires WereAccepted(built, before, after, first, now, size)
    ensures MessageStored(messages[i], membership, contracts, scoring, after, first + i, now)
  {
    hide RecordFor, StoredAs;
    assert messages[i].eventId == built[i].content.eventId;
    RecordStored(messages[i], membership, contracts, scoring, built[i], after[messages[i].eventId]);
  }

  lemma OthersKept(messages: seq<Message>, built: seq<Record>, membership: map<string, Snapshot>,
                   contracts: map<string, Contract>, scoring: Scoring, before: Records, after: Records, first: nat,
                   now: nat, size: Content -> nat)
    requires BuiltFor(messages, built, membership, contracts, scoring)
    requires WereAccepted(built, before, after, first, now, size)
    ensures forall id :: id in before ==> id in after && after[id] == before[id]
    ensures forall id :: id in after && id !in before ==>
              exists i :: 0 <= i < |messages| && messages[i].eventId == id
  {
    hide RecordFor;
    forall id | id in after && id !in before ensures exists i :: 0 <= i < |messages| && messages[i].eventId == id {
      var i :| 0 <= i < |built| && built[i].content.eventId == id;
      assert messages[i].eventId == id;
    }
  }

  lemma BatchStored(messages: seq<Message>, built: seq<Record>, membership: map<string, Snapshot>,
                    contracts: map<string, Contract>, scoring: Scoring, before: Records, after: Records, first: nat,
                    now: nat, size: Content -> nat)
    requires BuiltFor(messages, built, membership, contracts, scoring)
    requires WereAccepted(built, before, after, first, now, size)
    ensures MessagesStored(messages, membership, contracts, scoring, before, after, first, now)
  {
    hide BuiltFor, WereAccepted, MessageStored;
    OthersKept(messages, built, membership, contracts, scoring, before, after, first, now, size);
    forall i | 0 <= i < |messages|
      ensures MessageStored(messages[i], membership, contracts, scoring, after, first + i, now)
    {
      StoredAt(messages, built, membership, contracts, scoring, before, after, first, now, size, i);
    }
  }

  datatype AcceptReply = Accepted(records: seq<Record>) | NotAccepted

  // ----------------------------------------------------------------- reassignment

  predicate Retryable(r: Record, group: string) {
    r.content.group == group && (r.state == Unassigned || r.state == Ready)
  }

  predicate Reroutable(r: Record, s: Snapshot, c: Contract, scoring: Scoring) {
    && r.content.hashContract == c.hashContract && r.content.libraryVersion == c.libraryVersion
    && r.algorithm == s.algorithm
    && RouteFor(scoring, r.content.hash, s).Some?
  }

  predicate AllReroutable(live: seq<Record>, s: Snapshot, c: Contract, scoring: Scoring) {
    forall i :: 0 <= i < |live| && Retryable(live[i], s.group) ==> Reroutable(live[i], s, c, scoring)
  }

  /** Accepted for the group, and not on its way to a broker. */
  predicate Waiting(r: Record, group: string) {
    r.content.group == group && (r.state == Unassigned || r.state == Ready)
  }

  /** Made under the contract and the algorithm of the snapshot, which has a route for it. */
  ghost predicate CanMove(r: Record, s: Snapshot, c: Contract, scoring: Scoring) {
    && r.content.hashContract == c.hashContract && r.content.libraryVersion == c.libraryVersion
    && r.algorithm == s.algorithm && R.Routable(s.current, ScoreOf(scoring, s.group, r.content.hash))
    && exists route :: IsRoute(route, r.content.hash, s, scoring)
  }

  ghost predicate AllCanMove(records: Records, s: Snapshot, c: Contract, scoring: Scoring) {
    forall id :: id in records && Waiting(records[id], s.group) ==> CanMove(records[id], s, c, scoring)
  }

  predicate NoneWaits(records: Records, group: string) {
    forall id :: id in records ==> !Waiting(records[id], group)
  }

  /** Everything that waits is ready with its route under the snapshot, and nothing else
      changed. */
  predicate AllMoved(before: Records, after: Records, s: Snapshot, scoring: Scoring, now: nat) {
    && after.Keys == before.Keys
    && forall id :: id in before ==>
         if Waiting(before[id], s.group)
         then && IsRoute(after[id].route, before[id].content.hash, s, scoring)
              && after[id] == before[id].(state := Ready, route := after[id].route, lastError := after[id].lastError,
                                          updatedAt := now)
              && (after[id].lastError == "" || after[id].route == before[id].route)
         else after[id] == before[id]
  }

  lemma RouteExists(scoring: Scoring, hash: string, s: Snapshot)
    ensures RouteFor(scoring, hash, s).Some? <==>
              && R.Routable(s.current, ScoreOf(scoring, s.group, hash))
              && exists route :: IsRoute(route, hash, s, scoring)
  {
    hide RouteFor, IsRoute, R.Routable;
    forall route ensures RouteFor(scoring, hash, s) == Some(route) <==>
                           R.Routable(s.current, ScoreOf(scoring, s.group, hash)) && IsRoute(route, hash, s, scoring)
    {
      RouteExactly(scoring, hash, s, route);
    }
  }

  lemma ReroutableMeans(live: seq<Record>, records: Records, s: Snapshot, c: Contract, scoring: Scoring)
    requires Enumerates(live, records)
    ensures AllReroutable(live, s, c, scoring) <==> AllCanMove(records, s, c, scoring)
    ensures NothingToRoute(live, s.group) <==> NoneWaits(records, s.group)
  {
    hide RouteFor, IsRoute, R.Routable, Ascending;
    forall r: Record ensures Reroutable(r, s, c, scoring) <==> CanMove(r, s, c, scoring) {
      RouteExists(scoring, r.content.hash, s);
    }
    hide Reroutable, CanMove;
    forall id | id in records
      ensures exists i :: 0 <= i < |live| && live[i] == records[id]
    {
      assert records[id] in live;
    }
  }

  datatype ApplyReply = Applied | StaleMembership | InvalidMembership | ContractMismatch | NotAssigned

  datatype RetryReply = Retried | NoRecord | NoValidMembership | RouteChanged | NotRetried

  predicate FoundIn(live: seq<Record>, n: nat, group: string, id: string) {
    exists k :: 0 <= k < n && k < |live| && live[k].content.eventId == id && Retryable(live[k], group)
  }

  lemma FoundLater(live: seq<Record>, n: nat, group: string, id: string)
    requires FoundIn(live, n, group, id)
    ensures FoundIn(live, n + 1, group, id)
  {
    var k :| 0 <= k < n && k < |live| && live[k].content.eventId == id && Retryable(live[k], group);
  }

  /** The assignments made so far for a prefix of the live records. */
  predicate Gathered(live: seq<Record>, n: nat, s: Snapshot, scoring: Scoring, ids: seq<string>,
                     assignments: map<string, Route>) {
    && (forall i :: 0 <= i < |ids| ==> FoundIn(live, n, s.group, ids[i]))
    && (forall k :: 0 <= k < n && k < |live| && Retryable(live[k], s.group) ==>
          && live[k].content.eventId in ids && live[k].content.eventId in assignments
          && RouteFor(scoring, live[k].content.hash, s) == Some(assignments[live[k].content.eventId]))
    && (forall i, j :: 0 <= i < j < |ids| ==> ids[i] != ids[j])
  }

  lemma GatheredNext(live: seq<Record>, n: nat, s: Snapshot, scoring: Scoring, ids: seq<string>,
                     assignments: map<string, Route>, records: Records, route: Route)
    requires n < |live| && Enumerates(live, records) && Gathered(live, n, s, scoring, ids, assignments)
    requires Retryable(live[n], s.group) && RouteFor(scoring, live[n].content.hash, s) == Some(route)
    ensures Gathered(live, n + 1, s, scoring, ids + [live[n].content.eventId],
                     assignments[live[n].content.eventId := route])
  {
    hide RouteFor;
    var id := live[n].content.eventId;
    forall k | 0 <= k < n ensures live[k].content.eventId != id {
      assert live[k].sequence < live[n].sequence;
    }
    var more := ids + [id];
    forall i | 0 <= i < |more| ensures FoundIn(live, n + 1, s.group, more[i]) {
      if i < |ids| {
        FoundLater(live, n, s.group, ids[i]);
      }
    }
    forall i | 0 <= i < |ids| ensures ids[i] != id {
      assert FoundIn(live, n, s.group, ids[i]);
    }
  }

  lemma GatheredSkip(live: seq<Record>, n: nat, s: Snapshot, scoring: Scoring, ids: seq<string>,
                     assignments: map<string, Route>)
    requires n < |live| && Gathered(live, n, s, scoring, ids, assignments) && !Retryable(live[n], s.group)
    ensures Gathered(live, n + 1, s, scoring, ids, assignments)
  {
    hide RouteFor;
    forall i | 0 <= i < |ids| ensures FoundIn(live, n + 1, s.group, ids[i]) {
      FoundLater(live, n, s.group, ids[i]);
    }
  }

  /** A route found under a valid snapshot is complete. */
  lemma RouteComplete(scoring: Scoring, hash: string, s: Snapshot)
    requires Valid(s) && RouteFor(scoring, hash, s).Some?
    ensures Routed(RouteFor(scoring, hash, s).value) && RouteFor(scoring, hash, s).value.endpoint != ""
    ensures RouteFor(scoring, hash, s).value.epoch == s.epoch
  {
    var score := ScoreOf(scoring, s.group, hash);
    R.ChampionWins(s.current, score);
    EndpointValid(s.currentBrokers, s.current, R.Champion(s.current, score));
  }

  lemma {:induction false} EndpointValid(ds: seq<Descriptor>, m: Membership, id: string)
    requires (forall i :: 0 <= i < |ds| ==> ValidDescriptor(ds[i], m)) && Endpoint(ds, id).Some?
    ensures Endpoint(ds, id).value != ""
  {
    if ds[0].id != id {
      EndpointValid(ds[1..], m, id);
    } else {
      assert ValidDescriptor(ds[0], m);
    }
  }

  lemma GatheredMutable(live: seq<Record>, s: Snapshot, scoring: Scoring, ids: seq<string>,
                        assignments: map<string, Route>, records: Records)
    requires Valid(s) && Enumerates(live, records) && Gathered(live, |live|, s, scoring, ids, assignments)
    requires forall id :: id in records ==> id != ""
    ensures Mutable(ids, records, Assigning(assignments))
  {
    hide Valid, RouteFor;
    forall i | 0 <= i < |ids| ensures ids[i] in records && Assigning(assignments)(ids[i], records[ids[i]]).Ok? {
      assert FoundIn(live, |live|, s.group, ids[i]);
      var k :| 0 <= k < |live| && live[k].content.eventId == ids[i] && Retryable(live[k], s.group);
      assert records[ids[i]] == live[k];
      RouteComplete(scoring, live[k].content.hash, s);
    }
  }

  lemma GatheredMoves(live: seq<Record>, s: Snapshot, scoring: Scoring, ids: seq<string>,
                      assignments: map<string, Route>, records: Records, after: Records, now: nat)
    requires Enumerates(live, records) && Gathered(live, |live|, s, scoring, ids, assignments)
    requires WereRouted(OutboxStorage.Elements(ids), assignments, records, after, now)
    ensures AllMoved(records, after, s, scoring, now)
  {
    hide RouteFor, IsRoute, Ascending;
    forall id | id in records && Retryable(records[id], s.group)
      ensures id in ids && IsRoute(after[id].route, records[id].content.hash, s, scoring)
    {
      var k :| 0 <= k < |live| && live[k] == records[id];
      assert live[k].content.eventId == id && id in ids;
      RouteExactly(scoring, records[id].content.hash, s, after[id].route);
    }
    forall id | id in records && !Retryable(records[id], s.group) ensures id !in ids {
      NotGathered(live, s, scoring, ids, assignments, records, id);
    }
  }

  lemma NotGathered(live: seq<Record>, s: Snapshot, scoring: Scoring, ids: seq<string>, assignments: map<string, Route>,
                    records: Records, id: string)
    requires Enumerates(live, records) && Gathered(live, |live|, s, scoring, ids, assignments) && id in records
             && !Retryable(records[id], s.group)
    ensures id !in ids
  {
    hide RouteFor;
    forall i | 0 <= i < |ids| ensures ids[i] != id {
      assert FoundIn(live, |live|, s.group, ids[i]);
      var k :| 0 <= k < |live| && live[k].content.eventId == ids[i] && Retryable(live[k], s.group);
      assert records[ids[i]] == live[k];
    }
  }

  /** The assignments of the listed events. */
  ghost function OnlyFor(assignments: map<string, Route>, ids: seq<string>): map<string, Route> {
    map id | id in assignments && id in ids :: assignments[id]
  }

  lemma AssignedOnly(records: Records, ids: seq<string>, assignments: map<string, Route>, now: nat)
    ensures var routes := OnlyFor(assignments, ids);
            Mutated(records, OutboxStorage.Elements(ids), Assigning(assignments), now)
            == Mutated(records, routes.Keys, Assigning(routes), now)
  {
  }

  lemma NoneMutated(records: Records, mutate: Mutation, now: nat)
    ensures var none: map<string, Route> := map[]; Mutated(records, none.Keys, mutate, now) == records
  {
  }

  // ------------------------------------------------------------------- the object

  class Publisher {
    const store: Outbox.Store
    const contracts: map<string, Contract>
    const algorithm: string
    const scoring: Scoring
    const limit: nat

    var membership: map<string, Snapshot>
    var cache: Cache
    ghost var names: Names   // the snapshot each group revision was seen to name

    ghost predicate Valid()
      reads this, store
    {
      && store.Valid() && limit > 0
      && Queued(cache, limit) && Agrees(cache, scoring, names)
      && (forall g :: g in membership ==> membership[g].group == g && NamesIt(names, membership[g])
                                          && Control.Valid(membership[g]))
    }

    constructor (s: Outbox.Store, c: map<string, Contract>, a: string, sc: Scoring, placementLimit: nat)
      requires s.Valid() && placementLimit > 0
      ensures Valid() && store == s && membership == map[] && names == map[]
      ensures contracts == c && algorithm == a && scoring == sc
    {
      hide RouteFor, Control.Valid, Outbox.Store.Valid;
      store, contracts, algorithm, scoring, limit := s, c, a, sc, placementLimit;
      membership := map[];
      cache := Cache(map[], []);
      names := map[];
    }

    /** The route of a hash under a snapshot, from the cache where possible. */
    method AssignmentFor(hash: string, s: Snapshot) returns (r: Option<Route>)
      requires Valid() && NamesIt(names, s)
      modifies this`cache
      ensures Valid() && r == RouteFor(scoring, hash, s)
    {
      hide RouteFor, Queued, Agrees, Control.Valid, Outbox.Store.Valid;
      r, cache := CachedRoute(cache, limit, scoring, hash, s, names);
    }

    /** Group membership is forgotten, accepted records stay. */
    method FailClosed(group: string)
      requires Valid()
      modifies this`membership
      ensures Valid() && membership == old(membership) - {group}
    {
      hide RouteFor, Queued, Agrees, Control.Valid, Outbox.Store.Valid;
      membership := membership - {group};
    }

    /** Routes everything retryable of the group, or finds something that cannot be. */
    method Gather(s: Snapshot) returns (ok: bool, ids: seq<string>, assignments: map<string, Route>)
      requires Valid() && NamesIt(names, s) && s.group in contracts
      modifies this`cache
      ensures Valid()
      ensures ok <==> AllReroutable(store.LiveRecords(), s, contracts[s.group], scoring)
      ensures ok ==> Gathered(store.LiveRecords(), |store.LiveRecords()|, s, scoring, ids, assignments)
      ensures Enumerates(store.LiveRecords(), store.records)
    {
      hide RouteFor, Queued, Agrees, Control.Valid, Outbox.Store.Valid, Enumerates, Gathered, Retryable;
      var live := store.ListRecords();
      ok, ids, assignments := true, [], map[];
      GatheredNone(live, s, scoring);
      for i := 0 to |live|
        invariant Valid()
        invariant ok <==> forall k :: 0 <= k < i && Retryable(live[k], s.group) ==>
                    Reroutable(live[k], s, contracts[s.group], scoring)
        invariant ok ==> Gathered(live, i, s, scoring, ids, assignments)
      {
        var record := live[i];
        if Retryable(record, s.group) {
          if record.content.hashContract != contracts[s.group].hashContract
             || record.content.libraryVersion != contracts[s.group].libraryVersion
             || record.algorithm != s.algorithm {
            ok := false;
          } else {
            var route := AssignmentFor(record.content.hash, s);
            if route.None? {
              ok := false;
            } else if ok {
              GatheredNext(live, i, s, scoring, ids, assignments, store.records, route.value);
              ids := ids + [record.content.eventId];
              assignments := assignments[record.content.eventId := route.value];
            }
          }
        } else if ok {
          GatheredSkip(live, i, s, scoring, ids, assignments);
        }
      }
    }

    /** Installs a newer snapshot. An ACTIVE one is installed only after every
        retryable record of the group durably has its route under it. */
    method ApplyMembership(s: Snapshot, now: nat, committed: bool)
      returns (r: ApplyReply, ghost routes: map<string, Route>)
      requires Valid()
      requires (s.group, s.revision) in names ==> names[(s.group, s.revision)] == s
      modifies this, store
      ensures Valid() && store.issued == old(store.issued)
      ensures r == Applied <==>
                && Control.Valid(s) && s.algorithm == algorithm && s.group in contracts
                && s.hashContract == contracts[s.group].hashContract
                && s.libraryVersion == contracts[s.group].libraryVersion
                && (s.group !in old(membership) || s.revision > old(membership)[s.group].revision
                    || s == old(membership)[s.group])
                && (Replays(old(membership), s) || s.phase != ACTIVE
                    || (AllCanMove(old(store.records), s, contracts[s.group], scoring)
                        && (NoneWaits(old(store.records), s.group) || committed)))
      ensures membership == if r == Applied then old(membership)[s.group := s] else old(membership)
      ensures if r == Applied && s.phase == ACTIVE && !Replays(old(membership), s)
              then AllMoved(old(store.records), store.records, s, scoring, now) else store.records == old(store.records)
      ensures store.records == Mutated(old(store.records), routes.Keys, Assigning(routes), now)
    {
      hide RouteFor, Queued, Agrees, Control.Valid, Outbox.Store.Valid, AllCanMove, NoneWaits, AllMoved, Mutated;
      routes := map[];
      NoneMutated(store.records, Assigning(map[]), now);
      var valid := Validate(s);
      if !valid {
        return InvalidMembership, map[];
      }
      if s.algorithm != algorithm || s.group !in contracts || s.hashContract != contracts[s.group].hashContract
         || s.libraryVersion != contracts[s.group].libraryVersion {
        return ContractMismatch, map[];
      }
      if s.group in membership && s.revision <= membership[s.group].revision {
        if s == membership[s.group] {
          assert old(membership)[s.group := s] == old(membership);
          return Applied, map[];
        }
        return StaleMembership, map[];
      }
      if s.phase == ACTIVE {
        var routed;
        routed, routes := Reassign(s, now, committed);
        if !routed {
          return NotAssigned, routes;
        }
      } else {
        Name(s);
      }
      membership := membership[s.group := s];
      return Applied, routes;
    }

    ghost method Name(s: Snapshot)
      requires Valid() && ((s.group, s.revision) in names ==> names[(s.group, s.revision)] == s)
      modifies this`names
      ensures Valid() && NamesIt(names, s) && forall k :: k in old(names) ==> k in names && names[k] == old(names)[k]
    {
      hide RouteFor, Queued, Agrees, Control.Valid, Outbox.Store.Valid;
      AgreesWithMore(cache, scoring, names, names[(s.group, s.revision) := s]);
      names := names[(s.group, s.revision) := s];
    }

    method Reassign(s: Snapshot, now: nat, committed: bool) returns (ok: bool, ghost routes: map<string, Route>)
      requires Valid() && Control.Valid(s) && s.group in contracts
      requires (s.group, s.revision) in names ==> names[(s.group, s.revision)] == s
      modifies this`cache, this`names, store
      ensures Valid() && NamesIt(names, s) && store.issued == old(store.issued)
      ensures ok <==> AllCanMove(old(store.records), s, contracts[s.group], scoring)
                      && (NoneWaits(old(store.records), s.group) || committed)
      ensures if ok then AllMoved(old(store.records), store.records, s, scoring, now)
                else store.records == old(store.records)
      ensures store.records == Mutated(old(store.records), routes.Keys, Assigning(routes), now)
    {
      hide RouteFor, Queued, Agrees, Control.Valid, Outbox.Store.Valid, AllReroutable, NothingToRoute, AllCanMove,
           NoneWaits, AllMoved, Enumerates, Gathered, Mutable, Mutated, AllTakeRoutes, WereRouted;
      Name(s);
      routes := map[];
      NoneMutated(store.records, Assigning(map[]), now);
      var ids, assignments;
      ok, ids, assignments := Gather(s);
      ReroutableMeans(store.LiveRecords(), store.records, s, contracts[s.group], scoring);
      if !ok {
        return;
      }
      ghost var live, records := store.LiveRecords(), store.records;
      store.NamedRecords();
      GatheredMutable(live, s, scoring, ids, assignments, records);
      GatheredEmpty(live, s, scoring, ids, assignments);
      var reply := store.AssignMany(ids, assignments, now, committed);
      ok := reply.Done?;
      if ok {
        GatheredMoves(live, s, scoring, ids, assignments, records, store.records, now);
        routes := OnlyFor(assignments, ids);
        AssignedOnly(records, ids, assignments, now);
      }
    }

    /** The records of a batch, or none if any message is refused. */
    method Build(messages: seq<Message>) returns (r: Option<seq<Record>>)
      requires Valid()
      modifies this`cache
      ensures Valid()
      ensures r.Some? <==> forall i :: 0 <= i < |messages| ==>
                RecordFor(messages[i], membership, contracts, scoring).Some?
      ensures r.Some? ==> |r.value| == |messages| && forall i :: 0 <= i < |messages| ==>
                Some(r.value[i]) == RecordFor(messages[i], membership, contracts, scoring)
    {
      hide RouteFor, Queued, Agrees, Control.Valid, Outbox.Store.Valid, Admissible;
      var records: seq<Record> := [];
      for i := 0 to |messages|
        invariant Valid() && |records| == i
        invariant forall k :: 0 <= k < i ==> Some(records[k]) == RecordFor(messages[k], membership, contracts, scoring)
      {
        var record := BuildOne(messages[i]);
        if record.None? {
          return None;
        }
        records := records + [record.value];
      }
      return Some(records);
    }

    method BuildOne(m: Message) returns (r: Option<Record>)
      requires Valid()
      modifies this`cache
      ensures Valid() && r == RecordFor(m, membership, contracts, scoring)
    {
      hide RouteFor, Queued, Agrees, Control.Valid, Outbox.Store.Valid;
      if !Admissible(m, membership, contracts) {
        return None;
      }
      var s, c := membership[m.group], contracts[m.group];
      var record := Record(ContentOf(m, c), s.algorithm, NO_ROUTE, Unassigned, 0, "", 0, 0, 0, 0);
      if PS.Dispatchable(s) {
        var route := AssignmentFor(m.hash, s);
        if route.None? {
          return None;
        }
        record := record.(route := route.value, state := Ready);
      }
      return Some(record);
    }

    /** Accepts a batch under one view of membership, durably and all of it, or writes
        nothing. Event identities are never reused after deletion. */
    method AcceptBatch(messages: seq<Message>, now: nat, committed: bool) returns (r: AcceptReply)
      requires Valid() && (forall c: Content :: store.size(c) > 0)
      requires forall i :: 0 <= i < |messages| && messages[i].eventId in store.issued ==>
                 messages[i].eventId in store.records
      modifies this`cache, store
      ensures Valid()
      ensures r.Accepted? <==>
                && (forall i :: 0 <= i < |messages| ==> RecordFor(messages[i], membership, contracts, scoring).Some?)
                && (messages == []
                    || (&& |messages| <= store.limits.maxMessages - |old(store.records)|
                        && |messages| <= MAX_UINT64 - old(store.nextSeq)
                        && NewEvents(messages, contracts, old(store.records))
                        && old(store.bytes) + Total(Stamped(RecordsFor(messages, membership, contracts, scoring),
                                                            old(store.nextSeq), now,
                                                            store.size)) <= store.limits.maxBytes
                        && committed))
      ensures r.Accepted? ==>
                && |r.records| == |messages|
                && (forall i :: 0 <= i < |messages| ==>
                      RecordFor(messages[i], membership, contracts, scoring).Some?
                      && r.records[i] == Stamp(RecordFor(messages[i], membership, contracts, scoring).value,
                                               old(store.nextSeq) + i, now, store.size))
                && store.records == Overlay(old(store.records), r.records)
                && store.issued == Issue(old(store.issued), r.records)
                && OutboxStorage.Appends(r.records, old(store.nextSeq), old(store.records))
                && OutboxUpkeep.Newest(old(store.nextSeq), old(store.issued))
                && (forall i :: 0 <= i < |r.records| ==> r.records[i].content.eventId !in old(store.issued))
      ensures r.Accepted? ==> forall i :: 0 <= i < |messages| ==>
                MayAccept(messages[i], membership, contracts, scoring)
      ensures r.Accepted? ==>
                MessagesStored(messages, membership, contracts, scoring, old(store.records), store.records,
                               old(store.nextSeq), now)
      ensures r.NotAccepted? ==> store.records == old(store.records) && store.issued == old(store.issued)
    {
      hide RouteFor, Queued, Agrees, Control.Valid, Outbox.Store.Valid, Admissible, Overlay, FreshBatch, NewEvents,
           Issue, OutboxStorage.Appends, OutboxUpkeep.Newest, Total, Stamped, MayAccept, MessagesStored, WereAccepted,
           StoredAs;
      ghost var records, first := store.records, store.nextSeq;
      var built := Build(messages);
      if built.None? {
        return NotAccepted;
      }
      forall i | 0 <= i < |messages| ensures built.value[i].content.eventId == messages[i].eventId {
        assert Some(built.value[i]) == RecordFor(messages[i], membership, contracts, scoring);
      }
      assert built.value == RecordsFor(messages, membership, contracts, scoring);
      NewEventsFresh(messages, membership, contracts, scoring, store.records);
      var reply := store.AcceptMany(built.value, now, committed);
      if reply.NotAccepted? {
        return NotAccepted;
      }
      BatchStored(messages, built.value, membership, contracts, scoring, records, store.records, first, now,
                  store.size);
      forall i | 0 <= i < |messages| ensures MayAccept(messages[i], membership, contracts, scoring) {
        RecordExactly(messages[i], membership, contracts, scoring);
      }
      return Accepted(reply.records);
    }

    /** An uncertain record may be retried only under an ACTIVE membership that would
        give it the very same route. */
    method RetryAckUncertain(id: string, now: nat, committed: bool) returns (r: RetryReply)
      requires Valid()
      modifies this`cache, store
      ensures Valid() && store.issued == old(store.issued)
      ensures r == Retried <==>
                && id in old(store.records) && old(store.records)[id].state == Uncertain
                && SameRoute(old(store.records)[id], membership, scoring) && committed
      ensures store.records == if r == Retried then Mutated(old(store.records), {id}, Retrying(), now)
                else old(store.records)
      ensures r == Retried ==> WereRetried({id}, old(store.records), store.records, now)
    {
      hide RouteFor, Queued, Agrees, Control.Valid, Outbox.Store.Valid, Mutated, WereRetried;
      if id !in store.records {
        return NoRecord;
      }
      var record := store.records[id];
      if record.content.group !in membership || membership[record.content.group].phase != ACTIVE {
        return NoValidMembership;
      }
      var s := membership[record.content.group];
      if record.algorithm != s.algorithm {
        return RouteChanged;
      }
      var route := AssignmentFor(record.content.hash, s);
      if route != Some(record.route) {
        return RouteChanged;
      }
      OneElement(id);
      store.NamedRecords();
      assert Mutable([id], store.records, Retrying()) <==> record.state == Uncertain;
      var reply := store.RetryMany([id], now, committed);
      return if reply.Done? then Retried else NotRetried;
    }
  }

  /** The group is ACTIVE, and its membership gives the record the very route it has. */
  predicate SameRoute(r: Record, membership: map<string, Snapshot>, scoring: Scoring) {
    && r.content.group in membership && membership[r.content.group].phase == ACTIVE
    && r.algorithm == membership[r.content.group].algorithm
    && RouteFor(scoring, r.content.hash, membership[r.content.group]) == Some(r.route)
  }

  /** The very snapshot that is installed already. */
  predicate Replays(membership: map<string, Snapshot>, s: Snapshot) {
    s.group in membership && s == membership[s.group]
  }

  predicate NothingToRoute(live: seq<Record>, group: string) {
    forall i :: 0 <= i < |live| ==> !Retryable(live[i], group)
  }

  lemma GatheredEmpty(live: seq<Record>, s: Snapshot, scoring: Scoring, ids: seq<string>,
                      assignments: map<string, Route>)
    requires Gathered(live, |live|, s, scoring, ids, assignments)
    ensures ids == [] <==> NothingToRoute(live, s.group)
  {
    hide RouteFor;
    if ids != [] {
      assert FoundIn(live, |live|, s.group, ids[0]);
    }
  }

  lemma OneElement(id: string)
    ensures OutboxStorage.Elements([id]) == {id}
  {
  }

  lemma GatheredNone(live: seq<Record>, s: Snapshot, scoring: Scoring)
    ensures Gathered(live, 0, s, scoring, [], map[])
  {
  }
}
