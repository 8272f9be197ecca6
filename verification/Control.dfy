/** The control-plane snapshot: its data, when it is well formed, which snapshot
    may follow which, and the loops that check well-formedness.
    Follows control/snapshot.go and the pure half of control/reconciler.go. */
module Control {

  const MAX_UINT64: nat := 0xFFFF_FFFF_FFFF_FFFF
  const SNAPSHOT_VERSION: nat := 3
  const MAX_IDENTIFIER_BYTES: nat := 1024
  const MAX_MEMBERSHIP_SIZE: nat := 65536

  datatype Option<+T> = None | Some(value: T)

  /** The wire phase of a snapshot. A phase this version does not know is kept
      so that it can be refused. */
  datatype WirePhase = ACTIVE | PREPARE | PAUSED | DRAIN | COMMITTED | UNSUPPORTED(name: string)

  datatype Transition = Transition(id: string, fromEpoch: nat, toEpoch: nat)

  datatype QueueInfo = QueueInfo(name: string, durable: bool)

  datatype Destination = Topic(name: string) | OtherDestination(kind: string, name: string)

  datatype Descriptor = Descriptor(id: string, endpoint: string)

  /** The queue one consumer set uses on one broker in one epoch. */
  datatype Resource = Resource(epoch: nat, broker: string, consumerSet: string, queue: string, ingressTopic: string)

  type Membership = seq<string>

  datatype Snapshot = Snapshot(
    version: nat,
    namespace: string,
    libraryVersion: string,
    group: string,
    revision: nat,
    epoch: nat,
    phase: WirePhase,
    hashContract: string,
    algorithm: string,
    current: Membership,
    proposed: Membership,
    currentBrokers: seq<Descriptor>,
    proposedBrokers: seq<Descriptor>,
    transition: Option<Transition>,
    queue: QueueInfo,
    destination: Destination,
    currentResources: seq<Resource>,
    proposedResources: seq<Resource>)

  // ---------------------------------------------------------------- names

  predicate IsControl(c: char) {
    c < ' ' || '\U{7F}' <= c <= '\U{9F}'
  }

  predicate NoControlCharacter(value: string) {
    value == "" || (!IsControl(value[0]) && NoControlCharacter(value[1..]))
  }

  /** Bytes of a character in UTF-8. */
  function EncodedLength(c: char): nat {
    if c < '\U{80}' then 1 else if c < '\U{800}' then 2 else if c < '\U{10000}' then 3 else 4
  }

  function ByteLength(value: string): nat {
    if value == "" then 0 else EncodedLength(value[0]) + ByteLength(value[1..])
  }

  predicate ValidIdentifier(value: string) {
    value != "" && ByteLength(value) <= MAX_IDENTIFIER_BYTES && NoControlCharacter(value)
  }

  predicate NameCharacters(value: string) {
    value == "" ||
    (('a' <= value[0] <= 'z' || '0' <= value[0] <= '9' || value[0] in "-_.") && NameCharacters(value[1..]))
  }

  predicate ValidName(value: string) {
    ValidIdentifier(value) && NameCharacters(value)
  }

  /** Host part of a credential-free address: one optional closing slash. */
  predicate ValidHost(host: string) {
    0 < |host| && host[0] != '/' && forall i :: 0 <= i < |host| ==>
      host[i] !in "@?#" && (host[i] == '/' ==> i == |host| - 1)
  }

  predicate ValidEndpoint(endpoint: string) {
    || ("amqp://" <= endpoint && ValidHost(endpoint[7..]))
    || ("amqps://" <= endpoint && ValidHost(endpoint[8..]))
    || ("amqp+ssl://" <= endpoint && ValidHost(endpoint[11..]))
  }

  // ------------------------------------------------------ well-formed parts

  predicate NoDuplicates<T(==)>(s: seq<T>) {
    forall i, j :: 0 <= i < j < |s| ==> s[i] != s[j]
  }

  predicate ValidMembership(m: Membership, required: bool) {
    && (required ==> m != [])
    && |m| <= MAX_MEMBERSHIP_SIZE
    && (forall i :: 0 <= i < |m| ==> ValidIdentifier(m[i]))
    && NoDuplicates(m)
  }

  predicate ValidDescriptor(d: Descriptor, m: Membership) {
    ValidIdentifier(d.id) && d.id in m && ValidEndpoint(d.endpoint)
  }

  predicate DistinctDescriptors(ds: seq<Descriptor>) {
    forall i, j :: 0 <= i < j < |ds| ==> ds[i].id != ds[j].id
  }

  predicate ValidDescriptors(ds: seq<Descriptor>, m: Membership, required: bool) {
    && (if required then |ds| == |m| else ds == [])
    && (forall i :: 0 <= i < |ds| ==> ValidDescriptor(ds[i], m))
    && DistinctDescriptors(ds)
  }

  predicate ValidResource(r: Resource, epoch: nat, m: Membership) {
    && r.epoch == epoch
    && ValidName(r.broker) && r.broker in m
    && ValidName(r.consumerSet)
    && ValidIdentifier(r.queue)
    && ValidIdentifier(r.ingressTopic)
  }

  predicate DistinctResources(rs: seq<Resource>) {
    forall i, j :: 0 <= i < j < |rs| ==>
      (rs[i].broker, rs[i].consumerSet) != (rs[j].broker, rs[j].consumerSet) && rs[i].queue != rs[j].queue
  }

  predicate Serves(rs: seq<Resource>, broker: string, consumerSet: string) {
    exists k :: 0 <= k < |rs| && rs[k].broker == broker && rs[k].consumerSet == consumerSet
  }

  /** Every broker serves every consumer set that any broker serves. */
  predicate CoversEveryBroker(rs: seq<Resource>, m: Membership) {
    forall b, i :: 0 <= b < |m| && 0 <= i < |rs| ==> Serves(rs, m[b], rs[i].consumerSet)
  }

  predicate ValidResources(rs: seq<Resource>, epoch: nat, m: Membership) {
    && rs != []
    && (forall i :: 0 <= i < |rs| ==> ValidResource(rs[i], epoch, m))
    && DistinctResources(rs)
    && CoversEveryBroker(rs, m)
  }

  // ----------------------------------------------------------- well-formed

  predicate ValidNames(s: Snapshot) {
    && s.version == SNAPSHOT_VERSION
    && (s.namespace != "" ==> ValidName(s.namespace))
    && (s.libraryVersion != "" ==> ValidIdentifier(s.libraryVersion))
    && ValidIdentifier(s.group)
    && s.revision > 0
    && s.epoch > 0
    && ValidIdentifier(s.hashContract)
    && ValidIdentifier(s.algorithm)
    && ValidIdentifier(s.queue.name) && s.queue.durable
    && s.destination.Topic? && ValidIdentifier(s.destination.name)
  }

  predicate ValidPhase(s: Snapshot) {
    match s.phase
    case ACTIVE =>
      s.proposed == [] && s.transition.None? && s.proposedResources == [] && s.proposedBrokers == []
    case COMMITTED =>
      && s.proposed == [] && s.transition.Some? && s.proposedResources == []
      && ValidIdentifier(s.transition.value.id)
      && s.transition.value.fromEpoch != MAX_UINT64
      && s.transition.value.toEpoch == s.transition.value.fromEpoch + 1
      && s.epoch == s.transition.value.toEpoch
    case UNSUPPORTED(_) => false
    case _ =>
      && s.proposed != []
      && s.transition.Some?
      && ValidResources(s.proposedResources, s.transition.value.toEpoch, s.proposed)
      && s.current != s.proposed
      && ValidIdentifier(s.transition.value.id)
      && s.transition.value.fromEpoch == s.epoch
      && s.epoch != MAX_UINT64
      && s.transition.value.toEpoch == s.epoch + 1
  }

  predicate Valid(s: Snapshot) {
    && ValidNames(s)
    && ValidMembership(s.current, true)
    && ValidMembership(s.proposed, false)
    && ValidDescriptors(s.currentBrokers, s.current, true)
    && ValidDescriptors(s.proposedBrokers, s.proposed, s.proposed != [])
    && ValidResources(s.currentResources, s.epoch, s.current)
    && ValidPhase(s)
  }

  // ----------------------------------------------------- the checking loops

  /** Not empty, not too many bytes in UTF-8, and no control character. */
  method CheckIdentifier(value: string) returns (ok: bool)
    ensures ok <==> ValidIdentifier(value)
  {
    var bytes, clean := 0, true;
    for i := 0 to |value|
      invariant ByteLength(value) == bytes + ByteLength(value[i..])
      invariant NoControlCharacter(value) <==> clean && NoControlCharacter(value[i..])
    {
      assert value[i..][1..] == value[i + 1..] && value[i..][0] == value[i];
      var c := value[i];
      bytes := bytes + if c <= '\U{7F}' then 1 else if c <= '\U{7FF}' then 2 else if c <= '\U{FFFF}' then 3 else 4;
      if c <= '\U{1F}' || ('\U{7F}' <= c && c < '\U{A0}') {
        clean := false;
      }
    }
    assert value[|value|..] == "";
    return |value| != 0 && bytes <= 1024 && clean;
  }

  /** An identifier of lower-case letters, digits, hyphens, underscores and dots. */
  method CheckName(value: string) returns (ok: bool)
    ensures ok <==> ValidName(value)
  {
    ok := CheckIdentifier(value);
    var plain := true;
    for i := 0 to |value|
      invariant NameCharacters(value) <==> plain && NameCharacters(value[i..])
    {
      assert value[i..][1..] == value[i + 1..] && value[i..][0] == value[i];
      var c := value[i];
      if !(('a' <= c && c <= 'z') || ('0' <= c && c <= '9') || c == '-' || c == '_' || c == '.') {
        plain := false;
      }
    }
    assert value[|value|..] == "";
    ok := ok && plain;
  }

  /** A host without credentials, query or fragment, and at most a closing slash. */
  method CheckHost(host: string) returns (ok: bool)
    ensures ok <==> ValidHost(host)
  {
    if |host| == 0 || host[0] == '/' {
      return false;
    }
    for i := 0 to |host|
      invariant forall k :: 0 <= k < i ==> host[k] !in "@?#" && (host[k] == '/' ==> k == |host| - 1)
    {
      if host[i] == '@' || host[i] == '?' || host[i] == '#' || (host[i] == '/' && i + 1 != |host|) {
        return false;
      }
    }
    return true;
  }

  method CheckEndpoint(endpoint: string) returns (ok: bool)
    ensures ok <==> ValidEndpoint(endpoint)
  {
    SchemesDiffer(endpoint);
    if "amqp://" <= endpoint {
      ok := CheckHost(endpoint[7..]);
    } else if "amqps://" <= endpoint {
      ok := CheckHost(endpoint[8..]);
    } else if "amqp+ssl://" <= endpoint {
      ok := CheckHost(endpoint[11..]);
    } else {
      ok := false;
    }
  }

  lemma SchemesDiffer(endpoint: string)
    ensures "amqp://" <= endpoint ==> endpoint[4] == ':'
    ensures "amqps://" <= endpoint ==> endpoint[4] == 's'
    ensures "amqp+ssl://" <= endpoint ==> endpoint[4] == '+'
  {
    assert "amqp://"[4] == ':' && "amqps://"[4] == 's' && "amqp+ssl://"[4] == '+';
  }

  method CheckMembership(m: Membership, required: bool) returns (ok: bool)
    ensures ok <==> ValidMembership(m, required)
  {
    if (required && |m| == 0) || |m| > MAX_MEMBERSHIP_SIZE {
      return false;
    }
    var seen: set<string> := {};
    for i := 0 to |m|
      invariant seen == set k | 0 <= k < i :: m[k]
      invariant forall k :: 0 <= k < i ==> ValidIdentifier(m[k])
      invariant NoDuplicates(m[..i])
    {
      ok := CheckIdentifier(m[i]);
      if !ok {
        return false;
      }
      if m[i] in seen {
        var k :| 0 <= k < i && m[k] == m[i];
        return false;
      }
      seen := seen + {m[i]};
    }
    assert m[..|m|] == m;
    return true;
  }

  method CheckDescriptors(ds: seq<Descriptor>, m: Membership, required: bool) returns (ok: bool)
    ensures ok <==> ValidDescriptors(ds, m, required)
  {
    if (required && |ds| != |m|) || (!required && |ds| != 0) {
      return false;
    }
    var members := set k | 0 <= k < |m| :: m[k];
    var seen: set<string> := {};
    for i := 0 to |ds|
      invariant seen == set k | 0 <= k < i :: ds[k].id
      invariant forall k :: 0 <= k < i ==> ValidDescriptor(ds[k], m)
      invariant DistinctDescriptors(ds[..i])
    {
      ok := CheckIdentifier(ds[i].id);
      if !ok || ds[i].id !in members {
        assert !ValidDescriptor(ds[i], m);
        return false;
      }
      if ds[i].id in seen {
        var k :| 0 <= k < i && ds[k].id == ds[i].id;
        return false;
      }
      seen := seen + {ds[i].id};
      ok := CheckEndpoint(ds[i].endpoint);
      if !ok {
        assert !ValidDescriptor(ds[i], m);
        return false;
      }
    }
    assert ds[..|ds|] == ds;
    return true;
  }

  predicate EachResourceValid(rs: seq<Resource>, epoch: nat, m: Membership) {
    (forall i :: 0 <= i < |rs| ==> ValidResource(rs[i], epoch, m)) && DistinctResources(rs)
  }

  function Keys(rs: seq<Resource>): set<(string, string)> {
    set k | 0 <= k < |rs| :: (rs[k].broker, rs[k].consumerSet)
  }

  function QueueNames(rs: seq<Resource>): set<string> {
    set k | 0 <= k < |rs| :: rs[k].queue
  }

  lemma KeysNext(rs: seq<Resource>, i: nat)
    requires i < |rs|
    ensures Keys(rs[..i + 1]) == Keys(rs[..i]) + {(rs[i].broker, rs[i].consumerSet)}
  {
    var longer, shorter := rs[..i + 1], rs[..i];
    assert longer == shorter + [rs[i]];
    forall key | key in Keys(longer) ensures key in Keys(shorter) + {(rs[i].broker, rs[i].consumerSet)} {
      var k :| 0 <= k < |longer| && (longer[k].broker, longer[k].consumerSet) == key;
      assert k < i ==> (shorter[k].broker, shorter[k].consumerSet) in Keys(shorter);
    }
    forall key | key in Keys(shorter) ensures key in Keys(longer) {
      var k :| 0 <= k < |shorter| && (shorter[k].broker, shorter[k].consumerSet) == key;
      assert longer[k] == shorter[k];
    }
    assert longer[i] == rs[i];
  }

  lemma QueueNamesNext(rs: seq<Resource>, i: nat)
    requires i < |rs|
    ensures QueueNames(rs[..i + 1]) == QueueNames(rs[..i]) + {rs[i].queue}
  {
    var longer, shorter := rs[..i + 1], rs[..i];
    assert longer[i] == rs[i];
    forall k | 0 <= k < i ensures longer[k] == shorter[k] && shorter[k].queue in QueueNames(shorter) {
    }
  }

  lemma DistinctNext(rs: seq<Resource>, r: Resource)
    requires DistinctResources(rs)
    ensures DistinctResources(rs + [r]) <==> (r.broker, r.consumerSet) !in Keys(rs) && r.queue !in QueueNames(rs)
  {
    var more := rs + [r];
    if (r.broker, r.consumerSet) in Keys(rs) {
      var k :| 0 <= k < |rs| && (rs[k].broker, rs[k].consumerSet) == (r.broker, r.consumerSet);
      assert more[k] == rs[k] && more[|rs|] == r;
    }
    if r.queue in QueueNames(rs) {
      var k :| 0 <= k < |rs| && rs[k].queue == r.queue;
      assert more[k] == rs[k] && more[|rs|] == r;
    }
    forall k | 0 <= k < |rs| ensures (rs[k].broker, rs[k].consumerSet) in Keys(rs) && rs[k].queue in QueueNames(rs) {
    }
  }

  lemma ResourceNext(rs: seq<Resource>, i: nat, epoch: nat, m: Membership)
    requires i < |rs| && EachResourceValid(rs[..i], epoch, m)
    ensures Keys(rs[..i + 1]) == Keys(rs[..i]) + {(rs[i].broker, rs[i].consumerSet)}
    ensures QueueNames(rs[..i + 1]) == QueueNames(rs[..i]) + {rs[i].queue}
    ensures EachResourceValid(rs[..i + 1], epoch, m) <==>
              ValidResource(rs[i], epoch, m) && (rs[i].broker, rs[i].consumerSet) !in Keys(rs[..i])
              && rs[i].queue !in QueueNames(rs[..i])
  {
    hide ValidResource, Keys, QueueNames, DistinctResources;
    KeysNext(rs, i);
    QueueNamesNext(rs, i);
    DistinctNext(rs[..i], rs[i]);
    assert rs[..i + 1] == rs[..i] + [rs[i]];
    assert forall k :: 0 <= k < i ==> rs[..i + 1][k] == rs[..i][k];
    assert rs[..i + 1][i] == rs[i];
  }

  lemma ResourcePrefix(rs: seq<Resource>, i: nat, epoch: nat, m: Membership)
    requires i <= |rs| && EachResourceValid(rs, epoch, m)
    ensures EachResourceValid(rs[..i], epoch, m)
  {
    hide ValidResource;
  }

  method CheckResource(r: Resource, epoch: nat, m: Membership) returns (ok: bool)
    ensures ok <==> ValidResource(r, epoch, m)
  {
    hide ValidName, ValidIdentifier;
    if r.epoch != epoch || r.broker !in m {
      return false;
    }
    ok := CheckName(r.broker);
    if !ok { return; }
    ok := CheckName(r.consumerSet);
    if !ok { return; }
    ok := CheckIdentifier(r.queue);
    if !ok { return; }
    ok := CheckIdentifier(r.ingressTopic);
  }

  /** One pass collecting the seen (broker, consumer set) keys and queue names. */
  method CheckEachResource(rs: seq<Resource>, epoch: nat, m: Membership) returns (ok: bool)
    ensures ok <==> (forall i :: 0 <= i < |rs| ==> ValidResource(rs[i], epoch, m)) && DistinctResources(rs)
  {
    hide ValidResource, Keys, QueueNames, DistinctResources;
    var seen: set<(string, string)> := {};
    var queues: set<string> := {};
    NoResources(epoch, m);
    for i := 0 to |rs|
      invariant seen == Keys(rs[..i]) && queues == QueueNames(rs[..i]) && EachResourceValid(rs[..i], epoch, m)
    {
      var r := rs[i];
      ResourceNext(rs, i, epoch, m);
      ok := CheckResource(r, epoch, m);
      if !ok || (r.broker, r.consumerSet) in seen || r.queue in queues {
        if EachResourceValid(rs, epoch, m) {
          ResourcePrefix(rs, i + 1, epoch, m);
        }
        return false;
      }
      seen := seen + {(r.broker, r.consumerSet)};
      queues := queues + {r.queue};
    }
    assert rs[..|rs|] == rs;
    return true;
  }

  lemma NoResources(epoch: nat, m: Membership)
    ensures Keys([]) == {} && QueueNames([]) == {} && EachResourceValid([], epoch, m)
  {
  }

  /** Every broker must serve exactly the consumer sets seen anywhere. */
  method CheckCoverage(rs: seq<Resource>, m: Membership) returns (ok: bool)
    ensures ok <==> CoversEveryBroker(rs, m)
  {
    var consumerSets := set k | 0 <= k < |rs| :: rs[k].consumerSet;
    for b := 0 to |m|
      invariant forall k, i :: 0 <= k < b && 0 <= i < |rs| ==> Serves(rs, m[k], rs[i].consumerSet)
    {
      var served := set k | 0 <= k < |rs| && rs[k].broker == m[b] :: rs[k].consumerSet;
      if served != consumerSets {
        var c :| c in consumerSets && c !in served;
        var i :| 0 <= i < |rs| && rs[i].consumerSet == c;
        assert !Serves(rs, m[b], rs[i].consumerSet);
        return false;
      }
      forall i | 0 <= i < |rs| ensures Serves(rs, m[b], rs[i].consumerSet) {
        assert rs[i].consumerSet in served;
      }
    }
    return true;
  }

  method CheckResources(rs: seq<Resource>, epoch: nat, m: Membership) returns (ok: bool)
    ensures ok <==> ValidResources(rs, epoch, m)
  {
    if |rs| == 0 {
      return false;
    }
    ok := CheckEachResource(rs, epoch, m);
    if ok {
      ok := CheckCoverage(rs, m);
    }
  }

  method CheckNames(s: Snapshot) returns (ok: bool)
    ensures ok <==> ValidNames(s)
  {
    hide ValidName, ValidIdentifier;
    if s.version != 3 || s.revision == 0 || s.epoch == 0 || !s.queue.durable || !s.destination.Topic? {
      return false;
    }
    if s.namespace != "" {
      ok := CheckName(s.namespace);
      if !ok { return; }
    }
    if s.libraryVersion != "" {
      ok := CheckIdentifier(s.libraryVersion);
      if !ok { return; }
    }
    ok := CheckIdentifier(s.group);
    if !ok { return; }
    ok := CheckIdentifier(s.hashContract);
    if !ok { return; }
    ok := CheckIdentifier(s.algorithm);
    if !ok { return; }
    ok := CheckIdentifier(s.queue.name);
    if !ok { return; }
    ok := CheckIdentifier(s.destination.name);
  }

  /** What the phase asks of proposal and transition. */
  method CheckPhase(s: Snapshot) returns (ok: bool)
    ensures ok <==> ValidPhase(s)
  {
    hide ValidIdentifier, ValidResources;
    match s.phase
    case ACTIVE =>
      ok := |s.proposed| == 0 && s.transition.None? && |s.proposedResources| == 0 && |s.proposedBrokers| == 0;
    case COMMITTED =>
      if |s.proposed| != 0 || s.transition.None? || |s.proposedResources| != 0 {
        return false;
      }
      var t := s.transition.value;
      ok := CheckIdentifier(t.id);
      ok := ok && t.fromEpoch != MAX_UINT64 && t.toEpoch == t.fromEpoch + 1 && t.toEpoch == s.epoch;
    case UNSUPPORTED(_) =>
      ok := false;
    case _ =>
      if |s.proposed| == 0 || s.transition.None? || s.current == s.proposed {
        return false;
      }
      var t := s.transition.value;
      ok := CheckIdentifier(t.id);
      if !ok || t.fromEpoch != s.epoch || s.epoch == MAX_UINT64 || t.toEpoch != t.fromEpoch + 1 {
        return false;
      }
      ok := CheckResources(s.proposedResources, t.toEpoch, s.proposed);
  }

  method Validate(s: Snapshot) returns (ok: bool)
    ensures ok <==> Valid(s)
  {
    hide ValidNames, ValidPhase, ValidMembership, ValidDescriptors, ValidResources;
    ok := CheckNames(s);
    if !ok { return; }
    ok := CheckMembership(s.current, true);
    if !ok { return; }
    ok := CheckMembership(s.proposed, false);
    if !ok { return; }
    ok := CheckDescriptors(s.currentBrokers, s.current, true);
    if !ok { return; }
    ok := CheckDescriptors(s.proposedBrokers, s.proposed, |s.proposed| != 0);
    if !ok { return; }
    ok := CheckResources(s.currentResources, s.epoch, s.current);
    if !ok { return; }
    ok := CheckPhase(s);
  }

  // ------------------------------------------------- which may follow which

  datatype Comparison =
    | Newer                 // right is a valid advance of left
    | Same                  // exact replay
    | Older                 // right is stale
    | Conflict              // right contradicts left
    | Regressed             // right moves the phase of one transition backwards

  predicate RoutingCompatible(left: Snapshot, right: Snapshot) {
    && left.namespace == right.namespace
    && left.libraryVersion == right.libraryVersion
    && left.hashContract == right.hashContract
    && left.algorithm == right.algorithm
    && left.queue == right.queue
    && left.destination == right.destination
  }

  predicate SameCurrent(left: Snapshot, right: Snapshot) {
    right.current == left.current && right.currentResources == left.currentResources
  }

  predicate ActivatesProposal(left: Snapshot, right: Snapshot) {
    right.current == left.proposed && right.currentResources == left.proposedResources
  }

  function PhaseRank(phase: WirePhase): nat {
    match phase
    case PREPARE => 1
    case PAUSED => 2
    case DRAIN => 3
    case _ => 0
  }

  /** Whether a snapshot of a later revision may follow the installed one: Newer
      when it may, otherwise how it is refused. */
  function Advance(left: Snapshot, right: Snapshot): Comparison {
    if !RoutingCompatible(left, right) then
      Conflict
    else if right.phase == ACTIVE then
      if left.phase == ACTIVE then
        if right.epoch == left.epoch && !SameCurrent(left, right) then Conflict else Newer
      else if left.transition.None? then
        Conflict
      else if right.epoch == left.epoch then
        if SameCurrent(left, right) then Newer else Conflict
      else if right.epoch == left.transition.value.toEpoch && ActivatesProposal(left, right) then
        Newer
      else
        Conflict
    else if right.phase == COMMITTED then
      if left.phase == DRAIN && left.transition.Some? && right.transition == left.transition
         && right.epoch == left.transition.value.toEpoch && ActivatesProposal(left, right)
      then Newer else Conflict
    else if left.phase == COMMITTED then
      Conflict
    else if left.phase == ACTIVE then
      if right.phase == PREPARE && right.epoch == left.epoch && SameCurrent(left, right) then Newer else Conflict
    else if left.transition.None? || right.transition != left.transition || right.epoch != left.epoch
            || !SameCurrent(left, right) || right.proposed != left.proposed
            || right.proposedResources != left.proposedResources
    then
      Conflict
    else if PhaseRank(right.phase) < PhaseRank(left.phase) then
      Regressed
    else
      Newer
  }

  /** Compares the installed snapshot with an offered one. */
  function Compare(left: Snapshot, right: Snapshot): Comparison {
    if left.version != right.version || left.group != right.group then
      Conflict
    else if right.revision == left.revision then
      if left == right then Same else Conflict
    else if right.revision < left.revision then
      if right.epoch > left.epoch then Conflict else Older
    else if right.epoch < left.epoch then
      Older
    else
      Advance(left, right)
  }

  // -------------------------------------------------------- what an advance keeps

  /** The phases of one transition, in order. Only a drained one is committed. */
  predicate Onward(left: WirePhase, right: WirePhase) {
    match left
    case PREPARE => right == PREPARE || right == PAUSED || right == DRAIN
    case PAUSED => right == PAUSED || right == DRAIN
    case DRAIN => right == DRAIN || right == COMMITTED
    case _ => false
  }

  /** A later revision of the same stream under the same routing rules. Within an epoch
      members and resources stay. An epoch is left by activating or committing what the
      known transition proposes, or from ACTIVE to ACTIVE. A transition begins with
      PREPARE over ACTIVE, keeps its identity and proposal, and never goes back. */
  predicate Follows(left: Snapshot, right: Snapshot) {
    && right.version == left.version && right.group == left.group
    && right.revision > left.revision && right.epoch >= left.epoch
    && right.namespace == left.namespace && right.libraryVersion == left.libraryVersion
    && right.hashContract == left.hashContract && right.algorithm == left.algorithm
    && right.queue == left.queue && right.destination == left.destination
    && (right.epoch == left.epoch ==>
          right.current == left.current && right.currentResources == left.currentResources)
    && (right.epoch > left.epoch && left.phase == ACTIVE ==> right.phase == ACTIVE)
    && (right.epoch > left.epoch && left.phase != ACTIVE ==>
          && left.phase != COMMITTED && right.epoch == left.epoch + 1
          && right.current == left.proposed && right.currentResources == left.proposedResources)
    && (right.phase != ACTIVE && left.phase == ACTIVE ==> right.phase == PREPARE)
    && (right.phase != ACTIVE && left.phase != ACTIVE ==>
          right.transition == left.transition && Onward(left.phase, right.phase))
    && (right.phase != ACTIVE && right.phase != COMMITTED && left.phase != ACTIVE ==>
          right.proposed == left.proposed && right.proposedResources == left.proposedResources)
  }

  /** Of well-formed snapshots exactly these are installed over one another. */
  lemma FollowsExactly(left: Snapshot, right: Snapshot)
    requires Valid(left) && Valid(right)
    ensures Compare(left, right) == Newer <==> Follows(left, right)
    ensures Compare(left, right) == Same <==> left == right
    ensures Compare(left, right) == Older && right.revision < left.revision <==>
              right.version == left.version && right.group == left.group && right.revision < left.revision
              && right.epoch <= left.epoch
  {
    hide ValidMembership, ValidDescriptors, ValidResources, ValidNames, ValidIdentifier;
    assert ValidPhase(left) && ValidPhase(right);
  }
}
