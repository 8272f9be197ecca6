/** One membership transition of a scaling group: its immutable specification,
    the snapshots published for it, and the durable group state with every update
    the controller makes to it.
    Follows controller/types.go and the state half of controller/controller.go. */
module Transition {
  import opened Control

  /** An instant. Zero stands for a time that was never set. */
  type Time = nat

  datatype Phase = Prepare | Pause | Drain | Commit | Activate

  datatype Role = Untyped | Publisher | Subscriber | Broker | Observer | UnknownRole(name: string)

  datatype Requirement = Requirement(participant: string, role: Role)

  datatype Member = Member(id: string, destination: string)

  datatype Spec = Spec(
    id: string,
    namespace: string,
    libraryVersion: string,
    group: string,
    revision: nat,
    fromEpoch: nat,
    toEpoch: nat,
    current: seq<Member>,
    proposed: seq<Member>,
    currentBrokers: seq<Descriptor>,
    proposedBrokers: seq<Descriptor>,
    queue: QueueInfo,
    destination: Destination,
    currentResources: seq<Resource>,
    proposedResources: seq<Resource>,
    hashContract: string,
    algorithm: string,
    drainGrace: nat,
    roles: map<Phase, seq<Requirement>>)

  // --------------------------------------------------- published snapshots

  function MembershipOf(brokers: seq<Member>): (m: Membership)
    ensures |m| == |brokers| && forall i :: 0 <= i < |m| ==> m[i] == brokers[i].id
  {
    seq(|brokers|, i requires 0 <= i < |brokers| => brokers[i].id)
  }

  function RevisionFor(base: nat, offset: nat): nat {
    (if base == 0 then 1 else base) + offset
  }

  /** The spec's snapshot of its source or target epoch, with or without the
      proposal and the transition it belongs to. */
  function SnapshotAt(s: Spec, offset: nat, phase: WirePhase, target: bool, proposal: bool, moving: bool): Snapshot {
    Snapshot(
      SNAPSHOT_VERSION, s.namespace, s.libraryVersion, s.group, RevisionFor(s.revision, offset),
      if target then s.toEpoch else s.fromEpoch, phase,
      s.hashContract, s.algorithm,
      MembershipOf(if target then s.proposed else s.current),
      if proposal then MembershipOf(s.proposed) else [],
      if target then s.proposedBrokers else s.currentBrokers,
      if proposal then s.proposedBrokers else [],
      if moving then Some(Control.Transition(s.id, s.fromEpoch, s.toEpoch)) else None,
      s.queue, s.destination,
      if target then s.proposedResources else s.currentResources,
      if proposal then s.proposedResources else [])
  }

  /** The snapshot published on entering a phase, or on rolling back. */
  function ControlSnapshot(s: Spec, phase: Phase, rollback: bool): Snapshot {
    if rollback then SnapshotAt(s, 5, ACTIVE, false, false, false)
    else match phase
      case Prepare => SnapshotAt(s, 0, PREPARE, false, true, true)
      case Pause => SnapshotAt(s, 1, PAUSED, false, true, true)
      case Drain => SnapshotAt(s, 2, DRAIN, false, true, true)
      case Commit => SnapshotAt(s, 3, COMMITTED, true, false, true)
      case Activate => SnapshotAt(s, 4, ACTIVE, true, false, false)
  }

  // ------------------------------------------------------------ valid specs

  predicate RoleAllowed(role: Role, phase: Phase) {
    match role
    case Untyped => true
    case Publisher => phase == Pause || phase == Activate
    case Subscriber => phase == Prepare || phase == Drain || phase == Activate
    case Broker => true
    case _ => false
  }

  function RequirementsFor(s: Spec, phase: Phase): seq<Requirement> {
    if phase in s.roles then s.roles[phase] else []
  }

  predicate ValidRequirements(phase: Phase, requirements: seq<Requirement>) {
    && (forall i :: 0 <= i < |requirements| ==>
          requirements[i].participant != "" && RoleAllowed(requirements[i].role, phase))
    && (forall i, j :: 0 <= i < j < |requirements| ==> requirements[i].participant != requirements[j].participant)
  }

  predicate ValidMembers(brokers: seq<Member>) {
    && (forall i :: 0 <= i < |brokers| ==> brokers[i].id != "" && brokers[i].destination != "")
    && (forall i, j :: 0 <= i < j < |brokers| ==> brokers[i].id != brokers[j].id)
  }

  predicate ValidSpec(s: Spec) {
    && s.id != "" && s.group != ""
    && s.toEpoch == s.fromEpoch + 1 && s.fromEpoch != MAX_UINT64
    && 0 < s.revision <= MAX_UINT64 - 5
    && s.hashContract != "" && s.algorithm != ""
    && s.queue.name != "" && s.queue.durable
    && s.destination.Topic? && s.destination.name != ""
    && s.current != [] && s.proposed != []
    && (forall p :: p in s.roles ==> ValidRequirements(p, s.roles[p]))
    && RequirementsFor(s, Prepare) != [] && RequirementsFor(s, Pause) != []
    && RequirementsFor(s, Drain) != [] && RequirementsFor(s, Activate) != []
    && ValidMembers(s.current) && ValidMembers(s.proposed)
    && Valid(ControlSnapshot(s, Prepare, false))
  }

  /** Named once each, with a role that takes part in the phase. */
  method CheckRequirements(phase: Phase, requirements: seq<Requirement>) returns (ok: bool)
    ensures ok <==> ValidRequirements(phase, requirements)
  {
    var seen: set<string> := {};
    for i := 0 to |requirements|
      invariant seen == set k | 0 <= k < i :: requirements[k].participant
      invariant ValidRequirements(phase, requirements[..i])
    {
      var r := requirements[i];
      if r.participant == "" || r.role.Observer? || r.role.UnknownRole? {
        return false;
      }
      if r.role.Publisher? && phase != Pause && phase != Activate {
        return false;
      }
      if r.role.Subscriber? && phase != Prepare && phase != Drain && phase != Activate {
        return false;
      }
      if r.participant in seen {
        var k :| 0 <= k < i && requirements[k].participant == r.participant;
        return false;
      }
      seen := seen + {r.participant};
      assert requirements[..i + 1] == requirements[..i] + [r];
    }
    assert requirements[..|requirements|] == requirements;
    return true;
  }

  method CheckMembers(brokers: seq<Member>) returns (ok: bool)
    ensures ok <==> ValidMembers(brokers)
  {
    var seen: set<string> := {};
    for i := 0 to |brokers|
      invariant seen == set k | 0 <= k < i :: brokers[k].id
      invariant ValidMembers(brokers[..i])
    {
      if brokers[i].id == "" || brokers[i].destination == "" {
        return false;
      }
      if brokers[i].id in seen {
        var k :| 0 <= k < i && brokers[k].id == brokers[i].id;
        return false;
      }
      seen := seen + {brokers[i].id};
      assert brokers[..i + 1] == brokers[..i] + [brokers[i]];
    }
    assert brokers[..|brokers|] == brokers;
    return true;
  }

  /** Every phase that is listed. */
  method CheckRoles(roles: map<Phase, seq<Requirement>>) returns (ok: bool)
    ensures ok <==> forall p :: p in roles ==> ValidRequirements(p, roles[p])
  {
    hide ValidRequirements;
    var phases := [Prepare, Pause, Drain, Commit, Activate];
    for i := 0 to |phases|
      invariant forall k :: 0 <= k < i && phases[k] in roles ==> ValidRequirements(phases[k], roles[phases[k]])
    {
      if phases[i] in roles {
        ok := CheckRequirements(phases[i], roles[phases[i]]);
        if !ok {
          return false;
        }
      }
    }
    forall p | p in roles ensures ValidRequirements(p, roles[p]) {
      assert p == phases[0] || p == phases[1] || p == phases[2] || p == phases[3] || p == phases[4];
    }
    return true;
  }

  method CheckSpec(s: Spec) returns (ok: bool)
    ensures ok <==> ValidSpec(s)
  {
    hide ValidRequirements, ValidMembers, Valid, ControlSnapshot;
    if s.id == "" || s.group == "" || s.fromEpoch == MAX_UINT64 || s.toEpoch != s.fromEpoch + 1 {
      return false;
    }
    if s.revision == 0 || s.revision > MAX_UINT64 - 5 || s.hashContract == "" || s.algorithm == "" {
      return false;
    }
    if s.queue.name == "" || !s.queue.durable || !s.destination.Topic? || s.destination.name == "" {
      return false;
    }
    if |s.current| == 0 || |s.proposed| == 0 {
      return false;
    }
    ok := CheckRoles(s.roles);
    if !ok { return; }
    if Prepare !in s.roles || |s.roles[Prepare]| == 0 || Pause !in s.roles || |s.roles[Pause]| == 0
       || Drain !in s.roles || |s.roles[Drain]| == 0 || Activate !in s.roles || |s.roles[Activate]| == 0 {
      return false;
    }
    ok := CheckMembers(s.current);
    if !ok { return; }
    ok := CheckMembers(s.proposed);
    if !ok { return; }
    ok := Validate(ControlSnapshot(s, Prepare, false));
  }

  // ------------------------------------------------------ the publication chain

  /** What validation at PREPARE says about the parts of all other snapshots. */
  predicate PartsValid(s: Spec) {
    && ValidIdentifier(s.id) && s.fromEpoch != MAX_UINT64 && s.toEpoch == s.fromEpoch + 1
    && s.current != [] && s.proposed != [] && MembershipOf(s.current) != MembershipOf(s.proposed)
    && ValidMembership(MembershipOf(s.current), true) && ValidMembership(MembershipOf(s.proposed), false)
    && ValidDescriptors(s.currentBrokers, MembershipOf(s.current), true)
    && ValidDescriptors(s.proposedBrokers, MembershipOf(s.proposed), true)
    && ValidResources(s.currentResources, s.fromEpoch, MembershipOf(s.current))
    && ValidResources(s.proposedResources, s.toEpoch, MembershipOf(s.proposed))
  }

  lemma SpecParts(s: Spec)
    requires ValidSpec(s)
    ensures PartsValid(s) && ValidNames(ControlSnapshot(s, Prepare, false))
  {
    hide ValidNames, ValidMembership, ValidDescriptors, ValidResources, ValidRequirements, ValidMembers,
         ValidIdentifier;
    var p := ControlSnapshot(s, Prepare, false);
    assert ValidPhase(p) && p.proposed == MembershipOf(s.proposed);
  }

  lemma NamesAt(s: Spec, offset: nat, phase: WirePhase, target: bool, proposal: bool, moving: bool)
    requires ValidNames(ControlSnapshot(s, Prepare, false)) && s.toEpoch == s.fromEpoch + 1
    ensures ValidNames(SnapshotAt(s, offset, phase, target, proposal, moving))
  {
    hide ValidIdentifier, ValidName;
  }

  /** Snapshots of the source epoch that carry the proposal. */
  lemma ProposalValid(s: Spec, offset: nat, phase: WirePhase)
    requires PartsValid(s) && ValidNames(ControlSnapshot(s, Prepare, false))
             && (phase == PREPARE || phase == PAUSED || phase == DRAIN)
    ensures Valid(SnapshotAt(s, offset, phase, false, true, true))
  {
    hide ValidNames, ValidMembership, ValidDescriptors, ValidResources, ValidIdentifier;
    NamesAt(s, offset, phase, false, true, true);
  }

  lemma CommittedValid(s: Spec, offset: nat)
    requires PartsValid(s) && ValidNames(ControlSnapshot(s, Prepare, false))
    ensures Valid(SnapshotAt(s, offset, COMMITTED, true, false, true))
  {
    MembershipEither(MembershipOf(s.proposed));
    hide ValidNames, ValidMembership, ValidResources, ValidIdentifier;
    NamesAt(s, offset, COMMITTED, true, false, true);
    NothingDescribed();
    hide ValidDescriptors;
  }

  lemma ActiveValid(s: Spec, offset: nat, target: bool)
    requires PartsValid(s) && ValidNames(ControlSnapshot(s, Prepare, false))
    ensures Valid(SnapshotAt(s, offset, ACTIVE, target, false, false))
  {
    MembershipEither(MembershipOf(s.proposed));
    hide ValidNames, ValidMembership, ValidResources, ValidIdentifier;
    NamesAt(s, offset, ACTIVE, target, false, false);
    NothingDescribed();
    hide ValidDescriptors;
  }

  lemma MembershipEither(m: Membership)
    requires ValidMembership(m, false)
    ensures m != [] ==> ValidMembership(m, true)
    ensures ValidMembership([], false)
  {
  }

  lemma NothingDescribed()
    ensures ValidDescriptors([], [], false)
  {
  }

  /** A specification that validates at PREPARE can be published to the end, and
      can be rolled back. */
  lemma PublicationsValid(s: Spec, phase: Phase)
    requires ValidSpec(s)
    ensures Valid(ControlSnapshot(s, phase, false))
    ensures Valid(ControlSnapshot(s, phase, true))
  {
    hide ValidSpec, ValidNames, PartsValid, Valid, SnapshotAt;
    SpecParts(s);
    ProposalValid(s, 0, PREPARE);
    ProposalValid(s, 1, PAUSED);
    ProposalValid(s, 2, DRAIN);
    CommittedValid(s, 3);
    ActiveValid(s, 4, true);
    ActiveValid(s, 5, false);
  }

  /** The phase whose snapshot comes next when nothing is rolled back. */
  function NextPhase(phase: Phase): Phase
    requires phase != Activate
  {
    match phase
    case Prepare => Pause
    case Pause => Drain
    case Drain => Commit
    case Commit => Activate
  }

  lemma ForwardAdvances(s: Spec, phase: Phase)
    requires s.toEpoch == s.fromEpoch + 1 && phase != Activate
    ensures Compare(ControlSnapshot(s, phase, false), ControlSnapshot(s, NextPhase(phase), false)) == Newer
  {
  }

  lemma RollbackAdvances(s: Spec, phase: Phase)
    requires s.toEpoch == s.fromEpoch + 1 && phase in {Prepare, Pause, Drain}
    ensures Compare(ControlSnapshot(s, phase, false), ControlSnapshot(s, phase, true)) == Newer
  {
  }

  /** A specification built by the runtime from the retained ACTIVE snapshot. */
  predicate BuiltFrom(s: Spec, active: Snapshot) {
    && active.phase == ACTIVE
    && active.version == SNAPSHOT_VERSION
    && s.group == active.group
    && s.revision == active.revision + 1
    && s.fromEpoch == active.epoch
    && s.namespace == active.namespace
    && s.libraryVersion == active.libraryVersion
    && s.hashContract == active.hashContract
    && s.algorithm == active.algorithm
    && s.queue == active.queue
    && s.destination == active.destination
    && MembershipOf(s.current) == active.current
    && s.currentResources == active.currentResources
  }

  lemma FirstAdvances(s: Spec, active: Snapshot)
    requires s.toEpoch == s.fromEpoch + 1 && BuiltFrom(s, active)
    ensures Compare(active, ControlSnapshot(s, Prepare, false)) == Newer
    ensures Compare(active, ControlSnapshot(s, Prepare, true)) == Newer
  {
  }

  // ------------------------------------------------------------- the messages

  /** The identity of one command. Its textual form is not modelled. */
  datatype Command = Command(group: string, transition: string, phase: Phase, role: Role, participant: string)

  datatype Ack = Ack(
    command: Option<Command>,
    namespace: string,
    group: string,
    transitionId: string,
    epoch: nat,
    phase: Phase,
    participant: string,
    authenticated: string,
    role: Role,
    observedAt: Time)

  datatype Count = Known(value: nat) | Unknown

  datatype Telemetry = Telemetry(
    messageId: string,
    namespace: string,
    group: string,
    transitionId: string,
    epoch: nat,
    participant: string,
    role: Role,
    broker: string,
    queue: string,
    observedAt: Time,
    queued: Count,
    stored: Count,
    unacked: Count)

  datatype Source = Source(broker: string, queue: string)

  predicate KnownZero(t: Telemetry) {
    t.queued == Known(0) && t.stored == Known(0) && t.unacked == Known(0)
  }

  datatype RollbackProof = RollbackProof(transitionId: string, sourceIntact: bool, proposedInactive: bool,
                                         fenceReversible: bool)

  // ------------------------------------------------------------- group state

  datatype PhaseEvent = PhaseEvent(phase: Phase, enteredAt: Time, exitedAt: Option<Time>)

  datatype AckKey = AckKey(phase: Phase, participant: string)

  /** How far a transition is: its phase and the durable facts about it. */
  datatype Progress = Progress(
    phase: Phase,
    preparePublished: bool,
    pausePublished: bool,
    fenceAttempted: bool,
    fenced: bool,
    drainPublished: bool,
    commitPublished: bool,
    targetEnabled: bool,
    targetVerified: bool,
    activatePublished: bool,
    rollingBack: bool,
    unfenced: bool,
    rollbackPublished: bool,
    completed: bool)

  datatype Times = Times(
    startedAt: Time,
    phaseEnteredAt: Time,
    phaseDeadline: Time,
    completedAt: Option<Time>,
    history: seq<PhaseEvent>,
    fenceVerifiedAt: Option<Time>,
    targetVerifiedAt: Option<Time>)

  datatype GroupState = GroupState(
    spec: Spec,
    at: Progress,
    times: Times,
    acks: map<AckKey, Time>,
    issued: map<Phase, map<string, Command>>,
    latest: map<Source, Telemetry>,
    zeroSince: map<Source, Time>,
    messages: map<string, Telemetry>,
    cleanupRecorded: bool)

  const NOT_STARTED := Progress(Prepare, false, false, false, false, false, false, false, false, false, false, false,
                                false, false)

  function Begun(s: Spec, now: Time, timeout: nat): GroupState {
    GroupState(s, NOT_STARTED, Times(now, now, now + timeout, None, [PhaseEvent(Prepare, now, None)], None, None),
               map[], map[], map[], map[], map[], false)
  }

  // ---------------------------------------------------------------- commands

  /** Later entries win, as in a map filled by a loop. */
  function CommandsOf(s: Spec, phase: Phase, requirements: seq<Requirement>): (m: map<string, Command>)
    ensures forall p :: p in m <==> exists i :: 0 <= i < |requirements| && requirements[i].participant == p
  {
    if requirements == [] then map[]
    else
      var rest, last := requirements[..|requirements| - 1], requirements[|requirements| - 1];
      assert requirements == rest + [last];
      CommandsOf(s, phase, rest)[last.participant := Command(s.group, s.id, phase, last.role, last.participant)]
  }

  function Expected(s: Spec, phase: Phase): map<string, Command> {
    CommandsOf(s, phase, RequirementsFor(s, phase))
  }

  function IssuedIn(g: GroupState, phase: Phase): map<string, Command> {
    if phase in g.issued then g.issued[phase] else map[]
  }

  predicate CommandsIssued(g: GroupState, phase: Phase) {
    Expected(g.spec, phase) != map[] && IssuedIn(g, phase) == Expected(g.spec, phase)
  }

  function WithIntent(g: GroupState, phase: Phase): GroupState {
    g.(issued := g.issued[phase := Expected(g.spec, phase)])
  }

  predicate PhasePublished(a: Progress, phase: Phase) {
    match phase
    case Prepare => a.preparePublished
    case Pause => a.pausePublished
    case Drain => a.drainPublished
    case Commit => a.commitPublished
    case Activate => a.activatePublished
  }

  // --------------------------------------------------------- acknowledgements

  function RequirementOf(s: Spec, phase: Phase, participant: string): Option<Requirement> {
    FindRequirement(RequirementsFor(s, phase), participant)
  }

  function FindRequirement(requirements: seq<Requirement>, participant: string): (r: Option<Requirement>)
    ensures r.Some? ==> r.value in requirements && r.value.participant == participant
    ensures r.None? ==> forall i :: 0 <= i < |requirements| ==> requirements[i].participant != participant
  {
    if requirements == [] then None
    else if requirements[0].participant == participant then Some(requirements[0])
    else FindRequirement(requirements[1..], participant)
  }

  /** Whether an acknowledgement answers a command issued for the phase the
      transition is in now. */
  predicate AckInScope(g: GroupState, ack: Ack) {
    && !g.at.completed && !g.at.rollingBack
    && CommandsIssued(g, ack.phase)
    && ack.transitionId == g.spec.id
    && ack.epoch == g.spec.toEpoch
    && ack.phase == g.at.phase
    && RequirementOf(g.spec, ack.phase, ack.participant).Some?
    && ack.namespace == g.spec.namespace
    && (var role := RequirementOf(g.spec, ack.phase, ack.participant).value.role;
        if role.Untyped? then
          ack.command.None? && ack.authenticated == "" && ack.role.Untyped?
        else
          && ack.participant in IssuedIn(g, ack.phase)
          && ack.command == Some(IssuedIn(g, ack.phase)[ack.participant])
          && ack.authenticated == ack.participant
          && ack.role == role)
  }

  predicate AckIsNews(g: GroupState, ack: Ack) {
    var key := AckKey(ack.phase, ack.participant);
    key in g.acks ==> ack.observedAt > g.acks[key]
  }

  function Acked(g: GroupState, ack: Ack): GroupState {
    g.(acks := g.acks[AckKey(ack.phase, ack.participant) := ack.observedAt])
  }

  predicate AllAcknowledged(g: GroupState, phase: Phase) {
    forall i :: 0 <= i < |RequirementsFor(g.spec, phase)| ==>
      AckKey(phase, RequirementsFor(g.spec, phase)[i].participant) in g.acks
  }

  predicate HasTypedRequirements(s: Spec) {
    exists p, i :: p in s.roles && 0 <= i < |s.roles[p]| && !s.roles[p][i].role.Untyped?
  }

  // ---------------------------------------------------------------- telemetry

  /** One source for every current resource. A validated specification names a
      current broker in every resource and a resource for every current broker. */
  function RequiredSources(s: Spec): (r: seq<Source>)
    ensures |r| == |s.currentResources|
    ensures forall i :: 0 <= i < |r| ==> r[i] == Source(s.currentResources[i].broker, s.currentResources[i].queue)
  {
    seq(|s.currentResources|, i requires 0 <= i < |s.currentResources| =>
      Source(s.currentResources[i].broker, s.currentResources[i].queue))
  }

  predicate NamesABroker(r: Resource, brokers: seq<Member>) {
    exists b :: 0 <= b < |brokers| && brokers[b].id == r.broker
  }

  predicate HasAResource(b: Member, resources: seq<Resource>) {
    exists i :: 0 <= i < |resources| && resources[i].broker == b.id
  }

  /** The exactness test of the controller never fails for a validated
      specification, and no source is listed twice. */
  lemma SourcesExact(s: Spec)
    requires ValidSpec(s)
    ensures s.currentResources != []
    ensures forall i :: 0 <= i < |s.currentResources| ==> NamesABroker(s.currentResources[i], s.current)
    ensures forall b :: 0 <= b < |s.current| ==> HasAResource(s.current[b], s.currentResources)
    ensures NoDuplicates(RequiredSources(s))
  {
    var p := ControlSnapshot(s, Prepare, false);
    assert ValidResources(p.currentResources, p.epoch, p.current);
    ResourcesExact(s);
  }

  lemma ResourcesExact(s: Spec)
    requires ValidResources(s.currentResources, s.fromEpoch, MembershipOf(s.current))
    ensures s.currentResources != []
    ensures forall i :: 0 <= i < |s.currentResources| ==> NamesABroker(s.currentResources[i], s.current)
    ensures forall b :: 0 <= b < |s.current| ==> HasAResource(s.current[b], s.currentResources)
    ensures NoDuplicates(RequiredSources(s))
  {
    var m := MembershipOf(s.current);
    forall i | 0 <= i < |s.currentResources| ensures NamesABroker(s.currentResources[i], s.current) {
      assert ValidResource(s.currentResources[i], s.fromEpoch, m);
      var b :| 0 <= b < |m| && m[b] == s.currentResources[i].broker;
      assert s.current[b].id == m[b];
    }
    forall b | 0 <= b < |s.current| ensures HasAResource(s.current[b], s.currentResources) {
      assert Serves(s.currentResources, m[b], s.currentResources[0].consumerSet);
    }
    forall i, j | 0 <= i < j < |RequiredSources(s)| ensures RequiredSources(s)[i] != RequiredSources(s)[j] {
      assert s.currentResources[i].queue != s.currentResources[j].queue;
    }
  }

  function IngressTopic(resources: seq<Resource>, queue: string, found: string): string {
    if resources == [] then found
    else if resources[0].queue != queue then IngressTopic(resources[1..], queue, found)
    else if found != "" && found != resources[0].ingressTopic then ""
    else IngressTopic(resources[1..], queue, resources[0].ingressTopic)
  }

  /** A trusted in-process observation covering every source at once. */
  predicate IsAggregate(s: Spec, t: Telemetry) {
    && t.messageId == "" && t.namespace == "" && t.role.Observer? && t.broker == "aggregate"
    && forall i :: 0 <= i < |RequiredSources(s)| ==>
         RequiredSources(s)[i].queue == t.queue
         || IngressTopic(s.currentResources, RequiredSources(s)[i].queue, "") == t.queue
  }

  function SourcesFor(s: Spec, t: Telemetry): seq<Source> {
    if Source(t.broker, t.queue) in RequiredSources(s) then [Source(t.broker, t.queue)]
    else if IsAggregate(s, t) then RequiredSources(s)
    else []
  }

  predicate SampleInScope(g: GroupState, t: Telemetry, now: Time) {
    var exact := Source(t.broker, t.queue) in RequiredSources(g.spec);
    && !g.at.completed && !g.at.rollingBack && g.at.phase == Drain && g.at.drainPublished
    && t.transitionId == g.spec.id && t.epoch == g.spec.fromEpoch
    && t.observedAt != 0 && g.times.phaseEnteredAt <= t.observedAt <= now
    && SourcesFor(g.spec, t) != []
    && (t.namespace == g.spec.namespace || !exact)
    && (t.role.Untyped? || t.role.Broker? || t.role.Observer?)
    && (t.participant == "" <==> t.role.Untyped?)
    && (HasTypedRequirements(g.spec) && exact ==> t.messageId != "" && t.participant != "" && !t.role.Untyped?)
    && forall i :: 0 <= i < |SourcesFor(g.spec, t)| ==>
         SourcesFor(g.spec, t)[i] in g.latest ==> t.observedAt > g.latest[SourcesFor(g.spec, t)[i]].observedAt
  }

  function ObservedAt(g: GroupState, source: Source, t: Telemetry, freshness: nat): GroupState {
    var restarts := source !in g.latest || !KnownZero(g.latest[source])
                    || t.observedAt > g.latest[source].observedAt + freshness;
    g.(
      zeroSince := if !KnownZero(t) then g.zeroSince - {source}
                   else if restarts then g.zeroSince[source := t.observedAt]
                   else g.zeroSince,
      latest := g.latest[source := t.(broker := source.broker, queue := source.queue)])
  }

  function ObservedAll(g: GroupState, sources: seq<Source>, t: Telemetry, freshness: nat): GroupState {
    if sources == [] then g
    else ObservedAt(ObservedAll(g, sources[..|sources| - 1], t, freshness), sources[|sources| - 1], t, freshness)
  }

  function Observed(g: GroupState, t: Telemetry, freshness: nat): GroupState {
    var next := ObservedAll(g, SourcesFor(g.spec, t), t, freshness);
    if t.messageId != "" then next.(messages := next.messages[t.messageId := t]) else next
  }

  // ------------------------------------------------------------ phase changes

  function LeavePhase(history: seq<PhaseEvent>, now: Time): (r: seq<PhaseEvent>)
    ensures |r| == |history|
  {
    if history != [] && history[|history| - 1].exitedAt.None? then
      history[|history| - 1 := history[|history| - 1].(exitedAt := Some(now))]
    else history
  }

  function EnterPhase(t: Times, phase: Phase, now: Time, timeout: nat): Times {
    t.(phaseEnteredAt := now, phaseDeadline := now + timeout,
       history := LeavePhase(t.history, now) + [PhaseEvent(phase, now, None)])
  }

  function CompleteAt(t: Times, now: Time): Times {
    t.(completedAt := Some(now), phaseDeadline := 0, history := LeavePhase(t.history, now))
  }

  /** Records one publication and nothing else. */
  function MarkPublished(a: Progress, phase: Phase): (r: Progress)
    ensures forall ph :: PhasePublished(r, ph) <==> PhasePublished(a, ph) || ph == phase
    ensures r.phase == a.phase && r.completed == a.completed && r.rollingBack == a.rollingBack
            && r.targetVerified == a.targetVerified
  {
    match phase
    case Prepare => a.(preparePublished := true)
    case Pause => a.(pausePublished := true)
    case Drain => a.(drainPublished := true)
    case Commit => a.(commitPublished := true)
    case Activate => a.(activatePublished := true)
  }
}
