/** The durable controller state of one scaling group and every atomic step that
    changes it or the brokers: the saves, the external effects between them, and
    restarts. Follows controller/controller.go and runtime/resources.go.

    A save is atomic, and memory is replaced only after a successful save, so a
    crash and a failed save look the same: the previous state stays. */
module ControllerState {
  import opened Control
  import opened Transition

  datatype Options = Options(
    telemetryFreshness: nat,
    readinessFreshness: nat,
    fenceFreshness: nat,
    zeroGrace: nat,
    phaseTimeout: nat,
    historyLimit: nat)

  predicate ValidOptions(o: Options) {
    && o.telemetryFreshness > 0 && o.readinessFreshness > 0 && o.fenceFreshness > 0
    && o.zeroGrace > 0 && o.phaseTimeout > 0 && o.historyLimit > 0
  }

  datatype SourceEvidence = SourceEvidence(source: Source, messageId: string, zeroSince: Time, observedAt: Time)

  datatype Evidence = Evidence(
    transitionId: string,
    sourceEpoch: nat,
    targetEpoch: nat,
    zeroSince: Time,
    drainObservedAt: Time,
    fenceVerifiedAt: Time,
    committedAt: Time,
    oldEpochFenced: bool,
    sources: seq<SourceEvidence>)

  datatype Result = CommittedResult | RolledBackResult

  datatype Record = Record(
    transitionId: string,
    fromEpoch: nat,
    toEpoch: nat,
    startedAt: Time,
    completedAt: Time,
    result: Result,
    phases: seq<PhaseEvent>)

  /** The durable document, restricted to one scaling group. */
  datatype Persistent = Persistent(
    group: Option<GroupState>,
    membership: Option<Snapshot>,
    evidence: seq<Evidence>,
    history: seq<Record>)

  // ------------------------------------------------------------ drain decision

  predicate SourceDrained(g: GroupState, source: Source, now: Time, freshness: nat) {
    && source in g.latest && source in g.zeroSince
    && KnownZero(g.latest[source])
    && g.times.phaseEnteredAt <= g.latest[source].observedAt <= now
    && now <= g.latest[source].observedAt + freshness
  }

  function LatestZero(g: GroupState, sources: seq<Source>, start: Time): (t: Time)
    requires forall i :: 0 <= i < |sources| ==> sources[i] in g.zeroSince
    ensures t >= start && forall i :: 0 <= i < |sources| ==> g.zeroSince[sources[i]] <= t
    ensures t == start || exists i :: 0 <= i < |sources| && g.zeroSince[sources[i]] == t
  {
    if sources == [] then start
    else
      var rest := LatestZero(g, sources[..|sources| - 1], start);
      var last := g.zeroSince[sources[|sources| - 1]];
      if last > rest then last else rest
  }

  /** Zero when there is no source. */
  function EarliestObserved(g: GroupState, sources: seq<Source>): (t: Time)
    requires forall i :: 0 <= i < |sources| ==> sources[i] in g.latest
    ensures sources != [] && (forall i :: 0 <= i < |sources| ==> g.latest[sources[i]].observedAt > 0) ==>
              (forall i :: 0 <= i < |sources| ==> t <= g.latest[sources[i]].observedAt)
              && exists i :: 0 <= i < |sources| && g.latest[sources[i]].observedAt == t
  {
    if sources == [] then 0
    else
      var rest := EarliestObserved(g, sources[..|sources| - 1]);
      var last := g.latest[sources[|sources| - 1]].observedAt;
      if rest == 0 || last < rest then last else rest
  }

  predicate DrainComplete(g: GroupState, now: Time, freshness: nat) {
    var sources := RequiredSources(g.spec);
    && (forall i :: 0 <= i < |sources| ==> SourceDrained(g, sources[i], now, freshness))
    && EarliestObserved(g, sources) >= LatestZero(g, sources, g.times.phaseEnteredAt) + g.spec.drainGrace
  }

  predicate AckFresh(g: GroupState, participant: string, now: Time, freshness: nat) {
    var key := AckKey(Drain, participant);
    key in g.acks && g.times.phaseEnteredAt <= g.acks[key] <= now <= g.acks[key] + freshness
  }

  /** Untyped transitions may have reported readiness during PREPARE only. */
  predicate PrepareAckFresh(g: GroupState, participant: string, now: Time, freshness: nat) {
    var key := AckKey(Prepare, participant);
    key in g.acks && g.acks[key] <= now <= g.acks[key] + freshness
  }

  predicate ReadinessFresh(g: GroupState, now: Time, freshness: nat) {
    forall i :: 0 <= i < |RequirementsFor(g.spec, Drain)| ==>
      var participant := RequirementsFor(g.spec, Drain)[i].participant;
      AckFresh(g, participant, now, freshness)
      || (!HasTypedRequirements(g.spec) && PrepareAckFresh(g, participant, now, freshness))
  }

  // ----------------------------------------------------------- durable updates

  function SourceFacts(g: GroupState, sources: seq<Source>): (r: seq<SourceEvidence>)
    requires forall i :: 0 <= i < |sources| ==> sources[i] in g.latest && sources[i] in g.zeroSince
    ensures |r| == |sources|
    ensures forall i :: 0 <= i < |r| ==>
              r[i] == SourceEvidence(sources[i], g.latest[sources[i]].messageId, g.zeroSince[sources[i]],
                                     g.latest[sources[i]].observedAt)
  {
    seq(|sources|, i requires 0 <= i < |sources| =>
      SourceEvidence(sources[i], g.latest[sources[i]].messageId, g.zeroSince[sources[i]],
                     g.latest[sources[i]].observedAt))
  }

  predicate EvidenceReady(g: GroupState) {
    && !g.cleanupRecorded && g.times.fenceVerifiedAt.Some?
    && forall i :: 0 <= i < |RequiredSources(g.spec)| ==>
         RequiredSources(g.spec)[i] in g.latest && RequiredSources(g.spec)[i] in g.zeroSince
  }

  function EvidenceOf(g: GroupState): Evidence
    requires EvidenceReady(g)
  {
    var sources := RequiredSources(g.spec);
    Evidence(g.spec.id, g.spec.fromEpoch, g.spec.toEpoch,
             LatestZero(g, sources, 0), EarliestObserved(g, sources),
             g.times.fenceVerifiedAt.value, g.times.phaseEnteredAt, true, SourceFacts(g, sources))
  }

  function RecordOf(g: GroupState): Record
    requires g.times.completedAt.Some?
  {
    Record(g.spec.id, g.spec.fromEpoch, g.spec.toEpoch, g.times.startedAt, g.times.completedAt.value,
           if g.at.rollingBack then RolledBackResult else CommittedResult, g.times.history)
  }

  function Trim(history: seq<Record>, limit: nat): seq<Record> {
    if |history| > limit then history[|history| - limit..] else history
  }

  /** Every change of the group state goes through here: entering COMMIT records
      the cleanup evidence and completing records the result. */
  function UpdateGroup(p: Persistent, g: GroupState, limit: nat): Persistent
    requires p.group.Some?
  {
    var entered := p.group.value.at.phase != Commit && g.at.phase == Commit;
    var recorded := entered && EvidenceReady(g);
    var finished := !p.group.value.at.completed && g.at.completed && g.times.completedAt.Some?;
    p.(
      group := Some(if recorded then g.(cleanupRecorded := true) else g),
      evidence := if recorded then p.evidence + [EvidenceOf(g)] else p.evidence,
      history := if finished then Trim(p.history + [RecordOf(g)], limit) else p.history)
  }

  datatype Saved = Stored(p: Persistent) | Unchanged | RefusedSave

  /** A membership snapshot becomes authoritative when it is saved, before it is
      published. */
  function SaveMembership(p: Persistent, s: Snapshot): Saved {
    if !Valid(s) then RefusedSave
    else if p.membership.Some? && (s.revision < p.membership.value.revision || s.epoch < p.membership.value.epoch)
      then RefusedSave
    else if p.membership.Some? && s.revision == p.membership.value.revision then
      if s == p.membership.value then Unchanged else RefusedSave
    else Stored(p.(membership := Some(s)))
  }

  predicate CanReplaceCompleted(existing: GroupState, next: Spec) {
    && existing.at.completed && next.id != existing.spec.id
    && if existing.at.rollingBack then
         && next.fromEpoch == existing.spec.fromEpoch
         && next.revision > RevisionFor(existing.spec.revision, 5)
         && next.current == existing.spec.current
       else
         && next.fromEpoch == existing.spec.toEpoch
         && next.revision > RevisionFor(existing.spec.revision, 4)
         && next.current == existing.spec.proposed
  }

  // --------------------------------------------------------- what Open requires

  function Rank(phase: Phase): nat {
    match phase
    case Prepare => 1
    case Pause => 2
    case Drain => 3
    case Commit => 4
    case Activate => 5
  }

  predicate ValidPublications(g: GroupState) {
    && (g.at.pausePublished ==> g.at.preparePublished)
    && (g.at.drainPublished ==> g.at.pausePublished && g.at.fenced)
    && (g.at.commitPublished ==> g.at.phase == Commit || g.at.phase == Activate)
    && (g.at.activatePublished ==> g.at.phase == Activate)
    && (g.at.activatePublished ==> g.times.fenceVerifiedAt.Some? && g.at.targetEnabled && g.at.targetVerified
                                   && g.times.targetVerifiedAt.Some?)
    && ((g.at.phase == Drain && g.at.drainPublished) || (g.at.phase == Commit && g.at.commitPublished)
        || g.at.phase == Activate ==>
          g.at.fenced || g.at.rollingBack)
    && (g.at.completed ==> g.times.completedAt.Some?)
    && (g.at.completed && !g.at.rollingBack ==> g.at.activatePublished)
    && (g.at.fenced ==> g.at.fenceAttempted)
    && (g.at.targetVerified ==> g.at.targetEnabled && g.times.targetVerifiedAt.Some?)
    && (g.at.rollbackPublished && (g.at.fenceAttempted || g.at.fenced) ==> g.at.unfenced)
  }

  predicate ValidAcknowledgements(g: GroupState) {
    forall k :: k in g.acks ==>
      && RequirementOf(g.spec, k.phase, k.participant).Some?
      && CommandsIssued(g, k.phase) && k.participant in IssuedIn(g, k.phase)
  }

  predicate ValidCommands(g: GroupState) {
    && (forall ph :: ph in g.issued && g.issued[ph] != map[] ==>
          g.issued[ph] == Expected(g.spec, ph) && (PhasePublished(g.at, ph) || ph == g.at.phase))
    && (forall ph :: ph in g.spec.roles && PhasePublished(g.at, ph) ==> CommandsIssued(g, ph))
  }

  predicate SameMessage(a: Telemetry, b: Telemetry) {
    a == b.(broker := a.broker, queue := a.queue)
  }

  predicate ValidTelemetry(g: GroupState) {
    && (forall source :: source in g.latest ==>
          && SourcesFor(g.spec, g.latest[source]) == [source]
          && (g.latest[source].messageId != "" ==>
                g.latest[source].messageId in g.messages
                && SameMessage(g.messages[g.latest[source].messageId], g.latest[source]))
          && (source in g.zeroSince ==> KnownZero(g.latest[source])))
    && (forall source :: source in g.zeroSince ==> source in g.latest)
  }

  predicate ValidGroupState(g: GroupState) {
    ValidPublications(g) && ValidAcknowledgements(g) && ValidCommands(g) && ValidTelemetry(g)
  }

  // ------------------------------------------------------------------- opening

  /** Issued commands of a published phase are filled in where absent. */
  function Reissued(g: GroupState): map<Phase, map<string, Command>> {
    map ph: Phase | ph in g.issued.Keys + g.spec.roles.Keys && (ph in g.issued || PhasePublished(g.at, ph)) ::
      Refilled(g, ph)
  }

  function Refilled(g: GroupState, phase: Phase): map<string, Command> {
    if phase in g.spec.roles && PhasePublished(g.at, phase) then Expected(g.spec, phase) + IssuedIn(g, phase)
      else IssuedIn(g, phase)
  }

  function ReopenedHistory(g: GroupState, enteredAt: Time): seq<PhaseEvent> {
    if g.times.history == [] then [PhaseEvent(g.at.phase, enteredAt, None)] else g.times.history
  }

  /** The repairs made to a loaded transition before it is checked. */
  function Reopened(g: GroupState, now: Time, o: Options): GroupState {
    g.(
      spec := if g.spec.drainGrace == 0 then g.spec.(drainGrace := o.zeroGrace) else g.spec,
      at := g.at.(fenceAttempted := g.at.fenceAttempted || g.at.fenced),
      times := ReopenedTimes(g, now, o.phaseTimeout),
      issued := Reissued(g))
  }

  function ReopenedTimes(g: GroupState, now: Time, timeout: nat): Times {
    var startedAt := if g.times.startedAt == 0 then now else g.times.startedAt;
    var enteredAt := if g.times.phaseEnteredAt == 0 then startedAt else g.times.phaseEnteredAt;
    var deadline := if g.times.phaseDeadline == 0 && !g.at.completed then enteredAt + timeout
        else g.times.phaseDeadline;
    var history := ReopenedHistory(g, enteredAt);
    var finishing := g.at.completed && g.times.completedAt.None?;
    g.times.(
      startedAt := startedAt,
      phaseEnteredAt := enteredAt,
      completedAt := if finishing then Some(now) else g.times.completedAt,
      phaseDeadline := if finishing then 0 else deadline,
      history := if finishing then history[|history| - 1 := history[|history| - 1].(exitedAt := Some(now))]
            else history)
  }

  datatype Opening = Opened(p: Persistent) | RefusedOpen

  function Open(p: Persistent, now: Time, o: Options): Opening {
    if p.membership.Some? && !Valid(p.membership.value) then RefusedOpen
    else if p.group.None? then Opened(p)
    else if !ValidSpec(p.group.value.spec) then RefusedOpen
    else
      var g := Reopened(p.group.value, now, o);
      if ValidGroupState(g) then Opened(p.(group := Some(g))) else RefusedOpen
  }
}
