/** The controller of one scaling group together with its surroundings, as a
    labelled step relation. A label is one durable save, one external effect, one
    message or one restart. Effects may fail after changing any subset of queues:
    the effect step then happens without the save that would record it.

    Follows controller/controller.go, runtime/resources.go and
    runtime/production.go. */
module ControllerSteps {
  import opened Control
  import opened Transition
  import opened ControllerState

  datatype World = World(
    p: Persistent,
    open: set<Resource>,        // queues with ingress enabled
    log: seq<Snapshot>,         // every snapshot made authoritative, oldest first
    samples: seq<Telemetry>,    // telemetry accepted by this transition, oldest first
    used: set<string>,          // transition identities begun so far
    now: Time)

  function Queues(resources: seq<Resource>): set<Resource> {
    set r | r in resources
  }

  datatype Step =
    | Tick(later: Time)
    | Begin(spec: Spec)
    | Acknowledge(ack: Ack)
    | Observe(sample: Telemetry)
    | RequestRollback(proof: RollbackProof)
    | RecordIntent(phase: Phase)
    | Retain(phase: Phase, rollback: bool)
    | RecordPublished(phase: Phase)
    | EnterPause
    | RecordFenceAttempt
    | FenceEffect(closed: set<Resource>)
    | RecordFenced
    | EnterDrain
    | EnterCommit(drainedAt: Time, verifiedAt: Time, observedAt: Time)
    | RecordCommitPublished(verifiedAt: Time, observedAt: Time)
    | EnterActivate
    | EnableEffect(lifted: set<Resource>)
    | RecordEnabled
    | RecordVerified(verifiedAt: Time, observedAt: Time)
    | RecordActivatePublished(verifiedAt: Time, observedAt: Time)
    | UnfenceEffect(lifted: set<Resource>)
    | RecordUnfenced
    | RecordRollbackPublished
    | Complete
    | Restart(sourceChanged: set<Resource>, targetOpened: set<Resource>)

  // --------------------------------------------------------------- conditions

  predicate Forward(a: Progress, phase: Phase) {
    !a.completed && !a.rollingBack && a.phase == phase
  }

  predicate Backward(a: Progress) {
    !a.completed && a.rollingBack
  }

  predicate AnyFence(a: Progress) {
    a.fenceAttempted || a.fenced
  }

  /** The flags and phase on which Reconcile, RequestRollback, Acknowledge and
      Observe branch before they do anything. */
  predicate Guard(a: Progress, step: Step) {
    match step
    case Tick(_) => true
    case Begin(_) => a.completed
    case Acknowledge(ack) => Forward(a, ack.phase)
    case Observe(_) => Forward(a, Drain) && a.drainPublished
    case RequestRollback(_) =>
      !a.rollingBack && a.phase != Commit && a.phase != Activate && !a.commitPublished && !a.activatePublished
    case RecordIntent(phase) =>
      Forward(a, phase) && phase != Commit && !PhasePublished(a, phase) && (phase == Activate ==> a.targetVerified)
    case Retain(phase, rollback) =>
      if rollback then Backward(a) && !a.rollbackPublished && (AnyFence(a) ==> a.unfenced)
      else Forward(a, phase) && !PhasePublished(a, phase) && (phase == Activate ==> a.targetVerified)
    case RecordPublished(phase) => Forward(a, phase) && phase != Commit && phase != Activate
    && !PhasePublished(a, phase)
    case EnterPause => Forward(a, Prepare) && a.preparePublished
    case RecordFenceAttempt => Forward(a, Pause) && a.pausePublished && !a.fenceAttempted
    case FenceEffect(_) => Forward(a, Pause) && a.fenceAttempted && !a.fenced
    case RecordFenced => Forward(a, Pause) && a.fenceAttempted && !a.fenced
    case EnterDrain => Forward(a, Pause) && a.pausePublished && a.fenced
    case EnterCommit(_, _, _) => Forward(a, Drain) && a.drainPublished
    case RecordCommitPublished(_, _) => Forward(a, Commit) && !a.commitPublished
    case EnterActivate => Forward(a, Commit) && a.commitPublished
    case EnableEffect(_) => Forward(a, Activate) && !a.targetEnabled
    case RecordEnabled => Forward(a, Activate) && !a.targetEnabled
    case RecordVerified(_, _) => Forward(a, Activate) && a.targetEnabled && !a.targetVerified
    case RecordActivatePublished(_, _) => Forward(a, Activate) && a.targetVerified && !a.activatePublished
    case UnfenceEffect(_) => Backward(a) && AnyFence(a) && !a.unfenced
    case RecordUnfenced => Backward(a) && AnyFence(a) && !a.unfenced
    case RecordRollbackPublished => Backward(a) && !a.rollbackPublished && (AnyFence(a) ==> a.unfenced)
    case Complete =>
      || (Forward(a, Activate) && a.activatePublished)
      || (Backward(a) && a.rollbackPublished && (AnyFence(a) ==> a.unfenced))
    case Restart(_, _) => true
  }

  /** A broker-side check made no later than now and no longer ago than allowed. */
  predicate FreshStatus(observedAt: Time, checkedAt: Time, now: Time, freshness: nat) {
    0 < observedAt <= checkedAt <= now && checkedAt <= observedAt + freshness
  }

  /** What the runtime hands to Begin: a validated specification built from the
      retained ACTIVE snapshot under a new identity. */
  predicate MayBegin(w: World, spec: Spec) {
    && ValidSpec(spec) && spec.drainGrace > 0
    && spec.id !in w.used
    && w.p.membership.Some? && BuiltFrom(spec, w.p.membership.value)
    && (w.p.group.Some? ==> CanReplaceCompleted(w.p.group.value, spec))
  }

  predicate MayRollBack(g: GroupState, proof: RollbackProof) {
    && proof.transitionId == g.spec.id && proof.sourceIntact && proof.proposedInactive
    && (AnyFence(g.at) ==> proof.fenceReversible)
  }

  /** Evidence a step needs besides its guard. */
  predicate Justified(w: World, g: GroupState, step: Step, o: Options) {
    match step
    case Acknowledge(ack) => AckInScope(g, ack) && AckIsNews(g, ack)
    case Observe(sample) => SampleInScope(g, sample, w.now)
    && (sample.messageId != "" ==> sample.messageId !in g.messages)
    case RequestRollback(proof) => MayRollBack(g, proof)
    case RecordIntent(phase) => !CommandsIssued(g, phase)
    case Retain(phase, rollback) =>
      && (!rollback && phase != Commit ==> CommandsIssued(g, phase))
      && SaveMembership(w.p, ControlSnapshot(g.spec, phase, rollback)).Stored?
    case RecordPublished(phase) =>
      CommandsIssued(g, phase) && w.p.membership == Some(ControlSnapshot(g.spec, phase, false))
    case EnterPause => AllAcknowledged(g, Prepare)
    case RecordFenceAttempt => AllAcknowledged(g, Pause)
    case FenceEffect(closed) => closed <= Queues(g.spec.currentResources)
    case RecordFenced => w.open !! Queues(g.spec.currentResources)
    case EnterDrain => AllAcknowledged(g, Pause)
    case EnterCommit(drainedAt, verifiedAt, observedAt) =>
      && drainedAt <= w.now
      && DrainComplete(g, drainedAt, o.telemetryFreshness)
      && AllAcknowledged(g, Drain)
      && FreshStatus(observedAt, verifiedAt, w.now, o.fenceFreshness)
    case RecordCommitPublished(verifiedAt, observedAt) =>
      && w.p.membership == Some(ControlSnapshot(g.spec, Commit, false))
      && FreshStatus(observedAt, verifiedAt, w.now, o.fenceFreshness)
    case EnableEffect(lifted) => lifted <= Queues(g.spec.proposedResources)
    case RecordEnabled => Queues(g.spec.proposedResources) <= w.open
    case RecordVerified(verifiedAt, observedAt) => FreshStatus(observedAt, verifiedAt, w.now, o.fenceFreshness)
    case RecordActivatePublished(verifiedAt, observedAt) =>
      && CommandsIssued(g, Activate) && w.p.membership == Some(ControlSnapshot(g.spec, Activate, false))
      && FreshStatus(observedAt, verifiedAt, w.now, o.fenceFreshness)
    case UnfenceEffect(lifted) => lifted <= Queues(g.spec.currentResources)
    case RecordUnfenced => Queues(g.spec.currentResources) <= w.open
    case RecordRollbackPublished => w.p.membership == Some(ControlSnapshot(g.spec, g.at.phase, true))
    case Complete => !g.at.rollingBack ==> AllAcknowledged(g, Activate)
    case Restart(sourceChanged, targetOpened) =>
      && Open(w.p, w.now, o).Opened?
      && sourceChanged <= Queues(g.spec.currentResources) && targetOpened <= Queues(g.spec.proposedResources)
    case _ => true
  }

  predicate NeedsGroup(step: Step) {
    !step.Tick? && !step.Begin?
  }

  predicate Enabled(w: World, step: Step, o: Options) {
    match step
    case Tick(later) => w.now <= later
    case Begin(spec) => MayBegin(w, spec)
    case _ => w.p.group.Some? && Guard(w.p.group.value.at, step) && Justified(w, w.p.group.value, step, o)
  }

  // ------------------------------------------------------------------ effects

  function ProgressAfter(a: Progress, step: Step): Progress {
    match step
    case RequestRollback(_) => a.(rollingBack := true)
    case RecordPublished(phase) => MarkPublished(a, phase)
    case EnterPause => a.(phase := Pause)
    case RecordFenceAttempt => a.(fenceAttempted := true)
    case RecordFenced => a.(fenced := true)
    case EnterDrain => a.(phase := Drain)
    case EnterCommit(_, _, _) => a.(phase := Commit)
    case RecordCommitPublished(_, _) => a.(fenceAttempted := true, fenced := true, commitPublished := true)
    case EnterActivate => a.(phase := Activate)
    case RecordEnabled => a.(targetEnabled := true)
    case RecordVerified(_, _) => a.(targetVerified := true)
    case RecordActivatePublished(_, _) => a.(activatePublished := true)
    case RecordUnfenced => a.(unfenced := true)
    case RecordRollbackPublished => a.(rollbackPublished := true)
    case Complete => a.(completed := true)
    case _ => a
  }

  function TimesAfter(t: Times, step: Step, now: Time, timeout: nat): Times {
    match step
    case EnterPause => EnterPhase(t, Pause, now, timeout)
    case EnterDrain => EnterPhase(t, Drain, now, timeout)
    case EnterCommit(_, _, observedAt) => EnterPhase(t.(fenceVerifiedAt := Some(observedAt)), Commit, now, timeout)
    case RecordCommitPublished(_, observedAt) => t.(fenceVerifiedAt := Some(observedAt))
    case EnterActivate => EnterPhase(t, Activate, now, timeout)
    case RecordVerified(_, observedAt) => t.(targetVerifiedAt := Some(observedAt))
    case RecordActivatePublished(_, observedAt) => t.(targetVerifiedAt := Some(observedAt))
    case Complete => CompleteAt(t, now)
    case _ => t
  }

  /** The new group state of a step that saves one. */
  function GroupAfter(w: World, step: Step, o: Options): GroupState
    requires w.p.group.Some?
  {
    var g := w.p.group.value;
    match step
    case Acknowledge(ack) => Acked(g, ack)
    case Observe(sample) => Observed(g, sample, o.telemetryFreshness)
    case RecordIntent(phase) => WithIntent(g, phase)
    case _ => g.(at := ProgressAfter(g.at, step), times := TimesAfter(g.times, step, w.now, o.phaseTimeout))
  }

  /** The ingress change that the durable flags ask for at a restart, replayed on
      all or some of the queues. */
  function Replayed(a: Progress, open: set<Resource>, sourceChanged: set<Resource>,
                    targetOpened: set<Resource>): set<Resource> {
    if a.completed then open
    else
      var sourced := if a.unfenced then open + sourceChanged
                     else if a.fenceAttempted then open - sourceChanged
                     else open;
      if a.targetEnabled then sourced + targetOpened else sourced
  }

  function After(w: World, step: Step, o: Options): World
    requires NeedsGroup(step) ==> w.p.group.Some?
  {
    match step
    case Tick(later) => w.(now := later)
    case Begin(spec) =>
      w.(p := w.p.(group := Some(Begun(spec, w.now, o.phaseTimeout))), samples := [], used := w.used + {spec.id})
    case Retain(phase, rollback) =>
      var snapshot := ControlSnapshot(w.p.group.value.spec, phase, rollback);
      w.(p := w.p.(membership := Some(snapshot)), log := w.log + [snapshot])
    case FenceEffect(closed) => w.(open := w.open - closed)
    case EnableEffect(lifted) => w.(open := w.open + lifted)
    case UnfenceEffect(lifted) => w.(open := w.open + lifted)
    case Restart(sourceChanged, targetOpened) =>
      var g := Reopened(w.p.group.value, w.now, o);
      w.(p := w.p.(group := Some(g)), open := Replayed(g.at, w.open, sourceChanged, targetOpened))
    case Observe(sample) =>
      w.(p := UpdateGroup(w.p, GroupAfter(w, step, o), o.historyLimit), samples := w.samples + [sample])
    case _ => w.(p := UpdateGroup(w.p, GroupAfter(w, step, o), o.historyLimit))
  }

  /** A group that has never moved: one valid ACTIVE snapshot, its queues open. */
  predicate Initial(w: World) {
    && w.p.group.None? && w.p.evidence == [] && w.p.history == []
    && w.p.membership.Some? && Valid(w.p.membership.value) && w.p.membership.value.phase == ACTIVE
    && w.log == [w.p.membership.value]
    && w.open <= Queues(w.p.membership.value.currentResources)
    && w.samples == [] && w.used == {} && w.now > 0
  }

  /** The world after a step, where the step is possible. */
  function Take(w: World, step: Step, o: Options): Option<World> {
    if Enabled(w, step, o) then Some(After(w, step, o)) else None
  }

  predicate IsRun(run: seq<World>, steps: seq<Step>, o: Options) {
    && |run| == |steps| + 1 && ValidOptions(o) && Initial(run[0])
    && forall i :: 0 <= i < |steps| ==> Take(run[i], steps[i], o) == Some(run[i + 1])
  }
}
