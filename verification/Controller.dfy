/** The controller object: the methods of controller/controller.go on one scaling
    group, with every save, effect, publication and clock reading answered by its
    surroundings. Each method keeps the object on a run of the step relation, so
    everything proved of runs holds of the object.
    The clock never goes back. */
module ControllerObject {
  import opened Control
  import opened Transition
  import opened ControllerState
  import opened ControllerSteps
  import opened ControllerRestart
  import opened ControllerProgress
  import opened ControllerChain
  import opened ControllerPromises

  // ------------------------------------------------------------ reading the state

  method CheckAcknowledged(g: GroupState, phase: Phase) returns (ok: bool)
    ensures ok <==> AllAcknowledged(g, phase)
    ensures ok <==> EveryoneAnswered(g, phase)
  {
    AnsweredMeans(g, phase);
    hide EveryoneAnswered;
    var required := RequirementsFor(g.spec, phase);
    for i := 0 to |required|
      invariant forall k :: 0 <= k < i ==> AckKey(phase, required[k].participant) in g.acks
    {
      if AckKey(phase, required[i].participant) !in g.acks {
        return false;
      }
    }
    return true;
  }

  lemma BoundsNext(g: GroupState, sources: seq<Source>, i: nat, start: Time)
    requires i < |sources| && forall k :: 0 <= k <= i ==> sources[k] in g.latest && sources[k] in g.zeroSince
    ensures var latest, earliest := LatestZero(g, sources[..i], start), EarliestObserved(g, sources[..i]);
            var zero, seen := g.zeroSince[sources[i]], g.latest[sources[i]].observedAt;
            && LatestZero(g, sources[..i + 1], start) == (if zero > latest then zero else latest)
            && EarliestObserved(g, sources[..i + 1]) == if earliest == 0 || seen < earliest then seen else earliest
  {
    assert sources[..i + 1][..i] == sources[..i];
  }

  predicate DrainedUpTo(g: GroupState, sources: seq<Source>, i: nat, now: Time, freshness: nat) {
    forall k :: 0 <= k < i && k < |sources| ==> SourceDrained(g, sources[k], now, freshness)
  }

  /** Latest start and earliest end over the sources, found in one pass. */
  method CheckDrain(g: GroupState, now: Time, freshness: nat) returns (ok: bool)
    ensures ok <==> DrainComplete(g, now, freshness)
    ensures g.spec.currentResources != [] && g.times.phaseEnteredAt > 0 ==>
              (ok <==> QueuesDrained(g, now, freshness))
  {
    hide LatestZero, EarliestObserved, RequiredSources, KnownZero, QueuesDrained;
    DecidesDrain(g, now, freshness);
    var sources := RequiredSources(g.spec);
    var latestZeroSince, earliestObservedAt := g.times.phaseEnteredAt, 0;
    NoBounds(g, g.times.phaseEnteredAt);
    for i := 0 to |sources|
      invariant DrainedUpTo(g, sources, i, now, freshness)
      invariant latestZeroSince == LatestZero(g, sources[..i], g.times.phaseEnteredAt)
      invariant earliestObservedAt == EarliestObserved(g, sources[..i])
    {
      var source := sources[i];
      if !SourceDrained(g, source, now, freshness) {
        return false;
      }
      BoundsNext(g, sources, i, g.times.phaseEnteredAt);
      if g.zeroSince[source] > latestZeroSince {
        latestZeroSince := g.zeroSince[source];
      }
      if earliestObservedAt == 0 || g.latest[source].observedAt < earliestObservedAt {
        earliestObservedAt := g.latest[source].observedAt;
      }
    }
    assert sources[..|sources|] == sources;
    return earliestObservedAt >= latestZeroSince + g.spec.drainGrace;
  }

  lemma DecidesDrain(g: GroupState, now: Time, freshness: nat)
    ensures g.spec.currentResources != [] && g.times.phaseEnteredAt > 0 ==>
              (DrainComplete(g, now, freshness) <==> QueuesDrained(g, now, freshness))
  {
    hide DrainComplete, QueuesDrained;
    if g.spec.currentResources != [] && g.times.phaseEnteredAt > 0 {
      DrainMeans(g, now, freshness);
    }
  }

  lemma NoBounds(g: GroupState, start: Time)
    ensures LatestZero(g, [], start) == start && EarliestObserved(g, []) == 0
  {
  }

  method CheckReadiness(g: GroupState, now: Time, freshness: nat) returns (ok: bool)
    ensures ok <==> ReadinessFresh(g, now, freshness)
    ensures ok <==> ReadinessCurrent(g, now, freshness)
  {
    ReadinessMeans(g, now, freshness);
    hide ReadinessCurrent;
    var required := RequirementsFor(g.spec, Drain);
    var fallback := !HasTypedRequirements(g.spec);
    for i := 0 to |required|
      invariant forall k :: 0 <= k < i ==>
        AckFresh(g, required[k].participant, now, freshness)
        || (fallback && PrepareAckFresh(g, required[k].participant, now, freshness))
    {
      var participant := required[i].participant;
      if !AckFresh(g, participant, now, freshness) {
        if !fallback || !PrepareAckFresh(g, participant, now, freshness) {
          return false;
        }
      }
    }
    return true;
  }

  /** The sample is written to each of its sources in turn. */
  method WriteSample(g: GroupState, t: Telemetry, freshness: nat) returns (r: GroupState)
    ensures r == Observed(g, t, freshness)
  {
    hide IsAggregate, KnownZero;
    var sources := SourcesFor(g.spec, t);
    var latest: map<Source, Telemetry>, zeroSince: map<Source, Time> := g.latest, g.zeroSince;
    for i := 0 to |sources|
      invariant ObservedAll(g, sources[..i], t, freshness) == g.(latest := latest, zeroSince := zeroSince)
    {
      assert sources[..i + 1][..i] == sources[..i];
      var source := sources[i];
      if !KnownZero(t) {
        zeroSince := zeroSince - {source};
      } else if source !in latest || !KnownZero(latest[source])
             || t.observedAt > latest[source].observedAt + freshness {
        zeroSince := zeroSince[source := t.observedAt];
      }
      latest := latest[source := t.(broker := source.broker, queue := source.queue)];
    }
    assert sources[..|sources|] == sources;
    r := g.(latest := latest, zeroSince := zeroSince);
    if t.messageId != "" {
      r := r.(messages := r.messages[t.messageId := t]);
    }
  }

  // --------------------------------------------------------------- surroundings

  datatype Status = Status(holds: bool, observedAt: Time)

  /** An acknowledgement that comes in, the time it does, and whether it can be saved. */
  datatype Arrival = Arrival(ack: Ack, at: Time, saved: bool)

  /** What the clock, the store, the brokers, the publisher and the participants answer
      during one Reconcile. A failing effect may still have changed some queues.
      Acknowledgements are not held up by a Reconcile: they come in before any of its
      saves, in particular while a snapshot is being published. */
  datatype Answers = Answers(
    startedAt: Time,
    drainedAt: Time,
    readyAt: Time,
    verifiedAt: Time,
    endedAt: Time,
    intentSaved: bool,
    membershipSaved: bool,
    published: bool,
    attemptSaved: bool,
    touched: set<Resource>,
    effected: bool,
    status: Option<Status>,
    saved: bool,
    heard: seq<Arrival>,
    replies: seq<Arrival>)

  predicate Ordered(a: Answers, now: Time) {
    now <= a.startedAt <= a.drainedAt <= a.readyAt <= a.verifiedAt <= a.endedAt
  }

  /** A broker-side check that holds and is recent. */
  predicate Verified(a: Answers, freshness: nat) {
    a.status.Some? && a.status.value.holds && FreshStatus(a.status.value.observedAt, a.verifiedAt, a.endedAt, freshness)
  }

  predicate Healthy(a: Answers, freshness: nat) {
    a.intentSaved && a.membershipSaved && a.published && a.attemptSaved && a.effected && a.saved
    && Verified(a, freshness)
  }

  datatype Failure = NotFound | PastDeadline | NotSaved | NotPublished | EffectFailed | ReadinessStale

  datatype Outcome = Outcome(changed: bool, failure: Option<Failure>)

  // ---------------------------------------------------------- when it has to act

  predicate Expired(g: GroupState, now: Time) {
    && !g.at.completed && !g.at.rollingBack && g.at.phase != Commit && g.at.phase != Activate
    && g.times.phaseDeadline != 0 && now > g.times.phaseDeadline
  }

  /** Nothing to do until a participant or a source reports. */
  predicate Waiting(g: GroupState, drainedAt: Time, freshness: nat) {
    || g.at.completed
    || (!g.at.rollingBack && PhasePublished(g.at, g.at.phase) &&
        if g.at.phase == Commit then false
        else if g.at.phase == Drain then !DrainComplete(g, drainedAt, freshness)
        else !AllAcknowledged(g, g.at.phase))
  }

  /** COMMIT is held back while subscriber readiness is missing or old. */
  predicate HeldBack(g: GroupState, readyAt: Time, freshness: nat) {
    !g.at.rollingBack && g.at.phase == Drain && g.at.drainPublished
    && !(AllAcknowledged(g, Drain) && ReadinessFresh(g, readyAt, freshness))
  }

  /** Success means a change, and a change uses up part of what remains. */
  predicate Acts(before: Progress, r: Outcome, after: Progress) {
    && r.failure != Some(PastDeadline)
    && (r.failure.None? ==> r.changed && Remaining(after) < Remaining(before))
  }

  // ------------------------------------------------------- what a Reconcile promises

  /** Before the point of no return, and later than the deadline of its phase. */
  predicate PastDue(g: GroupState, now: Time) {
    && !g.at.completed && !g.at.rollingBack && g.at.phase in {Prepare, Pause, Drain}
    && 0 < g.times.phaseDeadline < now
  }

  /** The brokers confirmed it, at most the limit before the answer was looked at. */
  predicate Confirmed(a: Answers, limit: nat) {
    && a.status.Some? && a.status.value.holds && 0 < a.status.value.observedAt <= a.verifiedAt
    && a.verifiedAt - a.status.value.observedAt <= limit
  }

  /** Same transition, phase and times, and nothing that needs a confirmation. */
  predicate Stays(g: GroupState, h: GroupState) {
    && h.spec == g.spec && h.times == g.times && h.at.phase == g.at.phase && h.at.completed == g.at.completed
    && h.at.commitPublished == g.at.commitPublished && h.at.targetVerified == g.at.targetVerified
    && h.at.activatePublished == g.at.activatePublished
  }

  /** A new phase starts now, with its time limit. PREPARE and PAUSE are left, and ACTIVATE
      completed, only when everybody answered; and passing the point of no return,
      publishing it, verifying the target and publishing that were confirmed by the
      brokers. */
  predicate Warranted(g: GroupState, h: GroupState, a: Answers, o: Options) {
    && h.spec == g.spec
    && (if h.at.phase == g.at.phase then h.times.phaseEnteredAt == g.times.phaseEnteredAt
        else && h.times.phaseEnteredAt == a.endedAt && h.times.phaseDeadline == a.endedAt + o.phaseTimeout
             && (g.at.phase == Prepare || g.at.phase == Pause ==> EveryoneAnswered(g, g.at.phase)))
    && (h.at.completed && !g.at.completed ==>
          h.times.completedAt == Some(a.endedAt) && (g.at.rollingBack || EveryoneAnswered(g, Activate)))
    && ((g.at.phase == Drain && h.at.phase != Drain) || (h.at.commitPublished && !g.at.commitPublished)
        || (h.at.targetVerified && !g.at.targetVerified) || (h.at.activatePublished && !g.at.activatePublished) ==>
          Confirmed(a, o.fenceFreshness))
  }

  /** DRAIN is left for COMMIT exactly when every queue has drained, everybody is ready and
      was so recently, the brokers confirm the fence, and the save succeeds. */
  predicate Commits(g: GroupState, r: Outcome, h: GroupState, a: Answers, o: Options) {
    if !QueuesDrained(g, a.drainedAt, o.telemetryFreshness) then r == Outcome(false, None) && h == g
    else if !EveryoneAnswered(g, Drain) || !ReadinessCurrent(g, a.readyAt, o.readinessFreshness)
      then r == Outcome(false, Some(ReadinessStale)) && h == g
    else && (h.at.phase == Commit <==> Confirmed(a, o.fenceFreshness) && a.saved)
         && (h.at.phase == Drain <==> !Confirmed(a, o.fenceFreshness) || !a.saved)
         && (a.status.Some? && !Confirmed(a, o.fenceFreshness) ==> r == Outcome(false, Some(ReadinessStale)))
  }

  lemma VerifiedMeans(a: Answers, now: Time, limit: nat)
    requires Ordered(a, now)
    ensures Verified(a, limit) <==> Confirmed(a, limit)
    ensures Confirmed(a, limit) ==> a.status.Some?
  {
  }

  lemma ExpiredMeans(g: GroupState, now: Time)
    ensures Expired(g, now) <==> PastDue(g, now)
  {
  }

  lemma HeardStays(before: Persistent, after: Persistent)
    requires Heard(before, after) && before.group.Some?
    ensures after.group.Some? && Stays(before.group.value, after.group.value)
  {
  }

  lemma StaysItself(g: GroupState)
    ensures Stays(g, g)
  {
  }

  lemma MarkKeepsPhase(a: Progress, phase: Phase)
    requires phase != Commit && phase != Activate
    ensures var b := MarkPublished(a, phase);
            && b.phase == a.phase && b.completed == a.completed && b.commitPublished == a.commitPublished
            && b.targetVerified == a.targetVerified && b.activatePublished == a.activatePublished
  {
  }

  lemma MarkedStays(g: GroupState, phase: Phase)
    requires Guard(g.at, RecordPublished(phase))
    ensures Stays(g, g) && Stays(g, g.(at := MarkPublished(g.at, phase)))
  {
    hide MarkPublished;
    MarkKeepsPhase(g.at, phase);
  }

  lemma StaysTwice(g: GroupState, h: GroupState, k: GroupState)
    requires Stays(g, h) && Stays(h, k)
    ensures Stays(g, k)
  {
  }

  lemma StaysAs(g: GroupState, h: GroupState)
    requires h.at == g.at && h.spec == g.spec && h.times == g.times
    ensures Stays(g, h)
  {
  }

  lemma StaysThen(g: GroupState, h: GroupState, k: GroupState, a: Answers, o: Options)
    requires Stays(g, h) && Warranted(h, k, a, o) && k.at.phase == h.at.phase && k.at.completed == h.at.completed
    ensures Warranted(g, k, a, o)
  {
    hide EveryoneAnswered, Confirmed;
  }

  /** The point of no return is passed in a state that nothing but acknowledgements has
      changed since the decision. */
  lemma StaysCommits(g: GroupState, h: GroupState, k: GroupState, a: Answers, o: Options)
    requires Stays(g, h) && Warranted(h, k, a, o)
    requires g.at.phase == Drain && (k.at.phase == Drain || k.at.phase == Commit)
    requires k.at.completed ==> h.at.completed
    ensures Warranted(g, k, a, o)
  {
    hide EveryoneAnswered, Confirmed;
  }

  /** In a reachable state the drain decision is about queues that exist. */
  lemma DrainIsDecided(run: seq<World>, steps: seq<Step>, o: Options)
    requires IsRun(run, steps, o)
    ensures |run| > 0
    ensures var p := run[|run| - 1].p;
            p.group.Some? ==> p.group.value.spec.currentResources != [] && p.group.value.times.phaseEnteredAt > 0
  {
    RunNotEmpty(run, steps, o);
    RunInv(run, steps, o, |run| - 1);
    RunDocument(run, steps, o, |run| - 1);
    hide IsRun, ValidSpec, ProgressInv, MessageInv, TelemetryInv;
    if run[|run| - 1].p.group.Some? {
      SourcesExact(run[|run| - 1].p.group.value.spec);
    }
  }

  lemma EnterAnswered(w: World, g: GroupState, step: Step, o: Options)
    requires step.EnterPause? || step.EnterDrain? || step.EnterActivate?
    requires Guard(g.at, step) && Justified(w, g, step, o)
    ensures g.at.phase != Drain
    ensures g.at.phase == Prepare || g.at.phase == Pause ==> EveryoneAnswered(g, g.at.phase)
    ensures step.EnterPause? ==> g.at.phase == Prepare
    ensures step.EnterDrain? ==> g.at.phase == Pause
    ensures step.EnterActivate? ==> g.at.phase == Commit
  {
    AnsweredMeans(g, g.at.phase);
    hide AllAcknowledged, EveryoneAnswered, ControllerState.SaveMembership, ControlSnapshot;
  }

  /** What came in meanwhile does not keep a phase from being entered. */
  lemma MayEnter(w: World, h: World, step: Step, next: Phase, o: Options)
    requires step == (if next == Pause then EnterPause else if next == Drain then EnterDrain else EnterActivate)
    requires w.p.group.Some? && h.p.group.Some? && next in {Pause, Drain, Activate}
    requires Guard(w.p.group.value.at, step) && Justified(w, w.p.group.value, step, o)
    requires h.p.group.value.at == w.p.group.value.at
    requires forall phase :: AllAcknowledged(w.p.group.value, phase) ==> AllAcknowledged(h.p.group.value, phase)
    ensures Enabled(h, step, o)
    ensures GroupAfter(h, step, o) ==
            h.p.group.value.(at := h.p.group.value.at.(phase := next),
                             times := EnterPhase(h.p.group.value.times, next, h.now, o.phaseTimeout))
  {
    hide AllAcknowledged, EnterPhase, ControllerState.SaveMembership, ControlSnapshot, CommandsIssued;
  }

  /** A phase that is entered, or not saved, is warranted by the answers. */
  lemma EnteredWarranted(g: GroupState, h: GroupState, k: GroupState, next: Phase, a: Answers, o: Options)
    requires h.at == g.at && h.times == g.times && h.spec == g.spec && k.spec == h.spec && g.at.phase != Drain
    requires g.at.phase == Prepare || g.at.phase == Pause ==> EveryoneAnswered(g, g.at.phase)
    requires || (k.at == h.at && k.times == h.times)
             || (k.at == h.at.(phase := next) && next != g.at.phase
                 && k.times == EnterPhase(h.times, next, a.endedAt, o.phaseTimeout))
    ensures Warranted(g, k, a, o)
  {
    hide EveryoneAnswered, Confirmed;
  }

  lemma EnableTaken(w: World, lifted: set<Resource>, o: Options)
    requires w.p.group.Some? && Guard(w.p.group.value.at, RecordEnabled)
    requires lifted <= Queues(w.p.group.value.spec.proposedResources)
    ensures Take(w, EnableEffect(lifted), o) == Some(w.(open := w.open + lifted))
  {
    hide Queues, ControllerState.SaveMembership, ControlSnapshot, CommandsIssued, AllAcknowledged;
  }

  lemma UnfenceTaken(w: World, lifted: set<Resource>, o: Options)
    requires w.p.group.Some? && Guard(w.p.group.value.at, RecordUnfenced)
    requires lifted <= Queues(w.p.group.value.spec.currentResources)
    ensures Take(w, UnfenceEffect(lifted), o) == Some(w.(open := w.open + lifted))
  {
    hide Queues, ControllerState.SaveMembership, ControlSnapshot, CommandsIssued, AllAcknowledged;
  }

  lemma LiftTaken(w: World, step: Step, lifted: set<Resource>, o: Options)
    requires w.p.group.Some?
    requires || (step == EnableEffect(lifted) && Guard(w.p.group.value.at, RecordEnabled)
                 && lifted <= Queues(w.p.group.value.spec.proposedResources))
             || (step == UnfenceEffect(lifted) && Guard(w.p.group.value.at, RecordUnfenced)
                 && lifted <= Queues(w.p.group.value.spec.currentResources))
    ensures Take(w, step, o) == Some(w.(open := w.open + lifted))
  {
    hide Queues, Take, Guard;
    if step == EnableEffect(lifted) {
      EnableTaken(w, lifted, o);
    } else {
      UnfenceTaken(w, lifted, o);
    }
  }

  lemma FlagStays(g: GroupState, h: GroupState)
    requires h.spec == g.spec && h.times == g.times
    requires h.at == g.at.(targetEnabled := h.at.targetEnabled, unfenced := h.at.unfenced,
                           fenceAttempted := h.at.fenceAttempted)
    ensures Stays(g, h)
  {
  }

  /** Saves that only set a flag. */
  lemma MayNote(w: World, step: Step, o: Options)
    requires w.p.group.Some? && (step.RecordEnabled? || step.RecordUnfenced?)
    requires Guard(w.p.group.value.at, step)
    requires step.RecordEnabled? ==> Queues(w.p.group.value.spec.proposedResources) <= w.open
    requires step.RecordUnfenced? ==> Queues(w.p.group.value.spec.currentResources) <= w.open
    ensures Enabled(w, step, o)
    ensures GroupAfter(w, step, o) ==
            w.p.group.value.(at := if step.RecordEnabled? then w.p.group.value.at.(targetEnabled := true)
                                   else w.p.group.value.at.(unfenced := true))
  {
    hide AllAcknowledged, Queues, ControllerState.SaveMembership, ControlSnapshot, CommandsIssued;
  }

  lemma ScopeMeans(run: seq<World>, steps: seq<Step>, o: Options, ack: Ack)
    requires IsRun(run, steps, o) && run != [] && run[|run| - 1].p.group.Some?
    ensures var g := run[|run| - 1].p.group.value;
            AckInScope(g, ack) <==> AnswersCommand(g, ack)
  {
    RunDocument(run, steps, o, |run| - 1);
    hide IsRun, Control.Valid, AckInScope, AnswersCommand, ValidMembers;
    AckMeans(run[|run| - 1].p.group.value, ack);
  }

  lemma ContinuesAlways(run: seq<World>, steps: seq<Step>, o: Options, next: Spec)
    requires IsRun(run, steps, o) && run != [] && run[|run| - 1].p.group.Some?
    ensures var g := run[|run| - 1].p.group.value;
            CanReplaceCompleted(g, next) <==> Continues(g, next)
  {
    RunDocument(run, steps, o, |run| - 1);
    hide IsRun, Control.Valid, CanReplaceCompleted, Continues, ValidMembers;
    ContinuesMeans(run[|run| - 1].p.group.value, next);
  }

  lemma StaysWarranted(g: GroupState, h: GroupState, a: Answers, o: Options)
    requires Stays(g, h)
    ensures Warranted(g, h, a, o)
  {
    hide EveryoneAnswered, Confirmed;
  }

  // ------------------------------------------------------------------- the run

  /** Steps that are taken during a Reconcile. */
  predicate Own(step: Step) {
    !step.Begin? && !step.Observe? && !step.RequestRollback? && !step.Restart?
  }

  predicate Grew(before: seq<Step>, after: seq<Step>) {
    |before| <= |after| && after[..|before|] == before && forall k :: |before| <= k < |after| ==> Own(after[k])
  }

  /** Nothing happened but that participants acknowledged. */
  predicate Heard(before: Persistent, after: Persistent) {
    if before.group.None? then after == before
    else
      && after.group.Some?
      && after == before.(group := Some(before.group.value.(acks := after.group.value.acks)))
      && forall k :: k in before.group.value.acks ==> k in after.group.value.acks
  }

  lemma HeardKeeps(before: Persistent, after: Persistent, at: Time, freshness: nat)
    requires Heard(before, after) && before.group.Some?
    ensures after.group.Some? && after.membership == before.membership
    ensures forall phase :: AllAcknowledged(before.group.value, phase) ==> AllAcknowledged(after.group.value, phase)
    ensures forall phase :: CommandsIssued(before.group.value, phase) <==> CommandsIssued(after.group.value, phase)
    ensures DrainComplete(before.group.value, at, freshness) <==> DrainComplete(after.group.value, at, freshness)
  {
    hide Expected;
    SameDrain(before.group.value, after.group.value, at, freshness);
    hide DrainComplete;
  }

  lemma SameProgress(before: Persistent, after: Persistent)
    requires Heard(before, after) && before.group.Some?
    ensures after.group.Some? && after.group.value.at == before.group.value.at
            && after.group.value.spec == before.group.value.spec
    ensures after.group.value.times == before.group.value.times && after.membership == before.membership
  {
  }

  lemma GrewOne(steps: seq<Step>, step: Step)
    requires Own(step)
    ensures Grew(steps, steps + [step])
  {
  }

  lemma GrewTwice(a: seq<Step>, b: seq<Step>, c: seq<Step>)
    requires Grew(a, b) && Grew(b, c)
    ensures Grew(a, c)
  {
    assert c[..|a|] == c[..|b|][..|a|];
    forall k | |a| <= k < |c| ensures Own(c[k]) {
      if k < |b| {
        assert c[k] == b[k];
      }
    }
  }

  lemma UpdatedGroup(p: Persistent, g: GroupState, limit: nat)
    requires p.group.Some?
    ensures var h := UpdateGroup(p, g, limit).group;
            h.Some? && h.value.at == g.at && h.value.times == g.times && h.value.spec == g.spec
  {
  }

  lemma RunExtends(run: seq<World>, steps: seq<Step>, o: Options, step: Step, h: World)
    requires IsRun(run, steps, o) && Take(run[|run| - 1], step, o) == Some(h)
    ensures IsRun(run + [h], steps + [step], o)
  {
    hide Take, Initial;
    var r, s := run + [h], steps + [step];
    forall i | 0 <= i < |s| ensures Take(r[i], s[i], o) == Some(r[i + 1]) {
      if i < |steps| {
        assert Take(run[i], steps[i], o) == Some(run[i + 1]);
      }
    }
  }

  lemma RunNotEmpty(run: seq<World>, steps: seq<Step>, o: Options)
    requires IsRun(run, steps, o)
    ensures |run| == |steps| + 1 && ValidOptions(o)
  {
    hide Take, Initial;
  }

  class Controller {
    const options: Options
    var state: Persistent
    ghost var run: seq<World>
    ghost var steps: seq<Step>

    ghost predicate Valid()
      reads this
    {
      run != [] && IsRun(run, steps, options) && state == run[|run| - 1].p
    }

    ghost function World(): World
      reads this
      requires run != []
    {
      run[|run| - 1]
    }

    ghost method Append(step: Step, h: World)
      requires run != [] && IsRun(run, steps, options) && Take(World(), step, options) == Some(h)
      modifies this`run, this`steps
      ensures run == old(run) + [h] && steps == old(steps) + [step] && IsRun(run, steps, options)
    {
      hide IsRun, Take;
      RunExtends(run, steps, options, step, h);
      run := run + [h];
      steps := steps + [step];
    }

    /** Every change of the group state goes through one atomic save. */
    method SaveGroup(g: GroupState, ghost step: Step, ok: bool)
      requires Valid() && SavesGroup(step) && Enabled(World(), step, options)
      requires state.group.Some? && g == GroupAfter(World(), step, options)
      modifies this
      ensures Valid()
      ensures !ok ==> state == old(state) && run == old(run) && steps == old(steps)
      ensures ok ==> steps == old(steps) + [step] && run == old(run) + [World()]
                     && state == UpdateGroup(old(state), g, options.historyLimit)
      ensures ok ==> state.group.Some? && Progresses(old(state.group.value.at), step, state.group.value.at)
      ensures World().now == old(World().now) && (ok ==> World() == After(old(World()), step, options))
    {
      hide IsRun, Enabled, UpdateGroup, GroupAfter, Progresses, After;
      if ok {
        ghost var h := After(World(), step, options);
        SavedState(World(), step, options);
        state := UpdateGroup(state, g, options.historyLimit);
        RunNotEmpty(run, steps, options);
        Append(step, h);
        RunProgress(run, steps, options, |steps| - 1);
      }
    }

    /** A save that Reconcile reports as a change. */
    method Note(g: GroupState, ghost step: Step, ok: bool) returns (r: Outcome)
      requires Valid() && SavesGroup(step) && Own(step) && ReportsChange(step) && Enabled(World(), step, options)
      requires state.group.Some? && g == GroupAfter(World(), step, options)
      modifies this
      ensures Valid() && Grew(old(steps), steps) && World().now == old(World().now)
      ensures state.group.Some? && Acts(old(state.group.value.at), r, state.group.value.at)
      ensures ok ==> r.failure.None?
      ensures if ok then state.group.value.at == g.at && state.group.value.times == g.times
                         && state.group.value.spec == g.spec
              else state == old(state)
    {
      hide IsRun, Enabled, UpdateGroup, GroupAfter, Grew, Remaining, After, Rank;
      GrewOne(steps, step);
      GrewNone(steps);
      UpdatedGroup(state, g, options.historyLimit);
      SaveGroup(g, step, ok);
      r := Outcome(true, if ok then None else Some(NotSaved));
    }

    ghost method Read(at: Time)
      requires run != [] && IsRun(run, steps, options) && World().now <= at
      modifies this`run, this`steps
      ensures run != [] && IsRun(run, steps, options)
      ensures World() == old(World()).(now := at) && Grew(old(steps), steps)
    {
      hide IsRun;
      GrewOne(steps, Tick(at));
      Append(Tick(at), World().(now := at));
    }

    /** Acknowledgements that come in meanwhile. */
    method Hear(arrivals: seq<Arrival>)
      requires Valid()
      modifies this
      ensures Valid() && Grew(old(steps), steps) && Heard(old(state), state) && World() == old(World()).(p := state)
    {
      hide IsRun, Grew, AckInScope, AckIsNews, RequirementOf;
      GrewNone(steps);
      for i := 0 to |arrivals|
        invariant Valid() && Grew(old(steps), steps) && Heard(old(state), state) && World() == old(World()).(p := state)
      {
        ghost var earlier := steps;
        var r := Acknowledge(arrivals[i].ack, arrivals[i].at, arrivals[i].saved);
        if r == Recorded {
          GrewOne(earlier, steps[|earlier|]);
        }
        GrewTwice(old(steps), earlier, steps);
      }
    }

    /** Makes a snapshot authoritative unless it is already retained. */
    method SaveMembership(s: Snapshot, ghost phase: Phase, ghost rollback: bool, ok: bool) returns (accepted: bool)
      requires Valid() && state.group.Some? && Guard(state.group.value.at, Retain(phase, rollback))
      requires !rollback && phase != Commit ==> CommandsIssued(state.group.value, phase)
      requires s == ControlSnapshot(state.group.value.spec, phase, rollback)
      modifies this
      ensures Valid() && Grew(old(steps), steps) && World().now == old(World().now)
      ensures accepted <==> old(state.membership) == Some(s) || ok
      ensures state == if accepted then old(state).(membership := Some(s)) else old(state)
    {
      hide IsRun, Control.Valid, ControlSnapshot, Guard, CommandsIssued, Grew, ControllerState.SaveMembership;
      GrewNone(steps);
      accepted := Validate(s);
      ghost var next := SavedMembership(phase, rollback);
      if accepted {
        if state.membership.Some? {
          var current := state.membership.value;
          if s.revision < current.revision || s.epoch < current.epoch {
            accepted := false;
          } else if s.revision == current.revision {
            accepted := s == current;
          }
        }
      }
      if accepted && state.membership != Some(s) {
        accepted := ok;
        if ok {
          ghost var h := After(World(), Retain(phase, rollback), options);
          state := state.(membership := Some(s));
          GrewOne(steps, Retain(phase, rollback));
          Append(Retain(phase, rollback), h);
        }
      }
    }

    /** The controller's own snapshot is valid, and newer than what is retained
        unless it is retained. */
    ghost method SavedMembership(phase: Phase, rollback: bool) returns (next: Snapshot)
      requires Valid() && state.group.Some? && Guard(state.group.value.at, Retain(phase, rollback))
      requires !rollback && phase != Commit ==> CommandsIssued(state.group.value, phase)
      ensures next == ControlSnapshot(state.group.value.spec, phase, rollback) && Control.Valid(next)
      ensures state.membership.Some?
      ensures state.membership == Some(next)
              || (next.revision > state.membership.value.revision && next.epoch >= state.membership.value.epoch)
      ensures state.membership != Some(next) ==> Enabled(World(), Retain(phase, rollback), options)
    {
      hide IsRun, Control.Valid, ControlSnapshot, Guard, CommandsIssued, Retained, Logged, GroupInv, ValidSpec, Compare,
           ControllerState.SaveMembership;
      var n := |run| - 1;
      RunInv(run, steps, options, n);
      RunDocument(run, steps, options, n);
      RunChain(run, steps, options, n);
      var g := state.group.value;
      next := ControlSnapshot(g.spec, phase, rollback);
      PublicationsValid(g.spec, phase);
      assert ProgressInv(g.at) by { GroupProgress(g); }
      SaveNeverRefused(World(), g, phase, rollback);
      if state.membership != Some(next) {
        NewerIsLater(state.membership.value, next);
      }
    }

    /** Command intent is durable before any publication. */
    method EnsureIntent(phase: Phase, saved: bool) returns (ok: bool, recorded: bool)
      requires Valid() && state.group.Some? && Guard(state.group.value.at, RecordIntent(phase))
      modifies this
      ensures Valid() && Grew(old(steps), steps) && World().now == old(World().now)
      ensures state.group.Some? && state.group.value.at == old(state.group.value.at)
      ensures ok <==> CommandsIssued(old(state.group.value), phase) || saved
      ensures recorded <==> !CommandsIssued(old(state.group.value), phase) && saved
      ensures ok ==> CommandsIssued(state.group.value, phase)
      ensures state.membership == old(state.membership) && state.group.value.spec == old(state.group.value.spec)
      ensures !ok ==> state == old(state)
      ensures Stays(old(state.group.value), state.group.value)
    {
      hide IsRun, CommandsIssued, Guard, Grew;
      var g := state.group.value;
      GrewNone(steps);
      if CommandsIssued(g, phase) {
        return true, false;
      }
      ok, recorded := saved, saved;
      IntentIssues(World(), g, phase, options);
      Intendable(run, steps, options, phase);
      GrewOne(steps, RecordIntent(phase));
      SaveGroup(g.(issued := g.issued[phase := Expected(g.spec, phase)]), RecordIntent(phase), saved);
    }

    method Publish(phase: Phase, rollback: bool, a: Answers) returns (failure: Option<Failure>)
      requires Valid() && state.group.Some? && Guard(state.group.value.at, Retain(phase, rollback))
      requires !rollback && phase != Commit ==> CommandsIssued(state.group.value, phase)
      modifies this
      ensures Valid() && Grew(old(steps), steps) && World().now == old(World().now)
      ensures Heard(old(state), state.(membership := old(state.membership)))
      ensures failure.None? ==> state.membership == Some(ControlSnapshot(state.group.value.spec, phase, rollback))
      ensures a.membershipSaved && a.published ==> failure.None?
      ensures failure.None? ==> a.published
      ensures failure != Some(PastDeadline)
    {
      hide IsRun, CommandsIssued, Guard, ControlSnapshot, Grew;
      var accepted := SaveMembership(ControlSnapshot(state.group.value.spec, phase, rollback), phase, rollback,
                                     a.membershipSaved);
      if !accepted {
        return Some(NotSaved);
      }
      ghost var retained := steps;
      Hear(a.replies);
      GrewTwice(old(steps), retained, steps);
      if !a.published {
        return Some(NotPublished);
      }
      return None;
    }

    /** PREPARE, PAUSE or DRAIN is announced: intent, snapshot, publication, note. */
    method Announce(phase: Phase, a: Answers) returns (r: Outcome)
      requires Valid() && state.group.Some? && Guard(state.group.value.at, RecordPublished(phase))
      modifies this
      ensures Valid() && Grew(old(steps), steps) && World().now == old(World().now)
      ensures state.group.Some? && Acts(old(state.group.value.at), r, state.group.value.at)
      ensures Stays(old(state.group.value), state.group.value)
      ensures a.intentSaved && a.membershipSaved && a.published && a.saved ==> r.failure.None?
    {
      hide IsRun, CommandsIssued, ControlSnapshot, Grew, Remaining, MarkPublished, Guard, Heard, Stays;
      ghost var first := state.group.value;
      AnnounceGuards(state.group.value.at, phase);
      var ok, recorded := EnsureIntent(phase, a.intentSaved);
      if !ok {
        return Outcome(false, Some(NotSaved));
      }
      ghost var intended, was := steps, state;
      var failure := Publish(phase, false, a);
      GrewTwice(old(steps), intended, steps);
      SameProgress(was, state.(membership := was.membership));
      HeardStays(was, state.(membership := was.membership));
      StaysTwice(first, was.group.value, state.group.value);
      if failure.Some? {
        return Outcome(recorded, failure);
      }
      HeardKeeps(was, state.(membership := was.membership), 0, 0);
      ghost var retained, heard := steps, state.group.value;
      r := NotePublished(phase, a.saved);
      StaysTwice(first, heard, state.group.value);
      GrewTwice(old(steps), retained, steps);
    }

    method NotePublished(phase: Phase, saved: bool) returns (r: Outcome)
      requires Valid() && state.group.Some? && Guard(state.group.value.at, RecordPublished(phase))
               && CommandsIssued(state.group.value, phase)
      requires state.membership == Some(ControlSnapshot(state.group.value.spec, phase, false))
      modifies this
      ensures Valid() && Grew(old(steps), steps) && World().now == old(World().now)
      ensures state.group.Some? && Acts(old(state.group.value.at), r, state.group.value.at)
      ensures Stays(old(state.group.value), state.group.value)
      ensures saved ==> r.failure.None?
    {
      hide IsRun, CommandsIssued, ControlSnapshot, Grew, Remaining, MarkPublished, Guard;
      var g := state.group.value;
      MarkedStays(g, phase);
      r := Note(g.(at := MarkPublished(g.at, phase)), RecordPublished(phase), saved);
    }

    /** Moves to the next phase once everybody acknowledged this one. */
    method Enter(next: Phase, a: Answers, ghost step: Step) returns (r: Outcome)
      requires Valid() && state.group.Some? && Ordered(a, World().now)
      requires step == (if next == Pause then EnterPause else if next == Drain then EnterDrain else EnterActivate)
      requires next == Pause || next == Drain || next == Activate
      requires Guard(state.group.value.at, step) && Justified(World(), state.group.value, step, options)
      modifies this
      ensures Valid() && Grew(old(steps), steps) && World().now == a.endedAt
      ensures state.group.Some? && Acts(old(state.group.value.at), r, state.group.value.at)
      ensures Warranted(old(state.group.value), state.group.value, a, options)
      ensures a.saved ==> r.failure.None?
    {
      hide IsRun, Grew, Remaining, AllAcknowledged, EveryoneAnswered, Warranted, EnterPhase, Guard, Justified, Enabled,
           GroupAfter;
      ghost var was, before := state, World();
      EnterAnswered(before, was.group.value, step, options);
      HearUntil(a.heard, a.endedAt);
      ghost var ticked := steps;
      var g := state.group.value;
      MayEnter(before, World(), step, next, options);
      r := Note(g.(at := g.at.(phase := next), times := EnterPhase(g.times, next, a.endedAt, options.phaseTimeout)),
                step, a.saved);
      GrewTwice(old(steps), ticked, steps);
      EnteredWarranted(was.group.value, g, state.group.value, next, a, options);
    }

    /** PAUSE: announce, wait for the publishers, note the attempt, fence, move on. */
    method ReconcilePause(a: Answers) returns (r: Outcome)
      requires Valid() && state.group.Some? && Ordered(a, World().now) && Forward(state.group.value.at, Pause)
      modifies this
      ensures Valid() && Grew(old(steps), steps) && World().now <= a.endedAt
      ensures state.group.Some? && Warranted(old(state.group.value), state.group.value, a, options)
      ensures var g := old(state.group.value);
              if g.at.pausePublished && !AllAcknowledged(g, Pause) then r == Outcome(false, None) && state == old(state)
              else state.group.Some? && Acts(g.at, r, state.group.value.at)
                   && (a.intentSaved && a.membershipSaved && a.published && a.attemptSaved && a.effected && a.saved ==>
                       r.failure.None?)
    {
      hide IsRun, Grew, Remaining, AllAcknowledged, Progresses, EveryoneAnswered, Stays, Warranted;
      GrewNone(steps);
      ghost var first := state.group.value;
      StaysItself(first);
      StaysWarranted(first, first, a, options);
      if !state.group.value.at.pausePublished {
        r := Announce(Pause, a);
        StaysWarranted(first, state.group.value, a, options);
        return;
      }
      var acknowledged := CheckAcknowledged(state.group.value, Pause);
      if !acknowledged {
        return Outcome(false, None);
      }
      if state.group.value.at.fenced {
        r := Enter(Drain, a, EnterDrain);
      } else {
        r := Fence(a);
        StaysWarranted(first, state.group.value, a, options);
      }
    }

    method Fence(a: Answers) returns (r: Outcome)
      requires Valid() && state.group.Some? && Forward(state.group.value.at, Pause)
      requires state.group.value.at.pausePublished && !state.group.value.at.fenced
               && AllAcknowledged(state.group.value, Pause)
      modifies this
      ensures Valid() && Grew(old(steps), steps) && World().now == old(World().now)
      ensures state.group.Some? && Acts(old(state.group.value.at), r, state.group.value.at)
      ensures Stays(old(state.group.value), state.group.value)
      ensures a.attemptSaved && a.effected && a.saved ==> r.failure.None?
    {
      hide IsRun, Grew, Remaining, AllAcknowledged, Heard, Queues, Stays;
      ghost var first := state.group.value;
      StaysItself(first);
      GrewNone(steps);
      if !state.group.value.at.fenceAttempted {
        NoteAttempt(a.heard, a.attemptSaved);
        if !a.attemptSaved {
          return Outcome(false, Some(NotSaved));
        }
      }
      ghost var attempted := steps;
      CloseIngress(a.touched, a.effected);
      GrewTwice(old(steps), attempted, steps);
      ghost var fenced, was := steps, state;
      Hear(a.replies);
      SameProgress(was, state);
      HeardStays(was, state);
      StaysTwice(first, was.group.value, state.group.value);
      GrewTwice(old(steps), fenced, steps);
      if !a.effected {
        return Outcome(false, Some(EffectFailed));
      }
      ghost var closed, heard := steps, state.group.value;
      r := NoteFenced(a.saved);
      StaysTwice(first, heard, state.group.value);
      GrewTwice(old(steps), closed, steps);
    }

    method NoteAttempt(arrivals: seq<Arrival>, saved: bool)
      requires Valid() && state.group.Some? && Guard(state.group.value.at, RecordFenceAttempt)
               && AllAcknowledged(state.group.value, Pause)
      modifies this
      ensures Valid() && Grew(old(steps), steps) && World().now == old(World().now)
      ensures state.group.Some? && state.group.value.at == old(state.group.value.at).(fenceAttempted := saved)
      ensures Remaining(state.group.value.at) <= Remaining(old(state.group.value.at))
      ensures Stays(old(state.group.value), state.group.value)
    {
      hide IsRun, Grew, AllAcknowledged, Remaining, Heard, CommandsIssued, DrainComplete, Stays, Guard;
      ghost var was := state;
      Hear(arrivals);
      HeardKeeps(was, state, 0, 0);
      SameProgress(was, state);
      ghost var heard := steps;
      SaveAttempt(saved);
      GrewTwice(old(steps), heard, steps);
      FlagStays(was.group.value, state.group.value);
    }

    method SaveAttempt(saved: bool)
      requires Valid() && state.group.Some? && Guard(state.group.value.at, RecordFenceAttempt)
               && AllAcknowledged(state.group.value, Pause)
      modifies this
      ensures Valid() && Grew(old(steps), steps) && World().now == old(World().now)
      ensures state.group.Some? && state.group.value.at == old(state.group.value.at).(fenceAttempted := saved)
      ensures state.group.value.times == old(state.group.value.times)
              && state.group.value.spec == old(state.group.value.spec)
      ensures Remaining(state.group.value.at) <= Remaining(old(state.group.value.at))
    {
      hide IsRun, Grew, AllAcknowledged, Remaining;
      GrewNone(steps);
      GrewOne(steps, RecordFenceAttempt);
      var g := state.group.value;
      SaveGroup(g.(at := g.at.(fenceAttempted := true)), RecordFenceAttempt, saved);
    }

    method NoteFenced(saved: bool) returns (r: Outcome)
      requires Valid() && state.group.Some? && Guard(state.group.value.at, RecordFenced)
      requires World().open !! Queues(state.group.value.spec.currentResources)
      modifies this
      ensures Valid() && Grew(old(steps), steps) && World().now == old(World().now)
      ensures state.group.Some? && Acts(old(state.group.value.at), r, state.group.value.at)
      ensures Stays(old(state.group.value), state.group.value)
      ensures saved ==> r.failure.None?
    {
      hide IsRun, Grew, Remaining, Queues;
      var g := state.group.value;
      r := Note(g.(at := g.at.(fenced := true)), RecordFenced, saved);
    }

    /** The brokers' side of a fence call. */
    ghost method CloseIngress(touched: set<Resource>, effected: bool)
      requires Valid() && state.group.Some? && Guard(state.group.value.at, FenceEffect({}))
      modifies this`run, this`steps
      ensures Valid() && Grew(old(steps), steps) && World().now == old(World().now)
      ensures effected ==> World().open !! Queues(state.group.value.spec.currentResources)
    {
      hide IsRun, Queues, Grew;
      var all := Queues(state.group.value.spec.currentResources);
      var closed := if effected then all else touched * all;
      var h := World().(open := World().open - closed);
      GrewOne(steps, FenceEffect(closed));
      Append(FenceEffect(closed), h);
    }

    /** DRAIN: announce, wait for a continuous drain, verify, pass the point of no
        return. */
    method ReconcileDrain(a: Answers) returns (r: Outcome)
      requires Valid() && state.group.Some? && Ordered(a, World().now) && Forward(state.group.value.at, Drain)
      modifies this
      ensures Valid() && Grew(old(steps), steps) && World().now <= a.endedAt
      ensures state.group.Some? && Warranted(old(state.group.value), state.group.value, a, options)
      ensures old(state.group.value.at.drainPublished) ==>
                Commits(old(state.group.value), r, state.group.value, a, options)
      ensures var g := old(state.group.value);
              if g.at.drainPublished && !DrainComplete(g, a.drainedAt, options.telemetryFreshness)
                then r == Outcome(false, None) && state == old(state)
              else if HeldBack(g, a.readyAt, options.readinessFreshness)
                then r == Outcome(false, Some(ReadinessStale)) && state == old(state)
              else state.group.Some? && Acts(g.at, r, state.group.value.at)
                   && (Healthy(a, options.fenceFreshness) ==> r.failure.None?)
    {
      hide IsRun, Grew, Remaining, AllAcknowledged, DrainComplete, ReadinessFresh, Heard, CommandsIssued,
           EveryoneAnswered, ReadinessCurrent, QueuesDrained, Stays, Warranted, Verified, Confirmed;
      GrewNone(steps);
      ghost var first := state.group.value;
      StaysItself(first);
      StaysWarranted(first, first, a, options);
      VerifiedMeans(a, World().now, options.fenceFreshness);
      DrainIsDecided(run, steps, options);
      DrainMeans(first, a.drainedAt, options.telemetryFreshness);
      if !state.group.value.at.drainPublished {
        r := Announce(Drain, a);
        StaysWarranted(first, state.group.value, a, options);
        return;
      }
      var drained := CheckDrain(state.group.value, a.drainedAt, options.telemetryFreshness);
      if !drained {
        return Outcome(false, None);
      }
      var acknowledged := CheckAcknowledged(state.group.value, Drain);
      var ready := CheckReadiness(state.group.value, a.readyAt, options.readinessFreshness);
      if !acknowledged || !ready {
        return Outcome(false, Some(ReadinessStale));
      }
      ghost var was := state;
      Hear(a.heard);
      HeardKeeps(was, state, a.drainedAt, options.telemetryFreshness);
      SameProgress(was, state);
      HeardStays(was, state);
      StaysWarranted(first, state.group.value, a, options);
      if a.status.None? {
        return Outcome(false, Some(EffectFailed));
      }
      if !Verified(a, options.fenceFreshness) {
        return Outcome(false, Some(ReadinessStale));
      }
      ghost var heard, late := steps, state.group.value;
      r := CommitTo(a);
      StaysCommits(first, late, state.group.value, a, options);
      GrewTwice(old(steps), heard, steps);
    }

    method CommitTo(a: Answers) returns (r: Outcome)
      requires Valid() && state.group.Some? && Ordered(a, World().now) && Forward(state.group.value.at, Drain)
               && state.group.value.at.drainPublished
      requires DrainComplete(state.group.value, a.drainedAt, options.telemetryFreshness)
               && AllAcknowledged(state.group.value, Drain)
      requires Verified(a, options.fenceFreshness)
      modifies this
      ensures Valid() && Grew(old(steps), steps) && World().now == a.endedAt
      ensures state.group.Some? && Acts(old(state.group.value.at), r, state.group.value.at)
      ensures a.saved ==> r.failure.None?
      ensures Warranted(old(state.group.value), state.group.value, a, options)
      ensures state.group.value.at.phase == (if a.saved then Commit else Drain)
              && state.group.value.at.completed == old(state.group.value.at.completed)
    {
      hide IsRun, Grew, Remaining, AllAcknowledged, DrainComplete;
      VerifiedMeans(a, World().now, options.fenceFreshness);
      Read(a.endedAt);
      ghost var ticked := steps;
      var g := state.group.value;
      ghost var step := EnterCommit(a.drainedAt, a.verifiedAt, a.status.value.observedAt);
      r := Note(g.(at := g.at.(phase := Commit),
                   times := EnterPhase(g.times.(fenceVerifiedAt := Some(a.status.value.observedAt)), Commit, a.endedAt,
                                       options.phaseTimeout)),
                step, a.saved);
      GrewTwice(old(steps), ticked, steps);
    }

    /** What comes in until a broker-side check has returned. */
    method HearUntil(arrivals: seq<Arrival>, at: Time)
      requires Valid() && World().now <= at && state.group.Some?
      modifies this
      ensures Valid() && Grew(old(steps), steps) && World() == old(World()).(p := state, now := at)
      ensures state.group.Some? && state.group.value.at == old(state.group.value.at)
              && state.group.value.spec == old(state.group.value.spec)
      ensures state.group.value.times == old(state.group.value.times) && state.membership == old(state.membership)
      ensures forall phase :: AllAcknowledged(old(state.group.value), phase) ==>
                AllAcknowledged(state.group.value, phase)
    {
      hide IsRun, Grew, AllAcknowledged, CommandsIssued, DrainComplete;
      ghost var was := state;
      Hear(arrivals);
      HeardKeeps(was, state, 0, 0);
      ghost var heard := steps;
      Read(at);
      GrewTwice(old(steps), heard, steps);
    }

    /** COMMIT: a fresh verification for every publication attempt. */
    method ReconcileCommit(a: Answers) returns (r: Outcome)
      requires Valid() && state.group.Some? && Ordered(a, World().now) && Forward(state.group.value.at, Commit)
      modifies this
      ensures Valid() && Grew(old(steps), steps) && World().now <= a.endedAt
      ensures state.group.Some? && Acts(old(state.group.value.at), r, state.group.value.at)
      ensures Warranted(old(state.group.value), state.group.value, a, options)
      ensures Healthy(a, options.fenceFreshness) ==> r.failure.None?
    {
      hide IsRun, Grew, Remaining, ControlSnapshot, Stays, Warranted;
      ghost var first := state.group.value;
      if state.group.value.at.commitPublished {
        r := Enter(Activate, a, EnterActivate);
        return;
      }
      HearUntil(a.heard, a.endedAt);
      StaysAs(first, state.group.value);
      StaysWarranted(first, state.group.value, a, options);
      if !Verified(a, options.fenceFreshness) {
        return Outcome(false, Some(if a.status.None? then EffectFailed else ReadinessStale));
      }
      ghost var ticked, heard := steps, state.group.value;
      r := PublishCommit(a);
      StaysThen(first, heard, state.group.value, a, options);
      GrewTwice(old(steps), ticked, steps);
    }

    method PublishCommit(a: Answers) returns (r: Outcome)
      requires Valid() && state.group.Some? && Guard(state.group.value.at, RecordCommitPublished(0, 0))
      requires Verified(a, options.fenceFreshness) && World().now == a.endedAt
      modifies this
      ensures Valid() && Grew(old(steps), steps) && World().now == a.endedAt
      ensures state.group.Some? && Acts(old(state.group.value.at), r, state.group.value.at)
      ensures Warranted(old(state.group.value), state.group.value, a, options)
      ensures state.group.value.at.phase == old(state.group.value.at.phase)
              && state.group.value.at.completed == old(state.group.value.at.completed)
      ensures a.membershipSaved && a.published && a.saved ==> r.failure.None?
    {
      hide IsRun, Grew, Remaining, ControlSnapshot, Heard;
      ghost var was := state;
      var failure := Publish(Commit, false, a);
      SameProgress(was, state.(membership := was.membership));
      if failure.Some? {
        return Outcome(false, failure);
      }
      ghost var retained := steps;
      var g := state.group.value;
      ghost var step := RecordCommitPublished(a.verifiedAt, a.status.value.observedAt);
      r := Note(g.(at := g.at.(fenceAttempted := true, fenced := true, commitPublished := true),
                   times := g.times.(fenceVerifiedAt := Some(a.status.value.observedAt))), step, a.saved);
      GrewTwice(old(steps), retained, steps);
    }

    /** ACTIVATE: enable the target, verify it, announce it, wait for everybody. */
    method ReconcileActivate(a: Answers) returns (r: Outcome)
      requires Valid() && state.group.Some? && Ordered(a, World().now) && Forward(state.group.value.at, Activate)
      modifies this
      ensures Valid() && Grew(old(steps), steps) && World().now <= a.endedAt
      ensures state.group.Some? && Warranted(old(state.group.value), state.group.value, a, options)
      ensures var g := old(state.group.value);
              if g.at.activatePublished && !AllAcknowledged(g, Activate)
                then r == Outcome(false, None) && state == old(state)
              else state.group.Some? && Acts(g.at, r, state.group.value.at)
                   && (Healthy(a, options.fenceFreshness) ==> r.failure.None?)
    {
      hide IsRun, Grew, Remaining, AllAcknowledged, EveryoneAnswered, Stays, Warranted;
      GrewNone(steps);
      ghost var first := state.group.value;
      StaysItself(first);
      StaysWarranted(first, first, a, options);
      var at := state.group.value.at;
      TargetOrder(run, steps, options);
      if !at.targetEnabled {
        r := EnableTarget(a);
        StaysWarranted(first, state.group.value, a, options);
      } else if !at.targetVerified {
        r := VerifyTarget(a);
      } else if !at.activatePublished {
        r := AnnounceActive(a);
      } else {
        var acknowledged := CheckAcknowledged(state.group.value, Activate);
        if acknowledged {
          r := Finish(a);
        } else {
          r := Outcome(false, None);
        }
      }
    }

    method EnableTarget(a: Answers) returns (r: Outcome)
      requires Valid() && state.group.Some? && Guard(state.group.value.at, RecordEnabled)
      modifies this
      ensures Valid() && Grew(old(steps), steps) && World().now == old(World().now)
      ensures state.group.Some? && Acts(old(state.group.value.at), r, state.group.value.at)
      ensures Stays(old(state.group.value), state.group.value)
      ensures a.effected && a.saved ==> r.failure.None?
    {
      hide IsRun, Grew, Remaining, Queues, Heard, Stays, Take, Guard, GroupAfter, Enabled;
      ghost var first := state.group.value;
      ghost var all := Queues(state.group.value.spec.proposedResources);
      ghost var lifted := if a.effected then all else a.touched * all;
      GrewOne(steps, EnableEffect(lifted));
      LiftTaken(World(), EnableEffect(lifted), lifted, options);
      Append(EnableEffect(lifted), World().(open := World().open + lifted));
      ghost var asked, was := steps, state;
      Hear(a.heard);
      SameProgress(was, state);
      StaysAs(first, state.group.value);
      GrewTwice(old(steps), asked, steps);
      if !a.effected {
        return Outcome(false, Some(EffectFailed));
      }
      ghost var effected := steps;
      var g := state.group.value;
      MayNote(World(), RecordEnabled, options);
      r := Note(g.(at := g.at.(targetEnabled := true)), RecordEnabled, a.saved);
      GrewTwice(old(steps), effected, steps);
      FlagStays(first, state.group.value);
    }

    method VerifyTarget(a: Answers) returns (r: Outcome)
      requires Valid() && state.group.Some? && Ordered(a, World().now)
               && Guard(state.group.value.at, RecordVerified(0, 0))
      modifies this
      ensures Valid() && Grew(old(steps), steps) && World().now == a.endedAt
      ensures state.group.Some? && Acts(old(state.group.value.at), r, state.group.value.at)
      ensures Warranted(old(state.group.value), state.group.value, a, options)
      ensures Verified(a, options.fenceFreshness) && a.saved ==> r.failure.None?
    {
      hide IsRun, Grew, Remaining;
      HearUntil(a.heard, a.endedAt);
      if !Verified(a, options.fenceFreshness) {
        return Outcome(false, Some(if a.status.None? then EffectFailed else ReadinessStale));
      }
      ghost var ticked := steps;
      var g := state.group.value;
      ghost var step := RecordVerified(a.verifiedAt, a.status.value.observedAt);
      r := Note(g.(at := g.at.(targetVerified := true),
                   times := g.times.(targetVerifiedAt := Some(a.status.value.observedAt))), step, a.saved);
      GrewTwice(old(steps), ticked, steps);
    }

    method AnnounceActive(a: Answers) returns (r: Outcome)
      requires Valid() && state.group.Some? && Ordered(a, World().now)
               && Guard(state.group.value.at, RecordActivatePublished(0, 0))
      modifies this
      ensures Valid() && Grew(old(steps), steps) && World().now == a.endedAt
      ensures state.group.Some? && Acts(old(state.group.value.at), r, state.group.value.at)
      ensures Warranted(old(state.group.value), state.group.value, a, options)
      ensures Healthy(a, options.fenceFreshness) ==> r.failure.None?
    {
      hide IsRun, Grew, Remaining, CommandsIssued, ControlSnapshot, Heard, Stays, Warranted, Verified;
      ghost var first := state.group.value;
      HearUntil(a.heard, a.endedAt);
      assert Stays(first, state.group.value) by { StaysAs(first, state.group.value); }
      StaysWarranted(first, state.group.value, a, options);
      if !Verified(a, options.fenceFreshness) {
        return Outcome(false, Some(if a.status.None? then EffectFailed else ReadinessStale));
      }
      ghost var ticked, ready := steps, state.group.value;
      var ok, recorded := EnsureIntent(Activate, a.intentSaved);
      GrewTwice(old(steps), ticked, steps);
      StaysTwice(first, ready, state.group.value);
      StaysWarranted(first, state.group.value, a, options);
      if !ok {
        return Outcome(false, Some(NotSaved));
      }
      ghost var intended, was := steps, state;
      var failure := Publish(Activate, false, a);
      GrewTwice(old(steps), intended, steps);
      HeardKeeps(was, state.(membership := was.membership), 0, 0);
      SameProgress(was, state.(membership := was.membership));
      HeardStays(was, state.(membership := was.membership));
      StaysTwice(first, was.group.value, state.group.value);
      StaysWarranted(first, state.group.value, a, options);
      if failure.Some? {
        return Outcome(recorded, failure);
      }
      ghost var retained, heard := steps, state.group.value;
      r := NoteActive(a);
      StaysThen(first, heard, state.group.value, a, options);
      GrewTwice(old(steps), retained, steps);
    }

    method NoteActive(a: Answers) returns (r: Outcome)
      requires Valid() && state.group.Some? && Guard(state.group.value.at, RecordActivatePublished(0, 0))
      requires Verified(a, options.fenceFreshness) && World().now == a.endedAt
               && CommandsIssued(state.group.value, Activate)
      requires state.membership == Some(ControlSnapshot(state.group.value.spec, Activate, false))
      modifies this
      ensures Valid() && Grew(old(steps), steps) && World().now == a.endedAt
      ensures state.group.Some? && Acts(old(state.group.value.at), r, state.group.value.at)
      ensures Warranted(old(state.group.value), state.group.value, a, options)
      ensures state.group.value.at.phase == old(state.group.value.at.phase)
              && state.group.value.at.completed == old(state.group.value.at.completed)
      ensures a.saved ==> r.failure.None?
    {
      hide IsRun, Grew, Remaining, CommandsIssued, ControlSnapshot;
      var g := state.group.value;
      ghost var step := RecordActivatePublished(a.verifiedAt, a.status.value.observedAt);
      r := Note(g.(at := g.at.(activatePublished := true),
                   times := g.times.(targetVerifiedAt := Some(a.status.value.observedAt))), step, a.saved);
    }

    method Finish(a: Answers) returns (r: Outcome)
      requires Valid() && state.group.Some? && Ordered(a, World().now) && Guard(state.group.value.at, Complete)
      requires !state.group.value.at.rollingBack ==> AllAcknowledged(state.group.value, Activate)
      modifies this
      ensures Valid() && Grew(old(steps), steps) && World().now == a.endedAt
      ensures state.group.Some? && Acts(old(state.group.value.at), r, state.group.value.at)
      ensures Warranted(old(state.group.value), state.group.value, a, options)
      ensures a.saved ==> r.failure.None?
    {
      hide IsRun, Grew, Remaining, AllAcknowledged, EveryoneAnswered, Confirmed;
      ghost var was := state;
      AnsweredMeans(was.group.value, Activate);
      HearUntil(a.heard, a.endedAt);
      ghost var ticked := steps;
      var g := state.group.value;
      r := Note(g.(at := g.at.(completed := true), times := CompleteAt(g.times, a.endedAt)), Complete, a.saved);
      GrewTwice(old(steps), ticked, steps);
    }

    /** Rollback: reopen the source before announcing it. */
    method ReconcileRollback(a: Answers) returns (r: Outcome)
      requires Valid() && state.group.Some? && Ordered(a, World().now) && Backward(state.group.value.at)
      modifies this
      ensures Valid() && Grew(old(steps), steps) && World().now <= a.endedAt
      ensures state.group.Some? && Acts(old(state.group.value.at), r, state.group.value.at)
      ensures Warranted(old(state.group.value), state.group.value, a, options)
      ensures a.effected && a.membershipSaved && a.published && a.saved ==> r.failure.None?
    {
      hide IsRun, Grew, Remaining, Stays, Warranted;
      ghost var first := state.group.value;
      var at := state.group.value.at;
      if AnyFence(at) && !at.unfenced {
        r := Unfence(a);
        StaysWarranted(first, state.group.value, a, options);
      } else if !at.rollbackPublished {
        r := AnnounceRollback(a);
        StaysWarranted(first, state.group.value, a, options);
      } else {
        r := Finish(a);
      }
    }

    method Unfence(a: Answers) returns (r: Outcome)
      requires Valid() && state.group.Some? && Guard(state.group.value.at, RecordUnfenced)
      modifies this
      ensures Valid() && Grew(old(steps), steps) && World().now == old(World().now)
      ensures state.group.Some? && Acts(old(state.group.value.at), r, state.group.value.at)
      ensures Stays(old(state.group.value), state.group.value)
      ensures a.effected && a.saved ==> r.failure.None?
    {
      hide IsRun, Grew, Remaining, Queues, Heard, Stays, Take, Guard, GroupAfter, Enabled;
      ghost var first := state.group.value;
      ghost var all := Queues(state.group.value.spec.currentResources);
      ghost var lifted := if a.effected then all else a.touched * all;
      GrewOne(steps, UnfenceEffect(lifted));
      LiftTaken(World(), UnfenceEffect(lifted), lifted, options);
      Append(UnfenceEffect(lifted), World().(open := World().open + lifted));
      ghost var asked, was := steps, state;
      Hear(a.heard);
      SameProgress(was, state);
      StaysAs(first, state.group.value);
      GrewTwice(old(steps), asked, steps);
      if !a.effected {
        return Outcome(false, Some(EffectFailed));
      }
      ghost var effected := steps;
      var g := state.group.value;
      MayNote(World(), RecordUnfenced, options);
      r := Note(g.(at := g.at.(unfenced := true)), RecordUnfenced, a.saved);
      GrewTwice(old(steps), effected, steps);
      FlagStays(first, state.group.value);
    }

    method AnnounceRollback(a: Answers) returns (r: Outcome)
      requires Valid() && state.group.Some? && Guard(state.group.value.at, RecordRollbackPublished)
      modifies this
      ensures Valid() && Grew(old(steps), steps) && World().now == old(World().now)
      ensures state.group.Some? && Acts(old(state.group.value.at), r, state.group.value.at)
      ensures Stays(old(state.group.value), state.group.value)
      ensures a.membershipSaved && a.published && a.saved ==> r.failure.None?
    {
      hide IsRun, Grew, Remaining, ControlSnapshot;
      var failure := Publish(Activate, true, a);
      if failure.Some? {
        return Outcome(false, failure);
      }
      ghost var retained := steps;
      var g := state.group.value;
      RollbackOnce(g.spec, Activate);
      RollbackOnce(g.spec, g.at.phase);
      r := Note(g.(at := g.at.(rollbackPublished := true)), RecordRollbackPublished, a.saved);
      GrewTwice(old(steps), retained, steps);
    }

    method ReconcilePrepare(a: Answers) returns (r: Outcome)
      requires Valid() && state.group.Some? && Ordered(a, World().now) && Forward(state.group.value.at, Prepare)
      modifies this
      ensures Valid() && Grew(old(steps), steps) && World().now <= a.endedAt
      ensures state.group.Some? && Warranted(old(state.group.value), state.group.value, a, options)
      ensures var g := old(state.group.value);
              if g.at.preparePublished && !AllAcknowledged(g, Prepare)
                then r == Outcome(false, None) && state == old(state)
              else state.group.Some? && Acts(g.at, r, state.group.value.at)
                   && (Healthy(a, options.fenceFreshness) ==> r.failure.None?)
    {
      hide IsRun, Grew, Remaining, AllAcknowledged, EveryoneAnswered, Stays, Warranted;
      GrewNone(steps);
      ghost var first := state.group.value;
      StaysItself(first);
      StaysWarranted(first, first, a, options);
      if !state.group.value.at.preparePublished {
        r := Announce(Prepare, a);
        StaysWarranted(first, state.group.value, a, options);
        return;
      }
      var acknowledged := CheckAcknowledged(state.group.value, Prepare);
      if !acknowledged {
        return Outcome(false, None);
      }
      r := Enter(Pause, a, EnterPause);
    }

    /** One action sequence or phase advance. It acts unless it has to wait, is held
        back or is too late; if everything it calls succeeds it reports a change;
        and a reported change uses up part of a finite budget. */
    method Reconcile(a: Answers) returns (r: Outcome)
      requires Valid() && Ordered(a, World().now)
      modifies this
      ensures Valid() && Grew(old(steps), steps) && World().now <= a.endedAt
      ensures old(state.group).Some? ==>
                state.group.Some? && Warranted(old(state.group.value), state.group.value, a, options)
      ensures old(state.group).Some? && Forward(old(state.group.value.at), Drain)
              && old(state.group.value.at.drainPublished) && !PastDue(old(state.group.value), a.startedAt) ==>
                state.group.Some? && Commits(old(state.group.value), r, state.group.value, a, options)
      ensures old(state.group).Some? ==>
                (r.failure == Some(PastDeadline) <==> PastDue(old(state.group.value), a.startedAt))
      ensures old(state.group).None? ==> r == Outcome(false, Some(NotFound)) && state == old(state)
      ensures old(state.group).Some? ==>
                var g := old(state.group.value);
                && (r.failure == Some(PastDeadline) <==> Expired(g, a.startedAt))
                && if Expired(g, a.startedAt) then !r.changed && state == old(state)
                   else if Waiting(g, a.drainedAt, options.telemetryFreshness)
                     then r == Outcome(false, None) && state == old(state)
                   else if HeldBack(g, a.readyAt, options.readinessFreshness)
                     then r == Outcome(false, Some(ReadinessStale)) && state == old(state)
                   else state.group.Some? && Acts(g.at, r, state.group.value.at)
                        && (Healthy(a, options.fenceFreshness) ==> r.failure.None?)
    {
      hide IsRun, Grew, AllAcknowledged, DrainComplete, ReadinessFresh, Verified, Remaining, Warranted, Commits;
      GrewNone(steps);
      if state.group.None? {
        return Outcome(false, Some(NotFound));
      }
      var g := state.group.value;
      StaysItself(g);
      StaysWarranted(g, g, a, options);
      ExpiredMeans(g, a.startedAt);
      if g.at.completed {
        return Outcome(false, None);
      }
      if g.at.rollingBack {
        r := ReconcileRollback(a);
        return;
      }
      if Expired(g, a.startedAt) {
        return Outcome(false, Some(PastDeadline));
      }
      match g.at.phase
      case Prepare => r := ReconcilePrepare(a);
      case Pause => r := ReconcilePause(a);
      case Drain => r := ReconcileDrain(a);
      case Commit => r := ReconcileCommit(a);
      case Activate => r := ReconcileActivate(a);
    }

    /** The inner loop of a group worker, up to the first failure. It ends because
        every reported change uses up part of the transition's budget, and it ends
        without a failure only where the controller has to wait. */
    method RunGroup(answers: nat -> Answers) returns (r: Outcome, used: nat)
      requires Valid() && Ordered(answers(0), World().now)
      requires forall i: nat :: Ordered(answers(i + 1), answers(i).endedAt)
      modifies this
      ensures Valid() && Grew(old(steps), steps) && World().now <= answers(used).endedAt
      ensures r.failure.None? ==> !r.changed && state.group.Some?
      ensures r.failure.None? ==> Waiting(state.group.value, answers(used).drainedAt, options.telemetryFreshness)
      ensures old(state.group).Some? ==> used <= Remaining(old(state.group.value.at))
    {
      hide IsRun, Grew, Waiting, Remaining, HeldBack, Expired, Healthy, Ordered;
      ghost var before := state.group;
      used := 0;
      GrewNone(steps);
      r := Reconcile(answers(0));
      while r.failure.None? && r.changed
        invariant Valid() && Grew(old(steps), steps) && World().now <= answers(used).endedAt
        invariant r.failure.None? ==> state.group.Some?
        invariant r.failure.None? && !r.changed ==>
                    Waiting(state.group.value, answers(used).drainedAt, options.telemetryFreshness)
        invariant before.Some? ==> used <= Remaining(before.value.at)
        invariant before.Some? && r.failure.None? && r.changed ==>
                    used + 1 + Remaining(state.group.value.at) <= Remaining(before.value.at)
        decreases if r.failure.None? && r.changed then Remaining(state.group.value.at) + 1 else 0
      {
        ghost var earlier := steps;
        used := used + 1;
        Later(answers(used), answers(used - 1).endedAt, World().now);
        r := Reconcile(answers(used));
        GrewTwice(old(steps), earlier, steps);
      }
    }

    /** Records an acknowledgement exactly when it answers a command issued for the
        phase the transition is in and brings news; otherwise nothing changes. */
    method Acknowledge(received: Ack, now: Time, saved: bool) returns (r: Receipt)
      requires Valid()
      modifies this
      ensures Valid()
      ensures var ack := if received.observedAt == 0 then received.(observedAt := now) else received;
              && (r == Recorded <==>
                    old(state.group).Some? && AnswersCommand(old(state.group.value), ack)
                    && NewsFrom(old(state.group.value), ack) && saved)
              && (r == Repeated <==>
                    old(state.group).Some? && AnswersCommand(old(state.group.value), ack)
                    && !NewsFrom(old(state.group.value), ack))
              && (r == UnknownParticipant ==>
                  old(state.group).Some?
                  && RequirementOf(old(state.group.value).spec, ack.phase, ack.participant).None?)
              && (r == Recorded ==>
                    && steps == old(steps) + [Step.Acknowledge(ack)]
                    && state == old(state).(group := Some(Acked(old(state.group.value), ack)))
                    && state.group.value.acks ==
                       old(state.group.value.acks)[AckKey(ack.phase, ack.participant) := ack.observedAt])
      ensures r != Recorded ==> state == old(state) && steps == old(steps)
      ensures World() == old(World()).(p := state)
    {
      hide IsRun, CommandsIssued, RequirementOf, Progresses, AnswersCommand;
      var ack := if received.observedAt == 0 then received.(observedAt := now) else received;
      if state.group.None? {
        return Missing;
      }
      var g := state.group.value;
      ScopeMeans(run, steps, options, ack);
      if g.at.completed || g.at.rollingBack || !CommandsIssued(g, ack.phase) || ack.transitionId != g.spec.id
         || ack.epoch != g.spec.toEpoch || ack.phase != g.at.phase {
        return Stale;
      }
      var requirement := RequirementOf(g.spec, ack.phase, ack.participant);
      if requirement.None? {
        return UnknownParticipant;
      }
      if !AckInScope(g, ack) {
        return Stale;
      }
      if !AckIsNews(g, ack) {
        return Repeated;
      }
      AckSaved(World(), g, ack, options);
      SaveGroup(Acked(g, ack), Step.Acknowledge(ack), saved);
      r := if saved then Recorded else Unsaved;
    }

    /** Records a drain sample exactly when it is in scope, newer than what is known
        of each of its sources, and not a replay. */
    method Observe(sample: Telemetry, now: Time, saved: bool) returns (r: Receipt)
      requires Valid() && World().now <= now
      modifies this
      ensures Valid() && World().now <= now
      ensures r == Repeated <==> old(state.group).Some? && sample.messageId != ""
                                 && sample.messageId in old(state.group.value).messages
                                 && old(state.group.value).messages[sample.messageId] == sample
      ensures r == Recorded <==>
                old(state.group).Some?
                && (sample.messageId != "" ==> sample.messageId !in old(state.group.value).messages)
                                 && ReportCounts(old(state.group.value), sample, now) && saved
      ensures r == Recorded ==>
                state == old(state).(group :=
                                     Some(Observed(old(state.group.value), sample, options.telemetryFreshness)))
      ensures r == Recorded ==> World().samples == old(World().samples) + [sample]
      ensures r != Recorded ==> state == old(state)
    {
      hide IsRun, SampleInScope, Observed, Progresses, ReportCounts;
      if state.group.None? {
        return Missing;
      }
      var g := state.group.value;
      SampleMeans(g, sample, now);
      if sample.messageId != "" && sample.messageId in g.messages {
        return if g.messages[sample.messageId] == sample then Repeated else Stale;
      }
      if !SampleInScope(g, sample, now) {
        return Stale;
      }
      var next := WriteSample(g, sample, options.telemetryFreshness);
      Read(now);
      r := KeepSample(next, sample, saved);
    }

    method KeepSample(next: GroupState, sample: Telemetry, saved: bool) returns (r: Receipt)
      requires Valid() && state.group.Some? && SampleInScope(state.group.value, sample, World().now)
      requires sample.messageId != "" ==> sample.messageId !in state.group.value.messages
      requires next == Observed(state.group.value, sample, options.telemetryFreshness)
      modifies this
      ensures Valid() && World().now == old(World().now)
      ensures r == if saved then Recorded else Unsaved
      ensures saved ==> state == old(state).(group := Some(next)) && World().samples == old(World().samples) + [sample]
      ensures !saved ==> state == old(state)
    {
      hide IsRun, Observed, Progresses, UpdateGroup;
      ObservationSaved(World(), state.group.value, sample, options);
      SaveGroup(next, Step.Observe(sample), saved);
      SamplesKept(run, steps, options);
      RunNotEmpty(run, steps, options);
      assert saved ==> steps[|steps| - 1] == Step.Observe(sample);
      r := if saved then Recorded else Unsaved;
    }

    /** Starts a rollback before COMMIT, and only with a complete proof. */
    method RequestRollback(proof: RollbackProof, saved: bool) returns (r: RollbackReply)
      requires Valid()
      modifies this
      ensures Valid()
      ensures r == RollbackStarted <==>
                old(state.group).Some? && MayTurnBack(old(state.group.value), proof) && saved
      ensures r == CommitReached <==> old(state.group).Some? && old(state.group.value).at.phase in {Commit, Activate}
      ensures r == RollbackStarted ==>
                && steps == old(steps) + [Step.RequestRollback(proof)]
                && state == old(state).(group := Some(old(state.group.value)
                                                      .(at := old(state.group.value).at.(rollingBack := true))))
      ensures r != RollbackStarted ==> state == old(state) && steps == old(steps)
    {
      hide IsRun, Progresses;
      if state.group.None? {
        return NoTransition;
      }
      var g := state.group.value;
      PublishedLate(run, steps, options);
      if g.at.phase == Commit || g.at.phase == Activate || g.at.commitPublished || g.at.activatePublished {
        return CommitReached;
      }
      if !MayRollBack(g, proof) {
        return Unproven;
      }
      if g.at.rollingBack {
        return AlreadyRollingBack;
      }
      SaveGroup(g.(at := g.at.(rollingBack := true)), Step.RequestRollback(proof), saved);
      r := if saved then RollbackStarted else RollbackUnsaved;
    }

    constructor (p: Persistent, o: Options, ghost w: World)
      requires Initial(w) && ValidOptions(o) && w.p == p
      ensures Valid() && state == p && options == o && run == [w] && steps == []
    {
      options := o;
      state := p;
      run := [w];
      steps := [];
    }

    /** Starts a transition. An exact replay finds the existing one, anything else is
        refused until the existing one has completed and is continued by this one.
        The runtime builds what is accepted from the retained ACTIVE snapshot, under
        an identity it never used before. */
    method Begin(asked: Spec, now: Time, saved: bool) returns (r: BeginReply)
      requires Valid() && World().now <= now
      requires var spec := WithGrace(asked, options);
               MayStart(state, spec) ==> spec.id !in World().used && state.membership.Some?
                                         && BuiltFrom(spec, state.membership.value)
      modifies this
      ensures Valid()
      ensures var spec := WithGrace(asked, options);
              && (r == Started <==>
                    && ValidSpec(spec) && saved
                    && (old(state.group).Some? ==> !SameTransition(old(state.group.value).spec, spec)
                                                   && Continues(old(state.group.value), spec)))
              && (r == Started ==> state == old(state).(group := Some(Begun(spec, now, options.phaseTimeout))))
              && (r == Invalid <==> !ValidSpec(spec))
              && (r == Existing <==>
                    ValidSpec(spec) && old(state.group).Some? && SameTransition(old(state.group.value).spec, spec))
      ensures r == Started ==>
                state.group == Some(GroupState(
                  asked.(drainGrace := if asked.drainGrace == 0 then options.zeroGrace else asked.drainGrace),
                  Progress(Prepare, false, false, false, false, false, false, false, false, false, false, false, false,
                           false),
                  Times(now, now, now + options.phaseTimeout, None, [PhaseEvent(Prepare, now, None)], None, None),
                  map[], map[], map[], map[], map[], false))
      ensures r != Started ==> state == old(state)
    {
      hide IsRun, ValidSpec, BuiltFrom, CanReplaceCompleted, Continues;
      var spec := WithGrace(asked, options);
      var valid := CheckSpec(spec);
      if !valid {
        return Invalid;
      }
      if state.group.Some? {
        ContinuesAlways(run, steps, options, spec);
        if EqualSpec(state.group.value.spec, spec) {
          return Existing;
        }
        if !CanReplaceCompleted(state.group.value, spec) {
          return InProgress;
        }
      }
      if !saved {
        return BeginUnsaved;
      }
      RunNotEmpty(run, steps, options);
      Read(now);
      ghost var h := After(World(), Step.Begin(spec), options);
      state := state.(group := Some(Begun(spec, now, options.phaseTimeout)));
      Append(Step.Begin(spec), h);
      return Started;
    }

    /** A restart: load, repair, check, and replay the ingress change the flags ask
        for. It is refused for exactly one shape of state. */
    method Restart(now: Time, ghost sourceChanged: set<Resource>, ghost targetOpened: set<Resource>) returns (ok: bool)
      requires Valid() && World().now <= now
      requires state.group.Some? ==>
                 sourceChanged <= Queues(state.group.value.spec.currentResources)
                 && targetOpened <= Queues(state.group.value.spec.proposedResources)
      modifies this
      ensures Valid()
      ensures state.group.Some? <==> old(state.group).Some?
      ensures ok <==> old(state.group).None?
                      || !(old(state.group.value).at.commitPublished && EmptyCommitList(old(state.group.value).spec))
      ensures !ok ==> state == old(state)
      ensures old(state.group).Some? && Commit !in old(state.group.value).spec.roles ==> state == old(state)
    {
      hide IsRun, Open, EmptyCommitList, Queues;
      RestartClosure(run, steps, options, |run| - 1, now);
      var opening := Open(state, now, options);
      ok := opening.Opened?;
      if ok && state.group.Some? {
        Read(now);
        ghost var step := Step.Restart(sourceChanged, targetOpened);
        ghost var h := After(World(), step, options);
        OpensTo(World(), step, options);
        state := opening.p;
        Append(step, h);
      }
    }
  }

  datatype BeginReply = Started | Existing | InProgress | Invalid | BeginUnsaved

  function WithGrace(s: Spec, o: Options): Spec {
    if s.drainGrace == 0 then s.(drainGrace := o.zeroGrace) else s
  }

  /** Broker addresses are not compared. */
  predicate EqualSpec(a: Spec, b: Spec) {
    a.(currentBrokers := b.currentBrokers, proposedBrokers := b.proposedBrokers) == b
  }

  predicate MayStart(p: Persistent, spec: Spec) {
    && ValidSpec(spec)
    && (p.group.Some? ==> !EqualSpec(p.group.value.spec, spec) && CanReplaceCompleted(p.group.value, spec))
  }

  lemma OpensTo(w: World, step: Step, o: Options)
    requires step.Restart? && w.p.group.Some? && Open(w.p, w.now, o).Opened?
    ensures After(w, step, o).p == Open(w.p, w.now, o).p
  {
    hide Valid, ValidSpec, ValidGroupState, Reopened, Replayed;
  }

  datatype Receipt = Recorded | Repeated | Stale | UnknownParticipant | Missing | Unsaved

  datatype RollbackReply = RollbackStarted | AlreadyRollingBack | CommitReached | Unproven | NoTransition
        | RollbackUnsaved

  lemma Later(a: Answers, earlier: Time, now: Time)
    requires Ordered(a, earlier) && now <= earlier
    ensures Ordered(a, now)
  {
  }

  lemma AckSaved(w: World, g: GroupState, ack: Ack, o: Options)
    requires w.p.group == Some(g) && AckInScope(g, ack) && AckIsNews(g, ack)
    ensures Enabled(w, Step.Acknowledge(ack), o)
    ensures GroupAfter(w, Step.Acknowledge(ack), o) == Acked(g, ack)
    ensures UpdateGroup(w.p, Acked(g, ack), o.historyLimit) == w.p.(group := Some(Acked(g, ack)))
  {
    hide EvidenceReady, EvidenceOf, RecordOf, CommandsIssued, RequirementOf;
  }

  lemma ObservationSaved(w: World, g: GroupState, t: Telemetry, o: Options)
    requires w.p.group == Some(g) && SampleInScope(g, t, w.now) && (t.messageId != "" ==> t.messageId !in g.messages)
    ensures Enabled(w, Step.Observe(t), o)
    ensures GroupAfter(w, Step.Observe(t), o) == Observed(g, t, o.telemetryFreshness)
    ensures UpdateGroup(w.p, Observed(g, t, o.telemetryFreshness), o.historyLimit)
              == w.p.(group := Some(Observed(g, t, o.telemetryFreshness)))
  {
    hide EvidenceReady, EvidenceOf, RecordOf, RequiredSources, SourcesFor, HasTypedRequirements;
    ObservedKeeps(g, SourcesFor(g.spec, t), t, o.telemetryFreshness);
  }

  /** An accepted sample joins the history, whatever came before it. */
  lemma SamplesKept(run: seq<World>, steps: seq<Step>, o: Options)
    requires IsRun(run, steps, o)
    ensures forall i :: 0 <= i < |steps| && steps[i].Observe? ==>
              run[i + 1].samples == run[i].samples + [steps[i].sample]
  {
    hide Take;
    forall i | 0 <= i < |steps| && steps[i].Observe? ensures run[i + 1].samples == run[i].samples + [steps[i].sample] {
      SampleKept(run[i], steps[i], run[i + 1], o);
    }
  }

  lemma SampleKept(w: World, step: Step, h: World, o: Options)
    requires step.Observe? && Take(w, step, o) == Some(h)
    ensures h.samples == w.samples + [step.sample]
  {
    hide GroupAfter, UpdateGroup, Guard, Justified;
  }

  lemma PublishedLate(run: seq<World>, steps: seq<Step>, o: Options)
    requires run != [] && IsRun(run, steps, o) && run[|run| - 1].p.group.Some?
    ensures var at := run[|run| - 1].p.group.value.at;
            at.commitPublished || at.activatePublished ==> Rank(at.phase) >= 4
  {
    hide IsRun, TimesInv, MessageInv, TelemetryInv;
    RunInv(run, steps, o, |run| - 1);
  }

  /** Four phases have commands to issue, so intent always makes them issued. */
  lemma IntentIssues(w: World, g: GroupState, phase: Phase, o: Options)
    requires w.p.group == Some(g)
    ensures GroupAfter(w, RecordIntent(phase), o) == g.(issued := g.issued[phase := Expected(g.spec, phase)])
    ensures UpdateGroup(w.p, GroupAfter(w, RecordIntent(phase), o), o.historyLimit) ==
            w.p.(group := Some(g.(issued := g.issued[phase := Expected(g.spec, phase)])))
  {
    hide Expected, EvidenceReady, EvidenceOf, RecordOf;
  }

  lemma TargetOrder(run: seq<World>, steps: seq<Step>, o: Options)
    requires run != [] && IsRun(run, steps, o) && run[|run| - 1].p.group.Some?
    ensures var at := run[|run| - 1].p.group.value.at;
            (at.activatePublished ==> at.targetVerified) && (at.targetVerified ==> at.targetEnabled)
  {
    hide IsRun, TimesInv, MessageInv, TelemetryInv;
    RunInv(run, steps, o, |run| - 1);
  }

  lemma Intendable(run: seq<World>, steps: seq<Step>, o: Options, phase: Phase)
    requires run != [] && IsRun(run, steps, o) && run[|run| - 1].p.group.Some?
    requires Guard(run[|run| - 1].p.group.value.at, RecordIntent(phase))
    ensures var g := run[|run| - 1].p.group.value;
            CommandsIssued(g.(issued := g.issued[phase := Expected(g.spec, phase)]), phase)
  {
    hide IsRun, GroupInv, Expected;
    RunInv(run, steps, o, |run| - 1);
    var g := run[|run| - 1].p.group.value;
    GroupProgress(g);
    AllExpectedEmpty(g.spec);
  }

  lemma GrewNone(steps: seq<Step>)
    ensures Grew(steps, steps)
  {
  }

  lemma GroupProgress(g: GroupState)
    requires GroupInv(g)
    ensures ProgressInv(g.at) && Commanded(g.spec) && MessageInv(g)
  {
    hide ProgressInv, TimesInv, TelemetryInv;
  }

  lemma NewerIsLater(a: Snapshot, b: Snapshot)
    requires Compare(a, b) == Newer
    ensures b.revision > a.revision && b.epoch >= a.epoch
  {
    hide Advance;
  }

  lemma SavedState(w: World, step: Step, o: Options)
    requires SavesGroup(step) && w.p.group.Some?
    ensures After(w, step, o).p == UpdateGroup(w.p, GroupAfter(w, step, o), o.historyLimit)
    ensures After(w, step, o).now == w.now
  {
    hide GroupAfter, UpdateGroup;
  }
}
