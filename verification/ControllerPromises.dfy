/** What the decisions of the controller come down to, said over the durable state, the
    messages and the options themselves. Follows controller/controller.go. */
module ControllerPromises {
  import opened Control
  import opened Transition
  import opened ControllerState

  // ------------------------------------------------------------------- who has answered

  /** Everybody listed for the phase has acknowledged it. */
  predicate EveryoneAnswered(g: GroupState, phase: Phase) {
    phase in g.spec.roles ==>
      forall i :: 0 <= i < |g.spec.roles[phase]| ==> AckKey(phase, g.spec.roles[phase][i].participant) in g.acks
  }

  predicate AllUntyped(s: Spec) {
    forall p, i :: p in s.roles && 0 <= i < |s.roles[p]| ==> s.roles[p][i].role.Untyped?
  }

  /** The acknowledgement is neither older than the limit nor from the future. */
  predicate AnsweredWithin(g: GroupState, key: AckKey, since: Time, now: Time, limit: nat) {
    key in g.acks && since <= g.acks[key] <= now && now - g.acks[key] <= limit
  }

  /** Acknowledged DRAIN in this phase, at most the limit ago. Where no requirement has a
      role, an acknowledgement of PREPARE at most as old also serves. */
  predicate Current(g: GroupState, who: string, now: Time, limit: nat) {
    || AnsweredWithin(g, AckKey(Drain, who), g.times.phaseEnteredAt, now, limit)
    || (AllUntyped(g.spec) && AnsweredWithin(g, AckKey(Prepare, who), 0, now, limit))
  }

  /** Everybody listed for DRAIN is ready. */
  predicate ReadinessCurrent(g: GroupState, now: Time, limit: nat) {
    Drain in g.spec.roles ==>
      forall i :: 0 <= i < |g.spec.roles[Drain]| ==> Current(g, g.spec.roles[Drain][i].participant, now, limit)
  }

  lemma AnsweredMeans(g: GroupState, phase: Phase)
    ensures AllAcknowledged(g, phase) <==> EveryoneAnswered(g, phase)
  {
    var required := RequirementsFor(g.spec, phase);
    assert phase in g.spec.roles ==> required == g.spec.roles[phase];
    assert AllAcknowledged(g, phase) <==>
           forall i :: 0 <= i < |required| ==> AckKey(phase, required[i].participant) in g.acks;
  }

  lemma CurrentMeans(g: GroupState, who: string, now: Time, limit: nat)
    ensures Current(g, who, now, limit) <==>
              AckFresh(g, who, now, limit) || (!HasTypedRequirements(g.spec) && PrepareAckFresh(g, who, now, limit))
  {
  }

  lemma ReadinessMeans(g: GroupState, now: Time, limit: nat)
    ensures ReadinessFresh(g, now, limit) <==> ReadinessCurrent(g, now, limit)
  {
    var required := RequirementsFor(g.spec, Drain);
    assert Drain in g.spec.roles ==> required == g.spec.roles[Drain];
    forall who: string
      ensures Current(g, who, now, limit) <==>
                AckFresh(g, who, now, limit) || (!HasTypedRequirements(g.spec) && PrepareAckFresh(g, who, now, limit))
    {
      CurrentMeans(g, who, now, limit);
    }
    hide AckFresh, PrepareAckFresh, HasTypedRequirements, AnsweredWithin, AllUntyped, Current;
    assert ReadinessFresh(g, now, limit) <==>
           forall i :: 0 <= i < |required| ==> Current(g, required[i].participant, now, limit);
  }

  // ---------------------------------------------------------------------- what is empty

  /** The latest report of the queue is of nothing queued, stored or unacknowledged, made in
      this phase and at most the limit ago, and a zero interval is known. */
  predicate ReportedEmpty(g: GroupState, source: Source, now: Time, limit: nat) {
    && source in g.latest && source in g.zeroSince
    && g.latest[source].queued == Known(0) && g.latest[source].stored == Known(0)
    && g.latest[source].unacked == Known(0)
    && g.times.phaseEnteredAt <= g.latest[source].observedAt <= now
    && now - g.latest[source].observedAt <= limit
  }

  function QueueOf(r: Resource): Source {
    Source(r.broker, r.queue)
  }

  predicate AllReported(g: GroupState, now: Time, limit: nat) {
    forall r :: r in g.spec.currentResources ==> ReportedEmpty(g, QueueOf(r), now, limit)
  }

  /** Since the last queue became empty, and since the phase began, all were watched for the
      grace. */
  predicate AllWatched(g: GroupState) {
    && (forall r :: r in g.spec.currentResources ==>
          QueueOf(r) in g.latest && g.latest[QueueOf(r)].observedAt >= g.times.phaseEnteredAt + g.spec.drainGrace)
    && (forall r, q :: r in g.spec.currentResources && q in g.spec.currentResources ==>
          QueueOf(r) in g.latest && QueueOf(q) in g.zeroSince
          && g.latest[QueueOf(r)].observedAt >= g.zeroSince[QueueOf(q)] + g.spec.drainGrace)
  }

  /** Every queue of the source epoch reported empty and was watched long enough. */
  predicate QueuesDrained(g: GroupState, now: Time, limit: nat) {
    AllReported(g, now, limit) && AllWatched(g)
  }

  lemma SourceMeans(g: GroupState, source: Source, now: Time, limit: nat)
    ensures SourceDrained(g, source, now, limit) <==> ReportedEmpty(g, source, now, limit)
  {
  }

  lemma ListedSources(s: Spec)
    ensures forall r :: r in s.currentResources ==> QueueOf(r) in RequiredSources(s)
    ensures forall source :: source in RequiredSources(s) ==>
              exists r :: r in s.currentResources && QueueOf(r) == source
  {
    var sources := RequiredSources(s);
    forall r | r in s.currentResources ensures QueueOf(r) in sources {
      var i :| 0 <= i < |s.currentResources| && s.currentResources[i] == r;
      assert sources[i] == QueueOf(r);
    }
    forall source | source in sources ensures exists r :: r in s.currentResources && QueueOf(r) == source {
      var i :| 0 <= i < |sources| && sources[i] == source;
      assert s.currentResources[i] in s.currentResources && QueueOf(s.currentResources[i]) == sources[i];
    }
  }

  /** The bounds of the drain decision are over every queue. */
  lemma BoundsMean(g: GroupState, sources: seq<Source>, start: Time, grace: nat)
    requires sources != []
    requires forall source :: source in sources ==>
               source in g.latest && source in g.zeroSince && g.latest[source].observedAt > 0
    ensures EarliestObserved(g, sources) >= LatestZero(g, sources, start) + grace <==>
              && (forall source :: source in sources ==> g.latest[source].observedAt >= start + grace)
              && (forall source, other :: source in sources && other in sources ==>
                    g.latest[source].observedAt >= g.zeroSince[other] + grace)
  {
    hide EarliestObserved, LatestZero;
    var low, high := LatestZero(g, sources, start), EarliestObserved(g, sources);
    forall source | source in sources ensures g.zeroSince[source] <= low && high <= g.latest[source].observedAt {
      var i :| 0 <= i < |sources| && sources[i] == source;
    }
  }

  lemma SourcesMean(g: GroupState, now: Time, limit: nat)
    ensures AllReported(g, now, limit) <==>
              forall i :: 0 <= i < |RequiredSources(g.spec)| ==>
                SourceDrained(g, RequiredSources(g.spec)[i], now, limit)
  {
    var sources := RequiredSources(g.spec);
    ListedSources(g.spec);
    forall source ensures SourceDrained(g, source, now, limit) <==> ReportedEmpty(g, source, now, limit) {
      SourceMeans(g, source, now, limit);
    }
    hide RequiredSources, QueueOf, SourceDrained, ReportedEmpty;
    forall i | 0 <= i < |sources| && AllReported(g, now, limit) ensures ReportedEmpty(g, sources[i], now, limit) {
      assert sources[i] in sources;
    }
    if forall i :: 0 <= i < |sources| ==> SourceDrained(g, sources[i], now, limit) {
      forall r | r in g.spec.currentResources ensures ReportedEmpty(g, QueueOf(r), now, limit) {
        var i :| 0 <= i < |sources| && sources[i] == QueueOf(r);
      }
    }
  }

  lemma ReportedSources(g: GroupState, now: Time, limit: nat)
    requires AllReported(g, now, limit) && g.times.phaseEnteredAt > 0
    ensures forall source :: source in RequiredSources(g.spec) ==>
              source in g.latest && source in g.zeroSince && g.latest[source].observedAt > 0
  {
    ListedSources(g.spec);
    hide RequiredSources, QueueOf;
    forall source | source in RequiredSources(g.spec)
      ensures source in g.latest && source in g.zeroSince && g.latest[source].observedAt > 0
    {
      var r :| r in g.spec.currentResources && QueueOf(r) == source;
      assert ReportedEmpty(g, QueueOf(r), now, limit);
    }
  }

  lemma WatchedMeans(g: GroupState, sources: seq<Source>)
    requires forall r :: r in g.spec.currentResources ==> QueueOf(r) in sources
    requires forall source :: source in sources ==> exists r :: r in g.spec.currentResources && QueueOf(r) == source
    requires forall source :: source in sources ==> source in g.latest && source in g.zeroSince
    ensures AllWatched(g) <==>
              && (forall source :: source in sources ==>
                    g.latest[source].observedAt >= g.times.phaseEnteredAt + g.spec.drainGrace)
              && (forall source, other :: source in sources && other in sources ==>
                    g.latest[source].observedAt >= g.zeroSince[other] + g.spec.drainGrace)
  {
    hide QueueOf;
  }

  /** The drain decision, exactly. */
  lemma DrainMeans(g: GroupState, now: Time, limit: nat)
    requires g.spec.currentResources != [] && g.times.phaseEnteredAt > 0
    ensures DrainComplete(g, now, limit) <==> QueuesDrained(g, now, limit)
  {
    var sources := RequiredSources(g.spec);
    SourcesMean(g, now, limit);
    if AllReported(g, now, limit) {
      ReportedSources(g, now, limit);
      ListedSources(g.spec);
      hide SourceDrained, AllReported, AllWatched, RequiredSources;
      BoundsMean(g, sources, g.times.phaseEnteredAt, g.spec.drainGrace);
      WatchedMeans(g, sources);
    }
  }

  // ------------------------------------------------------------------ what is taken in

  /** The acknowledgement meets the requirement: a participant without a role gives no
      identity, one with a role is authenticated as itself and names its own command. */
  predicate Meets(g: GroupState, ack: Ack, need: Requirement) {
    && need.participant == ack.participant
    && if need.role.Untyped? then ack.command.None? && ack.authenticated == "" && ack.role.Untyped?
       else && ack.authenticated == ack.participant && ack.role == need.role
            && ack.command == Some(Command(g.spec.group, g.spec.id, ack.phase, need.role, ack.participant))
  }

  /** Everybody listed has its own command, and nobody else has one. */
  predicate OneEach(commands: map<string, Command>, needs: seq<Requirement>, s: Spec, phase: Phase) {
    && (forall i :: 0 <= i < |needs| ==>
          && needs[i].participant in commands
          && commands[needs[i].participant] == Command(s.group, s.id, phase, needs[i].role, needs[i].participant))
    && (forall who :: who in commands ==> exists i :: 0 <= i < |needs| && needs[i].participant == who)
  }

  /** Somebody is listed for the phase, and exactly their commands were issued. */
  predicate CommandsOut(g: GroupState, phase: Phase) {
    && phase in g.spec.roles && g.spec.roles[phase] != [] && phase in g.issued
    && OneEach(g.issued[phase], g.spec.roles[phase], g.spec, phase)
  }

  lemma ExpectedAre(s: Spec, phase: Phase)
    requires ValidRequirements(phase, RequirementsFor(s, phase))
    ensures OneEach(Expected(s, phase), RequirementsFor(s, phase), s, phase)
  {
    var needs := RequirementsFor(s, phase);
    forall i | 0 <= i < |needs|
      ensures needs[i].participant in Expected(s, phase)
              && Expected(s, phase)[needs[i].participant] ==
                 Command(s.group, s.id, phase, needs[i].role, needs[i].participant)
    {
      CommandAt(s, phase, needs, i);
    }
  }

  lemma OneEachUnique(a: map<string, Command>, b: map<string, Command>, needs: seq<Requirement>, s: Spec, phase: Phase)
    requires OneEach(a, needs, s, phase) && OneEach(b, needs, s, phase)
    ensures a == b
  {
    forall who | who in a ensures who in b && b[who] == a[who] {
      var i :| 0 <= i < |needs| && needs[i].participant == who;
    }
    forall who | who in b ensures who in a {
      var i :| 0 <= i < |needs| && needs[i].participant == who;
    }
  }

  lemma SomebodyListed(commands: map<string, Command>, needs: seq<Requirement>, s: Spec, phase: Phase)
    requires OneEach(commands, needs, s, phase)
    ensures commands == map[] <==> needs == []
  {
    if needs != [] {
      assert needs[0].participant in commands;
    }
  }

  lemma IssuedMeans(g: GroupState, phase: Phase)
    requires ValidRequirements(phase, RequirementsFor(g.spec, phase))
    ensures CommandsIssued(g, phase) <==> CommandsOut(g, phase)
  {
    hide Expected, ValidRequirements, OneEach;
    var needs := RequirementsFor(g.spec, phase);
    ExpectedAre(g.spec, phase);
    SomebodyListed(Expected(g.spec, phase), needs, g.spec, phase);
    if CommandsOut(g, phase) {
      OneEachUnique(g.issued[phase], Expected(g.spec, phase), needs, g.spec, phase);
    }
  }

  /** It is of this transition and of the phase it is in, whose commands were issued, and
      from somebody listed for it. */
  predicate AnswersCommand(g: GroupState, ack: Ack) {
    && !g.at.completed && !g.at.rollingBack && ack.phase == g.at.phase && CommandsOut(g, ack.phase)
    && ack.transitionId == g.spec.id && ack.epoch == g.spec.toEpoch && ack.namespace == g.spec.namespace
    && ack.phase in g.spec.roles
    && exists i :: 0 <= i < |g.spec.roles[ack.phase]| && Meets(g, ack, g.spec.roles[ack.phase][i])
  }

  lemma {:induction false} CommandAt(s: Spec, phase: Phase, needs: seq<Requirement>, i: nat)
    requires i < |needs|
    requires forall j, k :: 0 <= j < k < |needs| ==> needs[j].participant != needs[k].participant
    ensures needs[i].participant in CommandsOf(s, phase, needs)
    ensures CommandsOf(s, phase, needs)[needs[i].participant] ==
            Command(s.group, s.id, phase, needs[i].role, needs[i].participant)
  {
    if i < |needs| - 1 {
      var rest := needs[..|needs| - 1];
      assert rest[i] == needs[i];
      CommandAt(s, phase, rest, i);
    }
  }

  lemma MeetsMeans(g: GroupState, ack: Ack, need: Requirement)
    requires ValidRequirements(ack.phase, RequirementsFor(g.spec, ack.phase)) && CommandsIssued(g, ack.phase)
    requires RequirementOf(g.spec, ack.phase, ack.participant) == Some(need)
    ensures Meets(g, ack, need) <==>
              if need.role.Untyped? then ack.command.None? && ack.authenticated == "" && ack.role.Untyped?
              else && ack.participant in IssuedIn(g, ack.phase)
                   && ack.command == Some(IssuedIn(g, ack.phase)[ack.participant])
                   && ack.authenticated == ack.participant && ack.role == need.role
  {
    var needs := RequirementsFor(g.spec, ack.phase);
    var i :| 0 <= i < |needs| && needs[i] == need;
    CommandAt(g.spec, ack.phase, needs, i);
    hide CommandsOf;
  }

  /** Whether an acknowledgement is in scope, exactly. */
  lemma AckMeans(g: GroupState, ack: Ack)
    requires ValidRequirements(ack.phase, RequirementsFor(g.spec, ack.phase))
    ensures AckInScope(g, ack) <==> AnswersCommand(g, ack)
  {
    var needs := RequirementsFor(g.spec, ack.phase);
    assert ack.phase in g.spec.roles ==> needs == g.spec.roles[ack.phase];
    IssuedMeans(g, ack.phase);
    hide CommandsOut;
    var found := RequirementOf(g.spec, ack.phase, ack.participant);
    if found.Some? && CommandsIssued(g, ack.phase) {
      MeetsMeans(g, ack, found.value);
      var i :| 0 <= i < |needs| && needs[i] == found.value;
      hide CommandsIssued, FindRequirement, Meets;
      forall k | 0 <= k < |needs| && Meets(g, ack, needs[k]) ensures needs[k] == found.value {
        assert needs[k].participant == ack.participant by { MeetsNames(g, ack, needs[k]); }
      }
    } else if found.None? {
      forall k | 0 <= k < |needs| ensures !Meets(g, ack, needs[k]) {
      }
    }
  }

  lemma MeetsNames(g: GroupState, ack: Ack, need: Requirement)
    requires Meets(g, ack, need)
    ensures need.participant == ack.participant
  {
  }

  /** Newer than what is known of the queue. */
  predicate NewsOf(g: GroupState, source: Source, t: Telemetry) {
    source in g.latest ==> t.observedAt > g.latest[source].observedAt
  }

  /** A report counts while DRAIN waits for reports: of this transition and its source epoch,
      made in this phase and not in the future, by a broker, an observer or nobody in
      particular; of a queue of the source epoch, identified where roles are, or of all of
      them at once; and newer than what is known. */
  predicate ReportCounts(g: GroupState, t: Telemetry, now: Time) {
    && !g.at.completed && !g.at.rollingBack && g.at.phase == Drain && g.at.drainPublished
    && t.transitionId == g.spec.id && t.epoch == g.spec.fromEpoch
    && 0 < t.observedAt && g.times.phaseEnteredAt <= t.observedAt <= now
    && (t.role.Untyped? || t.role.Broker? || t.role.Observer?) && (t.participant != "" <==> !t.role.Untyped?)
    && if exists r :: r in g.spec.currentResources && QueueOf(r) == Source(t.broker, t.queue)
       then && t.namespace == g.spec.namespace && NewsOf(g, Source(t.broker, t.queue), t)
            && (!AllUntyped(g.spec) ==> t.messageId != "" && t.participant != "")
       else && IsAggregate(g.spec, t) && g.spec.currentResources != []
            && forall r :: r in g.spec.currentResources ==> NewsOf(g, QueueOf(r), t)
  }

  lemma SampleMeans(g: GroupState, t: Telemetry, now: Time)
    ensures SampleInScope(g, t, now) <==> ReportCounts(g, t, now)
  {
    var sources := RequiredSources(g.spec);
    ListedSources(g.spec);
    assert HasTypedRequirements(g.spec) <==> !AllUntyped(g.spec);
    hide HasTypedRequirements, AllUntyped, IsAggregate, RequiredSources, QueueOf;
    var source := Source(t.broker, t.queue);
    var exact := source in sources;
    assert exact <==> exists r :: r in g.spec.currentResources && QueueOf(r) == source;
    if exact {
      assert SourcesFor(g.spec, t) == [source];
      assert [source][0] == source;
    } else {
      assert IsAggregate(g.spec, t) ==> SourcesFor(g.spec, t) == sources;
      assert sources == [] <==> g.spec.currentResources == [] by { SourcesCount(g.spec); }
      EachIsNews(g, t, sources);
    }
  }

  lemma SourcesCount(s: Spec)
    ensures |RequiredSources(s)| == |s.currentResources|
  {
  }

  lemma EachIsNews(g: GroupState, t: Telemetry, sources: seq<Source>)
    requires forall r :: r in g.spec.currentResources ==> QueueOf(r) in sources
    requires forall source :: source in sources ==> exists r :: r in g.spec.currentResources && QueueOf(r) == source
    ensures (forall r :: r in g.spec.currentResources ==> NewsOf(g, QueueOf(r), t)) <==>
              forall i :: 0 <= i < |sources| ==>
                sources[i] in g.latest ==> t.observedAt > g.latest[sources[i]].observedAt
  {
    hide QueueOf;
    if forall r :: r in g.spec.currentResources ==> NewsOf(g, QueueOf(r), t) {
      forall i | 0 <= i < |sources| ensures NewsOf(g, sources[i], t) {
        assert sources[i] in sources;
      }
    }
    if forall i :: 0 <= i < |sources| ==> sources[i] in g.latest ==> t.observedAt > g.latest[sources[i]].observedAt {
      forall r | r in g.spec.currentResources ensures NewsOf(g, QueueOf(r), t) {
        var i :| 0 <= i < |sources| && sources[i] == QueueOf(r);
      }
    }
  }

  predicate NewsFrom(g: GroupState, ack: Ack) {
    AckKey(ack.phase, ack.participant) in g.acks ==> g.acks[AckKey(ack.phase, ack.participant)] < ack.observedAt
  }

  // ------------------------------------------------------- beginning and rolling back

  /** A rollback can start: before COMMIT, and with a proof for this very transition that
      the source is intact, the target inactive, and a fence that was tried reversible. */
  predicate MayTurnBack(g: GroupState, proof: RollbackProof) {
    && !g.at.rollingBack && g.at.phase in {Prepare, Pause, Drain} && proof.transitionId == g.spec.id
    && proof.sourceIntact && proof.proposedInactive
    && (g.at.fenceAttempted || g.at.fenced ==> proof.fenceReversible)
  }

  /** The same transition: everything but the addresses of brokers. */
  predicate SameTransition(a: Spec, b: Spec) {
    && a.id == b.id && a.namespace == b.namespace && a.libraryVersion == b.libraryVersion && a.group == b.group
    && a.revision == b.revision && a.fromEpoch == b.fromEpoch && a.toEpoch == b.toEpoch && a.queue == b.queue
    && a.destination == b.destination && a.hashContract == b.hashContract && a.algorithm == b.algorithm
    && a.drainGrace == b.drainGrace && a.current == b.current && a.proposed == b.proposed
    && a.currentResources == b.currentResources && a.proposedResources == b.proposedResources && a.roles == b.roles
  }

  /** A new transition starts where the completed one ended: after a rollback in its source
      epoch with its members, otherwise in its target epoch with the members it proposed,
      and beyond the revision it ended with. */
  predicate Continues(g: GroupState, next: Spec) {
    && g.at.completed && next.id != g.spec.id
    && if g.at.rollingBack
       then next.fromEpoch == g.spec.fromEpoch && next.current == g.spec.current && next.revision > g.spec.revision + 5
       else next.fromEpoch == g.spec.toEpoch && next.current == g.spec.proposed && next.revision > g.spec.revision + 4
  }

  lemma ContinuesMeans(g: GroupState, next: Spec)
    requires g.spec.revision > 0
    ensures CanReplaceCompleted(g, next) <==> Continues(g, next)
  {
  }
}
