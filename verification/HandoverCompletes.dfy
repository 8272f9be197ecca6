/** Every validated specification can be carried through: from the ACTIVE snapshot it was
    built from there is a run of the whole system, within all deadlines, that completes
    it with every required publisher at work in the new epoch. If its COMMIT list is
    empty, a run of the same kind strands the controller: what it has saved after the
    publication of COMMIT cannot be opened again. */
module HandoverCompletes {
  import opened Control
  import opened Transition
  import opened ControllerState
  import opened ControllerSteps
  import opened ControllerRestart
  import opened ControllerProgress
  import ControllerChain
  import opened Handover
  import opened HandoverReach
  import PS = PublisherSteps

  // ------------------------------------------------------------------ observing a drain

  function MessageName(n: nat): string {
    seq(n + 1, i => 'm')
  }

  /** An empty queue as its broker reports it. */
  function EmptyQueue(s: Spec, source: Source, n: nat, at: Time): Telemetry {
    Telemetry(MessageName(n), s.namespace, s.group, s.id, s.fromEpoch, "x", Role.Broker, source.broker, source.queue,
              at,
              Count.Known(0), Count.Known(0), Count.Known(0))
  }

  /** The source was seen empty from the start to this instant. */
  predicate ReadTo(r: Readings, source: Source, start: Time, at: Time) {
    && source in r.latest && KnownZero(r.latest[source]) && r.latest[source].observedAt == at
    && source in r.zeroSince && r.zeroSince[source] == start
  }

  predicate ReadBefore(r: Readings, source: Source, start: Time, at: Time) {
    if at <= start then source !in r.latest else ReadTo(r, source, start, at - 1)
  }

  /** The first sources were read in the round at this instant, the others before. */
  predicate Round(r: Readings, s: Spec, start: Time, at: Time, n: nat, c: nat) {
    && (forall i :: 0 <= i < |RequiredSources(s)| ==>
          if i < n then ReadTo(r, RequiredSources(s)[i], start, at)
            else ReadBefore(r, RequiredSources(s)[i], start, at))
    && (forall id :: id in r.messages ==> |id| <= c)
  }

  predicate Draining(w: World, x: Point, o: Options) {
    On(w, x, o) && Forward(x.at, Drain) && x.at.drainPublished && x.entered <= w.now <= x.entered + o.phaseTimeout
  }

  lemma EmptyInScope(g: GroupState, s: Spec, i: nat, c: nat, now: Time)
    requires g.spec == s && i < |RequiredSources(s)| && Forward(g.at, Drain) && g.at.drainPublished && 0 < now
             && g.times.phaseEnteredAt <= now
    requires RequiredSources(s)[i] in g.latest ==> g.latest[RequiredSources(s)[i]].observedAt < now
    ensures var t := EmptyQueue(s, RequiredSources(s)[i], c, now);
            SampleInScope(g, t, now) && SourcesFor(s, t) == [RequiredSources(s)[i]] && KnownZero(t)
  {
    assert |MessageName(c)| == c + 1;
    hide HasTypedRequirements, IsAggregate, MessageName;
    assert RequiredSources(s)[i] in RequiredSources(s);
    hide RequiredSources;
  }

  lemma ObservedOne(g: GroupState, t: Telemetry, source: Source, freshness: nat)
    requires SourcesFor(g.spec, t) == [source] && t.messageId != "" && source == Source(t.broker, t.queue)
    ensures Observed(g, t, freshness) == ObservedAt(g, source, t, freshness).(messages := g.messages[t.messageId := t])
  {
    hide SourcesFor, KnownZero;
    var one := [source];
    assert one[..|one| - 1] == [];
    assert ObservedAll(g, one, t, freshness) == ObservedAt(g, source, t, freshness);
  }

  lemma SampleTakes(w: World, g: GroupState, t: Telemetry, o: Options)
    requires w.p.group == Some(g) && SampleInScope(g, t, w.now) && t.messageId !in g.messages && Guard(g.at, Observe(t))
    requires var h := Observed(g, t, o.telemetryFreshness); h.at == g.at && h.spec == g.spec
    ensures Take(w, Observe(t), o)
            == Some(w.(p := w.p.(group := Some(Observed(g, t, o.telemetryFreshness))), samples := w.samples + [t]))
  {
    hide SampleInScope, Observed, EvidenceReady, EvidenceOf, RecordOf;
  }

  lemma RoundNext(r: Readings, s: Spec, start: Time, at: Time, i: nat, c: nat, t: Telemetry, freshness: nat)
    requires Round(r, s, start, at, i, c) && i < |RequiredSources(s)| && NoDuplicates(RequiredSources(s)) && start <= at
             && freshness > 0
    requires t == EmptyQueue(s, RequiredSources(s)[i], c, at)
    ensures var source := RequiredSources(s)[i];
            var restarts := source !in r.latest || !KnownZero(r.latest[source])
                || at > r.latest[source].observedAt + freshness;
            var next := Readings(r.latest[source := t], if restarts then r.zeroSince[source := at]
                                 else r.zeroSince, r.messages[t.messageId := t]);
            Round(next, s, start, at, i + 1, c + 1)
  {
    var source := RequiredSources(s)[i];
    assert ReadBefore(r, source, start, at);
    hide RequiredSources;
    assert |MessageName(c)| == c + 1;
  }

  lemma GoSample(s: System, i: nat, x: Point, start: Time, c: nat, o: Options) returns (t: System)
    requires Reached(s, o) && Draining(s.w, x, o) && x.entered <= start <= s.w.now && NoDuplicates(RequiredSources(x.s))
             && ValidOptions(o)
    requires i < |RequiredSources(x.s)| && Round(ReadingsOf(s.w), x.s, start, s.w.now, i, c)
    ensures Reached(t, o) && Draining(t.w, x, o) && t.w.now == s.w.now
            && Round(ReadingsOf(t.w), x.s, start, t.w.now, i + 1, c + 1)
    ensures t.w.p.group.value.acks == s.w.p.group.value.acks
    ensures t.pubs == s.pubs && t.sent == s.sent && t.w.open == s.w.open
  {
    hide Take, Expected, RequiredSources, Reached, SampleInScope, SourcesFor, MessageName, NoDuplicates, Round,
         Observed, KnownZero;
    var g, source := s.w.p.group.value, RequiredSources(x.s)[i];
    var sample := EmptyQueue(x.s, source, c, s.w.now);
    NotYetRead(ReadingsOf(s.w), x.s, start, s.w.now, i, c);
    EmptyInScope(g, x.s, i, c, s.w.now);
    assert sample.messageId != "" && sample.messageId !in g.messages by {
      NewName(ReadingsOf(s.w), x.s, start, s.w.now, i, c);
    }
    ObservedOne(g, sample, source, o.telemetryFreshness);
    SampleTakes(s.w, g, sample, o);
    t := s.(w := Take(s.w, Observe(sample), o).value);
    RoundNext(ReadingsOf(s.w), x.s, start, s.w.now, i, c, sample, o.telemetryFreshness);
    ReachedNext(s, Control(Observe(sample)), t, o);
  }

  lemma NotYetRead(r: Readings, s: Spec, start: Time, at: Time, i: nat, c: nat)
    requires Round(r, s, start, at, i, c) && i < |RequiredSources(s)| && start <= at
    ensures RequiredSources(s)[i] in r.latest ==> r.latest[RequiredSources(s)[i]].observedAt < at
  {
    assert ReadBefore(r, RequiredSources(s)[i], start, at);
    hide RequiredSources;
  }

  lemma NewName(r: Readings, s: Spec, start: Time, at: Time, n: nat, c: nat)
    requires Round(r, s, start, at, n, c)
    ensures MessageName(c) != "" && MessageName(c) !in r.messages
  {
    hide RequiredSources, ReadTo, ReadBefore;
    assert |MessageName(c)| == c + 1;
  }

  /** Every source reports once. */
  lemma {:induction false} GoRound(s: System, n: nat, x: Point, start: Time, c: nat, o: Options) returns (t: System)
    requires Reached(s, o) && Draining(s.w, x, o) && x.entered <= start <= s.w.now && NoDuplicates(RequiredSources(x.s))
             && ValidOptions(o)
    requires n <= |RequiredSources(x.s)| && Round(ReadingsOf(s.w), x.s, start, s.w.now, 0, c)
    ensures Reached(t, o) && Draining(t.w, x, o) && t.w.now == s.w.now
            && Round(ReadingsOf(t.w), x.s, start, t.w.now, n, c + n)
    ensures t.w.p.group.value.acks == s.w.p.group.value.acks
    ensures t.pubs == s.pubs && t.sent == s.sent && t.w.open == s.w.open
  {
    hide Reached, Round, NoDuplicates, On;
    if n == 0 {
      t := s;
    } else {
      var u := GoRound(s, n - 1, x, start, c, o);
      t := GoSample(u, n - 1, x, start, c + n - 1, o);
    }
  }

  lemma GoTick(s: System, x: Point, start: Time, c: nat, o: Options) returns (t: System)
    requires Reached(s, o) && Draining(s.w, x, o) && s.w.now < x.entered + o.phaseTimeout && start <= s.w.now
    requires Round(ReadingsOf(s.w), x.s, start, s.w.now, |RequiredSources(x.s)|, c)
    ensures Reached(t, o) && Draining(t.w, x, o) && t.w.now == s.w.now + 1
            && Round(ReadingsOf(t.w), x.s, start, t.w.now, 0, c)
    ensures t.w.p.group.value.acks == s.w.p.group.value.acks
    ensures t.pubs == s.pubs && t.sent == s.sent && t.w.open == s.w.open
  {
    hide RequiredSources, Reached, Expected, KnownZero;
    t := s.(w := s.w.(now := s.w.now + 1));
    ReachedNext(s, Control(Tick(s.w.now + 1)), t, o);
  }

  /** Every source is seen empty for as long as asked. */
  lemma {:induction false} GoRounds(s: System, k: nat, x: Point, start: Time, o: Options) returns (t: System, c: nat)
    requires Reached(s, o) && Draining(s.w, x, o) && x.entered == start == s.w.now && NoDuplicates(RequiredSources(x.s))
             && ValidOptions(o)
    requires k <= o.phaseTimeout && Round(ReadingsOf(s.w), x.s, start, start, 0, 0)
    ensures Reached(t, o) && Draining(t.w, x, o) && t.w.now == start + k
            && Round(ReadingsOf(t.w), x.s, start, t.w.now, |RequiredSources(x.s)|, c)
    ensures t.w.p.group.value.acks == s.w.p.group.value.acks
    ensures t.pubs == s.pubs && t.sent == s.sent && t.w.open == s.w.open
  {
    hide Reached, Round, NoDuplicates, RequiredSources, On;
    if k == 0 {
      t := GoRound(s, |RequiredSources(x.s)|, x, start, 0, o);
      c := |RequiredSources(x.s)|;
    } else {
      var u, d := GoRounds(s, k - 1, x, start, o);
      var v := GoTick(u, x, start, d, o);
      t := GoRound(v, |RequiredSources(x.s)|, x, start, d, o);
      c := d + |RequiredSources(x.s)|;
    }
  }

  lemma RoundsDrain(w: World, x: Point, start: Time, c: nat, o: Options)
    requires Draining(w, x, o) && Round(ReadingsOf(w), x.s, start, w.now, |RequiredSources(x.s)|, c)
             && x.entered == start && ValidOptions(o)
    requires RequiredSources(x.s) != [] && w.now >= start + x.s.drainGrace
    ensures DrainComplete(w.p.group.value, w.now, o.telemetryFreshness)
  {
    hide Expected, KnownZero, LatestZero, EarliestObserved;
    var g, sources := w.p.group.value, RequiredSources(x.s);
    assert forall i :: 0 <= i < |sources| ==> ReadTo(ReadingsOf(w), sources[i], start, w.now);
    hide RequiredSources;
    assert LatestZero(g, sources, start) == start;
    assert EarliestObserved(g, sources) == w.now;
  }

  // ------------------------------------------------------------------ the transition

  /** What a transition starts from: a validated specification built from the retained
      ACTIVE snapshot, whose grace period fits into a phase. */
  predicate Launches(s: Spec, first: Snapshot, o: Options) {
    && ValidSpec(s) && s.drainGrace > 0 && ValidOptions(o) && s.drainGrace <= o.phaseTimeout
    && Valid(first) && BuiltFrom(s, first)
  }

  function PublishersOf(s: Spec): set<string> {
    set i | 0 <= i < |RequirementsFor(s, Pause)|
        && RequirementsFor(s, Pause)[i].role == Role.Publisher :: RequirementsFor(s, Pause)[i].participant
  }

  const UNUSED := PS.Publisher(None, 0, map[], None, map[], None, PS.Idle)

  /** A group that has never moved, with the publishers that the specification names. */
  function Unmoved(s: Spec, first: Snapshot): System {
    System(World(Persistent(None, Some(first), [], []), Queues(first.currentResources), [first], [], {}, 1),
           map who | who in PublishersOf(s) :: UNUSED, {})
  }

  function ForwardAt(s: Spec, phase: Phase): Snapshot {
    ControlSnapshot(s, phase, false)
  }

  lemma RevisionsRise(s: Spec, first: Snapshot, o: Options)
    requires Launches(s, first, o)
    ensures ForwardAt(s, Prepare).revision > first.revision && ForwardAt(s, Prepare).epoch >= first.epoch
    ensures ForwardAt(s, Pause).revision > ForwardAt(s, Prepare).revision
            && ForwardAt(s, Pause).epoch >= ForwardAt(s, Prepare).epoch
    ensures ForwardAt(s, Drain).revision > ForwardAt(s, Pause).revision
            && ForwardAt(s, Drain).epoch >= ForwardAt(s, Pause).epoch
    ensures ForwardAt(s, Commit).revision > ForwardAt(s, Drain).revision
            && ForwardAt(s, Commit).epoch >= ForwardAt(s, Drain).epoch
    ensures ForwardAt(s, Activate).revision > ForwardAt(s, Commit).revision
            && ForwardAt(s, Activate).epoch >= ForwardAt(s, Commit).epoch
    ensures PS.IsPause(ForwardAt(s, Pause), s.id) && ForwardAt(s, Activate).phase == ACTIVE
            && ForwardAt(s, Activate).epoch == s.toEpoch
  {
    hide Valid, ValidMembers, ValidRequirements;
  }

  lemma Required(s: Spec, phase: Phase)
    requires ValidSpec(s)
    ensures ValidRequirements(phase, RequirementsFor(s, phase))
    ensures phase != Commit ==> RequirementsFor(s, phase) != []
  {
    hide Valid, ValidMembers;
  }

  const PREPARED := Progress(Prepare, true, false, false, false, false, false, false, false, false, false, false, false,
                             false)
  const PAUSING := Progress(Pause, true, false, false, false, false, false, false, false, false, false, false, false,
                            false)
  const PAUSED_ALL := Progress(Pause, true, true, false, false, false, false, false, false, false, false, false, false,
                               false)
  const ATTEMPTED := Progress(Pause, true, true, true, false, false, false, false, false, false, false, false, false,
                              false)
  const FENCED := Progress(Pause, true, true, true, true, false, false, false, false, false, false, false, false, false)
  const DRAINING := Progress(Drain, true, true, true, true, false, false, false, false, false, false, false, false,
                             false)
  const DRAINED := Progress(Drain, true, true, true, true, true, false, false, false, false, false, false, false, false)
  const COMMITTING := Progress(Commit, true, true, true, true, true, false, false, false, false, false, false, false,
                               false)
  const COMMITTED_ALL := Progress(Commit, true, true, true, true, true, true, false, false, false, false, false, false,
                                  false)
  const ACTIVATING := Progress(Activate, true, true, true, true, true, true, false, false, false, false, false, false,
                               false)
  const ENABLED := Progress(Activate, true, true, true, true, true, true, true, false, false, false, false, false,
                            false)
  const VERIFIED := Progress(Activate, true, true, true, true, true, true, true, true, false, false, false, false,
                             false)
  const ACTIVATED := Progress(Activate, true, true, true, true, true, true, true, true, true, false, false, false,
                              false)
  const FINISHED := Progress(Activate, true, true, true, true, true, true, true, true, true, false, false, false, true)

  predicate StandsAt(t: System, x: Point, now: Time, o: Options) {
    On(t.w, x, o) && t.w.now == now
  }

  lemma GoBegin(s: Spec, first: Snapshot, o: Options) returns (t: System)
    requires Launches(s, first, o)
    ensures Reached(t, o) && StandsAt(t, Point(s, NOT_STARTED, {}, first, 1), 1, o)
    ensures ReadingsOf(t.w) == Readings(map[], map[], map[])
    ensures t.pubs == Unmoved(s, first).pubs && t.sent == {}
  {
    hide Valid, ValidSpec, Expected, PublishersOf;
    var start := Unmoved(s, first);
    assert Starting(start);
    ReachedStart(start, o);
    hide Reached, Starting;
    t := start.(w := After(start.w, Begin(s), o));
    ReachedNext(start, Control(Begin(s)), t, o);
  }

  /** PREPARE, PAUSE or DRAIN is announced. */
  lemma Announces(s: System, phase: Phase, x: Point, o: Options) returns (t: System)
    requires Reached(s, o) && On(s.w, x, o) && !x.at.completed && Guard(x.at, RecordPublished(phase))
             && phase !in x.issued && ValidSpec(x.s)
    requires ForwardAt(x.s, phase).revision > x.m.revision && ForwardAt(x.s, phase).epoch >= x.m.epoch
             && s.w.now <= x.entered + o.phaseTimeout
    ensures Reached(t, o) && On(t.w,
                                Point(x.s, MarkPublished(x.at, phase), x.issued + {phase}, ForwardAt(x.s, phase),
                                      x.entered), o)
    ensures Beside(s.w, t.w) && t.pubs == s.pubs && t.sent == s.sent && t.w.open == s.w.open
  {
    hide Reached, On, ControlSnapshot, ValidSpec, MarkPublished, Guard, Justified, CommandsIssued, ValidRequirements;
    Required(x.s, phase);
    AnnounceGuards(x.at, phase);
    var a := GoIntent(s, phase, x, o);
    var y := x.(issued := x.issued + {phase});
    var b := GoRetain(a, phase, y, o);
    var z := y.(m := ForwardAt(x.s, phase));
    WasIssued(b.w, z, phase, o);
    PublishedJustified(b.w, z, phase, o);
    HasGroup(b.w, z, o);
    t := Go(b, RecordPublished(phase), z, o);
  }

  lemma PublishedJustified(w: World, x: Point, phase: Phase, o: Options)
    requires On(w, x, o) && x.m == ForwardAt(x.s, phase) && CommandsIssued(w.p.group.value, phase)
    ensures Justified(w, w.p.group.value, RecordPublished(phase), o)
  {
    hide Expected, CommandsIssued, ControlSnapshot;
  }

  lemma AnsweredAll(w: World, x: Point, phase: Phase, o: Options)
    requires On(w, x, o) && AckedUpTo(w, phase, |RequirementsFor(x.s, phase)|)
    ensures AllAcknowledged(w.p.group.value, phase)
  {
    hide Expected;
  }

  lemma GoPrepare(s: Spec, first: Snapshot, o: Options) returns (t: System)
    requires Launches(s, first, o)
    ensures Reached(t, o) && StandsAt(t, Point(s, PAUSING, {Prepare}, ForwardAt(s, Prepare), 1), 1, o)
    ensures ReadingsOf(t.w) == Readings(map[], map[], map[])
    ensures t.pubs == Unmoved(s, first).pubs && t.sent == {}
  {
    hide Reached, On, ControlSnapshot, ValidSpec, Valid, BuiltFrom, PublishersOf, ValidRequirements;
    RevisionsRise(s, first, o);
    Required(s, Prepare);
    var a := GoBegin(s, first, o);
    var b := Announces(a, Prepare, Point(s, NOT_STARTED, {}, first, 1), o);
    var x := Point(s, PREPARED, {Prepare}, ForwardAt(s, Prepare), 1);
    assert Point(s, NOT_STARTED, {}, first, 1).issued + {Prepare} == {Prepare};
    var c := GoAnswers(b, Prepare, |RequirementsFor(s, Prepare)|, x, o);
    AnsweredAll(c.w, x, Prepare, o);
    t := Go(c, EnterPause, x, o);
  }

  lemma GoQuiet(s: Spec, first: Snapshot, o: Options) returns (t: System)
    requires Launches(s, first, o)
    ensures Reached(t, o) && StandsAt(t, Point(s, PAUSED_ALL, {Prepare, Pause}, ForwardAt(s, Pause), 1), 1, o)
    ensures ReadingsOf(t.w) == Readings(map[], map[], map[])
    ensures t.pubs.Keys == PublishersOf(s) && forall who :: who in t.pubs ==>
              Rests(t.pubs[who], ForwardAt(s, Pause)) && Confirmation(who, s.id) in t.sent
  {
    hide Reached, On, ControlSnapshot, ValidSpec, Valid, BuiltFrom, PublishersOf, PS.IsPause, Rests;
    RevisionsRise(s, first, o);
    var a := GoPrepare(s, first, o);
    var b := Announces(a, Pause, Point(s, PAUSING, {Prepare}, ForwardAt(s, Prepare), 1), o);
    var x := Point(s, PAUSED_ALL, {Prepare, Pause}, ForwardAt(s, Pause), 1);
    assert {Prepare} + {Pause} == {Prepare, Pause};
    OffersPause(b, x, o);
    UnusedFresh();
    t := GoPauses(b, b.pubs.Keys, ForwardAt(s, Pause), s.id, o);
  }

  lemma UnusedFresh()
    ensures Fresh(UNUSED)
  {
  }

  lemma OffersPause(t: System, x: Point, o: Options)
    requires Reached(t, o) && On(t.w, x, o) && (Rank(x.at.phase) < 4 ==> t.w.now <= x.entered + o.phaseTimeout)
    ensures x.m in t.w.log && OnTime(t.w)
  {
    hide Reached, Expected;
    Retains(t, o);
  }

  lemma PauseGuards()
    ensures Guard(PAUSED_ALL, RecordFenceAttempt)
    ensures Guard(ATTEMPTED, FenceEffect({})) && Guard(ATTEMPTED, RecordFenced)
    ensures Guard(FENCED, EnterDrain)
  {
  }

  lemma PauseJustified(w: World, g: GroupState, o: Options)
    ensures AllAcknowledged(g, Pause) ==> Justified(w, g, RecordFenceAttempt, o) && Justified(w, g, EnterDrain, o)
    ensures w.open !! Queues(g.spec.currentResources) ==> Justified(w, g, RecordFenced, o)
  {
    hide AllAcknowledged, Queues;
  }

  lemma GoAttempted(s: Spec, first: Snapshot, o: Options) returns (t: System)
    requires Launches(s, first, o)
    ensures Reached(t, o) && StandsAt(t, Point(s, ATTEMPTED, {Prepare, Pause}, ForwardAt(s, Pause), 1), 1, o)
    ensures ReadingsOf(t.w) == Readings(map[], map[], map[]) && AllAcknowledged(t.w.p.group.value, Pause)
    ensures t.pubs.Keys == PublishersOf(s) && forall who :: who in t.pubs ==>
              Rests(t.pubs[who], ForwardAt(s, Pause)) && Confirmation(who, s.id) in t.sent
  {
    hide Reached, On, ControlSnapshot, ValidSpec, Valid, BuiltFrom, PublishersOf, Rests, ValidRequirements, Guard,
         Justified, AllAcknowledged;
    Required(s, Pause);
    PauseGuards();
    var a := GoQuiet(s, first, o);
    var x := Point(s, PAUSED_ALL, {Prepare, Pause}, ForwardAt(s, Pause), 1);
    var b := GoAnswers(a, Pause, |RequirementsFor(s, Pause)|, x, o);
    HasGroup(b.w, x, o);
    AnsweredAll(b.w, x, Pause, o);
    PauseJustified(b.w, b.w.p.group.value, o);
    t := Go(b, RecordFenceAttempt, x, o);
    StillAnswered(b.w, t.w, x, x.(at := ATTEMPTED), Pause, o);
  }

  lemma GoFenced(s: Spec, first: Snapshot, o: Options) returns (t: System)
    requires Launches(s, first, o)
    ensures Reached(t, o) && StandsAt(t, Point(s, DRAINING, {Prepare, Pause}, ForwardAt(s, Pause), 1), 1, o)
    ensures ReadingsOf(t.w) == Readings(map[], map[], map[])
    ensures t.pubs.Keys == PublishersOf(s) && forall who :: who in t.pubs ==>
              Rests(t.pubs[who], ForwardAt(s, Pause)) && Confirmation(who, s.id) in t.sent
  {
    hide Reached, On, ControlSnapshot, ValidSpec, Valid, BuiltFrom, PublishersOf, Rests, Queues, Guard, Justified,
         AllAcknowledged;
    PauseGuards();
    var c := GoAttempted(s, first, o);
    var y := Point(s, ATTEMPTED, {Prepare, Pause}, ForwardAt(s, Pause), 1);
    var d := GoFence(c, y, o);
    StillAnswered(c.w, d.w, y, y, Pause, o);
    HasGroup(d.w, y, o);
    PauseJustified(d.w, d.w.p.group.value, o);
    var e := Go(d, RecordFenced, y, o);
    var z := y.(at := FENCED);
    StillAnswered(d.w, e.w, y, z, Pause, o);
    HasGroup(e.w, z, o);
    PauseJustified(e.w, e.w.p.group.value, o);
    t := Go(e, EnterDrain, z, o);
  }

  lemma StillAnswered(w: World, h: World, x: Point, y: Point, phase: Phase, o: Options)
    requires On(w, x, o) && On(h, y, o) && x.s == y.s && Beside(w, h) && AllAcknowledged(w.p.group.value, phase)
    ensures AllAcknowledged(h.p.group.value, phase)
  {
    hide Expected;
  }

  lemma GoEmptied(s: Spec, first: Snapshot, o: Options) returns (t: System)
    requires Launches(s, first, o)
    ensures Reached(t, o) && StandsAt(t, Point(s, DRAINED, {Prepare, Pause, Drain}, ForwardAt(s, Drain), 1),
                                      1 + s.drainGrace, o)
    ensures DrainComplete(t.w.p.group.value, t.w.now, o.telemetryFreshness) && Unanswered(t.w, Drain)
    ensures t.pubs.Keys == PublishersOf(s) && forall who :: who in t.pubs ==> Rests(t.pubs[who], ForwardAt(s, Pause))
  {
    hide Reached, On, ControlSnapshot, ValidSpec, Valid, BuiltFrom, PublishersOf, Rests, RequiredSources, Round,
         DrainComplete;
    RevisionsRise(s, first, o);
    SourcesExact(s);
    SourcesThere(s);
    var a := GoFenced(s, first, o);
    NotAsked(a, Point(s, DRAINING, {Prepare, Pause}, ForwardAt(s, Pause), 1), Drain, o);
    var b := Announces(a, Drain, Point(s, DRAINING, {Prepare, Pause}, ForwardAt(s, Pause), 1), o);
    var x := Point(s, DRAINED, {Prepare, Pause, Drain}, ForwardAt(s, Drain), 1);
    assert {Prepare, Pause} + {Drain} == x.issued;
    HasGroup(b.w, x, o);
    NothingRead(b.w, s);
    var c, count := GoRounds(b, s.drainGrace, x, 1, o);
    HasGroup(c.w, x, o);
    RoundsDrain(c.w, x, 1, count, o);
    t := c;
  }

  predicate Unanswered(w: World, phase: Phase) {
    w.p.group.Some? && forall k :: k in w.p.group.value.acks ==> k.phase != phase
  }

  /** Nobody answers a command that was not issued. */
  lemma NotAsked(t: System, x: Point, phase: Phase, o: Options)
    requires Reached(t, o) && On(t.w, x, o) && phase !in x.issued
    ensures Unanswered(t.w, phase)
  {
    hide Reached, Expected, ProgressInv, TimesInv, TelemetryInv, RequirementOf, LogIds, PauseAcked, PubsOk, SentOk,
         AckedClear;
    hide DocumentInv, ControllerChain.ChainInv, PhasePublished;
    ReachedOk(t, o);
  }

  /** Answers of this instant are fresh. */
  lemma AnsweredFresh(w: World, x: Point, o: Options)
    requires On(w, x, o) && x.entered <= w.now && AllAcknowledged(w.p.group.value, Drain) && AnsweredNow(w, Drain)
    ensures ReadinessFresh(w.p.group.value, w.now, o.readinessFreshness)
  {
    hide Expected, HasTypedRequirements;
  }

  lemma SourcesThere(s: Spec)
    requires s.currentResources != []
    ensures RequiredSources(s) != []
  {
  }

  lemma GoDrained(s: Spec, first: Snapshot, o: Options) returns (t: System)
    requires Launches(s, first, o)
    ensures Reached(t, o) && StandsAt(t,
                                      Point(s, COMMITTING, {Prepare, Pause, Drain}, ForwardAt(s, Drain),
                                            1 + s.drainGrace), 1 + s.drainGrace, o)
    ensures t.pubs.Keys == PublishersOf(s) && forall who :: who in t.pubs ==> Rests(t.pubs[who], ForwardAt(s, Pause))
  {
    hide Reached, On, ControlSnapshot, ValidSpec, Valid, BuiltFrom, PublishersOf, Rests, ValidRequirements,
         DrainComplete, AllAcknowledged, ReadinessFresh;
    Required(s, Drain);
    var c := GoEmptied(s, first, o);
    var x := Point(s, DRAINED, {Prepare, Pause, Drain}, ForwardAt(s, Drain), 1);
    HasGroup(c.w, x, o);
    var d := GoAnswers(c, Drain, |RequirementsFor(s, Drain)|, x, o);
    HasGroup(d.w, x, o);
    AnsweredAll(d.w, x, Drain, o);
    AnsweredFresh(d.w, x, o);
    SameReadingsDrain(c.w, d.w, x, o);
    t := Go(d, EnterCommit(d.w.now, d.w.now, d.w.now), x, o);
  }

  lemma NothingRead(w: World, s: Spec)
    requires w.p.group.Some? && ReadingsOf(w) == Readings(map[], map[], map[])
    ensures Round(ReadingsOf(w), s, 1, 1, 0, 0)
  {
    hide RequiredSources;
  }

  lemma SameReadingsDrain(w: World, h: World, x: Point, o: Options)
    requires On(w, x, o) && On(h, x, o) && ReadingsOf(w) == ReadingsOf(h) && h.now == w.now
             && DrainComplete(w.p.group.value, w.now, o.telemetryFreshness)
    ensures DrainComplete(h.p.group.value, h.now, o.telemetryFreshness)
  {
    hide Expected, DrainComplete;
    SameDrain(w.p.group.value, h.p.group.value, w.now, o.telemetryFreshness);
  }

  lemma GoCommitted(s: Spec, first: Snapshot, o: Options) returns (t: System)
    requires Launches(s, first, o)
    ensures Reached(t, o) && StandsAt(t,
                                      Point(s, COMMITTED_ALL, {Prepare, Pause, Drain}, ForwardAt(s, Commit),
                                            1 + s.drainGrace), 1 + s.drainGrace, o)
    ensures t.pubs.Keys == PublishersOf(s) && forall who :: who in t.pubs ==> Rests(t.pubs[who], ForwardAt(s, Pause))
  {
    hide Reached, On, ControlSnapshot, ValidSpec, Valid, BuiltFrom, PublishersOf, Rests;
    RevisionsRise(s, first, o);
    var a := GoDrained(s, first, o);
    var x := Point(s, COMMITTING, {Prepare, Pause, Drain}, ForwardAt(s, Drain), 1 + s.drainGrace);
    var b := GoRetain(a, Commit, x, o);
    var y := x.(m := ForwardAt(s, Commit));
    CommitJustified(b.w, y, o);
    HasGroup(b.w, y, o);
    hide Justified;
    t := Go(b, RecordCommitPublished(b.w.now, b.w.now), y, o);
  }

  lemma CommitJustified(w: World, x: Point, o: Options)
    requires On(w, x, o) && x.m == ForwardAt(x.s, Commit) && ValidOptions(o)
    ensures Justified(w, w.p.group.value, RecordCommitPublished(w.now, w.now), o)
  {
    hide Expected, ControlSnapshot;
  }

  lemma ActivateGuards(a: Time, b: Time)
    ensures Guard(COMMITTED_ALL, EnterActivate) && Guard(ACTIVATING, EnableEffect({}))
            && Guard(ACTIVATING, RecordEnabled)
    ensures Guard(ENABLED, RecordVerified(a, b))
    ensures Guard(ACTIVATED, Complete)
  {
  }

  lemma ActivateJustified(w: World, g: GroupState, o: Options)
    ensures Justified(w, g, EnterActivate, o)
    ensures Queues(g.spec.proposedResources) <= w.open ==> Justified(w, g, RecordEnabled, o)
    ensures w.now > 0 && ValidOptions(o) ==> Justified(w, g, RecordVerified(w.now, w.now), o)
    ensures AllAcknowledged(g, Activate) ==> Justified(w, g, Complete, o)
  {
    hide AllAcknowledged, Queues;
  }

  lemma GoEnabled(s: Spec, first: Snapshot, o: Options) returns (t: System)
    requires Launches(s, first, o)
    ensures Reached(t, o)
    ensures StandsAt(t, Point(s, ENABLED, {Prepare, Pause, Drain}, ForwardAt(s, Commit), 1 + s.drainGrace),
                     1 + s.drainGrace, o)
    ensures t.pubs.Keys == PublishersOf(s) && forall who :: who in t.pubs ==> Rests(t.pubs[who], ForwardAt(s, Pause))
  {
    hide Reached, On, ControlSnapshot, ValidSpec, Valid, BuiltFrom, PublishersOf, Rests, Queues, Guard, Justified;
    ActivateGuards(0, 0);
    var a := GoCommitted(s, first, o);
    var x := Point(s, COMMITTED_ALL, {Prepare, Pause, Drain}, ForwardAt(s, Commit), 1 + s.drainGrace);
    HasGroup(a.w, x, o);
    ActivateJustified(a.w, a.w.p.group.value, o);
    var b := Go(a, EnterActivate, x, o);
    var y := x.(at := ACTIVATING);
    var c := GoEnable(b, y, o);
    HasGroup(c.w, y, o);
    ActivateJustified(c.w, c.w.p.group.value, o);
    t := Go(c, RecordEnabled, y, o);
  }

  lemma GoVerified(s: Spec, first: Snapshot, o: Options) returns (t: System)
    requires Launches(s, first, o)
    ensures Reached(t, o) && StandsAt(t,
                                      Point(s, VERIFIED, {Prepare, Pause, Drain}, ForwardAt(s, Commit),
                                            1 + s.drainGrace), 1 + s.drainGrace, o)
    ensures t.pubs.Keys == PublishersOf(s) && forall who :: who in t.pubs ==> Rests(t.pubs[who], ForwardAt(s, Pause))
  {
    hide Reached, On, ControlSnapshot, ValidSpec, Valid, BuiltFrom, PublishersOf, Rests, Guard, Justified;
    var d := GoEnabled(s, first, o);
    var z := Point(s, ENABLED, {Prepare, Pause, Drain}, ForwardAt(s, Commit), 1 + s.drainGrace);
    HasGroup(d.w, z, o);
    NowPositive(d.w, z, o);
    ActivateGuards(d.w.now, d.w.now);
    ActivateJustified(d.w, d.w.p.group.value, o);
    t := Go(d, RecordVerified(d.w.now, d.w.now), z, o);
  }

  lemma NowPositive(w: World, x: Point, o: Options)
    requires On(w, x, o)
    ensures w.now > 0
  {
    hide Expected;
  }

  lemma GoActivated(s: Spec, first: Snapshot, o: Options) returns (t: System)
    requires Launches(s, first, o)
    ensures Reached(t, o) && StandsAt(t,
                                      Point(s, ACTIVATED, {Prepare, Pause, Drain, Activate}, ForwardAt(s, Activate),
                                            1 + s.drainGrace), 1 + s.drainGrace, o)
    ensures t.pubs.Keys == PublishersOf(s) && forall who :: who in t.pubs ==> Works(t.pubs[who], ForwardAt(s, Activate))
  {
    hide Reached, On, ControlSnapshot, ValidSpec, Valid, BuiltFrom, PublishersOf, Rests, Works, Justified, Guard,
         ValidRequirements, PS.IsPause, CommandsIssued;
    RevisionsRise(s, first, o);
    Required(s, Activate);
    MayActivate();
    var a := GoVerified(s, first, o);
    var x := Point(s, VERIFIED, {Prepare, Pause, Drain}, ForwardAt(s, Commit), 1 + s.drainGrace);
    var b := GoIntent(a, Activate, x, o);
    var y := x.(issued := {Prepare, Pause, Drain, Activate});
    assert x.issued + {Activate} == y.issued;
    var c := GoRetain(b, Activate, y, o);
    var z := y.(m := ForwardAt(s, Activate));
    WasIssued(c.w, z, Activate, o);
    ActiveJustified(c.w, z, o);
    HasGroup(c.w, z, o);
    var d := Go(c, RecordActivatePublished(c.w.now, c.w.now), z, o);
    OffersPause(d, z.(at := ACTIVATED), o);
    t := GoWorks(d, d.pubs.Keys, ForwardAt(s, Pause), ForwardAt(s, Activate), o);
  }

  lemma MayActivate()
    ensures Guard(VERIFIED, RecordIntent(Activate)) && Guard(VERIFIED, Retain(Activate, false))
    ensures forall a, b :: Guard(VERIFIED, RecordActivatePublished(a, b))
  {
  }

  lemma ActiveJustified(w: World, x: Point, o: Options)
    requires On(w, x, o) && x.m == ForwardAt(x.s, Activate) && ValidOptions(o)
             && CommandsIssued(w.p.group.value, Activate)
    ensures Justified(w, w.p.group.value, RecordActivatePublished(w.now, w.now), o)
  {
    hide Expected, ControlSnapshot, CommandsIssued;
  }

  lemma GoFinished(s: Spec, first: Snapshot, o: Options) returns (t: System)
    requires Launches(s, first, o)
    ensures Reached(t, o) && StandsAt(t,
                                      Point(s, FINISHED, {Prepare, Pause, Drain, Activate}, ForwardAt(s, Activate),
                                            1 + s.drainGrace), 1 + s.drainGrace, o)
    ensures t.pubs.Keys == PublishersOf(s) && forall who :: who in t.pubs ==> Works(t.pubs[who], ForwardAt(s, Activate))
  {
    hide Reached, On, ControlSnapshot, ValidSpec, Valid, BuiltFrom, PublishersOf, Works, ValidRequirements, Guard,
         Justified, AllAcknowledged;
    Required(s, Activate);
    ActivateGuards(0, 0);
    var a := GoActivated(s, first, o);
    var x := Point(s, ACTIVATED, {Prepare, Pause, Drain, Activate}, ForwardAt(s, Activate), 1 + s.drainGrace);
    var b := GoAnswers(a, Activate, |RequirementsFor(s, Activate)|, x, o);
    AnsweredAll(b.w, x, Activate, o);
    HasGroup(b.w, x, o);
    ActivateJustified(b.w, b.w.p.group.value, o);
    t := Go(b, Complete, x, o);
  }

  // -------------------------------------------------------------------- the results

  /** The transition completed forward, and every required publisher has an attempt of the
      new epoch. */
  ghost predicate HandedTo(t: System, s: Spec) {
    && t.w.p.group.Some? && t.w.p.group.value.spec == s && t.w.p.group.value.at.completed
    && !t.w.p.group.value.at.rollingBack
    && forall who :: RequiredPublisher(s, who) ==>
         who in t.pubs && exists id :: id in t.pubs[who].unsettled && t.pubs[who].unsettled[id].epoch == s.toEpoch
  }

  lemma RequiredIsListed(s: Spec, who: string)
    requires RequiredPublisher(s, who)
    ensures who in PublishersOf(s)
  {
    var r := Requirement(who, Role.Publisher);
    var i :| 0 <= i < |RequirementsFor(s, Pause)| && RequirementsFor(s, Pause)[i] == r;
    assert RequirementsFor(s, Pause)[i].role == Role.Publisher;
  }

  lemma FinishedHands(t: System, x: Point, o: Options)
    requires On(t.w, x, o) && x.at == FINISHED && ForwardAt(x.s, Activate).epoch == x.s.toEpoch
    requires t.pubs.Keys == PublishersOf(x.s) && forall who :: who in t.pubs ==>
               Works(t.pubs[who], ForwardAt(x.s, Activate))
    ensures HandedTo(t, x.s)
  {
    hide Expected, ControlSnapshot, PublishersOf, RequiredPublisher;
    forall who | RequiredPublisher(x.s, who)
      ensures who in t.pubs
              && exists id :: id in t.pubs[who].unsettled && t.pubs[who].unsettled[id].epoch == x.s.toEpoch
    {
      RequiredIsListed(x.s, who);
      var id :| id in t.pubs[who].unsettled
          && t.pubs[who].unsettled[id] == PS.Attempt(ForwardAt(x.s, Activate).epoch, ForwardAt(x.s, Activate).revision);
    }
  }

  /** Some run ends with the transition handed over. */
  ghost predicate CanHandOver(s: Spec, o: Options) {
    exists run: seq<System>, moves: seq<Move> :: IsTimelyRun(run, moves, o) && |run| == |moves| + 1
            && HandedTo(run[|moves|], s)
  }

  ghost predicate CanHandOverPromptly(s: Spec, o: Options) {
    exists run: seq<System>, moves: seq<Move> :: IsPromptRun(run, moves, o) && |run| == |moves| + 1
            && HandedTo(run[|moves|], s)
  }

  /** Every specification that validates, and whose grace period fits into a phase, can be
      completed in time and with fresh readiness, with all its publishers at work in the
      new epoch. */
  lemma EverySpecCompletes(s: Spec, first: Snapshot, o: Options)
    requires Launches(s, first, o)
    ensures CanHandOverPromptly(s, o)
  {
    RevisionsRise(s, first, o);
    hide Launches, IsPromptRun, HandedTo, On, Works, PublishersOf, ControlSnapshot, PS.IsPause;
    var t := GoFinished(s, first, o);
    FinishedHands(t, Point(s, FINISHED, {Prepare, Pause, Drain, Activate}, ForwardAt(s, Activate), 1 + s.drainGrace),
                  o);
    var run: seq<System>, moves: seq<Move> :| EndsIn(run, moves, o, t);
  }

  // -------------------------------------------------------- the grace has to fit

  /** Deadlines are set on entering a phase, and COMMIT is reached only with a grace period
      that fits. */
  predicate InTime(w: World, o: Options) {
    w.p.group.Some? ==>
      && (!w.p.group.value.at.completed ==>
          w.p.group.value.times.phaseDeadline == w.p.group.value.times.phaseEnteredAt + o.phaseTimeout)
      && (Rank(w.p.group.value.at.phase) >= 4 ==> w.p.group.value.spec.drainGrace <= o.phaseTimeout)
  }

  lemma GraceNeeded(g: GroupState, drainedAt: Time, freshness: nat)
    requires DrainComplete(g, drainedAt, freshness) && g.times.phaseEnteredAt > 0
    ensures g.times.phaseEnteredAt + g.spec.drainGrace <= drainedAt
  {
    hide RequiredSources, KnownZero, LatestZero, EarliestObserved;
    var sources := RequiredSources(g.spec);
    if sources == [] {
      NoSources(g);
    } else {
      assert SourceDrained(g, sources[0], drainedAt, freshness);
    }
  }

  lemma NoSources(g: GroupState)
    ensures EarliestObserved(g, []) == 0
  {
  }

  /** Every way into COMMIT is through a completed drain, in time. */
  lemma CommitInTime(w: World, step: Step, o: Options)
    requires Inv(w) && InTime(w, o) && OnTime(w) && MovesGroup(step) && Enabled(w, step, o)
    requires Rank(ProgressAfter(w.p.group.value.at, step).phase) >= 4
    ensures w.p.group.value.spec.drainGrace <= o.phaseTimeout
  {
    hide MessageInv, TelemetryInv, ProgressInv, DrainComplete, AllAcknowledged;
    var g := w.p.group.value;
    PhaseAfter(g.at, step);
    hide ProgressAfter;
    if step.EnterCommit? {
      GraceNeeded(g, step.drainedAt, o.telemetryFreshness);
    }
  }

  lemma InTimeKept(w: World, step: Step, h: World, o: Options)
    requires Inv(w) && InTime(w, o) && OnTime(w) && Take(w, step, o) == Some(h)
    ensures InTime(h, o)
  {
    hide Inv, Enabled, OnTime, ProgressAfter;
    TakeIs(w, step, h, o);
    if step.Begin? {
      BeginsInPrepare(w, step, h, o);
      BegunTimes(w, step, h, o);
    } else if w.p.group.None? {
      ControllerChain.NoGroupStays(w, step, h, o);
    } else if MovesGroup(step) {
      FlagInTime(w, step, h, o);
    } else {
      OthersInTime(w, step, h, o);
    }
  }

  lemma BegunTimes(w: World, step: Step, h: World, o: Options)
    requires step.Begin? && Take(w, step, o) == Some(h)
    ensures h.p.group.Some? && h.p.group.value.times.phaseDeadline == h.p.group.value.times.phaseEnteredAt
              + o.phaseTimeout
  {
    hide MayBegin;
  }

  lemma FlagInTime(w: World, step: Step, h: World, o: Options)
    requires Inv(w) && InTime(w, o) && OnTime(w) && w.p.group.Some? && MovesGroup(step) && Take(w, step, o) == Some(h)
             && h == After(w, step, o)
    ensures InTime(h, o)
  {
    hide Inv, OnTime, ProgressAfter, TimesAfter, After, Progresses;
    StepProgress(w, step, h, o);
    FlaggedWorld(w, step, o);
    FlaggedTimes(w.p.group.value.times, step, w.now, o.phaseTimeout);
    assert Enabled(w, step, o);
    hide Enabled;
    if Rank(h.p.group.value.at.phase) >= 4 {
      CommitInTime(w, step, o);
    }
    CompletedAfter(w.p.group.value.at, step);
  }

  lemma OthersInTime(w: World, step: Step, h: World, o: Options)
    requires Inv(w) && InTime(w, o) && w.p.group.Some? && !step.Begin? && !MovesGroup(step) && h == After(w, step, o)
    ensures InTime(h, o)
  {
    hide ProgressInv, MessageInv, TelemetryInv, Expected, ObservedAll;
    if SavesGroup(step) {
      SavedGroup(w, step, o);
      if step.Observe? {
        ObservedKeeps(w.p.group.value, SourcesFor(w.p.group.value.spec, step.sample), step.sample,
                      o.telemetryFreshness);
      }
      hide After;
    } else if step.Restart? {
      RestartedGroup(w, step, o);
      ReopenedIs(w.p.group.value, w.now, o);
      hide After, Reopened, Reissued;
    } else {
      SameGroup(w, step, o);
      hide After;
    }
  }

  lemma {:induction false} RunInTime(run: seq<System>, moves: seq<Move>, o: Options, n: nat)
    requires IsTimelyRun(run, moves, o) && n < |run|
    ensures InTime(run[n].w, o)
  {
    hide Moved, Starting, InTime, OnTime, SystemInv;
    if n == 0 {
      StartsInTime(run[0], o);
    } else {
      RunInTime(run, moves, o, n - 1);
      RunSystem(run, moves, o, n - 1);
      assert Moved(run[n - 1], moves[n - 1], o) == Some(run[n]);
      MoveInTime(run[n - 1], moves[n - 1], run[n], o);
    }
  }

  lemma StartsInTime(s: System, o: Options)
    requires Starting(s)
    ensures InTime(s.w, o)
  {
    hide Valid;
  }

  lemma MoveInTime(s: System, m: Move, t: System, o: Options)
    requires SystemInv(s) && InTime(s.w, o) && OnTime(s.w) && Moved(s, m, o) == Some(t)
    ensures InTime(t.w, o)
  {
    hide Inv, InTime, OnTime, Take, LogIds, PauseAcked, PubsOk, SentOk, AckedClear, PS.CanStep, PS.Stepped;
    if m.Control? {
      InTimeKept(s.w, m.step, t.w, o);
    }
  }

  /** A transition can be completed in time exactly when its grace period fits into a
      phase, and then also with fresh readiness. */
  lemma CompletesExactly(s: Spec, first: Snapshot, o: Options)
    requires ValidSpec(s) && s.drainGrace > 0 && ValidOptions(o) && Valid(first) && BuiltFrom(s, first)
    ensures s.drainGrace <= o.phaseTimeout <==> CanHandOver(s, o)
    ensures s.drainGrace <= o.phaseTimeout <==> CanHandOverPromptly(s, o)
  {
    hide ValidSpec, Valid, BuiltFrom, SystemInv, IsTimelyRun;
    if s.drainGrace <= o.phaseTimeout {
      EverySpecCompletes(s, first, o);
    }
    forall run: seq<System>, moves: seq<Move> | IsTimelyRun(run, moves, o) && |run| == |moves| + 1
        && HandedTo(run[|moves|], s)
      ensures s.drainGrace <= o.phaseTimeout
    {
      RunInTime(run, moves, o, |moves|);
      TimelyIsRun(run, moves, o);
      RunSystem(run, moves, o, |moves|);
      CompletedLate(run[|moves|]);
    }
  }

  lemma TimelyIsRun(run: seq<System>, moves: seq<Move>, o: Options)
    requires IsTimelyRun(run, moves, o)
    ensures IsSystemRun(run, moves, o)
  {
    hide IsSystemRun, OnTime;
  }

  lemma CompletedLate(t: System)
    requires SystemInv(t) && t.w.p.group.Some? && t.w.p.group.value.at.completed && !t.w.p.group.value.at.rollingBack
    ensures Rank(t.w.p.group.value.at.phase) >= 4
  {
    hide LogIds, PauseAcked, PubsOk, SentOk, AckedClear, TimesInv, MessageInv, TelemetryInv, DocumentInv,
         ControllerChain.ChainInv;
  }

  // -------------------------------------------------------------- what strands it

  /** What the controller has saved cannot be opened any more, whenever that is tried. */
  ghost predicate Stranded(w: World, s: Spec, o: Options) {
    w.p.group.Some? && w.p.group.value.spec == s && forall now: Time :: Open(w.p, now, o).RefusedOpen?
  }

  ghost predicate CanStrand(s: Spec, o: Options) {
    exists run: seq<System>, moves: seq<Move> :: IsTimelyRun(run, moves, o) && |run| == |moves| + 1
            && Stranded(run[|moves|].w, s, o)
  }

  ghost predicate CanStrandPromptly(s: Spec, o: Options) {
    exists run: seq<System>, moves: seq<Move> :: IsPromptRun(run, moves, o) && |run| == |moves| + 1
            && Stranded(run[|moves|].w, s, o)
  }

  lemma OpenExact(t: System, o: Options, now: Time)
    requires SystemInv(t) && t.w.p.group.Some?
    ensures Open(t.w.p, now, o).RefusedOpen? <==>
              t.w.p.group.value.at.commitPublished && EmptyCommitList(t.w.p.group.value.spec)
  {
    hide LogIds, PauseAcked, PubsOk, SentOk, AckedClear, ControllerChain.ChainInv, ValidSpec, Valid, GroupInv, Reopened,
         ValidGroupState, Open, EmptyCommitList;
    OpenAccepts(t.w.p.group.value, now, o);
    OpenGroup(t.w.p, now, o);
  }

  /** The controller can be stranded in time exactly by the specifications with an empty
      COMMIT list, and by each of them whose grace period fits into a phase. */
  lemma EmptyCommitStrands(s: Spec, first: Snapshot, o: Options)
    requires ValidSpec(s) && s.drainGrace > 0 && ValidOptions(o) && Valid(first) && BuiltFrom(s, first)
    ensures EmptyCommitList(s) && s.drainGrace <= o.phaseTimeout <==> CanStrand(s, o)
    ensures EmptyCommitList(s) && s.drainGrace <= o.phaseTimeout <==> CanStrandPromptly(s, o)
  {
    hide ValidSpec, Valid, BuiltFrom, IsTimelyRun, On, PublishersOf, Rests, SystemInv, Open, EmptyCommitList,
         ControlSnapshot, InTime;
    if EmptyCommitList(s) && s.drainGrace <= o.phaseTimeout {
      var t := GoCommitted(s, first, o);
      var x := Point(s, COMMITTED_ALL, {Prepare, Pause, Drain}, ForwardAt(s, Commit), 1 + s.drainGrace);
      AtPoint(t.w, x, o);
      ReachedOk(t, o);
      forall now: Time ensures Open(t.w.p, now, o).RefusedOpen? {
        OpenExact(t, o, now);
      }
      var run: seq<System>, moves: seq<Move> :| EndsIn(run, moves, o, t);
      assert Stranded(run[|moves|].w, s, o);
    }
    forall run: seq<System>, moves: seq<Move> | IsTimelyRun(run, moves, o) && |run| == |moves| + 1
        && Stranded(run[|moves|].w, s, o)
      ensures EmptyCommitList(s) && s.drainGrace <= o.phaseTimeout
    {
      TimelyIsRun(run, moves, o);
      RunSystem(run, moves, o, |moves|);
      OpenExact(run[|moves|], o, 1);
      RunInTime(run, moves, o, |moves|);
      CommittedInTime(run[|moves|], o);
    }
  }

  lemma CommittedInTime(t: System, o: Options)
    requires SystemInv(t) && InTime(t.w, o) && t.w.p.group.Some? && t.w.p.group.value.at.commitPublished
    ensures t.w.p.group.value.spec.drainGrace <= o.phaseTimeout
  {
    hide LogIds, PauseAcked, PubsOk, SentOk, AckedClear, TimesInv, MessageInv, TelemetryInv, DocumentInv,
         ControllerChain.ChainInv;
  }

  lemma AtPoint(w: World, x: Point, o: Options)
    requires On(w, x, o)
    ensures w.p.group.Some? && w.p.group.value.spec == x.s && w.p.group.value.at == x.at
  {
    hide Expected;
  }

  // -------------------------------------------------------------------- an example

  /** The snapshot that the example was built from. */
  const EXAMPLE_FIRST := Snapshot(
    SNAPSHOT_VERSION, "", "", "g", 1, 1, ACTIVE, "h", "a", ["b"], [], [Descriptor("b", "amqp://h")], [], None,
    QueueInfo("q", true), Topic("d"), OLD_QUEUES, [])

  lemma ExampleLaunches(o: Options)
    requires ValidOptions(o)
    ensures Launches(EMPTY_COMMIT, EXAMPLE_FIRST, o) && EmptyCommitList(EMPTY_COMMIT)
    ensures RequiredPublisher(EMPTY_COMMIT, "p")
  {
    EmptyCommitExample();
    ExampleFirstValid();
    hide Valid, ValidSpec;
    assert MembershipOf(EMPTY_COMMIT.current) == ["b"];
  }

  lemma ExampleFirstValid()
    ensures Valid(EXAMPLE_FIRST)
  {
    var s := EXAMPLE_FIRST;
    OldQueuesValid();
    ExampleDescribed();
    assert ValidNames(s);
    assert ValidMembership(s.current, true) && ValidMembership(s.proposed, false);
    hide ValidNames, ValidMembership, ValidResources, ValidDescriptors;
  }

  /** There is such a specification, with a required publisher: it is accepted, and after
      its COMMIT no restart succeeds, although without a restart it completes. */
  lemma StrandedExample(o: Options)
    requires ValidOptions(o)
    ensures CanStrandPromptly(EMPTY_COMMIT, o) && CanHandOverPromptly(EMPTY_COMMIT, o)
    ensures RequiredPublisher(EMPTY_COMMIT, "p")
  {
    hide ValidSpec, Valid, BuiltFrom, CanStrand, CanStrandPromptly, CanHandOverPromptly, RequiredPublisher;
    ExampleLaunches(o);
    EmptyCommitStrands(EMPTY_COMMIT, EXAMPLE_FIRST, o);
    EverySpecCompletes(EMPTY_COMMIT, EXAMPLE_FIRST, o);
  }
}
