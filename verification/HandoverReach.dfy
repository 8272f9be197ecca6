/** Building blocks of runs of the whole system: what has to be known of a state for the
    next step, and what is known after it. Runs built from them keep every deadline. */
module HandoverReach {
  import opened Control
  import opened Transition
  import opened ControllerState
  import opened ControllerSteps
  import opened ControllerRestart
  import opened ControllerProgress
  import opened Handover
  import PS = PublisherSteps

  // -------------------------------------------------------------------- reaching

  /** No deadline of the controller has passed. */
  predicate OnTime(w: World) {
    w.p.group.Some? && !w.p.group.value.at.completed && !w.p.group.value.at.rollingBack
        && Rank(w.p.group.value.at.phase) < 4 ==>
      w.now <= w.p.group.value.times.phaseDeadline
  }

  predicate IsTimelyRun(run: seq<System>, moves: seq<Move>, o: Options) {
    IsSystemRun(run, moves, o) && forall i :: 0 <= i < |run| ==> OnTime(run[i].w)
  }

  /** COMMIT is entered only while the readiness of its participants is fresh. */
  predicate Prompt(s: System, m: Move, o: Options) {
    m.Control? && m.step.EnterCommit? && s.w.p.group.Some? ==>
          ReadinessFresh(s.w.p.group.value, s.w.now, o.readinessFreshness)
  }

  /** A run that the controller takes by itself: besides the deadlines, readiness is fresh
      at the very instant COMMIT is entered. */
  predicate IsPromptRun(run: seq<System>, moves: seq<Move>, o: Options) {
    IsTimelyRun(run, moves, o) && |run| == |moves| + 1 && forall i :: 0 <= i < |moves| ==> Prompt(run[i], moves[i], o)
  }

  predicate EndsIn(run: seq<System>, moves: seq<Move>, o: Options, s: System) {
    IsPromptRun(run, moves, o) && |run| == |moves| + 1 && run[|moves|] == s
  }

  ghost predicate Reached(s: System, o: Options) {
    exists run: seq<System>, moves: seq<Move> :: EndsIn(run, moves, o, s)
  }

  lemma ReachedStart(s: System, o: Options)
    requires Starting(s) && ValidOptions(o) && s.w.p.group.None?
    ensures Reached(s, o)
  {
    hide Starting;
    assert EndsIn([s], [], o, s);
  }

  lemma ReachedNext(s: System, m: Move, t: System, o: Options)
    requires Reached(s, o) && Moved(s, m, o) == Some(t) && OnTime(t.w) && Prompt(s, m, o)
    ensures Reached(t, o)
  {
    hide Moved, Starting, OnTime, Prompt;
    var run, moves :| EndsIn(run, moves, o, s);
    var more, taken := run + [t], moves + [m];
    forall i | 0 <= i < |taken|
      ensures Moved(more[i], taken[i], o) == Some(more[i + 1]) && Prompt(more[i], taken[i], o)
    {
      if i < |moves| {
        assert Moved(run[i], moves[i], o) == Some(run[i + 1]) && Prompt(run[i], moves[i], o);
      }
    }
    assert EndsIn(more, taken, o, t);
  }

  lemma ReachedOk(s: System, o: Options)
    requires Reached(s, o)
    ensures SystemInv(s) && ValidOptions(o)
  {
    hide SystemInv, IsSystemRun, Prompt, OnTime;
    var run, moves :| EndsIn(run, moves, o, s);
    RunSystem(run, moves, o, |moves|);
  }

  /** What the log offers to the publishers. */
  lemma Retains(s: System, o: Options)
    requires Reached(s, o) && s.w.p.membership.Some?
    ensures s.w.p.membership.value in s.w.log
  {
    hide Inv, DocumentInv, LogIds, PauseAcked, PubsOk, SentOk, AckedClear;
    ReachedOk(s, o);
  }

  // ----------------------------------------------------------------- the controller

  /** Where a transition is. */
  datatype Point = Point(s: Spec, at: Progress, issued: set<Phase>, m: Snapshot, entered: Time)

  predicate On(w: World, x: Point, o: Options) {
    && w.p.group.Some? && w.p.membership == Some(x.m) && w.now > 0
    && w.p.group.value.spec == x.s && w.p.group.value.at == x.at
    && w.p.group.value.times.phaseEnteredAt == x.entered
    && (!x.at.completed ==> w.p.group.value.times.phaseDeadline == x.entered + o.phaseTimeout)
    && w.p.group.value.issued.Keys == x.issued
    && forall ph :: ph in x.issued ==> w.p.group.value.issued[ph] == Expected(x.s, ph)
  }

  datatype Readings = Readings(latest: map<Source, Telemetry>, zeroSince: map<Source, Time>,
                               messages: map<string, Telemetry>)

  function ReadingsOf(w: World): Readings
    requires w.p.group.Some?
  {
    Readings(w.p.group.value.latest, w.p.group.value.zeroSince, w.p.group.value.messages)
  }

  /** The same but for what the step is about. */
  predicate Beside(w: World, h: World) {
    && w.p.group.Some? && h.p.group.Some? && h.now == w.now
    && h.p.group.value.acks == w.p.group.value.acks && ReadingsOf(h) == ReadingsOf(w)
  }

  function PointAfter(x: Point, step: Step, now: Time): Point {
    x.(at := ProgressAfter(x.at, step),
       entered := if step.EnterPause? || step.EnterDrain? || step.EnterCommit? || step.EnterActivate? then now
             else x.entered)
  }

  lemma FlaggedTimes(times: Times, step: Step, now: Time, timeout: nat)
    ensures var after := TimesAfter(times, step, now, timeout);
            if step.EnterPause? || step.EnterDrain? || step.EnterCommit? || step.EnterActivate?
            then after.phaseEnteredAt == now && after.phaseDeadline == now + timeout
            else
              && after.phaseEnteredAt == times.phaseEnteredAt
              && (!step.Complete? ==> after.phaseDeadline == times.phaseDeadline)
  {
    hide LeavePhase;
  }

  lemma CompletedAfter(a: Progress, step: Step)
    ensures ProgressAfter(a, step).completed <==> a.completed || step.Complete?
  {
    hide MarkPublished;
    if step.Complete? {
    } else {
      match step
      case RecordPublished(phase) =>
      case _ =>
    }
  }

  lemma FlaggedWorld(w: World, step: Step, o: Options)
    requires w.p.group.Some? && MovesGroup(step)
    ensures var h := After(w, step, o);
            && h.p.group.Some? && h.p.membership == w.p.membership && h.now == w.now && h.open == w.open
            && var g, k := w.p.group.value, h.p.group.value;
               && k.at == ProgressAfter(g.at, step) && k.times == TimesAfter(g.times, step, w.now, o.phaseTimeout)
               && k.spec == g.spec && k.acks == g.acks && k.issued == g.issued
               && k.latest == g.latest && k.zeroSince == g.zeroSince && k.messages == g.messages
  {
    hide After, GroupAfter, UpdateGroup, ProgressAfter, TimesAfter;
    FlaggedIs(w, step, o);
    FlaggedSaves(w, step, o);
    UpdatedKeeps(w.p, GroupAfter(w, step, o), o.historyLimit);
  }

  lemma FlaggedIs(w: World, step: Step, o: Options)
    requires w.p.group.Some? && MovesGroup(step)
    ensures var g := w.p.group.value;
            GroupAfter(w, step, o) == g.(at := ProgressAfter(g.at, step),
                                         times := TimesAfter(g.times, step, w.now, o.phaseTimeout))
  {
    hide ProgressAfter, TimesAfter;
  }

  lemma FlaggedSaves(w: World, step: Step, o: Options)
    requires w.p.group.Some? && MovesGroup(step)
    ensures After(w, step, o) == w.(p := UpdateGroup(w.p, GroupAfter(w, step, o), o.historyLimit))
  {
    hide GroupAfter, UpdateGroup;
  }

  lemma UpdatedKeeps(p: Persistent, g: GroupState, limit: nat)
    requires p.group.Some?
    ensures var q := UpdateGroup(p, g, limit);
            q.membership == p.membership && q.group.Some?
                && q.group.value.(cleanupRecorded := false) == g.(cleanupRecorded := false)
  {
    hide EvidenceReady, EvidenceOf, RecordOf, Trim;
  }

  lemma Flagged(w: World, step: Step, x: Point, o: Options)
    requires On(w, x, o) && MovesGroup(step) && Enabled(w, step, o) && !x.at.completed
    ensures Take(w, step, o).Some? && On(Take(w, step, o).value, PointAfter(x, step, w.now), o)
            && Beside(w, Take(w, step, o).value)
    ensures Take(w, step, o).value.open == w.open
  {
    hide Enabled, Expected, ProgressAfter, TimesAfter, After;
    FlaggedWorld(w, step, o);
    FlaggedTimes(w.p.group.value.times, step, w.now, o.phaseTimeout);
    CompletedAfter(x.at, step);
  }

  /** A flag is saved. */
  lemma Go(s: System, step: Step, x: Point, o: Options) returns (t: System)
    requires Reached(s, o) && On(s.w, x, o) && MovesGroup(step) && !x.at.completed && Guard(x.at, step)
             && Justified(s.w, s.w.p.group.value, step, o)
    requires Rank(x.at.phase) < 4 ==> s.w.now <= x.entered + o.phaseTimeout
    requires step.EnterCommit? ==> ReadinessFresh(s.w.p.group.value, s.w.now, o.readinessFreshness)
    ensures Reached(t, o) && On(t.w, PointAfter(x, step, s.w.now), o) && Beside(s.w, t.w)
    ensures t.pubs == s.pubs && t.sent == s.sent && t.w.open == s.w.open
  {
    assert Enabled(s.w, step, o) by { hide Guard, Justified; }
    Flagged(s.w, step, x, o);
    hide Enabled, Take, Guard, Justified, ProgressAfter, ReadinessFresh;
    t := s.(w := Take(s.w, step, o).value);
    StaysTimely(s.w, x, step, t.w, o);
    ReachedNext(s, Control(step), t, o);
  }

  lemma StaysTimely(w: World, x: Point, step: Step, h: World, o: Options)
    requires On(h, PointAfter(x, step, w.now), o) && h.now == w.now && Guard(x.at, step) && MovesGroup(step)
    requires Rank(x.at.phase) < 4 ==> w.now <= x.entered + o.phaseTimeout
    ensures OnTime(h)
  {
    PhaseAfter(x.at, step);
    hide ProgressAfter, Guard, Expected;
  }

  lemma GoIntent(s: System, phase: Phase, x: Point, o: Options) returns (t: System)
    requires Reached(s, o) && On(s.w, x, o) && !x.at.completed && Guard(x.at, RecordIntent(phase)) && phase !in x.issued
    requires RequirementsFor(x.s, phase) != [] && (Rank(x.at.phase) < 4 ==> s.w.now <= x.entered + o.phaseTimeout)
    ensures Reached(t, o) && On(t.w, x.(issued := x.issued + {phase}), o) && Beside(s.w, t.w)
    ensures t.pubs == s.pubs && t.sent == s.sent && t.w.open == s.w.open
  {
    hide Expected, Guard, Take, Reached, WithIntent;
    var g := s.w.p.group.value;
    IntentTakes(s.w, x, phase, o);
    t := s.(w := s.w.(p := s.w.p.(group := Some(WithIntent(g, phase)))));
    IntentOn(s.w, t.w, phase, x, o);
    ReachedNext(s, Control(RecordIntent(phase)), t, o);
  }

  lemma IntentOn(w: World, h: World, phase: Phase, x: Point, o: Options)
    requires On(w, x, o) && h == w.(p := w.p.(group := Some(WithIntent(w.p.group.value, phase))))
    ensures On(h, x.(issued := x.issued + {phase}), o) && Beside(w, h) && (OnTime(w) ==> OnTime(h))
    ensures h.p.group.value.times == w.p.group.value.times && h.p.group.value.at == w.p.group.value.at
  {
    hide Expected;
  }

  lemma IntentTakes(w: World, x: Point, phase: Phase, o: Options)
    requires On(w, x, o) && Guard(x.at, RecordIntent(phase)) && phase !in x.issued && RequirementsFor(x.s, phase) != []
    ensures Take(w, RecordIntent(phase), o) == Some(w.(p := w.p.(group := Some(WithIntent(w.p.group.value, phase)))))
  {
    AllExpectedEmpty(x.s);
    hide Expected, Guard, EvidenceReady, EvidenceOf, RecordOf;
  }

  lemma Storable(p: Persistent, m: Snapshot, next: Snapshot)
    requires p.membership == Some(m) && Valid(next) && next.revision > m.revision && next.epoch >= m.epoch
    ensures ControllerState.SaveMembership(p, next) == Stored(p.(membership := Some(next)))
  {
    hide Valid;
  }

  lemma RetainTakes(w: World, phase: Phase, x: Point, o: Options)
    requires On(w, x, o) && Guard(x.at, Retain(phase, false)) && ValidSpec(x.s)
    requires phase == Commit || (phase in x.issued && RequirementsFor(x.s, phase) != [])
    requires var next := ControlSnapshot(x.s, phase, false); next.revision > x.m.revision && next.epoch >= x.m.epoch
    ensures var next := ControlSnapshot(x.s, phase, false);
            Take(w, Retain(phase, false), o) == Some(w.(p := w.p.(membership := Some(next)), log := w.log + [next]))
  {
    hide Expected, Guard, ControlSnapshot, Valid, ValidSpec, ControllerState.SaveMembership, CommandsIssued;
    PublicationsValid(x.s, phase);
    if phase != Commit {
      WasIssued(w, x, phase, o);
    }
    Storable(w.p, x.m, ControlSnapshot(x.s, phase, false));
    RetainStores(w, w.p.group.value, phase, ControlSnapshot(x.s, phase, false), o);
  }

  lemma WasIssued(w: World, x: Point, phase: Phase, o: Options)
    requires On(w, x, o) && phase in x.issued && RequirementsFor(x.s, phase) != []
    ensures CommandsIssued(w.p.group.value, phase)
  {
    AllExpectedEmpty(x.s);
    hide Expected;
  }

  lemma RetainStores(w: World, g: GroupState, phase: Phase, next: Snapshot, o: Options)
    requires w.p.group == Some(g) && Guard(g.at, Retain(phase, false)) && next == ControlSnapshot(g.spec, phase, false)
    requires (phase != Commit ==> CommandsIssued(g, phase)) && ControllerState.SaveMembership(w.p, next).Stored?
    ensures Take(w, Retain(phase, false), o) == Some(w.(p := w.p.(membership := Some(next)), log := w.log + [next]))
  {
    hide Guard, ControlSnapshot, ControllerState.SaveMembership, CommandsIssued;
  }

  lemma GoRetain(s: System, phase: Phase, x: Point, o: Options) returns (t: System)
    requires Reached(s, o) && On(s.w, x, o) && !x.at.completed && Guard(x.at, Retain(phase, false)) && ValidSpec(x.s)
    requires phase == Commit || (phase in x.issued && RequirementsFor(x.s, phase) != [])
    requires var next := ControlSnapshot(x.s, phase, false); next.revision > x.m.revision && next.epoch >= x.m.epoch
    requires Rank(x.at.phase) < 4 ==> s.w.now <= x.entered + o.phaseTimeout
    ensures Reached(t, o) && On(t.w, x.(m := ControlSnapshot(x.s, phase, false)), o) && Beside(s.w, t.w)
    ensures t.pubs == s.pubs && t.sent == s.sent && t.w.open == s.w.open
  {
    hide Expected, Guard, ControlSnapshot, Take, Reached, ValidSpec;
    var step, next := Retain(phase, false), ControlSnapshot(x.s, phase, false);
    RetainTakes(s.w, phase, x, o);
    t := s.(w := s.w.(p := s.w.p.(membership := Some(next)), log := s.w.log + [next]));
    ReachedNext(s, Control(step), t, o);
  }

  /** Fencing and enabling that reach every queue. */
  lemma GoFence(s: System, x: Point, o: Options) returns (t: System)
    requires Reached(s, o) && On(s.w, x, o) && !x.at.completed && Guard(x.at, FenceEffect({}))
             && s.w.now <= x.entered + o.phaseTimeout
    ensures Reached(t, o) && On(t.w, x, o) && Beside(s.w, t.w) && t.w.open !! Queues(x.s.currentResources)
    ensures t.pubs == s.pubs && t.sent == s.sent
  {
    hide Queues, Expected;
    var step := FenceEffect(Queues(x.s.currentResources));
    t := s.(w := s.w.(open := s.w.open - Queues(x.s.currentResources)));
    ReachedNext(s, Control(step), t, o);
  }

  lemma GoEnable(s: System, x: Point, o: Options) returns (t: System)
    requires Reached(s, o) && On(s.w, x, o) && !x.at.completed && Guard(x.at, EnableEffect({}))
    ensures Reached(t, o) && On(t.w, x, o) && Beside(s.w, t.w) && Queues(x.s.proposedResources) <= t.w.open
    ensures t.pubs == s.pubs && t.sent == s.sent
  {
    hide Queues, Expected;
    var step := EnableEffect(Queues(x.s.proposedResources));
    t := s.(w := s.w.(open := s.w.open + Queues(x.s.proposedResources)));
    ReachedNext(s, Control(step), t, o);
  }

  // --------------------------------------------------------------- acknowledgements

  lemma {:induction false} FindsIt(requirements: seq<Requirement>, i: nat)
    requires i < |requirements| && forall a, b :: 0 <= a < b < |requirements| ==>
               requirements[a].participant != requirements[b].participant
    ensures FindRequirement(requirements, requirements[i].participant) == Some(requirements[i])
  {
    if i > 0 {
      assert requirements[0].participant != requirements[i].participant;
      FindsIt(requirements[1..], i - 1);
    }
  }

  /** The answer of a participant to its command. */
  function Answer(s: Spec, phase: Phase, r: Requirement, at: Time): Ack {
    if r.role.Untyped? then Ack(None, s.namespace, s.group, s.id, s.toEpoch, phase, r.participant, "", Untyped, at)
    else Ack(Some(Command(s.group, s.id, phase, r.role, r.participant)), s.namespace, s.group, s.id, s.toEpoch, phase,
             r.participant, r.participant, r.role, at)
  }

  lemma {:induction false} ExpectsIt(s: Spec, phase: Phase, requirements: seq<Requirement>, i: nat)
    requires i < |requirements| && forall a, b :: 0 <= a < b < |requirements| ==>
               requirements[a].participant != requirements[b].participant
    ensures var r := requirements[i];
            r.participant in CommandsOf(s, phase, requirements)
            && CommandsOf(s, phase, requirements)[r.participant] == Command(s.group, s.id, phase, r.role, r.participant)
  {
    if i < |requirements| - 1 {
      var rest := requirements[..|requirements| - 1];
      assert rest[i] == requirements[i];
      assert requirements[i].participant != requirements[|requirements| - 1].participant;
      ExpectsIt(s, phase, rest, i);
    }
  }

  lemma AnswerInScope(g: GroupState, s: Spec, phase: Phase, i: nat, at: Time)
    requires g.spec == s && Forward(g.at, phase) && phase in g.issued && g.issued[phase] == Expected(s, phase)
    requires i < |RequirementsFor(s, phase)| && ValidRequirements(phase, RequirementsFor(s, phase))
    ensures AckInScope(g, Answer(s, phase, RequirementsFor(s, phase)[i], at))
  {
    hide CommandsOf, FindRequirement;
    var requirements := RequirementsFor(s, phase);
    FindsIt(requirements, i);
    ExpectsIt(s, phase, requirements, i);
    AllExpectedEmpty(s);
    assert CommandsIssued(g, phase) && RequirementOf(s, phase, requirements[i].participant) == Some(requirements[i]);
    assert requirements[i].participant in IssuedIn(g, phase) by { hide ValidRequirements; }
    hide ValidRequirements, RequirementOf, CommandsIssued;
  }

  predicate AckedUpTo(w: World, phase: Phase, n: nat) {
    w.p.group.Some? && forall i :: 0 <= i < n && i < |RequirementsFor(w.p.group.value.spec, phase)| ==>
      AckKey(phase, RequirementsFor(w.p.group.value.spec, phase)[i].participant) in w.p.group.value.acks
  }

  /** The publishers among the participants confirmed, where the answer would claim so. */
  predicate MayAnswer(s: System, spec: Spec, phase: Phase) {
    phase == Pause ==> forall who :: who in s.pubs ==> Confirmation(who, spec.id) in s.sent
  }

  /** Whoever answered in the phase did so at this instant. */
  predicate AnsweredNow(w: World, phase: Phase) {
    w.p.group.Some? && forall k :: k in w.p.group.value.acks && k.phase == phase ==> w.p.group.value.acks[k] == w.now
  }

  lemma GoAnswer(s: System, phase: Phase, i: nat, x: Point, o: Options) returns (t: System)
    requires Reached(s, o) && On(s.w, x, o) && Forward(x.at, phase) && phase in x.issued && MayAnswer(s, x.s, phase)
    requires i < |RequirementsFor(x.s, phase)| && ValidRequirements(phase, RequirementsFor(x.s, phase))
             && AckedUpTo(s.w, phase, i)
    requires Rank(x.at.phase) < 4 ==> s.w.now <= x.entered + o.phaseTimeout
    ensures Reached(t, o) && On(t.w, x, o) && t.w.now == s.w.now && ReadingsOf(t.w) == ReadingsOf(s.w)
            && AckedUpTo(t.w, phase, i + 1)
    ensures AnsweredNow(s.w, phase) ==> AnsweredNow(t.w, phase)
    ensures t.pubs == s.pubs && t.sent == s.sent && t.w.open == s.w.open
  {
    hide Take, AckInScope, Expected, ValidRequirements, Reached, Answer, MayAnswer, Authentic;
    var g := s.w.p.group.value;
    var r := RequirementsFor(x.s, phase)[i];
    var key := AckKey(phase, r.participant);
    if key in g.acks {
      return s;
    }
    var at := s.w.now;
    var ack := Answer(x.s, phase, r, at);
    AnswerInScope(g, x.s, phase, i, at);
    AnswerIsFrom(s, x.s, phase, r, at);
    AckTakes(s.w, g, ack, o);
    t := s.(w := s.w.(p := s.w.p.(group := Some(Acked(g, ack)))));
    ReachedNext(s, Control(Step.Acknowledge(ack)), t, o);
  }

  lemma AnswerIsFrom(s: System, spec: Spec, phase: Phase, r: Requirement, at: Time)
    requires MayAnswer(s, spec, phase)
    ensures Authentic(s, Step.Acknowledge(Answer(spec, phase, r, at)))
    ensures var ack := Answer(spec, phase, r, at);
            ack.phase == phase && ack.participant == r.participant && ack.observedAt == at
  {
  }

  lemma AckTakes(w: World, g: GroupState, ack: Ack, o: Options)
    requires w.p.group == Some(g) && AckInScope(g, ack) && AckIsNews(g, ack) && Forward(g.at, ack.phase)
    ensures Take(w, Step.Acknowledge(ack), o) == Some(w.(p := w.p.(group := Some(Acked(g, ack)))))
  {
    hide AckInScope, AckIsNews, EvidenceReady, EvidenceOf, RecordOf;
  }

  /** Everybody answers. */
  lemma {:induction false} GoAnswers(s: System, phase: Phase, n: nat, x: Point, o: Options) returns (t: System)
    requires Reached(s, o) && On(s.w, x, o) && Forward(x.at, phase) && phase in x.issued && MayAnswer(s, x.s, phase)
    requires n <= |RequirementsFor(x.s, phase)| && ValidRequirements(phase, RequirementsFor(x.s, phase))
    requires Rank(x.at.phase) < 4 ==> s.w.now <= x.entered + o.phaseTimeout
    ensures Reached(t, o) && On(t.w, x, o) && t.w.now == s.w.now && ReadingsOf(t.w) == ReadingsOf(s.w)
            && AckedUpTo(t.w, phase, n)
    ensures AnsweredNow(s.w, phase) ==> AnsweredNow(t.w, phase)
    ensures t.pubs == s.pubs && t.sent == s.sent && t.w.open == s.w.open
  {
    hide Reached, On, ValidRequirements, AnsweredNow;
    if n == 0 {
      t := s;
      HasGroup(s.w, x, o);
    } else {
      var u := GoAnswers(s, phase, n - 1, x, o);
      t := GoAnswer(u, phase, n - 1, x, o);
    }
  }

  lemma HasGroup(w: World, x: Point, o: Options)
    requires On(w, x, o)
    ensures w.p.group.Some? && w.p.group.value.spec == x.s
  {
    hide Expected;
  }

  // -------------------------------------------------------------------- publishers

  predicate OthersSame(s: System, t: System, who: string) {
    who in s.pubs && t.pubs.Keys == s.pubs.Keys && forall other :: other in s.pubs && other != who ==>
          t.pubs[other] == s.pubs[other]
  }

  lemma OthersTwice(a: System, b: System, c: System, who: string)
    requires OthersSame(a, b, who) && OthersSame(b, c, who)
    ensures OthersSame(a, c, who)
  {
  }

  lemma GoLocal(s: System, who: string, local: PS.PublisherStep, o: Options) returns (t: System)
    requires Reached(s, o) && who in s.pubs && PS.CanStep(s.pubs[who], local, s.w.log) && OnTime(s.w)
    ensures Reached(t, o) && t.w == s.w && OthersSame(s, t, who) && t.pubs[who] == PS.Stepped(s.pubs[who], local)
    ensures t.sent == if local.Acknowledge? && s.pubs[who].probe.Counted?
              then s.sent + {Confirmation(who, s.pubs[who].probe.command.transition)} else s.sent
  {
    hide PS.CanStep, PS.Stepped, OnTime;
    t := Moved(s, Publish(who, local), o).value;
    ReachedNext(s, Publish(who, local), t, o);
  }

  /** Nothing was ever attempted, and the snapshot is what the publisher works under. */
  predicate Rests(p: PS.Publisher, m: Snapshot) {
    p.membership == Some(m) && p.floor == m.revision && p.unsettled == map[] && p.admission.None? && p.pending == map[]
        && p.probe.Idle?
  }

  lemma GoMatch(s: System, who: string, m: Snapshot, transition: string, o: Options) returns (t: System)
    requires Reached(s, o) && who in s.pubs && Fresh(s.pubs[who]) && m in s.w.log && PS.IsPause(m, transition)
             && OnTime(s.w)
    ensures Reached(t, o) && t.w == s.w && t.sent == s.sent && OthersSame(s, t, who)
    ensures Rests(t.pubs[who].(probe := PS.Idle), m) && t.pubs[who].probe.Matched?
            && t.pubs[who].probe.command.transition == transition
  {
    hide Reached, OnTime;
    var a := GoLocal(s, who, PS.Apply(m), o);
    var b := GoLocal(a, who, PS.Notice(m), o);
    t := GoLocal(b, who, PS.Match(PS.PauseCommand(transition, m.transition.value.toEpoch)), o);
    hide PS.Stepped;
    OthersTwice(s, a, b, who);
    OthersTwice(s, b, t, who);
  }

  lemma GoCount(s: System, who: string, m: Snapshot, transition: string, o: Options) returns (t: System)
    requires Reached(s, o) && who in s.pubs && OnTime(s.w) && PS.IsPause(m, transition)
    requires Rests(s.pubs[who].(probe := PS.Idle), m) && s.pubs[who].probe.Matched?
             && s.pubs[who].probe.command.transition == transition
    ensures Reached(t, o) && t.w == s.w && OthersSame(s, t, who) && t.sent == s.sent
    ensures t.pubs[who] == s.pubs[who].(probe := PS.Counted(s.pubs[who].probe.command))
  {
    hide Reached, OnTime;
    var d := GoLocal(s, who, PS.Find, o);
    var e := GoLocal(d, who, PS.ReadMembership, o);
    t := GoLocal(e, who, PS.CountDurable, o);
    hide PS.Stepped;
    OthersTwice(s, d, e, who);
    OthersTwice(s, e, t, who);
  }

  /** A publisher that was never used pauses and confirms. */
  lemma GoPause(s: System, who: string, m: Snapshot, transition: string, o: Options) returns (t: System)
    requires Reached(s, o) && who in s.pubs && Fresh(s.pubs[who]) && m in s.w.log && PS.IsPause(m, transition)
             && OnTime(s.w)
    ensures Reached(t, o) && t.w == s.w && OthersSame(s, t, who) && Rests(t.pubs[who], m)
    ensures t.sent == s.sent + {Confirmation(who, transition)}
  {
    hide Reached, OnTime;
    var c := GoMatch(s, who, m, transition, o);
    var f := GoCount(c, who, m, transition, o);
    t := GoLocal(f, who, PS.PublisherStep.Acknowledge, o);
    OthersTwice(s, c, f, who);
    OthersTwice(s, f, t, who);
  }

  /** Every publisher pauses and confirms. */
  lemma {:induction false} GoPauses(s: System, left: set<string>, m: Snapshot, transition: string, o: Options)
    returns (t: System)
    requires Reached(s, o) && left <= s.pubs.Keys && (forall who :: who in left ==> Fresh(s.pubs[who])) && m in s.w.log
                 && PS.IsPause(m, transition) && OnTime(s.w)
    requires forall who :: who in s.pubs && who !in left ==>
               Rests(s.pubs[who], m) && Confirmation(who, transition) in s.sent
    ensures Reached(t, o) && t.w == s.w && t.pubs.Keys == s.pubs.Keys
    ensures forall who :: who in t.pubs ==> Rests(t.pubs[who], m) && Confirmation(who, transition) in t.sent
    decreases |left|
  {
    hide Reached, OnTime, Rests, Fresh, PS.IsPause;
    if left == {} {
      t := s;
    } else {
      var who :| who in left;
      var u := GoPause(s, who, m, transition, o);
      t := GoPauses(u, left - {who}, m, transition, o);
    }
  }

  /** The publisher attempts an event under the snapshot. */
  predicate Works(p: PS.Publisher, m: Snapshot) {
    p.membership == Some(m) && exists id :: id in p.unsettled && p.unsettled[id] == PS.Attempt(m.epoch, m.revision)
  }

  lemma GoWork(s: System, who: string, before: Snapshot, m: Snapshot, o: Options) returns (t: System)
    requires Reached(s, o) && who in s.pubs && Rests(s.pubs[who], before) && m in s.w.log && m.phase == ACTIVE
             && m.revision > before.revision && OnTime(s.w)
    ensures Reached(t, o) && t.w == s.w && OthersSame(s, t, who) && Works(t.pubs[who], m) && t.sent == s.sent
  {
    hide Reached, OnTime;
    var a := GoLocal(s, who, PS.Apply(m), o);
    t := GoLocal(a, who, PS.Start({"e"}), o);
    assert "e" in t.pubs[who].unsettled;
  }

  lemma {:induction false} GoWorks(s: System, left: set<string>, before: Snapshot, m: Snapshot, o: Options)
    returns (t: System)
    requires Reached(s, o) && left <= s.pubs.Keys && (forall who :: who in left ==> Rests(s.pubs[who], before))
                 && m in s.w.log
    requires m.phase == ACTIVE && m.revision > before.revision && OnTime(s.w)
    requires forall who :: who in s.pubs && who !in left ==> Works(s.pubs[who], m)
    ensures Reached(t, o) && t.w == s.w && t.pubs.Keys == s.pubs.Keys && t.sent == s.sent
    ensures forall who :: who in t.pubs ==> Works(t.pubs[who], m)
    decreases |left|
  {
    hide Reached, OnTime, Rests, Works;
    if left == {} {
      t := s;
    } else {
      var who :| who in left;
      var u := GoWork(s, who, before, m, o);
      t := GoWorks(u, left - {who}, before, m, o);
    }
  }
}
