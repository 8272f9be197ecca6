/** Restart closure: what every controller step keeps true of the group state,
    and that Open accepts whatever the controller saved, except for one shape of
    specification, which is characterised exactly. */
module ControllerRestart {
  import opened Control
  import opened Transition
  import opened ControllerState
  import opened ControllerSteps

  // -------------------------------------------------------------- the invariant

  /** How far the transition is fixes which of its facts may be recorded. */
  predicate ProgressInv(a: Progress) {
    var rank := Rank(a.phase);
    && (rank >= 2 ==> a.preparePublished)
    && (a.pausePublished ==> rank >= 2)
    && (a.fenceAttempted ==> a.pausePublished)
    && (a.fenced ==> a.fenceAttempted)
    && (rank >= 3 ==> a.pausePublished && a.fenced)
    && (a.drainPublished ==> rank >= 3)
    && (rank >= 4 ==> a.drainPublished)
    && (a.commitPublished ==> rank >= 4)
    && (rank == 5 ==> a.commitPublished)
    && (a.targetEnabled ==> rank == 5)
    && (a.targetVerified ==> a.targetEnabled)
    && (a.activatePublished ==> a.targetVerified)
    && (a.rollingBack ==> rank <= 3)
    && (a.unfenced ==> a.rollingBack && a.fenceAttempted)
    && (a.rollbackPublished ==> a.rollingBack && (a.fenceAttempted ==> a.unfenced))
    && (a.completed ==> if a.rollingBack then a.rollbackPublished else a.activatePublished)
  }

  predicate TimesInv(a: Progress, t: Times) {
    && t.startedAt > 0 && t.phaseEnteredAt > 0 && t.history != []
    && (!a.completed ==> t.phaseDeadline > 0)
    && (a.completed <==> t.completedAt.Some?)
    && (Rank(a.phase) >= 4 ==> t.fenceVerifiedAt.Some?)
    && (a.targetVerified ==> t.targetVerifiedAt.Some?)
  }

  /** Four phases always have somebody to command. */
  predicate Commanded(s: Spec) {
    && RequirementsFor(s, Prepare) != [] && RequirementsFor(s, Pause) != []
    && RequirementsFor(s, Drain) != [] && RequirementsFor(s, Activate) != []
  }

  predicate MessageInv(g: GroupState) {
    && Commanded(g.spec)
    && (forall ph :: ph in g.issued ==> g.issued[ph] == Expected(g.spec, ph)
                                        && (PhasePublished(g.at, ph) || ph == g.at.phase))
    && (forall ph :: ph != Commit && PhasePublished(g.at, ph) ==> ph in g.issued)
    && (forall k :: k in g.acks ==> RequirementOf(g.spec, k.phase, k.participant).Some? && k.phase in g.issued)
  }

  predicate TelemetryInv(g: GroupState) {
    && (forall source :: source in g.latest ==>
          && source in RequiredSources(g.spec)
          && source == Source(g.latest[source].broker, g.latest[source].queue)
          && g.latest[source].observedAt > 0
          && (g.latest[source].messageId != "" ==>
                g.latest[source].messageId in g.messages
                && SameMessage(g.messages[g.latest[source].messageId], g.latest[source])))
    && (forall source :: source in g.zeroSince ==> source in g.latest && KnownZero(g.latest[source]))
  }

  predicate GroupInv(g: GroupState) {
    && g.spec.drainGrace > 0
    && ProgressInv(g.at) && TimesInv(g.at, g.times) && MessageInv(g) && TelemetryInv(g)
  }

  predicate Inv(w: World) {
    w.now > 0 && (w.p.group.Some? ==> GroupInv(w.p.group.value))
  }

  // ------------------------------------------------- what the drain decision reads

  lemma {:induction false} SameBounds(g: GroupState, h: GroupState, sources: seq<Source>, start: Time)
    requires g.latest == h.latest && g.zeroSince == h.zeroSince
    requires forall i :: 0 <= i < |sources| ==> sources[i] in g.latest && sources[i] in g.zeroSince
    ensures LatestZero(g, sources, start) == LatestZero(h, sources, start)
            && EarliestObserved(g, sources) == EarliestObserved(h, sources)
  {
    if sources != [] {
      SameBounds(g, h, sources[..|sources| - 1], start);
    }
  }

  /** The drain decision depends on readings, specification and entry time alone. */
  lemma SameDrain(g: GroupState, h: GroupState, at: Time, freshness: nat)
    requires g.latest == h.latest && g.zeroSince == h.zeroSince && g.spec == h.spec
             && g.times.phaseEnteredAt == h.times.phaseEnteredAt
    ensures DrainComplete(g, at, freshness) <==> DrainComplete(h, at, freshness)
  {
    hide RequiredSources, LatestZero, EarliestObserved, KnownZero;
    var sources := RequiredSources(g.spec);
    if forall i :: 0 <= i < |sources| ==> SourceDrained(g, sources[i], at, freshness) {
      SameBounds(g, h, sources, g.times.phaseEnteredAt);
    }
  }

  // -------------------------------------------------------------- what Open does

  /** The one shape Open cannot take back: COMMIT listed with nobody to command. */
  predicate EmptyCommitList(s: Spec) {
    Commit in s.roles && s.roles[Commit] == []
  }

  lemma AllExpectedEmpty(s: Spec)
    ensures forall ph :: Expected(s, ph) == map[] <==> RequirementsFor(s, ph) == []
  {
    forall ph ensures Expected(s, ph) == map[] <==> RequirementsFor(s, ph) == [] {
      if RequirementsFor(s, ph) != [] {
        assert RequirementsFor(s, ph)[0].participant in Expected(s, ph);
      }
    }
  }

  /** Loading a saved state repairs nothing but unissued commands. */
  lemma ReopenedIs(g: GroupState, now: Time, o: Options)
    requires g.spec.drainGrace > 0 && ProgressInv(g.at) && TimesInv(g.at, g.times)
    ensures Reopened(g, now, o) == g.(issued := Reissued(g))
  {
  }

  /** Those can only be the commands of a published COMMIT. */
  lemma ReissuedIs(g: GroupState)
    requires MessageInv(g)
    ensures g.issued.Keys <= Reissued(g).Keys
    ensures forall ph :: ph in Reissued(g) ==> Reissued(g)[ph] == Expected(g.spec, ph)
    ensures forall ph :: ph in Reissued(g) && ph !in g.issued ==> ph == Commit && g.at.commitPublished
                                                                  && Commit in g.spec.roles
    ensures g.at.commitPublished && Commit in g.spec.roles ==> Commit in Reissued(g)
  {
    forall ph | ph in Reissued(g) ensures Reissued(g)[ph] == Expected(g.spec, ph) {
      RefilledIs(g, ph);
    }
  }

  lemma RefilledIs(g: GroupState, ph: Phase)
    requires IssuedIn(g, ph) == Expected(g.spec, ph)
             || (IssuedIn(g, ph) == map[] && ph in g.spec.roles && PhasePublished(g.at, ph))
    ensures Refilled(g, ph) == Expected(g.spec, ph)
  {
    var e := Expected(g.spec, ph);
    assert e + e == e && e + map[] == e;
  }

  lemma ReopenedUnchanged(g: GroupState, now: Time, o: Options)
    requires GroupInv(g) && Commit !in g.spec.roles
    ensures Reopened(g, now, o) == g
  {
    ReopenedIs(g, now, o);
    hide Reopened, TimesInv, TelemetryInv, ProgressInv;
    ReissuedSame(g);
  }

  lemma ReissuedSame(g: GroupState)
    requires MessageInv(g) && Commit !in g.spec.roles
    ensures Reissued(g) == g.issued
  {
    ReissuedIs(g);
    hide Expected, Refilled;
  }

  lemma ReissuedInv(g: GroupState)
    requires MessageInv(g)
    ensures MessageInv(g.(issued := Reissued(g)))
  {
    hide Expected, RequirementOf, Refilled;
    ReissuedIs(g);
  }

  lemma ReopenedInv(g: GroupState, now: Time, o: Options)
    requires GroupInv(g)
    ensures GroupInv(Reopened(g, now, o))
  {
    hide Reopened, ProgressInv, MessageInv, Reissued;
    ReopenedIs(g, now, o);
    ReissuedInv(g);
  }

  lemma TelemetryAccepted(g: GroupState)
    requires TelemetryInv(g)
    ensures ValidTelemetry(g)
  {
  }

  lemma AcknowledgementsAccepted(g: GroupState)
    requires MessageInv(g)
    ensures ValidAcknowledgements(g)
  {
    forall k | k in g.acks ensures CommandsIssued(g, k.phase) && k.participant in IssuedIn(g, k.phase) {
      var found := RequirementOf(g.spec, k.phase, k.participant).value;
      assert found in RequirementsFor(g.spec, k.phase) && found.participant == k.participant;
      assert k.participant in Expected(g.spec, k.phase);
    }
  }

  lemma CommandsRefused(g: GroupState)
    requires MessageInv(g) && g.at.commitPublished && EmptyCommitList(g.spec)
    ensures !ValidCommands(g.(issued := Reissued(g)))
  {
    AllExpectedEmpty(g.spec);
    hide Expected, Reissued, RequirementOf, MessageInv;
    var r := g.(issued := Reissued(g));
    assert PhasePublished(r.at, Commit) && !CommandsIssued(r, Commit);
  }

  lemma CommandsKnown(g: GroupState, ph: Phase)
    requires MessageInv(g) && !(g.at.commitPublished && EmptyCommitList(g.spec)) && ph in g.spec.roles
             && PhasePublished(g.at, ph)
    ensures CommandsIssued(g.(issued := Reissued(g)), ph)
  {
    ReissuedIs(g);
    AllExpectedEmpty(g.spec);
    hide Expected, Reissued, RequirementOf;
    assert ph in Reissued(g);
    assert RequirementsFor(g.spec, ph) != [];
  }

  lemma CommandsAccepted(g: GroupState)
    requires MessageInv(g)
    ensures ValidCommands(g.(issued := Reissued(g))) <==> !(g.at.commitPublished && EmptyCommitList(g.spec))
  {
    if g.at.commitPublished && EmptyCommitList(g.spec) {
      CommandsRefused(g);
    } else {
      ReissuedIs(g);
      hide Expected, Reissued, RequirementOf, EmptyCommitList, CommandsIssued;
      var r := g.(issued := Reissued(g));
      forall ph | ph in r.spec.roles && PhasePublished(r.at, ph) ensures CommandsIssued(r, ph) {
        CommandsKnown(g, ph);
      }
    }
  }

  /** Open accepts a saved group state exactly when it is not past COMMIT
      publication with an empty COMMIT list. */
  lemma OpenAccepts(g: GroupState, now: Time, o: Options)
    requires GroupInv(g)
    ensures ValidGroupState(Reopened(g, now, o)) <==> !(g.at.commitPublished && EmptyCommitList(g.spec))
  {
    ReopenedIs(g, now, o);
    ReissuedInv(g);
    TelemetryAccepted(Reopened(g, now, o));
    AcknowledgementsAccepted(Reopened(g, now, o));
    CommandsAccepted(g);
    assert ValidPublications(Reopened(g, now, o));
  }

  // ------------------------------------------------------- what every step keeps

  lemma BegunInv(s: Spec, now: Time, timeout: nat)
    requires Commanded(s) && s.drainGrace > 0 && now > 0
    ensures GroupInv(Begun(s, now, timeout))
  {
  }

  /** Steps that only save a new group state. */
  predicate SavesGroup(step: Step) {
    !step.Tick? && !step.Begin? && !step.Retain? && !step.FenceEffect? && !step.EnableEffect? && !step.UnfenceEffect?
    && !step.Restart?
  }

  /** Steps that save a group state with other progress or times. */
  predicate MovesGroup(step: Step) {
    SavesGroup(step) && !step.Acknowledge? && !step.Observe? && !step.RecordIntent?
  }

  lemma ProgressKept(a: Progress, step: Step)
    requires ProgressInv(a) && Guard(a, step)
    ensures ProgressInv(ProgressAfter(a, step))
  {
  }

  lemma TimesKept(a: Progress, t: Times, step: Step, now: Time, timeout: nat)
    requires TimesInv(a, t) && MovesGroup(step) && Guard(a, step) && now > 0 && timeout > 0
    ensures TimesInv(ProgressAfter(a, step), TimesAfter(t, step, now, timeout))
  {
    hide LeavePhase, MarkPublished;
  }

  /** Telemetry touches nothing but the telemetry of its sources. */
  lemma {:induction false} ObservedKeeps(g: GroupState, sources: seq<Source>, t: Telemetry, freshness: nat)
    ensures var r := ObservedAll(g, sources, t, freshness);
            r == g.(latest := r.latest, zeroSince := r.zeroSince)
    decreases |sources|
  {
    if sources != [] {
      ObservedKeeps(g, sources[..|sources| - 1], t, freshness);
    }
  }

  /** Publications only grow, a newly published phase has its commands issued,
      and a phase is left only after its commands were published. */
  lemma MessagesCarried(g: GroupState, h: GroupState)
    requires MessageInv(g)
    requires h.spec == g.spec && h.issued == g.issued && h.acks == g.acks
    requires forall ph :: PhasePublished(g.at, ph) ==> PhasePublished(h.at, ph)
    requires forall ph :: ph != Commit && PhasePublished(h.at, ph) && !PhasePublished(g.at, ph) ==> ph in g.issued
    requires h.at.phase == g.at.phase || PhasePublished(h.at, g.at.phase)
    ensures MessageInv(h)
  {
  }

  lemma AcknowledgedInv(g: GroupState, ack: Ack)
    requires GroupInv(g) && AckInScope(g, ack)
    ensures GroupInv(Acked(g, ack))
  {
    assert ack.phase in g.issued;
  }

  lemma IntendedInv(g: GroupState, phase: Phase)
    requires GroupInv(g) && phase == g.at.phase
    ensures GroupInv(WithIntent(g, phase))
  {
  }

  /** Which publications a step may add, and when it may leave a phase. */
  lemma PublishedAfter(a: Progress, step: Step)
    requires ProgressInv(a) && MovesGroup(step) && Guard(a, step)
    ensures var b := ProgressAfter(a, step);
            && (forall ph :: PhasePublished(a, ph) ==> PhasePublished(b, ph))
            && (forall ph :: PhasePublished(b, ph) && !PhasePublished(a, ph) ==>
                  (step.RecordPublished? && ph == step.phase) || ph == Commit
                  || (step.RecordActivatePublished? && ph == Activate))
            && (b.phase == a.phase || PhasePublished(b, a.phase))
  {
  }

  lemma PublishedIsIssued(w: World, g: GroupState, step: Step, o: Options)
    requires Justified(w, g, step, o)
    ensures step.RecordPublished? ==> step.phase in g.issued
    ensures step.RecordActivatePublished? ==> Activate in g.issued
  {
    hide Expected, AckInScope, SampleInScope, SaveMembership, Open, DrainComplete, ControlSnapshot;
  }

  lemma MessagesMoved(w: World, g: GroupState, step: Step, o: Options)
    requires w.p.group == Some(g) && MovesGroup(step) && Guard(g.at, step) && Justified(w, g, step, o)
    requires ProgressInv(g.at) && MessageInv(g)
    ensures MessageInv(GroupAfter(w, step, o))
  {
    hide Justified, Guard, ProgressAfter, ProgressInv, TimesAfter, MessageInv;
    PublishedAfter(g.at, step);
    PublishedIsIssued(w, g, step, o);
    MessagesCarried(g, GroupAfter(w, step, o));
  }

  function At(t: Telemetry, source: Source): Telemetry {
    t.(broker := source.broker, queue := source.queue)
  }

  /** After a sample the latest telemetry of its sources is that sample, and a
      source has a zero interval only while its latest sample is a known zero. */
  lemma {:induction false} ObservedLatest(g: GroupState, sources: seq<Source>, t: Telemetry, freshness: nat)
    requires forall source :: source in g.zeroSince ==> source in g.latest && KnownZero(g.latest[source])
    ensures var r := ObservedAll(g, sources, t, freshness);
            && (forall source :: source in r.latest <==> source in g.latest || source in sources)
            && (forall source :: source in r.latest ==> r.latest[source] == if source in sources then At(t, source)
                else g.latest[source])
            && (forall source :: source in r.zeroSince ==> source in r.latest && KnownZero(r.latest[source]))
    decreases |sources|
  {
    if sources != [] {
      ObservedLatest(g, sources[..|sources| - 1], t, freshness);
      assert sources == sources[..|sources| - 1] + [sources[|sources| - 1]];
    }
  }

  lemma TelemetryObserved(g: GroupState, t: Telemetry, freshness: nat)
    requires TelemetryInv(g) && t.observedAt > 0
    requires t.messageId != "" ==> t.messageId !in g.messages
    ensures TelemetryInv(Observed(g, t, freshness))
  {
    var sources := SourcesFor(g.spec, t);
    ObservedLatest(g, sources, t, freshness);
    ObservedKeeps(g, sources, t, freshness);
    var r := Observed(g, t, freshness);
    forall source | source in r.latest
      ensures source == Source(r.latest[source].broker, r.latest[source].queue)
      ensures r.latest[source].messageId != "" ==>
                r.latest[source].messageId in r.messages
                && SameMessage(r.messages[r.latest[source].messageId], r.latest[source])
    {
      assert r.latest[source] == if source in sources then At(t, source) else g.latest[source];
    }
  }

  lemma ObservedInv(g: GroupState, t: Telemetry, freshness: nat)
    requires GroupInv(g) && t.observedAt > 0
    requires t.messageId != "" ==> t.messageId !in g.messages
    ensures GroupInv(Observed(g, t, freshness))
    ensures Observed(g, t, freshness).spec == g.spec && Observed(g, t, freshness).at == g.at
            && Observed(g, t, freshness).times == g.times
    ensures Observed(g, t, freshness).acks == g.acks
  {
    TelemetryObserved(g, t, freshness);
    ObservedKeeps(g, SourcesFor(g.spec, t), t, freshness);
  }

  lemma MovedInv(w: World, g: GroupState, step: Step, o: Options)
    requires w.p.group == Some(g) && GroupInv(g) && w.now > 0 && ValidOptions(o)
    requires MovesGroup(step) && Guard(g.at, step) && Justified(w, g, step, o)
    ensures GroupInv(GroupAfter(w, step, o))
  {
    hide Guard, Justified, ProgressInv, ProgressAfter, TimesAfter, MessageInv, TimesInv;
    ProgressKept(g.at, step);
    TimesKept(g.at, g.times, step, w.now, o.phaseTimeout);
    MessagesMoved(w, g, step, o);
  }

  lemma StepKeepsGroup(w: World, g: GroupState, step: Step, o: Options)
    requires w.p.group == Some(g) && GroupInv(g) && w.now > 0 && ValidOptions(o)
    requires SavesGroup(step) && Guard(g.at, step) && Justified(w, g, step, o)
    ensures GroupInv(GroupAfter(w, step, o))
  {
    hide GroupInv, AckInScope, Acked, WithIntent, Observed;
    if step.Acknowledge? {
      AcknowledgedInv(g, step.ack);
    } else if step.RecordIntent? {
      IntendedInv(g, step.phase);
    } else if step.Observe? {
      ObservedInv(g, step.sample, o.telemetryFreshness);
    } else {
      MovedInv(w, g, step, o);
    }
  }

  lemma RecordedSame(g: GroupState)
    requires GroupInv(g)
    ensures GroupInv(g.(cleanupRecorded := true))
  {
  }

  /** Where the group state of the next world comes from. */
  lemma SavedGroup(w: World, step: Step, o: Options)
    requires SavesGroup(step) && w.p.group.Some?
    ensures After(w, step, o).now == w.now
    ensures After(w, step, o).p.group in {Some(GroupAfter(w, step, o)),
                                          Some(GroupAfter(w, step, o).(cleanupRecorded := true))}
  {
    hide GroupAfter, EvidenceReady, EvidenceOf, RecordOf;
  }

  lemma RestartedGroup(w: World, step: Step, o: Options)
    requires step.Restart? && w.p.group.Some?
    ensures After(w, step, o).now == w.now
    ensures After(w, step, o).p.group == Some(Reopened(w.p.group.value, w.now, o))
  {
    hide Reopened;
  }

  lemma SameGroup(w: World, step: Step, o: Options)
    requires !SavesGroup(step) && !step.Begin? && !step.Restart? && (NeedsGroup(step) ==> w.p.group.Some?)
    ensures After(w, step, o).p.group == w.p.group
    ensures !step.Tick? ==> After(w, step, o).now == w.now
  {
    hide GroupAfter, EvidenceReady, EvidenceOf, RecordOf;
  }

  /** The group invariant holds after every step, whatever fails. */
  lemma StepInv(w: World, step: Step, h: World, o: Options)
    requires Inv(w) && ValidOptions(o) && Take(w, step, o) == Some(h)
    ensures Inv(h)
  {
    hide GroupInv, Guard, Justified, GroupAfter, Reopened, Begun;
    if SavesGroup(step) {
      SavedGroup(w, step, o);
      StepKeepsGroup(w, w.p.group.value, step, o);
      RecordedSame(GroupAfter(w, step, o));
    } else if step.Begin? {
      BegunInv(step.spec, w.now, o.phaseTimeout);
    } else if step.Restart? {
      RestartedGroup(w, step, o);
      ReopenedInv(w.p.group.value, w.now, o);
    } else {
      SameGroup(w, step, o);
    }
  }

  lemma RunStep(run: seq<World>, steps: seq<Step>, o: Options, i: nat)
    requires IsRun(run, steps, o) && i < |steps|
    ensures Take(run[i], steps[i], o) == Some(run[i + 1]) && ValidOptions(o)
  {
    hide Take;
  }

  lemma {:induction false} RunInv(run: seq<World>, steps: seq<Step>, o: Options, n: nat)
    requires IsRun(run, steps, o) && n < |run|
    ensures Inv(run[n]) && ValidOptions(o)
  {
    hide Take, GroupInv;
    if n > 0 {
      RunInv(run, steps, o, n - 1);
      RunStep(run, steps, o, n - 1);
      hide Inv;
      StepInv(run[n - 1], steps[n - 1], run[n], o);
    }
  }

  // ----------------------------------------------------------- restart closure

  /** No step but Begin replaces the specification. */
  lemma SpecKept(w: World, step: Step, h: World, o: Options)
    requires Inv(w) && Take(w, step, o) == Some(h) && !step.Begin? && w.p.group.Some?
    ensures h.p.group.Some? && h.p.group.value.spec == w.p.group.value.spec
  {
    if SavesGroup(step) {
      SavedGroup(w, step, o);
      if step.Observe? {
        ObservedKeeps(w.p.group.value, SourcesFor(w.p.group.value.spec, step.sample), step.sample,
                      o.telemetryFreshness);
      }
    } else if step.Restart? {
      RestartedGroup(w, step, o);
      ReopenedIs(w.p.group.value, w.now, o);
    } else {
      SameGroup(w, step, o);
    }
  }

  /** The retained membership changes only by a save, which validates it. */
  lemma MembershipKept(w: World, step: Step, h: World, o: Options)
    requires Take(w, step, o) == Some(h)
    ensures h.p.membership == w.p.membership || (step.Retain? && h.p.membership.Some? && Valid(h.p.membership.value))
  {
    hide Valid, Guard, ControlSnapshot, ValidSpec, SaveMembership, After;
    MembershipAfter(w, step, o);
    if step.Retain? {
      StoredIsValid(w.p, ControlSnapshot(w.p.group.value.spec, step.phase, step.rollback));
    }
    hide Justified;
  }

  lemma MembershipAfter(w: World, step: Step, o: Options)
    requires NeedsGroup(step) ==> w.p.group.Some?
    ensures After(w, step, o).p.membership ==
            if step.Retain? then Some(ControlSnapshot(w.p.group.value.spec, step.phase, step.rollback))
              else w.p.membership
  {
    hide GroupAfter, EvidenceReady, EvidenceOf, RecordOf, ControlSnapshot, Reopened, Begun, Replayed;
  }

  lemma StoredIsValid(p: Persistent, s: Snapshot)
    requires SaveMembership(p, s).Stored?
    ensures Valid(s)
  {
    hide Valid;
  }

  lemma BeginSpec(w: World, step: Step, h: World, o: Options)
    requires step.Begin? && Take(w, step, o) == Some(h)
    ensures h.p.group.Some? && h.p.group.value.spec == step.spec && ValidSpec(step.spec)
  {
    hide ValidSpec, BuiltFrom, CanReplaceCompleted;
  }

  predicate DocumentInv(w: World) {
    && (w.p.group.Some? ==> ValidSpec(w.p.group.value.spec))
    && w.p.membership.Some? && Valid(w.p.membership.value)
  }

  lemma DocumentKept(w: World, step: Step, h: World, o: Options)
    requires Inv(w) && DocumentInv(w) && Take(w, step, o) == Some(h)
    ensures DocumentInv(h)
  {
    hide Valid, ValidSpec, Inv;
    MembershipKept(w, step, h, o);
    if step.Begin? {
      BeginSpec(w, step, h, o);
    } else if w.p.group.Some? {
      SpecKept(w, step, h, o);
    }
  }

  lemma {:induction false} RunDocument(run: seq<World>, steps: seq<Step>, o: Options, n: nat)
    requires IsRun(run, steps, o) && n < |run|
    ensures DocumentInv(run[n])
  {
    hide Take, Inv, Valid, ValidSpec;
    if n > 0 {
      RunDocument(run, steps, o, n - 1);
      RunInv(run, steps, o, n - 1);
      RunStep(run, steps, o, n - 1);
      DocumentKept(run[n - 1], steps[n - 1], run[n], o);
    }
  }

  lemma OpenGroup(p: Persistent, now: Time, o: Options)
    requires p.group.Some? && ValidSpec(p.group.value.spec) && (p.membership.Some? ==> Valid(p.membership.value))
    ensures Open(p, now, o) ==
            if ValidGroupState(Reopened(p.group.value, now, o))
              then Opened(p.(group := Some(Reopened(p.group.value, now, o)))) else RefusedOpen
  {
    hide Valid, ValidSpec, Reopened, ValidGroupState;
  }

  /** Whatever the controller saved in any run, Open takes it back unless the
      transition published COMMIT with an empty COMMIT list. Without COMMIT
      requirements Open changes nothing. */
  lemma RestartClosure(run: seq<World>, steps: seq<Step>, o: Options, n: nat, now: Time)
    requires IsRun(run, steps, o) && n < |run|
    ensures var p := run[n].p;
            && (p.group.None? ==> Open(p, now, o) == Opened(p))
            && (p.group.Some? ==>
                  && (Open(p, now, o).Opened? <==>
                      !(p.group.value.at.commitPublished && EmptyCommitList(p.group.value.spec)))
                  && (Commit !in p.group.value.spec.roles ==> Open(p, now, o) == Opened(p)))
  {
    hide IsRun, Take, Valid, ValidSpec, Reopened, ValidGroupState, GroupInv;
    RunInv(run, steps, o, n);
    RunDocument(run, steps, o, n);
    var p := run[n].p;
    if p.group.Some? {
      OpenAccepts(p.group.value, now, o);
      OpenGroup(p, now, o);
      if Commit !in p.group.value.spec.roles {
        ReopenedUnchanged(p.group.value, now, o);
      }
    }
  }

  /** Validation lets the refused shape through. */
  lemma EmptyListValidates(s: Spec)
    requires ValidSpec(s)
    ensures ValidSpec(s.(roles := s.roles[Commit := []])) && EmptyCommitList(s.(roles := s.roles[Commit := []]))
  {
    hide Valid;
    var t := s.(roles := s.roles[Commit := []]);
    assert ControlSnapshot(t, Prepare, false) == ControlSnapshot(s, Prepare, false);
  }

  const SOMEBODY := [Requirement("q", Broker)]
  const A_PUBLISHER := [Requirement("p", Publisher)]
  const OLD_QUEUES := [Resource(1, "b", "x", "q1", "t1")]
  const NEW_QUEUES := [Resource(2, "b", "x", "q2", "t2"), Resource(2, "c", "x", "q3", "t3")]

  /** Growing from one broker to two, with COMMIT listed for nobody. */
  const EMPTY_COMMIT := Spec(
    "t", "", "", "g", 2, 1, 2, [Member("b", "d")], [Member("b", "d"), Member("c", "d")],
    [Descriptor("b", "amqp://h")], [Descriptor("b", "amqp://h"), Descriptor("c", "amqp://h")],
    QueueInfo("q", true), Topic("d"), OLD_QUEUES, NEW_QUEUES, "h", "a", 1,
    map[Prepare := SOMEBODY, Pause := A_PUBLISHER, Drain := SOMEBODY, Commit := [], Activate := A_PUBLISHER])

  lemma OldQueuesValid()
    ensures ValidResources(OLD_QUEUES, 1, ["b"])
  {
    var rs := OLD_QUEUES;
    assert ValidResource(rs[0], 1, ["b"]);
    assert Serves(rs, "b", "x") by { assert rs[0].broker == "b" && rs[0].consumerSet == "x"; }
  }

  lemma NewQueuesValid()
    ensures ValidResources(NEW_QUEUES, 2, ["b", "c"])
  {
    var rs, m := NEW_QUEUES, ["b", "c"];
    assert ValidResource(rs[0], 2, m) && ValidResource(rs[1], 2, m);
    hide ValidResource, NoControlCharacter, NameCharacters, ByteLength;
    assert Serves(rs, "b", "x") by { assert rs[0].broker == "b" && rs[0].consumerSet == "x"; }
    assert Serves(rs, "c", "x") by { assert rs[1].broker == "c" && rs[1].consumerSet == "x"; }
    hide Serves;
    assert DistinctResources(rs);
    forall b, i | 0 <= b < |m| && 0 <= i < |rs| ensures Serves(rs, m[b], rs[i].consumerSet) {
      assert (m[b] == "b" || m[b] == "c") && rs[i].consumerSet == "x";
    }
  }

  lemma ExampleDescribed()
    ensures ValidDescriptors([Descriptor("b", "amqp://h")], ["b"], true)
    ensures ValidDescriptors([Descriptor("b", "amqp://h"), Descriptor("c", "amqp://h")], ["b", "c"], true)
  {
    assert "amqp://h"[7..] == "h";
    assert ValidHost("h");
    assert ValidEndpoint("amqp://h");
    hide ValidEndpoint, ValidHost;
    assert ValidDescriptor(Descriptor("b", "amqp://h"), ["b"]);
    assert ValidDescriptor(Descriptor("b", "amqp://h"), ["b", "c"])
           && ValidDescriptor(Descriptor("c", "amqp://h"), ["b", "c"]);
  }

  lemma ExamplePrepares()
    ensures Valid(ControlSnapshot(EMPTY_COMMIT, Prepare, false))
  {
    var s := ControlSnapshot(EMPTY_COMMIT, Prepare, false);
    assert s.current == ["b"] && s.proposed == ["b", "c"];
    OldQueuesValid();
    NewQueuesValid();
    ExampleDescribed();
    assert ValidNames(s);
    assert ValidMembership(s.current, true) && ValidMembership(s.proposed, false);
    hide ValidNames, ValidMembership, ValidResources, ValidDescriptors;
  }

  /** A concrete specification of the refused shape. */
  lemma EmptyCommitExample()
    ensures ValidSpec(EMPTY_COMMIT) && EmptyCommitList(EMPTY_COMMIT)
  {
    ExamplePrepares();
    hide Valid;
    assert ValidMembers(EMPTY_COMMIT.current) && ValidMembers(EMPTY_COMMIT.proposed);
  }
}
