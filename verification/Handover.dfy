/** Handover exclusion: the controller, every publisher and the messages between them,
    over whole runs. Once the controller enters COMMIT, no required publisher has an
    attempt of the old epoch in flight or in doubt, and none ever starts one.

    Messages may be delayed, repeated and reordered. An acknowledgement that bears a
    publisher's authenticated identity was confirmed by that publisher. */
module Handover {
  import opened Control
  import opened Transition
  import opened ControllerState
  import opened ControllerSteps
  import opened ControllerRestart
  import opened ControllerProgress
  import opened ControllerChain
  import PS = PublisherSteps

  /** A publisher once found itself quiescent for a PAUSE of this transition. */
  datatype Confirmation = Confirmation(who: string, transition: string)

  datatype System = System(w: World, pubs: map<string, PS.Publisher>, sent: set<Confirmation>)

  datatype Move = Control(step: Step) | Publish(who: string, local: PS.PublisherStep)

  predicate FromPublisher(ack: Ack, pubs: map<string, PS.Publisher>) {
    ack.phase == Pause && ack.role == Role.Publisher && ack.authenticated in pubs
  }

  predicate Authentic(s: System, step: Step) {
    step.Acknowledge? && FromPublisher(step.ack, s.pubs) ==>
          Confirmation(step.ack.authenticated, step.ack.transitionId) in s.sent
  }

  function Moved(s: System, m: Move, o: Options): Option<System> {
    match m
    case Control(step) =>
      if Authentic(s, step) && Take(s.w, step, o).Some? then Some(s.(w := Take(s.w, step, o).value)) else None
    case Publish(who, local) =>
      if who in s.pubs && PS.CanStep(s.pubs[who], local, s.w.log) then
        Some(s.(pubs := s.pubs[who := PS.Stepped(s.pubs[who], local)],
                sent := if local.Acknowledge? && s.pubs[who].probe.Counted?
                        then s.sent + {Confirmation(who, s.pubs[who].probe.command.transition)} else s.sent))
      else None
  }

  predicate Fresh(p: PS.Publisher) {
    p.membership.None? && p.floor == 0 && p.unsettled == map[] && p.admission.None? && p.pending == map[]
    && p.seen.None? && p.probe.Idle?
  }

  predicate Starting(s: System) {
    Initial(s.w) && s.sent == {} && forall who :: who in s.pubs ==> Fresh(s.pubs[who])
  }

  predicate IsSystemRun(run: seq<System>, moves: seq<Move>, o: Options) {
    && |run| == |moves| + 1 && ValidOptions(o) && Starting(run[0])
    && forall i :: 0 <= i < |moves| ==> Moved(run[i], moves[i], o) == Some(run[i + 1])
  }

  // ------------------------------------------------------------- the controller's part

  predicate ControllerOk(w: World) {
    Inv(w) && DocumentInv(w) && ChainInv(w)
  }

  lemma ControllerKept(w: World, step: Step, h: World, o: Options)
    requires ControllerOk(w) && ValidOptions(o) && Take(w, step, o) == Some(h)
    ensures ControllerOk(h)
  {
    hide Inv, DocumentInv, Retained, Logged, Take;
    StepInv(w, step, h, o);
    DocumentKept(w, step, h, o);
    RetainedKept(w, step, h, o);
    LoggedKept(w, step, h, o);
  }

  /** A published snapshot of a transition bears an identity begun, and if it is the
      current one it is a snapshot of its specification. */
  predicate IdsBegun(log: seq<Snapshot>, used: set<string>) {
    && log != [] && log[0].phase == ACTIVE
    && (forall i :: 0 <= i < |log| ==> !log[i].phase.UNSUPPORTED?)
    && forall i :: 0 <= i < |log| && log[i].transition.Some? ==> log[i].transition.value.id in used
  }

  predicate PausesOf(log: seq<Snapshot>, s: Spec) {
    forall i :: 0 <= i < |log| && log[i].transition.Some? && log[i].transition.value.id == s.id ==>
      (log[i].phase == PAUSED ==> log[i] == Forwards(s, Pause))
      && (log[i].phase == PREPARE ==> log[i] == Forwards(s, Prepare))
  }

  predicate LogIds(w: World) {
    && IdsBegun(w.log, w.used)
    && (w.p.group.Some? ==> w.p.group.value.spec.id in w.used && PausesOf(w.log, w.p.group.value.spec))
  }

  lemma SnapshotIds(s: Spec, phase: Phase, rollback: bool)
    ensures var c := ControlSnapshot(s, phase, rollback);
            && !c.phase.UNSUPPORTED?
            && (c.transition.Some? ==> c.transition.value.id == s.id)
            && (c.phase == PAUSED ==> c == Forwards(s, Pause))
            && (c.phase == PREPARE ==> c == Forwards(s, Prepare))
  {
  }

  lemma IdsAppended(log: seq<Snapshot>, used: set<string>, s: Spec, phase: Phase, rollback: bool)
    requires IdsBegun(log, used) && s.id in used && PausesOf(log, s)
    ensures IdsBegun(log + [ControlSnapshot(s, phase, rollback)], used)
            && PausesOf(log + [ControlSnapshot(s, phase, rollback)], s)
  {
    hide ControlSnapshot;
    SnapshotIds(s, phase, rollback);
  }

  lemma LogIdsKept(w: World, step: Step, h: World, o: Options)
    requires Inv(w) && LogIds(w) && Take(w, step, o) == Some(h)
    ensures LogIds(h)
  {
    hide Inv, ControlSnapshot, Take, IdsBegun, PausesOf;
    if step.Begin? {
      LogIdsBegun(w, step, h, o);
    } else {
      MembershipSavedStep(w, step, h, o);
      if w.p.group.None? {
        NoGroupStays(w, step, h, o);
      } else {
        SpecKept(w, step, h, o);
        if step.Retain? {
          IdsAppended(w.log, w.used, w.p.group.value.spec, step.phase, step.rollback);
        }
      }
    }
  }

  lemma LogIdsBegun(w: World, step: Step, h: World, o: Options)
    requires step.Begin? && LogIds(w) && Take(w, step, o) == Some(h)
    ensures LogIds(h)
  {
    hide ValidSpec, BuiltFrom, CanReplaceCompleted, Forwards;
  }

  predicate AcksGrow(g: GroupState, step: Step, h: GroupState) {
    && (forall k :: k in g.acks ==> k in h.acks)
    && (forall k :: k in h.acks ==>
        k in g.acks || (step.Acknowledge? && k == AckKey(step.ack.phase, step.ack.participant)))
  }

  lemma AcksSaved(w: World, g: GroupState, step: Step, o: Options)
    requires SavesGroup(step) && w.p.group == Some(g)
    ensures AcksGrow(g, step, GroupAfter(w, step, o))
  {
    hide ProgressAfter, TimesAfter, ObservedAll, Expected;
    if step.Observe? {
      ObservedKeeps(g, SourcesFor(g.spec, step.sample), step.sample, o.telemetryFreshness);
    }
  }

  lemma AckTaken(w: World, g: GroupState, step: Step, h: World, o: Options)
    requires step.Acknowledge? && w.p.group == Some(g) && Take(w, step, o) == Some(h)
    ensures AckInScope(g, step.ack)
  {
    hide AckInScope, AckIsNews;
  }

  lemma TakeIs(w: World, step: Step, h: World, o: Options)
    requires Take(w, step, o) == Some(h)
    ensures (NeedsGroup(step) ==> w.p.group.Some?) && h == After(w, step, o)
  {
    hide After, Guard, Justified, MayBegin;
  }

  /** Acknowledgements are kept for as long as the transition, and only an
      acknowledgement in scope adds one. */
  lemma AcksKept(w: World, g: GroupState, step: Step, h: World, o: Options)
    requires Inv(w) && Take(w, step, o) == Some(h) && !step.Begin? && w.p.group == Some(g)
    ensures h.p.group.Some? && h.p.group.value.spec == g.spec && AcksGrow(g, step, h.p.group.value)
    ensures step.Acknowledge? ==> AckInScope(g, step.ack)
  {
    hide Take, After, ProgressInv, TimesInv, MessageInv, TelemetryInv, GroupAfter, Reopened, AckInScope;
    TakeIs(w, step, h, o);
    SpecKept(w, step, h, o);
    if step.Acknowledge? {
      AckTaken(w, g, step, h, o);
    }
    if SavesGroup(step) {
      SavedGroup(w, step, o);
      AcksSaved(w, g, step, o);
    } else if step.Restart? {
      RestartedGroup(w, step, o);
      ReopenedIs(g, w.now, o);
    } else {
      SameGroup(w, step, o);
    }
  }

  /** DRAIN is entered only with every PAUSE acknowledgement. */
  predicate PauseAcked(w: World) {
    w.p.group.Some? && Rank(w.p.group.value.at.phase) >= 3 ==> AllAcknowledged(w.p.group.value, Pause)
  }

  lemma PauseAckedKept(w: World, step: Step, h: World, o: Options)
    requires Inv(w) && PauseAcked(w) && Take(w, step, o) == Some(h)
    ensures PauseAcked(h)
  {
    hide Inv, Take, AckInScope;
    if step.Begin? {
      BeginsInPrepare(w, step, h, o);
    } else if w.p.group.None? {
      NoGroupStays(w, step, h, o);
    } else {
      AcksKept(w, w.p.group.value, step, h, o);
      EntersDrainAcked(w, w.p.group.value, step, h, o);
    }
  }

  lemma BeginsInPrepare(w: World, step: Step, h: World, o: Options)
    requires step.Begin? && Take(w, step, o) == Some(h)
    ensures h.p.group.Some? && h.p.group.value.at == NOT_STARTED && h.p.group.value.acks == map[]
            && h.p.group.value.spec == step.spec
  {
    hide MayBegin;
  }

  lemma EntersDrainAcked(w: World, g: GroupState, step: Step, h: World, o: Options)
    requires Inv(w) && Take(w, step, o) == Some(h) && !step.Begin? && w.p.group == Some(g)
    ensures h.p.group.Some? && (Rank(h.p.group.value.at.phase) >= 3 ==>
                                Rank(g.at.phase) >= 3 || AllAcknowledged(g, Pause))
  {
    hide ProgressInv, TimesInv, MessageInv, TelemetryInv, AllAcknowledged, AckInScope, SampleInScope, DrainComplete,
         Open, ControllerState.SaveMembership, CommandsIssued, Reopened, GroupAfter;
    if SavesGroup(step) {
      SavedGroup(w, step, o);
      SavedProgress(w, step, o);
      LeavesPauseGuarded(g.at, step);
    } else if step.Restart? {
      RestartedGroup(w, step, o);
      ReopenedIs(g, w.now, o);
    } else {
      SameGroup(w, step, o);
    }
  }

  lemma LeavesPauseGuarded(a: Progress, step: Step)
    requires Guard(a, step)
    ensures Rank(ProgressAfter(a, step).phase) >= 3 ==> Rank(a.phase) >= 3 || step.EnterDrain?
  {
    PhaseAfter(a, step);
    hide ProgressAfter, PhasePublished;
    if step.EnterCommit? || step.EnterActivate? {
      assert Rank(a.phase) >= 3;
    } else {
      hide Guard;
    }
  }

  // --------------------------------------------------------------- the whole system

  function PauseRevision(s: Spec): nat {
    RevisionFor(s.revision, 1)
  }

  predicate RequiredPublisher(s: Spec, who: string) {
    RequirementOf(s, Pause, who) == Some(Requirement(who, Role.Publisher))
  }

  predicate PubsOk(s: System) {
    forall who :: who in s.pubs ==> PS.PublisherInv(s.pubs[who], s.w.log)
  }

  /** The publisher is clear of everything before some PAUSE of the transition. */
  predicate ClearOf(p: PS.Publisher, log: seq<Snapshot>, transition: string) {
    exists i :: 0 <= i < |log| && PS.IsPause(log[i], transition) && PS.Cleared(p, log[i].revision)
  }

  predicate SentOk(s: System) {
    forall c :: c in s.sent ==> c.who in s.pubs && ClearOf(s.pubs[c.who], s.w.log, c.transition)
  }

  predicate AckedClear(s: System) {
    s.w.p.group.Some? ==>
      forall who :: who in s.pubs && RequiredPublisher(s.w.p.group.value.spec, who)
                    && AckKey(Pause, who) in s.w.p.group.value.acks ==>
        PS.Cleared(s.pubs[who], PauseRevision(s.w.p.group.value.spec))
  }

  predicate SystemInv(s: System) {
    && ControllerOk(s.w) && LogIds(s.w) && PauseAcked(s.w)
    && PubsOk(s) && SentOk(s) && AckedClear(s)
  }

  // ----------------------------------------------------------------- publisher moves

  lemma ClearOfKept(p: PS.Publisher, local: PS.PublisherStep, log: seq<Snapshot>, transition: string)
    requires PS.PublisherInv(p, log) && PS.CanStep(p, local, log) && ClearOf(p, log, transition)
    ensures ClearOf(PS.Stepped(p, local), log, transition)
  {
    hide PS.PublisherInv, PS.CanStep, PS.Stepped, PS.Cleared;
    var i :| 0 <= i < |log| && PS.IsPause(log[i], transition) && PS.Cleared(p, log[i].revision);
    PS.ClearedKept(p, local, log, log[i].revision);
  }

  /** After PAUSED was read, nothing durable unsettled and then nothing pending clears the
      publisher, whatever was started in between. */
  lemma QuiescentClears(p: PS.Publisher, log: seq<Snapshot>)
    requires PS.PublisherInv(p, log) && p.probe.Counted? && p.pending == map[]
    ensures ClearOf(p, log, p.probe.command.transition)
  {
    hide PS.Published;
    var i :| 0 <= i < |log| && PS.IsPause(log[i], p.probe.command.transition) && log[i].revision <= p.floor
             && forall id :: id in p.unsettled ==> p.unsettled[id].revision >= log[i].revision;
    assert PS.Cleared(p, log[i].revision);
  }

  lemma PublisherMoveKeeps(s: System, who: string, local: PS.PublisherStep, t: System, o: Options)
    requires SystemInv(s) && Moved(s, Publish(who, local), o) == Some(t)
    ensures SystemInv(t)
  {
    hide ControllerOk, LogIds, PauseAcked, PS.PublisherInv, PS.CanStep, PS.Stepped, PS.Cleared, ClearOf;
    var p := s.pubs[who];
    PS.PublisherKeeps(p, local, s.w.log);
    forall c | c in t.sent ensures c.who in t.pubs && ClearOf(t.pubs[c.who], t.w.log, c.transition) {
      if c !in s.sent {
        ConfirmationClears(p, local, s.w.log);
      } else if c.who == who {
        ClearOfKept(p, local, s.w.log, c.transition);
      }
    }
    forall q, r | q in t.pubs && PS.Cleared(s.pubs[q], r) ensures PS.Cleared(t.pubs[q], r) {
      if q == who {
        PS.ClearedKept(p, local, s.w.log, r);
      }
    }
  }

  lemma ConfirmationClears(p: PS.Publisher, local: PS.PublisherStep, log: seq<Snapshot>)
    requires PS.PublisherInv(p, log) && PS.CanStep(p, local, log) && local.Acknowledge? && p.probe.Counted?
    ensures ClearOf(PS.Stepped(p, local), log, p.probe.command.transition)
  {
    QuiescentClears(p, log);
    ClearOfKept(p, local, log, p.probe.command.transition);
  }

  // ---------------------------------------------------------------- controller moves

  lemma ClearOfGrows(p: PS.Publisher, log: seq<Snapshot>, transition: string, s: Snapshot)
    requires ClearOf(p, log, transition)
    ensures ClearOf(p, log + [s], transition)
  {
    hide PS.Cleared;
    var i :| 0 <= i < |log| && PS.IsPause(log[i], transition) && PS.Cleared(p, log[i].revision);
    assert (log + [s])[i] == log[i];
  }

  lemma PublishersUnmoved(s: System, step: Step, t: System, o: Options)
    requires PubsOk(s) && SentOk(s) && Moved(s, Control(step), o) == Some(t)
    ensures PubsOk(t) && SentOk(t)
  {
    hide Take, PS.PublisherInv, ClearOf, ControlSnapshot;
    MembershipSavedStep(s.w, step, t.w, o);
    if step.Retain? {
      var next := ControlSnapshot(s.w.p.group.value.spec, step.phase, step.rollback);
      forall who | who in s.pubs ensures PS.PublisherInv(s.pubs[who], t.w.log) {
        PS.PublishedGrows(s.pubs[who], s.w.log, next);
      }
      forall c | c in s.sent ensures ClearOf(s.pubs[c.who], t.w.log, c.transition) {
        ClearOfGrows(s.pubs[c.who], s.w.log, c.transition, next);
      }
    }
  }

  /** An accepted PAUSE acknowledgement of a required publisher was confirmed by it
      for this very transition. */
  lemma AcceptedIsClear(s: System, g: GroupState, ack: Ack, who: string)
    requires s.w.p.group == Some(g) && PausesOf(s.w.log, g.spec) && SentOk(s) && Authentic(s, Step.Acknowledge(ack))
    requires AckInScope(g, ack) && ack.phase == Pause && ack.participant == who && who in s.pubs
             && RequiredPublisher(g.spec, who)
    ensures PS.Cleared(s.pubs[who], PauseRevision(g.spec))
  {
    hide PS.Cleared, CommandsIssued, SnapshotAt;
    assert Confirmation(who, g.spec.id) in s.sent;
    var i :| 0 <= i < |s.w.log| && PS.IsPause(s.w.log[i], g.spec.id) && PS.Cleared(s.pubs[who], s.w.log[i].revision);
    assert s.w.log[i] == Forwards(g.spec, Pause);
    PauseRevisionIs(g.spec);
  }

  lemma PauseRevisionIs(s: Spec)
    ensures Forwards(s, Pause).revision == PauseRevision(s)
  {
  }

  lemma AckedClearKept(s: System, step: Step, t: System, o: Options)
    requires SystemInv(s) && Moved(s, Control(step), o) == Some(t)
    ensures AckedClear(t)
  {
    hide Take, PS.Cleared, Inv, DocumentInv, ChainInv, PauseAcked, PubsOk, SentOk, PausesOf, IdsBegun, AckInScope,
         RequiredPublisher, PauseRevision;
    if step.Begin? {
      BeginsInPrepare(s.w, step, t.w, o);
    } else if s.w.p.group.None? {
      NoGroupStays(s.w, step, t.w, o);
    } else {
      var g := s.w.p.group.value;
      AcksKept(s.w, g, step, t.w, o);
      forall who | who in t.pubs && RequiredPublisher(g.spec, who) && AckKey(Pause, who) in t.w.p.group.value.acks
        ensures PS.Cleared(t.pubs[who], PauseRevision(g.spec))
      {
        if AckKey(Pause, who) !in g.acks {
          AcceptedIsClear(s, g, step.ack, who);
        }
      }
    }
  }

  lemma ControllerMoveKeeps(s: System, step: Step, t: System, o: Options)
    requires SystemInv(s) && ValidOptions(o) && Moved(s, Control(step), o) == Some(t)
    ensures SystemInv(t)
  {
    AckedClearKept(s, step, t, o);
    hide Take, ControllerOk, LogIds, PauseAcked, PubsOk, SentOk, AckedClear, Authentic;
    assert Inv(s.w) by { ControllerIsOk(s.w); }
    ControllerKept(s.w, step, t.w, o);
    LogIdsKept(s.w, step, t.w, o);
    PauseAckedKept(s.w, step, t.w, o);
    PublishersUnmoved(s, step, t, o);
  }

  lemma ControllerIsOk(w: World)
    requires ControllerOk(w)
    ensures Inv(w) && DocumentInv(w) && ChainInv(w)
  {
  }

  lemma MoveKeeps(s: System, m: Move, t: System, o: Options)
    requires SystemInv(s) && ValidOptions(o) && Moved(s, m, o) == Some(t)
    ensures SystemInv(t)
  {
    hide SystemInv, Moved;
    match m
    case Control(step) => ControllerMoveKeeps(s, step, t, o);
    case Publish(who, local) => PublisherMoveKeeps(s, who, local, t, o);
  }

  lemma SystemStarts(s: System)
    requires Starting(s)
    ensures SystemInv(s)
  {
    hide Valid, BuiltFrom;
    InitialRetained(s.w);
    ActiveStandsAlone(s.w.p.membership.value);
  }

  lemma ActiveStandsAlone(s: Snapshot)
    requires Valid(s) && s.phase == ACTIVE
    ensures s.transition.None?
  {
    hide ValidNames, ValidMembership, ValidDescriptors, ValidResources;
  }

  lemma {:induction false} RunSystem(run: seq<System>, moves: seq<Move>, o: Options, n: nat)
    requires IsSystemRun(run, moves, o) && n < |run|
    ensures SystemInv(run[n]) && ValidOptions(o)
  {
    hide Moved, SystemInv, Starting;
    if n == 0 {
      SystemStarts(run[0]);
    } else {
      RunSystem(run, moves, o, n - 1);
      assert Moved(run[n - 1], moves[n - 1], o) == Some(run[n]);
      MoveKeeps(run[n - 1], moves[n - 1], run[n], o);
    }
  }

  // ----------------------------------------------------- after the point of no return

  predicate LogSealed(log: seq<Snapshot>, revision: nat, epoch: nat) {
    forall i :: 0 <= i < |log| && log[i].revision >= revision && PS.Dispatchable(log[i]) ==> log[i].epoch >= epoch
  }

  /** Nothing published from that revision on lets a publisher work in an epoch below
      the given one, now or later. */
  predicate Sealed(w: World, revision: nat, epoch: nat) {
    && LogSealed(w.log, revision, epoch)
    && w.p.membership.Some?
    && (w.p.membership.value.epoch >= epoch
        || (w.p.group.Some? && w.p.group.value.spec.toEpoch == epoch && Forward(w.p.group.value.at, Commit)))
  }

  /** Before a DRAIN snapshot comes one of the same transition. */
  lemma BeforeDrain(m: Snapshot, s: Spec)
    requires Compare(m, Forwards(s, Drain)) == Newer
    ensures m.phase != ACTIVE && m.transition == Forwards(s, Drain).transition
            && m.revision < Forwards(s, Drain).revision
  {
  }

  lemma DrainFacts(s: Spec)
    ensures Forwards(s, Drain).phase == DRAIN && Forwards(s, Drain).revision == PauseRevision(s) + 1
    ensures Forwards(s, Drain).transition.Some? && Forwards(s, Drain).transition.value.id == s.id
    ensures Forwards(s, Prepare).revision < PauseRevision(s)
    ensures Forwards(s, Commit).epoch == s.toEpoch && Forwards(s, Commit).phase == COMMITTED
            && Forwards(s, Activate).epoch == s.toEpoch
  {
  }

  lemma SealedByDrain(log: seq<Snapshot>, s: Spec, epoch: nat)
    requires Chain(log) && log != [] && log[|log| - 1] == Forwards(s, Drain) && PausesOf(log, s)
    ensures LogSealed(log, PauseRevision(s), epoch)
  {
    hide Chain, Forwards, PauseRevision;
    DrainFacts(s);
    ChainRises(log);
    var n := |log| - 1;
    if n > 0 {
      assert Compare(log[n - 1], log[n]) == Newer by { ChainAt(log, n); }
      BeforeDrain(log[n - 1], s);
    }
    forall i | 0 <= i < |log| && PS.Dispatchable(log[i]) ensures log[i].revision < PauseRevision(s) {
      if i < n - 1 {
        assert log[i].revision < log[n - 1].revision;
      }
    }
  }

  lemma ChainAt(log: seq<Snapshot>, i: nat)
    requires Chain(log) && 0 < i < |log|
    ensures Compare(log[i - 1], log[i]) == Newer
  {
    hide Compare;
  }

  lemma SealedAtCommit(w: World, step: Step, h: World, o: Options)
    requires step.EnterCommit? && ControllerOk(w) && LogIds(w) && Take(w, step, o) == Some(h)
    ensures w.p.group.Some? && h.p.group.Some? && h.p.group.value.spec == w.p.group.value.spec
    ensures Sealed(h, PauseRevision(w.p.group.value.spec), w.p.group.value.spec.toEpoch)
    ensures w.p.group.value.at.phase == Drain
  {
    hide Justified, TimesInv, MessageInv, TelemetryInv, Chain, Valid, ValidSpec, ControlSnapshot, LogSealed,
         PauseRevision;
    var g := w.p.group.value;
    SpecKept(w, step, h, o);
    SavedGroup(w, step, o);
    SavedProgress(w, step, o);
    MembershipSaved(w, step, o);
    assert w.p.membership.value == Forwards(g.spec, Drain);
    SealedByDrain(w.log, g.spec, g.spec.toEpoch);
  }

  lemma SealedUnlessRetained(w: World, step: Step, h: World, o: Options, revision: nat, epoch: nat)
    requires ControllerOk(w) && Sealed(w, revision, epoch) && Take(w, step, o) == Some(h) && !step.Retain?
    ensures Sealed(h, revision, epoch)
  {
    hide Justified, TimesInv, MessageInv, TelemetryInv, Chain, Valid, ControlSnapshot, LogSealed;
    MembershipSavedStep(w, step, h, o);
    if w.p.membership.value.epoch < epoch {
      CommitUnpublished(w, w.p.group.value);
      CommitStays(w, w.p.group.value, step, h, o);
    }
  }

  /** At COMMIT with an older snapshot retained, COMMITTED is not yet published. */
  lemma CommitUnpublished(w: World, g: GroupState)
    requires w.p.group == Some(g) && Retained(w) && Forward(g.at, Commit) && w.p.membership.value.epoch < g.spec.toEpoch
    ensures !g.at.commitPublished
  {
    DrainFacts(g.spec);
    hide ControlSnapshot, BuiltFrom;
  }

  lemma CommitGuards(a: Progress, step: Step)
    requires Forward(a, Commit) && !a.commitPublished && Guard(a, step)
    ensures Forward(ProgressAfter(a, step), Commit)
  {
    hide MarkPublished, PhasePublished;
  }

  lemma GuardHolds(w: World, g: GroupState, step: Step, h: World, o: Options)
    requires NeedsGroup(step) && w.p.group == Some(g) && Take(w, step, o) == Some(h)
    ensures Guard(g.at, step)
  {
    hide Guard, Justified;
  }

  lemma CommitStays(w: World, g: GroupState, step: Step, h: World, o: Options)
    requires Inv(w) && w.p.group == Some(g) && Forward(g.at, Commit) && !g.at.commitPublished
             && Take(w, step, o) == Some(h)
    ensures h.p.group.Some? && h.p.group.value.spec == g.spec && Forward(h.p.group.value.at, Commit)
  {
    hide Take, After, Guard, TimesInv, MessageInv, TelemetryInv, ProgressInv, GroupAfter, Reopened, ProgressAfter;
    TakeIs(w, step, h, o);
    if step.Begin? {
      BeginNeedsCompleted(w, g, step, h, o);
    } else {
      SpecKept(w, step, h, o);
      if SavesGroup(step) {
        GuardHolds(w, g, step, h, o);
        CommitGuards(g.at, step);
        SavedGroup(w, step, o);
        SavedProgress(w, step, o);
      } else if step.Restart? {
        RestartedGroup(w, step, o);
        ReopenedIs(g, w.now, o);
      } else {
        SameGroup(w, step, o);
      }
    }
  }

  lemma BeginNeedsCompleted(w: World, g: GroupState, step: Step, h: World, o: Options)
    requires step.Begin? && w.p.group == Some(g) && Take(w, step, o) == Some(h)
    ensures g.at.completed
  {
    hide ValidSpec, BuiltFrom;
  }

  lemma SealedRetained(w: World, step: Step, h: World, o: Options, revision: nat, epoch: nat)
    requires ControllerOk(w) && Sealed(w, revision, epoch) && Take(w, step, o) == Some(h) && step.Retain?
    ensures Sealed(h, revision, epoch)
  {
    hide Justified, TimesInv, MessageInv, TelemetryInv, Chain, Valid, ValidSpec, ControlSnapshot, Retained, ProgressInv,
         Compare;
    MembershipSavedStep(w, step, h, o);
    var g := w.p.group.value;
    SaveNeverRefused(w, g, step.phase, step.rollback);
    var next := ControlSnapshot(g.spec, step.phase, step.rollback);
    if w.p.membership != Some(next) {
      NewerEpoch(w.p.membership.value, next);
    }
    if w.p.membership.value.epoch < epoch {
      DrainFacts(g.spec);
      assert next == Forwards(g.spec, Commit);
    }
    assert next.epoch >= epoch;
  }

  lemma NewerEpoch(a: Snapshot, b: Snapshot)
    requires Compare(a, b) == Newer
    ensures b.epoch >= a.epoch
  {
    hide Advance;
  }

  lemma SealedKept(w: World, step: Step, h: World, o: Options, revision: nat, epoch: nat)
    requires ControllerOk(w) && Sealed(w, revision, epoch) && Take(w, step, o) == Some(h)
    ensures Sealed(h, revision, epoch)
  {
    hide ControllerOk, Sealed, Take;
    if step.Retain? {
      SealedRetained(w, step, h, o, revision, epoch);
    } else {
      SealedUnlessRetained(w, step, h, o, revision, epoch);
    }
  }

  // ------------------------------------------------------------------ the main results

  /** The publisher is clear of everything before the revision, and the revision seals
      off every older epoch. */
  predicate Handed(s: System, who: string, revision: nat, epoch: nat) {
    who in s.pubs && PS.Cleared(s.pubs[who], revision) && Sealed(s.w, revision, epoch)
  }

  lemma HandedKept(s: System, m: Move, t: System, o: Options, who: string, revision: nat, epoch: nat)
    requires SystemInv(s) && Moved(s, m, o) == Some(t) && Handed(s, who, revision, epoch)
    ensures Handed(t, who, revision, epoch)
  {
    hide ControllerOk, LogIds, PauseAcked, SentOk, AckedClear, Sealed, PS.Cleared, Take, PS.CanStep, PS.Stepped,
         PS.PublisherInv;
    match m
    case Control(step) =>
      SealedKept(s.w, step, t.w, o, revision, epoch);
    case Publish(q, local) =>
      if q == who {
        PS.ClearedKept(s.pubs[who], local, s.w.log, revision);
      }
  }

  lemma HandedAtCommit(s: System, step: Step, t: System, o: Options, who: string)
    requires SystemInv(s) && Moved(s, Control(step), o) == Some(t) && step.EnterCommit?
    requires s.w.p.group.Some? && RequiredPublisher(s.w.p.group.value.spec, who) && who in s.pubs
    ensures Handed(t, who, PauseRevision(s.w.p.group.value.spec), s.w.p.group.value.spec.toEpoch)
  {
    hide ControllerOk, LogIds, PubsOk, SentOk, Sealed, PS.Cleared, Take, PauseRevision;
    SealedAtCommit(s.w, step, t.w, o);
    RequiredIsAcked(s.w.p.group.value, who);
  }

  lemma RequiredIsAcked(g: GroupState, who: string)
    requires AllAcknowledged(g, Pause) && RequiredPublisher(g.spec, who)
    ensures AckKey(Pause, who) in g.acks
  {
    var r := RequirementOf(g.spec, Pause, who).value;
    assert r in RequirementsFor(g.spec, Pause);
  }

  lemma {:induction false} HandedFrom(run: seq<System>, moves: seq<Move>, o: Options, k: nat, n: nat, who: string)
    requires IsSystemRun(run, moves, o) && k < |moves| && moves[k].Control? && moves[k].step.EnterCommit?
             && k < n < |run|
    requires run[k].w.p.group.Some? && RequiredPublisher(run[k].w.p.group.value.spec, who) && who in run[k].pubs
    ensures Handed(run[n], who, PauseRevision(run[k].w.p.group.value.spec), run[k].w.p.group.value.spec.toEpoch)
  {
    hide Moved, SystemInv, Starting, Handed, RequiredPublisher, PauseRevision;
    RunSystem(run, moves, o, n - 1);
    assert Moved(run[n - 1], moves[n - 1], o) == Some(run[n]);
    if n == k + 1 {
      HandedAtCommit(run[k], moves[k].step, run[n], o, who);
    } else {
      HandedFrom(run, moves, o, k, n - 1, who);
      HandedKept(run[n - 1], moves[n - 1], run[n], o, who, PauseRevision(run[k].w.p.group.value.spec),
                 run[k].w.p.group.value.spec.toEpoch);
    }
  }

  lemma HandedMeans(s: System, who: string, revision: nat, epoch: nat)
    requires PubsOk(s) && Handed(s, who, revision, epoch)
    ensures forall id :: id in s.pubs[who].unsettled ==> s.pubs[who].unsettled[id].epoch >= epoch
    ensures forall id :: id in s.pubs[who].pending ==> s.pubs[who].pending[id].epoch >= epoch
    ensures s.pubs[who].admission.Some? ==> forall id :: id in s.pubs[who].admission.value ==>
              s.pubs[who].admission.value[id].epoch >= epoch
    ensures s.pubs[who].membership.Some? && PS.Dispatchable(s.pubs[who].membership.value) ==>
              s.pubs[who].membership.value.epoch >= epoch
  {
    forall a: PS.Attempt | PS.Published(a, s.w.log) && a.revision >= revision ensures a.epoch >= epoch {
      var i :| 0 <= i < |s.w.log| && s.w.log[i].revision == a.revision && s.w.log[i].epoch == a.epoch
               && PS.Dispatchable(s.w.log[i]);
    }
  }

  /** Once the controller has entered COMMIT, at every later point of the run, through
      all later transitions, no required publisher has an attempt of the old epoch in
      flight, pending or in doubt, and no attempt it starts is of the old epoch. */
  lemma HandoverExclusion(run: seq<System>, moves: seq<Move>, o: Options, k: nat, n: nat, who: string)
    requires IsSystemRun(run, moves, o) && k < |moves| && moves[k].Control? && moves[k].step.EnterCommit?
             && k < n < |run|
    requires run[k].w.p.group.Some? && RequiredPublisher(run[k].w.p.group.value.spec, who) && who in run[k].pubs
    ensures who in run[n].pubs
    ensures var epoch := run[k].w.p.group.value.spec.toEpoch;
            && (forall id :: id in run[n].pubs[who].unsettled ==> run[n].pubs[who].unsettled[id].epoch >= epoch)
            && (forall id :: id in run[n].pubs[who].pending ==> run[n].pubs[who].pending[id].epoch >= epoch)
            && (run[n].pubs[who].admission.Some? ==>
                  forall id :: id in run[n].pubs[who].admission.value ==>
                        run[n].pubs[who].admission.value[id].epoch >= epoch)
            && (n < |moves| && moves[n].Publish? && moves[n].who == who && moves[n].local.Start? ==>
                  run[n].pubs[who].membership.Some? && run[n].pubs[who].membership.value.epoch >= epoch)
  {
    hide Starting, PauseRevision, RequiredPublisher, Sealed, PS.Cleared, ControllerOk, LogIds, PauseAcked, SentOk,
         AckedClear, PubsOk, Take;
    HandedFrom(run, moves, o, k, n, who);
    RunSystem(run, moves, o, n);
    HandedMeans(run[n], who, PauseRevision(run[k].w.p.group.value.spec), run[k].w.p.group.value.spec.toEpoch);
    if n < |moves| {
      assert Moved(run[n], moves[n], o) == Some(run[n + 1]);
    }
  }

  lemma {:induction false} ActiveFirst(log: seq<Snapshot>, j: nat) returns (i: nat)
    requires Chain(log) && j < |log| && log[0].phase == ACTIVE && PS.Dispatchable(log[j])
    requires forall k :: 0 <= k < |log| ==> !log[k].phase.UNSUPPORTED?
    ensures i <= j && log[i].phase == ACTIVE && log[i].epoch == log[j].epoch
  {
    if log[j].phase == ACTIVE {
      i := j;
    } else {
      assert Compare(log[j - 1], log[j]) == Newer;
      assert PS.Dispatchable(log[j - 1]) && log[j - 1].epoch == log[j].epoch;
      i := ActiveFirst(log, j - 1);
    }
  }

  /** No publisher starts an attempt of an epoch before an ACTIVE snapshot of that
      epoch was published. */
  lemma ActiveBeforeAttempts(run: seq<System>, moves: seq<Move>, o: Options, n: nat, who: string, ids: set<string>)
    requires IsSystemRun(run, moves, o) && n < |moves| && moves[n] == Publish(who, PS.Start(ids))
    ensures who in run[n].pubs && run[n].pubs[who].membership.Some?
    ensures exists i :: 0 <= i < |run[n].w.log| && run[n].w.log[i].phase == ACTIVE
                        && run[n].w.log[i].epoch == run[n].pubs[who].membership.value.epoch
  {
    hide Starting, Inv, DocumentInv, PauseAcked, SentOk, AckedClear, Retained, Chain, Take;
    RunSystem(run, moves, o, n);
    assert Moved(run[n], moves[n], o) == Some(run[n + 1]);
    var m := run[n].pubs[who].membership.value;
    assert PS.PublisherInv(run[n].pubs[who], run[n].w.log);
    var j :| 0 <= j < |run[n].w.log| && run[n].w.log[j] == m;
    var i := ActiveFirst(run[n].w.log, j);
  }
}
