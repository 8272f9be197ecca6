/** One publisher of a scaling group as its surroundings see it: the membership it
    works under, the attempts it has not settled, and how it comes to acknowledge
    PAUSE. Follows shim/publisher/publisher.go, shim/publisher/async_dispatcher.go
    and runtime/participant.go. */
module PublisherSteps {
  import opened Control

  /** A publish attempt with its epoch and the revision it was started under. */
  datatype Attempt = Attempt(epoch: nat, revision: nat)

  type Attempts = map<string, Attempt>

  /** The part of a PAUSE command that the publisher compares. */
  datatype PauseCommand = PauseCommand(transition: string, epoch: nat)

  /** Executing a PAUSE command: the phase evidence matched, PAUSED was found installed,
      and then, as often as needed, the membership, the durable records and the pending
      attempts are read one after the other. */
  datatype Probe =
    | Idle
    | Matched(command: PauseCommand)
    | Watching(command: PauseCommand)
    | Checking(command: PauseCommand)
    | Counted(command: PauseCommand)

  datatype Publisher = Publisher(
    membership: Option<Snapshot>,
    floor: nat,                     // the largest revision applied so far
    unsettled: Attempts,            // durable records in flight or ACK-uncertain
    admission: Option<Attempts>,    // attempts of the admission that holds the membership
    pending: Attempts,              // native attempts without a durable result
    seen: Option<Snapshot>,         // phase evidence for command executors
    probe: Probe)

  datatype PublisherStep =
    | Apply(snapshot: Snapshot)
    | Notice(snapshot: Snapshot)
    | ClearPhase
    | FailClosed
    | Start(ids: set<string>)
    | Register
    | Finish
    | Settle(ids: set<string>)
    | Release(ids: set<string>)
    | Match(command: PauseCommand)
    | Find
    | ReadMembership
    | CountDurable
    | CountAgain
    | Acknowledge
    | Abandon
    | Crash

  predicate Dispatchable(s: Snapshot) {
    s.phase == ACTIVE || s.phase == PREPARE
  }

  predicate IsPause(s: Snapshot, transition: string) {
    s.phase == PAUSED && s.transition.Some? && s.transition.value.id == transition
  }

  predicate Matches(s: Snapshot, c: PauseCommand) {
    IsPause(s, c.transition) && s.transition.value.toEpoch == c.epoch
  }

  /** Snapshots arrive from the published ones, never with a smaller revision than
      before, and not while an admission holds the membership. */
  predicate CanStep(p: Publisher, step: PublisherStep, published: seq<Snapshot>) {
    match step
    case Apply(s) =>
      p.admission.None? && s in published && s.revision >= p.floor
      && (p.membership.Some? ==> s.revision > p.membership.value.revision)
    case Notice(s) => s in published && s.revision <= p.floor
    case FailClosed => p.admission.None?
    case Start(ids) => p.admission.None? && p.membership.Some? && Dispatchable(p.membership.value)
    && ids !! p.unsettled.Keys
    case Register => p.admission.Some?
    case Finish => p.admission.Some?
    case Match(c) => p.probe.Idle? && p.seen.Some? && Matches(p.seen.value, c)
    case Find => p.probe.Matched? && p.membership.Some? && IsPause(p.membership.value, p.probe.command.transition)
    case ReadMembership => p.probe.Watching? && p.membership.Some? && p.membership.value.phase == PAUSED
    case CountDurable => p.probe.Checking? && p.unsettled == map[]
    case CountAgain => (p.probe.Checking? && p.unsettled != map[]) || (p.probe.Counted? && p.pending != map[])
    case Acknowledge => p.probe.Counted? && p.pending == map[]
    case _ => true
  }

  function Started(attempts: Attempts, ids: set<string>, a: Attempt): Attempts {
    map id | id in attempts.Keys + ids :: if id in ids then a else attempts[id]
  }

  function Stepped(p: Publisher, step: PublisherStep): Publisher {
    match step
    case Apply(s) => p.(membership := Some(s), floor := s.revision)
    case Notice(s) => p.(seen := Some(s))
    case ClearPhase => p.(seen := None)
    case FailClosed => p.(membership := None)
    case Start(ids) =>
      if p.membership.None? then p
      else
        var a := Attempt(p.membership.value.epoch, p.membership.value.revision);
        p.(unsettled := Started(p.unsettled, ids, a), admission := Some(Started(map[], ids, a)))
    case Register => if p.admission.Some? then p.(pending := p.pending + p.admission.value) else p
    case Finish => p.(admission := None)
    case Settle(ids) => p.(unsettled := p.unsettled - ids)
    case Release(ids) => p.(pending := p.pending - ids)
    case Match(c) => p.(probe := Matched(c))
    case Find => if p.probe.Matched? then p.(probe := Watching(p.probe.command)) else p
    case ReadMembership => if p.probe.Watching? then p.(probe := Checking(p.probe.command)) else p
    case CountDurable => if p.probe.Checking? then p.(probe := Counted(p.probe.command)) else p
    case CountAgain => if p.probe.Checking? || p.probe.Counted? then p.(probe := Watching(p.probe.command)) else p
    case Acknowledge => p.(probe := Idle)
    case Abandon => p.(probe := Idle)
    case Crash => p.(membership := None, seen := None, admission := None, pending := map[], probe := Idle)
  }

  // ------------------------------------------------------------- what a publisher keeps

  /** Everything the publisher works under was published. */
  predicate Published(a: Attempt, published: seq<Snapshot>) {
    exists i :: 0 <= i < |published| && published[i].revision == a.revision && published[i].epoch == a.epoch
                && Dispatchable(published[i])
  }

  predicate PausedBelow(published: seq<Snapshot>, transition: string, floor: nat) {
    exists i :: 0 <= i < |published| && IsPause(published[i], transition) && published[i].revision <= floor
  }

  predicate DurablyClear(p: Publisher, published: seq<Snapshot>, transition: string) {
    exists i :: 0 <= i < |published| && IsPause(published[i], transition) && published[i].revision <= p.floor
                && forall id :: id in p.unsettled ==> p.unsettled[id].revision >= published[i].revision
  }

  /** The attempts being admitted are of the membership that is held. */
  predicate AdmissionHeld(p: Publisher) {
    p.admission.Some? ==>
      && p.membership.Some? && Dispatchable(p.membership.value)
      && forall id :: id in p.admission.value ==>
           p.admission.value[id] == Attempt(p.membership.value.epoch, p.membership.value.revision)
  }

  /** Membership, floor and attempts are tied to published snapshots. */
  predicate AttemptsInv(p: Publisher, published: seq<Snapshot>) {
    && (p.membership.Some? ==> p.membership.value in published && p.membership.value.revision == p.floor)
    && AdmissionHeld(p)
    && (forall id :: id in p.unsettled ==> Published(p.unsettled[id], published))
    && (forall id :: id in p.pending ==> Published(p.pending[id], published))
  }

  predicate ProbeInv(p: Publisher, published: seq<Snapshot>) {
    && (p.probe.Watching? || p.probe.Checking? ==> PausedBelow(published, p.probe.command.transition, p.floor))
    && (p.probe.Counted? ==> DurablyClear(p, published, p.probe.command.transition))
  }

  predicate PublisherInv(p: Publisher, published: seq<Snapshot>) {
    AttemptsInv(p, published) && ProbeInv(p, published)
  }

  lemma MembershipPublished(p: Publisher, published: seq<Snapshot>)
    requires PublisherInv(p, published) && p.membership.Some? && Dispatchable(p.membership.value)
    ensures Published(Attempt(p.membership.value.epoch, p.membership.value.revision), published)
  {
    var i :| 0 <= i < |published| && published[i] == p.membership.value;
  }

  /** Once nothing durable was unsettled, only newer attempts come. */
  lemma ClearStays(p: Publisher, q: Publisher, published: seq<Snapshot>, transition: string)
    requires DurablyClear(p, published, transition) && q.floor >= p.floor
    requires forall id :: id in q.unsettled ==> q.unsettled[id].revision >= p.floor
                                                || (id in p.unsettled && p.unsettled[id] == q.unsettled[id])
    ensures DurablyClear(q, published, transition)
  {
    var i :| 0 <= i < |published| && IsPause(published[i], transition) && published[i].revision <= p.floor
             && forall id :: id in p.unsettled ==> p.unsettled[id].revision >= published[i].revision;
  }

  lemma PausedIsBelow(p: Publisher, published: seq<Snapshot>, transition: string)
    requires PublisherInv(p, published) && p.membership.Some? && IsPause(p.membership.value, transition)
    ensures PausedBelow(published, transition, p.floor)
  {
    var i :| 0 <= i < |published| && published[i] == p.membership.value;
  }

  lemma AttemptsKept(p: Publisher, step: PublisherStep, published: seq<Snapshot>)
    requires PublisherInv(p, published) && CanStep(p, step, published)
    ensures AttemptsInv(Stepped(p, step), published) && Stepped(p, step).floor >= p.floor
    ensures forall id :: id in Stepped(p, step).unsettled ==>
              Stepped(p, step).unsettled[id].revision >= p.floor
              || (id in p.unsettled && p.unsettled[id] == Stepped(p, step).unsettled[id])
  {
    hide Published, DurablyClear, PausedBelow;
    if p.membership.Some? && Dispatchable(p.membership.value) {
      MembershipPublished(p, published);
    }
  }

  lemma ProbeKept(p: Publisher, step: PublisherStep, published: seq<Snapshot>)
    requires PublisherInv(p, published) && CanStep(p, step, published) && Stepped(p, step).floor >= p.floor
    requires forall id :: id in Stepped(p, step).unsettled ==>
               Stepped(p, step).unsettled[id].revision >= p.floor
               || (id in p.unsettled && p.unsettled[id] == Stepped(p, step).unsettled[id])
    ensures ProbeInv(Stepped(p, step), published)
  {
    hide Published, DurablyClear, AdmissionHeld;
    var q := Stepped(p, step);
    if p.probe.Counted? {
      ClearStays(p, q, published, p.probe.command.transition);
    }
    match step
    case Find => PausedIsBelow(p, published, p.probe.command.transition);
    case CountDurable =>
      CountedClear(p, published);
      ClearStays(p, q, published, p.probe.command.transition);
    case CountAgain => WatchedAgain(p, published);
    case _ =>
  }

  lemma PublisherKeeps(p: Publisher, step: PublisherStep, published: seq<Snapshot>)
    requires PublisherInv(p, published) && CanStep(p, step, published)
    ensures PublisherInv(Stepped(p, step), published)
    ensures Stepped(p, step).floor >= p.floor
  {
    hide CanStep, Stepped, Published, DurablyClear, PausedBelow, AdmissionHeld;
    AttemptsKept(p, step, published);
    ProbeKept(p, step, published);
  }

  lemma CountedClear(p: Publisher, published: seq<Snapshot>)
    requires PublisherInv(p, published) && p.probe.Checking? && p.unsettled == map[]
    ensures DurablyClear(p, published, p.probe.command.transition)
  {
    var i :| 0 <= i < |published| && IsPause(published[i], p.probe.command.transition)
             && published[i].revision <= p.floor;
  }

  lemma WatchedAgain(p: Publisher, published: seq<Snapshot>)
    requires PublisherInv(p, published) && (p.probe.Checking? || p.probe.Counted?)
    ensures PausedBelow(published, p.probe.command.transition, p.floor)
  {
  }

  lemma PublishedGrows(p: Publisher, published: seq<Snapshot>, s: Snapshot)
    requires PublisherInv(p, published)
    ensures PublisherInv(p, published + [s])
  {
    var more := published + [s];
    forall a | Published(a, published) ensures Published(a, more) {
      var i :| 0 <= i < |published| && published[i].revision == a.revision && published[i].epoch == a.epoch
               && Dispatchable(published[i]);
      assert more[i] == published[i];
    }
    forall t, f | PausedBelow(published, t, f) ensures PausedBelow(more, t, f) {
      var i :| 0 <= i < |published| && IsPause(published[i], t) && published[i].revision <= f;
      assert more[i] == published[i];
    }
    forall t | DurablyClear(p, published, t) ensures DurablyClear(p, more, t) {
      var i :| 0 <= i < |published| && IsPause(published[i], t) && published[i].revision <= p.floor
               && forall id :: id in p.unsettled ==> p.unsettled[id].revision >= published[i].revision;
      assert more[i] == published[i];
    }
  }

  /** Nothing unsettled, being admitted or pending was started before the given revision,
      and nothing will be. */
  predicate Cleared(p: Publisher, revision: nat) {
    && p.floor >= revision
    && (forall id :: id in p.unsettled ==> p.unsettled[id].revision >= revision)
    && (p.admission.Some? ==> forall id :: id in p.admission.value ==> p.admission.value[id].revision >= revision)
    && (forall id :: id in p.pending ==> p.pending[id].revision >= revision)
  }

  lemma ClearedKept(p: Publisher, step: PublisherStep, published: seq<Snapshot>, revision: nat)
    requires PublisherInv(p, published) && CanStep(p, step, published) && Cleared(p, revision)
    ensures Cleared(Stepped(p, step), revision)
  {
    hide Published, PausedBelow, DurablyClear;
  }
}
