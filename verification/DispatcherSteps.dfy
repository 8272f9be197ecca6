/** The asynchronous dispatcher as a step relation. An admission checks the limits,
    selects, marks durably, registers and submits, and every other operation may come
    between any two of these; so it is with storing results and releasing them.
    What the original's locks exclude is a guard here.
    Follows shim/publisher/async_dispatcher.go. */
module DispatcherSteps {
  import opened Control
  import opened OutboxRecords
  import opened OutboxIndex
  import opened OutboxChanges
  import opened OutboxOrder
  import PS = PublisherSteps

  datatype Pending = Pending(number: nat, epoch: nat, group: string, broker: string)

  /** A terminal native result for one attempt. */
  datatype Finished = Finished(eventId: string, number: nat, epoch: nat, outcome: CompletionOutcome, reason: string)

  datatype AttemptId = AttemptId(event: string, number: nat)

  datatype Capacity = Capacity(total: nat, perBroker: nat)

  /** How far the admission in progress is. There is one at a time, and from the
      selection to its end it holds the publisher's membership. */
  datatype Stage =
    | Idle
    | Checked(limit: nat, counts: map<string, nat>)
    | Selected(batch: seq<Record>)
    | Marked(batch: seq<Record>)
    | Submitting(batch: seq<Record>)

  /** The results being stored, and which of them have been. */
  datatype Committing = NoResults | Storing(batch: seq<Finished>, stored: set<nat>)

  datatype DispatcherState = DispatcherState(
    held: Held,
    membership: map<string, Snapshot>,
    pending: map<string, Pending>,
    stage: Stage,
    committing: Committing,
    started: map<AttemptId, nat>,   // every attempt made, with the revision it was made under
    closed: bool,
    stopped: bool)

  datatype Step =
    | CheckLimits(limit: nat)
    | Choose(live: seq<Record>)
    | Withdraw
    | MarkBatch(now: nat)
    | RegisterBatch
    | EndAdmission
    | Deliver(results: seq<Finished>)
    | StoreAll(now: nat)
    | StoreOne(i: nat, now: nat)
    | ReleaseStored
    | Outside(change: Change)
    | Install(snapshot: Snapshot, change: Change)
    | Forget(group: string)
    | CloseDown
    | Stop

  // -------------------------------------------------------------------- admission

  function PendingOn(pending: map<string, Pending>, broker: string): nat {
    |set id | id in pending && pending[id].broker == broker|
  }

  function Counts(pending: map<string, Pending>): map<string, nat> {
    map b | b in (set id | id in pending :: pending[id].broker) :: PendingOn(pending, b)
  }

  function CountOf(counts: map<string, nat>, broker: string): nat {
    if broker in counts then counts[broker] else 0
  }

  function ActiveEpochs(membership: map<string, Snapshot>): map<string, nat> {
    map g | g in membership && PS.Dispatchable(membership[g]) :: membership[g].epoch
  }

  /** Free slots of the brokers of every dispatchable group. */
  function BrokerSlots(membership: map<string, Snapshot>, counts: map<string, nat>, perBroker: nat): map<string, nat> {
    map b | b in (set g, x | g in membership && PS.Dispatchable(membership[g]) && x in membership[g].current :: x) ::
      if CountOf(counts, b) < perBroker then perBroker - CountOf(counts, b) else 0
  }

  function FilterFor(membership: map<string, Snapshot>, counts: map<string, nat>, perBroker: nat): Filter {
    Filter(Only(ActiveEpochs(membership)), if perBroker > 0 then Only(BrokerSlots(membership, counts, perBroker))
           else Anything)
  }

  function Chosen(d: DispatcherState, live: seq<Record>, cap: Capacity): seq<Record>
    requires d.stage.Checked?
  {
    Scan(live, d.held.records, d.stage.limit, FilterFor(d.membership, d.stage.counts, cap.perBroker))
  }

  /** The pending entry of a record's next attempt. */
  function Entry(r: Record): Pending {
    Pending(r.attempts + 1, r.route.epoch, r.content.group, r.route.broker)
  }

  function PendingOf(r: Record): Pending {
    Pending(r.attempts, r.route.epoch, r.content.group, r.route.broker)
  }

  /** Pending entries with an admitted batch added. */
  function Admitted(pending: map<string, Pending>, batch: seq<Record>): map<string, Pending> {
    if batch == [] then pending
    else
      var r := batch[|batch| - 1];
      Admitted(pending, batch[..|batch| - 1])[r.content.eventId := Entry(r)]
  }

  function RevisionIn(membership: map<string, Snapshot>, group: string): nat {
    if group in membership then membership[group].revision else 0
  }

  /** The attempts made, with the next one of every record of a batch. */
  function Attempted(started: map<AttemptId, nat>, batch: seq<Record>,
                     membership: map<string, Snapshot>): map<AttemptId, nat> {
    if batch == [] then started
    else
      var r := batch[|batch| - 1];
      Attempted(started, batch[..|batch| - 1], membership)
        [AttemptId(r.content.eventId, r.attempts + 1) := RevisionIn(membership, r.content.group)]
  }

  // -------------------------------------------------------------------- results

  function CompletionOf(f: Finished): Completion {
    Completion(f.eventId, f.number, f.epoch, f.outcome, f.reason)
  }

  function CompletionsOf(batch: seq<Finished>): (r: seq<Completion>)
    ensures |r| == |batch| && forall i :: 0 <= i < |r| ==> r[i] == CompletionOf(batch[i])
  {
    seq(|batch|, i requires 0 <= i < |batch| => CompletionOf(batch[i]))
  }

  /** Events with a result that could not be stored. */
  function FailedIds(batch: seq<Finished>, stored: set<nat>): set<string> {
    set i | 0 <= i < |batch| && i !in stored :: batch[i].eventId
  }

  /** Pending entries without those whose exact attempt finished and was stored. */
  function LeftPending(pending: map<string, Pending>, batch: seq<Finished>, failed: set<string>): map<string, Pending> {
    if batch == [] then pending
    else
      var rest, f := LeftPending(pending, batch[..|batch| - 1], failed), batch[|batch| - 1];
      if f.eventId in rest && rest[f.eventId].number == f.number && rest[f.eventId].epoch == f.epoch
         && f.eventId !in failed
      then rest - {f.eventId} else rest
  }

  /** One transaction over some results. */
  function Completing(records: Records, completions: seq<Completion>, now: nat): Change {
    Change.Complete(Applied(completions, records), now)
  }

  // ---------------------------------------------------------------------- the steps

  predicate HoldsMembership(stage: Stage) {
    stage.Selected? || stage.Marked? || stage.Submitting?
  }

  predicate CanDo(d: DispatcherState, step: Step, cap: Capacity) {
    match step
    case CheckLimits(limit) => d.stage.Idle? && !d.closed && 0 < limit && |d.pending| + limit <= cap.total
    case Choose(live) => d.stage.Checked? && Enumerates(live, d.held.records) && Chosen(d, live, cap) != []
    case Withdraw => d.stage.Checked? || d.stage.Selected?
    case MarkBatch(_) => d.stage.Selected?
    case RegisterBatch => d.stage.Marked?
    case EndAdmission => d.stage.Submitting?
    case Deliver(results) => d.committing.NoResults? && forall f :: f in results ==>
          AttemptId(f.eventId, f.number) in d.started
    case StoreAll(_) => d.committing.Storing? && UniqueBatch(CompletionsOf(d.committing.batch))
    case StoreOne(i, _) => d.committing.Storing? && i < |d.committing.batch| && d.committing.batch[i].eventId != ""
    case ReleaseStored => d.committing.Storing?
    case Outside(change) =>
      && (change.Accept? || change.Complete? || (change.Retry? && !HoldsMembership(d.stage)))
      && Possible(d.held, change)
    case Install(_, change) => !HoldsMembership(d.stage) && change.Assign?
    case Forget(_) => !HoldsMembership(d.stage)
    case CloseDown => true
    case Stop => d.closed && d.pending == map[]
  }

  /** What the step does to the outbox. */
  function ChangeOf(d: DispatcherState, step: Step): Option<Change> {
    match step
    case MarkBatch(now) => if d.stage.Selected? then Some(Change.Attempt(EventIds(d.stage.batch), now)) else None
    case StoreAll(now) => if d.committing.Storing?
          then Some(Completing(d.held.records, CompletionsOf(d.committing.batch), now)) else None
    case StoreOne(i, now) =>
      if d.committing.Storing? && i < |d.committing.batch|
      then Some(Completing(d.held.records, [CompletionOf(d.committing.batch[i])], now)) else None
    case Outside(change) => Some(change)
    case Install(_, change) => Some(change)
    case _ => None
  }

  function OutboxAfter(d: DispatcherState, step: Step): Held {
    match ChangeOf(d, step)
    case None => d.held
    case Some(change) => Changed(d.held, change)
  }

  function Do(d: DispatcherState, step: Step, cap: Capacity): DispatcherState
    requires CanDo(d, step, cap)
  {
    var after := d.(held := OutboxAfter(d, step));
    match step
    case CheckLimits(limit) => after.(stage := Checked(limit, if cap.perBroker > 0 then Counts(d.pending) else map[]))
    case Choose(live) => after.(stage := Selected(Chosen(d, live, cap)))
    case Withdraw => after.(stage := Idle)
    case MarkBatch(_) => after.(stage := Marked(d.stage.batch),
                                started := Attempted(d.started, d.stage.batch, d.membership))
    case RegisterBatch => after.(pending := Admitted(d.pending, d.stage.batch), stage := Submitting(d.stage.batch))
    case EndAdmission => after.(stage := Idle)
    case Deliver(results) => after.(committing := Storing(results, {}))
    case StoreAll(_) => after.(committing := d.committing.(stored := Range(|d.committing.batch|)))
    case StoreOne(i, _) => after.(committing := d.committing.(stored := d.committing.stored + {i}))
    case ReleaseStored =>
      after.(pending := LeftPending(d.pending, d.committing.batch, FailedIds(d.committing.batch, d.committing.stored)),
             committing := NoResults)
    case Outside(_) => after
    case Install(s, _) => after.(membership := d.membership[s.group := s])
    case Forget(group) => after.(membership := d.membership - {group})
    case CloseDown => after.(closed := true)
    case Stop => after.(stopped := true)
  }

  /** Just opened: nothing is in flight, pending or under way. */
  predicate Initial(d: DispatcherState) {
    && OrderInv(d.held) && StartedKnown(d.held, d.started)
    && (forall id :: id in d.held.records ==> d.held.records[id].state != InFlight)
    && d.pending == map[] && d.stage.Idle? && d.committing.NoResults? && !d.closed && !d.stopped
  }

  predicate IsPath(path: seq<DispatcherState>, steps: seq<Step>, cap: Capacity) {
    && |path| == |steps| + 1
    && forall i :: 0 <= i < |steps| ==> CanDo(path[i], steps[i], cap) && path[i + 1] == Do(path[i], steps[i], cap)
  }

  predicate IsDispatchRun(run: seq<DispatcherState>, steps: seq<Step>, cap: Capacity) {
    IsPath(run, steps, cap) && Initial(run[0])
  }

  // ------------------------------------------------------------------ the invariant

  /** Attempts made are of events once accepted, and never ahead of their record. */
  predicate StartedKnown(h: Held, started: map<AttemptId, nat>) {
    forall a :: a in started ==>
          a.event in h.issued && (a.event in h.records ==> a.number <= h.records[a.event].attempts)
  }

  /** So are pending entries, and they are of the group of their record. */
  predicate PendingKnown(h: Held, pending: map<string, Pending>) {
    forall id :: id in pending ==>
      id in h.issued && (id in h.records ==> pending[id].group == h.records[id].content.group
                                             && pending[id].number <= h.records[id].attempts)
  }

  predicate AdmittedFor(batch: seq<Record>, r: Record) {
    exists i :: 0 <= i < |batch| && batch[i].content.eventId == r.content.eventId && Entry(batch[i]) == PendingOf(r)
  }

  /** The batch that is marked and not yet registered. */
  function Unregistered(stage: Stage): seq<Record> {
    if stage.Marked? then stage.batch else []
  }

  /** Every durable record in flight has a pending entry for exactly its attempt, or is
      in the batch being admitted with exactly that attempt. */
  predicate Accounted(records: Records, pending: map<string, Pending>, batch: seq<Record>) {
    forall id :: id in records && records[id].state == InFlight ==>
      (id in pending && pending[id] == PendingOf(records[id])) || AdmittedFor(batch, records[id])
  }

  /** What the admission in progress may still add to what is pending. */
  function Reserved(stage: Stage): nat {
    match stage
    case Checked(limit, _) => limit
    case Selected(batch) => |batch|
    case Marked(batch) => |batch|
    case _ => 0
  }

  function ReservedOn(stage: Stage, broker: string): nat {
    match stage
    case Selected(batch) => OnBroker(batch, broker)
    case Marked(batch) => OnBroker(batch, broker)
    case _ => 0
  }

  ghost predicate BrokersWithin(pending: map<string, Pending>, stage: Stage, perBroker: nat) {
    perBroker > 0 ==> forall b :: PendingOn(pending, b) + ReservedOn(stage, b) <= perBroker
  }

  ghost predicate CountsCover(pending: map<string, Pending>, stage: Stage, perBroker: nat) {
    stage.Checked? && perBroker > 0 ==> forall b :: PendingOn(pending, b) <= CountOf(stage.counts, b)
  }

  ghost predicate WithinLimits(d: DispatcherState, cap: Capacity) {
    && |d.pending| + Reserved(d.stage) <= cap.total
    && BrokersWithin(d.pending, d.stage, cap.perBroker) && CountsCover(d.pending, d.stage, cap.perBroker)
  }

  /** Each record is of the epoch of its group's dispatchable membership. */
  predicate BatchOpen(batch: seq<Record>, membership: map<string, Snapshot>) {
    && batch != [] && DistinctEvents(batch)
    && forall i :: 0 <= i < |batch| ==>
         && batch[i].content.group in membership && PS.Dispatchable(membership[batch[i].content.group])
         && batch[i].route.epoch == membership[batch[i].content.group].epoch
  }

  /** Live records as they are, each the ready oldest of its key. */
  predicate BatchReady(batch: seq<Record>, records: Records) {
    forall i :: 0 <= i < |batch| ==>
      batch[i].content.eventId in records && records[batch[i].content.eventId] == batch[i] && IsHead(batch[i], records)
  }

  /** The next attempt of each record was made, under the membership it is held by. */
  predicate BatchMade(batch: seq<Record>, h: Held, started: map<AttemptId, nat>, membership: map<string, Snapshot>) {
    forall i :: 0 <= i < |batch| ==>
      && AttemptId(batch[i].content.eventId, batch[i].attempts + 1) in started
      && started[AttemptId(batch[i].content.eventId, batch[i].attempts + 1)] == RevisionIn(membership,
             batch[i].content.group)
      && (batch[i].content.eventId in h.records ==> MadeOf(h.records[batch[i].content.eventId], batch[i]))
  }

  /** The record is at the attempt that followed. */
  predicate MadeOf(r: Record, before: Record) {
    r.content == before.content && r.attempts == before.attempts + 1
    && (r.state == InFlight ==> r.route == before.route)
  }

  predicate StageOk(d: DispatcherState) {
    match d.stage
    case Checked(limit, _) => limit > 0
    case Selected(batch) => BatchOpen(batch, d.membership) && BatchReady(batch, d.held.records)
    case Marked(batch) => BatchOpen(batch, d.membership) && BatchMade(batch, d.held, d.started, d.membership)
    case Submitting(batch) => BatchOpen(batch, d.membership) && BatchMade(batch, d.held, d.started, d.membership)
    case _ => true
  }

  /** The attempt that a result names is no longer in flight. */
  predicate Resolved(c: Completion, records: Records) {
    c.eventId in records && records[c.eventId].attempts == c.attempts && records[c.eventId].route.epoch == c.epoch ==>
      records[c.eventId].state != InFlight
  }

  predicate ResultsOk(d: DispatcherState) {
    d.committing.Storing? ==>
      && (forall f :: f in d.committing.batch ==> AttemptId(f.eventId, f.number) in d.started)
      && (forall i :: i in d.committing.stored ==> i < |d.committing.batch|
                                                   && Resolved(CompletionOf(d.committing.batch[i]), d.held.records))
  }

  predicate InGroup(r: Record, group: string) {
    r.content.group == group && Unsettled(r)
  }

  predicate DurablyQuiet(records: Records, group: string) {
    forall id :: id in records ==> !InGroup(records[id], group)
  }

  predicate NativelyQuiet(pending: map<string, Pending>, group: string) {
    forall id :: id in pending ==> pending[id].group != group
  }

  /** Nothing of the group is in flight, in doubt or pending. */
  predicate Quiet(d: DispatcherState, group: string) {
    DurablyQuiet(d.held.records, group) && NativelyQuiet(d.pending, group)
  }

  ghost predicate DispatchInv(d: DispatcherState, cap: Capacity) {
    && OrderInv(d.held) && StartedKnown(d.held, d.started) && PendingKnown(d.held, d.pending)
    && Accounted(d.held.records, d.pending, Unregistered(d.stage))
    && WithinLimits(d, cap) && StageOk(d) && ResultsOk(d)
    && (d.stopped ==> d.closed)
  }
}
