/** The dispatcher carries out the steps of the handover model: for every group, each
    step of its runs is a step of PublisherSteps or leaves the group's view alone. Since
    the objects only ever extend such runs, what the handover model proves of a publisher
    holds of them. */
module PublisherRefinement {
  import opened Control
  import opened OutboxRecords
  import opened OutboxChanges
  import opened OutboxOrder
  import opened DispatcherSteps
  import opened DispatcherAccounting
  import opened DispatcherRuns
  import PS = PublisherSteps

  // ---------------------------------------------------------------------- the view

  /** The revision an attempt was started under. */
  function RevisionOf(started: map<AttemptId, nat>, event: string, number: nat): nat {
    if AttemptId(event, number) in started then started[AttemptId(event, number)] else 0
  }

  function UnsettledOf(records: Records, group: string, started: map<AttemptId, nat>): PS.Attempts {
    map id | id in records && InGroup(records[id], group) :: PS.Attempt(records[id].route.epoch,
                                                                        RevisionOf(started, id, records[id].attempts))
  }

  function PendingIn(pending: map<string, Pending>, group: string, started: map<AttemptId, nat>): PS.Attempts {
    map id | id in pending && pending[id].group == group :: PS.Attempt(pending[id].epoch,
                                                                       RevisionOf(started, id, pending[id].number))
  }

  function Installed(membership: map<string, Snapshot>, group: string): Option<Snapshot> {
    if group in membership then Some(membership[group]) else None
  }

  predicate Open(membership: map<string, Snapshot>, group: string) {
    group in membership && PS.Dispatchable(membership[group])
  }

  function GroupIds(batch: seq<Record>, group: string): set<string> {
    set i | 0 <= i < |batch| && batch[i].content.group == group :: batch[i].content.eventId
  }

  /** The attempt that an admission starts in an open group. */
  function AttemptIn(membership: map<string, Snapshot>, group: string): PS.Attempt
    requires Open(membership, group)
  {
    PS.Attempt(membership[group].epoch, membership[group].revision)
  }

  function AdmissionOf(stage: Stage, membership: map<string, Snapshot>, group: string): Option<PS.Attempts> {
    if (stage.Marked? || stage.Submitting?) && Open(membership, group)
    then Some(PS.Started(map[], GroupIds(stage.batch, group), AttemptIn(membership, group))) else None
  }

  /** The dispatcher as the handover model sees one of its groups; the rest of the
      model's state is not the dispatcher's. */
  function View(d: DispatcherState, group: string, rest: PS.Publisher): PS.Publisher {
    rest.(membership := Installed(d.membership, group), unsettled := UnsettledOf(d.held.records, group, d.started),
          admission := AdmissionOf(d.stage, d.membership, group), pending := PendingIn(d.pending, group, d.started))
  }

  /** What a status counts is what the model looks at. */
  lemma QuietIsQuiescent(d: DispatcherState, group: string, rest: PS.Publisher)
    ensures DurablyQuiet(d.held.records, group) <==> View(d, group, rest).unsettled == map[]
    ensures NativelyQuiet(d.pending, group) <==> View(d, group, rest).pending == map[]
  {
    var u, p := UnsettledOf(d.held.records, group, d.started), PendingIn(d.pending, group, d.started);
    forall id | id in d.held.records && InGroup(d.held.records[id], group) ensures u != map[] {
      assert id in u;
    }
    forall id | id in d.pending && d.pending[id].group == group ensures p != map[] {
      assert id in p;
    }
    if DurablyQuiet(d.held.records, group) {
      assert u == map[];
    }
    if NativelyQuiet(d.pending, group) {
      assert p == map[];
    }
  }

  // ----------------------------------------------------------------- the invariant

  /** Pending entries of marked events are of the group of their record. */
  predicate GroupsAgree(d: DispatcherState) {
    d.stage.Marked? ==>
      forall i :: 0 <= i < |d.stage.batch| && d.stage.batch[i].content.eventId in d.pending ==>
        d.pending[d.stage.batch[i].content.eventId].group == d.stage.batch[i].content.group
  }

  lemma StepAgrees(d: DispatcherState, step: Step, cap: Capacity)
    requires DispatchInv(d, cap) && GroupsAgree(d) && CanDo(d, step, cap)
    ensures GroupsAgree(Do(d, step, cap))
  {
    if step.MarkBatch? {
      MarkAgrees(d, step.now, cap);
    } else {
      hide DispatchInv, OutboxAfter, Chosen, LeftPending;
      if step.ReleaseStored? {
        LeftPendingIs(d.pending, d.committing.batch, FailedIds(d.committing.batch, d.committing.stored));
      }
    }
  }

  lemma MarkAgrees(d: DispatcherState, now: nat, cap: Capacity)
    requires DispatchInv(d, cap) && CanDo(d, MarkBatch(now), cap)
    ensures GroupsAgree(Do(d, MarkBatch(now), cap))
  {
    hide OrderInv, StartedKnown, Accounted, WithinLimits, ResultsOk, Attempted, OutboxAfter, IsHead;
    assert BatchReady(d.stage.batch, d.held.records);
  }

  lemma {:induction false} RunAgrees(run: seq<DispatcherState>, steps: seq<Step>, cap: Capacity, n: nat)
    requires IsDispatchRun(run, steps, cap) && n < |run|
    ensures GroupsAgree(run[n])
  {
    hide DispatchInv, CanDo, Do, GroupsAgree;
    if n > 0 {
      RunAgrees(run, steps, cap, n - 1);
      RunKeeps(run, steps, cap, n - 1);
      PathStep(run, steps, cap, n - 1);
      StepAgrees(run[n - 1], steps[n - 1], cap);
    } else {
      IdleAgrees(run[0]);
    }
  }

  lemma IdleAgrees(d: DispatcherState)
    requires Initial(d)
    ensures GroupsAgree(d)
  {
    hide OrderInv, StartedKnown;
  }

  // ---------------------------------------------------------------- the refinement

  /** The step of the handover model, if any. */
  function StepFor(d: DispatcherState, step: Step, group: string): Option<PS.PublisherStep> {
    match step
    case MarkBatch(_) => if Open(d.membership, group) && d.stage.Selected?
          then Some(PS.Start(GroupIds(d.stage.batch, group))) else None
    case RegisterBatch => if Open(d.membership, group) then Some(PS.Register) else None
    case EndAdmission => if Open(d.membership, group) then Some(PS.Finish) else None
    case StoreAll(_) => Some(PS.Settle(SettledIds(d, step, group)))
    case StoreOne(_, _) => Some(PS.Settle(SettledIds(d, step, group)))
    case Outside(_) => Some(PS.Settle(SettledIds(d, step, group)))
    case ReleaseStored => if d.committing.Storing? then Some(PS.Release(ReleasedIds(d, group))) else None
    case Install(s, _) => if s.group == group && Installed(d.membership, group) != Some(s) then Some(PS.Apply(s))
          else None
    case Forget(g) => if g == group then Some(PS.FailClosed) else None
    case _ => None
  }

  function SettledIds(d: DispatcherState, step: Step, group: string): set<string> {
    UnsettledOf(d.held.records, group, d.started).Keys
    - UnsettledOf(OutboxAfter(d, step).records, group, d.started).Keys
  }

  function ReleasedIds(d: DispatcherState, group: string): set<string>
    requires d.committing.Storing?
  {
    var left := LeftPending(d.pending, d.committing.batch, FailedIds(d.committing.batch, d.committing.stored));
    PendingIn(d.pending, group, d.started).Keys - PendingIn(left, group, d.started).Keys
  }

  function FloorAfter(d: DispatcherState, step: Step, group: string, floor: nat): nat {
    match StepFor(d, step, group)
    case Some(Apply(s)) => s.revision
    case _ => floor
  }

  /** Snapshots come from the published ones and in order of revision. */
  predicate ArrivesInOrder(d: DispatcherState, step: Step, group: string, floor: nat, published: seq<Snapshot>) {
    step.Install? && step.snapshot.group == group && Installed(d.membership, group) != Some(step.snapshot) ==>
      && step.snapshot in published && step.snapshot.revision >= floor
      && (group in d.membership ==> step.snapshot.revision > d.membership[group].revision)
  }

  predicate Refines(d: DispatcherState, step: Step, e: DispatcherState, group: string, rest: PS.Publisher,
                    published: seq<Snapshot>) {
    var after := View(e, group, rest.(floor := FloorAfter(d, step, group, rest.floor)));
    match StepFor(d, step, group)
    case None => after == View(d, group, rest)
    case Some(s) => PS.CanStep(View(d, group, rest), s, published) && after == PS.Stepped(View(d, group, rest), s)
  }

  // ---------------------------------------------------------------------- settling

  lemma SettledView(a: Records, b: Records, group: string, started: map<AttemptId, nat>)
    requires StartsNone(a, b)
    ensures var u, v := UnsettledOf(a, group, started), UnsettledOf(b, group, started);
            v == u - (u.Keys - v.Keys)
  {
    var u, v := UnsettledOf(a, group, started), UnsettledOf(b, group, started);
    forall id | id in v ensures id in u && u[id] == v[id] {
    }
  }

  /** Storing results, retrying, accepting and late acknowledgements settle attempts and do
      nothing else to a group. */
  lemma SettlingRefines(d: DispatcherState, step: Step, cap: Capacity, group: string, rest: PS.Publisher,
                        published: seq<Snapshot>)
    requires CanDo(d, step, cap) && (step.StoreAll? || step.StoreOne? || step.Outside?)
    ensures Refines(d, step, Do(d, step, cap), group, rest, published)
  {
    HeldStartsNone(d, step, cap);
    SettledView(d.held.records, OutboxAfter(d, step).records, group, d.started);
    hide OutboxAfter, UnsettledOf, PendingIn, StartsNone, AdmissionOf, UniqueBatch, CompletionsOf;
  }

  /** Releasing results that were stored releases attempts and nothing else. */
  lemma ReleaseRefines(d: DispatcherState, cap: Capacity, group: string, rest: PS.Publisher, published: seq<Snapshot>)
    requires CanDo(d, ReleaseStored, cap)
    ensures Refines(d, ReleaseStored, Do(d, ReleaseStored, cap), group, rest, published)
  {
    var left := LeftPending(d.pending, d.committing.batch, FailedIds(d.committing.batch, d.committing.stored));
    LeftPendingIs(d.pending, d.committing.batch, FailedIds(d.committing.batch, d.committing.stored));
    hide LeftPending, UnsettledOf, AdmissionOf;
    var p, q := PendingIn(d.pending, group, d.started), PendingIn(left, group, d.started);
    assert q == p - (p.Keys - q.Keys);
  }

  // ----------------------------------------------------------------------- starting

  lemma OneGroup(batch: seq<Record>, group: string, i: nat)
    requires DistinctEvents(batch) && i < |batch|
    ensures batch[i].content.eventId in GroupIds(batch, group) <==> batch[i].content.group == group
  {
    if batch[i].content.eventId in GroupIds(batch, group) {
      var k :| 0 <= k < |batch| && batch[k].content.group == group
          && batch[k].content.eventId == batch[i].content.eventId;
      assert k == i;
    }
  }

  lemma GroupIdsWithin(batch: seq<Record>, group: string)
    ensures GroupIds(batch, group) <= EventIds(batch)
  {
  }

  /** Attempts made before keep their revision. */
  lemma RevisionStays(started: map<AttemptId, nat>, batch: seq<Record>, membership: map<string, Snapshot>,
                      event: string, number: nat)
    requires forall i :: 0 <= i < |batch| ==> batch[i].content.eventId != event || batch[i].attempts + 1 != number
    ensures RevisionOf(Attempted(started, batch, membership), event, number) == RevisionOf(started, event, number)
  {
    var a := AttemptId(event, number);
    AttemptedIs(started, batch, membership);
    hide Attempted;
    assert !MadeBy(batch, a);
    if a in started {
      AttemptedBefore(started, batch, membership, a);
    }
  }

  /** What marking means for one record of the batch. */
  lemma MarkedRecord(batch: seq<Record>, records: Records, membership: map<string, Snapshot>,
                     started: map<AttemptId, nat>, now: nat, i: nat)
    requires BatchOpen(batch, membership) && BatchReady(batch, records) && i < |batch|
    ensures var id, g := batch[i].content.eventId, batch[i].content.group;
            var after := Mutated(records, EventIds(batch), Marking(), now);
            && Open(membership, g) && id in records && !Unsettled(records[id]) && id in after
            && after[id].state == InFlight && after[id].content == batch[i].content
            && after[id].route.epoch == membership[g].epoch
            && RevisionOf(Attempted(started, batch, membership), id, after[id].attempts) == membership[g].revision
  {
    hide Mutated, Attempted, EventIds, DistinctEvents, Oldest;
    MarkedIs(batch, records, now);
    AttemptedAt(started, batch, membership, i);
  }

  lemma UnsettledAt(records: Records, group: string, started: map<AttemptId, nat>, id: string)
    requires id in records
    ensures var u := UnsettledOf(records, group, started);
            && (id in u <==> InGroup(records[id], group))
            && (id in u ==> u[id] == PS.Attempt(records[id].route.epoch, RevisionOf(started, id, records[id].attempts)))
  {
    hide InGroup, RevisionOf;
  }

  lemma MarkedUnsettledAt(d: DispatcherState, now: nat, group: string, id: string)
    requires d.stage.Selected? && BatchOpen(d.stage.batch, d.membership) && BatchReady(d.stage.batch, d.held.records)
             && id in EventIds(d.stage.batch)
    ensures var batch, u := d.stage.batch, UnsettledOf(d.held.records, group, d.started);
            var v := UnsettledOf(Mutated(d.held.records, EventIds(batch), Marking(), now), group,
                                 Attempted(d.started, batch, d.membership));
            && id !in u
            && (id in GroupIds(batch, group) ==>
                  Open(d.membership, group) && id in v && v[id] == AttemptIn(d.membership, group))
            && (id !in GroupIds(batch, group) ==> id !in v)
  {
    var batch := d.stage.batch;
    var i :| 0 <= i < |batch| && batch[i].content.eventId == id;
    hide Mutated, Attempted, EventIds, GroupIds, BatchReady, UnsettledOf, RevisionOf, DistinctEvents;
    MarkedRecord(batch, d.held.records, d.membership, d.started, now, i);
    OneGroup(batch, group, i);
    UnsettledAt(d.held.records, group, d.started, id);
    UnsettledAt(Mutated(d.held.records, EventIds(batch), Marking(), now), group,
                Attempted(d.started, batch, d.membership), id);
  }

  lemma MarkedUnsettledElsewhere(d: DispatcherState, now: nat, group: string, id: string)
    requires d.stage.Selected? && BatchOpen(d.stage.batch, d.membership) && BatchReady(d.stage.batch, d.held.records)
             && id !in EventIds(d.stage.batch)
    ensures var batch, u := d.stage.batch, UnsettledOf(d.held.records, group, d.started);
            var v := UnsettledOf(Mutated(d.held.records, EventIds(batch), Marking(), now), group,
                                 Attempted(d.started, batch, d.membership));
            (id in u <==> id in v) && (id in u ==> u[id] == v[id])
  {
    var batch := d.stage.batch;
    MarkedIs(batch, d.held.records, now);
    if id in d.held.records {
      forall i | 0 <= i < |batch| ensures batch[i].content.eventId != id {
        assert batch[i].content.eventId in EventIds(batch);
      }
      hide EventIds;
      RevisionStays(d.started, batch, d.membership, id, d.held.records[id].attempts);
    }
    hide Mutated, Attempted, EventIds, BatchOpen, BatchReady;
  }

  /** Maps that differ only at the touched events, and there as started. */
  lemma StartedEquals(u: PS.Attempts, v: PS.Attempts, touched: set<string>, ids: set<string>, a: PS.Attempt)
    requires ids <= touched
    requires forall id :: id in ids ==> id in v && v[id] == a
    requires forall id :: id in touched && id !in ids ==> id !in u && id !in v
    requires forall id :: id !in touched ==> (id in u <==> id in v) && (id in u ==> u[id] == v[id])
    ensures v == PS.Started(u, ids, a)
  {
    assert v.Keys == u.Keys + ids;
  }

  /** Maps that differ only at the touched events of an open group. */
  lemma MarkedEither(u: PS.Attempts, v: PS.Attempts, touched: set<string>, ids: set<string>, a: PS.Attempt, open: bool)
    requires ids <= touched
    requires forall id :: id in touched ==> id !in u && if id in ids then open && id in v && v[id] == a else id !in v
    requires forall id :: id !in touched ==> (id in u <==> id in v) && (id in u ==> u[id] == v[id])
    ensures ids !! u.Keys && (open ==> v == PS.Started(u, ids, a)) && (!open ==> v == u)
  {
    if open {
      StartedEquals(u, v, touched, ids, a);
    }
  }

  lemma MarkedUnsettled(d: DispatcherState, now: nat, group: string)
    requires d.stage.Selected? && BatchOpen(d.stage.batch, d.membership) && BatchReady(d.stage.batch, d.held.records)
    ensures var batch, u := d.stage.batch, UnsettledOf(d.held.records, group, d.started);
            var v := UnsettledOf(Mutated(d.held.records, EventIds(batch), Marking(), now), group,
                                 Attempted(d.started, batch, d.membership));
            && GroupIds(batch, group) !! u.Keys
            && (Open(d.membership, group) ==>
                v == PS.Started(u, GroupIds(batch, group), AttemptIn(d.membership, group)))
            && (!Open(d.membership, group) ==> v == u)
  {
    var batch := d.stage.batch;
    GroupIdsWithin(batch, group);
    hide Mutated, Attempted, EventIds, GroupIds, BatchOpen, BatchReady, UnsettledOf, AttemptIn, Open, PS.Started;
    var ids, touched := GroupIds(batch, group), EventIds(batch);
    var u, v := UnsettledOf(d.held.records, group, d.started),
        UnsettledOf(Mutated(d.held.records, touched, Marking(), now), group, Attempted(d.started, batch, d.membership));
    var open := Open(d.membership, group);
    var a := if open then AttemptIn(d.membership, group) else PS.Attempt(0, 0);
    forall id | id in touched ensures id !in u && if id in ids then open && id in v && v[id] == a else id !in v {
      MarkedUnsettledAt(d, now, group, id);
    }
    forall id | id !in touched ensures (id in u <==> id in v) && (id in u ==> u[id] == v[id]) {
      MarkedUnsettledElsewhere(d, now, group, id);
    }
    MarkedEither(u, v, touched, ids, a, open);
  }

  /** Marking leaves the attempts of pending entries their revision. */
  lemma MarkedPendingView(d: DispatcherState, group: string)
    requires d.stage.Selected? && BatchReady(d.stage.batch, d.held.records) && PendingKnown(d.held, d.pending)
    ensures PendingIn(d.pending, group, Attempted(d.started, d.stage.batch, d.membership)) == PendingIn(d.pending,
                group, d.started)
  {
    hide Attempted, IsHead;
    var made := Attempted(d.started, d.stage.batch, d.membership);
    forall id | id in d.pending
      ensures RevisionOf(made, id, d.pending[id].number) == RevisionOf(d.started, id, d.pending[id].number)
    {
      RevisionStays(d.started, d.stage.batch, d.membership, id, d.pending[id].number);
    }
    hide RevisionOf, BatchReady;
  }

  /** Marking a batch starts, in every open group, the attempts of that group under its
      membership; registering makes exactly these pending; ending lets go of them. */
  lemma DispatchRefines(d: DispatcherState, step: Step, cap: Capacity, group: string, rest: PS.Publisher,
                        published: seq<Snapshot>)
    requires DispatchInv(d, cap) && GroupsAgree(d) && CanDo(d, step, cap)
             && (step.MarkBatch? || step.RegisterBatch? || step.EndAdmission?)
    ensures Refines(d, step, Do(d, step, cap), group, rest, published)
  {
    hide DispatchInv, UnsettledOf, PendingIn, GroupsAgree;
    if step.MarkBatch? {
      hide Refines, Do;
      MarkRefines(d, step.now, cap, group, rest, published);
    } else if step.RegisterBatch? {
      hide Refines, Do;
      RegisterRefines(d, cap, group, rest, published);
    }
  }

  lemma MarkRefines(d: DispatcherState, now: nat, cap: Capacity, group: string, rest: PS.Publisher,
                    published: seq<Snapshot>)
    requires DispatchInv(d, cap) && CanDo(d, MarkBatch(now), cap)
    ensures Refines(d, MarkBatch(now), Do(d, MarkBatch(now), cap), group, rest, published)
  {
    hide OrderInv, StartedKnown, PendingKnown, Accounted, WithinLimits, ResultsOk, BatchOpen, BatchReady, Mutated,
         Attempted, UnsettledOf, PendingIn, GroupIds, EventIds, PS.Started;
    assert BatchOpen(d.stage.batch, d.membership) && BatchReady(d.stage.batch, d.held.records);
    MarkedUnsettled(d, now, group);
    MarkedPendingView(d, group);
  }

  lemma RegisteredAt(d: DispatcherState, group: string, i: nat)
    requires d.stage.Marked? && BatchOpen(d.stage.batch, d.membership)
             && BatchMade(d.stage.batch, d.held, d.started, d.membership)
    requires GroupsAgree(d) && i < |d.stage.batch|
    ensures var id, q := d.stage.batch[i].content.eventId,
            PendingIn(Admitted(d.pending, d.stage.batch), group, d.started);
            if d.stage.batch[i].content.group == group then Open(d.membership, group) && id in q
                && q[id] == AttemptIn(d.membership, group)
            else id !in q && id !in PendingIn(d.pending, group, d.started)
  {
    hide DistinctEvents;
    AdmittedIs(d.pending, d.stage.batch);
    hide Admitted;
  }

  lemma RegisteredPendingView(d: DispatcherState, group: string)
    requires d.stage.Marked? && BatchOpen(d.stage.batch, d.membership)
             && BatchMade(d.stage.batch, d.held, d.started, d.membership) && GroupsAgree(d)
    ensures var p, q := PendingIn(d.pending, group, d.started),
            PendingIn(Admitted(d.pending, d.stage.batch), group, d.started);
            if Open(d.membership, group)
              then q == p + PS.Started(map[], GroupIds(d.stage.batch, group), AttemptIn(d.membership, group))
              else q == p
  {
    var batch := d.stage.batch;
    GroupIdsWithin(batch, group);
    hide Admitted, BatchOpen, BatchMade, GroupIds, EventIds, GroupsAgree, PendingIn, AttemptIn, Open;
    var p, q := PendingIn(d.pending, group, d.started), PendingIn(Admitted(d.pending, batch), group, d.started);
    forall id | id in EventIds(batch)
      ensures if id in GroupIds(batch, group) then Open(d.membership, group) && id in q
              && q[id] == AttemptIn(d.membership, group) else id !in q && id !in p
    {
      RegisteredIn(d, group, id);
    }
    forall id | id !in EventIds(batch) ensures (id in p <==> id in q) && (id in p ==> p[id] == q[id]) {
      RegisteredOutside(d.pending, batch, group, d.started, id);
    }
    if Open(d.membership, group) {
      MergedEquals(p, q, EventIds(batch), GroupIds(batch, group), AttemptIn(d.membership, group));
    } else {
      assert q == p;
    }
  }

  lemma RegisteredIn(d: DispatcherState, group: string, id: string)
    requires d.stage.Marked? && BatchOpen(d.stage.batch, d.membership)
             && BatchMade(d.stage.batch, d.held, d.started, d.membership)
    requires GroupsAgree(d) && id in EventIds(d.stage.batch)
    ensures var q := PendingIn(Admitted(d.pending, d.stage.batch), group, d.started);
            if id in GroupIds(d.stage.batch, group) then Open(d.membership, group) && id in q
                && q[id] == AttemptIn(d.membership, group)
            else id !in q && id !in PendingIn(d.pending, group, d.started)
  {
    var i :| 0 <= i < |d.stage.batch| && d.stage.batch[i].content.eventId == id;
    hide Admitted, BatchMade, GroupsAgree, PendingIn, AttemptIn, Open, GroupIds, EventIds, DistinctEvents;
    RegisteredAt(d, group, i);
    OneGroup(d.stage.batch, group, i);
  }

  lemma RegisteredOutside(pending: map<string, Pending>, batch: seq<Record>, group: string,
                          started: map<AttemptId, nat>, id: string)
    requires id !in EventIds(batch)
    ensures var p, q := PendingIn(pending, group, started), PendingIn(Admitted(pending, batch), group, started);
            (id in p <==> id in q) && (id in p ==> p[id] == q[id])
  {
    AdmittedIs(pending, batch);
    hide Admitted, EventIds, DistinctEvents;
  }

  lemma MergedEquals(p: PS.Attempts, q: PS.Attempts, touched: set<string>, ids: set<string>, a: PS.Attempt)
    requires ids <= touched
    requires forall id :: id in touched ==> if id in ids then id in q && q[id] == a else id !in q && id !in p
    requires forall id :: id !in touched ==> (id in p <==> id in q) && (id in p ==> p[id] == q[id])
    ensures q == p + PS.Started(map[], ids, a)
  {
  }

  lemma RegisterRefines(d: DispatcherState, cap: Capacity, group: string, rest: PS.Publisher, published: seq<Snapshot>)
    requires DispatchInv(d, cap) && GroupsAgree(d) && CanDo(d, RegisterBatch, cap)
    ensures Refines(d, RegisterBatch, Do(d, RegisterBatch, cap), group, rest, published)
  {
    hide OrderInv, StartedKnown, PendingKnown, Accounted, WithinLimits, ResultsOk, BatchOpen, BatchMade, Admitted,
         UnsettledOf, PendingIn, GroupIds, PS.Started, GroupsAgree;
    assert BatchOpen(d.stage.batch, d.membership) && BatchMade(d.stage.batch, d.held, d.started, d.membership);
    RegisteredPendingView(d, group);
  }

  // -------------------------------------------------------------------- membership

  lemma AssignedView(records: Records, ids: set<string>, assignments: map<string, Route>, now: nat, group: string,
                     started: map<AttemptId, nat>)
    ensures UnsettledOf(Mutated(records, ids, Assigning(assignments), now), group, started) == UnsettledOf(records,
                group, started)
  {
    var after := Mutated(records, ids, Assigning(assignments), now);
    forall id | id in records
      ensures id in after
        && (InGroup(records[id], group) || InGroup(after[id], group) ==>
            after[id].(updatedAt := 0) == records[id].(updatedAt := 0))
    {
    }
  }

  /** Rerouting what is retryable leaves every attempt alone, so that installing a
      snapshot is one step of its group and none of the others. */
  lemma ApplyRefines(d: DispatcherState, step: Step, cap: Capacity, group: string, rest: PS.Publisher,
                     published: seq<Snapshot>)
    requires CanDo(d, step, cap) && (step.Install? || step.Forget?)
             && ArrivesInOrder(d, step, group, rest.floor, published)
    ensures Refines(d, step, Do(d, step, cap), group, rest, published)
  {
    if step.Install? {
      AssignedView(d.held.records, step.change.ids, step.change.assignments, step.change.now, group, d.started);
    }
    hide UnsettledOf, PendingIn, Mutated;
  }

  /** Every step of every run of the dispatcher, of any interleaving, is a step of the
      handover model or leaves the group alone. */
  lemma StepRefines(run: seq<DispatcherState>, steps: seq<Step>, cap: Capacity, n: nat, group: string,
                    rest: PS.Publisher, published: seq<Snapshot>)
    requires IsDispatchRun(run, steps, cap) && n < |steps|
             && ArrivesInOrder(run[n], steps[n], group, rest.floor, published)
    ensures Refines(run[n], steps[n], run[n + 1], group, rest, published)
  {
    hide IsDispatchRun, DispatchInv, CanDo, Do, Refines, GroupsAgree, ArrivesInOrder;
    RunIsLonger(run, steps, cap);
    RunKeeps(run, steps, cap, n);
    RunAgrees(run, steps, cap, n);
    RunStep(run, steps, cap, n);
    var d, step := run[n], steps[n];
    if step.MarkBatch? || step.RegisterBatch? || step.EndAdmission? {
      DispatchRefines(d, step, cap, group, rest, published);
    } else if step.StoreAll? || step.StoreOne? || step.Outside? {
      SettlingRefines(d, step, cap, group, rest, published);
    } else if step.Install? || step.Forget? {
      ApplyRefines(d, step, cap, group, rest, published);
    } else if step.ReleaseStored? {
      ReleaseRefines(d, cap, group, rest, published);
    } else {
      OthersRefine(d, step, cap, group, rest, published);
    }
  }

  lemma RunStep(run: seq<DispatcherState>, steps: seq<Step>, cap: Capacity, n: nat)
    requires IsDispatchRun(run, steps, cap) && n < |steps|
    ensures |run| == |steps| + 1 && CanDo(run[n], steps[n], cap) && run[n + 1] == Do(run[n], steps[n], cap)
  {
    hide CanDo, Do, Initial;
    PathStep(run, steps, cap, n);
  }

  /** Checks, choices, withdrawals, deliveries and closing are not seen. */
  lemma OthersRefine(d: DispatcherState, step: Step, cap: Capacity, group: string, rest: PS.Publisher,
                     published: seq<Snapshot>)
    requires CanDo(d, step, cap)
    requires step.CheckLimits? || step.Choose? || step.Withdraw? || step.Deliver? || step.CloseDown? || step.Stop?
    ensures Refines(d, step, Do(d, step, cap), group, rest, published)
  {
    hide UnsettledOf, PendingIn, Chosen;
  }
}
