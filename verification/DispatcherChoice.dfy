/** Which records an admission takes, said over the memberships and the pending attempts
    themselves. Follows shim/publisher/async_dispatcher.go. */
module DispatcherChoice {
  import opened Control
  import opened OutboxRecords
  import opened OutboxSelection
  import opened DispatcherSteps
  import opened DispatcherAccounting

  /** The group takes new attempts, in this epoch. */
  predicate TakesEpoch(membership: map<string, Snapshot>, group: string, epoch: nat) {
    && group in membership && membership[group].epoch == epoch
    && (membership[group].phase == ACTIVE || membership[group].phase == PREPARE)
  }

  /** Some group that takes new attempts has the broker as a member. */
  predicate TakesBroker(membership: map<string, Snapshot>, broker: string) {
    exists g :: g in membership && broker in membership[g].current
                && (membership[g].phase == ACTIVE || membership[g].phase == PREPARE)
  }

  /** Live, ready and the oldest of its key, for a group that takes its epoch. */
  predicate Admissible(r: Record, records: Records, membership: map<string, Snapshot>) {
    && r.content.eventId in records && records[r.content.eventId] == r && r.state == Ready
    && (forall id :: id in records && SameKey(records[id], r) ==> r.sequence <= records[id].sequence)
    && TakesEpoch(membership, r.content.group, r.route.epoch)
  }

  /** Exactly the admissible records for which there is room beside what is counted as
      used and what was taken before them. */
  ghost predicate IsChoice(taken: seq<Record>, records: Records, membership: map<string, Snapshot>, limit: nat,
                           used: map<string, nat>, perBroker: nat) {
    && Ascending(taken)
    && forall r :: r in taken <==>
         && Admissible(r, records, membership)
         && |Earlier(taken, r)| < limit
         && (perBroker > 0 ==>
               && TakesBroker(membership, r.route.broker)
               && (if r.route.broker in used then used[r.route.broker] else 0) + |EarlierBeside(taken, r)| < perBroker)
  }

  lemma CandidateIs(r: Record, records: Records, membership: map<string, Snapshot>, used: map<string, nat>,
                    perBroker: nat)
    ensures Candidate(r, records, FilterFor(membership, used, perBroker)) <==> Admissible(r, records, membership)
  {
  }

  lemma SlotIs(r: Record, taken: seq<Record>, membership: map<string, Snapshot>, used: map<string, nat>, perBroker: nat)
    ensures SlotLeft(r, taken, FilterFor(membership, used, perBroker)) <==>
              (perBroker > 0 ==>
                 && TakesBroker(membership, r.route.broker)
                 && (if r.route.broker in used then used[r.route.broker] else 0) + |EarlierBeside(taken, r)|
                    < perBroker)
  {
    if TakesBroker(membership, r.route.broker) {
      var g :| g in membership && r.route.broker in membership[g].current
               && (membership[g].phase == ACTIVE || membership[g].phase == PREPARE);
    }
  }

  /** The selection under the filter of an admission is this choice. */
  lemma SelectionIsChoice(taken: seq<Record>, records: Records, membership: map<string, Snapshot>, limit: nat,
                          used: map<string, nat>, perBroker: nat)
    ensures IsSelection(taken, records, limit, FilterFor(membership, used, perBroker)) <==>
              IsChoice(taken, records, membership, limit, used, perBroker)
  {
    hide Candidate, SlotLeft, Admissible, TakesBroker, FilterFor, Earlier, EarlierBeside, Ascending;
    var f := FilterFor(membership, used, perBroker);
    forall r: Record
      ensures Candidate(r, records, f) <==> Admissible(r, records, membership)
      ensures SlotLeft(r, taken, f) <==>
                (perBroker > 0 ==>
                   && TakesBroker(membership, r.route.broker)
                   && (if r.route.broker in used then used[r.route.broker] else 0) + |EarlierBeside(taken, r)|
                      < perBroker)
    {
      CandidateIs(r, records, membership, used, perBroker);
      SlotIs(r, taken, membership, used, perBroker);
    }
  }

  /** What every admission takes, whatever came between its steps: the one choice for the
      memberships of this moment and for what was counted when the limits were checked. */
  lemma ChosenExactly(d: DispatcherState, live: seq<Record>, cap: Capacity)
    requires d.stage.Checked? && Enumerates(live, d.held.records)
    ensures IsChoice(Chosen(d, live, cap), d.held.records, d.membership, d.stage.limit, d.stage.counts, cap.perBroker)
  {
    hide IsSelection, IsChoice, Scan, FilterFor;
    ScanIsSelection(live, d.held.records, d.stage.limit, FilterFor(d.membership, d.stage.counts, cap.perBroker));
    SelectionIsChoice(Chosen(d, live, cap), d.held.records, d.membership, d.stage.limit, d.stage.counts, cap.perBroker);
  }

  // --------------------------------------------------------------- without interruption

  function PendingAt(pending: map<string, Pending>, broker: string): set<string> {
    set id | id in pending && pending[id].broker == broker
  }

  /** Exactly the admissible records for which both limits have room beside what is
      pending and what was admitted before them. */
  ghost predicate IsAdmission(admitted: seq<Record>, records: Records, membership: map<string, Snapshot>,
                              pending: map<string, Pending>, limit: int, cap: Capacity) {
    && Ascending(admitted)
    && forall r :: r in admitted <==>
         && Admissible(r, records, membership)
         && |Earlier(admitted, r)| < limit && |pending| + |Earlier(admitted, r)| < cap.total
         && (cap.perBroker > 0 ==>
               && TakesBroker(membership, r.route.broker)
               && |PendingAt(pending, r.route.broker)| + |EarlierBeside(admitted, r)| < cap.perBroker)
  }

  /** Without a limit per broker the counts do not matter. */
  lemma CountsIrrelevant(taken: seq<Record>, records: Records, membership: map<string, Snapshot>, limit: nat,
                         used: map<string, nat>, counts: map<string, nat>, perBroker: nat)
    requires IsChoice(taken, records, membership, limit, used, perBroker) && (perBroker == 0 || used == counts)
    ensures IsChoice(taken, records, membership, limit, counts, perBroker)
  {
    hide Admissible, TakesBroker, Earlier, EarlierBeside, Ascending;
  }

  lemma NoRoom(records: Records, membership: map<string, Snapshot>, pending: map<string, Pending>, limit: int,
               cap: Capacity)
    requires limit <= 0 || |pending| >= cap.total
    ensures IsAdmission([], records, membership, pending, limit, cap)
  {
    hide Admissible, TakesBroker, EarlierBeside;
  }

  lemma ChoiceIsAdmission(taken: seq<Record>, records: Records, membership: map<string, Snapshot>,
                          pending: map<string, Pending>, limit: int, least: nat, cap: Capacity)
    requires |pending| < cap.total
    requires least == limit <= cap.total - |pending| || least == cap.total - |pending| <= limit
    requires IsChoice(taken, records, membership, least, Counts(pending), cap.perBroker)
    ensures IsAdmission(taken, records, membership, pending, limit, cap)
  {
    hide Admissible, TakesBroker, Earlier, EarlierBeside, Ascending, Counts;
    forall b: string
      ensures (if b in Counts(pending) then Counts(pending)[b] else 0) == |PendingAt(pending, b)|
    {
      CountsAre(pending, b);
    }
  }
}
