/** What a close that reported success leaves behind. It looks at the pending attempts
    only, and an admission marks its batch before it registers it; so a close that comes
    between the two leaves attempts in flight. It leaves nothing, now and later, exactly
    when no admission is between its look at the closed flag and its registration. */
module DispatcherClose {
  import opened Control
  import opened OutboxRecords
  import opened OutboxIndex
  import opened OutboxUpkeep
  import opened OutboxChanges
  import opened OutboxOrder
  import opened DispatcherSteps
  import opened DispatcherAccounting
  import opened DispatcherRuns
  import PS = PublisherSteps

  /** No record is in flight and no attempt is pending. */
  predicate NothingOut(d: DispatcherState) {
    d.pending == map[] && forall id :: id in d.held.records ==> d.held.records[id].state != InFlight
  }

  /** An admission is past its look at the closed flag and not yet registered. */
  predicate Admitting(stage: Stage) {
    stage.Checked? || stage.Selected? || stage.Marked?
  }

  ghost predicate Reaches(d: DispatcherState, e: DispatcherState, cap: Capacity) {
    exists path, steps :: Leads(path, steps, d, e, cap)
  }

  predicate Leads(path: seq<DispatcherState>, steps: seq<Step>, d: DispatcherState, e: DispatcherState, cap: Capacity) {
    IsPath(path, steps, cap) && path[0] == d && path[|path| - 1] == e
  }

  /** Nothing is out now or at any later point, whatever comes. */
  ghost predicate NothingToCome(d: DispatcherState, cap: Capacity) {
    forall e :: Reaches(d, e, cap) ==> NothingOut(e)
  }

  lemma ReachesItself(d: DispatcherState, cap: Capacity)
    ensures Reaches(d, d, cap)
  {
    assert Leads([d], [], d, d, cap);
  }

  lemma ReachesNext(d: DispatcherState, e: DispatcherState, step: Step, cap: Capacity)
    requires Reaches(d, e, cap) && CanDo(e, step, cap)
    ensures Reaches(d, Do(e, step, cap), cap)
  {
    hide CanDo, Do;
    var path, steps :| Leads(path, steps, d, e, cap);
    var f := Do(e, step, cap);
    var p, s := path + [f], steps + [step];
    forall i | 0 <= i < |s| ensures CanDo(p[i], s[i], cap) && p[i + 1] == Do(p[i], s[i], cap) {
      if i < |steps| {
        PathStep(path, steps, cap, i);
      }
    }
    assert Leads(p, s, d, f, cap);
  }

  // -------------------------------------------------------- joined: nothing to come

  predicate Drained(d: DispatcherState) {
    d.closed && !Admitting(d.stage) && NothingOut(d)
  }

  lemma HeldStaysDown(d: DispatcherState, step: Step, cap: Capacity)
    requires OrderInv(d.held) && CanDo(d, step, cap) && !step.MarkBatch?
    requires forall id :: id in d.held.records ==> d.held.records[id].state != InFlight
    ensures forall id :: id in OutboxAfter(d, step).records ==> OutboxAfter(d, step).records[id].state != InFlight
  {
    if ChangeOf(d, step).Some? {
      ChangesBeside(d, step, cap);
      hide CanDo, ChangeOf, Changed, Possible, OrderInv;
      ChangeBeside(d.held, ChangeOf(d, step).value);
    } else {
      hide CanDo, ChangeOf, OrderInv;
    }
  }

  lemma PendingStaysEmpty(d: DispatcherState, step: Step, cap: Capacity)
    requires CanDo(d, step, cap) && !step.RegisterBatch? && d.pending == map[]
    ensures Do(d, step, cap).pending == map[]
  {
    hide OutboxAfter, Chosen, LeftPending;
    if step.ReleaseStored? {
      LeftPendingIs(d.pending, d.committing.batch, FailedIds(d.committing.batch, d.committing.stored));
    }
  }

  lemma StepDrained(d: DispatcherState, step: Step, cap: Capacity)
    requires Drained(d) && OrderInv(d.held) && CanDo(d, step, cap)
    ensures Drained(Do(d, step, cap))
  {
    HeldStaysDown(d, step, cap);
    PendingStaysEmpty(d, step, cap);
    HeldIs(d, step, cap);
    hide OutboxAfter, OrderInv, Chosen;
  }

  lemma {:induction false} PathDrained(path: seq<DispatcherState>, steps: seq<Step>, cap: Capacity, n: nat)
    requires IsPath(path, steps, cap) && n < |path| && DispatchInv(path[0], cap) && Drained(path[0])
    ensures Drained(path[n])
  {
    hide DispatchInv, Drained, CanDo, Do;
    if n > 0 {
      PathDrained(path, steps, cap, n - 1);
      PathStep(path, steps, cap, n - 1);
      PathKeeps(path, steps, cap, n - 1);
      OrderOf(path[n - 1], cap);
      StepDrained(path[n - 1], steps[n - 1], cap);
    }
  }

  lemma OrderOf(d: DispatcherState, cap: Capacity)
    requires DispatchInv(d, cap)
    ensures OrderInv(d.held) && StageOk(d)
  {
    hide OrderInv, StageOk, Accounted, WithinLimits, ResultsOk;
  }

  lemma DrainedForGood(d: DispatcherState, cap: Capacity)
    requires DispatchInv(d, cap) && Drained(d)
    ensures NothingToCome(d, cap)
  {
    hide DispatchInv, IsPath;
    forall e | Reaches(d, e, cap) ensures NothingOut(e) {
      var path, steps :| Leads(path, steps, d, e, cap);
      PathLength(path, steps, cap);
      PathDrained(path, steps, cap, |path| - 1);
    }
  }

  lemma PathLength(path: seq<DispatcherState>, steps: seq<Step>, cap: Capacity)
    requires IsPath(path, steps, cap)
    ensures |path| == |steps| + 1
  {
    hide CanDo, Do;
  }

  /** Nothing pending and no marked batch: nothing is in flight. */
  lemma AccountedMeans(d: DispatcherState, cap: Capacity)
    requires DispatchInv(d, cap) && d.pending == map[] && !d.stage.Marked?
    ensures NothingOut(d) && (d.stopped ==> d.closed)
  {
    hide OrderInv, StartedKnown, WithinLimits, StageOk, ResultsOk;
  }

  // ------------------------------------------------- not joined: something may come

  lemma MarkedLeads(d: DispatcherState, cap: Capacity)
    requires DispatchInv(d, cap) && d.stage.Marked?
    ensures !NothingToCome(d, cap)
  {
    var e := Do(d, RegisterBatch, cap);
    ReachesItself(d, cap);
    ReachesNext(d, d, RegisterBatch, cap);
    AdmittedIs(d.pending, d.stage.batch);
    assert d.stage.batch[0].content.eventId in e.pending;
    assert !NothingOut(e);
  }

  lemma SelectedGoesOut(d: DispatcherState, cap: Capacity)
    requires DispatchInv(d, cap) && d.stage.Selected?
    ensures CanDo(d, MarkBatch(0), cap) && !NothingOut(Do(d, MarkBatch(0), cap))
  {
    hide DispatchInv, Mutated, Attempted, OrderInv, EventIds;
    var batch := d.stage.batch;
    OrderOf(d, cap);
    MarkedGoesOut(batch, d.held.records, d.membership);
    var after := Do(d, MarkBatch(0), cap).held.records;
    assert after == Mutated(d.held.records, EventIds(batch), Marking(), 0);
  }

  lemma MarkedGoesOut(batch: seq<Record>, records: Records, membership: map<string, Snapshot>)
    requires BatchOpen(batch, membership) && BatchReady(batch, records)
    ensures var after := Mutated(records, EventIds(batch), Marking(), 0);
            exists id :: id in after && after[id].state == InFlight
  {
    MarkedIs(batch, records, 0);
    hide Mutated, EventIds, IsHead;
    var after := Mutated(records, EventIds(batch), Marking(), 0);
    assert batch[0].content.eventId in after && after[batch[0].content.eventId].state == InFlight;
  }

  lemma SelectedLeads(d: DispatcherState, e: DispatcherState, cap: Capacity)
    requires Reaches(d, e, cap) && DispatchInv(e, cap) && e.stage.Selected?
    ensures !NothingToCome(d, cap)
  {
    hide DispatchInv, Reaches, Do;
    SelectedGoesOut(e, cap);
    ReachesNext(d, e, MarkBatch(0), cap);
  }

  // -------------------------------------------------------------- something fresh

  lemma {:induction false} LongerThanAll(s: set<string>) returns (n: nat)
    ensures forall x :: x in s ==> |x| < n
  {
    if s == {} {
      n := 0;
    } else {
      var x :| x in s;
      var m := LongerThanAll(s - {x});
      n := if |x| < m then m else |x| + 1;
      forall y | y in s ensures |y| < n {
        assert y == x || y in s - {x};
      }
    }
  }

  lemma FreshName(s: set<string>) returns (x: string)
    ensures x !in s && x != ""
  {
    var n := LongerThanAll(s);
    x := seq(n + 1, i => 'x');
  }

  lemma {:induction false} AboveAll(issued: map<string, nat>, ids: set<string>) returns (n: nat)
    requires ids <= issued.Keys
    ensures forall id :: id in ids ==> issued[id] < n
  {
    if ids == {} {
      n := 0;
    } else {
      var x :| x in ids;
      var m := AboveAll(issued, ids - {x});
      n := if issued[x] < m then m else issued[x] + 1;
      forall y | y in ids ensures issued[y] < n {
        assert y == x || y in ids - {x};
      }
    }
  }

  lemma FreshSequence(issued: map<string, nat>) returns (n: nat)
    ensures Newest(n, issued)
  {
    n := AboveAll(issued, issued.Keys);
  }

  // --------------------------------------------------- records can always be listed

  lemma {:induction false} LatestOf(records: Records, ids: set<string>) returns (id: string)
    requires ids <= records.Keys && ids != {}
    ensures id in ids && forall x :: x in ids ==> records[x].sequence <= records[id].sequence
  {
    var x :| x in ids;
    if ids == {x} {
      id := x;
    } else {
      assert ids == {x} + (ids - {x});
      var y := LatestOf(records, ids - {x});
      id := if records[y].sequence < records[x].sequence then x else y;
      forall z | z in ids ensures records[z].sequence <= records[id].sequence {
        assert z == x || z in ids - {x};
      }
    }
  }

  lemma {:induction false} Listing(records: Records, issued: map<string, nat>) returns (live: seq<Record>)
    requires RecordsOk(records, issued)
    ensures Enumerates(live, records)
    decreases |records|
  {
    if records == map[] {
      live := [];
    } else {
      assert records.Keys != {};
      var id := LatestOf(records, records.Keys);
      var rest := records - {id};
      assert rest.Keys == records.Keys - {id};
      assert |rest.Keys| == |rest| && |records.Keys| == |records|;
      var earlier := Listing(rest, issued);
      live := earlier + [records[id]];
      ListedWith(earlier, records, issued, id);
    }
  }

  lemma ListedWith(earlier: seq<Record>, records: Records, issued: map<string, nat>, id: string)
    requires RecordsOk(records, issued) && id in records && Enumerates(earlier, records - {id})
    requires forall x :: x in records ==> records[x].sequence <= records[id].sequence
    ensures Enumerates(earlier + [records[id]], records)
  {
    var live, rest := earlier + [records[id]], records - {id};
    forall i | 0 <= i < |earlier| ensures earlier[i].sequence < records[id].sequence {
      assert earlier[i].content.eventId in rest;
      assert issued[earlier[i].content.eventId] != issued[id];
    }
    forall x | x in records ensures records[x] in live {
      if x != id {
        assert rest[x] in earlier;
      }
    }
  }

  /** A fitting head is enough for a nonempty selection. */
  lemma {:induction false} ScanFinds(live: seq<Record>, records: Records, limit: int, f: Filter, r: Record)
    requires r in live && limit > 0 && IsHead(r, records) && Fits(r, [], f)
    ensures Scan(live, records, limit, f) != []
  {
    hide IsHead;
    var rest, last := live[..|live| - 1], live[|live| - 1];
    assert live == rest + [last];
    if last != r {
      ScanFinds(rest, records, limit, f, r);
    }
  }

  // --------------------------------------------------------------- the checked case

  function Newcomer(id: string, key: string, group: string, broker: string, sequence: nat): Record {
    Record(Content(id, "", "t", map[], key, group, "h", "c", "v"), "a", Route(1, broker, "e", "d"), Ready, 0, "",
           sequence, 0, 0, 1)
  }

  function Opening(group: string, broker: string): Snapshot {
    Snapshot(SNAPSHOT_VERSION, "", "v", group, 1, 1, ACTIVE, "c", "a", [broker], [], [Descriptor(broker, "e")], [],
             None,
             QueueInfo("q", true), Topic("t"), [], [])
  }

  lemma NewcomerLeads(h: Held, r: Record)
    requires RecordsOk(h.records, h.issued) && r.content.eventId !in h.issued && Newest(r.sequence, h.issued)
             && r.state == Ready
    requires forall id :: id in h.records ==> Key(h.records[id]) != Key(r)
    ensures Acceptable([r], r.sequence, h)
    ensures Overlay(h.records, [r]) == h.records[r.content.eventId := r] && IsHead(r, h.records[r.content.eventId := r])
  {
    assert [r][..0] == [];
    assert Overlay(h.records, []) == h.records;
  }

  lemma NewcomerFits(membership: map<string, Snapshot>, counts: map<string, nat>, perBroker: nat, group: string,
                     broker: string, r: Record)
    requires broker !in counts && r.content.group == group && r.route.broker == broker && r.route.epoch == 1
    ensures Fits(r, [], FilterFor(membership[group := Opening(group, broker)], counts, perBroker))
  {
    var m := membership[group := Opening(group, broker)];
    assert group in m && PS.Dispatchable(m[group]) && broker in m[group].current;
    if perBroker > 0 {
      assert broker in BrokerSlots(m, counts, perBroker);
      assert BrokerSlots(m, counts, perBroker)[broker] == perBroker;
    }
  }

  lemma AssignsNothing(h: Held)
    ensures Changed(h, Change.Assign({}, map[], 0)) == h
  {
    assert Mutated(h.records, {}, Assigning(map[]), 0) == h.records;
  }

  /** One group more, one message more, and the admission selects. */
  lemma CheckedSelects(d: DispatcherState, cap: Capacity) returns (e: DispatcherState)
    requires DispatchInv(d, cap) && d.stage.Checked?
    ensures Reaches(d, e, cap) && DispatchInv(e, cap) && e.stage.Selected?
  {
    OrderOf(d, cap);
    assert RecordsOk(d.held.records, d.held.issued);
    var id := FreshName(d.held.issued.Keys);
    var key := FreshName(set x | x in d.held.records :: Key(d.held.records[x]));
    var group := FreshName(d.membership.Keys);
    var broker := FreshName(d.stage.counts.Keys);
    var first := FreshSequence(d.held.issued);
    var r := Newcomer(id, key, group, broker, first);
    forall x | x in d.held.records ensures Key(d.held.records[x]) != Key(r) {
      assert Key(d.held.records[x]) in (set y | y in d.held.records :: Key(d.held.records[y]));
    }
    e := SelectsNewcomer(d, cap, r, group, broker);
  }

  lemma SelectsNewcomer(d: DispatcherState, cap: Capacity, r: Record, group: string, broker: string)
    returns (e: DispatcherState)
    requires DispatchInv(d, cap) && d.stage.Checked? && d.stage.limit > 0 && RecordsOk(d.held.records, d.held.issued)
    requires r.content.eventId !in d.held.issued && Newest(r.sequence, d.held.issued) && r.state == Ready
    requires r.content.group == group && r.route.broker == broker && r.route.epoch == 1 && broker !in d.stage.counts
    requires forall id :: id in d.held.records ==> Key(d.held.records[id]) != Key(r)
    ensures Reaches(d, e, cap) && DispatchInv(e, cap) && e.stage.Selected?
  {
    hide DispatchInv, Reaches, RecordsOk, Newest, Overlay, Issue, FilterFor, Scan, Enumerates, IsHead, Mutated;
    var opening := Opening(group, broker);
    var install, accept := Install(opening, Change.Assign({}, map[], 0)), Outside(Change.Accept([r], r.sequence));
    AssignsNothing(d.held);
    ReachesItself(d, cap);
    ReachesNext(d, d, install, cap);
    StepKeeps(d, install, cap);
    var entered := Do(d, install, cap);
    assert entered == d.(membership := d.membership[group := opening]);
    NewcomerLeads(d.held, r);
    ReachesNext(d, entered, accept, cap);
    StepKeeps(entered, accept, cap);
    var taken := Do(entered, accept, cap);
    OrderOf(taken, cap);
    assert RecordsOk(taken.held.records, taken.held.issued) by { RecordsOf(taken.held); }
    var live := Listing(taken.held.records, taken.held.issued);
    NewcomerFits(d.membership, d.stage.counts, cap.perBroker, group, broker, r);
    ListsIt(live, taken.held.records, r);
    ScanFinds(live, taken.held.records, d.stage.limit, FilterFor(taken.membership, taken.stage.counts, cap.perBroker),
              r);
    ReachesNext(d, taken, Choose(live), cap);
    StepKeeps(taken, Choose(live), cap);
    e := Do(taken, Choose(live), cap);
  }

  lemma RecordsOf(h: Held)
    requires OrderInv(h)
    ensures RecordsOk(h.records, h.issued)
  {
    hide RecordsOk, InOrder;
  }

  lemma ListsIt(live: seq<Record>, records: Records, r: Record)
    requires Enumerates(live, records) && r.content.eventId in records && records[r.content.eventId] == r
    ensures r in live
  {
  }

  lemma AdmittingLeads(d: DispatcherState, cap: Capacity)
    requires DispatchInv(d, cap) && Admitting(d.stage)
    ensures !NothingToCome(d, cap)
  {
    hide DispatchInv, NothingToCome, Reaches;
    if d.stage.Marked? {
      MarkedLeads(d, cap);
    } else if d.stage.Selected? {
      ReachesItself(d, cap);
      SelectedLeads(d, d, cap);
    } else {
      var e := CheckedSelects(d, cap);
      SelectedLeads(d, e, cap);
    }
  }

  // ------------------------------------------------------------------ the main results

  /** Close reports success exactly when the dispatcher is stopped, be it by this call or
      by an earlier one. Then nothing is in flight or pending, now and for good, exactly
      when nothing is pending and no admission is between its look at the closed flag and
      its registration. The call that stops has found nothing pending. A caller ensures
      the rest by waiting for Dispatch before closing. */
  lemma StoppedCloseExact(run: seq<DispatcherState>, steps: seq<Step>, cap: Capacity, m: nat)
    requires IsDispatchRun(run, steps, cap) && m < |run| && run[m].stopped
    ensures NothingToCome(run[m], cap) <==> !Admitting(run[m].stage) && run[m].pending == map[]
    ensures m > 0 && steps[m - 1].Stop? ==> run[m].pending == map[]
  {
    hide DispatchInv, NothingToCome, Initial;
    var d := run[m];
    RunKeeps(run, steps, cap, m);
    if Admitting(d.stage) {
      AdmittingLeads(d, cap);
    } else if d.pending == map[] {
      AccountedMeans(d, cap);
      DrainedForGood(d, cap);
    } else {
      PendingIsOut(d, cap);
    }
    if m > 0 && steps[m - 1].Stop? {
      PathStep(run, steps, cap, m - 1);
    }
  }

  lemma PendingIsOut(d: DispatcherState, cap: Capacity)
    requires d.pending != map[]
    ensures !NothingToCome(d, cap)
  {
    hide Reaches;
    ReachesItself(d, cap);
  }

  // ------------------------------------------------------------------------ the race

  const RACER := Newcomer("e", "k", "g", "b", 1)

  const RACE_START := DispatcherState(
    Held(map["e" := RACER], map["e" := 1]), map["g" := Opening("g", "b")], map[], Idle, NoResults, map[], false, false)

  lemma RaceStarts()
    ensures Initial(RACE_START) && Enumerates([RACER], RACE_START.held.records)
            && IsHead(RACER, RACE_START.held.records)
  {
  }

  lemma NoCounts(perBroker: nat)
    ensures (if perBroker > 0 then Counts(map[]) else map[]) == map[]
  {
  }

  lemma RaceSelects(cap: Capacity)
    requires cap.total > 0
    ensures CanDo(RACE_START, CheckLimits(1), cap)
    ensures var checked := Do(RACE_START, CheckLimits(1), cap);
            CanDo(checked, Choose([RACER]), cap) && Do(checked, Choose([RACER]), cap).stage.Selected?
  {
    RaceStarts();
    hide Initial, Enumerates, IsHead, FilterFor, Scan, Counts, OrderInv;
    NoCounts(cap.perBroker);
    var checked := Do(RACE_START, CheckLimits(1), cap);
    assert checked == RACE_START.(stage := Checked(1, map[]));
    assert RACE_START.membership == map[]["g" := Opening("g", "b")];
    NewcomerFits(map[], map[], cap.perBroker, "g", "b", RACER);
    ScanFinds([RACER], checked.held.records, 1, FilterFor(checked.membership, map[], cap.perBroker), RACER);
  }

  predicate OneIsOut(d: DispatcherState) {
    exists id :: id in d.held.records && d.held.records[id].state == InFlight
  }

  lemma RaceChooses(cap: Capacity) returns (a: DispatcherState, b: DispatcherState)
    requires cap.total > 0
    ensures CanDo(RACE_START, CheckLimits(1), cap) && a == Do(RACE_START, CheckLimits(1), cap)
    ensures CanDo(a, Choose([RACER]), cap) && b == Do(a, Choose([RACER]), cap)
    ensures DispatchInv(b, cap) && b.stage.Selected? && b.pending == map[]
  {
    RaceStarts();
    hide DispatchInv, Enumerates, IsHead, FilterFor, Scan, Initial, Counts, OrderInv;
    RaceSelects(cap);
    InitialKeeps(RACE_START, cap);
    a := Do(RACE_START, CheckLimits(1), cap);
    b := Do(a, Choose([RACER]), cap);
    StepKeeps(RACE_START, CheckLimits(1), cap);
    StepKeeps(a, Choose([RACER]), cap);
  }

  lemma RaceMarks(cap: Capacity) returns (a: DispatcherState, b: DispatcherState, c: DispatcherState)
    requires cap.total > 0
    ensures CanDo(RACE_START, CheckLimits(1), cap) && a == Do(RACE_START, CheckLimits(1), cap)
    ensures CanDo(a, Choose([RACER]), cap) && b == Do(a, Choose([RACER]), cap)
    ensures CanDo(b, MarkBatch(0), cap) && c == Do(b, MarkBatch(0), cap)
    ensures DispatchInv(c, cap) && c.stage.Marked? && c.pending == map[] && OneIsOut(c)
  {
    hide DispatchInv, Mutated, Attempted, EventIds, Chosen, Counts;
    a, b := RaceChooses(cap);
    SelectedGoesOut(b, cap);
    StepKeeps(b, MarkBatch(0), cap);
    c := Do(b, MarkBatch(0), cap);
  }

  lemma RaceCloses(c: DispatcherState, cap: Capacity)
    returns (d: DispatcherState, e: DispatcherState, f: DispatcherState)
    requires DispatchInv(c, cap) && c.stage.Marked? && c.pending == map[] && OneIsOut(c)
    ensures CanDo(c, CloseDown, cap) && d == Do(c, CloseDown, cap)
    ensures CanDo(d, Stop, cap) && e == Do(d, Stop, cap) && e.stopped && e.pending == map[] && OneIsOut(e)
    ensures CanDo(e, RegisterBatch, cap) && f == Do(e, RegisterBatch, cap)
    ensures f.stopped && f.pending != map[] && !Admitting(f.stage)
  {
    hide DispatchInv, Admitted;
    d := c.(closed := true);
    e := d.(stopped := true);
    f := Do(e, RegisterBatch, cap);
    RaceRegisters(c, f, cap);
  }

  /** An admission looks at the closed flag, selects and marks; Close sets the flag, finds
      nothing pending and reports success; a record is in flight without a pending entry.
      Then the admission registers, and submits after the close; and from here on every
      other close reports success at once, with that attempt pending. */
  lemma CloseRace(cap: Capacity)
    requires cap.total > 0
    ensures exists run: seq<DispatcherState>, steps: seq<Step> ::
              && IsDispatchRun(run, steps, cap) && |steps| == 6 && steps[4].Stop?
              && run[5].stopped && run[5].pending == map[] && OneIsOut(run[5])
              && run[6].stopped && run[6].pending != map[] && !Admitting(run[6].stage)
  {
    hide DispatchInv, OneIsOut, Initial, CanDo, Do, IsPath;
    RaceStarts();
    var a, b, c := RaceMarks(cap);
    var d, e, f := RaceCloses(c, cap);
    var run, steps := [RACE_START, a, b, c, d, e, f],
        [CheckLimits(1), Choose([RACER]), MarkBatch(0), CloseDown, Stop, RegisterBatch];
    RacePath(run, steps, cap);
    assert IsDispatchRun(run, steps, cap) && steps[4].Stop?;
  }

  lemma RaceRegisters(c: DispatcherState, f: DispatcherState, cap: Capacity)
    requires DispatchInv(c, cap) && c.stage.Marked? && f.pending == Admitted(c.pending, c.stage.batch)
    ensures f.pending != map[]
  {
    OrderOf(c, cap);
    AdmittedIs(c.pending, c.stage.batch);
    assert c.stage.batch[0].content.eventId in f.pending;
  }

  lemma RacePath(run: seq<DispatcherState>, steps: seq<Step>, cap: Capacity)
    requires |run| == 7 && steps == [CheckLimits(1), Choose([RACER]), MarkBatch(0), CloseDown, Stop, RegisterBatch]
    requires CanDo(run[0], steps[0], cap) && run[1] == Do(run[0], steps[0], cap)
    requires CanDo(run[1], steps[1], cap) && run[2] == Do(run[1], steps[1], cap)
    requires CanDo(run[2], steps[2], cap) && run[3] == Do(run[2], steps[2], cap)
    requires CanDo(run[3], steps[3], cap) && run[4] == Do(run[3], steps[3], cap)
    requires CanDo(run[4], steps[4], cap) && run[5] == Do(run[4], steps[4], cap)
    requires CanDo(run[5], steps[5], cap) && run[6] == Do(run[5], steps[5], cap)
    ensures IsPath(run, steps, cap)
  {
    hide CanDo, Do;
    forall i | 0 <= i < |steps| ensures CanDo(run[i], steps[i], cap) && run[i + 1] == Do(run[i], steps[i], cap) {
      assert i == 0 || i == 1 || i == 2 || i == 3 || i == 4 || i == 5;
    }
  }
}
