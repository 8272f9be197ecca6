/** Reading the outbox back: every check made on the buckets, and why the buckets of a
    store that kept its invariant pass all of them. Follows load in
    outbox/outbox.go. */
module OutboxRecovery {
  import opened OutboxRecords
  import opened OutboxIndex
  import opened OutboxUpkeep
  import opened OutboxChanges
  import opened OutboxStorage

  /** The keys of the record bucket in the order a cursor visits them. */
  predicate Cursor(keys: seq<nat>, d: Disk) {
    && (forall i, j :: 0 <= i < j < |keys| ==> keys[i] < keys[j])
    && (forall i :: 0 <= i < |keys| ==> keys[i] in d.records)
    && (forall s :: s in d.records ==> s in keys)
  }

  /** One stored record agrees with its key and with the event index. */
  predicate Readable(d: Disk, s: nat, size: Content -> nat) {
    && s in d.records && s != 0 && d.records[s].sequence == s && ValidStored(d.records[s], size)
    && d.records[s].content.eventId in d.events && d.events[d.records[s].content.eventId] == s
  }

  function ReadAll(d: Disk, keys: seq<nat>): (r: seq<Record>)
    requires forall i :: 0 <= i < |keys| ==> keys[i] in d.records
    ensures |r| == |keys| && forall i :: 0 <= i < |keys| ==> r[i] == d.records[keys[i]]
  {
    seq(|keys|, i requires 0 <= i < |keys| => d.records[keys[i]])
  }

  predicate Loadable(d: Disk, keys: seq<nat>, limits: Limits, size: Content -> nat)
    requires Cursor(keys, d)
  {
    && d.nextSequence != 0
    && (forall i :: 0 <= i < |keys| ==> Readable(d, keys[i], size))
    && Total(ReadAll(d, keys)) <= limits.maxBytes
    && |keys| <= limits.maxMessages
    && Total(ReadAll(d, keys)) == d.totalBytes
    && (forall id :: id in d.events ==> d.events[id] in d.records && d.records[d.events[id]].content.eventId == id)
    && (keys != [] ==> keys[|keys| - 1] != MAX_UINT64)
  }

  function RecoverAll(records: seq<Record>, now: nat): (r: seq<Record>)
    ensures |r| == |records| && forall i :: 0 <= i < |r| ==> r[i] == Recover(records[i], now)
  {
    seq(|records|, i requires 0 <= i < |records| => Recover(records[i], now))
  }

  /** The records that were in flight, as they are written back. */
  function InDoubt(records: seq<Record>, now: nat): seq<Record> {
    if records == [] then []
    else
      var earlier, last := InDoubt(records[..|records| - 1], now), records[|records| - 1];
      if last.state == InFlight then earlier + [Recover(last, now)] else earlier
  }

  function NextAfter(d: Disk, keys: seq<nat>): nat {
    if keys != [] && d.nextSequence <= keys[|keys| - 1] then keys[|keys| - 1] + 1 else d.nextSequence
  }

  datatype Loaded = Loaded(records: seq<Record>, recovered: seq<Record>, nextSequence: nat, totalBytes: nat)

  lemma {:induction false} TotalGrows(d: Disk, keys: seq<nat>, i: nat)
    requires i <= |keys| && forall k :: 0 <= k < |keys| ==> keys[k] in d.records
    ensures Total(ReadAll(d, keys[..i])) <= Total(ReadAll(d, keys))
    decreases |keys| - i
  {
    if i == |keys| {
      assert keys[..i] == keys;
    } else {
      ReadNext(d, keys, i);
      TotalGrows(d, keys, i + 1);
    }
  }

  lemma ReadNext(d: Disk, keys: seq<nat>, i: nat)
    requires i < |keys| && forall k :: 0 <= k < |keys| ==> keys[k] in d.records
    ensures ReadAll(d, keys[..i + 1]) == ReadAll(d, keys[..i]) + [d.records[keys[i]]]
    ensures Total(ReadAll(d, keys[..i + 1])) == Total(ReadAll(d, keys[..i])) + d.records[keys[i]].size
  {
    assert ReadAll(d, keys[..i + 1]) == ReadAll(d, keys[..i]) + [d.records[keys[i]]];
    TotalAppend(ReadAll(d, keys[..i]), d.records[keys[i]]);
  }

  lemma InDoubtNext(records: seq<Record>, r: Record, now: nat)
    ensures InDoubt(records + [r], now) == if r.state == InFlight then InDoubt(records, now) + [Recover(r, now)]
              else InDoubt(records, now)
    ensures RecoverAll(records + [r], now) == RecoverAll(records, now) + [Recover(r, now)]
  {
    assert (records + [r])[..|records|] == records;
  }

  /** One stored record: complete, as large as it says, routed as its state demands, and
      found under its key and its event. */
  method CheckRecord(d: Disk, s: nat, size: Content -> nat) returns (ok: bool)
    requires s in d.records
    ensures ok <==> Readable(d, s, size)
  {
    var r := d.records[s];
    var c := r.content;
    if c.eventId == "" || c.topic == "" || c.orderingKey == "" || c.group == "" || c.hash == ""
       || c.hashContract == "" || c.libraryVersion == "" || r.sequence == 0 || r.size == 0 || size(c) != r.size {
      return false;
    }
    if r.state == Unset {
      return false;
    } else if r.state == Unassigned {
      if r.route.epoch != 0 || r.route.broker != "" || r.route.destination != "" {
        return false;
      }
    } else if r.route.epoch == 0 || r.route.broker == "" || r.route.destination == "" {
      return false;
    }
    return r.sequence == s && c.eventId in d.events && d.events[c.eventId] == s;
  }

  /** The pass over the record bucket. */
  method ReadRecords(d: Disk, keys: seq<nat>, maxBytes: nat, now: nat, size: Content -> nat) returns (r: Result<Loaded>)
    requires Cursor(keys, d)
    ensures r.Ok? <==> (forall i :: 0 <= i < |keys| ==> Readable(d, keys[i], size))
                       && Total(ReadAll(d, keys)) <= maxBytes
    ensures r.Ok? ==> r.value.records == RecoverAll(ReadAll(d, keys), now)
                      && r.value.recovered == InDoubt(ReadAll(d, keys), now)
    ensures r.Ok? ==> r.value.totalBytes == Total(ReadAll(d, keys)) && r.value.nextSequence == d.nextSequence
  {
    hide Readable, InDoubt, RecoverAll, Total, Recover, ReadAll;
    var loaded: seq<Record>, recovered: seq<Record>, total: nat := [], [], 0;
    NothingRead(d, now);
    assert keys[..0] == [];
    for i := 0 to |keys|
      invariant forall k :: 0 <= k < i ==> Readable(d, keys[k], size)
      invariant loaded == RecoverAll(ReadAll(d, keys[..i]), now) && recovered == InDoubt(ReadAll(d, keys[..i]), now)
      invariant total == Total(ReadAll(d, keys[..i])) <= maxBytes
    {
      var readable := CheckRecord(d, keys[i], size);
      if !readable {
        return Refused;
      }
      var record := d.records[keys[i]];
      ReadNext(d, keys, i);
      InDoubtNext(ReadAll(d, keys[..i]), record, now);
      if record.size > maxBytes - total {
        TotalGrows(d, keys, i + 1);
        return Refused;
      }
      total := total + record.size;
      loaded := loaded + [Recover(record, now)];
      if record.state == InFlight {
        recovered := recovered + [Recover(record, now)];
      }
    }
    assert keys[..|keys|] == keys;
    return Ok(Loaded(loaded, recovered, d.nextSequence, total));
  }

  lemma NothingRead(d: Disk, now: nat)
    ensures ReadAll(d, []) == [] && RecoverAll([], now) == [] && InDoubt([], now) == [] && Total([]) == 0
  {
  }

  /** Every check together, and the sequence to go on with. */
  method LoadAll(d: Disk, keys: seq<nat>, limits: Limits, now: nat, size: Content -> nat) returns (r: Result<Loaded>)
    requires Cursor(keys, d)
    ensures r.Ok? <==> Loadable(d, keys, limits, size)
    ensures r.Ok? ==> r.value.records == RecoverAll(ReadAll(d, keys), now)
                      && r.value.recovered == InDoubt(ReadAll(d, keys), now)
    ensures r.Ok? ==> r.value.totalBytes == d.totalBytes
    ensures r.Ok? ==> r.value.nextSequence == NextAfter(d, keys)
  {
    hide Readable, InDoubt, RecoverAll, Total, ReadAll;
    if d.nextSequence == 0 {
      return Refused;
    }
    r := ReadRecords(d, keys, limits.maxBytes, now, size);
    if r.Refused? {
      return;
    }
    if |keys| > limits.maxMessages || r.value.totalBytes != d.totalBytes {
      return Refused;
    }
    if exists id :: id in d.events && !(d.events[id] in d.records && d.records[d.events[id]].content.eventId == id) {
      return Refused;
    }
    var last := if |keys| == 0 then 0 else keys[|keys| - 1];
    if last == MAX_UINT64 {
      return Refused;
    }
    if d.nextSequence <= last {
      r := Ok(r.value.(nextSequence := last + 1));
    }
  }

  // ------------------------------------------- what a store wrote can be read back

  lemma ReadEnumerates(d: Disk, keys: seq<nat>, records: Records)
    requires Cursor(keys, d) && Mirrors(d, records) && Filed(records)
    ensures Enumerates(ReadAll(d, keys), records)
  {
    var read := ReadAll(d, keys);
    forall i | 0 <= i < |read|
      ensures read[i].content.eventId in records && records[read[i].content.eventId] == read[i]
              && read[i].sequence == keys[i]
    {
      assert keys[i] in d.records;
    }
    forall id | id in records ensures records[id] in read {
      var i :| 0 <= i < |keys| && keys[i] == records[id].sequence;
      assert read[i] == records[id];
    }
  }

  lemma {:induction false} EnumerationCount(s: seq<Record>, records: Records)
    requires Enumerates(s, records)
    ensures |s| == |records|
    decreases |s|
  {
    if s == [] {
      NoRecords(s, records);
    } else {
      var last := s[|s| - 1].content.eventId;
      assert last in records;
      WithoutLast(s, records);
      EnumerationCount(s[..|s| - 1], records - {last});
      assert (records - {last}).Keys == records.Keys - {last};
    }
  }

  lemma NoRecords(s: seq<Record>, records: Records)
    requires Enumerates(s, records) && s == []
    ensures |records| == 0
  {
    assert forall id :: id in records ==> records[id] in s;
    assert records.Keys == {};
  }

  lemma AllReadable(d: Disk, keys: seq<nat>, records: Records, size: Content -> nat)
    requires Cursor(keys, d) && Mirrors(d, records) && AllStored(records, size) && Filed(records)
    ensures forall i :: 0 <= i < |keys| ==> Readable(d, keys[i], size)
    ensures forall id :: id in d.events ==> d.events[id] in d.records && d.records[d.events[id]].content.eventId == id
  {
    hide ValidStored;
    forall i | 0 <= i < |keys| ensures Readable(d, keys[i], size) {
      var r := d.records[keys[i]];
      assert r.content.eventId in records && records[r.content.eventId].sequence == keys[i];
      assert ValidStored(records[r.content.eventId], size);
      StoredSequence(r, size);
    }
  }

  lemma StoredSequence(r: Record, size: Content -> nat)
    ensures ValidStored(r, size) ==> r.sequence != 0
  {
  }

  lemma SequencesBelow(d: Disk, keys: seq<nat>, records: Records, issued: map<string, nat>, next: nat)
    requires Cursor(keys, d) && Mirrors(d, records) && RecordsOk(records, issued) && Newest(next, issued)
    ensures forall i :: 0 <= i < |keys| ==> keys[i] < next
  {
    UnusedSequences(d, records, issued, next);
  }

  /** The buckets of a store that kept its invariant always load, and give back the
      same records in the same order. */
  lemma MirrorLoads(d: Disk, keys: seq<nat>, records: Records, order: seq<string>, issued: map<string, nat>,
                    limits: Limits, size: Content -> nat)
    requires Cursor(keys, d) && Mirrors(d, records) && AllStored(records, size)
    requires RecordsOk(records, issued) && OrderOk(order, records, issued) && Newest(d.nextSequence, issued)
    requires 0 < d.nextSequence <= MAX_UINT64 && |records| <= limits.maxMessages
    requires d.totalBytes == Total(Live(order, records)) <= limits.maxBytes
    ensures Loadable(d, keys, limits, size) && NextAfter(d, keys) == d.nextSequence
    ensures ReadAll(d, keys) == Live(order, records) && Enumerates(Live(order, records), records)
  {
    hide Mirrors, OrderOk, Newest, Total, AllStored, Readable, Enumerates;
    FiledRecords(records, issued);
    ReadEnumerates(d, keys, records);
    LiveEnumerates(order, records, issued);
    EnumerationUnique(ReadAll(d, keys), Live(order, records), records);
    EnumerationCount(ReadAll(d, keys), records);
    AllReadable(d, keys, records, size);
    SequencesBelow(d, keys, records, issued, d.nextSequence);
  }

  // ------------------------------------------------------ what reading back changes

  lemma RecoveredDistinct(live: seq<Record>, records: Records, now: nat)
    requires Enumerates(live, records)
    ensures DistinctEvents(RecoverAll(live, now))
  {
    var batch := RecoverAll(live, now);
    forall i, j | 0 <= i < j < |batch| ensures batch[i].content.eventId != batch[j].content.eventId {
      assert live[i].sequence < live[j].sequence;
      assert records[live[i].content.eventId] == live[i] && records[live[j].content.eventId] == live[j];
    }
  }

  lemma RecoveredAt(live: seq<Record>, batch: seq<Record>, records: Records, now: nat, id: string)
    requires Enumerates(live, records) && batch == RecoverAll(live, now) && id in records
    ensures exists i :: 0 <= i < |batch| && batch[i].content.eventId == id && batch[i] == Recover(records[id], now)
  {
    var i :| 0 <= i < |live| && live[i] == records[id];
    assert batch[i] == Recover(records[id], now);
  }

  lemma RecoveredOverlay(live: seq<Record>, records: Records, now: nat)
    requires Enumerates(live, records)
    ensures Overlay(map[], RecoverAll(live, now)) == Recovered(records, now)
  {
    hide Overlay, DistinctEvents, Recover, Enumerates, RecoverAll;
    var batch := RecoverAll(live, now);
    RecoveredDistinct(live, records, now);
    OverlayIs(map[], batch);
    var after := Overlay(map[], batch);
    forall id | id in records ensures id in after && after[id] == Recover(records[id], now) {
      RecoveredAt(live, batch, records, now, id);
      var i :| 0 <= i < |batch| && batch[i].content.eventId == id && batch[i] == Recover(records[id], now);
      assert id in EventIds(batch);
    }
    forall id | id in after ensures id in records {
      RecoveredFrom(live, records, now, id);
    }
  }

  lemma RecoveredFrom(live: seq<Record>, records: Records, now: nat, id: string)
    requires Enumerates(live, records) && id in EventIds(RecoverAll(live, now))
    ensures id in records
  {
    var i :| 0 <= i < |live| && RecoverAll(live, now)[i].content.eventId == id;
    assert live[i].content.eventId == id;
  }

  lemma {:induction false} InDoubtAre(live: seq<Record>, now: nat)
    ensures forall r :: r in InDoubt(live, now) ==> exists i :: 0 <= i < |live| && live[i].state == InFlight
                                                                && r == Recover(live[i], now)
    ensures forall i :: 0 <= i < |live| && live[i].state == InFlight ==> Recover(live[i], now) in InDoubt(live, now)
  {
    if live != [] {
      var rest, last := live[..|live| - 1], live[|live| - 1];
      InDoubtAre(rest, now);
      assert live == rest + [last];
      forall r | r in InDoubt(live, now)
        ensures exists i :: 0 <= i < |live| && live[i].state == InFlight && r == Recover(live[i], now)
      {
        if r in InDoubt(rest, now) {
          var i :| 0 <= i < |rest| && rest[i].state == InFlight && r == Recover(rest[i], now);
          assert live[i] == rest[i];
        }
      }
    }
  }

  lemma {:induction false} InDoubtAscends(live: seq<Record>, now: nat)
    requires Ascending(live)
    ensures Ascending(InDoubt(live, now))
  {
    if live != [] {
      var rest, last := live[..|live| - 1], live[|live| - 1];
      InDoubtAscends(rest, now);
      InDoubtAre(rest, now);
      forall r | r in InDoubt(rest, now) ensures r.sequence < last.sequence {
        var i :| 0 <= i < |rest| && rest[i].state == InFlight && r == Recover(rest[i], now);
        assert live[i].sequence < live[|live| - 1].sequence;
      }
    }
  }

  lemma InDoubtOverlay(live: seq<Record>, records: Records, now: nat)
    requires Enumerates(live, records)
    requires forall id :: id in records && records[id].state != Unassigned ==> Routed(records[id].route)
    ensures InPlace(InDoubt(live, now), records)
    ensures Overlay(records, InDoubt(live, now)) == Recovered(records, now)
  {
    var batch := InDoubt(live, now);
    InDoubtAre(live, now);
    InDoubtAscends(live, now);
    forall i | 0 <= i < |batch|
      ensures var id := batch[i].content.eventId;
              id in records && records[id].state == InFlight && batch[i] == Recover(records[id], now)
    {
      assert batch[i] in batch;
      var k :| 0 <= k < |live| && live[k].state == InFlight && batch[i] == Recover(live[k], now);
    }
    InDoubtInPlace(batch, records, now);
    InDoubtEquals(live, batch, records, now);
  }

  lemma InDoubtInPlace(batch: seq<Record>, records: Records, now: nat)
    requires Ascending(batch) && Filed(records)
    requires forall id :: id in records && records[id].state != Unassigned ==> Routed(records[id].route)
    requires forall i :: 0 <= i < |batch| ==>
               batch[i].content.eventId in records && records[batch[i].content.eventId].state == InFlight
               && batch[i] == Recover(records[batch[i].content.eventId], now)
    ensures InPlace(batch, records)
  {
    forall i, j | 0 <= i < j < |batch| ensures batch[i].content.eventId != batch[j].content.eventId {
      assert batch[i].sequence < batch[j].sequence;
    }
  }

  lemma InDoubtEquals(live: seq<Record>, batch: seq<Record>, records: Records, now: nat)
    requires Enumerates(live, records) && InPlace(batch, records)
    requires forall i :: 0 <= i < |batch| ==> batch[i] == Recover(records[batch[i].content.eventId], now)
    requires forall i :: 0 <= i < |live| && live[i].state == InFlight ==> Recover(live[i], now) in batch
    ensures Overlay(records, batch) == Recovered(records, now)
  {
    OverlayIs(records, batch);
    hide Overlay;
    var after := Overlay(records, batch);
    assert after.Keys == records.Keys;
    forall id | id in records ensures after[id] == Recover(records[id], now) {
      var k :| 0 <= k < |live| && live[k] == records[id];
      if records[id].state == InFlight {
        var i :| 0 <= i < |batch| && batch[i] == Recover(live[k], now);
        assert batch[i].content.eventId == id;
        assert id in EventIds(batch);
      } else if id in EventIds(batch) {
        assert after[id] in batch;
      }
    }
  }

  // ------------------------------------------------------------- indexing afresh

  lemma {:induction false} IssuedFrom(batch: seq<Record>, id: string)
    requires id in Issue(map[], batch)
    ensures exists i :: 0 <= i < |batch| && batch[i].content.eventId == id
                        && Issue(map[], batch)[id] == batch[i].sequence
  {
    if batch != [] {
      var rest, last := batch[..|batch| - 1], batch[|batch| - 1];
      if id != last.content.eventId {
        IssuedFrom(rest, id);
        var i :| 0 <= i < |rest| && rest[i].content.eventId == id && Issue(map[], rest)[id] == rest[i].sequence;
        assert batch[i] == rest[i];
      }
    }
  }

  lemma NextIsNewest(batch: seq<Record>, i: nat)
    requires i < |batch| && Ascending(batch) && DistinctEvents(batch)
    ensures Newest(batch[i].sequence, Issue(map[], batch[..i])) && batch[i].content.eventId !in Issue(map[], batch[..i])
  {
    var prefix := batch[..i];
    forall id | id in Issue(map[], prefix)
      ensures Issue(map[], prefix)[id] < batch[i].sequence && id != batch[i].content.eventId
    {
      IssuedFrom(prefix, id);
      var k :| 0 <= k < |prefix| && prefix[k].content.eventId == id && Issue(map[], prefix)[id] == prefix[k].sequence;
      assert batch[k] == prefix[k];
    }
  }

  lemma OverlayOf(batch: seq<Record>, i: nat)
    requires i < |batch| && DistinctEvents(batch)
    ensures batch[i].content.eventId !in Overlay(map[], batch[..i])
  {
    OverlayIs(map[], batch[..i]);
  }

  /** The index does not depend on how much history it is held against. */
  lemma IssuedGrows(records: Records, order: seq<string>, lanes: Lanes, less: map<string, nat>, more: map<string, nat>)
    requires RecordsOk(records, less) && OrderOk(order, records, less) && LanesOk(lanes, records, less)
    requires forall id :: id in less ==> id in more && more[id] == less[id]
    requires forall a, b :: a in more && b in more && more[a] == more[b] ==> a == b
    ensures RecordsOk(records, more) && OrderOk(order, records, more) && LanesOk(lanes, records, more)
  {
    forall key | key in lanes ensures LaneOk(key, lanes[key], records, more) {
      LaneGrows(key, lanes[key], records, less, more);
    }
  }

  lemma LaneGrows(key: string, lane: Lane, records: Records, less: map<string, nat>, more: map<string, nat>)
    requires LaneOk(key, lane, records, less) && forall id :: id in less ==> id in more && more[id] == less[id]
    ensures LaneOk(key, lane, records, more)
  {
  }

  lemma HistoryAgrees(live: seq<Record>, records: Records, issued: map<string, nat>, now: nat)
    requires RecordsOk(records, issued) && Enumerates(live, records)
    ensures forall id :: id in Issue(map[], RecoverAll(live, now)) ==>
              id in issued && issued[id] == Issue(map[], RecoverAll(live, now))[id]
  {
    var batch := RecoverAll(live, now);
    forall id | id in Issue(map[], batch) ensures id in issued && issued[id] == Issue(map[], batch)[id] {
      IssuedFrom(batch, id);
      var i :| 0 <= i < |batch| && batch[i].content.eventId == id && Issue(map[], batch)[id] == batch[i].sequence;
      assert records[live[i].content.eventId] == live[i];
    }
  }

  lemma RoutedRecords(records: Records, size: Content -> nat)
    requires AllStored(records, size)
    ensures forall id :: id in records && records[id].state != Unassigned ==> Routed(records[id].route)
  {
    forall id | id in records ensures records[id].state != Unassigned ==> Routed(records[id].route) {
      assert ValidStored(records[id], size);
    }
  }

  lemma RecoveredStored(records: Records, now: nat, size: Content -> nat)
    requires AllStored(records, size)
    ensures AllStored(Recovered(records, now), size)
  {
    var after := Recovered(records, now);
    forall id | id in after ensures ValidStored(after[id], size) {
      assert ValidStored(records[id], size);
    }
  }

  lemma RecoveredCount(records: Records, now: nat)
    ensures |Recovered(records, now)| == |records|
  {
    hide Recover;
    var after := Recovered(records, now);
    assert after.Keys == records.Keys;
    assert |after.Keys| == |after| && |records.Keys| == |records|;
  }

  lemma RecoveredOk(live: seq<Record>, records: Records, now: nat, size: Content -> nat)
    requires AllStored(records, size) && Enumerates(live, records)
    ensures AllStored(Recovered(records, now), size) && |Recovered(records, now)| == |records|
    ensures Ascending(RecoverAll(live, now)) && Total(RecoverAll(live, now)) == Total(live)
  {
    hide AllStored, Total, Recovered;
    RecoveredStored(records, now, size);
    RecoveredTotal(live, now);
    RecoveredCount(records, now);
  }

  lemma {:induction false} RecoveredTotal(live: seq<Record>, now: nat)
    ensures Total(RecoverAll(live, now)) == Total(live)
  {
    if live != [] {
      RecoveredTotal(live[..|live| - 1], now);
      assert RecoverAll(live, now)[..|live| - 1] == RecoverAll(live[..|live| - 1], now);
    }
  }
}
