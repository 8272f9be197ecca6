/** What storing terminal results and registering attempts leave behind, said over the
    results and the records themselves. Follows shim/publisher/async_dispatcher.go. */
module DispatcherEffects {
  import opened OutboxRecords
  import opened OutboxIndex
  import opened OutboxChanges
  import opened OutboxEffects
  import opened DispatcherSteps
  import opened DispatcherAccounting

  // --------------------------------------------------------------------- registering

  /** Each record of the batch is pending with its next attempt, beside what was. */
  predicate WereRegistered(batch: seq<Record>, before: map<string, Pending>, after: map<string, Pending>) {
    && (forall i :: 0 <= i < |batch| ==>
          var r := batch[i];
          && r.content.eventId in after
          && after[r.content.eventId] == Pending(r.attempts + 1, r.route.epoch, r.content.group, r.route.broker))
    && (forall id :: id in before && (forall i :: 0 <= i < |batch| ==> batch[i].content.eventId != id) ==>
          id in after && after[id] == before[id])
    && (forall id :: id in after && id !in before ==>
          exists i :: 0 <= i < |batch| && batch[i].content.eventId == id)
  }

  lemma AdmittingMeans(batch: seq<Record>, pending: map<string, Pending>)
    requires DistinctEvents(batch)
    ensures WereRegistered(batch, pending, Admitted(pending, batch))
  {
    AdmittedIs(pending, batch);
    hide Admitted, DistinctEvents;
    forall id | id in Admitted(pending, batch) && id !in pending
      ensures exists i :: 0 <= i < |batch| && batch[i].content.eventId == id
    {
      assert id in EventIds(batch);
    }
  }

  // ------------------------------------------------------------------------- results

  /** The result is of the current attempt, and the record still waits for it. */
  predicate Awaited(f: Finished, records: Records) {
    && f.eventId in records
    && records[f.eventId].attempts == f.number && records[f.eventId].route.epoch == f.epoch
    && (records[f.eventId].state == InFlight || (f.outcome == Acknowledged && records[f.eventId].state == Uncertain))
  }

  predicate ShowsResult(f: Finished, before: Records, after: Records, now: nat) {
    match f.outcome
    case Acknowledged => f.eventId !in after
    case Rejected =>
      && f.eventId in before && f.eventId in after
      && after[f.eventId] == before[f.eventId].(state := Ready, lastError := f.reason, updatedAt := now)
    case AckUncertain =>
      && f.eventId in before && f.eventId in after
      && after[f.eventId] == before[f.eventId].(state := Uncertain, lastError := f.reason, updatedAt := now)
  }

  predicate NamedBy(results: seq<Finished>, stored: set<nat>, records: Records, id: string) {
    exists i :: 0 <= i < |results| && i in stored && results[i].eventId == id && Awaited(results[i], records)
  }

  /** Each stored result that was awaited has its effect, and nothing else changed. */
  predicate ResultsShown(results: seq<Finished>, stored: set<nat>, before: Records, after: Records, now: nat) {
    && (forall i :: 0 <= i < |results| && i in stored && Awaited(results[i], before) ==>
          ShowsResult(results[i], before, after, now))
    && (forall id :: id in before && !NamedBy(results, stored, before, id) ==> id in after && after[id] == before[id])
    && (forall id :: id in after ==> id in before)
  }

  predicate DistinctResults(results: seq<Finished>) {
    && (forall i :: 0 <= i < |results| ==> results[i].eventId != "")
    && (forall i, j :: 0 <= i < j < |results| ==> results[i].eventId != results[j].eventId)
  }

  lemma UniqueMeans(results: seq<Finished>)
    ensures UniqueBatch(CompletionsOf(results)) <==> DistinctResults(results)
  {
  }

  lemma CompletionMeans(f: Finished, records: Records)
    ensures Applies(CompletionOf(f), records) <==> Awaited(f, records)
  {
  }

  lemma NoneAwaited(results: seq<Finished>, records: Records)
    requires DistinctResults(results)
    ensures Applied(CompletionsOf(results), records) == [] <==>
              forall i :: 0 <= i < |results| ==> !Awaited(results[i], records)
  {
    var completions := CompletionsOf(results);
    AppliedAre(completions, records);
    hide Applied, Applies, Awaited, CompletionsOf, CompletionOf;
    var applied := Applied(completions, records);
    forall i | 0 <= i < |results| ensures completions[i] in applied <==> Awaited(results[i], records) {
      CompletionMeans(results[i], records);
    }
    if applied != [] {
      assert applied[0] in completions;
    }
  }

  /** The completions of the awaited results, and no others. */
  predicate AppliedFrom(applied: seq<Completion>, results: seq<Finished>, records: Records) {
    && (forall i :: 0 <= i < |results| ==> (CompletionOf(results[i]) in applied <==> Awaited(results[i], records)))
    && (forall c :: c in applied ==> exists i :: 0 <= i < |results| && CompletionOf(results[i]) == c)
  }

  lemma AppliedResults(results: seq<Finished>, records: Records)
    requires DistinctResults(results)
    ensures Matching(Applied(CompletionsOf(results), records), records)
    ensures AppliedFrom(Applied(CompletionsOf(results), records), results, records)
  {
    UniqueMeans(results);
    var completions := CompletionsOf(results);
    AppliedMatching(completions, records);
    hide Applied, Applies, Awaited, UniqueBatch, DistinctResults, CompletionOf, Matching;
    forall i | 0 <= i < |results|
      ensures CompletionOf(results[i]) in Applied(completions, records) <==> Awaited(results[i], records)
    {
      CompletionMeans(results[i], records);
      assert completions[i] in completions;
    }
    forall c | c in Applied(completions, records)
      ensures exists i :: 0 <= i < |results| && CompletionOf(results[i]) == c
    {
      var i :| 0 <= i < |completions| && completions[i] == c;
    }
  }

  lemma ResultShown(results: seq<Finished>, i: nat, applied: seq<Completion>, before: Records, after: Records, now: nat)
    requires WereSettled(applied, before, after, now) && AppliedFrom(applied, results, before)
    requires i < |results| && Awaited(results[i], before)
    ensures ShowsResult(results[i], before, after, now)
  {
    assert CompletionOf(results[i]) in applied;
  }

  lemma OthersShown(results: seq<Finished>, applied: seq<Completion>, before: Records, after: Records, now: nat,
                    id: string)
    requires WereSettled(applied, before, after, now) && AppliedFrom(applied, results, before)
    requires id in before && !NamedBy(results, Range(|results|), before, id)
    ensures id in after && after[id] == before[id]
  {
    hide Awaited;
    forall c | c in applied ensures c.eventId != id {
      var i: nat :| i < |results| && CompletionOf(results[i]) == c;
      assert i in Range(|results|) && Awaited(results[i], before);
    }
  }

  lemma NoneAdded(applied: seq<Completion>, before: Records, after: Records, now: nat)
    requires WereSettled(applied, before, after, now)
    ensures forall id :: id in after ==> id in before
  {
  }

  lemma SettledShown(results: seq<Finished>, applied: seq<Completion>, before: Records, after: Records, now: nat)
    requires WereSettled(applied, before, after, now) && AppliedFrom(applied, results, before)
    ensures ResultsShown(results, Range(|results|), before, after, now)
  {
    hide Awaited, ShowsResult, WereSettled, AppliedFrom, NamedBy, Range;
    NoneAdded(applied, before, after, now);
    forall i | 0 <= i < |results| && Awaited(results[i], before) ensures ShowsResult(results[i], before, after, now) {
      ResultShown(results, i, applied, before, after, now);
    }
    forall id | id in before && !NamedBy(results, Range(|results|), before, id)
      ensures id in after && after[id] == before[id]
    {
      OthersShown(results, applied, before, after, now, id);
    }
  }

  /** One transaction over all results. */
  lemma TogetherShown(results: seq<Finished>, records: Records, now: nat)
    requires DistinctResults(results)
    ensures var applied := Applied(CompletionsOf(results), records);
            ResultsShown(results, Range(|results|), records, Settled(records, applied, applied, now), now)
  {
    hide Settled, Applied, DistinctResults, Matching, CompletionsOf, ResultsShown, WereSettled, AppliedFrom;
    var applied := Applied(CompletionsOf(results), records);
    AppliedResults(results, records);
    SettlingMeans(applied, records, now);
    SettledShown(results, applied, records, Settled(records, applied, applied, now), now);
  }

  lemma OneShown(f: Finished, records: Records, now: nat)
    requires f.eventId != ""
    ensures var applied := Applied([CompletionOf(f)], records);
            ResultsShown([f], {0}, records, Settled(records, applied, applied, now), now)
    ensures Applied([CompletionOf(f)], records) == [] <==> !Awaited(f, records)
  {
    assert CompletionsOf([f]) == [CompletionOf(f)];
    assert Range(|[f]|) == {0};
    hide Settled, Applied, ResultsShown, Awaited;
    TogetherShown([f], records, now);
    NoneAwaited([f], records);
    assert [f][0] == f;
  }

  lemma NothingShown(results: seq<Finished>, records: Records, now: nat)
    ensures ResultsShown(results, {}, records, records, now)
  {
  }

  /** Results of different events do not interfere. */
  lemma ShownNext(results: seq<Finished>, stored: set<nat>, i: nat, before: Records, mid: Records, after: Records,
                  now: nat)
    requires DistinctResults(results) && i < |results| && i !in stored
    requires ResultsShown(results, stored, before, mid, now) && ResultsShown([results[i]], {0}, mid, after, now)
    ensures ResultsShown(results, stored + {i}, before, after, now)
  {
    var f := results[i];
    assert [f][0] == f;
    assert f.eventId in before ==> !NamedBy(results, stored, before, f.eventId);
    assert Awaited(f, before) <==> Awaited(f, mid);
    forall id | id != f.eventId && id in mid ensures id in after && after[id] == mid[id] {
      assert !NamedBy([f], {0}, mid, id);
    }
    forall k | 0 <= k < |results| && k in stored + {i} && Awaited(results[k], before)
      ensures ShowsResult(results[k], before, after, now)
    {
      if k == i {
        assert 0 in {0};
      } else {
        assert results[k].eventId != f.eventId;
      }
    }
    forall id | id in before && !NamedBy(results, stored + {i}, before, id)
      ensures id in after && after[id] == before[id]
    {
      assert !NamedBy(results, stored, before, id);
      if NamedBy([f], {0}, mid, id) {
        assert i in stored + {i};
      }
    }
  }

  /** A result that does not change anything need not count as stored. */
  lemma ShownSame(results: seq<Finished>, stored: set<nat>, other: set<nat>, before: Records, after: Records, now: nat)
    requires ResultsShown(results, stored, before, after, now)
    requires forall i :: 0 <= i < |results| ==> (i in stored <==> i in other)
    ensures ResultsShown(results, other, before, after, now)
  {
    forall id | NamedBy(results, stored, before, id) ensures NamedBy(results, other, before, id) {
    }
  }
}
