/** The client-side reconciler: subscribe first, buffer updates, install the
    authoritative snapshot, then replay the buffer in revision order.
    Follows control/reconciler.go.

    The main result is that bootstrap is confluent. Whether it succeeds, and what
    it installs, is fixed by the baseline and the SET of buffered updates. */
module Bootstrap {
  import opened Control

  datatype Outcome = Installed(snapshot: Snapshot) | Refused

  predicate Before(a: Snapshot, b: Snapshot) {
    a.revision < b.revision || (a.revision == b.revision && a.epoch <= b.epoch)
  }

  predicate Sorted(s: seq<Snapshot>) {
    forall i, j :: 0 <= i < j < |s| ==> Before(s[i], s[j])
  }

  /** Stable insertion: an equal element already present stays in front. */
  function Insert(x: Snapshot, s: seq<Snapshot>): (r: seq<Snapshot>)
    requires Sorted(s)
    ensures Sorted(r)
    ensures multiset(r) == multiset(s) + multiset{x}
  {
    if s == [] then [x]
    else if Before(s[|s| - 1], x) then
      s + [x]
    else
      var front := Insert(x, s[..|s| - 1]);
      InsertedBefore(x, s, front);
      front + [s[|s| - 1]]
  }

  lemma InsertedBefore(x: Snapshot, s: seq<Snapshot>, front: seq<Snapshot>)
    requires s != [] && Sorted(s) && !Before(s[|s| - 1], x)
    requires Sorted(front) && multiset(front) == multiset(s[..|s| - 1]) + multiset{x}
    ensures Sorted(front + [s[|s| - 1]]) && multiset(front + [s[|s| - 1]]) == multiset(s) + multiset{x}
  {
    var rest, last := s[..|s| - 1], s[|s| - 1];
    assert s == rest + [last];
    forall i | 0 <= i < |front| ensures Before(front[i], last) {
      assert front[i] in multiset(front);
      if front[i] != x {
        assert front[i] in rest;
      }
    }
  }

  function Sort(s: seq<Snapshot>): (r: seq<Snapshot>)
    ensures Sorted(r)
    ensures multiset(r) == multiset(s)
  {
    if s == [] then [] else
      assert s == s[..|s| - 1] + [s[|s| - 1]];
      Insert(s[|s| - 1], Sort(s[..|s| - 1]))
  }

  /** One buffered update against the snapshot reached so far. An older update is
      a normal race artifact, unless only its epoch is older. */
  function Replay(current: Snapshot, update: Snapshot): Outcome {
    match Compare(current, update)
    case Newer => Installed(update)
    case Same => Installed(current)
    case Older => if update.revision > current.revision then Refused else Installed(current)
    case _ => Refused
  }

  function ReplayAll(current: Snapshot, updates: seq<Snapshot>): Outcome
    decreases |updates|
  {
    if updates == [] then Installed(current)
    else
      match ReplayAll(current, updates[..|updates| - 1])
      case Refused => Refused
      case Installed(reached) => Replay(reached, updates[|updates| - 1])
  }

  function Finish(baseline: Snapshot, buffered: seq<Snapshot>): Outcome {
    ReplayAll(baseline, Sort(buffered))
  }

  function Elements(s: seq<Snapshot>): set<Snapshot> {
    set x | x in s
  }

  // ------------------------------------------------ the order-free meaning

  predicate SameStream(baseline: Snapshot, updates: set<Snapshot>) {
    forall u :: u in updates ==> u.version == baseline.version && u.group == baseline.group
  }

  /** Deliveries at or below the baseline are replays of it or older states. */
  predicate PastAgrees(baseline: Snapshot, updates: set<Snapshot>) {
    forall u :: u in updates && u.revision <= baseline.revision ==>
      if u.revision == baseline.revision then u == baseline else u.epoch <= baseline.epoch
  }

  /** A revision names one snapshot. */
  predicate OnePerRevision(baseline: Snapshot, updates: set<Snapshot>) {
    forall u, v :: u in updates && v in updates && u.revision == v.revision > baseline.revision ==> u == v
  }

  predicate Adjacent(v: Snapshot, u: Snapshot, updates: set<Snapshot>) {
    v.revision < u.revision && forall w :: w in updates ==> !(v.revision < w.revision < u.revision)
  }

  /** From the baseline upwards each revision is a valid advance of the one
      before it. */
  predicate ChainAdvances(baseline: Snapshot, updates: set<Snapshot>) {
    forall v, u :: v in updates + {baseline} && u in updates && baseline.revision <= v.revision
                   && Adjacent(v, u, updates) ==>
      Compare(v, u) == Newer
  }

  predicate Coherent(baseline: Snapshot, updates: set<Snapshot>) {
    && SameStream(baseline, updates)
    && PastAgrees(baseline, updates)
    && OnePerRevision(baseline, updates)
    && ChainAdvances(baseline, updates)
  }

  predicate Latest(s: Snapshot, baseline: Snapshot, updates: set<Snapshot>) {
    && s in updates + {baseline}
    && forall u :: u in updates + {baseline} ==> u.revision <= s.revision
  }

  // ----------------------------------------------------------- confluence

  /** Dropping the newest part of a coherent set leaves it coherent. */
  lemma CoherentPrefix(baseline: Snapshot, all: set<Snapshot>, part: set<Snapshot>)
    requires Coherent(baseline, all)
    requires part <= all
    requires forall p, u :: p in part && u in all - part ==> p.revision <= u.revision
    ensures Coherent(baseline, part)
  {
    forall v, u | v in part + {baseline} && u in part && baseline.revision <= v.revision && Adjacent(v, u, part)
      ensures Compare(v, u) == Newer
    {
      assert Adjacent(v, u, all);
    }
  }

  /** Adding a newest update keeps the set coherent exactly when replaying it
      against the latest snapshot is not refused. */
  lemma CoherentExtend(baseline: Snapshot, part: set<Snapshot>, latest: Snapshot, u: Snapshot)
    requires Coherent(baseline, part) && Latest(latest, baseline, part)
    requires forall p :: p in part ==> p.revision <= u.revision
    ensures Replay(latest, u).Installed? <==> Coherent(baseline, part + {u})
    ensures Replay(latest, u).Installed? ==> Latest(Replay(latest, u).snapshot, baseline, part + {u})
  {
    var more := part + {u};
    assert latest.version == baseline.version && latest.group == baseline.group && baseline.revision <= latest.revision;
    if u.version != baseline.version || u.group != baseline.group {
      assert !SameStream(baseline, more);
    } else if u.revision > latest.revision {
      assert Adjacent(latest, u, more);
      if Compare(latest, u) == Newer {
        forall v, x | v in more + {baseline} && x in more && baseline.revision <= v.revision && Adjacent(v, x, more)
          ensures Compare(v, x) == Newer
        {
          if x == u {
            assert !(v.revision < latest.revision < u.revision);
            assert v == latest;
          } else {
            assert Adjacent(v, x, part);
          }
        }
      }
    } else {
      OlderExtend(baseline, part, latest, u);
    }
  }

  /** The case of CoherentExtend in which the newest update is not past the
      snapshot reached so far. */
  lemma OlderExtend(baseline: Snapshot, part: set<Snapshot>, latest: Snapshot, u: Snapshot)
    requires Coherent(baseline, part) && Latest(latest, baseline, part)
    requires u.version == baseline.version && u.group == baseline.group
    requires forall p :: p in part ==> p.revision <= u.revision
    requires u.revision <= latest.revision
    ensures Replay(latest, u).Installed? <==> Coherent(baseline, part + {u})
    ensures Replay(latest, u).Installed? ==> Replay(latest, u).snapshot == latest
  {
    var more := part + {u};
    assert latest == baseline || (latest in part && latest.revision == u.revision);
    if u == latest {
      if u in part {
        assert more == part;
      } else {
        assert forall x :: x in more ==> x.revision <= baseline.revision;
        assert ChainAdvances(baseline, more);
      }
    } else if u.revision == latest.revision {
      assert !Coherent(baseline, more);
    } else {
      assert forall x :: x in more ==> x.revision <= u.revision < baseline.revision;
      assert ChainAdvances(baseline, more);
    }
  }

  lemma {:induction false} ReplayMeaning(baseline: Snapshot, updates: seq<Snapshot>)
    requires Sorted(updates)
    ensures ReplayAll(baseline, updates).Installed? <==> Coherent(baseline, Elements(updates))
    ensures ReplayAll(baseline, updates).Installed? ==>
              Latest(ReplayAll(baseline, updates).snapshot, baseline, Elements(updates))
    decreases |updates|
  {
    if updates != [] {
      var rest, last := updates[..|updates| - 1], updates[|updates| - 1];
      ReplayMeaning(baseline, rest);
      assert updates == rest + [last];
      assert Elements(updates) == Elements(rest) + {last};
      match ReplayAll(baseline, rest)
      case Refused =>
        if Coherent(baseline, Elements(updates)) {
          CoherentPrefix(baseline, Elements(updates), Elements(rest));
        }
      case Installed(reached) =>
        CoherentExtend(baseline, Elements(rest), reached, last);
    }
  }

  /** Bootstrap succeeds exactly when the baseline and the buffered updates form
      one coherent history, and then installs the newest of them. */
  lemma FinishMeaning(baseline: Snapshot, buffered: seq<Snapshot>)
    ensures Finish(baseline, buffered).Installed? <==> Coherent(baseline, Elements(buffered))
    ensures Finish(baseline, buffered).Installed? ==>
              Latest(Finish(baseline, buffered).snapshot, baseline, Elements(buffered))
  {
    SortedElements(buffered);
    ReplayMeaning(baseline, Sort(buffered));
  }

  lemma SortedElements(s: seq<Snapshot>)
    ensures Elements(Sort(s)) == Elements(s)
  {
    forall x ensures x in Sort(s) <==> x in s {
      assert x in multiset(Sort(s)) <==> x in multiset(s);
    }
  }

  /** The newest snapshot of a coherent history is unique. */
  lemma LatestUnique(baseline: Snapshot, updates: set<Snapshot>, a: Snapshot, b: Snapshot)
    requires Coherent(baseline, updates)
    requires Latest(a, baseline, updates) && Latest(b, baseline, updates)
    ensures a == b
  {
    assert a.revision == b.revision;
  }

  /** Arrival order and duplicated deliveries do not matter. */
  lemma Confluence(baseline: Snapshot, p: seq<Snapshot>, q: seq<Snapshot>)
    requires Elements(p) == Elements(q)
    ensures Finish(baseline, p) == Finish(baseline, q)
  {
    FinishMeaning(baseline, p);
    FinishMeaning(baseline, q);
    if Finish(baseline, p).Installed? {
      LatestUnique(baseline, Elements(p), Finish(baseline, p).snapshot, Finish(baseline, q).snapshot);
    }
  }

  // -------------------------------------------------------- chain of advances

  /** A path of valid advances from the baseline through buffered updates. */
  predicate Chain(path: seq<Snapshot>, baseline: Snapshot, updates: set<Snapshot>) {
    && path != [] && path[0] == baseline
    && (forall i :: 0 < i < |path| ==> path[i] in updates)
    && (forall i :: 0 < i < |path| ==> Compare(path[i - 1], path[i]) == Newer)
  }

  lemma {:induction false} ReplayChain(baseline: Snapshot, updates: seq<Snapshot>) returns (path: seq<Snapshot>)
    requires ReplayAll(baseline, updates).Installed?
    ensures Chain(path, baseline, Elements(updates))
    ensures path[|path| - 1] == ReplayAll(baseline, updates).snapshot
    decreases |updates|
  {
    hide Compare;
    if updates == [] {
      path := [baseline];
    } else {
      path := ReplayChain(baseline, updates[..|updates| - 1]);
      if Compare(path[|path| - 1], updates[|updates| - 1]) == Newer {
        path := path + [updates[|updates| - 1]];
      }
    }
  }

  lemma FinishChain(baseline: Snapshot, buffered: seq<Snapshot>)
    requires Finish(baseline, buffered).Installed?
    ensures exists path :: Chain(path, baseline, Elements(buffered))
                           && path[|path| - 1] == Finish(baseline, buffered).snapshot
  {
    SortedElements(buffered);
    var path := ReplayChain(baseline, Sort(buffered));
  }

  // ------------------------------------------------------------- the object

  /** Every snapshot kept was validated on arrival and is of one stream. */
  predicate Usable(s: Snapshot, group: string) {
    Valid(s) && s.group == group != ""
  }

  predicate AllUsable(buffered: seq<Snapshot>, group: string) {
    forall i :: 0 <= i < |buffered| ==> Usable(buffered[i], group)
  }

  lemma FinishUsable(baseline: Snapshot, buffered: seq<Snapshot>, group: string)
    requires Usable(baseline, group) && AllUsable(buffered, group)
    ensures AllUsable(Sort(buffered), group)
    ensures Finish(baseline, buffered).Installed? ==> Usable(Finish(baseline, buffered).snapshot, group)
  {
    hide Valid;
    FinishMeaning(baseline, buffered);
    SortedElements(buffered);
    forall i | 0 <= i < |Sort(buffered)| ensures Usable(Sort(buffered)[i], group) {
      assert Sort(buffered)[i] in Elements(buffered);
    }
  }

  method ReplayBuffer(baseline: Snapshot, updates: seq<Snapshot>) returns (r: Outcome)
    ensures r == ReplayAll(baseline, updates)
  {
    var current := baseline;
    for i := 0 to |updates|
      invariant ReplayAll(baseline, updates[..i]) == Installed(current)
    {
      assert updates[..i + 1][..i] == updates[..i];
      match Compare(current, updates[i])
      case Newer =>
        current := updates[i];
      case Same =>
      case Older =>
        if updates[i].revision > current.revision {
          RefusedStays(baseline, updates, i + 1);
          return Refused;
        }
      case _ =>
        RefusedStays(baseline, updates, i + 1);
        return Refused;
    }
    assert updates[..|updates|] == updates;
    return Installed(current);
  }

  lemma {:induction false} RefusedStays(baseline: Snapshot, updates: seq<Snapshot>, n: nat)
    requires n <= |updates| && ReplayAll(baseline, updates[..n]).Refused?
    ensures ReplayAll(baseline, updates).Refused?
    decreases |updates| - n
  {
    if n == |updates| {
      assert updates[..n] == updates;
    } else {
      assert updates[..n + 1][..n] == updates[..n];
      RefusedStays(baseline, updates, n + 1);
    }
  }

  datatype Reply = Accepted(changed: bool) | NotSubscribed | Invalid | WrongGroup | AlreadyFinished | StaleReply
        | ConflictReply

  lemma NamesGroup(s: Snapshot)
    requires Valid(s)
    ensures s.group != ""
  {
    hide ValidMembership, ValidDescriptors, ValidResources, ValidPhase;
  }

  /** What each answer of the comparison means for snapshots of one group. */
  lemma Comparing(left: Snapshot, right: Snapshot)
    requires Valid(left) && Valid(right) && left.group == right.group
    ensures Compare(left, right) == Newer <==> Follows(left, right)
    ensures Compare(left, right) == Same <==> left == right
    ensures Compare(left, right) == Older && right.revision <= left.revision <==>
              right.revision < left.revision && right.epoch <= left.epoch
  {
    FollowsExactly(left, right);
    assert left.version == right.version;
    hide Advance;
  }

  class Reconciler {
    var started: bool
    var ready: bool
    var baseline: Option<Snapshot>
    var buffered: seq<Snapshot>
    var current: Option<Snapshot>
    var group: string

    ghost predicate Valid()
      reads this
    {
      && (!started ==> !ready && baseline.None? && buffered == [])
      && (ready ==> current.Some? && baseline.None? && buffered == [])
      && (!ready ==> current.None?)
      && (baseline.Some? ==> Usable(baseline.value, group))
      && (current.Some? ==> Usable(current.value, group))
      && AllUsable(buffered, group)
    }

    constructor ()
      ensures Valid() && !started
    {
      started, ready, baseline, buffered, current, group := false, false, None, [], None, "";
    }

    method BeginSubscribe() returns (ok: bool)
      requires Valid()
      modifies this`started
      ensures Valid() && started
      ensures ok == !old(started)
    {
      ok := !started;
      started := true;
    }

    method ApplyBaseline(snapshot: Snapshot) returns (r: Reply)
      requires Valid()
      modifies this`baseline, this`group
      ensures Valid()
      ensures r.Accepted? <==>
                && Control.Valid(snapshot) && started && !ready && (old(group) in {"", snapshot.group})
                && (old(baseline).None? || snapshot == old(baseline).value || Follows(old(baseline).value, snapshot)
                    || (snapshot.revision < old(baseline).value.revision
                        && snapshot.epoch <= old(baseline).value.epoch))
      ensures baseline == if r.Accepted? && r.changed then Some(snapshot) else old(baseline)
      ensures r.Accepted? ==> baseline.Some?
      ensures r.Accepted? ==> (r.changed <==> old(baseline).None? || Follows(old(baseline).value, snapshot))
    {
      hide Control.Valid, Compare, Follows;
      var ok := Validate(snapshot);
      if !ok { return Invalid; }
      NamesGroup(snapshot);
      if !started { return NotSubscribed; }
      if group != "" && snapshot.group != group { return WrongGroup; }
      group := snapshot.group;
      if ready { return AlreadyFinished; }
      if baseline.None? {
        baseline := Some(snapshot);
        return Accepted(true);
      }
      Comparing(baseline.value, snapshot);
      match Compare(baseline.value, snapshot)
      case Conflict => return ConflictReply;
      case Regressed => return StaleReply;
      case Newer =>
        baseline := Some(snapshot);
        return Accepted(true);
      case Older =>
        if snapshot.revision > baseline.value.revision { return StaleReply; }
        return Accepted(false);
      case Same =>
        return Accepted(false);
    }

    method ApplyUpdate(snapshot: Snapshot) returns (r: Reply)
      requires Valid()
      modifies this`buffered, this`current, this`group
      ensures Valid()
      ensures r.Accepted? <==>
                && Control.Valid(snapshot) && started && old(group) in {"", snapshot.group}
                && (ready ==> snapshot == old(current).value || Follows(old(current).value, snapshot))
      ensures r.Accepted? && !ready ==> buffered == old(buffered) + [snapshot] && !r.changed
      ensures r.Accepted? && ready ==> (r.changed <==> Follows(old(current).value, snapshot))
      ensures r.Accepted? && r.changed ==> current == Some(snapshot)
      ensures !(r.Accepted? && r.changed) ==> current == old(current)
      ensures !r.Accepted? ==> buffered == old(buffered)
    {
      hide Control.Valid, Compare, Follows;
      var ok := Validate(snapshot);
      if !ok { return Invalid; }
      NamesGroup(snapshot);
      if !started { return NotSubscribed; }
      if group != "" && snapshot.group != group { return WrongGroup; }
      group := snapshot.group;
      if !ready {
        buffered := buffered + [snapshot];
        return Accepted(false);
      }
      Comparing(current.value, snapshot);
      match Compare(current.value, snapshot)
      case Conflict => return ConflictReply;
      case Regressed => return StaleReply;
      case Older => return StaleReply;
      case Same => return Accepted(false);
      case Newer =>
        current := Some(snapshot);
        return Accepted(true);
    }

    /** Sorts the buffer in place and replays it on the baseline. A failure
        leaves the reconciler where it was, so that a retry fails the same way
        unless a newer baseline arrives. */
    method FinishBootstrap() returns (r: Outcome)
      requires Valid()
      modifies this
      ensures Valid() && started == old(started) && group == old(group)
      ensures old(ready) ==> r == Installed(old(current).value) && current == old(current)
      ensures !old(ready) && (!started || old(baseline).None?) ==> r == Refused && !ready
      ensures !old(ready) && started && old(baseline).Some? ==>
                r == Finish(old(baseline).value, old(buffered))
                && (r.Installed? <==> ready)
      ensures r.Installed? ==> ready && current == Some(r.snapshot)
      ensures r.Refused? && !old(ready) ==> baseline == old(baseline) && multiset(buffered) == multiset(old(buffered))
    {
      hide Replay, ReplayAll, Sort, Sorted, Usable;
      if !started { return Refused; }
      if ready { return Installed(current.value); }
      if baseline.None? { return Refused; }
      FinishUsable(baseline.value, buffered, group);
      buffered := Sort(buffered);
      r := ReplayBuffer(baseline.value, buffered);
      if r.Installed? {
        buffered, baseline, ready, current := [], None, true, Some(r.snapshot);
      }
    }

    method Current() returns (s: Option<Snapshot>)
      requires Valid()
      ensures s.Some? <==> ready
      ensures s == current
    {
      s := if ready then current else None;
    }
  }
}
