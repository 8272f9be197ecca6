/** Rendezvous placement: the broker with the highest score wins, ties go to the
    smaller identifier. Scores are an arbitrary function of the broker.
    Follows routing/membership.go. */
module Routing {
  import opened Control

  /** Score of each broker for one group and business hash; None is a failure. */
  type Score = string -> Option<nat>

  // ------------------------------------------------------------- order of identifiers

  predicate Before(a: string, b: string) {
    if b == "" then false
    else if a == "" then true
    else a[0] < b[0] || (a[0] == b[0] && Before(a[1..], b[1..]))
  }

  lemma {:induction false} BeforeTotal(a: string, b: string)
    ensures a == b || Before(a, b) || Before(b, a)
    ensures !(Before(a, b) && Before(b, a)) && !(a == b && Before(a, b))
  {
    if a != "" && b != "" {
      BeforeTotal(a[1..], b[1..]);
      assert a == [a[0]] + a[1..] && b == [b[0]] + b[1..];
    }
  }

  lemma {:induction false} BeforeTransitive(a: string, b: string, c: string)
    requires Before(a, b) && Before(b, c)
    ensures Before(a, c)
  {
    if a != "" && a[0] == b[0] && b[0] == c[0] {
      BeforeTransitive(a[1..], b[1..], c[1..]);
    }
  }

  /** Up to k the identifiers agree, and there the first one ends or is smaller. */
  predicate SmallerAt(a: string, b: string, k: nat) {
    k <= |a| && k < |b| && a[..k] == b[..k] && (k == |a| || a[k] < b[k])
  }

  /** The order is the lexicographic one. */
  lemma {:induction false} BeforeMeans(a: string, b: string)
    ensures Before(a, b) <==> exists k: nat :: SmallerAt(a, b, k)
  {
    if a == "" || b == "" {
      assert b != "" ==> SmallerAt("", b, 0);
    } else if a[0] != b[0] {
      assert a[0] < b[0] ==> SmallerAt(a, b, 0);
      forall k: nat | SmallerAt(a, b, k) ensures a[0] < b[0] {
        assert k > 0 ==> a[..k][0] == b[..k][0];
      }
    } else {
      BeforeMeans(a[1..], b[1..]);
      forall k: nat | SmallerAt(a[1..], b[1..], k) ensures SmallerAt(a, b, k + 1) {
        assert a[..k + 1] == [a[0]] + a[1..][..k] && b[..k + 1] == [b[0]] + b[1..][..k];
      }
      forall k: nat | SmallerAt(a, b, k) ensures k > 0 && SmallerAt(a[1..], b[1..], k - 1) {
        assert a[1..][..k - 1] == a[..k][1..] && b[1..][..k - 1] == b[..k][1..];
      }
    }
  }

  // -------------------------------------------------------------------- the winner

  /** Whether the selection prefers a to b. */
  predicate Beats(a: string, b: string, score: Score) {
    score(a).Some? && score(b).Some? &&
    (score(a).value > score(b).value || (score(a).value == score(b).value && Before(a, b)))
  }

  lemma BeatsTransitive(a: string, b: string, c: string, score: Score)
    requires Beats(a, b, score) && Beats(b, c, score)
    ensures Beats(a, c, score)
  {
    if score(a).value == score(b).value == score(c).value {
      BeforeTransitive(a, b, c);
    }
  }

  ghost predicate Wins(b: string, members: set<string>, score: Score) {
    b in members && forall c :: c in members && c != b ==> Beats(b, c, score)
  }

  function Members(membership: seq<string>): set<string> {
    set b | b in membership
  }

  predicate Routable(membership: seq<string>, score: Score) {
    && membership != [] && NoDuplicates(membership)
    && forall i :: 0 <= i < |membership| ==> membership[i] != "" && score(membership[i]).Some?
  }

  lemma WinnerUnique(a: string, b: string, members: set<string>, score: Score)
    requires Wins(a, members, score) && Wins(b, members, score)
    ensures a == b
  {
    BeforeTotal(a, b);
  }

  lemma WinnerAgainst(selected: string, next: string, members: set<string>, score: Score)
    requires Wins(selected, members, score) && next !in members && score(next).Some? && score(selected).Some?
    ensures var winner := if score(next).value > score(selected).value
                          || (score(next).value == score(selected).value && Before(next, selected))
                          then next else selected;
            Wins(winner, members + {next}, score)
  {
    BeforeTotal(next, selected);
    forall c | c in members && c != selected && Beats(next, selected, score) ensures Beats(next, c, score) {
      BeatsTransitive(next, selected, c, score);
    }
  }

  /** The broker left standing after comparing the members one by one. */
  function Champion(membership: seq<string>, score: Score): string
    requires Routable(membership, score)
  {
    var last := membership[|membership| - 1];
    if |membership| == 1 then last
    else
      var best := Champion(membership[..|membership| - 1], score);
      if Beats(last, best, score) then last else best
  }

  lemma {:induction false} ChampionWins(membership: seq<string>, score: Score)
    requires Routable(membership, score)
    ensures Wins(Champion(membership, score), Members(membership), score)
  {
    var rest, last := membership[..|membership| - 1], membership[|membership| - 1];
    if |membership| == 1 {
      assert Members(membership) == {last};
    } else {
      ChampionWins(rest, score);
      assert membership == rest + [last];
      assert Members(membership) == Members(rest) + {last};
      WinnerAgainst(Champion(rest, score), last, Members(rest), score);
    }
  }

  lemma RoutableNext(m: seq<string>, i: nat, score: Score)
    requires i < |m| && (i > 0 ==> Routable(m[..i], score))
    ensures Members(m[..i + 1]) == Members(m[..i]) + {m[i]}
    ensures Routable(m[..i + 1], score) <==> m[i] != "" && m[i] !in Members(m[..i]) && score(m[i]).Some?
    ensures Routable(m[..i + 1], score) ==>
              Champion(m[..i + 1], score) == if i > 0 && !Beats(m[i], Champion(m[..i], score), score)
                    then Champion(m[..i], score) else m[i]
    ensures i > 0 ==> Champion(m[..i], score) in m[..i]
  {
    var longer, shorter := m[..i + 1], m[..i];
    assert longer == shorter + [m[i]] && longer[..i] == shorter;
    if i > 0 {
      ChampionWins(shorter, score);
    }
  }

  lemma RoutablePrefix(m: seq<string>, i: nat, score: Score)
    requires 0 < i <= |m|
    ensures Routable(m, score) ==> Routable(m[..i], score)
  {
  }

  /** The broker is found exactly when the membership is usable, and it is the winner
      among its members. */
  method RendezvousBroker(membership: seq<string>, score: Score) returns (r: Option<string>)
    ensures r.Some? <==> Routable(membership, score)
    ensures r.Some? ==> r.value == Champion(membership, score) && Wins(r.value, Members(membership), score)
  {
    if |membership| == 0 {
      return None;
    }
    hide Routable, Champion, Members, Wins, Before;
    var seen: set<string> := {};
    var selected, highest := "", 0;
    NoMembers();
    assert membership[..0] == [];
    for i := 0 to |membership|
      invariant seen == Members(membership[..i])
      invariant i > 0 ==> Routable(membership[..i], score) && selected == Champion(membership[..i], score)
      invariant i > 0 ==> selected != "" && score(selected) == Some(highest)
      invariant i == 0 ==> selected == ""
    {
      var broker := membership[i];
      RoutableNext(membership, i, score);
      RoutablePrefix(membership, i + 1, score);
      var scored := score(broker);
      if broker == "" || broker in seen || scored.None? {
        return None;
      }
      seen := seen + {broker};
      if selected == "" || scored.value > highest || (scored.value == highest && Before(broker, selected)) {
        selected, highest := broker, scored.value;
      }
    }
    assert membership[..|membership|] == membership;
    ChampionWins(membership, score);
    return Some(selected);
  }

  lemma NoMembers()
    ensures Members([]) == {}
  {
  }

  // ------------------------------------------------------------ minimal disruption

  /** The order in which brokers are listed does not matter. */
  lemma OrderFree(p: seq<string>, q: seq<string>, a: string, b: string, score: Score)
    requires Members(p) == Members(q) && Wins(a, Members(p), score) && Wins(b, Members(q), score)
    ensures a == b
  {
    WinnerUnique(a, b, Members(p), score);
  }

  /** Adding a broker moves a key only to the added broker. */
  lemma AddingMovesOnlyThere(members: set<string>, added: string, before: string, after: string, score: Score)
    requires Wins(before, members, score) && Wins(after, members + {added}, score)
    ensures after == before || after == added
  {
    assert before in members + {added};
    BeforeTotal(after, before);
  }

  /** Removing a broker moves only the keys that were on it. */
  lemma RemovingMovesOnlyThose(members: set<string>, removed: string, before: string, after: string, score: Score)
    requires Wins(before, members, score) && Wins(after, members - {removed}, score) && before != removed
    ensures after == before
  {
    assert before in members - {removed} && after in members;
    BeforeTotal(after, before);
  }
}
