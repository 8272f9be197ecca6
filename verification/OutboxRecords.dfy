/** The records of the durable outbox, and the plain scan that says which of them
    may be published next. Follows outbox/outbox.go. */
module OutboxRecords {

  datatype State = Unset | Unassigned | Ready | InFlight | Uncertain

  /** What the publisher handed in. It never changes after acceptance. */
  datatype Content = Content(
    eventId: string,
    payload: string,
    topic: string,
    properties: map<string, string>,
    orderingKey: string,
    group: string,
    hash: string,
    hashContract: string,
    libraryVersion: string)

  datatype Route = Route(epoch: nat, broker: string, endpoint: string, destination: string)

  const NO_ROUTE := Route(0, "", "", "")

  datatype Record = Record(
    content: Content,
    algorithm: string,
    route: Route,
    state: State,
    attempts: nat,
    lastError: string,
    sequence: nat,
    acceptedAt: nat,
    updatedAt: nat,
    size: nat)

  /** Records by event identity. */
  type Records = map<string, Record>

  function Key(r: Record): string {
    if r.content.orderingKey != "" then r.content.orderingKey else r.content.group + "\0" + r.content.hash
  }

  predicate Named(c: Content) {
    && c.eventId != "" && c.topic != "" && c.orderingKey != "" && c.group != ""
    && c.hash != "" && c.hashContract != "" && c.libraryVersion != ""
  }

  predicate Routed(r: Route) {
    r.epoch != 0 && r.broker != "" && r.destination != ""
  }

  predicate Unrouted(r: Route) {
    r.epoch == 0 && r.broker == "" && r.destination == ""
  }

  predicate ValidNew(r: Record) {
    && Named(r.content)
    && (r.state == Unset || r.state == Unassigned || r.state == Ready)
    && (if r.state == Ready then Routed(r.route) else Unrouted(r.route))
  }

  predicate ValidStored(r: Record, size: Content -> nat) {
    && Named(r.content) && r.sequence != 0 && r.size > 0 && r.size == size(r.content)
    && r.state != Unset
    && (if r.state == Unassigned then Unrouted(r.route) else Routed(r.route))
  }

  // ------------------------------------------------------------- acceptance order

  /** The live records among the listed events, in the listed order. */
  function Live(order: seq<string>, records: Records): seq<Record> {
    if order == [] then []
    else
      var earlier, last := Live(order[..|order| - 1], records), order[|order| - 1];
      if last in records then earlier + [records[last]] else earlier
  }

  predicate Ascending(s: seq<Record>) {
    forall i, j :: 0 <= i < j < |s| ==> s[i].sequence < s[j].sequence
  }

  predicate Filed(records: Records) {
    forall id :: id in records ==> records[id].content.eventId == id
  }

  /** The records in order of acceptance, each once. */
  predicate Enumerates(s: seq<Record>, records: Records) {
    && Ascending(s) && Filed(records)
    && (forall i :: 0 <= i < |s| ==> s[i].content.eventId in records && records[s[i].content.eventId] == s[i])
    && (forall id :: id in records ==> records[id] in s)
  }

  /** There is only one such enumeration, so what is said of it depends on the
      records alone. */
  lemma {:induction false} EnumerationUnique(s: seq<Record>, t: seq<Record>, records: Records)
    requires Enumerates(s, records) && Enumerates(t, records)
    ensures s == t
    decreases |s|
  {
    hide Enumerates;
    SameElements(s, t, records);
    SameElements(t, s, records);
    if s != [] && t != [] {
      LastAgrees(s, t, records);
      var last := s[|s| - 1];
      WithoutLast(s, records);
      WithoutLast(t, records);
      EnumerationUnique(s[..|s| - 1], t[..|t| - 1], records - {last.content.eventId});
      assert s == s[..|s| - 1] + [last] && t == t[..|t| - 1] + [last];
    }
  }

  lemma SameElements(s: seq<Record>, t: seq<Record>, records: Records)
    requires Enumerates(s, records) && Enumerates(t, records)
    ensures forall i :: 0 <= i < |s| ==> s[i] in t
    ensures s != [] ==> t != []
  {
    if s != [] {
      assert records[s[0].content.eventId] in t;
    }
  }

  lemma LastAgrees(s: seq<Record>, t: seq<Record>, records: Records)
    requires Enumerates(s, records) && Enumerates(t, records) && s != [] && t != []
    ensures s[|s| - 1] == t[|t| - 1]
  {
    var a, b := s[|s| - 1], t[|t| - 1];
    assert records[a.content.eventId] == a && a in t;
    assert records[b.content.eventId] == b && b in s;
  }

  lemma WithoutLast(s: seq<Record>, records: Records)
    requires Enumerates(s, records) && s != []
    ensures Enumerates(s[..|s| - 1], records - {s[|s| - 1].content.eventId})
  {
    var last := s[|s| - 1];
    var rest, left := s[..|s| - 1], records - {last.content.eventId};
    forall id | id in left ensures left[id] in rest {
      var i :| 0 <= i < |s| && s[i] == records[id];
      assert i != |s| - 1;
      assert rest[i] == left[id];
    }
  }

  // ---------------------------------------------------------------- the plain scan

  /** No live record of the same key was accepted earlier. */
  predicate Oldest(r: Record, records: Records) {
    forall id :: id in records && Key(records[id]) == Key(r) ==> r.sequence <= records[id].sequence
  }

  predicate IsHead(r: Record, records: Records) {
    r.state == Ready && Oldest(r, records)
  }

  /** Which publish attempts are open: the active epoch of each group and the free
      slots of each broker. Absent means unrestricted. */
  datatype Filter = Filter(epochs: OptionalMap, slots: OptionalMap)

  datatype OptionalMap = Anything | Only(values: map<string, nat>)

  function OnBroker(taken: seq<Record>, broker: string): nat {
    if taken == [] then 0
    else OnBroker(taken[..|taken| - 1], broker) + (if taken[|taken| - 1].route.broker == broker then 1 else 0)
  }

  predicate EpochOpen(r: Record, f: Filter) {
    f.epochs.Only? ==> r.content.group in f.epochs.values && f.epochs.values[r.content.group] == r.route.epoch
  }

  function Slots(f: Filter, broker: string): nat {
    if f.slots.Only? && broker in f.slots.values then f.slots.values[broker] else 0
  }

  predicate Fits(r: Record, taken: seq<Record>, f: Filter) {
    EpochOpen(r, f) && (f.slots.Only? ==> OnBroker(taken, r.route.broker) < Slots(f, r.route.broker))
  }

  /** Walk the records in acceptance order, take each that is a ready oldest record
      of its key and fits what was taken before, and stop at the limit. */
  function Scan(live: seq<Record>, records: Records, limit: int, f: Filter): seq<Record> {
    if live == [] then []
    else
      var taken, r := Scan(live[..|live| - 1], records, limit, f), live[|live| - 1];
      if |taken| < limit && IsHead(r, records) && Fits(r, taken, f) then taken + [r] else taken
  }

  function Heads(live: seq<Record>, records: Records): seq<Record> {
    if live == [] then []
    else
      var earlier, r := Heads(live[..|live| - 1], records), live[|live| - 1];
      if IsHead(r, records) then earlier + [r] else earlier
  }

  /** The same selection over heads only. */
  function Select(heads: seq<Record>, limit: int, f: Filter): seq<Record> {
    if heads == [] then []
    else
      var taken, r := Select(heads[..|heads| - 1], limit, f), heads[|heads| - 1];
      if |taken| < limit && Fits(r, taken, f) then taken + [r] else taken
  }

  lemma {:induction false} ScanSelects(live: seq<Record>, records: Records, limit: int, f: Filter)
    ensures Scan(live, records, limit, f) == Select(Heads(live, records), limit, f)
  {
    if live != [] {
      var rest, r := live[..|live| - 1], live[|live| - 1];
      ScanSelects(rest, records, limit, f);
      if IsHead(r, records) {
        var heads := Heads(live, records);
        assert heads[..|heads| - 1] == Heads(rest, records);
      }
    }
  }

  lemma {:induction false} SelectBounded(heads: seq<Record>, limit: int, f: Filter)
    ensures |Select(heads, limit, f)| <= |heads|
    ensures limit >= 0 ==> |Select(heads, limit, f)| <= limit
  {
    if heads != [] {
      SelectBounded(heads[..|heads| - 1], limit, f);
    }
  }

  lemma {:induction false} SelectFull(heads: seq<Record>, m: nat, limit: int, f: Filter)
    requires m <= |heads| && |Select(heads[..m], limit, f)| >= limit
    ensures Select(heads, limit, f) == Select(heads[..m], limit, f)
    decreases |heads|
  {
    if m == |heads| {
      assert heads[..m] == heads;
    } else {
      var rest := heads[..|heads| - 1];
      assert rest[..m] == heads[..m];
      SelectFull(rest, m, limit, f);
    }
  }

  lemma {:induction false} HeadsFrom(live: seq<Record>, records: Records)
    ensures forall r :: r in Heads(live, records) <==> r in live && IsHead(r, records)
  {
    hide IsHead;
    if live != [] {
      var rest, last := live[..|live| - 1], live[|live| - 1];
      HeadsFrom(rest, records);
      assert live == rest + [last];
    }
  }

  lemma {:induction false} HeadsAscend(live: seq<Record>, records: Records)
    requires Ascending(live)
    ensures Ascending(Heads(live, records))
  {
    hide IsHead;
    if live != [] {
      var rest, last := live[..|live| - 1], live[|live| - 1];
      HeadsAscend(rest, records);
      HeadsFrom(rest, records);
      forall r | r in Heads(rest, records) ensures r.sequence < last.sequence {
        var i :| 0 <= i < |rest| && rest[i] == r;
        assert live[i].sequence < live[|live| - 1].sequence;
      }
    }
  }

  lemma HeadsAre(live: seq<Record>, records: Records)
    ensures forall r :: r in Heads(live, records) <==> r in live && IsHead(r, records)
    ensures Ascending(live) ==> Ascending(Heads(live, records))
  {
    hide IsHead, Heads;
    HeadsFrom(live, records);
    if Ascending(live) {
      HeadsAscend(live, records);
    }
  }
}
