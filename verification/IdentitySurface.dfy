/**
  The ClickHouse identity surface: raw events, the three materialized views that index them
  block by block, and the events, persons and sessions views read over them.

  A materialized view sees only the block being inserted. Its target table holds partial
  aggregates that background merges combine in any order, so the number and order of rows in
  a table depends on history; what the views answer must not.
 */
module IdentitySurface {
  import opened Common

  type Millis = int

  datatype EventName = Identify | Named(name: string)

  /** A row of events_raw_v1, without the columns no aggregate here reads. */
  datatype Raw = Raw(
    project: string,
    event: EventName,
    anonymousId: Option<string>,
    userId: Option<string>,
    timestamp: Millis,
    sessionId: Option<string>)

  datatype Link = Link(project: string, anonymousId: string, userId: string, linkedAt: Millis)

  datatype Key = Key(project: string, id: string)

  /** The aggregate columns: min, max, sum, and the state of uniq taken as an exact set. */
  datatype Agg = Agg(first: Millis, last: Millis, count: nat, sessions: set<string>)

  datatype Part = Part(key: Key, agg: Agg)

  /** A row of the events view. */
  datatype EventRow = EventRow(
    project: string,
    event: EventName,
    distinctId: Option<string>,
    timestamp: Millis,
    sessionId: Option<string>)

  // ---------------------------------------------------------------------------
  // SQL's null handling
  // ---------------------------------------------------------------------------

  /** nullIf(column, ''). */
  function Present(column: Option<string>): (r: Option<string>)
    ensures r.Some? ==> r.value != ""
  {
    if column.Some? && column.value == "" then None else column
  }

  function Coalesce(a: Option<string>, b: Option<string>): Option<string> {
    if a.Some? then a else b
  }

  // ---------------------------------------------------------------------------
  // Row-by-row selects
  // ---------------------------------------------------------------------------

  /** What a SELECT without GROUP BY yields when each input row yields `row(r)`. */
  function FlatMap<R, T>(rows: seq<R>, row: R -> seq<T>): seq<T> {
    if rows == [] then [] else row(rows[0]) + FlatMap(rows[1..], row)
  }

  lemma {:induction false} FlatMapAppend<R, T>(a: seq<R>, b: seq<R>, row: R -> seq<T>)
    ensures FlatMap(a + b, row) == FlatMap(a, row) + FlatMap(b, row)
  {
    if a == [] {
      assert a + b == b;
    } else {
      TailOfAppend(a, b);
      FlatMapAppend(a[1..], b, row);
    }
  }

  lemma FlatMapOne<R, T>(r: R, row: R -> seq<T>)
    ensures FlatMap([r], row) == row(r)
  {
    assert FlatMap([r][1..], row) == [];
  }

  function Without<T>(s: seq<T>, i: nat): seq<T>
    requires i < |s|
  {
    s[..i] + s[i + 1..]
  }

  lemma WithoutMultiset<T>(s: seq<T>, i: nat)
    requires i < |s|
    ensures multiset(s) == multiset{s[i]} + multiset(Without(s, i))
  {
    assert s == s[..i] + ([s[i]] + s[i + 1..]);
  }

  lemma FlatMapWithout<R, T>(rows: seq<R>, i: nat, row: R -> seq<T>)
    requires i < |rows|
    ensures multiset(FlatMap(rows, row)) == multiset(row(rows[i])) + multiset(FlatMap(Without(rows, i), row))
  {
    var a, b := rows[..i], rows[i..];
    assert rows == a + b && b[0] == rows[i] && b[1..] == rows[i + 1..];
    FlatMapAppend(a, b, row);
    FlatMapAppend(a, b[1..], row);
  }

  lemma SameRest<T>(x: T, a: multiset<T>, b: multiset<T>)
    requires multiset{x} + a == multiset{x} + b
    ensures a == b
  {
    assert a == (multiset{x} + a) - multiset{x};
  }

  /** Where a permutation keeps the head of a list. */
  lemma Partner<T>(a: seq<T>, b: seq<T>) returns (i: nat)
    requires a != [] && multiset(a) == multiset(b)
    ensures i < |b| && b[i] == a[0] && multiset(a[1..]) == multiset(Without(b, i))
  {
    ConsTail(a);
    assert a[0] in multiset(b);
    i :| 0 <= i < |b| && b[i] == a[0];
    WithoutMultiset(b, i);
    assert multiset(a) == multiset{a[0]} + multiset(a[1..]);
    SameRest(a[0], multiset(a[1..]), multiset(Without(b, i)));
  }

  lemma {:induction false} FlatMapPermuted<R, T>(a: seq<R>, b: seq<R>, row: R -> seq<T>)
    requires multiset(a) == multiset(b)
    ensures multiset(FlatMap(a, row)) == multiset(FlatMap(b, row))
    decreases |a|
  {
    if a == [] {
      assert |multiset(b)| == 0;
    } else {
      var i := Partner(a, b);
      FlatMapPermuted(a[1..], Without(b, i), row);
      FlatMapWithout(a, 0, row);
      assert Without(a, 0) == a[1..];
      FlatMapWithout(b, i, row);
    }
  }

  // ---------------------------------------------------------------------------
  // Partial aggregates
  // ---------------------------------------------------------------------------

  function Merged(a: Agg, b: Agg): Agg {
    Agg(if a.first <= b.first then a.first else b.first,
        if a.last >= b.last then a.last else b.last,
        a.count + b.count,
        a.sessions + b.sessions)
  }

  function Plus(a: Option<Agg>, b: Option<Agg>): Option<Agg> {
    if a.None? then b else if b.None? then a else Some(Merged(a.value, b.value))
  }

  lemma PlusCommutes(a: Option<Agg>, b: Option<Agg>)
    ensures Plus(a, b) == Plus(b, a)
  {
    if a.Some? && b.Some? {
      assert a.value.sessions + b.value.sessions == b.value.sessions + a.value.sessions;
    }
  }

  lemma PlusAssociates(a: Option<Agg>, b: Option<Agg>, c: Option<Agg>)
    ensures Plus(Plus(a, b), c) == Plus(a, Plus(b, c))
  {
    if a.Some? && b.Some? && c.Some? {
      var x, y, z := a.value.sessions, b.value.sessions, c.value.sessions;
      assert (x + y) + z == x + (y + z);
    }
  }

  function One(part: Part, wanted: Key -> bool): Option<Agg> {
    if wanted(part.key) then Some(part.agg) else None
  }

  /** The aggregate over the parts whose key is wanted; None over no parts. */
  function Sum(parts: seq<Part>, wanted: Key -> bool): Option<Agg> {
    if parts == [] then None else Plus(One(parts[0], wanted), Sum(parts[1..], wanted))
  }

  lemma {:induction false} SumAppend(a: seq<Part>, b: seq<Part>, wanted: Key -> bool)
    ensures Sum(a + b, wanted) == Plus(Sum(a, wanted), Sum(b, wanted))
  {
    if a == [] {
      assert a + b == b;
    } else {
      TailOfAppend(a, b);
      SumAppend(a[1..], b, wanted);
      PlusAssociates(One(a[0], wanted), Sum(a[1..], wanted), Sum(b, wanted));
    }
  }

  lemma SumWithout(parts: seq<Part>, i: nat, wanted: Key -> bool)
    requires i < |parts|
    ensures Sum(parts, wanted) == Plus(One(parts[i], wanted), Sum(Without(parts, i), wanted))
  {
    var a, b := parts[..i], parts[i + 1..];
    assert parts == a + ([parts[i]] + b);
    assert ([parts[i]] + b)[1..] == b;
    SumAppend(a, [parts[i]] + b, wanted);
    SumAppend(a, b, wanted);
    var x, y, z := Sum(a, wanted), One(parts[i], wanted), Sum(b, wanted);
    PlusAssociates(x, y, z);
    PlusCommutes(x, y);
    PlusAssociates(y, x, z);
  }

  /** The order of the rows does not matter. */
  lemma {:induction false} SumPermuted(a: seq<Part>, b: seq<Part>, wanted: Key -> bool)
    requires multiset(a) == multiset(b)
    ensures Sum(a, wanted) == Sum(b, wanted)
    decreases |a|
  {
    if a == [] {
      assert |multiset(b)| == 0;
    } else {
      var i := Partner(a, b);
      SumPermuted(a[1..], Without(b, i), wanted);
      SumWithout(b, i, wanted);
    }
  }

  // ---------------------------------------------------------------------------
  // GROUP BY over one block, and background merges
  // ---------------------------------------------------------------------------

  function Upsert(parts: seq<Part>, part: Part): seq<Part> {
    if parts == [] then [part]
    else if parts[0].key == part.key then [Part(part.key, Merged(parts[0].agg, part.agg))] + parts[1..]
    else [parts[0]] + Upsert(parts[1..], part)
  }

  function GroupBy(parts: seq<Part>): seq<Part> {
    if parts == [] then []
    else Upsert(GroupBy(parts[..|parts| - 1]), parts[|parts| - 1])
  }

  ghost predicate KeyedOnce(parts: seq<Part>) {
    forall i, j :: 0 <= i < j < |parts| ==> parts[i].key != parts[j].key
  }

  ghost predicate HasKey(parts: seq<Part>, key: Key) {
    exists i :: 0 <= i < |parts| && parts[i].key == key
  }

  lemma {:induction false} UpsertKeys(parts: seq<Part>, part: Part)
    requires KeyedOnce(parts)
    ensures KeyedOnce(Upsert(parts, part))
    ensures forall key :: HasKey(Upsert(parts, part), key) <==> HasKey(parts, key) || key == part.key
  {
    if parts == [] {
      assert [part][0].key == part.key;
    } else {
      var head, rest := parts[0], parts[1..];
      HasKeyCons(head, rest);
      if head.key == part.key {
        HasKeyCons(Part(part.key, Merged(head.agg, part.agg)), rest);
      } else {
        UpsertKeys(rest, part);
        HasKeyCons(head, Upsert(rest, part));
        assert !HasKey(rest, head.key);
        var after := [head] + Upsert(rest, part);
        forall j | 0 < j < |after| ensures after[j].key != head.key {
          assert HasKey(Upsert(rest, part), after[j].key) by { assert Upsert(rest, part)[j - 1] == after[j]; }
        }
      }
      assert [head] + rest == parts;
    }
  }

  lemma HasKeyCons(head: Part, rest: seq<Part>)
    ensures forall key :: HasKey([head] + rest, key) <==> key == head.key || HasKey(rest, key)
  {
    forall key ensures HasKey([head] + rest, key) <==> key == head.key || HasKey(rest, key) {
      assert ([head] + rest)[0] == head;
      if HasKey(rest, key) {
        var i :| 0 <= i < |rest| && rest[i].key == key;
        assert ([head] + rest)[i + 1].key == key;
      }
      if HasKey([head] + rest, key) && key != head.key {
        var i :| 0 <= i < |[head] + rest| && ([head] + rest)[i].key == key;
        assert rest[i - 1].key == key;
      }
    }
  }

  /** GROUP BY yields one row per key of its input. */
  lemma {:induction false} GroupByKeys(parts: seq<Part>)
    ensures KeyedOnce(GroupBy(parts))
    ensures forall key :: HasKey(GroupBy(parts), key) <==> HasKey(parts, key)
  {
    if parts != [] {
      var init, last := parts[..|parts| - 1], parts[|parts| - 1];
      GroupByKeys(init);
      UpsertKeys(GroupBy(init), last);
      forall key ensures HasKey(parts, key) <==> HasKey(init, key) || key == last.key {
        if HasKey(init, key) {
          var i :| 0 <= i < |init| && init[i].key == key;
          assert parts[i].key == key;
        }
        if HasKey(parts, key) && key != last.key {
          var i :| 0 <= i < |parts| && parts[i].key == key;
          assert init[i].key == key;
        }
      }
    }
  }

  lemma MergedParts(a: Part, b: Part, wanted: Key -> bool)
    requires a.key == b.key
    ensures One(Part(a.key, Merged(a.agg, b.agg)), wanted) == Plus(One(a, wanted), One(b, wanted))
  {
  }

  lemma {:induction false} SumUpsert(parts: seq<Part>, part: Part, wanted: Key -> bool)
    ensures Sum(Upsert(parts, part), wanted) == Plus(Sum(parts, wanted), One(part, wanted))
  {
    if parts != [] {
      var head, rest := parts[0], parts[1..];
      var x, y, z := One(head, wanted), Sum(rest, wanted), One(part, wanted);
      if head.key == part.key {
        var both := Part(part.key, Merged(head.agg, part.agg));
        TailOfCons(both, rest);
        MergedParts(head, part, wanted);
        PlusAssociates(x, z, y);
        PlusCommutes(z, y);
        PlusAssociates(x, y, z);
      } else {
        TailOfCons(head, Upsert(rest, part));
        SumUpsert(rest, part, wanted);
        PlusAssociates(x, y, z);
      }
    }
  }

  lemma {:induction false} SumGroupBy(parts: seq<Part>, wanted: Key -> bool)
    ensures Sum(GroupBy(parts), wanted) == Sum(parts, wanted)
  {
    if parts != [] {
      var init, last := parts[..|parts| - 1], parts[|parts| - 1];
      SumGroupBy(init, wanted);
      SumUpsert(GroupBy(init), last, wanted);
      assert parts == init + [last];
      SumAppend(init, [last], wanted);
    }
  }

  predicate Mergeable(parts: seq<Part>, i: nat, j: nat) {
    i < j < |parts| && parts[i].key == parts[j].key
  }

  /** A background merge combines two rows of one key. */
  function MergeRows(parts: seq<Part>, i: nat, j: nat): seq<Part>
    requires Mergeable(parts, i, j)
  {
    Without(parts, j)[i := Part(parts[i].key, Merged(parts[i].agg, parts[j].agg))]
  }

  lemma SumMergeRows(parts: seq<Part>, i: nat, j: nat, wanted: Key -> bool)
    requires Mergeable(parts, i, j)
    ensures Sum(MergeRows(parts, i, j), wanted) == Sum(parts, wanted)
  {
    var less, after := Without(parts, j), MergeRows(parts, i, j);
    SumWithout(parts, j, wanted);
    SumWithout(less, i, wanted);
    SumWithout(after, i, wanted);
    assert Without(after, i) == Without(less, i);
    var x, y, z := One(parts[i], wanted), One(parts[j], wanted), Sum(Without(less, i), wanted);
    MergedParts(parts[i], parts[j], wanted);
    PlusCommutes(x, y);
    PlusAssociates(y, x, z);
  }

  // ---------------------------------------------------------------------------
  // The identity map
  // ---------------------------------------------------------------------------

  /** identity_links_mv: the $identify events that name both ids. */
  function LinkOfRaw(raw: Raw): seq<Link> {
    if raw.event.Identify? && Present(raw.anonymousId).Some? && Present(raw.userId).Some?
    then [Link(raw.project, raw.anonymousId.value, raw.userId.value, raw.timestamp)]
    else []
  }

  predicate LinkFor(link: Link, project: string, id: string) {
    link.project == project && link.anonymousId == id
  }

  /** The link argMin picks: the first of those with the smallest linked_at. */
  function Earliest(links: seq<Link>, project: string, id: string): (r: Option<Link>)
    ensures r.Some? ==> r.value in links && LinkFor(r.value, project, id)
    ensures forall l :: l in links && LinkFor(l, project, id) ==> r.Some? && r.value.linkedAt <= l.linkedAt
  {
    if links == [] then None
    else
      var rest := Earliest(links[1..], project, id);
      if LinkFor(links[0], project, id) && (rest.None? || links[0].linkedAt <= rest.value.linkedAt)
      then Some(links[0])
      else rest
  }

  /** The join with the identity map; a LEFT JOIN without a match yields '', which every reader
      turns back into null. */
  function LinkedUser(links: seq<Link>, project: string, id: string): Option<string> {
    var link := Earliest(links, project, id);
    if link.Some? then Present(Some(link.value.userId)) else None
  }

  /** Two links of one anonymous id of the project made at the same instant name the same user. */
  ghost predicate Unambiguous(links: seq<Link>, project: string) {
    forall a, b ::
      (a in links && b in links && a.project == project && LinkFor(b, project, a.anonymousId) && a.linkedAt == b.linkedAt)
      ==> a.userId == b.userId
  }

  /** The identity map depends on which links there are, not on their order. */
  lemma LinkedUserPermuted(a: seq<Link>, b: seq<Link>, project: string, id: string)
    requires Unambiguous(a, project)
    requires forall l: Link :: l.project == project ==> (l in a <==> l in b)
    ensures LinkedUser(a, project, id) == LinkedUser(b, project, id)
  {
    var x, y := Earliest(a, project, id), Earliest(b, project, id);
    if x.Some? {
      assert x.value in b;
    }
    if y.Some? {
      assert y.value in a;
    }
  }

  /** A later $identify never re-attributes an anonymous id that is already linked. */
  lemma FirstLinkWins(links: seq<Link>, more: seq<Link>, project: string, id: string)
    requires LinkedUser(links, project, id).Some?
    requires forall l :: l in more && LinkFor(l, project, id) ==> l.linkedAt > Earliest(links, project, id).value.linkedAt
    ensures LinkedUser(links + more, project, id) == LinkedUser(links, project, id)
  {
    EarliestAppend(links, more, project, id);
  }

  lemma {:induction false} EarliestAppend(a: seq<Link>, b: seq<Link>, project: string, id: string)
    ensures Earliest(a + b, project, id)
         == var x, y := Earliest(a, project, id), Earliest(b, project, id);
            if x.None? || (y.Some? && y.value.linkedAt < x.value.linkedAt) then y else x
  {
    if a == [] {
      assert a + b == b;
    } else {
      TailOfAppend(a, b);
      EarliestAppend(a[1..], b, project, id);
    }
  }

  // ---------------------------------------------------------------------------
  // What the materialized views write, and the store
  // ---------------------------------------------------------------------------

  /** raw_distinct_id of persons_mv. */
  function RawDistinctId(raw: Raw): Option<string> {
    Coalesce(Present(raw.userId), Present(raw.anonymousId))
  }

  function SessionSet(sessionId: Option<string>): set<string> {
    if Present(sessionId).Some? then {sessionId.value} else {}
  }

  function PersonPart(raw: Raw): seq<Part> {
    var id := RawDistinctId(raw);
    if id.None? then []
    else [Part(Key(raw.project, id.value), Agg(raw.timestamp, raw.timestamp, 1, SessionSet(raw.sessionId)))]
  }

  function SessionPart(raw: Raw): seq<Part> {
    if Present(raw.sessionId).None? then []
    else [Part(Key(raw.project, raw.sessionId.value), Agg(raw.timestamp, raw.timestamp, 1, {}))]
  }

  datatype Store = Store(raws: seq<Raw>, links: seq<Link>, persons: seq<Part>, sessions: seq<Part>)

  const EMPTY := Store([], [], [], [])

  datatype Op =
    | Insert(block: seq<Raw>)
    | MergePersons(i: nat, j: nat)
    | MergeSessions(i: nat, j: nat)
    | SortRaws(raws: seq<Raw>)   // merges of plain tables reorder their rows
    | SortLinks(links: seq<Link>)
    | SortPersons(persons: seq<Part>)
    | SortSessions(sessions: seq<Part>)

  ghost predicate Allowed(s: Store, op: Op) {
    match op
    case Insert(_) => true
    case MergePersons(i, j) => Mergeable(s.persons, i, j)
    case MergeSessions(i, j) => Mergeable(s.sessions, i, j)
    case SortRaws(raws) => multiset(raws) == multiset(s.raws)
    case SortLinks(links) => multiset(links) == multiset(s.links)
    case SortPersons(persons) => multiset(persons) == multiset(s.persons)
    case SortSessions(sessions) => multiset(sessions) == multiset(s.sessions)
  }

  /** Each materialized view aggregates the inserted block alone. */
  ghost function Do(s: Store, op: Op): Store
    requires Allowed(s, op)
  {
    match op
    case Insert(block) =>
      Store(s.raws + block, s.links + FlatMap(block, LinkOfRaw),
            s.persons + GroupBy(FlatMap(block, PersonPart)), s.sessions + GroupBy(FlatMap(block, SessionPart)))
    case MergePersons(i, j) => s.(persons := MergeRows(s.persons, i, j))
    case MergeSessions(i, j) => s.(sessions := MergeRows(s.sessions, i, j))
    case SortRaws(raws) => s.(raws := raws)
    case SortLinks(links) => s.(links := links)
    case SortPersons(persons) => s.(persons := persons)
    case SortSessions(sessions) => s.(sessions := sessions)
  }

  ghost predicate History(s: Store, ops: seq<Op>, t: Store)
    decreases |ops|
  {
    if ops == [] then s == t
    else Allowed(s, ops[0]) && History(Do(s, ops[0]), ops[1..], t)
  }

  /** Some sequence of insert blocks and background merges leads to the store. */
  ghost predicate Reachable(s: Store) {
    exists ops :: History(EMPTY, ops, s)
  }

  // ---------------------------------------------------------------------------
  // The views
  // ---------------------------------------------------------------------------

  /** distinct_id of the events view. */
  function DistinctId(links: seq<Link>, raw: Raw): Option<string> {
    var linked := if raw.anonymousId.Some? then LinkedUser(links, raw.project, raw.anonymousId.value) else None;
    Coalesce(Present(raw.userId), Coalesce(linked, Present(raw.anonymousId)))
  }

  function EventOf(links: seq<Link>): Raw -> seq<EventRow> {
    (raw: Raw) => [EventRow(raw.project, raw.event, DistinctId(links, raw), raw.timestamp, raw.sessionId)]
  }

  function EventsView(s: Store): seq<EventRow> {
    FlatMap(s.raws, EventOf(s.links))
  }

  /** distinct_id of the persons view. */
  function PersonId(links: seq<Link>, key: Key): string {
    var linked := LinkedUser(links, key.project, key.id);
    if linked.Some? then linked.value else key.id
  }

  function ResolvesTo(links: seq<Link>, project: string, distinctId: string): Key -> bool {
    (key: Key) => key.project == project && PersonId(links, key) == distinctId
  }

  function Is(wanted: Key): Key -> bool {
    (key: Key) => key == wanted
  }

  /** The row of the persons view for one project and distinct_id, if there is one. */
  function Person(s: Store, project: string, distinctId: string): Option<Agg> {
    Sum(s.persons, ResolvesTo(s.links, project, distinctId))
  }

  /** The row of the sessions view for one project and session, if there is one. */
  function Session(s: Store, project: string, sessionId: string): Option<Agg> {
    Sum(s.sessions, Is(Key(project, sessionId)))
  }

  /** dateDiff('millisecond', started_at, ended_at). */
  function DurationMs(session: Agg): int {
    session.last - session.first
  }
}
