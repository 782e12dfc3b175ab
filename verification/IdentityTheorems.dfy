/**
  The incremental index agrees with the plain events view for every split of the events into
  insert blocks and every order of background merges, and filtering the physical tables by
  tenant is filtering the views by tenant.
 */
module IdentityTheorems {
  import opened Common
  import opened IdentitySurface

  // ---------------------------------------------------------------------------
  // The index agrees with its source, whatever the blocks and the merges
  // ---------------------------------------------------------------------------

  ghost predicate Indexed(s: Store, wanted: Key -> bool) {
    && Sum(s.persons, wanted) == Sum(FlatMap(s.raws, PersonPart), wanted)
    && Sum(s.sessions, wanted) == Sum(FlatMap(s.raws, SessionPart), wanted)
    && multiset(s.links) == multiset(FlatMap(s.raws, LinkOfRaw))
  }

  lemma InsertKeepsIndexed(s: Store, block: seq<Raw>, wanted: Key -> bool)
    requires Indexed(s, wanted)
    ensures Indexed(Do(s, Insert(block)), wanted)
  {
    FlatMapAppend(s.raws, block, LinkOfRaw);
    BlockIndexed(s.persons, s.raws, block, PersonPart, wanted);
    BlockIndexed(s.sessions, s.raws, block, SessionPart, wanted);
  }

  /** Grouping the block on its own and adding it to the table adds what its events add. */
  lemma BlockIndexed(parts: seq<Part>, raws: seq<Raw>, block: seq<Raw>, part: Raw -> seq<Part>, wanted: Key -> bool)
    requires Sum(parts, wanted) == Sum(FlatMap(raws, part), wanted)
    ensures Sum(parts + GroupBy(FlatMap(block, part)), wanted) == Sum(FlatMap(raws + block, part), wanted)
  {
    FlatMapAppend(raws, block, part);
    SumAppend(FlatMap(raws, part), FlatMap(block, part), wanted);
    SumAppend(parts, GroupBy(FlatMap(block, part)), wanted);
    SumGroupBy(FlatMap(block, part), wanted);
  }

  lemma OpKeepsIndexed(s: Store, op: Op, wanted: Key -> bool)
    requires Allowed(s, op) && Indexed(s, wanted)
    ensures Indexed(Do(s, op), wanted)
  {
    match op
    case Insert(block) => InsertKeepsIndexed(s, block, wanted);
    case MergePersons(i, j) => SumMergeRows(s.persons, i, j, wanted);
    case MergeSessions(i, j) => SumMergeRows(s.sessions, i, j, wanted);
    case SortRaws(raws) =>
      FlatMapPermuted(raws, s.raws, LinkOfRaw);
      FlatMapPermuted(raws, s.raws, PersonPart);
      FlatMapPermuted(raws, s.raws, SessionPart);
      SumPermuted(FlatMap(raws, PersonPart), FlatMap(s.raws, PersonPart), wanted);
      SumPermuted(FlatMap(raws, SessionPart), FlatMap(s.raws, SessionPart), wanted);
    case SortLinks(links) =>
    case SortPersons(persons) => SumPermuted(persons, s.persons, wanted);
    case SortSessions(sessions) => SumPermuted(sessions, s.sessions, wanted);
  }

  lemma {:induction false} HistoryKeepsIndexed(s: Store, ops: seq<Op>, t: Store, wanted: Key -> bool)
    requires History(s, ops, t) && Indexed(s, wanted)
    ensures Indexed(t, wanted)
    decreases |ops|
  {
    if ops != [] {
      OpKeepsIndexed(s, ops[0], wanted);
      HistoryKeepsIndexed(Do(s, ops[0]), ops[1..], t, wanted);
    }
  }

  /** For every split into blocks and every merge order, the state tables sum to what the raw
      events sum to, over any set of keys. */
  lemma ReachableIndexed(s: Store, wanted: Key -> bool)
    requires Reachable(s)
    ensures Indexed(s, wanted)
  {
    var ops :| History(EMPTY, ops, s);
    HistoryKeepsIndexed(EMPTY, ops, s, wanted);
  }

  /** Two histories of the same events answer alike. */
  lemma SplitAndMergeOrderDoNotMatter(s: Store, t: Store, wanted: Key -> bool)
    requires Reachable(s) && Reachable(t) && multiset(s.raws) == multiset(t.raws)
    ensures Sum(s.persons, wanted) == Sum(t.persons, wanted)
    ensures Sum(s.sessions, wanted) == Sum(t.sessions, wanted)
    ensures multiset(s.links) == multiset(t.links)
  {
    ReachableIndexed(s, wanted);
    ReachableIndexed(t, wanted);
    OpKeepsIndexed(s, SortRaws(t.raws), wanted);
  }

  // ---------------------------------------------------------------------------
  // Rows of the events view, aggregated plainly
  // ---------------------------------------------------------------------------

  function GroupOf(rows: seq<EventRow>, member: EventRow -> bool): seq<EventRow> {
    if rows == [] then []
    else (if member(rows[0]) then [rows[0]] else []) + GroupOf(rows[1..], member)
  }

  function OfPerson(project: string, distinctId: string): EventRow -> bool {
    (row: EventRow) => row.project == project && row.distinctId == Some(distinctId)
  }

  function OfSession(project: string, sessionId: string): EventRow -> bool {
    (row: EventRow) => row.project == project && Present(row.sessionId) == Some(sessionId)
  }

  function SessionIds(group: seq<EventRow>): set<string> {
    set row | row in group && Present(row.sessionId).Some? :: row.sessionId.value
  }

  /** The aggregate row is count(), min(timestamp) and max(timestamp) of the group. */
  ghost predicate Spans(agg: Option<Agg>, group: seq<EventRow>) {
    && (agg.None? <==> group == [])
    && (agg.Some? ==>
          && agg.value.count == |group|
          && (forall row :: row in group ==> agg.value.first <= row.timestamp <= agg.value.last)
          && (exists row :: row in group && row.timestamp == agg.value.first)
          && (exists row :: row in group && row.timestamp == agg.value.last))
  }

  ghost predicate SpansWithSessions(agg: Option<Agg>, group: seq<EventRow>) {
    Spans(agg, group) && (agg.Some? ==> agg.value.sessions == SessionIds(group))
  }

  lemma SpansCons(row: EventRow, agg: Option<Agg>, group: seq<EventRow>, sessions: set<string>)
    requires Spans(agg, group)
    ensures Spans(Plus(Some(Agg(row.timestamp, row.timestamp, 1, sessions)), agg), [row] + group)
  {
    var all := [row] + group;
    assert row in all;
    assert forall r :: r in group ==> r in all;
  }

  lemma SessionIdsCons(row: EventRow, group: seq<EventRow>)
    ensures SessionIds([row] + group) == SessionSet(row.sessionId) + SessionIds(group)
  {
    ConsTail([row] + group);
    TailOfCons(row, group);
  }

  // ---------------------------------------------------------------------------
  // Persons
  // ---------------------------------------------------------------------------

  ghost predicate Proper(links: seq<Link>) {
    forall l :: l in links ==> l.anonymousId != "" && l.userId != ""
  }

  lemma {:induction false} RawLinksProper(raws: seq<Raw>)
    ensures Proper(FlatMap(raws, LinkOfRaw))
  {
    if raws != [] {
      RawLinksProper(raws[1..]);
    }
  }

  lemma LinksProper(s: Store)
    requires multiset(s.links) == multiset(FlatMap(s.raws, LinkOfRaw))
    ensures Proper(s.links)
  {
    RawLinksProper(s.raws);
    forall l | l in s.links ensures l in FlatMap(s.raws, LinkOfRaw) {
      assert l in multiset(s.links);
    }
  }

  /** Where persons counts an event. */
  function CountedFor(links: seq<Link>, raw: Raw): Option<string> {
    var id := RawDistinctId(raw);
    if id.None? then None else Some(PersonId(links, Key(raw.project, id.value)))
  }

  /** The event's user id is not itself a linked anonymous id, unless linked to itself. */
  predicate UserStays(links: seq<Link>, project: string, user: string) {
    var linked := LinkedUser(links, project, user);
    linked.None? || linked.value == user
  }

  predicate UserOfEventStays(links: seq<Link>, raw: Raw) {
    Present(raw.userId).Some? ==> UserStays(links, raw.project, raw.userId.value)
  }

  /** persons and events attribute an event to the same distinct_id exactly when the event's
      user id was never linked to another user. */
  lemma SameAttributionIff(links: seq<Link>, raw: Raw)
    requires Proper(links)
    ensures CountedFor(links, raw) == DistinctId(links, raw) <==> UserOfEventStays(links, raw)
  {
  }

  lemma {:induction false} PersonsOfRaws(raws: seq<Raw>, links: seq<Link>, project: string, d: string)
    requires Proper(links)
    requires forall raw :: raw in raws && raw.project == project ==> UserOfEventStays(links, raw)
    ensures SpansWithSessions(Sum(FlatMap(raws, PersonPart), ResolvesTo(links, project, d)),
                              GroupOf(FlatMap(raws, EventOf(links)), OfPerson(project, d)))
  {
    if raws != [] {
      var raw, rest := raws[0], raws[1..];
      PersonsOfRaws(rest, links, project, d);
      SumAppend(PersonPart(raw), FlatMap(rest, PersonPart), ResolvesTo(links, project, d));
      var row := EventOf(links)(raw)[0];
      TailOfCons(row, FlatMap(rest, EventOf(links)));
      PersonPartSum(raw, links, project, d);
      var agg := Sum(FlatMap(rest, PersonPart), ResolvesTo(links, project, d));
      var group := GroupOf(FlatMap(rest, EventOf(links)), OfPerson(project, d));
      SpansCons(row, agg, group, SessionSet(raw.sessionId));
      SessionIdsCons(row, group);
    }
  }

  lemma PersonPartSum(raw: Raw, links: seq<Link>, project: string, d: string)
    requires Proper(links) && (raw.project == project ==> UserOfEventStays(links, raw))
    ensures Sum(PersonPart(raw), ResolvesTo(links, project, d))
         == if OfPerson(project, d)(EventOf(links)(raw)[0])
            then Some(Agg(raw.timestamp, raw.timestamp, 1, SessionSet(raw.sessionId)))
            else None
  {
    SameAttributionIff(links, raw);
    var parts := PersonPart(raw);
    if parts != [] {
      assert parts[1..] == [];
    }
  }

  /** The persons view equals the plain aggregates over the events view. */
  lemma PersonsMatchEvents(s: Store, project: string, d: string)
    requires Reachable(s)
    requires forall raw :: raw in s.raws && raw.project == project ==> UserOfEventStays(s.links, raw)
    ensures SpansWithSessions(Person(s, project, d), GroupOf(EventsView(s), OfPerson(project, d)))
  {
    ReachableIndexed(s, ResolvesTo(s.links, project, d));
    LinksProper(s);
    PersonsOfRaws(s.raws, s.links, project, d);
  }

  /** A batch of ordinary events of the project from the given users. */
  ghost predicate OrdinaryBlock(block: seq<Raw>, project: string, users: set<string>) {
    forall raw :: raw in block ==>
      && raw.project == project && raw.event.Named?
      && (Present(raw.userId).Some? ==> raw.userId.value in users)
  }

  ghost predicate PersonsAgree(s: Store, project: string) {
    forall d :: SpansWithSessions(Person(s, project, d), GroupOf(EventsView(s), OfPerson(project, d)))
  }

  /** The views agree now and after any further ordinary events of these users, exactly when no
      user id among them has been linked, as an anonymous id, to someone else. */
  lemma PersonsKeepAgreeingIff(s: Store, project: string, users: set<string>)
    requires Reachable(s) && "" !in users
    requires forall raw :: raw in s.raws && raw.project == project && Present(raw.userId).Some? ==> raw.userId.value in users
    ensures (forall block :: OrdinaryBlock(block, project, users) ==> PersonsAgree(Do(s, Insert(block)), project))
       <==> (forall user :: user in users ==> UserStays(s.links, project, user))
  {
    if forall user :: user in users ==> UserStays(s.links, project, user) {
      forall block | OrdinaryBlock(block, project, users) ensures PersonsAgree(Do(s, Insert(block)), project) {
        AgreeAfter(s, project, users, block);
      }
    } else {
      var user :| user in users && !UserStays(s.links, project, user);
      var one := [Raw(project, Named(""), None, Some(user), 0, None)];
      assert OrdinaryBlock([], project, users) && OrdinaryBlock(one, project, users);
      MovedUserDisagrees(s, project, user, one[0]);
    }
  }

  lemma ExtendReachable(s: Store, op: Op)
    requires Reachable(s) && Allowed(s, op)
    ensures Reachable(Do(s, op))
  {
    var ops :| History(EMPTY, ops, s);
    HistoryAppend(EMPTY, ops, s, op);
  }

  lemma {:induction false} HistoryAppend(s: Store, ops: seq<Op>, t: Store, op: Op)
    requires History(s, ops, t) && Allowed(t, op)
    ensures History(s, ops + [op], Do(t, op))
    decreases |ops|
  {
    if ops == [] {
      assert History(Do(t, op), [op][1..], Do(t, op));
      assert [] + [op] == [op];
    } else {
      HistoryAppend(Do(s, ops[0]), ops[1..], t, op);
      TailOfAppend(ops, [op]);
    }
  }

  lemma {:induction false} OrdinaryLinks(block: seq<Raw>, project: string, users: set<string>)
    requires OrdinaryBlock(block, project, users)
    ensures FlatMap(block, LinkOfRaw) == []
  {
    if block != [] {
      OrdinaryLinks(block[1..], project, users);
    }
  }

  lemma AgreeAfter(s: Store, project: string, users: set<string>, block: seq<Raw>)
    requires Reachable(s) && OrdinaryBlock(block, project, users)
    requires forall raw :: raw in s.raws && raw.project == project && Present(raw.userId).Some? ==> raw.userId.value in users
    requires forall user :: user in users ==> UserStays(s.links, project, user)
    ensures PersonsAgree(Do(s, Insert(block)), project)
  {
    var t := Do(s, Insert(block));
    OrdinaryLinks(block, project, users);
    assert t.links == s.links;
    ExtendReachable(s, Insert(block));
    forall d {
      PersonsMatchEvents(t, project, d);
    }
  }

  /** One more event of a user who was linked away is counted under different ids. */
  lemma MovedUserDisagrees(s: Store, project: string, user: string, raw: Raw)
    requires !UserStays(s.links, project, user) && user != ""
    requires raw.project == project && raw.event.Named? && raw.userId == Some(user)
    ensures !PersonsAgree(Do(s, Insert([])), project) || !PersonsAgree(Do(s, Insert([raw])), project)
  {
    var s0, s1 := Do(s, Insert([])), Do(s, Insert([raw]));
    assert s0 == s;
    var wanted := ResolvesTo(s.links, project, user);
    FlatMapOne(raw, LinkOfRaw);
    assert s1.links == s.links;
    FlatMapOne(raw, PersonPart);
    var part := PersonPart(raw);
    assert part[1..] == [] && part[..0] == [];
    SumGroupBy(part, wanted);
    SumAppend(s.persons, GroupBy(part), wanted);
    assert Person(s1, project, user) == Person(s, project, user);
    FlatMapAppend(s.raws, [raw], EventOf(s.links));
    FlatMapOne(raw, EventOf(s.links));
    var row := EventOf(s.links)(raw)[0];
    assert EventsView(s1) == EventsView(s) + [row];
    GroupAppend(EventsView(s), [row], OfPerson(project, user));
    assert GroupOf([row][1..], OfPerson(project, user)) == [];
    assert |GroupOf(EventsView(s1), OfPerson(project, user))| == |GroupOf(EventsView(s), OfPerson(project, user))| + 1;
    CountOf(Person(s, project, user), GroupOf(EventsView(s0), OfPerson(project, user)), GroupOf(EventsView(s1), OfPerson(project, user)));
  }

  /** One aggregate row cannot describe two groups of different sizes. */
  lemma CountOf(agg: Option<Agg>, a: seq<EventRow>, b: seq<EventRow>)
    requires |b| == |a| + 1
    ensures !SpansWithSessions(agg, a) || !SpansWithSessions(agg, b)
  {
  }

  lemma {:induction false} GroupAppend(a: seq<EventRow>, b: seq<EventRow>, member: EventRow -> bool)
    ensures GroupOf(a + b, member) == GroupOf(a, member) + GroupOf(b, member)
  {
    if a == [] {
      assert a + b == b;
    } else {
      TailOfAppend(a, b);
      GroupAppend(a[1..], b, member);
      Associative(if member(a[0]) then [a[0]] else [], GroupOf(a[1..], member), GroupOf(b, member));
    }
  }

  /** Two events are enough to make the views disagree: a $identify whose anonymous id is then
      used as a user id. */
  lemma PersonsCanDisagree(project: string, alice: string, bob: string) returns (s: Store)
    requires alice != "" && bob != "" && alice != bob
    ensures Reachable(s) && !PersonsAgree(s, project) && |s.raws| <= 2
  {
    var link := Raw(project, Identify, Some(alice), Some(bob), 0, None);
    var raw := Raw(project, Named(""), None, Some(alice), 1, None);
    assert History(EMPTY, [], EMPTY);
    ExtendReachable(EMPTY, Insert([link]));
    var linked := Do(EMPTY, Insert([link]));
    AliceMoved(linked, link);
    MovedUserDisagrees(linked, project, alice, raw);
    var op := if PersonsAgree(Do(linked, Insert([])), project) then Insert([raw]) else Insert([]);
    ExtendReachable(linked, op);
    s := Do(linked, op);
  }

  lemma AliceMoved(s: Store, link: Raw)
    requires link.event.Identify? && Present(link.anonymousId).Some? && Present(link.userId).Some?
    requires link.anonymousId != link.userId && s == Do(EMPTY, Insert([link]))
    ensures !UserStays(s.links, link.project, link.anonymousId.value)
  {
    FlatMapOne(link, LinkOfRaw);
    assert s.links == LinkOfRaw(link);
    OnlyLink(s.links[0]);
  }

  lemma OnlyLink(link: Link)
    ensures Earliest([link], link.project, link.anonymousId) == Some(link)
  {
    assert Earliest([link][1..], link.project, link.anonymousId) == None;
  }

  // ---------------------------------------------------------------------------
  // Sessions
  // ---------------------------------------------------------------------------

  lemma {:induction false} SessionsOfRaws(raws: seq<Raw>, links: seq<Link>, project: string, id: string)
    ensures Spans(Sum(FlatMap(raws, SessionPart), Is(Key(project, id))),
                  GroupOf(FlatMap(raws, EventOf(links)), OfSession(project, id)))
  {
    if raws != [] {
      var raw, rest := raws[0], raws[1..];
      SessionsOfRaws(rest, links, project, id);
      SumAppend(SessionPart(raw), FlatMap(rest, SessionPart), Is(Key(project, id)));
      var row := EventOf(links)(raw)[0];
      TailOfCons(row, FlatMap(rest, EventOf(links)));
      SessionPartSum(raw, project, id);
      SpansCons(row, Sum(FlatMap(rest, SessionPart), Is(Key(project, id))),
                GroupOf(FlatMap(rest, EventOf(links)), OfSession(project, id)), {});
    }
  }

  lemma SessionPartSum(raw: Raw, project: string, id: string)
    ensures Sum(SessionPart(raw), Is(Key(project, id)))
         == if raw.project == project && Present(raw.sessionId) == Some(id)
            then Some(Agg(raw.timestamp, raw.timestamp, 1, {}))
            else None
  {
    var parts := SessionPart(raw);
    if parts != [] {
      assert parts[1..] == [];
    }
  }

  /** The sessions view equals the plain aggregates over the events view, and a session lasts as
      long as the time between its first and its last row there. */
  lemma SessionsMatchEvents(s: Store, project: string, id: string)
    requires Reachable(s)
    ensures Spans(Session(s, project, id), GroupOf(EventsView(s), OfSession(project, id)))
    ensures Session(s, project, id).Some? ==>
              Lasts(GroupOf(EventsView(s), OfSession(project, id)), DurationMs(Session(s, project, id).value))
  {
    ReachableIndexed(s, Is(Key(project, id)));
    SessionsOfRaws(s.raws, s.links, project, id);
  }

  /** The time between the two rows that are furthest apart. */
  ghost predicate Lasts(group: seq<EventRow>, millis: int) {
    && (exists a, b :: a in group && b in group && b.timestamp - a.timestamp == millis)
    && (forall a, b :: a in group && b in group ==> b.timestamp - a.timestamp <= millis)
  }

  // ---------------------------------------------------------------------------
  // Tenant isolation
  // ---------------------------------------------------------------------------

  function KeepRaw(project: string): Raw -> seq<Raw> {
    (raw: Raw) => if raw.project == project then [raw] else []
  }

  function KeepLink(project: string): Link -> seq<Link> {
    (link: Link) => if link.project == project then [link] else []
  }

  function KeepPart(project: string): Part -> seq<Part> {
    (part: Part) => if part.key.project == project then [part] else []
  }

  function KeepEvent(project: string): EventRow -> seq<EventRow> {
    (row: EventRow) => if row.project == project then [row] else []
  }

  /** additional_table_filters: every physical table is read through project_id = P. */
  function Filtered(s: Store, project: string): Store {
    Store(FlatMap(s.raws, KeepRaw(project)), FlatMap(s.links, KeepLink(project)),
          FlatMap(s.persons, KeepPart(project)), FlatMap(s.sessions, KeepPart(project)))
  }

  lemma {:induction false} KeptLinks(links: seq<Link>, project: string)
    ensures forall l :: l in FlatMap(links, KeepLink(project)) <==> l in links && l.project == project
    ensures forall id :: Earliest(FlatMap(links, KeepLink(project)), project, id) == Earliest(links, project, id)
  {
    if links != [] {
      var rest := links[1..];
      KeptLinks(rest, project);
      ConsTail(links);
      if links[0].project == project {
        TailOfCons(links[0], FlatMap(rest, KeepLink(project)));
      } else {
        assert FlatMap(links, KeepLink(project)) == FlatMap(rest, KeepLink(project));
      }
    }
  }

  lemma {:induction false} KeptEvents(raws: seq<Raw>, a: seq<Link>, b: seq<Link>, project: string)
    requires forall id :: LinkedUser(a, project, id) == LinkedUser(b, project, id)
    ensures FlatMap(FlatMap(raws, KeepRaw(project)), EventOf(a)) == FlatMap(FlatMap(raws, EventOf(b)), KeepEvent(project))
  {
    if raws != [] {
      var rest := raws[1..];
      KeptEvents(rest, a, b, project);
      var row := EventOf(b)(raws[0])[0];
      TailOfCons(row, FlatMap(rest, EventOf(b)));
      if raws[0].project == project {
        TailOfCons(raws[0], FlatMap(rest, KeepRaw(project)));
        assert EventOf(a)(raws[0]) == [row];
      } else {
        assert FlatMap(raws, KeepRaw(project)) == FlatMap(rest, KeepRaw(project));
      }
    }
  }

  lemma {:induction false} KeptSum(parts: seq<Part>, project: string, wanted: Key -> bool)
    ensures Sum(FlatMap(parts, KeepPart(project)), wanted)
         == Sum(parts, (key: Key) => key.project == project && wanted(key))
  {
    if parts != [] {
      var rest := parts[1..];
      KeptSum(rest, project, wanted);
      if parts[0].key.project == project {
        TailOfCons(parts[0], FlatMap(rest, KeepPart(project)));
      } else {
        assert FlatMap(parts, KeepPart(project)) == FlatMap(rest, KeepPart(project));
      }
    }
  }

  lemma {:induction false} SumSame(parts: seq<Part>, f: Key -> bool, g: Key -> bool)
    requires forall key :: f(key) == g(key)
    ensures Sum(parts, f) == Sum(parts, g)
  {
    if parts != [] {
      SumSame(parts[1..], f, g);
    }
  }

  lemma {:induction false} SumNone(parts: seq<Part>, f: Key -> bool)
    requires forall key :: !f(key)
    ensures Sum(parts, f) == None
  {
    if parts != [] {
      SumNone(parts[1..], f);
    }
  }

  /** Filtering the physical tables and then reading a view is reading the view and then
      filtering: the events view keeps the tenant's rows, in order. */
  lemma FilterCommutesWithEvents(s: Store, project: string)
    ensures EventsView(Filtered(s, project)) == FlatMap(EventsView(s), KeepEvent(project))
  {
    KeptLinks(s.links, project);
    KeptEvents(s.raws, Filtered(s, project).links, s.links, project);
  }

  lemma FilterCommutesWithPersons(s: Store, project: string, q: string, d: string)
    ensures Person(Filtered(s, project), q, d) == if q == project then Person(s, project, d) else None
  {
    KeptLinks(s.links, project);
    var wanted := ResolvesTo(Filtered(s, project).links, q, d);
    var kept := (key: Key) => key.project == project && wanted(key);
    KeptSum(s.persons, project, wanted);
    if q == project {
      SumSame(s.persons, kept, ResolvesTo(s.links, project, d));
    } else {
      SumNone(s.persons, kept);
    }
  }

  lemma FilterCommutesWithSessions(s: Store, project: string, q: string, id: string)
    ensures Session(Filtered(s, project), q, id) == if q == project then Session(s, project, id) else None
  {
    var wanted := Is(Key(q, id));
    var kept := (key: Key) => key.project == project && wanted(key);
    KeptSum(s.sessions, project, wanted);
    if q == project {
      SumSame(s.sessions, kept, wanted);
    } else {
      SumNone(s.sessions, kept);
    }
  }

  // The answers are a function of the tenant's own raw rows.

  lemma {:induction false} KeptLinksOfRaws(raws: seq<Raw>, project: string, l: Link)
    requires l.project == project
    ensures l in FlatMap(raws, LinkOfRaw) <==> l in FlatMap(FlatMap(raws, KeepRaw(project)), LinkOfRaw)
  {
    if raws != [] {
      var rest := raws[1..];
      KeptLinksOfRaws(rest, project, l);
      if raws[0].project == project {
        TailOfCons(raws[0], FlatMap(rest, KeepRaw(project)));
      } else {
        assert FlatMap(raws, KeepRaw(project)) == FlatMap(rest, KeepRaw(project));
      }
    }
  }

  ghost predicate OwnParts(part: Raw -> seq<Part>) {
    forall raw, p :: p in part(raw) ==> p.key.project == raw.project
  }

  lemma {:induction false} KeptParts(raws: seq<Raw>, project: string, part: Raw -> seq<Part>, wanted: Key -> bool)
    requires forall key :: wanted(key) ==> key.project == project
    requires OwnParts(part)
    ensures Sum(FlatMap(raws, part), wanted) == Sum(FlatMap(FlatMap(raws, KeepRaw(project)), part), wanted)
  {
    if raws != [] {
      var raw, rest := raws[0], raws[1..];
      KeptParts(rest, project, part, wanted);
      SumAppend(part(raw), FlatMap(rest, part), wanted);
      if raw.project == project {
        TailOfCons(raw, FlatMap(rest, KeepRaw(project)));
        SumAppend(part(raw), FlatMap(FlatMap(rest, KeepRaw(project)), part), wanted);
      } else {
        assert FlatMap(raws, KeepRaw(project)) == FlatMap(rest, KeepRaw(project));
        SumUnwanted(part(raw), wanted);
      }
    }
  }

  lemma {:induction false} SumUnwanted(parts: seq<Part>, wanted: Key -> bool)
    requires forall p :: p in parts ==> !wanted(p.key)
    ensures Sum(parts, wanted) == None
  {
    if parts != [] {
      assert parts[0] in parts;
      SumUnwanted(parts[1..], wanted);
    }
  }

  /** The project's own rows, in whatever order, as seen through the filter. */
  ghost predicate SameOwnRows(s: Store, t: Store, project: string) {
    multiset(FlatMap(s.raws, KeepRaw(project))) == multiset(FlatMap(t.raws, KeepRaw(project)))
  }

  lemma OwnLinksAgree(s: Store, t: Store, project: string)
    requires Reachable(s) && Reachable(t) && SameOwnRows(s, t, project) && Unambiguous(s.links, project)
    ensures forall id :: LinkedUser(s.links, project, id) == LinkedUser(t.links, project, id)
  {
    var nothing := (key: Key) => false;
    ReachableIndexed(s, nothing);
    ReachableIndexed(t, nothing);
    var a, b := FlatMap(s.raws, KeepRaw(project)), FlatMap(t.raws, KeepRaw(project));
    FlatMapPermuted(a, b, LinkOfRaw);
    forall l: Link | l.project == project ensures l in s.links <==> l in t.links {
      KeptLinksOfRaws(s.raws, project, l);
      KeptLinksOfRaws(t.raws, project, l);
      SameMembers(s.links, FlatMap(s.raws, LinkOfRaw), l);
      SameMembers(t.links, FlatMap(t.raws, LinkOfRaw), l);
      SameMembers(FlatMap(a, LinkOfRaw), FlatMap(b, LinkOfRaw), l);
    }
    forall id ensures LinkedUser(s.links, project, id) == LinkedUser(t.links, project, id) {
      LinkedUserPermuted(s.links, t.links, project, id);
    }
  }

  lemma SameMembers<T>(a: seq<T>, b: seq<T>, x: T)
    requires multiset(a) == multiset(b)
    ensures x in a <==> x in b
  {
    assert x in a <==> x in multiset(a);
    assert x in b <==> x in multiset(b);
  }

  lemma OwnSum(s: Store, t: Store, project: string, part: Raw -> seq<Part>, wanted: Key -> bool)
    requires SameOwnRows(s, t, project)
    requires forall key :: wanted(key) ==> key.project == project
    requires OwnParts(part)
    ensures Sum(FlatMap(s.raws, part), wanted) == Sum(FlatMap(t.raws, part), wanted)
  {
    var a, b := FlatMap(s.raws, KeepRaw(project)), FlatMap(t.raws, KeepRaw(project));
    KeptParts(s.raws, project, part, wanted);
    KeptParts(t.raws, project, part, wanted);
    FlatMapPermuted(a, b, part);
    SumPermuted(FlatMap(a, part), FlatMap(b, part), wanted);
  }

  /** Non-interference: two histories with the same raw rows of project P answer P's filtered
      queries alike, whatever other tenants inserted, however the inserts were split into
      blocks, and whichever merges have happened. */
  lemma PersonsSeeOwnRowsOnly(s: Store, t: Store, project: string, q: string, d: string)
    requires Reachable(s) && Reachable(t) && SameOwnRows(s, t, project) && Unambiguous(s.links, project)
    ensures Person(Filtered(s, project), q, d) == Person(Filtered(t, project), q, d)
  {
    hide Sum, FlatMap, Filtered, Reachable, LinkedUser, Unambiguous, SameOwnRows;
    FilterCommutesWithPersons(s, project, q, d);
    FilterCommutesWithPersons(t, project, q, d);
    OwnLinksAgree(s, t, project);
    var f, g := ResolvesTo(s.links, project, d), ResolvesTo(t.links, project, d);
    ReachableIndexed(s, f);
    ReachableIndexed(t, g);
    SumSame(FlatMap(t.raws, PersonPart), f, g);
    OwnSum(s, t, project, PersonPart, f);
  }

  lemma SessionsSeeOwnRowsOnly(s: Store, t: Store, project: string, q: string, id: string)
    requires Reachable(s) && Reachable(t) && SameOwnRows(s, t, project)
    ensures Session(Filtered(s, project), q, id) == Session(Filtered(t, project), q, id)
  {
    hide Sum, FlatMap, Filtered, Reachable, SameOwnRows;
    FilterCommutesWithSessions(s, project, q, id);
    FilterCommutesWithSessions(t, project, q, id);
    ReachableIndexed(s, Is(Key(project, id)));
    ReachableIndexed(t, Is(Key(project, id)));
    OwnSum(s, t, project, SessionPart, Is(Key(project, id)));
  }

  lemma EventsSeeOwnRowsOnly(s: Store, t: Store, project: string)
    requires Reachable(s) && Reachable(t) && SameOwnRows(s, t, project) && Unambiguous(s.links, project)
    ensures multiset(EventsView(Filtered(s, project))) == multiset(EventsView(Filtered(t, project)))
  {
    OwnLinksAgree(s, t, project);
    KeptLinks(s.links, project);
    KeptLinks(t.links, project);
    var a, b := Filtered(s, project), Filtered(t, project);
    FlatMapPermuted(a.raws, b.raws, EventOf(b.links));
    KeptEvents(s.raws, a.links, s.links, project);
    KeptEvents(s.raws, b.links, s.links, project);
  }
}
