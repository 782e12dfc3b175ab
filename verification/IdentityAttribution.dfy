/**
  Who an event is attributed to, said of the raw events alone: the first $identify that names an
  anonymous id wins it, for the past as for the future.
 */
module IdentityAttribution {
  import opened Common
  import opened IdentitySurface
  import opened IdentityTheorems

  predicate Filled(column: Option<string>) { column.Some? && column.value != "" }

  /** A $identify of the project that names the anonymous id and a user. */
  predicate Names(raw: Raw, project: string, id: string) {
    raw.event.Identify? && raw.project == project && raw.anonymousId == Some(id) && id != "" && Filled(raw.userId)
  }

  /** Of all the $identify events of the id this is the earliest, or the others that are not later
      name the same user. */
  ghost predicate FirstNames(raws: seq<Raw>, raw: Raw, project: string, id: string) {
    && raw in raws && Names(raw, project, id)
    && forall q :: q in raws && Names(q, project, id) ==> q.timestamp > raw.timestamp || q.userId == raw.userId
  }

  ghost predicate NeverNamed(raws: seq<Raw>, project: string, id: string) {
    forall q :: q in raws ==> !Names(q, project, id)
  }

  // ---------------------------------------------------------------------------
  // The links of the raw events
  // ---------------------------------------------------------------------------

  ghost predicate LinkFrom(raws: seq<Raw>, link: Link) {
    exists q :: q in raws && Names(q, link.project, link.anonymousId)
                && q.userId == Some(link.userId) && q.timestamp == link.linkedAt
  }

  lemma {:induction false} LinksOfRaws(raws: seq<Raw>, link: Link)
    ensures link in FlatMap(raws, LinkOfRaw) <==> LinkFrom(raws, link)
  {
    if raws != [] {
      var raw, rest := raws[0], raws[1..];
      LinksOfRaws(rest, link);
      ConsTail(raws);
      assert link in LinkOfRaw(raw) <==>
             Names(raw, link.project, link.anonymousId) && raw.userId == Some(link.userId) && raw.timestamp == link.linkedAt;
      if LinkFrom(rest, link) {
        var q :| q in rest && Names(q, link.project, link.anonymousId)
                 && q.userId == Some(link.userId) && q.timestamp == link.linkedAt;
        assert q in raws;
      }
    }
  }

  lemma LinksOfStore(s: Store, link: Link)
    requires Reachable(s)
    ensures link in s.links <==> LinkFrom(s.raws, link)
  {
    ReachableIndexed(s, (key: Key) => false);
    LinksOfRaws(s.raws, link);
    SameMembers(s.links, FlatMap(s.raws, LinkOfRaw), link);
  }

  /** The identity map of a reachable store, read off its raw events. */
  lemma LinkedByFirst(s: Store, project: string, id: string)
    requires Reachable(s)
    ensures forall raw :: FirstNames(s.raws, raw, project, id) ==> LinkedUser(s.links, project, id) == raw.userId
    ensures NeverNamed(s.raws, project, id) ==> LinkedUser(s.links, project, id) == None
  {
    var link := Earliest(s.links, project, id);
    if link.Some? {
      LinksOfStore(s, link.value);
    }
    forall raw | FirstNames(s.raws, raw, project, id) ensures LinkedUser(s.links, project, id) == raw.userId {
      var own := Link(project, id, raw.userId.value, raw.timestamp);
      assert LinkFrom(s.raws, own);
      LinksOfStore(s, own);
      hide Reachable, FlatMap, Earliest;
    }
  }

  // ---------------------------------------------------------------------------
  // The events view
  // ---------------------------------------------------------------------------

  /** The distinct id of an event: its user id; else the user its anonymous id was first named with;
      else the anonymous id; else none. */
  ghost predicate Attributed(raws: seq<Raw>, raw: Raw, distinctId: Option<string>) {
    if Filled(raw.userId) then distinctId == raw.userId
    else if Filled(raw.anonymousId) then
      && (forall r :: FirstNames(raws, r, raw.project, raw.anonymousId.value) ==> distinctId == r.userId)
      && (NeverNamed(raws, raw.project, raw.anonymousId.value) ==> distinctId == raw.anonymousId)
    else distinctId == None
  }

  /** Every raw event is one row of the events view, with its own columns and so attributed. */
  lemma EventsAreAttributed(s: Store, i: nat)
    requires Reachable(s) && i < |s.raws|
    ensures |EventsView(s)| == |s.raws|
    ensures var raw, row := s.raws[i], EventsView(s)[i];
            && row.project == raw.project && row.event == raw.event && row.timestamp == raw.timestamp
            && row.sessionId == raw.sessionId && Attributed(s.raws, raw, row.distinctId)
  {
    var raw := s.raws[i];
    RowOfRaw(s.raws, s.links, i);
    if Filled(raw.anonymousId) {
      LinkedByFirst(s, raw.project, raw.anonymousId.value);
    } else if raw.anonymousId.Some? {
      LinkedByFirst(s, raw.project, "");
      assert NeverNamed(s.raws, raw.project, "");
    }
    hide Reachable, FlatMap, LinkedUser, FirstNames, NeverNamed;
  }

  lemma {:induction false} RowOfRaw(raws: seq<Raw>, links: seq<Link>, i: nat)
    requires i < |raws|
    ensures |FlatMap(raws, EventOf(links))| == |raws|
    ensures FlatMap(raws, EventOf(links))[i] == EventOf(links)(raws[i])[0]
  {
    OneRowEach(raws[1..], links);
    if i > 0 {
      RowOfRaw(raws[1..], links, i - 1);
    }
  }

  lemma {:induction false} OneRowEach(raws: seq<Raw>, links: seq<Link>)
    ensures |FlatMap(raws, EventOf(links))| == |raws|
  {
    if raws != [] {
      OneRowEach(raws[1..], links);
    }
  }

  // ---------------------------------------------------------------------------
  // The persons view
  // ---------------------------------------------------------------------------

  /** The id persons_state files an event under. */
  predicate FiledUnder(raw: Raw, id: string) {
    if Filled(raw.userId) then raw.userId == Some(id)
    else Filled(raw.anonymousId) && raw.anonymousId == Some(id)
  }

  /** That id resolves to the user it was first named with, or stays. */
  ghost predicate Resolves(raws: seq<Raw>, project: string, id: string, distinctId: string) {
    || (exists r :: FirstNames(raws, r, project, id) && r.userId == Some(distinctId))
    || (NeverNamed(raws, project, id) && id == distinctId)
  }

  ghost predicate CountsFor(raws: seq<Raw>, raw: Raw, project: string, distinctId: string) {
    raw.project == project && exists id :: FiledUnder(raw, id) && Resolves(raws, project, id, distinctId)
  }

  /** How many of `some` count for a person, given all the raw events. */
  ghost function Tally(raws: seq<Raw>, some: seq<Raw>, project: string, distinctId: string): nat {
    if some == [] then 0
    else (if CountsFor(raws, some[0], project, distinctId) then 1 else 0) + Tally(raws, some[1..], project, distinctId)
  }

  /** No two $identify events of an id tie for the first place with different users. */
  ghost predicate Settled(raws: seq<Raw>, project: string) {
    forall id :: NeverNamed(raws, project, id) || exists r :: FirstNames(raws, r, project, id)
  }

  lemma ResolvesIff(s: Store, project: string, id: string, distinctId: string)
    requires Reachable(s) && Settled(s.raws, project)
    ensures PersonId(s.links, Key(project, id)) == distinctId <==> Resolves(s.raws, project, id, distinctId)
  {
    LinkedByFirst(s, project, id);
    hide Reachable, LinkedUser;
    if NeverNamed(s.raws, project, id) {
      assert forall r :: !FirstNames(s.raws, r, project, id);
    } else {
      var r :| FirstNames(s.raws, r, project, id);
      assert LinkedUser(s.links, project, id) == r.userId;
    }
  }

  lemma {:induction false} TallyIsCount(s: Store, some: seq<Raw>, project: string, distinctId: string)
    requires Reachable(s) && Settled(s.raws, project)
    ensures var agg := Sum(FlatMap(some, PersonPart), ResolvesTo(s.links, project, distinctId));
            Tally(s.raws, some, project, distinctId) == if agg.Some? then agg.value.count else 0
    ensures var agg := Sum(FlatMap(some, PersonPart), ResolvesTo(s.links, project, distinctId));
            agg.Some? ==> agg.value.count > 0
  {
    if some != [] {
      var raw, rest := some[0], some[1..];
      TallyIsCount(s, rest, project, distinctId);
      SumAppend(PersonPart(raw), FlatMap(rest, PersonPart), ResolvesTo(s.links, project, distinctId));
      PartCounts(s, raw, project, distinctId);
      hide Reachable, Settled, Sum, PersonPart;
    }
  }

  lemma PartCounts(s: Store, raw: Raw, project: string, distinctId: string)
    requires Reachable(s) && Settled(s.raws, project)
    ensures Sum(PersonPart(raw), ResolvesTo(s.links, project, distinctId))
         == if CountsFor(s.raws, raw, project, distinctId)
            then Some(Agg(raw.timestamp, raw.timestamp, 1, SessionSet(raw.sessionId)))
            else None
  {
    var id := RawDistinctId(raw);
    assert forall x :: FiledUnder(raw, x) <==> id == Some(x);
    if id.Some? {
      ResolvesIff(s, project, id.value, distinctId);
      assert PersonPart(raw)[1..] == [];
    }
    hide Reachable, Settled, Resolves;
  }

  /** The persons view counts, under each distinct id, exactly the raw events whose id resolves to it. */
  lemma PersonsCountRaws(s: Store, project: string, distinctId: string)
    requires Reachable(s) && Settled(s.raws, project)
    ensures var person := Person(s, project, distinctId);
            Tally(s.raws, s.raws, project, distinctId) == if person.Some? then person.value.count else 0
  {
    ReachableIndexed(s, ResolvesTo(s.links, project, distinctId));
    TallyIsCount(s, s.raws, project, distinctId);
  }

  // ---------------------------------------------------------------------------
  // The first $identify wins for good
  // ---------------------------------------------------------------------------

  /** Later $identify events of an id that is already named change neither view: the events of that
      id keep their distinct id, and count for the same person as before. */
  lemma LaterIdentifyChangesNothing(s: Store, block: seq<Raw>, first: Raw, i: nat)
    requires Reachable(s) && i < |s.raws| && !Filled(s.raws[i].userId) && Filled(s.raws[i].anonymousId)
    requires FirstNames(s.raws, first, s.raws[i].project, s.raws[i].anonymousId.value)
    requires forall q :: q in block && Names(q, s.raws[i].project, s.raws[i].anonymousId.value) ==> q.timestamp > first.timestamp
    ensures var t := Do(s, Insert(block));
            && i < |EventsView(s)| && i < |EventsView(t)|
            && EventsView(t)[i] == EventsView(s)[i] && EventsView(t)[i].distinctId == first.userId
            && forall d :: CountsFor(t.raws, s.raws[i], s.raws[i].project, d) <==> first.userId == Some(d)
  {
    var t, raw := Do(s, Insert(block)), s.raws[i];
    var project, id := raw.project, raw.anonymousId.value;
    ExtendReachable(s, Insert(block));
    assert t.raws == s.raws + block && t.raws[i] == raw;
    assert FirstNames(t.raws, first, project, id);
    EventsAreAttributed(s, i);
    EventsAreAttributed(t, i);
    forall d ensures CountsFor(t.raws, raw, project, d) <==> first.userId == Some(d) {
      assert FiledUnder(raw, id);
      FirstIsOne(t.raws, first, project, id);
    }
    hide Reachable, EventsView, Do;
  }

  lemma FirstIsOne(raws: seq<Raw>, first: Raw, project: string, id: string)
    requires FirstNames(raws, first, project, id)
    ensures forall r :: FirstNames(raws, r, project, id) ==> r.userId == first.userId
    ensures !NeverNamed(raws, project, id)
  {
  }
}
