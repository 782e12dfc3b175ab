/**
  What the database does with a filter map: a physical table named in it is read through its
  predicate, any other table whole. Under the map an executor asks with, every view of the surface
  reads the caller's project only.
 */
module TenantFilter {
  import opened Common
  import opened IdentitySurface
  import opened IdentityTheorems
  import opened Quoting

  /** The predicate the map has for a table. */
  function PredicateFor(entries: seq<TableFilter>, table: string): Option<string> {
    if entries == [] then None
    else if entries[0].table == table then Some(entries[0].predicateText)
    else PredicateFor(entries[1..], table)
  }

  /** A row of the project passes: there is no predicate, or it selects the project. */
  predicate Passes(filter: Option<string>, project: string) {
    filter.None? || ReadPredicate(filter.value) == Some(project)
  }

  function Select<R>(rows: seq<R>, keep: R -> bool): seq<R> {
    if rows == [] then []
    else if keep(rows[0]) then [rows[0]] + Select(rows[1..], keep)
    else Select(rows[1..], keep)
  }

  /** The names under which the tables of the surface can be read. */
  datatype Names = Names(raws: string, links: string, persons: string, sessions: string)

  /** By the tables themselves, and by the materialized views that write to them. */
  const TABLES := Names("events_raw_v1", "identity_links_v1", "persons_state", "sessions_state")
  const VIEWS := Names("events_raw_v1", "identity_links_mv", "persons_mv", "sessions_mv")

  /** The store as a query sees it that names the tables so. */
  function ReadThrough(s: Store, database: string, names: Names, entries: seq<TableFilter>): Store {
    var raws := PredicateFor(entries, database + "." + names.raws);
    var links := PredicateFor(entries, database + "." + names.links);
    var persons := PredicateFor(entries, database + "." + names.persons);
    var sessions := PredicateFor(entries, database + "." + names.sessions);
    Store(Select(s.raws, (raw: Raw) => Passes(raws, raw.project)),
          Select(s.links, (link: Link) => Passes(links, link.project)),
          Select(s.persons, (part: Part) => Passes(persons, part.key.project)),
          Select(s.sessions, (part: Part) => Passes(sessions, part.key.project)))
  }

  /** Under the map every table, by either name, shows the rows of the project and no other. */
  ghost predicate Isolates(filterMap: string, database: string, project: string) {
    var entries := ReadMap(filterMap);
    && entries.Some?
    && forall s: Store, names: Names :: names == TABLES || names == VIEWS ==>
         ReadThrough(s, database, names, entries.value) == Filtered(s, project)
  }

  lemma {:induction false} SelectIsKeep<R>(rows: seq<R>, keep: R -> bool, kept: R -> seq<R>)
    requires forall r :: r in rows ==> kept(r) == if keep(r) then [r] else []
    ensures Select(rows, keep) == FlatMap(rows, kept)
  {
    if rows != [] {
      assert rows[0] in rows && forall r :: r in rows[1..] ==> r in rows;
      SelectIsKeep(rows[1..], keep, kept);
    }
  }

  lemma {:induction false} ListedPredicate(names: seq<string>, projectID: string, table: string)
    ensures PredicateFor(Listed(names, projectID), table) == if table in names then Some(Filter(projectID)) else None
  {
    if names != [] {
      ListedPredicate(names[1..], projectID, table);
      assert Listed(names, projectID)[1..] == Listed(names[1..], projectID);
      ConsTail(names);
    }
  }

  /** With the entries of an executor, reading through the map is filtering by the project. */
  lemma ListedFilters(s: Store, database: string, tables: Names, names: seq<string>, projectID: string)
    requires database + "." + tables.raws in names && database + "." + tables.links in names
    requires database + "." + tables.persons in names && database + "." + tables.sessions in names
    ensures ReadThrough(s, database, tables, Listed(names, projectID)) == Filtered(s, projectID)
  {
    var entries, own := Listed(names, projectID), Some(Filter(projectID));
    ListedPredicate(names, projectID, database + "." + tables.raws);
    ListedPredicate(names, projectID, database + "." + tables.links);
    ListedPredicate(names, projectID, database + "." + tables.persons);
    ListedPredicate(names, projectID, database + "." + tables.sessions);
    PredicateReadsBack(projectID);
    hide Listed, PredicateFor, ReadPredicate, Filter;
    SelectIsKeep(s.raws, (raw: Raw) => Passes(own, raw.project), KeepRaw(projectID));
    SelectIsKeep(s.links, (link: Link) => Passes(own, link.project), KeepLink(projectID));
    SelectIsKeep(s.persons, (part: Part) => Passes(own, part.key.project), KeepPart(projectID));
    SelectIsKeep(s.sessions, (part: Part) => Passes(own, part.key.project), KeepPart(projectID));
  }

  /** The filter map of the executor's tables isolates every project. */
  lemma FilterNamesIsolate(database: string, projectID: string)
    ensures Isolates(FilterMap(FilterNames(database), projectID), database, projectID)
  {
    var names := FilterNames(database);
    FilterMapReadsBack(names, projectID);
    QualifiedTables(database);
    QualifiedViews(database);
    hide FilterNames, FilterMap, Listed, ReadMap, ReadThrough, Filtered;
    forall s: Store, tables: Names | tables == TABLES || tables == VIEWS
      ensures ReadThrough(s, database, tables, Listed(names, projectID)) == Filtered(s, projectID)
    {
      ListedFilters(s, database, tables, names, projectID);
    }
  }

  lemma Dotted(database: string, table: string, i: nat)
    requires i < |FilterNames(database)| && FilterNames(database)[i] == database + ("." + table)
    ensures database + "." + table in FilterNames(database)
  {
    assert database + "." + table == database + ("." + table);
  }

  lemma QualifiedTables(database: string)
    ensures database + "." + TABLES.raws in FilterNames(database) && database + "." + TABLES.links in FilterNames(database)
    ensures database + "." + TABLES.persons in FilterNames(database) && database + "." + TABLES.sessions in FilterNames(database)
  {
    Dotted(database, "events_raw_v1", 0);
    Dotted(database, "identity_links_v1", 1);
    Dotted(database, "persons_state", 2);
    Dotted(database, "sessions_state", 3);
    hide FilterNames;
  }

  lemma QualifiedViews(database: string)
    ensures database + "." + VIEWS.raws in FilterNames(database) && database + "." + VIEWS.links in FilterNames(database)
    ensures database + "." + VIEWS.persons in FilterNames(database) && database + "." + VIEWS.sessions in FilterNames(database)
  {
    Dotted(database, "events_raw_v1", 0);
    Dotted(database, "identity_links_mv", 4);
    Dotted(database, "persons_mv", 5);
    Dotted(database, "sessions_mv", 6);
    hide FilterNames;
  }

  /** Tenant isolation of a query: whatever view it reads, under an isolating map it sees what the
      view has for the caller's project, and every row it sees is the project's. */
  lemma QueriesSeeOwnProject(filterMap: string, database: string, project: string, s: Store, names: Names,
                             q: string, id: string)
    requires Isolates(filterMap, database, project) && (names == TABLES || names == VIEWS)
    ensures var seen := ReadThrough(s, database, names, ReadMap(filterMap).value);
            && EventsView(seen) == Select(EventsView(s), (row: EventRow) => row.project == project)
            && (forall row :: row in EventsView(seen) ==> row.project == project)
            && Person(seen, q, id) == (if q == project then Person(s, project, id) else None)
            && Session(seen, q, id) == (if q == project then Session(s, project, id) else None)
  {
    FilterCommutesWithEvents(s, project);
    FilterCommutesWithPersons(s, project, q, id);
    FilterCommutesWithSessions(s, project, q, id);
    SelectIsKeep(EventsView(s), (row: EventRow) => row.project == project, KeepEvent(project));
    Selected(EventsView(s), (row: EventRow) => row.project == project);
  }

  lemma {:induction false} Selected<R>(rows: seq<R>, keep: R -> bool)
    ensures forall r :: r in Select(rows, keep) ==> keep(r) && r in rows
  {
    if rows != [] {
      Selected(rows[1..], keep);
    }
  }
}
