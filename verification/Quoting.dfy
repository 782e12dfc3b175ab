/**
  How names and values are quoted: the tenant filter map is a map of single-quoted table names
  to single-quoted predicates that hold a single-quoted project id.
 */
module Quoting {
  import opened Common
  import opened Scrubber

  /** strings.ReplaceAll(s, q, qq). */
  function Double(s: string, q: char): string {
    if s == "" then "" else (if s[0] == q then [q, q] else [s[0]]) + Double(s[1..], q)
  }

  function Quoted(s: string, q: char): string {
    [q] + Double(s, q) + [q]
  }

  function QuoteString(s: string): string { Quoted(s, '\'') }

  function QuoteIdent(s: string): string { Quoted(s, '`') }

  // ---------------------------------------------------------------------------
  // A reader of doubled quotes
  // ---------------------------------------------------------------------------

  /** What was read, and what is left. */
  datatype Read<T> = Read(value: T, rest: string)

  /** The inside of a quoted string, up to a quote that is not doubled. */
  function ReadInside(s: string, q: char): (read: Option<Read<string>>)
    ensures read.Some? ==> |read.value.rest| < |s|
    decreases |s|
  {
    if s == "" then None
    else if s[0] != q then
      var r := ReadInside(s[1..], q);
      if r.None? then None else Some(Read([s[0]] + r.value.value, r.value.rest))
    else if StartsWith(s[1..], q) then
      var r := ReadInside(s[2..], q);
      if r.None? then None else Some(Read([q] + r.value.value, r.value.rest))
    else Some(Read("", s[1..]))
  }

  function ReadQuoted(s: string, q: char): Option<Read<string>> {
    if StartsWith(s, q) then ReadInside(s[1..], q) else None
  }

  lemma {:induction false} ReadInsideDouble(s: string, q: char, rest: string)
    requires !StartsWith(rest, q)
    ensures ReadInside(Double(s, q) + ([q] + rest), q) == Some(Read(s, rest))
  {
    var tail := [q] + rest;
    if s == "" {
      assert Double(s, q) + tail == tail;
      TailOfCons(q, rest);
    } else {
      ReadInsideDouble(s[1..], q, rest);
      var inner := Double(s[1..], q) + tail;
      ConsTail(s);
      if s[0] == q {
        Associative([q, q], Double(s[1..], q), tail);
        ReadDoubled(inner, q);
      } else {
        Associative([s[0]], Double(s[1..], q), tail);
        TailOfCons(s[0], inner);
      }
    }
  }

  lemma ReadDoubled(inner: string, q: char)
    ensures ReadInside([q, q] + inner, q)
         == var r := ReadInside(inner, q);
            if r.None? then None else Some(Read([q] + r.value.value, r.value.rest))
  {
    var s := [q, q] + inner;
    assert s[1..][0] == q && s[2..] == inner;
  }

  /** Reading undoes quoting, for every string, when no further quote follows. */
  lemma QuotedReadsBack(s: string, q: char, rest: string)
    requires !StartsWith(rest, q)
    ensures ReadQuoted(Quoted(s, q) + rest, q) == Some(Read(s, rest))
  {
    ReadInsideDouble(s, q, rest);
    assert Quoted(s, q) + rest == [q] + (Double(s, q) + ([q] + rest));
    TailOfCons(q, Double(s, q) + ([q] + rest));
  }

  // ---------------------------------------------------------------------------
  // The tenant filter map
  // ---------------------------------------------------------------------------

  const PROJECT_IS := "project_id = "

  function Filter(projectID: string): string {
    PROJECT_IS + QuoteString(projectID)
  }

  function Entry(name: string, projectID: string): string {
    QuoteString(name) + ": " + QuoteString(Filter(projectID))
  }

  /** strings.Join(parts, ", "). */
  function Join(parts: seq<string>): string {
    if parts == [] then ""
    else if |parts| == 1 then parts[0]
    else parts[0] + ", " + Join(parts[1..])
  }

  function Entries(names: seq<string>, projectID: string): seq<string> {
    seq(|names|, i requires 0 <= i < |names| => Entry(names[i], projectID))
  }

  function FilterMap(names: seq<string>, projectID: string): string {
    "{" + Join(Entries(names, projectID)) + "}"
  }

  method AdditionalTableFilters(filterNames: seq<string>, projectID: string) returns (r: string)
    ensures r == FilterMap(filterNames, projectID)
  {
    var parts: seq<string> := [];
    var filter := PROJECT_IS + QuoteString(projectID);
    for i := 0 to |filterNames|
      invariant parts == Entries(filterNames[..i], projectID)
    {
      hide QuoteString;
      parts := parts + [QuoteString(filterNames[i]) + ": " + QuoteString(filter)];
    }
    assert filterNames[..|filterNames|] == filterNames;
    r := "{" + Join(parts) + "}";
  }

  /** The tables the executor filters. */
  function FilterNames(database: string): seq<string> {
    [database + ".events_raw_v1", database + ".identity_links_v1", database + ".persons_state",
     database + ".sessions_state", database + ".identity_links_mv", database + ".persons_mv",
     database + ".sessions_mv"]
  }

  datatype TableFilter = TableFilter(table: string, predicateText: string)

  function After(s: string, prefix: string): Option<string> {
    if |prefix| <= |s| && s[..|prefix|] == prefix then Some(s[|prefix|..]) else None
  }

  function ReadEntry(s: string): Option<Read<TableFilter>> {
    var name := ReadQuoted(s, '\'');
    if name.None? then None
    else
      var colon := After(name.value.rest, ": ");
      if colon.None? then None
      else
        var pred := ReadQuoted(colon.value, '\'');
        if pred.None? then None
        else Some(Read(TableFilter(name.value.value, pred.value.value), pred.value.rest))
  }

  /** Comma-separated entries up to the closing brace. */
  function ReadEntries(s: string): Option<seq<TableFilter>>
    decreases |s|
  {
    var entry := ReadEntry(s);
    if entry.None? then None
    else if entry.value.rest == "}" then Some([entry.value.value])
    else
      var more := After(entry.value.rest, ", ");
      if more.None? then None
      else
        var rest := ReadEntries(more.value);
        if rest.None? then None else Some([entry.value.value] + rest.value)
  }

  function ReadMap(s: string): Option<seq<TableFilter>> {
    if s == "{}" then Some([])
    else if StartsWith(s, '{') then ReadEntries(s[1..])
    else None
  }

  /** A word up to the space that ends it. */
  function ReadWord(s: string): (read: Option<Read<string>>)
    ensures read.Some? ==> |read.value.rest| < |s|
  {
    if s == "" then None
    else if s[0] == ' ' then Some(Read("", s[1..]))
    else
      var r := ReadWord(s[1..]);
      if r.None? then None else Some(Read([s[0]] + r.value.value, r.value.rest))
  }

  datatype Comparison = Comparison(column: string, operator: string, literal: string)

  /** A column, an operator and a quoted literal. */
  function ReadComparison(s: string): Option<Comparison> {
    var column := ReadWord(s);
    if column.None? then None
    else
      var operator := ReadWord(column.value.rest);
      if operator.None? then None
      else
        var r := ReadQuoted(operator.value.rest, '\'');
        if r.Some? && r.value.rest == "" then Some(Comparison(column.value.value, operator.value.value, r.value.value)) else None
  }

  /** The project a predicate selects: it compares project_id for equality. */
  function ReadPredicate(s: string): Option<string> {
    match ReadComparison(s)
    case Some(c) => if c.column == "project_id" && c.operator == "=" then Some(c.literal) else None
    case None => None
  }

  lemma {:induction false} ReadWordOf(word: string, rest: string)
    requires ' ' !in word
    ensures ReadWord(word + ([' '] + rest)) == Some(Read(word, rest))
  {
    if word == "" {
      assert word + ([' '] + rest) == [' '] + rest;
      TailOfCons(' ', rest);
    } else {
      ReadWordOf(word[1..], rest);
      TailOfAppend(word, [' '] + rest);
      assert [word[0]] + word[1..] == word;
    }
  }

  lemma AfterPrefix(prefix: string, rest: string)
    ensures After(prefix + rest, prefix) == Some(rest)
  {
  }

  lemma EntryReadsBack(name: string, projectID: string, rest: string)
    requires !StartsWith(rest, '\'')
    ensures ReadEntry(Entry(name, projectID) + rest) == Some(Read(TableFilter(name, Filter(projectID)), rest))
  {
    hide Quoted, ReadQuoted, Filter;
    var pred := QuoteString(Filter(projectID)) + rest;
    var tail := ": " + pred;
    QuotedReadsBack(name, '\'', tail);
    assert Entry(name, projectID) + rest == QuoteString(name) + tail;
    AfterPrefix(": ", pred);
    QuotedReadsBack(Filter(projectID), '\'', rest);
  }

  function Listed(names: seq<string>, projectID: string): seq<TableFilter> {
    seq(|names|, i requires 0 <= i < |names| => TableFilter(names[i], Filter(projectID)))
  }

  lemma {:induction false} EntriesReadBack(names: seq<string>, projectID: string)
    requires names != []
    ensures ReadEntries(Join(Entries(names, projectID)) + "}") == Some(Listed(names, projectID))
  {
    hide Entry, ReadEntry, Filter;
    var entry := Entry(names[0], projectID);
    if |names| == 1 {
      EntryReadsBack(names[0], projectID, "}");
      assert Entries(names, projectID) == [entry];
      assert Listed(names, projectID) == [TableFilter(names[0], Filter(projectID))];
    } else {
      var rest := names[1..];
      EntriesReadBack(rest, projectID);
      var after := Join(Entries(rest, projectID)) + "}";
      assert Entries(names, projectID)[1..] == Entries(rest, projectID);
      assert Join(Entries(names, projectID)) + "}" == entry + (", " + after);
      EntryReadsBack(names[0], projectID, ", " + after);
      AfterPrefix(", ", after);
      assert [TableFilter(names[0], Filter(projectID))] + Listed(rest, projectID) == Listed(names, projectID);
    }
  }

  /** The predicate reads back as the comparison of project_id for equality with the project id. */
  lemma PredicateReadsBack(projectID: string)
    ensures ReadComparison(Filter(projectID)) == Some(Comparison("project_id", "=", projectID))
    ensures ReadPredicate(Filter(projectID)) == Some(projectID)
  {
    hide Quoted, ReadQuoted, ReadWord;
    var literal := QuoteString(projectID);
    assert Filter(projectID) == "project_id" + ([' '] + ("=" + ([' '] + literal)));
    ReadWordOf("project_id", "=" + ([' '] + literal));
    ReadWordOf("=", literal);
    QuotedReadsBack(projectID, '\'', "");
    assert literal + "" == literal;
  }

  /** For every project id and every list of table names, the printed filter map reads back as
      exactly those tables in order, each mapped to a predicate that selects exactly that
      project. */
  lemma FilterMapReadsBack(names: seq<string>, projectID: string)
    ensures ReadMap(FilterMap(names, projectID)) == Some(Listed(names, projectID))
    ensures forall f :: f in Listed(names, projectID) ==> ReadPredicate(f.predicateText) == Some(projectID)
  {
    PredicateReadsBack(projectID);
    var s := FilterMap(names, projectID);
    if names == [] {
      assert s == "{}";
    } else {
      var parts := Entries(names, projectID);
      EntriesReadBack(names, projectID);
      assert s[1..] == Join(parts) + "}";
    }
  }

  /** `db`.`name` reads back as the database and the table. */
  lemma QualifiedNameReadsBack(database: string, name: string)
    ensures var s := QuoteIdent(database) + "." + QuoteIdent(name);
            var r := ReadQuoted(s, '`');
            && r.Some? && r.value.value == database
            && After(r.value.rest, ".") == Some(QuoteIdent(name))
            && ReadQuoted(QuoteIdent(name), '`') == Some(Read(name, ""))
  {
    hide Quoted, ReadQuoted;
    var tail := "." + QuoteIdent(name);
    QuotedReadsBack(database, '`', tail);
    AfterPrefix(".", QuoteIdent(name));
    QuotedReadsBack(name, '`', "");
    assert QuoteIdent(name) + "" == QuoteIdent(name);
    assert QuoteIdent(database) + "." + QuoteIdent(name) == QuoteIdent(database) + tail;
  }

  // ---------------------------------------------------------------------------
  // Quoted strings as the scrubber sees them
  // ---------------------------------------------------------------------------

  /** Every backslash, read from the left, takes with it a byte that is there and no quote. */
  predicate EscapesSettled(s: string)
    decreases |s|
  {
    if s == "" then true
    else if s[0] == '\\' then |s| >= 2 && s[1] != '\'' && EscapesSettled(s[2..])
    else EscapesSettled(s[1..])
  }

  /** The scanned literal ends `n` bytes in, at a quote. */
  predicate EndsAt(scan: Scan, n: nat) {
    scan.ending.AtQuote? && scan.Width('\'') == n
  }

  /** A whole unit in front moves the end by its length. */
  lemma EndsPast(unit: Unit, tail: string, n: nat)
    requires BodyOk([unit], '\'')
    ensures EndsAt(ScanLiteral(unit.Text('\'') + tail, '\''), |unit.Text('\'')| + n) <==> EndsAt(ScanLiteral(tail, '\''), n)
  {
    NextUnitOf(unit, '\'', tail);
    var s := unit.Text('\'') + tail;
    assert s[|unit.Text('\'')|..] == tail;
    UnitsCons(unit, ScanLiteral(tail, '\'').units, '\'');
  }

  /** A literal that is still open at `tail` does not end before it. */
  lemma EndsLater(tail: string)
    ensures !EndsAt(ScanLiteral(tail, '\''), 0)
  {
  }

  lemma EndsNow(next: string)
    requires !StartsWith(next, '\'')
    ensures ScanLiteral(['\''] + next, '\'') == Scan([], AtQuote)
    ensures forall n: nat :: EndsAt(ScanLiteral(['\''] + next, '\''), n) <==> n == 1
  {
    TailOfCons('\'', next);
  }

  /** After a quote too many, the literal does not end at the quote meant to close it. */
  lemma {:induction false} OddQuotes(u: string, next: string)
    requires !StartsWith(next, '\'')
    ensures !EndsAt(ScanLiteral(['\''] + (Double(u, '\'') + (['\''] + next)), '\''), |Double(u, '\'')| + 2)
  {
    hide ScanLiteral, EndsAt;
    var q, tail := '\'', ['\''] + next;
    var s := [q] + (Double(u, q) + tail);
    if u == "" {
      assert s == Unit.Doubled.Text(q) + next;
      EndsPast(Doubled, next, 0);
      EndsLater(next);
    } else if u[0] == q {
      var inner := [q] + (Double(u[1..], q) + tail);
      assert s == Unit.Doubled.Text(q) + inner;
      OddQuotes(u[1..], next);
      EndsPast(Doubled, inner, |Double(u[1..], q)| + 2);
    } else {
      assert (Double(u, q) + tail)[0] == u[0];
      EndsNow(Double(u, q) + tail);
    }
  }

  /** The literal that quoting `s` writes ends where it should. */
  ghost predicate EndsRight(s: string, next: string) {
    EndsAt(ScanLiteral(Double(s, '\'') + (['\''] + next), '\''), |Double(s, '\'')| + 1)
  }

  lemma LoneBackslash(s: string, next: string)
    requires s == ['\\']
    ensures !EndsRight(s, next)
  {
    assert Double(s[1..], '\'') == "";
    assert Double(s, '\'') == ['\\'];
    assert Double(s, '\'') + (['\''] + next) == Escape('\'').Text('\'') + next;
    EndsPast(Escape('\''), next, 0);
    EndsLater(next);
  }

  lemma EscapedQuote(s: string, next: string)
    requires |s| >= 2 && s[0] == '\\' && s[1] == '\'' && !StartsWith(next, '\'')
    ensures !EndsRight(s, next)
  {
    hide ScanLiteral, EndsAt;
    var q, rest := '\'', Double(s[2..], '\'');
    DoubleTwo(s, q);
    var inner := [q] + (rest + ([q] + next));
    assert Double(s, q) + ([q] + next) == Escape(q).Text(q) + inner;
    OddQuotes(s[2..], next);
    EndsPast(Escape(q), inner, |rest| + 2);
  }

  lemma SettledUnit(s: string, unit: Unit, rest: string, next: string)
    requires BodyOk([unit], '\'') && Double(s, '\'') == unit.Text('\'') + Double(rest, '\'')
    ensures EndsRight(s, next) <==> EndsRight(rest, next)
  {
    hide ScanLiteral, EndsAt, Double;
    Associative(unit.Text('\''), Double(rest, '\''), ['\''] + next);
    EndsPast(unit, Double(rest, '\'') + (['\''] + next), |Double(rest, '\'')| + 1);
  }

  lemma {:induction false} QuotedScanIff(s: string, next: string)
    requires !StartsWith(next, '\'')
    ensures EndsRight(s, next) <==> EscapesSettled(s)
    decreases |s|
  {
    var q := '\'';
    if s == "" {
      assert Double(s, q) + ([q] + next) == [q] + next;
      EndsNow(next);
    } else if s[0] == '\\' && |s| == 1 {
      LoneBackslash(s, next);
    } else if s[0] == '\\' && s[1] == q {
      EscapedQuote(s, next);
    } else {
      hide EndsRight;
      var unit := if s[0] == '\\' then Escape(s[1]) else if s[0] == q then Doubled else Single(s[0]);
      var n := if s[0] == '\\' then 2 else 1;
      if n == 2 {
        DoubleTwo(s, q);
      }
      QuotedScanIff(s[n..], next);
      SettledUnit(s, unit, s[n..], next);
    }
  }

  lemma DoubleTwo(s: string, q: char)
    requires |s| >= 2 && s[0] != q
    ensures Double(s, q) == [s[0]] + ((if s[1] == q then [q, q] else [s[1]]) + Double(s[2..], q))
  {
    assert s[1..][1..] == s[2..];
  }

  /** Placed where a token starts, and not followed by a quote, quoteString(s) is exactly one
      literal exactly when the backslashes of `s` are settled. */
  lemma QuoteStringIsOneLiteralIff(s: string, next: string)
    requires !StartsWith(next, '\'')
    ensures (First(QuoteString(s) + next).Closed? && First(QuoteString(s) + next).Text() == QuoteString(s))
       <==> EscapesSettled(s)
  {
    hide ScanLiteral;
    var q := '\'';
    var text := QuoteString(s) + next;
    var inside := Double(s, q) + ([q] + next);
    assert text == [q] + inside;
    TailOfCons(q, inside);
    QuotedScanIff(s, next);
    FirstSpec(text);
    assert text[..|QuoteString(s)|] == QuoteString(s);
  }

  lemma {:induction false} NoBackslashIsSettled(s: string)
    requires '\\' !in s
    ensures EscapesSettled(s)
  {
    if s != "" {
      NoBackslashIsSettled(s[1..]);
    }
  }

  /** A single backslash escapes the closing quote. */
  lemma BackslashIsNotOneLiteral(next: string)
    requires !StartsWith(next, '\'')
    ensures First(QuoteString("\\") + next).Text() != QuoteString("\\")
         || !First(QuoteString("\\") + next).Closed?
  {
    QuoteStringIsOneLiteralIff("\\", next);
  }
}
