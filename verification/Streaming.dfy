/**
  How a query is run: the guards, the tenant filter, and the two sinks that take the rows, one
  that streams JSON to a writer and one that collects.

  Values, their JSON text and their normal form are parameters; so is what the database
  answers.
 */
module Streaming {
  import opened Common
  import Quoting
  import Scrubber
  import TenantFilter

  type Value = string

  datatype Column = Column(name: string, typ: string)

  datatype Stats = Stats(rows: nat, elapsedMs: nat)

  datatype Error =
    | EmptySql | SettingsNotAllowed
    | QueryFailed | ColumnsFailed | TypesFailed | ScanFailed | RowsFailed
    | SinkFailed | RowLimitExceeded

  datatype Result<T> = Ok(value: T) | Err(error: Error)

  /** json.Marshal of the three things a stream writes. */
  datatype Marshal = Marshal(
    columns: seq<Column> -> Option<string>,
    row: seq<Value> -> Option<string>,
    stats: Stats -> Option<string>)

  function Text(marshalled: Option<string>): string {
    if marshalled.Some? then marshalled.value else ""
  }

  // ---------------------------------------------------------------------------
  // The envelope, printed at once
  // ---------------------------------------------------------------------------

  const COLUMNS := "{\"columns\":"
  const ROWS := ",\"rows\":["
  const STATS := "],\"stats\":"

  function Head(columns: string): string { COLUMNS + columns + ROWS }

  function Tail(stats: string): string { STATS + stats + "}" }

  function CommaJoin(texts: seq<string>): string {
    if texts == [] then ""
    else if |texts| == 1 then texts[0]
    else texts[0] + "," + CommaJoin(texts[1..])
  }

  function RowTexts(m: Marshal, rows: seq<seq<Value>>): seq<string> {
    seq(|rows|, i requires 0 <= i < |rows| => Text(m.row(rows[i])))
  }

  /** What has been written when `rows` have been streamed. */
  function Sofar(m: Marshal, columns: seq<Column>, rows: seq<seq<Value>>): string {
    Head(Text(m.columns(columns))) + CommaJoin(RowTexts(m, rows))
  }

  function Envelope(m: Marshal, columns: seq<Column>, rows: seq<seq<Value>>, stats: Stats): string {
    Sofar(m, columns, rows) + Tail(Text(m.stats(stats)))
  }

  lemma {:induction false} CommaJoinAppend(a: seq<string>, b: seq<string>)
    requires a != [] && b != []
    ensures CommaJoin(a + b) == CommaJoin(a) + "," + CommaJoin(b)
  {
    TailOfAppend(a, b);
    if |a| > 1 {
      CommaJoinAppend(a[1..], b);
      var head, x, y := a[0] + ",", CommaJoin(a[1..]), "," + CommaJoin(b);
      Associative(head, x, y);
      assert (head + x) + "," + CommaJoin(b) == (head + x) + y;
      assert x + "," + CommaJoin(b) == x + y;
    } else {
      assert (a + b)[1..] == b;
    }
  }

  /** Streaming one more row appends a comma, unless it is the first, and the row. */
  lemma OneMoreRow(m: Marshal, columns: seq<Column>, rows: seq<seq<Value>>, row: seq<Value>)
    ensures Sofar(m, columns, rows + [row])
         == Sofar(m, columns, rows) + (if rows == [] then "" else ",") + Text(m.row(row))
  {
    var texts, text := RowTexts(m, rows), Text(m.row(row));
    assert RowTexts(m, rows + [row]) == texts + [text];
    if rows == [] {
      assert texts + [text] == [text];
    } else {
      CommaJoinAppend(texts, [text]);
    }
  }

  /** A stream that stops after some of its rows has written a prefix of the envelope. */
  lemma EarlyStopIsPrefix(m: Marshal, columns: seq<Column>, rows: seq<seq<Value>>, k: nat, stats: Stats)
    requires k <= |rows|
    ensures Sofar(m, columns, rows[..k]) <= Envelope(m, columns, rows, stats)
  {
    SofarGrows(m, columns, rows, k);
    PrefixThrough(Sofar(m, columns, rows[..k]), Sofar(m, columns, rows), Tail(Text(m.stats(stats))));
  }

  lemma PrefixThrough<T>(a: seq<T>, b: seq<T>, c: seq<T>)
    requires a <= b
    ensures a <= b + c
  {
  }

  lemma SofarGrows(m: Marshal, columns: seq<Column>, rows: seq<seq<Value>>, k: nat)
    requires k <= |rows|
    ensures Sofar(m, columns, rows[..k]) <= Sofar(m, columns, rows)
  {
    var a, b := RowTexts(m, rows[..k]), RowTexts(m, rows[k..]);
    assert RowTexts(m, rows) == a + b;
    if a == [] {
      assert a + b == b;
    } else if b == [] {
      assert a + b == a;
    } else {
      CommaJoinAppend(a, b);
    }
  }

  // ---------------------------------------------------------------------------
  // A reader of the envelope
  // ---------------------------------------------------------------------------

  type ValueReader = string -> Option<Quoting.Read<string>>

  predicate Delimited(rest: string) {
    rest != "" && (rest[0] == ',' || rest[0] == ']' || rest[0] == '}')
  }

  ghost predicate ReadsText(read: ValueReader, text: string) {
    && text != "" && text[0] != ']'
    && forall rest :: Delimited(rest) ==> read(text + rest) == Some(Quoting.Read(text, rest))
  }

  /** A JSON reader that stops behind a value takes back whatever the marshaller printed. */
  ghost predicate Lawful(read: ValueReader, m: Marshal) {
    && (forall c :: m.columns(c).Some? ==> ReadsText(read, m.columns(c).value))
    && (forall r :: m.row(r).Some? ==> ReadsText(read, m.row(r).value))
    && (forall s :: m.stats(s).Some? ==> ReadsText(read, m.stats(s).value))
  }

  /** The elements of an array, from the first or behind a comma, and its closing bracket. */
  function ReadElements(read: ValueReader, s: string): Option<Quoting.Read<seq<string>>>
    decreases |s|
  {
    match read(s)
    case None => None
    case Some(element) =>
      if element.rest == "" || |element.rest| > |s| then None
      else if element.rest[0] == ']' then Some(Quoting.Read([element.value], element.rest[1..]))
      else if element.rest[0] != ',' then None
      else match ReadElements(read, element.rest[1..])
        case None => None
        case Some(more) => Some(Quoting.Read([element.value] + more.value, more.rest))
  }

  function ReadArray(read: ValueReader, s: string): Option<Quoting.Read<seq<string>>> {
    if s == "" then None
    else if s[0] == ']' then Some(Quoting.Read([], s[1..]))
    else ReadElements(read, s)
  }

  /** The three members of the response object. */
  datatype Response = Response(columns: string, rows: seq<string>, stats: string)

  function ReadStats(read: ValueReader, columns: string, rows: seq<string>, s: string): Option<Response> {
    match Quoting.After(s, ",\"stats\":")
    case None => None
    case Some(s) => match read(s)
      case None => None
      case Some(stats) => if stats.rest == "}" then Some(Response(columns, rows, stats.value)) else None
  }

  function ReadRows(read: ValueReader, columns: string, s: string): Option<Response> {
    match Quoting.After(s, ",\"rows\":[")
    case None => None
    case Some(s) => match ReadArray(read, s)
      case None => None
      case Some(rows) => ReadStats(read, columns, rows.value, rows.rest)
  }

  /** Reads the response body: an object with exactly these members in this order. */
  function ReadResponse(read: ValueReader, s: string): Option<Response> {
    match Quoting.After(s, "{\"columns\":")
    case None => None
    case Some(s) => match read(s)
      case None => None
      case Some(columns) => ReadRows(read, columns.value, columns.rest)
  }

  lemma {:induction false} ElementsReadBack(read: ValueReader, texts: seq<string>, rest: string)
    requires texts != [] && forall t :: t in texts ==> ReadsText(read, t)
    ensures ReadElements(read, CommaJoin(texts) + ("]" + rest)) == Some(Quoting.Read(texts, rest))
  {
    var first := texts[0];
    assert first in texts;
    if |texts| == 1 {
      assert texts == [first];
      assert Delimited("]" + rest);
    } else {
      var more := CommaJoin(texts[1..]) + ("]" + rest);
      assert CommaJoin(texts) + ("]" + rest) == first + ("," + more);
      assert Delimited("," + more);
      assert ("," + more)[1..] == more;
      assert forall t :: t in texts[1..] ==> t in texts;
      ElementsReadBack(read, texts[1..], rest);
      assert [first] + texts[1..] == texts;
    }
  }

  lemma ArrayReadsBack(read: ValueReader, texts: seq<string>, rest: string)
    requires forall t :: t in texts ==> ReadsText(read, t)
    ensures ReadArray(read, CommaJoin(texts) + ("]" + rest)) == Some(Quoting.Read(texts, rest))
  {
    if texts == [] {
      assert CommaJoin(texts) + ("]" + rest) == "]" + rest;
      assert ("]" + rest)[1..] == rest;
    } else {
      assert texts[0] in texts;
      ElementsReadBack(read, texts, rest);
    }
  }

  /** What is streamed is the documented response: an object of the columns, the rows in order and the
      statistics, as any JSON reader takes them back. */
  lemma EnvelopeReadsBack(m: Marshal, read: ValueReader, columns: seq<Column>, rows: seq<seq<Value>>, stats: Stats)
    returns (texts: seq<string>)
    requires Lawful(read, m) && m.columns(columns).Some? && m.stats(stats).Some?
    requires forall i :: 0 <= i < |rows| ==> m.row(rows[i]).Some?
    ensures ReadResponse(read, Envelope(m, columns, rows, stats))
         == Some(Response(m.columns(columns).value, texts, m.stats(stats).value))
    ensures |texts| == |rows| && forall i :: 0 <= i < |rows| ==> texts[i] == m.row(rows[i]).value
  {
    texts := RowTexts(m, rows);
    var head, tail := m.columns(columns).value, m.stats(stats).value;
    var third := ",\"stats\":" + (tail + "}");
    var second := ",\"rows\":[" + (CommaJoin(texts) + ("]" + third));
    EnvelopeParts(head, CommaJoin(texts), tail);
    Quoting.AfterPrefix("{\"columns\":", head + second);
    assert Delimited(second) && Delimited("}");
    Quoting.AfterPrefix(",\"rows\":[", CommaJoin(texts) + ("]" + third));
    ArrayReadsBack(read, texts, third);
    Quoting.AfterPrefix(",\"stats\":", tail + "}");
  }

  lemma EnvelopeParts(head: string, rows: string, tail: string)
    ensures Head(head) + rows + Tail(tail)
         == "{\"columns\":" + (head + (",\"rows\":[" + (rows + ("]" + (",\"stats\":" + (tail + "}"))))))
  {
    assert STATS == "]" + ",\"stats\":";
  }

  // ---------------------------------------------------------------------------
  // The JSON sink
  // ---------------------------------------------------------------------------

  /** `takes(n)` is how many bytes the n-th call takes before it fails; None: it takes them all. */
  class Writer {
    const takes: nat -> Option<nat>
    var written: string
    var calls: nat

    predicate Accepts(n: nat) { takes(n).None? }

    method Write(bytes: string) returns (ok: bool)
      modifies this
      ensures ok == Accepts(old(calls)) && calls == old(calls) + 1
      ensures ok ==> written == old(written) + bytes
      ensures old(written) <= written <= old(written) + bytes
    {
      var answer := takes(calls);
      calls := calls + 1;
      if answer.None? {
        written := written + bytes;
        return true;
      }
      var n := if answer.value < |bytes| then answer.value else |bytes|;
      written := written + bytes[..n];
      ok := false;
    }
  }

  /** How many writes a stream of n rows takes before its end: one to begin, one for the first row,
      a comma and one for every other. */
  function Writes(n: nat): nat { if n == 0 then 1 else 2 * n }

  /** Everything up to the last row can be marshalled, and every write so far is taken. */
  ghost predicate Smooth(m: Marshal, w: Writer, start: nat, columns: seq<Column>, rows: seq<seq<Value>>) {
    && m.columns(columns).Some?
    && (forall i :: 0 <= i < |rows| ==> m.row(rows[i]).Some?)
    && (forall k :: start <= k < start + Writes(|rows|) ==> w.Accepts(k))
  }

  lemma SmoothNext(m: Marshal, w: Writer, start: nat, columns: seq<Column>, rows: seq<seq<Value>>, row: seq<Value>)
    ensures var next := start + Writes(|rows|);
            Smooth(m, w, start, columns, rows + [row]) <==>
            Smooth(m, w, start, columns, rows) && m.row(row).Some? && w.Accepts(next) && (rows != [] ==> w.Accepts(next + 1))
  {
    var more := rows + [row];
    assert more[|rows|] == row && forall i :: 0 <= i < |rows| ==> more[i] == rows[i];
  }

  lemma SmoothPrefix(m: Marshal, w: Writer, start: nat, columns: seq<Column>, rows: seq<seq<Value>>, k: nat)
    requires k <= |rows| && Smooth(m, w, start, columns, rows)
    ensures Smooth(m, w, start, columns, rows[..k])
  {
  }

  class JsonSink {
    const w: Writer
    const m: Marshal
    var first: bool

    constructor (w: Writer, m: Marshal)
      ensures this.w == w && this.m == m
    {
      this.w, this.m := w, m;
      first := false;
    }

    /** Everything since `before` is the stream of these rows. */
    ghost predicate Streamed(before: string, columns: seq<Column>, rows: seq<seq<Value>>)
      reads this, w
    {
      w.written == before + Sofar(m, columns, rows) && first == (rows == [])
    }

    method Begin(columns: seq<Column>) returns (ok: bool)
      modifies this`first, w
      ensures ok == Smooth(m, w, old(w.calls), columns, [])
      ensures ok ==> Streamed(old(w.written), columns, []) && w.calls == old(w.calls) + Writes(0)
      ensures old(w.written) <= w.written <= old(w.written) + Sofar(m, columns, [])
    {
      first := true;
      assert RowTexts(m, []) == [];
      var b := m.columns(columns);
      if b.None? { return false; }
      assert Sofar(m, columns, []) == Head(b.value);
      ok := w.Write(COLUMNS + b.value + ROWS);
    }

    method Row(row: seq<Value>, ghost before: string, ghost columns: seq<Column>, ghost rows: seq<seq<Value>>)
      returns (ok: bool)
      requires Streamed(before, columns, rows)
      modifies this`first, w
      ensures ok == (m.row(row).Some? && w.Accepts(old(w.calls)) && (rows != [] ==> w.Accepts(old(w.calls) + 1)))
      ensures ok ==> Streamed(before, columns, rows + [row]) && w.calls == old(w.calls) + (if rows == [] then 1 else 2)
      ensures old(w.written) <= w.written <= before + Sofar(m, columns, rows + [row])
    {
      OneMoreRow(m, columns, rows, row);
      hide Sofar;
      if !first {
        var comma := w.Write(",");
        if !comma { return false; }
      }
      first := false;
      var b := m.row(row);
      if b.None? { return false; }
      ok := w.Write(b.value);
    }

    method End(stats: Stats, ghost before: string, ghost columns: seq<Column>, ghost rows: seq<seq<Value>>)
      returns (ok: bool)
      requires Streamed(before, columns, rows)
      modifies w
      ensures ok == (m.stats(stats).Some? && w.Accepts(old(w.calls)))
      ensures ok ==> w.written == before + Envelope(m, columns, rows, stats)
      ensures old(w.written) <= w.written <= before + Envelope(m, columns, rows, stats)
    {
      var b := m.stats(stats);
      if b.None? { return false; }
      ok := w.Write(STATS + b.value + "}");
    }
  }

  // ---------------------------------------------------------------------------
  // The collecting sink
  // ---------------------------------------------------------------------------

  class CollectSink {
    const maxRows: int
    var columns: seq<Column>
    var rows: seq<seq<Value>>

    constructor (maxRows: int)
      ensures this.maxRows == maxRows && rows == []
    {
      this.maxRows := maxRows;
      columns, rows := [], [];
    }

    method Begin(columns: seq<Column>)
      modifies this`columns
      ensures this.columns == columns
    {
      this.columns := columns;
    }

    /** Refuses a row exactly when it already holds maxRows of them. */
    method Row(row: seq<Value>) returns (ok: bool)
      modifies this`rows
      ensures ok <==> maxRows <= 0 || |old(rows)| < maxRows
      ensures rows == if ok then old(rows) + [row] else old(rows)
    {
      if maxRows > 0 && |rows| >= maxRows { return false; }
      rows := rows + [row];
      ok := true;
    }
  }

  // ---------------------------------------------------------------------------
  // Running a query
  // ---------------------------------------------------------------------------

  /** What the driver does with an accepted query. `scanFails` is the first row that cannot be
      scanned; `failsAtEnd` is an error after the last row. */
  datatype Answer =
    | Refused(error: Error)
    | Cursor(names: seq<string>, types: seq<string>, rows: seq<seq<Value>>, scanFails: Option<nat>, failsAtEnd: bool)
  {
    ghost predicate Valid() {
      match this
      case Refused(error) => error.QueryFailed? || error.ColumnsFailed? || error.TypesFailed?
      case Cursor(_, _, rows, scanFails, _) => scanFails.Some? ==> scanFails.value < |rows|
    }

    /** How many rows are delivered before the cursor stops. */
    function Delivered(): nat
      requires Cursor?
    {
      if scanFails.Some? then scanFails.value else |rows|
    }
  }

  function ColumnsOf(names: seq<string>, types: seq<string>): seq<Column> {
    seq(|names|, i requires 0 <= i < |names| => Column(names[i], if i < |types| then types[i] else ""))
  }

  function Normalized(normalize: Value -> Value, row: seq<Value>): seq<Value> {
    seq(|row|, i requires 0 <= i < |row| => normalize(row[i]))
  }

  function AllNormalized(normalize: Value -> Value, rows: seq<seq<Value>>): seq<seq<Value>> {
    seq(|rows|, i requires 0 <= i < |rows| => Normalized(normalize, rows[i]))
  }

  /** The guards, in order; None lets the query through. `blank` says that strings.TrimSpace
      leaves nothing. */
  function Guard(blank: string -> bool, sqlText: string): Option<Error> {
    if blank(sqlText) then Some(EmptySql)
    else if Scrubber.ContainsSettingsClause(sqlText) then Some(SettingsNotAllowed)
    else None
  }

  const DEFAULT_DATABASE := "analytics"

  datatype Ask = Ask(tableFilters: string, sql: string)

  class Executor {
    const filterNames: seq<string>
    const blank: string -> bool
    const normalize: Value -> Value
    var asked: seq<Ask> // every query sent to the database

    /** Whatever project asks, the filter map sent isolates it in this database. */
    ghost predicate Serves(database: string) {
      forall projectID :: TenantFilter.Isolates(Quoting.FilterMap(filterNames, projectID), database, projectID)
    }

    /** The filter map isolates the project in the executor's database. */
    ghost predicate Isolated(filterMap: string, projectID: string) {
      forall database :: Serves(database) ==> TenantFilter.Isolates(filterMap, database, projectID)
    }

    /** A blank database name stands for the default. */
    constructor (database: string, blank: string -> bool, normalize: Value -> Value)
      ensures Serves(if blank(database) then "analytics" else database) && asked == []
      ensures this.blank == blank && this.normalize == normalize
    {
      var name := database;
      if blank(name) { name := DEFAULT_DATABASE; }
      filterNames, this.blank, this.normalize := Quoting.FilterNames(name), blank, normalize;
      asked := [];
      new;
      hide TenantFilter.Isolates, Quoting.FilterNames, Quoting.FilterMap;
      forall projectID ensures TenantFilter.Isolates(Quoting.FilterMap(filterNames, projectID), name, projectID) {
        TenantFilter.FilterNamesIsolate(name, projectID);
      }
    }

    /** What was sent to the database: nothing if a guard refused, otherwise the query with the
        filter map of the caller's project. */
    ghost predicate AskedOnce(before: seq<Ask>, projectID: string, sqlText: string)
      reads this
    {
      asked == if Guard(blank, sqlText).Some? then before
               else before + [Ask(Quoting.FilterMap(filterNames, projectID), sqlText)]
    }

    /** The part of a run before the sink sees anything. */
    method Query(projectID: string, sqlText: string, answer: Answer) returns (columns: Result<seq<Column>>)
      requires answer.Valid()
      modifies this`asked
      ensures AskedOnce(old(asked), projectID, sqlText)
      ensures columns == if Guard(blank, sqlText).Some? then Err(Guard(blank, sqlText).value)
                         else if answer.Refused? then Err(answer.error)
                         else Ok(ColumnsOf(answer.names, answer.types))
      ensures blank(sqlText) ==> columns == Err(EmptySql) && asked == old(asked)
      ensures !blank(sqlText) && Scrubber.ContainsSettingsClause(sqlText) ==>
                columns == Err(SettingsNotAllowed) && asked == old(asked)
      ensures !blank(sqlText) && !Scrubber.ContainsSettingsClause(sqlText) ==>
                && |asked| == |old(asked)| + 1 && asked[..|old(asked)|] == old(asked) && asked[|old(asked)|].sql == sqlText
                && Isolated(asked[|old(asked)|].tableFilters, projectID)
      ensures columns.Ok? ==>
                && answer.Cursor? && |columns.value| == |answer.names|
                && forall i :: 0 <= i < |answer.names| ==>
                     && columns.value[i].name == answer.names[i]
                     && columns.value[i].typ == if i < |answer.types| then answer.types[i] else ""
    {
      hide TenantFilter.Isolates, Scrubber.ContainsSettingsClause, Quoting.FilterMap;
      if blank(sqlText) { return Err(EmptySql); }
      if Scrubber.ContainsSettingsClause(sqlText) { return Err(SettingsNotAllowed); }
      var filters := Quoting.AdditionalTableFilters(filterNames, projectID);
      asked := asked + [Ask(filters, sqlText)];
      if answer.Refused? { return Err(answer.error); }
      var cols := ReadColumns(answer.names, answer.types);
      columns := Ok(cols);
    }

    method ReadColumns(names: seq<string>, types: seq<string>) returns (columns: seq<Column>)
      ensures columns == ColumnsOf(names, types)
    {
      columns := [];
      for i := 0 to |names|
        invariant columns == ColumnsOf(names[..i], types)
      {
        var typ := "";
        if i < |types| { typ := types[i]; }
        columns := columns + [Column(names[i], typ)];
      }
      assert names[..|names|] == names;
    }

    method NormalizeRow(row: seq<Value>) returns (out: seq<Value>)
      ensures out == Normalized(normalize, row)
    {
      out := [];
      for i := 0 to |row|
        invariant out == Normalized(normalize, row[..i])
      {
        out := out + [normalize(row[i])];
      }
      assert row[..|row|] == row;
    }

    /** The envelope of everything a cursor holds. */
    function Whole(m: Marshal, answer: Answer, stats: Stats): string
      requires answer.Cursor?
    {
      Envelope(m, ColumnsOf(answer.names, answer.types), AllNormalized(normalize, answer.rows), stats)
    }

    /** What a stream that ends in an error has written: a prefix of an envelope. */
    ghost predicate Partial(m: Marshal, before: string, after: string, answer: Answer) {
      && before <= after
      && (answer.Refused? ==> after == before)
      && (answer.Cursor? ==> exists stats: Stats :: after <= before + Whole(m, answer, stats))
    }

    /** Runs a query into the JSON sink. It succeeds exactly when the guards let the query through,
        the database delivers every row, everything can be marshalled and every write is taken. */
    method StreamJSON(projectID: string, sqlText: string, answer: Answer, sink: JsonSink, elapsedMs: nat) returns (result: Result<Stats>)
      requires answer.Valid()
      modifies this`asked, sink`first, sink.w
      ensures AskedOnce(old(asked), projectID, sqlText)
      ensures Guard(blank, sqlText).Some? ==> result == Err(Guard(blank, sqlText).value) && sink.w.written == old(sink.w.written)
      ensures Guard(blank, sqlText).None? && answer.Refused? ==> result == Err(answer.error)
      ensures result.Ok? <==>
                && Guard(blank, sqlText).None? && answer.Cursor? && answer.scanFails.None? && !answer.failsAtEnd
                && Smooth(sink.m, sink.w, old(sink.w.calls), ColumnsOf(answer.names, answer.types), AllNormalized(normalize, answer.rows))
                && sink.m.stats(Stats(|answer.rows|, elapsedMs)).Some?
                && sink.w.Accepts(old(sink.w.calls) + Writes(|answer.rows|))
      ensures result.Ok? ==>
                && result.value == Stats(|answer.rows|, elapsedMs)
                && sink.w.written == old(sink.w.written) + Whole(sink.m, answer, result.value)
      ensures Partial(sink.m, old(sink.w.written), sink.w.written, answer)
    {
      hide Sofar, Envelope, AllNormalized, ColumnsOf, Guard, Smooth;
      ghost var before := sink.w.written;
      NothingIsPartial(sink.m, before, answer);
      var columns := Query(projectID, sqlText, answer);
      if columns.Err? { return Err(columns.error); }
      var failed := StreamRows(answer, sink, columns.value);
      if failed.Some? { return Err(failed.value); }
      if answer.failsAtEnd { return Err(RowsFailed); }
      var stats := Stats(|answer.rows|, elapsedMs);
      ghost var wrote := sink.w.written;
      var ended := sink.End(stats, before, columns.value, AllNormalized(normalize, answer.rows));
      PrefixTrans(before, wrote, sink.w.written);
      PartialBy(sink.m, before, sink.w.written, answer, stats);
      if !ended { return Err(SinkFailed); }
      result := Ok(stats);
    }

    lemma PartialBy(m: Marshal, before: string, after: string, answer: Answer, stats: Stats)
      requires answer.Cursor? && before <= after && after <= before + Whole(m, answer, stats)
      ensures Partial(m, before, after, answer)
    {
    }

    lemma NothingIsPartial(m: Marshal, before: string, answer: Answer)
      ensures Partial(m, before, before, answer)
    {
      if answer.Cursor? {
        assert before <= before + Whole(m, answer, Stats(0, 0));
      }
    }

    /** Begin, then every row. */
    method StreamRows(answer: Answer, sink: JsonSink, columns: seq<Column>) returns (failed: Option<Error>)
      requires answer.Valid() && answer.Cursor? && columns == ColumnsOf(answer.names, answer.types)
      modifies sink`first, sink.w
      ensures failed.None? <==>
                answer.scanFails.None? && Smooth(sink.m, sink.w, old(sink.w.calls), columns, AllNormalized(normalize, answer.rows))
      ensures failed.None? ==>
                && sink.Streamed(old(sink.w.written), columns, AllNormalized(normalize, answer.rows))
                && sink.w.calls == old(sink.w.calls) + Writes(|answer.rows|)
      ensures Partial(sink.m, old(sink.w.written), sink.w.written, answer)
    {
      hide Sofar, Envelope, Partial, AllNormalized, ColumnsOf, Whole, Smooth;
      ghost var before, start, all := sink.w.written, sink.w.calls, AllNormalized(normalize, answer.rows);
      AllLength(normalize, answer.rows);
      var began := sink.Begin(columns);
      assert all[..0] == [];
      StillPartial(sink.m, before, sink.w.written, answer, 0);
      if !began {
        NotSmooth(sink.m, sink.w, start, columns, all, 0);
        return Some(SinkFailed);
      }
      for count := 0 to |answer.rows|
        invariant sink.Streamed(before, columns, all[..count])
        invariant Smooth(sink.m, sink.w, start, columns, all[..count]) && sink.w.calls == start + Writes(count)
        invariant answer.scanFails.Some? ==> count <= answer.scanFails.value
        invariant Partial(sink.m, before, sink.w.written, answer) && before <= sink.w.written
      {
        if answer.scanFails == Some(count) { return Some(ScanFailed); }
        var row := NormalizeRow(answer.rows[count]);
        NextNormalized(normalize, answer.rows, count);
        SmoothNext(sink.m, sink.w, start, columns, all[..count], row);
        ghost var wrote := sink.w.written;
        var took := sink.Row(row, before, columns, all[..count]);
        PrefixTrans(before, wrote, sink.w.written);
        StillPartial(sink.m, before, sink.w.written, answer, count + 1);
        if !took {
          NotSmooth(sink.m, sink.w, start, columns, all, count + 1);
          return Some(SinkFailed);
        }
      }
      assert all[..|answer.rows|] == all;
      failed := None;
    }

    lemma NotSmooth(m: Marshal, w: Writer, start: nat, columns: seq<Column>, rows: seq<seq<Value>>, k: nat)
      requires k <= |rows| && !Smooth(m, w, start, columns, rows[..k])
      ensures !Smooth(m, w, start, columns, rows)
    {
      if Smooth(m, w, start, columns, rows) {
        SmoothPrefix(m, w, start, columns, rows, k);
      }
    }

    lemma StillPartial(m: Marshal, before: string, after: string, answer: Answer, k: nat)
      requires answer.Cursor? && k <= |answer.rows| && before <= after
      requires after <= before + Sofar(m, ColumnsOf(answer.names, answer.types), AllNormalized(normalize, answer.rows)[..k])
      ensures Partial(m, before, after, answer)
    {
      var columns, all := ColumnsOf(answer.names, answer.types), AllNormalized(normalize, answer.rows);
      assert Whole(m, answer, Stats(0, 0)) == Envelope(m, columns, all, Stats(0, 0));
      EarlyStopIsPrefix(m, columns, all, k, Stats(0, 0));
      PrefixUnder(before, Sofar(m, columns, all[..k]), Envelope(m, columns, all, Stats(0, 0)));
      PrefixTrans(after, before + Sofar(m, columns, all[..k]), before + Envelope(m, columns, all, Stats(0, 0)));
    }

    /** Runs a query into the collecting sink. The row limit is reported exactly when the
        cursor delivers more rows than it allows. */
    method Collect(projectID: string, sqlText: string, answer: Answer, maxRows: int, elapsedMs: nat)
      returns (result: Result<(seq<Column>, seq<seq<Value>>, Stats)>)
      requires answer.Valid()
      modifies this`asked
      ensures AskedOnce(old(asked), projectID, sqlText)
      ensures Guard(blank, sqlText).Some? ==> result == Err(Guard(blank, sqlText).value)
      ensures Guard(blank, sqlText).None? && answer.Refused? ==> result == Err(answer.error)
      ensures Guard(blank, sqlText).None? && answer.Cursor? ==>
                if maxRows > 0 && answer.Delivered() > maxRows then result == Err(RowLimitExceeded)
                else if answer.scanFails.Some? then result == Err(ScanFailed)
                else if answer.failsAtEnd then result == Err(RowsFailed)
                else result.Ok?
      ensures result.Ok? ==>
                && result.value.0 == ColumnsOf(answer.names, answer.types)
                && result.value.1 == AllNormalized(normalize, answer.rows)
                && result.value.2 == Stats(|answer.rows|, elapsedMs)
                && CellsNormalized(normalize, answer.rows, result.value.1)
    {
      hide AllNormalized, ColumnsOf, Guard, CellsNormalized, Isolated, Scrubber.ContainsSettingsClause;
      var columns := Query(projectID, sqlText, answer);
      if columns.Err? { return Err(columns.error); }
      NormalizedIs(normalize, answer.rows);
      var sink := new CollectSink(maxRows);
      sink.Begin(columns.value);
      var failed := CollectRows(answer, sink);
      if failed.Some? { return Err(failed.value); }
      if answer.failsAtEnd { return Err(RowsFailed); }
      result := Ok((sink.columns, sink.rows, Stats(|answer.rows|, elapsedMs)));
    }

    /** Every row, in its normal form, until one cannot be scanned or is one too many. */
    method CollectRows(answer: Answer, sink: CollectSink) returns (failed: Option<Error>)
      requires answer.Valid() && answer.Cursor? && sink.rows == []
      modifies sink`rows
      ensures failed == if sink.maxRows > 0 && answer.Delivered() > sink.maxRows then Some(RowLimitExceeded)
                        else if answer.scanFails.Some? then Some(ScanFailed)
                        else None
      ensures failed.None? ==> sink.rows == AllNormalized(normalize, answer.rows)
    {
      hide AllNormalized;
      ghost var all := AllNormalized(normalize, answer.rows);
      AllLength(normalize, answer.rows);
      for count := 0 to |answer.rows|
        invariant sink.rows == all[..count]
        invariant answer.scanFails.Some? ==> count <= answer.scanFails.value
        invariant sink.maxRows > 0 ==> count <= sink.maxRows
      {
        if answer.scanFails == Some(count) { return Some(ScanFailed); }
        var row := NormalizeRow(answer.rows[count]);
        NextNormalized(normalize, answer.rows, count);
        var took := sink.Row(row);
        if !took { return Some(RowLimitExceeded); }
      }
      assert all[..|answer.rows|] == all;
      failed := None;
    }
  }

  /** Cell by cell, the normal form of what the cursor delivered. */
  ghost predicate CellsNormalized(normalize: Value -> Value, rows: seq<seq<Value>>, out: seq<seq<Value>>) {
    && |out| == |rows|
    && forall i :: 0 <= i < |rows| ==>
         |out[i]| == |rows[i]| && forall j :: 0 <= j < |rows[i]| ==> out[i][j] == normalize(rows[i][j])
  }

  lemma NormalizedIs(normalize: Value -> Value, rows: seq<seq<Value>>)
    ensures CellsNormalized(normalize, rows, AllNormalized(normalize, rows))
  {
  }

  lemma AllLength(normalize: Value -> Value, rows: seq<seq<Value>>)
    ensures |AllNormalized(normalize, rows)| == |rows|
  {
  }

  lemma NextNormalized(normalize: Value -> Value, rows: seq<seq<Value>>, k: nat)
    requires k < |rows|
    ensures var all := AllNormalized(normalize, rows); all[..k + 1] == all[..k] + [Normalized(normalize, rows[k])]
  {
  }

  lemma PrefixUnder<T>(a: seq<T>, b: seq<T>, c: seq<T>)
    requires b <= c
    ensures a + b <= a + c
  {
  }

  lemma PrefixTrans<T>(a: seq<T>, b: seq<T>, c: seq<T>)
    requires a <= b && b <= c
    ensures a <= c
  {
    assert forall i :: 0 <= i < |a| ==> a[i] == b[i] == c[i];
  }
}
