/**
  The scrubber that blanks literals, quoted identifiers and comments before a query is
  searched for a SETTINGS clause, against a declarative lexer.

  A string is a sequence of bytes, one char each.
 */
module Scrubber {
  import opened Common

  predicate IsQuote(c: char) { c == '\'' || c == '\"' || c == '`' }

  predicate StartsWith(s: string, c: char) { s != "" && s[0] == c }

  // ---------------------------------------------------------------------------
  // Tokens
  // ---------------------------------------------------------------------------

  /** A piece of the inside of a literal. */
  datatype Unit =
    | Escape(c: char) // a backslash and the byte it takes with it, whatever that is
    | Doubled         // the quote, twice
    | Single(c: char)
  {
    function Text(quote: char): string {
      match this
      case Escape(c) => ['\\', c]
      case Doubled => [quote, quote]
      case Single(c) => [c]
    }
  }

  datatype Token =
    | Plain(c: char)
    | Closed(quote: char, body: seq<Unit>)
    | Open(quote: char, body: seq<Unit>, dangling: bool) // runs to the end of input
    | LineComment(rest: string)   // -- and what follows, without the newline
    | BlockComment(rest: string)  // a slash, then rest
    | OpenComment(rest: string)   // runs to the end of input
  {
    function Text(): string {
      match this
      case Plain(c) => [c]
      case Closed(quote, body) => [quote] + UnitsText(body, quote) + [quote]
      case Open(quote, body, dangling) => [quote] + UnitsText(body, quote) + if dangling then ['\\'] else []
      case LineComment(rest) => ['-', '-'] + rest
      case BlockComment(rest) => ['/'] + rest
      case OpenComment(rest) => ['/'] + rest
    }

    /** Only plain bytes survive. */
    function Render(): string {
      if Plain? then [c] else Spaces(|Text()|)
    }
  }

  function UnitsText(body: seq<Unit>, quote: char): string {
    if body == [] then [] else body[0].Text(quote) + UnitsText(body[1..], quote)
  }

  function Text(tokens: seq<Token>): string {
    if tokens == [] then [] else tokens[0].Text() + Text(tokens[1..])
  }

  function Spaces(n: nat): (r: string)
    ensures |r| == n && forall i :: 0 <= i < n ==> r[i] == ' '
  {
    seq(n, _ => ' ')
  }

  function Render(tokens: seq<Token>): string {
    if tokens == [] then [] else tokens[0].Render() + Render(tokens[1..])
  }

  predicate BodyOk(body: seq<Unit>, quote: char) {
    forall i :: 0 <= i < |body| && body[i].Single? ==> body[i].c != quote && body[i].c != '\\'
  }

  /** The bytes that close a block comment stand at `i`. */
  predicate CloserAt(s: string, i: nat) {
    i + 1 < |s| && s[i] == '*' && s[i + 1] == '/'
  }

  /** The comment opener was a slash and the star that `rest` begins with. That same star may
      belong to the closer. */
  ghost predicate ClosesAtEnd(rest: string) {
    && StartsWith(rest, '*') && |rest| >= 2
    && (forall i: nat :: CloserAt(rest, i) <==> i == |rest| - 2)
  }

  /** `token` is a token of a text in which `next` follows it. */
  ghost predicate Ok(token: Token, next: string) {
    match token
    case Plain(c) => !IsQuote(c) && !(c == '-' && StartsWith(next, '-')) && !(c == '/' && StartsWith(next, '*'))
    case Closed(quote, body) => IsQuote(quote) && BodyOk(body, quote) && !StartsWith(next, quote)
    case Open(quote, body, _) => IsQuote(quote) && BodyOk(body, quote) && next == ""
    case LineComment(rest) => '\n' !in rest && (next == "" || next[0] == '\n')
    case BlockComment(rest) => ClosesAtEnd(rest)
    case OpenComment(rest) => StartsWith(rest, '*') && (forall i: nat :: !CloserAt(rest, i)) && next == ""
  }

  ghost predicate WellFormed(tokens: seq<Token>) {
    tokens == [] || (Ok(tokens[0], Text(tokens[1..])) && WellFormed(tokens[1..]))
  }

  /** A plain byte is no quote and opens no comment. */
  ghost predicate PlainByte(text: string, next: string) {
    && |text| == 1 && text[0] != '\'' && text[0] != '\"' && text[0] != '`'
    && !(text[0] == '-' && next != "" && next[0] == '-') && !(text[0] == '/' && next != "" && next[0] == '*')
  }

  /** A literal begins with a quote of the three kinds, holds that quote only doubled or behind a
      backslash, and ends with it before anything else, or runs to the end of the text. */
  ghost predicate QuotedBytes(text: string, body: seq<Unit>, next: string, closed: bool) {
    && text != "" && (text[0] == '\'' || text[0] == '\"' || text[0] == '`')
    && (if closed then |text| >= 2 && text[|text| - 1] == text[0] && (next == "" || next[0] != text[0]) else next == "")
    && forall i :: 0 <= i < |body| ==>
         match body[i]
         case Escape(c) => body[i].Text(text[0]) == ['\\', c]
         case Doubled => body[i].Text(text[0]) == [text[0], text[0]]
         case Single(c) => body[i].Text(text[0]) == [c] && c != text[0] && c != '\\'
  }

  /** A line comment is two dashes and what follows up to a newline. */
  ghost predicate LineBytes(text: string, next: string) {
    |text| >= 2 && text[0] == '-' && text[1] == '-' && '\n' !in text && (next == "" || next[0] == '\n')
  }

  /** A block comment is a slash and a star, up to the first star and slash from its second byte on, or to
      the end of the text. */
  ghost predicate BlockBytes(text: string, next: string, closed: bool) {
    && |text| >= 2 && text[0] == '/' && text[1] == '*'
    && (forall i :: 1 <= i && i + 1 < |text| && text[i] == '*' && text[i + 1] == '/' ==> closed && i == |text| - 2)
    && (if closed then |text| >= 3 && text[|text| - 2] == '*' && text[|text| - 1] == '/' else next == "")
  }

  lemma BlockInBytes(rest: string, next: string, closed: bool)
    requires if closed then ClosesAtEnd(rest)
             else StartsWith(rest, '*') && (forall i: nat :: !CloserAt(rest, i)) && next == ""
    ensures BlockBytes(['/'] + rest, next, closed)
  {
    var text := ['/'] + rest;
    assert forall i :: 0 <= i < |rest| ==> text[i + 1] == rest[i];
    forall i | 1 <= i && i + 1 < |text| && text[i] == '*' && text[i + 1] == '/' ensures closed && i == |text| - 2 {
      assert CloserAt(rest, i - 1);
    }
    if closed {
      assert CloserAt(rest, |rest| - 2);
    }
  }

  lemma QuotedInBytes(token: Token, next: string)
    requires Ok(token, next) && (token.Closed? || token.Open?)
    ensures QuotedBytes(token.Text(), token.body, next, token.Closed?)
  {
    assert token.Text()[0] == token.quote;
    hide UnitsText;
  }

  /** Every token of a text, in bytes. */
  lemma TokensInBytes(token: Token, next: string)
    requires Ok(token, next)
    ensures match token
            case Plain(_) => PlainByte(token.Text(), next)
            case Closed(_, body) => QuotedBytes(token.Text(), body, next, true)
            case Open(_, body, _) => QuotedBytes(token.Text(), body, next, false)
            case LineComment(_) => LineBytes(token.Text(), next)
            case BlockComment(_) => BlockBytes(token.Text(), next, true)
            case OpenComment(_) => BlockBytes(token.Text(), next, false)
  {
    hide QuotedBytes, BlockBytes, UnitsText, ClosesAtEnd;
    match token
    case Closed(_, _) => QuotedInBytes(token, next);
    case Open(_, _, _) => QuotedInBytes(token, next);
    case BlockComment(rest) => BlockInBytes(rest, next, true);
    case OpenComment(rest) => BlockInBytes(rest, next, false);
    case _ =>
  }

  // ---------------------------------------------------------------------------
  // The lexer
  // ---------------------------------------------------------------------------

  datatype Ending = AtQuote | AtBackslash | AtEnd

  datatype Scan = Scan(units: seq<Unit>, ending: Ending) {
    function Width(quote: char): nat {
      |UnitsText(units, quote)| + if ending.AtEnd? then 0 else 1
    }
  }

  function Cons(unit: Unit, scan: Scan): Scan { Scan([unit] + scan.units, scan.ending) }

  /** The unit a literal's inside begins with, if it does not end here. */
  function NextUnit(s: string, quote: char): Option<Unit> {
    if s == "" then None
    else if s[0] == '\\' then if |s| == 1 then None else Some(Escape(s[1]))
    else if s[0] == quote then if StartsWith(s[1..], quote) then Some(Doubled) else None
    else Some(Single(s[0]))
  }

  /** Reads the inside of a literal. */
  function ScanLiteral(s: string, quote: char): Scan
    decreases |s|
  {
    var unit := NextUnit(s, quote);
    if unit.None? then Scan([], if s == "" then AtEnd else if s[0] == quote then AtQuote else AtBackslash)
    else
      NextUnitSpec(s, quote);
      Cons(unit.value, ScanLiteral(s[|unit.value.Text(quote)|..], quote))
  }

  lemma NextUnitSpec(s: string, quote: char)
    requires NextUnit(s, quote).Some?
    ensures var text := NextUnit(s, quote).value.Text(quote); 1 <= |text| <= |s| && s[..|text|] == text
    ensures BodyOk([NextUnit(s, quote).value], quote)
  {
  }

  lemma NextUnitOf(unit: Unit, quote: char, tail: string)
    requires quote != '\\' && BodyOk([unit], quote)
    ensures NextUnit(unit.Text(quote) + tail, quote) == Some(unit)
  {
    assert [unit][0] == unit;
    var s := unit.Text(quote) + tail;
    if unit.Doubled? {
      assert s[1..][0] == quote;
    }
  }

  function Upto(s: string, c: char): (n: nat)
    ensures n <= |s| && c !in s[..n] && (n < |s| ==> s[n] == c)
  {
    if s == "" || s[0] == c then 0 else 1 + Upto(s[1..], c)
  }

  /** Where the first closer stands, or the length of `s`. */
  function Closer(s: string): (n: nat)
    ensures n <= |s| && (n < |s| ==> CloserAt(s, n)) && forall i: nat :: i < n ==> !CloserAt(s, i)
  {
    if s == "" || CloserAt(s, 0) then 0
    else
      assert forall i: nat :: 0 < i ==> (CloserAt(s, i) <==> CloserAt(s[1..], i - 1));
      1 + Closer(s[1..])
  }

  function First(s: string): Token
    requires s != ""
  {
    var c, rest := s[0], s[1..];
    if IsQuote(c) then
      var scan := ScanLiteral(rest, c);
      if scan.ending.AtQuote? then Closed(c, scan.units) else Open(c, scan.units, scan.ending.AtBackslash?)
    else if c == '-' && StartsWith(rest, '-') then LineComment(rest[1..Upto(rest, '\n')])
    else if c == '/' && StartsWith(rest, '*') then
      if Closer(rest) < |rest| then BlockComment(rest[..Closer(rest) + 2]) else OpenComment(rest)
    else Plain(c)
  }

  lemma UnitsCons(unit: Unit, body: seq<Unit>, quote: char)
    ensures UnitsText([unit] + body, quote) == unit.Text(quote) + UnitsText(body, quote)
  {
    TailOfCons(unit, body);
  }

  /** The scan consumed a prefix of the text and stopped for the reason it gives. */
  ghost predicate ReadFrom(s: string, quote: char, scan: Scan) {
    var w := scan.Width(quote);
    && w <= |s| && BodyOk(scan.units, quote)
    && s[..w] == UnitsText(scan.units, quote) + LastOf(scan.ending, quote)
    && (scan.ending.AtQuote? ==> !StartsWith(s[w..], quote))
    && (!scan.ending.AtQuote? ==> w == |s|)
  }

  function LastOf(ending: Ending, quote: char): string {
    match ending
    case AtQuote => [quote]
    case AtBackslash => ['\\']
    case AtEnd => []
  }

  lemma {:induction false} ScanSpec(s: string, quote: char)
    requires quote != '\\'
    ensures ReadFrom(s, quote, ScanLiteral(s, quote))
    decreases |s|
  {
    var unit := NextUnit(s, quote);
    if unit.Some? {
      NextUnitSpec(s, quote);
      var n := |unit.value.Text(quote)|;
      ScanSpec(s[n..], quote);
      var inner := ScanLiteral(s[n..], quote);
      ScanCons(s, unit.value, quote, inner);
    }
  }

  lemma ScanCons(s: string, unit: Unit, quote: char, inner: Scan)
    requires var n := |unit.Text(quote)|; n <= |s| && s[..n] == unit.Text(quote) && BodyOk([unit], quote)
    requires ReadFrom(s[|unit.Text(quote)|..], quote, inner)
    ensures ReadFrom(s, quote, Cons(unit, inner))
  {
    var n, w := |unit.Text(quote)|, inner.Width(quote);
    UnitsCons(unit, inner.units, quote);
    SplitSlices(s, n, w);
    Associative(unit.Text(quote), UnitsText(inner.units, quote), LastOf(inner.ending, quote));
    assert [unit][0] == unit;
  }

  /** `token` is read off the front of `s` and fits what follows it. */
  ghost predicate ReadsOff(s: string, token: Token) {
    var n := |token.Text()|;
    1 <= n <= |s| && s[..n] == token.Text() && Ok(token, s[n..])
  }

  lemma FirstSpec(s: string)
    requires s != ""
    ensures ReadsOff(s, First(s))
  {
    var c, rest := s[0], s[1..];
    ConsTail(s);
    if IsQuote(c) {
      LiteralSpec(c, rest);
    } else if c == '-' && StartsWith(rest, '-') {
      var n := Upto(rest, '\n');
      assert s[..1 + n] == ['-', '-'] + rest[1..n];
    } else if c == '/' && StartsWith(rest, '*') {
      CommentSpec(rest);
    }
  }

  lemma LiteralSpec(quote: char, rest: string)
    requires IsQuote(quote)
    ensures ReadsOff([quote] + rest, First([quote] + rest))
  {
    TailOfCons(quote, rest);
    ScanSpec(rest, quote);
    var s, scan := [quote] + rest, ScanLiteral(rest, quote);
    var w := scan.Width(quote);
    assert s[..1 + w] == [quote] + rest[..w];
    assert s[1 + w..] == rest[w..];
    Associative([quote], UnitsText(scan.units, quote), LastOf(scan.ending, quote));
  }

  lemma CommentSpec(rest: string)
    requires StartsWith(rest, '*')
    ensures ReadsOff(['/'] + rest, First(['/'] + rest))
  {
    TailOfCons('/', rest);
    if Closer(rest) < |rest| {
      BlockSpec(rest);
      var n := Closer(rest) + 2;
      assert (['/'] + rest)[..1 + n] == ['/'] + rest[..n];
    }
  }

  lemma BlockSpec(rest: string)
    requires StartsWith(rest, '*') && Closer(rest) < |rest|
    ensures ClosesAtEnd(rest[..Closer(rest) + 2])
  {
    var n := Closer(rest);
    var cut := rest[..n + 2];
    forall i: nat ensures CloserAt(cut, i) <==> i == |cut| - 2 {
      if i < n {
        assert !CloserAt(rest, i);
      }
    }
  }

  function Lex(s: string): seq<Token>
    decreases |s|
  {
    if s == "" then []
    else
      FirstSpec(s);
      [First(s)] + Lex(s[|First(s).Text()|..])
  }

  /** Every text has a well-formed reading. */
  lemma {:induction false} LexSpec(s: string)
    ensures WellFormed(Lex(s)) && Text(Lex(s)) == s
    decreases |s|
  {
    hide First, Ok, Token.Text, Token.Render;
    if s != "" {
      FirstSpec(s);
      var n := |First(s).Text()|;
      LexSpec(s[n..]);
      TailOfCons(First(s), Lex(s[n..]));
      assert s == s[..n] + s[n..];
    }
  }

  lemma {:induction false} ScanOfUnits(body: seq<Unit>, quote: char, tail: string)
    requires IsQuote(quote) && BodyOk(body, quote) && NextUnit(tail, quote).None?
    ensures ScanLiteral(UnitsText(body, quote) + tail, quote) == Scan(body, ScanLiteral(tail, quote).ending)
  {
    hide NextUnit;
    if body == [] {
      assert UnitsText(body, quote) + tail == tail;
    } else {
      var unit, rest := body[0], body[1..];
      ScanOfUnits(rest, quote, tail);
      ConsTail(body);
      NextUnitOf(unit, quote, UnitsText(rest, quote) + tail);
      var s := UnitsText(body, quote) + tail;
      assert s == unit.Text(quote) + (UnitsText(rest, quote) + tail);
      assert s[|unit.Text(quote)|..] == UnitsText(rest, quote) + tail;
    }
  }

  /** What the lexer reads first is the first token of any well-formed reading. */
  lemma FirstOfText(token: Token, next: string)
    requires Ok(token, next)
    ensures First(token.Text() + next) == token
  {
    hide ScanLiteral, NextUnit, UnitsText, First, BodyOk, ClosesAtEnd;
    match token
    case Plain(c) => FirstOfPlain(c, next);
    case Closed(quote, body) => FirstOfClosed(quote, body, next);
    case Open(quote, body, dangling) => FirstOfOpen(quote, body, dangling);
      assert token.Text() + next == token.Text();
    case LineComment(rest) => FirstOfLine(rest, next);
    case BlockComment(rest) => FirstOfBlock(rest, next);
    case OpenComment(rest) => FirstOfOpenComment(rest);
      assert token.Text() + next == token.Text();
  }

  lemma FirstOfPlain(c: char, next: string)
    requires Ok(Plain(c), next)
    ensures First([c] + next) == Plain(c)
  {
    TailOfCons(c, next);
  }

  lemma FirstOfClosed(quote: char, body: seq<Unit>, next: string)
    requires Ok(Closed(quote, body), next)
    ensures First(Closed(quote, body).Text() + next) == Closed(quote, body)
  {
    var tail := [quote] + next;
    TailOfCons(quote, next);
    ScanOfUnits(body, quote, tail);
    TailOfCons(quote, UnitsText(body, quote) + tail);
    assert Closed(quote, body).Text() + next == [quote] + (UnitsText(body, quote) + tail);
  }

  lemma FirstOfOpen(quote: char, body: seq<Unit>, dangling: bool)
    requires Ok(Open(quote, body, dangling), "")
    ensures First(Open(quote, body, dangling).Text()) == Open(quote, body, dangling)
  {
    var tail := if dangling then ['\\'] else [];
    ScanOfUnits(body, quote, tail);
    TailOfCons(quote, UnitsText(body, quote) + tail);
    assert Open(quote, body, dangling).Text() == [quote] + (UnitsText(body, quote) + tail);
  }

  lemma FirstOfLine(rest: string, next: string)
    requires Ok(LineComment(rest), next)
    ensures First(LineComment(rest).Text() + next) == LineComment(rest)
  {
    var s := LineComment(rest).Text() + next;
    assert s[1..] == ['-'] + rest + next;
    assert s[1..][..1 + |rest|] == ['-'] + rest;
    UptoIs(s[1..], '\n', 1 + |rest|);
    assert s[1..][1..1 + |rest|] == rest;
  }

  lemma FirstOfBlock(rest: string, next: string)
    requires Ok(BlockComment(rest), next)
    ensures First(BlockComment(rest).Text() + next) == BlockComment(rest)
  {
    var s := BlockComment(rest).Text() + next;
    assert s[1..] == rest + next;
    CloserIs(s[1..], rest);
    assert s[1..][..|rest|] == rest;
  }

  lemma FirstOfOpenComment(rest: string)
    requires Ok(OpenComment(rest), "")
    ensures First(OpenComment(rest).Text()) == OpenComment(rest)
  {
    TailOfCons('/', rest);
    assert !CloserAt(rest, Closer(rest));
  }

  lemma UptoIs(s: string, c: char, n: nat)
    requires n <= |s| && c !in s[..n] && (n < |s| ==> s[n] == c)
    ensures Upto(s, c) == n
  {
  }

  lemma CloserIs(s: string, rest: string)
    requires ClosesAtEnd(rest) && |rest| <= |s| && s[..|rest|] == rest
    ensures Closer(s) == |rest| - 2
  {
    var n := |rest| - 2;
    assert CloserAt(rest, n);
    assert s[n] == rest[n] && s[n + 1] == rest[n + 1];
    assert CloserAt(s, n);
    forall m: nat | m < n ensures !CloserAt(s, m) {
      assert CloserAt(rest, m) <==> CloserAt(s, m);
    }
  }

  /** A text has only one well-formed reading, the lexer's. */
  lemma {:induction false} LexOfText(tokens: seq<Token>)
    requires WellFormed(tokens)
    ensures Lex(Text(tokens)) == tokens
  {
    if tokens != [] {
      var t, rest := tokens[0], tokens[1..];
      LexOfText(rest);
      FirstOfText(t, Text(rest));
      var s := Text(tokens);
      assert s[|t.Text()|..] == Text(rest);
      ConsTail(tokens);
    }
  }

  // ---------------------------------------------------------------------------
  // The scrubber
  // ---------------------------------------------------------------------------

  /** Each plain byte of the lexer's reading, and a space for every other byte. */
  function Masked(s: string): string {
    Render(Lex(s))
  }

  lemma MaskedStep(s: string, i: nat)
    requires i < |s|
    ensures i + |First(s[i..]).Text()| <= |s|
    ensures Masked(s[i..]) == First(s[i..]).Render() + Masked(s[i + |First(s[i..]).Text()|..])
  {
    hide First, Ok, Token.Text, Token.Render;
    FirstSpec(s[i..]);
    var t := First(s[i..]);
    assert s[i..][|t.Text()|..] == s[i + |t.Text()|..];
    TailOfCons(t, Lex(s[i + |t.Text()|..]));
  }

  /** What is masked so far, extended by the next token, is what is masked so far. */
  lemma Advance(s: string, i: nat, b: string)
    requires i < |s| && b + Masked(s[i..]) == Masked(s)
    ensures i + |First(s[i..]).Text()| <= |s|
    ensures b + First(s[i..]).Render() + Masked(s[i + |First(s[i..]).Text()|..]) == Masked(s)
  {
    hide Masked, First, Token.Text, Token.Render;
    MaskedStep(s, i);
    var x, y := First(s[i..]).Render(), Masked(s[i + |First(s[i..]).Text()|..]);
    assert (b + x) + y == b + (x + y);
  }

  lemma RenderOf(t: Token)
    ensures if t.Plain? then t.Render() == [t.c] && |t.Text()| == 1 else t.Render() == Spaces(|t.Text()|)
  {
  }

  /** How many bytes of the inside of a literal, its closer included, are left in `s`. */
  function LiteralWidth(s: string, quote: char): nat {
    ScanLiteral(s, quote).Width(quote)
  }

  lemma LiteralStep(s: string, i: nat, quote: char)
    requires i < |s| && IsQuote(quote)
    ensures s[i] == '\\' && i + 1 < |s| ==> LiteralWidth(s[i..], quote) == 2 + LiteralWidth(s[i + 2..], quote)
    ensures s[i] == quote && i + 1 < |s| && s[i + 1] == quote ==>
              LiteralWidth(s[i..], quote) == 2 + LiteralWidth(s[i + 2..], quote)
    ensures s[i] == quote && !(i + 1 < |s| && s[i + 1] == quote) ==> LiteralWidth(s[i..], quote) == 1
    ensures s[i] != quote && !(s[i] == '\\' && i + 1 < |s|) ==>
              LiteralWidth(s[i..], quote) == 1 + LiteralWidth(s[i + 1..], quote)
  {
    var unit := NextUnit(s[i..], quote);
    if unit.Some? {
      WidthPast(s, i, unit.value, quote);
    }
  }

  lemma WidthPast(s: string, i: nat, unit: Unit, quote: char)
    requires i < |s| && NextUnit(s[i..], quote) == Some(unit)
    ensures i + |unit.Text(quote)| <= |s|
    ensures LiteralWidth(s[i..], quote) == |unit.Text(quote)| + LiteralWidth(s[i + |unit.Text(quote)|..], quote)
  {
    NextUnitSpec(s[i..], quote);
    var n := |unit.Text(quote)|;
    assert s[i..][n..] == s[i + n..];
    UnitsCons(unit, ScanLiteral(s[i + n..], quote).units, quote);
  }

  lemma FirstLiteral(s: string, i: nat)
    requires i < |s| && IsQuote(s[i])
    ensures !First(s[i..]).Plain?
    ensures |First(s[i..]).Text()| == 1 + LiteralWidth(s[i + 1..], s[i])
  {
    assert s[i..][1..] == s[i + 1..];
  }

  lemma FirstLine(s: string, i: nat)
    requires i + 1 < |s| && s[i] == '-' && s[i + 1] == '-'
    ensures First(s[i..]).LineComment?
    ensures var n := |First(s[i..]).Text()|;
            2 <= n && i + n <= |s| && '\n' !in s[i..i + n] && (i + n < |s| ==> s[i + n] == '\n')
  {
    var rest := s[i..][1..];
    assert rest == s[i + 1..];
    var n := 1 + Upto(rest, '\n');
    assert s[i..i + n] == ['-'] + rest[..n - 1];
    assert n < |s[i..]| ==> rest[n - 1] == s[i + n];
    assert rest[0] != '\n';
  }

  lemma FirstBlock(s: string, i: nat)
    requires i + 1 < |s| && s[i] == '/' && s[i + 1] == '*'
    ensures !First(s[i..]).Plain?
    ensures var n := |First(s[i..]).Text()|;
            && 2 <= n && i + n <= |s|
            && (forall k: nat :: i <= k && k + 2 < i + n ==> !CloserAt(s, k))
            && (CloserAt(s, i + n - 2) || (i + n == |s| && forall k: nat :: i <= k ==> !CloserAt(s, k)))
  {
    var rest := s[i..][1..];
    assert rest == s[i + 1..];
    forall k: nat | i < k ensures CloserAt(s, k) <==> CloserAt(rest, k - i - 1) {
    }
    var m := Closer(rest);
    if m == |rest| {
      assert forall k: nat :: !CloserAt(rest, k);
    }
  }

  lemma FirstPlain(s: string, i: nat)
    requires i < |s| && !IsQuote(s[i])
    requires !(s[i] == '-' && i + 1 < |s| && s[i + 1] == '-')
    requires !(s[i] == '/' && i + 1 < |s| && s[i + 1] == '*')
    ensures First(s[i..]) == Plain(s[i])
  {
  }

  /** From the byte after a literal's opener to the byte after its closer. */
  method MaskLiteral(sqlText: string, start: nat, b0: string) returns (b: string, i: nat)
    requires start < |sqlText| && IsQuote(sqlText[start])
    ensures start < i == start + |First(sqlText[start..]).Text()| && b == b0 + First(sqlText[start..]).Render()
  {
    hide First, LiteralWidth, Token.Text, Token.Render;
    var quote := sqlText[start];
    FirstLiteral(sqlText, start);
    RenderOf(First(sqlText[start..]));
    ghost var end := start + |First(sqlText[start..]).Text()|;
    b := b0 + " ";
    i := start + 1;
    while i < |sqlText|
      invariant start < i <= |sqlText| && b == b0 + Spaces(i - start)
      invariant i + LiteralWidth(sqlText[i..], quote) == end
    {
      LiteralStep(sqlText, i, quote);
      if sqlText[i] == '\\' && i + 1 < |sqlText| {
        b := b + "  ";
        i := i + 2;
        continue;
      }
      if sqlText[i] == quote {
        if i + 1 < |sqlText| && sqlText[i + 1] == quote {
          b := b + "  ";
          i := i + 2;
          continue;
        }
        b := b + " ";
        i := i + 1;
        return;
      }
      b := b + " ";
      i := i + 1;
    }
    assert sqlText[i..] == "";
    LiteralOver(quote);
  }

  lemma LiteralOver(quote: char)
    ensures LiteralWidth("", quote) == 0
  {
  }

  method MaskLineComment(sqlText: string, start: nat, b0: string) returns (b: string, i: nat)
    requires start + 1 < |sqlText| && sqlText[start] == '-' && sqlText[start + 1] == '-'
    ensures start < i == start + |First(sqlText[start..]).Text()| && b == b0 + First(sqlText[start..]).Render()
  {
    hide First, Token.Text, Token.Render;
    FirstLine(sqlText, start);
    RenderOf(First(sqlText[start..]));
    ghost var end := start + |First(sqlText[start..]).Text()|;
    b, i := b0, start;
    while i < |sqlText| && sqlText[i] != '\n'
      invariant start <= i <= end && b == b0 + Spaces(i - start)
    {
      b := b + " ";
      i := i + 1;
    }
  }

  method MaskBlockComment(sqlText: string, start: nat, b0: string) returns (b: string, i: nat)
    requires start + 1 < |sqlText| && sqlText[start] == '/' && sqlText[start + 1] == '*'
    ensures start < i == start + |First(sqlText[start..]).Text()| && b == b0 + First(sqlText[start..]).Render()
  {
    hide First, Token.Text, Token.Render;
    FirstBlock(sqlText, start);
    RenderOf(First(sqlText[start..]));
    ghost var end := start + |First(sqlText[start..]).Text()|;
    b, i := b0, start;
    while i < |sqlText|
      invariant start <= i <= end && b == b0 + Spaces(i - start)
      invariant CloserAt(sqlText, end - 2) ==> i <= end - 2
    {
      assert CloserAt(sqlText, i) ==> i == end - 2;
      assert i == end - 2 ==> CloserAt(sqlText, i) || end == |sqlText|;
      if sqlText[i] == '*' && i + 1 < |sqlText| && sqlText[i + 1] == '/' {
        b := b + "  ";
        i := i + 2;
        return;
      }
      b := b + " ";
      i := i + 1;
    }
  }

  method MaskLiteralsAndComments(sqlText: string) returns (b: string)
    ensures b == Masked(sqlText)
  {
    hide Masked, First, Token.Text, Token.Render;
    MaskedEmpty();
    assert sqlText[0..] == sqlText;
    b := "";
    var i := 0;
    while i < |sqlText|
      invariant 0 <= i <= |sqlText|
      invariant b + Masked(sqlText[i..]) == Masked(sqlText)
    {
      var c := sqlText[i];
      Advance(sqlText, i, b);
      if IsQuote(c) {
        b, i := MaskLiteral(sqlText, i, b);
      } else if c == '-' && i + 1 < |sqlText| && sqlText[i + 1] == '-' {
        b, i := MaskLineComment(sqlText, i, b);
      } else if c == '/' && i + 1 < |sqlText| && sqlText[i + 1] == '*' {
        b, i := MaskBlockComment(sqlText, i, b);
      } else {
        FirstPlain(sqlText, i);
        RenderOf(Plain(c));
        b := b + [c];
        i := i + 1;
      }
    }
    assert sqlText[i..] == "";
  }

  lemma MaskedEmpty()
    ensures Masked("") == ""
  {
  }

  // ---------------------------------------------------------------------------
  // What scrubbing does
  // ---------------------------------------------------------------------------

  lemma {:induction false} SplitTokens(a: seq<Token>, b: seq<Token>)
    ensures Text(a + b) == Text(a) + Text(b) && Render(a + b) == Render(a) + Render(b)
  {
    if a == [] {
      assert a + b == b;
    } else {
      TailOfAppend(a, b);
      SplitTokens(a[1..], b);
    }
  }

  lemma {:induction false} SameLength(tokens: seq<Token>)
    ensures |Render(tokens)| == |Text(tokens)|
  {
    if tokens != [] {
      SameLength(tokens[1..]);
    }
  }

  /** For any reading of a text as tokens, the bytes of a token stay where they are: kept if
      the token is plain, spaces if it is a literal or a comment. */
  lemma MaskedKeepsPositions(pre: seq<Token>, t: Token, post: seq<Token>)
    requires WellFormed(pre + [t] + post)
    ensures var s, i, n := Text(pre) + t.Text() + Text(post), |Text(pre)|, |t.Text()|;
            && |Masked(s)| == |s|
            && (if t.Plain? then Masked(s)[i] == s[i] else Masked(s)[i..i + n] == Spaces(n))
  {
    LexOfText(pre + [t] + post);
    SplitTokens(pre + [t], post);
    SplitTokens(pre, [t]);
    assert Text([t]) == t.Text() + Text([]) == t.Text();
    assert Render([t]) == t.Render() + Render([]) == t.Render();
    SameLength(pre);
    SameLength(pre + [t] + post);
  }

  predicate MarkAt(s: string, i: nat)
    requires i < |s|
  {
    || s[i] == '\'' || s[i] == '\"' || s[i] == '`'
    || (s[i] == '-' && StartsWith(s[i + 1..], '-'))
    || (s[i] == '/' && StartsWith(s[i + 1..], '*'))
  }

  ghost predicate Clean(s: string) {
    forall i :: 0 <= i < |s| ==> !MarkAt(s, i)
  }

  lemma CleanPrepend(a: string, b: string)
    requires Clean(b) && forall i :: 0 <= i < |a| ==> a[i] == ' '
    ensures Clean(a + b)
  {
    forall i | 0 <= i < |a + b| ensures !MarkAt(a + b, i) {
      if i >= |a| {
        assert (a + b)[i + 1..] == b[i - |a| + 1..];
        assert !MarkAt(b, i - |a|);
      }
    }
  }

  lemma CleanCons(c: char, b: string)
    requires Clean(b) && !MarkAt([c] + b, 0)
    ensures Clean([c] + b)
  {
    forall i | 0 <= i < |[c] + b| ensures !MarkAt([c] + b, i) {
      if i > 0 {
        assert ([c] + b)[i + 1..] == b[i..];
        assert !MarkAt(b, i - 1);
      }
    }
  }

  /** The first byte that survives is the first byte there was, or a space. */
  lemma RenderHead(tokens: seq<Token>)
    ensures Render(tokens) == "" <==> Text(tokens) == ""
    ensures Render(tokens) != "" ==> Render(tokens)[0] == ' ' || Render(tokens)[0] == Text(tokens)[0]
  {
    SameLength(tokens);
  }

  lemma {:induction false} RenderClean(tokens: seq<Token>)
    requires WellFormed(tokens)
    ensures Clean(Render(tokens))
  {
    if tokens != [] {
      var t, rest := tokens[0], tokens[1..];
      RenderClean(rest);
      if t.Plain? {
        RenderHead(rest);
        TailOfCons(t.c, Render(rest));
        CleanCons(t.c, Render(rest));
      } else {
        CleanPrepend(t.Render(), Render(rest));
      }
    }
  }

  /** No quote and no comment opener survives. */
  lemma MaskedIsClean(s: string)
    ensures Clean(Masked(s)) && |Masked(s)| == |s|
  {
    LexSpec(s);
    RenderClean(Lex(s));
    SameLength(Lex(s));
  }

  lemma {:induction false} CleanIsFixed(s: string)
    requires Clean(s)
    ensures Masked(s) == s
  {
    if s != "" {
      var rest := s[1..];
      forall i | 0 <= i < |rest| ensures !MarkAt(rest, i) {
        assert s[i + 1 + 1..] == rest[i + 1..];
        assert !MarkAt(s, i + 1);
      }
      CleanIsFixed(rest);
      assert !MarkAt(s, 0);
      assert First(s) == Plain(s[0]);
      TailOfCons(Plain(s[0]), Lex(rest));
    }
  }

  /** Scrubbing twice is scrubbing once. */
  lemma MaskedTwice(s: string)
    ensures Masked(Masked(s)) == Masked(s)
  {
    MaskedIsClean(s);
    CleanIsFixed(Masked(s));
  }

  // ---------------------------------------------------------------------------
  // The SETTINGS keyword
  // ---------------------------------------------------------------------------

  /** An ASCII word character: what \b borders on. */
  predicate IsWord(c: char) {
    'a' <= c <= 'z' || 'A' <= c <= 'Z' || '0' <= c <= '9' || c == '_'
  }

  /** An ASCII word boundary. */
  predicate Boundary(s: string, i: nat)
    requires i <= |s|
  {
    (0 < i && IsWord(s[i - 1])) != (i < |s| && IsWord(s[i]))
  }

  function Lower(c: char): char {
    if 'A' <= c <= 'Z' then c - 'A' + 'a' else c
  }

  /** U+017F, which case-folds to s, in UTF-8. */
  const LONG_S := ['\U{C5}', '\U{BF}']

  /** `w` spells `word`, which is lower-case, in any case. */
  predicate Spells(w: string, word: string)
    decreases |word|
  {
    if word == "" then w == ""
    else
      || (w != "" && Lower(w[0]) == word[0] && Spells(w[1..], word[1..]))
      || (word[0] == 's' && |w| >= 2 && w[..2] == LONG_S && Spells(w[2..], word[1..]))
  }

  const KEYWORD := "settings"

  predicate KeywordAt(s: string, i: nat, j: nat) {
    i <= j <= |s| && Boundary(s, i) && Boundary(s, j) && Spells(s[i..j], KEYWORD)
  }

  /** The expression (?i)\bsettings\b matches somewhere. */
  predicate HasKeyword(s: string) {
    exists i: nat, j: nat | i <= j <= |s| :: KeywordAt(s, i, j)
  }

  predicate ContainsSettingsClause(sqlText: string) {
    HasKeyword(Masked(sqlText))
  }

  // What the expression matches, without its own words.

  /** Letter by letter the lower or the upper case, or for an s the bytes of U+017F. */
  ghost predicate Variants(parts: seq<string>, lower: string, upper: string) {
    && |parts| == |lower| == |upper|
    && forall k :: 0 <= k < |lower| ==>
         || parts[k] == [lower[k]] || parts[k] == [upper[k]]
         || (lower[k] == 's' && parts[k] == ['\U{C5}', '\U{BF}'])
  }

  function Glue(parts: seq<string>): string {
    if parts == [] then "" else parts[0] + Glue(parts[1..])
  }

  ghost predicate CasesOf(lower: string, upper: string) {
    && |lower| == |upper|
    && forall k :: 0 <= k < |lower| ==> 'a' <= lower[k] <= 'z' && upper[k] == lower[k] - 'a' + 'A'
  }

  lemma {:induction false} GluedSpells(parts: seq<string>, lower: string, upper: string)
    requires CasesOf(lower, upper) && Variants(parts, lower, upper)
    ensures Spells(Glue(parts), lower)
    decreases |lower|
  {
    if lower != "" {
      GluedSpells(parts[1..], lower[1..], upper[1..]);
      var w := Glue(parts);
      if |parts[0]| == 1 {
        assert w[1..] == Glue(parts[1..]) && w[0] == parts[0][0];
      } else {
        assert w[2..] == Glue(parts[1..]) && w[..2] == parts[0];
      }
    }
  }

  lemma {:induction false} SpelledGlues(w: string, lower: string, upper: string) returns (parts: seq<string>)
    requires CasesOf(lower, upper) && Spells(w, lower)
    ensures Variants(parts, lower, upper) && Glue(parts) == w
    decreases |lower|
  {
    if lower == "" {
      parts := [];
    } else {
      var n := if w != "" && Lower(w[0]) == lower[0] && Spells(w[1..], lower[1..]) then 1 else 2;
      var rest := SpelledGlues(w[n..], lower[1..], upper[1..]);
      parts := [w[..n]] + rest;
      assert parts[1..] == rest && w == w[..n] + w[n..];
      assert n == 1 ==> w[..1] == [w[0]];
      assert forall k :: 0 < k < |lower| ==> lower[k] == lower[1..][k - 1] && upper[k] == upper[1..][k - 1] && parts[k] == rest[k - 1];
    }
  }

  predicate Wordy(c: char) {
    '0' <= c <= '9' || 'A' <= c <= 'Z' || c == '_' || 'a' <= c <= 'z'
  }

  /** At `i` a run of letters, digits and underscores begins or ends. */
  ghost predicate Edge(s: string, i: int) {
    && 0 <= i <= |s|
    && ((i > 0 && Wordy(s[i - 1])) != (i < |s| && Wordy(s[i])))
  }

  /** From `i` on stands the keyword, in some mix of cases, as a word of its own. */
  ghost predicate WordAt(s: string, i: int, parts: seq<string>) {
    && Variants(parts, "settings", "SETTINGS")
    && Edge(s, i) && Edge(s, i + |Glue(parts)|)
    && s[i..i + |Glue(parts)|] == Glue(parts)
  }

  lemma KeywordIsWord(s: string, i: nat, j: nat) returns (parts: seq<string>)
    requires KeywordAt(s, i, j)
    ensures WordAt(s, i, parts)
  {
    hide Spells, Variants;
    parts := SpelledGlues(s[i..j], "settings", "SETTINGS");
  }

  lemma WordIsKeyword(s: string, i: nat, parts: seq<string>)
    requires WordAt(s, i, parts)
    ensures KeywordAt(s, i, i + |Glue(parts)|)
  {
    hide Spells, Variants;
    GluedSpells(parts, "settings", "SETTINGS");
  }

  /** A query is refused exactly when its text, literals and comments blanked, has the keyword as a word
      of its own, in any mix of cases. */
  lemma RefusedIff(sqlText: string)
    ensures ContainsSettingsClause(sqlText) <==> exists i, parts :: WordAt(Masked(sqlText), i, parts)
  {
    hide Masked, KeywordAt;
    var s := Masked(sqlText);
    if ContainsSettingsClause(sqlText) {
      var i: nat, j: nat :| i <= j <= |s| && KeywordAt(s, i, j);
      var parts := KeywordIsWord(s, i, j);
    }
    if i, parts :| WordAt(s, i, parts) {
      WordIsKeyword(s, i, parts);
      hide Variants;
    }
  }

  /** In particular eight bytes outside literals and comments that spell it, upper case included. */
  lemma SettingsIsRefused(sqlText: string, i: nat)
    requires var s := Masked(sqlText);
             && i + 8 <= |s|
             && (forall k :: 0 <= k < 8 ==> s[i + k] == "settings"[k] || s[i + k] == "SETTINGS"[k])
             && (i == 0 || !Wordy(s[i - 1])) && (i + 8 == |s| || !Wordy(s[i + 8]))
    ensures ContainsSettingsClause(sqlText)
  {
    hide Masked, ContainsSettingsClause;
    var parts := EightLetters(Masked(sqlText), i);
    RefusedIff(sqlText);
  }

  lemma EightLetters(s: string, i: nat) returns (parts: seq<string>)
    requires i + 8 <= |s|
    requires forall k :: 0 <= k < 8 ==> s[i + k] == "settings"[k] || s[i + k] == "SETTINGS"[k]
    requires (i == 0 || !Wordy(s[i - 1])) && (i + 8 == |s| || !Wordy(s[i + 8]))
    ensures WordAt(s, i, parts)
  {
    var w := s[i..i + 8];
    parts := seq(8, k requires 0 <= k < 8 => [w[k]]);
    GlueLetters(w, parts);
    assert "settings"[0] == "settings"[7] == 's' && "SETTINGS"[0] == "SETTINGS"[7] == 'S';
  }

  lemma {:induction false} GlueLetters(w: string, parts: seq<string>)
    requires |parts| == |w| && forall k :: 0 <= k < |w| ==> parts[k] == [w[k]]
    ensures Glue(parts) == w
  {
    if w != "" {
      GlueLetters(w[1..], parts[1..]);
    }
  }

  lemma {:induction false} SpellsNoSpace(w: string, word: string)
    requires Spells(w, word) && ' ' !in word
    ensures ' ' !in w
    decreases |word|
  {
    if word != "" {
      var n := if w != "" && Lower(w[0]) == word[0] && Spells(w[1..], word[1..]) then 1 else 2;
      SpellsNoSpace(w[n..], word[1..]);
      assert w == w[..n] + w[n..];
    }
  }

  lemma SliceBehind(a: string, b: string, i: nat, j: nat)
    requires i <= j <= |b|
    ensures (a + b)[|a| + i..|a| + j] == b[i..j]
  {
  }

  /** The keyword on one side of a space is still there when the other side is added. */
  lemma KeywordStays(a: string, b: string, i: nat, j: nat)
    ensures KeywordAt(a, i, j) ==> KeywordAt(a + [' '] + b, i, j)
    ensures KeywordAt(b, i, j) ==> KeywordAt(a + [' '] + b, |a| + 1 + i, |a| + 1 + j)
  {
    hide Spells;
    var s, n := a + [' '] + b, |a| + 1;
    if KeywordAt(a, i, j) {
      assert s[i..j] == a[i..j];
    }
    if KeywordAt(b, i, j) {
      SliceBehind(a + [' '], b, i, j);
    }
  }

  /** A match never spans a space. */
  lemma KeywordOnOneSide(a: string, b: string, i: nat, j: nat)
    requires KeywordAt(a + [' '] + b, i, j)
    ensures KeywordAt(a, i, j) || (i > |a| && KeywordAt(b, i - |a| - 1, j - |a| - 1))
  {
    hide Spells;
    var s, n := a + [' '] + b, |a| + 1;
    MatchHasNoSpace(s, i, j);
    assert s[|a|] == ' ';
    if j <= |a| {
      assert s[i..j] == a[i..j];
    } else {
      assert s[i..j] == b[i - n..j - n];
    }
  }

  lemma MatchHasNoSpace(s: string, i: nat, j: nat)
    requires KeywordAt(s, i, j)
    ensures forall k :: i <= k < j ==> s[k] != ' '
  {
    SpellsNoSpace(s[i..j], KEYWORD);
    forall k | i <= k < j ensures s[k] != ' ' {
      assert s[k] == s[i..j][k - i];
    }
  }

  /** A space separates: the keyword stands on one side of it or on the other. */
  lemma SpaceSeparates(a: string, b: string)
    ensures HasKeyword(a + [' '] + b) <==> HasKeyword(a) || HasKeyword(b)
  {
    hide KeywordAt;
    var s := a + [' '] + b;
    if HasKeyword(s) {
      var i: nat, j: nat :| i <= j <= |s| && KeywordAt(s, i, j);
      KeywordOnOneSide(a, b, i, j);
      KeywordInRange(a, i, j);
      if i > |a| {
        KeywordInRange(b, i - |a| - 1, j - |a| - 1);
      }
    }
    if HasKeyword(a) {
      var i: nat, j: nat :| i <= j <= |a| && KeywordAt(a, i, j);
      KeywordStays(a, b, i, j);
    }
    if HasKeyword(b) {
      var i: nat, j: nat :| i <= j <= |b| && KeywordAt(b, i, j);
      KeywordStays(a, b, i, j);
    }
  }

  lemma KeywordInRange(s: string, i: nat, j: nat)
    ensures KeywordAt(s, i, j) ==> i <= j <= |s|
  {
  }

  lemma {:induction false} SpacesSeparate(a: string, n: nat, b: string)
    requires n >= 1
    ensures HasKeyword(a + Spaces(n) + b) <==> HasKeyword(a) || HasKeyword(b)
    decreases n
  {
    hide HasKeyword;
    if n == 1 {
      assert Spaces(1) == [' '];
      SpaceSeparates(a, b);
    } else {
      var rest := [' '] + b;
      SpacesSeparate(a, n - 1, rest);
      assert a + Spaces(n) + b == a + Spaces(n - 1) + rest;
      SpaceSeparates([], b);
      assert [] + [' '] + b == rest;
      NoKeywordInNothing();
    }
  }

  lemma NoKeywordInNothing()
    ensures !HasKeyword([])
  {
  }

  /** The verdict depends on no literal and no comment: whatever stands there, it is the verdict
      on what precedes it or on what follows it. */
  lemma VerdictAround(pre: seq<Token>, t: Token, post: seq<Token>)
    requires WellFormed(pre + [t] + post) && !t.Plain?
    ensures ContainsSettingsClause(Text(pre) + t.Text() + Text(post))
       <==> HasKeyword(Render(pre)) || HasKeyword(Render(post))
  {
    LexOfText(pre + [t] + post);
    SplitTokens(pre + [t], post);
    SplitTokens(pre, [t]);
    assert Text([t]) == t.Text() + Text([]) == t.Text();
    assert Render([t]) == t.Render() + Render([]) == t.Render();
    SpacesSeparate(Render(pre), |t.Text()|, Render(post));
  }

  lemma {:induction false} Replaceable(pre: seq<Token>, t: Token, u: Token, post: seq<Token>)
    requires WellFormed(pre + [t] + post)
    requires Ok(u, Text(post)) && u.Text()[0] == t.Text()[0] && !t.Open? && !t.OpenComment?
    ensures WellFormed(pre + [u] + post)
  {
    hide Ok, Text, Token.Text;
    if pre == [] {
      assert pre + [t] + post == [t] + post && pre + [u] + post == [u] + post;
      TailOfCons(t, post);
      TailOfCons(u, post);
    } else {
      var a, b := pre[1..] + [t] + post, pre[1..] + [u] + post;
      ConsTail(pre);
      assert pre + [t] + post == [pre[0]] + a && pre + [u] + post == [pre[0]] + b;
      TailOfCons(pre[0], a);
      TailOfCons(pre[0], b);
      Replaceable(pre[1..], t, u, post);
      HeadsAgree(pre[1..], t, u, post);
      SameHeadFits(pre[0], Text(a), Text(b));
    }
  }

  /** Whether a token fits depends on the first byte of what follows. */
  lemma SameHeadFits(token: Token, x: string, y: string)
    requires x != "" && y != "" && x[0] == y[0]
    ensures Ok(token, x) ==> Ok(token, y)
  {
  }

  /** What follows a token begins alike before and after the replacement. */
  lemma HeadsAgree(pre: seq<Token>, t: Token, u: Token, post: seq<Token>)
    requires u.Text()[0] == t.Text()[0]
    ensures var x, y := Text(pre + [t] + post), Text(pre + [u] + post);
            x != "" && y != "" && x[0] == y[0]
  {
    SplitTokens(pre + [t], post);
    SplitTokens(pre, [t]);
    SplitTokens(pre + [u], post);
    SplitTokens(pre, [u]);
    assert Text([t]) == t.Text() + Text([]) == t.Text();
    assert Text([u]) == u.Text() + Text([]) == u.Text();
  }

  /** Replacing the body of a literal or comment by any other well-formed body leaves the
      verdict unchanged. */
  lemma VerdictIgnoresBodies(pre: seq<Token>, t: Token, u: Token, post: seq<Token>)
    requires WellFormed(pre + [t] + post) && !t.Plain? && !t.Open? && !t.OpenComment?
    requires Ok(u, Text(post)) && !u.Plain? && u.Text()[0] == t.Text()[0]
    ensures ContainsSettingsClause(Text(pre) + t.Text() + Text(post))
         == ContainsSettingsClause(Text(pre) + u.Text() + Text(post))
  {
    Replaceable(pre, t, u, post);
    VerdictAround(pre, t, post);
    VerdictAround(pre, u, post);
  }
}

