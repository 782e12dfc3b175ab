/**
  Token requests, consent, expiry and the maintenance sweep as a step machine: each statement
  is one step, any number of requests interleave, and any statement may fail.
 */
module OAuthRaces {
  import opened Common
  import opened OAuthCodes

  /** What a request holds after its lookup: the row it read, and when. */
  datatype Claim = Claim(id: nat, row: CodeRow, at: Instant)

  datatype Pc =
    | Received
    | Found(claim: Claim)    // the lookup returned a row
    | Checked(claim: Claim)  // client, redirect and verifier match
    | Consumed(claim: Claim) // the update touched the row
    | Answered(claim: Claim) // the access token was stored
    | Burnt(claim: Claim)    // it could not be
    | Refused
  {
    predicate Won() { Consumed? || Answered? || Burnt? }
    predicate Claims() { Found? || Checked? || Won() }
  }

  datatype Request = Request(params: ConsumeParams, pc: Pc)

  datatype Issued = Issued(request: nat, grant: Grant)

  datatype State = State(
    codes: Codes,
    requests: seq<Request>,
    tokens: seq<Issued>,
    now: Instant,
    minted: seq<CodeRow>,    // every row ever inserted, as inserted, by id
    plaintexts: seq<string>) // and the code it was inserted for

  function Initial(now: Instant): State { State(map[], [], [], now, [], []) }

  datatype Step =
    | Mint(p: IssueParams, plaintext: string, ttl: nat)
    | Arrive(params: ConsumeParams)
    | LookUp(r: nat, id: nat)
    | Miss(r: nat)             // no row, a missing parameter, or a failed query
    | Check(r: nat)
    | Mark(r: nat, ok: bool)
    | Grants(r: nat, ok: bool)
    | Sweep
    | Elapse(nanos: nat)

  /** A generated code is one never generated before. */
  ghost predicate Fresh(s: State, plaintext: string) {
    plaintext !in s.plaintexts
  }

  function Minted(s: State, row: CodeRow, plaintext: string): State {
    s.(codes := s.codes[|s.minted| := row], minted := s.minted + [row], plaintexts := s.plaintexts + [plaintext])
  }

  ghost predicate Enabled(crypto: Crypto, s: State, step: Step) {
    match step
    case Mint(p, plaintext, _) =>
      IssueAllowed(p) && Fresh(s, plaintext)
    case Arrive(_) => true
    case LookUp(r, id) =>
      && r < |s.requests| && s.requests[r].pc.Received?
      && s.requests[r].params.code != "" && s.requests[r].params.verifier != ""
      && id in s.codes && Active(s.codes[id], crypto.hash(s.requests[r].params.code), s.now)
    case Miss(r) => r < |s.requests| && s.requests[r].pc.Received?
    case Check(r) => r < |s.requests| && s.requests[r].pc.Found?
    case Mark(r, _) => r < |s.requests| && s.requests[r].pc.Checked?
    case Grants(r, _) => r < |s.requests| && s.requests[r].pc.Consumed?
    case Sweep => true
    case Elapse(_) => true
  }

  function At(s: State, r: nat, pc: Pc): State
    requires r < |s.requests|
  {
    s.(requests := s.requests[r := Request(s.requests[r].params, pc)])
  }

  ghost function Apply(crypto: Crypto, s: State, step: Step): State
    requires Enabled(crypto, s, step)
  {
    match step
    case Mint(p, plaintext, ttl) =>
      Minted(s, NewRow(crypto, plaintext, p, s.now + ttl), plaintext)
    case Arrive(params) => s.(requests := s.requests + [Request(params, Received)])
    case LookUp(r, id) => At(s, r, Found(Claim(id, s.codes[id], s.now)))
    case Miss(r) => At(s, r, Refused)
    case Check(r) =>
      var claim := s.requests[r].pc.claim;
      At(s, r, if Matches(crypto, claim.row, s.requests[r].params) then Checked(claim) else Refused)
    case Mark(r, ok) =>
      var claim := s.requests[r].pc.claim;
      if ok && Marks(s.codes, claim.id)
      then At(s, r, Consumed(claim)).(codes := MarkedUsed(s.codes, claim.id, s.now))
      else At(s, r, Refused)
    case Grants(r, ok) =>
      var claim := s.requests[r].pc.claim;
      if ok then At(s, r, Answered(claim)).(tokens := s.tokens + [Issued(r, WithScope(claim.row.grant))])
      else At(s, r, Burnt(claim))
    case Sweep => s.(codes := Swept(s.codes, s.now))
    case Elapse(nanos) => s.(now := s.now + nanos)
  }

  ghost predicate Runs(crypto: Crypto, s: State, steps: seq<Step>, t: State)
    decreases |steps|
  {
    if steps == [] then s == t
    else Enabled(crypto, s, steps[0]) && Runs(crypto, Apply(crypto, s, steps[0]), steps[1..], t)
  }

  ghost predicate Reachable(crypto: Crypto, s: State) {
    exists now, steps :: Runs(crypto, Initial(now), steps, s)
  }

  // ---------------------------------------------------------------------------
  // The invariant
  // ---------------------------------------------------------------------------

  ghost predicate RowsShape(crypto: Crypto, s: State) {
    && |s.plaintexts| == |s.minted|
    && (forall id :: 0 <= id < |s.minted| ==> MintShape(crypto, s.minted[id], s.plaintexts[id]))
    && (forall id :: id in s.codes ==> id < |s.minted| && s.codes[id].(usedAt := None) == s.minted[id])
    && (forall a, b :: 0 <= a < b < |s.plaintexts| ==> s.plaintexts[a] != s.plaintexts[b])
  }

  ghost predicate MintShape(crypto: Crypto, row: CodeRow, plaintext: string) {
    row.hash == crypto.hash(plaintext) && row.usedAt.None? && row.grant.scope != ""
  }

  ghost predicate ClaimShape(crypto: Crypto, s: State, r: Request) {
    r.pc.Claims() ==>
      var c := r.pc.claim;
      && c.id < |s.minted| && c.row == s.minted[c.id]
      && Active(c.row, crypto.hash(r.params.code), c.at)
      && (!r.pc.Found? ==> Matches(crypto, c.row, r.params))
      && (r.pc.Won() && c.id in s.codes ==> s.codes[c.id].usedAt.Some?)
  }

  ghost predicate ClaimsShape(crypto: Crypto, s: State) {
    forall r :: 0 <= r < |s.requests| ==> ClaimShape(crypto, s, s.requests[r])
  }

  ghost predicate WonBy(s: State, r: int, id: nat) {
    0 <= r < |s.requests| && s.requests[r].pc.Won() && s.requests[r].pc.claim.id == id
  }

  ghost predicate OneWinner(s: State) {
    forall a, b, id: nat :: WonBy(s, a, id) && WonBy(s, b, id) ==> a == b
  }

  /** A row is used only because some request consumed it. */
  ghost predicate UsedMeansWon(s: State) {
    forall id :: id in s.codes && s.codes[id].usedAt.Some? ==> exists r :: WonBy(s, r, id)
  }

  ghost predicate TokenShape(s: State, t: Issued) {
    && t.request < |s.requests| && s.requests[t.request].pc.Answered?
    && t.grant == s.requests[t.request].pc.claim.row.grant
  }

  ghost predicate TokensShape(s: State) {
    && (forall k :: 0 <= k < |s.tokens| ==> TokenShape(s, s.tokens[k]))
    && (forall j, k :: 0 <= j < k < |s.tokens| ==> s.tokens[j].request != s.tokens[k].request)
  }

  ghost predicate HasToken(s: State, r: int) {
    exists k :: 0 <= k < |s.tokens| && s.tokens[k].request == r
  }

  ghost predicate AnswersShape(s: State) {
    forall r :: 0 <= r < |s.requests| && s.requests[r].pc.Answered? ==> HasToken(s, r)
  }

  ghost predicate Inv(crypto: Crypto, s: State) {
    && RowsShape(crypto, s) && ClaimsShape(crypto, s) && OneWinner(s) && UsedMeansWon(s)
    && TokensShape(s) && AnswersShape(s)
  }

  /** Claims, wins and tokens survive when the requests stay, used rows stay used or go, and the
      ledger only grows. */
  lemma RequestsFrame(crypto: Crypto, s: State, t: State)
    requires Inv(crypto, s) && RowsShape(crypto, t)
    requires t.requests == s.requests && t.tokens == s.tokens
    requires s.minted <= t.minted
    requires forall id :: id in t.codes && id < |s.minted| ==> id in s.codes && t.codes[id] == s.codes[id]
    requires forall id :: id in t.codes && id >= |s.minted| ==> t.codes[id].usedAt.None?
    ensures Inv(crypto, t)
  {
    hide RowsShape;
    forall r | 0 <= r < |t.requests| ensures ClaimShape(crypto, t, t.requests[r]) {
      assert ClaimShape(crypto, s, s.requests[r]);
    }
    assert forall r, id: nat :: WonBy(t, r, id) == WonBy(s, r, id);
    assert forall k :: 0 <= k < |t.tokens| ==> TokenShape(s, t.tokens[k]) == TokenShape(t, t.tokens[k]);
    assert forall r :: HasToken(t, r) == HasToken(s, r);
  }

  lemma MintKeeps(crypto: Crypto, s: State, p: IssueParams, plaintext: string, ttl: nat)
    requires Inv(crypto, s) && Enabled(crypto, s, Mint(p, plaintext, ttl))
    ensures Inv(crypto, Apply(crypto, s, Mint(p, plaintext, ttl)))
  {
    var row := NewRow(crypto, plaintext, p, s.now + ttl);
    NewRowSpec(crypto, plaintext, p, s.now + ttl);
    MintedRows(crypto, s, row, plaintext);
    hide RowsShape, NewRow, IssueAllowed;
    RequestsFrame(crypto, s, Minted(s, row, plaintext));
  }

  lemma MintedRows(crypto: Crypto, s: State, row: CodeRow, plaintext: string)
    requires RowsShape(crypto, s) && Fresh(s, plaintext)
    requires MintShape(crypto, row, plaintext)
    ensures RowsShape(crypto, Minted(s, row, plaintext))
  {
    assert row.(usedAt := None) == row;
  }

  lemma NewRowSpec(crypto: Crypto, plaintext: string, p: IssueParams, expiresAt: Instant)
    ensures MintShape(crypto, NewRow(crypto, plaintext, p, expiresAt), plaintext)
  {
  }

  lemma SweepKeeps(crypto: Crypto, s: State)
    requires Inv(crypto, s)
    ensures Inv(crypto, Apply(crypto, s, Sweep))
  {
    RequestsFrame(crypto, s, Apply(crypto, s, Sweep));
  }

  lemma ElapseKeeps(crypto: Crypto, s: State, nanos: nat)
    requires Inv(crypto, s)
    ensures Inv(crypto, Apply(crypto, s, Elapse(nanos)))
  {
    RequestsFrame(crypto, s, Apply(crypto, s, Elapse(nanos)));
  }

  lemma ArriveKeeps(crypto: Crypto, s: State, params: ConsumeParams)
    requires Inv(crypto, s)
    ensures Inv(crypto, Apply(crypto, s, Arrive(params)))
  {
    var t := Apply(crypto, s, Arrive(params));
    forall r | 0 <= r < |t.requests| ensures ClaimShape(crypto, t, t.requests[r]) {
      if r < |s.requests| {
        assert ClaimShape(crypto, s, s.requests[r]);
      }
    }
    assert forall r, id: nat :: WonBy(t, r, id) == WonBy(s, r, id);
    assert forall k :: 0 <= k < |t.tokens| ==> TokenShape(s, t.tokens[k]) ==> TokenShape(t, t.tokens[k]);
    assert forall r :: HasToken(t, r) == HasToken(s, r);
  }

  lemma TokensStay(s: State, r: nat, pc: Pc)
    requires r < |s.requests| && !s.requests[r].pc.Answered? && TokensShape(s)
    ensures TokensShape(At(s, r, pc))
    ensures forall k :: 0 <= k < |s.tokens| ==> s.tokens[k].request != r
  {
    var t := At(s, r, pc);
    forall k | 0 <= k < |t.tokens| ensures TokenShape(t, t.tokens[k]) && s.tokens[k].request != r {
      assert TokenShape(s, s.tokens[k]);
    }
  }

  /** A request that neither wins nor has won moves to a new position. */
  lemma MoveKeeps(crypto: Crypto, s: State, r: nat, pc: Pc)
    requires Inv(crypto, s) && r < |s.requests|
    requires !s.requests[r].pc.Won() && !pc.Won() && ClaimShape(crypto, s, Request(s.requests[r].params, pc))
    ensures Inv(crypto, At(s, r, pc))
  {
    hide Active, Matches;
    var t := At(s, r, pc);
    forall q | 0 <= q < |t.requests| ensures ClaimShape(crypto, t, t.requests[q]) {
      assert ClaimShape(crypto, s, s.requests[q]);
    }
    assert forall q, id: nat :: WonBy(t, q, id) == WonBy(s, q, id);
    TokensStay(s, r, pc);
    assert forall q :: HasToken(t, q) == HasToken(s, q);
  }

  lemma LookUpKeeps(crypto: Crypto, s: State, r: nat, id: nat)
    requires Inv(crypto, s) && Enabled(crypto, s, LookUp(r, id))
    ensures Inv(crypto, Apply(crypto, s, LookUp(r, id)))
  {
    hide ClaimsShape, OneWinner, UsedMeansWon, TokensShape;
    assert s.codes[id] == s.minted[id];
    MoveKeeps(crypto, s, r, Found(Claim(id, s.codes[id], s.now)));
  }

  lemma MissKeeps(crypto: Crypto, s: State, r: nat)
    requires Inv(crypto, s) && Enabled(crypto, s, Miss(r))
    ensures Inv(crypto, Apply(crypto, s, Miss(r)))
  {
    MoveKeeps(crypto, s, r, Refused);
  }

  lemma CheckKeeps(crypto: Crypto, s: State, r: nat)
    requires Inv(crypto, s) && Enabled(crypto, s, Check(r))
    ensures Inv(crypto, Apply(crypto, s, Check(r)))
  {
    hide RowsShape, OneWinner, UsedMeansWon, TokensShape, Active, Matches;
    assert ClaimShape(crypto, s, s.requests[r]);
    var claim := s.requests[r].pc.claim;
    MoveKeeps(crypto, s, r, if Matches(crypto, claim.row, s.requests[r].params) then Checked(claim) else Refused);
  }

  lemma WinKeeps(crypto: Crypto, s: State, r: nat)
    requires Inv(crypto, s) && Enabled(crypto, s, Mark(r, true)) && Marks(s.codes, s.requests[r].pc.claim.id)
    ensures Inv(crypto, Apply(crypto, s, Mark(r, true)))
  {
    WinClaims(crypto, s, r);
    hide ClaimsShape, Active, Matches, RowsShape;
    TokensStay(s, r, Consumed(s.requests[r].pc.claim));
    WinnersAfter(s, Apply(crypto, s, Mark(r, true)), r);
    assert forall k :: 0 <= k < |s.tokens| ==>
      TokenShape(At(s, r, Consumed(s.requests[r].pc.claim)), s.tokens[k]) == TokenShape(Apply(crypto, s, Mark(r, true)), s.tokens[k]);
    assert forall q :: HasToken(Apply(crypto, s, Mark(r, true)), q) == HasToken(s, q);
  }

  lemma WinClaims(crypto: Crypto, s: State, r: nat)
    requires RowsShape(crypto, s) && ClaimsShape(crypto, s)
    requires Enabled(crypto, s, Mark(r, true)) && Marks(s.codes, s.requests[r].pc.claim.id)
    ensures RowsShape(crypto, Apply(crypto, s, Mark(r, true))) && ClaimsShape(crypto, Apply(crypto, s, Mark(r, true)))
    ensures forall q :: !WonBy(s, q, s.requests[r].pc.claim.id)
  {
    hide Active, Matches;
    var won, t := s.requests[r].pc.claim.id, Apply(crypto, s, Mark(r, true));
    forall q | 0 <= q < |t.requests| ensures ClaimShape(crypto, t, t.requests[q]) && !WonBy(s, q, won) {
      assert ClaimShape(crypto, s, s.requests[q]);
    }
  }

  lemma WinnersAfter(s: State, t: State, r: nat)
    requires OneWinner(s) && UsedMeansWon(s) && r < |s.requests| && s.requests[r].pc.Checked?
    requires var claim := s.requests[r].pc.claim;
             && Marks(s.codes, claim.id) && (forall q :: !WonBy(s, q, claim.id))
             && t == At(s, r, Consumed(claim)).(codes := MarkedUsed(s.codes, claim.id, s.now))
    ensures OneWinner(t) && UsedMeansWon(t)
  {
    var won := s.requests[r].pc.claim.id;
    assert forall q, id: nat :: WonBy(t, q, id) <==> WonBy(s, q, id) || (q == r && id == won);
    assert WonBy(t, r, won);
  }

  lemma MarkKeeps(crypto: Crypto, s: State, r: nat, ok: bool)
    requires Inv(crypto, s) && Enabled(crypto, s, Mark(r, ok))
    ensures Inv(crypto, Apply(crypto, s, Mark(r, ok)))
  {
    if ok && Marks(s.codes, s.requests[r].pc.claim.id) {
      WinKeeps(crypto, s, r);
    } else {
      MoveKeeps(crypto, s, r, Refused);
    }
  }

  lemma ScopeKept(grant: Grant)
    ensures grant.scope != "" ==> WithScope(grant) == grant
  {
  }

  lemma GrantsKeeps(crypto: Crypto, s: State, r: nat, ok: bool)
    requires Inv(crypto, s) && Enabled(crypto, s, Grants(r, ok))
    ensures Inv(crypto, Apply(crypto, s, Grants(r, ok)))
  {
    GrantsClaims(crypto, s, r, ok);
    GrantsTokens(crypto, s, r, ok);
    hide ClaimsShape, TokensShape, AnswersShape, ClaimShape, Active, Matches, WithScope;
    assert forall q, id: nat :: WonBy(Apply(crypto, s, Grants(r, ok)), q, id) == WonBy(s, q, id);
  }

  lemma GrantsClaims(crypto: Crypto, s: State, r: nat, ok: bool)
    requires ClaimsShape(crypto, s) && Enabled(crypto, s, Grants(r, ok))
    ensures ClaimsShape(crypto, Apply(crypto, s, Grants(r, ok)))
  {
    hide Active, Matches, WithScope;
    var t := Apply(crypto, s, Grants(r, ok));
    forall q | 0 <= q < |t.requests| ensures ClaimShape(crypto, t, t.requests[q]) {
      assert ClaimShape(crypto, s, s.requests[q]);
    }
  }

  lemma GrantsTokens(crypto: Crypto, s: State, r: nat, ok: bool)
    requires RowsShape(crypto, s) && ClaimsShape(crypto, s) && TokensShape(s) && AnswersShape(s)
    requires Enabled(crypto, s, Grants(r, ok))
    ensures TokensShape(Apply(crypto, s, Grants(r, ok))) && AnswersShape(Apply(crypto, s, Grants(r, ok)))
  {
    assert ClaimShape(crypto, s, s.requests[r]);
    ScopeKept(s.requests[r].pc.claim.row.grant);
    hide RowsShape, ClaimsShape, ClaimShape, Active, Matches, WithScope;
    var t := Apply(crypto, s, Grants(r, ok));
    TokensStay(s, r, t.requests[r].pc);
    assert forall k :: 0 <= k < |s.tokens| ==> TokenShape(At(s, r, t.requests[r].pc), s.tokens[k]) == TokenShape(t, s.tokens[k]);
    forall q | HasToken(s, q) ensures HasToken(t, q) {
      var k :| 0 <= k < |s.tokens| && s.tokens[k].request == q;
      assert t.tokens[k] == s.tokens[k];
    }
    assert ok ==> t.tokens[|s.tokens|].request == r;
  }

  lemma StepKeeps(crypto: Crypto, s: State, step: Step)
    requires Inv(crypto, s) && Enabled(crypto, s, step)
    ensures Inv(crypto, Apply(crypto, s, step))
  {
    hide Inv, Apply;
    match step
    case Mint(p, plaintext, ttl) => MintKeeps(crypto, s, p, plaintext, ttl);
    case Arrive(params) => ArriveKeeps(crypto, s, params);
    case LookUp(r, id) => LookUpKeeps(crypto, s, r, id);
    case Miss(r) => MissKeeps(crypto, s, r);
    case Check(r) => CheckKeeps(crypto, s, r);
    case Mark(r, ok) => MarkKeeps(crypto, s, r, ok);
    case Grants(r, ok) => GrantsKeeps(crypto, s, r, ok);
    case Sweep => SweepKeeps(crypto, s);
    case Elapse(nanos) => ElapseKeeps(crypto, s, nanos);
  }

  lemma {:induction false} RunKeeps(crypto: Crypto, s: State, steps: seq<Step>, t: State)
    requires Inv(crypto, s) && Runs(crypto, s, steps, t)
    ensures Inv(crypto, t)
    decreases |steps|
  {
    hide Inv, Apply, Enabled;
    if steps != [] {
      StepKeeps(crypto, s, steps[0]);
      RunKeeps(crypto, Apply(crypto, s, steps[0]), steps[1..], t);
    }
  }

  lemma ReachableInv(crypto: Crypto, s: State)
    requires Reachable(crypto, s)
    ensures Inv(crypto, s)
  {
    var now, steps :| Runs(crypto, Initial(now), steps, s);
    assert Inv(crypto, Initial(now));
    RunKeeps(crypto, Initial(now), steps, s);
  }

  // ---------------------------------------------------------------------------
  // Theorems
  // ---------------------------------------------------------------------------

  /** A code is consumed by at most one request, however requests interleave. */
  lemma ConsumedAtMostOnce(crypto: Crypto, s: State, a: nat, b: nat)
    requires Reachable(crypto, s) && a < |s.requests| && b < |s.requests| && a != b
    requires s.requests[a].pc.Won() && s.requests[b].pc.Won()
    ensures s.requests[a].pc.claim.id != s.requests[b].pc.claim.id
    ensures s.requests[a].params.code != s.requests[b].params.code || !crypto.Injective()
  {
    ReachableInv(crypto, s);
    var x, y := s.requests[a].pc.claim.id, s.requests[b].pc.claim.id;
    assert WonBy(s, a, x) && WonBy(s, b, y);
    assert ClaimShape(crypto, s, s.requests[a]) && ClaimShape(crypto, s, s.requests[b]);
    if crypto.Injective() {
      assert s.plaintexts[x] == s.requests[a].params.code && s.plaintexts[y] == s.requests[b].params.code;
    }
  }

  /** No two access tokens come from one code, and each carries what was granted when the code
      was issued, to a request that presented that very code, its client, its redirect and the
      verifier behind its challenge, and that found the code unused and unexpired. */
  lemma TokenIsEarned(crypto: Crypto, s: State, k: nat)
    requires Reachable(crypto, s) && k < |s.tokens| && crypto.Injective()
    ensures var token := s.tokens[k];
            && token.request < |s.requests| && s.requests[token.request].pc.Answered?
            && var p, claim := s.requests[token.request].params, s.requests[token.request].pc.claim;
            && claim.id < |s.minted|
            && token.grant == s.minted[claim.id].grant
            && claim.id < |s.plaintexts| && p.code == s.plaintexts[claim.id]
            && p.clientId == s.minted[claim.id].grant.clientId
            && p.redirectUri == s.minted[claim.id].redirectUri
            && crypto.s256(p.verifier) == s.minted[claim.id].challenge && p.verifier != ""
            && claim.at < s.minted[claim.id].expiresAt
    ensures forall j :: 0 <= j < |s.tokens| && j != k ==>
              var a, b := s.tokens[j].request, s.tokens[k].request;
              a < |s.requests| && s.requests[a].pc.Answered? && s.requests[a].pc.claim.id != s.requests[b].pc.claim.id
  {
    ReachableInv(crypto, s);
    var token := s.tokens[k];
    assert TokenShape(s, token);
    assert ClaimShape(crypto, s, s.requests[token.request]);
    forall j | 0 <= j < |s.tokens| && j != k
      ensures s.tokens[j].request < |s.requests| && s.requests[s.tokens[j].request].pc.Answered?
      ensures s.requests[s.tokens[j].request].pc.claim.id != s.requests[token.request].pc.claim.id
    {
      assert TokenShape(s, s.tokens[j]);
      assert s.tokens[j].request != token.request;
      ConsumedAtMostOnce(crypto, s, s.tokens[j].request, token.request);
    }
  }

  /** A code row is used exactly when a request consumed it; requests that were refused, for
      whatever reason, burnt nothing. */
  lemma UsedIffConsumed(crypto: Crypto, s: State, id: nat)
    requires Reachable(crypto, s) && id in s.codes
    ensures s.codes[id].usedAt.Some? <==> exists r :: WonBy(s, r, id)
    ensures id < |s.minted| && s.codes[id].(usedAt := None) == s.minted[id]
  {
    ReachableInv(crypto, s);
    forall r | WonBy(s, r, id) ensures s.codes[id].usedAt.Some? {
      assert ClaimShape(crypto, s, s.requests[r]);
    }
  }

  /** Only a winning update changes a code row before it expires, and it changes that row only. */
  lemma StepsThatSpareRows(crypto: Crypto, s: State, step: Step, id: nat)
    requires Inv(crypto, s) && Enabled(crypto, s, step) && id in s.codes && s.codes[id].expiresAt >= s.now
    ensures var t := Apply(crypto, s, step);
            id in t.codes && (t.codes[id] != s.codes[id] ==>
              step.Mark? && s.requests[step.r].pc.claim.id == id && t.requests[step.r].pc.Consumed?)
  {
    hide ClaimsShape, OneWinner, UsedMeansWon, TokensShape, AnswersShape, IssueAllowed, NewRow, Active, Matches, Fresh;
  }

  /** A code that is used yields a token exactly when its winner was answered: the code is spent
      even when storing the access token fails. */
  lemma TokenIffAnswered(crypto: Crypto, s: State, r: nat, id: nat)
    requires Reachable(crypto, s) && WonBy(s, r, id)
    ensures (exists k :: 0 <= k < |s.tokens| && WonBy(s, s.tokens[k].request, id)) <==> s.requests[r].pc.Answered?
    ensures id in s.codes ==> !Marks(s.codes, id)
  {
    ReachableInv(crypto, s);
    assert ClaimShape(crypto, s, s.requests[r]);
    if s.requests[r].pc.Answered? {
      assert HasToken(s, r);
      var k :| 0 <= k < |s.tokens| && s.tokens[k].request == r;
      assert WonBy(s, s.tokens[k].request, id);
    }
    forall k | 0 <= k < |s.tokens| && WonBy(s, s.tokens[k].request, id) ensures s.requests[r].pc.Answered? {
      assert TokenShape(s, s.tokens[k]);
    }
  }

  /** A row that cannot be marked now never can again. */
  lemma {:induction false} SpentStaysSpent(crypto: Crypto, s: State, steps: seq<Step>, t: State, r: nat)
    requires Inv(crypto, s) && Runs(crypto, s, steps, t)
    requires r < |s.requests| && s.requests[r].pc.Checked? && !Marks(s.codes, s.requests[r].pc.claim.id)
    ensures r < |t.requests| && (t.requests[r] == s.requests[r] || t.requests[r].pc.Refused?)
    decreases |steps|
  {
    if steps != [] {
      var mid := Apply(crypto, s, steps[0]);
      StepKeeps(crypto, s, steps[0]);
      SpentStep(crypto, s, steps[0], r);
      hide Inv, Apply, Enabled, Marks;
      if mid.requests[r].pc.Refused? {
        RefusedStays(crypto, mid, steps[1..], t, r);
      } else {
        SpentStaysSpent(crypto, mid, steps[1..], t, r);
      }
    }
  }

  lemma SpentStep(crypto: Crypto, s: State, step: Step, r: nat)
    requires Inv(crypto, s) && Enabled(crypto, s, step)
    requires r < |s.requests| && s.requests[r].pc.Checked? && !Marks(s.codes, s.requests[r].pc.claim.id)
    ensures var t := Apply(crypto, s, step);
            && r < |t.requests| && !Marks(t.codes, s.requests[r].pc.claim.id)
            && (t.requests[r] == s.requests[r] || t.requests[r].pc.Refused?)
  {
    assert ClaimShape(crypto, s, s.requests[r]);
    hide RowsShape, ClaimsShape, OneWinner, UsedMeansWon, TokensShape, AnswersShape, IssueAllowed, NewRow, Active, Matches, Fresh;
  }

  lemma {:induction false} RefusedStays(crypto: Crypto, s: State, steps: seq<Step>, t: State, r: nat)
    requires Runs(crypto, s, steps, t) && r < |s.requests| && s.requests[r].pc.Refused?
    ensures r < |t.requests| && t.requests[r] == s.requests[r]
    decreases |steps|
  {
    if steps != [] {
      RefusedStep(crypto, s, steps[0], r);
      hide Apply, Enabled;
      RefusedStays(crypto, Apply(crypto, s, steps[0]), steps[1..], t, r);
    }
  }

  lemma RefusedStep(crypto: Crypto, s: State, step: Step, r: nat)
    requires Enabled(crypto, s, step) && r < |s.requests| && s.requests[r].pc.Refused?
    ensures r < |Apply(crypto, s, step).requests| && Apply(crypto, s, step).requests[r] == s.requests[r]
  {
    hide IssueAllowed, NewRow, Active, Matches, Fresh;
  }

  // ---------------------------------------------------------------------------
  // Consuming late
  // ---------------------------------------------------------------------------

  /** Expiry binds the lookup only. A request past its checks can still consume its code, at any
      later time, if and only if the row is there and unused now. */
  lemma CanConsumeIff(crypto: Crypto, s: State, r: nat, late: nat)
    requires Reachable(crypto, s) && r < |s.requests| && s.requests[r].pc.Checked?
    ensures (exists steps, t :: Runs(crypto, s, steps, t) && t.now == s.now + late
                                && r < |t.requests| && t.requests[r].pc == Consumed(s.requests[r].pc.claim))
       <==> Marks(s.codes, s.requests[r].pc.claim.id)
  {
    ReachableInv(crypto, s);
    if Marks(s.codes, s.requests[r].pc.claim.id) {
      var a := Apply(crypto, s, Elapse(late));
      var t := Apply(crypto, a, Mark(r, true));
      assert Runs(crypto, s, [], s);
      RunsSnoc(crypto, s, [], s, Elapse(late));
      RunsSnoc(crypto, s, [] + [Elapse(late)], a, Mark(r, true));
      assert t.requests[r].pc == Consumed(s.requests[r].pc.claim);
    } else {
      forall steps, t | Runs(crypto, s, steps, t) ensures r < |t.requests| && !t.requests[r].pc.Consumed? {
        SpentStaysSpent(crypto, s, steps, t, r);
      }
    }
  }

  /** A code is issued to whoever holds `plaintext` and `verifier`, and a request that presents
      both passes its checks. */
  lemma ReachChecked(crypto: Crypto, p: IssueParams, plaintext: string, verifier: string, ttl: nat) returns (s: State)
    requires IssueAllowed(p) && plaintext != "" && verifier != "" && crypto.s256(verifier) == p.challenge && ttl >= 1
    ensures Reachable(crypto, s) && |s.requests| == 1 && s.now == 0
    ensures s.requests[0].pc == Checked(Claim(0, NewRow(crypto, plaintext, p, ttl), 0))
    ensures s.codes == map[0 := NewRow(crypto, plaintext, p, ttl)] && s.tokens == []
  {
    hide Runs;
    var params := ConsumeParams(plaintext, p.grant.clientId, p.redirectUri, verifier);
    var row := NewRow(crypto, plaintext, p, ttl);
    var s0 := Initial(0);
    Start(crypto);
    var a := Extend(crypto, s0, Mint(p, plaintext, ttl));
    var b := Extend(crypto, a, Arrive(params));
    var c := Extend(crypto, b, LookUp(0, 0));
    assert Matches(crypto, row, params);
    s := Extend(crypto, c, Check(0));
  }

  lemma Start(crypto: Crypto)
    ensures Reachable(crypto, Initial(0))
  {
    assert Runs(crypto, Initial(0), [], Initial(0));
  }

  lemma Extend(crypto: Crypto, s: State, step: Step) returns (t: State)
    requires Reachable(crypto, s) && Enabled(crypto, s, step)
    ensures Reachable(crypto, t) && t == Apply(crypto, s, step)
  {
    t := Apply(crypto, s, step);
    var now, steps :| Runs(crypto, Initial(now), steps, s);
    RunsSnoc(crypto, Initial(now), steps, s, step);
  }

  /** And it happens: for every issued code some run consumes it at its expiry or any time after. */
  lemma ConsumedAfterExpiry(crypto: Crypto, p: IssueParams, plaintext: string, verifier: string, ttl: nat, late: nat)
    requires IssueAllowed(p) && plaintext != "" && verifier != "" && crypto.s256(verifier) == p.challenge && ttl >= 1
    ensures exists t :: Reachable(crypto, t) && |t.requests| == 1 && t.requests[0].pc.Consumed?
                        && t.now == t.requests[0].pc.claim.row.expiresAt + late
  {
    var s := ReachChecked(crypto, p, plaintext, verifier, ttl);
    var a := Extend(crypto, s, Elapse(ttl + late));
    var t := Extend(crypto, a, Mark(0, true));
    assert t.requests[0].pc.Consumed?;
  }

  /** A code can be spent with no token to show for it. */
  lemma CodeLostWithoutToken(crypto: Crypto, p: IssueParams, plaintext: string, verifier: string, ttl: nat)
    requires IssueAllowed(p) && plaintext != "" && verifier != "" && crypto.s256(verifier) == p.challenge && ttl >= 1
    ensures exists t :: Reachable(crypto, t) && 0 in t.codes && t.codes[0].usedAt.Some? && t.tokens == []
                        && |t.requests| == 1 && t.requests[0].pc.Burnt?
  {
    var s := ReachChecked(crypto, p, plaintext, verifier, ttl);
    var a := Extend(crypto, s, Mark(0, true));
    var t := Extend(crypto, a, Grants(0, false));
    assert t.requests[0].pc.Burnt?;
  }

  lemma {:induction false} RunsSnoc(crypto: Crypto, s: State, steps: seq<Step>, t: State, step: Step)
    requires Runs(crypto, s, steps, t) && Enabled(crypto, t, step)
    ensures Runs(crypto, s, steps + [step], Apply(crypto, t, step))
    decreases |steps|
  {
    hide Apply, Enabled;
    if steps == [] {
      assert [] + [step] == [step];
      assert [step][1..] == [];
    } else {
      TailOfAppend(steps, [step]);
      RunsSnoc(crypto, Apply(crypto, s, steps[0]), steps[1..], t, step);
    }
  }
}
