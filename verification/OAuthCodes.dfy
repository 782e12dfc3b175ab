/**
  Authorization codes: how a code is issued, looked up, checked, marked used and exchanged for
  an access token, and why a code is used once however token requests interleave
  (section 4.1.2 of RFC 6749, section 4.6 of RFC 7636).

  Hashing is a parameter; generated codes and ids are fresh.
 */
module OAuthCodes {
  import opened Common

  type Instant = int

  datatype Crypto = Crypto(hash: string -> string, s256: string -> string) {
    ghost predicate Injective() {
      forall a, b :: hash(a) == hash(b) ==> a == b
    }
  }

  /** What a code entitles its bearer to. */
  datatype Grant = Grant(clientId: string, userId: string, projectId: string, scope: string)

  datatype CodeRow = CodeRow(
    hash: string,
    grant: Grant,
    redirectUri: string,
    challenge: string,
    expiresAt: Instant,
    usedAt: Option<Instant>)

  datatype IssueParams = IssueParams(
    grant: Grant,
    redirectUri: string,
    challenge: string,
    challengeMethod: string)

  datatype ConsumeParams = ConsumeParams(code: string, clientId: string, redirectUri: string, verifier: string)

  datatype Error = InvalidRequest | InvalidGrant | Unavailable

  datatype Result<T> = Ok(value: T) | Err(error: Error)

  const S256_METHOD := "S256"
  const SCOPE_API := "api"

  type Codes = map<nat, CodeRow>

  // ---------------------------------------------------------------------------
  // The statements and the checks
  // ---------------------------------------------------------------------------

  /** WHERE code_hash = hash AND used_at IS NULL AND expires_at > NOW(). */
  predicate Active(row: CodeRow, hash: string, now: Instant) {
    row.hash == hash && row.usedAt.None? && row.expiresAt > now
  }

  /** code_hash is unique. */
  ghost predicate UniqueHashes(codes: Codes) {
    forall a, b :: a in codes && b in codes && codes[a].hash == codes[b].hash ==> a == b
  }

  /** SET used_at = NOW() WHERE id = id AND used_at IS NULL. */
  function MarkedUsed(codes: Codes, id: nat, now: Instant): Codes {
    if id in codes && codes[id].usedAt.None? then codes[id := codes[id].(usedAt := Some(now))] else codes
  }

  /** Whether the update touches its row. */
  predicate Marks(codes: Codes, id: nat) {
    id in codes && codes[id].usedAt.None?
  }

  /** DELETE ... WHERE expires_at < NOW(). */
  function Swept(codes: Codes, now: Instant): Codes {
    map id | id in codes && codes[id].expiresAt >= now :: codes[id]
  }

  predicate VerifyS256(crypto: Crypto, verifier: string, challenge: string) {
    verifier != "" && challenge != "" && crypto.s256(verifier) == challenge
  }

  /** The client, redirect and proof-key checks between lookup and update. */
  predicate Matches(crypto: Crypto, row: CodeRow, p: ConsumeParams) {
    && row.grant.clientId == p.clientId
    && row.redirectUri == p.redirectUri
    && VerifyS256(crypto, p.verifier, row.challenge)
  }

  predicate IssueAllowed(p: IssueParams) {
    p.challengeMethod == S256_METHOD && p.challenge != ""
  }

  function WithScope(grant: Grant): Grant {
    if grant.scope == "" then grant.(scope := SCOPE_API) else grant
  }

  function NewRow(crypto: Crypto, plaintext: string, p: IssueParams, expiresAt: Instant): CodeRow {
    CodeRow(crypto.hash(plaintext), WithScope(p.grant), p.redirectUri, p.challenge, expiresAt, None)
  }

  // ---------------------------------------------------------------------------
  // The service, one call at a time
  // ---------------------------------------------------------------------------

  datatype Token = Token(hash: string, grant: Grant, expiresAt: Instant)

  /** What may be exchanged: an unused, unexpired row of the code presented, issued to this client for
      this redirect, whose challenge is the digest of the verifier presented. */
  ghost predicate Exchangeable(crypto: Crypto, codes: Codes, id: nat, p: ConsumeParams, now: Instant) {
    && id in codes
    && codes[id].hash == crypto.hash(p.code) && codes[id].usedAt == None && codes[id].expiresAt > now
    && codes[id].grant.clientId == p.clientId && codes[id].redirectUri == p.redirectUri
    && crypto.s256(p.verifier) == codes[id].challenge && codes[id].challenge != ""
  }

  /** Column by column: the code's hash, the grant with the scope "api" if it names none, the redirect
      and the challenge as asked for, and not used. */
  ghost predicate IsNewRow(row: CodeRow, crypto: Crypto, plaintext: string, p: IssueParams, expiresAt: Instant) {
    && row.hash == crypto.hash(plaintext) && IsScoped(row.grant, p.grant)
    && row.redirectUri == p.redirectUri && row.challenge == p.challenge
    && row.expiresAt == expiresAt && row.usedAt == None
  }

  ghost predicate IsScoped(scoped: Grant, grant: Grant) {
    && scoped.clientId == grant.clientId && scoped.userId == grant.userId && scoped.projectId == grant.projectId
    && scoped.scope == if grant.scope == "" then "api" else grant.scope
  }

  /** Each fallible call of a method comes with its answer as a parameter; a generated secret is
      None when the generator fails. */
  class Service {
    const crypto: Crypto
    const codeTTL: nat
    const tokenTTL: nat
    var codes: Codes
    var nextId: nat
    var tokens: seq<Token>

    ghost predicate Valid()
      reads this
    {
      UniqueHashes(codes) && forall id :: id in codes ==> id < nextId
    }

    /** The generated plaintext is fresh. */
    method IssueCode(p: IssueParams, generated: Option<string>, now: Instant, inserted: bool) returns (r: Result<string>)
      requires Valid()
      requires generated.Some? ==> forall id :: id in codes ==> codes[id].hash != crypto.hash(generated.value)
      modifies this`codes, this`nextId
      ensures Valid()
      ensures r == if p.challengeMethod != "S256" || p.challenge == "" then Err(InvalidRequest)
                   else if generated.None? || !inserted then Err(Unavailable)
                   else Ok(generated.value)
      ensures r.Ok? ==>
                && old(nextId) in codes && codes == old(codes)[old(nextId) := codes[old(nextId)]]
                && codes[old(nextId)] == NewRow(crypto, r.value, p, now + codeTTL)
                && IsNewRow(codes[old(nextId)], crypto, r.value, p, now + codeTTL)
      ensures r.Err? ==> codes == old(codes)
      ensures nextId == if r.Ok? then old(nextId) + 1 else old(nextId)
    {
      if p.challengeMethod != S256_METHOD { return Err(InvalidRequest); }
      if p.challenge == "" { return Err(InvalidRequest); }
      var grant := p.grant;
      if grant.scope == "" { grant := grant.(scope := SCOPE_API); }
      if generated.None? { return Err(Unavailable); }
      var plaintext := generated.value;
      if !inserted { return Err(Unavailable); }
      codes := codes[nextId := CodeRow(crypto.hash(plaintext), grant, p.redirectUri, p.challenge, now + codeTTL, None)];
      nextId := nextId + 1;
      r := Ok(plaintext);
    }

    /** Err(InvalidGrant) stands for no row. */
    method GetActiveOAuthCodeByHash(hash: string, now: Instant, answered: bool) returns (r: Result<nat>)
      ensures if !answered then r == Err(Unavailable)
              else if exists id :: id in codes && Active(codes[id], hash, now)
              then r.Ok? && r.value in codes && Active(codes[r.value], hash, now)
              else r == Err(InvalidGrant)
    {
      if !answered { return Err(Unavailable); }
      if id :| id in codes && Active(codes[id], hash, now) {
        r := Ok(id);
      } else {
        r := Err(InvalidGrant);
      }
    }

    method MarkOAuthCodeUsed(id: nat, now: Instant, answered: bool) returns (affected: Result<bool>)
      modifies this`codes
      ensures affected == if answered then Ok(Marks(old(codes), id)) else Err(Unavailable)
      ensures codes == if answered then MarkedUsed(old(codes), id, now) else old(codes)
      ensures affected == Ok(true) ==>
                && id in old(codes) && old(codes)[id].usedAt == None
                && codes == old(codes)[id := old(codes)[id].(usedAt := Some(now))]
      ensures affected != Ok(true) ==> codes == old(codes) && (answered && id in codes ==> codes[id].usedAt != None)
    {
      if !answered { return Err(Unavailable); }
      affected := Ok(id in codes && codes[id].usedAt.None?);
      if affected.value { codes := codes[id := codes[id].(usedAt := Some(now))]; }
    }

    method DeleteExpiredOAuthCodes(now: Instant)
      requires Valid()
      modifies this`codes
      ensures Valid() && codes == Swept(old(codes), now)
      ensures forall id :: id in codes <==> id in old(codes) && old(codes)[id].expiresAt >= now
      ensures forall id :: id in codes ==> codes[id] == old(codes)[id]
    {
      codes := map id | id in codes && codes[id].expiresAt >= now :: codes[id];
    }

    /** A call that no other call interrupts. It succeeds exactly when both statements are
        answered and an active row of the code passes the checks; it then yields that row's grant
        and burns that row. Any refusal leaves every row as it was. */
    method ConsumeCode(p: ConsumeParams, now: Instant, lookedUp: bool, marked: bool) returns (r: Result<Grant>)
      requires Valid()
      modifies this`codes
      ensures Valid()
      ensures r == Err(InvalidRequest) <==> p.code == "" || p.verifier == ""
      ensures r.Ok? <==> p.code != "" && p.verifier != "" && lookedUp && marked
                         && exists id :: Exchangeable(crypto, old(codes), id, p, now)
      ensures r == Err(InvalidGrant) <==> p.code != "" && p.verifier != "" && lookedUp
                                          && forall id :: !Exchangeable(crypto, old(codes), id, p, now)
      ensures r.Ok? ==> exists id ::
                && Exchangeable(crypto, old(codes), id, p, now)
                && r.value == old(codes[id]).grant && codes == old(codes)[id := old(codes[id]).(usedAt := Some(now))]
      ensures r.Err? ==> codes == old(codes)
    {
      if p.code == "" || p.verifier == "" { return Err(InvalidRequest); }
      var found := GetActiveOAuthCodeByHash(crypto.hash(p.code), now, lookedUp);
      if found.Err? {
        assert lookedUp ==> forall id :: !Exchangeable(crypto, codes, id, p, now);
        return Err(found.error);
      }
      var id, row := found.value, codes[found.value];
      assert forall other :: Exchangeable(crypto, codes, other, p, now) ==> other == id;
      if row.grant.clientId != p.clientId { return Err(InvalidGrant); }
      if row.redirectUri != p.redirectUri { return Err(InvalidGrant); }
      if !VerifyS256(crypto, p.verifier, row.challenge) { return Err(InvalidGrant); }
      assert Exchangeable(crypto, codes, id, p, now);
      var affected := MarkOAuthCodeUsed(id, now, marked);
      if affected.Err? { return Err(affected.error); }
      if !affected.value { return Err(InvalidGrant); }
      r := Ok(row.grant);
    }

    method IssueAccessToken(grant: Grant, generated: Option<string>, now: Instant, inserted: bool) returns (ok: bool)
      modifies this`tokens
      ensures ok == (generated.Some? && inserted)
      ensures ok ==> |tokens| == |old(tokens)| + 1 && IsScoped(tokens[|old(tokens)|].grant, grant)
      ensures tokens == if ok then old(tokens) + [Token(crypto.hash(generated.value), WithScope(grant), now + tokenTTL)]
                        else old(tokens)
    {
      var scoped := grant;
      if scoped.scope == "" { scoped := scoped.(scope := SCOPE_API); }
      if generated.None? { return false; }
      if !inserted { return false; }
      tokens := tokens + [Token(crypto.hash(generated.value), scoped, now + tokenTTL)];
      ok := true;
    }

    /** The token endpoint: a token is stored exactly when the request is a code exchange by a
        client, every call is answered, and an active row of the code passes the checks. */
    method PostOAuthToken(grantType: string, p: ConsumeParams, generated: Option<string>, now: Instant,
                          lookedUp: bool, marked: bool, inserted: bool)
      returns (ok: bool)
      requires Valid()
      modifies this`codes, this`tokens
      ensures Valid()
      ensures var allowed := grantType == "authorization_code" && p.clientId != "" && p.code != "" && p.verifier != ""
                             && exists id :: Exchangeable(crypto, old(codes), id, p, now);
              && ok == (allowed && lookedUp && marked && generated.Some? && inserted)
              && (!allowed || !lookedUp || !marked ==> codes == old(codes))
              && (allowed && lookedUp && marked ==> exists id ::
                    && Exchangeable(crypto, old(codes), id, p, now) && codes == old(codes)[id := old(codes[id]).(usedAt := Some(now))]
                    && (ok ==>
                          && |tokens| == |old(tokens)| + 1 && IsScoped(tokens[|old(tokens)|].grant, old(codes[id]).grant)
                          && tokens == old(tokens)
                                       + [Token(crypto.hash(generated.value), WithScope(old(codes[id]).grant), now + tokenTTL)]))
      ensures !ok ==> tokens == old(tokens)
    {
      if grantType != "authorization_code" { return false; }
      if p.clientId == "" { return false; }
      var consumed := ConsumeCode(p, now, lookedUp, marked);
      if consumed.Err? { return false; }
      ok := IssueAccessToken(consumed.value, generated, now, inserted);
    }
  }

  /** The sweep is invisible to every later lookup: what it deletes no lookup could return. */
  lemma SweepIsInvisible(codes: Codes, now: Instant, id: nat, hash: string, later: Instant)
    requires later >= now
    ensures (id in codes && Active(codes[id], hash, later)) <==>
            (id in Swept(codes, now) && Active(Swept(codes, now)[id], hash, later))
  {
  }
}
