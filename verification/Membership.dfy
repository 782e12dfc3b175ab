/**
  Teams, memberships and invites: the sign-up and invite transactions, and why every member of
  a team is there because of a chain of invites that starts at the team's founder.

  A transaction is one atomic step. Ids are positions in the tables.
 */
module Membership {
  import opened Common

  type Instant = int

  /** Seven days, in the unit of `now`. */
  const INVITE_TTL := 7 * 24 * 60 * 60 * 1_000_000_000

  datatype Member = Member(team: nat, user: nat)

  datatype Invite = Invite(team: nat, createdBy: nat, hash: string, expiresAt: Instant, consumedBy: Option<nat>)

  /** `founders[t]` is the user whose sign-up created team t. No statement of the program deletes
      a membership, so the table is in the order of joining. */
  datatype Db = Db(emails: seq<string>, founders: seq<nat>, members: seq<Member>, invites: seq<Invite>)

  const EMPTY := Db([], [], [], [])

  datatype Error = Invalid | EmailTaken | InviteInvalid | NotVisible | Unavailable

  datatype Result<T> = Ok(value: T) | Err(error: Error)

  // ---------------------------------------------------------------------------
  // The statements
  // ---------------------------------------------------------------------------

  /** A user, a team of their own, and the membership that ties them. */
  function SignedUp(db: Db, email: string): Db {
    var user, team := |db.emails|, |db.founders|;
    Db(db.emails + [email], db.founders + [user], db.members + [Member(team, user)], db.invites)
  }

  predicate ActiveAt(invite: Invite, hash: string, now: Instant) {
    invite.hash == hash && invite.consumedBy.None? && invite.expiresAt > now
  }

  /** The invite an update by hash burns. */
  function ActiveInvite(invites: seq<Invite>, hash: string, now: Instant): (r: Option<nat>)
    ensures r.Some? ==> r.value < |invites| && ActiveAt(invites[r.value], hash, now)
    ensures r.None? ==> forall i :: 0 <= i < |invites| ==> !ActiveAt(invites[i], hash, now)
  {
    if invites == [] then None
    else if ActiveAt(invites[0], hash, now) then Some(0)
    else
      var rest := ActiveInvite(invites[1..], hash, now);
      if rest.None? then None else Some(rest.value + 1)
  }

  function Burnt(db: Db, i: nat, user: nat): Db
    requires i < |db.invites|
  {
    db.(invites := db.invites[i := db.invites[i].(consumedBy := Some(user))])
  }

  /** INSERT ... ON CONFLICT DO NOTHING. */
  function WithMember(db: Db, member: Member): Db {
    if member in db.members then db else db.(members := db.members + [member])
  }

  /** The invite is burnt and the user is a member, which they may have been already. */
  function Joined(db: Db, i: nat, user: nat): Db
    requires i < |db.invites|
  {
    WithMember(Burnt(db, i, user), Member(db.invites[i].team, user))
  }

  /** INSERT ... WHERE EXISTS a membership of the creator. */
  function Invited(db: Db, team: nat, createdBy: nat, hash: string, now: Instant): Db {
    if Member(team, createdBy) in db.members
    then db.(invites := db.invites + [Invite(team, createdBy, hash, now + INVITE_TTL, None)])
    else db
  }

  // ---------------------------------------------------------------------------
  // The transactions
  // ---------------------------------------------------------------------------

  /** The first `n` fallible calls of an operation all go through. */
  predicate AllAnswered(answers: nat -> bool, n: nat) {
    forall i | 0 <= i < n :: answers(i)
  }

  /** The invite of this secret, unconsumed and unexpired. */
  ghost predicate Opens(db: Db, i: nat, hashHex: string, now: Instant) {
    && i < |db.invites| && db.invites[i].hash == hashHex
    && db.invites[i].consumedBy == None && db.invites[i].expiresAt > now
  }

  /** Invite `i` and no other is consumed, by the user, who is a member of its team, and so is
      everyone who was a member before and nobody else; users and teams are as they were. */
  ghost predicate Admits(db: Db, after: Db, i: nat, user: nat) {
    && i < |db.invites| && after.invites == db.invites[i := db.invites[i].(consumedBy := Some(user))]
    && after.emails == db.emails && after.founders == db.founders
    && (forall m :: m in after.members <==> m in db.members || m == Member(db.invites[i].team, user))
  }

  /** A new user with the email, who founded a new team and is its member. */
  ghost predicate Welcomes(db: Db, after: Db, email: string) {
    var user := |db.emails|;
    && after.emails == db.emails + [email] && after.founders == db.founders + [user]
    && after.members == db.members + [Member(|db.founders|, user)] && after.invites == db.invites
  }

  lemma SignedUpWelcomes(db: Db, email: string)
    ensures Welcomes(db, SignedUp(db, email), email)
  {
  }

  /** Joining by hash admits by an invite of that hash, unconsumed and unexpired. */
  lemma JoinedAdmits(db: Db, hashHex: string, now: Instant, user: nat)
    ensures var i := ActiveInvite(db.invites, hashHex, now);
            && (i.Some? ==> Opens(db, i.value, hashHex, now) && Admits(db, Joined(db, i.value, user), i.value, user))
            && (i.None? <==> forall j: nat :: !Opens(db, j, hashHex, now))
  {
    var i := ActiveInvite(db.invites, hashHex, now);
    if i.None? {
      forall j: nat ensures !Opens(db, j, hashHex, now) {
        assert j < |db.invites| ==> !ActiveAt(db.invites[j], hashHex, now);
      }
    }
    hide ActiveInvite;
  }

  /** Each operation gets the answers to its fallible calls, in the order it makes them: hashing
      the password, opening the transaction, each statement, and the commit. */
  class AuthService {
    var db: Db
    const hash: string -> string

    constructor (hash: string -> string)
      ensures db == EMPTY && this.hash == hash
    {
      db, this.hash := EMPTY, hash;
    }

    /** The three inserts; their answers start at `at`. */
    method CreateUserAndTeam(tx: Db, email: string, answers: nat -> bool, at: nat) returns (r: Result<Db>)
      ensures r == if !answers(at) then Err(Unavailable)
                   else if email in tx.emails then Err(EmailTaken)
                   else if !answers(at + 1) || !answers(at + 2) then Err(Unavailable)
                   else Ok(SignedUp(tx, email))
    {
      if !answers(at) { return Err(Unavailable); }
      if email in tx.emails { return Err(EmailTaken); }
      var user, next := |tx.emails|, tx.(emails := tx.emails + [email]);
      if !answers(at + 1) { return Err(Unavailable); }
      var team := |next.founders|;
      next := next.(founders := next.founders + [user]);
      if !answers(at + 2) { return Err(Unavailable); }
      r := Ok(next.(members := next.members + [Member(team, user)]));
    }

    /** Burn, membership and team fetch; their answers start at `at`. */
    method BurnAndJoin(tx: Db, user: nat, hashHex: string, now: Instant, answers: nat -> bool, at: nat) returns (r: Result<Db>)
      ensures var i := ActiveInvite(tx.invites, hashHex, now);
              r == if !answers(at) then Err(Unavailable)
                   else if i.None? then Err(InviteInvalid)
                   else if !answers(at + 1) || !answers(at + 2) then Err(Unavailable)
                   else Ok(Joined(tx, i.value, user))
    {
      if !answers(at) { return Err(Unavailable); }
      var i := ActiveInvite(tx.invites, hashHex, now);
      if i.None? { return Err(InviteInvalid); }
      var next := tx.(invites := tx.invites[i.value := tx.invites[i.value].(consumedBy := Some(user))]);
      if !answers(at + 1) { return Err(Unavailable); }
      var member := Member(next.invites[i.value].team, user);
      if member !in next.members { next := next.(members := next.members + [member]); }
      if !answers(at + 2) { return Err(Unavailable); }
      r := Ok(next);
    }

    /** Succeeds exactly when the form is valid, every call goes through and the email is free. */
    method Signup(email: string, valid: bool, answers: nat -> bool) returns (r: Result<nat>)
      modifies this`db
      ensures r.Ok? <==> valid && AllAnswered(answers, 6) && email !in old(db).emails
      ensures r == Err(Invalid) <==> !valid
      ensures r == Err(EmailTaken) <==> valid && AllAnswered(answers, 3) && email in old(db).emails
      ensures r.Ok? ==> r.value == |old(db).emails| && db == SignedUp(old(db), email) && Welcomes(old(db), db, email)
      ensures r.Err? ==> db == old(db)
    {
      if !valid { return Err(Invalid); }
      if !answers(0) { return Err(Unavailable); }
      if !answers(1) { return Err(Unavailable); }
      var made := CreateUserAndTeam(db, email, answers, 2);
      if made.Err? { return Err(made.error); }
      if !answers(5) { return Err(Unavailable); }
      r := Ok(|db.emails|);
      db := made.value;
    }

    /** Succeeds exactly when every call goes through and the invite is active; then the invite is
        burnt and the user is a member. Otherwise nothing changes. */
    method ConsumeInvite(user: nat, token: string, now: Instant, answers: nat -> bool) returns (r: Result<nat>)
      modifies this`db
      ensures var i := ActiveInvite(old(db).invites, hash(token), now);
              && (r.Ok? <==> AllAnswered(answers, 5) && i.Some?)
              && (r == Err(InviteInvalid) <==> AllAnswered(answers, 2) && i.None?)
              && (r.Ok? ==> r.value == old(db).invites[i.value].team && db == Joined(old(db), i.value, user))
      ensures r.Ok? ==> exists i: nat :: Opens(old(db), i, hash(token), now) && Admits(old(db), db, i, user)
      ensures (forall i: nat :: !Opens(old(db), i, hash(token), now)) && AllAnswered(answers, 2) ==> r == Err(InviteInvalid)
      ensures r.Err? ==> db == old(db)
    {
      JoinedAdmits(db, hash(token), now, user);
      if !answers(0) { return Err(Unavailable); }
      var done := BurnAndJoin(db, user, hash(token), now, answers, 1);
      if done.Err? { return Err(done.error); }
      if !answers(4) { return Err(Unavailable); }
      var i := ActiveInvite(db.invites, hash(token), now);
      r := Ok(db.invites[i.value].team);
      db := done.value;
    }

    /** Succeeds exactly when a token is given, the form is valid, every call goes through, the
        email is free and the invite is active; then the user is signed up and joined. Otherwise
        nothing changes: no user, no team, no membership, and the invite stays. */
    method SignupWithInvite(email: string, valid: bool, token: string, now: Instant, answers: nat -> bool) returns (r: Result<nat>)
      modifies this`db
      ensures var i := ActiveInvite(old(db).invites, hash(token), now);
              var free := email !in old(db).emails;
              && (r.Ok? <==> token != "" && valid && AllAnswered(answers, 9) && free && i.Some?)
              && (r == Err(Invalid) <==> token != "" && !valid)
              && (r == Err(EmailTaken) <==> token != "" && valid && AllAnswered(answers, 3) && !free)
              && (r == Err(InviteInvalid) <==> token == "" || (valid && AllAnswered(answers, 6) && free && i.None?))
              && (r.Ok? ==> r.value == |old(db).emails| && db == Joined(SignedUp(old(db), email), i.value, r.value))
      ensures r.Ok? ==> exists i: nat, mid ::
                Opens(old(db), i, hash(token), now) && Welcomes(old(db), mid, email) && Admits(mid, db, i, r.value)
      ensures (forall i: nat :: !Opens(old(db), i, hash(token), now)) && email !in old(db).emails && valid && AllAnswered(answers, 6) ==>
                r == Err(InviteInvalid)
      ensures r.Err? ==> db == old(db)
    {
      SignedUpWelcomes(db, email);
      JoinedAdmits(SignedUp(db, email), hash(token), now, |db.emails|);
      assert forall i: nat :: Opens(SignedUp(db, email), i, hash(token), now) <==> Opens(db, i, hash(token), now);
      if token == "" { return Err(InviteInvalid); }
      if !valid { return Err(Invalid); }
      if !answers(0) { return Err(Unavailable); }
      if !answers(1) { return Err(Unavailable); }
      var made := CreateUserAndTeam(db, email, answers, 2);
      if made.Err? { return Err(made.error); }
      var user := |db.emails|;
      var done := BurnAndJoin(made.value, user, hash(token), now, answers, 5);
      if done.Err? { return Err(done.error); }
      if !answers(8) { return Err(Unavailable); }
      db := done.value;
      r := Ok(user);
    }

    /** Issues an invite exactly when the secret is generated, the insert is answered and the
        viewer is a member of the team. */
    method CreateInvite(viewer: nat, team: nat, generated: Option<string>, now: Instant, inserted: bool) returns (r: Result<string>)
      modifies this`db
      ensures r == if generated.None? || !inserted then Err(Unavailable)
                   else if Member(team, viewer) !in old(db).members then Err(NotVisible)
                   else Ok(generated.value)
      ensures db == if r.Ok? then Invited(old(db), team, viewer, hash(r.value), now) else old(db)
      ensures r.Ok? ==> db == old(db).(invites := old(db).invites
                                       + [Invite(team, viewer, hash(r.value), now + 604_800_000_000_000, None)])
    {
      if generated.None? { return Err(Unavailable); }
      if !inserted { return Err(Unavailable); }
      if Member(team, viewer) !in db.members { return Err(NotVisible); }
      db := db.(invites := db.invites + [Invite(team, viewer, hash(generated.value), now + INVITE_TTL, None)]);
      r := Ok(generated.value);
    }
  }

  // ---------------------------------------------------------------------------
  // Runs
  // ---------------------------------------------------------------------------

  datatype Step =
    | SignUp(email: string)
    | Join(user: nat, hash: string, now: Instant)
    | SignUpAndJoin(email: string, hash: string, now: Instant)
    | Offer(team: nat, createdBy: nat, hash: string, now: Instant)

  /** The committed transactions; one that fails is no step. */
  predicate Enabled(db: Db, step: Step) {
    match step
    case SignUp(email) => email !in db.emails
    case Join(user, hash, now) => user < |db.emails| && ActiveInvite(db.invites, hash, now).Some?
    case SignUpAndJoin(email, hash, now) => email !in db.emails && ActiveInvite(db.invites, hash, now).Some?
    case Offer(team, createdBy, _, _) => Member(team, createdBy) in db.members
  }

  function Apply(db: Db, step: Step): Db
    requires Enabled(db, step)
  {
    match step
    case SignUp(email) => SignedUp(db, email)
    case Join(user, hash, now) => Joined(db, ActiveInvite(db.invites, hash, now).value, user)
    case SignUpAndJoin(email, hash, now) =>
      Joined(SignedUp(db, email), ActiveInvite(db.invites, hash, now).value, |db.emails|)
    case Offer(team, createdBy, hash, now) => Invited(db, team, createdBy, hash, now)
  }

  ghost predicate Runs(db: Db, steps: seq<Step>, after: Db)
    decreases |steps|
  {
    if steps == [] then db == after
    else Enabled(db, steps[0]) && Runs(Apply(db, steps[0]), steps[1..], after)
  }

  ghost predicate Reachable(db: Db) {
    exists steps :: Runs(EMPTY, steps, db)
  }

  // ---------------------------------------------------------------------------
  // Provenance
  // ---------------------------------------------------------------------------

  /** Invite `i` took its consumer into the team, on behalf of the member at position `host`. */
  ghost predicate BroughtIn(db: Db, host: nat, i: nat, k: nat) {
    && host < k < |db.members| && i < |db.invites|
    && db.members[host] == Member(db.members[k].team, db.invites[i].createdBy)
    && db.invites[i].team == db.members[k].team
    && db.invites[i].consumedBy == Some(db.members[k].user)
  }

  ghost predicate Founded(db: Db, k: nat) {
    k < |db.members| && db.members[k].team < |db.founders| && db.members[k].user == db.founders[db.members[k].team]
  }

  ghost predicate Explained(db: Db, k: nat) {
    Founded(db, k) || exists host: nat, i: nat :: BroughtIn(db, host, i, k)
  }

  ghost predicate Inv(db: Db) {
    && (forall j, k :: 0 <= j < k < |db.members| ==> db.members[j] != db.members[k])
    && (forall k :: 0 <= k < |db.members| ==> db.members[k].user < |db.emails| && db.members[k].team < |db.founders|)
    && (forall k: nat :: k < |db.members| ==> Explained(db, k))
    && (forall i :: 0 <= i < |db.invites| ==> InviteOk(db, db.invites[i]))
  }

  ghost predicate InviteOk(db: Db, invite: Invite) {
    && Member(invite.team, invite.createdBy) in db.members
    && (invite.consumedBy.Some? ==> Member(invite.team, invite.consumedBy.value) in db.members)
  }

  /** Tables that only grow, and invites that only get consumed, keep every explanation. */
  ghost predicate Grows(db: Db, after: Db) {
    && db.emails <= after.emails && db.founders <= after.founders && db.members <= after.members
    && |db.invites| <= |after.invites|
    && forall i :: 0 <= i < |db.invites| ==>
         after.invites[i] == db.invites[i]
         || (db.invites[i].consumedBy.None? && after.invites[i].(consumedBy := None) == db.invites[i])
  }

  lemma ExplanationsStay(db: Db, after: Db, k: nat)
    requires Grows(db, after) && k < |db.members| && Explained(db, k)
    ensures Explained(after, k)
  {
    if !Founded(db, k) {
      var host: nat, i: nat :| BroughtIn(db, host, i, k);
      assert BroughtIn(after, host, i, k);
    }
  }

  lemma SignUpKeeps(db: Db, email: string)
    requires Inv(db)
    ensures Inv(SignedUp(db, email)) && Grows(db, SignedUp(db, email))
  {
    var after := SignedUp(db, email);
    forall k: nat | k < |after.members| ensures Explained(after, k) {
      if k < |db.members| {
        ExplanationsStay(db, after, k);
      }
    }
    forall i | 0 <= i < |after.invites| ensures InviteOk(after, after.invites[i]) {
      assert InviteOk(db, db.invites[i]);
    }
  }

  lemma JoinKeeps(db: Db, i: nat, user: nat)
    requires Inv(db) && i < |db.invites| && db.invites[i].consumedBy.None? && user < |db.emails|
    ensures Inv(Joined(db, i, user)) && Grows(db, Joined(db, i, user))
  {
    var after, member := Joined(db, i, user), Member(db.invites[i].team, user);
    assert InviteOk(db, db.invites[i]);
    var host: nat :| host < |db.members| && db.members[host] == Member(db.invites[i].team, db.invites[i].createdBy);
    forall k: nat | k < |after.members| ensures Explained(after, k) {
      if k < |db.members| {
        ExplanationsStay(db, after, k);
      } else {
        assert BroughtIn(after, host, i, k);
      }
    }
    forall j | 0 <= j < |after.invites| ensures InviteOk(after, after.invites[j]) {
      assert InviteOk(db, db.invites[j]);
    }
  }

  lemma OfferKeeps(db: Db, team: nat, createdBy: nat, hash: string, now: Instant)
    requires Inv(db) && Member(team, createdBy) in db.members
    ensures Inv(Invited(db, team, createdBy, hash, now)) && Grows(db, Invited(db, team, createdBy, hash, now))
  {
    var after := Invited(db, team, createdBy, hash, now);
    forall k: nat | k < |after.members| ensures Explained(after, k) {
      ExplanationsStay(db, after, k);
    }
    forall j | 0 <= j < |after.invites| ensures InviteOk(after, after.invites[j]) {
      if j < |db.invites| {
        assert InviteOk(db, db.invites[j]);
      }
    }
  }

  lemma StepKeeps(db: Db, step: Step)
    requires Inv(db) && Enabled(db, step)
    ensures Inv(Apply(db, step)) && Grows(db, Apply(db, step))
  {
    hide Inv;
    match step
    case SignUp(email) => SignUpKeeps(db, email);
    case Join(user, hash, now) => JoinKeeps(db, ActiveInvite(db.invites, hash, now).value, user);
    case SignUpAndJoin(email, hash, now) =>
      SignUpKeeps(db, email);
      JoinKeeps(SignedUp(db, email), ActiveInvite(db.invites, hash, now).value, |db.emails|);
    case Offer(team, createdBy, hash, now) => OfferKeeps(db, team, createdBy, hash, now);
  }

  lemma {:induction false} RunKeeps(db: Db, steps: seq<Step>, after: Db)
    requires Inv(db) && Runs(db, steps, after)
    ensures Inv(after) && Grows(db, after)
    decreases |steps|
  {
    hide Inv, Enabled, Apply;
    if steps != [] {
      StepKeeps(db, steps[0]);
      RunKeeps(Apply(db, steps[0]), steps[1..], after);
    }
  }

  /** A chain of consumed invites from the founder, at positions of the membership table that
      only increase: each invite was made by one link and consumed by the next. */
  ghost predicate Chain(db: Db, positions: seq<nat>, invites: seq<nat>) {
    && |positions| == |invites| + 1
    && Founded(db, positions[0])
    && forall j :: 0 <= j < |invites| ==> BroughtIn(db, positions[j], invites[j], positions[j + 1])
  }

  /** In every reachable state each member of a team is its founder or is reached from the
      founder by such a chain. */
  lemma EveryMemberWasInvited(db: Db, k: nat) returns (positions: seq<nat>, invites: seq<nat>)
    requires Reachable(db) && k < |db.members|
    ensures Chain(db, positions, invites) && positions[|invites|] == k
    ensures forall a, b :: 0 <= a < b < |positions| ==> positions[a] < positions[b]
    ensures forall a, b :: 0 <= a < b < |invites| ==> invites[a] != invites[b]
    ensures forall j :: 0 <= j < |positions| ==> positions[j] < |db.members| && db.members[positions[j]].team == db.members[k].team
  {
    var steps :| Runs(EMPTY, steps, db);
    RunKeeps(EMPTY, steps, db);
    positions, invites := BuildChain(db, k);
    ChainClimbs(db, positions, invites);
  }

  lemma {:induction false} BuildChain(db: Db, k: nat) returns (positions: seq<nat>, invites: seq<nat>)
    requires Inv(db) && k < |db.members|
    ensures Chain(db, positions, invites) && positions[|invites|] == k
    decreases k
  {
    assert Explained(db, k);
    if Founded(db, k) {
      positions, invites := [k], [];
    } else {
      var host: nat, i: nat :| BroughtIn(db, host, i, k);
      var ps, vs := BuildChain(db, host);
      positions, invites := ps + [k], vs + [i];
      forall j | 0 <= j < |invites| ensures BroughtIn(db, positions[j], invites[j], positions[j + 1]) {
        if j < |vs| {
          assert BroughtIn(db, ps[j], vs[j], ps[j + 1]);
        }
      }
    }
  }

  lemma ChainClimbs(db: Db, positions: seq<nat>, invites: seq<nat>)
    requires Chain(db, positions, invites) && Inv(db)
    ensures forall a, b :: 0 <= a < b < |positions| ==> positions[a] < positions[b]
    ensures forall a, b :: 0 <= a < b < |invites| ==> invites[a] != invites[b]
    ensures forall j :: 0 <= j < |positions| ==> Below(db, positions[j], positions[|invites|])
  {
    forall a, b | 0 <= a <= b < |positions| ensures Below(db, positions[a], positions[b]) && (a < b ==> positions[a] < positions[b]) {
      Climb(db, positions, invites, a, b);
    }
    forall a, b | 0 <= a < b < |invites| ensures invites[a] != invites[b] {
      assert BroughtIn(db, positions[a], invites[a], positions[a + 1]);
      assert BroughtIn(db, positions[b], invites[b], positions[b + 1]);
      assert Below(db, positions[a + 1], positions[b + 1]);
      assert positions[a + 1] < positions[b + 1];
    }
    forall j | 0 <= j < |positions| ensures Below(db, positions[j], positions[|invites|]) {
    }
  }

  ghost predicate Below(db: Db, j: nat, k: nat) {
    j <= k < |db.members| && db.members[j].team == db.members[k].team
  }

  lemma {:induction false} Climb(db: Db, positions: seq<nat>, invites: seq<nat>, a: nat, b: nat)
    requires Chain(db, positions, invites) && a <= b < |positions|
    ensures Below(db, positions[a], positions[b]) && (a < b ==> positions[a] < positions[b])
    decreases b - a
  {
    if a < b {
      assert BroughtIn(db, positions[b - 1], invites[b - 1], positions[b]);
      Climb(db, positions, invites, a, b - 1);
    } else if a > 0 {
      assert BroughtIn(db, positions[a - 1], invites[a - 1], positions[a]);
    }
  }

  /** An invite is consumed at most once: along any run a consumed invite keeps its consumer,
      and every invite keeps its team, its creator and its expiry. */
  lemma ConsumedOnce(db: Db, steps: seq<Step>, after: Db, i: nat)
    requires Reachable(db) && Runs(db, steps, after) && i < |db.invites|
    ensures i < |after.invites| && after.invites[i].(consumedBy := None) == db.invites[i].(consumedBy := None)
    ensures db.invites[i].consumedBy.Some? ==> after.invites[i].consumedBy == db.invites[i].consumedBy
  {
    var before :| Runs(EMPTY, before, db);
    RunKeeps(EMPTY, before, db);
    RunKeeps(db, steps, after);
  }

  /** Nobody joins without an invite of their own: two members who did not found their team were
      brought in by different invites. */
  lemma OwnInvites(db: Db, a: nat, b: nat, hostA: nat, hostB: nat, i: nat, j: nat)
    requires Reachable(db) && a != b && BroughtIn(db, hostA, i, a) && BroughtIn(db, hostB, j, b)
    ensures i != j
  {
    var steps :| Runs(EMPTY, steps, db);
    RunKeeps(EMPTY, steps, db);
    assert a < b ==> db.members[a] != db.members[b];
    assert b < a ==> db.members[b] != db.members[a];
  }

  /** An invite lets nobody in but who has its secret, and once: a step changes no invite that is
      consumed, expired, or of another hash than the step's. */
  lemma SpentInviteIsUseless(db: Db, step: Step, i: nat)
    requires Enabled(db, step) && (step.Join? || step.SignUpAndJoin?) && i < |db.invites|
    requires db.invites[i].consumedBy.Some? || db.invites[i].expiresAt <= step.now || db.invites[i].hash != step.hash
    ensures Apply(db, step).invites[i] == db.invites[i]
  {
  }

  /** A step that joins admits its user by an invite of its hash, unconsumed and unexpired. */
  lemma JoiningNeedsTheSecret(db: Db, step: Step) returns (i: nat)
    requires Enabled(db, step) && (step.Join? || step.SignUpAndJoin?)
    ensures Opens(db, i, step.hash, step.now)
    ensures step.Join? ==> Admits(db, Apply(db, step), i, step.user)
    ensures step.SignUpAndJoin? ==>
              exists mid :: Welcomes(db, mid, step.email) && Admits(mid, Apply(db, step), i, |db.emails|)
  {
    i := ActiveInvite(db.invites, step.hash, step.now).value;
    match step
    case Join(user, hash, now) => JoinedAdmits(db, hash, now, user);
    case SignUpAndJoin(email, hash, now) =>
      SignedUpWelcomes(db, email);
      JoinedAdmits(SignedUp(db, email), hash, now, |db.emails|);
  }
}
