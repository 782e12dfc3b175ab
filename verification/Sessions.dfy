/**
  Browser sessions: creation, lookup, the sliding expiry that a touch writes from the snapshot
  its request read, and deletion.

  One clock serves the application and the database.
 */
module Sessions {
  import opened Common

  type Instant = int

  datatype Config = Config(slidingWindow: nat, maxLifetime: nat)

  datatype Session = Session(userId: string, createdAt: Instant, expiresAt: Instant)

  type Table = map<nat, Session>

  datatype Error = NotFound | Expired | Unavailable

  datatype Result<T> = Ok(value: T) | Err(error: Error)

  // ---------------------------------------------------------------------------
  // Expiry
  // ---------------------------------------------------------------------------

  /** The sliding window from now, capped at the maximum lifetime from creation. */
  function ComputeExpiry(cfg: Config, createdAt: Instant, now: Instant): (expiry: Instant)
    ensures expiry <= createdAt + cfg.maxLifetime && expiry <= now + cfg.slidingWindow
    ensures expiry == createdAt + cfg.maxLifetime || expiry == now + cfg.slidingWindow
  {
    var target := now + cfg.slidingWindow;
    if target > createdAt + cfg.maxLifetime then createdAt + cfg.maxLifetime else target
  }

  predicate Live(session: Session, now: Instant) {
    session.expiresAt > now
  }

  /** What a touch of a snapshot writes; None when it skips the write. */
  function TouchTarget(cfg: Config, snapshot: Session, now: Instant): Option<Instant> {
    var target := ComputeExpiry(cfg, snapshot.createdAt, now);
    if target > snapshot.expiresAt then Some(target) else None
  }

  /** UPDATE ... SET expires_at WHERE id: whatever the row says by now, if it is still there. */
  function Written(table: Table, id: nat, expiresAt: Instant): Table {
    if id in table then table[id := table[id].(expiresAt := expiresAt)] else table
  }

  function Deleted(table: Table, id: nat): Table { table - {id} }

  /** DELETE ... WHERE expires_at < NOW(). */
  function Swept(table: Table, now: Instant): Table {
    map id | id in table && table[id].expiresAt >= now :: table[id]
  }

  function Earlier(a: Instant, b: Instant): Instant { if a <= b then a else b }

  // ---------------------------------------------------------------------------
  // The service, one call at a time
  // ---------------------------------------------------------------------------

  /** What a request holds of the session it looked up; a touch updates it. */
  class Snapshot {
    const id: nat
    const userId: string
    const createdAt: Instant
    var expiresAt: Instant

    constructor (id: nat, row: Session)
      ensures this.id == id && Value() == row
    {
      this.id, userId, createdAt, expiresAt := id, row.userId, row.createdAt, row.expiresAt;
    }

    function Value(): Session
      reads this
    {
      Session(userId, createdAt, expiresAt)
    }
  }

  /** Each fallible call of a method comes with its answer as a parameter. */
  class Service {
    const cfg: Config
    var table: Table
    var nextId: nat

    ghost predicate Valid()
      reads this
    {
      forall id :: id in table ==> id < nextId
    }

    /** The database stamps created_at, no earlier than the clock the service read. If the user
        cannot be fetched afterwards the session stays in the table, unreported. */
    method CreateSession(userId: string, now: Instant, stamped: Instant, inserted: bool, fetched: bool) returns (r: Result<Snapshot?>)
      requires Valid() && now <= stamped
      modifies this`table, this`nextId
      ensures Valid()
      ensures var row := Session(userId, stamped, ComputeExpiry(cfg, now, now));
              && table == (if inserted then old(table)[old(nextId) := row] else old(table))
              && nextId == (if inserted then old(nextId) + 1 else old(nextId))
              && (if inserted && fetched
                  then r.Ok? && r.value != null && fresh(r.value) && r.value.id == old(nextId) && r.value.Value() == row
                  else r == Err(Unavailable))
    {
      var expires := now + cfg.slidingWindow;
      if expires > now + cfg.maxLifetime { expires := now + cfg.maxLifetime; }
      if !inserted { return Err(Unavailable); }
      var row := Session(userId, stamped, expires);
      table := table[nextId := row];
      nextId := nextId + 1;
      if !fetched { return Err(Unavailable); }
      var snapshot := new Snapshot(nextId - 1, row);
      r := Ok(snapshot);
    }

    /** An expired session is reported as such and, unless the delete fails, deleted. */
    method LookupSession(id: nat, now: Instant, answered: bool, deleted: bool) returns (r: Result<Snapshot?>)
      requires Valid()
      modifies this`table
      ensures Valid()
      ensures if !answered then r == Err(Unavailable) && table == old(table)
              else if id !in old(table) then r == Err(NotFound) && table == old(table)
              else if old(table)[id].expiresAt <= now then r == Err(Expired) && table == (if deleted then Deleted(old(table), id) else old(table))
              else table == old(table) && r.Ok? && r.value != null && fresh(r.value) && r.value.id == id && r.value.Value() == table[id]
    {
      if !answered { return Err(Unavailable); }
      if id !in table { return Err(NotFound); }
      var row := table[id];
      if row.expiresAt <= now {
        if deleted { table := table - {id}; }
        return Err(Expired);
      }
      var snapshot := new Snapshot(id, row);
      r := Ok(snapshot);
    }

    /** Writes the expiry computed from the snapshot over whatever the row has. */
    method TouchSession(sess: Snapshot, now: Instant, answered: bool) returns (r: Result<Instant>)
      requires Valid()
      modifies this`table, sess`expiresAt
      ensures Valid()
      ensures var bound := Earlier(now + cfg.slidingWindow, sess.createdAt + cfg.maxLifetime);
              && (bound <= old(sess.expiresAt) || !answered ==> table == old(table) && sess.expiresAt == old(sess.expiresAt))
              && (bound > old(sess.expiresAt) && answered ==>
                    && sess.expiresAt == bound && table.Keys == old(table).Keys
                    && forall id :: id in table ==>
                         table[id] == if id == sess.id then old(table)[id].(expiresAt := bound) else old(table)[id])
      ensures var target := TouchTarget(cfg, old(sess.Value()), now);
              if target.None? then r == Ok(old(sess.expiresAt)) && table == old(table) && sess.expiresAt == old(sess.expiresAt)
              else if answered then r == Ok(target.value) && table == Written(old(table), sess.id, target.value)
                                    && sess.expiresAt == target.value
              else r == Err(Unavailable) && table == old(table) && sess.expiresAt == old(sess.expiresAt)
    {
      var target := now + cfg.slidingWindow;
      var limit := sess.createdAt + cfg.maxLifetime;
      if target > limit { target := limit; }
      if target <= sess.expiresAt { return Ok(sess.expiresAt); }
      if !answered { return Err(Unavailable); }
      if sess.id in table { table := table[sess.id := table[sess.id].(expiresAt := target)]; }
      sess.expiresAt := target;
      r := Ok(target);
    }

    /** Afterwards the session cannot be looked up, and no other session is affected. */
    method DestroySession(id: nat, answered: bool) returns (ok: bool)
      requires Valid()
      modifies this`table
      ensures Valid() && ok == answered
      ensures ok ==> id !in table
      ensures forall other :: other != id || !ok ==>
                (other in table <==> other in old(table)) && (other in table ==> table[other] == old(table)[other])
    {
      if !answered { return false; }
      table := table - {id};
      ok := true;
    }
  }

  // ---------------------------------------------------------------------------
  // Concurrent requests
  // ---------------------------------------------------------------------------

  /** A request that has read session `id` and may touch it later. */
  datatype Holder = Holder(id: nat, snapshot: Session)

  datatype State = State(
    table: Table,
    nextId: nat,
    now: Instant,
    pending: seq<Option<Instant>>, // clocks read by CreateSession calls that have not inserted
    holders: seq<Holder>,
    touched: map<nat, Instant>)    // the clock of the last touch that wrote each session

  datatype Step =
    | ReadClock                       // a CreateSession call reads its clock
    | Insert(c: nat, userId: string)  // and inserts, at the database's clock
    | LookUp(id: nat)
    | Purge(id: nat)                  // a lookup deletes the expired row
    | Touch(h: nat, clock: Instant)   // writes from the holder's snapshot and a clock it read
    | Destroy(id: nat)
    | Sweep
    | Elapse(nanos: nat)

  predicate Enabled(cfg: Config, s: State, step: Step) {
    match step
    case ReadClock => true
    case Insert(c, _) => c < |s.pending| && s.pending[c].Some?
    case LookUp(id) => id in s.table && Live(s.table[id], s.now)
    case Purge(id) => id in s.table && !Live(s.table[id], s.now)
    case Touch(h, clock) => h < |s.holders| && clock <= s.now && TouchTarget(cfg, s.holders[h].snapshot, clock).Some?
    case Destroy(_) => true
    case Sweep => true
    case Elapse(_) => true
  }

  function Apply(cfg: Config, s: State, step: Step): State
    requires Enabled(cfg, s, step)
  {
    match step
    case ReadClock => s.(pending := s.pending + [Some(s.now)])
    case Insert(c, userId) =>
      var now := s.pending[c].value;
      var row := Session(userId, s.now, ComputeExpiry(cfg, now, now));
      s.(table := s.table[s.nextId := row], nextId := s.nextId + 1, pending := s.pending[c := None],
         holders := s.holders + [Holder(s.nextId, row)])
    case LookUp(id) => s.(holders := s.holders + [Holder(id, s.table[id])])
    case Purge(id) => s.(table := Deleted(s.table, id))
    case Touch(h, clock) =>
      var holder := s.holders[h];
      var target := TouchTarget(cfg, holder.snapshot, clock).value;
      s.(table := Written(s.table, holder.id, target),
         holders := s.holders[h := holder.(snapshot := holder.snapshot.(expiresAt := target))],
         touched := s.touched[holder.id := clock])
    case Destroy(id) => s.(table := Deleted(s.table, id))
    case Sweep => s.(table := Swept(s.table, s.now))
    case Elapse(nanos) => s.(now := s.now + nanos)
  }

  ghost predicate Runs(cfg: Config, s: State, steps: seq<Step>, t: State)
    decreases |steps|
  {
    if steps == [] then s == t
    else Enabled(cfg, s, steps[0]) && Runs(cfg, Apply(cfg, s, steps[0]), steps[1..], t)
  }

  function Initial(now: Instant): State { State(map[], 0, now, [], [], map[]) }

  ghost predicate Reachable(cfg: Config, s: State) {
    exists now, steps :: Runs(cfg, Initial(now), steps, s)
  }

  ghost predicate Capped(cfg: Config, session: Session) {
    session.expiresAt <= session.createdAt + cfg.maxLifetime
  }

  ghost predicate Inv(cfg: Config, s: State) {
    && (forall id :: id in s.table ==> RowOk(cfg, s, id))
    && (forall id :: id in s.touched ==> id < s.nextId)
    && (forall c :: 0 <= c < |s.pending| && s.pending[c].Some? ==> s.pending[c].value <= s.now)
    && (forall h :: 0 <= h < |s.holders| ==> HolderOk(s, s.holders[h]))
  }

  /** A touched row says what its last touch computed. */
  ghost predicate RowOk(cfg: Config, s: State, id: nat)
    requires id in s.table
  {
    var row := s.table[id];
    && id < s.nextId && Capped(cfg, row) && row.createdAt <= s.now
    && (id in s.touched ==> row.expiresAt == ComputeExpiry(cfg, row.createdAt, s.touched[id]))
  }

  /** A snapshot may be stale, but creation time and owner never change, and the snapshot of a row
      no touch has written is the row. */
  ghost predicate HolderOk(s: State, holder: Holder) {
    && holder.id < s.nextId
    && (holder.id in s.table ==>
          var row := s.table[holder.id];
          && row.createdAt == holder.snapshot.createdAt && row.userId == holder.snapshot.userId
          && (holder.id !in s.touched ==> row == holder.snapshot))
  }

  lemma StepKeeps(cfg: Config, s: State, step: Step)
    requires Inv(cfg, s) && Enabled(cfg, s, step)
    ensures Inv(cfg, Apply(cfg, s, step))
  {
    var t := Apply(cfg, s, step);
    forall h | 0 <= h < |t.holders| ensures HolderOk(t, t.holders[h]) {
      if h < |s.holders| {
        assert HolderOk(s, s.holders[h]);
      }
    }
    forall id | id in t.table ensures RowOk(cfg, t, id) {
      if id in s.table {
        assert RowOk(cfg, s, id);
      }
      if step.Touch? {
        assert HolderOk(s, s.holders[step.h]);
      }
    }
  }

  lemma {:induction false} RunKeeps(cfg: Config, s: State, steps: seq<Step>, t: State)
    requires Inv(cfg, s) && Runs(cfg, s, steps, t)
    ensures Inv(cfg, t)
    decreases |steps|
  {
    hide Inv, Apply, Enabled;
    if steps != [] {
      StepKeeps(cfg, s, steps[0]);
      RunKeeps(cfg, Apply(cfg, s, steps[0]), steps[1..], t);
    }
  }

  /** However requests interleave, no session outlives its creation by more than MaxLifetime:
      every lookup at or after that instant fails. */
  lemma LifetimeIsCapped(cfg: Config, s: State, id: nat)
    requires Reachable(cfg, s) && id in s.table
    ensures s.table[id].expiresAt <= s.table[id].createdAt + cfg.maxLifetime
    ensures s.now >= s.table[id].createdAt + cfg.maxLifetime ==> !Enabled(cfg, s, LookUp(id))
  {
    ReachableInv(cfg, s);
    assert RowOk(cfg, s, id);
  }

  /** Along a run a row keeps its owner and its creation time, and one that is gone stays gone:
      a touch from a stale snapshot revives nothing. */
  lemma {:induction false} RowsKeepIdentity(cfg: Config, s: State, steps: seq<Step>, t: State, id: nat)
    requires Runs(cfg, s, steps, t) && id < s.nextId
    ensures id < t.nextId
    ensures id in t.table ==> id in s.table
    ensures id in t.table ==> t.table[id].createdAt == s.table[id].createdAt && t.table[id].userId == s.table[id].userId
    decreases |steps|
  {
    if steps != [] {
      var mid := Apply(cfg, s, steps[0]);
      RowStep(cfg, s, steps[0], id);
      hide Apply, Enabled;
      RowsKeepIdentity(cfg, mid, steps[1..], t, id);
    }
  }

  lemma RowStep(cfg: Config, s: State, step: Step, id: nat)
    requires Enabled(cfg, s, step) && id < s.nextId
    ensures var t := Apply(cfg, s, step);
            && id < t.nextId && (id in t.table ==> id in s.table)
            && (id in t.table ==> t.table[id].createdAt == s.table[id].createdAt && t.table[id].userId == s.table[id].userId)
  {
  }

  /** A session that has not expired leaves the table only when it is destroyed, and only a touch
      changes it; the sweep leaves no expired session. */
  lemma LiveSessionsStay(cfg: Config, s: State, step: Step, id: nat)
    requires Enabled(cfg, s, step) && id < s.nextId && id in s.table
    ensures s.table[id].expiresAt > s.now && step != Destroy(id) ==> id in Apply(cfg, s, step).table
    ensures id in Apply(cfg, s, step).table && !(step.Touch? && s.holders[step.h].id == id) ==>
              Apply(cfg, s, step).table[id] == s.table[id]
    ensures step.Sweep? ==> (id in Apply(cfg, s, step).table <==> s.table[id].expiresAt >= s.now)
    ensures step == Destroy(id) || step == Purge(id) ==> id !in Apply(cfg, s, step).table
  {
    hide ComputeExpiry;
  }

  /** The snapshot is what the row says now. */
  ghost predicate Fresh(s: State, h: nat) {
    h < |s.holders| && s.holders[h].id in s.table && s.table[s.holders[h].id] == s.holders[h].snapshot
  }

  lemma ReachableInv(cfg: Config, s: State)
    requires Reachable(cfg, s)
    ensures Inv(cfg, s)
  {
    var now, steps :| Runs(cfg, Initial(now), steps, s);
    RunKeeps(cfg, Initial(now), steps, s);
  }

  /** The exact condition: in every reachable state a touch shortens the session if and only if an
      earlier-written touch of it read a later clock, and the window from this touch's clock ends
      before the maximum lifetime does. */
  lemma TouchShortensIff(cfg: Config, s: State, h: nat, clock: Instant)
    requires Reachable(cfg, s) && Enabled(cfg, s, Touch(h, clock)) && s.holders[h].id in s.table
    ensures var id := s.holders[h].id;
            (Apply(cfg, s, Touch(h, clock)).table[id].expiresAt < s.table[id].expiresAt) <==>
            (id in s.touched && clock < s.touched[id]
             && clock + cfg.slidingWindow < s.table[id].createdAt + cfg.maxLifetime)
  {
    ReachableInv(cfg, s);
    assert HolderOk(s, s.holders[h]) && RowOk(cfg, s, s.holders[h].id);
  }

  /** Every touch of the run writes from a snapshot that is current when it writes. */
  ghost predicate Serialised(cfg: Config, s: State, steps: seq<Step>)
    decreases |steps|
  {
    steps == [] ||
    (Enabled(cfg, s, steps[0])
     && (steps[0].Touch? && s.holders[steps[0].h].id in s.table ==> Fresh(s, steps[0].h))
     && Serialised(cfg, Apply(cfg, s, steps[0]), steps[1..]))
  }

  /** Serialised touches never shorten a session: along the whole run, as long as the session is
      there, its expiry never falls. */
  lemma {:induction false} SerialisedNeverShortens(cfg: Config, s: State, steps: seq<Step>, t: State, id: nat)
    requires Runs(cfg, s, steps, t) && Serialised(cfg, s, steps) && id < s.nextId && id in t.table
    ensures id in s.table && s.table[id].expiresAt <= t.table[id].expiresAt
    decreases |steps|
  {
    if steps != [] {
      var mid := Apply(cfg, s, steps[0]);
      RowStep(cfg, s, steps[0], id);
      hide Apply, Enabled, Fresh;
      SerialisedNeverShortens(cfg, mid, steps[1..], t, id);
      SerialisedStep(cfg, s, steps[0], id);
    }
  }

  lemma SerialisedStep(cfg: Config, s: State, step: Step, id: nat)
    requires Enabled(cfg, s, step) && id < s.nextId && id in s.table && id in Apply(cfg, s, step).table
    requires step.Touch? && s.holders[step.h].id in s.table ==> Fresh(s, step.h)
    ensures s.table[id].expiresAt <= Apply(cfg, s, step).table[id].expiresAt
  {
  }

  /** The hazard is real: two requests read one session, the one with the later clock writes
      first, and the other then shortens the session. */
  lemma StaleTouchCanShorten(cfg: Config, userId: string)
    requires cfg.slidingWindow >= 1 && cfg.maxLifetime >= cfg.slidingWindow + 2
    ensures exists s: State, h: nat, clock ::
              && Reachable(cfg, s) && Enabled(cfg, s, Touch(h, clock)) && s.holders[h].id in s.table
              && Apply(cfg, s, Touch(h, clock)).table[s.holders[h].id].expiresAt < s.table[s.holders[h].id].expiresAt
  {
    var s0 := Initial(0);
    var steps := [ReadClock, Insert(0, userId), LookUp(0), Elapse(2), Touch(0, 2)];
    var s1 := Apply(cfg, s0, ReadClock);
    var s2 := Apply(cfg, s1, Insert(0, userId));
    var s3 := Apply(cfg, s2, LookUp(0));
    var s4 := Apply(cfg, s3, Elapse(2));
    var s5 := Apply(cfg, s4, Touch(0, 2));
    RunsFive(cfg, s0, steps, s1, s2, s3, s4, s5);
    assert s5.table[0].expiresAt == cfg.slidingWindow + 2;
    assert Enabled(cfg, s5, Touch(1, 1));
    assert Apply(cfg, s5, Touch(1, 1)).table[0].expiresAt == cfg.slidingWindow + 1;
  }

  lemma RunsFive(cfg: Config, s0: State, steps: seq<Step>, s1: State, s2: State, s3: State, s4: State, s5: State)
    requires |steps| == 5
    requires Enabled(cfg, s0, steps[0]) && s1 == Apply(cfg, s0, steps[0])
    requires Enabled(cfg, s1, steps[1]) && s2 == Apply(cfg, s1, steps[1])
    requires Enabled(cfg, s2, steps[2]) && s3 == Apply(cfg, s2, steps[2])
    requires Enabled(cfg, s3, steps[3]) && s4 == Apply(cfg, s3, steps[3])
    requires Enabled(cfg, s4, steps[4]) && s5 == Apply(cfg, s4, steps[4])
    ensures Runs(cfg, s0, steps, s5)
  {
    hide Enabled, Apply;
    assert Runs(cfg, s5, steps[5..], s5);
    assert steps[4..][1..] == steps[5..] && steps[3..][1..] == steps[4..] && steps[2..][1..] == steps[3..];
    assert steps[1..][1..] == steps[2..];
    assert Runs(cfg, s4, steps[4..], s5);
    assert Runs(cfg, s3, steps[3..], s5);
    assert Runs(cfg, s2, steps[2..], s5);
    assert Runs(cfg, s1, steps[1..], s5);
  }
}
