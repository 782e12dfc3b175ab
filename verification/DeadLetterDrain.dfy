/** One drain pass as a function of what the stores answered, and why no row is starved. */
module DeadLetterDrain {
  import opened Common
  import opened EventCodec
  import opened FailedEvents

  /** What a pass saw while working on one row: the clock, the ClickHouse insert, and the one
      Postgres statement that followed. */
  datatype Attempt = Attempt(now: Instant, chOk: bool, pgOk: bool)

  /** The drain works from the row it listed; the table may answer to it or not. */
  function ProcessRow(rows: seq<Row>, row: Row, seen: Attempt): seq<Row> {
    if !seen.pgOk then rows
    else if ShouldQuarantine(row, seen.now) || row.payload.None? then Quarantine(rows, row.id)
    else if seen.chOk then Delete(rows, row.id)
    else Increment(rows, row.id)
  }

  function ProcessAll(rows: seq<Row>, todo: seq<Row>, answers: nat -> Attempt): seq<Row>
    decreases |todo|
  {
    if todo == [] then rows
    else ProcessAll(ProcessRow(rows, todo[0], answers(todo[0].id)), todo[1..], answers)
  }

  function Pass(rows: seq<Row>, limit: nat, answers: nat -> Attempt): seq<Row> {
    ProcessAll(rows, ListForDrain(rows, limit), answers)
  }

  // ---------------------------------------------------------------------------
  // What a pass does to each row
  // ---------------------------------------------------------------------------

  ghost predicate Healthy(answers: nat -> Attempt) {
    forall id :: answers(id).pgOk
  }

  ghost predicate Within(rows: seq<Row>, attempts: nat) {
    forall r :: r in rows ==> r.attempts < attempts
  }

  /** `after` is what became of the active row `before` of the same id: one more attempt if the
      pass took it up, nothing if it did not. */
  predicate Became(before: Row, after: Row, taken: bool) {
    after == if taken then before.(attempts := before.attempts + 1) else before
  }

  lemma ProcessRowSpec(rows: seq<Row>, row: Row, seen: Attempt, after: Row)
    requires Keyed(rows) && row in rows && !row.quarantined && seen.pgOk
    requires after in ProcessRow(rows, row, seen) && !after.quarantined
    ensures exists before :: before in rows && !before.quarantined && before.id == after.id && Became(before, after, before == row)
    ensures after.id == row.id ==> after.attempts < QUARANTINE_ATTEMPT_LIMIT
  {
    DeleteSpec(rows, row.id);
    var r :| 0 <= r < |rows| && rows[r] == row;
    if ProcessRow(rows, row, seen) == Delete(rows, row.id) && after in rows {
      assert Became(after, after, after == row);
    } else {
      var i :| 0 <= i < |rows| && after == ProcessRow(rows, row, seen)[i];
      assert rows[i].id == row.id ==> i == r;
      assert Became(rows[i], after, rows[i] == row);
    }
  }

  lemma ProcessRowKeeps(rows: seq<Row>, row: Row, seen: Attempt)
    requires Keyed(rows)
    ensures Keyed(ProcessRow(rows, row, seen))
    ensures forall r :: r in rows && r.id != row.id ==> r in ProcessRow(rows, row, seen)
  {
    UpdatesHold(rows, row.id);
    DeleteSpec(rows, row.id);
    forall r | r in rows && r.id != row.id ensures r in ProcessRow(rows, row, seen) {
      OthersKept(rows, row.id, r);
    }
  }

  lemma {:induction false} ProcessAllSpec(rows: seq<Row>, todo: seq<Row>, answers: nat -> Attempt, after: Row) returns (before: Row)
    requires Keyed(rows) && Keyed(todo) && Healthy(answers)
    requires forall r :: r in todo ==> r in rows && !r.quarantined
    requires after in ProcessAll(rows, todo, answers) && !after.quarantined
    ensures before in rows && !before.quarantined && before.id == after.id
    ensures Became(before, after, before in todo)
    ensures before in todo ==> after.attempts < QUARANTINE_ATTEMPT_LIMIT
    decreases |todo|
  {
    if todo == [] {
      before := after;
    } else {
      var head, rest := todo[0], todo[1..];
      var next := ProcessRow(rows, head, answers(head.id));
      ProcessRowKeeps(rows, head, answers(head.id));
      TodoRest(rows, todo);
      var mid := ProcessAllSpec(next, rest, answers, after);
      ProcessRowSpec(rows, head, answers(head.id), mid);
      before :| before in rows && !before.quarantined && before.id == mid.id && Became(before, mid, before == head);
      TakenOnce(todo, rows, before, mid);
    }
  }

  lemma TodoRest(rows: seq<Row>, todo: seq<Row>)
    requires Keyed(todo) && todo != []
    ensures Keyed(todo[1..]) && forall r :: r in todo[1..] ==> r in todo && r.id != todo[0].id
  {
  }

  lemma TakenOnce(todo: seq<Row>, rows: seq<Row>, before: Row, mid: Row)
    requires Keyed(rows) && Keyed(todo) && todo != [] && before in rows
    requires forall r :: r in todo ==> r in rows
    requires before.id == mid.id && Became(before, mid, before == todo[0])
    ensures before == todo[0] ==> mid !in todo[1..]
    ensures before != todo[0] ==> mid == before && (before in todo <==> before in todo[1..])
  {
    ConsTail(todo);
    TodoRest(rows, todo);
  }

  lemma {:induction false} ProcessAllKeyed(rows: seq<Row>, todo: seq<Row>, answers: nat -> Attempt)
    requires Keyed(rows)
    ensures Keyed(ProcessAll(rows, todo, answers))
    decreases |todo|
  {
    if todo != [] {
      ProcessRowKeeps(rows, todo[0], answers(todo[0].id));
      ProcessAllKeyed(ProcessRow(rows, todo[0], answers(todo[0].id)), todo[1..], answers);
    }
  }

  // ---------------------------------------------------------------------------
  // Seniority
  // ---------------------------------------------------------------------------

  /** The ids of the active rows older than `id`. */
  ghost function Older(rows: seq<Row>, id: nat): set<nat> {
    set r | r in rows && !r.quarantined && r.id < id :: r.id
  }

  ghost predicate IsActive(rows: seq<Row>, id: nat) {
    exists r :: r in rows && !r.quarantined && r.id == id
  }

  ghost function Ids(rows: seq<Row>): set<nat> {
    set r | r in rows :: r.id
  }

  lemma {:induction false} KeyedIds(rows: seq<Row>)
    requires Keyed(rows)
    ensures |Ids(rows)| == |rows|
  {
    if rows != [] {
      var last, front := rows[|rows| - 1], rows[..|rows| - 1];
      KeyedIds(front);
      assert forall r :: r in rows <==> r in front || r == last;
      assert Ids(rows) == Ids(front) + {last.id};
    }
  }

  lemma IndexIsSeniority(rows: seq<Row>, i: nat)
    requires Keyed(rows) && i < |Active(rows)|
    ensures |Older(rows, Active(rows)[i].id)| == i
  {
    ActiveSpec(rows);
    OlderIsPrefix(Active(rows), i);
    KeyedIds(Active(rows)[..i]);
    assert Older(rows, Active(rows)[i].id) == Older(Active(rows), Active(rows)[i].id);
  }

  lemma OlderIsPrefix(active: seq<Row>, i: nat)
    requires Keyed(active) && i < |active| && forall r :: r in active ==> !r.quarantined
    ensures Older(active, active[i].id) == Ids(active[..i])
  {
    forall r | r in active && r.id < active[i].id ensures r in active[..i] {
      var j :| 0 <= j < |active| && active[j] == r;
      assert j < i;
    }
  }

  /** The drain takes up exactly the `limit` most senior active rows. */
  lemma TakenIffSenior(rows: seq<Row>, limit: nat, row: Row)
    requires Keyed(rows) && row in rows && !row.quarantined
    ensures row in ListForDrain(rows, limit) <==> |Older(rows, row.id)| < limit
  {
    ActiveSpec(rows);
    var active := Active(rows);
    var i :| 0 <= i < |active| && active[i] == row;
    IndexIsSeniority(rows, i);
    if row in ListForDrain(rows, limit) {
      var j :| 0 <= j < |ListForDrain(rows, limit)| && ListForDrain(rows, limit)[j] == row;
      assert active[j].id == active[i].id;
    }
  }

  // ---------------------------------------------------------------------------
  // Passes with arrivals
  // ---------------------------------------------------------------------------

  datatype Table = Table(rows: seq<Row>, nextId: nat)

  /** A table whose ids are in order, below the next one, with no active row past its budget. */
  ghost predicate Sound(t: Table) {
    Keyed(t.rows) && (forall r :: r in t.rows ==> r.id < t.nextId) && Within(t.rows, QUARANTINE_ATTEMPT_LIMIT)
  }

  datatype Arrival = Arrival(items: seq<Item>, at: Instant)

  function Insert(t: Table, arrivals: seq<Arrival>): Table
    decreases |arrivals|
  {
    if arrivals == [] then t
    else Insert(Table(t.rows + [Row(t.nextId, Some(arrivals[0].items), 0, arrivals[0].at, false)], t.nextId + 1), arrivals[1..])
  }

  /** One round: a drain pass, then whatever the flusher has written meanwhile. */
  datatype Round = Round(answers: nat -> Attempt, arrivals: seq<Arrival>)

  function Play(t: Table, limit: nat, round: Round): Table {
    Insert(Table(Pass(t.rows, limit, round.answers), t.nextId), round.arrivals)
  }

  function PlayAll(t: Table, limit: nat, rounds: seq<Round>): Table
    decreases |rounds|
  {
    if rounds == [] then t else PlayAll(Play(t, limit, rounds[0]), limit, rounds[1..])
  }

  ghost predicate AllHealthy(rounds: seq<Round>) {
    forall i :: 0 <= i < |rounds| ==> Healthy(rounds[i].answers)
  }

  lemma {:induction false} InsertSpec(t: Table, arrivals: seq<Arrival>)
    requires Sound(t)
    ensures var u := Insert(t, arrivals);
            && Sound(u) && u.nextId >= t.nextId
            && forall r :: r in u.rows && r.id < t.nextId ==> r in t.rows
    decreases |arrivals|
  {
    if arrivals != [] {
      InsertSpec(Table(t.rows + [Row(t.nextId, Some(arrivals[0].items), 0, arrivals[0].at, false)], t.nextId + 1), arrivals[1..]);
    }
  }

  /** What one round does to an established row: it is gone, or it was too junior to be taken
      up and is unchanged, or it was taken up and has one more attempt, still within budget. */
  lemma RoundSpec(t: Table, limit: nat, round: Round, after: Row) returns (before: Row)
    requires Sound(t) && Healthy(round.answers)
    requires after in Play(t, limit, round).rows && !after.quarantined && after.id < t.nextId
    ensures before in t.rows && !before.quarantined && before.id == after.id
    ensures Became(before, after, |Older(t.rows, before.id)| < limit)
  {
    var todo := ListForDrain(t.rows, limit);
    ActiveSpec(t.rows);
    PassSound(t, limit, round.answers);
    InsertSpec(Table(Pass(t.rows, limit, round.answers), t.nextId), round.arrivals);
    before := ProcessAllSpec(t.rows, todo, round.answers, after);
    TakenIffSenior(t.rows, limit, before);
  }

  lemma PassSound(t: Table, limit: nat, answers: nat -> Attempt)
    requires Sound(t) && Healthy(answers)
    ensures Sound(Table(Pass(t.rows, limit, answers), t.nextId))
  {
    ActiveSpec(t.rows);
    ProcessAllKeyed(t.rows, ListForDrain(t.rows, limit), answers);
    ProcessAllWithin(t.rows, ListForDrain(t.rows, limit), answers, t.nextId);
  }

  lemma {:induction false} ProcessAllWithin(rows: seq<Row>, todo: seq<Row>, answers: nat -> Attempt, nextId: nat)
    requires Sound(Table(rows, nextId)) && Keyed(todo)
    requires forall r :: r in todo ==> r in rows
    ensures forall r :: r in ProcessAll(rows, todo, answers) ==> r.id < nextId && r.attempts < QUARANTINE_ATTEMPT_LIMIT
    decreases |todo|
  {
    if todo != [] {
      var next := ProcessRow(rows, todo[0], answers(todo[0].id));
      ProcessRowKeeps(rows, todo[0], answers(todo[0].id));
      TodoRest(rows, todo);
      ProcessRowWithin(rows, todo[0], answers(todo[0].id), nextId);
      ProcessAllWithin(next, todo[1..], answers, nextId);
    }
  }

  lemma ProcessRowWithin(rows: seq<Row>, row: Row, seen: Attempt, nextId: nat)
    requires Sound(Table(rows, nextId)) && row in rows
    ensures Sound(Table(ProcessRow(rows, row, seen), nextId))
  {
    ProcessRowKeeps(rows, row, seen);
    DeleteSpec(rows, row.id);
    var r :| 0 <= r < |rows| && rows[r] == row;
    forall i | 0 <= i < |rows| && rows[i].id == row.id ensures i == r {
    }
  }

  lemma PlaySound(t: Table, limit: nat, round: Round)
    requires Sound(t) && Healthy(round.answers)
    ensures Sound(Play(t, limit, round)) && Play(t, limit, round).nextId >= t.nextId
  {
    PassSound(t, limit, round.answers);
    InsertSpec(Table(Pass(t.rows, limit, round.answers), t.nextId), round.arrivals);
  }

  /** Nobody overtakes: a round never adds to the rows older than an established one. */
  lemma RoundNeverAges(t: Table, limit: nat, round: Round, id: nat)
    requires Sound(t) && Healthy(round.answers) && id < t.nextId
    ensures Older(Play(t, limit, round).rows, id) <= Older(t.rows, id)
    ensures IsActive(Play(t, limit, round).rows, id) ==> IsActive(t.rows, id)
  {
    var u := Play(t, limit, round);
    forall x | x in Older(u.rows, id) ensures x in Older(t.rows, id) {
      var after :| after in u.rows && !after.quarantined && after.id == x;
      var before := RoundSpec(t, limit, round, after);
    }
    if IsActive(u.rows, id) {
      var after :| after in u.rows && !after.quarantined && after.id == id;
      var before := RoundSpec(t, limit, round, after);
    }
  }

  lemma {:induction false} RoundsNeverAge(t: Table, limit: nat, rounds: seq<Round>, id: nat)
    requires Sound(t) && AllHealthy(rounds) && id < t.nextId
    ensures Sound(PlayAll(t, limit, rounds)) && PlayAll(t, limit, rounds).nextId >= t.nextId
    ensures Older(PlayAll(t, limit, rounds).rows, id) <= Older(t.rows, id)
    ensures IsActive(PlayAll(t, limit, rounds).rows, id) ==> IsActive(t.rows, id)
    decreases |rounds|
  {
    if rounds != [] {
      PlaySound(t, limit, rounds[0]);
      RoundNeverAges(t, limit, rounds[0], id);
      RoundsNeverAge(Play(t, limit, rounds[0]), limit, rounds[1..], id);
    }
  }

  /** A row among the most senior is taken up every round, so it collects one attempt a round. */
  lemma {:induction false} SeniorCollects(t: Table, limit: nat, rounds: seq<Round>, after: Row) returns (before: Row)
    requires Sound(t) && AllHealthy(rounds) && after.id < t.nextId
    requires |Older(t.rows, after.id)| < limit
    requires after in PlayAll(t, limit, rounds).rows && !after.quarantined
    ensures before in t.rows && !before.quarantined && before.id == after.id
    ensures after.attempts == before.attempts + |rounds|
    decreases |rounds|
  {
    if rounds == [] {
      before := after;
    } else {
      var u := Play(t, limit, rounds[0]);
      PlaySound(t, limit, rounds[0]);
      RoundNeverAges(t, limit, rounds[0], after.id);
      SubsetCard(Older(u.rows, after.id), Older(t.rows, after.id));
      var mid := SeniorCollects(u, limit, rounds[1..], after);
      before := RoundSpec(t, limit, rounds[0], mid);
    }
  }

  lemma {:induction false} SubsetCard(a: set<nat>, b: set<nat>)
    requires a <= b
    ensures |a| <= |b|
  {
    if a != {} {
      var x :| x in a;
      SubsetCard(a - {x}, b - {x});
    }
  }

  /** Twenty rounds see off every row that was among the most senior. */
  lemma SeniorsAreGone(t: Table, limit: nat, rounds: seq<Round>, id: nat)
    requires Sound(t) && AllHealthy(rounds) && |rounds| == QUARANTINE_ATTEMPT_LIMIT
    requires id < t.nextId && |Older(t.rows, id)| < limit
    ensures !IsActive(PlayAll(t, limit, rounds).rows, id)
  {
    RoundsNeverAge(t, limit, rounds, id);
    if IsActive(PlayAll(t, limit, rounds).rows, id) {
      var after :| after in PlayAll(t, limit, rounds).rows && !after.quarantined && after.id == id;
      var before := SeniorCollects(t, limit, rounds, after);
      assert false;
    }
  }

  /** Twenty rounds take a junior row at least `limit` places up. */
  lemma JuniorsMoveUp(t: Table, limit: nat, rounds: seq<Round>, id: nat)
    requires Sound(t) && AllHealthy(rounds) && |rounds| == QUARANTINE_ATTEMPT_LIMIT
    requires id < t.nextId && |Older(t.rows, id)| >= limit && IsActive(t.rows, id)
    ensures |Older(PlayAll(t, limit, rounds).rows, id)| <= |Older(t.rows, id)| - limit
  {
    var u := PlayAll(t, limit, rounds);
    RoundsNeverAge(t, limit, rounds, id);
    var seniors := Seniors(t.rows, limit, id);
    forall x | x in seniors ensures x !in Older(u.rows, id) {
      SeniorsAreGone(t, limit, rounds, x);
    }
    SubsetCard(Older(u.rows, id), Older(t.rows, id) - seniors);
  }

  /** The `limit` most senior of the rows older than `id`. */
  lemma Seniors(rows: seq<Row>, limit: nat, id: nat) returns (seniors: set<nat>)
    requires Keyed(rows) && |Older(rows, id)| >= limit && IsActive(rows, id)
    ensures seniors <= Older(rows, id) && |seniors| == limit
    ensures forall x :: x in seniors ==> |Older(rows, x)| < limit
  {
    ActiveSpec(rows);
    var active := Active(rows);
    var row :| row in rows && !row.quarantined && row.id == id;
    var i :| 0 <= i < |active| && active[i] == row;
    IndexIsSeniority(rows, i);
    seniors := Ids(active[..limit]);
    KeyedIds(active[..limit]);
    forall x | x in seniors ensures |Older(rows, x)| < limit && x in Older(rows, id) {
      var j :| 0 <= j < limit && active[j].id == x;
      IndexIsSeniority(rows, j);
      assert active[j] in active;
    }
  }

  /** No starvation: with Postgres answering, an active row with r older active rows is deleted
      or quarantined within 20 * (r / limit + 1) passes, whatever ClickHouse answers, whatever
      the clock says, and however many rows arrive behind it. */
  lemma NoRowStarves(t: Table, limit: nat, rounds: seq<Round>, id: nat)
    requires Sound(t) && AllHealthy(rounds) && id < t.nextId && limit >= 1
    requires |rounds| >= QUARANTINE_ATTEMPT_LIMIT * (|Older(t.rows, id)| / limit + 1)
    ensures !IsActive(PlayAll(t, limit, rounds).rows, id)
  {
    var r := |Older(t.rows, id)|;
    assert r == limit * (r / limit) + r % limit;
    assert limit * (r / limit) + limit == limit * (r / limit + 1);
    GoneWithin(t, limit, rounds, id, r / limit);
  }

  lemma {:induction false} GoneWithin(t: Table, limit: nat, rounds: seq<Round>, id: nat, k: nat)
    requires Sound(t) && AllHealthy(rounds) && id < t.nextId && limit >= 1
    requires |Older(t.rows, id)| < limit * (k + 1) && |rounds| >= QUARANTINE_ATTEMPT_LIMIT * (k + 1)
    ensures !IsActive(PlayAll(t, limit, rounds).rows, id)
    decreases k
  {
    var first, rest := rounds[..QUARANTINE_ATTEMPT_LIMIT], rounds[QUARANTINE_ATTEMPT_LIMIT..];
    assert rounds == first + rest;
    var u := PlayAll(t, limit, first);
    PlayAllConcat(t, limit, first, rest);
    RoundsNeverAge(t, limit, first, id);
    RoundsNeverAge(u, limit, rest, id);
    if |Older(t.rows, id)| < limit {
      SeniorsAreGone(t, limit, first, id);
    } else if IsActive(t.rows, id) {
      JuniorsMoveUp(t, limit, first, id);
      assert limit * (k + 1) == limit * k + limit;
      GoneWithin(u, limit, rest, id, k - 1);
    }
  }

  lemma {:induction false} PlayAllConcat(t: Table, limit: nat, a: seq<Round>, b: seq<Round>)
    requires |a| <= |a + b|
    ensures PlayAll(t, limit, a + b) == PlayAll(PlayAll(t, limit, a), limit, b)
    decreases |a|
  {
    if a == [] {
      assert a + b == b;
    } else {
      TailOfAppend(a, b);
      PlayAllConcat(Play(t, limit, a[0]), limit, a[1..], b);
    }
  }
}
