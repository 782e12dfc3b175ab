/**
  The dead-letter table `failed_events`, its statements, and one pass of the drain over it.

  Rows are kept in the order of their distinct, increasing `created_at`, so the drain's
  ORDER BY created_at is the order of the sequence. A row's payload is what parsing it
  yields: the batch, or nothing when it does not parse (EventCodec.BatchRoundTrip is why a
  payload this program wrote always parses to the batch it was written from).
 */
module FailedEvents {
  import opened Common
  import opened EventCodec

  const QUARANTINE_ATTEMPT_LIMIT := 20

  /** 24 hours, in the unit of `now` and `createdAt`. */
  const QUARANTINE_AGE := 24 * 60 * 60 * 1_000_000_000

  datatype Row = Row(
    id: nat,
    payload: Option<seq<Item>>,
    attempts: nat,
    createdAt: Instant,
    quarantined: bool)

  /** The retry budget or the age of the row is spent. */
  predicate ShouldQuarantine(row: Row, now: Instant) {
    || row.attempts + 1 >= QUARANTINE_ATTEMPT_LIMIT
    || (row.createdAt != ZERO_TIME && now - row.createdAt >= QUARANTINE_AGE)
  }

  predicate Replayable(row: Row, now: Instant) {
    !row.quarantined && !ShouldQuarantine(row, now) && row.payload.Some?
  }

  function Payload(row: Row): seq<Item> {
    if row.payload.Some? then row.payload.value else []
  }

  // ---------------------------------------------------------------------------
  // The statements
  // ---------------------------------------------------------------------------

  function Active(rows: seq<Row>): seq<Row> {
    if rows == [] then []
    else if rows[0].quarantined then Active(rows[1..])
    else [rows[0]] + Active(rows[1..])
  }

  function Take(rows: seq<Row>, limit: nat): seq<Row> {
    if limit < |rows| then rows[..limit] else rows
  }

  /** SELECT ... WHERE quarantined_at IS NULL ORDER BY created_at LIMIT limit. */
  function ListForDrain(rows: seq<Row>, limit: nat): seq<Row> {
    Take(Active(rows), limit)
  }

  function Delete(rows: seq<Row>, id: nat): seq<Row> {
    if rows == [] then []
    else if rows[0].id == id then Delete(rows[1..], id)
    else [rows[0]] + Delete(rows[1..], id)
  }

  function Increment(rows: seq<Row>, id: nat): seq<Row> {
    seq(|rows|, i requires 0 <= i < |rows| =>
      if rows[i].id == id then rows[i].(attempts := rows[i].attempts + 1) else rows[i])
  }

  function Quarantine(rows: seq<Row>, id: nat): seq<Row> {
    seq(|rows|, i requires 0 <= i < |rows| =>
      if rows[i].id == id then rows[i].(quarantined := true) else rows[i])
  }

  /** Primary keys follow insertion order. */
  ghost predicate Keyed(rows: seq<Row>) {
    forall i, j :: 0 <= i < j < |rows| ==> rows[i].id < rows[j].id
  }

  function Events(row: Row): multiset<Item> {
    multiset(Payload(row))
  }

  /** Every event a table still holds, quarantined rows included. */
  ghost function Held(rows: seq<Row>): multiset<Item> {
    if rows == [] then multiset{} else Events(rows[0]) + Held(rows[1..])
  }

  // ---------------------------------------------------------------------------
  // Laws of the statements
  // ---------------------------------------------------------------------------

  lemma {:induction false} DeleteSpec(rows: seq<Row>, id: nat)
    ensures forall r :: r in Delete(rows, id) <==> r in rows && r.id != id
    ensures Keyed(rows) ==> Keyed(Delete(rows, id))
  {
    if rows != [] {
      DeleteSpec(rows[1..], id);
      ConsTail(rows);
      if Keyed(rows) {
        assert Keyed(rows[1..]);
        var rest := Delete(rows[1..], id);
        forall j | 0 <= j < |rest| ensures rows[0].id < rest[j].id {
          assert rest[j] in rows[1..];
        }
      }
    }
  }

  lemma {:induction false} HeldAppend(a: seq<Row>, b: seq<Row>)
    ensures Held(a + b) == Held(a) + Held(b)
  {
    if a == [] {
      assert a + b == b;
    } else {
      var first, rest := Events(a[0]), a[1..];
      HeldAppend(rest, b);
      TailOfAppend(a, b);
      assert Held(a) == first + Held(rest);
      assert Held(a + b) == first + Held(rest + b);
    }
  }

  /** Deleting a row releases exactly its own events. */
  lemma {:induction false} DeleteReleases(rows: seq<Row>, row: Row)
    requires Keyed(rows) && row in rows
    ensures Held(rows) == Held(Delete(rows, row.id)) + Events(row)
  {
    if rows[0].id == row.id {
      assert rows[0] == row;
      DeleteMissing(rows[1..], row.id);
    } else {
      DeleteReleases(rows[1..], row);
      TailOfCons(rows[0], Delete(rows[1..], row.id));
    }
  }

  lemma {:induction false} DeleteMissing(rows: seq<Row>, id: nat)
    requires forall r :: r in rows ==> r.id != id
    ensures Delete(rows, id) == rows
  {
    if rows != [] {
      assert rows[0] in rows;
      DeleteMissing(rows[1..], id);
    }
  }

  /** Counting a failed attempt and quarantining release nothing and keep the keys. */
  lemma UpdatesHold(rows: seq<Row>, id: nat)
    ensures Held(Increment(rows, id)) == Held(rows) == Held(Quarantine(rows, id))
    ensures Keyed(rows) ==> Keyed(Increment(rows, id)) && Keyed(Quarantine(rows, id))
  {
    SamePayloadsHoldTheSame(Increment(rows, id), rows);
    SamePayloadsHoldTheSame(Quarantine(rows, id), rows);
  }

  lemma {:induction false} SamePayloadsHoldTheSame(a: seq<Row>, b: seq<Row>)
    requires |a| == |b| && forall i :: 0 <= i < |a| ==> a[i].payload == b[i].payload
    ensures Held(a) == Held(b)
  {
    if a != [] {
      SamePayloadsHoldTheSame(a[1..], b[1..]);
    }
  }

  /** A row other than the one worked on is still there, unchanged. */
  lemma OthersKept(rows: seq<Row>, id: nat, row: Row)
    requires row in rows && row.id != id
    ensures row in Delete(rows, id) && row in Increment(rows, id) && row in Quarantine(rows, id)
  {
    DeleteSpec(rows, id);
    var i :| 0 <= i < |rows| && rows[i] == row;
    assert Increment(rows, id)[i] == row && Quarantine(rows, id)[i] == row;
  }

  lemma {:induction false} ActiveSpec(rows: seq<Row>)
    ensures forall r :: r in Active(rows) <==> r in rows && !r.quarantined
    ensures Keyed(rows) ==> Keyed(Active(rows))
    ensures |Active(rows)| <= |rows|
  {
    if rows != [] {
      var tail := rows[1..];
      ActiveSpec(tail);
      ConsTail(rows);
      if Keyed(rows) {
        assert Keyed(tail);
        forall j | 0 <= j < |Active(tail)| ensures rows[0].id < Active(tail)[j].id {
          assert Active(tail)[j] in tail;
        }
      }
    }
  }
}
