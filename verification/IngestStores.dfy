/**
  What the two stores and the clock answer, and what the service does with the answers.

  The answers are fixed in advance but arbitrary: `World` says what the n-th call to each is
  answered. Everything a flush, a replayed row or a drain pass does is a function of them.
 */
module IngestStores {
  import opened Common
  import opened EventCodec
  import opened FailedEvents
  import opened DeadLetterDrain
  import Pipeline

  /** The driver calls of one batch insert. */
  datatype ChAnswer = ChAnswer(begins: bool, prepares: bool, execs: nat -> bool, closes: bool, commits: bool) {
    /** The block reaches the table only when every call went through, the commit last. */
    predicate Lands(n: nat) {
      begins && prepares && (forall i | 0 <= i < n :: execs(i)) && closes && commits
    }
  }

  datatype World = World(ch: nat -> ChAnswer, pg: nat -> bool, clock: nat -> Instant, format: TimeFormat)

  /** How often each was called so far. */
  datatype Calls = Calls(ch: nat, pg: nat, clock: nat)

  /** What the service has brought about. */
  datatype Stores = Stores(
    landed: seq<Item>,  // rows of events_raw_v1
    rows: seq<Row>,     // failed_events
    nextRow: nat,
    metered: seq<Item>, // every item recordUsage was given
    lost: seq<Item>,    // every item of a batch that neither store took
    fatal: bool,
    calls: Calls)

  /** A payload exists only if every timestamp of the batch can be printed. */
  predicate Storable(world: World, items: seq<Item>) { EncodeBatch(world.format, items).Some? }

  // ---------------------------------------------------------------------------
  // A dead-letter write
  // ---------------------------------------------------------------------------

  predicate RowTaken(world: World, calls: Calls, items: seq<Item>) {
    Storable(world, items) && world.pg(calls.pg)
  }

  /** A batch that cannot be marshalled never reaches Postgres. */
  function AfterWrite(world: World, st: Stores, items: seq<Item>): Stores {
    if !Storable(world, items) then st
    else
      st.(rows := if world.pg(st.calls.pg) then st.rows + [Row(st.nextRow, Some(items), 0, world.clock(st.calls.clock), false)] else st.rows,
          nextRow := if world.pg(st.calls.pg) then st.nextRow + 1 else st.nextRow,
          calls := st.calls.(pg := st.calls.pg + 1, clock := st.calls.clock + 1))
  }

  // ---------------------------------------------------------------------------
  // A flush
  // ---------------------------------------------------------------------------

  datatype FlushOutcome = Landed | DeadLettered | BothFailed

  function OutcomeAt(world: World, calls: Calls, items: seq<Item>): FlushOutcome {
    if world.ch(calls.ch).Lands(|items|) then Landed
    else if RowTaken(world, calls, items) then DeadLettered
    else BothFailed
  }

  function AfterAttempt(world: World, st: Stores, items: seq<Item>): Stores {
    var tried := st.(calls := st.calls.(ch := st.calls.ch + 1));
    match OutcomeAt(world, st.calls, items)
    case Landed => tried.(landed := st.landed + items, metered := st.metered + items, fatal := false)
    case DeadLettered => AfterWrite(world, tried, items)
    case BothFailed => AfterWrite(world, tried, items).(lost := st.lost + items, fatal := true)
  }

  /** ClickHouse decides; if it refuses, a dead-letter row takes the batch when it can be printed and
      Postgres answers; if nothing does, the batch is lost. The flag and the calls follow suit. */
  lemma AttemptSpec(world: World, st: Stores, items: seq<Item>)
    ensures var outcome, after := OutcomeAt(world, st.calls, items), AfterAttempt(world, st, items);
            && (outcome.Landed? <==> world.ch(st.calls.ch).Lands(|items|))
            && (outcome.DeadLettered? <==>
                  !outcome.Landed? && EncodeBatch(world.format, items).Some? && world.pg(st.calls.pg))
            && after.landed == (if outcome.Landed? then st.landed + items else st.landed)
            && after.metered == (if outcome.Landed? then st.metered + items else st.metered)
            && after.rows == (if outcome.DeadLettered?
                              then st.rows + [Row(st.nextRow, Some(items), 0, world.clock(st.calls.clock), false)]
                              else st.rows)
            && after.nextRow == (if outcome.DeadLettered? then st.nextRow + 1 else st.nextRow)
            && after.lost == (if outcome.BothFailed? then st.lost + items else st.lost)
            && after.fatal == (outcome.BothFailed? || (st.fatal && outcome.DeadLettered?))
            && after.calls.ch == st.calls.ch + 1
            && after.calls.pg == st.calls.pg
                                 + (if !outcome.Landed? && EncodeBatch(world.format, items).Some? then 1 else 0)
  {
  }

  /** The batches one after the other. */
  function AfterAll(world: World, st: Stores, batches: seq<seq<Item>>): Stores {
    if batches == [] then st
    else AfterAttempt(world, AfterAll(world, st, batches[..|batches| - 1]), batches[|batches| - 1])
  }

  lemma AfterAllSnoc(world: World, st: Stores, batches: seq<seq<Item>>, batch: seq<Item>)
    ensures AfterAll(world, st, batches + [batch]) == AfterAttempt(world, AfterAll(world, st, batches), batch)
  {
    assert (batches + [batch])[..|batches|] == batches;
  }

  function Concat(batches: seq<seq<Item>>): seq<Item> {
    if batches == [] then [] else Concat(batches[..|batches| - 1]) + batches[|batches| - 1]
  }

  /** Where every item of the batches that were attempted is. */
  ghost function Kept(st: Stores): multiset<Item> {
    multiset(st.landed) + Held(st.rows) + multiset(st.lost)
  }

  lemma HeldOneMore(rows: seq<Row>, row: Row)
    ensures Held(rows + [row]) == Held(rows) + Events(row)
  {
    HeldAppend(rows, [row]);
    assert [row][1..] == [];
  }

  /** A flush puts its batch in exactly one place. */
  lemma AttemptConserves(world: World, st: Stores, items: seq<Item>)
    ensures Kept(AfterAttempt(world, st, items)) == Kept(st) + multiset(items)
  {
    AttemptSpec(world, st, items);
    HeldOneMore(st.rows, Row(st.nextRow, Some(items), 0, world.clock(st.calls.clock), false));
    hide Held, AfterAttempt, OutcomeAt;
  }

  /** What landed, what became rows and what was lost add up to the batches. */
  lemma {:induction false} BatchesConserved(world: World, st: Stores, batches: seq<seq<Item>>)
    ensures Kept(AfterAll(world, st, batches)) == Kept(st) + multiset(Concat(batches))
  {
    hide Kept, Held;
    if batches != [] {
      var front, last := batches[..|batches| - 1], batches[|batches| - 1];
      BatchesConserved(world, st, front);
      AttemptConserves(world, AfterAll(world, st, front), last);
    }
  }

  /** Flushes meter exactly what they land, batch by batch. */
  lemma {:induction false} BatchesMetered(world: World, st: Stores, batches: seq<seq<Item>>) returns (landed: seq<Item>)
    ensures AfterAll(world, st, batches).landed == st.landed + landed
    ensures AfterAll(world, st, batches).metered == st.metered + landed
  {
    landed := [];
    if batches != [] {
      var front, last := batches[..|batches| - 1], batches[|batches| - 1];
      landed := BatchesMetered(world, st, front);
      var before := AfterAll(world, st, front);
      if OutcomeAt(world, before.calls, last).Landed? {
        Associative(st.landed, landed, last);
        Associative(st.metered, landed, last);
        landed := landed + last;
      }
    }
  }

  // ---------------------------------------------------------------------------
  // The flusher's batching
  // ---------------------------------------------------------------------------

  /** What the flusher's select loop is handed, in order. */
  datatype Signal = Received(env: Pipeline.Envelope) | Interval | Notice | ChannelClosed | ContextDone

  predicate Stops(signal: Signal) { signal.ChannelClosed? || signal.ContextDone? }

  /** How many signals are heard: up to the first that stops the loop. */
  function Heard(signals: seq<Signal>): (n: nat)
    ensures n <= |signals| && (forall i :: 0 <= i < n - 1 ==> !Stops(signals[i]))
    ensures n == |signals| || (n > 0 && Stops(signals[n - 1]))
  {
    if signals == [] then 0 else if Stops(signals[0]) then 1 else 1 + Heard(signals[1..])
  }

  lemma {:induction false} HeardAt(signals: seq<Signal>, n: nat)
    requires n <= |signals| && forall i :: 0 <= i < n - 1 ==> !Stops(signals[i])
    requires (n == |signals|) || (n > 0 && Stops(signals[n - 1]))
    ensures Heard(signals) == n
  {
  }

  datatype Batching = Batching(batches: seq<seq<Item>>, buf: seq<Item>)

  function Push(limit: nat, b: Batching, item: Item): Batching {
    var buf := b.buf + [item];
    if |buf| >= limit then Batching(b.batches + [buf], []) else Batching(b.batches, buf)
  }

  function PushAll(limit: nat, b: Batching, items: seq<Item>): Batching {
    if items == [] then b else Push(limit, PushAll(limit, b, items[..|items| - 1]), items[|items| - 1])
  }

  /** A flush attempts nothing on an empty buffer. */
  function Cut(b: Batching): Batching {
    if b.buf == [] then b else Batching(b.batches + [b.buf], [])
  }

  function Fed(limit: nat, signals: seq<Signal>): Batching {
    if signals == [] then Batching([], [])
    else
      var b := Fed(limit, signals[..|signals| - 1]);
      match signals[|signals| - 1]
      case Received(env) => PushAll(limit, b, Pipeline.Stamp(env))
      case Notice => b
      case _ => Cut(b)
  }

  /** The events received, project stamped, in order. */
  function Stamped(signals: seq<Signal>): seq<Item> {
    if signals == [] then []
    else Stamped(signals[..|signals| - 1]) +
         (match signals[|signals| - 1] case Received(env) => Pipeline.Stamp(env) case _ => [])
  }

  /** The envelopes received, in order. */
  function Envelopes(signals: seq<Signal>): seq<Pipeline.Envelope> {
    if signals == [] then []
    else Envelopes(signals[..|signals| - 1]) +
         (match signals[|signals| - 1] case Received(env) => [env] case _ => [])
  }

  lemma {:induction false} StampedCarries(signals: seq<Signal>)
    ensures Pipeline.Carries(Stamped(signals), Envelopes(signals))
  {
    if signals != [] {
      var front, last := signals[..|signals| - 1], signals[|signals| - 1];
      StampedCarries(front);
      if last.Received? {
        Pipeline.StampCarries(last.env);
        Pipeline.CarriesConcat(Stamped(front), Envelopes(front), Pipeline.Stamp(last.env), [last.env]);
      } else {
        assert Stamped(signals) == Stamped(front) && Envelopes(signals) == Envelopes(front);
      }
    }
  }

  /** Ticks and stops. */
  predicate CutsEarly(signal: Signal) { signal.Interval? || Stops(signal) }

  function Cuts(signals: seq<Signal>): nat {
    if signals == [] then 0
    else Cuts(signals[..|signals| - 1]) + if CutsEarly(signals[|signals| - 1]) then 1 else 0
  }

  /** How many batches are not full. */
  function Short(batches: seq<seq<Item>>, limit: nat): nat {
    if batches == [] then 0
    else Short(batches[..|batches| - 1], limit) + if |batches[|batches| - 1]| < limit then 1 else 0
  }

  lemma ShortSnoc(batches: seq<seq<Item>>, batch: seq<Item>, limit: nat)
    ensures Short(batches + [batch], limit) == Short(batches, limit) + if |batch| < limit then 1 else 0
  {
    assert (batches + [batch])[..|batches|] == batches;
  }

  lemma {:induction false} PushAllFull(limit: nat, b: Batching, items: seq<Item>)
    ensures Short(PushAll(limit, b, items).batches, limit) == Short(b.batches, limit)
  {
    if items != [] {
      var before := PushAll(limit, b, items[..|items| - 1]);
      PushAllFull(limit, b, items[..|items| - 1]);
      ShortSnoc(before.batches, before.buf + [items[|items| - 1]], limit);
    }
  }

  /** Batches are full unless a tick or the stop cut them. */
  lemma {:induction false} BatchesAreFull(limit: nat, signals: seq<Signal>)
    ensures Short(Fed(limit, signals).batches, limit) <= Cuts(signals)
  {
    if signals != [] {
      var front, last := signals[..|signals| - 1], signals[|signals| - 1];
      BatchesAreFull(limit, front);
      ShortSnoc(Fed(limit, front).batches, Fed(limit, front).buf, limit);
      if last.Received? {
        PushAllFull(limit, Fed(limit, front), Pipeline.Stamp(last.env));
      }
    }
  }

  lemma FedSnoc(limit: nat, signals: seq<Signal>, k: nat)
    requires k < |signals|
    ensures Fed(limit, signals[..k + 1]) ==
            var b := Fed(limit, signals[..k]);
            match signals[k]
            case Received(env) => PushAll(limit, b, Pipeline.Stamp(env))
            case Notice => b
            case _ => Cut(b)
  {
    assert signals[..k + 1][..k] == signals[..k];
  }

  lemma PushAllSnoc(limit: nat, b: Batching, items: seq<Item>, k: nat)
    requires k < |items|
    ensures PushAll(limit, b, items[..k + 1]) == Push(limit, PushAll(limit, b, items[..k]), items[k])
  {
    assert items[..k + 1][..k] == items[..k];
  }

  ghost predicate Tidy(limit: nat, b: Batching, taken: seq<Item>) {
    && Concat(b.batches) + b.buf == taken
    && (forall i :: 0 <= i < |b.batches| ==> 1 <= |b.batches[i]| <= limit)
    && |b.buf| < limit
  }

  lemma ConcatSnoc(batches: seq<seq<Item>>, batch: seq<Item>)
    ensures Concat(batches + [batch]) == Concat(batches) + batch
  {
    assert (batches + [batch])[..|batches|] == batches;
  }

  /** A batch cut off the buffer. */
  lemma CutTidy(limit: nat, batches: seq<seq<Item>>, buf: seq<Item>, taken: seq<Item>)
    requires Concat(batches) + buf == taken && 1 <= |buf| <= limit
    requires forall i :: 0 <= i < |batches| ==> 1 <= |batches[i]| <= limit
    ensures Tidy(limit, Batching(batches + [buf], []), taken)
  {
    ConcatSnoc(batches, buf);
    hide Concat;
  }

  lemma FlushTidy(limit: nat, b: Batching, taken: seq<Item>)
    requires Tidy(limit, b, taken)
    ensures Tidy(limit, Cut(b), taken) && Cut(b).buf == []
  {
    if b.buf != [] {
      CutTidy(limit, b.batches, b.buf, taken);
    }
  }

  lemma PushTidy(limit: nat, b: Batching, taken: seq<Item>, item: Item)
    requires Tidy(limit, b, taken)
    ensures Tidy(limit, Push(limit, b, item), taken + [item])
  {
    Associative(Concat(b.batches), b.buf, [item]);
    if |b.buf + [item]| >= limit {
      CutTidy(limit, b.batches, b.buf + [item], taken + [item]);
    }
    hide Concat;
  }

  /** Pushing only moves items from what is given to batches and buffer. */
  lemma {:induction false} PushAllConcat(limit: nat, b: Batching, items: seq<Item>)
    ensures var after := PushAll(limit, b, items);
            Concat(after.batches) + after.buf == Concat(b.batches) + b.buf + items
  {
    if items == [] {
      assert Concat(b.batches) + b.buf + [] == Concat(b.batches) + b.buf;
    } else {
      var front, last := items[..|items| - 1], items[|items| - 1];
      PushAllConcat(limit, b, front);
      var before := PushAll(limit, b, front);
      ConcatSnoc(before.batches, before.buf + [last]);
      Associative(Concat(before.batches), before.buf, [last]);
      Associative(Concat(b.batches) + b.buf, front, [last]);
      assert front + [last] == items;
    }
  }

  lemma {:induction false} PushAllTidy(limit: nat, b: Batching, taken: seq<Item>, items: seq<Item>)
    requires Tidy(limit, b, taken)
    ensures Tidy(limit, PushAll(limit, b, items), taken + items)
  {
    hide Tidy, Push;
    if items == [] {
      assert taken + [] == taken;
    } else {
      var front, last := items[..|items| - 1], items[|items| - 1];
      PushAllTidy(limit, b, taken, front);
      PushTidy(limit, PushAll(limit, b, front), taken + front, last);
      assert items == front + [last];
      Associative(taken, front, [last]);
    }
  }

  /** Re-batching refines concatenation: the batches and then the buffer are, position by position,
      the events of the envelopes received; each batch has 1 to `limit` items, and all but those cut by
      a tick or the stop have `limit`; the buffer stays below `limit`. */
  lemma FedTidy(limit: nat, signals: seq<Signal>)
    requires limit >= 1
    ensures var fed := Fed(limit, signals);
            && Pipeline.Carries(Concat(fed.batches) + fed.buf, Envelopes(signals))
            && (forall i :: 0 <= i < |fed.batches| ==> 1 <= |fed.batches[i]| <= limit)
            && Short(fed.batches, limit) <= Cuts(signals)
            && |fed.buf| < limit
            && (signals != [] && CutsEarly(signals[|signals| - 1]) ==> fed.buf == [])
  {
    FedIsTidy(limit, signals);
    StampedCarries(signals);
    BatchesAreFull(limit, signals);
    hide Fed, Stamped, Concat, Pipeline.Carries, Short, Cuts;
  }

  lemma {:induction false} FedIsTidy(limit: nat, signals: seq<Signal>)
    requires limit >= 1
    ensures Tidy(limit, Fed(limit, signals), Stamped(signals))
    ensures signals != [] && (Stops(signals[|signals| - 1]) || signals[|signals| - 1].Interval?) ==> Fed(limit, signals).buf == []
  {
    if signals != [] {
      var front, last := signals[..|signals| - 1], signals[|signals| - 1];
      FedIsTidy(limit, front);
      match last
      case Received(env) => PushAllTidy(limit, Fed(limit, front), Stamped(front), Pipeline.Stamp(env));
      case Notice =>
        assert Stamped(signals) == Stamped(front);
      case Interval =>
        assert Stamped(signals) == Stamped(front);
        FlushTidy(limit, Fed(limit, front), Stamped(front));
      case ChannelClosed =>
        assert Stamped(signals) == Stamped(front);
        FlushTidy(limit, Fed(limit, front), Stamped(front));
      case ContextDone =>
        assert Stamped(signals) == Stamped(front);
        FlushTidy(limit, Fed(limit, front), Stamped(front));
    }
  }

  /** Nothing the flusher receives goes missing: what landed, what became rows, what was lost and
      what is still buffered add up to the events received. */
  lemma ReceivedIsAccountedFor(world: World, st: Stores, limit: nat, signals: seq<Signal>) returns (received: seq<Item>)
    requires limit >= 1
    ensures var fed := Fed(limit, signals);
            && Kept(AfterAll(world, st, fed.batches)) + multiset(fed.buf) == Kept(st) + multiset(received)
            && Pipeline.Carries(received, Envelopes(signals))
  {
    received := Stamped(signals);
    hide Kept, Fed, AfterAll, Pipeline.Carries;
    FedIsTidy(limit, signals);
    StampedCarries(signals);
    BatchesConserved(world, st, Fed(limit, signals).batches);
  }

  // ---------------------------------------------------------------------------
  // A dead-letter row
  // ---------------------------------------------------------------------------

  /** The row is neither quarantined first nor unparseable. */
  predicate Due(row: Row, now: Instant) {
    !ShouldQuarantine(row, now) && row.payload.Some?
  }

  /** What working on the row is answered; each row costs one Postgres statement, and one insert
      if it is due. */
  function SeenAt(world: World, calls: Calls, row: Row): Attempt {
    var now := world.clock(calls.clock);
    Attempt(now, Due(row, now) && world.ch(calls.ch).Lands(|Payload(row)|), world.pg(calls.pg))
  }

  /** Landed, whether or not the row can then be deleted. */
  predicate Replayed(row: Row, seen: Attempt) { Due(row, seen.now) && seen.chOk }

  function ReplayedItems(row: Row, seen: Attempt): seq<Item> {
    if Replayed(row, seen) then Payload(row) else []
  }

  /** Metered only once the row is gone. */
  function MeteredItems(row: Row, seen: Attempt): seq<Item> {
    if Replayed(row, seen) && seen.pgOk then Payload(row) else []
  }

  function AfterRow(world: World, st: Stores, row: Row): Stores {
    var seen := SeenAt(world, st.calls, row);
    st.(landed := st.landed + ReplayedItems(row, seen),
        rows := ProcessRow(st.rows, row, seen),
        metered := st.metered + MeteredItems(row, seen),
        fatal := st.fatal && !(Replayed(row, seen) && seen.pgOk),
        calls := Calls(st.calls.ch + (if Due(row, seen.now) then 1 else 0), st.calls.pg + 1, st.calls.clock + 1))
  }

  /** ClickHouse is asked exactly about a row that failed at most 18 times, is younger than 24 hours
      and parses. Any other row is set aside untried, if Postgres answers; so no row is tried a
      twentieth time. */
  lemma TriedIff(world: World, st: Stores, row: Row)
    ensures var after, now := AfterRow(world, st, row), world.clock(st.calls.clock);
            var tried := row.attempts <= 18 && row.payload.Some?
                         && (row.createdAt == ZERO_TIME || now - row.createdAt < 86_400_000_000_000);
            && after.calls.ch == st.calls.ch + (if tried then 1 else 0)
            && (!tried ==> after.landed == st.landed && after.metered == st.metered && after.fatal == st.fatal
                           && after.rows == if world.pg(st.calls.pg) then Quarantine(st.rows, row.id) else st.rows)
  {
    var seen := SeenAt(world, st.calls, row);
    if !Due(row, seen.now) {
      assert ReplayedItems(row, seen) == [] && MeteredItems(row, seen) == [];
    }
    hide Quarantine, Delete, Increment;
  }

  function AfterPass(world: World, st: Stores, todo: seq<Row>): Stores
    decreases |todo|
  {
    if todo == [] then st else AfterPass(world, AfterRow(world, st, todo[0]), todo[1..])
  }

  function Listing(st: Stores): Stores { st.(calls := st.calls.(pg := st.calls.pg + 1)) }

  /** One drain pass: the list, the rows it yields, the count. */
  function AfterDrain(world: World, st: Stores, limit: nat): Stores {
    if !world.pg(st.calls.pg) then Listing(st)
    else Listing(AfterPass(world, Listing(st), ListForDrain(st.rows, limit)))
  }

  /** A pass is a round of DeadLetterDrain: some answers by row id explain its effect on the table,
      and they are healthy if Postgres answered every statement of the pass. */
  lemma {:induction false} PassIsARound(world: World, st: Stores, todo: seq<Row>) returns (answers: nat -> Attempt)
    requires Keyed(todo)
    ensures AfterPass(world, st, todo).rows == ProcessAll(st.rows, todo, answers)
    ensures (forall k :: st.calls.pg <= k < st.calls.pg + |todo| ==> world.pg(k)) ==> Healthy(answers)
    decreases |todo|
  {
    if todo == [] {
      answers := (id: nat) => Attempt(0, true, true);
    } else {
      var row, rest := todo[0], todo[1..];
      var seen := SeenAt(world, st.calls, row);
      var later := PassIsARound(world, AfterRow(world, st, row), rest);
      answers := (id: nat) => if id == row.id then seen else later(id);
      TodoRest([], todo);
      SameAnswers(ProcessRow(st.rows, row, seen), rest, later, answers);
    }
  }

  /** A whole drain pass, its list included: a round of DeadLetterDrain if the list was answered, and
      nothing at all if not. */
  lemma DrainIsARound(world: World, st: Stores, limit: nat) returns (answers: nat -> Attempt)
    requires Keyed(st.rows)
    ensures AfterDrain(world, st, limit).rows == if world.pg(st.calls.pg) then Pass(st.rows, limit, answers) else st.rows
    ensures (forall k :: world.pg(k)) ==> Healthy(answers)
  {
    ListKeyed(st.rows, limit);
    answers := PassIsARound(world, Listing(st), ListForDrain(st.rows, limit));
  }

  lemma ListKeyed(rows: seq<Row>, limit: nat)
    requires Keyed(rows)
    ensures Keyed(ListForDrain(rows, limit)) && forall r :: r in ListForDrain(rows, limit) ==> r in rows
  {
    ActiveSpec(rows);
  }

  /** A row's events are in the table up to the step that deletes it, and metered in that step. */
  lemma RowMetersWhatItReleases(world: World, st: Stores, row: Row)
    requires Keyed(st.rows) && row in st.rows
    ensures var after := AfterRow(world, st, row);
            && multiset(after.metered) + Held(after.rows) == multiset(st.metered) + Held(st.rows)
            && Keyed(after.rows) && (forall r :: r in st.rows && r.id != row.id ==> r in after.rows)
  {
    var seen := SeenAt(world, st.calls, row);
    RowReleases(st.rows, row, seen);
    RowsStay(st.rows, row, seen);
    hide ProcessRow, Held, Keyed, ShouldQuarantine, SeenAt;
  }

  lemma RowReleases(rows: seq<Row>, row: Row, seen: Attempt)
    requires Keyed(rows) && row in rows
    ensures Held(ProcessRow(rows, row, seen)) + multiset(MeteredItems(row, seen)) == Held(rows)
  {
    hide Held, Keyed, Quarantine, Delete, Increment, ShouldQuarantine;
    UpdatesHold(rows, row.id);
    DeleteReleases(rows, row);
  }

  lemma RowsStay(rows: seq<Row>, row: Row, seen: Attempt)
    requires Keyed(rows)
    ensures Keyed(ProcessRow(rows, row, seen)) && forall r :: r in rows && r.id != row.id ==> r in ProcessRow(rows, row, seen)
  {
    hide Held, Keyed, Quarantine, Delete, Increment, ShouldQuarantine;
    UpdatesHold(rows, row.id);
    DeleteSpec(rows, row.id);
    forall r | r in rows && r.id != row.id ensures r in ProcessRow(rows, row, seen) {
      OthersKept(rows, row.id, r);
    }
  }

  lemma {:induction false} PassMetersWhatItReleases(world: World, st: Stores, todo: seq<Row>)
    requires Keyed(st.rows) && Keyed(todo) && forall r :: r in todo ==> r in st.rows
    ensures var after := AfterPass(world, st, todo);
            multiset(after.metered) + Held(after.rows) == multiset(st.metered) + Held(st.rows)
    decreases |todo|
  {
    if todo != [] {
      RowMetersWhatItReleases(world, st, todo[0]);
      TodoRest([], todo);
      hide Held, AfterRow;
      PassMetersWhatItReleases(world, AfterRow(world, st, todo[0]), todo[1..]);
    }
  }

  /** Whatever the stores answer, what a drain pass takes out of the table is exactly what it meters. */
  lemma DrainMetersWhatItReleases(world: World, st: Stores, limit: nat)
    requires Keyed(st.rows)
    ensures var after := AfterDrain(world, st, limit);
            multiset(after.metered) + Held(after.rows) == multiset(st.metered) + Held(st.rows)
  {
    ListKeyed(st.rows, limit);
    PassMetersWhatItReleases(world, Listing(st), ListForDrain(st.rows, limit));
  }

  lemma {:induction false} SameAnswers(rows: seq<Row>, todo: seq<Row>, a: nat -> Attempt, b: nat -> Attempt)
    requires forall r :: r in todo ==> a(r.id) == b(r.id)
    ensures ProcessAll(rows, todo, a) == ProcessAll(rows, todo, b)
    decreases |todo|
  {
    if todo != [] {
      assert todo[0] in todo;
      SameAnswers(ProcessRow(rows, todo[0], a(todo[0].id)), todo[1..], a, b);
    }
  }
}
