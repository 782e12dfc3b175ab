/**
  The ingest service as code: the channel, the flusher loop, the dead-letter drain and the
  shutdown capture, as methods over the service's own fields.

  Each method's contract says what it did as a function of what the stores and the clock answer
  (IngestStores); the counters in `calls` make it use every answer it is given, once, in order.
 */
module IngestService {
  import opened Common
  import opened EventCodec
  import opened FailedEvents
  import opened DeadLetterDrain
  import opened IngestStores
  import Pipeline

  // ---------------------------------------------------------------------------
  // Usage counts
  // ---------------------------------------------------------------------------

  datatype Usage = Usage(project: string, events: nat)

  function CountFor(items: seq<Item>, project: string): nat {
    if items == [] then 0
    else CountFor(items[..|items| - 1], project) + if items[|items| - 1].project == project then 1 else 0
  }

  /** The items whose project is in `projects`. */
  function CountIn(items: seq<Item>, projects: set<string>): nat {
    if items == [] then 0
    else CountIn(items[..|items| - 1], projects) + if items[|items| - 1].project in projects then 1 else 0
  }

  function Projects(items: seq<Item>): set<string> {
    set i | 0 <= i < |items| :: items[i].project
  }

  /** What a project has been charged in total. */
  function Charged(calls: seq<Usage>, project: string): nat {
    if calls == [] then 0
    else Charged(calls[..|calls| - 1], project) + if calls[|calls| - 1].project == project then calls[|calls| - 1].events else 0
  }

  function Total(calls: seq<Usage>): nat {
    if calls == [] then 0 else Total(calls[..|calls| - 1]) + calls[|calls| - 1].events
  }

  function Positions(items: seq<Item>, project: string): set<nat> {
    set i: nat | i < |items| && items[i].project == project
  }

  /** The count is the number of positions that hold an item of the project. */
  lemma {:induction false} CountIsCardinality(items: seq<Item>, project: string)
    ensures CountFor(items, project) == |Positions(items, project)|
  {
    if items == [] {
      assert Positions(items, project) == {};
    } else {
      var front, n := items[..|items| - 1], |items| - 1;
      CountIsCardinality(front, project);
      assert Positions(items, project) == Positions(front, project) + if items[n].project == project then {n} else {};
    }
  }

  lemma {:induction false} CountSplits(items: seq<Item>, projects: set<string>, project: string)
    requires project in projects
    ensures CountIn(items, projects) == CountIn(items, projects - {project}) + CountFor(items, project)
  {
    if items != [] {
      CountSplits(items[..|items| - 1], projects, project);
    }
  }

  lemma {:induction false} CountAll(items: seq<Item>, projects: set<string>)
    requires forall i :: 0 <= i < |items| ==> items[i].project in projects
    ensures CountIn(items, projects) == |items|
  {
    if items != [] {
      CountAll(items[..|items| - 1], projects);
    }
  }

  lemma {:induction false} CountNone(items: seq<Item>)
    ensures CountIn(items, {}) == 0
  {
    if items != [] {
      CountNone(items[..|items| - 1]);
    }
  }

  lemma {:induction false} CountForConcat(a: seq<Item>, b: seq<Item>, project: string)
    ensures CountFor(a + b, project) == CountFor(a, project) + CountFor(b, project)
  {
    if b == [] {
      assert a + b == a;
    } else {
      CountForConcat(a, b[..|b| - 1], project);
      assert (a + b)[..|a + b| - 1] == a + b[..|b| - 1];
    }
  }

  lemma {:induction false} CountForAbsent(items: seq<Item>, project: string)
    requires project !in Projects(items)
    ensures CountFor(items, project) == 0
  {
    if items != [] {
      assert items[|items| - 1].project in Projects(items);
      assert Projects(items[..|items| - 1]) <= Projects(items);
      CountForAbsent(items[..|items| - 1], project);
    }
  }

  /** Distinct projects, each with its own count. */
  ghost predicate Faithful(calls: seq<Usage>, items: seq<Item>) {
    && (forall i :: 0 <= i < |calls| ==> calls[i].project in Projects(items) && calls[i].events == CountFor(items, calls[i].project))
    && (forall i, j :: 0 <= i < j < |calls| ==> calls[i].project != calls[j].project)
  }

  /** One call per distinct project of `items`, together counting each item once. */
  ghost predicate Reported(before: seq<Usage>, after: seq<Usage>, items: seq<Item>) {
    && before <= after
    && var calls := after[|before|..];
       Total(calls) == |items| && |calls| == |Projects(items)| && Faithful(calls, items) && Covered(calls) == Projects(items)
  }

  ghost function Covered(calls: seq<Usage>): set<string> {
    set i | 0 <= i < |calls| :: calls[i].project
  }

  lemma {:induction false} ChargedConcat(a: seq<Usage>, b: seq<Usage>, project: string)
    ensures Charged(a + b, project) == Charged(a, project) + Charged(b, project)
  {
    if b == [] {
      assert a + b == a;
    } else {
      ChargedConcat(a, b[..|b| - 1], project);
      assert (a + b)[..|a + b| - 1] == a + b[..|b| - 1];
    }
  }

  lemma {:induction false} ChargedOnce(calls: seq<Usage>, items: seq<Item>, project: string)
    requires Faithful(calls, items)
    ensures Charged(calls, project) ==
            if exists i :: 0 <= i < |calls| && calls[i].project == project then CountFor(items, project) else 0
  {
    if calls != [] {
      var front, last := calls[..|calls| - 1], calls[|calls| - 1];
      ChargedOnce(front, items, project);
      if last.project == project {
        assert forall i :: 0 <= i < |front| ==> front[i].project != project;
      } else if exists i :: 0 <= i < |calls| && calls[i].project == project {
        var i :| 0 <= i < |calls| && calls[i].project == project;
        assert front[i] == calls[i];
      }
    }
  }

  /** Faithful calls that cover every project charge each its count. */
  lemma ChargedByCounts(calls: seq<Usage>, items: seq<Item>, project: string)
    requires Faithful(calls, items)
    requires Covered(calls) == Projects(items)
    ensures Charged(calls, project) == CountFor(items, project)
  {
    ChargedOnce(calls, items, project);
    assert project in Covered(calls) <==> exists i :: 0 <= i < |calls| && calls[i].project == project;
    if project !in Projects(items) {
      CountForAbsent(items, project);
    }
  }

  lemma FaithfulPush(calls: seq<Usage>, call: Usage, items: seq<Item>)
    requires Faithful(calls, items) && call.project in Projects(items) && call.events == CountFor(items, call.project)
    requires call.project !in Covered(calls)
    ensures Faithful(calls + [call], items) && Covered(calls + [call]) == Covered(calls) + {call.project}
  {
    var more := calls + [call];
    assert forall i :: 0 <= i < |calls| ==> more[i] == calls[i] && calls[i].project in Covered(calls);
    assert more[|calls|].project == call.project;
  }

  lemma NoCalls(items: seq<Item>)
    ensures Total([]) == 0 && Faithful([], items) && Covered([]) == {}
  {
  }

  lemma ChargedPush(calls: seq<Usage>, call: Usage, project: string)
    ensures Charged(calls + [call], project) == Charged(calls, project) + if call.project == project then call.events else 0
    ensures Total(calls + [call]) == Total(calls) + call.events
  {
    assert (calls + [call])[..|calls|] == calls;
  }

  // ---------------------------------------------------------------------------
  // The service
  // ---------------------------------------------------------------------------

  /** What a request is answered: a retry hint in seconds, a refusal of the body, or counts. */
  datatype Response =
    | Unavailable(retryAfter: nat)
    | BadRequest
    | Answered(status: nat, accepted: nat, errors: seq<ValidationError>)

  class Service {
    const cfg: Pipeline.Config
    const world: World

    // The channel.
    var queue: seq<Pipeline.Envelope>
    var pending: int
    var closed: bool

    // The stores.
    var landed: seq<Item>      // rows of events_raw_v1
    var rows: seq<Row>         // failed_events
    var nextRow: nat
    var usage: seq<Usage>      // calls to the usage sink
    var calls: Calls           // calls made to the stores and the clock

    // Flags.
    var fatal: bool
    var disabled: bool
    var dlqDepth: nat

    ghost var metered: seq<Item> // every item recordUsage was given
    ghost var lost: seq<Item>    // every item of a batch that neither store took
    ghost var batches: seq<seq<Item>> // every batch a flush was attempted on

    ghost predicate Valid()
      reads this
    {
      cfg.Valid() && forall p :: Charged(usage, p) == CountFor(metered, p)
    }

    ghost function View(): Stores
      reads this
    {
      Stores(landed, rows, nextRow, metered, lost, fatal, calls)
    }

    constructor (cfg: Pipeline.Config, world: World, disabled: bool)
      requires cfg.Valid()
      ensures Valid() && this.cfg == cfg && this.world == world && this.disabled == disabled
      ensures queue == [] && pending == 0 && !closed && usage == [] && batches == []
      ensures View() == Stores([], [], 0, [], [], false, Calls(0, 0, 0))
    {
      this.cfg, this.world := cfg, world;
      queue, pending, closed := [], 0, false;
      landed, rows, nextRow, usage, calls := [], [], 0, [], Calls(0, 0, 0);
      fatal, this.disabled, dlqDepth := false, disabled, 0;
      metered, lost, batches := [], [], [];
    }

    /** Reserves slots, then enqueues without blocking; a full channel rolls the reservation
        back. Here without interference, so the compare-and-swap wins at its first try. */
    method Submit(env: Pipeline.Envelope) returns (ok: bool)
      requires Valid() && !closed
      modifies this`queue, this`pending
      ensures ok <==> env.events == [] ||
                      (old(pending) + |env.events| <= cfg.eventBuffer && |old(queue)| < cfg.ChanCap())
      ensures queue == if ok && env.events != [] then old(queue) + [env] else old(queue)
      ensures pending == if ok then old(pending) + |env.events| else old(pending)
    {
      var n := |env.events|;
      if n == 0 { return true; }
      var cur := pending;
      if cur + n > cfg.eventBuffer { return false; }
      pending := cur + n;
      if |queue| < cfg.ChanCap() {
        queue := queue + [env];
        return true;
      }
      pending := pending - n;
      return false;
    }

    /** One request, from the flag checks to the response; `body` is None when it does not
        decode. What is acknowledged is exactly what is queued: the sound events of the body, in
        order, under the project of the token. */
    method PostIngest(project: string, body: Option<seq<Event>>) returns (r: Response)
      requires Valid() && !closed
      modifies this`queue, this`pending
      ensures disabled ==> r == Unavailable(300)
      ensures !disabled && fatal ==> r == Unavailable(5)
      ensures !disabled && !fatal && body.None? ==> r == BadRequest
      ensures !disabled && !fatal && body.Some? ==>
                var sound := SoundEvents(body.value);
                if sound == [] then r == Answered(200, 0, Defects(body.value))
                else if old(pending) + |sound| <= cfg.eventBuffer && |old(queue)| < cfg.ChanCap()
                then r == Answered(202, |sound|, Defects(body.value))
                else r == Unavailable(1)
      ensures r.Answered? ==> r.accepted + |r.errors| == |body.value|
      ensures var queued := r.Answered? && r.accepted > 0;
              && queue == (if queued then old(queue) + [Pipeline.Envelope(project, SoundEvents(body.value))] else old(queue))
              && pending == (if queued then old(pending) + r.accepted else old(pending))
    {
      if disabled { return Unavailable(300); }
      if fatal { return Unavailable(5); }
      if body.None? { return BadRequest; }
      var valid, rejected := ValidateBatch(body.value);
      if |valid| == 0 { return Answered(200, 0, rejected); }
      var ok := Submit(Pipeline.Envelope(project, valid));
      if !ok { return Unavailable(1); }
      r := Answered(202, |valid|, rejected);
    }

    method Drained(n: nat)
      modifies this`pending
      ensures pending == old(pending) - n
    {
      pending := pending - n;
    }

    /** Begin, prepare, one exec per item into the driver's block, close, commit. The block
        reaches the table with the commit, whole, and a failure before it leaves no trace. */
    method InsertIntoClickHouse(items: seq<Item>) returns (ok: bool)
      modifies this`landed, this`calls
      ensures var answer := world.ch(old(calls).ch);
              && ok == answer.Lands(|items|)
              && (ok <==> answer.begins && answer.prepares && answer.closes && answer.commits
                          && forall i :: 0 <= i < |items| ==> answer.execs(i))
      ensures landed == if ok then old(landed) + items else old(landed)
      ensures calls == old(calls).(ch := old(calls).ch + 1)
    {
      var answer := world.ch(calls.ch);
      calls := calls.(ch := calls.ch + 1);
      if !answer.begins { return false; }
      if !answer.prepares { return false; }
      var block: seq<Item> := [];
      for i := 0 to |items|
        invariant block == items[..i] && forall k :: 0 <= k < i ==> answer.execs(k)
      {
        if !answer.execs(i) { return false; }
        block := block + [items[i]];
      }
      if !answer.closes { return false; }
      if !answer.commits { return false; }
      assert items[..|items|] == items;
      landed := landed + block;
      ok := true;
    }

    /** One dead-letter row for the whole batch, stamped by the database. */
    method WriteDLQ(items: seq<Item>) returns (ok: bool)
      modifies this`rows, this`nextRow, this`calls
      ensures ok == RowTaken(world, old(calls), items)
      ensures View() == AfterWrite(world, old(View()), items)
    {
      var payload := EncodeBatch(world.format, items);
      if payload.None? { return false; }
      ok := world.pg(calls.pg);
      var stamp := world.clock(calls.clock);
      calls := calls.(pg := calls.pg + 1, clock := calls.clock + 1);
      if ok {
        rows, nextRow := rows + [Row(nextRow, Some(items), 0, stamp, false)], nextRow + 1;
      }
    }

    /** One call per distinct project of a landed batch, in no particular order; together they
        count every item of the batch once. */
    method RecordUsage(items: seq<Item>)
      requires Valid()
      modifies this`usage, this`metered
      ensures Valid() && metered == old(metered) + items
      ensures Reported(old(usage), usage, items)
    {
      if |items| == 0 {
        assert usage == old(usage) + [] && metered == metered + items;
        assert Projects(items) == {};
        return;
      }
      var counts := CountByProject(items);
      ghost var calls := Emit(counts, items);
      metered := metered + items;
      forall p ensures Charged(usage, p) == CountFor(metered, p) {
        CountForConcat(old(metered), items, p);
        ChargedConcat(old(usage), calls, p);
        ChargedByCounts(calls, items, p);
      }
    }

    /** Emits the counts, one call per project. */
    method Emit(counts: map<string, nat>, items: seq<Item>) returns (ghost calls: seq<Usage>)
      requires counts.Keys == Projects(items) && forall p :: p in counts ==> counts[p] == CountFor(items, p)
      modifies this`usage
      ensures usage == old(usage) + calls
      ensures Total(calls) == |items| && |calls| == |Projects(items)|
      ensures Faithful(calls, items) && Covered(calls) == Projects(items)
    {
      hide CountFor, CountIn, Total, Faithful;
      var todo := counts.Keys;
      calls := [];
      NoCalls(items);
      CountAll(items, todo);
      while todo != {}
        invariant todo <= counts.Keys
        invariant usage == old(usage) + calls
        invariant Total(calls) + CountIn(items, todo) == |items|
        invariant |calls| + |todo| == |Projects(items)|
        invariant Faithful(calls, items)
        invariant Covered(calls) == counts.Keys - todo
        decreases |todo|
      {
        var project :| project in todo;
        var call := Usage(project, counts[project]);
        CountSplits(items, todo, project);
        ChargedPush(calls, call, project);
        FaithfulPush(calls, call, items);
        assert usage + [call] == old(usage) + (calls + [call]);
        usage, calls, todo := usage + [call], calls + [call], todo - {project};
      }
      CountNone(items);
    }

    method CountByProject(items: seq<Item>) returns (counts: map<string, nat>)
      ensures counts.Keys == Projects(items)
      ensures forall p :: p in counts ==> counts[p] == CountFor(items, p)
    {
      counts := map[];
      for i := 0 to |items|
        invariant counts.Keys == Projects(items[..i])
        invariant forall p :: p in counts ==> counts[p] == CountFor(items[..i], p)
      {
        var p := items[i].project;
        assert items[..i + 1][..i] == items[..i];
        if p !in counts { CountForAbsent(items[..i], p); }
        counts := counts[p := (if p in counts then counts[p] else 0) + 1];
        assert forall j :: 0 <= j < i ==> items[..i + 1][j] == items[..i][j];
        assert Projects(items[..i + 1]) == Projects(items[..i]) + {p};
      }
      assert items[..|items|] == items;
    }

    /** ClickHouse, else the dead-letter table, else the fatal flag. */
    method AttemptFlush(items: seq<Item>) returns (ghost outcome: FlushOutcome)
      requires Valid()
      modifies this`landed, this`rows, this`nextRow, this`usage, this`metered, this`lost, this`fatal, this`batches, this`calls
      ensures Valid() && batches == old(batches) + [items]
      ensures outcome == OutcomeAt(world, old(calls), items)
      ensures View() == AfterAttempt(world, old(View()), items)
    {
      hide EncodeBatch, Charged, CountFor, Storable, ChAnswer.Lands;
      batches := batches + [items];
      outcome := OutcomeAt(world, calls, items);
      var inserted := InsertIntoClickHouse(items);
      if inserted {
        RecordUsage(items);
        if fatal { fatal := false; }
        return;
      }
      var written := WriteDLQ(items);
      if !written {
        lost := lost + items;
        fatal := true;
      }
    }

    /** The flusher loop over the signals its select receives, up to the one that stops it.
        `buf` is what is still unflushed when the signals run out. */
    method RunFlusher(signals: seq<Signal>) returns (buf: seq<Item>, seen: nat)
      requires Valid()
      modifies this`landed, this`rows, this`nextRow, this`usage, this`metered, this`lost, this`fatal, this`batches, this`calls, this`pending
      ensures Valid() && seen == Heard(signals)
      ensures var fed := Fed(cfg.flushEvents, signals[..seen]);
              && batches == old(batches) + fed.batches && buf == fed.buf
              && View() == AfterAll(world, old(View()), fed.batches)
              && pending == old(pending) - |Concat(fed.batches)|
      ensures Pipeline.Carries(Concat(batches[|old(batches)|..]) + buf, Envelopes(signals[..seen]))
    {
      buf, seen := [], 0;
      ghost var fed := Batching([], []);
      while seen < |signals|
        invariant seen <= |signals| && fed == Fed(cfg.flushEvents, signals[..seen]) && buf == fed.buf
        invariant Flushed(old(batches), old(View()), old(pending), fed.batches)
        invariant forall i :: 0 <= i < seen ==> !Stops(signals[i])
      {
        hide Fed, Flushed;
        var signal := signals[seen];
        FedSnoc(cfg.flushEvents, signals, seen);
        seen := seen + 1;
        match signal
        case Received(env) =>
          buf, fed := TakeEnvelope(env, buf, old(batches), old(View()), old(pending), fed);
        case Interval =>
          buf, fed := Flush(buf, old(batches), old(View()), old(pending), fed);
        case Notice =>
        case ChannelClosed =>
          buf, fed := Flush(buf, old(batches), old(View()), old(pending), fed);
          HeardAt(signals, seen);
          FedTidy(cfg.flushEvents, signals[..seen]);
          return;
        case ContextDone =>
          buf, fed := Flush(buf, old(batches), old(View()), old(pending), fed);
          HeardAt(signals, seen);
          FedTidy(cfg.flushEvents, signals[..seen]);
          return;
      }
      HeardAt(signals, seen);
      FedTidy(cfg.flushEvents, signals[..seen]);
    }

    /** What flushing `flushed` since the loop began has brought about. */
    ghost predicate Flushed(batches0: seq<seq<Item>>, st0: Stores, slots0: int, flushed: seq<seq<Item>>)
      reads this
    {
      && Valid() && batches == batches0 + flushed
      && View() == AfterAll(world, st0, flushed)
      && pending == slots0 - |Concat(flushed)|
    }

    /** Appends the events of an envelope one by one, flushing whenever the buffer is full. */
    method TakeEnvelope(env: Pipeline.Envelope, buf0: seq<Item>, ghost batches0: seq<seq<Item>>, ghost st0: Stores, ghost slots0: int,
                        ghost fed0: Batching)
      returns (buf: seq<Item>, ghost fed: Batching)
      requires Flushed(batches0, st0, slots0, fed0.batches) && buf0 == fed0.buf
      modifies this`landed, this`rows, this`nextRow, this`usage, this`metered, this`lost, this`fatal, this`batches, this`calls, this`pending
      ensures fed == PushAll(cfg.flushEvents, fed0, Pipeline.Stamp(env)) && buf == fed.buf
      ensures Flushed(batches0, st0, slots0, fed.batches)
      ensures exists items :: Pipeline.Carries(items, [env]) && Concat(fed.batches) + buf == Concat(fed0.batches) + buf0 + items
    {
      hide Flushed;
      buf, fed := buf0, fed0;
      ghost var items := Pipeline.Stamp(env);
      Pipeline.StampCarries(env);
      PushAllConcat(cfg.flushEvents, fed0, items);
      for i := 0 to |env.events|
        invariant fed == PushAll(cfg.flushEvents, fed0, items[..i]) && buf == fed.buf
        invariant Flushed(batches0, st0, slots0, fed.batches)
      {
        PushAllSnoc(cfg.flushEvents, fed0, items, i);
        fed := Batching(fed.batches, buf + [items[i]]);
        buf := buf + [Item(env.project, env.events[i])];
        if |buf| >= cfg.flushEvents {
          buf, fed := Flush(buf, batches0, st0, slots0, fed);
        }
      }
      assert items[..|env.events|] == items;
    }

    /** The flush closure: nothing on an empty buffer; otherwise the batch is attempted and its
        slots are released whatever came of it. */
    method Flush(buf0: seq<Item>, ghost batches0: seq<seq<Item>>, ghost st0: Stores, ghost slots0: int, ghost fed0: Batching)
      returns (buf: seq<Item>, ghost fed: Batching)
      requires Flushed(batches0, st0, slots0, fed0.batches) && buf0 == fed0.buf
      modifies this`landed, this`rows, this`nextRow, this`usage, this`metered, this`lost, this`fatal, this`batches, this`calls, this`pending
      ensures fed == Cut(fed0) && buf == fed.buf == []
      ensures Flushed(batches0, st0, slots0, fed.batches)
    {
      fed := Cut(fed0);
      if |buf0| == 0 { return buf0, fed; }
      ghost var outcome := AttemptFlush(buf0);
      Drained(|buf0|);
      ConcatSnoc(fed0.batches, buf0);
      AfterAllSnoc(world, st0, fed0.batches, buf0);
      Associative(batches0, fed0.batches, [buf0]);
      buf := [];
    }

    // -------------------------------------------------------------------------
    // The dead-letter drain
    // -------------------------------------------------------------------------

    /** Each of these is one statement; it takes effect if Postgres answers it. */
    method ExecQuarantine(id: nat) returns (ok: bool)
      modifies this`rows, this`calls
      ensures ok == world.pg(old(calls).pg) && calls == old(calls).(pg := old(calls).pg + 1)
      ensures rows == if ok then Quarantine(old(rows), id) else old(rows)
    {
      ok := world.pg(calls.pg);
      calls := calls.(pg := calls.pg + 1);
      if ok { rows := Quarantine(rows, id); }
    }

    method ExecIncrement(id: nat) returns (ok: bool)
      modifies this`rows, this`calls
      ensures ok == world.pg(old(calls).pg) && calls == old(calls).(pg := old(calls).pg + 1)
      ensures rows == if ok then Increment(old(rows), id) else old(rows)
    {
      ok := world.pg(calls.pg);
      calls := calls.(pg := calls.pg + 1);
      if ok { rows := Increment(rows, id); }
    }

    method ExecDelete(id: nat) returns (ok: bool)
      modifies this`rows, this`calls
      ensures ok == world.pg(old(calls).pg) && calls == old(calls).(pg := old(calls).pg + 1)
      ensures rows == if ok then Delete(old(rows), id) else old(rows)
    {
      ok := world.pg(calls.pg);
      calls := calls.(pg := calls.pg + 1);
      if ok { rows := Delete(rows, id); }
    }

    method ProcessDLQRow(row: Row) returns (ghost seen: Attempt)
      requires Valid()
      modifies this`landed, this`rows, this`usage, this`metered, this`fatal, this`calls
      ensures Valid() && seen == SeenAt(world, old(calls), row)
      ensures View() == AfterRow(world, old(View()), row)
    {
      hide Charged, CountFor, ChAnswer.Lands, Delete, Increment, Quarantine;
      seen := SeenAt(world, calls, row);
      var now := world.clock(calls.clock);
      calls := calls.(clock := calls.clock + 1);
      if row.attempts + 1 >= QUARANTINE_ATTEMPT_LIMIT || (row.createdAt != ZERO_TIME && now - row.createdAt >= QUARANTINE_AGE) {
        var quarantined := ExecQuarantine(row.id);
        return;
      }
      if row.payload.None? {
        var quarantined := ExecQuarantine(row.id);
        return;
      }
      var items := row.payload.value;
      var inserted := InsertIntoClickHouse(items);
      if !inserted {
        var bumped := ExecIncrement(row.id);
        return;
      }
      var deleted := ExecDelete(row.id);
      if !deleted { return; }
      RecordUsage(items);
      if fatal { fatal := false; }
    }

    /** One pass. It lists once, then works from that list, and refreshes the gauge if the count
        is answered. */
    method DrainOnce()
      requires Valid()
      modifies this`landed, this`rows, this`usage, this`metered, this`fatal, this`dlqDepth, this`calls
      ensures Valid() && View() == AfterDrain(world, old(View()), cfg.drainLimit)
      ensures var listed := world.pg(old(calls).pg);
              var counted := listed && world.pg(calls.pg - 1);
              dlqDepth == if counted then |Active(rows)| else old(dlqDepth)
    {
      var listed := world.pg(calls.pg);
      calls := calls.(pg := calls.pg + 1);
      if !listed { return; }
      var todo := ListForDrain(rows, cfg.drainLimit);
      hide AfterRow, Active;
      for k := 0 to |todo|
        invariant Valid() && dlqDepth == old(dlqDepth)
        invariant AfterPass(world, View(), todo[k..]) == AfterPass(world, Listing(old(View())), todo)
      {
        ghost var seen := ProcessDLQRow(todo[k]);
        assert todo[k..][0] == todo[k] && todo[k..][1..] == todo[k + 1..];
      }
      assert todo[|todo|..] == [];
      var counted := world.pg(calls.pg);
      calls := calls.(pg := calls.pg + 1);
      if counted { dlqDepth := |Active(rows)|; }
    }

    // -------------------------------------------------------------------------
    // Shutdown
    // -------------------------------------------------------------------------

    /** Appends the events of an envelope, each under its project. */
    method Unpack(env: Pipeline.Envelope, items0: seq<Item>) returns (items: seq<Item>)
      ensures items == items0 + Pipeline.Stamp(env)
    {
      items := items0;
      for i := 0 to |env.events|
        invariant items == items0 + Pipeline.Stamp(env)[..i]
      {
        items := items + [Item(env.project, env.events[i])];
        assert Pipeline.Stamp(env)[..i + 1] == Pipeline.Stamp(env)[..i] + [Item(env.project, env.events[i])];
      }
      assert Pipeline.Stamp(env)[..|env.events|] == Pipeline.Stamp(env);
    }

    /** Empties the closed channel into one dead-letter row. `patience` bounds how many
        envelopes the two seconds are enough for. */
    method CaptureResidual(patience: nat) returns (ok: bool, taken: nat)
      requires Valid()
      modifies this`queue, this`pending, this`rows, this`nextRow, this`lost, this`calls
      ensures Valid() && taken == (if patience < |old(queue)| then patience else |old(queue)|)
      ensures queue == old(queue)[taken..]
      ensures var items := Pipeline.Flat(old(queue)[..taken]);
              && ok == (items == [] || RowTaken(world, old(calls), items))
              && (if items == [] then View() == old(View())
                  else if ok then View() == AfterWrite(world, old(View()), items)
                  else View() == AfterWrite(world, old(View()), items).(lost := old(lost) + items))
              && pending == (if ok then old(pending) - |items| else old(pending))
      ensures ok && rows != old(rows) ==>
                && |rows| == |old(rows)| + 1 && rows[|old(rows)|].payload.Some?
                && Pipeline.Carries(rows[|old(rows)|].payload.value, old(queue)[..taken])
      ensures !ok ==> rows == old(rows) && exists items :: Pipeline.Carries(items, old(queue)[..taken]) && lost == old(lost) + items
      ensures ok && rows == old(rows) ==> Pipeline.Carries([], old(queue)[..taken])
    {
      hide EncodeBatch, Charged, CountFor, Storable, Pipeline.Carries;
      ghost var st0 := View();
      var items: seq<Item> := [];
      taken := 0;
      while taken < patience && queue != []
        invariant taken <= patience && taken <= |old(queue)|
        invariant queue == old(queue)[taken..]
        invariant items == Pipeline.Flat(old(queue)[..taken])
        invariant View() == st0 && pending == old(pending)
        decreases |queue|
      {
        var env := queue[0];
        queue := queue[1..];
        FlatSnoc(old(queue), taken);
        items := Unpack(env, items);
        taken := taken + 1;
      }
      Pipeline.FlatCarries(old(queue)[..taken]);
      if |items| == 0 { return true, taken; }
      ok := WriteDLQ(items);
      if !ok {
        lost := lost + items;
        return;
      }
      Drained(|items|);
    }
  }

  lemma {:induction false} FlatSnoc(queue: seq<Pipeline.Envelope>, k: nat)
    requires k < |queue|
    ensures Pipeline.Flat(queue[..k + 1]) == Pipeline.Flat(queue[..k]) + Pipeline.Stamp(queue[k])
  {
    if k == 0 {
      assert queue[..1] == [queue[0]] && queue[..0] == [];
      assert [queue[0]][1..] == [];
    } else {
      assert queue[..k + 1][1..] == queue[1..][..k] && queue[..k][1..] == queue[1..][..k - 1];
      FlatSnoc(queue[1..], k - 1);
    }
  }
}
