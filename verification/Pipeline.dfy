/**
  The ingest pipeline as a step machine: request handlers that reserve slots and send, one
  flusher, one dead-letter drain, and the shutdown choreography, interleaved in any order,
  with every store call free to succeed or fail.

  A step is one action another goroutine could observe: an atomic load or swap, a channel
  operation, one store call, or one flag write.
 */
module Pipeline {
  import opened Common
  import opened EventCodec
  import opened FailedEvents

  datatype Config = Config(eventBuffer: nat, flushEvents: nat, drainLimit: nat) {
    /** The service divides by FlushEvents when it is built. */
    predicate Valid() { flushEvents >= 1 }

    function ChanCap(): nat
      requires Valid()
    {
      var c := eventBuffer / flushEvents;
      if c < 100 then 100 else c
    }
  }

  datatype Envelope = Envelope(project: string, events: seq<Event>)

  function Stamp(env: Envelope): (items: seq<Item>)
    ensures |items| == |env.events|
  {
    seq(|env.events|, i requires 0 <= i < |env.events| => Item(env.project, env.events[i]))
  }

  /** The events queued in the channel, oldest first. */
  function Flat(queue: seq<Envelope>): seq<Item> {
    if queue == [] then [] else Stamp(queue[0]) + Flat(queue[1..])
  }

  /** The items are the events of the envelopes, one item an event, in order, each under the project
      of its envelope. */
  ghost predicate Carries(items: seq<Item>, envs: seq<Envelope>)
    decreases |envs|
  {
    if envs == [] then items == []
    else
      var n := |envs[0].events|;
      && n <= |items|
      && (forall i :: 0 <= i < n ==> items[i].event == envs[0].events[i] && items[i].project == envs[0].project)
      && Carries(items[n..], envs[1..])
  }

  lemma StampCarries(env: Envelope)
    ensures Carries(Stamp(env), [env])
  {
    assert [env][1..] == [] && Stamp(env)[|env.events|..] == [];
  }

  lemma {:induction false} FlatCarries(queue: seq<Envelope>)
    ensures Carries(Flat(queue), queue)
  {
    if queue != [] {
      FlatCarries(queue[1..]);
      assert Flat(queue)[|queue[0].events|..] == Flat(queue[1..]);
    }
  }

  lemma {:induction false} CarriesConcat(a: seq<Item>, xs: seq<Envelope>, b: seq<Item>, ys: seq<Envelope>)
    requires Carries(a, xs) && Carries(b, ys)
    ensures Carries(a + b, xs + ys)
    decreases |xs|
  {
    if xs == [] {
      assert a + b == b && xs + ys == ys;
    } else {
      var n := |xs[0].events|;
      CarriesConcat(a[n..], xs[1..], b, ys);
      TailOfAppend(xs, ys);
      assert (a + b)[n..] == a[n..] + b;
    }
  }

  /** Envelopes determine what carries them. */
  lemma {:induction false} CarriesOnce(a: seq<Item>, b: seq<Item>, envs: seq<Envelope>)
    requires Carries(a, envs) && Carries(b, envs)
    ensures a == b
    decreases |envs|
  {
    if envs != [] {
      var n := |envs[0].events|;
      CarriesOnce(a[n..], b[n..], envs[1..]);
      assert a[..n] == b[..n];
      assert a == a[..n] + a[n..] && b == b[..n] + b[n..];
    }
  }

  /** One request handler. Panicked: it sent on the closed channel; its reservation is never released. */
  datatype Handler =
    | Started(env: Envelope)           // passed the kill-switch check
    | Checked(env: Envelope)           // passed the fatal-flag check
    | Loaded(env: Envelope, seen: int) // read the pending counter
    | Reserved(env: Envelope)          // won the compare-and-swap, has not sent
    | Accepted | Refused
    | Panicked(env: Envelope)
  {
    predicate Finished() { Accepted? || Refused? || Panicked? }
    function Unsent(): nat { if Reserved? || Panicked? then |env.events| else 0 }
  }

  function Unsent(handlers: seq<Handler>): nat {
    if handlers == [] then 0 else handlers[0].Unsent() + Unsent(handlers[1..])
  }

  datatype FlusherPc = AtHead | Inserting | Metering | Clearing | WritingDlq | SettingFatal | Releasing | Exited

  datatype Flusher = Flusher(
    pc: FlusherPc,
    rest: seq<Item>,  // what is left of the envelope in hand
    buf: seq<Item>,
    exiting: bool)    // the flush under way is the last

  datatype DrainPc =
    | Idle | Next
    | Replaying(row: Row) | Bumping(row: Row) | Deleting(row: Row)
    | MeteringReplay(items: seq<Item>) | ClearingReplay
    | Stopped

  datatype Drain = Drain(pc: DrainPc, todo: seq<Row>)

  datatype ShutdownPc =
    | Serving | Disabled | HttpDown | Waiting | Capturing | WritingResidual | ReleasingResidual
    | ReturnedClean | ReturnedCaptured | ReturnedFailed

  /** Where events have been. Every field only grows. */
  datatype Ledger = Ledger(
    accepted: multiset<Item>, // acknowledged with 202
    settled: multiset<Item>,  // landed, and no longer the pipeline's concern
    landed: multiset<Item>,   // copies in ClickHouse
    relanded: multiset<Item>, // copies left behind by a replay whose row could not be deleted
    metered: multiset<Item>,
    lost: multiset<Item>)

  datatype State = State(
    cfg: Config,
    queue: seq<Envelope>, pending: int, closed: bool,
    handlers: seq<Handler>,
    flusher: Flusher,
    drain: Drain,
    rows: seq<Row>, nextRow: nat,
    now: Instant,
    fatal: bool, disabled: bool,
    ctxDone: bool, // the context given to Start is cancelled
    shutdown: ShutdownPc, forced: bool, residual: seq<Item>,
    ledger: Ledger)

  function Initial(cfg: Config, now: Instant, disabled: bool): State {
    State(cfg, [], 0, false, [], Flusher(AtHead, [], [], false), Drain(Idle, []), [], 0, now,
          false, disabled, false, Serving, false, [],
          Ledger(multiset{}, multiset{}, multiset{}, multiset{}, multiset{}, multiset{}))
  }

  // ---------------------------------------------------------------------------
  // Request handlers
  // ---------------------------------------------------------------------------

  datatype HandlerStep =
    | Begin(env: Envelope)
    | CheckFatal(h: nat)
    | Load(h: nat)
    | Swap(h: nat)
    | Send(h: nat)

  predicate HandlerEnabled(s: State, step: HandlerStep) {
    match step
    case Begin(env) => (s.shutdown.Serving? || s.shutdown.Disabled?) && !s.disabled && env.events != []
    case CheckFatal(h) => h < |s.handlers| && s.handlers[h].Started?
    case Load(h) => h < |s.handlers| && s.handlers[h].Checked?
    case Swap(h) => h < |s.handlers| && s.handlers[h].Loaded?
    case Send(h) => h < |s.handlers| && s.handlers[h].Reserved?
  }

  function HandlerApply(s: State, step: HandlerStep): State
    requires s.cfg.Valid() && HandlerEnabled(s, step)
  {
    match step
    case Begin(env) => s.(handlers := s.handlers + [Started(env)])
    case CheckFatal(h) =>
      s.(handlers := s.handlers[h := if s.fatal then Refused else Checked(s.handlers[h].env)])
    case Load(h) =>
      var env := s.handlers[h].env;
      s.(handlers := s.handlers[h :=
           if s.pending + |env.events| > s.cfg.eventBuffer then Refused else Loaded(env, s.pending)])
    case Swap(h) =>
      var Loaded(env, seen) := s.handlers[h];
      if s.pending == seen
      then s.(pending := seen + |env.events|, handlers := s.handlers[h := Reserved(env)])
      else s.(handlers := s.handlers[h := Checked(env)])
    case Send(h) =>
      var env := s.handlers[h].env;
      if s.closed then s.(handlers := s.handlers[h := Panicked(env)])
      else if |s.queue| < s.cfg.ChanCap() then
        s.(queue := s.queue + [env],
           handlers := s.handlers[h := Accepted],
           ledger := s.ledger.(accepted := s.ledger.accepted + multiset(Stamp(env))))
      else s.(pending := s.pending - |env.events|, handlers := s.handlers[h := Refused])
  }

  // ---------------------------------------------------------------------------
  // The flusher
  // ---------------------------------------------------------------------------

  datatype FlusherStep =
    | Receive              // take the next envelope off the channel
    | Append               // move one event of the envelope in hand to the buffer
    | Tick                 // the flush interval elapsed
    | SeeClosed            // the channel is closed and empty
    | SeeCancelled         // the context is done
    | Insert(ok: bool)
    | Meter
    | ClearFatal
    | WriteRow(ok: bool)
    | SetFatal
    | Release

  predicate FlusherEnabled(s: State, step: FlusherStep) {
    var f := s.flusher;
    match step
    case Receive => f.pc.AtHead? && f.rest == [] && s.queue != []
    case Append => f.pc.AtHead? && f.rest != []
    case Tick => f.pc.AtHead? && f.rest == []
    case SeeClosed => f.pc.AtHead? && f.rest == [] && s.queue == [] && s.closed
    case SeeCancelled => f.pc.AtHead? && f.rest == [] && s.ctxDone
    case Insert(_) => f.pc.Inserting?
    case Meter => f.pc.Metering?
    case ClearFatal => f.pc.Clearing?
    case WriteRow(_) => f.pc.WritingDlq?
    case SetFatal => f.pc.SettingFatal?
    case Release => f.pc.Releasing?
  }

  /** A flush starts only on a non-empty buffer. */
  function StartFlush(f: Flusher, exiting: bool): Flusher {
    if f.buf != [] then f.(pc := Inserting, exiting := exiting)
    else if exiting then f.(pc := Exited)
    else f
  }

  function FlusherApply(s: State, step: FlusherStep): State
    requires FlusherEnabled(s, step)
  {
    var f := s.flusher;
    match step
    case Receive => s.(queue := s.queue[1..], flusher := f.(rest := Stamp(s.queue[0])))
    case Append =>
      var grown := f.(buf := f.buf + [f.rest[0]], rest := f.rest[1..]);
      s.(flusher := if |grown.buf| >= s.cfg.flushEvents then StartFlush(grown, false) else grown)
    case Tick => s.(flusher := StartFlush(f, false))
    case SeeClosed => s.(flusher := StartFlush(f, true))
    case SeeCancelled => s.(flusher := StartFlush(f, true))
    case Insert(ok) =>
      if ok then
        s.(flusher := f.(pc := Metering),
           ledger := s.ledger.(landed := s.ledger.landed + multiset(f.buf), settled := s.ledger.settled + multiset(f.buf)))
      else s.(flusher := f.(pc := WritingDlq))
    case Meter =>
      s.(flusher := f.(pc := Clearing), ledger := s.ledger.(metered := s.ledger.metered + multiset(f.buf)))
    case ClearFatal => s.(flusher := f.(pc := Releasing), fatal := false)
    case WriteRow(ok) =>
      if ok then
        s.(flusher := f.(pc := Releasing),
           rows := s.rows + [Row(s.nextRow, Some(f.buf), 0, s.now, false)], nextRow := s.nextRow + 1)
      else
        s.(flusher := f.(pc := SettingFatal), ledger := s.ledger.(lost := s.ledger.lost + multiset(f.buf)))
    case SetFatal => s.(flusher := f.(pc := Releasing), fatal := true)
    case Release =>
      s.(pending := s.pending - |f.buf|,
         flusher := f.(pc := if f.exiting then Exited else AtHead, buf := []))
  }

  // ---------------------------------------------------------------------------
  // The dead-letter drain
  // ---------------------------------------------------------------------------

  datatype DrainStep =
    | List(ok: bool)
    | Stop
    | Finish               // the pass is over
    | QuarantineHead(ok: bool)
    | TakeHead             // the head row is due a replay
    | Replay(ok: bool)
    | Bump(ok: bool)
    | DeleteRow(ok: bool)
    | MeterReplay
    | ClearReplay

  predicate DrainEnabled(s: State, step: DrainStep) {
    var d := s.drain;
    match step
    case List(_) => d.pc.Idle?
    case Stop => d.pc.Idle? && (s.ctxDone || s.closed)
    case Finish => d.pc.Next? && d.todo == []
    case QuarantineHead(_) =>
      d.pc.Next? && d.todo != [] && (ShouldQuarantine(d.todo[0], s.now) || d.todo[0].payload.None?)
    case TakeHead =>
      d.pc.Next? && d.todo != [] && !ShouldQuarantine(d.todo[0], s.now) && d.todo[0].payload.Some?
    case Replay(_) => d.pc.Replaying?
    case Bump(_) => d.pc.Bumping?
    case DeleteRow(_) => d.pc.Deleting?
    case MeterReplay => d.pc.MeteringReplay?
    case ClearReplay => d.pc.ClearingReplay?
  }

  function DrainApply(s: State, step: DrainStep): State
    requires DrainEnabled(s, step)
  {
    var d := s.drain;
    match step
    case List(ok) => if ok then s.(drain := Drain(Next, ListForDrain(s.rows, s.cfg.drainLimit))) else s
    case Stop => s.(drain := d.(pc := Stopped))
    case Finish => s.(drain := d.(pc := Idle))
    case QuarantineHead(ok) =>
      s.(drain := d.(todo := d.todo[1..]), rows := if ok then Quarantine(s.rows, d.todo[0].id) else s.rows)
    case TakeHead => s.(drain := Drain(Replaying(d.todo[0]), d.todo[1..]))
    case Replay(ok) =>
      if ok then
        s.(drain := d.(pc := Deleting(d.pc.row)),
           ledger := s.ledger.(landed := s.ledger.landed + Events(d.pc.row)))
      else s.(drain := d.(pc := Bumping(d.pc.row)))
    case Bump(ok) =>
      s.(drain := d.(pc := Next), rows := if ok then Increment(s.rows, d.pc.row.id) else s.rows)
    case DeleteRow(ok) =>
      if ok then
        s.(drain := d.(pc := MeteringReplay(Payload(d.pc.row))),
           rows := Delete(s.rows, d.pc.row.id),
           ledger := s.ledger.(settled := s.ledger.settled + Events(d.pc.row)))
      else
        s.(drain := d.(pc := Next), ledger := s.ledger.(relanded := s.ledger.relanded + Events(d.pc.row)))
    case MeterReplay =>
      s.(drain := d.(pc := ClearingReplay),
         ledger := s.ledger.(metered := s.ledger.metered + multiset(d.pc.items)))
    case ClearReplay => s.(drain := d.(pc := Next), fatal := false)
  }

  // ---------------------------------------------------------------------------
  // Shutdown
  // ---------------------------------------------------------------------------

  datatype ShutdownStep =
    | Disable                        // phase 1
    | StopHttp(force: bool)          // phase 2; forced when the handlers outlast the timeout
    | Close                          // phase 3 begins
    | Return                         // both goroutines are done
    | Expire                         // the deadline fires first
    | Capture                        // take one more envelope off the channel
    | EndCapture                     // the channel is empty, or two seconds have passed
    | WriteResidual(ok: bool)
    | ReleaseResidual

  predicate ShutdownEnabled(s: State, step: ShutdownStep) {
    match step
    case Disable => s.shutdown.Serving?
    case StopHttp(force) => s.shutdown.Disabled? && (!force ==> forall i :: 0 <= i < |s.handlers| ==> s.handlers[i].Finished())
    case Close => s.shutdown.HttpDown?
    case Return => s.shutdown.Waiting? && s.flusher.pc.Exited? && s.drain.pc.Stopped?
    case Expire => s.shutdown.Waiting?
    case Capture => s.shutdown.Capturing? && s.queue != []
    case EndCapture => s.shutdown.Capturing?
    case WriteResidual(_) => s.shutdown.WritingResidual?
    case ReleaseResidual => s.shutdown.ReleasingResidual?
  }

  function ShutdownApply(s: State, step: ShutdownStep): State
    requires ShutdownEnabled(s, step)
  {
    match step
    case Disable => s.(shutdown := Disabled, disabled := true)
    case StopHttp(force) => s.(shutdown := HttpDown, forced := force)
    case Close => s.(shutdown := Waiting, closed := true)
    case Return => s.(shutdown := ReturnedClean)
    case Expire => s.(shutdown := Capturing)
    case Capture => s.(queue := s.queue[1..], residual := s.residual + Stamp(s.queue[0]))
    case EndCapture => s.(shutdown := if s.residual == [] then ReturnedCaptured else WritingResidual)
    case WriteResidual(ok) =>
      if ok then
        s.(shutdown := ReleasingResidual,
           rows := s.rows + [Row(s.nextRow, Some(s.residual), 0, s.now, false)], nextRow := s.nextRow + 1)
      else
        s.(shutdown := ReturnedFailed, ledger := s.ledger.(lost := s.ledger.lost + multiset(s.residual)))
    case ReleaseResidual =>
      s.(shutdown := ReturnedCaptured, pending := s.pending - |s.residual|, residual := [])
  }

  // ---------------------------------------------------------------------------
  // Runs
  // ---------------------------------------------------------------------------

  datatype Step =
    | H(handler: HandlerStep)
    | F(flush: FlusherStep)
    | D(drain: DrainStep)
    | S(shut: ShutdownStep)
    | Elapse(nanos: nat)
    | Cancel // the context given to Start

  predicate Enabled(s: State, step: Step) {
    match step
    case H(h) => HandlerEnabled(s, h)
    case F(f) => FlusherEnabled(s, f)
    case D(d) => DrainEnabled(s, d)
    case S(p) => ShutdownEnabled(s, p)
    case Elapse(_) => true
    case Cancel => true
  }

  function Apply(s: State, step: Step): State
    requires s.cfg.Valid() && Enabled(s, step)
  {
    match step
    case H(h) => HandlerApply(s, h)
    case F(f) => FlusherApply(s, f)
    case D(d) => DrainApply(s, d)
    case S(p) => ShutdownApply(s, p)
    case Elapse(nanos) => s.(now := s.now + nanos)
    case Cancel => s.(ctxDone := true)
  }

  /** `steps` can be taken from `s` and lead to `t`. */
  ghost predicate Runs(s: State, steps: seq<Step>, t: State)
    decreases |steps|
  {
    if steps == [] then s == t
    else s.cfg.Valid() && Enabled(s, steps[0]) && Runs(Apply(s, steps[0]), steps[1..], t)
  }

  ghost predicate Reachable(s: State) {
    exists cfg: Config, now, disabled, steps :: cfg.Valid() && Runs(Initial(cfg, now, disabled), steps, s)
  }

  /** Runs compose. */
  lemma {:induction false} RunsConcat(s: State, a: seq<Step>, t: State, b: seq<Step>, u: State)
    requires Runs(s, a, t) && Runs(t, b, u)
    ensures Runs(s, a + b, u)
    decreases |a|
  {
    if a == [] {
      assert a + b == b;
    } else {
      TailOfAppend(a, b);
      RunsConcat(Apply(s, a[0]), a[1..], t, b, u);
    }
  }

  lemma RunsOne(s: State, step: Step)
    requires s.cfg.Valid() && Enabled(s, step)
    ensures Runs(s, [step], Apply(s, step))
  {
    assert Runs(Apply(s, step), [step][1..], Apply(s, step));
  }
}
