/** The invariant every reachable state of the pipeline satisfies. */
module PipelineInvariant {
  import opened Common
  import opened EventCodec
  import opened FailedEvents
  import opened Pipeline

  // ---------------------------------------------------------------------------
  // Shape
  // ---------------------------------------------------------------------------

  ghost predicate ChannelShape(cfg: Config, queue: seq<Envelope>, handlers: seq<Handler>) {
    && cfg.Valid() && |queue| <= cfg.ChanCap()
    && (forall i :: 0 <= i < |queue| ==> queue[i].events != [])
    && (forall i :: 0 <= i < |handlers| && !handlers[i].Accepted? && !handlers[i].Refused? ==> handlers[i].env.events != [])
    && (forall i :: 0 <= i < |handlers| && handlers[i].Loaded? ==> handlers[i].seen + |handlers[i].env.events| <= cfg.eventBuffer)
  }

  /** Nothing is left for the flusher to receive, or it has been told to stop. */
  predicate MayExit(s: State) { s.ctxDone || (s.closed && s.queue == []) }

  ghost predicate FlusherShape(cfg: Config, f: Flusher, mayExit: bool) {
    && |f.buf| <= cfg.flushEvents
    && (f.pc.AtHead? ==> |f.buf| < cfg.flushEvents && !f.exiting)
    && (f.pc.Exited? ==> f.buf == [])
    && (!f.pc.AtHead? && !f.pc.Exited? ==> f.buf != [])
    && (f.exiting || f.pc.Exited? ==> f.rest == [] && mayExit)
  }

  ghost predicate TableShape(rows: seq<Row>, nextRow: nat) {
    Keyed(rows) && forall r :: r in rows ==> r.id < nextRow && r.attempts < QUARANTINE_ATTEMPT_LIMIT
  }

  predicate Holding(pc: DrainPc) { pc.Replaying? || pc.Bumping? || pc.Deleting? }

  /** What the drain holds in memory is still what the table holds. */
  ghost predicate DrainShape(rows: seq<Row>, d: Drain) {
    && Keyed(d.todo) && (forall r :: r in d.todo ==> r in rows && !r.quarantined)
    && (d.pc.Idle? || d.pc.Stopped? ==> d.todo == [])
    && (Holding(d.pc) ==>
          && d.pc.row in rows && !d.pc.row.quarantined && d.pc.row.payload.Some?
          && d.pc.row.attempts + 1 < QUARANTINE_ATTEMPT_LIMIT
          && forall r :: r in d.todo ==> d.pc.row.id < r.id)
  }

  predicate HttpGone(pc: ShutdownPc) { !pc.Serving? && !pc.Disabled? }

  ghost predicate ShutdownShape(pc: ShutdownPc, closed: bool, disabled: bool, residual: seq<Item>, exited: bool) {
    && (closed <==> HttpGone(pc) && !pc.HttpDown?)
    && (!pc.Serving? ==> disabled)
    && (residual != [] ==> pc.Capturing? || pc.WritingResidual? || pc.ReleasingResidual? || pc.ReturnedFailed?)
    && (pc.ReturnedClean? ==> exited)
  }

  ghost predicate HandlersShape(httpGone: bool, forced: bool, closed: bool, handlers: seq<Handler>) {
    && (httpGone && !forced ==> forall i :: 0 <= i < |handlers| ==> handlers[i].Finished())
    && (!httpGone ==> !forced)
    && (!forced ==> forall i :: 0 <= i < |handlers| ==> !handlers[i].Panicked?)
    && (closed ==> httpGone)
  }

  predicate BothExited(s: State) { s.flusher.pc.Exited? && s.drain.pc.Stopped? }

  // ---------------------------------------------------------------------------
  // Accounting
  // ---------------------------------------------------------------------------

  /** The pending counter is exactly the reservations not yet sent plus every event between
      the channel and its release, and it never passes the ceiling. */
  ghost predicate Slots(cfg: Config, pending: int, handlers: seq<Handler>, queue: seq<Envelope>, f: Flusher, residual: seq<Item>) {
    pending == Unsent(handlers) + |Flat(queue)| + |f.rest| + |f.buf| + |residual| <= cfg.eventBuffer
  }

  /** The buffer has not yet been landed, dead-lettered or lost. */
  predicate BufOwned(pc: FlusherPc) { pc.AtHead? || pc.Inserting? || pc.WritingDlq? }

  ghost function InHand(f: Flusher, x: Item): nat {
    multiset(f.rest)[x] + (if BufOwned(f.pc) then multiset(f.buf)[x] else 0)
  }

  ghost function InCapture(pc: ShutdownPc, residual: seq<Item>, x: Item): nat {
    if pc.ReleasingResidual? || pc.ReturnedFailed? then 0 else multiset(residual)[x]
  }

  /** Owners of an event: channel, flusher, shutdown capture, dead-letter table, settled, lost. */
  ghost function Owners(queue: seq<Envelope>, f: Flusher, pc: ShutdownPc, residual: seq<Item>, rows: seq<Row>, led: Ledger, x: Item): nat {
    multiset(Flat(queue))[x] + InHand(f, x) + InCapture(pc, residual, x) + Held(rows)[x] + led.settled[x] + led.lost[x]
  }

  ghost predicate Conserved(queue: seq<Envelope>, f: Flusher, pc: ShutdownPc, residual: seq<Item>, rows: seq<Row>, led: Ledger) {
    forall x :: led.accepted[x] == Owners(queue, f, pc, residual, rows, led, x)
  }

  ghost function BeingMetered(f: Flusher, pc: DrainPc, x: Item): nat {
    (if f.pc.Metering? then multiset(f.buf)[x] else 0)
    + (if pc.MeteringReplay? then multiset(pc.items)[x] else 0)
  }

  ghost function BeingDeleted(pc: DrainPc, x: Item): nat {
    if pc.Deleting? then Events(pc.row)[x] else 0
  }

  ghost predicate Metered(led: Ledger, f: Flusher, pc: DrainPc) {
    forall x ::
      && led.settled[x] == led.metered[x] + BeingMetered(f, pc, x)
      && led.landed[x] == led.settled[x] + led.relanded[x] + BeingDeleted(pc, x)
  }

  ghost predicate Inv(s: State) {
    && ChannelShape(s.cfg, s.queue, s.handlers)
    && FlusherShape(s.cfg, s.flusher, MayExit(s))
    && TableShape(s.rows, s.nextRow)
    && DrainShape(s.rows, s.drain)
    && ShutdownShape(s.shutdown, s.closed, s.disabled, s.residual, BothExited(s))
    && HandlersShape(HttpGone(s.shutdown), s.forced, s.closed, s.handlers)
    && Slots(s.cfg, s.pending, s.handlers, s.queue, s.flusher, s.residual)
    && Conserved(s.queue, s.flusher, s.shutdown, s.residual, s.rows, s.ledger)
    && Metered(s.ledger, s.flusher, s.drain.pc)
  }

  // ---------------------------------------------------------------------------
  // Sums
  // ---------------------------------------------------------------------------

  lemma {:induction false} FlatAppend(queue: seq<Envelope>, env: Envelope)
    ensures Flat(queue + [env]) == Flat(queue) + Stamp(env)
  {
    if queue == [] {
      assert queue + [env] == [env];
      FlatCons(env, []);
    } else {
      TailOfAppend(queue, [env]);
      FlatAppend(queue[1..], env);
      assert Stamp(queue[0]) + (Flat(queue[1..]) + Stamp(env)) == Stamp(queue[0]) + Flat(queue[1..]) + Stamp(env);
    }
  }

  lemma FlatCons(env: Envelope, queue: seq<Envelope>)
    ensures Flat([env] + queue) == Stamp(env) + Flat(queue)
  {
    TailOfCons(env, queue);
  }

  lemma {:induction false} UnsentUpdate(handlers: seq<Handler>, h: nat, x: Handler)
    requires h < |handlers|
    ensures Unsent(handlers[h := x]) == Unsent(handlers) - handlers[h].Unsent() + x.Unsent()
  {
    if h == 0 {
      assert handlers[h := x][1..] == handlers[1..];
    } else {
      UnsentUpdate(handlers[1..], h - 1, x);
      assert handlers[h := x][1..] == handlers[1..][h - 1 := x];
    }
  }

  lemma {:induction false} UnsentAppend(handlers: seq<Handler>, x: Handler)
    ensures Unsent(handlers + [x]) == Unsent(handlers) + x.Unsent()
  {
    if handlers == [] {
      assert handlers + [x] == [x];
    } else {
      TailOfAppend(handlers, [x]);
      UnsentAppend(handlers[1..], x);
    }
  }

  lemma {:induction false} NothingUnsent(handlers: seq<Handler>)
    requires forall i :: 0 <= i < |handlers| ==> handlers[i].Unsent() == 0
    ensures Unsent(handlers) == 0
  {
    if handlers != [] {
      NothingUnsent(handlers[1..]);
    }
  }

  lemma MultisetOfHead<T>(a: seq<T>)
    requires a != []
    ensures multiset(a) == multiset([a[0]]) + multiset(a[1..])
  {
    assert a == [a[0]] + a[1..];
  }

  // ---------------------------------------------------------------------------
  // Handlers
  // ---------------------------------------------------------------------------

  /** One unfinished handler moves on. */
  lemma HandlerMoves(s: State, h: nat, x: Handler)
    requires ChannelShape(s.cfg, s.queue, s.handlers) && HandlersShape(HttpGone(s.shutdown), s.forced, s.closed, s.handlers)
    requires h < |s.handlers| && !s.handlers[h].Finished()
    requires x.Accepted? || x.Refused? || x.env == s.handlers[h].env
    requires x.Loaded? ==> x.seen + |x.env.events| <= s.cfg.eventBuffer
    requires x.Panicked? ==> s.closed
    ensures ChannelShape(s.cfg, s.queue, s.handlers[h := x])
    ensures HandlersShape(HttpGone(s.shutdown), s.forced, s.closed, s.handlers[h := x])
    ensures Unsent(s.handlers[h := x]) == Unsent(s.handlers) - s.handlers[h].Unsent() + x.Unsent()
    ensures s.handlers[h].env.events != []
  {
    UnsentUpdate(s.handlers, h, x);
  }

  lemma BeginKeeps(s: State, env: Envelope)
    requires Inv(s) && HandlerEnabled(s, Begin(env))
    ensures Inv(HandlerApply(s, Begin(env)))
  {
    UnsentAppend(s.handlers, Started(env));
  }

  lemma CheckFatalKeeps(s: State, h: nat)
    requires Inv(s) && HandlerEnabled(s, CheckFatal(h))
    ensures Inv(HandlerApply(s, CheckFatal(h)))
  {
    assert s.cfg.Valid();
    hide ChannelShape, HandlersShape, FlusherShape, DrainShape, TableShape, ShutdownShape, Conserved, Metered;
    HandlerMoves(s, h, HandlerApply(s, CheckFatal(h)).handlers[h]);
  }

  lemma LoadKeeps(s: State, h: nat)
    requires Inv(s) && HandlerEnabled(s, Load(h))
    ensures Inv(HandlerApply(s, Load(h)))
  {
    assert s.cfg.Valid();
    hide ChannelShape, HandlersShape, FlusherShape, DrainShape, TableShape, ShutdownShape, Conserved, Metered;
    HandlerMoves(s, h, HandlerApply(s, Load(h)).handlers[h]);
  }

  predicate LoadedFits(s: State, h: nat)
    requires h < |s.handlers| && s.handlers[h].Loaded?
  {
    s.handlers[h].seen + |s.handlers[h].env.events| <= s.cfg.eventBuffer
  }

  lemma Enqueued(cfg: Config, queue: seq<Envelope>, handlers: seq<Handler>, env: Envelope)
    requires ChannelShape(cfg, queue, handlers) && env.events != []
    ensures |queue| < cfg.ChanCap() ==> ChannelShape(cfg, queue + [env], handlers)
  {
  }

  lemma EnqueuedConserves(s: State, env: Envelope)
    requires Conserved(s.queue, s.flusher, s.shutdown, s.residual, s.rows, s.ledger)
    ensures Conserved(s.queue + [env], s.flusher, s.shutdown, s.residual, s.rows,
                      s.ledger.(accepted := s.ledger.accepted + multiset(Stamp(env))))
  {
    FlatAppend(s.queue, env);
  }

  lemma SwapKeeps(s: State, h: nat)
    requires Inv(s) && HandlerEnabled(s, Swap(h))
    ensures Inv(HandlerApply(s, Swap(h)))
  {
    assert LoadedFits(s, h);
    hide ChannelShape, HandlersShape, FlusherShape, DrainShape, TableShape, ShutdownShape, Metered, Conserved, Unsent, Flat;
    if s.pending == s.handlers[h].seen {
      HandlerMoves(s, h, Reserved(s.handlers[h].env));
    } else {
      HandlerMoves(s, h, Checked(s.handlers[h].env));
    }
  }

  lemma SendAcceptedKeeps(s: State, h: nat)
    requires Inv(s) && HandlerEnabled(s, Send(h)) && !s.closed && |s.queue| < s.cfg.ChanCap()
    ensures Inv(HandlerApply(s, Send(h)))
  {
    assert s.cfg.Valid();
    hide Config.ChanCap;
    hide ChannelShape, HandlersShape, FlusherShape, DrainShape, TableShape, ShutdownShape, Metered, Unsent, Flat, Conserved;
    var env := s.handlers[h].env;
    HandlerMoves(s, h, Accepted);
    FlatAppend(s.queue, env);
    Enqueued(s.cfg, s.queue, s.handlers[h := Accepted], env);
    EnqueuedConserves(s, env);
  }

  lemma SendFailedKeeps(s: State, h: nat)
    requires Inv(s) && HandlerEnabled(s, Send(h)) && (s.closed || |s.queue| >= s.cfg.ChanCap())
    ensures Inv(HandlerApply(s, Send(h)))
  {
    assert s.cfg.Valid();
    hide Config.ChanCap;
    hide ChannelShape, HandlersShape, FlusherShape, DrainShape, TableShape, ShutdownShape, Metered, Unsent, Flat, Conserved;
    HandlerMoves(s, h, if s.closed then Panicked(s.handlers[h].env) else Refused);
  }

  lemma SendKeeps(s: State, h: nat)
    requires Inv(s) && HandlerEnabled(s, Send(h))
    ensures Inv(HandlerApply(s, Send(h)))
  {
    assert s.cfg.Valid();
    hide Inv, HandlerApply, Config.ChanCap;
    if s.closed || |s.queue| >= s.cfg.ChanCap() {
      SendFailedKeeps(s, h);
    } else {
      SendAcceptedKeeps(s, h);
    }
  }

  lemma HandlerKeeps(s: State, step: HandlerStep)
    requires Inv(s) && HandlerEnabled(s, step)
    ensures Inv(HandlerApply(s, step))
  {
    hide Inv, HandlerApply, HandlerEnabled;
    match step
    case Begin(env) => BeginKeeps(s, env);
    case CheckFatal(h) => CheckFatalKeeps(s, h);
    case Load(h) => LoadKeeps(s, h);
    case Swap(h) => SwapKeeps(s, h);
    case Send(h) => SendKeeps(s, h);
  }

  // ---------------------------------------------------------------------------
  // The flusher
  // ---------------------------------------------------------------------------

  lemma ReceiveKeeps(s: State)
    requires Inv(s) && FlusherEnabled(s, Receive)
    ensures Inv(FlusherApply(s, Receive))
  {
  }

  lemma AppendKeeps(s: State)
    requires Inv(s) && FlusherEnabled(s, Append)
    ensures Inv(FlusherApply(s, Append))
  {
    MultisetOfHead(s.flusher.rest);
  }

  lemma TickKeeps(s: State)
    requires Inv(s) && FlusherEnabled(s, Tick)
    ensures Inv(FlusherApply(s, Tick))
  {
  }

  lemma SeeClosedKeeps(s: State)
    requires Inv(s) && FlusherEnabled(s, SeeClosed)
    ensures Inv(FlusherApply(s, SeeClosed))
  {
  }

  lemma SeeCancelledKeeps(s: State)
    requires Inv(s) && FlusherEnabled(s, SeeCancelled)
    ensures Inv(FlusherApply(s, SeeCancelled))
  {
  }

  lemma InsertKeeps(s: State, ok: bool)
    requires Inv(s) && FlusherEnabled(s, Insert(ok))
    ensures Inv(FlusherApply(s, Insert(ok)))
  {
  }

  lemma MeterKeeps(s: State)
    requires Inv(s) && FlusherEnabled(s, Meter)
    ensures Inv(FlusherApply(s, Meter))
  {
  }

  lemma ClearFatalKeeps(s: State)
    requires Inv(s) && FlusherEnabled(s, ClearFatal)
    ensures Inv(FlusherApply(s, ClearFatal))
  {
  }

  /** A fresh row at the end of the table. */
  lemma NewRow(rows: seq<Row>, nextRow: nat, items: seq<Item>, now: Instant, d: Drain)
    requires TableShape(rows, nextRow) && DrainShape(rows, d)
    ensures var grown := rows + [Row(nextRow, Some(items), 0, now, false)];
            && TableShape(grown, nextRow + 1) && DrainShape(grown, d)
            && Held(grown) == Held(rows) + multiset(items)
  {
    var row := Row(nextRow, Some(items), 0, now, false);
    HeldAppend(rows, [row]);
    assert Held([row]) == Events(row);
  }

  lemma WriteRowKeeps(s: State, ok: bool)
    requires Inv(s) && FlusherEnabled(s, WriteRow(ok))
    ensures Inv(FlusherApply(s, WriteRow(ok)))
  {
    NewRow(s.rows, s.nextRow, s.flusher.buf, s.now, s.drain);
  }

  lemma SetFatalKeeps(s: State)
    requires Inv(s) && FlusherEnabled(s, SetFatal)
    ensures Inv(FlusherApply(s, SetFatal))
  {
  }

  lemma ReleaseKeeps(s: State)
    requires Inv(s) && FlusherEnabled(s, Release)
    ensures Inv(FlusherApply(s, Release))
  {
  }

  lemma FlusherKeeps(s: State, step: FlusherStep)
    requires Inv(s) && FlusherEnabled(s, step)
    ensures Inv(FlusherApply(s, step))
  {
    hide Inv, FlusherApply, FlusherEnabled;
    match step
    case Receive => ReceiveKeeps(s);
    case Append => AppendKeeps(s);
    case Tick => TickKeeps(s);
    case SeeClosed => SeeClosedKeeps(s);
    case SeeCancelled => SeeCancelledKeeps(s);
    case Insert(ok) => InsertKeeps(s, ok);
    case Meter => MeterKeeps(s);
    case ClearFatal => ClearFatalKeeps(s);
    case WriteRow(ok) => WriteRowKeeps(s, ok);
    case SetFatal => SetFatalKeeps(s);
    case Release => ReleaseKeeps(s);
  }

  // ---------------------------------------------------------------------------
  // The drain
  // ---------------------------------------------------------------------------

  /** Working on one row leaves the rows still to do in place, whatever was done to it. */
  lemma TodoMoves(rows: seq<Row>, nextRow: nat, row: Row, rest: seq<Row>)
    requires TableShape(rows, nextRow) && row in rows
    requires forall r :: r in rest ==> r in rows && row.id < r.id
    ensures forall r :: r in rest ==> r in Quarantine(rows, row.id) && r in Increment(rows, row.id) && r in Delete(rows, row.id)
  {
    forall r | r in rest
      ensures r in Quarantine(rows, row.id) && r in Increment(rows, row.id) && r in Delete(rows, row.id)
    {
      OthersKept(rows, row.id, r);
    }
  }

  lemma TableMoves(rows: seq<Row>, nextRow: nat, row: Row)
    requires TableShape(rows, nextRow) && row in rows
    ensures TableShape(Quarantine(rows, row.id), nextRow) && TableShape(Delete(rows, row.id), nextRow)
    ensures row.attempts + 1 < QUARANTINE_ATTEMPT_LIMIT ==> TableShape(Increment(rows, row.id), nextRow)
  {
    UpdatesHold(rows, row.id);
    DeleteSpec(rows, row.id);
    forall i | 0 <= i < |rows| && rows[i].id == row.id ensures rows[i] == row {
      var j :| 0 <= j < |rows| && rows[j] == row;
    }
  }

  lemma HeldMoves(rows: seq<Row>, nextRow: nat, row: Row)
    requires TableShape(rows, nextRow) && row in rows
    ensures Held(Increment(rows, row.id)) == Held(rows) == Held(Quarantine(rows, row.id))
    ensures Held(rows) == Held(Delete(rows, row.id)) + Events(row)
  {
    UpdatesHold(rows, row.id);
    DeleteReleases(rows, row);
  }

  lemma TodoHead(rows: seq<Row>, d: Drain)
    requires DrainShape(rows, d) && d.todo != []
    ensures d.todo[0] in rows && !d.todo[0].quarantined
    ensures Keyed(d.todo[1..]) && forall r :: r in d.todo[1..] ==> r in rows && !r.quarantined && d.todo[0].id < r.id
  {
    ConsTail(d.todo);
  }

  /** The head of the pass is done with, quarantined or not. */
  lemma HeadWorked(rows: seq<Row>, nextRow: nat, d: Drain)
    requires TableShape(rows, nextRow) && DrainShape(rows, d)
    requires d.pc.Next? && d.todo != []
    ensures var quarantined, rest := Quarantine(rows, d.todo[0].id), d.(todo := d.todo[1..]);
            && DrainShape(quarantined, rest) && DrainShape(rows, rest)
            && TableShape(quarantined, nextRow) && Held(quarantined) == Held(rows)
  {
    TodoHead(rows, d);
    QuarantinedRest(rows, nextRow, d.todo[0], d.todo[1..]);
    TableMoves(rows, nextRow, d.todo[0]);
    HeldMoves(rows, nextRow, d.todo[0]);
    hide TableShape, Quarantine, Held;
  }

  lemma QuarantinedRest(rows: seq<Row>, nextRow: nat, row: Row, rest: seq<Row>)
    requires TableShape(rows, nextRow) && row in rows && Keyed(rest)
    requires forall r :: r in rest ==> r in rows && !r.quarantined && row.id < r.id
    ensures DrainShape(Quarantine(rows, row.id), Drain(Next, rest))
  {
    TodoMoves(rows, nextRow, row, rest);
    hide TableShape, Quarantine, Keyed;
  }

  /** The row in hand is done with: bumped, deleted, or left as it was. */
  lemma RowWorked(rows: seq<Row>, nextRow: nat, d: Drain, pc: DrainPc)
    requires TableShape(rows, nextRow) && DrainShape(rows, d)
    requires Holding(d.pc) && !Holding(pc) && !pc.Idle? && !pc.Stopped?
    ensures var bumped, deleted, next := Increment(rows, d.pc.row.id), Delete(rows, d.pc.row.id), d.(pc := pc);
            && DrainShape(bumped, next) && DrainShape(deleted, next) && DrainShape(rows, next)
            && TableShape(bumped, nextRow) && TableShape(deleted, nextRow)
            && Held(bumped) == Held(rows) == Held(deleted) + Events(d.pc.row)
  {
    TodoMoves(rows, nextRow, d.pc.row, d.todo);
    TableMoves(rows, nextRow, d.pc.row);
    HeldMoves(rows, nextRow, d.pc.row);
  }

  lemma ListKeeps(s: State, ok: bool)
    requires Inv(s) && DrainEnabled(s, List(ok))
    ensures Inv(DrainApply(s, List(ok)))
  {
    ActiveSpec(s.rows);
  }

  lemma StopKeeps(s: State)
    requires Inv(s) && DrainEnabled(s, Stop)
    ensures Inv(DrainApply(s, Stop))
  {
  }

  lemma FinishKeeps(s: State)
    requires Inv(s) && DrainEnabled(s, Finish)
    ensures Inv(DrainApply(s, Finish))
  {
  }

  lemma QuarantineHeadKeeps(s: State, ok: bool)
    requires Inv(s) && DrainEnabled(s, QuarantineHead(ok))
    ensures Inv(DrainApply(s, QuarantineHead(ok)))
  {
    hide ChannelShape, FlusherShape, TableShape, DrainShape, ShutdownShape, HandlersShape, Slots;
    HeadWorked(s.rows, s.nextRow, s.drain);
  }

  lemma TakeHeadKeeps(s: State)
    requires Inv(s) && DrainEnabled(s, TakeHead)
    ensures Inv(DrainApply(s, TakeHead))
  {
    TodoHead(s.rows, s.drain);
  }

  lemma ReplayKeeps(s: State, ok: bool)
    requires Inv(s) && DrainEnabled(s, Replay(ok))
    ensures Inv(DrainApply(s, Replay(ok)))
  {
  }

  lemma BumpKeeps(s: State, ok: bool)
    requires Inv(s) && DrainEnabled(s, Bump(ok))
    ensures Inv(DrainApply(s, Bump(ok)))
  {
    hide ChannelShape, FlusherShape, TableShape, DrainShape, ShutdownShape, HandlersShape, Slots;
    RowWorked(s.rows, s.nextRow, s.drain, Next);
  }

  lemma DeleteRowKeeps(s: State, ok: bool)
    requires Inv(s) && DrainEnabled(s, DeleteRow(ok))
    ensures Inv(DrainApply(s, DeleteRow(ok)))
  {
    hide ChannelShape, FlusherShape, TableShape, DrainShape, ShutdownShape, HandlersShape, Slots, Held, Delete, Flat;
    RowWorked(s.rows, s.nextRow, s.drain, DrainApply(s, DeleteRow(ok)).drain.pc);
  }

  lemma MeterReplayKeeps(s: State)
    requires Inv(s) && DrainEnabled(s, MeterReplay)
    ensures Inv(DrainApply(s, MeterReplay))
  {
  }

  lemma ClearReplayKeeps(s: State)
    requires Inv(s) && DrainEnabled(s, ClearReplay)
    ensures Inv(DrainApply(s, ClearReplay))
  {
  }

  lemma DrainKeeps(s: State, step: DrainStep)
    requires Inv(s) && DrainEnabled(s, step)
    ensures Inv(DrainApply(s, step))
  {
    hide Inv, DrainApply, DrainEnabled;
    match step
    case List(ok) => ListKeeps(s, ok);
    case Stop => StopKeeps(s);
    case Finish => FinishKeeps(s);
    case QuarantineHead(ok) => QuarantineHeadKeeps(s, ok);
    case TakeHead => TakeHeadKeeps(s);
    case Replay(ok) => ReplayKeeps(s, ok);
    case Bump(ok) => BumpKeeps(s, ok);
    case DeleteRow(ok) => DeleteRowKeeps(s, ok);
    case MeterReplay => MeterReplayKeeps(s);
    case ClearReplay => ClearReplayKeeps(s);
  }

  // ---------------------------------------------------------------------------
  // Shutdown
  // ---------------------------------------------------------------------------

  lemma DisableKeeps(s: State)
    requires Inv(s) && ShutdownEnabled(s, Disable)
    ensures Inv(ShutdownApply(s, Disable))
  {
  }

  lemma StopHttpKeeps(s: State, force: bool)
    requires Inv(s) && ShutdownEnabled(s, StopHttp(force))
    ensures Inv(ShutdownApply(s, StopHttp(force)))
  {
  }

  lemma CloseKeeps(s: State)
    requires Inv(s) && ShutdownEnabled(s, Close)
    ensures Inv(ShutdownApply(s, Close))
  {
  }

  lemma ReturnKeeps(s: State)
    requires Inv(s) && ShutdownEnabled(s, Return)
    ensures Inv(ShutdownApply(s, Return))
  {
  }

  lemma ExpireKeeps(s: State)
    requires Inv(s) && ShutdownEnabled(s, Expire)
    ensures Inv(ShutdownApply(s, Expire))
  {
  }

  lemma CaptureKeeps(s: State)
    requires Inv(s) && ShutdownEnabled(s, Capture)
    ensures Inv(ShutdownApply(s, Capture))
  {
  }

  lemma EndCaptureKeeps(s: State)
    requires Inv(s) && ShutdownEnabled(s, EndCapture)
    ensures Inv(ShutdownApply(s, EndCapture))
  {
  }

  lemma WriteResidualKeeps(s: State, ok: bool)
    requires Inv(s) && ShutdownEnabled(s, WriteResidual(ok))
    ensures Inv(ShutdownApply(s, WriteResidual(ok)))
  {
    NewRow(s.rows, s.nextRow, s.residual, s.now, s.drain);
  }

  lemma ReleaseResidualKeeps(s: State)
    requires Inv(s) && ShutdownEnabled(s, ReleaseResidual)
    ensures Inv(ShutdownApply(s, ReleaseResidual))
  {
  }

  lemma ShutdownKeeps(s: State, step: ShutdownStep)
    requires Inv(s) && ShutdownEnabled(s, step)
    ensures Inv(ShutdownApply(s, step))
  {
    hide Inv, ShutdownApply, ShutdownEnabled;
    match step
    case Disable => DisableKeeps(s);
    case StopHttp(force) => StopHttpKeeps(s, force);
    case Close => CloseKeeps(s);
    case Return => ReturnKeeps(s);
    case Expire => ExpireKeeps(s);
    case Capture => CaptureKeeps(s);
    case EndCapture => EndCaptureKeeps(s);
    case WriteResidual(ok) => WriteResidualKeeps(s, ok);
    case ReleaseResidual => ReleaseResidualKeeps(s);
  }

  // ---------------------------------------------------------------------------
  // Runs
  // ---------------------------------------------------------------------------

  lemma InitialInv(cfg: Config, now: Instant, disabled: bool)
    requires cfg.Valid()
    ensures Inv(Initial(cfg, now, disabled))
  {
  }

  lemma StepKeeps(s: State, step: Step)
    requires s.cfg.Valid() && Inv(s) && Enabled(s, step)
    ensures Inv(Apply(s, step))
  {
    hide HandlerApply, FlusherApply, DrainApply, ShutdownApply;
    hide HandlerEnabled, FlusherEnabled, DrainEnabled, ShutdownEnabled;
    match step
    case H(h) => HandlerKeeps(s, h);
    case F(f) => FlusherKeeps(s, f);
    case D(d) => DrainKeeps(s, d);
    case S(p) => ShutdownKeeps(s, p);
    case Elapse(nanos) => ClockKeeps(s, nanos);
    case Cancel => ClockKeeps(s, 0);
  }

  lemma ClockKeeps(s: State, nanos: nat)
    requires Inv(s)
    ensures Inv(s.(now := s.now + nanos)) && Inv(s.(ctxDone := true))
  {
    hide ChannelShape, ShutdownShape, HandlersShape, DrainShape, TableShape, Slots, Metered;
  }

  lemma {:induction false} RunKeeps(s: State, steps: seq<Step>, t: State)
    requires Inv(s) && Runs(s, steps, t)
    ensures Inv(t)
    decreases |steps|
  {
    hide Inv, Apply, Enabled;
    if steps != [] {
      StepKeeps(s, steps[0]);
      RunKeeps(Apply(s, steps[0]), steps[1..], t);
    }
  }

  lemma ReachableInv(s: State)
    requires Reachable(s)
    ensures Inv(s)
  {
    hide Inv, Runs;
    var cfg: Config, now, disabled, steps :| cfg.Valid() && Runs(Initial(cfg, now, disabled), steps, s);
    InitialInv(cfg, now, disabled);
    RunKeeps(Initial(cfg, now, disabled), steps, s);
  }
}
