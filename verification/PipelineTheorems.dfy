/** What the pipeline guarantees over whole runs, and where it does not. */
module PipelineTheorems {
  import opened Common
  import opened EventCodec
  import opened FailedEvents
  import opened Pipeline
  import opened PipelineInvariant

  // ---------------------------------------------------------------------------
  // Composing runs
  // ---------------------------------------------------------------------------

  ghost predicate Reaches(s: State, t: State) {
    exists steps :: Runs(s, steps, t)
  }

  lemma ReachesStep(s: State, step: Step, t: State)
    requires s.cfg.Valid() && Enabled(s, step) && Reaches(Apply(s, step), t)
    ensures Reaches(s, t)
  {
    hide Apply, Enabled;
    var steps :| Runs(Apply(s, step), steps, t);
    assert [step] + steps != [] && ([step] + steps)[1..] == steps;
    assert Runs(s, [step] + steps, t);
  }

  lemma ReachesSelf(s: State)
    ensures Reaches(s, s)
  {
    assert Runs(s, [], s);
  }

  // ---------------------------------------------------------------------------
  // What each goroutine leaves alone
  // ---------------------------------------------------------------------------

  /** `s` with what a handler may change taken from `t`. */
  function HandlerPart(s: State, t: State): State {
    s.(handlers := t.handlers, pending := t.pending, queue := t.queue,
       ledger := s.ledger.(accepted := t.ledger.accepted))
  }

  lemma BeginFrame(s: State, env: Envelope)
    requires s.cfg.Valid() && HandlerEnabled(s, Begin(env))
    ensures HandlerApply(s, Begin(env)) == HandlerPart(s, HandlerApply(s, Begin(env)))
  {
    hide Stamp, Config.ChanCap;
  }

  lemma CheckFatalFrame(s: State, h: nat)
    requires s.cfg.Valid() && HandlerEnabled(s, CheckFatal(h))
    ensures HandlerApply(s, CheckFatal(h)) == HandlerPart(s, HandlerApply(s, CheckFatal(h)))
  {
    hide Stamp, Config.ChanCap;
  }

  lemma LoadFrame(s: State, h: nat)
    requires s.cfg.Valid() && HandlerEnabled(s, Load(h))
    ensures HandlerApply(s, Load(h)) == HandlerPart(s, HandlerApply(s, Load(h)))
  {
    hide Stamp, Config.ChanCap;
  }

  lemma SwapFrame(s: State, h: nat)
    requires s.cfg.Valid() && HandlerEnabled(s, Swap(h))
    ensures HandlerApply(s, Swap(h)) == HandlerPart(s, HandlerApply(s, Swap(h)))
  {
    hide Stamp, Config.ChanCap;
  }

  lemma SendFrame(s: State, h: nat)
    requires s.cfg.Valid() && HandlerEnabled(s, Send(h))
    ensures HandlerApply(s, Send(h)) == HandlerPart(s, HandlerApply(s, Send(h)))
  {
    hide Stamp, Config.ChanCap;
  }

  lemma HandlerFrame(s: State, step: HandlerStep)
    requires s.cfg.Valid() && HandlerEnabled(s, step)
    ensures HandlerApply(s, step) == HandlerPart(s, HandlerApply(s, step))
  {
    hide HandlerApply, HandlerPart;
    match step {
      case Begin(env) => BeginFrame(s, env);
      case CheckFatal(h) => CheckFatalFrame(s, h);
      case Load(h) => LoadFrame(s, h);
      case Swap(h) => SwapFrame(s, h);
      case Send(h) => SendFrame(s, h);
    }
  }

  lemma FlusherControl(s: State, step: FlusherStep)
    requires FlusherEnabled(s, step)
    ensures var t := FlusherApply(s, step);
            t == s.(flusher := t.flusher, queue := t.queue, pending := t.pending, rows := t.rows, nextRow := t.nextRow,
                    fatal := t.fatal, ledger := t.ledger)
  {
    hide Stamp, Delete, Increment, Quarantine, Events, ListForDrain, ShouldQuarantine;
    match step {
      case Receive => case Append => case Tick => case SeeClosed => case SeeCancelled =>
      case Insert(_) => case Meter => case ClearFatal => case WriteRow(_) => case SetFatal => case Release =>
    }
  }

  lemma FlusherFlag(s: State, step: FlusherStep)
    requires FlusherEnabled(s, step)
    ensures var t := FlusherApply(s, step);
            && t.fatal == (if step.SetFatal? then true else if step.ClearFatal? then false else s.fatal)
            && (t.flusher.pc.WritingDlq? ==> step == Insert(false))
            && (t.flusher.pc.SettingFatal? ==> step == WriteRow(false))
  {
    hide Stamp, Delete, Increment, Quarantine, Events, ListForDrain, ShouldQuarantine;
    match step {
      case Receive => case Append => case Tick => case SeeClosed => case SeeCancelled =>
      case Insert(_) => case Meter => case ClearFatal => case WriteRow(_) => case SetFatal => case Release =>
    }
  }

  lemma FlusherStores(s: State, step: FlusherStep)
    requires FlusherEnabled(s, step)
    ensures var t := FlusherApply(s, step);
            && s.rows <= t.rows && t.ledger.relanded == s.ledger.relanded
            && t.ledger.lost == (if step == WriteRow(false) then s.ledger.lost + multiset(s.flusher.buf) else s.ledger.lost)
  {
    hide Stamp, Delete, Increment, Quarantine, Events, ListForDrain, ShouldQuarantine;
    match step {
      case Receive => case Append => case Tick => case SeeClosed => case SeeCancelled =>
      case Insert(_) => case Meter => case ClearFatal => case WriteRow(_) => case SetFatal => case Release =>
    }
  }

  lemma DrainControl(s: State, step: DrainStep)
    requires DrainEnabled(s, step)
    ensures var t := DrainApply(s, step);
            t == s.(drain := t.drain, rows := t.rows, fatal := t.fatal, ledger := t.ledger)
  {
    hide Stamp, Delete, Increment, Quarantine, Events, ListForDrain, ShouldQuarantine;
    match step {
      case List(_) => case Stop => case Finish => case QuarantineHead(_) => case TakeHead => case Replay(_) =>
      case Bump(_) => case DeleteRow(_) => case MeterReplay => case ClearReplay =>
    }
  }

  lemma DrainLedger(s: State, step: DrainStep)
    requires DrainEnabled(s, step)
    ensures var t := DrainApply(s, step);
            && t.fatal == (if step.ClearReplay? then false else s.fatal)
            && t.ledger.lost == s.ledger.lost
            && (step != DeleteRow(false) ==> t.ledger.relanded == s.ledger.relanded)
  {
    hide Stamp, Delete, Increment, Quarantine, Events, ListForDrain, ShouldQuarantine;
    match step {
      case List(_) => case Stop => case Finish => case QuarantineHead(_) => case TakeHead => case Replay(_) =>
      case Bump(_) => case DeleteRow(_) => case MeterReplay => case ClearReplay =>
    }
  }

  lemma ShutdownControl(s: State, step: ShutdownStep)
    requires ShutdownEnabled(s, step)
    ensures var t := ShutdownApply(s, step);
            && t == s.(shutdown := t.shutdown, disabled := t.disabled, forced := t.forced, closed := t.closed, queue := t.queue,
                       residual := t.residual, rows := t.rows, nextRow := t.nextRow, pending := t.pending, ledger := t.ledger)
            && t.forced == (if step.StopHttp? then step.force else s.forced)
  {
    hide Stamp, Delete, Increment, Quarantine, Events, ListForDrain, ShouldQuarantine;
    match step {
      case Disable => case StopHttp(_) => case Close => case Return => case Expire => case Capture =>
      case EndCapture => case WriteResidual(_) => case ReleaseResidual =>
    }
  }

  lemma ShutdownStores(s: State, step: ShutdownStep)
    requires ShutdownEnabled(s, step)
    ensures var t := ShutdownApply(s, step);
            && s.rows <= t.rows && t.ledger.relanded == s.ledger.relanded
            && t.ledger.lost == (if step == WriteResidual(false) then s.ledger.lost + multiset(s.residual) else s.ledger.lost)
  {
    hide Stamp, Delete, Increment, Quarantine, Events, ListForDrain, ShouldQuarantine;
    match step {
      case Disable => case StopHttp(_) => case Close => case Return => case Expire => case Capture =>
      case EndCapture => case WriteResidual(_) => case ReleaseResidual =>
    }
  }

  lemma FrameFlow(s: State, step: Step)
    requires s.cfg.Valid() && Enabled(s, step)
    ensures var t := Apply(s, step);
            && t.cfg == s.cfg
            && (!step.F? ==> t.flusher == s.flusher)
            && (!step.D? ==> t.drain == s.drain && s.rows <= t.rows)
            && (!step.S? ==> t.shutdown == s.shutdown && t.closed == s.closed && t.residual == s.residual)
            && (!step.H? ==> t.handlers == s.handlers)
            && (step != Cancel ==> t.ctxDone == s.ctxDone)
            && (step != FORCED && !s.forced ==> !t.forced)
            && (step.Elapse? || t.now == s.now) && t.now >= s.now
  {
    hide HandlerApply, FlusherApply, DrainApply, ShutdownApply;
    hide HandlerEnabled, FlusherEnabled, DrainEnabled, ShutdownEnabled;
    match step
    case H(h) => HandlerFrame(s, h);
    case F(f) => FlusherControl(s, f); FlusherStores(s, f);
    case D(d) => DrainControl(s, d);
    case S(p) => ShutdownControl(s, p); ShutdownStores(s, p);
    case _ =>
  }

  lemma FrameLedger(s: State, step: Step)
    requires s.cfg.Valid() && Enabled(s, step)
    ensures var t := Apply(s, step);
            && t.fatal == (if step == F(SetFatal) then true
                           else if step == F(ClearFatal) || step == D(ClearReplay) then false
                           else s.fatal)
            && t.ledger.lost == (if step == F(WriteRow(false)) then s.ledger.lost + multiset(s.flusher.buf)
                                 else if step == S(WriteResidual(false)) then s.ledger.lost + multiset(s.residual)
                                 else s.ledger.lost)
            && (step != D(DeleteRow(false)) ==> t.ledger.relanded == s.ledger.relanded)
            && (step.F? && t.flusher.pc.WritingDlq? ==> step == F(Insert(false)))
            && (step.F? && t.flusher.pc.SettingFatal? ==> step == F(WriteRow(false)))
  {
    hide HandlerApply, FlusherApply, DrainApply, ShutdownApply;
    hide HandlerEnabled, FlusherEnabled, DrainEnabled, ShutdownEnabled;
    match step
    case H(h) => HandlerFrame(s, h);
    case F(f) => FlusherFlag(s, f); FlusherStores(s, f);
    case D(d) => DrainLedger(s, d);
    case S(p) => ShutdownControl(s, p); ShutdownStores(s, p);
    case _ =>
  }

  lemma Frame(s: State, step: Step)
    requires s.cfg.Valid() && Enabled(s, step)
    ensures var t := Apply(s, step);
            && t.cfg == s.cfg
            && (!step.F? ==> t.flusher == s.flusher)
            && (!step.D? ==> t.drain == s.drain && s.rows <= t.rows)
            && (!step.S? ==> t.shutdown == s.shutdown && t.closed == s.closed && t.residual == s.residual)
            && (!step.H? ==> t.handlers == s.handlers)
            && (step != Cancel ==> t.ctxDone == s.ctxDone)
            && (step != FORCED && !s.forced ==> !t.forced)
            && (step.Elapse? || t.now == s.now) && t.now >= s.now
            && t.fatal == (if step == F(SetFatal) then true
                           else if step == F(ClearFatal) || step == D(ClearReplay) then false
                           else s.fatal)
            && t.ledger.lost == (if step == F(WriteRow(false)) then s.ledger.lost + multiset(s.flusher.buf)
                                 else if step == S(WriteResidual(false)) then s.ledger.lost + multiset(s.residual)
                                 else s.ledger.lost)
            && (step != D(DeleteRow(false)) ==> t.ledger.relanded == s.ledger.relanded)
            && (step.F? && t.flusher.pc.WritingDlq? ==> step == F(Insert(false)))
            && (step.F? && t.flusher.pc.SettingFatal? ==> step == F(WriteRow(false)))
  {
    FrameFlow(s, step);
    FrameLedger(s, step);
    hide Apply, Enabled;
  }

  // ---------------------------------------------------------------------------
  // Conservation
  // ---------------------------------------------------------------------------

  function Quarantined(rows: seq<Row>): seq<Row> {
    if rows == [] then []
    else if rows[0].quarantined then [rows[0]] + Quarantined(rows[1..])
    else Quarantined(rows[1..])
  }

  lemma {:induction false} HeldSplits(rows: seq<Row>)
    ensures Held(rows) == Held(Active(rows)) + Held(Quarantined(rows))
  {
    if rows != [] {
      HeldSplits(rows[1..]);
      TailOfCons(rows[0], Active(rows[1..]));
      TailOfCons(rows[0], Quarantined(rows[1..]));
    }
  }

  /** Conservation: in every reachable state each acknowledged event has exactly one owner
      (counting repeats): the channel, the envelope or buffer in the flusher's hands, the
      shutdown capture, an active row, a quarantined row, ClickHouse for good, or lost. */
  lemma EveryAcceptedEventHasOneOwner(s: State)
    requires Reachable(s)
    ensures s.ledger.accepted ==
            multiset(Flat(s.queue))
            + multiset(s.flusher.rest)
            + (if BufOwned(s.flusher.pc) then multiset(s.flusher.buf) else multiset{})
            + (if s.shutdown.Capturing? || s.shutdown.WritingResidual? then multiset(s.residual) else multiset{})
            + Held(Active(s.rows)) + Held(Quarantined(s.rows))
            + s.ledger.settled + s.ledger.lost
  {
    ReachableInv(s);
    HeldSplits(s.rows);
    ConservedAsSum(s);
  }

  lemma ConservedAsSum(s: State)
    requires Conserved(s.queue, s.flusher, s.shutdown, s.residual, s.rows, s.ledger)
    requires ShutdownShape(s.shutdown, s.closed, s.disabled, s.residual, BothExited(s))
    ensures s.ledger.accepted ==
            multiset(Flat(s.queue))
            + multiset(s.flusher.rest)
            + (if BufOwned(s.flusher.pc) then multiset(s.flusher.buf) else multiset{})
            + (if s.shutdown.Capturing? || s.shutdown.WritingResidual? then multiset(s.residual) else multiset{})
            + Held(s.rows) + s.ledger.settled + s.ledger.lost
  {
    var sum := multiset(Flat(s.queue))
               + multiset(s.flusher.rest)
               + (if BufOwned(s.flusher.pc) then multiset(s.flusher.buf) else multiset{})
               + (if s.shutdown.Capturing? || s.shutdown.WritingResidual? then multiset(s.residual) else multiset{})
               + Held(s.rows) + s.ledger.settled + s.ledger.lost;
    forall x ensures s.ledger.accepted[x] == sum[x] {
      assert s.ledger.accepted[x] == Owners(s.queue, s.flusher, s.shutdown, s.residual, s.rows, s.ledger, x);
    }
  }

  /** The last thing the flusher did in a run. */
  function LastFlush(steps: seq<Step>): Option<FlusherStep> {
    if steps == [] then None
    else match LastFlush(steps[1..])
      case Some(f) => Some(f)
      case None => if steps[0].F? then Some(steps[0].flush) else None
  }

  lemma {:induction false} LastFlushFixesPc(s: State, steps: seq<Step>, t: State)
    requires Runs(s, steps, t)
    ensures t.flusher.pc.WritingDlq? ==>
              LastFlush(steps) == Some(Insert(false)) || (LastFlush(steps) == None && s.flusher.pc.WritingDlq?)
    ensures t.flusher.pc.SettingFatal? ==>
              LastFlush(steps) == Some(WriteRow(false)) || (LastFlush(steps) == None && s.flusher.pc.SettingFatal?)
    ensures LastFlush(steps) == None ==> t.flusher == s.flusher
    decreases |steps|
  {
    hide Apply, Enabled;
    if steps != [] {
      LastFlushFixesPc(Apply(s, steps[0]), steps[1..], t);
      Frame(s, steps[0]);
    }
  }

  /** Events are lost only where the model says so: at a dead-letter write that fails right
      after the insert of the very same batch failed, or at a failed residual write. */
  lemma LossNeedsTwoFailures(cfg: Config, now: Instant, disabled: bool, steps: seq<Step>, s: State, step: Step)
    requires cfg.Valid() && Runs(Initial(cfg, now, disabled), steps, s) && s.cfg.Valid() && Enabled(s, step)
    ensures || Apply(s, step).ledger.lost == s.ledger.lost
            || (step == F(WriteRow(false)) && LastFlush(steps) == Some(Insert(false))
                && Apply(s, step).ledger.lost == s.ledger.lost + multiset(s.flusher.buf))
            || (step == S(WriteResidual(false))
                && Apply(s, step).ledger.lost == s.ledger.lost + multiset(s.residual))
  {
    hide Runs, Apply;
    LastFlushFixesPc(Initial(cfg, now, disabled), steps, s);
    Frame(s, step);
  }

  // ---------------------------------------------------------------------------
  // Metering
  // ---------------------------------------------------------------------------

  /** Metering: an event is metered at most as often as it was accepted and only after it
      landed; its copies in ClickHouse are at most its acceptances plus its failed deletes. */
  lemma MeteredAtMostOnceAndOnlyIfLanded(s: State, x: Item)
    requires Reachable(s)
    ensures s.ledger.metered[x] <= s.ledger.settled[x] <= s.ledger.accepted[x]
    ensures s.ledger.settled[x] <= s.ledger.landed[x] <= s.ledger.accepted[x] + s.ledger.relanded[x]
  {
    ReachableInv(s);
    assert s.ledger.accepted[x] == Owners(s.queue, s.flusher, s.shutdown, s.residual, s.rows, s.ledger, x);
    if s.drain.pc.Deleting? {
      HeldMoves(s.rows, s.nextRow, s.drain.pc.row);
    }
  }

  predicate AtRest(s: State) {
    !s.flusher.pc.Metering? && !s.drain.pc.MeteringReplay? && !s.drain.pc.Deleting?
  }

  const FAILED_DELETE := D(DeleteRow(false))

  /** Every row was written for a batch that was not empty. */
  ghost predicate Filled(rows: seq<Row>) {
    forall r :: r in rows ==> r.payload.Some? && r.payload.value != []
  }

  lemma UpdatesFill(rows: seq<Row>, id: nat)
    requires Filled(rows)
    ensures Filled(Delete(rows, id)) && Filled(Increment(rows, id)) && Filled(Quarantine(rows, id))
  {
    DeleteSpec(rows, id);
  }

  lemma FlusherFills(s: State, step: FlusherStep)
    requires Inv(s) && FlusherEnabled(s, step) && Filled(s.rows)
    ensures Filled(FlusherApply(s, step).rows)
  {
    hide ChannelShape, TableShape, DrainShape, ShutdownShape, HandlersShape, Slots, Conserved, Metered;
    match step {
      case Receive => case Append => case Tick => case SeeClosed => case SeeCancelled =>
      case Insert(_) => case Meter => case ClearFatal => case WriteRow(_) => case SetFatal => case Release =>
    }
  }

  lemma DrainFills(s: State, step: DrainStep)
    requires DrainEnabled(s, step) && Filled(s.rows)
    ensures Filled(DrainApply(s, step).rows)
  {
    match step {
      case List(_) => case Stop => case Finish => case TakeHead => case Replay(_) => case MeterReplay => case ClearReplay =>
      case QuarantineHead(_) => UpdatesFill(s.rows, s.drain.todo[0].id);
      case Bump(_) => UpdatesFill(s.rows, s.drain.pc.row.id);
      case DeleteRow(_) => UpdatesFill(s.rows, s.drain.pc.row.id);
    }
  }

  lemma ShutdownFills(s: State, step: ShutdownStep)
    requires ShutdownEnabled(s, step) && Filled(s.rows) && (s.shutdown.WritingResidual? ==> s.residual != [])
    ensures Filled(ShutdownApply(s, step).rows)
    ensures ShutdownApply(s, step).shutdown.WritingResidual? ==> ShutdownApply(s, step).residual != []
  {
    match step {
      case Disable => case StopHttp(_) => case Close => case Return => case Expire => case Capture =>
      case EndCapture => case WriteResidual(_) => case ReleaseResidual =>
    }
  }

  ghost predicate Substantial(s: State) {
    Filled(s.rows) && (s.shutdown.WritingResidual? ==> s.residual != [])
  }

  lemma SubstantialStep(s: State, step: Step)
    requires Inv(s) && Substantial(s) && Enabled(s, step)
    ensures Substantial(Apply(s, step))
  {
    assert s.cfg.Valid();
    hide Inv, Filled, HandlerApply, FlusherApply, DrainApply, ShutdownApply;
    hide HandlerEnabled, FlusherEnabled, DrainEnabled, ShutdownEnabled;
    match step
    case H(h) => HandlerFrame(s, h);
    case F(f) => FlusherFills(s, f); FlusherControl(s, f);
    case D(d) => DrainFills(s, d); DrainControl(s, d);
    case S(p) => ShutdownFills(s, p);
    case _ =>
  }

  /** A failed delete leaves at least one copy behind. */
  lemma FailedDeleteRelands(s: State)
    requires Inv(s) && Substantial(s) && Enabled(s, FAILED_DELETE)
    ensures |Apply(s, FAILED_DELETE).ledger.relanded| > |s.ledger.relanded|
  {
    var row := s.drain.pc.row;
    assert row in s.rows;
    assert |Events(row)| == |Payload(row)| > 0;
  }

  lemma {:induction false} RelandedCounts(s: State, steps: seq<Step>, t: State)
    requires Runs(s, steps, t) && Inv(s) && Substantial(s)
    ensures |t.ledger.relanded| >= |s.ledger.relanded|
    ensures t.ledger.relanded == s.ledger.relanded <==> FAILED_DELETE !in steps
    ensures FAILED_DELETE in steps ==> |t.ledger.relanded| > |s.ledger.relanded|
    decreases |steps|
  {
    hide Apply, Enabled, Inv, Substantial;
    if steps != [] {
      var step, mid := steps[0], Apply(s, steps[0]);
      StepKeeps(s, step);
      SubstantialStep(s, step);
      RelandedCounts(mid, steps[1..], t);
      Frame(s, step);
      ConsTail(steps);
      if step == FAILED_DELETE {
        FailedDeleteRelands(s);
      }
    }
  }

  /** Exactly once, exactly when: between flushes and replays, every copy in ClickHouse has been
      metered once and every event landed at most as often as it was accepted, if and only if no
      delete of a replayed row failed in the run. */
  lemma ExactlyOnceIffNoFailedDelete(cfg: Config, now: Instant, disabled: bool, steps: seq<Step>, s: State)
    requires cfg.Valid() && Runs(Initial(cfg, now, disabled), steps, s) && AtRest(s)
    ensures s.ledger.landed == s.ledger.metered <==> FAILED_DELETE !in steps
    ensures FAILED_DELETE !in steps ==> forall x :: s.ledger.landed[x] == s.ledger.settled[x] <= s.ledger.accepted[x]
  {
    var start := Initial(cfg, now, disabled);
    InitialInv(cfg, now, disabled);
    assert Substantial(start);
    RunKeeps(start, steps, s);
    RelandedCounts(start, steps, s);
    assert Reachable(s);
    LandedSplits(s);
    forall x ensures s.ledger.settled[x] <= s.ledger.accepted[x] {
      MeteredAtMostOnceAndOnlyIfLanded(s, x);
    }
  }

  lemma LandedSplits(s: State)
    requires Inv(s) && AtRest(s)
    ensures s.ledger.settled == s.ledger.metered
    ensures s.ledger.landed == s.ledger.settled + s.ledger.relanded
    ensures s.ledger.landed == s.ledger.metered <==> s.ledger.relanded == multiset{}
  {
    var sum := s.ledger.settled + s.ledger.relanded;
    forall x ensures s.ledger.settled[x] == s.ledger.metered[x] && s.ledger.landed[x] == sum[x] {
      assert s.ledger.settled[x] == s.ledger.metered[x] + BeingMetered(s.flusher, s.drain.pc, x);
    }
    assert s.ledger.landed == sum;
    if s.ledger.landed == s.ledger.metered {
      assert |sum| == |s.ledger.settled| + |s.ledger.relanded|;
    }
  }

  // ---------------------------------------------------------------------------
  // Slots
  // ---------------------------------------------------------------------------

  /** Slot accounting: the counter stays between zero and the ceiling and counts exactly the
      unsent reservations and the events between the channel and their release. */
  lemma PendingIsExact(s: State)
    requires Reachable(s)
    ensures 0 <= s.pending <= s.cfg.eventBuffer
    ensures s.pending == Unsent(s.handlers) + |Flat(s.queue)| + |s.flusher.rest| + |s.flusher.buf| + |s.residual|
  {
    ReachableInv(s);
  }

  /** A submission that is refused after it reserved leaves channel and ledger alone and gives
      back all of its own slots and nobody else's. */
  lemma RefusedSubmitReleases(s: State, h: nat)
    requires Reachable(s) && HandlerEnabled(s, Send(h)) && s.cfg.Valid()
    requires HandlerApply(s, Send(h)).handlers[h].Refused?
    ensures var t := HandlerApply(s, Send(h));
            && t.queue == s.queue && t.ledger == s.ledger
            && Unsent(t.handlers) == Unsent(s.handlers) - |s.handlers[h].env.events|
            && t.pending == s.pending - |s.handlers[h].env.events|
  {
    hide Inv, Runs, Config.ChanCap;
    UnsentUpdate(s.handlers, h, Refused);
  }

  // ---------------------------------------------------------------------------
  // Shutdown
  // ---------------------------------------------------------------------------

  const FORCED := S(StopHttp(true))

  lemma {:induction false} RunMonotone(s: State, steps: seq<Step>, t: State)
    requires Runs(s, steps, t)
    ensures Cancel !in steps ==> t.ctxDone == s.ctxDone
    ensures FORCED !in steps && !s.forced ==> !t.forced
    decreases |steps|
  {
    hide Apply, Enabled;
    if steps != [] {
      Frame(s, steps[0]);
      RunMonotone(Apply(s, steps[0]), steps[1..], t);
    }
  }

  lemma {:induction false} DrainStaysOn(s: State, steps: seq<Step>, t: State)
    requires Runs(s, steps, t) && (s.drain.pc.Stopped? ==> s.ctxDone || s.closed)
    ensures t.drain.pc.Stopped? ==> t.ctxDone || t.closed
    decreases |steps|
  {
    if steps != [] {
      StopNeedsSignal(s, steps[0]);
      hide Apply, Enabled;
      DrainStaysOn(Apply(s, steps[0]), steps[1..], t);
    }
  }

  lemma StopNeedsSignal(s: State, step: Step)
    requires s.cfg.Valid() && Enabled(s, step) && (s.drain.pc.Stopped? ==> s.ctxDone || s.closed)
    ensures var t := Apply(s, step); t.drain.pc.Stopped? ==> t.ctxDone || t.closed
  {
    Frame(s, step);
    hide HandlerApply, FlusherApply, DrainApply, ShutdownApply, HandlerEnabled, FlusherEnabled, DrainEnabled, ShutdownEnabled;
    match step
    case D(d) => OnlyStopStops(s, d);
    case S(p) => CloseStays(s, p);
    case _ =>
  }

  lemma OnlyStopStops(s: State, step: DrainStep)
    requires DrainEnabled(s, step)
    ensures DrainApply(s, step).drain.pc.Stopped? ==> s.drain.pc.Stopped? || s.ctxDone || s.closed
  {
    hide Delete, Increment, Quarantine, Events, ListForDrain, ShouldQuarantine;
  }

  lemma CloseStays(s: State, step: ShutdownStep)
    requires ShutdownEnabled(s, step)
    ensures s.closed ==> ShutdownApply(s, step).closed
  {
    hide Stamp;
    match step {
      case Disable => case StopHttp(_) => case Close => case Return => case Expire => case Capture =>
      case EndCapture => case WriteResidual(_) => case ReleaseResidual =>
    }
  }

  /** The drain goes on passing over the table until Start's context is cancelled or shutdown has closed
      the channel. */
  lemma DrainRunsUntilShutdown(s: State)
    requires Reachable(s) && s.drain.pc.Stopped?
    ensures s.ctxDone || s.closed
  {
    var cfg: Config, now, disabled, steps :| cfg.Valid() && Runs(Initial(cfg, now, disabled), steps, s);
    DrainStaysOn(Initial(cfg, now, disabled), steps, s);
  }

  /** After a graceful stop of the HTTP server no handler ever sends on the closed channel, and all
      are finished once it is closed. What a forced stop can do is in ClosePanics. */
  lemma GracefulStopNeverPanics(cfg: Config, now: Instant, disabled: bool, steps: seq<Step>, s: State)
    requires cfg.Valid() && Runs(Initial(cfg, now, disabled), steps, s) && FORCED !in steps
    ensures forall i :: 0 <= i < |s.handlers| ==> !s.handlers[i].Panicked?
    ensures s.closed ==> forall i :: 0 <= i < |s.handlers| ==> s.handlers[i].Finished()
  {
    InitialInv(cfg, now, disabled);
    RunKeeps(Initial(cfg, now, disabled), steps, s);
    RunMonotone(Initial(cfg, now, disabled), steps, s);
  }

  /** Shutdown drains: whenever Shutdown has returned before its deadline, Start's context is not
      cancelled and every request was answered, forced stop or not, nothing is left in memory. */
  lemma CleanReturnLeavesNothing(s: State)
    requires Reachable(s) && s.shutdown.ReturnedClean? && !s.ctxDone
    requires forall i :: 0 <= i < |s.handlers| ==> s.handlers[i].Accepted? || s.handlers[i].Refused?
    ensures s.queue == [] && s.flusher.rest == [] && s.flusher.buf == [] && s.residual == [] && s.pending == 0
    ensures s.ledger.accepted == Held(s.rows) + s.ledger.settled + s.ledger.lost
  {
    ReachableInv(s);
    NothingUnsent(s.handlers);
    ConservedAsSum(s);
  }

  /** Everything is idle, the server is still serving, and envelopes are queued. */
  ghost predicate QuietWithBacklog(s: State) {
    && Inv(s) && s.shutdown.Serving? && !s.forced
    && s.flusher.pc.AtHead? && s.flusher.rest == [] && s.drain.pc.Idle?
    && s.queue != []
    && forall i :: 0 <= i < |s.handlers| ==> s.handlers[i].Finished()
  }

  /** The exact condition: from a quiet state with a backlog, a graceful shutdown can return
      cleanly and still abandon queued envelopes if and only if Start's context is already
      cancelled. */
  lemma CleanReturnAbandonsBacklogIff(s: State)
    requires QuietWithBacklog(s)
    ensures s.ctxDone <==>
            exists steps, t :: Runs(s, steps, t) && Cancel !in steps && FORCED !in steps
                               && t.shutdown.ReturnedClean? && t.queue != []
  {
    hide Runs, Inv;
    if s.ctxDone {
      var steps, t := AbandonBacklog(s);
      assert Runs(s, steps, t) && Cancel !in steps && FORCED !in steps && t.queue != [];
    } else {
      forall steps, t | Runs(s, steps, t) && Cancel !in steps && FORCED !in steps && t.shutdown.ReturnedClean?
        ensures t.queue == []
      {
        UncancelledDrains(s, steps, t);
      }
    }
  }

  lemma UncancelledDrains(s: State, steps: seq<Step>, t: State)
    requires Inv(s) && !s.ctxDone && !s.forced
    requires Runs(s, steps, t) && Cancel !in steps && FORCED !in steps && t.shutdown.ReturnedClean?
    ensures t.queue == []
  {
    RunKeeps(s, steps, t);
    RunMonotone(s, steps, t);
    hide Runs, ChannelShape, TableShape, DrainShape, HandlersShape, Slots, Conserved, Metered;
  }

  /** A run given step by step. */
  lemma RunsCons(s: State, step: Step, steps: seq<Step>, t: State)
    requires s.cfg.Valid() && Enabled(s, step) && Runs(Apply(s, step), steps, t)
    ensures Runs(s, [step] + steps, t)
  {
    TailOfCons(step, steps);
  }

  lemma AbandonBacklog(s: State) returns (steps: seq<Step>, t: State)
    requires QuietWithBacklog(s) && s.ctxDone
    ensures Runs(s, steps, t) && Cancel !in steps && FORCED !in steps
    ensures t.shutdown.ReturnedClean? && t.queue == s.queue
  {
    var seen := Apply(s, F(SeeCancelled));
    var exitSteps, exited := LastFlushFails(seen);
    RunsCons(s, F(SeeCancelled), exitSteps, exited);
    var stopSteps, returned := StopEverything(exited);
    RunsConcat(s, [F(SeeCancelled)] + exitSteps, exited, stopSteps, returned);
    steps, t := [F(SeeCancelled)] + exitSteps + stopSteps, returned;
  }

  /** With the context cancelled both store calls of the last flush fail. */
  lemma LastFlushFails(s: State) returns (steps: seq<Step>, t: State)
    requires s.cfg.Valid()
    requires s.flusher.pc.Exited? || (s.flusher.pc.Inserting? && s.flusher.exiting)
    ensures Runs(s, steps, t) && Cancel !in steps && FORCED !in steps
    ensures t.flusher.pc.Exited? && t.queue == s.queue && t.drain == s.drain && t.shutdown == s.shutdown
    ensures t.handlers == s.handlers && t.ctxDone == s.ctxDone && t.cfg == s.cfg
  {
    if s.flusher.pc.Exited? {
      return [], s;
    }
    var a := Apply(s, F(Insert(false)));
    var b := Apply(a, F(WriteRow(false)));
    var c := Apply(b, F(SetFatal));
    t := Apply(c, F(Release));
    RunsCons(c, F(Release), [], t);
    RunsCons(b, F(SetFatal), [F(Release)] + [], t);
    RunsCons(a, F(WriteRow(false)), [F(SetFatal)] + ([F(Release)] + []), t);
    steps := [F(Insert(false))] + ([F(WriteRow(false))] + ([F(SetFatal)] + ([F(Release)] + [])));
    RunsCons(s, F(Insert(false)), [F(WriteRow(false))] + ([F(SetFatal)] + ([F(Release)] + [])), t);
  }

  lemma StopEverything(s: State) returns (steps: seq<Step>, t: State)
    requires s.cfg.Valid() && s.shutdown.Serving? && s.flusher.pc.Exited? && s.drain.pc.Idle? && s.ctxDone
    requires forall i :: 0 <= i < |s.handlers| ==> s.handlers[i].Finished()
    ensures Runs(s, steps, t) && Cancel !in steps && FORCED !in steps
    ensures t.shutdown.ReturnedClean? && t.queue == s.queue
  {
    var a := Apply(s, D(Stop));
    var b := Apply(a, S(Disable));
    var c := Apply(b, S(StopHttp(false)));
    var d := Apply(c, S(Close));
    t := Apply(d, S(Return));
    var tail := [S(Return)] + [];
    RunsCons(d, S(Return), [], t);
    RunsCons(c, S(Close), tail, t);
    tail := [S(Close)] + tail;
    RunsCons(b, S(StopHttp(false)), tail, t);
    tail := [S(StopHttp(false))] + tail;
    RunsCons(a, S(Disable), tail, t);
    tail := [S(Disable)] + tail;
    RunsCons(s, D(Stop), tail, t);
    steps := [D(Stop)] + tail;
  }
}
