/** When the fatal flag is set, when it clears, and when it can never clear again. */
module FatalFlag {
  import opened Common
  import opened EventCodec
  import opened FailedEvents
  import opened Pipeline
  import opened PipelineInvariant
  import opened PipelineTheorems

  /** The flag changes only at a flush that failed both stores, and at a flush or a replay
      that landed. */
  lemma FlagChanges(cfg: Config, now: Instant, disabled: bool, steps: seq<Step>, s: State, step: Step)
    requires cfg.Valid() && Runs(Initial(cfg, now, disabled), steps, s) && s.cfg.Valid() && Enabled(s, step)
    ensures !s.fatal && Apply(s, step).fatal ==> step == F(SetFatal) && LastFlush(steps) == Some(WriteRow(false))
    ensures s.fatal && !Apply(s, step).fatal ==> step == F(ClearFatal) || step == D(ClearReplay)
  {
    hide Runs, Apply;
    LastFlushFixesPc(Initial(cfg, now, disabled), steps, s);
    Frame(s, step);
  }

  // ---------------------------------------------------------------------------
  // The fixed point
  // ---------------------------------------------------------------------------

  predicate Blocked(h: Handler) { h.Started? || h.Finished() }

  /** Fatal, with no event queued, in hand or buffered, no replayable row, and no handler past
      its fatal check. */
  ghost predicate Stuck(s: State) {
    && s.fatal && s.queue == [] && s.residual == []
    && s.flusher.rest == [] && s.flusher.buf == [] && (s.flusher.pc.AtHead? || s.flusher.pc.Exited?)
    && (forall i :: 0 <= i < |s.handlers| ==> Blocked(s.handlers[i]))
    && (s.drain.pc.Idle? || s.drain.pc.Next? || s.drain.pc.Stopped?)
    && NoneReplayable(s.rows, s.now)
  }

  ghost predicate NoneReplayable(rows: seq<Row>, now: Instant) {
    forall i :: 0 <= i < |rows| ==> !Replayable(rows[i], now)
  }

  lemma StuckHandler(s: State, step: HandlerStep)
    requires s.cfg.Valid() && Stuck(s) && HandlerEnabled(s, step)
    ensures Stuck(HandlerApply(s, step))
  {
    match step { case Begin(_) => case CheckFatal(_) => case Load(_) => case Swap(_) => case Send(_) => }
  }

  lemma StuckFlusher(s: State, step: FlusherStep)
    requires Stuck(s) && FlusherEnabled(s, step)
    ensures Stuck(FlusherApply(s, step))
  {
    match step {
      case Receive => case Append => case Tick => case SeeClosed => case SeeCancelled =>
      case Insert(_) => case Meter => case ClearFatal => case WriteRow(_) => case SetFatal => case Release =>
    }
  }

  lemma StuckDrain(s: State, step: DrainStep)
    requires DrainShape(s.rows, s.drain) && Stuck(s) && DrainEnabled(s, step)
    ensures Stuck(DrainApply(s, step))
  {
    forall r | r in s.drain.todo ensures !Replayable(r, s.now) {
      assert r in s.rows;
    }
    match step {
      case List(_) => case Stop => case Finish => case QuarantineHead(_) => case TakeHead => case Replay(_) =>
      case Bump(_) => case DeleteRow(_) => case MeterReplay => case ClearReplay =>
    }
  }

  lemma StuckShutdown(s: State, step: ShutdownStep)
    requires ShutdownShape(s.shutdown, s.closed, s.disabled, s.residual, BothExited(s))
    requires Stuck(s) && ShutdownEnabled(s, step)
    requires !s.shutdown.WritingResidual? && !s.shutdown.ReleasingResidual?
    ensures Stuck(ShutdownApply(s, step))
    ensures var t := ShutdownApply(s, step); !t.shutdown.WritingResidual? && !t.shutdown.ReleasingResidual?
  {
    match step {
      case Disable => case StopHttp(_) => case Close => case Return => case Expire => case Capture =>
      case EndCapture => case WriteResidual(_) => case ReleaseResidual =>
    }
  }

  predicate NotWriting(pc: ShutdownPc) { !pc.WritingResidual? && !pc.ReleasingResidual? }

  /** Rows only get older. */
  lemma NoneReplayableLater(rows: seq<Row>, now: Instant, nanos: nat)
    requires NoneReplayable(rows, now)
    ensures NoneReplayable(rows, now + nanos)
  {
  }

  lemma StuckStep(s: State, step: Step)
    requires Inv(s) && s.cfg.Valid() && Stuck(s) && NotWriting(s.shutdown) && Enabled(s, step)
    ensures Stuck(Apply(s, step)) && NotWriting(Apply(s, step).shutdown)
  {
    hide ChannelShape, FlusherShape, TableShape, HandlersShape, Slots, Conserved, Metered;
    hide HandlerEnabled, FlusherEnabled, DrainEnabled, ShutdownEnabled;
    hide HandlerApply, FlusherApply, DrainApply, ShutdownApply;
    Frame(s, step);
    match step
    case H(h) => StuckHandler(s, h);
    case F(f) => StuckFlusher(s, f);
    case D(d) => StuckDrain(s, d);
    case S(p) => StuckShutdown(s, p);
    case Elapse(nanos) => NoneReplayableLater(s.rows, s.now, nanos);
    case Cancel =>
  }

  /** Once stuck, always fatal: no run of requests, flushes, drain passes, time or shutdown
      clears the flag, whatever the stores do. */
  lemma {:induction false} StuckForever(s: State, steps: seq<Step>, t: State)
    requires Inv(s) && Stuck(s) && NotWriting(s.shutdown) && Runs(s, steps, t)
    ensures Stuck(t)
    decreases |steps|
  {
    hide Inv, Stuck, Apply, Enabled;
    if steps != [] {
      assert s.cfg.Valid();
      StuckStep(s, steps[0]);
      StepKeeps(s, steps[0]);
      StuckForever(Apply(s, steps[0]), steps[1..], t);
    }
  }

  // ---------------------------------------------------------------------------
  // Recovery
  // ---------------------------------------------------------------------------

  ghost predicate CanClear(s: State) {
    exists t :: Reaches(s, t) && !t.fatal
  }

  predicate WillExit(f: Flusher) { f.pc.Exited? || f.exiting }

  /** Flusher and drain may have worked, nobody else, and the flusher is no nearer its end. */
  predicate Alone(s: State, t: State) {
    && t.handlers == s.handlers && t.cfg == s.cfg && t.shutdown == s.shutdown && t.residual == s.residual
    && WillExit(t.flusher) == WillExit(s.flusher) && (WillExit(s.flusher) ==> t.queue == s.queue)
  }

  /** The two goroutines can clear the flag by themselves. */
  ghost predicate ClearsAlone(s: State) {
    exists t :: Reaches(s, t) && Alone(s, t) && !t.fatal
  }

  lemma ClearsVia(s: State, step: Step)
    requires s.cfg.Valid() && Enabled(s, step) && Alone(s, Apply(s, step)) && ClearsAlone(Apply(s, step))
    ensures ClearsAlone(s)
  {
    hide Apply, Enabled, Reaches;
    var t :| Reaches(Apply(s, step), t) && Alone(Apply(s, step), t) && !t.fatal;
    ReachesStep(s, step, t);
  }

  lemma ClearNow(s: State)
    requires !s.fatal
    ensures ClearsAlone(s)
  {
    ReachesSelf(s);
  }

  /** A flush that lands clears the flag. */
  lemma ClearsByInsert(s: State)
    requires s.cfg.Valid() && (s.flusher.pc.Inserting? || s.flusher.pc.Metering? || s.flusher.pc.Clearing?)
    ensures ClearsAlone(s)
    decreases if s.flusher.pc.Inserting? then 2 else if s.flusher.pc.Metering? then 1 else 0
  {
    hide ClearsAlone;
    if s.flusher.pc.Clearing? {
      ClearNow(Apply(s, F(ClearFatal)));
      ClearsVia(s, F(ClearFatal));
    } else {
      var step := F(if s.flusher.pc.Inserting? then Insert(true) else Meter);
      ClearsByInsert(Apply(s, step));
      ClearsVia(s, step);
    }
  }

  /** At the loop head, with an event in hand or buffered, ClickHouse back is enough. */
  lemma {:induction false} ClearsFromHead(s: State)
    requires s.cfg.Valid() && s.flusher.pc.AtHead? && !s.flusher.exiting && (s.flusher.rest != [] || s.flusher.buf != [])
    ensures ClearsAlone(s)
    decreases |s.flusher.rest|
  {
    hide ClearsAlone;
    var step := F(if s.flusher.rest == [] then Tick else Append);
    var t := Apply(s, step);
    if t.flusher.pc.Inserting? {
      ClearsByInsert(t);
    } else {
      ClearsFromHead(t);
    }
    ClearsVia(s, step);
  }

  lemma ClearsFromQueue(s: State)
    requires Inv(s) && s.cfg.Valid() && s.flusher.pc.AtHead? && s.flusher.rest == [] && s.queue != []
    ensures ClearsAlone(s)
  {
    hide ClearsAlone, TableShape, DrainShape, ShutdownShape, HandlersShape, Slots, Conserved, Metered;
    var t := Apply(s, F(Receive));
    assert |t.flusher.rest| == |s.queue[0].events|;
    ClearsFromHead(t);
    ClearsVia(s, F(Receive));
  }

  /** Working on a row that can still be replayed, up to the write of the flag. */
  predicate InReplay(pc: DrainPc) {
    pc.Replaying? || pc.Deleting? || pc.MeteringReplay? || pc.ClearingReplay?
  }

  lemma ClearsClearing(s: State)
    requires s.cfg.Valid() && s.drain.pc.ClearingReplay?
    ensures ClearsAlone(s)
  {
    hide ClearsAlone;
    ClearNow(Apply(s, D(ClearReplay)));
    ClearsVia(s, D(ClearReplay));
  }

  lemma ClearsMetering(s: State)
    requires s.cfg.Valid() && s.drain.pc.MeteringReplay?
    ensures ClearsAlone(s)
  {
    hide ClearsAlone;
    ClearsClearing(Apply(s, D(MeterReplay)));
    ClearsVia(s, D(MeterReplay));
  }

  lemma ClearsDeleting(s: State)
    requires s.cfg.Valid() && s.drain.pc.Deleting?
    ensures ClearsAlone(s)
  {
    hide ClearsAlone, Delete;
    ClearsMetering(Apply(s, D(DeleteRow(true))));
    ClearsVia(s, D(DeleteRow(true)));
  }

  /** A replay that goes well clears the flag. */
  lemma ClearsInReplay(s: State)
    requires s.cfg.Valid() && InReplay(s.drain.pc)
    ensures ClearsAlone(s)
  {
    hide ClearsAlone;
    match s.drain.pc {
      case Replaying(_) =>
        ClearsDeleting(Apply(s, D(Replay(true))));
        ClearsVia(s, D(Replay(true)));
      case Deleting(_) => ClearsDeleting(s);
      case MeteringReplay(_) => ClearsMetering(s);
      case _ => ClearsClearing(s);
    }
  }

  lemma ClearsByReplay(s: State)
    requires s.cfg.Valid() && s.drain.pc.Next? && s.drain.todo != []
    requires !ShouldQuarantine(s.drain.todo[0], s.now) && s.drain.todo[0].payload.Some?
    ensures ClearsAlone(s)
  {
    hide ClearsAlone;
    ClearsInReplay(Apply(s, D(TakeHead)));
    ClearsVia(s, D(TakeHead));
  }

  ghost predicate SomeReplayable(rows: seq<Row>, now: Instant) {
    exists i :: 0 <= i < |rows| && Replayable(rows[i], now)
  }

  lemma {:induction false} QuarantineShrinksActive(rows: seq<Row>, row: Row)
    requires Keyed(rows) && row in rows && !row.quarantined
    ensures |Active(Quarantine(rows, row.id))| < |Active(rows)|
  {
    var next := Quarantine(rows, row.id);
    assert next[1..] == Quarantine(rows[1..], row.id);
    if rows[0].id == row.id {
      var i :| 0 <= i < |rows| && rows[i] == row;
      assert rows[0] == row;
      QuarantineMissing(rows[1..], row.id);
    } else {
      ConsTail(rows);
      QuarantineShrinksActive(rows[1..], row);
    }
  }

  lemma QuarantineMissing(rows: seq<Row>, id: nat)
    requires forall i :: 0 <= i < |rows| ==> rows[i].id != id
    ensures Quarantine(rows, id) == rows
  {
  }

  lemma ReplayableSurvives(rows: seq<Row>, row: Row, now: Instant)
    requires Keyed(rows) && row in rows && !Replayable(row, now) && SomeReplayable(rows, now)
    ensures SomeReplayable(Quarantine(rows, row.id), now)
  {
    var i :| 0 <= i < |rows| && Replayable(rows[i], now);
    var j :| 0 <= j < |rows| && rows[j] == row;
    assert rows[i].id != rows[j].id;
    assert Quarantine(rows, row.id)[i] == rows[i];
  }

  lemma ReplayableIsActive(rows: seq<Row>, now: Instant)
    requires SomeReplayable(rows, now)
    ensures Active(rows) != []
  {
    ActiveSpec(rows);
    var i :| 0 <= i < |rows| && Replayable(rows[i], now);
    assert rows[i] in Active(rows);
  }

  /** With Postgres and ClickHouse back, drain passes reach a replayable row however many
      spent rows stand before it. */
  lemma {:induction false} ClearsFromRows(s: State)
    requires Inv(s) && s.cfg.Valid() && s.cfg.drainLimit >= 1 && s.drain.pc.Next? && SomeReplayable(s.rows, s.now)
    ensures ClearsAlone(s)
    decreases |Active(s.rows)|, if s.drain.todo == [] then 2 else 0
  {
    hide ClearsAlone, ChannelShape, FlusherShape, ShutdownShape, HandlersShape, Slots, Conserved, Metered;
    hide Active, SomeReplayable;
    if s.drain.todo == [] {
      var idle := Apply(s, D(Finish));
      StepKeeps(s, D(Finish));
      ClearsFromIdle(idle);
      ClearsVia(s, D(Finish));
    } else {
      var row := s.drain.todo[0];
      TodoHead(s.rows, s.drain);
      if Replayable(row, s.now) {
        ClearsByReplay(s);
      } else {
        StepKeeps(s, D(QuarantineHead(true)));
        QuarantineShrinksActive(s.rows, row);
        ReplayableSurvives(s.rows, row, s.now);
        ClearsFromRows(Apply(s, D(QuarantineHead(true))));
        ClearsVia(s, D(QuarantineHead(true)));
      }
    }
  }

  lemma {:induction false} ClearsFromIdle(s: State)
    requires Inv(s) && s.cfg.Valid() && s.cfg.drainLimit >= 1 && s.drain.pc.Idle? && SomeReplayable(s.rows, s.now)
    ensures ClearsAlone(s)
    decreases |Active(s.rows)|, 1
  {
    hide ClearsAlone, ChannelShape, FlusherShape, ShutdownShape, HandlersShape, Slots, Conserved, Metered;
    hide Active, SomeReplayable;
    var t := Apply(s, D(List(true)));
    StepKeeps(s, D(List(true)));
    ReplayableIsActive(s.rows, s.now);
    ClearsFromRows(t);
    ClearsVia(s, D(List(true)));
  }

  /** At rest between flushes and drain passes, serving, with no handler past its check. */
  ghost predicate Resting(s: State) {
    && Inv(s) && s.shutdown.Serving? && s.cfg.drainLimit >= 1
    && s.flusher.pc.AtHead? && s.flusher.rest == [] && s.drain.pc.Idle?
    && forall i :: 0 <= i < |s.handlers| ==> Blocked(s.handlers[i])
  }

  /** The exact condition: a fatal pipeline at rest can ever serve again if and only if some
      event is queued or buffered, or some dead-letter row is still replayable. */
  lemma FatalClearsIff(s: State)
    requires Resting(s) && s.fatal
    ensures CanClear(s) <==> s.queue != [] || s.flusher.buf != [] || SomeReplayable(s.rows, s.now)
  {
    if s.queue != [] {
      ClearsFromQueue(s);
    } else if s.flusher.buf != [] {
      ClearsFromHead(s);
    } else if SomeReplayable(s.rows, s.now) {
      ClearsFromIdle(s);
    } else if CanClear(s) {
      var t :| Reaches(s, t) && !t.fatal;
      var steps :| Runs(s, steps, t);
      assert s.residual == [];
      StuckForever(s, steps, t);
      assert false;
    }
  }
}
