/**
  The fatal flag once the HTTP server is gone: exactly when anything left in the service can still
  clear it.
 */
module FatalGate {
  import opened Common
  import opened EventCodec
  import opened FailedEvents
  import opened Pipeline
  import opened PipelineInvariant
  import opened PipelineTheorems
  import opened FatalFlag

  /** The flusher is landing a batch, or will come by an event to flush. */
  predicate FlusherMayLand(s: State) {
    match s.flusher.pc
    case Inserting => true
    case Metering => true
    case Clearing => true
    case AtHead => s.flusher.rest != [] || s.flusher.buf != [] || s.queue != []
    case Exited => false
    case _ => !s.flusher.exiting && (s.flusher.rest != [] || s.queue != [])
  }

  predicate Draining(s: State) { !s.drain.pc.Stopped? && s.cfg.drainLimit >= 1 }

  /** The drain is replaying a row, has one to replay in its pass, or would list one. */
  ghost predicate DrainMayReplay(s: State) {
    || InReplay(s.drain.pc)
    || (exists r :: r in s.drain.todo && Replayable(r, s.now))
    || (Draining(s) && SomeReplayable(s.rows, s.now))
  }

  predicate CanCapture(pc: ShutdownPc) { pc.HttpDown? || pc.Waiting? || pc.Capturing? }

  /** The shutdown capture may write a row. */
  predicate CaptureMayWrite(s: State) {
    || s.shutdown.WritingResidual?
    || (s.shutdown.Capturing? && s.residual != [])
    || (CanCapture(s.shutdown) && s.queue != [])
  }

  /** The flag is down, or the flusher may land a batch, or the drain may replay a row it has, or one
      that the flusher or the capture may still write. */
  ghost predicate FlagCanFall(s: State) {
    || !s.fatal
    || FlusherMayLand(s)
    || DrainMayReplay(s)
    || (Draining(s) && (s.flusher.pc.WritingDlq? || CaptureMayWrite(s)))
  }

  // ---------------------------------------------------------------------------
  // It cannot fall by itself
  // ---------------------------------------------------------------------------

  lemma FlusherCannot(s: State, step: FlusherStep)
    requires FlusherShape(s.cfg, s.flusher, MayExit(s)) && FlusherEnabled(s, step) && !FlagCanFall(s)
    ensures !FlagCanFall(FlusherApply(s, step))
  {
    hide SomeReplayable, Stamp, ShouldQuarantine;
    match step {
      case Receive => case Append => case Tick => case SeeClosed => case SeeCancelled =>
      case Insert(_) => case Meter => case ClearFatal => case WriteRow(_) => case SetFatal => case Release =>
    }
  }

  lemma ShutdownCannot(s: State, step: ShutdownStep)
    requires ShutdownShape(s.shutdown, s.closed, s.disabled, s.residual, BothExited(s))
    requires HttpGone(s.shutdown) && ShutdownEnabled(s, step) && !FlagCanFall(s)
    ensures !FlagCanFall(ShutdownApply(s, step))
  {
    hide SomeReplayable, Stamp, ShouldQuarantine;
    match step {
      case Disable => case StopHttp(_) => case Close => case Return => case Expire => case Capture =>
      case EndCapture => case WriteResidual(_) => case ReleaseResidual =>
    }
  }

  lemma DrainCannot(s: State, step: DrainStep)
    requires DrainShape(s.rows, s.drain) && DrainEnabled(s, step) && !FlagCanFall(s)
    ensures !FlagCanFall(DrainApply(s, step))
  {
    match step {
      case List(ok) => ListCannot(s, ok);
      case QuarantineHead(ok) => QuarantineCannot(s, ok);
      case Bump(ok) => BumpCannot(s, ok);
      case Stop =>
      case Finish =>
      case TakeHead => HeadMayReplay(s);
      case Replay(_) => assert false;
      case DeleteRow(_) => assert false;
      case MeterReplay => assert false;
      case ClearReplay => assert false;
    }
  }

  lemma HeadMayReplay(s: State)
    requires DrainShape(s.rows, s.drain) && DrainEnabled(s, TakeHead)
    ensures FlagCanFall(s)
  {
    TodoHead(s.rows, s.drain);
    assert s.drain.todo[0] in s.drain.todo;
  }

  lemma ListCannot(s: State, ok: bool)
    requires s.drain.pc.Idle? && s.drain.todo == [] && !FlagCanFall(s)
    ensures !FlagCanFall(DrainApply(s, List(ok)))
  {
    ActiveSpec(s.rows);
    var t := DrainApply(s, List(ok));
    forall r | r in t.drain.todo ensures !Replayable(r, s.now) {
      assert r in Active(s.rows) && r in s.rows;
    }
    hide Active, ShouldQuarantine;
  }

  lemma QuarantineCannot(s: State, ok: bool)
    requires DrainEnabled(s, QuarantineHead(ok)) && !FlagCanFall(s)
    ensures !FlagCanFall(DrainApply(s, QuarantineHead(ok)))
  {
    var t := DrainApply(s, QuarantineHead(ok));
    forall i | 0 <= i < |t.rows| && Replayable(t.rows[i], s.now) ensures Replayable(s.rows[i], s.now) {
    }
    assert forall r :: r in t.drain.todo ==> r in s.drain.todo;
    hide Quarantine, Replayable;
  }

  lemma BumpCannot(s: State, ok: bool)
    requires s.drain.pc.Bumping? && !FlagCanFall(s)
    ensures !FlagCanFall(DrainApply(s, Bump(ok)))
  {
    var t := DrainApply(s, Bump(ok));
    forall i | 0 <= i < |t.rows| && Replayable(t.rows[i], s.now) ensures Replayable(s.rows[i], s.now) {
    }
    hide Increment, Replayable;
  }

  lemma TimeCannot(s: State, nanos: nat)
    requires !FlagCanFall(s)
    ensures !FlagCanFall(s.(now := s.now + nanos))
  {
  }

  /** If some step that is not a send can make the flag fallible, it was so before. */
  lemma FallComesBack(s: State, step: Step)
    requires Inv(s) && Enabled(s, step) && s.cfg.Valid() && HttpGone(s.shutdown)
    requires step.H? ==> !step.handler.Send? && !step.handler.Begin?
    requires FlagCanFall(Apply(s, step))
    ensures FlagCanFall(s)
  {
    hide ChannelShape, TableShape, HandlersShape, Slots, Conserved, Metered;
    if !FlagCanFall(s) {
      match step
      case F(f) => FlusherCannot(s, f);
      case D(d) => DrainCannot(s, d);
      case S(p) => ShutdownCannot(s, p);
      case Elapse(nanos) => TimeCannot(s, nanos);
      case Cancel => CancelCannot(s);
      case H(h) => HandlerCannot(s, h);
    }
  }

  lemma CancelCannot(s: State)
    requires !FlagCanFall(s)
    ensures !FlagCanFall(s.(ctxDone := true))
  {
  }

  lemma HandlerCannot(s: State, step: HandlerStep)
    requires s.cfg.Valid() && HandlerEnabled(s, step) && !step.Send? && !step.Begin? && !FlagCanFall(s)
    ensures !FlagCanFall(HandlerApply(s, step))
  {
    hide SomeReplayable, Replayable;
    match step { case CheckFatal(_) => case Load(_) => case Swap(_) => }
  }

  // ---------------------------------------------------------------------------
  // It can fall
  // ---------------------------------------------------------------------------

  lemma ClearsAfterFlush(s: State)
    requires Inv(s) && s.cfg.Valid() && FlusherMayLand(s) && s.flusher.pc.Releasing?
    ensures ClearsAlone(s)
  {
    hide ClearsAlone;
    StepKeeps(s, F(Release));
    hide Inv;
    ClearsAtHead(Apply(s, F(Release)));
    ClearsVia(s, F(Release));
  }

  lemma ClearsAfterLoss(s: State)
    requires Inv(s) && s.cfg.Valid() && FlusherMayLand(s) && s.flusher.pc.SettingFatal?
    ensures ClearsAlone(s)
  {
    hide ClearsAlone;
    StepKeeps(s, F(SetFatal));
    hide Inv;
    ClearsAfterFlush(Apply(s, F(SetFatal)));
    ClearsVia(s, F(SetFatal));
  }

  lemma ClearsAfterMiss(s: State)
    requires Inv(s) && s.cfg.Valid() && FlusherMayLand(s) && s.flusher.pc.WritingDlq?
    ensures ClearsAlone(s)
  {
    hide ClearsAlone;
    StepKeeps(s, F(WriteRow(false)));
    hide Inv;
    ClearsAfterLoss(Apply(s, F(WriteRow(false))));
    ClearsVia(s, F(WriteRow(false)));
  }

  lemma ClearsByFlusher(s: State)
    requires Inv(s) && s.cfg.Valid() && FlusherMayLand(s)
    ensures ClearsAlone(s)
  {
    hide ClearsAlone, Inv;
    match s.flusher.pc {
      case AtHead => ClearsAtHead(s);
      case Exited => assert false;
      case WritingDlq => ClearsAfterMiss(s);
      case SettingFatal => ClearsAfterLoss(s);
      case Releasing => ClearsAfterFlush(s);
      case _ => ClearsByInsert(s);
    }
  }

  lemma ClearsAtHead(s: State)
    requires Inv(s) && s.cfg.Valid() && s.flusher.pc.AtHead? && FlusherMayLand(s)
    ensures ClearsAlone(s)
  {
    hide ClearsAlone;
    NotExiting(s);
    hide Inv;
    if s.flusher.rest != [] || s.flusher.buf != [] {
      ClearsFromHead(s);
    } else {
      ClearsFromQueue(s);
    }
  }

  lemma NotExiting(s: State)
    requires Inv(s) && s.flusher.pc.AtHead?
    ensures !s.flusher.exiting
  {
  }

  /** A pass gets to a replayable row of its list whatever Postgres answers before. */
  lemma {:induction false} ClearsFromTodo(s: State, row: Row)
    requires Inv(s) && s.cfg.Valid() && s.drain.pc.Next? && row in s.drain.todo && Replayable(row, s.now)
    ensures ClearsAlone(s)
    decreases |s.drain.todo|
  {
    hide ClearsAlone, Quarantine;
    var head := s.drain.todo[0];
    if !ShouldQuarantine(head, s.now) && head.payload.Some? {
      hide Inv;
      ClearsByReplay(s);
    } else {
      StepKeeps(s, D(QuarantineHead(false)));
      hide Inv;
      assert row in s.drain.todo[1..];
      ClearsFromTodo(Apply(s, D(QuarantineHead(false))), row);
      ClearsVia(s, D(QuarantineHead(false)));
    }
  }

  lemma DrainIdleShape(s: State)
    requires Inv(s)
    ensures s.drain.pc.Idle? || s.drain.pc.Stopped? ==> s.drain.todo == []
  {
  }

  lemma ClearsBetweenRows(s: State)
    requires Inv(s) && s.cfg.Valid() && DrainMayReplay(s) && s.drain.pc.Next?
    ensures ClearsAlone(s)
  {
    hide ClearsAlone, Inv, SomeReplayable, Replayable;
    if r :| r in s.drain.todo && Replayable(r, s.now) {
      ClearsFromTodo(s, r);
    } else {
      ClearsFromRows(s);
    }
  }

  lemma ClearsAfterBump(s: State)
    requires Inv(s) && s.cfg.Valid() && DrainMayReplay(s) && s.drain.pc.Bumping?
    ensures ClearsAlone(s)
  {
    hide ClearsAlone, SomeReplayable, Replayable;
    StepKeeps(s, D(Bump(false)));
    hide Inv;
    ClearsBetweenRows(Apply(s, D(Bump(false))));
    ClearsVia(s, D(Bump(false)));
  }

  lemma ClearsByDrain(s: State)
    requires Inv(s) && s.cfg.Valid() && DrainMayReplay(s)
    ensures ClearsAlone(s)
  {
    DrainIdleShape(s);
    hide ClearsAlone, Inv, SomeReplayable, Replayable;
    match s.drain.pc {
      case Next => ClearsBetweenRows(s);
      case Bumping(_) => ClearsAfterBump(s);
      case Idle => ClearsFromIdle(s);
      case Stopped => assert false;
      case _ => ClearsInReplay(s);
    }
  }

  /** The row a failed insert leaves behind is replayable at once. */
  lemma ClearsByNewRow(s: State)
    requires Inv(s) && s.cfg.Valid() && Draining(s) && s.flusher.pc.WritingDlq?
    ensures ClearsAlone(s)
  {
    hide ClearsAlone;
    var t := Apply(s, F(WriteRow(true)));
    StepKeeps(s, F(WriteRow(true)));
    NewRowReplayable(s.rows, s.nextRow, s.flusher.buf, s.now);
    hide Inv;
    ClearsByDrain(t);
    ClearsVia(s, F(WriteRow(true)));
  }

  lemma NewRowReplayable(rows: seq<Row>, id: nat, items: seq<Item>, now: Instant)
    ensures SomeReplayable(rows + [Row(id, Some(items), 0, now, false)], now)
  {
    var row := Row(id, Some(items), 0, now, false);
    assert Replayable(row, now);
    assert (rows + [row])[|rows|] == row;
  }
}
