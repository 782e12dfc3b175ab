/** The service's methods and the step machine agree: what a method's contract says the answers of
    the stores brought about is what the machine's steps for those answers do. */
module PipelineRefinement {
  import opened Common
  import opened EventCodec
  import opened FailedEvents
  import opened DeadLetterDrain
  import opened Pipeline
  import opened PipelineTheorems
  import IngestStores

  /** The machine's stores are the service's. */
  ghost predicate Mirrors(s: State, st: IngestStores.Stores) {
    && s.rows == st.rows && s.nextRow == st.nextRow && s.fatal == st.fatal
    && s.ledger.landed == multiset(st.landed)
    && s.ledger.metered == multiset(st.metered)
    && s.ledger.lost == multiset(st.lost)
  }

  function FlushSteps(outcome: IngestStores.FlushOutcome): seq<Step> {
    match outcome
    case Landed => [F(Insert(true)), F(Meter), F(ClearFatal), F(Release)]
    case DeadLettered => [F(Insert(false)), F(WriteRow(true)), F(Release)]
    case BothFailed => [F(Insert(false)), F(WriteRow(false)), F(SetFatal), F(Release)]
  }

  /** The state after a flush of each outcome. */
  function AfterFlush(s: State, outcome: IngestStores.FlushOutcome): State {
    var buf := s.flusher.buf;
    var released := s.(flusher := s.flusher.(pc := if s.flusher.exiting then Exited else AtHead, buf := []),
                       pending := s.pending - |buf|);
    match outcome
    case Landed =>
      released.(fatal := false,
                ledger := s.ledger.(landed := s.ledger.landed + multiset(buf),
                                    settled := s.ledger.settled + multiset(buf),
                                    metered := s.ledger.metered + multiset(buf)))
    case DeadLettered =>
      released.(rows := s.rows + [Row(s.nextRow, Some(buf), 0, s.now, false)], nextRow := s.nextRow + 1)
    case BothFailed =>
      released.(fatal := true, ledger := s.ledger.(lost := s.ledger.lost + multiset(buf)))
  }

  /** Given the same answers, AttemptFlush and the machine's flush take mirrored stores to mirrored
      stores, and the machine releases the batch's slots whatever the answers were. */
  lemma FlushIsARun(s: State, world: IngestStores.World, st: IngestStores.Stores) returns (t: State)
    requires s.cfg.Valid() && s.flusher.pc.Inserting? && Mirrors(s, st) && s.now == world.clock(st.calls.clock)
    ensures Runs(s, FlushSteps(IngestStores.OutcomeAt(world, st.calls, s.flusher.buf)), t)
    ensures Mirrors(t, IngestStores.AfterAttempt(world, st, s.flusher.buf))
    ensures t.pending == s.pending - |s.flusher.buf| && t.flusher.buf == [] && t.queue == s.queue && t.handlers == s.handlers
  {
    var outcome := IngestStores.OutcomeAt(world, st.calls, s.flusher.buf);
    t := AfterFlush(s, outcome);
    FlushMirrors(s, world, st);
    hide Runs, AfterFlush, Mirrors, IngestStores.AfterAttempt, IngestStores.OutcomeAt;
    match outcome
    case Landed => LandedRun(s);
    case DeadLettered => DeadLetteredRun(s);
    case BothFailed => BothFailedRun(s);
  }

  lemma FlushMirrors(s: State, world: IngestStores.World, st: IngestStores.Stores)
    requires Mirrors(s, st) && s.now == world.clock(st.calls.clock)
    ensures var buf := s.flusher.buf;
            var t := AfterFlush(s, IngestStores.OutcomeAt(world, st.calls, buf));
            && Mirrors(t, IngestStores.AfterAttempt(world, st, buf))
            && t.pending == s.pending - |buf| && t.flusher.buf == [] && t.queue == s.queue && t.handlers == s.handlers
  {
    IngestStores.AttemptSpec(world, st, s.flusher.buf);
    hide IngestStores.AfterAttempt, IngestStores.OutcomeAt;
    var outcome := IngestStores.OutcomeAt(world, st.calls, s.flusher.buf);
    MirrorsAfter(s, st, IngestStores.AfterAttempt(world, st, s.flusher.buf), outcome);
    hide Mirrors;
  }

  lemma MirrorsAfter(s: State, st: IngestStores.Stores, after: IngestStores.Stores, outcome: IngestStores.FlushOutcome)
    requires Mirrors(s, st)
    requires after.landed == (if outcome.Landed? then st.landed + s.flusher.buf else st.landed)
    requires after.metered == (if outcome.Landed? then st.metered + s.flusher.buf else st.metered)
    requires after.rows == (if outcome.DeadLettered? then st.rows + [Row(st.nextRow, Some(s.flusher.buf), 0, s.now, false)] else st.rows)
    requires after.nextRow == (if outcome.DeadLettered? then st.nextRow + 1 else st.nextRow)
    requires after.lost == (if outcome.BothFailed? then st.lost + s.flusher.buf else st.lost)
    requires after.fatal == (outcome.BothFailed? || (st.fatal && outcome.DeadLettered?))
    ensures Mirrors(AfterFlush(s, outcome), after)
  {
    match outcome {
      case Landed => case DeadLettered => case BothFailed =>
    }
  }

  lemma LandedRun(s: State)
    requires s.cfg.Valid() && s.flusher.pc.Inserting?
    ensures Runs(s, FlushSteps(IngestStores.Landed), AfterFlush(s, IngestStores.Landed))
  {
    hide Runs, HandlerApply, DrainApply, ShutdownApply, HandlerEnabled, DrainEnabled, ShutdownEnabled, Stamp;
    var a := Apply(s, F(Insert(true)));
    var b := Apply(a, F(Meter));
    var c := Apply(b, F(ClearFatal));
    FourSteps(s, F(Insert(true)), a, F(Meter), b, F(ClearFatal), c, F(Release), AfterFlush(s, IngestStores.Landed));
  }

  lemma DeadLetteredRun(s: State)
    requires s.cfg.Valid() && s.flusher.pc.Inserting?
    ensures Runs(s, FlushSteps(IngestStores.DeadLettered), AfterFlush(s, IngestStores.DeadLettered))
  {
    hide Runs, HandlerApply, DrainApply, ShutdownApply, HandlerEnabled, DrainEnabled, ShutdownEnabled, Stamp;
    var a := Apply(s, F(Insert(false)));
    var b := Apply(a, F(WriteRow(true)));
    ThreeSteps(s, F(Insert(false)), a, F(WriteRow(true)), b, F(Release), AfterFlush(s, IngestStores.DeadLettered));
  }

  lemma BothFailedRun(s: State)
    requires s.cfg.Valid() && s.flusher.pc.Inserting?
    ensures Runs(s, FlushSteps(IngestStores.BothFailed), AfterFlush(s, IngestStores.BothFailed))
  {
    hide Runs, HandlerApply, DrainApply, ShutdownApply, HandlerEnabled, DrainEnabled, ShutdownEnabled, Stamp;
    var a := Apply(s, F(Insert(false)));
    var b := Apply(a, F(WriteRow(false)));
    var c := Apply(b, F(SetFatal));
    FourSteps(s, F(Insert(false)), a, F(WriteRow(false)), b, F(SetFatal), c, F(Release), AfterFlush(s, IngestStores.BothFailed));
  }

  ghost predicate Moves(s: State, step: Step, t: State) {
    s.cfg.Valid() && Enabled(s, step) && t == Apply(s, step)
  }

  lemma TwoSteps(s: State, x: Step, a: State, y: Step, t: State)
    requires Moves(s, x, a) && Moves(a, y, t)
    ensures Runs(s, [x, y], t)
  {
    hide Enabled, Apply;
    RunsOne(a, y);
    RunsCons(s, x, [y], t);
    assert [x] + [y] == [x, y];
  }

  lemma ThreeSteps(s: State, x: Step, a: State, y: Step, b: State, z: Step, t: State)
    requires Moves(s, x, a) && Moves(a, y, b) && Moves(b, z, t)
    ensures Runs(s, [x, y, z], t)
  {
    hide Enabled, Apply, Runs;
    TwoSteps(a, y, b, z, t);
    RunsCons(s, x, [y, z], t);
    assert [x] + [y, z] == [x, y, z];
  }

  lemma FourSteps(s: State, x: Step, a: State, y: Step, b: State, z: Step, c: State, w: Step, t: State)
    requires Moves(s, x, a) && Moves(a, y, b) && Moves(b, z, c) && Moves(c, w, t)
    ensures Runs(s, [x, y, z, w], t)
  {
    hide Enabled, Apply, Runs;
    ThreeSteps(a, y, b, z, c, w, t);
    RunsCons(s, x, [y, z, w], t);
    assert [x] + [y, z, w] == [x, y, z, w];
  }

  // ---------------------------------------------------------------------------
  // Batching
  // ---------------------------------------------------------------------------

  /** The machine's append cuts a batch where the service's loop does: when the buffer is full, and the
      whole buffer. */
  lemma AppendIsAPush(s: State)
    requires s.cfg.Valid() && FlusherEnabled(s, Append)
    ensures var f, b := FlusherApply(s, Append).flusher,
                        IngestStores.Push(s.cfg.flushEvents, IngestStores.Batching([], s.flusher.buf), s.flusher.rest[0]);
            && f.rest == s.flusher.rest[1..]
            && (if b.batches == [] then f.pc.AtHead? && f.buf == b.buf else f.pc.Inserting? && b.batches == [f.buf])
  {
  }

  /** A tick and both stops cut what is buffered, if anything is. */
  lemma CutsAreCuts(s: State, step: FlusherStep)
    requires FlusherEnabled(s, step) && (step.Tick? || step.SeeClosed? || step.SeeCancelled?)
    ensures var f, b := FlusherApply(s, step).flusher, IngestStores.Cut(IngestStores.Batching([], s.flusher.buf));
            if b.batches == [] then f.buf == [] && (if step.Tick? then f.pc.AtHead? else f.pc.Exited?)
            else f.pc.Inserting? && b.batches == [f.buf] && (f.exiting <==> !step.Tick?)
  {
  }

  // ---------------------------------------------------------------------------
  // One dead-letter row
  // ---------------------------------------------------------------------------

  function RowSteps(row: Row, seen: Attempt): seq<Step> {
    if ShouldQuarantine(row, seen.now) || row.payload.None? then [D(QuarantineHead(seen.pgOk))]
    else if !seen.chOk then [D(TakeHead), D(Replay(false)), D(Bump(seen.pgOk))]
    else if !seen.pgOk then [D(TakeHead), D(Replay(true)), D(DeleteRow(false))]
    else [D(TakeHead), D(Replay(true)), D(DeleteRow(true)), D(MeterReplay), D(ClearReplay)]
  }

  /** The state after the head row of a pass. */
  function AfterRow(s: State, seen: Attempt): State
    requires s.drain.todo != []
  {
    var row := s.drain.todo[0];
    var replayed := multiset(IngestStores.ReplayedItems(row, seen));
    var metered := multiset(IngestStores.MeteredItems(row, seen));
    s.(drain := Drain(Next, s.drain.todo[1..]),
       rows := ProcessRow(s.rows, row, seen),
       fatal := s.fatal && !(IngestStores.Replayed(row, seen) && seen.pgOk),
       ledger := s.ledger.(
         landed := s.ledger.landed + replayed,
         settled := s.ledger.settled + metered,
         metered := s.ledger.metered + metered,
         relanded := s.ledger.relanded + if seen.pgOk then multiset{} else replayed))
  }

  /** Given the same answers, ProcessDLQRow and the machine's drain take mirrored stores to
      mirrored stores. */
  lemma RowIsARun(s: State, world: IngestStores.World, st: IngestStores.Stores) returns (t: State)
    requires s.cfg.Valid() && s.drain.pc.Next? && s.drain.todo != [] && Mirrors(s, st) && s.now == world.clock(st.calls.clock)
    ensures Runs(s, RowSteps(s.drain.todo[0], IngestStores.SeenAt(world, st.calls, s.drain.todo[0])), t)
    ensures Mirrors(t, IngestStores.AfterRow(world, st, s.drain.todo[0]))
    ensures t.drain == Drain(Next, s.drain.todo[1..]) && t.flusher == s.flusher && t.queue == s.queue
  {
    var row := s.drain.todo[0];
    var seen := IngestStores.SeenAt(world, st.calls, row);
    t := AfterRow(s, seen);
    RowMirrors(s, world, st);
    hide Runs, Apply, AfterRow, Mirrors, IngestStores.AfterRow;
    if ShouldQuarantine(row, seen.now) || row.payload.None? {
      QuarantinedRun(s, seen);
    } else if !seen.chOk {
      BumpedRun(s, seen);
    } else if !seen.pgOk {
      RelandedRun(s, seen);
    } else {
      SettledRun(s, seen);
    }
  }

  lemma RowMirrors(s: State, world: IngestStores.World, st: IngestStores.Stores)
    requires s.drain.todo != [] && Mirrors(s, st)
    ensures var row := s.drain.todo[0];
            && Mirrors(AfterRow(s, IngestStores.SeenAt(world, st.calls, row)), IngestStores.AfterRow(world, st, row))
            && AfterRow(s, IngestStores.SeenAt(world, st.calls, row)).drain == Drain(Next, s.drain.todo[1..])
            && AfterRow(s, IngestStores.SeenAt(world, st.calls, row)).flusher == s.flusher
            && AfterRow(s, IngestStores.SeenAt(world, st.calls, row)).queue == s.queue
  {
    hide ProcessRow;
  }

  lemma QuarantinedRun(s: State, seen: Attempt)
    requires s.cfg.Valid() && DrainEnabled(s, QuarantineHead(seen.pgOk)) && seen.now == s.now
    ensures Runs(s, RowSteps(s.drain.todo[0], seen), AfterRow(s, seen))
  {
    hide Runs, Delete, Increment, HandlerApply, FlusherApply, ShutdownApply, HandlerEnabled, FlusherEnabled, ShutdownEnabled;
    RunsOne(s, D(QuarantineHead(seen.pgOk)));
    assert Apply(s, D(QuarantineHead(seen.pgOk))) == AfterRow(s, seen);
  }

  lemma BumpedRun(s: State, seen: Attempt)
    requires s.cfg.Valid() && DrainEnabled(s, TakeHead) && seen.now == s.now && !seen.chOk
    ensures Runs(s, RowSteps(s.drain.todo[0], seen), AfterRow(s, seen))
  {
    hide Runs, Increment, HandlerApply, FlusherApply, ShutdownApply, HandlerEnabled, FlusherEnabled, ShutdownEnabled;
    BumpedState(s, seen);
    assert RowSteps(s.drain.todo[0], seen) == [D(TakeHead), D(Replay(false)), D(Bump(seen.pgOk))];
    hide AfterRow, ShouldQuarantine, RowSteps;
    var a := Apply(s, D(TakeHead));
    var b := Apply(a, D(Replay(false)));
    ThreeSteps(s, D(TakeHead), a, D(Replay(false)), b, D(Bump(seen.pgOk)), AfterRow(s, seen));
  }

  lemma BumpedState(s: State, seen: Attempt)
    requires DrainEnabled(s, TakeHead) && seen.now == s.now && !seen.chOk
    ensures AfterRow(s, seen)
         == s.(drain := Drain(Next, s.drain.todo[1..]),
               rows := if seen.pgOk then Increment(s.rows, s.drain.todo[0].id) else s.rows)
  {
    hide Increment;
    assert IngestStores.ReplayedItems(s.drain.todo[0], seen) == IngestStores.MeteredItems(s.drain.todo[0], seen) == [];
  }

  lemma RelandedRun(s: State, seen: Attempt)
    requires s.cfg.Valid() && DrainEnabled(s, TakeHead) && seen.now == s.now && seen.chOk && !seen.pgOk
    ensures Runs(s, RowSteps(s.drain.todo[0], seen), AfterRow(s, seen))
  {
    hide Runs, Delete, HandlerApply, FlusherApply, ShutdownApply, HandlerEnabled, FlusherEnabled, ShutdownEnabled;
    RelandedState(s, seen);
    assert RowSteps(s.drain.todo[0], seen) == [D(TakeHead), D(Replay(true)), D(DeleteRow(false))];
    hide AfterRow, ShouldQuarantine, RowSteps, Events;
    var a := Apply(s, D(TakeHead));
    var b := Apply(a, D(Replay(true)));
    ThreeSteps(s, D(TakeHead), a, D(Replay(true)), b, D(DeleteRow(false)), AfterRow(s, seen));
  }

  lemma RelandedState(s: State, seen: Attempt)
    requires DrainEnabled(s, TakeHead) && seen.now == s.now && seen.chOk && !seen.pgOk
    ensures var events := Events(s.drain.todo[0]);
            AfterRow(s, seen) ==
            s.(drain := Drain(Next, s.drain.todo[1..]),
               ledger := s.ledger.(landed := s.ledger.landed + events, relanded := s.ledger.relanded + events))
  {
    assert IngestStores.ReplayedItems(s.drain.todo[0], seen) == Payload(s.drain.todo[0]);
    assert IngestStores.MeteredItems(s.drain.todo[0], seen) == [];
  }

  lemma SettledRun(s: State, seen: Attempt)
    requires s.cfg.Valid() && DrainEnabled(s, TakeHead) && seen.now == s.now && seen.chOk && seen.pgOk
    ensures Runs(s, RowSteps(s.drain.todo[0], seen), AfterRow(s, seen))
  {
    hide Runs, Delete, HandlerApply, FlusherApply, ShutdownApply, HandlerEnabled, FlusherEnabled, ShutdownEnabled;
    SettledState(s, seen);
    assert RowSteps(s.drain.todo[0], seen) == [D(TakeHead), D(Replay(true)), D(DeleteRow(true)), D(MeterReplay), D(ClearReplay)];
    hide AfterRow, ShouldQuarantine, RowSteps;
    var a := Apply(s, D(TakeHead));
    var b := Apply(a, D(Replay(true)));
    var c := Apply(b, D(DeleteRow(true)));
    var d := Apply(c, D(MeterReplay));
    SettledChain(s, a, b, c, d, AfterRow(s, seen));
  }

  lemma SettledState(s: State, seen: Attempt)
    requires DrainEnabled(s, TakeHead) && seen.now == s.now && seen.chOk && seen.pgOk
    ensures var events := Events(s.drain.todo[0]);
            AfterRow(s, seen) ==
            s.(drain := Drain(Next, s.drain.todo[1..]), rows := Delete(s.rows, s.drain.todo[0].id), fatal := false,
               ledger := s.ledger.(landed := s.ledger.landed + events, settled := s.ledger.settled + events,
                                   metered := s.ledger.metered + events))
  {
    hide Delete;
    assert IngestStores.ReplayedItems(s.drain.todo[0], seen) == Payload(s.drain.todo[0]);
    assert IngestStores.MeteredItems(s.drain.todo[0], seen) == Payload(s.drain.todo[0]);
  }

  lemma SettledChain(s: State, a: State, b: State, c: State, d: State, t: State)
    requires Moves(s, D(TakeHead), a) && Moves(a, D(Replay(true)), b) && Moves(b, D(DeleteRow(true)), c)
    requires Moves(c, D(MeterReplay), d) && Moves(d, D(ClearReplay), t)
    ensures Runs(s, [D(TakeHead), D(Replay(true)), D(DeleteRow(true)), D(MeterReplay), D(ClearReplay)], t)
  {
    hide Enabled, Apply, Runs;
    FourSteps(a, D(Replay(true)), b, D(DeleteRow(true)), c, D(MeterReplay), d, D(ClearReplay), t);
    var rest := [D(Replay(true)), D(DeleteRow(true)), D(MeterReplay), D(ClearReplay)];
    RunsCons(s, D(TakeHead), rest, t);
    assert [D(TakeHead)] + rest == [D(TakeHead), D(Replay(true)), D(DeleteRow(true)), D(MeterReplay), D(ClearReplay)];
  }
}
