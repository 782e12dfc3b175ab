/**
  Recovery: once ClickHouse answers, the fatal flag clears, whatever else interleaves, as soon as
  the goroutine that holds work has taken a bounded number of steps.
 */
module FatalRecovery {
  import opened Common
  import opened EventCodec
  import opened FailedEvents
  import opened Pipeline
  import opened PipelineInvariant
  import opened PipelineTheorems
  import opened FatalFlag

  /** At some point of the run the flag is not set. */
  ghost predicate SomewhereClear(s: State, steps: seq<Step>)
    decreases |steps|
  {
    !s.fatal ||
    (steps != [] && s.cfg.Valid() && Enabled(s, steps[0]) && SomewhereClear(Apply(s, steps[0]), steps[1..]))
  }

  lemma {:induction false} ClearStepClears(s: State, steps: seq<Step>, t: State)
    requires Runs(s, steps, t) && (F(ClearFatal) in steps || D(ClearReplay) in steps)
    ensures SomewhereClear(s, steps)
    decreases |steps|
  {
    hide Apply, Enabled;
    ConsTail(steps);
    Frame(s, steps[0]);
    if steps[0] != F(ClearFatal) && steps[0] != D(ClearReplay) {
      ClearStepClears(Apply(s, steps[0]), steps[1..], t);
    }
  }

  lemma {:induction false} RunsSplit(s: State, a: seq<Step>, b: seq<Step>, t: State) returns (mid: State)
    requires Runs(s, a + b, t)
    ensures Runs(s, a, mid) && Runs(mid, b, t)
    decreases |a|
  {
    if a == [] {
      assert a + b == b;
      mid := s;
    } else {
      TailOfAppend(a, b);
      mid := RunsSplit(Apply(s, a[0]), a[1..], b, t);
    }
  }

  // ---------------------------------------------------------------------------
  // Work in the flusher's hands
  // ---------------------------------------------------------------------------

  function FlusherSteps(steps: seq<Step>): nat {
    if steps == [] then 0 else (if steps[0].F? then 1 else 0) + FlusherSteps(steps[1..])
  }

  /** An event in hand or buffered, or a flush whose insert has not failed. */
  predicate Underway(f: Flusher) {
    (f.pc.AtHead? && (f.rest != [] || f.buf != [])) || f.pc.Inserting? || f.pc.Metering? || f.pc.Clearing?
  }

  /** How many steps of its own the flusher takes at most until it clears the flag. */
  function StepsToClear(cfg: Config, f: Flusher): int {
    match f.pc
    case Inserting => 3
    case Metering => 2
    case Clearing => 1
    case _ => 2 * (cfg.flushEvents - |f.buf|) + (if f.rest == [] then 1 else 0) + 3
  }

  lemma FlusherProgress(s: State, step: FlusherStep)
    requires Inv(s) && Underway(s.flusher) && FlusherEnabled(s, step) && step != Insert(false)
    ensures var f := FlusherApply(s, step).flusher;
            step == ClearFatal || (Underway(f) && StepsToClear(s.cfg, f) < StepsToClear(s.cfg, s.flusher))
  {
    hide TableShape, DrainShape, ShutdownShape, HandlersShape, Slots, Conserved, Metered;
    match step {
      case Receive => case Append => case Tick => case SeeClosed => case SeeCancelled =>
      case Insert(_) => case Meter => case ClearFatal => case WriteRow(_) => case SetFatal => case Release =>
    }
  }

  lemma StepsToClearPositive(s: State)
    requires Inv(s) && Underway(s.flusher)
    ensures StepsToClear(s.cfg, s.flusher) >= 1
  {
  }

  /** With work in the flusher's hands, every run in which no insert of the flusher fails and the
      flusher takes that many steps clears the flag on the way. */
  lemma {:induction false} FlusherClearsFatal(s: State, steps: seq<Step>, t: State)
    requires Inv(s) && Underway(s.flusher) && Runs(s, steps, t)
    requires F(Insert(false)) !in steps && FlusherSteps(steps) >= StepsToClear(s.cfg, s.flusher)
    ensures F(ClearFatal) in steps && SomewhereClear(s, steps)
    decreases |steps|
  {
    hide Inv, Apply, Enabled, Underway, StepsToClear, SomewhereClear;
    StepsToClearPositive(s);
    var step, rest := steps[0], steps[1..];
    ConsTail(steps);
    if step != F(ClearFatal) {
      var mid := Apply(s, step);
      StepKeeps(s, step);
      Frame(s, step);
      if step.F? {
        FlusherMoves(s, step.flush);
      }
      FlusherClearsFatal(mid, rest, t);
    }
    ClearStepClears(s, steps, t);
  }

  lemma FlusherMoves(s: State, step: FlusherStep)
    requires Inv(s) && Underway(s.flusher) && Enabled(s, F(step)) && step != Insert(false) && step != ClearFatal && s.cfg.Valid()
    ensures var f := Apply(s, F(step)).flusher;
            Underway(f) && StepsToClear(s.cfg, f) < StepsToClear(s.cfg, s.flusher)
  {
    FlusherProgress(s, step);
  }

  /** From the moment a queued envelope is received. */
  lemma ReceivedEventClearsFatal(s: State, before: seq<Step>, after: seq<Step>, t: State)
    requires Inv(s) && Runs(s, before + ([F(Receive)] + after), t)
    requires F(Insert(false)) !in after && FlusherSteps(after) >= 2 * s.cfg.flushEvents + 3
    ensures F(ClearFatal) in after
  {
    var mid := RunsSplit(s, before, [F(Receive)] + after, t);
    RunKeeps(s, before, mid);
    ConfigStays(s, before, mid);
    TailOfCons(F(Receive), after);
    var got := Apply(mid, F(Receive));
    StepKeeps(mid, F(Receive));
    HandFull(mid);
    hide Runs, Inv, Apply;
    FlusherClearsFatal(got, after, t);
  }

  lemma HandFull(s: State)
    requires Inv(s) && Enabled(s, F(Receive))
    ensures Underway(Apply(s, F(Receive)).flusher) && StepsToClear(s.cfg, Apply(s, F(Receive)).flusher) <= 2 * s.cfg.flushEvents + 3
    ensures Apply(s, F(Receive)).cfg == s.cfg
  {
  }

  lemma {:induction false} ConfigStays(s: State, steps: seq<Step>, t: State)
    requires Runs(s, steps, t)
    ensures t.cfg == s.cfg
    decreases |steps|
  {
    hide Apply, Enabled;
    if steps != [] {
      Frame(s, steps[0]);
      ConfigStays(Apply(s, steps[0]), steps[1..], t);
    }
  }

  // ---------------------------------------------------------------------------
  // A replayable row
  // ---------------------------------------------------------------------------

  function DrainSteps(steps: seq<Step>): nat {
    if steps == [] then 0 else (if steps[0].D? then 1 else 0) + DrainSteps(steps[1..])
  }

  /** Both stores answer the drain, and it is not told to stop. */
  predicate Answered(steps: seq<Step>) {
    && D(List(false)) !in steps && D(QuarantineHead(false)) !in steps && D(Replay(false)) !in steps
    && D(DeleteRow(false)) !in steps && D(Stop) !in steps
  }

  /** The row keeps its retry budget and its age until `last`. */
  predicate StaysDue(row: Row, last: Instant) { row.payload.Some? && !ShouldQuarantine(row, last) }

  /** The row is k-th of what the pass still has to do. */
  predicate InPass(d: Drain, row: Row, k: nat) {
    d.pc.Next? && k < |d.todo| && d.todo[k] == row
  }

  /** The row is k-th of the active rows; the pass, if one is on, has only rows before it to do, and
      has quarantined every row it was done with. */
  predicate InTable(s: State, row: Row, k: nat) {
    && k < |Active(s.rows)| && Active(s.rows)[k] == row
    && (s.drain.pc.Idle? || (s.drain.pc.Next? && |s.drain.todo| <= k && s.drain.todo <= Active(s.rows)))
  }

  predicate Coming(s: State, row: Row, k: nat) {
    InReplay(s.drain.pc) || InPass(s.drain, row, k) || InTable(s, row, k)
  }

  function DrainStepsToClear(s: State, row: Row, k: nat): int {
    match s.drain.pc
    case Replaying(_) => 4
    case Deleting(_) => 3
    case MeteringReplay(_) => 2
    case ClearingReplay => 1
    case _ =>
      if InPass(s.drain, row, k) then k + 5
      else if s.drain.pc.Next? then 5 * k - 3 * (if |s.drain.todo| <= k then |s.drain.todo| else 0) + 7
      else 5 * k + 6
  }

  lemma {:induction false} ActiveGrows(a: seq<Row>, b: seq<Row>)
    ensures Active(a + b) == Active(a) + Active(b)
  {
    if a == [] {
      assert a + b == b;
    } else {
      TailOfAppend(a, b);
      ActiveGrows(a[1..], b);
    }
  }

  /** Rows that others add come after the row. */
  lemma OthersAppend(s: State, t: State, row: Row, k: nat)
    requires Coming(s, row, k) && t.drain == s.drain && s.rows <= t.rows
    ensures Coming(t, row, k) && DrainStepsToClear(t, row, k) == DrainStepsToClear(s, row, k)
  {
    var more := t.rows[|s.rows|..];
    assert t.rows == s.rows + more;
    ActiveGrows(s.rows, more);
    assert Active(s.rows) <= Active(t.rows);
  }

  lemma DueEarlier(row: Row, now: Instant, last: Instant)
    requires StaysDue(row, last) && now <= last
    ensures StaysDue(row, now)
  {
  }

  /** The next k, and progress. */
  lemma DrainProgress(s: State, step: DrainStep, row: Row, k: nat) returns (j: nat)
    requires Inv(s) && DrainEnabled(s, step) && Coming(s, row, k) && StaysDue(row, s.now) && s.cfg.drainLimit >= 1
    requires Answered([D(step)]) && step != ClearReplay
    ensures Coming(DrainApply(s, step), row, j)
    ensures DrainStepsToClear(DrainApply(s, step), row, j) < DrainStepsToClear(s, row, k)
  {
    assert D(step) in [D(step)];
    j := k;
    if step.List? {
      ListProgress(s, row, k);
    } else if step.QuarantineHead? {
      j := QuarantineProgress(s, row, k);
    } else if step.Finish? {
      FinishProgress(s, row, k);
    } else {
      ReplayProgress(s, step, row, k);
    }
  }

  lemma FinishProgress(s: State, row: Row, k: nat)
    requires DrainEnabled(s, Finish) && Coming(s, row, k)
    ensures Coming(DrainApply(s, Finish), row, k)
    ensures DrainStepsToClear(DrainApply(s, Finish), row, k) < DrainStepsToClear(s, row, k)
  {
    hide Active;
  }

  /** Taking the head to replay it, and the steps of a replay that goes well. */
  lemma ReplayProgress(s: State, step: DrainStep, row: Row, k: nat)
    requires DrainEnabled(s, step) && Coming(s, row, k) && step != ClearReplay
    requires step.TakeHead? || step == Replay(true) || step.Bump? || step == DeleteRow(true) || step.MeterReplay?
    ensures InReplay(DrainApply(s, step).drain.pc)
    ensures DrainStepsToClear(DrainApply(s, step), row, k) < DrainStepsToClear(s, row, k)
  {
    hide Active, Delete, Increment, Events, ShouldQuarantine;
  }

  lemma ListProgress(s: State, row: Row, k: nat)
    requires s.drain.pc.Idle? && InTable(s, row, k) && s.cfg.drainLimit >= 1
    ensures var t := DrainApply(s, List(true));
            Coming(t, row, k) && DrainStepsToClear(t, row, k) < DrainStepsToClear(s, row, k)
  {
  }

  lemma QuarantineProgress(s: State, row: Row, k: nat) returns (j: nat)
    requires Inv(s) && DrainEnabled(s, QuarantineHead(true)) && Coming(s, row, k) && StaysDue(row, s.now)
    ensures var t := DrainApply(s, QuarantineHead(true));
            Coming(t, row, j) && DrainStepsToClear(t, row, j) < DrainStepsToClear(s, row, k)
  {
    NotFirst(s, row, k);
    j := k - 1;
    if InPass(s.drain, row, k) {
      PassShrinks(s, row, k);
    } else {
      TableShrinks(s, row, k);
    }
  }

  lemma NotFirst(s: State, row: Row, k: nat)
    requires DrainEnabled(s, QuarantineHead(true)) && Coming(s, row, k) && StaysDue(row, s.now)
    ensures k > 0 && (InPass(s.drain, row, k) || InTable(s, row, k))
  {
  }

  lemma PassShrinks(s: State, row: Row, k: nat)
    requires DrainEnabled(s, QuarantineHead(true)) && InPass(s.drain, row, k) && k > 0
    ensures var t := DrainApply(s, QuarantineHead(true));
            InPass(t.drain, row, k - 1) && DrainStepsToClear(t, row, k - 1) < DrainStepsToClear(s, row, k)
  {
    hide Quarantine, ShouldQuarantine;
  }

  lemma TableShrinks(s: State, row: Row, k: nat)
    requires Keyed(s.rows) && DrainEnabled(s, QuarantineHead(true)) && InTable(s, row, k) && !InPass(s.drain, row, k) && k > 0
    ensures var t := DrainApply(s, QuarantineHead(true));
            Coming(t, row, k - 1) && DrainStepsToClear(t, row, k - 1) < DrainStepsToClear(s, row, k)
  {
    assert Active(s.rows)[0] == s.drain.todo[0];
    HeadLeaves(s.rows);
    assert s.drain.todo[1..] <= Active(s.rows)[1..];
    hide Quarantine, ShouldQuarantine, Active, Keyed;
  }

  /** Quarantining the oldest active row takes it, and nothing else, off the front. */
  lemma HeadLeaves(rows: seq<Row>)
    requires Keyed(rows) && Active(rows) != []
    ensures Active(Quarantine(rows, Active(rows)[0].id)) == Active(rows)[1..]
  {
    QuarantineFront(rows, Active(rows)[0].id);
  }

  lemma {:induction false} QuarantineFront(rows: seq<Row>, id: nat)
    requires Keyed(rows) && Active(rows) != [] && Active(rows)[0].id == id
    ensures Active(Quarantine(rows, id)) == Active(rows)[1..]
  {
    var rest := rows[1..];
    assert Quarantine(rows, id)[1..] == Quarantine(rest, id);
    ActiveSpec(rows);
    if rows[0].quarantined {
      QuarantineFront(rest, id);
    } else {
      assert rows[0].id == id;
      forall i | 0 <= i < |rest| ensures rest[i].id != id {
        assert rows[i + 1].id > rows[0].id;
      }
      assert Quarantine(rest, id) == rest;
      TailOfCons(rows[0], Active(rest));
    }
  }

  /** With a replayable row in the table, every run in which both stores answer the drain, the row
      does not age out, and the drain takes 5k+6 steps, for k active rows before it, clears the
      flag on the way. */
  lemma {:induction false} DrainClearsFatal(s: State, steps: seq<Step>, t: State, row: Row, k: nat)
    requires Inv(s) && Coming(s, row, k) && Runs(s, steps, t) && s.cfg.drainLimit >= 1
    requires Answered(steps) && StaysDue(row, t.now) && DrainSteps(steps) >= DrainStepsToClear(s, row, k)
    ensures D(ClearReplay) in steps && SomewhereClear(s, steps)
    decreases |steps|
  {
    hide Inv, Apply, Enabled, Coming, DrainStepsToClear, StaysDue, SomewhereClear;
    StillToGo(s, row, k);
    var step, rest := steps[0], steps[1..];
    ConsTail(steps);
    if step != D(ClearReplay) {
      var mid := Apply(s, step);
      StepKeeps(s, step);
      Frame(s, step);
      TimePasses(mid, rest, t);
      DueEarlier(row, s.now, t.now);
      var j := k;
      if step.D? {
        j := DrainMoves(s, step.drain, row, k);
      } else {
        OthersAppend(s, mid, row, k);
      }
      DrainClearsFatal(mid, rest, t, row, j);
    }
    ClearStepClears(s, steps, t);
  }

  lemma StillToGo(s: State, row: Row, k: nat)
    requires Coming(s, row, k)
    ensures DrainStepsToClear(s, row, k) >= 1
  {
  }

  lemma DrainMoves(s: State, step: DrainStep, row: Row, k: nat) returns (j: nat)
    requires Inv(s) && Enabled(s, D(step)) && Coming(s, row, k) && StaysDue(row, s.now) && s.cfg.Valid() && s.cfg.drainLimit >= 1
    requires Answered([D(step)]) && step != ClearReplay
    ensures Coming(Apply(s, D(step)), row, j)
    ensures DrainStepsToClear(Apply(s, D(step)), row, j) < DrainStepsToClear(s, row, k)
  {
    j := DrainProgress(s, step, row, k);
  }

  lemma {:induction false} TimePasses(s: State, steps: seq<Step>, t: State)
    requires Runs(s, steps, t)
    ensures s.now <= t.now
    decreases |steps|
  {
    hide Apply, Enabled;
    if steps != [] {
      Frame(s, steps[0]);
      TimePasses(Apply(s, steps[0]), steps[1..], t);
    }
  }
}
