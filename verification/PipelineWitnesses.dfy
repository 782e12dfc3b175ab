/** Reachability: runs that show what the pipeline can do, some of it against its own comments. */
module PipelineWitnesses {
  import opened Common
  import opened EventCodec
  import opened FailedEvents
  import opened Pipeline
  import opened PipelineInvariant
  import opened PipelineTheorems
  import opened FatalFlag
  import IngestStores
  import PipelineRefinement

  lemma ReachableStep(s: State, step: Step)
    requires Reachable(s) && s.cfg.Valid() && Enabled(s, step)
    ensures Reachable(Apply(s, step))
  {
    hide Apply, Enabled;
    var cfg: Config, now, disabled, steps :| cfg.Valid() && Runs(Initial(cfg, now, disabled), steps, s);
    RunsOne(s, step);
    RunsConcat(Initial(cfg, now, disabled), steps, s, [step], Apply(s, step));
  }

  lemma InitialReachable(cfg: Config, now: Instant)
    requires cfg.Valid()
    ensures Reachable(Initial(cfg, now, false))
  {
    assert Runs(Initial(cfg, now, false), [], Initial(cfg, now, false));
  }

  /** Accepting requests, and nobody in the middle of anything. */
  predicate Open(s: State) {
    s.cfg.Valid() && s.shutdown.Serving? && !s.disabled && !s.fatal && !s.closed
  }

  /** An undisturbed submission up to its reservation. */
  lemma Reserve(s: State, env: Envelope) returns (t: State)
    requires Reachable(s) && Open(s) && env.events != [] && s.pending + |env.events| <= s.cfg.eventBuffer
    ensures Reachable(t)
    ensures t == s.(handlers := s.handlers + [Reserved(env)], pending := s.pending + |env.events|)
  {
    var h := |s.handlers|;
    var a := Apply(s, H(Begin(env)));
    ReachableStep(s, H(Begin(env)));
    assert a == s.(handlers := s.handlers + [Started(env)]);
    var b := Apply(a, H(CheckFatal(h)));
    ReachableStep(a, H(CheckFatal(h)));
    assert b == s.(handlers := s.handlers + [Checked(env)]);
    var c := Apply(b, H(Load(h)));
    ReachableStep(b, H(Load(h)));
    assert c == s.(handlers := s.handlers + [Loaded(env, s.pending)]);
    t := Apply(c, H(Swap(h)));
    ReachableStep(c, H(Swap(h)));
    assert t.handlers == s.handlers + [Reserved(env)];
  }

  /** An undisturbed submission that is accepted. */
  lemma Submit(s: State, env: Envelope) returns (t: State)
    requires Reachable(s) && Open(s) && env.events != [] && s.pending + |env.events| <= s.cfg.eventBuffer
    requires |s.queue| < s.cfg.ChanCap()
    ensures Reachable(t)
    ensures t == s.(handlers := s.handlers + [Accepted], pending := s.pending + |env.events|,
                    queue := s.queue + [env],
                    ledger := s.ledger.(accepted := s.ledger.accepted + multiset(Stamp(env))))
  {
    var r := Reserve(s, env);
    var h := |s.handlers|;
    t := Apply(r, H(Send(h)));
    ReachableStep(r, H(Send(h)));
    assert t.handlers == s.handlers + [Accepted];
  }

  // ---------------------------------------------------------------------------
  // Backpressure
  // ---------------------------------------------------------------------------

  /** A submission has reserved its slots and finds the channel full. */
  ghost predicate FullBelowCeiling(s: State) {
    s.cfg.Valid() && |s.queue| == s.cfg.ChanCap() && exists h :: 0 <= h < |s.handlers| && s.handlers[h].Reserved?
  }

  lemma {:induction false} EnvelopesCount(queue: seq<Envelope>)
    requires forall i :: 0 <= i < |queue| ==> queue[i].events != []
    ensures |queue| <= |Flat(queue)|
  {
    if queue != [] {
      EnvelopesCount(queue[1..]);
    }
  }

  lemma {:induction false} ReservationCounts(handlers: seq<Handler>, h: nat)
    requires h < |handlers|
    ensures handlers[h].Unsent() <= Unsent(handlers)
  {
    if h > 0 {
      ReservationCounts(handlers[1..], h - 1);
    }
  }

  /** k one-event envelopes in the channel. */
  lemma {:induction false} Fill(cfg: Config, k: nat, env: Envelope) returns (s: State)
    requires cfg.Valid() && k <= cfg.ChanCap() && k <= cfg.eventBuffer && |env.events| == 1
    ensures Reachable(s) && Open(s) && s.cfg == cfg && |s.queue| == k && s.pending == k
  {
    if k == 0 {
      s := Initial(cfg, 0, false);
      InitialReachable(cfg, 0);
    } else {
      var less := Fill(cfg, k - 1, env);
      s := Submit(less, env);
    }
  }

  /** The channel can refuse an event that passed the ceiling exactly when the ceiling is above
      the channel's capacity, which for a service with FlushEvents F and EventBuffer E means
      F >= 2 and E > 100. */
  lemma ChannelFullBelowCeilingIff(cfg: Config)
    requires cfg.Valid()
    ensures (exists s :: Reachable(s) && s.cfg == cfg && FullBelowCeiling(s)) <==> cfg.eventBuffer > 100 && cfg.flushEvents >= 2
  {
    CeilingAboveCapacity(cfg);
    if cfg.eventBuffer > cfg.ChanCap() {
      var env := Envelope("", [ZERO_EVENT]);
      var full := Fill(cfg, cfg.ChanCap(), env);
      var s := Reserve(full, env);
      assert s.handlers[|full.handlers|].Reserved?;
    }
    forall s | Reachable(s) && s.cfg == cfg && FullBelowCeiling(s)
      ensures cfg.eventBuffer > cfg.ChanCap()
    {
      FullMeansAbove(s);
    }
  }

  lemma CeilingAboveCapacity(cfg: Config)
    requires cfg.Valid()
    ensures cfg.eventBuffer > cfg.ChanCap() <==> cfg.eventBuffer > 100 && cfg.flushEvents >= 2
  {
    if cfg.flushEvents >= 2 {
      assert cfg.eventBuffer / cfg.flushEvents * cfg.flushEvents <= cfg.eventBuffer;
      assert 2 * (cfg.eventBuffer / cfg.flushEvents) <= cfg.eventBuffer / cfg.flushEvents * cfg.flushEvents;
    }
  }

  lemma FullMeansAbove(s: State)
    requires Reachable(s) && FullBelowCeiling(s)
    ensures s.cfg.eventBuffer > s.cfg.ChanCap()
  {
    ReachableInv(s);
    var h :| 0 <= h < |s.handlers| && s.handlers[h].Reserved?;
    EnvelopesCount(s.queue);
    ReservationCounts(s.handlers, h);
  }

  // ---------------------------------------------------------------------------
  // Both stores down
  // ---------------------------------------------------------------------------

  /** One event is accepted and reaches the flusher's insert. */
  lemma AboutToInsert(cfg: Config, env: Envelope) returns (s: State)
    requires cfg.Valid() && cfg.eventBuffer >= 1 && |env.events| == 1
    ensures Reachable(s) && Open(s) && s.cfg == cfg
    ensures s.flusher == Flusher(Inserting, [], Stamp(env), false)
    ensures s.queue == [] && s.drain == Drain(Idle, []) && s.rows == [] && s.now == 0 && s.residual == []
    ensures s.handlers == [Accepted]
    ensures s.ledger == Ledger(multiset(Stamp(env)), multiset{}, multiset{}, multiset{}, multiset{}, multiset{})
  {
    InitialReachable(cfg, 0);
    var a := Submit(Initial(cfg, 0, false), env);
    assert multiset{} + multiset(Stamp(env)) == multiset(Stamp(env));
    ReachableStep(a, F(Receive));
    var b := Apply(a, F(Receive));
    ReachableStep(b, F(Append));
    var c := Apply(b, F(Append));
    assert c.flusher.buf == Stamp(env) && c.flusher.rest == [];
    if c.flusher.pc.Inserting? {
      s := c;
    } else {
      ReachableStep(c, F(Tick));
      s := Apply(c, F(Tick));
    }
  }

  /** One double failure on an otherwise empty pipeline stops ingestion for good: some reachable
      flush fails both stores, loses its batch, and leaves a state whose every continuation is
      fatal. */
  lemma OneDoubleFailureIsForever(cfg: Config)
    requires cfg.Valid() && cfg.eventBuffer >= 1
    ensures exists a, s ::
              && Reachable(a) && a.cfg == cfg && a.flusher.buf != [] && !a.fatal
              && Runs(a, PipelineRefinement.FlushSteps(IngestStores.BothFailed), s)
              && s.ledger.lost == a.ledger.lost + multiset(a.flusher.buf)
              && Stuck(s) && forall t :: Reaches(s, t) ==> t.fatal
  {
    var a := AboutToInsert(cfg, Envelope("", [ZERO_EVENT]));
    PipelineRefinement.BothFailedRun(a);
    var s := PipelineRefinement.AfterFlush(a, IngestStores.BothFailed);
    StuckAfterLoss(a);
    hide PipelineRefinement.AfterFlush, PipelineRefinement.FlushSteps;
    ReachableRun(a, PipelineRefinement.FlushSteps(IngestStores.BothFailed), s);
    ReachableInv(s);
    hide Stuck, Inv, Runs;
    forall t | Reaches(s, t) ensures t.fatal {
      var steps :| Runs(s, steps, t);
      StuckForever(s, steps, t);
    }
  }

  lemma StuckAfterLoss(a: State)
    requires a.queue == [] && a.residual == [] && a.flusher.rest == [] && !a.flusher.exiting && a.rows == [] && a.drain.pc.Idle?
    requires a.handlers == [Accepted]
    ensures var s := PipelineRefinement.AfterFlush(a, IngestStores.BothFailed);
            && Stuck(s) && s.ledger.lost == a.ledger.lost + multiset(a.flusher.buf) && s.shutdown == a.shutdown
  {
  }

  lemma ReachableRun(s: State, steps: seq<Step>, t: State)
    requires Reachable(s) && Runs(s, steps, t)
    ensures Reachable(t)
  {
    hide Runs;
    var cfg: Config, now, disabled, before :| cfg.Valid() && Runs(Initial(cfg, now, disabled), before, s);
    RunsConcat(Initial(cfg, now, disabled), before, s, steps, t);
  }

  // ---------------------------------------------------------------------------
  // Shutdown with a backlog
  // ---------------------------------------------------------------------------

  /** A graceful shutdown that returns cleanly and leaves an envelope behind is reachable. */
  lemma BacklogCanBeAbandoned(cfg: Config)
    requires cfg.Valid() && cfg.eventBuffer >= 1
    ensures exists t :: Reachable(t) && t.cfg == cfg && !t.forced && t.shutdown.ReturnedClean? && t.queue != []
  {
    InitialReachable(cfg, 0);
    var start := Initial(cfg, 0, false);
    var s := Submit(start, Envelope("", [ZERO_EVENT]));
    ReachableStep(s, Cancel);
    var c := Apply(s, Cancel);
    ReachableInv(c);
    hide Inv, Runs;
    var steps, t := AbandonBacklog(c);
    ReachableRun(c, steps, t);
    RunMonotone(c, steps, t);
    assert Runs(start, [], start) ==> t.cfg == cfg by { RunKeepsConfig(c, steps, t); }
  }

  lemma {:induction false} RunKeepsConfig(s: State, steps: seq<Step>, t: State)
    requires Runs(s, steps, t)
    ensures t.cfg == s.cfg
    decreases |steps|
  {
    if steps != [] {
      hide Apply, Enabled;
      Frame(s, steps[0]);
      RunKeepsConfig(Apply(s, steps[0]), steps[1..], t);
    }
  }

  // ---------------------------------------------------------------------------
  // Failed deletes
  // ---------------------------------------------------------------------------

  /** One drain pass over a lone row replays it and fails to delete it: one more copy in
      ClickHouse, nothing metered, and the row as it was. */
  lemma ReplayWithoutDelete(s: State, row: Row) returns (t: State)
    requires Reachable(s) && s.cfg.Valid() && s.cfg.drainLimit >= 1
    requires s.rows == [row] && Replayable(row, s.now) && s.drain == Drain(Idle, [])
    ensures Reachable(t)
    ensures t == s.(ledger := s.ledger.(landed := s.ledger.landed + Events(row), relanded := s.ledger.relanded + Events(row)))
  {
    ReachableStep(s, D(List(true)));
    var a := Apply(s, D(List(true)));
    OneActive(row);
    assert a.drain.todo == [row];
    ReachableStep(a, D(TakeHead));
    var b := Apply(a, D(TakeHead));
    ReachableStep(b, D(Replay(true)));
    var c := Apply(b, D(Replay(true)));
    ReachableStep(c, D(DeleteRow(false)));
    var d := Apply(c, D(DeleteRow(false)));
    ReachableStep(d, D(Finish));
    t := Apply(d, D(Finish));
  }

  lemma OneActive(row: Row)
    requires !row.quarantined
    ensures Active([row]) == [row]
  {
    assert [row][1..] == [];
  }

  /** A batch that failed its insert, then was replayed n times without its row being deleted. */
  lemma {:induction false} ReplayedTimes(cfg: Config, env: Envelope, n: nat) returns (s: State, row: Row)
    requires cfg.Valid() && cfg.eventBuffer >= 1 && cfg.drainLimit >= 1 && |env.events| == 1
    ensures Reachable(s) && s.cfg == cfg && s.rows == [row] && row == Row(row.id, Some(Stamp(env)), 0, 0, false)
    ensures s.drain == Drain(Idle, []) && s.now == 0
    ensures s.ledger.landed[Stamp(env)[0]] == n && s.ledger.metered == multiset{}
    ensures s.ledger.accepted == multiset(Stamp(env))
  {
    if n == 0 {
      var a := AboutToInsert(cfg, env);
      ReachableStep(a, F(Insert(false)));
      var b := Apply(a, F(Insert(false)));
      ReachableStep(b, F(WriteRow(true)));
      s := Apply(b, F(WriteRow(true)));
      row := s.rows[0];
    } else {
      var before;
      before, row := ReplayedTimes(cfg, env, n - 1);
      s := ReplayWithoutDelete(before, row);
      assert Events(row)[Stamp(env)[0]] == 1 by {
        assert Payload(row) == Stamp(env) == [Stamp(env)[0]];
      }
    }
  }

  /** Against the documented "counted exactly once, at its first successful insert": for every
      n an event can have n copies in ClickHouse while its only record is a quarantined row, was
      metered never, and never will be: in every continuation that accepts nothing new the
      metering stays empty. */
  lemma LandedButNeverMetered(cfg: Config, env: Envelope, n: nat)
    requires cfg.Valid() && cfg.eventBuffer >= 1 && cfg.drainLimit >= 1 && |env.events| == 1
    ensures exists s, row ::
              && Reachable(s) && s.cfg == cfg && s.ledger.accepted == multiset(Stamp(env))
              && s.ledger.landed[Stamp(env)[0]] == n && s.ledger.metered == multiset{}
              && s.rows == [row] && row.quarantined && row.payload == Some(Stamp(env))
              && forall t :: Reaches(s, t) && t.ledger.accepted == s.ledger.accepted ==> t.ledger.metered == multiset{}
  {
    var a, row := ReplayedTimes(cfg, env, n);
    ReachableStep(a, Elapse(QUARANTINE_AGE));
    var b := Apply(a, Elapse(QUARANTINE_AGE));
    ReachableStep(b, D(List(true)));
    var c := Apply(b, D(List(true)));
    OneActive(row);
    assert c.drain.todo == [row];
    assert ShouldQuarantine(row, c.now);
    ReachableStep(c, D(QuarantineHead(true)));
    var s := Apply(c, D(QuarantineHead(true)));
    var set_aside := row.(quarantined := true);
    assert s.rows == [set_aside];
    NeverMeteredLater(s, set_aside);
  }

  lemma NeverMeteredLater(s: State, row: Row)
    requires Reachable(s) && row in s.rows && row.quarantined && s.ledger.accepted == Events(row)
    ensures forall t :: Reaches(s, t) && t.ledger.accepted == s.ledger.accepted ==> t.ledger.metered == multiset{}
  {
    ReachableInv(s);
    hide Inv, Runs, Reachable;
    forall t | Reaches(s, t) && t.ledger.accepted == s.ledger.accepted ensures t.ledger.metered == multiset{} {
      var steps :| Runs(s, steps, t);
      QuarantinedStays(s, steps, t, row);
      RunKeeps(s, steps, t);
      NoneMetered(t, row);
    }
  }

  /** All that was accepted is in the row, so nothing is left to have been metered. */
  lemma NoneMetered(t: State, row: Row)
    requires Inv(t) && row in t.rows && t.ledger.accepted == Events(row)
    ensures t.ledger.metered == multiset{}
  {
    hide ChannelShape, FlusherShape, TableShape, DrainShape, ShutdownShape, HandlersShape, Slots, Events, Held, Flat;
    HeldAtLeast(t.rows, row);
    forall x ensures t.ledger.metered[x] == 0 {
      assert t.ledger.accepted[x] == Owners(t.queue, t.flusher, t.shutdown, t.residual, t.rows, t.ledger, x);
      assert t.ledger.settled[x] == t.ledger.metered[x] + BeingMetered(t.flusher, t.drain.pc, x);
      assert Held(t.rows)[x] >= Events(row)[x];
    }
  }

  lemma {:induction false} HeldAtLeast(rows: seq<Row>, row: Row)
    requires row in rows
    ensures Events(row) <= Held(rows)
  {
    if rows[0] != row {
      HeldAtLeast(rows[1..], row);
    }
  }

  /** Nothing the program does touches a quarantined row. */
  lemma {:induction false} QuarantinedStays(s: State, steps: seq<Step>, t: State, row: Row)
    requires Runs(s, steps, t) && Inv(s) && row in s.rows && row.quarantined
    ensures row in t.rows
    decreases |steps|
  {
    hide Inv, Apply, Enabled;
    if steps != [] {
      StepKeeps(s, steps[0]);
      QuarantinedStep(s, steps[0], row);
      QuarantinedStays(Apply(s, steps[0]), steps[1..], t, row);
    }
  }

  lemma QuarantinedStep(s: State, step: Step, row: Row)
    requires Inv(s) && Enabled(s, step) && row in s.rows && row.quarantined
    ensures row in Apply(s, step).rows
  {
    if step.D? {
      hide ChannelShape, FlusherShape, ShutdownShape, HandlersShape, Slots, Conserved, Metered;
      QuarantinedDrain(s, step.drain, row);
    } else {
      assert s.cfg.Valid();
      Frame(s, step);
      hide Apply, Inv;
    }
  }

  lemma QuarantinedDrain(s: State, step: DrainStep, row: Row)
    requires TableShape(s.rows, s.nextRow) && DrainShape(s.rows, s.drain)
    requires DrainEnabled(s, step) && row in s.rows && row.quarantined
    ensures row in DrainApply(s, step).rows
  {
    match step {
      case List(_) => case Stop => case Finish => case TakeHead => case Replay(_) => case MeterReplay => case ClearReplay =>
      case QuarantineHead(_) => OtherRow(s.rows, s.drain.todo[0], row);
      case Bump(_) => OtherRow(s.rows, s.drain.pc.row, row);
      case DeleteRow(_) => OtherRow(s.rows, s.drain.pc.row, row);
    }
  }

  lemma OtherRow(rows: seq<Row>, worked: Row, row: Row)
    requires Keyed(rows) && worked in rows && row in rows && worked != row
    ensures row in Delete(rows, worked.id) && row in Increment(rows, worked.id) && row in Quarantine(rows, worked.id)
  {
    OthersKept(rows, worked.id, row);
  }
}
