/** The timeout path: two consumers on one closed channel, and who gets what. */
module ShutdownTimeout {
  import opened Common
  import opened EventCodec
  import opened FailedEvents
  import opened Pipeline
  import opened PipelineInvariant
  import opened PipelineTheorems

  /** Who takes an envelope off the channel. */
  datatype Taker = ByFlusher | ByCapture

  function TakerOf(step: Step): seq<Taker> {
    if step == F(Receive) then [ByFlusher] else if step == S(Capture) then [ByCapture] else []
  }

  function Takers(steps: seq<Step>): seq<Taker> {
    if steps == [] then [] else TakerOf(steps[0]) + Takers(steps[1..])
  }

  /** The envelopes that `who` takes from the front of the queue. */
  function TakenBy(queue: seq<Envelope>, takers: seq<Taker>, who: Taker): seq<Envelope>
    requires |takers| <= |queue|
  {
    if takers == [] then []
    else (if takers[0] == who then [queue[0]] else []) + TakenBy(queue[1..], takers[1..], who)
  }

  /** The events the flusher moves to its buffer along a run. */
  ghost function Buffered(s: State, steps: seq<Step>): seq<Item>
    decreases |steps|
  {
    if steps == [] || !s.cfg.Valid() || !Enabled(s, steps[0]) then []
    else (if steps[0] == F(Append) then [s.flusher.rest[0]] else []) + Buffered(Apply(s, steps[0]), steps[1..])
  }

  lemma {:induction false} TakenIsPartition(queue: seq<Envelope>, takers: seq<Taker>)
    requires |takers| <= |queue|
    ensures multiset(queue) == multiset(TakenBy(queue, takers, ByFlusher)) + multiset(TakenBy(queue, takers, ByCapture))
                               + multiset(queue[|takers|..])
  {
    if takers == [] {
      assert queue[0..] == queue;
    } else {
      ConsTail(queue);
      TakenIsPartition(queue[1..], takers[1..]);
      assert queue[1..][|takers| - 1..] == queue[|takers|..];
      assert multiset(queue) == multiset{queue[0]} + multiset(queue[1..]);
    }
  }

  /** One step on a closed channel. */
  lemma ClosedStep(s: State, step: Step)
    requires s.cfg.Valid() && s.closed && Enabled(s, step)
    ensures var t := Apply(s, step);
            && t.closed && |TakerOf(step)| <= |s.queue| && t.queue == s.queue[|TakerOf(step)|..]
            && (step != S(ReleaseResidual) ==>
                  t.residual == s.residual + if step == S(Capture) then Stamp(s.queue[0]) else [])
            && t.flusher.rest == (if step == F(Receive) then Stamp(s.queue[0])
                                  else if step == F(Append) then s.flusher.rest[1..]
                                  else s.flusher.rest)
            && (step == F(Receive) ==> s.flusher.rest == [])
            && (step == F(Append) ==> s.flusher.rest != [])
  {
    hide Delete, Increment, Quarantine, Events, ListForDrain, ShouldQuarantine, Stamp, Config.ChanCap;
    match step
    case H(h) => ClosedHandler(s, h);
    case F(f) => ClosedFlusher(s, f);
    case D(d) => DrainControl(s, d);
    case S(p) => ClosedShutdown(s, p);
    case _ =>
  }

  lemma ClosedHandler(s: State, step: HandlerStep)
    requires s.cfg.Valid() && s.closed && HandlerEnabled(s, step)
    ensures HandlerApply(s, step) == s.(handlers := HandlerApply(s, step).handlers, pending := HandlerApply(s, step).pending)
  {
    hide Stamp, Config.ChanCap;
    match step { case Begin(_) => case CheckFatal(_) => case Load(_) => case Swap(_) => case Send(_) => }
  }

  lemma ClosedFlusher(s: State, step: FlusherStep)
    requires FlusherEnabled(s, step)
    ensures var t := FlusherApply(s, step);
            && t.closed == s.closed && t.residual == s.residual
            && (step.Receive? ==> s.queue != [] && s.flusher.rest == [])
            && (step.Append? ==> s.flusher.rest != [])
            && t.queue == (if step.Receive? then s.queue[1..] else s.queue)
            && t.flusher.rest == (if step.Receive? then Stamp(s.queue[0])
                                  else if step.Append? then s.flusher.rest[1..]
                                  else s.flusher.rest)
  {
    hide Stamp;
    match step {
      case Receive => case Append => case Tick => case SeeClosed => case SeeCancelled =>
      case Insert(_) => case Meter => case ClearFatal => case WriteRow(_) => case SetFatal => case Release =>
    }
  }

  lemma ClosedShutdown(s: State, step: ShutdownStep)
    requires ShutdownEnabled(s, step) && s.closed
    ensures var t := ShutdownApply(s, step);
            && t.closed && t.flusher == s.flusher
            && (step.Capture? ==> s.queue != [])
            && t.queue == (if step.Capture? then s.queue[1..] else s.queue)
            && (!step.ReleaseResidual? ==> t.residual == s.residual + if step.Capture? then Stamp(s.queue[0]) else [])
  {
    hide Stamp;
    match step {
      case Disable => case StopHttp(_) => case Close => case Return => case Expire => case Capture =>
      case EndCapture => case WriteResidual(_) => case ReleaseResidual =>
    }
  }

  /** From any point after the close, the expiry of the deadline included: the envelopes queued then
      leave in order, each to the flusher or to the capture and to exactly one of them, or are
      still queued. What the capture took is, stamped, exactly what it adds to the residual; what
      the flusher took is exactly what it buffers or still has in hand. */
  lemma {:induction false} EachEnvelopeToExactlyOne(s: State, steps: seq<Step>, t: State)
    requires s.closed && Runs(s, steps, t)
    ensures |Takers(steps)| <= |s.queue| && t.queue == s.queue[|Takers(steps)|..]
    ensures multiset(s.queue) == multiset(TakenBy(s.queue, Takers(steps), ByFlusher))
                                 + multiset(TakenBy(s.queue, Takers(steps), ByCapture)) + multiset(t.queue)
    ensures S(ReleaseResidual) !in steps ==> t.residual == s.residual + Flat(TakenBy(s.queue, Takers(steps), ByCapture))
    ensures s.flusher.rest + Flat(TakenBy(s.queue, Takers(steps), ByFlusher)) == Buffered(s, steps) + t.flusher.rest
    decreases |steps|
  {
    if steps == [] {
      assert s.queue[0..] == s.queue;
    } else {
      var step, rest, mid := steps[0], steps[1..], Apply(s, steps[0]);
      ClosedStep(s, step);
      hide Apply, Enabled;
      EachEnvelopeToExactlyOne(mid, rest, t);
      ConsTail(steps);
      TakenAfter(s, step, Takers(rest), mid);
      RestAfter(s, step, mid, TakenBy(mid.queue, Takers(rest), ByFlusher), Buffered(mid, rest), t.flusher.rest);
      ResidualAfter(s, step, mid, TakenBy(mid.queue, Takers(rest), ByCapture));
    }
    TakenIsPartition(s.queue, Takers(steps));
  }

  lemma TakenAfter(s: State, step: Step, later: seq<Taker>, mid: State)
    requires |TakerOf(step)| <= |s.queue| && mid.queue == s.queue[|TakerOf(step)|..] && |later| <= |mid.queue|
    ensures |TakerOf(step) + later| <= |s.queue|
    ensures mid.queue[|later|..] == s.queue[|TakerOf(step) + later|..]
    ensures TakenBy(s.queue, TakerOf(step) + later, ByFlusher)
         == (if step == F(Receive) then [s.queue[0]] else []) + TakenBy(mid.queue, later, ByFlusher)
    ensures TakenBy(s.queue, TakerOf(step) + later, ByCapture)
         == (if step == S(Capture) then [s.queue[0]] else []) + TakenBy(mid.queue, later, ByCapture)
  {
    if TakerOf(step) == [] {
      assert TakerOf(step) + later == later;
      assert mid.queue == s.queue;
    } else {
      TailOfAppend(TakerOf(step), later);
      assert TakerOf(step)[1..] + later == later;
    }
  }

  lemma FlatOneMore(env: Envelope, queue: seq<Envelope>)
    ensures Flat([env] + queue) == Stamp(env) + Flat(queue)
  {
    TailOfCons(env, queue);
  }

  lemma RestAfter(s: State, step: Step, mid: State, taken: seq<Envelope>, buffered: seq<Item>, last: seq<Item>)
    requires mid.flusher.rest + Flat(taken) == buffered + last
    requires step == F(Receive) ==> s.queue != [] && s.flusher.rest == []
    requires step == F(Append) ==> s.flusher.rest != []
    requires mid.flusher.rest == (if step == F(Receive) then Stamp(s.queue[0])
                                  else if step == F(Append) then s.flusher.rest[1..]
                                  else s.flusher.rest)
    ensures s.flusher.rest + Flat((if step == F(Receive) then [s.queue[0]] else []) + taken)
         == (if step == F(Append) then [s.flusher.rest[0]] else []) + buffered + last
  {
    if step == F(Receive) {
      FlatOneMore(s.queue[0], taken);
    } else if step == F(Append) {
      ConsTail(s.flusher.rest);
      Associative([s.flusher.rest[0]], s.flusher.rest[1..], Flat(taken));
      Associative([s.flusher.rest[0]], buffered, last);
      assert [] + taken == taken;
    } else {
      assert [] + taken == taken;
    }
  }

  lemma ResidualAfter(s: State, step: Step, mid: State, taken: seq<Envelope>)
    requires step == S(Capture) ==> s.queue != []
    requires step != S(ReleaseResidual) ==> mid.residual == s.residual + if step == S(Capture) then Stamp(s.queue[0]) else []
    ensures step != S(ReleaseResidual) ==>
              mid.residual + Flat(taken) == s.residual + Flat((if step == S(Capture) then [s.queue[0]] else []) + taken)
  {
    if step == S(Capture) {
      FlatOneMore(s.queue[0], taken);
      Associative(s.residual, Stamp(s.queue[0]), Flat(taken));
    } else {
      assert [] + taken == taken;
    }
  }
}
