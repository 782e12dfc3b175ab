/** The events the pipeline accounts for are the events that were submitted, position by position. */
module PipelineEvents {
  import opened Common
  import opened EventCodec
  import opened FailedEvents
  import opened Pipeline
  import opened PipelineInvariant
  import opened PipelineTheorems

  /** The envelope a step acknowledges, if it acknowledges one. */
  function Acknowledges(s: State, step: Step): seq<Envelope>
    requires s.cfg.Valid() && Enabled(s, step)
  {
    if step.H? && step.handler.Send? && Apply(s, step).handlers[step.handler.h].Accepted?
    then [s.handlers[step.handler.h].env]
    else []
  }

  /** The envelopes acknowledged along a run, in order. */
  ghost function Acknowledged(s: State, steps: seq<Step>): seq<Envelope>
    decreases |steps|
  {
    if steps == [] || !s.cfg.Valid() || !Enabled(s, steps[0]) then []
    else Acknowledges(s, steps[0]) + Acknowledged(Apply(s, steps[0]), steps[1..])
  }

  lemma SendAccepted(s: State, h: nat)
    requires s.cfg.Valid() && HandlerEnabled(s, Send(h)) && !s.closed && |s.queue| < s.cfg.ChanCap()
    ensures var t := HandlerApply(s, Send(h));
            && t.ledger.accepted == s.ledger.accepted + multiset(Stamp(s.handlers[h].env))
            && t.queue == s.queue + [s.handlers[h].env] && t.handlers[h].Accepted?
  {
    hide Config.ChanCap, Stamp;
  }

  lemma SendNotAccepted(s: State, h: nat)
    requires s.cfg.Valid() && HandlerEnabled(s, Send(h)) && (s.closed || |s.queue| >= s.cfg.ChanCap())
    ensures var t := HandlerApply(s, Send(h));
            t.ledger.accepted == s.ledger.accepted && t.queue == s.queue && !t.handlers[h].Accepted?
  {
    hide Config.ChanCap, Stamp;
  }

  /** A send that is acknowledged puts the submitted envelope last in the channel and adds its events
      to the acknowledged ones. */
  lemma SendAcknowledges(s: State, h: nat) returns (items: seq<Item>)
    requires s.cfg.Valid() && HandlerEnabled(s, Send(h))
    ensures Carries(items, Acknowledges(s, H(Send(h))))
    ensures var t := HandlerApply(s, Send(h));
            && t.ledger.accepted == s.ledger.accepted + multiset(items)
            && t.queue == s.queue + Acknowledges(s, H(Send(h)))
  {
    if !s.closed && |s.queue| < s.cfg.ChanCap() {
      SendAccepted(s, h);
      StampCarries(s.handlers[h].env);
      items := Stamp(s.handlers[h].env);
    } else {
      SendNotAccepted(s, h);
      items := [];
    }
    hide Config.ChanCap, Stamp, HandlerApply;
  }

  lemma HandlerAcknowledges(s: State, step: HandlerStep)
    requires s.cfg.Valid() && HandlerEnabled(s, step) && !step.Send?
    ensures HandlerApply(s, step).ledger == s.ledger
  {
    match step { case Begin(_) => case CheckFatal(_) => case Load(_) => case Swap(_) => }
  }

  lemma FlusherAcknowledges(s: State, step: FlusherStep)
    requires FlusherEnabled(s, step)
    ensures FlusherApply(s, step).ledger.accepted == s.ledger.accepted
  {
    hide Stamp;
    match step {
      case Receive => case Append => case Tick => case SeeClosed => case SeeCancelled =>
      case Insert(_) => case Meter => case ClearFatal => case WriteRow(_) => case SetFatal => case Release =>
    }
  }

  lemma DrainAcknowledges(s: State, step: DrainStep)
    requires DrainEnabled(s, step)
    ensures DrainApply(s, step).ledger.accepted == s.ledger.accepted
  {
    hide Delete, Increment, Quarantine, Events, ListForDrain, ShouldQuarantine;
    match step {
      case List(_) => case Stop => case Finish => case QuarantineHead(_) => case TakeHead => case Replay(_) =>
      case Bump(_) => case DeleteRow(_) => case MeterReplay => case ClearReplay =>
    }
  }

  lemma ShutdownAcknowledges(s: State, step: ShutdownStep)
    requires ShutdownEnabled(s, step)
    ensures ShutdownApply(s, step).ledger.accepted == s.ledger.accepted
  {
    hide Stamp;
    match step {
      case Disable => case StopHttp(_) => case Close => case Return => case Expire => case Capture =>
      case EndCapture => case WriteResidual(_) => case ReleaseResidual =>
    }
  }

  lemma StepAcknowledges(s: State, step: Step) returns (items: seq<Item>)
    requires s.cfg.Valid() && Enabled(s, step)
    ensures Carries(items, Acknowledges(s, step))
    ensures Apply(s, step).ledger.accepted == s.ledger.accepted + multiset(items)
  {
    items := [];
    hide HandlerApply, FlusherApply, DrainApply, ShutdownApply, HandlerEnabled, FlusherEnabled, DrainEnabled, ShutdownEnabled;
    match step
    case H(h) =>
      if h.Send? {
        items := SendAcknowledges(s, h.h);
      } else {
        HandlerAcknowledges(s, h);
      }
    case F(f) => FlusherAcknowledges(s, f);
    case D(d) => DrainAcknowledges(s, d);
    case S(p) => ShutdownAcknowledges(s, p);
    case _ =>
  }

  /** Along every run the acknowledged events are those of the envelopes acknowledged. */
  lemma {:induction false} RunAcknowledges(s: State, steps: seq<Step>, t: State) returns (items: seq<Item>)
    requires Runs(s, steps, t)
    ensures Carries(items, Acknowledged(s, steps))
    ensures t.ledger.accepted == s.ledger.accepted + multiset(items)
    decreases |steps|
  {
    hide Carries, Apply, Enabled, Acknowledges;
    if steps == [] {
      items := [];
      FlatCarries([]);
    } else {
      var first := StepAcknowledges(s, steps[0]);
      var rest := RunAcknowledges(Apply(s, steps[0]), steps[1..], t);
      CarriesConcat(first, Acknowledges(s, steps[0]), rest, Acknowledged(Apply(s, steps[0]), steps[1..]));
      items := first + rest;
    }
  }

  /** Conservation from the requests on: the events of the envelopes acknowledged along the run, each
      under its project, are counted with repeats exactly those of the envelopes still queued and
      those the flusher, the capture, the rows, ClickHouse and the losses account for. */
  lemma EveryAcknowledgedEventHasOneOwner(cfg: Config, now: Instant, disabled: bool, steps: seq<Step>, s: State)
    returns (acknowledged: seq<Item>, queued: seq<Item>)
    requires cfg.Valid() && Runs(Initial(cfg, now, disabled), steps, s)
    ensures Carries(acknowledged, Acknowledged(Initial(cfg, now, disabled), steps)) && Carries(queued, s.queue)
    ensures multiset(acknowledged) ==
            multiset(queued)
            + multiset(s.flusher.rest)
            + (if BufOwned(s.flusher.pc) then multiset(s.flusher.buf) else multiset{})
            + (if s.shutdown.Capturing? || s.shutdown.WritingResidual? then multiset(s.residual) else multiset{})
            + Held(Active(s.rows)) + Held(Quarantined(s.rows))
            + s.ledger.settled + s.ledger.lost
  {
    hide Carries, Runs, Held, Active, Quarantined, BufOwned;
    acknowledged := RunAcknowledges(Initial(cfg, now, disabled), steps, s);
    queued := Flat(s.queue);
    FlatCarries(s.queue);
    assert Reachable(s);
    EveryAcceptedEventHasOneOwner(s);
  }

  /** Whoever takes an envelope off the channel takes the oldest, and takes its events. */
  lemma ReceiveTakes(s: State)
    requires FlusherEnabled(s, Receive)
    ensures var t := FlusherApply(s, Receive);
            [s.queue[0]] + t.queue == s.queue && Carries(t.flusher.rest, [s.queue[0]])
  {
    StampCarries(s.queue[0]);
  }

  lemma CaptureTakes(s: State) returns (items: seq<Item>)
    requires ShutdownEnabled(s, Capture)
    ensures var t := ShutdownApply(s, Capture);
            [s.queue[0]] + t.queue == s.queue && t.residual == s.residual + items && Carries(items, [s.queue[0]])
  {
    items := Stamp(s.queue[0]);
    StampCarries(s.queue[0]);
  }
}
