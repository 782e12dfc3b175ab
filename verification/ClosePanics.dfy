/** Which handlers can still send on the channel once shutdown has passed the HTTP server. */
module ClosePanics {
  import opened Common
  import opened EventCodec
  import opened FailedEvents
  import opened Pipeline
  import opened PipelineInvariant
  import opened PipelineTheorems
  import opened PipelineWitnesses
  import opened FatalFlag
  import opened FatalGate

  ghost predicate SomePanicked(s: State) {
    exists i :: 0 <= i < |s.handlers| && s.handlers[i].Panicked?
  }

  /** Some continuation sends on the closed channel. */
  ghost predicate CanPanic(s: State) {
    exists t :: Reaches(s, t) && SomePanicked(t)
  }

  // ---------------------------------------------------------------------------
  // No handler in flight
  // ---------------------------------------------------------------------------

  /** Once every handler is finished and the HTTP server is gone, the handlers never change again;
      in particular none of them sends on the closed channel, forced stop or not. */
  lemma {:induction false} FinishedAtCloseNeverPanics(s: State, steps: seq<Step>, t: State)
    requires Runs(s, steps, t) && HttpGone(s.shutdown)
    requires forall i :: 0 <= i < |s.handlers| ==> s.handlers[i].Finished()
    ensures t.handlers == s.handlers
    decreases |steps|
  {
    if steps != [] {
      Frame(s, steps[0]);
      HttpStaysGone(s, steps[0]);
      assert !steps[0].H?;
      hide Apply, Enabled, HttpGone;
      FinishedAtCloseNeverPanics(Apply(s, steps[0]), steps[1..], t);
    }
  }

  lemma HttpStaysGone(s: State, step: Step)
    requires s.cfg.Valid() && Enabled(s, step) && HttpGone(s.shutdown)
    ensures HttpGone(Apply(s, step).shutdown)
    ensures step.H? ==> !step.handler.Begin?
  {
    match step
    case S(p) =>
      hide HandlerApply, FlusherApply, DrainApply, HandlerEnabled, FlusherEnabled, DrainEnabled;
      ShutStaysGone(s, p);
    case _ =>
      Frame(s, step);
      hide HandlerApply, FlusherApply, DrainApply, ShutdownApply, FlusherEnabled, DrainEnabled, ShutdownEnabled;
  }

  lemma ShutStaysGone(s: State, step: ShutdownStep)
    requires ShutdownEnabled(s, step) && HttpGone(s.shutdown)
    ensures HttpGone(ShutdownApply(s, step).shutdown)
  {
    hide Stamp;
    match step {
      case Disable => case StopHttp(_) => case Close => case Return => case Expire => case Capture =>
      case EndCapture => case WriteResidual(_) => case ReleaseResidual =>
    }
  }

  /** What a handler past the start of its request can become in one step. */
  predicate Becomes(s: State, before: Handler, after: Handler) {
    match before
    case Started(env) => after == if s.fatal then Refused else Checked(env)
    case Checked(env) => after == if s.pending + |env.events| > s.cfg.eventBuffer then Refused else Loaded(env, s.pending)
    case Loaded(env, seen) => after == if s.pending == seen then Reserved(env) else Checked(env)
    case Reserved(env) => after == (if s.closed then Panicked(env) else Accepted) || (!s.closed && after == Refused)
    case _ => false
  }

  function Mover(step: HandlerStep): nat {
    match step
    case Begin(_) => 0
    case CheckFatal(h) => h
    case Load(h) => h
    case Swap(h) => h
    case Send(h) => h
  }

  lemma CheckFatalMoves(s: State, h: nat)
    requires s.cfg.Valid() && HandlerEnabled(s, CheckFatal(h))
    ensures Moved(s, HandlerApply(s, CheckFatal(h)), h)
  {
  }

  lemma LoadMoves(s: State, h: nat)
    requires s.cfg.Valid() && HandlerEnabled(s, Load(h))
    ensures Moved(s, HandlerApply(s, Load(h)), h)
  {
  }

  lemma SwapMoves(s: State, h: nat)
    requires s.cfg.Valid() && HandlerEnabled(s, Swap(h))
    ensures Moved(s, HandlerApply(s, Swap(h)), h)
  {
  }

  lemma SendMoves(s: State, h: nat)
    requires s.cfg.Valid() && HandlerEnabled(s, Send(h))
    ensures Moved(s, HandlerApply(s, Send(h)), h)
  {
    hide Stamp, Config.ChanCap;
  }

  /** Only handler `h` moved; without a send the queue stays. */
  predicate Moved(s: State, t: State, h: nat) {
    && h < |s.handlers| == |t.handlers| && t.handlers == s.handlers[h := t.handlers[h]]
    && Becomes(s, s.handlers[h], t.handlers[h])
    && (!s.handlers[h].Reserved? ==> t.queue == s.queue)
  }

  lemma HandlerMoved(s: State, step: HandlerStep)
    requires s.cfg.Valid() && HandlerEnabled(s, step) && !step.Begin?
    ensures Moved(s, HandlerApply(s, step), Mover(step))
    ensures HandlerApply(s, step) == HandlerPart(s, HandlerApply(s, step))
  {
    HandlerFrame(s, step);
    hide HandlerApply, HandlerPart, Moved;
    match step {
      case CheckFatal(h) => CheckFatalMoves(s, h);
      case Load(h) => LoadMoves(s, h);
      case Swap(h) => SwapMoves(s, h);
      case Send(h) => SendMoves(s, h);
    }
  }

  /** The same, as a step of the machine: either no handler moved or one did. */
  lemma StepMoved(s: State, step: Step) returns (h: nat)
    requires s.cfg.Valid() && Enabled(s, step) && HttpGone(s.shutdown)
    ensures if step.H? then Moved(s, Apply(s, step), h) else Apply(s, step).handlers == s.handlers
  {
    h := 0;
    Frame(s, step);
    HttpStaysGone(s, step);
    hide HandlerApply, FlusherApply, DrainApply, ShutdownApply, FlusherEnabled, DrainEnabled, ShutdownEnabled, Moved;
    if step.H? {
      h := Mover(step.handler);
      HandlerMoved(s, step.handler);
    }
  }

  /** Nothing is sent on the closed channel before it is closed. */
  lemma {:induction false} OpenMeansNoPanic(s: State, steps: seq<Step>, t: State)
    requires Runs(s, steps, t) && (!s.closed ==> !SomePanicked(s))
    ensures !t.closed ==> !SomePanicked(t)
    decreases |steps|
  {
    if steps != [] {
      OpenStep(s, steps[0]);
      hide Apply, Enabled, SomePanicked;
      OpenMeansNoPanic(Apply(s, steps[0]), steps[1..], t);
    }
  }

  lemma OpenStep(s: State, step: Step)
    requires s.cfg.Valid() && Enabled(s, step) && (!s.closed ==> !SomePanicked(s))
    ensures !Apply(s, step).closed ==> !SomePanicked(Apply(s, step))
  {
    match step
    case H(h) =>
      hide HandlerApply, FlusherApply, DrainApply, ShutdownApply, FlusherEnabled, DrainEnabled, ShutdownEnabled;
      if h.Begin? {
        BeginFrame(s, h.env);
        BeginAppends(s, h.env);
      } else {
        HandlerMoved(s, h);
      }
    case S(p) =>
      hide HandlerApply, FlusherApply, DrainApply, HandlerEnabled, FlusherEnabled, DrainEnabled;
      ShutdownControl(s, p);
      NeverReopens(s, p);
      hide ShutdownApply, ShutdownEnabled;
    case _ =>
      Frame(s, step);
      hide HandlerApply, FlusherApply, DrainApply, ShutdownApply, HandlerEnabled, FlusherEnabled, DrainEnabled, ShutdownEnabled;
  }

  lemma BeginAppends(s: State, env: Envelope)
    requires s.cfg.Valid() && HandlerEnabled(s, Begin(env))
    ensures HandlerApply(s, Begin(env)).handlers == s.handlers + [Started(env)]
  {
  }

  lemma NeverReopens(s: State, step: ShutdownStep)
    requires ShutdownEnabled(s, step)
    ensures s.closed ==> ShutdownApply(s, step).closed
  {
    hide Stamp;
    match step {
      case Disable => case StopHttp(_) => case Close => case Return => case Expire => case Capture =>
      case EndCapture => case WriteResidual(_) => case ReleaseResidual =>
    }
  }

  /** No submitter in flight at the close, no send on the closed channel: if every handler is
      finished when the channel is about to be closed, then none of them has panicked and none ever
      will, whether the HTTP server was stopped gracefully or by force. */
  lemma NoSendOnClosedChannel(s: State, steps: seq<Step>, t: State)
    requires Reachable(s) && s.shutdown.HttpDown? && Runs(s, steps, t)
    requires forall i :: 0 <= i < |s.handlers| ==> s.handlers[i].Finished()
    ensures t.handlers == s.handlers && !SomePanicked(t)
  {
    ReachableInv(s);
    var cfg: Config, now, disabled, before :| cfg.Valid() && Runs(Initial(cfg, now, disabled), before, s);
    OpenMeansNoPanic(Initial(cfg, now, disabled), before, s);
    FinishedAtCloseNeverPanics(s, steps, t);
  }

  // ---------------------------------------------------------------------------
  // Slots that nothing will release
  // ---------------------------------------------------------------------------

  /** With no reservation outstanding: the queue when neither the flusher nor the capture will take
      from it any more, and a residual whose write failed. */
  function StuckSlots(s: State): nat {
    (if WillExit(s.flusher) && !CanCapture(s.shutdown) then |Flat(s.queue)| else 0)
    + (if s.shutdown.ReturnedFailed? then |s.residual| else 0)
  }

  predicate Sending(h: Handler) { h.Reserved? || h.Panicked? }

  ghost predicate NoneSending(s: State) {
    forall i :: 0 <= i < |s.handlers| ==> !Sending(s.handlers[i])
  }

  lemma {:induction false} NoneUnsent(handlers: seq<Handler>)
    requires forall i :: 0 <= i < |handlers| ==> !Sending(handlers[i])
    ensures Unsent(handlers) == 0
  {
    if handlers != [] {
      assert !Sending(handlers[0]);
      NoneUnsent(handlers[1..]);
    }
  }

  lemma StuckIsPending(s: State)
    requires Inv(s) && NoneSending(s)
    ensures StuckSlots(s) <= s.pending
    ensures s.pending == |Flat(s.queue)| + |s.flusher.rest| + |s.flusher.buf| + |s.residual|
  {
    NoneUnsent(s.handlers);
  }

  lemma StuckStays(s: State, step: Step)
    requires Inv(s) && Enabled(s, step) && HttpGone(s.shutdown) && NoneSending(s)
    ensures StuckSlots(s) <= StuckSlots(Apply(s, step))
  {
    assert s.cfg.Valid();
    hide ChannelShape, TableShape, DrainShape, HandlersShape, Slots, Conserved, Metered, Flat;
    match step
    case H(h) => StuckHandler(s, h);
    case F(f) => StuckFlush(s, f);
    case D(d) => DrainControl(s, d);
    case S(p) => StuckShut(s, p);
    case _ =>
  }

  lemma StuckHandler(s: State, step: HandlerStep)
    requires s.cfg.Valid() && HandlerEnabled(s, step) && NoneSending(s)
    ensures StuckSlots(HandlerApply(s, step)) == StuckSlots(s)
  {
    if step.Begin? {
      BeginFrame(s, step.env);
    } else {
      HandlerMoved(s, step);
      hide HandlerApply, Flat;
      assert !Sending(s.handlers[Mover(step)]);
    }
  }

  lemma StuckFlush(s: State, step: FlusherStep)
    requires FlusherEnabled(s, step) && FlusherShape(s.cfg, s.flusher, MayExit(s))
    ensures StuckSlots(s) <= StuckSlots(FlusherApply(s, step))
  {
    hide Flat, Stamp;
    match step {
      case Receive => case Append => case Tick => case SeeClosed => case SeeCancelled =>
      case Insert(_) => case Meter => case ClearFatal => case WriteRow(_) => case SetFatal => case Release =>
    }
  }

  lemma StuckShut(s: State, step: ShutdownStep)
    requires ShutdownEnabled(s, step) && HttpGone(s.shutdown)
    ensures StuckSlots(s) <= StuckSlots(ShutdownApply(s, step))
  {
    hide Flat, Stamp;
    match step {
      case Disable => case StopHttp(_) => case Close => case Return => case Expire => case Capture =>
      case EndCapture => case WriteResidual(_) => case ReleaseResidual =>
    }
  }

  // ---------------------------------------------------------------------------
  // What a panic needs
  // ---------------------------------------------------------------------------

  /** Past its fatal check, with room to reserve sooner or later. */
  ghost predicate Roomy(s: State, h: nat) {
    && h < |s.handlers| && (s.handlers[h].Checked? || s.handlers[h].Loaded?)
    && StuckSlots(s) + |s.handlers[h].env.events| <= s.cfg.eventBuffer
  }

  /** At its fatal check, with room to reserve sooner or later. */
  ghost predicate AtGate(s: State, h: nat) {
    && h < |s.handlers| && s.handlers[h].Started?
    && StuckSlots(s) + |s.handlers[h].env.events| <= s.cfg.eventBuffer
  }

  /** A handler has room to reserve, and is past its fatal check or may still get past it. */
  ghost predicate Hopeful(s: State) {
    exists h: nat :: Roomy(s, h) || (AtGate(s, h) && FlagCanFall(s))
  }

  /** Hope does not come from a step: there was some before it. */
  lemma HopeComesBack(s: State, step: Step)
    requires Inv(s) && Enabled(s, step) && HttpGone(s.shutdown) && NoneSending(s)
    requires NoneSending(Apply(s, step)) && Hopeful(Apply(s, step))
    ensures Hopeful(s)
  {
    var mid := Apply(s, step);
    var h: nat :| Roomy(mid, h) || (AtGate(mid, h) && FlagCanFall(mid));
    CfgValid(s);
    StuckStays(s, step);
    HttpStaysGone(s, step);
    Frame(s, step);
    HandlerBefore(s, step, h);
    if AtGate(mid, h) && FlagCanFall(mid) {
      NotASend(s, step);
      FallComesBack(s, step);
    }
    hide Inv, Apply, Enabled, FlusherMayLand, DrainMayReplay, StuckSlots;
    assert Roomy(s, h) || (AtGate(s, h) && FlagCanFall(s));
  }

  lemma NotASend(s: State, step: Step)
    requires Enabled(s, step) && NoneSending(s)
    ensures step.H? ==> !step.handler.Send?
  {
  }

  lemma HandlerBefore(s: State, step: Step, h: nat)
    requires s.cfg.Valid() && Enabled(s, step) && h < |Apply(s, step).handlers| && HttpGone(s.shutdown)
    requires var after := Apply(s, step).handlers[h]; after.Started? || after.Checked? || after.Loaded?
    ensures h < |s.handlers| && (s.handlers[h].Started? || s.handlers[h].Checked? || s.handlers[h].Loaded?)
    ensures s.handlers[h].env == Apply(s, step).handlers[h].env
    ensures Apply(s, step).handlers[h].Started? ==> s.handlers[h].Started?
    ensures s.handlers[h].Started? && !Apply(s, step).handlers[h].Started? ==> !s.fatal
  {
    var i := StepMoved(s, step);
    hide Apply, Enabled;
  }

  /** The step by which the first handler reserves. */
  lemma FirstReservation(s: State, step: Step)
    requires Inv(s) && Enabled(s, step) && HttpGone(s.shutdown) && NoneSending(s) && !NoneSending(Apply(s, step))
    ensures Hopeful(s)
  {
    assert s.cfg.Valid();
    Frame(s, step);
    HttpStaysGone(s, step);
    var i :| 0 <= i < |Apply(s, step).handlers| && Sending(Apply(s, step).handlers[i]);
    SwapWon(s, step, i);
    StuckIsPending(s);
    assert Roomy(s, i);
  }

  lemma SwapWon(s: State, step: Step, i: nat)
    requires Inv(s) && Enabled(s, step) && NoneSending(s) && HttpGone(s.shutdown)
    requires i < |Apply(s, step).handlers| && Sending(Apply(s, step).handlers[i])
    ensures i < |s.handlers| && s.handlers[i].Loaded? && s.pending + |s.handlers[i].env.events| <= s.cfg.eventBuffer
  {
    CfgValid(s);
    var h := StepMoved(s, step);
    LoadedFit(s);
    hide Inv, Apply, Enabled;
    if i < |s.handlers| {
      assert !Sending(s.handlers[i]);
    }
  }

  lemma LoadedFit(s: State)
    requires Inv(s)
    ensures forall i :: 0 <= i < |s.handlers| && s.handlers[i].Loaded? ==>
              s.handlers[i].seen + |s.handlers[i].env.events| <= s.cfg.eventBuffer
  {
  }

  lemma NotYetPanicked(s: State)
    ensures NoneSending(s) ==> !SomePanicked(s)
  {
    if i :| 0 <= i < |s.handlers| && s.handlers[i].Panicked? {
      assert Sending(s.handlers[i]);
    }
  }

  lemma {:induction false} PanicNeeds(s: State, steps: seq<Step>, t: State)
    requires Inv(s) && HttpGone(s.shutdown) && NoneSending(s) && Runs(s, steps, t) && SomePanicked(t)
    ensures Hopeful(s)
    decreases |steps|
  {
    NotYetPanicked(s);
    if steps != [] {
      var mid := Apply(s, steps[0]);
      StepKeeps(s, steps[0]);
      HttpStaysGone(s, steps[0]);
      hide Inv, Apply, Enabled, Hopeful, NoneSending, HttpGone, SomePanicked;
      if NoneSending(mid) {
        PanicNeeds(mid, steps[1..], t);
        HopeComesBack(s, steps[0]);
      } else {
        FirstReservation(s, steps[0]);
      }
    }
  }

  // ---------------------------------------------------------------------------
  // Releasing everything that can be released
  // ---------------------------------------------------------------------------

  ghost predicate Quietly(s: State, t: State) {
    Reaches(s, t) && Inv(t) && t.handlers == s.handlers && t.cfg == s.cfg
  }

  lemma QuietStep(s: State, step: Step, t: State)
    requires Inv(s) && Enabled(s, step) && !step.H? && Quietly(Apply(s, step), t)
    ensures Quietly(s, t)
  {
    hide Inv, Apply, Enabled;
    assert s.cfg.Valid() by { CfgValid(s); }
    Frame(s, step);
    ReachesStep(s, step, t);
  }

  lemma CfgValid(s: State)
    requires Inv(s)
    ensures s.cfg.Valid()
  {
  }

  lemma QuietSelf(s: State)
    requires Inv(s)
    ensures Quietly(s, s)
  {
    ReachesSelf(s);
  }

  /** Where the flusher is within a pass over its own loop. */
  function Phase(pc: FlusherPc): nat {
    match pc
    case AtHead => 6
    case Inserting => 5
    case Metering => 4
    case Clearing => 3
    case WritingDlq => 4
    case SettingFatal => 3
    case Releasing => 2
    case Exited => 0
  }

  /** The flusher's next step on the way to an empty pipeline. */
  function NextFlush(s: State): FlusherStep {
    match s.flusher.pc
    case Inserting => Insert(true)
    case Metering => Meter
    case Clearing => ClearFatal
    case WritingDlq => WriteRow(false)
    case SettingFatal => SetFatal
    case Releasing => Release
    case _ => if s.flusher.rest != [] then Append else if s.flusher.buf != [] then Tick else Receive
  }

  predicate FlusherIdle(s: State) {
    s.flusher.pc.Exited? || (s.flusher.pc.AtHead? && s.flusher.rest == [] && s.flusher.buf == [] && s.queue == [])
  }

  /** The flusher's work shrinks, and it stays on or off its way out. */
  predicate Shrinks(s: State, t: State) {
    && t.shutdown == s.shutdown && t.residual == s.residual
    && (if WillExit(s.flusher) then WillExit(t.flusher) && t.queue == s.queue else !WillExit(t.flusher))
    && (|t.queue| < |s.queue| || (t.queue == s.queue &&
          (|t.flusher.rest| < |s.flusher.rest| || (t.flusher.rest == s.flusher.rest &&
             (|t.flusher.buf| < |s.flusher.buf| || (t.flusher.buf == s.flusher.buf && Phase(t.flusher.pc) < Phase(s.flusher.pc)))))))
  }

  lemma AtHeadProgress(s: State)
    requires Inv(s) && s.flusher.pc.AtHead? && !FlusherIdle(s)
    ensures FlusherEnabled(s, NextFlush(s)) && Shrinks(s, FlusherApply(s, NextFlush(s)))
  {
    hide ChannelShape, TableShape, DrainShape, ShutdownShape, HandlersShape, Slots, Conserved, Metered, Stamp;
    if s.flusher.rest != [] {
    } else if s.flusher.buf != [] {
    } else {
    }
  }

  lemma FlushingProgress(s: State)
    requires Inv(s) && !s.flusher.pc.AtHead? && !s.flusher.pc.Exited?
    ensures FlusherEnabled(s, NextFlush(s)) && Shrinks(s, FlusherApply(s, NextFlush(s)))
  {
    if s.flusher.pc.Inserting? || s.flusher.pc.Metering? || s.flusher.pc.Clearing? {
      LandingProgress(s);
    } else {
      LosingProgress(s);
    }
  }

  lemma LandingProgress(s: State)
    requires s.flusher.pc.Inserting? || s.flusher.pc.Metering? || s.flusher.pc.Clearing?
    ensures FlusherEnabled(s, NextFlush(s)) && Shrinks(s, FlusherApply(s, NextFlush(s)))
  {
    hide Stamp;
    match s.flusher.pc {
      case Inserting => case Metering => case Clearing => case _ =>
    }
  }

  lemma LosingProgress(s: State)
    requires Inv(s) && (s.flusher.pc.WritingDlq? || s.flusher.pc.SettingFatal? || s.flusher.pc.Releasing?)
    ensures FlusherEnabled(s, NextFlush(s)) && Shrinks(s, FlusherApply(s, NextFlush(s)))
  {
    hide ChannelShape, TableShape, DrainShape, ShutdownShape, HandlersShape, Slots, Conserved, Metered, Stamp;
    match s.flusher.pc {
      case WritingDlq => case SettingFatal => case Releasing => case _ =>
    }
  }

  /** The flusher takes everything it will ever take. */
  lemma {:induction false} EmptyFlusher(s: State) returns (t: State)
    requires Inv(s)
    ensures Quietly(s, t) && FlusherIdle(t) && t.shutdown == s.shutdown && t.residual == s.residual
    ensures WillExit(s.flusher) ==> t.flusher.pc.Exited? && t.queue == s.queue
    ensures !WillExit(s.flusher) ==> t.queue == []
    decreases |s.queue|, |s.flusher.rest|, |s.flusher.buf|, Phase(s.flusher.pc)
  {
    if FlusherIdle(s) {
      t := s;
      QuietSelf(s);
      ExitedIsIdle(s);
    } else {
      if s.flusher.pc.AtHead? {
        AtHeadProgress(s);
      } else {
        FlushingProgress(s);
      }
      var step := F(NextFlush(s));
      CfgValid(s);
      StepKeeps(s, step);
      hide Inv, FlusherApply, FlusherEnabled, Quietly, FlusherIdle;
      t := EmptyFlusher(Apply(s, step));
      QuietStep(s, step, t);
    }
  }

  lemma ExitedIsIdle(s: State)
    requires Inv(s) && FlusherIdle(s)
    ensures s.flusher.rest == [] && s.flusher.buf == [] && (s.flusher.pc.AtHead? ==> !s.flusher.exiting)
  {
  }

  /** The shutdown captures and writes whatever it still can. */
  lemma {:induction false} FinishShutdown(s: State) returns (t: State)
    requires Inv(s) && HttpGone(s.shutdown)
    ensures Quietly(s, t) && t.closed && t.flusher == s.flusher && HttpGone(t.shutdown)
    ensures t.queue == if CanCapture(s.shutdown) then [] else s.queue
    ensures if s.shutdown.ReturnedFailed? then t.residual == s.residual else t.residual == []
    ensures t.shutdown.ReturnedFailed? ==> s.shutdown.ReturnedFailed?
    ensures !CanCapture(t.shutdown) && t.drain == s.drain && t.now == s.now && s.rows <= t.rows
    ensures CaptureMayWrite(s) ==> SomeReplayable(t.rows, t.now)
    decreases ShutdownRank(s.shutdown), |s.queue|
  {
    if s.shutdown.ReturnedClean? || s.shutdown.ReturnedCaptured? || s.shutdown.ReturnedFailed? {
      t := s;
      QuietSelf(s);
    } else {
      var step := NextShut(s);
      CfgValid(s);
      NextShutProgress(s);
      NextShutWrites(s);
      StepKeeps(s, S(step));
      Frame(s, S(step));
      hide Inv, ShutdownApply, ShutdownEnabled, Quietly, CaptureMayWrite, SomeReplayable;
      var mid := Apply(s, S(step));
      t := FinishShutdown(mid);
      QuietStep(s, S(step), t);
      if SomeReplayable(mid.rows, mid.now) { StillReplayable(mid.rows, t.rows, t.now); }
      assert s.rows <= t.rows by { Prefixes(s.rows, mid.rows, t.rows); }
    }
  }

  function ShutdownRank(pc: ShutdownPc): nat {
    match pc
    case HttpDown => 5
    case Waiting => 4
    case Capturing => 3
    case WritingResidual => 2
    case ReleasingResidual => 1
    case _ => 0
  }

  function NextShut(s: State): ShutdownStep {
    match s.shutdown
    case HttpDown => Close
    case Waiting => Expire
    case Capturing => if s.queue != [] then Capture else EndCapture
    case WritingResidual => WriteResidual(true)
    case _ => ReleaseResidual
  }

  /** One step nearer the end of the shutdown. */
  predicate Nearer(s: State, t: State) {
    && HttpGone(t.shutdown) && !t.shutdown.ReturnedFailed?
    && (ShutdownRank(t.shutdown) < ShutdownRank(s.shutdown)
        || (t.shutdown == s.shutdown && |t.queue| < |s.queue| && CanCapture(s.shutdown)))
    && (if CanCapture(s.shutdown) then CanCapture(t.shutdown) || t.queue == []
        else !CanCapture(t.shutdown) && t.queue == s.queue)
  }

  lemma NextShutProgress(s: State)
    requires HttpGone(s.shutdown) && ShutdownRank(s.shutdown) > 0
    ensures ShutdownEnabled(s, NextShut(s)) && Nearer(s, ShutdownApply(s, NextShut(s)))
  {
    hide Stamp;
    match s.shutdown {
      case HttpDown => case Waiting => case Capturing => case WritingResidual => case ReleasingResidual => case _ =>
    }
  }

  lemma NextShutWrites(s: State)
    requires Inv(s) && HttpGone(s.shutdown) && ShutdownRank(s.shutdown) > 0 && ShutdownEnabled(s, NextShut(s))
    ensures var t := ShutdownApply(s, NextShut(s));
            CaptureMayWrite(s) ==> CaptureMayWrite(t) || SomeReplayable(t.rows, t.now)
  {
    hide FlusherShape, TableShape, DrainShape, HandlersShape, Slots, Conserved, Metered, SomeReplayable, Config.ChanCap;
    match s.shutdown {
      case WritingResidual => NewRowReplayable(s.rows, s.nextRow, s.residual, s.now);
      case HttpDown => case Waiting => case Capturing => case ReleasingResidual => case _ =>
    }
  }

  lemma StillReplayable(rows: seq<Row>, later: seq<Row>, now: Instant)
    requires SomeReplayable(rows, now) && rows <= later
    ensures SomeReplayable(later, now)
  {
    var i :| 0 <= i < |rows| && Replayable(rows[i], now);
    assert later[i] == rows[i];
  }

  lemma Prefixes(a: seq<Row>, b: seq<Row>, c: seq<Row>)
    requires a <= b <= c
    ensures a <= c
  {
  }

  /** All slots but the stuck ones can be released without any handler moving. */
  lemma ReleaseAll(s: State) returns (t: State)
    requires Inv(s) && HttpGone(s.shutdown) && NoneSending(s)
    ensures Quietly(s, t) && t.closed && t.pending == StuckSlots(s)
  {
    var a := EmptyFlusher(s);
    ExitedIsIdle(a);
    t := FinishShutdown(a);
    assert Quietly(s, t) by { QuietTrans(s, a, t); }
    StuckIsPending(t);
    hide Inv;
    assert t.flusher.rest == [] && t.flusher.buf == [];
    assert Flat([]) == [];
  }

  lemma QuietTrans(s: State, a: State, t: State)
    requires Quietly(s, a) && Quietly(a, t)
    ensures Quietly(s, t)
  {
    hide Inv;
    ReachesTrans(s, a, t);
  }

  lemma ReachesTrans(s: State, a: State, t: State)
    requires Reaches(s, a) && Reaches(a, t)
    ensures Reaches(s, t)
  {
    hide Runs;
    var x :| Runs(s, x, a);
    var y :| Runs(a, y, t);
    RunsConcat(s, x, a, y, t);
  }

  // ---------------------------------------------------------------------------
  // What suffices for a panic
  // ---------------------------------------------------------------------------

  /** A handler that holds a reservation sends on the channel as soon as it is closed. */
  lemma ReservationPanics(s: State, h: nat)
    requires s.cfg.Valid() && (s.closed || s.shutdown.HttpDown?) && h < |s.handlers| && s.handlers[h].Reserved?
    ensures CanPanic(s)
    decreases !s.closed
  {
    if s.closed {
      var t := Apply(s, H(Send(h)));
      ReachesSelf(t);
      ReachesStep(s, H(Send(h)), t);
      assert t.handlers[h].Panicked?;
    } else {
      var c := Apply(s, S(Close));
      ReservationPanics(c, h);
      PanicLater(s, S(Close));
    }
  }

  lemma PanicLater(s: State, step: Step)
    requires s.cfg.Valid() && Enabled(s, step) && CanPanic(Apply(s, step))
    ensures CanPanic(s)
  {
    hide Enabled, Apply;
    var t :| Reaches(Apply(s, step), t) && SomePanicked(t);
    ReachesStep(s, step, t);
  }

  lemma CheckedPanics(s: State, h: nat)
    requires s.cfg.Valid() && s.closed && h < |s.handlers| && s.handlers[h].Checked?
    requires s.pending + |s.handlers[h].env.events| <= s.cfg.eventBuffer
    ensures CanPanic(s)
  {
    var a := Apply(s, H(Load(h)));
    var b := Apply(a, H(Swap(h)));
    assert b.handlers[h].Reserved? && b.closed;
    ReservationPanics(b, h);
    hide CanPanic, Apply, HandlerApply;
    PanicLater(a, H(Swap(h)));
    PanicLater(s, H(Load(h)));
  }

  lemma LoadedPanics(s: State, h: nat)
    requires s.cfg.Valid() && s.closed && h < |s.handlers| && s.handlers[h].Loaded?
    requires s.pending + |s.handlers[h].env.events| <= s.cfg.eventBuffer
    ensures CanPanic(s)
  {
    var a := Apply(s, H(Swap(h)));
    if a.handlers[h].Reserved? {
      ReservationPanics(a, h);
    } else {
      CheckedPanics(a, h);
    }
    PanicLater(s, H(Swap(h)));
  }

  lemma RoomyPanics(s: State, h: nat)
    requires Inv(s) && HttpGone(s.shutdown) && NoneSending(s) && Roomy(s, h)
    ensures CanPanic(s)
  {
    CfgValid(s);
    var t := ReleaseAll(s);
    hide Inv, StuckSlots;
    if t.handlers[h].Checked? {
      CheckedPanics(t, h);
    } else {
      LoadedPanics(t, h);
    }
    var u :| Reaches(t, u) && SomePanicked(u);
    ReachesTrans(s, t, u);
  }

  lemma SendingPanics(s: State, h: nat)
    requires Inv(s) && HttpGone(s.shutdown) && h < |s.handlers| && Sending(s.handlers[h])
    ensures CanPanic(s)
  {
    CfgValid(s);
    if s.handlers[h].Panicked? {
      ReachesSelf(s);
      assert SomePanicked(s);
    } else {
      ReservationPanics(s, h);
    }
  }

  /** Whoever is at its fatal check gets past it once the flag is down. */
  lemma OpenGatePanics(s: State, h: nat)
    requires Inv(s) && HttpGone(s.shutdown) && NoneSending(s) && AtGate(s, h) && !s.fatal
    ensures CanPanic(s)
  {
    CfgValid(s);
    var a := Apply(s, H(CheckFatal(h)));
    StepKeeps(s, H(CheckFatal(h)));
    assert NoneSending(a) && Roomy(a, h);
    hide Inv, Apply;
    RoomyPanics(a, h);
    PanicLater(s, H(CheckFatal(h)));
  }

  /** What the two goroutines do by themselves makes no more slots stuck. */
  lemma TakeAlone(s: State) returns (t: State)
    requires Inv(s) && ClearsAlone(s)
    ensures Quietly(s, t) && !t.fatal && t.shutdown == s.shutdown && StuckSlots(t) == StuckSlots(s)
  {
    t :| Reaches(s, t) && Alone(s, t) && !t.fatal;
    var steps :| Runs(s, steps, t);
    hide Inv, Runs;
    RunKeeps(s, steps, t);
  }

  /** A flag that can fall can do so while no handler moves and no more slots become stuck. */
  lemma FlagFalls(s: State) returns (t: State)
    requires Inv(s) && HttpGone(s.shutdown) && FlagCanFall(s)
    ensures Quietly(s, t) && !t.fatal && HttpGone(t.shutdown) && StuckSlots(t) == StuckSlots(s)
  {
    CfgValid(s);
    hide Inv, ClearsAlone, StuckSlots;
    if !s.fatal {
      t := s;
      QuietSelf(s);
    } else if FlusherMayLand(s) {
      ClearsByFlusher(s);
      t := TakeAlone(s);
    } else if DrainMayReplay(s) {
      ClearsByDrain(s);
      t := TakeAlone(s);
    } else if s.flusher.pc.WritingDlq? {
      ClearsByNewRow(s);
      t := TakeAlone(s);
    } else {
      var u := FinishShutdown(s);
      CapturedSlots(s, u);
      ClearsByDrain(u);
      t := TakeAlone(u);
      QuietTrans(s, u, t);
    }
  }

  lemma CapturedSlots(s: State, u: State)
    requires Inv(s) && CaptureMayWrite(s) && u.flusher == s.flusher && !CanCapture(u.shutdown) && !u.shutdown.ReturnedFailed?
    requires u.queue == if CanCapture(s.shutdown) then [] else s.queue
    ensures StuckSlots(u) == StuckSlots(s)
  {
    assert Flat([]) == [];
  }

  lemma GatePanics(s: State, h: nat)
    requires Inv(s) && HttpGone(s.shutdown) && NoneSending(s) && AtGate(s, h) && FlagCanFall(s)
    ensures CanPanic(s)
  {
    var t := FlagFalls(s);
    hide Inv, StuckSlots, FlagCanFall;
    OpenGatePanics(t, h);
    var u :| Reaches(t, u) && SomePanicked(u);
    ReachesTrans(s, t, u);
  }

  /** The exact condition: once the HTTP server is gone, some continuation sends on the closed
      channel if and only if a handler holds a reservation (or has sent already), or has room to
      reserve beyond the slots that stay stuck and is past its fatal check or may still get past it. */
  lemma CanPanicIff(s: State)
    requires Inv(s) && HttpGone(s.shutdown)
    ensures CanPanic(s) <==> !NoneSending(s) || Hopeful(s)
  {
    hide FlagCanFall, StuckSlots;
    if !NoneSending(s) {
      var i :| 0 <= i < |s.handlers| && Sending(s.handlers[i]);
      SendingPanics(s, i);
    } else if Hopeful(s) {
      var h: nat :| Roomy(s, h) || (AtGate(s, h) && FlagCanFall(s));
      if Roomy(s, h) {
        RoomyPanics(s, h);
      } else {
        GatePanics(s, h);
      }
    } else if CanPanic(s) {
      var t :| Reaches(s, t) && SomePanicked(t);
      var steps :| Runs(s, steps, t);
      PanicNeeds(s, steps, t);
      assert false;
    }
  }

  /** Just before the close it comes down to a handler in flight whose batch fits under the ceiling
      at all, and that is past its fatal check or may still get past it. */
  lemma CanPanicAtCloseIff(s: State)
    requires Reachable(s) && s.shutdown.HttpDown?
    ensures CanPanic(s) <==>
            exists h :: 0 <= h < |s.handlers| && !s.handlers[h].Finished() && |s.handlers[h].env.events| <= s.cfg.eventBuffer
                        && (s.handlers[h].Started? ==> FlagCanFall(s))
  {
    ReachableInv(s);
    var cfg: Config, now, disabled, before :| cfg.Valid() && Runs(Initial(cfg, now, disabled), before, s);
    OpenMeansNoPanic(Initial(cfg, now, disabled), before, s);
    hide Reachable, Runs, FlagCanFall, CanPanic;
    OpenAtHttpDown(s);
    CanPanicIff(s);
    ReservedFit(s);
    hide Inv;
    if h :| 0 <= h < |s.handlers| && !s.handlers[h].Finished() && |s.handlers[h].env.events| <= s.cfg.eventBuffer
            && (s.handlers[h].Started? ==> FlagCanFall(s)) {
      assert Sending(s.handlers[h]) || Roomy(s, h) || (AtGate(s, h) && FlagCanFall(s));
    }
  }

  lemma OpenAtHttpDown(s: State)
    requires Inv(s) && s.shutdown.HttpDown?
    ensures !s.closed
  {
  }

  lemma ReservedFit(s: State)
    requires Inv(s)
    ensures forall h: nat :: h < |s.handlers| && s.handlers[h].Reserved? ==> |s.handlers[h].env.events| <= s.cfg.eventBuffer
  {
    forall h: nat | h < |s.handlers| && s.handlers[h].Reserved? ensures |s.handlers[h].env.events| <= s.cfg.eventBuffer {
      ReservationCounts(s.handlers, h);
    }
  }

  /** The same argument decides recovery at every point of the shutdown: with no handler that can
      still reserve, the flag can clear in some continuation if and only if something left in the
      service can clear it. */
  lemma FlagFallsIff(s: State)
    requires Inv(s) && HttpGone(s.shutdown) && NoneSending(s) && forall h: nat :: !Roomy(s, h)
    ensures CanClear(s) <==> FlagCanFall(s)
  {
    hide Inv, StuckSlots, FlagCanFall, HttpGone;
    if FlagCanFall(s) {
      var t := FlagFalls(s);
    } else if CanClear(s) {
      var t :| Reaches(s, t) && !t.fatal;
      var steps :| Runs(s, steps, t);
      StaysFatal(s, steps, t);
      assert false;
    }
  }

  lemma {:induction false} StaysFatal(s: State, steps: seq<Step>, t: State)
    requires Inv(s) && HttpGone(s.shutdown) && NoneSending(s) && !FlagCanFall(s) && !Hopeful(s) && Runs(s, steps, t)
    ensures t.fatal
    decreases |steps|
  {
    if steps != [] {
      CfgValid(s);
      var mid := Apply(s, steps[0]);
      StepKeeps(s, steps[0]);
      HttpStaysGone(s, steps[0]);
      hide Inv, Apply, Enabled, Hopeful, NoneSending, HttpGone, FlagCanFall;
      if !NoneSending(mid) { FirstReservation(s, steps[0]); }
      if Hopeful(mid) { HopeComesBack(s, steps[0]); }
      NotASend(s, steps[0]);
      if FlagCanFall(mid) { FallComesBack(s, steps[0]); }
      StaysFatal(mid, steps[1..], t);
    }
  }

  /** And it happens: every service with room for one event can be driven to a send on the closed
      channel by a forced stop. */
  lemma ForcedStopCanPanic(cfg: Config)
    requires cfg.Valid() && cfg.eventBuffer >= 1
    ensures exists t :: Reachable(t) && t.cfg == cfg && SomePanicked(t)
  {
    InitialReachable(cfg, 0);
    var s := Reserve(Initial(cfg, 0, false), Envelope("", [ZERO_EVENT]));
    hide Reachable;
    ReachableStep(s, S(Disable));
    var a := Apply(s, S(Disable));
    ReachableStep(a, S(StopHttp(true)));
    var b := Apply(a, S(StopHttp(true)));
    ReachableStep(b, S(Close));
    var c := Apply(b, S(Close));
    ReachableStep(c, H(Send(0)));
    var t := Apply(c, H(Send(0)));
    assert t.handlers[0].Panicked?;
  }
}
