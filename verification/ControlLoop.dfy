/** The whole loop (main.c): processor, servo engine and clocks, message by message. */
module ControlLoop {
  import opened Servo
  import opened Tmv
  import C = ClockAdj
  import T = TsProc
  import U = ClockUpdate
  import MovingAverage
  import LinReg
  import LinRegRun
  import LinRegServo
  import NtpShm
  import PiServo

  // ---- Any of the three engines --------------------------------------------------------------

  datatype EngineState = PiState(pi: PiServo.System)
                       | LinRegState(linreg: LinRegRun.System)
                       | ShmState(common: Common, shm: NtpShm.Shm, leap: int)

  /** What servo_sample and servo_rate_ratio answer. */
  datatype Response = Response(verdict: Verdict, adjustment: real, rateRatio: real)

  /** What the linear regression engine demands of its next sample: that no division is by zero. */
  ghost predicate EngineReady(e: EngineState, offset: int, localTs: int, weight: real) {
    e.LinRegState? ==> LinRegRun.Defined(e.linreg, LinRegRun.Event.Sample(offset, localTs, weight))
  }

  ghost function PiResponse(y: PiServo.System, offset: int, localTs: int, weight: real): (EngineState, Response) {
    var e := PiServo.Event.Sample(offset, localTs, weight);
    var answer := PiServo.Engine(y, e).1;
    (PiState(PiServo.Next(y, e)), Response(Reported(y.common, answer.verdict, offset), answer.adjustment, 1.0))
  }

  ghost function LinRegResponse(y: LinRegRun.System, offset: int, localTs: int, weight: real): (EngineState, Response)
    requires LinRegRun.Defined(y, LinRegRun.Event.Sample(offset, localTs, weight))
  {
    var (lin, answer) := LinReg.Sampled(y.lin, y.common, offset, localTs, weight);
    (LinRegState(LinRegRun.System(After(y.common, answer.verdict, offset), lin)),
     Response(Reported(y.common, answer.verdict, offset), answer.adjustment, lin.frequencyRatio))
  }

  ghost function ShmResponse(c: Common, shm: NtpShm.Shm, leap: int, offset: int, localTs: int)
    : (EngineState, Response)
  {
    (ShmState(After(c, Unlocked, offset),
              NtpShm.Shm(1, shm.count + 2, true, NtpShm.Published(NtpShm.Call(offset, localTs, leap))), leap),
     Response(Unlocked, 0.0, 1.0))
  }

  ghost function Respond(e: EngineState, offset: int, localTs: int, weight: real): (EngineState, Response)
    requires EngineReady(e, offset, localTs, weight)
  {
    match e
    case PiState(y) => PiResponse(y, offset, localTs, weight)
    case LinRegState(y) => LinRegResponse(y, offset, localTs, weight)
    case ShmState(c, shm, leap) => ShmResponse(c, shm, leap, offset, localTs)
  }

  // ---- One message ---------------------------------------------------------------------------

  datatype Message = Sync(t1: int, t2: int) | DelayRequest(t3: int, t4: int)

  /** The processor, the engine, and the clocks: the one whose frequency and phase are set, and the one that is
      stepped. */
  datatype Loop = Loop(
    tsp: T.State, engine: EngineState, ticks: C.Ticks, realtime: bool, kernel: C.Kernel, phase: int, reading: int)

  ghost predicate Shape(l: Loop) {
    T.Shape(l.tsp) && (l.ticks.nominal != 0 ==> l.ticks.hz > 0)
  }

  /** The processor once a message's time stamps have been taken in. */
  function Fed(l: Loop, m: Message): T.State {
    match m
    case Sync(t1, t2) => l.tsp.(t1 := t1, t2 := t2)
    case DelayRequest(t3, t4) => l.tsp.(t3 := t3, t4 := t4)
  }

  /** Whether the message is a sync message that the servo gets to see. */
  predicate Serves(l: Loop, m: Message) {
    m.Sync? && T.CanOffset(Fed(l, m))
  }

  ghost predicate Ready(l: Loop, m: Message) {
    Serves(l, m) ==>
      var update := T.OffsetAnswer(Fed(l, m));
      EngineReady(l.engine, update.offset, m.t2, update.weight)
  }

  /** The engine's answer to the message. */
  ghost function Answered(l: Loop, m: Message): (EngineState, Response)
    requires Serves(l, m) && Ready(l, m)
  {
    var update := T.OffsetAnswer(Fed(l, m));
    Respond(l.engine, update.offset, m.t2, update.weight)
  }

  /** The frequency is set while the servo jumps or is locked, and left alone otherwise. */
  function Driven(k: C.Kernel, t: C.Ticks, realtime: bool, r: Response): C.Kernel
    requires t.nominal != 0 ==> t.hz != 0
  {
    if r.verdict.Jump? || r.verdict.Locked? then C.SetFreq(k, t, realtime, -r.adjustment) else k
  }

  /** The phase is handed over instead once the servo is stable. */
  function Slewed(phase: int, r: Response): int {
    if r.verdict.LockedStable? then Truncate(-r.adjustment) else phase
  }

  function SteppedBy(offset: int, verdict: Verdict): int {
    if verdict.Jump? then -offset else 0
  }

  ghost function Served(l: Loop, fed: T.State, offset: int, e: EngineState, r: Response): Loop
    requires Shape(l) && T.Shape(fed)
  {
    Loop(U.Settled(fed, r.verdict, r.rateRatio), e, l.ticks, l.realtime,
         Driven(l.kernel, l.ticks, l.realtime, r), Slewed(l.phase, r), l.reading + SteppedBy(offset, r.verdict))
  }

  ghost function Next(l: Loop, m: Message): Loop
    requires Shape(l) && Ready(l, m)
  {
    var fed := Fed(l, m);
    if m.DelayRequest? then l.(tsp := T.AfterDelay(fed))
    else if !T.CanOffset(fed) then l.(tsp := fed)
    else
      var (e, r) := Answered(l, m);
      Served(l, fed, T.OffsetAnswer(fed).offset, e, r)
  }

  /** The step component by component. */
  lemma NextServes(l: Loop, m: Message, l': Loop)
    requires Shape(l) && Ready(l, m) && Serves(l, m)
    requires var fed, (e, r) := Fed(l, m), Answered(l, m);
             && l'.tsp == U.Settled(fed, r.verdict, r.rateRatio) && l'.engine == e
             && l'.ticks == l.ticks && l'.realtime == l.realtime
             && l'.kernel == Driven(l.kernel, l.ticks, l.realtime, r) && l'.phase == Slewed(l.phase, r)
             && l'.reading == l.reading + SteppedBy(T.OffsetAnswer(fed).offset, r.verdict)
    ensures l' == Next(l, m)
  {
  }

  lemma NextSkips(l: Loop, m: Message, l': Loop)
    requires Shape(l) && Ready(l, m) && m.Sync? && !Serves(l, m) && l' == l.(tsp := Fed(l, m))
    ensures l' == Next(l, m)
  {
  }

  /** The processor in the loop takes the steps of ClockUpdate's runs, with the verdicts and ratios of the engine. */
  function ProcessorEvent(m: Message, r: Response): U.Event {
    match m
    case Sync(t1, t2) => U.Sync(t1, t2, r.verdict, r.rateRatio)
    case DelayRequest(t3, t4) => U.DelayRequest(t3, t4)
  }

  lemma ProcessorStep(l: Loop, m: Message, r: Response)
    requires Shape(l) && Ready(l, m) && (Serves(l, m) ==> r == Answered(l, m).1)
    ensures Next(l, m).tsp == U.Next(l.tsp, ProcessorEvent(m, r))
  {
  }

  // ---- Whole runs ----------------------------------------------------------------------------

  ghost predicate IsRun(run: seq<Loop>, messages: seq<Message>) {
    && |run| == |messages| + 1
    && forall i :: 0 <= i < |messages| ==> StepAt(run, messages, i)
  }

  ghost predicate StepAt(run: seq<Loop>, messages: seq<Message>, i: nat)
    requires i < |messages| && |run| == |messages| + 1
  {
    Shape(run[i]) && Ready(run[i], messages[i]) && run[i + 1] == Next(run[i], messages[i])
  }

  lemma StepOf(run: seq<Loop>, messages: seq<Message>, i: nat)
    requires IsRun(run, messages) && i < |messages|
    ensures Shape(run[i]) && Ready(run[i], messages[i]) && run[i + 1] == Next(run[i], messages[i])
  {
    assert StepAt(run, messages, i);
  }

  /** For each message that the shared memory engine gets to see, it publishes the local time of arrival, and the remote
      time at it: the local one less the offset. */
  lemma ShmPublishes(l: Loop, m: Message)
    requires Shape(l) && Ready(l, m) && Serves(l, m) && l.engine.ShmState?
    requires var offset := T.OffsetAnswer(Fed(l, m)).offset; 0 <= m.t2 < TWO_64 && 0 <= m.t2 - offset < TWO_64
    ensures var e' := Next(l, m).engine;
            && e'.ShmState? && e'.shm.valid && e'.shm.count == l.engine.shm.count + 2
            && e'.shm.record.receiveSec * 1000000000 + e'.shm.record.receiveNSec == m.t2
            && e'.shm.record.clockSec * 1000000000 + e'.shm.record.clockNSec
               == m.t2 - T.OffsetAnswer(Fed(l, m)).offset
            && e'.shm.record.leap == (if l.engine.leap == 1 then 1 else if l.engine.leap == -1 then 2 else 0)
  {
    NtpShm.PublishedTimes(NtpShm.Call(T.OffsetAnswer(Fed(l, m)).offset, m.t2, l.engine.leap));
  }

  // ---- The processor's part of a run ------------------------------------------------------------

  ghost function ResponseTo(l: Loop, m: Message): Response
    requires Ready(l, m)
  {
    if Serves(l, m) then Answered(l, m).1 else Response(Unlocked, 0.0, 1.0)
  }

  /** The messages as the processor's runs know them. */
  ghost function ProcessorEvents(run: seq<Loop>, messages: seq<Message>): (events: seq<U.Event>)
    requires IsRun(run, messages)
    ensures |events| == |messages|
  {
    seq(|messages|, i requires 0 <= i < |messages| =>
      StepOf(run, messages, i);
      ProcessorEvent(messages[i], ResponseTo(run[i], messages[i])))
  }

  lemma {:induction false} ProcessorRuns(run: seq<Loop>, messages: seq<Message>, i: nat)
    requires IsRun(run, messages) && Shape(run[0]) && i <= |messages|
    ensures U.Before(run[0].tsp, ProcessorEvents(run, messages), i) == run[i].tsp
  {
    if i > 0 {
      ProcessorRuns(run, messages, i - 1);
      U.BeforeNext(run[0].tsp, ProcessorEvents(run, messages), i - 1);
      StepOf(run, messages, i - 1);
      ProcessorStep(run[i - 1], messages[i - 1], ResponseTo(run[i - 1], messages[i - 1]));
    }
  }

  /** The clock is stepped by what the processor's run says. */
  lemma NextReading(l: Loop, m: Message)
    requires Shape(l) && Ready(l, m)
    ensures Next(l, m).reading == l.reading + U.Stepped(l.tsp, ProcessorEvent(m, ResponseTo(l, m)))
  {
  }

  /** How far the stepped clock is ahead in a run that it enters theta ahead. */
  ghost function AheadAt(run: seq<Loop>, theta: int, i: nat): int
    requires i < |run|
  {
    theta + (run[i].reading - run[0].reading)
  }

  lemma {:induction false} ReadingIsAhead(run: seq<Loop>, messages: seq<Message>, theta: int, i: nat)
    requires IsRun(run, messages) && Shape(run[0]) && i <= |messages|
    ensures AheadAt(run, theta, i) == U.Ahead(run[0].tsp, theta, ProcessorEvents(run, messages), i)
  {
    if i > 0 {
      ReadingIsAhead(run, messages, theta, i - 1);
      ProcessorRuns(run, messages, i - 1);
      StepOf(run, messages, i - 1);
      NextReading(run[i - 1], messages[i - 1]);
    }
  }

  /** The message was delayed by something in [lo, hi] while the clock is ahead by now, what is computed from it fits in
      64 bits, and the engine answers rate ratio 1. */
  ghost predicate Plausible(l: Loop, m: Message, now: int, lo: int, hi: int)
    requires Shape(l) && Ready(l, m)
  {
    match m
    case Sync(t1, t2) =>
      lo <= t2 - t1 - now <= hi && T.OffsetFits(Fed(l, m)) && ResponseTo(l, m).rateRatio == 1.0
    case DelayRequest(t3, t4) => lo <= t4 - t3 + now <= hi && T.DelayFits(Fed(l, m))
  }

  ghost predicate PlausibleAt(run: seq<Loop>, messages: seq<Message>, theta: int, i: nat, lo: int, hi: int)
    requires IsRun(run, messages) && i < |messages|
  {
    StepOf(run, messages, i);
    Plausible(run[i], messages[i], AheadAt(run, theta, i), lo, hi)
  }

  ghost predicate PlausibleRun(run: seq<Loop>, messages: seq<Message>, theta: int, lo: int, hi: int)
    requires IsRun(run, messages)
  {
    forall i :: 0 <= i < |messages| ==> PlausibleAt(run, messages, theta, i, lo, hi)
  }

  lemma ProcessorPlausible(run: seq<Loop>, messages: seq<Message>, theta: int, lo: int, hi: int)
    requires IsRun(run, messages) && Shape(run[0]) && PlausibleRun(run, messages, theta, lo, hi)
    ensures U.PlausibleRun(run[0].tsp, theta, ProcessorEvents(run, messages), lo, hi)
  {
    forall i | 0 <= i < |messages|
      ensures U.Plausible(run[0].tsp, theta, ProcessorEvents(run, messages), i, lo, hi)
    {
      assert PlausibleAt(run, messages, theta, i, lo, hi);
      ProcessorRuns(run, messages, i);
      ReadingIsAhead(run, messages, theta, i);
    }
  }

  /** In the whole loop, every offset handed to an engine is near the truth, and after a JUMP the stepped clock is that
      near the remote one, from wherever it started. */
  lemma LoopLands(run: seq<Loop>, messages: seq<Message>, theta: int, i: nat, lo: int, hi: int)
    requires IsRun(run, messages) && Shape(run[0]) && T.Bounded(run[0].tsp, theta, lo, hi) && i < |messages|
    requires PlausibleRun(run, messages, theta, lo, hi)
    ensures Ready(run[i], messages[i])
    ensures Serves(run[i], messages[i]) ==>
              && U.Near(run[0].tsp.mode,
                        T.OffsetAnswer(Fed(run[i], messages[i])).offset - AheadAt(run, theta, i), lo, hi)
              && (Answered(run[i], messages[i]).1.verdict.Jump? ==>
                    U.Near(run[0].tsp.mode, AheadAt(run, theta, i + 1), lo, hi))
  {
    ProcessorPlausible(run, messages, theta, lo, hi);
    U.JumpLands(run[0].tsp, theta, ProcessorEvents(run, messages), i, lo, hi);
    ProcessorRuns(run, messages, i);
    ReadingIsAhead(run, messages, theta, i);
    ReadingIsAhead(run, messages, theta, i + 1);
    StepOf(run, messages, i);
  }

  /** Only the linear regression answers rate ratios other than 1. */
  lemma {:induction false} RatioStaysOne(run: seq<Loop>, messages: seq<Message>, i: nat)
    requires IsRun(run, messages) && i < |messages| && !run[0].engine.LinRegState?
    ensures !run[i].engine.LinRegState? && Ready(run[i], messages[i])
    ensures ResponseTo(run[i], messages[i]).rateRatio == 1.0
  {
    StepOf(run, messages, i);
    if i > 0 {
      RatioStaysOne(run, messages, i - 1);
      StepOf(run, messages, i - 1);
    }
  }

  /** The rate ratio times the clock's rate is the slope of the chosen line. */
  ghost predicate RatioHolds(lin: LinReg.State) {
    && |lin.results| == 5 && 2 <= lin.size <= 6
    && lin.frequencyRatio * (1.0 + lin.clockFreq / 1000000000.0) == lin.results[lin.size - 2].slope
  }

  lemma LinRegRatio(y: LinRegRun.System, offset: int, localTs: int, weight: real)
    requires LinRegRun.Defined(y, LinRegRun.Event.Sample(offset, localTs, weight))
    ensures var (lin, answer) := LinReg.Sampled(y.lin, y.common, offset, localTs, weight);
            !answer.verdict.Unlocked? ==> RatioHolds(lin)
  {
    var t := LinReg.TakenIn(y.lin, offset, localTs, weight);
    if t.size >= 2 {
      SteeredRatio(t, y.common.maxFrequency);
      SteeredRatio(LinReg.Stepped(t, offset), y.common.maxFrequency);
    }
  }

  lemma SteeredRatio(st: LinReg.State, limit: real)
    requires |st.results| == 5 && 2 <= st.size <= 6 && st.updateInterval != 0.0 && 0.0 <= limit < 1000000000.0
    ensures RatioHolds(LinReg.Steered(st, limit))
  {
    LinReg.RatePositive(LinReg.Steered(st, limit).clockFreq);
  }

  lemma ResponseRatio(e: EngineState, offset: int, localTs: int, weight: real)
    requires EngineReady(e, offset, localTs, weight) && e.LinRegState?
    ensures var (e', r) := Respond(e, offset, localTs, weight);
            && e'.LinRegState? && r.rateRatio == e'.linreg.lin.frequencyRatio
            && (!r.verdict.Unlocked? ==> RatioHolds(e'.linreg.lin))
  {
    LinRegRatio(e.linreg, offset, localTs, weight);
  }

  lemma NextRatio(l: Loop, m: Message)
    requires Shape(l) && Ready(l, m) && Serves(l, m)
    ensures Next(l, m).engine == Answered(l, m).0 && Next(l, m).tsp.rateRatio == Answered(l, m).1.rateRatio
  {
  }

  /** So it turns a local interval, of which the clock shows 1 + clockFreq / 10^9 as much as its own time, into remote
      time on the fitted line. */
  lemma RatioConverts(lin: LinReg.State, local: real, own: real)
    requires RatioHolds(lin) && local == own * (1.0 + lin.clockFreq / 1000000000.0)
    ensures local * lin.frequencyRatio == own * lin.results[lin.size - 2].slope
  {
    var rate := 1.0 + lin.clockFreq / 1000000000.0;
    assert local * lin.frequencyRatio == own * (lin.frequencyRatio * rate);
  }

  /** That ratio is what the processor converts with from the next message on. */
  lemma RatioReachesProcessor(l: Loop, m: Message)
    requires Shape(l) && Ready(l, m) && Serves(l, m) && l.engine.LinRegState?
    ensures Next(l, m).engine.LinRegState?
    ensures Next(l, m).tsp.rateRatio == Next(l, m).engine.linreg.lin.frequencyRatio
    ensures !Answered(l, m).1.verdict.Unlocked? ==> RatioHolds(Next(l, m).engine.linreg.lin)
  {
    var update := T.OffsetAnswer(Fed(l, m));
    ResponseRatio(l.engine, update.offset, m.t2, update.weight);
    NextRatio(l, m);
  }

  /** In the whole loop, too, the messages alone tell which sync messages an engine gets to see. */
  lemma ServedIff(run: seq<Loop>, messages: seq<Message>, filterType: T.FilterType, i: nat)
    requires IsRun(run, messages) && Shape(run[0]) && i < |messages| && messages[i].Sync?
    requires run[0].tsp == T.Created(run[0].tsp.mode, filterType, run[0].tsp.len)
    requires U.Stamped(ProcessorEvents(run, messages))
    ensures var mode, events := run[0].tsp.mode, ProcessorEvents(run, messages);
            Serves(run[i], messages[i]) <==> U.Answers(mode, events, U.JumpsBefore(mode, events, i), i)
  {
    ProcessorRuns(run, messages, i);
    U.AnsweredIff(run[0].tsp.mode, filterType, run[0].tsp.len, ProcessorEvents(run, messages), i);
  }

  // ---- What the kernel is set to ----------------------------------------------------------------

  /** What the engine takes its output to be: the opposite of the frequency it believes the clock to have. */
  function Output(e: EngineState): real {
    match e
    case PiState(y) => y.pi.lastFreq
    case LinRegState(y) => -y.lin.clockFreq
    case ShmState(_, _, _) => 0.0
  }

  function CommonOf(e: EngineState): Common {
    match e
    case PiState(y) => y.common
    case LinRegState(y) => y.common
    case ShmState(c, _, _) => c
  }

  /** The engine remembers its answer as its output, and an UNLOCKED answer repeats the output before. */
  lemma ResponseIsOutput(e: EngineState, offset: int, localTs: int, weight: real)
    requires EngineReady(e, offset, localTs, weight)
    ensures var (e', r) := Respond(e, offset, localTs, weight);
            && Output(e') == r.adjustment && (r.verdict.Unlocked? ==> Output(e') == Output(e))
            && CommonOf(e').maxFrequency == CommonOf(e).maxFrequency
            && CommonOf(e').offsetThreshold == CommonOf(e).offsetThreshold
            && (r.verdict.LockedStable? ==> CommonOf(e).offsetThreshold != 0)
  {
    match e
    case PiState(y) =>
    case LinRegState(y) =>
      LinRegOutput(y, offset, localTs, weight);
    case ShmState(_, _, _) =>
  }

  lemma LinRegOutput(y: LinRegRun.System, offset: int, localTs: int, weight: real)
    requires LinRegRun.Defined(y, LinRegRun.Event.Sample(offset, localTs, weight))
    ensures var (lin, answer) := LinReg.Sampled(y.lin, y.common, offset, localTs, weight);
            && -lin.clockFreq == answer.adjustment && !answer.verdict.LockedStable?
            && (answer.verdict.Unlocked? ==> lin.clockFreq == y.lin.clockFreq)
            && (!answer.verdict.Unlocked? ==> -y.common.maxFrequency <= lin.clockFreq <= y.common.maxFrequency)
  {
  }

  // ---- Whether the kernel runs at the frequency the engine believes in -------------------------

  ghost predicate Tuned(l: Loop)
    requires Shape(l)
  {
    l.kernel == C.SetFreq(l.kernel, l.ticks, l.realtime, -Output(l.engine))
  }

  /** The adjustment that set_freq was last given, if any. */
  datatype Setting = Untouched | Set(adjustment: real)

  predicate Sets(r: Response) {
    r.verdict.Jump? || r.verdict.Locked?
  }

  /** What a message makes of the last setting. */
  ghost function NextSetting(l: Loop, m: Message, setting: Setting): Setting
    requires Ready(l, m)
  {
    if Serves(l, m) && Sets(Answered(l, m).1) then Set(Answered(l, m).1.adjustment) else setting
  }

  ghost function LastSet(run: seq<Loop>, messages: seq<Message>, n: nat): Setting
    requires IsRun(run, messages) && n <= |messages|
  {
    if n == 0 then Untouched
    else
      StepOf(run, messages, n - 1);
      NextSetting(run[n - 1], messages[n - 1], LastSet(run, messages, n - 1))
  }

  /** Whether the engine has answered LOCKED_STABLE since. */
  ghost predicate StableSince(run: seq<Loop>, messages: seq<Message>, n: nat)
    requires IsRun(run, messages) && n <= |messages|
  {
    n > 0 && (
      StepOf(run, messages, n - 1);
      var l, m := run[n - 1], messages[n - 1];
      if Serves(l, m) && !Answered(l, m).1.verdict.Unlocked? then Answered(l, m).1.verdict.LockedStable?
      else StableSince(run, messages, n - 1))
  }

  function WithSetting(k: C.Kernel, t: C.Ticks, realtime: bool, setting: Setting): C.Kernel
    requires t.nominal != 0 ==> t.hz != 0
  {
    match setting
    case Untouched => k
    case Set(adjustment) => C.SetFreq(k, t, realtime, -adjustment)
  }

  /** The kernel as the run's settings leave it. */
  ghost predicate Holds(first: Loop, l: Loop, setting: Setting)
    requires Shape(first)
  {
    && Shape(l) && l.ticks == first.ticks && l.realtime == first.realtime
    && l.kernel == WithSetting(first.kernel, first.ticks, first.realtime, setting)
  }

  lemma NextShape(l: Loop, m: Message)
    requires Shape(l) && Ready(l, m)
    ensures Shape(Next(l, m)) && Next(l, m).ticks == l.ticks && Next(l, m).realtime == l.realtime
    ensures Next(l, m).kernel ==
            if Serves(l, m) && Sets(Answered(l, m).1)
            then C.SetFreq(l.kernel, l.ticks, l.realtime, -Answered(l, m).1.adjustment) else l.kernel
    ensures Next(l, m).engine == if Serves(l, m) then Answered(l, m).0 else l.engine
  {
  }

  lemma SetAgain(k: C.Kernel, t: C.Ticks, realtime: bool, f: real, g: real)
    requires t.nominal != 0 ==> t.hz != 0
    ensures C.SetFreq(C.SetFreq(k, t, realtime, f), t, realtime, g) == C.SetFreq(k, t, realtime, g)
  {
  }

  lemma NextHolds(first: Loop, l: Loop, m: Message, setting: Setting)
    requires Shape(first) && Ready(l, m) && Holds(first, l, setting)
    ensures Holds(first, Next(l, m), NextSetting(l, m, setting))
  {
    NextShape(l, m);
    if Serves(l, m) && Sets(Answered(l, m).1) && setting.Set? {
      SetAgain(first.kernel, first.ticks, first.realtime, -setting.adjustment, -Answered(l, m).1.adjustment);
    }
  }

  /** In every run the kernel holds exactly what the last JUMP or LOCKED set. */
  lemma {:induction false} KernelHoldsLastSet(run: seq<Loop>, messages: seq<Message>, n: nat)
    requires IsRun(run, messages) && Shape(run[0]) && n <= |messages|
    ensures Holds(run[0], run[n], LastSet(run, messages, n))
  {
    if n > 0 {
      KernelHoldsLastSet(run, messages, n - 1);
      StepOf(run, messages, n - 1);
      NextHolds(run[0], run[n - 1], messages[n - 1], LastSet(run, messages, n - 1));
    }
  }

  lemma NextOutput(l: Loop, m: Message)
    requires Shape(l) && Ready(l, m)
    ensures var l' := Next(l, m);
            && CommonOf(l'.engine).maxFrequency == CommonOf(l.engine).maxFrequency
            && CommonOf(l'.engine).offsetThreshold == CommonOf(l.engine).offsetThreshold
            && (if Serves(l, m) && !Answered(l, m).1.verdict.Unlocked?
                then Output(l'.engine) == Answered(l, m).1.adjustment
                else Output(l'.engine) == Output(l.engine))
            && (Serves(l, m) && Answered(l, m).1.verdict.LockedStable? ==> CommonOf(l.engine).offsetThreshold != 0)
  {
    NextShape(l, m);
    if Serves(l, m) {
      var update := T.OffsetAnswer(Fed(l, m));
      ResponseIsOutput(l.engine, update.offset, m.t2, update.weight);
    }
  }

  function LastOutput(setting: Setting, first: real): real {
    if setting.Set? then setting.adjustment else first
  }

  lemma OutputStep(l: Loop, m: Message, setting: Setting, first: real)
    requires Shape(l) && Ready(l, m)
    requires if Serves(l, m) && !Answered(l, m).1.verdict.Unlocked? then !Answered(l, m).1.verdict.LockedStable?
             else Output(l.engine) == LastOutput(setting, first)
    ensures Output(Next(l, m).engine) == LastOutput(NextSetting(l, m, setting), first)
  {
    NextOutput(l, m);
  }

  /** As long as the servo has not been stable since, the last setting is also what the engine believes. */
  lemma {:induction false} OutputIsLastSet(run: seq<Loop>, messages: seq<Message>, n: nat)
    requires IsRun(run, messages) && n <= |messages| && !StableSince(run, messages, n)
    ensures Output(run[n].engine) == LastOutput(LastSet(run, messages, n), Output(run[0].engine))
  {
    if n > 0 {
      StepOf(run, messages, n - 1);
      var l, m := run[n - 1], messages[n - 1];
      if !Serves(l, m) || Answered(l, m).1.verdict.Unlocked? {
        OutputIsLastSet(run, messages, n - 1);
      }
      OutputStep(l, m, LastSet(run, messages, n - 1), Output(run[0].engine));
    }
  }

  /** Two frequencies that are one to the kernel: the same shift of the tick, where that is used, and the same whole
      units of what is left. */
  predicate SameSplit(t: C.Ticks, realtime: bool, f: real, g: real)
    requires t.nominal != 0 ==> t.hz != 0
  {
    if C.UsesTick(t, realtime)
    then && C.Shift(t, f) == C.Shift(t, g)
         && Truncate(C.Remainder(t, f) * C.UNITS_PER_PPB) == Truncate(C.Remainder(t, g) * C.UNITS_PER_PPB)
    else Truncate(f * C.UNITS_PER_PPB) == Truncate(g * C.UNITS_PER_PPB)
  }

  lemma SetAlike(k: C.Kernel, t: C.Ticks, realtime: bool, f: real, g: real)
    requires t.nominal != 0 ==> t.hz != 0
    ensures C.SetFreq(k, t, realtime, f) == C.SetFreq(k, t, realtime, g) <==> SameSplit(t, realtime, f, g)
  {
  }

  /** The kernel takes f for what the engine believes in. */
  ghost predicate Alike(l: Loop, f: real)
    requires Shape(l)
  {
    SameSplit(l.ticks, l.realtime, f, -Output(l.engine))
  }

  /** Kernel and engine agree exactly when the servo was not stable, or its answer is one with the setting. */
  ghost predicate TunedUnless(l: Loop, stable: bool, adjustment: real) {
    Shape(l) && (Tuned(l) <==> !stable || Alike(l, -adjustment))
  }

  lemma TunedIff(first: Loop, l: Loop, adjustment: real, stable: bool)
    requires Shape(first) && Holds(first, l, Set(adjustment)) && (!stable ==> Output(l.engine) == adjustment)
    ensures TunedUnless(l, stable, adjustment)
  {
    SetAgain(first.kernel, first.ticks, first.realtime, -adjustment, -Output(l.engine));
    SetAlike(first.kernel, first.ticks, first.realtime, -adjustment, -Output(l.engine));
  }

  /** Once a frequency has been set, the kernel runs at the frequency the engine believes in exactly when the servo has
      not been stable since, or its stable answer splits into the same tick and the same whole units. */
  lemma KernelMatchesIff(run: seq<Loop>, messages: seq<Message>, n: nat)
    requires IsRun(run, messages) && Shape(run[0]) && n <= |messages| && LastSet(run, messages, n).Set?
    ensures TunedUnless(run[n], StableSince(run, messages, n), LastSet(run, messages, n).adjustment)
  {
    MatchesNow(run, messages, n, LastSet(run, messages, n).adjustment, StableSince(run, messages, n));
  }

  lemma MatchesNow(run: seq<Loop>, messages: seq<Message>, n: nat, adjustment: real, stable: bool)
    requires IsRun(run, messages) && Shape(run[0]) && n <= |messages|
    requires LastSet(run, messages, n) == Set(adjustment) && (stable <==> StableSince(run, messages, n))
    ensures TunedUnless(run[n], stable, adjustment)
  {
    HoldsWhatItBelieves(run, messages, n, adjustment, stable);
    TunedIff(run[0], run[n], adjustment, stable);
  }

  lemma HoldsWhatItBelieves(run: seq<Loop>, messages: seq<Message>, n: nat, adjustment: real, stable: bool)
    requires IsRun(run, messages) && Shape(run[0]) && n <= |messages|
    requires LastSet(run, messages, n) == Set(adjustment) && (stable <==> StableSince(run, messages, n))
    ensures Holds(run[0], run[n], Set(adjustment)) && (!stable ==> Output(run[n].engine) == adjustment)
  {
    KernelHoldsLastSet(run, messages, n);
    if !stable {
      OutputIsLastSet(run, messages, n);
    }
  }

  // ---- Before the first setting ----------------------------------------------------------------

  /** A loop as the program starts it: the kernel k's frequency has been read and written back, and the engine's output
      is its opposite, cut to an int. */
  ghost predicate Started(l: Loop, k: C.Kernel) {
    && Shape(l)
    && l.kernel == C.SetFreq(k, l.ticks, l.realtime, C.GetFreq(k, l.ticks, l.realtime))
    && Output(l.engine) == Truncate(-C.GetFreq(k, l.ticks, l.realtime)) as real
  }

  /** New engines of both kinds that steer begin that way, if they are given the initial adjustment as the program gives
      it. */
  lemma NewEngineStarts(l: Loop, k: C.Kernel, cfg: Config, gains: PiServo.Gains, interval: real, adj: int)
    requires Shape(l) && interval > 0.0
    requires l.kernel == C.SetFreq(k, l.ticks, l.realtime, C.GetFreq(k, l.ticks, l.realtime))
    requires adj == Truncate(-C.GetFreq(k, l.ticks, l.realtime))
    requires || l.engine == PiState(PiServo.Next(PiServo.CreatedSystem(cfg, gains, adj),
                                                 PiServo.SyncInterval(interval, 1.0, 1.0)))
             || l.engine == LinRegState(LinRegRun.Next(LinRegRun.System(Created(cfg), LinReg.Created(adj)),
                                                       LinRegRun.SyncInterval(interval)))
    ensures Started(l, k)
  {
  }

  /** Until the first setting the kernel runs at the frequency the engine believes in exactly when that splits like the
      one that was read; unless the servo is stable at once, they are less than 1 ppb apart. */
  lemma KernelMatchesBeforeSetting(run: seq<Loop>, messages: seq<Message>, n: nat, k: C.Kernel)
    requires IsRun(run, messages) && n <= |messages| && Started(run[0], k) && LastSet(run, messages, n).Untouched?
    ensures var l := run[n]; var read := C.GetFreq(k, run[0].ticks, run[0].realtime);
            && Shape(l) && (Tuned(l) <==> Alike(l, read))
            && (!StableSince(run, messages, n) ==> -1.0 < read + Output(l.engine) < 1.0)
  {
    KernelHoldsLastSet(run, messages, n);
    var l := run[n];
    var read := C.GetFreq(k, l.ticks, l.realtime);
    SetAgain(k, l.ticks, l.realtime, read, -Output(l.engine));
    SetAlike(k, l.ticks, l.realtime, read, -Output(l.engine));
    if !StableSince(run, messages, n) {
      OutputIsLastSet(run, messages, n);
    }
  }

  /** A clock of its own device that runs half a ppb fast, and a new PI servo for it. */
  const HALF_PPB := C.Kernel(33, 10000, 32768000)
  const HALF_PPB_LOOP := Loop(
    T.Created(T.Filter, T.Average, 1),
    PiState(PiServo.CreatedSystem(Config(500000.0, 0.0, 0.0, 0, 0), PiServo.Gains(0.5, 0.0, 1.0, 0.25, 0.0, 2.0), 0)),
    C.Ticks(0, 0), false, HALF_PPB, 0, 0)

  /** It starts with a servo that believes in 0 ppb. */
  lemma StartDetunes()
    ensures Started(HALF_PPB_LOOP, HALF_PPB) && Output(HALF_PPB_LOOP.engine) == 0.0 && !Tuned(HALF_PPB_LOOP)
  {
    assert C.GetFreq(HALF_PPB, C.Ticks(0, 0), false) == 33.0 / C.UNITS_PER_PPB;
  }

  // ---- When the servo has been stable -----------------------------------------------------------

  /** What the engine itself answers, before the wrapper looks at it. */
  ghost function EngineVerdict(e: EngineState, offset: int, localTs: int, weight: real): Verdict
    requires EngineReady(e, offset, localTs, weight)
  {
    match e
    case PiState(y) => PiServo.Engine(y, PiServo.Event.Sample(offset, localTs, weight)).1.verdict
    case LinRegState(y) => LinReg.Sampled(y.lin, y.common, offset, localTs, weight).1.verdict
    case ShmState(_, _, _) => Unlocked
  }

  lemma ResponseIsReported(e: EngineState, offset: int, localTs: int, weight: real)
    requires EngineReady(e, offset, localTs, weight)
    ensures var (e', r) := Respond(e, offset, localTs, weight);
            var verdict := EngineVerdict(e, offset, localTs, weight);
            && r.verdict == Reported(CommonOf(e), verdict, offset)
            && CommonOf(e') == After(CommonOf(e), verdict, offset) && !verdict.LockedStable?
  {
  }

  ghost function Observation(l: Loop, m: Message): Observed
    requires Serves(l, m) && Ready(l, m)
  {
    var update := T.OffsetAnswer(Fed(l, m));
    Observed(EngineVerdict(l.engine, update.offset, m.t2, update.weight), update.offset)
  }

  ghost function SeenNext(l: Loop, m: Message, seen: seq<Observed>): seq<Observed>
    requires Ready(l, m)
  {
    seen + if Serves(l, m) then [Observation(l, m)] else []
  }

  /** The engine's answers in the first n messages of a run, and the offsets they are about. */
  ghost function Seen(run: seq<Loop>, messages: seq<Message>, n: nat): seq<Observed>
    requires IsRun(run, messages) && n <= |messages|
  {
    if n == 0 then []
    else
      StepOf(run, messages, n - 1);
      SeenNext(run[n - 1], messages[n - 1], Seen(run, messages, n - 1))
  }

  lemma NextIsSeen(l: Loop, m: Message, seen: seq<Observed>, cfg: Config)
    requires Shape(l) && Ready(l, m) && Servo.Engine(seen)
    requires CommonOf(l.engine) == Servo.Run(Created(cfg), seen)
    ensures var seen' := SeenNext(l, m, seen);
            && Servo.Engine(seen') && CommonOf(Next(l, m).engine) == Servo.Run(Created(cfg), seen')
    ensures Serves(l, m) ==>
            var o := Observation(l, m);
            Answered(l, m).1.verdict == Reported(Servo.Run(Created(cfg), seen), o.verdict, o.offset)
  {
    NextShape(l, m);
    if Serves(l, m) {
      var o, update := Observation(l, m), T.OffsetAnswer(Fed(l, m));
      ResponseIsReported(l.engine, update.offset, m.t2, update.weight);
      assert (seen + [o])[..|seen|] == seen;
    } else {
      assert seen + [] == seen;
    }
  }

  /** The wrapper's fields in the loop are those of its own runs. */
  lemma {:induction false} WrapperSees(run: seq<Loop>, messages: seq<Message>, n: nat, cfg: Config)
    requires IsRun(run, messages) && n <= |messages| && CommonOf(run[0].engine) == Created(cfg)
    ensures Servo.Engine(Seen(run, messages, n))
    ensures CommonOf(run[n].engine) == Servo.Run(Created(cfg), Seen(run, messages, n))
  {
    if n > 0 {
      WrapperSees(run, messages, n - 1, cfg);
      StepOf(run, messages, n - 1);
      NextIsSeen(run[n - 1], messages[n - 1], Seen(run, messages, n - 1), cfg);
    }
  }

  /** Whether the last answer other than UNLOCKED is a LOCKED with enough close offsets, its own included. */
  predicate EndsStable(seen: seq<Observed>, threshold: int, num: int) {
    seen != [] && (
      var last := seen[|seen| - 1];
      if last.verdict.Unlocked? then EndsStable(seen[..|seen| - 1], threshold, num)
      else threshold != 0 && last.verdict.Locked? && CloseCount(seen, threshold) >= num)
  }

  lemma StableStep(cfg: Config, seen: seq<Observed>, o: Observed)
    requires cfg.numOffsetValues >= 0 && Servo.Engine(seen + [o])
    ensures EndsStable(seen + [o], cfg.offsetThreshold, cfg.numOffsetValues)
            <==> if o.verdict.Unlocked? then EndsStable(seen, cfg.offsetThreshold, cfg.numOffsetValues)
                 else Reported(Servo.Run(Created(cfg), seen), o.verdict, o.offset).LockedStable?
  {
    assert (seen + [o])[..|seen|] == seen;
    StableIffEnoughClose(cfg, seen + [o]);
  }

  ghost predicate StableNext(l: Loop, m: Message, before: bool)
    requires Ready(l, m)
  {
    if Serves(l, m) && !Answered(l, m).1.verdict.Unlocked? then Answered(l, m).1.verdict.LockedStable? else before
  }

  lemma Unfolds(run: seq<Loop>, messages: seq<Message>, n: nat)
    requires IsRun(run, messages) && 0 < n <= |messages|
    ensures Ready(run[n - 1], messages[n - 1])
    ensures LastSet(run, messages, n) == NextSetting(run[n - 1], messages[n - 1], LastSet(run, messages, n - 1))
    ensures StableSince(run, messages, n)
            <==> StableNext(run[n - 1], messages[n - 1], StableSince(run, messages, n - 1))
    ensures Seen(run, messages, n)
            == SeenNext(run[n - 1], messages[n - 1], Seen(run, messages, n - 1))
  {
    StepOf(run, messages, n - 1);
  }

  ghost predicate StableAgrees(stable: bool, seen: seq<Observed>, cfg: Config) {
    stable <==> EndsStable(seen, cfg.offsetThreshold, cfg.numOffsetValues)
  }

  lemma NextStable(l: Loop, m: Message, seen: seq<Observed>, cfg: Config, stable: bool)
    requires Shape(l) && Ready(l, m) && Servo.Engine(seen) && cfg.numOffsetValues >= 0
    requires CommonOf(l.engine) == Servo.Run(Created(cfg), seen) && StableAgrees(stable, seen, cfg)
    ensures StableAgrees(StableNext(l, m, stable), SeenNext(l, m, seen), cfg)
  {
    NextIsSeen(l, m, seen, cfg);
    if Serves(l, m) {
      StableStep(cfg, seen, Observation(l, m));
    } else {
      assert seen + [] == seen;
    }
  }

  /** The servo has been stable since the last setting exactly if the offsets say so. */
  lemma {:induction false} StableSinceIffClose(run: seq<Loop>, messages: seq<Message>, n: nat, cfg: Config)
    requires IsRun(run, messages) && n <= |messages|
    requires CommonOf(run[0].engine) == Created(cfg) && cfg.numOffsetValues >= 0
    ensures StableAgrees(StableSince(run, messages, n), Seen(run, messages, n), cfg)
  {
    if n > 0 {
      StableSinceIffClose(run, messages, n - 1, cfg);
      WrapperSees(run, messages, n - 1, cfg);
      StepOf(run, messages, n - 1);
      NextStable(run[n - 1], messages[n - 1], Seen(run, messages, n - 1), cfg, StableSince(run, messages, n - 1));
      Unfolds(run, messages, n);
    }
  }

  /** Without an offset threshold no servo is ever stable, so from the first setting on the kernel always matches. */
  lemma {:induction false} NeverStable(run: seq<Loop>, messages: seq<Message>, n: nat)
    requires IsRun(run, messages) && n <= |messages| && CommonOf(run[0].engine).offsetThreshold == 0
    ensures !StableSince(run, messages, n) && CommonOf(run[n].engine).offsetThreshold == 0
  {
    if n > 0 {
      NeverStable(run, messages, n - 1);
      StepOf(run, messages, n - 1);
      NextOutput(run[n - 1], messages[n - 1]);
    }
  }

  lemma KernelMatchesWithoutThreshold(run: seq<Loop>, messages: seq<Message>, n: nat)
    requires IsRun(run, messages) && Shape(run[0]) && n <= |messages| && LastSet(run, messages, n).Set?
    requires CommonOf(run[0].engine).offsetThreshold == 0
    ensures Shape(run[n]) && Tuned(run[n])
  {
    NeverStable(run, messages, n);
    KernelMatchesIff(run, messages, n);
  }

  // ---- A stable answer that leaves the kernel off ------------------------------------------------

  // A new PI servo with gains 0.5 and 0.25 and one sample a second, stable after two offsets below 100 ns.

  const CLOSE_AT_100 := Config(1000000.0, 0.0, 0.0, 100, 2)
  const GAINS := PiServo.Gains(0.5, 0.0, 1.0, 0.25, 0.0, 2.0)
  const NEW_SERVO := PiServo.Next(PiServo.CreatedSystem(CLOSE_AT_100, GAINS, 0), PiServo.EVERY_SECOND)

  function WithClock(tsp: T.State, pi: PiServo.System, phase: int): Loop {
    Loop(tsp, PiState(pi), C.Ticks(100, 10000), true, C.Kernel(0, 10000, 32768000), phase, 0)
  }

  /** A message that was sent at that second and arrives without delay at a clock ahead by the offset. */
  function SyncAt(second: nat, offset: int): Message {
    Sync(second * 1000000000, second * 1000000000 + offset)
  }

  /** One exchange, then offsets of 0, 0 and 80 ns. */
  const DETUNING: seq<Message> :=
    [SyncAt(1, 0), DelayRequest(1000000000, 1000000000), SyncAt(2, 0), SyncAt(3, 0), SyncAt(4, 80)]

  function Processor(second: nat, offset: int): T.State {
    var t := second * 1000000000;
    T.State(T.Filter, 1.0, t, t + offset, 1000000000, 1000000000, 0, true, T.Average, 1, [0])
  }

  /** The servo with its first sample, locked with its second, and stable with the third. */
  const REFERRED := PiServo.System(NEW_SERVO.common, NEW_SERVO.pi.(count := 1, local0 := 2000000000))
  const LOCKED := PiServo.System(
    NEW_SERVO.common.(firstUpdate := false, currOffsetValues := 1),
    REFERRED.pi.(count := 2, local1 := 3000000000))
  const STABLE := PiServo.System(
    LOCKED.common.(currOffsetValues := 0), LOCKED.pi.(drift := 20.0, lastFreq := 60.0))

  function DetuningRun(): seq<Loop> {
    [WithClock(T.Created(T.Filter, T.Average, 1), NEW_SERVO, 0),
     WithClock(T.Created(T.Filter, T.Average, 1).(t1 := 1000000000, t2 := 1000000000), NEW_SERVO, 0),
     WithClock(Processor(1, 0), NEW_SERVO, 0),
     WithClock(Processor(2, 0), REFERRED, 0),
     WithClock(Processor(3, 0), LOCKED, 0),
     WithClock(Processor(4, 80), STABLE, -60)]
  }

  lemma Waits()
    ensures var l, l' := DetuningRun()[0], DetuningRun()[1];
            Shape(l) && !Serves(l, SyncAt(1, 0)) && Next(l, SyncAt(1, 0)) == l'
  {
  }

  const EXCHANGED := T.State(T.Filter, 1.0, 1000000000, 1000000000, 1000000000, 1000000000, 0, false, T.Average, 1, [])

  lemma DelayMeasured()
    ensures T.Shape(EXCHANGED) && T.AfterDelay(EXCHANGED) == Processor(1, 0)
  {
    NothingRaw();
    OneDelay(EXCHANGED);
    NothingDelayed();
  }

  lemma NothingRaw()
    ensures T.RawDelay(EXCHANGED) == 0
  {
  }

  lemma OneDelay(st: T.State)
    requires T.Shape(st) && T.HasRawDelay(st) && st.filterType.Average? && st.window == [] && T.RawDelay(st) == 0
    ensures T.AfterDelay(st)
         == st.(window := [0], filteredDelay := MovingAverage.Average([0]), filteredDelayValid := true)
  {
    T.AfterOne(st);
    assert [] + [0] == [0];
  }

  lemma NextMeasures(l: Loop, t3: int, t4: int)
    requires Shape(l)
    ensures Next(l, DelayRequest(t3, t4)) == l.(tsp := T.AfterDelay(l.tsp.(t3 := t3, t4 := t4)))
  {
  }

  lemma Exchanges()
    ensures var l, l' := DetuningRun()[1], DetuningRun()[2]; var m := DelayRequest(1000000000, 1000000000);
            Shape(l) && Next(l, m) == l'
  {
    var waiting := EXCHANGED.(t3 := 0, t4 := 0);
    assert DetuningRun()[1] == WithClock(waiting, NEW_SERVO, 0);
    ExchangesFrom(waiting, NEW_SERVO);
  }

  lemma ExchangesFrom(waiting: T.State, pi: PiServo.System)
    requires waiting == EXCHANGED.(t3 := 0, t4 := 0)
    ensures var l := WithClock(waiting, pi, 0);
            Shape(l) && Next(l, DelayRequest(1000000000, 1000000000)) == WithClock(Processor(1, 0), pi, 0)
  {
    DelayMeasured();
    NextMeasures(WithClock(waiting, pi, 0), 1000000000, 1000000000);
    assert waiting.(t3 := 1000000000, t4 := 1000000000) == EXCHANGED;
  }

  lemma NothingDelayed()
    ensures MovingAverage.Average([0]) == 0
  {
    MovingAverage.SumOfEquals(0);
  }

  lemma Measures(second: nat, before: int, offset: int, pi: PiServo.System)
    requires -100 <= offset <= 100 && 0 < second < 100
    ensures var l := WithClock(Processor(second - 1, before), pi, 0); var m := SyncAt(second, offset);
            && Shape(l) && Fed(l, m) == Processor(second, offset) && Serves(l, m) && Ready(l, m)
            && T.OffsetAnswer(Fed(l, m)) == T.Offset(offset, 1.0)
            && U.Settled(Fed(l, m), Locked, 1.0) == Fed(l, m)
  {
  }

  lemma Refers()
    ensures PiResponse(NEW_SERVO, 0, 2000000000, 1.0) == (PiState(REFERRED), Response(Unlocked, 0.0, 1.0))
  {
  }

  lemma Locks()
    ensures PiResponse(REFERRED, 0, 3000000000, 1.0) == (PiState(LOCKED), Response(Locked, 0.0, 1.0))
  {
    assert PiServo.Span(2000000000, 3000000000) >= PiServo.EstimationInterval(0.25);
    assert PiServo.EstimatedDrift(REFERRED.pi, 0, 3000000000) == 0.0;
  }

  lemma Stabilises()
    ensures PiResponse(LOCKED, 80, 4000000080, 1.0) == (PiState(STABLE), Response(LockedStable, 60.0, 1.0))
  {
    assert PiServo.Term(0.25, 80.0, 1.0) == 20.0 && PiServo.Term(0.5, 80.0, 1.0) == 40.0;
  }

  lemma SplitZero()
    ensures var t := C.Ticks(100, 10000); var k := C.Kernel(0, 10000, 32768000);
            && C.SetFreq(k, t, true, -0.0) == k && !SameSplit(t, true, -0.0, -60.0)
  {
    var t := C.Ticks(100, 10000);
    assert C.InTicks(t, 0.0) == 0.0 && C.InTicks(t, -60.0) == -0.0006;
    assert C.Shift(t, 0.0) == 0 && C.Shift(t, -60.0) == 0;
  }

  lemma ZeroSet()
    ensures var k := C.Kernel(0, 10000, 32768000);
            Driven(k, C.Ticks(100, 10000), true, Response(Locked, 0.0, 1.0)) == k
  {
    SplitZero();
  }

  // What each of the last three messages does to the loop.

  lemma RefersStep()
    ensures var l, l', m := DetuningRun()[2], DetuningRun()[3], SyncAt(2, 0);
            && Shape(l) && Serves(l, m) && Ready(l, m) && Answered(l, m).1 == Response(Unlocked, 0.0, 1.0)
            && Next(l, m) == l'
  {
    Measures(2, 0, 0, NEW_SERVO);
    Refers();
  }

  lemma LocksStep()
    ensures var l, l', m := DetuningRun()[3], DetuningRun()[4], SyncAt(3, 0);
            && Shape(l) && Serves(l, m) && Ready(l, m) && Answered(l, m).1 == Response(Locked, 0.0, 1.0)
            && Next(l, m) == l'
  {
    Measures(3, 0, 0, REFERRED);
    Locks();
    ZeroSet();
    NextServes(DetuningRun()[3], SyncAt(3, 0), DetuningRun()[4]);
  }

  lemma StabilisesStep()
    ensures var l, l', m := DetuningRun()[4], DetuningRun()[5], SyncAt(4, 80);
            && Shape(l) && Serves(l, m) && Ready(l, m) && Answered(l, m).1 == Response(LockedStable, 60.0, 1.0)
            && Next(l, m) == l'
  {
    Measures(4, 0, 80, LOCKED);
    Stabilises();
  }

  lemma RunsFromCreation()
    ensures IsRun(DetuningRun(), DETUNING)
  {
    forall i | 0 <= i < |DETUNING|
      ensures StepAt(DetuningRun(), DETUNING, i)
    {
      DetuningStep(i);
    }
  }

  lemma DetuningStep(i: nat)
    requires i < |DETUNING|
    ensures StepAt(DetuningRun(), DETUNING, i)
  {
    if i == 0 {
      Waits();
    } else if i == 1 {
      Exchanges();
    } else if i == 2 {
      RefersStep();
    } else if i == 3 {
      LocksStep();
    } else {
      StabilisesStep();
    }
  }

  lemma DetuningSets()
    ensures IsRun(DetuningRun(), DETUNING)
    ensures LastSet(DetuningRun(), DETUNING, 4) == Set(0.0)
  {
    RunsFromCreation();
    Unfolds(DetuningRun(), DETUNING, 4);
    LocksStep();
  }

  /** Nothing but three offsets, and the kernel is left 60 ppb behind what the engine goes on from: the first answer
      after the reference sets 0 ppb, and the second is stable and answers 60. */
  lemma StableDetunes()
    ensures IsRun(DetuningRun(), DETUNING)
    ensures LastSet(DetuningRun(), DETUNING, 5) == Set(0.0) && StableSince(DetuningRun(), DETUNING, 5)
    ensures var l := DetuningRun()[5];
            && Shape(l) && l.kernel == DetuningRun()[0].kernel && l.phase == -60 && Output(l.engine) == 60.0
            && !Alike(l, -0.0) && !Tuned(l)
  {
    DetuningSets();
    Unfolds(DetuningRun(), DETUNING, 5);
    StabilisesStep();
    SplitZero();
    KernelMatchesIff(DetuningRun(), DETUNING, 5);
  }

  // ---- Whether the kernel accepts what the loop sets -------------------------------------------

  ghost predicate EngineSane(e: EngineState) {
    e.PiState? ==> PiServo.Sane(e.pi)
  }

  /** The engine keeps its answers within its limit, and that within what the kernel advertises. */
  ghost predicate Limited(l: Loop) {
    && l.kernel.tolerance >= 66 && C.Known(l.ticks)
    && CommonOf(l.engine).maxFrequency <= C.MaxFreq(l.kernel, l.ticks, l.realtime) as real
    && EngineSane(l.engine)
  }

  lemma EngineWithinLimit(l: Loop, m: Message)
    requires Shape(l) && Ready(l, m) && Serves(l, m) && EngineSane(l.engine)
    ensures var (e, r) := Answered(l, m); var limit := CommonOf(l.engine).maxFrequency;
            && EngineSane(e)
            && (Sets(r) ==> -limit <= r.adjustment <= limit)
  {
    var update := T.OffsetAnswer(Fed(l, m));
    T.WeightInUnitInterval(Fed(l, m));
    match l.engine
    case PiState(y) =>
      PiServo.NextKeepsSane(y, PiServo.Event.Sample(update.offset, m.t2, update.weight));
    case LinRegState(y) =>
      LinRegOutput(y, update.offset, m.t2, update.weight);
    case ShmState(_, _, _) =>
  }

  lemma SettingKeepsMaximum(k: C.Kernel, t: C.Ticks, realtime: bool, f: real)
    requires t.nominal != 0 ==> t.hz != 0
    ensures var k' := C.SetFreq(k, t, realtime, f);
            k'.tolerance == k.tolerance && C.MaxFreq(k', t, realtime) == C.MaxFreq(k, t, realtime)
  {
  }

  lemma NextKeepsLimited(l: Loop, m: Message)
    requires Shape(l) && Ready(l, m) && Limited(l)
    ensures Limited(Next(l, m))
    ensures Next(l, m).kernel == l.kernel || C.Accepts(Next(l, m).kernel, l.ticks, l.realtime)
  {
    NextShape(l, m);
    NextOutput(l, m);
    if Serves(l, m) {
      var r := Answered(l, m).1;
      EngineWithinLimit(l, m);
      if Sets(r) {
        SettingKeepsMaximum(l.kernel, l.ticks, l.realtime, -r.adjustment);
        C.AcceptsUpToMax(l.kernel, l.ticks, l.realtime, -r.adjustment);
      }
    }
  }

  /** What was last set lies within what the kernel advertises. */
  lemma {:induction false} SettingWithinMaximum(run: seq<Loop>, messages: seq<Message>, n: nat)
    requires IsRun(run, messages) && Shape(run[0]) && Limited(run[0]) && n <= |messages|
    requires LastSet(run, messages, n).Set?
    ensures var f := C.MaxFreq(run[0].kernel, run[0].ticks, run[0].realtime) as real;
            -f <= LastSet(run, messages, n).adjustment <= f
  {
    StepOf(run, messages, n - 1);
    Unfolds(run, messages, n);
    var l, m := run[n - 1], messages[n - 1];
    if Serves(l, m) && Sets(Answered(l, m).1) {
      KernelAccepts(run, messages, n - 1);
      KernelHoldsLastSet(run, messages, n - 1);
      EngineWithinLimit(l, m);
      MaximumStays(run[0], l, LastSet(run, messages, n - 1));
    } else {
      SettingWithinMaximum(run, messages, n - 1);
    }
  }

  lemma MaximumStays(first: Loop, l: Loop, setting: Setting)
    requires Shape(first) && Holds(first, l, setting)
    ensures C.MaxFreq(l.kernel, l.ticks, l.realtime) == C.MaxFreq(first.kernel, first.ticks, first.realtime)
  {
  }

  /** The kernel's frequency, as read back, is the opposite of an adjustment but for one unit. */
  predicate RunsAt(l: Loop, adjustment: real) {
    -1.0 / 65.536 < C.GetFreq(l.kernel, l.ticks, l.realtime) + adjustment < 1.0 / 65.536
  }

  /** From the first setting on the kernel runs, within one of its units, at the opposite of what was last set: an
      engine that answers more slows the clock down. */
  lemma KernelRunsAtLastSet(run: seq<Loop>, messages: seq<Message>, n: nat)
    requires IsRun(run, messages) && Shape(run[0]) && Limited(run[0]) && n <= |messages|
    requires LastSet(run, messages, n).Set?
    ensures RunsAt(run[n], LastSet(run, messages, n).adjustment)
  {
    SettingWithinMaximum(run, messages, n);
    KernelHoldsLastSet(run, messages, n);
    SettingRunsAt(run[0], run[n], LastSet(run, messages, n).adjustment);
  }

  lemma SettingRunsAt(first: Loop, l: Loop, adjustment: real)
    requires Shape(first) && Limited(first) && Holds(first, l, Set(adjustment))
    requires var f := C.MaxFreq(first.kernel, first.ticks, first.realtime) as real; -f <= adjustment <= f
    ensures RunsAt(l, adjustment)
  {
    C.AcceptsUpToMax(first.kernel, first.ticks, first.realtime, -adjustment);
    C.ReadBack(first.kernel, first.ticks, first.realtime, -adjustment);
  }

  /** Whatever the engine and the messages, what the loop sets always fits the kernel. */
  lemma {:induction false} KernelAccepts(run: seq<Loop>, messages: seq<Message>, n: nat)
    requires IsRun(run, messages) && Shape(run[0]) && Limited(run[0]) && n <= |messages|
    ensures Limited(run[n])
    ensures run[n].kernel == run[0].kernel || C.Accepts(run[n].kernel, run[0].ticks, run[0].realtime)
  {
    if n > 0 {
      KernelAccepts(run, messages, n - 1);
      KernelHoldsLastSet(run, messages, n - 1);
      StepOf(run, messages, n - 1);
      NextKeepsLimited(run[n - 1], messages[n - 1]);
    }
  }

  // A clock of its own device has no tick, and its driver names its limit.

  ghost predicate DriverLimited(l: Loop, maxAdj: int) {
    && !C.UsesTick(l.ticks, l.realtime) && CommonOf(l.engine).maxFrequency <= maxAdj as real
    && EngineSane(l.engine)
  }

  /** A driver takes frequencies up to its limit, in ppb. */
  predicate DriverTakes(k: C.Kernel, maxAdj: int) {
    -(maxAdj as real) <= k.freq as real / C.UNITS_PER_PPB <= maxAdj as real
  }

  lemma TruncatedWithin(f: real, maxAdj: int)
    requires -(maxAdj as real) <= f <= maxAdj as real
    ensures -(maxAdj as real) <= Truncate(f * C.UNITS_PER_PPB) as real / C.UNITS_PER_PPB <= maxAdj as real
  {
  }

  lemma NextKeepsDriverLimited(l: Loop, m: Message, maxAdj: int)
    requires Shape(l) && Ready(l, m) && DriverLimited(l, maxAdj)
    ensures DriverLimited(Next(l, m), maxAdj)
    ensures Next(l, m).kernel == l.kernel || DriverTakes(Next(l, m).kernel, maxAdj)
  {
    NextShape(l, m);
    NextOutput(l, m);
    if Serves(l, m) {
      EngineWithinLimit(l, m);
      if Sets(Answered(l, m).1) {
        TruncatedWithin(-Answered(l, m).1.adjustment, maxAdj);
      }
    }
  }

  /** Whatever the engine and the messages, a driver takes what the loop sets if the servo's limit is the driver's. */
  lemma {:induction false} DriverAccepts(run: seq<Loop>, messages: seq<Message>, n: nat, maxAdj: int)
    requires IsRun(run, messages) && DriverLimited(run[0], maxAdj) && n <= |messages|
    ensures DriverLimited(run[n], maxAdj)
    ensures run[n].kernel == run[0].kernel || DriverTakes(run[n].kernel, maxAdj)
  {
    if n > 0 {
      DriverAccepts(run, messages, n - 1, maxAdj);
      StepOf(run, messages, n - 1);
      NextKeepsDriverLimited(run[n - 1], messages[n - 1], maxAdj);
    }
  }

  /** A limit configured from what the kernel advertises, as the program does it for the real-time clock, is such a
      limit. */
  lemma ConfiguredLimitFits(l: Loop, cfg: Config, kp: real, ki: real, swTs: bool, scales: PiServo.Gains, adj: int)
    requires l.kernel.tolerance >= 66 && C.Known(l.ticks)
    requires cfg.maxFrequency == C.MaxFreq(l.kernel, l.ticks, l.realtime) as real
    requires kp >= 0.0 && ki >= 0.0 && PiServo.GainsSane(scales)
    requires l.engine == PiState(PiServo.CreatedSystem(cfg, PiServo.Configured(kp, ki, swTs, scales), adj))
    ensures Limited(l)
  {
    C.MaxFreqNonNegative(l.kernel, l.ticks, l.realtime);
    PiServo.CreatedIsSane(cfg, kp, ki, swTs, scales, adj);
  }

  /** And so is one taken from a driver, as the program does it for any other clock. */
  lemma DriverLimitFits(l: Loop, cfg: Config, kp: real, ki: real, swTs: bool, scales: PiServo.Gains, adj: int,
                        maxAdj: int)
    requires !l.realtime && maxAdj >= 0 && cfg.maxFrequency == maxAdj as real
    requires kp >= 0.0 && ki >= 0.0 && PiServo.GainsSane(scales)
    requires l.engine == PiState(PiServo.CreatedSystem(cfg, PiServo.Configured(kp, ki, swTs, scales), adj))
    ensures DriverLimited(l, maxAdj)
  {
    PiServo.CreatedIsSane(cfg, kp, ki, swTs, scales, adj);
  }

  // ---- The loop body itself --------------------------------------------------------------------

  datatype Engine = PiEngine(pi: PiServo.PiServo)
                  | LinRegEngine(linreg: LinRegServo.LinRegServo)
                  | ShmEngine(shm: NtpShm.NtpShmServo, base: ServoBase)

  ghost function EngineObjects(engine: Engine): set<object> {
    match engine
    case PiEngine(p) => {p, p.servo, p.offset, p.local}
    case LinRegEngine(l) => {l, l.servo, l.points, l.results}
    case ShmEngine(n, base) => {n, base}
  }

  ghost predicate EngineSound(engine: Engine)
    reads EngineObjects(engine)
  {
    match engine
    case PiEngine(p) => p.Valid()
    case LinRegEngine(l) => l.Valid()
    case ShmEngine(_, _) => true
  }

  class Controller {
    const tsp: T.TsProc
    const engine: Engine
    const freqClock: C.Clock
    const todClock: C.Clock

    /** The objects of the engine. */
    ghost const EngineRepr: set<object>

    ghost predicate EngineValid()
      reads EngineRepr
    {
      EngineRepr == EngineObjects(engine) && EngineSound(engine)
    }

    ghost function EngineView(): EngineState
      requires EngineValid()
      reads EngineRepr
    {
      match engine
      case PiEngine(p) => PiState(PiServo.System(p.servo.View(), p.View()))
      case LinRegEngine(l) => LinRegState(LinRegRun.System(l.servo.View(), l.View()))
      case ShmEngine(n, base) => ShmState(base.View(), n.View(), n.leap)
    }

    ghost predicate Valid()
      reads this, tsp, tsp.Repr, EngineRepr, freqClock
    {
      && tsp.Valid() && EngineValid() && freqClock.Valid()
      && tsp.Repr !! EngineRepr && {tsp, freqClock, todClock} !! tsp.Repr + EngineRepr
    }

    ghost function View(): Loop
      requires Valid()
      reads this, tsp, tsp.Repr, EngineRepr, freqClock, todClock
    {
      Loop(tsp.View(), EngineView(), freqClock.TicksView(), freqClock.realtime, freqClock.kernel, freqClock.phase,
           todClock.reading)
    }

    constructor (tsp: T.TsProc, engine: Engine, freqClock: C.Clock, todClock: C.Clock)
      requires tsp.Valid() && EngineSound(engine) && freqClock.Valid()
      requires tsp.Repr !! EngineObjects(engine) && {tsp, freqClock, todClock} !! tsp.Repr + EngineObjects(engine)
      ensures this.tsp == tsp && this.engine == engine && this.freqClock == freqClock && this.todClock == todClock
      ensures Valid()
    {
      this.tsp, this.engine, this.freqClock, this.todClock := tsp, engine, freqClock, todClock;
      EngineRepr := EngineObjects(engine);
    }

    twostate lemma EngineUntouched()
      requires old(EngineValid()) && unchanged(EngineRepr)
      ensures EngineValid() && EngineView() == old(EngineView())
    {
    }

    /** servo_sample and servo_rate_ratio, whatever the engine. */
    method ServoSample(offset: int, localTs: int, weight: real) returns (r: Response)
      requires EngineValid() && EngineReady(EngineView(), offset, localTs, weight)
      modifies EngineRepr
      ensures EngineValid() && (EngineView(), r) == Respond(old(EngineView()), offset, localTs, weight)
    {
      match engine
      case PiEngine(p) =>
        var verdict, adjustment := p.ServoSample(offset, localTs, weight);
        r := Response(verdict, adjustment, 1.0);
      case LinRegEngine(l) =>
        var verdict, adjustment := l.ServoSample(offset, localTs, weight);
        r := Response(verdict, adjustment, l.frequencyRatio);
      case ShmEngine(n, base) =>
        n.Sample(offset, localTs);
        var verdict := base.Digest(Unlocked, offset);
        r := Response(verdict, 0.0, 1.0);
    }

    /** What the clocks are told for each verdict. */
    method Act(offset: int, r: Response)
      requires freqClock.Valid()
      modifies freqClock`kernel, freqClock`phase, todClock`reading
      ensures freqClock.kernel == Driven(old(freqClock.kernel), freqClock.TicksView(), freqClock.realtime, r)
      ensures freqClock.phase == Slewed(old(freqClock.phase), r)
      ensures todClock.reading == old(todClock.reading) + SteppedBy(offset, r.verdict)
    {
      match r.verdict
      case Unlocked =>
      case Jump =>
        freqClock.SetFrequency(-r.adjustment);
        todClock.Step(-offset);
      case Locked =>
        freqClock.SetFrequency(-r.adjustment);
      case LockedStable =>
        freqClock.SetPhase(Truncate(-r.adjustment));
    }

    /** What the time stamp processor is told for each verdict. */
    method Settle(r: Response)
      requires tsp.Valid()
      modifies tsp, tsp.Repr
      ensures tsp.Valid() && tsp.View() == U.Settled(old(tsp.View()), r.verdict, r.rateRatio)
    {
      tsp.SetClockRateRatio(r.rateRatio);
      if r.verdict.Jump? {
        tsp.Reset(false);
      }
    }

    /** What follows the servo's answer; the engine has no part in it. */
    method Conclude(offset: int, r: Response)
      requires Valid()
      modifies tsp, tsp.Repr, freqClock`kernel, freqClock`phase, todClock`reading
      ensures Valid() && unchanged(EngineRepr)
      ensures tsp.View() == U.Settled(old(tsp.View()), r.verdict, r.rateRatio)
      ensures freqClock.kernel == Driven(old(freqClock.kernel), freqClock.TicksView(), freqClock.realtime, r)
      ensures freqClock.phase == Slewed(old(freqClock.phase), r)
      ensures todClock.reading == old(todClock.reading) + SteppedBy(offset, r.verdict)
    {
      Settle(r);
      Act(offset, r);
    }

    /** clock_update from the offset on. */
    method Serve(offset: int, weight: real, localTs: int) returns (ghost r: Response)
      requires Valid() && EngineReady(EngineView(), offset, localTs, weight)
      modifies tsp, tsp.Repr, EngineRepr, freqClock`kernel, freqClock`phase, todClock`reading
      ensures Valid() && (EngineView(), r) == Respond(old(EngineView()), offset, localTs, weight)
      ensures tsp.View() == U.Settled(old(tsp.View()), r.verdict, r.rateRatio)
      ensures freqClock.kernel == Driven(old(freqClock.kernel), freqClock.TicksView(), freqClock.realtime, r)
      ensures freqClock.phase == Slewed(old(freqClock.phase), r)
      ensures todClock.reading == old(todClock.reading) + SteppedBy(offset, r.verdict)
    {
      var answer := ServoSample(offset, localTs, weight);
      label Answered:
      Conclude(offset, answer);
      EngineUntouched@Answered();
      r := answer;
    }

    /** The time stamps of a sync message. */
    method TakeSync(t1: int, t2: int) returns (update: T.OffsetUpdate)
      requires tsp.Valid()
      modifies tsp
      ensures tsp.Valid() && tsp.View() == old(tsp.View()).(t1 := t1, t2 := t2)
      ensures update == T.OffsetAnswer(tsp.View())
    {
      tsp.DownTs(t1, t2);
      update := tsp.UpdateOffset();
    }

    /** clock_update: one sync message. */
    method ClockUpdate(t1: int, t2: int)
      requires Valid() && Ready(View(), Sync(t1, t2))
      modifies tsp, tsp.Repr, EngineRepr, freqClock`kernel, freqClock`phase, todClock`reading
      ensures Valid() && View() == Next(old(View()), Sync(t1, t2))
    {
      ghost var l, m := View(), Sync(t1, t2);
      var update := TakeSync(t1, t2);
      EngineUntouched();
      if update.Offset? {
        ghost var r := Serve(update.offset, update.weight, t2);
        NextServes(l, m, View());
      } else {
        NextSkips(l, m, View());
      }
    }

    /** path_delay: one delay message. */
    method PathDelay(t3: int, t4: int)
      requires Valid()
      modifies tsp, tsp.Repr
      ensures Valid() && View() == Next(old(View()), DelayRequest(t3, t4))
    {
      tsp.UpTs(t3, t4);
      var _ := tsp.UpdateDelay();
      EngineUntouched();
    }
  }
}
