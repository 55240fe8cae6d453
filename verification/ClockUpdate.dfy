/** The update loop (main.c): sync and delay messages drive the time stamp processor, the servo and the clock. */
module ClockUpdate {
  import opened Servo
  import T = TsProc

  /** A message, and for a sync message what the servo answers if it is asked. */
  datatype Event = Sync(t1: int, t2: int, verdict: Verdict, rateRatio: real) | DelayRequest(t3: int, t4: int)

  // ---- The effect on the time stamp processor -------------------------------------------------

  /** The state in which the event's time stamps have been taken in. */
  function Fed(st: T.State, e: Event): T.State {
    match e
    case Sync(t1, t2, _, _) => st.(t1 := t1, t2 := t2)
    case DelayRequest(t3, t4) => st.(t3 := t3, t4 := t4)
  }

  predicate Jumps(st: T.State, e: Event) {
    e.Sync? && T.CanOffset(Fed(st, e)) && e.verdict.Jump?
  }

  /** The processor once the servo has answered. */
  function Settled(st: T.State, verdict: Verdict, rateRatio: real): (st': T.State)
    requires T.Shape(st)
    ensures T.Shape(st')
  {
    var rated := st.(rateRatio := rateRatio);
    if verdict.Jump? then T.AfterReset(rated, false) else rated
  }

  function Next(st: T.State, e: Event): (st': T.State)
    requires T.Shape(st)
    ensures T.Shape(st')
  {
    var fed := Fed(st, e);
    match e
    case Sync(_, _, verdict, rateRatio) =>
      if T.CanOffset(fed) then Settled(fed, verdict, rateRatio) else fed
    case DelayRequest(_, _) => T.AfterDelay(fed)
  }

  function Run(st: T.State, events: seq<Event>): (st': T.State)
    requires T.Shape(st)
    ensures T.Shape(st')
  {
    if events == [] then st else Next(Run(st, events[..|events| - 1]), events[|events| - 1])
  }

  function Before(st: T.State, events: seq<Event>, i: nat): (st': T.State)
    requires T.Shape(st) && i <= |events|
    ensures T.Shape(st')
  {
    Run(st, events[..i])
  }

  lemma BeforeNext(st: T.State, events: seq<Event>, i: nat)
    requires T.Shape(st) && i < |events|
    ensures Before(st, events, i + 1) == Next(Before(st, events, i), events[i])
  {
    assert events[..i + 1][..i] == events[..i];
  }

  // ---- No delay is measured across a step ------------------------------------------------------

  /** How often the clock was stepped before the i-th event. */
  function Epoch(st: T.State, events: seq<Event>, i: nat): nat
    requires T.Shape(st) && i <= |events|
  {
    if i == 0 then 0
    else Epoch(st, events, i - 1) + if Jumps(Before(st, events, i - 1), events[i - 1]) then 1 else 0
  }

  /** Whether the i-th event makes the processor compute a raw delay. */
  predicate MeasuresDelay(st: T.State, events: seq<Event>, i: nat)
    requires T.Shape(st) && i < |events|
  {
    var fed := Fed(Before(st, events, i), events[i]);
    if events[i].Sync? then T.CanOffset(fed) && !fed.mode.Filter? else T.HasRawDelay(fed)
  }

  /** A stored down measurement came with a sync message of the current epoch. */
  lemma {:induction false} DownSource(st: T.State, events: seq<Event>, i: nat) returns (a: nat)
    requires T.Shape(st) && st.t2 == 0 && i <= |events| && Before(st, events, i).t2 != 0
    ensures a < i && events[a].Sync? && Before(st, events, i).t2 == events[a].t2
    ensures Epoch(st, events, a) == Epoch(st, events, i)
  {
    a := i - 1;
    BeforeNext(st, events, a);
    if !events[a].Sync? {
      a := DownSource(st, events, a);
    }
  }

  /** A stored up measurement came with a delay message of the current epoch. */
  lemma {:induction false} UpSource(st: T.State, events: seq<Event>, i: nat) returns (b: nat)
    requires T.Shape(st) && st.t3 == 0 && i <= |events| && Before(st, events, i).t3 != 0
    ensures b < i && events[b].DelayRequest? && Before(st, events, i).t3 == events[b].t3
    ensures Epoch(st, events, b) == Epoch(st, events, i)
  {
    b := i - 1;
    BeforeNext(st, events, b);
    if events[b].Sync? {
      b := UpSource(st, events, b);
    }
  }

  /** On every run, in every mode and for every servo, a raw delay is computed from local time stamps t2 and t3 that
      were taken in the same epoch of the clock. */
  lemma NoMixingAcrossSteps(st: T.State, events: seq<Event>, i: nat) returns (a: nat, b: nat)
    requires T.Shape(st) && st.t2 == 0 && st.t3 == 0 && i < |events| && MeasuresDelay(st, events, i)
    ensures a <= i && events[a].Sync? && b <= i && events[b].DelayRequest?
    ensures var fed := Fed(Before(st, events, i), events[i]); fed.t2 == events[a].t2 && fed.t3 == events[b].t3
    ensures Epoch(st, events, a) == Epoch(st, events, b) == Epoch(st, events, i)
  {
    if events[i].Sync? {
      a := i;
      b := UpSource(st, events, i);
    } else {
      a := DownSource(st, events, i);
      b := i;
    }
  }

  // ---- Which sync messages are answered --------------------------------------------------------

  // Told by the messages alone, for a processor that starts without measurements.

  /** No jump from the event `from` on before `until`. */
  ghost predicate NoJump(jumps: set<nat>, from: nat, until: nat) {
    forall m :: m in jumps ==> !(from <= m < until)
  }

  ghost predicate UpAt(events: seq<Event>, jumps: set<nat>, j: nat, i: nat)
    requires j < i <= |events|
  {
    events[j].DelayRequest? && NoJump(jumps, j, i)
  }

  ghost predicate DownAt(events: seq<Event>, jumps: set<nat>, j: nat, i: nat)
    requires j < i <= |events|
  {
    events[j].Sync? && NoJump(jumps, j, i)
  }

  /** There was a delay message since the last jump before the i-th event. */
  ghost predicate Up(events: seq<Event>, jumps: set<nat>, i: nat)
    requires i <= |events|
  {
    exists j: nat :: j < i && UpAt(events, jumps, j, i)
  }

  /** There was a sync message since then. */
  ghost predicate Down(events: seq<Event>, jumps: set<nat>, i: nat)
    requires i <= |events|
  {
    exists j: nat :: j < i && DownAt(events, jumps, j, i)
  }

  ghost predicate Measured(events: seq<Event>, jumps: set<nat>, i: nat)
    requires i < |events|
  {
    events[i].DelayRequest? && Down(events, jumps, i)
  }

  /** Some delay message before the i-th event had a sync message before it since the last jump. */
  ghost predicate Delayed(events: seq<Event>, jumps: set<nat>, i: nat)
    requires i <= |events|
  {
    exists j: nat :: j < i && Measured(events, jumps, j)
  }

  /** Whether the i-th event is a sync message that is answered with an offset: with a delay measured at any time before
      if the delay is filtered, with an up measurement since the last jump if it is raw, and with both for weights with
      a filtered delay. */
  ghost predicate Answers(mode: T.Mode, events: seq<Event>, jumps: set<nat>, i: nat)
    requires i < |events|
  {
    && events[i].Sync? && events[i].t1 != 0
    && match mode
       case Filter => Delayed(events, jumps, i)
       case Raw | RawWeight => Up(events, jumps, i)
       case FilterWeight => Delayed(events, jumps, i) && Up(events, jumps, i)
  }

  /** The answered sync messages before the i-th event for which the servo jumped. */
  ghost function JumpsBefore(mode: T.Mode, events: seq<Event>, i: nat): (jumps: set<nat>)
    requires i <= |events|
    ensures forall m :: m in jumps ==> m < i
  {
    if i == 0 then {}
    else
      var jumps := JumpsBefore(mode, events, i - 1);
      if Answers(mode, events, jumps, i - 1) && events[i - 1].verdict.Jump? then jumps + {i - 1} else jumps
  }

  /** No local time stamp is the sentinel 0. */
  ghost predicate Stamped(events: seq<Event>) {
    forall i :: 0 <= i < |events| ==> if events[i].Sync? then events[i].t2 != 0 else events[i].t3 != 0
  }

  ghost predicate Told(st: T.State, events: seq<Event>, jumps: set<nat>, i: nat)
    requires i <= |events|
  {
    && (st.t2 != 0 <==> Down(events, jumps, i))
    && (st.t3 != 0 <==> Up(events, jumps, i))
    && (st.filteredDelayValid <==> Delayed(events, jumps, i))
  }

  lemma FedAnswers(st: T.State, events: seq<Event>, jumps: set<nat>, i: nat)
    requires i < |events| && events[i].Sync? && events[i].t2 != 0 && Told(st, events, jumps, i)
    ensures T.CanOffset(Fed(st, events[i])) <==> Answers(st.mode, events, jumps, i)
  {
  }

  lemma NoJumpNow(jumps: set<nat>, j: nat, i: nat)
    requires j <= i && forall m :: m in jumps ==> m < i
    ensures NoJump(jumps, j, i + 1) <==> NoJump(jumps, j, i)
    ensures NoJump(jumps, i, i + 1) && !NoJump(jumps + {i}, j, i + 1)
  {
    assert i in jumps + {i};
  }

  lemma NextUp(events: seq<Event>, jumps: set<nat>, i: nat)
    requires i < |events| && forall m :: m in jumps ==> m < i
    ensures Up(events, jumps, i + 1) <==> events[i].DelayRequest? || Up(events, jumps, i)
  {
    NoJumpNow(jumps, i, i);
    assert UpAt(events, jumps, i, i + 1) <==> events[i].DelayRequest?;
    if Up(events, jumps, i) {
      var j: nat :| j < i && UpAt(events, jumps, j, i);
      NoJumpNow(jumps, j, i);
      assert UpAt(events, jumps, j, i + 1);
    }
    if Up(events, jumps, i + 1) && !events[i].DelayRequest? {
      var j: nat :| j < i + 1 && UpAt(events, jumps, j, i + 1);
      NoJumpNow(jumps, j, i);
      assert UpAt(events, jumps, j, i);
    }
  }

  lemma NoneUp(events: seq<Event>, jumps: set<nat>, i: nat)
    requires i < |events| && forall m :: m in jumps ==> m < i
    ensures !Up(events, jumps + {i}, i + 1)
  {
    assert i in jumps + {i};
  }

  lemma NextDown(events: seq<Event>, jumps: set<nat>, i: nat)
    requires i < |events| && forall m :: m in jumps ==> m < i
    ensures Down(events, jumps, i + 1) <==> events[i].Sync? || Down(events, jumps, i)
  {
    NoJumpNow(jumps, i, i);
    assert DownAt(events, jumps, i, i + 1) <==> events[i].Sync?;
    if Down(events, jumps, i) {
      var j: nat :| j < i && DownAt(events, jumps, j, i);
      NoJumpNow(jumps, j, i);
      assert DownAt(events, jumps, j, i + 1);
    }
    if Down(events, jumps, i + 1) && !events[i].Sync? {
      var j: nat :| j < i + 1 && DownAt(events, jumps, j, i + 1);
      NoJumpNow(jumps, j, i);
      assert DownAt(events, jumps, j, i);
    }
  }

  lemma NoneDown(events: seq<Event>, jumps: set<nat>, i: nat)
    requires i < |events| && forall m :: m in jumps ==> m < i
    ensures !Down(events, jumps + {i}, i + 1)
  {
    assert i in jumps + {i};
  }

  lemma LaterJump(events: seq<Event>, jumps: set<nat>, j: nat, i: nat)
    requires j <= i < |events|
    ensures Down(events, jumps + {i}, j) <==> Down(events, jumps, j)
  {
    forall k: nat | k < j
      ensures DownAt(events, jumps + {i}, k, j) <==> DownAt(events, jumps, k, j)
    {
      assert forall m :: m in jumps ==> m in jumps + {i};
    }
  }

  lemma NextDelayed(events: seq<Event>, jumps: set<nat>, i: nat)
    requires i < |events| && forall m :: m in jumps ==> m < i
    ensures Delayed(events, jumps, i + 1) <==> Delayed(events, jumps, i) || Measured(events, jumps, i)
    ensures events[i].Sync? ==> (Delayed(events, jumps + {i}, i + 1) <==> Delayed(events, jumps, i))
  {
    forall j: nat | j <= i
      ensures Measured(events, jumps + {i}, j) <==> Measured(events, jumps, j)
    {
      LaterJump(events, jumps, j, i);
    }
  }

  lemma NextTold(st: T.State, events: seq<Event>, i: nat)
    requires T.Shape(st) && i < |events| && Stamped(events) && Told(st, events, JumpsBefore(st.mode, events, i), i)
    ensures Next(st, events[i]).mode == st.mode
    ensures Told(Next(st, events[i]), events, JumpsBefore(st.mode, events, i + 1), i + 1)
  {
    var jumps := JumpsBefore(st.mode, events, i);
    NextUp(events, jumps, i);
    NoneUp(events, jumps, i);
    NextDown(events, jumps, i);
    NoneDown(events, jumps, i);
    NextDelayed(events, jumps, i);
    if events[i].Sync? {
      FedAnswers(st, events, jumps, i);
    }
  }

  lemma {:induction false} RunTold(mode: T.Mode, filterType: T.FilterType, len: nat, events: seq<Event>, i: nat)
    requires 1 <= len && Stamped(events) && i <= |events|
    ensures var st := Before(T.Created(mode, filterType, len), events, i);
            st.mode == mode && Told(st, events, JumpsBefore(mode, events, i), i)
  {
    var first := T.Created(mode, filterType, len);
    if i > 0 {
      RunTold(mode, filterType, len, events, i - 1);
      BeforeNext(first, events, i - 1);
      NextTold(Before(first, events, i - 1), events, i - 1);
    }
  }

  /** From creation on and in every mode, exactly these sync messages are answered, jumps or not. */
  lemma AnsweredIff(mode: T.Mode, filterType: T.FilterType, len: nat, events: seq<Event>, i: nat)
    requires 1 <= len && Stamped(events) && i < |events| && events[i].Sync?
    ensures T.CanOffset(Fed(Before(T.Created(mode, filterType, len), events, i), events[i]))
            <==> Answers(mode, events, JumpsBefore(mode, events, i), i)
  {
    RunTold(mode, filterType, len, events, i);
    FedAnswers(Before(T.Created(mode, filterType, len), events, i), events, JumpsBefore(mode, events, i), i);
  }

  // ---- What a jump achieves --------------------------------------------------------------------

  /** How far the clock is ahead before the i-th event, when only jumps change that. */
  function Ahead(st: T.State, theta: int, events: seq<Event>, i: nat): int
    requires T.Shape(st) && i <= |events|
  {
    if i == 0 then theta
    else
      Ahead(st, theta, events, i - 1) + Stepped(Before(st, events, i - 1), events[i - 1])
  }

  /** Path delays lie in [lo, hi], the servo answers no rate ratio but 1, and what is computed fits in 64 bits. */
  ghost predicate Plausible(st: T.State, theta: int, events: seq<Event>, i: nat, lo: int, hi: int)
    requires T.Shape(st) && i < |events|
  {
    Consistent(Before(st, events, i), events[i], Ahead(st, theta, events, i), lo, hi)
  }

  ghost predicate Consistent(st: T.State, e: Event, now: int, lo: int, hi: int)
    requires T.Shape(st)
  {
    match e
    case Sync(t1, t2, _, rateRatio) => lo <= t2 - t1 - now <= hi && rateRatio == 1.0 && T.OffsetFits(Fed(st, e))
    case DelayRequest(t3, t4) => lo <= t4 - t3 + now <= hi && T.DelayFits(Fed(st, e))
  }

  ghost predicate PlausibleRun(st: T.State, theta: int, events: seq<Event>, lo: int, hi: int)
    requires T.Shape(st)
  {
    forall i :: 0 <= i < |events| ==> Plausible(st, theta, events, i, lo, hi)
  }

  /** All measurements stay consistent with the clock as it is now, through every jump. */
  lemma {:induction false} RunKeepsBounded(st: T.State, theta: int, events: seq<Event>, i: nat, lo: int, hi: int)
    requires T.Bounded(st, theta, lo, hi) && PlausibleRun(st, theta, events, lo, hi) && i <= |events|
    ensures T.Bounded(Before(st, events, i), Ahead(st, theta, events, i), lo, hi)
  {
    if i > 0 {
      RunKeepsBounded(st, theta, events, i - 1, lo, hi);
      BeforeNext(st, events, i - 1);
      assert Plausible(st, theta, events, i - 1, lo, hi);
      NextKeepsBounded(Before(st, events, i - 1), events[i - 1], Ahead(st, theta, events, i - 1), lo, hi);
    }
  }

  /** How much further ahead the clock is after an event: a jump steps it back by the offset. */
  function Stepped(st: T.State, e: Event): int {
    if Jumps(st, e) then -T.OffsetAnswer(Fed(st, e)).offset else 0
  }

  lemma NextKeepsBounded(st: T.State, e: Event, now: int, lo: int, hi: int)
    requires T.Bounded(st, now, lo, hi) && Consistent(st, e, now, lo, hi)
    ensures T.Bounded(Next(st, e), now + Stepped(st, e), lo, hi)
  {
    if e.DelayRequest? {
      T.DelayKeepsBounded(Fed(st, e), now, lo, hi);
    }
  }

  /** The error of a measured offset: at most hi - lo with a filtered delay, half of that, and half a nanosecond, with
      the raw delay. */
  predicate Near(mode: T.Mode, error: int, lo: int, hi: int) {
    match mode
    case Filter | FilterWeight => -(hi - lo) <= error <= hi - lo
    case Raw | RawWeight => -(hi - lo + 1) <= 2 * error <= hi - lo + 1
  }

  lemma OffsetNear(st: T.State, theta: int, lo: int, hi: int)
    requires T.Bounded(st, theta, lo, hi) && T.OffsetFits(st) && T.CanOffset(st)
    ensures Near(st.mode, T.OffsetAnswer(st).offset - theta, lo, hi)
  {
    if st.mode.Filter? || st.mode.FilterWeight? {
      T.FilteredOffsetError(st, theta, lo, hi);
    } else {
      T.RawOffsetError(st, theta, lo, hi);
    }
  }

  /** In every mode, every offset handed to the servo is near the truth, and a jump leaves the clock that near the
      remote one, from wherever it started. */
  lemma JumpLands(st: T.State, theta: int, events: seq<Event>, i: nat, lo: int, hi: int)
    requires T.Bounded(st, theta, lo, hi) && PlausibleRun(st, theta, events, lo, hi) && i < |events|
    ensures var s, now := Before(st, events, i), Ahead(st, theta, events, i);
            && (events[i].Sync? && T.CanOffset(Fed(s, events[i])) ==>
                  Near(st.mode, T.OffsetAnswer(Fed(s, events[i])).offset - now, lo, hi))
            && (Jumps(s, events[i]) ==> Near(st.mode, Ahead(st, theta, events, i + 1), lo, hi))
  {
    RunKeepsBounded(st, theta, events, i, lo, hi);
    ModeStays(st, events, i);
    assert Plausible(st, theta, events, i, lo, hi);
    var fed := Fed(Before(st, events, i), events[i]);
    if events[i].Sync? && T.CanOffset(fed) {
      OffsetNear(fed, Ahead(st, theta, events, i), lo, hi);
    }
  }

  /** The same for a loop that has just been created, whatever the clock's offset then is. */
  lemma NewLoopLands(mode: T.Mode, filterType: T.FilterType, len: nat, theta: int, events: seq<Event>, i: nat,
                     lo: int, hi: int)
    requires 1 <= len && i < |events|
    requires PlausibleRun(T.Created(mode, filterType, len), theta, events, lo, hi)
    requires Jumps(Before(T.Created(mode, filterType, len), events, i), events[i])
    ensures Near(mode, Ahead(T.Created(mode, filterType, len), theta, events, i + 1), lo, hi)
  {
    JumpLands(T.Created(mode, filterType, len), theta, events, i, lo, hi);
  }

  /** On every run the median filter has answered the exact truncated median of its window: no sum it forms wraps. */
  lemma {:induction false} FilterStaysSound(st: T.State, events: seq<Event>, i: nat)
    requires T.FilterSound(st) && i <= |events|
    ensures T.FilterSound(Before(st, events, i))
  {
    if i > 0 {
      FilterStaysSound(st, events, i - 1);
      BeforeNext(st, events, i - 1);
      NextKeepsFilterSound(Before(st, events, i - 1), events[i - 1]);
    }
  }

  lemma NextKeepsFilterSound(st: T.State, e: Event)
    requires T.FilterSound(st)
    ensures T.FilterSound(Next(st, e))
  {
    T.FilterSoundAlike(st, Fed(st, e));
    if e.DelayRequest? {
      T.DelayKeepsFilterSound(Fed(st, e));
    } else {
      T.FilterSoundAlike(st, Next(st, e));
    }
  }

  lemma {:induction false} ModeStays(st: T.State, events: seq<Event>, i: nat)
    requires T.Shape(st) && i <= |events|
    ensures Before(st, events, i).mode == st.mode && Before(st, events, i).len == st.len
  {
    if i > 0 {
      ModeStays(st, events, i - 1);
      BeforeNext(st, events, i - 1);
    }
  }
}
