/** The linear regression servo's points and answers, told by the messages that made them. */
module LinRegPoints {
  import opened Reals
  import opened Servo
  import opened LinReg
  import opened LinRegRun
  import LS = LeastSquares

  // ---- What the points are --------------------------------------------------------------------

  /** The samples since the last reset, by the numbers of their events, newest first. */
  function SamplesSince(events: seq<Event>, n: nat): (samples: seq<nat>)
    requires n <= |events|
    ensures forall k :: 0 <= k < |samples| ==> samples[k] < n && events[samples[k]].Sample?
  {
    if n == 0 || events[n - 1].Reset? then []
    else if events[n - 1].Sample? then [n - 1] + SamplesSince(events, n - 1)
    else SamplesSince(events, n - 1)
  }

  /** The remote time at a sample: the local one less what the clock was measured to be ahead. */
  function RemoteTime(e: Event): int
    requires e.Sample?
  {
    e.localTs - e.offset
  }

  /** What the j-th event has left in the ring by the n-th: the reference it met, its remote time a constant away, which
      leap seconds that have ended since do not move, and its weight. */
  ghost predicate StoredFrom(run: seq<System>, events: seq<Event>, n: nat, j: nat, p: Point)
    requires IsRun(run, events) && j < n <= |events| && events[j].Sample?
  {
    && p.x == run[j + 1].lin.refX && p.w == events[j].weight
    && p.y == RemoteTime(events[j]) + RemoteOffset(run[n].lin) - 1000000000 * LeapSeconds(run, events, j + 1, n)
  }

  ghost predicate PointsStored(run: seq<System>, events: seq<Event>, n: nat, recent: seq<Point>)
    requires IsRun(run, events) && n <= |events|
  {
    var samples := SamplesSince(events, n);
    && |recent| == (if |samples| < 64 then |samples| else 64)
    && forall k :: 0 <= k < |recent| ==> StoredFrom(run, events, n, samples[k], recent[k])
  }

  /** What a sample stores. */
  lemma SampleStores(y: System, e: Event)
    requires SystemInv(y) && Admissible(y.lin, e) && e.Sample?
    ensures var st' := Next(y, e).lin; var p := Point(st'.refX, RemoteTime(e) + RemoteOffset(st'), e.weight);
            st'.recent == [p] + if |y.lin.recent| < 64 then y.lin.recent else y.lin.recent[..63]
  {
    AlwaysDefined(y, e);
    var t := TakenIn(y.lin, e.offset, e.localTs, e.weight);
    TakenInvariant(y.lin, e.offset, e.localTs, e.weight, t);
  }

  lemma StillStored(run: seq<System>, events: seq<Event>, n: nat, j: nat, p: Point)
    requires IsRun(run, events) && SystemInv(run[0]) && j < n < |events| && events[j].Sample?
    requires StoredFrom(run, events, n, j, p) && !events[n].Reset? && run[n].lin.recent != []
    ensures StoredFrom(run, events, n + 1, j, p)
  {
    RemoteStep(run, events, n);
  }

  lemma NextStored(run: seq<System>, events: seq<Event>, n: nat)
    requires IsRun(run, events) && SystemInv(run[0]) && n < |events|
    requires PointsStored(run, events, n, run[n].lin.recent)
    ensures PointsStored(run, events, n + 1, run[n + 1].lin.recent)
  {
    var recent, e := run[n].lin.recent, events[n];
    StepOf(run, events, n);
    forall k | 0 <= k < |recent| && !e.Reset?
      ensures StoredFrom(run, events, n + 1, SamplesSince(events, n)[k], recent[k])
    {
      StillStored(run, events, n, SamplesSince(events, n)[k], recent[k]);
    }
    if e.Sample? {
      NowStored(run, events, n);
    }
  }

  lemma NowStored(run: seq<System>, events: seq<Event>, n: nat)
    requires IsRun(run, events) && SystemInv(run[0]) && n < |events| && events[n].Sample?
    ensures var recent := run[n + 1].lin.recent;
            && recent != [] && StoredFrom(run, events, n + 1, n, recent[0])
            && recent[1..] == if |run[n].lin.recent| < 64 then run[n].lin.recent else run[n].lin.recent[..63]
  {
    RunKeepsInv(run, events, n);
    StepOf(run, events, n);
    SampleStores(run[n], events[n]);
  }

  /** In every reachable state, through jumps and leap seconds, the ring holds the newest 64 samples since the last
      reset: each at the reference it met, and at its remote time plus the run's constant. */
  lemma {:induction false} PointsAreSamples(run: seq<System>, events: seq<Event>, n: nat)
    requires IsRun(run, events) && SystemInv(run[0]) && run[0].lin.recent == [] && n <= |events|
    ensures PointsStored(run, events, n, run[n].lin.recent)
  {
    if n > 0 {
      PointsAreSamples(run, events, n - 1);
      NextStored(run, events, n - 1);
    }
  }

  // ---- The clock behind the frame ---------------------------------------------------------------

  ghost function VerdictOf(y: System, e: Event): Verdict
    requires Defined(y, e) && e.Sample?
  {
    Sampled(y.lin, y.common, e.offset, e.localTs, e.weight).1.verdict
  }

  /** The next interval is counted from what the clock shows after the sample: it has been stepped back by the offset if
      the answer was a JUMP. */
  lemma CountsFromClock(y: System, e: Event)
    requires SystemInv(y) && Admissible(y.lin, e) && e.Sample?
    ensures Defined(y, e)
    ensures Next(y, e).lin.lastUpdate == e.localTs - if VerdictOf(y, e).Jump? then e.offset else 0
  {
    AlwaysDefined(y, e);
  }

  /** The clock's own time between two samples, of which it shows 1 + clockFreq / 10^9 times as much. */
  ghost predicate OwnTime(st: State, e: Event, own: real) {
    if e.Sample? && st.lastUpdate != 0
    then (e.localTs - st.lastUpdate) as real == own * (1.0 + st.clockFreq / 1000000000.0)
    else own == 0.0
  }

  ghost predicate OwnTimes(run: seq<System>, events: seq<Event>, own: seq<real>)
    requires IsRun(run, events)
  {
    |own| == |events| && forall i :: 0 <= i < |events| ==> OwnTime(run[i].lin, events[i], own[i])
  }

  function SumUpTo(own: seq<real>, n: nat): real
    requires n <= |own|
  {
    if n == 0 then 0.0 else SumUpTo(own, n - 1) + own[n - 1]
  }

  lemma PassedIsOwn(st: State, e: Event, own: real)
    requires OwnTime(st, e, own) && Rate(st) > 0.0
    ensures Passed(st, e) == own
  {
    if e.Sample? && st.lastUpdate != 0 {
      var q := Passed(st, e);
      assert q * Rate(st) == own * Rate(st);
      if q != own {
        Compare(q, own, Rate(st));
        Compare(own, q, Rate(st));
      }
    }
  }

  /** The reference, with its remainder, has gained exactly the clock's own time, whatever the corrections. */
  lemma {:induction false} ReferenceIsOwnTime(run: seq<System>, events: seq<Event>, own: seq<real>, n: nat)
    requires IsRun(run, events) && SystemInv(run[0]) && OwnTimes(run, events, own) && n <= |events|
    ensures run[n].lin.refX as real + run[n].lin.xRemainder
         == run[0].lin.refX as real + run[0].lin.xRemainder + SumUpTo(own, n)
  {
    if n > 0 {
      ReferenceIsOwnTime(run, events, own, n - 1);
      RunKeepsInv(run, events, n - 1);
      StepOf(run, events, n - 1);
      RatePositive(run[n - 1].lin.clockFreq);
      NextKeepsTime(run[n - 1], events[n - 1]);
      assert OwnTime(run[n - 1].lin, events[n - 1], own[n - 1]);
      PassedIsOwn(run[n - 1].lin, events[n - 1], own[n - 1]);
    }
  }

  // ---- What a constant frequency error leads to -------------------------------------------------

  /** The frequency the servo would like: the slope's, and what takes the offset away in one update interval, or in two
      or three with 32 or 64 points; after a step, there is no offset left. */
  function Wanted(slope: real, offset: int, steps: bool, interval: real, size: nat): real
    requires interval != 0.0
  {
    var n := if size == 6 then 3.0 else if size == 5 then 2.0 else 1.0;
    1000000000.0 * (slope - 1.0) + (if steps then 0.0 else -(offset as real) / interval / n)
  }

  /** A sample of points on one line finds that line, which passes through the sample itself. */
  lemma LineFound(st: State, offset: int, localTs: int, weight: real, slope: real, base: real, t: State)
    requires Inv(st) && Timely(st, localTs, weight) && Ready(st, offset, localTs, weight)
    requires t == TakenIn(st, offset, localTs, weight) && t.size >= MIN_SIZE
    requires OnLine(t.recent, |t.recent|, slope, base)
    ensures t.results[t.size - MIN_SIZE].slope == slope
    ensures t.results[t.size - MIN_SIZE].intercept == -(offset as real)
  {
    var u := AddSample(UpdateReference(st, localTs), offset, weight);
    TimelyIsReady(st, offset, localTs, weight);
    TakenInKeepsInv(st, offset, localTs, weight);
    LineFoundIn(u, t, offset, weight, slope, base);
  }

  lemma LineFoundIn(u: State, t: State, offset: int, weight: real, slope: real, base: real)
    requires Regressable(u) && Spaced(u.recent) && t == Regress(u).(size := t.size)
    requires MIN_SIZE <= t.size <= MAX_SIZE && Points(t.size) <= |u.recent|
    requires u.recent != [] && u.recent[0] == Point(u.refX, u.refY - offset, weight)
    requires OnLine(u.recent, |u.recent|, slope, base)
    ensures t.results[t.size - MIN_SIZE].slope == slope
    ensures t.results[t.size - MIN_SIZE].intercept == -(offset as real)
  {
    FoundIn(u, t, t.size - MIN_SIZE, slope, base);
    LineMeetsSample(t, t.size - MIN_SIZE, slope, base, offset, weight);
  }

  lemma FoundIn(u: State, t: State, i: nat, slope: real, base: real)
    requires Regressable(u) && Spaced(u.recent) && i < SIZES && Points(i + MIN_SIZE) <= |u.recent|
    requires t == Regress(u).(size := t.size) && OnLine(u.recent, |u.recent|, slope, base)
    ensures t.results[i].slope == slope && Predicted(t, i, u.refX) == base + slope * u.refX as real
  {
    ExactLineRecovered(u, i, slope, base, u.refX);
    PredictsAlike(t, Regress(u), i, u.refX);
  }

  lemma PredictsAlike(s: State, t: State, i: nat, x: int)
    requires s.refX == t.refX && s.refY == t.refY && s.results == t.results && i < |s.results|
    ensures Predicted(s, i, x) == Predicted(t, i, x)
  {
  }

  /** A line through four points or more that is not flat ends the wait. */
  lemma LineChosen(st: State, offset: int, localTs: int, weight: real, slope: real, base: real, t: State)
    requires Inv(st) && Timely(st, localTs, weight) && Ready(st, offset, localTs, weight)
    requires t == TakenIn(st, offset, localTs, weight)
    requires 4 <= |t.recent| && slope != 0.0 && OnLine(t.recent, 4, slope, base)
    ensures MIN_SIZE <= t.size <= MAX_SIZE && Points(t.size) <= |t.recent|
  {
    var u := AddSample(UpdateReference(st, localTs), offset, weight);
    TimelyIsReady(st, offset, localTs, weight);
    TakenInKeepsInv(st, offset, localTs, weight);
    ResultRecovered(u, 0, slope, base);
    assert SlopeOf(t.results, MIN_SIZE) != 0.0;
    SoundErrors(t.results, |t.recent|);
    SelectBasics(t.results, MAX_SIZE);
  }

  lemma SoundErrors(results: seq<Result>, points: nat)
    requires ResultsSound(results, points)
    ensures ErrorsNonNegative(results)
  {
    forall i | 0 <= i < SIZES
      ensures results[i].err >= 0.0
    {
      assert ResultSound(results[i], i + MIN_SIZE, points);
    }
  }

  lemma LineMeetsSample(t: State, i: nat, slope: real, base: real, offset: int, weight: real)
    requires i < |t.results| && t.recent != [] && t.recent[0] == Point(t.refX, t.refY - offset, weight)
    requires OnLine(t.recent, |t.recent|, slope, base) && Predicted(t, i, t.refX) == base + slope * t.refX as real
    ensures t.results[i].intercept == -(offset as real)
  {
    assert t.recent[0].y as real == base + slope * t.recent[0].x as real;
    assert t.results[i].slope * (t.refX - t.refX) as real == 0.0;
  }

  lemma SteeredWants(t: State, offset: int, steps: bool, slope: real, limit: real)
    requires |t.results| == SIZES && MIN_SIZE <= t.size <= MAX_SIZE && t.updateInterval != 0.0
    requires 0.0 <= limit < BILLION
    requires t.results[t.size - MIN_SIZE].slope == slope
    requires t.results[t.size - MIN_SIZE].intercept == -(offset as real)
    ensures Steered(if steps then Stepped(t, offset) else t, limit).clockFreq
         == Clamp(Wanted(slope, offset, steps, t.updateInterval, t.size), limit)
  {
    assert 0 as real * slope == 0.0;
    assert 0.0 / t.updateInterval == 0.0;
  }

  ghost function AnswerOf(y: System, e: Event): Answer
    requires Defined(y, e) && e.Sample?
  {
    Sampled(y.lin, y.common, e.offset, e.localTs, e.weight).1
  }

  /** If the remote times of the samples lie on one line over the clock's own time, the servo answers the opposite of
      what that line wants, within its limit. */
  lemma LineAnswered(y: System, e: Event, slope: real, base: real)
    requires SystemInv(y) && Admissible(y.lin, e) && e.Sample? && Defined(y, e)
    requires !VerdictOf(y, e).Unlocked? && OnLine(Next(y, e).lin.recent, |Next(y, e).lin.recent|, slope, base)
    ensures var st', steps := Next(y, e).lin, VerdictOf(y, e).Jump?;
            AnswerOf(y, e).adjustment
              == -Clamp(Wanted(slope, e.offset, steps, st'.updateInterval, st'.size), y.common.maxFrequency)
  {
    AlwaysDefined(y, e);
    var t := TakenIn(y.lin, e.offset, e.localTs, e.weight);
    TakenInvariant(y.lin, e.offset, e.localTs, e.weight, t);
    LineFound(y.lin, e.offset, e.localTs, e.weight, slope, base, t);
    SteeredWants(t, e.offset, VerdictOf(y, e).Jump?, slope, y.common.maxFrequency);
  }

  /** The samples held after the n-th event lie on a line over the clock's own time, and no leap second has ended
      between them. */
  ghost predicate RunOnLine(run: seq<System>, events: seq<Event>, n: nat, slope: real, base: real)
    requires IsRun(run, events) && n <= |events|
  {
    var samples := SamplesSince(events, n);
    forall k :: 0 <= k < |samples| && k < 64 ==>
      && RemoteTime(events[samples[k]]) as real == base + slope * run[samples[k] + 1].lin.refX as real
      && LeapSeconds(run, events, samples[k] + 1, n) == 0
  }

  lemma PointsOnLine(run: seq<System>, events: seq<Event>, n: nat, slope: real, base: real)
    requires IsRun(run, events) && SystemInv(run[0]) && run[0].lin.recent == [] && n <= |events|
    requires RunOnLine(run, events, n, slope, base)
    ensures OnLine(run[n].lin.recent, |run[n].lin.recent|, slope, base + RemoteOffset(run[n].lin) as real)
  {
    PointsAreSamples(run, events, n);
    var samples := SamplesSince(events, n);
    forall k | 0 <= k < |run[n].lin.recent|
      ensures run[n].lin.recent[k].y as real
           == base + RemoteOffset(run[n].lin) as real + slope * run[n].lin.recent[k].x as real
    {
      assert StoredFrom(run, events, n, samples[k], run[n].lin.recent[k]);
    }
  }

  /** A clock that runs fast, and is not behind, is slowed: its remote time grows less than its own, and the answer,
      whose opposite is set, is positive. A clock that runs slow, and is not ahead, is sped up. */
  lemma FastClockIsSlowed(run: seq<System>, events: seq<Event>, n: nat, slope: real, base: real)
    requires IsRun(run, events) && SystemInv(run[0]) && run[0].lin.recent == [] && n < |events| && events[n].Sample?
    requires Defined(run[n], events[n]) && !VerdictOf(run[n], events[n]).Unlocked?
    requires RunOnLine(run, events, n + 1, slope, base)
    ensures var answer, limit := AnswerOf(run[n], events[n]).adjustment, run[n].common.maxFrequency;
            var st, steps := run[n + 1].lin, VerdictOf(run[n], events[n]).Jump?;
            && st.updateInterval > 0.0
            && answer == -Clamp(Wanted(slope, events[n].offset, steps, st.updateInterval, st.size), limit)
            && (slope < 1.0 && events[n].offset >= 0 && limit > 0.0 ==> answer > 0.0)
            && (slope > 1.0 && events[n].offset <= 0 && limit > 0.0 ==> answer < 0.0)
  {
    RunKeepsInv(run, events, n);
    StepOf(run, events, n);
    PointsOnLine(run, events, n + 1, slope, base);
    LineAnswered(run[n], events[n], slope, base + RemoteOffset(run[n + 1].lin) as real);
    WantedSign(slope, events[n].offset, VerdictOf(run[n], events[n]).Jump?, run[n + 1].lin.updateInterval,
               run[n + 1].lin.size);
  }

  lemma WantedSign(slope: real, offset: int, steps: bool, interval: real, size: nat)
    requires interval > 0.0
    ensures slope < 1.0 && offset >= 0 ==> Wanted(slope, offset, steps, interval, size) < 0.0
    ensures slope > 1.0 && offset <= 0 ==> Wanted(slope, offset, steps, interval, size) > 0.0
  {
    QuotientSign(-(offset as real), interval);
  }

  lemma QuotientSign(x: real, y: real)
    requires y > 0.0
    ensures x >= 0.0 ==> x / y >= 0.0
    ensures x <= 0.0 ==> x / y <= 0.0
  {
  }

  /** Once a size is chosen, the answer is JUMP exactly if the line's distance at the sample is beyond a threshold in
      force, and LOCKED otherwise. */
  lemma JumpIffBeyond(y: System, e: Event)
    requires Defined(y, e) && e.Sample?
    ensures var t := TakenIn(y.lin, e.offset, e.localTs, e.weight); var verdict := VerdictOf(y, e);
            if t.size == 0 then verdict.Unlocked?
            else
              var distance := t.results[t.size - 2].intercept;
              && !verdict.Unlocked? && !verdict.LockedStable?
              && (verdict.Jump? <==>
                    || Beyond(distance, y.common.stepThreshold)
                    || (y.common.firstUpdate && Beyond(distance, y.common.firstStepThreshold)))
  {
  }

  /** A new or reset servo answers rate ratio 1 until it first chooses a size. */
  lemma {:induction false} RatioIsOne(run: seq<System>, events: seq<Event>, i: nat, n: nat, adj: int)
    requires IsRun(run, events) && i <= n <= |events|
    requires run[i].lin == LinReg.Created(adj) || (i > 0 && events[i - 1].Reset?)
    requires forall k :: i < k <= n ==> run[k].lin.size == 0
    ensures run[n].lin.frequencyRatio == 1.0
  {
    if i < n {
      RatioIsOne(run, events, i, n - 1, adj);
      StepOf(run, events, n - 1);
      assert run[n].lin.size == 0;
    } else if n > 0 {
      StepOf(run, events, n - 1);
    }
  }

  // ---- A new servo and a fast clock ---------------------------------------------------------------

  /** No thresholds, an initial adjustment of 0, one sample a second. */
  const NEW_SERVO := System(Servo.Created(Config(500000.0, 0.0, 0.0, 0, 0)), LinReg.Created(0))

  function At(second: nat, offset: int): Event {
    Sample(offset, second * 1000000000, 1.0)
  }

  /** A clock that runs 1000 ppb fast. */
  const FAST: seq<Event> := [SyncInterval(1.0), At(1, 0), At(2, 1000), At(3, 2000), At(4, 3000)]

  /** No correction yet, no size with a line, and the reference at the last local time less one second. */
  ghost predicate Waiting(y: System, second: nat, points: nat) {
    && y.common == NEW_SERVO.common && y.lin.clockFreq == 0.0 && y.lin.xRemainder == 0.0 && y.lin.updateInterval == 1.0
    && |y.lin.recent| == points && y.lin.lastUpdate == second * 1000000000
    && (second > 0 ==> y.lin.refX == (second - 1) * 1000000000)
    && SystemInv(y) && y.lin.leap == 0
  }

  lemma StillWaiting(y: System, second: nat, offset: int, points: nat)
    requires Waiting(y, second, points) && points <= 2 && (second == 0 <==> points == 0)
    requires second == 0 ==> y.lin.refX == 0
    ensures Admissible(y.lin, At(second + 1, offset))
    ensures Waiting(Next(y, At(second + 1, offset)), second + 1, points + 1)
  {
    var e := At(second + 1, offset);
    SampleKeepsInv(y, e);
    AlwaysDefined(y, e);
    OneSecond(y.lin, second);
    var t := TakenIn(y.lin, e.offset, e.localTs, e.weight);
    TakenInvariant(y.lin, e.offset, e.localTs, e.weight, t);
    assert t.size == 0;
  }

  lemma OneSecond(st: State, second: nat)
    requires st.clockFreq == 0.0 && st.xRemainder == 0.0 && st.lastUpdate == second * 1000000000
    ensures Rate(st) == 1.0
    ensures var st' := UpdateReference(st, (second + 1) * 1000000000);
            && st'.xRemainder == 0.0
            && st'.refX == st.refX + if second == 0 then 0 else 1000000000
  {
  }

  /** What the events make of the new servo. */
  ghost predicate FastRun(run: seq<System>) {
    |run| == 6 && run[0] == NEW_SERVO && forall i :: 0 <= i < 5 ==> FastStep(run, i)
  }

  ghost predicate FastStep(run: seq<System>, i: nat)
    requires i < 5 && |run| == 6
  {
    run[i + 1] == Next(run[i], FAST[i])
  }

  lemma FirstWait(run: seq<System>)
    requires FastRun(run)
    ensures Waiting(run[1], 0, 0) && run[1].lin.refX == 0 && Admissible(NEW_SERVO.lin, FAST[0])
  {
    assert FastStep(run, 0);
    CreatedInv(Config(500000.0, 0.0, 0.0, 0, 0), 0);
    NextKeepsInv(NEW_SERVO, FAST[0]);
  }

  lemma NextWait(run: seq<System>, second: nat)
    requires FastRun(run) && second <= 2 && Waiting(run[second + 1], second, second)
    requires second == 0 ==> run[1].lin.refX == 0
    ensures Waiting(run[second + 2], second + 1, second + 1) && Admissible(run[second + 1].lin, FAST[second + 1])
  {
    assert FastStep(run, second + 1);
    assert FAST[second + 1] == At(second + 1, 1000 * second);
    StillWaiting(run[second + 1], second, 1000 * second, second);
  }

  lemma FastWaits(run: seq<System>)
    requires FastRun(run)
    ensures Waiting(run[2], 1, 1) && Waiting(run[3], 2, 2) && Waiting(run[4], 3, 3)
    ensures forall i :: 0 <= i < 4 ==> Admissible(run[i].lin, FAST[i])
  {
    FirstWait(run);
    NextWait(run, 0);
    NextWait(run, 1);
    NextWait(run, 2);
  }

  lemma FastIsRun(run: seq<System>)
    requires FastRun(run)
    ensures IsRun(run, FAST)
  {
    FastWaits(run);
    forall i | 0 <= i < |FAST|
      ensures StepAt(run, FAST, i)
    {
      assert FastStep(run, i);
    }
  }

  lemma FastSamples()
    ensures SamplesSince(FAST, 5) == [4, 3, 2, 1]
  {
    assert SamplesSince(FAST, 1) == [];
    assert SamplesSince(FAST, 2) == [1];
    assert SamplesSince(FAST, 3) == [2, 1];
    assert SamplesSince(FAST, 4) == [3, 2, 1];
  }

  lemma FourthReference(y: System)
    requires Waiting(y, 3, 3) && Admissible(y.lin, At(4, 3000))
    ensures Defined(y, At(4, 3000))
    ensures var st' := Next(y, At(4, 3000)).lin; st'.refX == 3000000000 && st'.updateInterval == 1.0
  {
    AlwaysDefined(y, At(4, 3000));
    OneSecond(y.lin, 3);
  }

  lemma FastOnLine(run: seq<System>)
    requires FastRun(run)
    ensures IsRun(run, FAST) && RunOnLine(run, FAST, 5, 0.999999, 1000000000.0)
    ensures Waiting(run[4], 3, 3) && Admissible(run[4].lin, FAST[4]) && Defined(run[4], FAST[4])
    ensures run[5] == Next(run[4], FAST[4]) && run[5].lin.updateInterval == 1.0
  {
    FastWaits(run);
    FastIsRun(run);
    FastSamples();
    FourthReference(run[4]);
    assert FastStep(run, 4);
    NoLeaps(run);
    FirstWait(run);
    NextWait(run, 0);
    assert run[2].lin.refX == 0;
  }

  lemma {:induction false} NoLeapEnds(run: seq<System>, events: seq<Event>, i: nat, j: nat)
    requires IsRun(run, events) && i <= j <= |events| && forall k :: i <= k < j ==> !events[k].Leap?
    ensures LeapSeconds(run, events, i, j) == 0
  {
    if i < j {
      NoLeapEnds(run, events, i, j - 1);
    }
  }

  lemma NoLeaps(run: seq<System>)
    requires IsRun(run, FAST)
    ensures forall i: nat :: i <= 5 ==> LeapSeconds(run, FAST, i, 5) == 0
  {
    forall i: nat | i <= 5
      ensures LeapSeconds(run, FAST, i, 5) == 0
    {
      NoLeapEnds(run, FAST, i, 5);
    }
  }

  lemma FourPoints(y: System, base: real)
    requires Waiting(y, 3, 3) && Admissible(y.lin, At(4, 3000)) && Defined(y, At(4, 3000))
    requires var recent := Next(y, At(4, 3000)).lin.recent; |recent| == 4 && OnLine(recent, 4, 0.999999, base)
    ensures VerdictOf(y, At(4, 3000)).Locked? && Next(y, At(4, 3000)).lin.size == 2
  {
    var t := TakenIn(y.lin, 3000, 4000000000, 1.0);
    AlwaysDefined(y, At(4, 3000));
    TakenInvariant(y.lin, 3000, 4000000000, 1.0, t);
    LineChosen(y.lin, 3000, 4000000000, 1.0, 0.999999, base, t);
  }

  lemma FastLocks(run: seq<System>)
    requires FastRun(run)
    ensures IsRun(run, FAST) && SystemInv(run[0])
    ensures Defined(run[4], FAST[4]) && VerdictOf(run[4], FAST[4]).Locked? && run[5].lin.size == 2
  {
    FastOnLine(run);
    FastSamples();
    CreatedInv(Config(500000.0, 0.0, 0.0, 0, 0), 0);
    PointsAreSamples(run, FAST, 5);
    PointsOnLine(run, FAST, 5, 0.999999, 1000000000.0);
    FourPoints(run[4], 1000000000.0 + RemoteOffset(run[5].lin) as real);
  }

  /** With offsets of 0, 1000, 2000 and 3000 ns the fourth answer is 4000 ppb: the clock's own 1000, and 3000 more to
      take the offset away in a second. */
  lemma FastAnswered(run: seq<System>)
    requires FastRun(run)
    ensures Defined(run[4], FAST[4]) && AnswerOf(run[4], FAST[4]) == Answer(Locked, 4000.0)
  {
    FastOnLine(run);
    FastLocks(run);
    FastClockIsSlowed(run, FAST, 4, 0.999999, 1000000000.0);
    FastWanted(run[5].lin.updateInterval);
  }

  lemma FastWanted(interval: real)
    requires interval == 1.0
    ensures Clamp(Wanted(0.999999, 3000, false, interval, 2), 500000.0) == -4000.0
  {
  }
}
