/** What every run of the linear regression servo (servo/linreg/linreg.c) keeps. */
module LinRegRun {
  import opened Servo
  import opened LinReg
  import Tmv
  import LS = LeastSquares

  // ---- Frames --------------------------------------------------------------------------------

  /** The remote time that size i predicts for the uncorrected local time x, both in absolute coordinates. */
  function Predicted(st: State, i: nat, x: int): real
    requires i < |st.results|
  {
    st.refY as real + st.results[i].intercept + st.results[i].slope * (x - st.refX) as real
  }

  /** Moving the reference leaves every fitted line where it is. */
  lemma MoveKeepsLines(st: State, dx: int, dy: int, i: nat, x: int)
    requires i < |st.results|
    ensures Predicted(MoveReference(st, dx, dy), i, x) == Predicted(st, i, x)
  {
    var slope := st.results[i].slope;
    assert slope * (x - st.refX - dx) as real == slope * (x - st.refX) as real - dx as real * slope;
  }

  /** Every regressed line is the best fit of exactly the newest Points(size) points, in the current frame. */
  ghost predicate Fitted(st: State) {
    && |st.results| == SIZES
    && forall i :: 0 <= i < SIZES && Points(i + MIN_SIZE) <= |st.recent| ==> FitsAt(st, i)
  }

  ghost predicate FitsAt(st: State, i: nat)
    requires i < SIZES == |st.results| && Points(i + MIN_SIZE) <= |st.recent|
  {
    LS.IsBestFit(Window(st, Points(i + MIN_SIZE)), st.results[i].slope, st.results[i].intercept)
  }

  /** The shared running sums of all sizes yield, for each size, the unique least squares line of its window. */
  lemma RegressFits(st: State)
    requires Regressable(st) && Spaced(st.recent)
    ensures Fitted(Regress(st))
  {
    var st' := Regress(st);
    forall i | 0 <= i < SIZES && Points(i + MIN_SIZE) <= |st'.recent|
      ensures FitsAt(st', i)
    {
      var n := Points(i + MIN_SIZE);
      WindowSpreads(st, n);
      LS.RegressionIsBestFit(Window(st, n));
      assert st'.results[i] == RegressedAt(st, i);
      assert Window(st', n) == Window(st, n);
    }
  }

  lemma MoveKeepsFits(st: State, dx: int, dy: int)
    requires Fitted(st)
    ensures Fitted(MoveReference(st, dx, dy))
  {
    var st' := MoveReference(st, dx, dy);
    forall i | 0 <= i < SIZES && Points(i + MIN_SIZE) <= |st'.recent|
      ensures FitsAt(st', i)
    {
      var n, r := Points(i + MIN_SIZE), st.results[i];
      assert FitsAt(st, i);
      LS.MovedBestFit(Window(st, n), Window(st', n), dx as real, dy as real, r.slope, r.intercept,
                      st'.results[i].intercept);
    }
  }

  /** Regressing after a move gives the slopes and the intercepts of moving after regressing. */
  lemma MoveAndRegressCommute(st: State, dx: int, dy: int, i: nat)
    requires Regressable(st) && Regressable(MoveReference(st, dx, dy)) && Spaced(st.recent) && i < SIZES
    ensures var a, b := Regress(MoveReference(st, dx, dy)).results[i], MoveReference(Regress(st), dx, dy).results[i];
            a.slope == b.slope && a.intercept == b.intercept
  {
    var moved := MoveReference(st, dx, dy);
    assert Regress(moved).results[i] == RegressedAt(moved, i);
    assert Regress(st).results[i] == RegressedAt(st, i);
    if Points(i + MIN_SIZE) <= |st.recent| {
      RegressFits(moved);
      RegressFits(st);
      MoveKeepsFits(Regress(st), dx, dy);
      var a, b := Regress(moved), MoveReference(Regress(st), dx, dy);
      assert FitsAt(a, i) && FitsAt(b, i);
      var n := Points(i + MIN_SIZE);
      assert Window(a, n) == Window(b, n);
      LS.BestFitIsUnique(Window(a, n), a.results[i].slope, a.results[i].intercept,
                         b.results[i].slope, b.results[i].intercept);
    }
  }

  ghost predicate OnLine(recent: seq<Point>, n: nat, slope: real, base: real)
    requires n <= |recent|
  {
    forall j :: 0 <= j < n ==> recent[j].y as real == base + slope * recent[j].x as real
  }

  lemma SlopeOverInterval(slope: real, x: int, origin: int)
    ensures slope * (x - origin) as real == slope * x as real - slope * origin as real
  {
    assert (x - origin) as real == x as real - origin as real;
  }

  /** Where an absolute line meets the frame's remote axis. */
  function InterceptIn(st: State, slope: real, base: real): real {
    base + slope * st.refX as real - st.refY as real
  }

  lemma PointOnLine(p: Point, st: State, slope: real, base: real)
    requires p.y as real == base + slope * p.x as real
    ensures var q := Relative(p, st.refX, st.refY); q.y == slope * q.x + InterceptIn(st, slope, base)
  {
    SlopeOverInterval(slope, p.x, st.refX);
  }

  lemma WindowOnLine(st: State, n: nat, slope: real, base: real)
    requires n <= |st.recent| && OnLine(st.recent, n, slope, base)
    ensures LS.OnLine(Window(st, n), slope, InterceptIn(st, slope, base))
  {
    forall j | 0 <= j < n
      ensures Window(st, n)[j].y == slope * Window(st, n)[j].x + InterceptIn(st, slope, base)
    {
      PointOnLine(st.recent[j], st, slope, base);
    }
  }

  /** Points that lie on one absolute line are fitted by that line, whatever the frame. */
  lemma ExactLineRecovered(st: State, i: nat, slope: real, base: real, x: int)
    requires Regressable(st) && Spaced(st.recent) && i < SIZES && Points(i + MIN_SIZE) <= |st.recent|
    requires OnLine(st.recent, Points(i + MIN_SIZE), slope, base)
    ensures Regress(st).results[i].slope == slope
    ensures Predicted(Regress(st), i, x) == base + slope * x as real
  {
    ResultRecovered(st, i, slope, base);
    LinePredicts(st, Regress(st), i, slope, base, x);
  }

  lemma ResultRecovered(st: State, i: nat, slope: real, base: real)
    requires Regressable(st) && Spaced(st.recent) && i < SIZES && Points(i + MIN_SIZE) <= |st.recent|
    requires OnLine(st.recent, Points(i + MIN_SIZE), slope, base)
    ensures Regress(st).results[i].slope == slope
    ensures Regress(st).results[i].intercept == InterceptIn(st, slope, base)
  {
    assert Regress(st).results[i] == RegressedAt(st, i);
    RegressedLine(st, i, slope, base);
  }

  /** A line through the right point of the frame predicts the absolute line. */
  lemma LinePredicts(frame: State, st: State, i: nat, slope: real, base: real, x: int)
    requires st.refX == frame.refX && st.refY == frame.refY && i < |st.results| && st.results[i].slope == slope
    requires st.results[i].intercept == InterceptIn(frame, slope, base)
    ensures Predicted(st, i, x) == base + slope * x as real
  {
    SlopeOverInterval(slope, x, st.refX);
  }

  lemma RegressedLine(st: State, i: nat, slope: real, base: real)
    requires Regressable(st) && Spaced(st.recent) && i < SIZES && Points(i + MIN_SIZE) <= |st.recent|
    requires OnLine(st.recent, Points(i + MIN_SIZE), slope, base)
    ensures RegressedAt(st, i).slope == slope
    ensures RegressedAt(st, i).intercept == InterceptIn(st, slope, base)
  {
    var n := Points(i + MIN_SIZE);
    WindowSpreads(st, n);
    WindowOnLine(st, n, slope, base);
    LS.LineIsRecovered(Window(st, n), slope, InterceptIn(st, slope, base));
  }

  /** The servo stores times modulo 2^64 and regresses over signed differences: for a window that reaches back less than
      2^63 ns, these are the true differences, so unbounded times lose nothing. */
  lemma MachineTimesAreExact(p: Point, refX: int, refY: int)
    requires Tmv.Fits(p.x - refX) && Tmv.Fits(p.y - refY)
    ensures LS.Point(Tmv.Wrap(Tmv.Unsigned(Tmv.Unsigned(p.x) - Tmv.Unsigned(refX))) as real,
                     Tmv.Wrap(Tmv.Unsigned(Tmv.Unsigned(p.y) - Tmv.Unsigned(refY))) as real, p.w)
         == Relative(p, refX, refY)
  {
    Tmv.MachineDifference(p.x, refX);
    Tmv.MachineDifference(p.y, refY);
  }

  // ---- Choice of the size --------------------------------------------------------------------

  ghost predicate ErrorsNonNegative(results: seq<Result>) {
    |results| == SIZES && forall i :: 0 <= i < SIZES ==> results[i].err >= 0.0
  }

  function SlopeOf(results: seq<Result>, k: int): real
    requires |results| == SIZES && MIN_SIZE <= k <= MAX_SIZE
  {
    results[k - MIN_SIZE].slope
  }

  /** A size that may replace a smaller one. */
  ghost predicate Eligible(results: seq<Result>, k: nat, upTo: nat)
    requires |results| == SIZES
  {
    MIN_SIZE <= k <= upTo <= MAX_SIZE && results[k - MIN_SIZE].errUpdates >= ERR_INITIAL_UPDATES
  }

  ghost predicate Smallest(results: seq<Result>, k: nat, upTo: nat)
    requires |results| == SIZES
  {
    && MIN_SIZE <= k <= upTo <= MAX_SIZE && SlopeOf(results, k) != 0.0
    && forall j :: MIN_SIZE <= j < k ==> SlopeOf(results, j) == 0.0
  }

  ghost function ErrOf(results: seq<Result>, k: nat): (r: real)
    requires ErrorsNonNegative(results) && MIN_SIZE <= k <= MAX_SIZE
    ensures r >= 0.0
  {
    results[k - MIN_SIZE].err
  }

  lemma {:induction false} SelectBasics(results: seq<Result>, k: nat)
    requires ErrorsNonNegative(results) && k <= MAX_SIZE
    ensures var (size, err) := Select(results, k);
            && (size == 0 || MIN_SIZE <= size <= k) && err == (if size == 0 then 0.0 else ErrOf(results, size))
            && (size == 0 <==> forall j :: MIN_SIZE <= j <= k ==> SlopeOf(results, j) == 0.0)
  {
    if k >= MIN_SIZE {
      SelectBasics(results, k - 1);
      assert results[k - MIN_SIZE].err >= 0.0;
      assert results[k - MIN_SIZE].slope == SlopeOf(results, k);
    }
  }

  /** The chosen size is the smallest sloped one, or is justified by enough error updates. */
  lemma {:induction false} SelectJustified(results: seq<Result>, k: nat)
    requires ErrorsNonNegative(results) && k <= MAX_SIZE
    ensures var size := Select(results, k).0; size != 0 ==> Smallest(results, size, k) || Eligible(results, size, k)
  {
    if k >= MIN_SIZE {
      SelectBasics(results, k - 1);
      SelectJustified(results, k - 1);
    }
  }

  /** err multiplied by 1.05 n times. */
  function Allowance(n: nat, err: real): (r: real)
    requires err >= 0.0
    ensures r >= err
  {
    if n == 0 then err else 1.05 * Allowance(n - 1, err)
  }

  lemma SelectAtLeastAsGood(results: seq<Result>, j: nat)
    requires ErrorsNonNegative(results) && MIN_SIZE <= j <= MAX_SIZE
    requires Smallest(results, j, j) || (Eligible(results, j, j) && Select(results, j - 1).0 != 0)
    ensures Select(results, j).0 != 0
    ensures Select(results, j).1 <= ErrOf(results, j)
  {
    SelectBasics(results, j - 1);
    assert results[j - MIN_SIZE].slope == SlopeOf(results, j);
    if Select(results, j).0 != j {
      var best := Select(results, j - 1).0;
      assert results[best - MIN_SIZE].err >= 0.0;
    }
  }

  lemma {:induction false} SelectStaysNear(results: seq<Result>, k: nat, j: nat)
    requires ErrorsNonNegative(results) && MIN_SIZE <= j <= k <= MAX_SIZE
    requires Select(results, j).0 != 0 && Select(results, j).1 <= ErrOf(results, j)
    ensures Select(results, k).0 != 0
    ensures Select(results, k).1 <= Allowance(k - j, ErrOf(results, j))
  {
    assert results[j - MIN_SIZE].err >= 0.0;
    if k > j {
      SelectStaysNear(results, k - 1, j);
    }
  }

  /** The chosen error is within a power of 1.05, one factor for each later size, of the smallest sloped size
      and of every later size with enough error updates. */
  lemma SelectNearBest(results: seq<Result>, j: nat)
    requires ErrorsNonNegative(results) && MIN_SIZE <= j <= MAX_SIZE
    requires Smallest(results, j, j) || (Eligible(results, j, j) && Select(results, j - 1).0 != 0)
    ensures Select(results, MAX_SIZE).1 <= Allowance(MAX_SIZE - j, ErrOf(results, j))
  {
    SelectAtLeastAsGood(results, j);
    SelectStaysNear(results, MAX_SIZE, j);
  }

  /** Every later size with enough error updates is worse than the chosen one by a factor of 1.05. */
  lemma {:induction false} LaterSizesWorse(results: seq<Result>, k: nat, j: nat)
    requires ErrorsNonNegative(results) && k <= MAX_SIZE && Select(results, k).0 < j
    requires Eligible(results, j, k) && Select(results, k).0 != 0
    ensures ErrOf(results, j) >= 1.05 * Select(results, k).1
  {
    SelectBasics(results, k);
    SelectBasics(results, k - 1);
    if j < k {
      LaterSizesWorse(results, k - 1, j);
    }
  }

  /** Enough for a sample: a frequency below 100%, a positive weight, spaced points that end at the reference, and a
      local time that advances by at least 2 ns, with no time stamp equal to the sentinel 0. */
  ghost predicate Timely(st: State, localTs: int, weight: real) {
    && |st.results| == SIZES && Spaced(st.recent) && -BILLION < st.clockFreq < BILLION
    && 0.0 <= st.xRemainder < 1.0
    && (st.recent != [] ==> st.recent[0].x == st.refX && st.lastUpdate != 0)
    && (st.lastUpdate != 0 ==> localTs - st.lastUpdate >= 2)
    && weight > 0.0
  }

  lemma ReferenceAdvances(st: State, localTs: int, weight: real)
    requires Timely(st, localTs, weight)
    ensures 0.0 < Rate(st) < 2.0
    ensures 0.0 <= UpdateReference(st, localTs).xRemainder < 1.0
    ensures st.lastUpdate != 0 ==> UpdateReference(st, localTs).refX > st.refX
  {
    RatePositive(st.clockFreq);
    if st.lastUpdate != 0 {
      MoreThanOne((localTs - st.lastUpdate) as real, Rate(st));
    }
  }

  lemma MoreThanOne(y: real, rate: real)
    requires y >= 2.0 && 0.0 < rate < 2.0
    ensures y / rate > 1.0
  {
    var q := y / rate;
    assert q * rate == y;
    if q <= 1.0 {
      LS.PositiveProduct(rate, 1.0 - q, rate * (1.0 - q));
    }
  }

  lemma TimelyIsReady(st: State, offset: int, localTs: int, weight: real)
    requires Timely(st, localTs, weight)
    ensures Rate(st) != 0.0
    ensures Spaced(AddSample(UpdateReference(st, localTs), offset, weight).recent)
    ensures Ready(st, offset, localTs, weight)
  {
    ReferenceAdvances(st, localTs, weight);
    SpacedIsRegressable(AddSample(UpdateReference(st, localTs), offset, weight));
  }

  // ---- Whole runs ----------------------------------------------------------------------------

  datatype Event = Sample(offset: int, localTs: int, weight: real)
                 | SyncInterval(interval: real)
                 | Reset
                 | Leap(leap: int)

  datatype System = System(common: Common, lin: State)

  /** What the environment owes: positive weights and intervals, local times that advance by 2 ns beyond any step, and
      no time stamp that equals the sentinel 0. */
  ghost predicate Admissible(st: State, e: Event) {
    match e
    case Sample(_, localTs, weight) =>
      && weight > 0.0 && st.updateInterval > 0.0
      && (st.recent != [] ==> st.lastUpdate != 0)
      && (st.lastUpdate != 0 ==> localTs - st.lastUpdate >= 2)
    case SyncInterval(interval) => interval > 0.0
    case Reset => true
    case Leap(_) => true
  }

  ghost predicate Defined(y: System, e: Event) {
    e.Sample? ==>
      && Ready(y.lin, e.offset, e.localTs, e.weight) && y.lin.updateInterval != 0.0
      && 0.0 <= y.common.maxFrequency < BILLION
  }

  /** One call through the wrapper; a sample for which some division fails is left out of the step relation. */
  ghost function Next(y: System, e: Event): System {
    match e
    case Sample(offset, localTs, weight) =>
      if Defined(y, e) then
        var (lin, answer) := Sampled(y.lin, y.common, offset, localTs, weight);
        System(After(y.common, answer.verdict, offset), lin)
      else y
    case SyncInterval(interval) => y.(lin := y.lin.(updateInterval := interval))
    case Reset => y.(lin := AfterReset(y.lin))
    case Leap(leap) => y.(lin := AfterLeap(y.lin, leap))
  }

  ghost predicate IsRun(run: seq<System>, events: seq<Event>) {
    && |run| == |events| + 1
    && forall i :: 0 <= i < |events| ==> StepAt(run, events, i)
  }

  ghost predicate StepAt(run: seq<System>, events: seq<Event>, i: nat)
    requires i < |events| && |run| == |events| + 1
  {
    Admissible(run[i].lin, events[i]) && run[i + 1] == Next(run[i], events[i])
  }

  lemma StepOf(run: seq<System>, events: seq<Event>, i: nat)
    requires IsRun(run, events) && i < |events|
    ensures Admissible(run[i].lin, events[i]) && run[i + 1] == Next(run[i], events[i])
  {
    assert StepAt(run, events, i);
  }

  ghost predicate ResultSound(r: Result, size: nat, points: nat)
    requires MIN_SIZE <= size <= MAX_SIZE
  {
    r.err >= 0.0 && r.errUpdates <= ERR_INITIAL_UPDATES
    && (r.slope != 0.0 || r.errUpdates > 0 ==> Points(size) <= points)
  }

  ghost predicate ResultsSound(results: seq<Result>, points: nat) {
    |results| == SIZES && forall i :: 0 <= i < SIZES ==> ResultSound(results[i], i + MIN_SIZE, points)
  }

  ghost predicate Inv(st: State) {
    && |st.recent| <= MAX_POINTS && Spaced(st.recent)
    && (st.recent != [] ==> st.recent[0].x == st.refX)
    && 0.0 <= st.xRemainder < 1.0 && -BILLION < st.clockFreq < BILLION && st.updateInterval >= 0.0
    && ResultsSound(st.results, |st.recent|)
    && (st.size == 0 || (MIN_SIZE <= st.size <= MAX_SIZE && Points(st.size) <= |st.recent|))
    && Fitted(st)
  }

  ghost predicate SystemInv(y: System) {
    Inv(y.lin) && 0.0 <= y.common.maxFrequency < BILLION
  }

  lemma MoveKeepsSound(st: State, dx: int, dy: int, points: nat)
    requires ResultsSound(st.results, points)
    ensures ResultsSound(MoveReference(st, dx, dy).results, points)
  {
    var moved := MoveReference(st, dx, dy).results;
    forall i | 0 <= i < SIZES
      ensures ResultSound(moved[i], i + MIN_SIZE, points)
    {
      assert ResultSound(st.results[i], i + MIN_SIZE, points);
    }
  }

  lemma RegressKeepsSound(st: State, points: nat)
    requires Regressable(st) && ResultsSound(st.results, points) && points <= |st.recent|
    ensures ResultsSound(Regress(st).results, |st.recent|)
  {
    forall i | 0 <= i < SIZES
      ensures ResultSound(Regress(st).results[i], i + MIN_SIZE, |st.recent|)
    {
      assert ResultSound(st.results[i], i + MIN_SIZE, points);
      assert Regress(st).results[i] == RegressedAt(st, i);
      if Points(i + MIN_SIZE) <= |st.recent| {
        ErrorStaysNonNegative(st.results[i], AbsReal(st.results[i].intercept - Newest(st)));
      }
    }
  }

  lemma ErrorStaysNonNegative(r: Result, e: real)
    requires r.err >= 0.0 && e >= 0.0
    ensures WithError(r, e).err >= 0.0
  {
    NextErrorNonNegative(r.err, r.errUpdates, e);
  }

  lemma NextErrorNonNegative(err: real, errUpdates: nat, e: real)
    requires err >= 0.0 && e >= 0.0
    ensures NextError(err, errUpdates, e) >= 0.0
  {
    if errUpdates < ERR_INITIAL_UPDATES {
      var n := errUpdates as real;
      assert err * n >= 0.0;
      QuotientNonNegative(err * n + e, (errUpdates + 1) as real);
    }
  }

  lemma QuotientNonNegative(a: real, b: real)
    requires a >= 0.0 && b > 0.0
    ensures a / b >= 0.0
  {
  }

  lemma ChosenSizeSound(results: seq<Result>, points: nat)
    requires ResultsSound(results, points)
    ensures var size := Select(results, MAX_SIZE).0;
            size == 0 || (MIN_SIZE <= size <= MAX_SIZE && Points(size) <= points)
  {
    assert forall i :: 0 <= i < SIZES ==> ResultSound(results[i], i + MIN_SIZE, points);
    SelectBasics(results, MAX_SIZE);
    SelectJustified(results, MAX_SIZE);
    var size := Select(results, MAX_SIZE).0;
    if size != 0 {
      assert ResultSound(results[size - MIN_SIZE], size, points);
      assert Smallest(results, size, MAX_SIZE) ==> SlopeOf(results, size) != 0.0;
    }
  }

  /** A system that keeps the invariant meets no failing division at an admissible sample. */
  lemma AlwaysDefined(y: System, e: Event)
    requires SystemInv(y) && Admissible(y.lin, e)
    ensures Defined(y, e)
    ensures e.Sample? ==> Timely(y.lin, e.localTs, e.weight)
  {
    if e.Sample? {
      TimelyIsReady(y.lin, e.offset, e.localTs, e.weight);
    }
  }

  lemma TakenInKeepsInv(st: State, offset: int, localTs: int, weight: real)
    requires Inv(st) && Timely(st, localTs, weight) && Ready(st, offset, localTs, weight)
    ensures Inv(TakenIn(st, offset, localTs, weight))
    ensures |TakenIn(st, offset, localTs, weight).recent| > 0
  {
    ReferenceAdvances(st, localTs, weight);
    TimelyIsReady(st, offset, localTs, weight);
    var u := UpdateReference(st, localTs);
    if st.lastUpdate != 0 {
      MoveKeepsSound(st, u.refX - st.refX, localTs - st.lastUpdate, |st.recent|);
    }
    assert ResultsSound(u.results, |st.recent|);
    var v := AddSample(u, offset, weight);
    RegressKeepsSound(v, |st.recent|);
    RegressFits(v);
    ChosenSizeSound(Regress(v).results, |v.recent|);
    FitsIgnoreSize(Regress(v), TakenIn(st, offset, localTs, weight));
  }

  /** Fits depend on points, reference and results only. */
  lemma FitsIgnoreSize(st: State, st': State)
    requires Fitted(st)
    requires st'.recent == st.recent && st'.refX == st.refX && st'.refY == st.refY && st'.results == st.results
    ensures Fitted(st')
  {
    forall i | 0 <= i < SIZES && Points(i + MIN_SIZE) <= |st'.recent|
      ensures FitsAt(st', i)
    {
      assert FitsAt(st, i);
      assert Window(st', Points(i + MIN_SIZE)) == Window(st, Points(i + MIN_SIZE));
    }
  }

  lemma MoveKeepsInv(st: State, dy: int)
    requires Inv(st)
    ensures Inv(MoveReference(st, 0, dy))
  {
    MoveKeepsSound(st, 0, dy, |st.recent|);
    MoveKeepsFits(st, 0, dy);
  }

  lemma SteeredKeepsInv(t: State, offset: int, steps: bool, limit: real)
    requires Inv(t) && t.size >= MIN_SIZE && t.updateInterval != 0.0 && 0.0 <= limit < BILLION
    ensures Inv(Steered(if steps then Stepped(t, offset) else t, limit))
  {
    MoveKeepsInv(t, -offset);
    FitsIgnoreSize(MoveReference(t, 0, -offset), Stepped(t, offset));
    var u := if steps then Stepped(t, offset) else t;
    FitsIgnoreSize(u, Steered(u, limit));
  }

  lemma SampleKeepsInv(y: System, e: Event)
    requires SystemInv(y) && Admissible(y.lin, e) && e.Sample?
    ensures SystemInv(Next(y, e))
  {
    AlwaysDefined(y, e);
    var t := TakenIn(y.lin, e.offset, e.localTs, e.weight);
    TakenInvariant(y.lin, e.offset, e.localTs, e.weight, t);
    if t.size >= MIN_SIZE {
      SteeredKeepsInv(t, e.offset, Steps(y.common, t.results[t.size - MIN_SIZE].intercept), y.common.maxFrequency);
    }
  }

  lemma TakenInvariant(st: State, offset: int, localTs: int, weight: real, t: State)
    requires Inv(st) && Timely(st, localTs, weight) && Ready(st, offset, localTs, weight)
    requires t == TakenIn(st, offset, localTs, weight)
    ensures Inv(t) && t.recent != [] && t.updateInterval == st.updateInterval
    ensures t.lastUpdate == localTs && t.refY - t.lastUpdate
              == if st.lastUpdate == 0 then st.refY - localTs else st.refY - st.lastUpdate
  {
    TakenInKeepsInv(st, offset, localTs, weight);
  }

  lemma NextKeepsInv(y: System, e: Event)
    requires SystemInv(y) && Admissible(y.lin, e)
    ensures SystemInv(Next(y, e))
  {
    match e
    case Sample(_, _, _) =>
      SampleKeepsInv(y, e);
    case SyncInterval(interval) =>
      FitsIgnoreSize(y.lin, Next(y, e).lin);
    case Reset =>
    case Leap(leap) =>
      MoveKeepsInv(y.lin, y.lin.leap * 1000000000);
      var moved := MoveReference(y.lin, 0, y.lin.leap * 1000000000);
      FitsIgnoreSize(moved, moved.(leap := leap));
      FitsIgnoreSize(y.lin, y.lin.(leap := leap));
  }

  /** In every reachable state the frame remainder, the rate, the spacing of the points, the error averages, the chosen
      size and all fitted lines are as they should be, and the next admissible sample meets no failing division. */
  lemma {:induction false} RunKeepsInv(run: seq<System>, events: seq<Event>, i: nat)
    requires IsRun(run, events) && SystemInv(run[0]) && i < |run|
    ensures SystemInv(run[i])
    ensures i < |events| ==> Defined(run[i], events[i])
  {
    if i > 0 {
      RunKeepsInv(run, events, i - 1);
      StepOf(run, events, i - 1);
      NextKeepsInv(run[i - 1], events[i - 1]);
    }
    if i < |events| {
      StepOf(run, events, i);
      AlwaysDefined(run[i], events[i]);
    }
  }

  /** The reference strictly increases from sample to sample, up to resets. */
  lemma ReferenceIncreases(run: seq<System>, events: seq<Event>, i: nat)
    requires IsRun(run, events) && SystemInv(run[0]) && i < |events| && events[i].Sample?
    requires run[i].lin.lastUpdate != 0
    ensures run[i + 1].lin.refX > run[i].lin.refX
  {
    RunKeepsInv(run, events, i);
    StepOf(run, events, i);
    AlwaysDefined(run[i], events[i]);
    ReferenceAdvances(run[i].lin, events[i].localTs, events[i].weight);
  }

  lemma CreatedInv(cfg: Config, initialAdj: int)
    requires 0.0 <= cfg.maxFrequency < BILLION && -1000000000 < initialAdj < 1000000000
    ensures SystemInv(System(Servo.Created(cfg), LinReg.Created(initialAdj)))
  {
    assert -BILLION < initialAdj as real < BILLION;
  }

  /** After a sample there is a size unless every line is flat, and every larger size with ten errors averaged is worse
      than the chosen one by a factor of 1.05. */
  lemma ChosenSize(st: State, offset: int, localTs: int, weight: real, j: nat)
    requires Inv(st) && Timely(st, localTs, weight) && Ready(st, offset, localTs, weight)
    ensures var t := TakenIn(st, offset, localTs, weight);
            && (t.size == 0 <==> forall i :: 0 <= i < 5 ==> t.results[i].slope == 0.0)
            && (t.size != 0 && t.size < j <= 6 && t.results[j - 2].errUpdates >= 10 ==>
                  t.results[j - 2].err >= 1.05 * t.results[t.size - 2].err)
  {
    TakenInKeepsInv(st, offset, localTs, weight);
    var t := TakenIn(st, offset, localTs, weight);
    ChosenAmong(t.results, |t.recent|, j);
  }

  lemma ChosenAmong(results: seq<Result>, points: nat, j: nat)
    requires ResultsSound(results, points)
    ensures var size := Select(results, 6).0;
            && (size == 0 || 2 <= size <= 6) && (size == 0 <==> forall i :: 0 <= i < 5 ==> results[i].slope == 0.0)
            && (size != 0 && size < j <= 6 && results[j - 2].errUpdates >= 10 ==>
                  results[j - 2].err >= 1.05 * results[size - 2].err)
  {
    assert forall i :: 0 <= i < 5 ==> ResultSound(results[i], i + 2, points);
    SelectBasics(results, 6);
    assert forall i :: 0 <= i < 5 ==> SlopeOf(results, i + 2) == results[i].slope;
    var size := Select(results, 6).0;
    if size != 0 && size < j <= 6 && results[j - 2].errUpdates >= 10 {
      LaterSizesWorse(results, 6, j);
    }
  }

  // ---- Conservation of time ------------------------------------------------------------------

  /** Truncation only moves a fraction from the reference into the remainder. */
  lemma NothingLost(st: State, localTs: int)
    requires Rate(st) != 0.0
    ensures var st' := UpdateReference(st, localTs);
            && st'.refX as real + st'.xRemainder
                 == st.refX as real + st.xRemainder + (if st.lastUpdate == 0 then 0.0 else Elapsed(st, localTs))
            && (-1.0 < st.xRemainder < 1.0 ==> -1.0 < st'.xRemainder < 1.0)
  {
  }

  /** The exact uncorrected local time that passes in one event. */
  ghost function Passed(st: State, e: Event): real
    requires Rate(st) != 0.0
  {
    if e.Sample? && st.lastUpdate != 0 then Elapsed(st, e.localTs) else 0.0
  }

  ghost function PassedUpTo(run: seq<System>, events: seq<Event>, n: nat): real
    requires IsRun(run, events) && SystemInv(run[0]) && n <= |events|
  {
    if n == 0 then 0.0
    else
      RunKeepsInv(run, events, n - 1);
      RatePositive(run[n - 1].lin.clockFreq);
      PassedUpTo(run, events, n - 1) + Passed(run[n - 1].lin, events[n - 1])
  }

  lemma NextKeepsTime(y: System, e: Event)
    requires SystemInv(y) && Admissible(y.lin, e)
    ensures Rate(y.lin) != 0.0
    ensures var y' := Next(y, e);
            y'.lin.refX as real + y'.lin.xRemainder == y.lin.refX as real + y.lin.xRemainder + Passed(y.lin, e)
  {
    RatePositive(y.lin.clockFreq);
    AlwaysDefined(y, e);
    if e.Sample? {
      NothingLost(y.lin, e.localTs);
    }
  }

  /** After any run, reference and remainder together are the exact real sum of all intervals: truncation never adds
      up. */
  lemma {:induction false} TimeIsConserved(run: seq<System>, events: seq<Event>, n: nat)
    requires IsRun(run, events) && SystemInv(run[0]) && n <= |events|
    ensures run[n].lin.refX as real + run[n].lin.xRemainder
         == run[0].lin.refX as real + run[0].lin.xRemainder + PassedUpTo(run, events, n)
    ensures 0.0 <= run[n].lin.xRemainder < 1.0
  {
    RunKeepsInv(run, events, n);
    if n > 0 {
      TimeIsConserved(run, events, n - 1);
      RunKeepsInv(run, events, n - 1);
      StepOf(run, events, n - 1);
      NextKeepsTime(run[n - 1], events[n - 1]);
    }
  }

  /** The remote time at the reference, counted from the last local time stamp. */
  function RemoteOffset(st: State): int {
    st.refY - st.lastUpdate
  }

  /** The leap second that an event ends, if any. */
  function LeapEnded(y: System, e: Event): int {
    if e.Leap? && e.leap == 0 then y.lin.leap else 0
  }

  /** Leap seconds that end in the events from i to j. */
  ghost function LeapSeconds(run: seq<System>, events: seq<Event>, i: nat, j: nat): int
    requires IsRun(run, events) && i <= j <= |events|
  {
    if i == j then 0
    else
      LeapSeconds(run, events, i, j - 1) + LeapEnded(run[j - 1], events[j - 1])
  }

  /** From the first sample on, through samples and jumps, the remote reference stays a constant away from the last
      local time stamp; only ends of leap seconds change the constant, by one second each. */
  lemma {:induction false} RemoteOffsetIsConserved(run: seq<System>, events: seq<Event>, i: nat, j: nat)
    requires IsRun(run, events) && SystemInv(run[0]) && i <= j <= |events|
    requires forall k :: i <= k < j ==> !events[k].Reset?
    requires run[i].lin.recent != []
    ensures run[j].lin.recent != []
    ensures RemoteOffset(run[j].lin) == RemoteOffset(run[i].lin) + 1000000000 * LeapSeconds(run, events, i, j)
  {
    if i < j {
      RemoteOffsetIsConserved(run, events, i, j - 1);
      RemoteStep(run, events, j - 1);
    }
  }

  lemma RemoteStep(run: seq<System>, events: seq<Event>, i: nat)
    requires IsRun(run, events) && SystemInv(run[0]) && i < |events| && !events[i].Reset? && run[i].lin.recent != []
    ensures run[i + 1].lin.recent != []
    ensures RemoteOffset(run[i + 1].lin) == RemoteOffset(run[i].lin) + 1000000000 * LeapEnded(run[i], events[i])
  {
    RunKeepsInv(run, events, i);
    StepOf(run, events, i);
    NextKeepsRemoteOffset(run[i], events[i]);
  }

  lemma NextKeepsRemoteOffset(y: System, e: Event)
    requires SystemInv(y) && Admissible(y.lin, e) && !e.Reset? && y.lin.recent != []
    ensures Next(y, e).lin.recent != []
    ensures RemoteOffset(Next(y, e).lin)
         == RemoteOffset(y.lin) + 1000000000 * LeapEnded(y, e)
  {
    AlwaysDefined(y, e);
    if e.Sample? {
      var t := TakenIn(y.lin, e.offset, e.localTs, e.weight);
      TakenInvariant(y.lin, e.offset, e.localTs, e.weight, t);
    }
  }

  // ---- Steering --------------------------------------------------------------------------------

  /** Unless it is limited, the new frequency makes the clock meet the fitted line exactly one update interval later,
      two with 32 points or three with 64, and the rate ratio converts between the two rates. */
  lemma SteeringMeetsTheLine(st: State, limit: real)
    requires |st.results| == SIZES && MIN_SIZE <= st.size <= MAX_SIZE && st.updateInterval > 0.0
    requires 0.0 <= limit < BILLION
    requires -limit < Steered(st, limit).clockFreq < limit
    ensures var u, r := Steered(st, limit), st.results[st.size - MIN_SIZE];
            var n := if st.size == 6 then 3.0 else if st.size == 5 then 2.0 else 1.0;
            var dx := 1000000000.0 * st.updateInterval * n;
            && Rate(u) * dx == r.intercept + r.slope * dx
            && u.frequencyRatio * Rate(u) == r.slope
  {
    var u, r := Steered(st, limit), st.results[st.size - MIN_SIZE];
    RatePositive(u.clockFreq);
    var n := if st.size == 6 then 3.0 else if st.size == 5 then 2.0 else 1.0;
    assert CorrectionInterval(st.size) as real == n;
    Meeting(r.slope, r.intercept, st.updateInterval, n, u.clockFreq);
  }

  lemma Meeting(slope: real, intercept: real, interval: real, n: real, freq: real)
    requires interval > 0.0 && n > 0.0 && freq == BILLION * (slope - 1.0) + intercept / interval / n
    ensures var dx := BILLION * interval * n; (1.0 + freq / BILLION) * dx == intercept + slope * dx
  {
    var c := intercept / interval / n;
    assert c * n == intercept / interval && intercept / interval * interval == intercept;
    assert c * (interval * n) == intercept by {
      assert c * (interval * n) == c * n * interval;
    }
    var k := interval * n;
    assert freq / BILLION == slope - 1.0 + c / BILLION;
    assert (slope + c / BILLION) * (BILLION * k) == slope * (BILLION * k) + c * k;
  }

  /** Once the servo has steered, its frequency stays within the limit for good. */
  lemma {:induction false} FrequencyLimited(run: seq<System>, events: seq<Event>, i: nat, j: nat)
    requires IsRun(run, events) && SystemInv(run[0]) && i < j <= |events|
    requires events[i].Sample? && Next(run[i], events[i]).lin.size >= MIN_SIZE
    ensures run[j].common.maxFrequency == run[i].common.maxFrequency && WithinLimit(run[j])
  {
    StepFrequency(run, events, j - 1);
    if i < j - 1 {
      FrequencyLimited(run, events, i, j - 1);
    }
  }

  /** What one event of a run makes of frequency and limit. */
  lemma StepFrequency(run: seq<System>, events: seq<Event>, i: nat)
    requires IsRun(run, events) && SystemInv(run[0]) && i < |events|
    ensures run[i + 1].common.maxFrequency == run[i].common.maxFrequency
    ensures WithinLimit(run[i + 1]) || run[i + 1].lin.clockFreq == run[i].lin.clockFreq
    ensures events[i].Sample? && Next(run[i], events[i]).lin.size >= MIN_SIZE ==> WithinLimit(run[i + 1])
  {
    RunKeepsInv(run, events, i);
    StepOf(run, events, i);
    NextFrequency(run[i], events[i]);
  }

  ghost predicate WithinLimit(y: System) {
    -y.common.maxFrequency <= y.lin.clockFreq <= y.common.maxFrequency
  }

  lemma NextFrequency(y: System, e: Event)
    requires Defined(y, e)
    ensures var limit, freq := y.common.maxFrequency, Next(y, e).lin.clockFreq;
            && Next(y, e).common.maxFrequency == limit
            && (freq == y.lin.clockFreq || -limit <= freq <= limit)
            && (e.Sample? && Next(y, e).lin.size >= MIN_SIZE ==> -limit <= freq <= limit)
  {
  }

  // ---- Prediction errors ---------------------------------------------------------------------

  /** How far the line fitted before the sample misses the new point, in absolute coordinates. */
  ghost function Miss(st: State, i: nat, p: Point): real
    requires i < |st.results|
  {
    AbsReal(Predicted(st, i, p.x) - p.y as real)
  }

  /** Right after the sample is added, its distance to the intercept is the miss of the line fitted before. */
  lemma InterceptMisses(st: State, offset: int, localTs: int, weight: real, i: nat)
    requires Rate(st) != 0.0 && i < SIZES == |st.results|
    ensures var u := AddSample(UpdateReference(st, localTs), offset, weight);
            && i < |u.results| && u.results[i].slope == st.results[i].slope
            && u.results[i].err == st.results[i].err && u.results[i].errUpdates == st.results[i].errUpdates
            && AbsReal(u.results[i].intercept - Newest(u)) == Miss(st, i, u.recent[0])
  {
    var s := UpdateReference(st, localTs);
    if st.lastUpdate != 0 {
      MoveKeepsLines(st, s.refX - st.refX, localTs - st.lastUpdate, i, s.refX);
      assert s.results[i] == MovedResult(st.results[i], s.refX - st.refX, localTs - st.lastUpdate);
    }
    assert Predicted(s, i, s.refX) == Predicted(st, i, s.refX);
    assert Predicted(s, i, s.refX) == s.refY as real + s.results[i].intercept by {
      assert s.results[i].slope * (s.refX - s.refX) as real == 0.0;
    }
  }

  /** What a sample makes of the error of one size. */
  ghost function WithMiss(st: State, i: nat, p: Point, points: nat): Result
    requires i < SIZES == |st.results|
  {
    if Points(i + MIN_SIZE) > points then st.results[i] else WithError(st.results[i], Miss(st, i, p))
  }

  /** The error that is averaged is the true one-step-ahead prediction error, whatever became of the frame. */
  lemma ErrorIsMiss(st: State, offset: int, localTs: int, weight: real, i: nat)
    requires Ready(st, offset, localTs, weight) && i < SIZES
    ensures var t := TakenIn(st, offset, localTs, weight);
            && t.recent != []
            && t.results[i].errUpdates == WithMiss(st, i, t.recent[0], |t.recent|).errUpdates
            && t.results[i].err == WithMiss(st, i, t.recent[0], |t.recent|).err
  {
    var u := AddSample(UpdateReference(st, localTs), offset, weight);
    InterceptMisses(st, offset, localTs, weight, i);
    assert TakenIn(st, offset, localTs, weight).results[i] == RegressedAt(u, i);
  }

  /** The misses a size has averaged since the last reset. */
  ghost function Misses(run: seq<System>, events: seq<Event>, n: nat, i: nat): seq<real>
    requires IsRun(run, events) && SystemInv(run[0]) && n <= |events| && i < SIZES
  {
    if n == 0 then []
    else
      RunKeepsInv(run, events, n - 1);
      var st, e := run[n - 1].lin, events[n - 1];
      match e
      case Sample(offset, localTs, weight) =>
        RatePositive(st.clockFreq);
        MissesWith(st, i, Latest(st, offset, localTs, weight), Misses(run, events, n - 1, i))
      case Reset => []
      case _ => Misses(run, events, n - 1, i)
  }

  ghost function Latest(st: State, offset: int, localTs: int, weight: real): Point
    requires Rate(st) != 0.0
  {
    AddSample(UpdateReference(st, localTs), offset, weight).recent[0]
  }

  function Total(errors: seq<real>): real {
    if errors == [] then 0.0 else Total(errors[..|errors| - 1]) + errors[|errors| - 1]
  }

  /** The plain mean of the first errors, then an exponential average. */
  function Smoothed(errors: seq<real>): real
    requires errors != []
  {
    if |errors| <= 10 then Total(errors) / |errors| as real
    else
      var before := Smoothed(errors[..|errors| - 1]);
      0.98 * before + 0.02 * errors[|errors| - 1]
  }

  ghost predicate Averages(r: Result, errors: seq<real>) {
    && r.errUpdates == (if |errors| <= ERR_INITIAL_UPDATES then |errors| else ERR_INITIAL_UPDATES)
    && (errors != [] ==> r.err == Smoothed(errors))
  }

  lemma ErrorAverages(r: Result, errors: seq<real>, e: real)
    requires Averages(r, errors) && r.slope != 0.0
    ensures Averages(WithError(r, e), errors + [e])
  {
    var errors' := errors + [e];
    assert errors'[..|errors'| - 1] == errors;
    if errors == [] {
      assert Total([]) == 0.0 && r.err * 0.0 == 0.0;
    } else if |errors| < ERR_INITIAL_UPDATES {
      assert r.err * |errors| as real == Total(errors);
    }
  }

  /** The misses after one more sample. */
  ghost function MissesWith(st: State, i: nat, p: Point, errors: seq<real>): seq<real>
    requires i < |st.results|
  {
    if st.results[i].slope != 0.0 then errors + [Miss(st, i, p)] else errors
  }

  lemma MissAverages(st: State, i: nat, p: Point, points: nat, errors: seq<real>)
    requires i < SIZES == |st.results| && Averages(st.results[i], errors)
    requires st.results[i].slope != 0.0 ==> Points(i + MIN_SIZE) <= points
    ensures Averages(WithMiss(st, i, p, points), MissesWith(st, i, p, errors))
  {
    if st.results[i].slope != 0.0 {
      ErrorAverages(st.results[i], errors, Miss(st, i, p));
    }
  }

  lemma SampleAverages(st: State, offset: int, localTs: int, weight: real, i: nat, errors: seq<real>)
    requires Inv(st) && Ready(st, offset, localTs, weight) && i < SIZES && Averages(st.results[i], errors)
    ensures Averages(TakenIn(st, offset, localTs, weight).results[i],
                     MissesWith(st, i, Latest(st, offset, localTs, weight), errors))
  {
    ErrorIsMiss(st, offset, localTs, weight, i);
    assert ResultSound(st.results[i], i + MIN_SIZE, |st.recent|);
    var t := TakenIn(st, offset, localTs, weight);
    assert t.recent[0] == Latest(st, offset, localTs, weight) && |t.recent| >= |st.recent|;
    MissAverages(st, i, t.recent[0], |t.recent|, errors);
  }

  /** Steps and steering leave the averages alone. */
  lemma SampleKeepsAverages(y: System, e: Event, i: nat)
    requires Defined(y, e) && e.Sample? && i < SIZES
    ensures var t := TakenIn(y.lin, e.offset, e.localTs, e.weight).results[i];
            Next(y, e).lin.results[i].err == t.err && Next(y, e).lin.results[i].errUpdates == t.errUpdates
  {
  }

  /** In every reachable state, each size's error is the plain mean of its first ten true prediction errors since the
      last reset, and then the exponential average of all of them. */
  lemma {:induction false} ErrorsAverageMisses(run: seq<System>, events: seq<Event>, n: nat, i: nat)
    requires IsRun(run, events) && SystemInv(run[0]) && n <= |events| && i < SIZES
    requires run[0].lin.results[i].errUpdates == 0
    ensures |run[n].lin.results| == SIZES
    ensures Averages(run[n].lin.results[i], Misses(run, events, n, i))
  {
    RunKeepsInv(run, events, n);
    if n > 0 {
      ErrorsAverageMisses(run, events, n - 1, i);
      RunKeepsInv(run, events, n - 1);
      StepOf(run, events, n - 1);
      NextAverages(run[n - 1], events[n - 1], i, Misses(run, events, n - 1, i));
    }
  }

  lemma NextAverages(y: System, e: Event, i: nat, errors: seq<real>)
    requires SystemInv(y) && Admissible(y.lin, e) && i < SIZES && Averages(y.lin.results[i], errors)
    ensures |Next(y, e).lin.results| == SIZES && Rate(y.lin) != 0.0
    ensures Averages(Next(y, e).lin.results[i],
                     match e
                     case Sample(offset, localTs, weight) =>
                       MissesWith(y.lin, i, Latest(y.lin, offset, localTs, weight), errors)
                     case Reset => []
                     case _ => errors)
  {
    RatePositive(y.lin.clockFreq);
    AlwaysDefined(y, e);
    if e.Sample? {
      SampleAverages(y.lin, e.offset, e.localTs, e.weight, i, errors);
      SampleKeepsAverages(y, e, i);
    }
  }

  /** An average lies between the bounds of what it averages. */
  lemma {:induction false} SmoothedBetween(errors: seq<real>, lo: real, hi: real)
    requires errors != [] && forall k :: 0 <= k < |errors| ==> lo <= errors[k] <= hi
    ensures lo <= Smoothed(errors) <= hi
  {
    if |errors| <= ERR_INITIAL_UPDATES {
      TotalBetween(errors, lo, hi);
      MeanBetween(Total(errors), |errors| as real, lo, hi);
    } else {
      SmoothedBetween(errors[..|errors| - 1], lo, hi);
    }
  }

  lemma MeanBetween(total: real, n: real, lo: real, hi: real)
    requires n > 0.0 && lo * n <= total <= hi * n
    ensures lo <= total / n <= hi
  {
    var q := total / n;
    assert q * n == total;
    if q < lo {
      LS.PositiveProduct(n, lo - q, n * (lo - q));
    }
    if q > hi {
      LS.PositiveProduct(n, q - hi, n * (q - hi));
    }
  }

  lemma {:induction false} TotalBetween(errors: seq<real>, lo: real, hi: real)
    requires forall k :: 0 <= k < |errors| ==> lo <= errors[k] <= hi
    ensures lo * |errors| as real <= Total(errors) <= hi * |errors| as real
  {
    if errors != [] {
      TotalBetween(errors[..|errors| - 1], lo, hi);
      assert lo * |errors| as real == lo * (|errors| - 1) as real + lo;
      assert hi * |errors| as real == hi * (|errors| - 1) as real + hi;
    }
  }
}
