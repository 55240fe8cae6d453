/** The adaptive servo based on linear regression (servo/linreg/linreg.c): what each operation does to its state. */
module LinReg {
  import opened Servo
  import Tmv
  import LS = LeastSquares

  const MAX_SIZE := 6
  const MIN_SIZE := 2
  const MAX_POINTS := 64
  const SIZES := 5

  const ERR_SMOOTH := 0.02
  const ERR_INITIAL_UPDATES := 10
  const ERR_EQUALS := 1.05
  const BILLION := 1000000000.0

  /** Uncorrected local time, remote time, weight. */
  datatype Point = Point(x: int, y: int, w: real)

  /** Slope and intercept of the latest regression of one size, and its average prediction error. */
  datatype Result = Result(slope: real, intercept: real, err: real, errUpdates: nat)

  /** recent holds the live points of the ring buffer, newest first; results[i] belongs to size i + MIN_SIZE. */
  datatype State = State(
    recent: seq<Point>, refX: int, refY: int, xRemainder: real, lastUpdate: int, results: seq<Result>, size: nat,
    clockFreq: real, updateInterval: real, frequencyRatio: real, leap: int)

  /** 1 << size. */
  function Points(size: nat): nat
    requires MIN_SIZE <= size <= MAX_SIZE
  {
    if size == 2 then 4 else if size == 3 then 8 else if size == 4 then 16 else if size == 5 then 32 else 64
  }

  // ---- The moving frame ---------------------------------------------------------------------

  function MovedResult(r: Result, dx: int, dy: int): Result {
    r.(intercept := r.intercept + (dx as real * r.slope - dy as real))
  }

  function MoveReference(st: State, dx: int, dy: int): State {
    st.(refX := st.refX + dx, refY := st.refY + dy,
        results := seq(|st.results|, i requires 0 <= i < |st.results| => MovedResult(st.results[i], dx, dy)))
  }

  /** The clock's rate relative to its uncorrected rate. */
  function Rate(st: State): real {
    1.0 + st.clockFreq / BILLION
  }

  /** Uncorrected local time since the last update. */
  function Elapsed(st: State, localTs: int): real
    requires Rate(st) != 0.0
  {
    (localTs - st.lastUpdate) as real / Rate(st)
  }

  function UpdateReference(st: State, localTs: int): State
    requires Rate(st) != 0.0
  {
    if st.lastUpdate != 0 then
      var xInterval := Elapsed(st, localTs) + st.xRemainder;
      var dx := Tmv.Truncate(xInterval);
      MoveReference(st.(xRemainder := xInterval - dx as real), dx, localTs - st.lastUpdate).(lastUpdate := localTs)
    else st.(lastUpdate := localTs)
  }

  function AddSample(st: State, offset: int, weight: real): State {
    var p := Point(st.refX, st.refY - offset, weight);
    st.(recent := [p] + if |st.recent| < MAX_POINTS then st.recent else st.recent[..MAX_POINTS - 1])
  }

  // ---- Regression ---------------------------------------------------------------------------

  function Relative(p: Point, refX: int, refY: int): LS.Point {
    LS.Point((p.x - refX) as real, (p.y - refY) as real, p.w)
  }

  /** The newest n points seen from the reference, newest first. */
  function Window(st: State, n: nat): (ps: seq<LS.Point>)
    requires n <= |st.recent|
    ensures |ps| == n
  {
    seq(n, i requires 0 <= i < n => Relative(st.recent[i], st.refX, st.refY))
  }

  /** The plain mean of the first errors, then a moving average. */
  function NextError(err: real, errUpdates: nat, e: real): real {
    if errUpdates < ERR_INITIAL_UPDATES then (err * errUpdates as real + e) / (errUpdates + 1) as real
    else err + ERR_SMOOTH * (e - err)
  }

  function WithError(r: Result, e: real): Result {
    if r.slope == 0.0 then r
    else r.(err := NextError(r.err, r.errUpdates, e),
            errUpdates := if r.errUpdates < ERR_INITIAL_UPDATES then r.errUpdates + 1 else r.errUpdates)
  }

  /** The newest point as seen from the reference: minus the measured offset, right after a sample. */
  function Newest(st: State): real
    requires st.recent != []
  {
    (st.recent[0].y - st.refY) as real
  }

  function Regressed(r: Result, newest: real, sums: LS.Sums): Result
    requires sums.w != 0.0 && LS.Spread(sums) != 0.0
  {
    var slope := LS.Slope(sums);
    WithError(r, AbsReal(r.intercept - newest)).(slope := slope, intercept := LS.Intercept(sums, slope))
  }

  /** Positive weights, and local times that strictly increase from the oldest to the newest point. */
  ghost predicate Spaced(recent: seq<Point>) {
    && (forall i :: 0 <= i < |recent| ==> recent[i].w > 0.0)
    && (forall i, j :: 0 <= i < j < |recent| ==> recent[i].x > recent[j].x)
  }

  /** Neither of the two divisions of a regression over spaced points can fail. */
  lemma WindowSpreads(st: State, n: nat)
    requires Spaced(st.recent) && 2 <= n <= |st.recent|
    ensures LS.Spreads(Window(st, n))
    ensures LS.SumsOf(Window(st, n)).w > 0.0 && LS.Spread(LS.SumsOf(Window(st, n))) > 0.0
  {
    LS.DenominatorsPositive(Window(st, n));
  }

  /** Neither division of the regression of size i + MIN_SIZE is by zero. */
  ghost predicate Solvable(st: State, i: nat)
    requires i < SIZES && Points(i + MIN_SIZE) <= |st.recent|
  {
    var sums := LS.SumsOf(Window(st, Points(i + MIN_SIZE)));
    sums.w != 0.0 && LS.Spread(sums) != 0.0
  }

  ghost predicate Regressable(st: State) {
    |st.results| == SIZES && forall i :: 0 <= i < SIZES && Points(i + MIN_SIZE) <= |st.recent| ==> Solvable(st, i)
  }

  ghost function RegressedAt(st: State, i: nat): Result
    requires i < SIZES && Regressable(st)
  {
    var n := Points(i + MIN_SIZE);
    if n > |st.recent| then st.results[i]
    else
      assert Solvable(st, i);
      Regressed(st.results[i], Newest(st), LS.SumsOf(Window(st, n)))
  }

  ghost function Regress(st: State): (st': State)
    requires Regressable(st)
    ensures |st'.results| == SIZES
  {
    st.(results := seq(SIZES, i requires 0 <= i < SIZES => RegressedAt(st, i)))
  }

  lemma SpacedIsRegressable(st: State)
    requires |st.results| == SIZES && Spaced(st.recent)
    ensures Regressable(st)
  {
    forall i | 0 <= i < SIZES && Points(i + MIN_SIZE) <= |st.recent|
      ensures Solvable(st, i)
    {
      WindowSpreads(st, Points(i + MIN_SIZE));
    }
  }

  // ---- Choice of the size -------------------------------------------------------------------

  predicate Better(best: nat, bestErr: real, r: Result) {
    (best == 0 && r.slope != 0.0) || (bestErr * ERR_EQUALS > r.err && r.errUpdates >= ERR_INITIAL_UPDATES)
  }

  /** The size chosen among those up to k, and its error. */
  function Select(results: seq<Result>, k: nat): (nat, real)
    requires |results| == SIZES && k <= MAX_SIZE
  {
    if k < MIN_SIZE then (0, 0.0)
    else
      var (best, bestErr) := Select(results, k - 1);
      var r := results[k - MIN_SIZE];
      if Better(best, bestErr, r) then (k, r.err) else (best, bestErr)
  }

  // ---- One sample ---------------------------------------------------------------------------

  function CorrectionInterval(size: nat): (n: nat)
    requires MIN_SIZE <= size
    ensures n >= 1
  {
    if size <= 4 then 1 else size / 2
  }

  /** No division of the next sample's update and regressions is by zero. */
  ghost predicate Ready(st: State, offset: int, localTs: int, weight: real) {
    |st.results| == SIZES && Rate(st) != 0.0 && Regressable(AddSample(UpdateReference(st, localTs), offset, weight))
  }

  /** Reference, points, regressions and size after a sample has been taken in. */
  ghost function TakenIn(st: State, offset: int, localTs: int, weight: real): (t: State)
    requires Ready(st, offset, localTs, weight)
    ensures |t.results| == SIZES && (t.size == 0 || MIN_SIZE <= t.size <= MAX_SIZE)
  {
    var t := Regress(AddSample(UpdateReference(st, localTs), offset, weight));
    SelectRange(t.results, MAX_SIZE);
    t.(size := Select(t.results, MAX_SIZE).0)
  }

  lemma {:induction false} SelectRange(results: seq<Result>, k: nat)
    requires |results| == SIZES && k <= MAX_SIZE
    ensures var size := Select(results, k).0; size == 0 || MIN_SIZE <= size <= k
  {
    if k >= MIN_SIZE {
      SelectRange(results, k - 1);
    }
  }

  predicate Steps(c: Common, intercept: real) {
    StepsFirst(c, AbsReal(intercept)) || StepsAlways(c, AbsReal(intercept))
  }

  /** The clock is stepped by -offset: the frame moves along. */
  function Stepped(st: State, offset: int): State {
    MoveReference(st, 0, -offset).(lastUpdate := st.lastUpdate - offset)
  }

  /** The frequency and the rate ratio that follow from the chosen regression. */
  function Steered(st: State, limit: real): State
    requires |st.results| == SIZES && MIN_SIZE <= st.size <= MAX_SIZE && st.updateInterval != 0.0
    requires 0.0 <= limit < BILLION
  {
    var r := st.results[st.size - MIN_SIZE];
    var wanted := BILLION * (r.slope - 1.0) + r.intercept / st.updateInterval / CorrectionInterval(st.size) as real;
    var freq := Clamp(wanted, limit);
    RatePositive(freq);
    st.(clockFreq := freq, frequencyRatio := r.slope / (1.0 + freq / BILLION))
  }

  lemma RatePositive(freq: real)
    requires -BILLION < freq < BILLION
    ensures 0.0 < 1.0 + freq / BILLION < 2.0
  {
  }

  ghost function Sampled(st: State, c: Common, offset: int, localTs: int, weight: real): (State, Answer)
    requires Ready(st, offset, localTs, weight) && st.updateInterval != 0.0 && 0.0 <= c.maxFrequency < BILLION
  {
    var t := TakenIn(st, offset, localTs, weight);
    if t.size < MIN_SIZE then (t, Answer(Unlocked, -t.clockFreq))
    else
      var steps := Steps(c, t.results[t.size - MIN_SIZE].intercept);
      var u := Steered(if steps then Stepped(t, offset) else t, c.maxFrequency);
      (u, Answer(if steps then Jump else Locked, -u.clockFreq))
  }

  // ---- The other operations -----------------------------------------------------------------

  function Created(initialAdj: int): State {
    State([], 0, 0, 0.0, 0, seq(SIZES, _ => Result(0.0, 0.0, 0.0, 0)), 0, -(initialAdj as real), 0.0, 1.0, 0)
  }

  function AfterReset(st: State): State {
    st.(recent := [], lastUpdate := 0, size := 0, frequencyRatio := 1.0,
        results := seq(|st.results|, i requires 0 <= i < |st.results| =>
                         st.results[i].(slope := 0.0, errUpdates := 0)))
  }

  /** The end of a leap second moves the remote time by it. */
  function AfterLeap(st: State, leap: int): State {
    (if st.leap != 0 && leap == 0 then MoveReference(st, 0, st.leap * 1000000000) else st).(leap := leap)
  }
}
