/** Time stamp processor (tsproc.c): path delay and clock offset from the latest down and up measurements. */
module TsProc {
  import opened Tmv
  import opened Reals
  import opened Window
  import MovingAverage
  import MovingMedian

  datatype Mode = Filter | Raw | FilterWeight | RawWeight

  datatype FilterType = Average | Median

  /** The processor with its delay filter reduced to what it answers for: its type, length and window. */
  datatype State = State(
    mode: Mode, rateRatio: real, t1: int, t2: int, t3: int, t4: int,
    filteredDelay: int, filteredDelayValid: bool, filterType: FilterType, len: nat, window: seq<int>)

  datatype DelayUpdate = NoDelay | Delay(delay: int)

  datatype OffsetUpdate = NoOffset | Offset(offset: int, weight: real)

  ghost predicate Shape(st: State) {
    0 < st.len && |st.window| <= st.len
  }

  function Created(mode: Mode, filterType: FilterType, len: nat): State {
    State(mode, 1.0, 0, 0, 0, 0, 0, false, filterType, len, [])
  }

  // ---- What each operation computes ---------------------------------------------------------

  function Filtered(filterType: FilterType, w: seq<int>): int
    requires w != []
  {
    match filterType
    case Average => MovingAverage.Average(w)
    case Median => MovingMedian.Median(w)
  }

  function Weighting(mode: Mode): bool {
    mode.FilterWeight? || mode.RawWeight?
  }

  /** ((t2 - t3) * rr + (t4 - t1)) / 2 in wrapping arithmetic. */
  function RawDelay(st: State): int {
    HalfRoundTrip(st.t1, st.t2, st.t3, st.t4, st.rateRatio)
  }

  function HalfRoundTrip(t1: int, t2: int, t3: int, t4: int, rateRatio: real): int {
    Div(Add(Scaled(Sub(t2, t3), rateRatio), Sub(t4, t1)), 2)
  }

  function Scaled(t23: int, rateRatio: real): int {
    if rateRatio != 1.0 then Truncate(t23 as real * rateRatio) else t23
  }

  predicate HasRawDelay(st: State) {
    st.t2 != 0 && st.t3 != 0
  }

  function WithDelay(st: State, raw: int): (st': State)
    requires Shape(st)
    ensures Shape(st')
  {
    var w := Slide(st.window, raw, st.len);
    st.(window := w, filteredDelay := Filtered(st.filterType, w), filteredDelayValid := true)
  }

  function AfterDelay(st: State): (st': State)
    requires Shape(st)
    ensures Shape(st')
  {
    if HasRawDelay(st) then WithDelay(st, RawDelay(st)) else st
  }

  function DelayAnswer(st: State): DelayUpdate
    requires Shape(st)
  {
    if !HasRawDelay(st) then NoDelay
    else match st.mode
      case Filter | FilterWeight => Delay(AfterDelay(st).filteredDelay)
      case Raw | RawWeight => Delay(RawDelay(st))
  }

  /** Whether the offset can be computed, and whether that takes a raw delay. */
  predicate CanOffset(st: State) {
    && st.t1 != 0 && st.t2 != 0
    && match st.mode
       case Filter => st.filteredDelayValid
       case Raw | RawWeight => st.t3 != 0
       case FilterWeight => st.t3 != 0 && st.filteredDelayValid
  }

  function OffsetAnswer(st: State): OffsetUpdate {
    if !CanOffset(st) then NoOffset
    else
      var raw := if st.mode.Filter? then 0 else RawDelay(st);
      var delay := if st.mode.Filter? || st.mode.FilterWeight? then st.filteredDelay else raw;
      var weight :=
        if Weighting(st.mode) && Sign(st.filteredDelay) > 0 && Sign(raw) > 0 then
          var w := st.filteredDelay as real / raw as real;
          if w > 1.0 then 1.0 else w
        else 1.0;
      Offset(Sub(Sub(st.t2, st.t1), delay), weight)
  }

  function AfterReset(st: State, full: bool): (st': State)
    requires Shape(st)
    ensures Shape(st')
  {
    var cleared := st.(t1 := 0, t2 := 0, t3 := 0, t4 := 0);
    if full then cleared.(rateRatio := 1.0, window := [], filteredDelayValid := false) else cleared
  }

  // ---- What the answers mean ----------------------------------------------------------------

  function CappedRatio(filtered: int, raw: int): real
    requires raw > 0
  {
    var w := filtered as real / raw as real;
    if w > 1.0 then 1.0 else w
  }

  function Trusted(weight: real, raw: int): real {
    weight * raw as real
  }

  function Smaller(a: int, b: int): int {
    if a <= b then a else b
  }

  predicate Weighs(st: State) {
    (st.mode.FilterWeight? || st.mode.RawWeight?) && st.filteredDelay > 0 && RawDelay(st) > 0
  }

  lemma WeightIsRatio(st: State)
    requires OffsetAnswer(st).Offset?
    ensures OffsetAnswer(st).weight == if Weighs(st) then CappedRatio(st.filteredDelay, RawDelay(st)) else 1.0
  {
  }

  /** Servos rely on the weight being positive and at most one. A weighting mode trusts a sample less by as much as its
      raw delay exceeds the filtered one. */
  lemma WeightInUnitInterval(st: State)
    requires OffsetAnswer(st).Offset?
    ensures 0.0 < OffsetAnswer(st).weight <= 1.0
    ensures Weighs(st) ==>
              Trusted(OffsetAnswer(st).weight, RawDelay(st)) == Smaller(RawDelay(st), st.filteredDelay) as real
    ensures !Weighs(st) ==> OffsetAnswer(st).weight == 1.0
  {
    WeightIsRatio(st);
    if Weighs(st) {
      RatioCapped(st.filteredDelay, RawDelay(st));
    }
  }

  lemma RatioCapped(filtered: int, raw: int)
    requires filtered > 0 && raw > 0
    ensures 0.0 < CappedRatio(filtered, raw) <= 1.0
    ensures Trusted(CappedRatio(filtered, raw), raw) == Smaller(raw, filtered) as real
  {
    var f, r := filtered as real, raw as real;
    var w := f / r;
    assert w * r == f;
    Compare(0.0, w, r);
    Compare(1.0, w, r);
  }

  /** One sync and one delay request, none of whose local times is the sentinel 0, are enough in every mode. */
  lemma OneExchangeSuffices(st: State, t1: int, t2: int, t3: int, t4: int)
    requires Shape(st) && t1 != 0 && t2 != 0 && t3 != 0
    ensures CanOffset(AfterDelay(st.(t1 := t1, t2 := t2, t3 := t3, t4 := t4)))
  {
  }

  /** A sync took d1 and a delay request took d2, while the local clock was ahead by theta. */
  ghost predicate Exchange(st: State, theta: int, d1: int, d2: int) {
    st.rateRatio == 1.0 && st.t2 == st.t1 + d1 + theta && st.t4 == st.t3 + d2 - theta
  }

  /** The raw delay is the truncated mean of both directions, however large the time stamps are,
      exactly when the sum of both delays fits. */
  lemma RawDelayIsMean(st: State, theta: int, d1: int, d2: int)
    requires Exchange(st, theta, d1, d2)
    ensures RawDelay(st) == Div(d1 + d2, 2) <==> Fits(d1 + d2)
  {
    WrapSum(st.t2 - st.t3, st.t4 - st.t1, d1 + d2);
    WrappedQuotient(d1 + d2, 2);
  }

  /** The local interval, converted to remote time. */
  function RemoteInterval(st: State): real {
    (st.t2 - st.t3) as real * st.rateRatio
  }

  /** With any rate ratio, the local interval is first converted to remote time and truncated, which C defines if it
      fits: the raw delay halves the sum exactly when that fits, too. */
  lemma ScaledDelayIsMean(st: State)
    requires Fits(st.t2 - st.t3) && Fits(Truncate(RemoteInterval(st)))
    ensures var sum := Truncate(RemoteInterval(st)) + (st.t4 - st.t1); RawDelay(st) == Div(sum, 2) <==> Fits(sum)
  {
    ScaledTruncates(st);
    HalvesExactly(Truncate(RemoteInterval(st)), st.t4 - st.t1);
  }

  /** It is then less than a nanosecond off half of the sum without truncation. */
  lemma ScaledDelayNearMean(st: State)
    requires Fits(st.t2 - st.t3) && Fits(Truncate(RemoteInterval(st)))
    requires Fits(Truncate(RemoteInterval(st)) + (st.t4 - st.t1))
    ensures -1.0 < RawDelay(st) as real - (RemoteInterval(st) + (st.t4 - st.t1) as real) / 2.0 < 1.0
  {
    ScaledDelayIsMean(st);
    HalvesNear(RemoteInterval(st), st.t4 - st.t1);
  }

  lemma ScaledTruncates(st: State)
    requires Fits(st.t2 - st.t3)
    ensures Scaled(Sub(st.t2, st.t3), st.rateRatio) == Truncate(RemoteInterval(st))
  {
    if st.rateRatio == 1.0 {
      assert RemoteInterval(st) == (st.t2 - st.t3) as real;
    }
  }

  lemma HalvesNear(x: real, back: int)
    ensures -1.0 < Div(Truncate(x) + back, 2) as real - (x + back as real) / 2.0 < 1.0
  {
    var sum := Truncate(x) + back;
    assert -1 <= 2 * Div(sum, 2) - sum <= 1;
    assert -1.0 < Truncate(x) as real - x < 1.0;
  }

  lemma HalvesExactly(whole: int, back: int)
    ensures Div(Add(whole, Wrap(back)), 2) == Div(whole + back, 2) <==> Fits(whole + back)
  {
    WrapAbsorbs(whole, back);
    WrappedQuotient(whole + back, 2);
  }

  /** A raw delay is half of a 64-bit value, whatever the time stamps. */
  lemma RawDelayHalved(st: State)
    ensures MovingMedian.RawRange(RawDelay(st))
  {
  }

  /** Modes that use the raw delay answer theta + d1 - trunc((d1 + d2) / 2). */
  lemma RawOffsetExact(st: State, theta: int, d1: int, d2: int)
    requires Exchange(st, theta, d1, d2) && Fits(d1 + d2) && CanOffset(st) && (st.mode.Raw? || st.mode.RawWeight?)
    requires Fits(theta + d1 - Div(d1 + d2, 2))
    ensures OffsetAnswer(st).offset == theta + d1 - Div(d1 + d2, 2)
  {
    RawDelayIsMean(st, theta, d1, d2);
    WrapAbsorbs(st.t2 - st.t1, RawDelay(st));
  }

  /** Without both measurements there is no answer. Otherwise raw modes answer the truncated mean of both directions,
      and filtering modes what the filter makes of its window with that mean as the newest sample. */
  lemma DelayAnswerPerMode(st: State, theta: int, d1: int, d2: int)
    requires Shape(st) && Exchange(st, theta, d1, d2) && Fits(d1 + d2)
    ensures var mean := Div(d1 + d2, 2);
            DelayAnswer(st) ==
              if st.t2 == 0 || st.t3 == 0 then NoDelay
              else if st.mode.Raw? || st.mode.RawWeight? then Delay(mean)
              else Delay(Filtered(st.filterType, Slide(st.window, mean, st.len)))
  {
    RawDelayIsMean(st, theta, d1, d2);
  }

  /** After a full reset the processor is a new one, but for a filtered delay that is no longer valid; after a partial
      one it still has its delay history. */
  lemma ResetIsNew(st: State)
    requires Shape(st)
    ensures AfterReset(st, true)
         == Created(st.mode, st.filterType, st.len).(filteredDelay := st.filteredDelay)
    ensures AfterReset(st, false)
         == Created(st.mode, st.filterType, st.len).(rateRatio := st.rateRatio, window := st.window,
              filteredDelay := st.filteredDelay, filteredDelayValid := st.filteredDelayValid)
  {
  }

  // ---- What the delay filter is fed -----------------------------------------------------------

  /** The filter has only been fed raw delays, and has answered for them. */
  ghost predicate FilterSound(st: State) {
    && Shape(st)
    && Within(st.window, MovingMedian.RAW_MIN, MovingMedian.RAW_MAX)
    && (st.filteredDelayValid && st.filterType.Median? ==>
          st.window != [] && st.filteredDelay == MovingMedian.ExactMedian(st.window))
  }

  lemma FilterSoundAlike(st: State, st': State)
    requires FilterSound(st) && st'.filterType == st.filterType && st'.len == st.len && st'.window == st.window
    requires st'.filteredDelay == st.filteredDelay && st'.filteredDelayValid == st.filteredDelayValid
    ensures FilterSound(st')
  {
  }

  lemma DelayKeepsFilterSound(st: State)
    requires FilterSound(st)
    ensures FilterSound(AfterDelay(st))
  {
    if HasRawDelay(st) {
      RawDelayHalved(st);
      SlideWithin(st.window, RawDelay(st), st.len, MovingMedian.RAW_MIN, MovingMedian.RAW_MAX);
      if st.filterType.Median? {
        MovingMedian.MedianExact(AfterDelay(st).window);
      }
    }
  }

  const LONG_TRIP := State(Filter, 1.0, 0, TWO_63 - 1, 1, 0, 0, false, Average, 3, [])

  /** The moving average has no such protection: three equal delays of 2^62 - 1 ns average to a negative one. */
  lemma AverageOverflows()
    ensures FilterSound(LONG_TRIP) && RawDelay(LONG_TRIP) == 0x3fff_ffff_ffff_ffff
    ensures AfterDelay(AfterDelay(LONG_TRIP)).filteredDelay == 0x3fff_ffff_ffff_ffff
    ensures AfterDelay(AfterDelay(AfterDelay(LONG_TRIP))).filteredDelay == -1537228672809129302
  {
    var raw := RawDelay(LONG_TRIP);
    MovingAverage.SumOfEquals(raw);
    assert MovingAverage.Average([raw, raw]) == raw;
    ThreeLong();
    AfterOne(LONG_TRIP);
    AfterOne(AfterDelay(LONG_TRIP));
    AfterOne(AfterDelay(AfterDelay(LONG_TRIP)));
  }

  lemma ThreeLong()
    ensures MovingAverage.Average([0x3fff_ffff_ffff_ffff, 0x3fff_ffff_ffff_ffff, 0x3fff_ffff_ffff_ffff])
         == -1537228672809129302
  {
    MovingAverage.SumOfEquals(0x3fff_ffff_ffff_ffff);
  }

  lemma AfterOne(st: State)
    requires Shape(st) && HasRawDelay(st) && st.filterType.Average? && |st.window| < st.len
    ensures var w := st.window + [RawDelay(st)];
            AfterDelay(st) == st.(window := w, filteredDelay := MovingAverage.Average(w), filteredDelayValid := true)
  {
  }

  // ---- How far off a measured offset can be ---------------------------------------------------

  /** Both directions together, without wrap-around. */
  function RoundTrip(st: State): int {
    st.t2 - st.t1 + (st.t4 - st.t3)
  }

  function UsedDelay(st: State): int {
    if st.mode.Filter? || st.mode.FilterWeight? then st.filteredDelay else RawDelay(st)
  }

  /** The values that are divided, by 2 or by the number of samples, fit in 64 bits. */
  ghost predicate DelayFits(st: State)
    requires Shape(st)
  {
    HasRawDelay(st) ==>
      Fits(RoundTrip(st)) && (st.filterType.Average? ==> Fits(MovingAverage.Sum(AfterDelay(st).window)))
  }

  /** So does the offset, and what a raw mode divides for it. */
  ghost predicate OffsetFits(st: State) {
    CanOffset(st) ==>
      Fits(st.t2 - st.t1 - UsedDelay(st)) && (st.mode.Raw? || st.mode.RawWeight? ==> Fits(RoundTrip(st)))
  }

  /** What any run keeps while theta is constant: each stored measurement was delayed by something in [lo, hi]
      and so is everything the filter remembers. */
  ghost predicate Bounded(st: State, theta: int, lo: int, hi: int) {
    && FilterSound(st) && st.rateRatio == 1.0
    && (st.t2 != 0 ==> lo <= st.t2 - st.t1 - theta <= hi)
    && (st.t3 != 0 ==> lo <= st.t4 - st.t3 + theta <= hi)
    && Within(st.window, lo, hi)
    && (st.filteredDelayValid ==> lo <= st.filteredDelay <= hi)
  }

  lemma FilteredBetween(filterType: FilterType, w: seq<int>, lo: int, hi: int)
    requires w != [] && Within(w, lo, hi) && Within(w, MovingMedian.RAW_MIN, MovingMedian.RAW_MAX)
    requires filterType.Average? ==> Fits(MovingAverage.Sum(w))
    ensures lo <= Filtered(filterType, w) <= hi
  {
    match filterType
    case Average =>
      MovingAverage.AverageBetween(w, lo, hi);
    case Median =>
      MovingMedian.MedianBetween(w, lo, hi);
  }

  lemma RawDelayBetween(st: State, theta: int, lo: int, hi: int)
    requires Bounded(st, theta, lo, hi) && HasRawDelay(st) && Fits(RoundTrip(st))
    ensures lo <= RawDelay(st) <= hi
  {
    var d1, d2 := st.t2 - st.t1 - theta, st.t4 - st.t3 + theta;
    RawDelayIsMean(st, theta, d1, d2);
    DivBetween(d1 + d2, 2, lo, hi);
  }

  lemma MeasuredBetween(st: State, theta: int, lo: int, hi: int)
    requires Bounded(st, theta, lo, hi) && DelayFits(st) && HasRawDelay(st)
    ensures lo <= RawDelay(st) <= hi && lo <= AfterDelay(st).filteredDelay <= hi
    ensures Within(AfterDelay(st).window, lo, hi)
  {
    RawDelayBetween(st, theta, lo, hi);
    DelayKeepsFilterSound(st);
    SlideWithin(st.window, RawDelay(st), st.len, lo, hi);
    FilteredBetween(st.filterType, AfterDelay(st).window, lo, hi);
  }

  lemma SlideWithin(w: seq<int>, value: int, len: nat, lo: int, hi: int)
    requires 0 < len && |w| <= len && Within(w, lo, hi) && lo <= value <= hi
    ensures Within(Slide(w, value, len), lo, hi)
  {
  }

  lemma DelayKeepsBounded(st: State, theta: int, lo: int, hi: int)
    requires Bounded(st, theta, lo, hi) && DelayFits(st)
    ensures Bounded(AfterDelay(st), theta, lo, hi)
    ensures DelayAnswer(st).Delay? ==> lo <= DelayAnswer(st).delay <= hi
  {
    DelayKeepsFilterSound(st);
    if HasRawDelay(st) {
      MeasuredBetween(st, theta, lo, hi);
    }
  }

  lemma OffsetExact(st: State)
    requires CanOffset(st) && Fits(st.t2 - st.t1 - UsedDelay(st))
    ensures OffsetAnswer(st).offset == st.t2 - st.t1 - UsedDelay(st)
  {
    WrapAbsorbs(st.t2 - st.t1, UsedDelay(st));
  }

  /** With the filtered delay, the measured offset is within hi - lo of the true one. */
  lemma FilteredOffsetError(st: State, theta: int, lo: int, hi: int)
    requires Bounded(st, theta, lo, hi) && OffsetFits(st)
    requires CanOffset(st) && (st.mode.Filter? || st.mode.FilterWeight?)
    ensures -(hi - lo) <= OffsetAnswer(st).offset - theta <= hi - lo
  {
    OffsetExact(st);
  }

  /** With the raw delay of the exchange itself, it is within half of that and half a nanosecond. */
  lemma RawOffsetError(st: State, theta: int, lo: int, hi: int)
    requires Bounded(st, theta, lo, hi) && OffsetFits(st)
    requires CanOffset(st) && (st.mode.Raw? || st.mode.RawWeight?)
    ensures -(hi - lo + 1) <= 2 * (OffsetAnswer(st).offset - theta) <= hi - lo + 1
  {
    var d1, d2 := st.t2 - st.t1 - theta, st.t4 - st.t3 + theta;
    RawDelayIsMean(st, theta, d1, d2);
    RawOffsetExact(st, theta, d1, d2);
  }

  // ---- The processor itself -----------------------------------------------------------------

  datatype DelayFilter = AverageFilter(average: MovingAverage.MovingAverage)
                       | MedianFilter(median: MovingMedian.MovingMedian)

  class TsProc {
    const mode: Mode
    var rateRatio: real
    var t1: int
    var t2: int
    var t3: int
    var t4: int
    var filteredDelay: int
    var filteredDelayValid: bool
    const delayFilter: DelayFilter

    /** The delay filter's type, length, window and objects. */
    ghost const filterType: FilterType
    ghost const len: nat
    ghost var window: seq<int>
    ghost const Repr: set<object>

    ghost predicate FilterHolds(w: seq<int>)
      reads Repr
    {
      match delayFilter
      case AverageFilter(a) =>
        a in Repr && a.val in Repr && a.Valid() && filterType == Average && a.len == len && a.window == w
      case MedianFilter(m) =>
        m in Repr && m.order in Repr && m.samples in Repr && m.Valid() && filterType == Median && m.len == len
        && m.window == w
    }

    ghost predicate Valid()
      reads this, Repr
    {
      this !in Repr && 0 < len && |window| <= len && FilterHolds(window)
    }

    ghost function View(): State
      reads this
    {
      State(mode, rateRatio, t1, t2, t3, t4, filteredDelay, filteredDelayValid, filterType, len, window)
    }

    constructor (mode: Mode, filterType: FilterType, len: nat)
      requires 1 <= len
      ensures Valid() && fresh(Repr) && View() == Created(mode, filterType, len)
    {
      this.mode, rateRatio := mode, 1.0;
      t1, t2, t3, t4, filteredDelay, filteredDelayValid := 0, 0, 0, 0, 0, false;
      this.filterType, this.len, window := filterType, len, [];
      if filterType == Average {
        var a := new MovingAverage.MovingAverage(len);
        delayFilter := AverageFilter(a);
        Repr := {a, a.val};
      } else {
        var m := new MovingMedian.MovingMedian(len);
        delayFilter := MedianFilter(m);
        Repr := {m, m.order, m.samples};
      }
    }

    method DownTs(remoteTs: int, localTs: int)
      requires Valid()
      modifies this`t1, this`t2
      ensures Valid() && View() == old(View()).(t1 := remoteTs, t2 := localTs)
    {
      t1, t2 := remoteTs, localTs;
    }

    method UpTs(localTs: int, remoteTs: int)
      requires Valid()
      modifies this`t3, this`t4
      ensures Valid() && View() == old(View()).(t3 := localTs, t4 := remoteTs)
    {
      t3, t4 := localTs, remoteTs;
    }

    method SetClockRateRatio(ratio: real)
      requires Valid()
      modifies this`rateRatio
      ensures Valid() && View() == old(View()).(rateRatio := ratio)
    {
      rateRatio := ratio;
    }

    method SetDelay(delay: int)
      requires Valid()
      modifies this`filteredDelay, this`filteredDelayValid
      ensures Valid() && View() == old(View()).(filteredDelay := delay, filteredDelayValid := true)
    {
      filteredDelay, filteredDelayValid := delay, true;
    }

    method GetRawDelay() returns (delay: int)
      requires Valid()
      ensures delay == HalfRoundTrip(t1, t2, t3, t4, rateRatio)
    {
      var t23 := Scaled(Sub(t2, t3), rateRatio);
      var t41 := Sub(t4, t1);
      delay := Div(Add(t23, t41), 2);
    }

    method FilterReset(ghost w: seq<int>)
      requires this !in Repr && FilterHolds(w)
      modifies Repr
      ensures FilterHolds([])
    {
      match delayFilter
      case AverageFilter(a) => a.Reset();
      case MedianFilter(m) => m.Reset();
    }

    method FilterSample(raw: int, ghost w: seq<int>) returns (r: int)
      requires this !in Repr && 0 < len && |w| <= len && FilterHolds(w)
      modifies Repr
      ensures FilterHolds(Slide(w, raw, len)) && r == Filtered(filterType, Slide(w, raw, len))
    {
      match delayFilter
      case AverageFilter(a) => r := a.Sample(raw);
      case MedianFilter(m) => r := m.Sample(raw);
    }

    /** Runs a raw delay through the filter and remembers the answer. */
    method Smooth(raw: int)
      requires Valid()
      modifies this`filteredDelay, this`filteredDelayValid, this`window, Repr
      ensures Valid() && filteredDelayValid
      ensures window == Slide(old(window), raw, len)
      ensures filteredDelay == Filtered(filterType, window)
    {
      ghost var w := window;
      window := Slide(window, raw, len);
      var filtered := FilterSample(raw, w);
      SetDelay(filtered);
    }

    method UpdateDelay() returns (r: DelayUpdate)
      requires Valid()
      modifies this`filteredDelay, this`filteredDelayValid, this`window, Repr
      ensures Valid() && View() == AfterDelay(old(View()))
      ensures r == DelayAnswer(old(View()))
    {
      if t2 == 0 || t3 == 0 {
        return NoDelay;
      }
      ghost var st := View();
      var raw := GetRawDelay();
      assert raw == RawDelay(st);
      Smooth(raw);
      assert View() == WithDelay(st, raw);
      match mode
      case Filter | FilterWeight => r := Delay(filteredDelay);
      case Raw | RawWeight => r := Delay(raw);
    }

    method UpdateOffset() returns (r: OffsetUpdate)
      requires Valid()
      ensures r == OffsetAnswer(View())
    {
      if t1 == 0 || t2 == 0 {
        return NoOffset;
      }
      var delay, raw := 0, 0;
      match mode {
        case Filter =>
          if !filteredDelayValid {
            return NoOffset;
          }
          delay := filteredDelay;
        case Raw | RawWeight =>
          if t3 == 0 {
            return NoOffset;
          }
          raw := GetRawDelay();
          delay := raw;
        case FilterWeight =>
          if t3 == 0 || !filteredDelayValid {
            return NoOffset;
          }
          raw := GetRawDelay();
          delay := filteredDelay;
      }
      var weight := 1.0;
      if Weighting(mode) && Sign(filteredDelay) > 0 && Sign(raw) > 0 {
        weight := filteredDelay as real / raw as real;
        if weight > 1.0 {
          weight := 1.0;
        }
      }
      r := Offset(Sub(Sub(t2, t1), delay), weight);
    }

    method ClearStamps()
      requires Valid()
      modifies this`t1, this`t2, this`t3, this`t4
      ensures Valid() && View() == old(View()).(t1 := 0, t2 := 0, t3 := 0, t4 := 0)
    {
      t1, t2, t3, t4 := 0, 0, 0, 0;
    }

    method ForgetDelays()
      requires Valid()
      modifies this`rateRatio, this`filteredDelayValid, this`window, Repr
      ensures Valid() && View() == old(View()).(rateRatio := 1.0, window := [], filteredDelayValid := false)
    {
      rateRatio, filteredDelayValid := 1.0, false;
      ghost var w := window;
      window := [];
      FilterReset(w);
    }

    method Reset(full: bool)
      requires Valid()
      modifies this`t1, this`t2, this`t3, this`t4, this`rateRatio, this`filteredDelayValid, this`window, Repr
      ensures Valid() && View() == AfterReset(old(View()), full)
    {
      ClearStamps();
      if full {
        ForgetDelays();
      }
    }
  }
}
