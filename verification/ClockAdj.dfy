/** Adjusting the kernel's clock (clockadj.c): a coarse tick length plus a fine frequency. */
module ClockAdj {
  import opened Reals
  import opened Tmv

  /** The kernel's ppm fraction: 2^-16 ppm per unit of freq, that is 65.536 units per ppb. */
  const UNITS_PER_PPB := 65.536
  const NS_PER_SEC := 1000000000
  const DEFAULT_MAX_FREQ := 500000

  /** What the kernel keeps for one clock. */
  datatype Kernel = Kernel(freq: int, tick: int, tolerance: int)

  /** USER_HZ and TICK_USEC as the program knows them; zero before initialisation. */
  datatype Ticks = Ticks(hz: int, nominal: int)

  // ---- The arithmetic -----------------------------------------------------------------------

  /** C round(): halves away from zero. */
  function Round(x: real): (r: int)
    ensures r as real - 0.5 <= x <= r as real + 0.5
    ensures -0.5 < x < 0.5 ==> r == 0
  {
    if x >= 0.0 then (x + 0.5).Floor else -((-x + 0.5).Floor)
  }

  function Initialised(hz: int): Ticks {
    Ticks(hz, if hz > 0 then (1000000 + hz / 2) / hz else 0)
  }

  function InTicks(t: Ticks, freq: real): real
    requires t.hz != 0
  {
    freq / 1000.0 / t.hz as real
  }

  function Shift(t: Ticks, freq: real): int
    requires t.hz != 0
  {
    Round(InTicks(t, freq))
  }

  /** What one unit of the tick is worth, in ppb. */
  function TickWorth(t: Ticks): real {
    1000.0 * t.hz as real
  }

  function Remainder(t: Ticks, freq: real): real
    requires t.hz != 0
  {
    freq - TickWorth(t) * Shift(t, freq) as real
  }

  predicate UsesTick(t: Ticks, realtime: bool) {
    realtime && t.nominal != 0
  }

  function SetFreq(k: Kernel, t: Ticks, realtime: bool, freq: real): Kernel
    requires t.nominal != 0 ==> t.hz != 0
  {
    if UsesTick(t, realtime)
    then k.(tick := Shift(t, freq) + t.nominal, freq := Truncate(Remainder(t, freq) * UNITS_PER_PPB))
    else k.(freq := Truncate(freq * UNITS_PER_PPB))
  }

  function GetFreq(k: Kernel, t: Ticks, realtime: bool): real {
    k.freq as real / UNITS_PER_PPB
    + if UsesTick(t, realtime) && k.tick != 0 then TickWorth(t) * (k.tick - t.nominal) as real else 0.0
  }

  function KernelMax(k: Kernel): int {
    var f := Truncate(k.tolerance as real / UNITS_PER_PPB);
    if f == 0 then DEFAULT_MAX_FREQ else f
  }

  function MaxFreq(k: Kernel, t: Ticks, realtime: bool): int {
    if UsesTick(t, realtime) && 2 * KernelMax(k) >= 1000 * t.hz
    then Div(t.nominal, 10) * 1000 * t.hz
    else KernelMax(k)
  }

  // ---- The split -----------------------------------------------------------------------------

  lemma TicksAreWorth(t: Ticks, freq: real)
    requires t.hz > 0
    ensures InTicks(t, freq) * TickWorth(t) == freq
  {
    var a, q, hz := freq / 1000.0, InTicks(t, freq), t.hz as real;
    assert q * hz == a && a * 1000.0 == freq;
    assert q * (1000.0 * hz) == (q * hz) * 1000.0;
  }

  lemma TicksCompare(t: Ticks, freq: real, c: real)
    requires t.hz > 0
    ensures InTicks(t, freq) < c <==> freq < c * TickWorth(t)
    ensures c < InTicks(t, freq) <==> c * TickWorth(t) < freq
  {
    TicksAreWorth(t, freq);
    Compare(InTicks(t, freq), c, TickWorth(t));
    Compare(c, InTicks(t, freq), TickWorth(t));
  }

  lemma HalfTick(w: real, q: real, s: real, freq: real)
    requires w >= 0.0 && q * w == freq && s - 0.5 <= q <= s + 0.5
    ensures -0.5 * w <= freq - w * s <= 0.5 * w
  {
    var above, below := q - s + 0.5, s + 0.5 - q;
    Nonnegative(w, above);
    Nonnegative(w, below);
    assert w * above == q * w - w * s + 0.5 * w;
    assert w * below == w * s + 0.5 * w - q * w;
  }

  /** The remainder after taking out whole ticks is at most half a tick. */
  lemma RemainderSmall(t: Ticks, freq: real)
    requires t.hz > 0
    ensures -0.5 * TickWorth(t) <= Remainder(t, freq) <= 0.5 * TickWorth(t)
  {
    TicksAreWorth(t, freq);
    HalfTick(TickWorth(t), InTicks(t, freq), Shift(t, freq) as real, freq);
  }

  /** The shift stays within n ticks exactly for frequencies below n ticks and a half. */
  lemma ShiftRange(t: Ticks, freq: real, n: int)
    requires t.hz > 0 && n >= 0
    ensures var top := (n as real + 0.5) * TickWorth(t); -n <= Shift(t, freq) <= n <==> -top < freq < top
  {
    var c := n as real + 0.5;
    RoundRange(InTicks(t, freq), n);
    TicksCompare(t, freq, c);
    TicksCompare(t, freq, -c);
    assert -c * TickWorth(t) == -(c * TickWorth(t));
  }

  lemma RoundRange(q: real, n: int)
    requires n >= 0
    ensures -n <= Round(q) <= n <==> -(n as real + 0.5) < q < n as real + 0.5
  {
  }

  /** In kernel units, a value within the limit of whole ppb stays within the tolerance that limit was read from. */
  lemma WithinTolerance(k: Kernel, r: real)
    requires k.tolerance >= 66 && -(KernelMax(k) as real) <= r <= KernelMax(k) as real
    ensures -k.tolerance <= Truncate(r * UNITS_PER_PPB) <= k.tolerance
  {
    var f := k.tolerance as real / UNITS_PER_PPB;
    assert f >= 1.0 && Truncate(f) >= 1;
    assert KernelMax(k) as real <= f;
    assert -(k.tolerance as real) <= r * UNITS_PER_PPB <= k.tolerance as real;
  }

  /** Up to the advertised maximum, the shift is at most a tenth of nominal, and none without the tick branch. */
  lemma ShiftWithinLimits(k: Kernel, hz: int, freq: real)
    requires hz > 0 && Initialised(hz).nominal != 0
    requires var f := MaxFreq(k, Initialised(hz), true) as real; -f <= freq <= f
    ensures var t := Initialised(hz);
            var n := if 2 * KernelMax(k) >= 1000 * hz then t.nominal / 10 else 0;
            -n <= Shift(t, freq) <= n
  {
    var t, f := Initialised(hz), KernelMax(k);
    var n := if 2 * f >= 1000 * hz then t.nominal / 10 else 0;
    TopWithin(t, n, f, freq);
    ShiftRange(t, freq, n);
  }

  /** Every frequency up to the advertised maximum is split into a tick within a tenth of nominal and a fine frequency
      within the kernel's own tolerance. */
  lemma SplitWithinLimits(k: Kernel, hz: int, freq: real)
    requires hz > 0 && Initialised(hz).nominal != 0 && k.tolerance >= 66
    requires var f := MaxFreq(k, Initialised(hz), true) as real; -f <= freq <= f
    ensures var t := Initialised(hz); var k' := SetFreq(k, t, true, freq);
            && t.nominal - t.nominal / 10 <= k'.tick <= t.nominal + t.nominal / 10
            && -k.tolerance <= k'.freq <= k.tolerance
            && (2 * KernelMax(k) < 1000 * hz ==> k'.tick == t.nominal)
  {
    var t := Initialised(hz);
    ShiftWithinLimits(k, hz, freq);
    RemainderFits(k, t, freq);
    WithinTolerance(k, Remainder(t, freq));
  }

  /** What is left for the fine frequency fits the kernel's limit: it is at most half a tick, or all of a small one. */
  lemma RemainderFits(k: Kernel, t: Ticks, freq: real)
    requires t.hz > 0
    requires 2 * KernelMax(k) >= 1000 * t.hz
             || (Shift(t, freq) == 0 && -(KernelMax(k) as real) <= freq <= KernelMax(k) as real)
    ensures -(KernelMax(k) as real) <= Remainder(t, freq) <= KernelMax(k) as real
  {
    RemainderSmall(t, freq);
  }

  /** The advertised maximum lies below n ticks and a half, in both of its forms. */
  lemma TopWithin(t: Ticks, n: int, f: int, freq: real)
    requires t.hz > 0 && n >= 0 && (n == 0 ==> 2 * f < 1000 * t.hz || n * 1000 * t.hz == 0)
    requires -(Top(t, n, f) as real) <= freq <= Top(t, n, f) as real
    ensures -((n as real + 0.5) * TickWorth(t)) < freq < (n as real + 0.5) * TickWorth(t)
  {
    var w := TickWorth(t);
    Distributes(w, n as real, 0.5);
    assert w * (n as real + 0.5) == (n as real + 0.5) * w;
    WholeTicks(t, n);
    Nonnegative(w, n as real);
  }

  lemma WholeTicks(t: Ticks, n: int)
    requires t.hz > 0
    ensures TickWorth(t) * n as real == (n * 1000 * t.hz) as real
  {
    assert n * 1000 * t.hz == n * (1000 * t.hz);
    assert (n * (1000 * t.hz)) as real == n as real * (1000 * t.hz) as real;
  }

  function Top(t: Ticks, n: int, f: int): int {
    if 2 * f >= 1000 * t.hz then n * 1000 * t.hz else f
  }

  /** The tick stays within n of nominal exactly for frequencies below n ticks and a half. */
  lemma TickRangeExact(k: Kernel, t: Ticks, freq: real, n: int)
    requires t.hz > 0 && t.nominal != 0 && n >= 0
    ensures var tick := SetFreq(k, t, true, freq).tick; var top := (n as real + 0.5) * TickWorth(t);
            (t.nominal - n <= tick <= t.nominal + n) <==> -top < freq < top
  {
    ShiftRange(t, freq, n);
  }

  // ---- Reading back ---------------------------------------------------------------------------

  lemma TruncationError(x: real)
    ensures -1.0 / UNITS_PER_PPB < x - Truncate(x * UNITS_PER_PPB) as real / UNITS_PER_PPB < 1.0 / UNITS_PER_PPB
  {
  }

  /** What is read back differs from what was set by less than one kernel unit. */
  lemma ReadBack(k: Kernel, t: Ticks, realtime: bool, freq: real)
    requires t.nominal != 0 ==> t.hz > 0
    requires UsesTick(t, realtime) ==> Shift(t, freq) + t.nominal != 0
    ensures -1.0 / UNITS_PER_PPB < freq - GetFreq(SetFreq(k, t, realtime, freq), t, realtime) < 1.0 / UNITS_PER_PPB
  {
    if UsesTick(t, realtime) {
      TruncationError(Remainder(t, freq));
      ReadBackParts(k, t, freq);
    } else {
      TruncationError(freq);
    }
  }

  lemma ReadBackParts(k: Kernel, t: Ticks, freq: real)
    requires t.hz > 0 && t.nominal != 0 && Shift(t, freq) + t.nominal != 0
    ensures GetFreq(SetFreq(k, t, true, freq), t, true)
         == Truncate(Remainder(t, freq) * UNITS_PER_PPB) as real / UNITS_PER_PPB + (freq - Remainder(t, freq))
  {
    var k' := SetFreq(k, t, true, freq);
    assert k'.tick - t.nominal == Shift(t, freq);
  }

  /** A kernel that tells no tick is read like one with the nominal tick. */
  lemma NoTickIsNominal(k: Kernel, t: Ticks, realtime: bool)
    requires k.tick == 0
    ensures GetFreq(k, t, realtime) == GetFreq(k.(tick := t.nominal), t, realtime) == k.freq as real / 65.536
  {
    assert TickWorth(t) * 0.0 == 0.0;
  }

  /** Within the advertised maximum the tick is never 0, so the round trip is always within one kernel unit. */
  lemma RoundTrip(k: Kernel, hz: int, freq: real)
    requires hz > 0 && Initialised(hz).nominal != 0 && k.tolerance >= 66
    requires var f := MaxFreq(k, Initialised(hz), true) as real; -f <= freq <= f
    ensures var t := Initialised(hz);
            -1.0 / UNITS_PER_PPB < freq - GetFreq(SetFreq(k, t, true, freq), t, true) < 1.0 / UNITS_PER_PPB
  {
    SplitWithinLimits(k, hz, freq);
    ReadBack(k, Initialised(hz), true, freq);
  }

  /** Whether a fine frequency of q ticks beside a shift of m ticks is what rounding leaves: less than half a tick, or
      exactly half a tick toward zero. */
  predicate Rounded(q: real, m: int) {
    -0.5 < q < 0.5 || (q == 0.5 && m < 0) || (q == -0.5 && m > 0)
  }

  lemma RoundShift(q: real, m: int)
    ensures Round(q + m as real) == m <==> Rounded(q, m)
  {
  }

  lemma TicksOf(t: Ticks, x: real, m: int)
    requires t.hz > 0
    ensures InTicks(t, x + TickWorth(t) * m as real) == InTicks(t, x) + m as real
  {
    var y, w := x + TickWorth(t) * m as real, TickWorth(t);
    TicksAreWorth(t, x);
    TicksAreWorth(t, y);
    var d := InTicks(t, y) - InTicks(t, x) - m as real;
    assert d * w == 0.0;
    Compare(d, 0.0, w);
    Compare(0.0, d, w);
  }

  /** Writing back what was read leaves the kernel as it was exactly when its fine frequency is a rounded one. */
  lemma WriteBack(k: Kernel, t: Ticks)
    requires t.hz > 0 && t.nominal != 0 && k.tick != 0
    ensures SetFreq(k, t, true, GetFreq(k, t, true)) == k
            <==> Rounded(InTicks(t, k.freq as real / UNITS_PER_PPB), k.tick - t.nominal)
  {
    var x, m := k.freq as real / UNITS_PER_PPB, k.tick - t.nominal;
    var freq := GetFreq(k, t, true);
    assert freq == x + TickWorth(t) * m as real;
    TicksOf(t, x, m);
    RoundShift(InTicks(t, x), m);
    if Shift(t, freq) == m {
      WrittenBack(k, t, freq, x, m);
    }
  }

  lemma WrittenBack(k: Kernel, t: Ticks, freq: real, x: real, m: int)
    requires t.hz > 0 && t.nominal != 0 && freq == x + TickWorth(t) * m as real && Shift(t, freq) == m
    requires m == k.tick - t.nominal && x == k.freq as real / UNITS_PER_PPB
    ensures SetFreq(k, t, true, freq) == k
  {
    assert Remainder(t, freq) == x;
    assert x * UNITS_PER_PPB == k.freq as real;
  }

  const COARSE := Kernel(4000000, 10000, 32768000)

  /** A fine frequency of more than half a tick, well within the tolerance, is taken over by the tick. */
  lemma WriteBackChanges()
    ensures -COARSE.tolerance <= COARSE.freq <= COARSE.tolerance && COARSE.tick == Initialised(100).nominal
    ensures var t := Initialised(100);
            SetFreq(COARSE, t, true, GetFreq(COARSE, t, true)) == COARSE.(freq := -2553600, tick := 10001)
  {
    var t := Initialised(100);
    var freq := GetFreq(COARSE, t, true);
    assert freq == 4000000.0 / UNITS_PER_PPB;
    assert InTicks(t, freq) == freq / 100000.0;
    assert Shift(t, freq) == 1;
    assert Remainder(t, freq) * UNITS_PER_PPB == 4000000.0 - 100000.0 * UNITS_PER_PPB;
  }

  // ---- What the kernel accepts ----------------------------------------------------------------

  /** The tick lies within a tenth of nominal, where it is used, and the fine frequency within the tolerance. */
  predicate Accepts(k: Kernel, t: Ticks, realtime: bool) {
    && (UsesTick(t, realtime) ==> t.nominal - t.nominal / 10 <= k.tick <= t.nominal + t.nominal / 10)
    && -k.tolerance <= k.freq <= k.tolerance
  }

  /** Ticks as the program learns them, or not at all. */
  predicate Known(t: Ticks) {
    t.nominal != 0 ==> t.hz > 0 && t == Initialised(t.hz)
  }

  /** Every frequency up to the advertised maximum is accepted, on any clock. */
  lemma AcceptsUpToMax(k: Kernel, t: Ticks, realtime: bool, freq: real)
    requires k.tolerance >= 66 && Known(t)
    requires var f := MaxFreq(k, t, realtime) as real; -f <= freq <= f
    ensures Accepts(SetFreq(k, t, realtime, freq), t, realtime)
  {
    if UsesTick(t, realtime) {
      SplitWithinLimits(k, t.hz, freq);
    } else {
      WithinTolerance(k, freq);
    }
  }

  /** And the advertised maximum is the largest of its kind: the next whole tick is refused, or the next whole ppb
      exceeds the kernel's tolerance. A kernel that tells less than 1 ppb counts as one of 500000. */
  lemma MaxFreqIsLargest(k: Kernel, t: Ticks, realtime: bool)
    requires Known(t) && k.tolerance >= 0
    ensures var f := MaxFreq(k, t, realtime); var units := if k.tolerance < 66 then 32768000 else k.tolerance;
            if UsesTick(t, realtime) && 2 * KernelMax(k) >= 1000 * t.hz
            then && f == t.nominal / 10 * (1000 * t.hz)
                 && !Accepts(SetFreq(k, t, realtime, (f + 1000 * t.hz) as real), t, realtime)
            else f as real * 65.536 <= units as real < (f + 1) as real * 65.536
  {
    if UsesTick(t, realtime) && 2 * KernelMax(k) >= 1000 * t.hz {
      var n := t.nominal / 10;
      NominalIsRounded(t.hz);
      assert MaxFreq(k, t, realtime) == n * (1000 * t.hz) by {
        assert n * 1000 * t.hz == n * (1000 * t.hz);
      }
      var freq := (n * (1000 * t.hz) + 1000 * t.hz) as real;
      NextTick(t, n, freq);
      TickRangeExact(k, t, freq, n);
    }
  }

  lemma NextTick(t: Ticks, n: nat, freq: real)
    requires t.hz > 0 && freq == (n * (1000 * t.hz) + 1000 * t.hz) as real
    ensures freq >= (n as real + 0.5) * TickWorth(t)
  {
    WholeTicks(t, n);
    assert n * 1000 * t.hz == n * (1000 * t.hz);
    Distributes(TickWorth(t), n as real, 0.5);
    assert TickWorth(t) * (n as real + 0.5) == (n as real + 0.5) * TickWorth(t);
  }

  /** The nominal tick is the whole number of microseconds nearest to a period. */
  lemma NominalIsRounded(hz: int)
    requires hz > 0
    ensures var nominal := Initialised(hz).nominal;
            nominal >= 0 && -hz <= 2 * (nominal * hz - 1000000) <= hz
  {
    var total := 1000000 + hz / 2;
    var nominal := total / hz;
    assert nominal * hz == total - total % hz;
  }

  lemma MaxFreqNonNegative(k: Kernel, t: Ticks, realtime: bool)
    requires k.tolerance >= 66 && Known(t)
    ensures MaxFreq(k, t, realtime) >= 0
  {
    if UsesTick(t, realtime) {
      MulOrder(0, Div(t.nominal, 10) * 1000, t.hz);
    }
  }

  /** The advertised maximum always fits in an int. */
  lemma MaxFreqFits(k: Kernel, hz: int)
    requires 0 <= KernelMax(k) < 0x8000_0000
    ensures 0 <= MaxFreq(k, Initialised(hz), true) < 0x8000_0000
  {
    var t := Initialised(hz);
    if t.nominal != 0 {
      NominalProduct(t.nominal, hz);
      TenthProduct(t.nominal, Div(t.nominal, 10), hz);
    }
  }

  lemma NominalProduct(nominal: int, hz: int)
    requires hz > 0 && nominal == (1000000 + hz / 2) / hz && nominal != 0
    ensures 0 < nominal * hz <= 2000000
  {
    var total := 1000000 + hz / 2;
    assert nominal * hz == total - total % hz;
    assert hz <= total;
  }

  lemma TenthProduct(nominal: int, tenth: int, hz: int)
    requires 0 <= 10 * tenth <= nominal && hz > 0 && nominal * hz <= 2000000
    ensures 0 <= tenth * 1000 * hz <= 200000000
  {
    MulOrder(10 * tenth, nominal, hz);
    MulOrder(0, tenth, hz);
    assert tenth * 1000 * hz == 100 * (10 * tenth * hz);
  }

  // ---- Stepping -------------------------------------------------------------------------------

  /** Seconds and nanoseconds whose sum is the step, nanoseconds not negative. */
  function SplitStep(step: int): (r: (int, int))
    ensures r.0 * NS_PER_SEC + r.1 == step && 0 <= r.1 < NS_PER_SEC
  {
    var sign := if step < 0 then -1 else 1;
    var magnitude := if step < 0 then -step else step;
    var sec, nsec := sign * (magnitude / NS_PER_SEC), sign * (magnitude % NS_PER_SEC);
    if nsec < 0 then (sec - 1, nsec + NS_PER_SEC) else (sec, nsec)
  }

  // ---- The clock itself ------------------------------------------------------------------------

  /** A clock with what the program knows about its ticks. Kernel calls are taken to succeed. */
  class Clock {
    const realtime: bool
    var hz: int
    var nominalTick: int
    var kernel: Kernel
    /** The clock's reading at some fixed moment, and the phase the kernel was asked to slew, in nanoseconds. */
    var reading: int
    var phase: int

    function TicksView(): Ticks
      reads this
    {
      Ticks(hz, nominalTick)
    }

    ghost predicate Valid()
      reads this
    {
      nominalTick != 0 ==> hz > 0
    }

    constructor (realtime: bool, kernel: Kernel, reading: int)
      ensures Valid() && this.realtime == realtime && this.kernel == kernel && this.reading == reading
      ensures TicksView() == Ticks(0, 0)
    {
      this.realtime, this.kernel, this.reading, phase, hz, nominalTick := realtime, kernel, reading, 0, 0, 0;
    }

    /** Called once, before anything else. */
    method Init(userHz: int)
      requires nominalTick == 0
      modifies this`hz, this`nominalTick
      ensures Valid()
      ensures TicksView() == if realtime then Initialised(userHz) else old(TicksView())
    {
      if realtime {
        hz := userHz;
        if hz > 0 {
          nominalTick := (1000000 + hz / 2) / hz;
        }
      }
    }

    method SetFrequency(freq: real)
      requires Valid()
      modifies this`kernel
      ensures kernel == SetFreq(old(kernel), TicksView(), realtime, freq)
    {
      var rest, tick := freq, kernel.tick;
      if realtime && nominalTick != 0 {
        var shift := Shift(TicksView(), freq);
        tick := shift + nominalTick;
        rest := rest - TickWorth(TicksView()) * (tick - nominalTick) as real;
      }
      kernel := kernel.(tick := tick, freq := Truncate(rest * UNITS_PER_PPB));
    }

    method GetFrequency() returns (f: real)
      requires Valid()
      ensures f == GetFreq(kernel, TicksView(), realtime)
    {
      f := kernel.freq as real / UNITS_PER_PPB;
      if realtime && nominalTick != 0 && kernel.tick != 0 {
        f := f + TickWorth(TicksView()) * (kernel.tick - nominalTick) as real;
      }
    }

    method MaximumFrequency() returns (f: int)
      ensures f == MaxFreq(kernel, TicksView(), realtime)
    {
      f := Truncate(kernel.tolerance as real / UNITS_PER_PPB);
      if f == 0 {
        f := DEFAULT_MAX_FREQ;
      }
      if realtime && nominalTick != 0 && 2 * f >= 1000 * hz {
        f := Div(nominalTick, 10) * 1000 * hz;
      }
    }

    method SetPhase(offset: int)
      modifies this`phase
      ensures phase == offset
    {
      phase := offset;
    }

    /** Steps the clock through a seconds and a nanoseconds field, the latter never negative. */
    method Step(step: int)
      modifies this`reading
      ensures reading == old(reading) + step
    {
      var (sec, nsec) := SplitStep(step);
      reading := reading + sec * NS_PER_SEC + nsec;
    }
  }
}
