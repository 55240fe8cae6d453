/** The proportional-integral servo (servo/pi/pi.c) under its wrapper (servo/servo.c). */
module PiServo {
  import opened Reals
  import opened Servo

  const HWTS_KP_SCALE := 0.7
  const HWTS_KI_SCALE := 0.3
  const SWTS_KP_SCALE := 0.1
  const SWTS_KI_SCALE := 0.001
  const MAX_KP_NORM_MAX := 1.0
  const MAX_KI_NORM_MAX := 2.0
  const FREQ_EST_MARGIN := 0.001

  /** 0: no sample yet; 1: one reference sample; 2: tracking. */
  type Count = n: int | 0 <= n <= 2

  /** Configured gain scales, exponents and caps. */
  datatype Gains = Gains(kpScale: real, kpExponent: real, kpNormMax: real,
                         kiScale: real, kiExponent: real, kiNormMax: real)

  datatype State = State(
    count: Count, offset0: int, offset1: int, local0: int, local1: int,
    drift: real, kp: real, ki: real, lastFreq: real, gains: Gains)

  // ---- Gains --------------------------------------------------------------------------------

  /** Constants given by the user win over scales; without either there are defaults. */
  function Configured(kp: real, ki: real, swTs: bool, g: Gains): Gains {
    if kp != 0.0 && ki != 0.0 then Gains(kp, 0.0, MAX_KP_NORM_MAX, ki, 0.0, MAX_KI_NORM_MAX)
    else if g.kpScale == 0.0 || g.kiScale == 0.0 then
      g.(kpScale := if swTs then SWTS_KP_SCALE else HWTS_KP_SCALE,
         kiScale := if swTs then SWTS_KI_SCALE else HWTS_KI_SCALE)
    else g
  }

  function Capped(gain: real, normMax: real, interval: real): real
    requires interval > 0.0
  {
    if gain > normMax / interval then normMax / interval else gain
  }

  /** kpPower and kiPower stand for pow(interval, exponent). */
  function AfterSyncInterval(s: State, interval: real, kpPower: real, kiPower: real): State
    requires interval > 0.0
  {
    s.(kp := Capped(s.gains.kpScale * kpPower, s.gains.kpNormMax, interval),
       ki := Capped(s.gains.kiScale * kiPower, s.gains.kiNormMax, interval))
  }

  ghost predicate GainsSane(g: Gains) {
    g.kpScale >= 0.0 && g.kpNormMax >= 0.0 && g.kiScale >= 0.0 && g.kiNormMax >= 0.0
  }

  /** Gains stay non-negative and below their caps in units of one interval. */
  lemma GainsAreCapped(s: State, interval: real, kpPower: real, kiPower: real)
    requires GainsSane(s.gains) && interval > 0.0 && kpPower >= 0.0 && kiPower >= 0.0
    ensures var s' := AfterSyncInterval(s, interval, kpPower, kiPower);
            && 0.0 <= s'.kp * interval <= s.gains.kpNormMax && s'.kp >= 0.0
            && 0.0 <= s'.ki * interval <= s.gains.kiNormMax && s'.ki >= 0.0
  {
    CappedGain(s.gains.kpScale * kpPower, s.gains.kpNormMax, interval);
    CappedGain(s.gains.kiScale * kiPower, s.gains.kiNormMax, interval);
  }

  lemma CappedGain(gain: real, normMax: real, interval: real)
    requires gain >= 0.0 && normMax >= 0.0 && interval > 0.0
    ensures var c := Capped(gain, normMax, interval); c >= 0.0 && 0.0 <= c * interval <= normMax
  {
    var cap := normMax / interval;
    assert cap * interval == normMax;
    assert cap >= 0.0;
    if gain <= cap {
      Monotone(gain, cap, interval);
      Monotone(0.0, gain, interval);
    }
  }

  /** The smaller one of what is configured and of what the cap allows, in units of one interval. */
  lemma GainsInIntervals(s: State, interval: real, kpPower: real, kiPower: real)
    requires interval > 0.0
    ensures var s' := AfterSyncInterval(s, interval, kpPower, kiPower);
            && s'.kp * interval == SmallerReal(s.gains.kpScale * kpPower * interval, s.gains.kpNormMax)
            && s'.ki * interval == SmallerReal(s.gains.kiScale * kiPower * interval, s.gains.kiNormMax)
  {
    CappedProduct(s.gains.kpScale * kpPower, s.gains.kpNormMax, interval);
    CappedProduct(s.gains.kiScale * kiPower, s.gains.kiNormMax, interval);
  }

  function SmallerReal(x: real, y: real): real {
    if x <= y then x else y
  }

  lemma CappedProduct(gain: real, normMax: real, interval: real)
    requires interval > 0.0
    ensures Capped(gain, normMax, interval) * interval == SmallerReal(gain * interval, normMax)
  {
    var cap := normMax / interval;
    assert cap * interval == normMax;
    Compare(cap, gain, interval);
  }

  /** Without gains or scales of the user's, at one sample a second and with the configured exponents and caps: 0.1 and
      0.001 for software time stamps, 0.7 and 0.3 for those of hardware. With gains of the user's: these, whatever the
      scales. */
  lemma ConfiguredGains(s: State, swTs: bool, kp: real, ki: real, scales: Gains)
    requires kp > 0.0 && ki > 0.0
    ensures var d := s.(gains := Configured(0.0, 0.0, swTs, Gains(0.0, -0.3, 0.7, 0.0, 0.4, 0.3)));
            var d' := AfterSyncInterval(d, 1.0, 1.0, 1.0);
            && d'.kp == (if swTs then 0.1 else 0.7) && d'.ki == (if swTs then 0.001 else 0.3)
            && d'.gains.kpExponent == -0.3 && d'.gains.kiExponent == 0.4
    ensures Configured(kp, ki, swTs, scales) == Gains(kp, 0.0, 1.0, ki, 0.0, 2.0)
    ensures scales.kpScale != 0.0 && scales.kiScale != 0.0 ==>
            Configured(0.0, ki, swTs, scales) == Configured(kp, 0.0, swTs, scales) == scales
  {
  }

  // ---- One sample ---------------------------------------------------------------------------

  /** Seconds between the two reference samples, with the margin added. */
  function Span(local0: int, local1: int): real {
    var localDiff := (local1 - local0) as real / 1000000000.0;
    localDiff + localDiff * FREQ_EST_MARGIN
  }

  /** Seconds to wait before the frequency is estimated; an infinite quotient is cut off like a large one. */
  function EstimationInterval(ki: real): real {
    if ki == 0.0 then 1000.0
    else if 0.016 / ki > 1000.0 then 1000.0 else 0.016 / ki
  }

  /** Whether d ns of local time are enough for a frequency estimate: with the margin of a thousandth, 0.016 / ki
      seconds or 1000 seconds. */
  predicate Waited(d: int, ki: real) {
    && d > 0
    && (ki == 0.0 ==> 1.001 * d as real >= 1000000000000.0)
    && (ki > 0.0 ==> 1.001 * d as real * ki >= 16000000.0 || 1.001 * d as real >= 1000000000000.0)
  }

  lemma WaitIsSpan(local0: int, local1: int, ki: real)
    requires local0 < local1
    ensures Span(local0, local1) >= EstimationInterval(ki) <==> Waited(local1 - local0, ki)
  {
    var span, x := Span(local0, local1), 1.001 * (local1 - local0) as real;
    assert span * 1000000000.0 == x;
    if ki > 0.0 {
      var q := 0.016 / ki;
      assert q * ki == 0.016;
      Compare(span, q, ki);
      assert span * ki * 1000000000.0 == x * ki;
    } else if ki < 0.0 {
      var q := 0.016 / ki;
      assert q * ki == 0.016;
      NegativeQuotient(q, ki);
    }
  }

  lemma NegativeQuotient(q: real, k: real)
    requires k < 0.0 && q * k > 0.0
    ensures q < 0.0
  {
    if q >= 0.0 {
      Monotone(k, 0.0, q);
    }
  }

  function Term(gain: real, offset: real, weight: real): real {
    gain * offset * weight
  }

  /** The control law of the tracking phase: the new output and the new drift. */
  function Control(kp: real, ki: real, drift: real, limit: real, offset: real, weight: real): (real, real) {
    var kiTerm := Term(ki, offset, weight);
    var ppb := Term(kp, offset, weight) + drift + kiTerm;
    if ppb < -limit then (-limit, drift)
    else if ppb > limit then (limit, drift)
    else (ppb, drift + kiTerm)
  }

  function EstimatedDrift(s: State, offset: int, localTs: int): real
    requires s.local0 < localTs
  {
    s.drift + (1000000000.0 - s.drift) * (offset - s.offset0) as real / (localTs - s.local0) as real
  }

  /** While the clock runs at 1 - lastFreq / 1e9 of its own rate, its own time `own` shows as `local`, and `local` minus
      the change of the offset is what passed remotely. */
  ghost predicate Shows(s: State, localTs: int, own: real) {
    s.local0 < localTs && own != 0.0 && (localTs - s.local0) as real == own * (1.0 - s.lastFreq / 1000000000.0)
  }

  /** The frequency under which the clock would have kept pace with the remote one. */
  ghost predicate KeepsPace(s: State, offset: int, localTs: int, own: real, freq: real) {
    own * (1.0 - freq / 1000000000.0) == (localTs - s.local0 - (offset - s.offset0)) as real
  }

  /** An unlocked clock keeps running at the last frequency, but the estimate starts from the drift: it is right exactly
      when the two agree, or when no time passed remotely at all. */
  lemma EstimateIsExact(s: State, offset: int, localTs: int, own: real)
    requires Shows(s, localTs, own)
    ensures KeepsPace(s, offset, localTs, own, EstimatedDrift(s, offset, localTs))
            <==> s.drift == s.lastFreq || offset - s.offset0 == localTs - s.local0
  {
    var local, change := (localTs - s.local0) as real, (offset - s.offset0) as real;
    var pace := s.(drift := s.lastFreq);
    PaceArithmetic(local, change, own, s.lastFreq, EstimatedDrift(s, offset, localTs),
                   EstimatedDrift(pace, offset, localTs));
    EstimatesDiffer(local, change, s.drift, s.lastFreq);
  }

  /** The estimate from the last frequency is the only one that keeps pace. */
  lemma OnlyOneKeepsPace(s: State, offset: int, localTs: int, own: real, freq: real)
    requires Shows(s, localTs, own)
    ensures KeepsPace(s, offset, localTs, own, freq)
            <==> freq == EstimatedDrift(s.(drift := s.lastFreq), offset, localTs)
  {
    PaceArithmetic((localTs - s.local0) as real, (offset - s.offset0) as real, own, s.lastFreq, freq,
                   EstimatedDrift(s.(drift := s.lastFreq), offset, localTs));
  }

  lemma EstimatesDiffer(local: real, change: real, drift: real, freq: real)
    requires local > 0.0
    ensures drift + (1000000000.0 - drift) * change / local == freq + (1000000000.0 - freq) * change / local
            <==> drift == freq || change == local
  {
    var q := change / local;
    assert q * local == change;
    QuotientOfProduct(1000000000.0 - drift, change, local);
    QuotientOfProduct(1000000000.0 - freq, change, local);
    if q != 1.0 {
      CancelFactor(drift, freq, 1.0 - q);
      CancelFactor(q, 1.0, local);
    }
    assert drift * (1.0 - q) == drift - drift * q && freq * (1.0 - q) == freq - freq * q;
  }

  lemma QuotientOfProduct(a: real, b: real, c: real)
    requires c != 0.0
    ensures a * b / c == a * (b / c)
  {
    var q := b / c;
    assert q * c == b;
    assert a * q * c == a * b;
    CancelFactor(a * b / c, a * q, c);
  }

  lemma PaceArithmetic(local: real, change: real, own: real, drift: real, drift': real, estimate: real)
    requires local > 0.0 && own != 0.0 && local == own * (1.0 - drift / 1000000000.0)
    requires estimate == drift + (1000000000.0 - drift) * change / local
    ensures own * (1.0 - drift' / 1000000000.0) == local - change <==> drift' == estimate
  {
    var q := (1000000000.0 - drift) * change / local;
    assert q * local == (1000000000.0 - drift) * change;
    assert own * (1000000000.0 - drift) == 1000000000.0 * local by {
      assert own * (1.0 - drift / 1000000000.0) == own - own * drift / 1000000000.0;
    }
    assert own * q == 1000000000.0 * change by {
      assert own * q * local == own * ((1000000000.0 - drift) * change) == 1000000000.0 * local * change;
      CancelFactor(own * q, 1000000000.0 * change, local);
    }
    assert own * (1.0 - drift' / 1000000000.0) == own - own * drift' / 1000000000.0;
    assert own * (1.0 - drift / 1000000000.0) == own - own * drift / 1000000000.0;
    assert own * (drift' - drift) == own * drift' - own * drift;
    CancelFactor(drift' - drift, q, own);
  }

  lemma CancelFactor(a: real, b: real, k: real)
    requires k != 0.0
    ensures a * k == b * k <==> a == b
  {
    if a * k == b * k {
      assert (a - b) * k == 0.0;
    }
  }

  function Answers(s: State, verdict: Verdict, ppb: real): (State, Answer) {
    (s.(lastFreq := ppb), Answer(verdict, ppb))
  }

  function Sampled(s: State, c: Common, offset: int, localTs: int, weight: real): (State, Answer) {
    if s.count == 0 then
      Answers(s.(offset0 := offset, local0 := localTs, count := 1), Unlocked, s.lastFreq)
    else if s.count == 1 then
      var t := s.(offset1 := offset, local1 := localTs);
      if t.local0 >= t.local1 then Answers(t.(count := 0), Unlocked, s.lastFreq)
      else if Span(t.local0, t.local1) < EstimationInterval(t.ki) then Answers(t, Unlocked, s.lastFreq)
      else
        var drift := Clamp(EstimatedDrift(t, offset, localTs), c.maxFrequency);
        var magnitude := Abs(offset) as real;
        Answers(t.(drift := drift, count := 2),
                if StepsFirst(c, magnitude) || StepsAlways(c, magnitude) then Jump else Locked, drift)
    else if StepsAlways(c, Abs(offset) as real) then
      Answers(s.(count := 0), Unlocked, s.lastFreq)
    else
      var (ppb, drift) := Control(s.kp, s.ki, s.drift, c.maxFrequency, offset as real, weight);
      Answers(s.(drift := drift), Locked, ppb)
  }

  // ---- Whole runs through servo_sample --------------------------------------------------------

  datatype Event = Sample(offset: int, localTs: int, weight: real)
                 | SyncInterval(interval: real, kpPower: real, kiPower: real)
                 | Reset

  datatype System = System(common: Common, pi: State)

  ghost predicate Admissible(e: Event) {
    match e
    case Sample(_, _, weight) => weight >= 0.0
    case SyncInterval(interval, kpPower, kiPower) => interval > 0.0 && kpPower >= 0.0 && kiPower >= 0.0
    case Reset => true
  }

  ghost predicate AdmissibleRun(events: seq<Event>) {
    forall i :: 0 <= i < |events| ==> Admissible(events[i])
  }

  function Engine(y: System, e: Event): (State, Answer)
    requires e.Sample?
  {
    Sampled(y.pi, y.common, e.offset, e.localTs, e.weight)
  }

  function Next(y: System, e: Event): System
    requires e.SyncInterval? ==> e.interval > 0.0
  {
    match e
    case Sample(offset, _, _) =>
      var (pi, answer) := Engine(y, e);
      System(After(y.common, answer.verdict, offset), pi)
    case SyncInterval(interval, kpPower, kiPower) =>
      y.(pi := AfterSyncInterval(y.pi, interval, kpPower, kiPower))
    case Reset => y.(pi := y.pi.(count := 0))
  }

  function CreatedSystem(cfg: Config, gains: Gains, initialAdj: int): System {
    System(Servo.Created(cfg), State(0, 0, 0, 0, 0, initialAdj as real, 0.0, 0.0, initialAdj as real, gains))
  }

  ghost function Run(y: System, events: seq<Event>): System
    requires AdmissibleRun(events)
  {
    if events == [] then y
    else
      var before := events[..|events| - 1];
      assert forall i :: 0 <= i < |before| ==> before[i] == events[i];
      Next(Run(y, before), events[|events| - 1])
  }

  /** The system just before the i-th event, and what the engine answers to it. */
  ghost function Before(y: System, events: seq<Event>, i: nat): System
    requires AdmissibleRun(events) && i <= |events|
  {
    Run(y, events[..i])
  }

  ghost function Verdict(y: System, events: seq<Event>, i: nat): Verdict
    requires AdmissibleRun(events) && i < |events| && events[i].Sample?
  {
    Engine(Before(y, events, i), events[i]).1.verdict
  }

  lemma BeforeNext(y: System, events: seq<Event>, i: nat)
    requires AdmissibleRun(events) && i < |events|
    ensures Before(y, events, i + 1) == Next(Before(y, events, i), events[i])
  {
    assert events[..i + 1][..i] == events[..i];
  }

  // ---- Anti-windup ---------------------------------------------------------------------------

  ghost predicate Limited(y: System) {
    var limit := y.common.maxFrequency;
    -limit <= y.pi.drift <= limit && -limit <= y.pi.lastFreq <= limit
  }

  /** Configuration that never changes, and gains that are never negative. */
  ghost predicate Sane(y: System) {
    && y.common.maxFrequency >= 0.0 && GainsSane(y.pi.gains) && y.pi.kp >= 0.0 && y.pi.ki >= 0.0
    && (y.pi.count == 2 ==> Limited(y))
  }

  /** The proportional and the integral term push the same way, so a sum that is not clamped leaves the drift,
      which is not clamped at all, between its old value and the output. */
  lemma SameSign(kp: real, ki: real, drift: real, limit: real, offset: real, weight: real)
    requires kp >= 0.0 && ki >= 0.0 && weight >= 0.0 && -limit <= drift <= limit
    ensures var (ppb, drift') := Control(kp, ki, drift, limit, offset, weight);
            -limit <= ppb <= limit && -limit <= drift' <= limit
  {
    TermSign(kp, offset, weight);
    TermSign(ki, offset, weight);
  }

  /** A weight scales the offset, for output and drift alike. */
  lemma WeightScalesOffset(kp: real, ki: real, drift: real, limit: real, offset: real, weight: real)
    ensures Control(kp, ki, drift, limit, offset, weight) == Control(kp, ki, drift, limit, offset * weight, 1.0)
  {
    TermScales(kp, offset, weight);
    TermScales(ki, offset, weight);
  }

  lemma TermScales(gain: real, offset: real, weight: real)
    ensures Term(gain, offset, weight) == Term(gain, offset * weight, 1.0) == gain * (offset * weight)
  {
  }

  /** The output is what the two gains make of the weighted offset on top of the drift, or the value within the limit
      that is nearest to it; only an output that is not limited moves the drift, by the integral part. */
  lemma OutputIsNearest(kp: real, ki: real, drift: real, limit: real, offset: real, weight: real, y: real)
    requires -limit <= y <= limit
    ensures var (ppb, drift') := Control(kp, ki, drift, limit, offset, weight);
            var wanted := drift + (kp + ki) * (offset * weight);
            && -limit <= ppb <= limit && AbsReal(wanted - ppb) <= AbsReal(wanted - y)
            && drift' == if -limit <= wanted <= limit then drift + ki * (offset * weight) else drift
  {
    TermScales(kp, offset, weight);
    TermScales(ki, offset, weight);
    Distributes(offset * weight, kp, ki);
  }

  lemma TermSign(gain: real, offset: real, weight: real)
    requires gain >= 0.0 && weight >= 0.0
    ensures offset >= 0.0 ==> Term(gain, offset, weight) >= 0.0
    ensures offset <= 0.0 ==> Term(gain, offset, weight) <= 0.0
  {
    Monotone(0.0, weight, gain);
    assert Term(gain, offset, weight) == offset * (weight * gain);
    if offset >= 0.0 {
      Monotone(0.0, offset, weight * gain);
    } else {
      Monotone(offset, 0.0, weight * gain);
    }
  }

  /** A new servo with the program's choice of gains is sane. */
  lemma CreatedIsSane(cfg: Config, kp: real, ki: real, swTs: bool, scales: Gains, initialAdj: int)
    requires cfg.maxFrequency >= 0.0 && kp >= 0.0 && ki >= 0.0 && GainsSane(scales)
    ensures Sane(CreatedSystem(cfg, Configured(kp, ki, swTs, scales), initialAdj))
  {
  }

  lemma NextKeepsSane(y: System, e: Event)
    requires Sane(y) && Admissible(e)
    ensures Sane(Next(y, e))
    ensures Limited(y) ==> Limited(Next(y, e))
    ensures e.Sample? && !Engine(y, e).1.verdict.Unlocked? ==> Limited(Next(y, e))
    ensures e.Sample? ==> Engine(y, e).1.adjustment == Next(y, e).pi.lastFreq
  {
    match e
    case Sample(offset, _, weight) =>
      if y.pi.count == 2 {
        SameSign(y.pi.kp, y.pi.ki, y.pi.drift, y.common.maxFrequency, offset as real, weight);
      }
    case SyncInterval(interval, kpPower, kiPower) =>
      GainsAreCapped(y.pi, interval, kpPower, kiPower);
    case Reset =>
  }

  lemma {:induction false} RunKeepsSane(y: System, events: seq<Event>)
    requires Sane(y) && AdmissibleRun(events)
    ensures Sane(Run(y, events))
  {
    if events != [] {
      var before := events[..|events| - 1];
      assert forall i :: 0 <= i < |before| ==> before[i] == events[i];
      RunKeepsSane(y, before);
      NextKeepsSane(Run(y, before), events[|events| - 1]);
    }
  }

  lemma {:induction false} LimitedForGood(y: System, events: seq<Event>, i: nat, j: nat)
    requires Sane(y) && AdmissibleRun(events) && i <= j <= |events|
    requires Limited(Before(y, events, i))
    ensures Limited(Before(y, events, j))
  {
    if i < j {
      LimitedForGood(y, events, i, j - 1);
      RunKeepsSane(y, events[..j - 1]);
      BeforeNext(y, events, j - 1);
      NextKeepsSane(Before(y, events, j - 1), events[j - 1]);
    }
  }

  lemma EngagedLimited(y: System, events: seq<Event>, i: nat)
    requires Sane(y) && AdmissibleRun(events) && i < |events| && events[i].Sample?
    requires !Verdict(y, events, i).Unlocked?
    ensures Limited(Before(y, events, i + 1))
  {
    RunKeepsSane(y, events[..i]);
    BeforeNext(y, events, i);
    NextKeepsSane(Before(y, events, i), events[i]);
  }

  /** The output is what the servo remembers as its last frequency. */
  lemma OutputRemembered(y: System, events: seq<Event>, j: nat)
    requires AdmissibleRun(events) && j < |events| && events[j].Sample?
    ensures Engine(Before(y, events, j), events[j]).1.adjustment == Before(y, events, j + 1).pi.lastFreq
    ensures Before(y, events, j).common.maxFrequency == Before(y, events, j + 1).common.maxFrequency
  {
    BeforeNext(y, events, j);
  }

  /** From the first JUMP or LOCKED on, neither the output nor the drift ever exceeds the limit. */
  lemma AntiWindup(y: System, events: seq<Event>, i: nat, j: nat)
    requires Sane(y) && AdmissibleRun(events) && i <= j < |events| && events[i].Sample? && events[j].Sample?
    requires !Verdict(y, events, i).Unlocked?
    ensures var limit := Before(y, events, j).common.maxFrequency;
            && -limit <= Engine(Before(y, events, j), events[j]).1.adjustment <= limit
            && -limit <= Before(y, events, j + 1).pi.drift <= limit
  {
    EngagedLimited(y, events, i);
    LimitedForGood(y, events, i + 1, j + 1);
    OutputRemembered(y, events, j);
  }

  // ---- Getting locked ------------------------------------------------------------------------

  /** From phase 0, two samples engage the servo exactly when enough local time lies between them; it then jumps exactly
      when the second offset is beyond a threshold in force. A second sample that is not younger takes the first one
      away, and one that comes too early leaves it the reference. */
  lemma TwoSamplesEngage(y: System, first: Event, second: Event)
    requires y.pi.count == 0 && first.Sample? && second.Sample?
    ensures var z := Next(y, first);
            var verdict, z', d := Engine(z, second).1.verdict, Next(z, second).pi, second.localTs - first.localTs;
            && Engine(y, first).1.verdict.Unlocked?
            && (!verdict.Unlocked? <==> Waited(d, y.pi.ki))
            && (!verdict.Unlocked? ==>
                  (verdict.Jump? <==>
                     || Beyond(second.offset as real, y.common.stepThreshold)
                     || (y.common.firstUpdate && Beyond(second.offset as real, y.common.firstStepThreshold))))
            && z'.count == (if d <= 0 then 0 else if Waited(d, y.pi.ki) then 2 else 1)
            && (z'.count == 1 ==> z'.local0 == first.localTs && z'.offset0 == first.offset)
  {
    if first.localTs < second.localTs {
      WaitIsSpan(first.localTs, second.localTs, y.pi.ki);
    }
  }

  // ---- Jump discipline -----------------------------------------------------------------------

  ghost predicate NoReset(events: seq<Event>, from: nat, to: nat)
    requires to <= |events|
  {
    forall k :: from <= k < to ==> !events[k].Reset?
  }

  /** Whoever holds a reference sample got it from an UNLOCKED sample in phase 0, and kept it since. */
  lemma {:induction false} ReferenceTaken(y: System, events: seq<Event>, i: nat, j: nat) returns (b: nat)
    requires AdmissibleRun(events) && i <= j <= |events|
    requires Before(y, events, i).pi.count != 1 && Before(y, events, j).pi.count == 1
    ensures i <= b < j && events[b].Sample? && Verdict(y, events, b).Unlocked?
    ensures Before(y, events, b).pi.count == 0
    ensures Before(y, events, j).pi.local0 == events[b].localTs
  {
    b := j - 1;
    BeforeNext(y, events, b);
    if Before(y, events, b).pi.count == 1 {
      b := ReferenceTaken(y, events, i, b);
    }
  }

  /** Without a reset, tracking is only left through an UNLOCKED sample. */
  lemma {:induction false} TrackingLeft(y: System, events: seq<Event>, i: nat, b: nat) returns (a: nat)
    requires AdmissibleRun(events) && i <= b <= |events| && NoReset(events, i, b)
    requires Before(y, events, i).pi.count != 0 && Before(y, events, b).pi.count == 0
    ensures i <= a < b && events[a].Sample? && Verdict(y, events, a).Unlocked?
  {
    a := b - 1;
    BeforeNext(y, events, a);
    if Before(y, events, a).pi.count == 0 {
      a := TrackingLeft(y, events, i, a);
    }
  }

  lemma JumpIsPhaseOne(y: System, e: Event)
    requires e.Sample? && (Engine(y, e).1.verdict.Jump? || (Engine(y, e).1.verdict.Locked? && y.pi.count != 2))
    ensures y.pi.count == 1 && Engine(y, e).0.count == 2
    ensures Waited(e.localTs - y.pi.local0, y.pi.ki)
  {
    if y.pi.local0 < e.localTs {
      WaitIsSpan(y.pi.local0, e.localTs, y.pi.ki);
    }
  }

  /** How many UNLOCKED answers the events from `from` on before `to` get. */
  ghost function Unlocks(y: System, events: seq<Event>, from: nat, to: nat): nat
    requires AdmissibleRun(events) && from <= to <= |events|
  {
    if from == to then 0
    else
      var unlocks := events[to - 1].Sample? && Verdict(y, events, to - 1).Unlocked?;
      Unlocks(y, events, from, to - 1) + if unlocks then 1 else 0
  }

  function Samples(events: seq<Event>, from: nat, to: nat): nat
    requires from <= to <= |events|
  {
    if from == to then 0 else Samples(events, from, to - 1) + if events[to - 1].Sample? then 1 else 0
  }

  /** What an event that is no JUMP makes of the phase, and whether it gets UNLOCKED. */
  predicate Steps(phase: Count, sample: bool, unlocks: bool, phase': Count) {
    if !sample then phase' == 0 || phase' == phase
    else
      && (phase == 0 ==> unlocks && phase' == 1)
      && (phase == 1 ==> (unlocks && phase' != 2) || (!unlocks && phase' == 2))
      && (phase == 2 ==> (unlocks && phase' == 0) || (!unlocks && phase' == 2))
  }

  lemma PhaseStep(y: System, e: Event)
    requires Admissible(e) && (e.Sample? ==> !Engine(y, e).1.verdict.Jump?)
    ensures Steps(y.pi.count, e.Sample?, e.Sample? && Engine(y, e).1.verdict.Unlocked?, Next(y, e).pi.count)
  {
  }

  lemma RunStep(y: System, events: seq<Event>, m: nat)
    requires AdmissibleRun(events) && m < |events| && NoJump(y, events, m, m + 1)
    ensures Steps(Before(y, events, m).pi.count, events[m].Sample?,
                  events[m].Sample? && Verdict(y, events, m).Unlocked?, Before(y, events, m + 1).pi.count)
  {
    BeforeNext(y, events, m);
    PhaseStep(Before(y, events, m), events[m]);
  }

  lemma {:induction false} UnlocksAdd(y: System, events: seq<Event>, i: nat, k: nat, j: nat)
    requires AdmissibleRun(events) && i <= k <= j <= |events|
    ensures Unlocks(y, events, i, j) == Unlocks(y, events, i, k) + Unlocks(y, events, k, j)
  {
    if k < j {
      UnlocksAdd(y, events, i, k, j - 1);
    }
  }

  /** An UNLOCKED answer counts. */
  lemma UnlockCounts(y: System, events: seq<Event>, i: nat, a: nat, j: nat)
    requires AdmissibleRun(events) && i <= a < j <= |events|
    requires events[a].Sample? && Verdict(y, events, a).Unlocked?
    ensures Unlocks(y, events, i, j) >= 1
  {
    UnlocksAdd(y, events, i, a + 1, j);
  }

  predicate OverThreshold(c: Common, e: Event) {
    e.Sample? && Beyond(e.offset as real, c.stepThreshold)
  }

  ghost predicate NoneOver(c: Common, events: seq<Event>, from: nat, to: nat)
    requires to <= |events|
  {
    forall m :: from <= m < to ==> !OverThreshold(c, events[m])
  }

  ghost predicate NoJump(y: System, events: seq<Event>, from: nat, to: nat)
    requires AdmissibleRun(events) && to <= |events|
  {
    forall m :: from <= m < to && events[m].Sample? ==> !Verdict(y, events, m).Jump?
  }

  /** The k-th event is the first reset from `from` on; up to it no offset exceeds the step threshold, and exactly one
      sample lies between it and the event `to`. */
  ghost predicate CutShort(c: Common, events: seq<Event>, from: nat, to: nat, k: nat)
    requires to <= |events|
  {
    && from <= k < to && events[k].Reset? && NoReset(events, from, k) && NoneOver(c, events, from, k)
    && Samples(events, k + 1, to) == 1
  }

  ghost predicate IsCutShort(c: Common, events: seq<Event>, from: nat, to: nat)
    requires to <= |events|
  {
    exists k: nat :: CutShort(c, events, from, to, k)
  }

  /** Tracking goes on without an UNLOCKED as long as nothing is reset and no offset exceeds the step threshold. */
  lemma {:induction false} TrackingGoesOn(y: System, events: seq<Event>, i: nat, m: nat)
    requires AdmissibleRun(events) && i <= m <= |events| && Before(y, events, i).pi.count == 2
    requires NoReset(events, i, m) && NoneOver(Before(y, events, i).common, events, i, m)
    ensures Before(y, events, m).pi.count == 2 && Unlocks(y, events, i, m) == 0
  {
    if i < m {
      TrackingGoesOn(y, events, i, m - 1);
      ConfigurationStays(y, events, i, m - 1);
      assert !OverThreshold(Before(y, events, i).common, events[m - 1]);
      BeforeNext(y, events, m - 1);
    }
  }

  /** n samples after phase 0, of which u got UNLOCKED: the first one did; a second one did as well or ended phase 1. */
  predicate Restarted(n: nat, u: nat, phase: Count) {
    && (n == 0 ==> u == 0 && phase == 0)
    && (n == 1 ==> u == 1 && phase != 2)
    && (n >= 2 ==> u >= 2 || (u == 1 && phase != 1))
  }

  lemma {:induction false} AfterRestart(y: System, events: seq<Event>, i: nat, m: nat)
    requires AdmissibleRun(events) && i <= m <= |events| && Before(y, events, i).pi.count == 0
    requires NoJump(y, events, i, m)
    ensures Restarted(Samples(events, i, m), Unlocks(y, events, i, m), Before(y, events, m).pi.count)
  {
    if i < m {
      AfterRestart(y, events, i, m - 1);
      RunStep(y, events, m - 1);
      var n, u := Samples(events, i, m - 1), Unlocks(y, events, i, m - 1);
      var sample := events[m - 1].Sample?;
      RestartedStep(n, u, Before(y, events, m - 1).pi.count, sample, sample && Verdict(y, events, m - 1).Unlocked?,
                    Before(y, events, m).pi.count);
    }
  }

  lemma RestartedStep(n: nat, u: nat, phase: Count, sample: bool, unlocks: bool, phase': Count)
    requires Restarted(n, u, phase) && Steps(phase, sample, unlocks, phase') && (unlocks ==> sample)
    ensures Restarted(n + if sample then 1 else 0, u + if unlocks then 1 else 0, phase')
  {
  }

  lemma FirstReset(events: seq<Event>, i: nat, j: nat) returns (k: nat)
    requires i <= j <= |events| && !NoReset(events, i, j)
    ensures i <= k < j && events[k].Reset? && NoReset(events, i, k)
  {
    k := i;
    while !events[k].Reset?
      invariant i <= k < j && NoReset(events, i, k)
      decreases j - k
    {
      k := k + 1;
    }
  }

  /** An offset over the threshold unlocks a servo that tracks, if nothing else has before. */
  lemma OverUnlocks(y: System, events: seq<Event>, i: nat, m: nat, k: nat)
    requires AdmissibleRun(events) && i <= m < k <= |events| && Before(y, events, i).pi.count == 2
    requires NoReset(events, i, k) && OverThreshold(Before(y, events, i).common, events[m])
    ensures Unlocks(y, events, i, k) >= 1
  {
    ConfigurationStays(y, events, i, m);
    if Before(y, events, m).pi.count == 2 {
      UnlockCounts(y, events, i, m, k);
    } else if Before(y, events, m).pi.count == 1 {
      var b := ReferenceTaken(y, events, i, m);
      UnlockCounts(y, events, i, b, k);
    } else {
      var a := TrackingLeft(y, events, i, m);
      UnlockCounts(y, events, i, a, k);
    }
  }

  /** Between two JUMPs there is at least one UNLOCKED sample, and without a reset there are at least two. */
  lemma JumpsAreApart(y: System, events: seq<Event>, i: nat, j: nat)
    requires AdmissibleRun(events) && i < j < |events| && events[i].Sample? && events[j].Sample?
    requires Verdict(y, events, i).Jump? && Verdict(y, events, j).Jump?
    ensures Unlocks(y, events, i + 1, j) >= 1
    ensures NoReset(events, i, j) ==> Unlocks(y, events, i + 1, j) >= 2
  {
    JumpIsPhaseOne(Before(y, events, i), events[i]);
    BeforeNext(y, events, i);
    JumpIsPhaseOne(Before(y, events, j), events[j]);
    var b := ReferenceTaken(y, events, i + 1, j);
    UnlockCounts(y, events, i + 1, b, j);
    if NoReset(events, i, j) {
      var a := TrackingLeft(y, events, i + 1, b);
      UnlockCounts(y, events, i + 1, a, b);
      UnlockCounts(y, events, b, b, j);
      UnlocksAdd(y, events, i + 1, b, j);
    }
  }

  /** Between two JUMPs with no JUMP between them, there are fewer than two UNLOCKED samples exactly when a reset cuts
      tracking short and a single sample follows it. */
  lemma SingleUnlockIff(y: System, events: seq<Event>, i: nat, j: nat)
    requires AdmissibleRun(events) && i < j < |events| && events[i].Sample? && events[j].Sample?
    requires Verdict(y, events, i).Jump? && Verdict(y, events, j).Jump? && NoJump(y, events, i + 1, j)
    ensures Unlocks(y, events, i + 1, j) < 2
            <==> IsCutShort(Before(y, events, i + 1).common, events, i + 1, j)
  {
    var c := Before(y, events, i + 1).common;
    JumpIsPhaseOne(Before(y, events, i), events[i]);
    BeforeNext(y, events, i);
    JumpIsPhaseOne(Before(y, events, j), events[j]);
    if IsCutShort(c, events, i + 1, j) {
      CutShortUnlocksOnce(y, events, i + 1, j);
    }
    if Unlocks(y, events, i + 1, j) < 2 {
      JumpsAreApart(y, events, i, j);
      assert !NoReset(events, i + 1, j);
      var k := FirstReset(events, i + 1, j);
      SingleUnlockCutShort(y, events, i + 1, j, k);
    }
  }

  lemma ResetRestarts(y: System, events: seq<Event>, k: nat)
    requires AdmissibleRun(events) && k < |events| && events[k].Reset?
    ensures Before(y, events, k + 1).pi.count == 0 && Unlocks(y, events, k, k + 1) == 0
  {
    BeforeNext(y, events, k);
  }

  lemma CutShortUnlocksOnce(y: System, events: seq<Event>, i: nat, j: nat)
    requires AdmissibleRun(events) && i <= j <= |events| && Before(y, events, i).pi.count == 2
    requires NoJump(y, events, i, j) && IsCutShort(Before(y, events, i).common, events, i, j)
    ensures Unlocks(y, events, i, j) == 1
  {
    var k: nat :| CutShort(Before(y, events, i).common, events, i, j, k);
    TrackingGoesOn(y, events, i, k);
    RestartedUnlocks(y, events, k, j);
    UnlocksAdd(y, events, i, k, j);
  }

  lemma RestartedUnlocks(y: System, events: seq<Event>, k: nat, j: nat)
    requires AdmissibleRun(events) && k < j <= |events| && events[k].Reset? && NoJump(y, events, k, j)
    ensures Restarted(Samples(events, k + 1, j), Unlocks(y, events, k, j), Before(y, events, j).pi.count)
  {
    ResetRestarts(y, events, k);
    AfterRestart(y, events, k + 1, j);
    UnlocksAdd(y, events, k, k + 1, j);
  }

  lemma NoneOverBefore(y: System, events: seq<Event>, i: nat, k: nat)
    requires AdmissibleRun(events) && i <= k <= |events| && Before(y, events, i).pi.count == 2
    requires NoReset(events, i, k) && Unlocks(y, events, i, k) == 0
    ensures NoneOver(Before(y, events, i).common, events, i, k)
  {
    forall m | i <= m < k
      ensures !OverThreshold(Before(y, events, i).common, events[m])
    {
      if OverThreshold(Before(y, events, i).common, events[m]) {
        OverUnlocks(y, events, i, m, k);
      }
    }
  }

  lemma SingleUnlockCutShort(y: System, events: seq<Event>, i: nat, j: nat, k: nat)
    requires AdmissibleRun(events) && i <= k < j <= |events|
    requires Before(y, events, i).pi.count == 2 && Before(y, events, j).pi.count == 1
    requires NoJump(y, events, i, j) && Unlocks(y, events, i, j) < 2
    requires events[k].Reset? && NoReset(events, i, k)
    ensures CutShort(Before(y, events, i).common, events, i, j, k)
  {
    RestartedUnlocks(y, events, k, j);
    UnlocksAdd(y, events, i, k, j);
    NoneOverBefore(y, events, i, k);
  }

  /** Every JUMP, and every LOCKED that begins to track, rests on an earlier UNLOCKED sample whose local time lies
      far enough back for a frequency estimate. */
  lemma EstimateIsBackedUp(y: System, events: seq<Event>, j: nat) returns (b: nat)
    requires AdmissibleRun(events) && y.pi.count == 0 && j < |events| && events[j].Sample?
    requires Verdict(y, events, j).Jump? || (Verdict(y, events, j).Locked? && Before(y, events, j).pi.count != 2)
    ensures b < j && events[b].Sample? && Verdict(y, events, b).Unlocked?
    ensures Waited(events[j].localTs - events[b].localTs, Before(y, events, j).pi.ki)
  {
    JumpIsPhaseOne(Before(y, events, j), events[j]);
    b := ReferenceTaken(y, events, 0, j);
  }

  lemma {:induction false} ConfigurationStays(y: System, events: seq<Event>, i: nat, j: nat)
    requires AdmissibleRun(events) && i <= j <= |events|
    ensures var s, t := Before(y, events, i).common, Before(y, events, j).common;
            && t.stepThreshold == s.stepThreshold && t.maxFrequency == s.maxFrequency
            && (!s.firstUpdate ==> !t.firstUpdate)
  {
    if i < j {
      ConfigurationStays(y, events, i, j - 1);
      BeforeNext(y, events, j - 1);
    }
  }

  /** With no step threshold there is at most one JUMP, resets or not. */
  lemma AtMostOneJump(y: System, events: seq<Event>, i: nat, j: nat)
    requires AdmissibleRun(events) && y.common.stepThreshold == 0.0
    requires i < j < |events| && events[i].Sample? && events[j].Sample?
    requires !Verdict(y, events, i).Unlocked?
    ensures !Verdict(y, events, j).Jump?
  {
    ConfigurationStays(y, events, 0, i);
    ConfigurationStays(y, events, i + 1, j);
    ConfigurationStays(y, events, i, j);
    BeforeNext(y, events, i);
  }

  /** With no step threshold and no reset, the first JUMP or LOCKED is never followed by an UNLOCKED. */
  lemma {:induction false} NeverUnlockedAgain(y: System, events: seq<Event>, i: nat, j: nat)
    requires AdmissibleRun(events) && y.common.stepThreshold == 0.0
    requires i < j < |events| && events[i].Sample? && NoReset(events, i, j)
    requires !Verdict(y, events, i).Unlocked?
    ensures Before(y, events, j).pi.count == 2
    ensures events[j].Sample? ==> Verdict(y, events, j).Locked?
  {
    ConfigurationStays(y, events, 0, j - 1);
    ConfigurationStays(y, events, 0, j);
    BeforeNext(y, events, j - 1);
    if i < j - 1 {
      NeverUnlockedAgain(y, events, i, j - 1);
    }
  }

  // ---- Short runs of a new servo --------------------------------------------------------------

  /** Thresholds of 100 ns for any step, gains 0.5 and 0.25, one sample a second. */
  const NEW_SERVO :=
    CreatedSystem(Config(1000000.0, 0.0000001, 0.0, 0, 0), Gains(0.5, 0.0, 1.0, 0.25, 0.0, 2.0), 0)
  const EVERY_SECOND := SyncInterval(1.0, 1.0, 1.0)

  function At(second: nat, offset: int): Event {
    Event.Sample(offset, second * 1000000000, 1.0)
  }

  lemma Configured1s()
    ensures var s := Next(NEW_SERVO, EVERY_SECOND);
            && s.common == Common(1000000.0, 100.0, 0.0, true, 0, 0, 0)
            && s.pi == State(0, 0, 0, 0, 0, 0.0, 0.5, 0.25, 0.0, Gains(0.5, 0.0, 1.0, 0.25, 0.0, 2.0))
  {
  }

  ghost predicate Configured100ns(s: System) {
    && s.common.stepThreshold == 100.0 && s.common.maxFrequency == 1000000.0 && s.pi.kp == 0.5 && s.pi.ki == 0.25
    && s.common.firstStepThreshold == 0.0
  }

  /** A first sample is the reference. */
  lemma Refers(s: System, second: nat, offset: int)
    requires Configured100ns(s) && s.pi.count == 0
    ensures Engine(s, At(second, offset)).1.verdict == Unlocked
    ensures var t := Next(s, At(second, offset));
            && Configured100ns(t) && t.pi.count == 1 && t.pi.offset0 == offset && t.pi.local0 == second * 1000000000
            && t.pi.drift == s.pi.drift && t.pi.lastFreq == s.pi.lastFreq
  {
  }

  /** A second one with the same offset engages, with a JUMP when that is large. */
  lemma Engages(s: System, second: nat, offset: int)
    requires Configured100ns(s) && s.pi.count == 1 && s.pi.local0 == second * 1000000000 && s.pi.offset0 == offset
    requires s.pi.drift == 0.0
    ensures Engine(s, At(second + 1, offset)).1.verdict == if Abs(offset) > 100 then Jump else Locked
    ensures var t := Next(s, At(second + 1, offset));
            Configured100ns(t) && t.pi.count == 2 && t.pi.drift == 0.0 && t.pi.lastFreq == 0.0
  {
    var local := (second + 1) * 1000000000;
    assert local - s.pi.local0 == 1000000000;
    assert Span(s.pi.local0, local) >= EstimationInterval(s.pi.ki);
    assert EstimatedDrift(s.pi, offset, local) == 0.0;
  }

  lemma Resets(s: System)
    requires Configured100ns(s)
    ensures Next(s, Reset) == s.(pi := s.pi.(count := 0)) && Configured100ns(Next(s, Reset))
  {
  }

  lemma UnlockedEvent(y: System, e: seq<Event>, i: nat, m: nat)
    requires AdmissibleRun(e) && i <= m < |e| && e[m].Sample? && Verdict(y, e, m).Unlocked?
    ensures Unlocks(y, e, i, m + 1) == Unlocks(y, e, i, m) + 1
  {
  }

  lemma OtherEvent(y: System, e: seq<Event>, i: nat, m: nat)
    requires AdmissibleRun(e) && i <= m < |e| && !e[m].Sample?
    ensures Unlocks(y, e, i, m + 1) == Unlocks(y, e, i, m)
  {
  }

  const RESET_ONCE: seq<Event> := [EVERY_SECOND, At(1, 1000), At(2, 1000), Reset, At(3, 1000), At(4, 1000)]

  /** With a reset between, a single UNLOCKED sample can separate two JUMPs. */
  lemma OneUnlockAfterReset()
    ensures AdmissibleRun(RESET_ONCE)
    ensures Verdict(NEW_SERVO, RESET_ONCE, 2) == Verdict(NEW_SERVO, RESET_ONCE, 5) == Jump
    ensures Unlocks(NEW_SERVO, RESET_ONCE, 3, 5) == 1
  {
    var y, e := NEW_SERVO, RESET_ONCE;
    ReachesJump(e);
    BeforeNext(y, e, 3);
    Resets(Before(y, e, 3));
    BeforeNext(y, e, 4);
    Refers(Before(y, e, 4), 3, 1000);
    Engages(Before(y, e, 5), 3, 1000);
    OtherEvent(y, e, 3, 3);
    UnlockedEvent(y, e, 3, 4);
  }

  /** The new servo jumps with its second sample. */
  lemma ReachesJump(e: seq<Event>)
    requires AdmissibleRun(e) && |e| > 3 && e[0] == EVERY_SECOND && e[1] == At(1, 1000) && e[2] == At(2, 1000)
    ensures Verdict(NEW_SERVO, e, 2) == Jump
    ensures Configured100ns(Before(NEW_SERVO, e, 3)) && Before(NEW_SERVO, e, 3).pi.count == 2
    ensures Before(NEW_SERVO, e, 3).pi.drift == 0.0
  {
    var y := NEW_SERVO;
    assert Before(y, e, 0) == y;
    BeforeNext(y, e, 0);
    Configured1s();
    BeforeNext(y, e, 1);
    Refers(Before(y, e, 1), 1, 1000);
    BeforeNext(y, e, 2);
    Engages(Before(y, e, 2), 1, 1000);
  }

  const RESET_TWICE: seq<Event> :=
    [EVERY_SECOND, At(1, 1000), At(2, 1000), Reset, At(3, 0), Reset, At(4, 1000), At(5, 1000)]

  /** It is the first reset that counts: with a sample between two resets there are two again. */
  lemma TwoUnlocksAfterTwoResets()
    ensures AdmissibleRun(RESET_TWICE)
    ensures Verdict(NEW_SERVO, RESET_TWICE, 2) == Verdict(NEW_SERVO, RESET_TWICE, 7) == Jump
    ensures Unlocks(NEW_SERVO, RESET_TWICE, 3, 7) == 2
    ensures NoneOver(Before(NEW_SERVO, RESET_TWICE, 3).common, RESET_TWICE, 3, 5) && Samples(RESET_TWICE, 6, 7) == 1
  {
    var y, e := NEW_SERVO, RESET_TWICE;
    ReachesJump(e);
    BeforeNext(y, e, 3);
    Resets(Before(y, e, 3));
    BeforeNext(y, e, 4);
    Refers(Before(y, e, 4), 3, 0);
    BeforeNext(y, e, 5);
    Resets(Before(y, e, 5));
    BeforeNext(y, e, 6);
    Refers(Before(y, e, 6), 4, 1000);
    Engages(Before(y, e, 7), 4, 1000);
    TwoUnlocksCounted(y, e);
    assert Samples(e, 6, 6) == 0;
  }

  lemma TwoUnlocksCounted(y: System, e: seq<Event>)
    requires AdmissibleRun(e) && |e| > 7 && !e[3].Sample? && e[4].Sample? && !e[5].Sample? && e[6].Sample?
    requires Verdict(y, e, 4).Unlocked? && Verdict(y, e, 6).Unlocked?
    ensures Unlocks(y, e, 3, 7) == 2
  {
    OtherEvent(y, e, 3, 3);
    UnlockedEvent(y, e, 3, 4);
    OtherEvent(y, e, 3, 5);
    UnlockedEvent(y, e, 3, 6);
  }

  // ---- When the estimate starts from the frequency the clock runs at ---------------------------

  /** Whether the i-th event is a sample that the tracking phase answers with LOCKED. */
  ghost predicate Tracks(y: System, events: seq<Event>, i: nat)
    requires AdmissibleRun(events) && i < |events|
  {
    events[i].Sample? && Before(y, events, i).pi.count == 2 && Verdict(y, events, i).Locked?
  }

  /** Until the servo first tracks, its drift is the last frequency, so every estimate is right. */
  lemma {:induction false} DriftIsLastFreq(y: System, events: seq<Event>, i: nat)
    requires AdmissibleRun(events) && i <= |events| && y.pi.drift == y.pi.lastFreq
    requires forall k :: 0 <= k < i ==> !Tracks(y, events, k)
    ensures Before(y, events, i).pi.drift == Before(y, events, i).pi.lastFreq
  {
    if i > 0 {
      DriftIsLastFreq(y, events, i - 1);
      BeforeNext(y, events, i - 1);
      assert !Tracks(y, events, i - 1);
    }
  }

  /** So the answer with which it first engages, unless it is limited, is the one frequency under which the clock would
      have kept pace since the reference sample. */
  lemma EngagementKeepsPace(y: System, events: seq<Event>, i: nat, own: real, freq: real)
    requires AdmissibleRun(events) && i < |events| && events[i].Sample? && y.pi.drift == y.pi.lastFreq
    requires forall k :: 0 <= k < i ==> !Tracks(y, events, k)
    requires !Verdict(y, events, i).Unlocked? && Before(y, events, i).pi.count != 2
    requires Shows(Before(y, events, i).pi, events[i].localTs, own)
    requires var s := Before(y, events, i); var answer := Engine(s, events[i]).1.adjustment;
             -s.common.maxFrequency < answer < s.common.maxFrequency
    ensures var s := Before(y, events, i);
            KeepsPace(s.pi, events[i].offset, events[i].localTs, own, freq)
            <==> freq == Engine(s, events[i]).1.adjustment
  {
    DriftIsLastFreq(y, events, i);
    var s := Before(y, events, i);
    EngagedAnswer(s, events[i]);
    OnlyOneKeepsPace(s.pi, events[i].offset, events[i].localTs, own, freq);
  }

  lemma EngagedAnswer(y: System, e: Event)
    requires e.Sample? && y.pi.count != 2 && !Engine(y, e).1.verdict.Unlocked?
    requires -y.common.maxFrequency < Engine(y, e).1.adjustment < y.common.maxFrequency
    ensures y.pi.local0 < e.localTs && Engine(y, e).1.adjustment == EstimatedDrift(y.pi, e.offset, e.localTs)
  {
  }

  const RELOCKING: seq<Event> := [EVERY_SECOND, At(1, 0), At(2, 0), At(3, 80), At(4, 500), At(5, 500)]

  /** After tracking it need not be: a servo that the threshold has unlocked estimates from a drift of 20 ppb while the
      clock runs at 60. */
  lemma DriftIsNotLastFreq()
    ensures AdmissibleRun(RELOCKING)
    ensures var s := Run(NEW_SERVO, RELOCKING).pi; s.count == 1 && s.drift == 20.0 && s.lastFreq == 60.0
    ensures var s := Run(NEW_SERVO, RELOCKING).pi; s.offset0 == 500 && s.local0 == 5000000000
    ensures Configured100ns(Run(NEW_SERVO, RELOCKING))
  {
    var y, e := NEW_SERVO, RELOCKING;
    assert Before(y, e, 0) == y;
    BeforeNext(y, e, 0);
    Configured1s();
    BeforeNext(y, e, 1);
    Refers(Before(y, e, 1), 1, 0);
    BeforeNext(y, e, 2);
    Engages(Before(y, e, 2), 1, 0);
    BeforeNext(y, e, 3);
    Follows(Before(y, e, 3));
    BeforeNext(y, e, 4);
    BeforeNext(y, e, 5);
    Refers(Before(y, e, 5), 5, 500);
    assert e[..6] == e;
  }

  /** The next sample, with the same offset, is then estimated to need 20 ppb, and the servo jumps to that, though the
      clock has just kept pace at 60. */
  lemma EstimateMissesPace(own: real)
    requires Shows(Run(NEW_SERVO, RELOCKING).pi, 6000000000, own)
    ensures var y := Run(NEW_SERVO, RELOCKING);
            && Engine(y, At(6, 500)).1 == Answer(Jump, 20.0)
            && EstimatedDrift(y.pi, 500, 6000000000) == 20.0
            && KeepsPace(y.pi, 500, 6000000000, own, 60.0) && !KeepsPace(y.pi, 500, 6000000000, own, 20.0)
  {
    var y := Run(NEW_SERVO, RELOCKING);
    DriftIsNotLastFreq();
    var s := y.pi;
    EstimateIsExact(s, 500, 6000000000, own);
    OnlyOneKeepsPace(s, 500, 6000000000, own, 60.0);
    EstimateUnchanged(s, 6000000000);
    EstimateUnchanged(s.(drift := s.lastFreq), 6000000000);
    assert Span(s.local0, 6000000000) >= EstimationInterval(s.ki);
  }

  lemma EstimateUnchanged(s: State, localTs: int)
    requires s.local0 < localTs
    ensures EstimatedDrift(s, s.offset0, localTs) == s.drift
  {
  }

  /** There is such an interval. */
  lemma PaceIsShown() returns (own: real)
    ensures Shows(Run(NEW_SERVO, RELOCKING).pi, 6000000000, own)
  {
    DriftIsNotLastFreq();
    own := 1000000000.0 / (1.0 - 60.0 / 1000000000.0);
  }

  lemma Follows(s: System)
    requires Configured100ns(s) && s.pi.count == 2 && s.pi.drift == 0.0
    ensures var t := Next(s, At(3, 80));
            Configured100ns(t) && t.pi.count == 2 && t.pi.drift == 20.0 && t.pi.lastFreq == 60.0
  {
    assert Term(0.25, 80.0, 1.0) == 20.0 && Term(0.5, 80.0, 1.0) == 40.0;
  }

  // ---- The servo itself ----------------------------------------------------------------------

  class PiServo {
    const servo: ServoBase
    var count: Count
    const offset: array<int>
    const local: array<int>
    var drift: real
    var kp: real
    var ki: real
    var lastFreq: real
    const gains: Gains

    ghost predicate Valid()
      reads this
    {
      offset.Length == 2 && local.Length == 2 && offset != local
    }

    function View(): State
      requires Valid()
      reads this, offset, local
    {
      State(count, offset[0], offset[1], local[0], local[1], drift, kp, ki, lastFreq, gains)
    }

    constructor (cfg: Config, kp: real, ki: real, swTs: bool, scales: Gains, initialAdj: int)
      ensures Valid() && fresh(servo) && fresh(offset) && fresh(local)
      ensures System(servo.View(), View()) == CreatedSystem(cfg, Configured(kp, ki, swTs, scales), initialAdj)
    {
      servo := new ServoBase(cfg);
      count, drift, lastFreq := 0, initialAdj as real, initialAdj as real;
      offset := new int[2](_ => 0);
      local := new int[2](_ => 0);
      this.kp, this.ki := 0.0, 0.0;
      gains := Configured(kp, ki, swTs, scales);
    }

    method SyncInterval(interval: real, pow: (real, real) -> real)
      requires Valid() && interval > 0.0
      modifies this`kp, this`ki
      ensures View() == AfterSyncInterval(old(View()), interval, pow(interval, gains.kpExponent),
                                          pow(interval, gains.kiExponent))
    {
      kp := gains.kpScale * pow(interval, gains.kpExponent);
      if kp > gains.kpNormMax / interval {
        kp := gains.kpNormMax / interval;
      }
      ki := gains.kiScale * pow(interval, gains.kiExponent);
      if ki > gains.kiNormMax / interval {
        ki := gains.kiNormMax / interval;
      }
    }

    method Reset()
      requires Valid()
      modifies this`count
      ensures View() == old(View()).(count := 0)
    {
      count := 0;
    }

    method Sample(offset: int, localTs: int, weight: real) returns (verdict: Verdict, ppb: real)
      requires Valid()
      modifies this`count, this`drift, this`lastFreq, this.offset, local
      ensures Valid() && (View(), Answer(verdict, ppb)) == Sampled(old(View()), servo.View(), offset, localTs, weight)
    {
      ppb := lastFreq;
      if count == 0 {
        this.offset[0] := offset;
        local[0] := localTs;
        verdict := Unlocked;
        count := 1;
      } else if count == 1 {
        this.offset[1] := offset;
        local[1] := localTs;
        if local[0] >= local[1] {
          verdict := Unlocked;
          count := 0;
        } else if Span(local[0], local[1]) < EstimationInterval(ki) {
          verdict := Unlocked;
        } else {
          drift := EstimatedDrift(View(), offset, localTs);
          if drift < -servo.maxFrequency {
            drift := -servo.maxFrequency;
          } else if drift > servo.maxFrequency {
            drift := servo.maxFrequency;
          }
          if (servo.firstUpdate && servo.firstStepThreshold != 0.0 && servo.firstStepThreshold < Abs(offset) as real)
             || (servo.stepThreshold != 0.0 && servo.stepThreshold < Abs(offset) as real) {
            verdict := Jump;
          } else {
            verdict := Locked;
          }
          ppb := drift;
          count := 2;
        }
      } else if servo.stepThreshold != 0.0 && servo.stepThreshold < Abs(offset) as real {
        verdict := Unlocked;
        count := 0;
      } else {
        var kiTerm := Term(ki, offset as real, weight);
        ppb := Term(kp, offset as real, weight) + drift + kiTerm;
        if ppb < -servo.maxFrequency {
          ppb := -servo.maxFrequency;
        } else if ppb > servo.maxFrequency {
          ppb := servo.maxFrequency;
        } else {
          drift := drift + kiTerm;
        }
        verdict := Locked;
      }
      lastFreq := ppb;
    }

    /** servo_sample for this engine. */
    method ServoSample(offset: int, localTs: int, weight: real) returns (reported: Verdict, ppb: real)
      requires Valid()
      modifies this`count, this`drift, this`lastFreq, this.offset, local, servo`currOffsetValues, servo`firstUpdate
      ensures Valid()
      ensures System(servo.View(), View())
           == Next(old(System(servo.View(), View())), Event.Sample(offset, localTs, weight))
      ensures var answer := Sampled(old(View()), old(servo.View()), offset, localTs, weight).1;
              ppb == answer.adjustment && reported == Reported(old(servo.View()), answer.verdict, offset)
    {
      var verdict;
      verdict, ppb := Sample(offset, localTs, weight);
      reported := servo.Digest(verdict, offset);
    }
  }
}
