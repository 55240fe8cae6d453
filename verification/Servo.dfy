/** The servo wrapper (servo/servo.c): thresholds, the one-shot first step and the stability countdown. */
module Servo {
  import opened Tmv

  const NSEC_PER_SEC := 1000000000

  datatype Verdict = Unlocked | Jump | Locked | LockedStable

  /** What a servo engine answers to one sample. */
  datatype Answer = Answer(verdict: Verdict, adjustment: real)

  datatype Config = Config(
    maxFrequency: real, stepThreshold: real, firstStepThreshold: real, offsetThreshold: int, numOffsetValues: int)

  /** The fields every servo engine shares. */
  datatype Common = Common(
    maxFrequency: real, stepThreshold: real, firstStepThreshold: real, firstUpdate: bool,
    offsetThreshold: int, numOffsetValues: int, currOffsetValues: int)

  function Abs(x: int): (r: nat)
    ensures r == x || r == -x
  {
    if x < 0 then -x else x
  }

  function AbsReal(x: real): (r: real)
    ensures r >= 0.0 && (r == x || r == -x)
  {
    if x < 0.0 then -x else x
  }

  function Clamp(x: real, limit: real): (r: real)
    ensures limit >= 0.0 ==> -limit <= r <= limit
    ensures -limit <= x <= limit ==> r == x
  {
    if x < -limit then -limit else if x > limit then limit else x
  }

  /** Of all values within the limit, the nearest one. */
  lemma ClampIsNearest(x: real, limit: real, y: real)
    requires -limit <= y <= limit
    ensures -limit <= Clamp(x, limit) <= limit
    ensures AbsReal(x - Clamp(x, limit)) <= AbsReal(x - y)
    ensures AbsReal(x - Clamp(x, limit)) == AbsReal(x - y) ==> y == Clamp(x, limit)
  {
  }

  function InNanoseconds(threshold: real): (r: real)
    ensures r >= 0.0
    ensures r == 0.0 <==> threshold <= 0.0
  {
    if threshold > 0.0 then threshold * NSEC_PER_SEC as real else 0.0
  }

  /** The configured limit passes through an int variable unless that would make it 0. */
  function LimitFrequency(configured: real): (r: real)
    ensures r <= configured
    ensures configured >= 0.0 ==> configured - 1.0 < r && r >= 0.0
    ensures configured >= 1.0 ==> r == configured.Floor as real
    ensures 0.0 <= configured < 1.0 ==> r == configured
    ensures r == 0.0 ==> configured <= 0.0
  {
    var whole := Truncate(configured);
    if whole != 0 && configured > whole as real then whole as real else configured
  }

  function Created(cfg: Config): Common {
    Common(LimitFrequency(cfg.maxFrequency), InNanoseconds(cfg.stepThreshold), InNanoseconds(cfg.firstStepThreshold),
           true, cfg.offsetThreshold, cfg.numOffsetValues, cfg.numOffsetValues)
  }

  /** Whether an offset of this magnitude is to be stepped away: the first time, or at any later time. */
  predicate StepsFirst(c: Common, magnitude: real) {
    c.firstUpdate && c.firstStepThreshold != 0.0 && c.firstStepThreshold < magnitude
  }

  predicate StepsAlways(c: Common, magnitude: real) {
    c.stepThreshold != 0.0 && c.stepThreshold < magnitude
  }

  /** Whether a value lies beyond a threshold, on either side; 0 stands for no threshold. */
  predicate Beyond(x: real, threshold: real) {
    threshold != 0.0 && (x > threshold || x < -threshold)
  }

  // ---- What the wrapper makes of an answer --------------------------------------------------

  predicate Close(c: Common, offset: int) {
    Abs(offset) < c.offsetThreshold
  }

  function Countdown(c: Common, offset: int): Common {
    if c.offsetThreshold != 0 && Close(c, offset) && c.currOffsetValues != 0
    then c.(currOffsetValues := c.currOffsetValues - 1)
    else c
  }

  function After(c: Common, verdict: Verdict, offset: int): Common {
    match verdict
    case Unlocked => c.(currOffsetValues := c.numOffsetValues)
    case Jump => c.(currOffsetValues := c.numOffsetValues, firstUpdate := false)
    case Locked => Countdown(c, offset).(firstUpdate := false)
    case LockedStable => c
  }

  function Reported(c: Common, verdict: Verdict, offset: int): Verdict {
    if verdict.Locked? && c.offsetThreshold != 0 && Countdown(c, offset).currOffsetValues == 0
    then LockedStable
    else verdict
  }

  // ---- Whole runs, for any engine -----------------------------------------------------------

  /** An answer of the engine to a sample with this offset. */
  datatype Observed = Observed(verdict: Verdict, offset: int)

  /** Engines answer no LOCKED_STABLE of their own. */
  ghost predicate Engine(run: seq<Observed>) {
    forall i :: 0 <= i < |run| ==> !run[i].verdict.LockedStable?
  }

  function Run(c: Common, run: seq<Observed>): Common {
    if run == [] then c
    else After(Run(c, run[..|run| - 1]), run[|run| - 1].verdict, run[|run| - 1].offset)
  }

  /** How many LOCKED samples since the last UNLOCKED, JUMP or creation were closer to 0 than the threshold, on either
      side. */
  function CloseCount(run: seq<Observed>, threshold: int): nat {
    if run == [] || !run[|run| - 1].verdict.Locked? then 0
    else
      CloseCount(run[..|run| - 1], threshold) + if -threshold < run[|run| - 1].offset < threshold then 1 else 0
  }

  lemma {:induction false} CountdownIsExact(cfg: Config, run: seq<Observed>)
    requires cfg.numOffsetValues >= 0 && Engine(run)
    ensures var c := Run(Created(cfg), run); var n := CloseCount(run, cfg.offsetThreshold);
            && c.offsetThreshold == cfg.offsetThreshold && c.numOffsetValues == cfg.numOffsetValues
            && (cfg.offsetThreshold != 0 ==>
                  c.currOffsetValues == if n < cfg.numOffsetValues then cfg.numOffsetValues - n else 0)
  {
    if run != [] {
      CountdownIsExact(cfg, run[..|run| - 1]);
      assert !run[|run| - 1].verdict.LockedStable?;
    }
  }

  /** LOCKED_STABLE is reported exactly when enough close LOCKED samples were seen, this one included. */
  lemma StableIffEnoughClose(cfg: Config, run: seq<Observed>)
    requires cfg.numOffsetValues >= 0 && Engine(run) && run != []
    ensures var last := run[|run| - 1];
            Reported(Run(Created(cfg), run[..|run| - 1]), last.verdict, last.offset).LockedStable? <==>
            (&& cfg.offsetThreshold != 0 && last.verdict.Locked?
             && CloseCount(run, cfg.offsetThreshold) >= cfg.numOffsetValues)
  {
    CountdownIsExact(cfg, run[..|run| - 1]);
    CountdownIsExact(cfg, run);
    assert !run[|run| - 1].verdict.LockedStable?;
  }

  /** The first JUMP or LOCKED uses up the first step, for good. */
  lemma {:induction false} FirstUpdateIsOneShot(cfg: Config, run: seq<Observed>)
    requires Engine(run)
    ensures Run(Created(cfg), run).firstUpdate <==> forall i :: 0 <= i < |run| ==> run[i].verdict.Unlocked?
  {
    if run != [] {
      var before := run[..|run| - 1];
      FirstUpdateIsOneShot(cfg, before);
      assert forall i :: 0 <= i < |before| ==> before[i] == run[i];
      assert !run[|run| - 1].verdict.LockedStable?;
    }
  }

  // ---- The shared fields themselves ---------------------------------------------------------

  class ServoBase {
    var maxFrequency: real
    var stepThreshold: real
    var firstStepThreshold: real
    var firstUpdate: bool
    var offsetThreshold: int
    var numOffsetValues: int
    var currOffsetValues: int

    function View(): Common
      reads this
    {
      Common(maxFrequency, stepThreshold, firstStepThreshold, firstUpdate, offsetThreshold, numOffsetValues,
             currOffsetValues)
    }

    constructor (cfg: Config)
      ensures View() == Created(cfg)
    {
      if cfg.stepThreshold > 0.0 {
        stepThreshold := cfg.stepThreshold * NSEC_PER_SEC as real;
      } else {
        stepThreshold := 0.0;
      }
      if cfg.firstStepThreshold > 0.0 {
        firstStepThreshold := cfg.firstStepThreshold * NSEC_PER_SEC as real;
      } else {
        firstStepThreshold := 0.0;
      }
      var whole := Truncate(cfg.maxFrequency);
      maxFrequency := cfg.maxFrequency;
      if whole != 0 && cfg.maxFrequency > whole as real {
        maxFrequency := whole as real;
      }
      firstUpdate := true;
      offsetThreshold := cfg.offsetThreshold;
      numOffsetValues := cfg.numOffsetValues;
      currOffsetValues := cfg.numOffsetValues;
    }

    method CheckOffsetThreshold(offset: int) returns (stable: bool)
      modifies this`currOffsetValues
      ensures View() == Countdown(old(View()), offset)
      ensures stable <==> offsetThreshold != 0 && currOffsetValues == 0
    {
      if offsetThreshold != 0 {
        if Abs(offset) < offsetThreshold && currOffsetValues != 0 {
          currOffsetValues := currOffsetValues - 1;
        }
        return currOffsetValues == 0;
      }
      return false;
    }

    /** The part of servo_sample that follows the engine's answer. */
    method Digest(verdict: Verdict, offset: int) returns (reported: Verdict)
      modifies this`currOffsetValues, this`firstUpdate
      ensures View() == After(old(View()), verdict, offset)
      ensures reported == Reported(old(View()), verdict, offset)
    {
      reported := verdict;
      match verdict {
        case Unlocked =>
          currOffsetValues := numOffsetValues;
        case Jump =>
          currOffsetValues := numOffsetValues;
          firstUpdate := false;
        case Locked =>
          var stable := CheckOffsetThreshold(offset);
          if stable {
            reported := LockedStable;
          }
          firstUpdate := false;
        case LockedStable =>
      }
    }
  }
}
