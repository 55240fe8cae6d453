/** The linear regression servo (servo/linreg/linreg.c) as it updates its fields in place. */
module LinRegServo {
  import opened Servo
  import opened LinReg
  import Tmv
  import LS = LeastSquares

  /** The slot of the i-th newest point. */
  function Slot(lastPoint: nat, i: nat): (l: nat)
    requires lastPoint < MAX_POINTS && i <= MAX_POINTS
    ensures l < MAX_POINTS
    ensures l == if i <= lastPoint then lastPoint - i
                 else if i == MAX_POINTS then lastPoint
                 else lastPoint - i + MAX_POINTS
  {
    (MAX_POINTS + lastPoint - i) % MAX_POINTS
  }

  /** One more point in the window is one more term in the sums. */
  lemma WindowGrows(st: State, i: nat)
    requires i < |st.recent|
    ensures LS.SumsOf(Window(st, i + 1))
         == LS.Accumulate(LS.SumsOf(Window(st, i)), Relative(st.recent[i], st.refX, st.refY))
  {
    assert Window(st, i + 1)[..i] == Window(st, i);
  }

  class LinRegServo {
    const servo: ServoBase
    const points: array<Point>
    var refX: int
    var refY: int
    var numPoints: nat
    var lastPoint: nat
    var xRemainder: real
    var lastUpdate: int
    const results: array<Result>
    var size: nat
    var clockFreq: real
    var updateInterval: real
    var frequencyRatio: real
    var leap: int

    ghost predicate Valid()
      reads this
    {
      && points.Length == MAX_POINTS && results.Length == SIZES && points as object != results
      && numPoints <= MAX_POINTS && lastPoint < MAX_POINTS
    }

    ghost function Recent(): (recent: seq<Point>)
      requires Valid()
      reads this, points
      ensures |recent| == numPoints
    {
      seq(numPoints, i requires 0 <= i < numPoints && Valid() reads this, points => points[Slot(lastPoint, i)])
    }

    ghost function View(): State
      requires Valid()
      reads this, points, results
    {
      State(Recent(), refX, refY, xRemainder, lastUpdate, results[..], size, clockFreq, updateInterval, frequencyRatio,
            leap)
    }

    constructor (cfg: Config, initialAdj: int)
      ensures Valid() && fresh(servo) && fresh(points) && fresh(results)
      ensures servo.View() == Servo.Created(cfg) && View() == LinReg.Created(initialAdj)
    {
      servo := new ServoBase(cfg);
      points := new Point[MAX_POINTS](_ => Point(0, 0, 0.0));
      results := new Result[SIZES](_ => Result(0.0, 0.0, 0.0, 0));
      refX, refY, numPoints, lastPoint, xRemainder, lastUpdate, size := 0, 0, 0, 0, 0.0, 0, 0;
      clockFreq, updateInterval, frequencyRatio, leap := -(initialAdj as real), 0.0, 1.0, 0;
    }

    method Move(dx: int, dy: int)
      requires Valid()
      modifies this`refX, this`refY, results
      ensures Valid() && View() == MoveReference(old(View()), dx, dy)
    {
      refX, refY := refX + dx, refY + dy;
      ghost var was := results[..];
      for i := 0 to SIZES
        invariant forall j :: 0 <= j < i ==> results[j] == MovedResult(was[j], dx, dy)
        invariant forall j :: i <= j < SIZES ==> results[j] == was[j]
        modifies results
      {
        results[i] := results[i].(intercept := results[i].intercept + (dx as real * results[i].slope - dy as real));
      }
      assert results[..] == MoveReference(old(View()), dx, dy).results;
    }

    method Update(localTs: int)
      requires Valid() && Rate(View()) != 0.0
      modifies this`refX, this`refY, this`xRemainder, this`lastUpdate, results
      ensures Valid() && View() == UpdateReference(old(View()), localTs)
    {
      if lastUpdate != 0 {
        var yInterval := localTs - lastUpdate;
        var xInterval := yInterval as real / (1.0 + clockFreq / BILLION);
        xInterval := xInterval + xRemainder;
        xRemainder := xInterval - Tmv.Truncate(xInterval) as real;
        Move(Tmv.Truncate(xInterval), yInterval);
      }
      lastUpdate := localTs;
    }

    method Add(offset: int, weight: real)
      requires Valid()
      modifies this`numPoints, this`lastPoint, points
      ensures Valid() && View() == AddSample(old(View()), offset, weight)
    {
      ghost var was := Recent();
      lastPoint := (lastPoint + 1) % MAX_POINTS;
      points[lastPoint] := Point(refX, refY - offset, weight);
      if numPoints < MAX_POINTS {
        numPoints := numPoints + 1;
      }
      assert Recent() == AddSample(old(View()), offset, weight).recent;
    }

    /** Continues the running sums from the newest i to the newest n points. */
    method Extend(ghost st: State, i: nat, n: nat, sums: LS.Sums) returns (extended: LS.Sums)
      requires Valid() && i <= n <= numPoints
      requires st.recent == Recent() && st.refX == refX && st.refY == refY
      requires sums == LS.SumsOf(Window(st, i))
      ensures extended == LS.SumsOf(Window(st, n))
    {
      extended := sums;
      for m := i to n
        invariant extended == LS.SumsOf(Window(st, m))
      {
        var l := (MAX_POINTS + lastPoint - m) % MAX_POINTS;
        assert l == Slot(lastPoint, m) && points[l] == st.recent[m];
        WindowGrows(st, m);
        extended := LS.Accumulate(extended, Relative(points[l], refX, refY));
      }
    }

    /** Averages the error of the line of size k, then fits it anew to the newest Points(k) points. */
    method RegressOne(ghost st: State, k: nat, i: nat, sums: LS.Sums) returns (extended: LS.Sums)
      requires Valid() && MIN_SIZE <= k <= MAX_SIZE && i <= Points(k) <= numPoints
      requires Regressable(st)
      requires st.recent == Recent() && st.refX == refX && st.refY == refY
      requires results[k - MIN_SIZE] == st.results[k - MIN_SIZE] && sums == LS.SumsOf(Window(st, i))
      modifies results
      ensures results[..] == old(results[..])[k - MIN_SIZE := RegressedAt(st, k - MIN_SIZE)]
      ensures extended == LS.SumsOf(Window(st, Points(k)))
    {
      var newest := (points[lastPoint].y - refY) as real;
      assert Slot(lastPoint, 0) == lastPoint && newest == Newest(st);
      var r := results[k - MIN_SIZE];
      r := WithError(r, AbsReal(r.intercept - newest));
      extended := Extend(st, i, Points(k), sums);
      assert Solvable(st, k - MIN_SIZE);
      var slope := LS.Slope(extended);
      results[k - MIN_SIZE] := r.(slope := slope, intercept := LS.Intercept(extended, slope));
    }

    /** All sizes in one pass over the points: the sums of a size continue those of the size before. */
    method RegressAll()
      requires Valid() && Regressable(View()) && numPoints > 0
      modifies results
      ensures Valid() && View() == Regress(old(View()))
    {
      ghost var st := View();
      var sums := LS.NO_SUMS;
      var i := 0;
      var k := MIN_SIZE;
      while k <= MAX_SIZE
        invariant MIN_SIZE <= k <= MAX_SIZE + 1
        invariant i == if k == MIN_SIZE then 0 else Points(k - 1)
        invariant i <= numPoints && sums == LS.SumsOf(Window(st, i))
        invariant forall j :: 0 <= j < k - MIN_SIZE ==> results[..][j] == RegressedAt(st, j)
        invariant forall j :: k - MIN_SIZE <= j < SIZES ==> results[..][j] == st.results[j]
      {
        var n := Points(k);
        if n > numPoints {
          break;
        }
        sums := RegressOne(st, k, i, sums);
        i := n;
        k := k + 1;
      }
      assert forall j :: k - MIN_SIZE <= j < SIZES ==> results[..][j] == RegressedAt(st, j);
      assert results[..] == Regress(st).results;
    }

    method UpdateSize()
      requires Valid()
      modifies this`size
      ensures Valid() && View() == old(View()).(size := Select(old(View()).results, MAX_SIZE).0)
    {
      var bestSize, bestErr := 0, 0.0;
      for k := MIN_SIZE to MAX_SIZE + 1
        invariant (bestSize, bestErr) == Select(results[..], k - 1)
      {
        var r := results[k - MIN_SIZE];
        if (bestSize == 0 && r.slope != 0.0)
           || (bestErr * ERR_EQUALS > r.err && r.errUpdates >= ERR_INITIAL_UPDATES) {
          bestSize, bestErr := k, r.err;
        }
      }
      size := bestSize;
    }

    method Steer()
      requires Valid() && MIN_SIZE <= size <= MAX_SIZE && updateInterval != 0.0
      requires 0.0 <= servo.maxFrequency < BILLION
      modifies this`clockFreq, this`frequencyRatio
      ensures Valid() && View() == Steered(old(View()), servo.maxFrequency)
    {
      var r := results[size - MIN_SIZE];
      clockFreq := BILLION * (r.slope - 1.0);
      var corrInterval := if size <= 4 then 1 else size / 2;
      clockFreq := clockFreq + r.intercept / updateInterval / corrInterval as real;
      if clockFreq > servo.maxFrequency {
        clockFreq := servo.maxFrequency;
      } else if clockFreq < -servo.maxFrequency {
        clockFreq := -servo.maxFrequency;
      }
      RatePositive(clockFreq);
      frequencyRatio := r.slope / (1.0 + clockFreq / BILLION);
    }

    /** The first half of a sample: reference, point, regressions, size. */
    method TakeIn(offset: int, localTs: int, weight: real)
      requires Valid() && Ready(View(), offset, localTs, weight)
      modifies this`refX, this`refY, this`numPoints, this`lastPoint, this`xRemainder, this`lastUpdate, this`size
      modifies points, results
      ensures Valid() && View() == TakenIn(old(View()), offset, localTs, weight)
    {
      Update(localTs);
      Add(offset, weight);
      RegressAll();
      UpdateSize();
    }

    /** The second half of a sample with a chosen size: step or not, then steer. */
    method Conclude(offset: int) returns (verdict: Verdict)
      requires Valid() && MIN_SIZE <= size <= MAX_SIZE && updateInterval != 0.0 && 0.0 <= servo.maxFrequency < BILLION
      modifies this`refX, this`refY, this`lastUpdate, this`clockFreq, this`frequencyRatio, results
      ensures Valid()
      ensures var t := old(View()); var steps := Steps(servo.View(), t.results[t.size - MIN_SIZE].intercept);
              && verdict == (if steps then Jump else Locked)
              && View() == Steered(if steps then Stepped(t, offset) else t, servo.maxFrequency)
    {
      var intercept := results[size - MIN_SIZE].intercept;
      if (servo.firstUpdate && servo.firstStepThreshold != 0.0 && servo.firstStepThreshold < AbsReal(intercept))
         || (servo.stepThreshold != 0.0 && servo.stepThreshold < AbsReal(intercept)) {
        Move(0, -offset);
        lastUpdate := lastUpdate - offset;
        verdict := Jump;
      } else {
        verdict := Locked;
      }
      Steer();
    }

    method Sample(offset: int, localTs: int, weight: real) returns (verdict: Verdict, adjustment: real)
      requires Valid() && Ready(View(), offset, localTs, weight) && updateInterval != 0.0
      requires 0.0 <= servo.maxFrequency < BILLION
      modifies this, points, results
      ensures Valid()
      ensures (View(), Answer(verdict, adjustment)) == Sampled(old(View()), servo.View(), offset, localTs, weight)
    {
      TakeIn(offset, localTs, weight);
      if size < MIN_SIZE {
        return Unlocked, -clockFreq;
      }
      verdict := Conclude(offset);
      adjustment := -clockFreq;
    }

    /** servo_sample for this engine. */
    method ServoSample(offset: int, localTs: int, weight: real) returns (reported: Verdict, adjustment: real)
      requires Valid() && Ready(View(), offset, localTs, weight) && updateInterval != 0.0
      requires 0.0 <= servo.maxFrequency < BILLION
      modifies this, points, results, servo`currOffsetValues, servo`firstUpdate
      ensures Valid()
      ensures var (lin, answer) := Sampled(old(View()), old(servo.View()), offset, localTs, weight);
              && View() == lin && servo.View() == After(old(servo.View()), answer.verdict, offset)
              && reported == Reported(old(servo.View()), answer.verdict, offset) && adjustment == answer.adjustment
    {
      var verdict;
      verdict, adjustment := Sample(offset, localTs, weight);
      reported := servo.Digest(verdict, offset);
    }

    method SyncInterval(interval: real)
      requires Valid()
      modifies this`updateInterval
      ensures Valid() && View() == old(View()).(updateInterval := interval)
    {
      updateInterval := interval;
    }

    method Reset()
      requires Valid()
      modifies this`numPoints, this`lastUpdate, this`size, this`frequencyRatio, results
      ensures Valid() && View() == AfterReset(old(View()))
    {
      numPoints, lastUpdate, size, frequencyRatio := 0, 0, 0, 1.0;
      ghost var was := results[..];
      for i := 0 to SIZES
        invariant forall j :: 0 <= j < i ==> results[j] == was[j].(slope := 0.0, errUpdates := 0)
        invariant forall j :: i <= j < SIZES ==> results[j] == was[j]
        modifies results
      {
        results[i] := results[i].(slope := 0.0, errUpdates := 0);
      }
      assert results[..] == AfterReset(old(View())).results;
    }

    method Leap(newLeap: int)
      requires Valid()
      modifies this`refX, this`refY, this`leap, results
      ensures Valid() && View() == AfterLeap(old(View()), newLeap)
    {
      if leap != 0 && newLeap == 0 {
        Move(0, leap * 1000000000);
      }
      leap := newLeap;
    }
  }
}
