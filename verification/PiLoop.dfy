/** The tracking PI servo (servo/pi/pi.c) closed around a clock with a constant frequency error. */
module PiLoop {
  import opened PiServo
  import opened Reals
  import Servo

  /** The offset x the servo sees and the drift it has learned. */
  datatype Loop = Loop(x: real, drift: real)

  /** Gains and interval, the clock's own frequency error and the output limit. */
  datatype Plant = Plant(kp: real, ki: real, interval: real, error: real, limit: real)

  ghost predicate Unsaturated(p: Plant, s: Loop) {
    -p.limit <= Term(p.kp, s.x, 1.0) + s.drift + Term(p.ki, s.x, 1.0) <= p.limit
  }

  /** One sample of weight 1, and one interval of the clock running with the correction. */
  function Next(p: Plant, s: Loop): Loop {
    var (ppb, drift) := Control(p.kp, p.ki, s.drift, p.limit, s.x, 1.0);
    Loop(s.x + p.interval * (p.error - ppb), drift)
  }

  function After(p: Plant, s: Loop, n: nat): Loop {
    if n == 0 then s else Next(p, After(p, s, n - 1))
  }

  ghost predicate NeverSaturates(p: Plant, s: Loop) {
    forall n: nat :: Unsaturated(p, After(p, s, n))
  }

  /** The gains in units of one interval, as pi_sync_interval caps them. */
  function A(p: Plant): real {
    p.interval * p.kp
  }

  function B(p: Plant): real {
    p.interval * p.ki
  }

  function Times(k: real, x: real): real {
    k * x
  }

  // ---- The offsets form a second-order recurrence -------------------------------------------

  function Recurrence(a: real, b: real, x1: real, x0: real): real {
    (2.0 - a - b) * x1 - (1.0 - a) * x0
  }

  /** One step of the loop without the clamp. */
  function FreeOffset(p: Plant, s: Loop): real {
    s.x + p.interval * (p.error - (p.kp * s.x + s.drift + p.ki * s.x))
  }

  function FreeDrift(p: Plant, s: Loop): real {
    s.drift + p.ki * s.x
  }

  lemma NextUnsaturated(p: Plant, s: Loop)
    requires Unsaturated(p, s)
    ensures Next(p, s) == Loop(FreeOffset(p, s), FreeDrift(p, s))
  {
    FullWeight(p.kp, s.x);
    FullWeight(p.ki, s.x);
  }

  lemma FullWeight(gain: real, x: real)
    ensures Term(gain, x, 1.0) == gain * x
  {
  }

  lemma FreeRecurrence(p: Plant, s0: Loop, s1: Loop)
    requires s1.x == FreeOffset(p, s0) && s1.drift == FreeDrift(p, s0)
    ensures FreeOffset(p, s1) == Recurrence(A(p), B(p), s1.x, s0.x)
  {
    var t, kp, ki, x0, x1 := p.interval, p.kp, p.ki, s0.x, s1.x;
    var u0, u1 := kp * x0 + s0.drift + ki * x0, kp * x1 + s1.drift + ki * x1;
    var x2 := FreeOffset(p, s1);
    assert u1 - u0 == kp * (x1 - x0) + ki * x1;
    assert x2 - x1 == x1 - x0 - t * (u1 - u0);
    assert t * (kp * (x1 - x0) + ki * x1) == (t * kp) * (x1 - x0) + (t * ki) * x1;
  }

  lemma LoopIsRecurrence(p: Plant, s0: Loop, s1: Loop, s2: Loop)
    requires Unsaturated(p, s0) && Unsaturated(p, s1) && s1 == Next(p, s0) && s2 == Next(p, s1)
    ensures s2.x == Recurrence(A(p), B(p), s1.x, s0.x)
  {
    NextUnsaturated(p, s0);
    NextUnsaturated(p, s1);
    FreeRecurrence(p, s0, s1);
  }

  /** The offsets of a loop that does not saturate, from the first two on. */
  function Offset(a: real, b: real, x0: real, x1: real, n: nat): real {
    if n == 0 then x0
    else if n == 1 then x1
    else Recurrence(a, b, Offset(a, b, x0, x1, n - 1), Offset(a, b, x0, x1, n - 2))
  }

  lemma {:induction false} LoopOffsets(p: Plant, s: Loop, n: nat)
    requires NeverSaturates(p, s)
    ensures After(p, s, n).x == Offset(A(p), B(p), s.x, Next(p, s).x, n)
  {
    if n == 1 {
      assert After(p, s, 0) == s;
    } else if n > 1 {
      LoopOffsets(p, s, n - 1);
      LoopOffsets(p, s, n - 2);
      assert Unsaturated(p, After(p, s, n - 2)) && Unsaturated(p, After(p, s, n - 1));
      LoopIsRecurrence(p, After(p, s, n - 2), After(p, s, n - 1), After(p, s, n));
    }
  }

  // ---- A quadratic form that never grows -----------------------------------------------------

  function V(a: real, b: real, u: real, v: real): real {
    (2.0 - a) * (u * u + v * v) - 2.0 * (2.0 - a - b) * (u * v)
  }

  lemma VDescends(a: real, b: real, x1: real, x0: real)
    ensures var x2 := Recurrence(a, b, x1, x0);
            V(a, b, x2, x1) - V(a, b, x1, x0) == -(a * ((x2 - x0) * (x2 - x0)))
  {
    var x2 := Recurrence(a, b, x1, x0);
    var m := (2.0 - a - b) * x1;
    assert m == x2 + (1.0 - a) * x0;
    assert 2.0 * (2.0 - a - b) * (x2 * x1) == 2.0 * m * x2;
    assert 2.0 * (2.0 - a - b) * (x1 * x0) == 2.0 * m * x0;
    assert (2.0 - a) * (x2 * x2 + x1 * x1) - (2.0 - a) * (x1 * x1 + x0 * x0) == (2.0 - a) * (x2 * x2 - x0 * x0);
    assert x2 * x2 - x0 * x0 == (x2 + x0) * (x2 - x0);
    var d := x2 - x0;
    assert (2.0 - a) * ((x2 + x0) * d) - 2.0 * m * d == ((2.0 - a) * (x2 + x0) - 2.0 * m) * d;
    assert (2.0 - a) * (x2 + x0) - 2.0 * m == -(a * d);
    assert (-(a * d)) * d == -(a * (d * d));
  }

  function Least(a: real, b: real): real {
    if b <= 4.0 - 2.0 * a - b then b else 4.0 - 2.0 * a - b
  }

  lemma Cancel(k: real, q: real, r: real)
    requires k > 0.0 && k * q <= k * r
    ensures q <= r
  {
  }

  lemma SquareAtLeastZero(x: real)
    ensures x * x >= 0.0
  {
    if x < 0.0 {
      assert x * x == (-x) * (-x);
    }
  }

  /** V is a sum of the squares of u + v and u - v, so it dominates u * u + v * v. */
  lemma VDominates(a: real, b: real, u: real, v: real)
    ensures V(a, b, u, v) >= Least(a, b) * (u * u + v * v)
  {
    var p, q := (u + v) * (u + v), (u - v) * (u - v);
    var c := 4.0 - 2.0 * a - b;
    SquareAtLeastZero(u + v);
    SquareAtLeastZero(u - v);
    assert u * u + v * v == 0.5 * (p + q) && u * v == 0.25 * (p - q);
    assert V(a, b, u, v) == 0.5 * (b * p + c * q) by {
      assert (2.0 - a) * (0.5 * (p + q)) == 0.5 * ((2.0 - a) * p + (2.0 - a) * q);
      assert 2.0 * (2.0 - a - b) * (0.25 * (p - q)) == 0.5 * ((2.0 - a - b) * p - (2.0 - a - b) * q);
      assert (2.0 - a) * p - (2.0 - a - b) * p == b * p;
      assert (2.0 - a) * q + (2.0 - a - b) * q == c * q;
    }
    Monotone(Least(a, b), b, p);
    Monotone(Least(a, b), c, q);
    assert Least(a, b) * (0.5 * (p + q)) == 0.5 * (Least(a, b) * p + Least(a, b) * q);
  }

  // ---- Exactly which gains keep the loop bounded ---------------------------------------------

  ghost predicate Within(a: real, b: real, x0: real, x1: real, m: real) {
    forall n: nat :: -m <= Offset(a, b, x0, x1, n) <= m
  }

  ghost predicate Bounded(a: real, b: real, x0: real, x1: real) {
    exists m: real :: Within(a, b, x0, x1, m)
  }

  lemma {:induction false} VStaysBelow(a: real, b: real, x0: real, x1: real, n: nat)
    requires 0.0 < a
    ensures V(a, b, Offset(a, b, x0, x1, n + 1), Offset(a, b, x0, x1, n)) <= V(a, b, x1, x0)
  {
    if n > 0 {
      VStaysBelow(a, b, x0, x1, n - 1);
      var u, v := Offset(a, b, x0, x1, n), Offset(a, b, x0, x1, n - 1);
      NeverGrows(a, b, u, v);
    }
  }

  lemma NeverGrows(a: real, b: real, u: real, v: real)
    requires 0.0 < a
    ensures V(a, b, Recurrence(a, b, u, v), u) <= V(a, b, u, v)
  {
    VDescends(a, b, u, v);
    var d := Recurrence(a, b, u, v) - v;
    SquareAtLeastZero(d);
    Nonnegative(a, d * d);
  }

  /** |v| is at most 1 + v * v, so a bound on the squares is a bound on the offsets. */
  lemma SquareBounds(k: real, u: real, v: real, top: real)
    requires k > 0.0 && k * (u * u + v * v) <= top
    ensures -(1.0 + top / k) <= v <= 1.0 + top / k
  {
    SquareAtLeastZero(u);
    SquareAtLeastZero(v);
    SquareAtLeastZero(v - 1.0);
    SquareAtLeastZero(v + 1.0);
    assert k * (top / k) == top;
    Cancel(k, u * u + v * v, top / k);
    assert (v - 1.0) * (v - 1.0) == v * v - 2.0 * v + 1.0;
    assert (v + 1.0) * (v + 1.0) == v * v + 2.0 * v + 1.0;
  }

  /** Inside the region, V bounds the offsets. */
  lemma VBounds(a: real, b: real, u: real, v: real, top: real)
    requires 0.0 < b && 2.0 * a + b < 4.0 && V(a, b, u, v) <= top
    ensures -(1.0 + top / Least(a, b)) <= v <= 1.0 + top / Least(a, b)
  {
    VDominates(a, b, u, v);
    SquareBounds(Least(a, b), u, v, top);
  }

  /** A bound on all offsets, from the first two. */
  function StartBound(a: real, b: real, x0: real, x1: real): real
    requires Least(a, b) != 0.0
  {
    1.0 + V(a, b, x1, x0) / Least(a, b)
  }

  lemma InsideWithin(a: real, b: real, x0: real, x1: real)
    requires 0.0 < a && 0.0 < b && 2.0 * a + b < 4.0
    ensures Within(a, b, x0, x1, StartBound(a, b, x0, x1))
  {
    var m := StartBound(a, b, x0, x1);
    forall n: nat
      ensures -m <= Offset(a, b, x0, x1, n) <= m
    {
      VStaysBelow(a, b, x0, x1, n);
      VBounds(a, b, Offset(a, b, x0, x1, n + 1), Offset(a, b, x0, x1, n), V(a, b, x1, x0));
    }
  }

  // On the border 2a + b == 4, x[n+1] + (1 - a) x[n] only changes its sign.

  lemma {:induction false} BorderCarries(a: real, b: real, x0: real, x1: real, n: nat)
    requires 2.0 * a + b == 4.0
    ensures var c := Carry(a, Offset(a, b, x0, x1, n + 1), Offset(a, b, x0, x1, n));
            c == Carry(a, x1, x0) || c == -Carry(a, x1, x0)
  {
    if n > 0 {
      BorderCarries(a, b, x0, x1, n - 1);
      BorderFlips(a, b, Offset(a, b, x0, x1, n), Offset(a, b, x0, x1, n - 1));
    }
  }

  lemma BorderFlips(a: real, b: real, u: real, v: real)
    requires 2.0 * a + b == 4.0
    ensures Carry(a, Recurrence(a, b, u, v), u) == -Carry(a, u, v)
  {
    assert (2.0 - a - b) * u + (1.0 - a) * u == -u;
  }

  function Carry(a: real, u: real, v: real): real {
    u + (1.0 - a) * v
  }

  /** How far 1 - a is from 1 or -1. */
  function Slack(a: real): real {
    if a <= 1.0 then a else 2.0 - a
  }

  lemma BorderStep(a: real, m: real, k: real, u: real, v: real)
    requires 0.0 < a < 2.0 && -m <= v <= m && -(Slack(a) * m) <= k <= Slack(a) * m
    requires Carry(a, u, v) == k || Carry(a, u, v) == -k
    ensures -m <= u <= m
  {
    var rest := 1.0 - Slack(a);
    var w := rest * v;
    Nonnegative(rest, m - v);
    Nonnegative(rest, v + m);
    assert rest * (m - v) == m - Slack(a) * m - w;
    assert rest * (v + m) == w + m - Slack(a) * m;
    assert Carry(a, u, v) == u + w || Carry(a, u, v) == u - w;
  }

  lemma {:induction false} BorderStays(a: real, b: real, x0: real, x1: real, m: real, n: nat)
    requires 0.0 < a < 2.0 && 2.0 * a + b == 4.0
    requires -m <= x0 <= m
    requires -(Slack(a) * m) <= Carry(a, x1, x0) <= Slack(a) * m
    ensures -m <= Offset(a, b, x0, x1, n) <= m
  {
    if n > 0 {
      BorderStays(a, b, x0, x1, m, n - 1);
      BorderCarries(a, b, x0, x1, n - 1);
      BorderStep(a, m, Carry(a, x1, x0), Offset(a, b, x0, x1, n), Offset(a, b, x0, x1, n - 1));
    }
  }

  lemma EnoughRoom(c: real, x: real, k: real)
    requires c > 0.0 && x >= 0.0 && k >= 0.0
    ensures c * (x + k / c) >= k && k / c >= 0.0
  {
    var q := k / c;
    assert c * q == k;
    Nonnegative(c, x);
    Distributes(c, x, q);
    if q < 0.0 {
      Compare(q, 0.0, c);
    }
  }

  lemma BorderBounded(a: real, b: real, x0: real, x1: real)
    requires 0.0 < a && 0.0 < b && 2.0 * a + b == 4.0
    ensures Bounded(a, b, x0, x1)
  {
    var k, c := Servo.AbsReal(Carry(a, x1, x0)), Slack(a);
    var m := Servo.AbsReal(x0) + k / c;
    EnoughRoom(c, Servo.AbsReal(x0), k);
    forall n: nat
      ensures -m <= Offset(a, b, x0, x1, n) <= m
    {
      BorderStays(a, b, x0, x1, m, n);
    }
    assert Within(a, b, x0, x1, m);
  }

  // Beyond the border, the offsets from 0 and 1 alternate and grow by a fixed amount at least.

  function Sign(n: nat): real {
    if n % 2 == 0 then -1.0 else 1.0
  }

  /** The n-th offset with its alternating sign taken off. */
  function Swing(a: real, b: real, n: nat): real {
    Times(Sign(n), Offset(a, b, 0.0, 1.0, n))
  }

  function Grown(delta: real, rest: real, x: real, y: real): real {
    y + delta * y + rest * (y - x)
  }

  lemma SwingStep(a: real, b: real, n: nat)
    requires n >= 1
    ensures Swing(a, b, n + 1) == Grown(2.0 * a + b - 4.0, 1.0 - a, Swing(a, b, n - 1), Swing(a, b, n))
  {
    var u, v := Offset(a, b, 0.0, 1.0, n), Offset(a, b, 0.0, 1.0, n - 1);
    assert Sign(n + 1) == -Sign(n) && Sign(n - 1) == -Sign(n);
    SwingArithmetic(a, b, Sign(n), -Sign(n), u, v);
  }

  lemma SwingArithmetic(a: real, b: real, g: real, h: real, u: real, v: real)
    requires h == -g
    ensures Times(h, Recurrence(a, b, u, v)) == Grown(2.0 * a + b - 4.0, 1.0 - a, Times(h, v), Times(g, u))
  {
    var y, x := g * u, h * v;
    assert h * ((2.0 - a - b) * u) == (a + b - 2.0) * y;
    assert h * ((1.0 - a) * v) == (1.0 - a) * x;
    assert (2.0 * a + b - 4.0) * y + (1.0 - a) * (y - x) == (a + b - 3.0) * y - (1.0 - a) * x;
  }

  function Ramp(delta: real, steps: int): real {
    1.0 + steps as real * delta
  }

  lemma {:induction false} SwingGrows(a: real, b: real, n: nat)
    requires 0.0 < a <= 1.0 && 2.0 * a + b > 4.0 && n >= 1
    ensures Swing(a, b, n) >= Ramp(2.0 * a + b - 4.0, n - 1)
    ensures Swing(a, b, n) >= Swing(a, b, n - 1)
  {
    if n > 1 {
      SwingGrows(a, b, n - 1);
      SwingStep(a, b, n - 1);
      Growth(2.0 * a + b - 4.0, 1.0 - a, n - 2, Swing(a, b, n - 2), Swing(a, b, n - 1));
    }
  }

  lemma Growth(delta: real, rest: real, steps: nat, x: real, y: real)
    requires delta > 0.0 && rest >= 0.0 && y >= Ramp(delta, steps) && y >= x
    ensures Grown(delta, rest, x, y) >= Ramp(delta, steps + 1)
    ensures Grown(delta, rest, x, y) >= y
  {
    var r := steps as real * delta;
    assert Ramp(delta, steps) == 1.0 + r;
    assert Ramp(delta, steps + 1) == 1.0 + r + delta;
    Nonnegative(steps as real, delta);
    Nonnegative(delta, y - 1.0);
    Nonnegative(rest, y - x);
    assert delta * y == delta + delta * (y - 1.0);
  }

  // With a > 1, two swings after any pair of swings are larger than the smaller one of the pair.

  /** What no swing but the one at 0 falls below. */
  function Floor(a: real, b: real): real {
    if a <= 1.0 || a + b >= 3.0 then 1.0 else a + b - 2.0
  }

  function Climb(delta: real, low: real, steps: int): real {
    low + steps as real * (delta * low)
  }

  function Raised(delta: real, low: real): real {
    low + delta * low
  }

  lemma PairGrows(a: real, b: real, x: real, y: real, low: real)
    requires 1.0 < a && 0.0 < b && 2.0 * a + b > 4.0 && x >= low && y >= low
    ensures Grown(2.0 * a + b - 4.0, 1.0 - a, x, y) >= Raised(2.0 * a + b - 4.0, low)
  {
    Nonnegative(a + b - 2.0, y - low);
    Nonnegative(a - 1.0, x - low);
    assert (a + b - 2.0) * (y - low) == (a + b - 2.0) * y - (a + b - 2.0) * low;
    assert (a - 1.0) * (x - low) == (a - 1.0) * x - (a - 1.0) * low;
    assert (2.0 * a + b - 4.0) * y + (1.0 - a) * (y - x) == (a + b - 3.0) * y + (a - 1.0) * x;
    assert (a + b - 2.0) * low + (a - 1.0) * low == low + (2.0 * a + b - 4.0) * low;
  }

  lemma ClimbStep(delta: real, low: real, steps: nat)
    requires delta > 0.0 && low > 0.0
    ensures Raised(delta, Climb(delta, low, steps)) >= Climb(delta, low, steps + 1)
    ensures low <= Climb(delta, low, steps) <= Climb(delta, low, steps + 1)
  {
    var unit := delta * low;
    Product(delta, low, unit);
    Nonnegative(steps as real, unit);
    Distributes(delta, low, steps as real * unit);
    Nonnegative(delta, steps as real * unit);
    assert (steps + 1) as real * unit == steps as real * unit + unit;
  }

  lemma SwingAfterPair(a: real, b: real, n: nat, low: real)
    requires 1.0 < a && 0.0 < b && 2.0 * a + b > 4.0 && n >= 1
    requires Swing(a, b, n - 1) >= low && Swing(a, b, n) >= low
    ensures Swing(a, b, n + 1) >= Raised(2.0 * a + b - 4.0, low)
  {
    SwingStep(a, b, n);
    PairGrows(a, b, Swing(a, b, n - 1), Swing(a, b, n), low);
  }

  lemma FirstSwings(a: real, b: real)
    ensures Swing(a, b, 0) == 0.0 && Swing(a, b, 1) == 1.0 && Swing(a, b, 2) == a + b - 2.0
  {
    assert Offset(a, b, 0.0, 1.0, 2) == Recurrence(a, b, 1.0, 0.0);
  }

  ghost predicate PairAbove(a: real, b: real, n: nat, low: real) {
    Swing(a, b, n) >= low && Swing(a, b, n + 1) >= low
  }

  lemma NextPair(a: real, b: real, n: nat, low: real, high: real)
    requires 1.0 < a && 0.0 < b && 2.0 * a + b > 4.0
    requires PairAbove(a, b, n, low) && low <= high <= Raised(2.0 * a + b - 4.0, low)
    ensures PairAbove(a, b, n + 2, high)
  {
    SwingAfterPair(a, b, n + 1, low);
    SwingAfterPair(a, b, n + 2, low);
  }

  lemma {:induction false} SwingClimbs(a: real, b: real, k: nat)
    requires 1.0 < a && 0.0 < b && 2.0 * a + b > 4.0
    ensures PairAbove(a, b, 2 * k + 1, Climb(2.0 * a + b - 4.0, Floor(a, b), k))
  {
    if k == 0 {
      FirstSwings(a, b);
    } else {
      var delta, low := 2.0 * a + b - 4.0, Floor(a, b);
      SwingClimbs(a, b, k - 1);
      ClimbStep(delta, low, k - 1);
      NextPair(a, b, 2 * k - 1, Climb(delta, low, k - 1), Climb(delta, low, k));
    }
  }

  /** From 1 on, every swing is at least the floor. */
  lemma SwingFloor(a: real, b: real, n: nat)
    requires 0.0 < a && 0.0 < b && 2.0 * a + b > 4.0 && n >= 1
    ensures Swing(a, b, n) >= Floor(a, b) > 0.0
  {
    var delta := 2.0 * a + b - 4.0;
    if a <= 1.0 {
      SwingGrows(a, b, n);
      RampAtLeastOne(delta, n - 1);
    } else {
      var k := (n - 1) / 2;
      SwingClimbs(a, b, k);
      ClimbStep(delta, Floor(a, b), k);
      assert n == 2 * k + 1 || n == 2 * k + 2;
    }
  }

  lemma RampAtLeastOne(delta: real, steps: nat)
    requires delta >= 0.0
    ensures Ramp(delta, steps) >= 1.0
  {
    Nonnegative(steps as real, delta);
  }

  /** Some swing exceeds any bound. */
  lemma SwingExceeds(a: real, b: real, m: real) returns (n: nat)
    requires 0.0 < a && 0.0 < b && 2.0 * a + b > 4.0
    ensures n >= 1 && Swing(a, b, n) > m
  {
    var delta := 2.0 * a + b - 4.0;
    if a <= 1.0 {
      var steps := Above(m / delta);
      n := steps + 1;
      SwingGrows(a, b, n);
      RampExceeds(delta, m, steps);
    } else {
      var low := Floor(a, b);
      Product(delta, low, delta * low);
      var steps := Above(m / (delta * low));
      n := 2 * steps + 1;
      SwingClimbs(a, b, steps);
      ClimbExceeds(delta, low, m, steps);
    }
  }

  lemma Above(q: real) returns (steps: nat)
    ensures steps as real >= q
  {
    steps := if q < 0.0 then 0 else q.Floor + 1;
  }

  lemma ClimbExceeds(delta: real, low: real, m: real, steps: nat)
    requires delta * low > 0.0 && low > 0.0 && steps as real >= m / (delta * low)
    ensures Climb(delta, low, steps) > m
  {
    var unit := delta * low;
    var q := m / unit;
    assert q * unit == m;
    Nonnegative(steps as real - q, unit);
    assert (steps as real - q) * unit == steps as real * unit - q * unit;
  }

  lemma RampExceeds(delta: real, m: real, steps: nat)
    requires delta > 0.0 && steps as real >= m / delta
    ensures Ramp(delta, steps) > m
  {
    var q := m / delta;
    assert q * delta == m;
    Nonnegative(steps as real - q, delta);
    assert (steps as real - q) * delta == steps as real * delta - q * delta;
  }

  lemma BeyondUnbounded(a: real, b: real)
    requires 0.0 < a && 0.0 < b && 2.0 * a + b > 4.0
    ensures !Bounded(a, b, 0.0, 1.0)
  {
    forall m: real
      ensures !Within(a, b, 0.0, 1.0, m)
    {
      var n := SwingExceeds(a, b, m);
      assert !(-m <= Offset(a, b, 0.0, 1.0, n) <= m);
    }
  }

  /** For positive gains, the loop without the clamp is bounded from every start exactly when 2a + b <= 4; this is what
      the caps 1 and 2 together guarantee. */
  lemma StableIff(a: real, b: real)
    requires 0.0 < a && 0.0 < b
    ensures (forall x0: real, x1: real :: Bounded(a, b, x0, x1)) <==> 2.0 * a + b <= 4.0
  {
    if 2.0 * a + b > 4.0 {
      BeyondUnbounded(a, b);
    } else {
      forall x0: real, x1: real
        ensures Bounded(a, b, x0, x1)
      {
        if 2.0 * a + b < 4.0 {
          InsideWithin(a, b, x0, x1);
        } else {
          BorderBounded(a, b, x0, x1);
        }
      }
    }
  }

  // ---- What this means for the servo ---------------------------------------------------------

  ghost predicate LoopWithin(p: Plant, s: Loop, m: real) {
    forall n: nat :: -m <= After(p, s, n).x <= m
  }

  /** Gains a user configures are capped so that a loop that is never clamped stays bounded forever. */
  lemma UnclampedUserGainsAreStable(cfg: State, kp: real, ki: real, g: Gains, swTs: bool, interval: real,
                                    error: real, limit: real, s: Loop)
    requires kp > 0.0 && ki > 0.0 && interval > 0.0
    requires cfg.gains == Configured(kp, ki, swTs, g)
    ensures var pi := AfterSyncInterval(cfg, interval, 1.0, 1.0);
            var p := Plant(pi.kp, pi.ki, interval, error, limit);
            NeverSaturates(p, s) ==> exists m: real :: LoopWithin(p, s, m)
  {
    var pi := AfterSyncInterval(cfg, interval, 1.0, 1.0);
    var p := Plant(pi.kp, pi.ki, interval, error, limit);
    if NeverSaturates(p, s) {
      GainsAreCapped(cfg, interval, 1.0, 1.0);
      CappedPositive(kp, MAX_KP_NORM_MAX, interval);
      CappedPositive(ki, MAX_KI_NORM_MAX, interval);
      var x0, x1 := s.x, Next(p, s).x;
      StableIff(A(p), B(p));
      assert Bounded(A(p), B(p), x0, x1);
      var m: real :| Within(A(p), B(p), x0, x1, m);
      forall n: nat
        ensures -m <= After(p, s, n).x <= m
      {
        LoopOffsets(p, s, n);
        assert -m <= Offset(A(p), B(p), x0, x1, n) <= m;
      }
      assert LoopWithin(p, s, m);
    }
  }

  lemma CappedPositive(gain: real, normMax: real, interval: real)
    requires gain > 0.0 && normMax > 0.0 && interval > 0.0
    ensures interval * Capped(gain * 1.0, normMax, interval) > 0.0
  {
    var c := Capped(gain * 1.0, normMax, interval);
    assert normMax / interval > 0.0;
    assert c > 0.0;
  }

  lemma {:induction false} OffsetScales(a: real, b: real, x1: real, n: nat)
    ensures Offset(a, b, 0.0, x1, n) == Times(x1, Offset(a, b, 0.0, 1.0, n))
  {
    if n > 1 {
      OffsetScales(a, b, x1, n - 1);
      OffsetScales(a, b, x1, n - 2);
      RecurrenceScales(a, b, x1, Offset(a, b, 0.0, 1.0, n - 1), Offset(a, b, 0.0, 1.0, n - 2));
    }
  }

  lemma RecurrenceScales(a: real, b: real, k: real, u: real, v: real)
    ensures Recurrence(a, b, Times(k, u), Times(k, v)) == Times(k, Recurrence(a, b, u, v))
  {
    assert k * ((2.0 - a - b) * u) == (2.0 - a - b) * (k * u);
    assert k * ((1.0 - a) * v) == (1.0 - a) * (k * v);
  }

  /** Swings that are not clamped are no larger than what the output limit can cause in one interval. */
  lemma SwingLimited(p: Plant, s: Loop, n: nat)
    requires NeverSaturates(p, s) && p.interval > 0.0 && s.x == 0.0 && n >= 1
    requires Swing(A(p), B(p), n) >= 0.0 && Swing(A(p), B(p), n - 1) >= 0.0
    ensures var x1 := Servo.AbsReal(Next(p, s).x);
            Times(x1, Swing(A(p), B(p), n)) <= p.interval * (Servo.AbsReal(p.error) + p.limit)
  {
    OffsetsLimited(p, s, n);
    SwingApart(Next(p, s).x, Sign(n), Sign(n - 1),
               Offset(A(p), B(p), 0.0, 1.0, n), Offset(A(p), B(p), 0.0, 1.0, n - 1));
  }

  lemma OffsetsLimited(p: Plant, s: Loop, n: nat)
    requires NeverSaturates(p, s) && p.interval > 0.0 && s.x == 0.0 && n >= 1
    ensures var x1 := Next(p, s).x;
            Servo.AbsReal(Times(x1, Offset(A(p), B(p), 0.0, 1.0, n)) - Times(x1, Offset(A(p), B(p), 0.0, 1.0, n - 1)))
              <= p.interval * (Servo.AbsReal(p.error) + p.limit)
  {
    LoopOffsets(p, s, n);
    LoopOffsets(p, s, n - 1);
    OffsetScales(A(p), B(p), Next(p, s).x, n);
    OffsetScales(A(p), B(p), Next(p, s).x, n - 1);
    StepLimited(p, After(p, s, n - 1));
  }

  lemma StepLimited(p: Plant, s: Loop)
    requires Unsaturated(p, s) && p.interval > 0.0
    ensures Servo.AbsReal(Next(p, s).x - s.x) <= p.interval * (Servo.AbsReal(p.error) + p.limit)
  {
    var u := p.kp * s.x + s.drift + p.ki * s.x;
    NextUnsaturated(p, s);
    var e := Servo.AbsReal(p.error) + p.limit;
    Nonnegative(p.interval, e - (p.error - u));
    Nonnegative(p.interval, e + (p.error - u));
    assert p.interval * (e - (p.error - u)) == p.interval * e - p.interval * (p.error - u);
    assert p.interval * (e + (p.error - u)) == p.interval * e + p.interval * (p.error - u);
  }

  lemma SwingApart(x1: real, g: real, h: real, u: real, v: real)
    requires (g == 1.0 || g == -1.0) && h == -g && Times(g, u) >= 0.0 && Times(h, v) >= 0.0
    ensures Times(Servo.AbsReal(x1), Times(g, u)) <= Servo.AbsReal(Times(x1, u) - Times(x1, v))
  {
    var k, y, z := Servo.AbsReal(x1), Times(g, u), Times(h, v);
    Nonnegative(k, y);
    Nonnegative(k, z);
    assert Times(x1, u) - Times(x1, v) == x1 * (u - v);
    assert y + z == g * (u - v);
    assert k * y + k * z == k * (g * (u - v));
  }

  /** The condition is also necessary for the servo: from offset 0 with a wrong drift, a loop beyond the border
      always ends up clamped. */
  lemma BeyondSaturates(p: Plant, s: Loop)
    requires p.interval > 0.0 && 0.0 < A(p) && 0.0 < B(p) && s.x == 0.0 && p.error != s.drift
    requires NeverSaturates(p, s)
    ensures 2.0 * A(p) + B(p) <= 4.0
  {
    if 2.0 * A(p) + B(p) > 4.0 {
      FirstSwing(p, s);
      var x1 := Servo.AbsReal(Next(p, s).x);
      var top := p.interval * (Servo.AbsReal(p.error) + p.limit);
      var n := SwingExceeds(A(p), B(p), Servo.AbsReal(top) / x1 + 1.0);
      SwingsNonNegative(A(p), B(p), n);
      Exceeds(x1, Swing(A(p), B(p), n), top);
      SwingLimited(p, s, n);
    }
  }

  lemma FirstSwing(p: Plant, s: Loop)
    requires p.interval > 0.0 && s.x == 0.0 && p.error != s.drift && NeverSaturates(p, s)
    ensures Next(p, s).x != 0.0
  {
    assert After(p, s, 0) == s && Unsaturated(p, After(p, s, 0));
    NextUnsaturated(p, s);
    assert Next(p, s).x == p.interval * (p.error - s.drift);
  }

  lemma SwingsNonNegative(a: real, b: real, n: nat)
    requires 0.0 < a && 0.0 < b && 2.0 * a + b > 4.0 && n >= 1
    ensures Swing(a, b, n) >= 0.0 && Swing(a, b, n - 1) >= 0.0
  {
    SwingFloor(a, b, n);
    if n > 1 {
      SwingFloor(a, b, n - 1);
    }
  }

  lemma Exceeds(x1: real, y: real, top: real)
    requires x1 > 0.0 && y > Servo.AbsReal(top) / x1 + 1.0
    ensures Times(x1, y) > top
  {
    var q := Servo.AbsReal(top) / x1;
    assert q * x1 == Servo.AbsReal(top);
    Nonnegative(x1, y - q - 1.0);
    assert x1 * (y - q - 1.0) == x1 * y - q * x1 - x1;
  }
}
