/** Where the closed loop of PiLoop comes to rest: offsets that die out, and starts that are never clamped. */
module PiSettle {
  import opened PiLoop
  import opened Reals
  import PiServo
  import Servo

  // ---- Inside the border, the offset dies out ----------------------------------------------------

  function Square(x: real): real {
    x * x
  }

  function Margin(a: real, b: real): real {
    b * (4.0 - 2.0 * a - b)
  }

  /** The share of V that two steps take away at least. */
  function Share(a: real, b: real): real {
    a * Square(Margin(a, b)) / 112.0
  }

  /** Cauchy-Schwarz in the plane. */
  lemma PlaneCauchy(i: real, j: real, e: real, f: real, k: real)
    requires i * i + j * j <= k
    ensures (i * e + j * f) * (i * e + j * f) <= k * (e * e + f * f)
  {
    var s, t := i * i + j * j, e * e + f * f;
    var c := i * f - j * e;
    SquareAtLeastZero(c);
    SquareAtLeastZero(e);
    SquareAtLeastZero(f);
    assert s * t == (i * e + j * f) * (i * e + j * f) + c * c by {
      assert (i * e + j * f) * (i * e + j * f) == i * i * (e * e) + 2.0 * (i * j * e * f) + j * j * (f * f);
      assert c * c == i * i * (f * f) - 2.0 * (i * j * e * f) + j * j * (e * e);
      assert s * t == i * i * (e * e) + i * i * (f * f) + j * j * (e * e) + j * j * (f * f);
    }
    Monotone(s, k, t);
  }

  function Norm(i: real, j: real): real {
    i * i + j * j
  }

  function Mix(i: real, j: real, e: real, f: real): real {
    -i * e + j * f
  }

  /** The changes over two steps from v, u, and the determinant of that linear image of (u, v). */
  function Change1(p: real, q: real, u: real, v: real): real {
    p * u - (1.0 + q) * v
  }

  function Change2(p: real, q: real, u: real, v: real): real {
    (p * p - 1.0 - q) * u - p * q * v
  }

  function Det(p: real, q: real): real {
    p * p - (1.0 + q) * (1.0 + q)
  }

  lemma Eliminate(m: real, p: real, w: real, r: real, u: real, v: real)
    ensures -m * (p * u - w * v) + w * (r * u - m * v) == (w * r - m * p) * u
    ensures -r * (p * u - w * v) + p * (r * u - m * v) == (w * r - m * p) * v
  {
  }

  lemma DetForm(p: real, q: real)
    ensures (1.0 + q) * (p * p - 1.0 - q) - p * q * p == Det(p, q)
  {
  }

  /** The two changes determine the two offsets. */
  lemma ChangesDetermine(p: real, q: real, u: real, v: real)
    ensures var e, f := Change1(p, q, u, v), Change2(p, q, u, v);
            && Times(Det(p, q), u) == Mix(p * q, 1.0 + q, e, f)
            && Times(Det(p, q), v) == Mix(p * p - 1.0 - q, p, e, f)
  {
    Eliminate(p * q, p, 1.0 + q, p * p - 1.0 - q, u, v);
    DetForm(p, q);
  }

  lemma CoefficientsSmall(p: real, q: real)
    requires -1.0 < q < 1.0 && -2.0 <= p <= 2.0
    ensures Norm(p * q, 1.0 + q) <= 8.0
    ensures Norm(p * p - 1.0 - q, p) <= 20.0
  {
    SquareAtMost(p, 2.0);
    SquareAtMost(1.0 + q, 2.0);
    SquareAtLeastZero(p);
    SquareAtMost(p * p - 1.0 - q, 4.0);
    ProductAtMost(p, q, p * q);
    SquareAtMost(p * q, 2.0);
  }

  lemma ProductAtMost(p: real, q: real, product: real)
    requires -1.0 < q < 1.0 && -2.0 <= p <= 2.0 && product == p * q
    ensures -2.0 <= product <= 2.0
  {
    if p >= 0.0 {
      Monotone(q, 1.0, p);
      Monotone(-1.0, q, p);
    } else {
      Monotone(q, 1.0, -p);
      Monotone(-1.0, q, -p);
      assert q * (-p) == -product;
    }
  }

  lemma SquareAtMost(x: real, top: real)
    requires -top <= x <= top
    ensures x * x <= top * top
  {
    Nonnegative(top - x, top + x);
    assert (top - x) * (top + x) == top * top - x * x;
  }

  lemma SquareOfProduct(d: real, u: real)
    ensures (d * u) * (d * u) == d * d * (u * u)
  {
  }

  lemma OneDirection(d: real, u: real, i: real, j: real, e: real, f: real, k: real)
    requires Times(d, u) == Mix(i, j, e, f) && Norm(i, j) <= k
    ensures Times(Square(d), Square(u)) <= Times(k, Norm(e, f))
  {
    assert (-i) * (-i) == i * i;
    PlaneCauchy(-i, j, e, f, k);
    SquareOfProduct(d, u);
  }

  lemma ChangesAreLarge(p: real, q: real, u: real, v: real)
    requires -1.0 < q < 1.0 && -2.0 <= p <= 2.0
    ensures var d, n := Det(p, q), Norm(Change1(p, q, u, v), Change2(p, q, u, v));
            && Times(Square(d), Square(u)) <= Times(8.0, n)
            && Times(Square(d), Square(v)) <= Times(20.0, n)
  {
    var d, e, f := Det(p, q), Change1(p, q, u, v), Change2(p, q, u, v);
    ChangesDetermine(p, q, u, v);
    CoefficientsSmall(p, q);
    OneDirection(d, u, p * q, 1.0 + q, e, f, 8.0);
    OneDirection(d, v, p * p - 1.0 - q, p, e, f, 20.0);
  }

  lemma VAtMost(a: real, b: real, u: real, v: real)
    requires 0.0 < a && 0.0 < b && 2.0 * a + b < 4.0
    ensures V(a, b, u, v) <= 4.0 * (Square(u) + Square(v))
  {
    var p, q := (u + v) * (u + v), (u - v) * (u - v);
    SquareAtLeastZero(u + v);
    SquareAtLeastZero(u - v);
    assert u * u + v * v == 0.5 * (p + q) && u * v == 0.25 * (p - q);
    var c := 4.0 - 2.0 * a - b;
    assert V(a, b, u, v) == 0.5 * (b * p + c * q) by {
      assert (2.0 - a) * (0.5 * (p + q)) == 0.5 * ((2.0 - a) * p + (2.0 - a) * q);
      assert 2.0 * (2.0 - a - b) * (0.25 * (p - q)) == 0.5 * ((2.0 - a - b) * p - (2.0 - a - b) * q);
      assert (2.0 - a) * p - (2.0 - a - b) * p == b * p;
      assert (2.0 - a) * q + (2.0 - a - b) * q == c * q;
    }
    Monotone(b, 4.0, p);
    Monotone(c, 4.0, q);
  }

  lemma MarginIsDeterminant(a: real, b: real)
    ensures Square(Det(2.0 - a - b, 1.0 - a)) == Square(Margin(a, b))
  {
    var p, q := 2.0 - a - b, 1.0 - a;
    assert Det(p, q) == (p - 1.0 - q) * (p + 1.0 + q);
    assert Det(p, q) == -Margin(a, b);
    SquareOfNegation(Margin(a, b));
  }

  lemma SquareOfNegation(x: real)
    ensures (-x) * (-x) == x * x
  {
  }

  lemma TwoChanges(a: real, b: real, u: real, v: real)
    ensures var x2 := Recurrence(a, b, u, v);
            && x2 - v == Change1(2.0 - a - b, 1.0 - a, u, v)
            && Recurrence(a, b, x2, u) - u == Change2(2.0 - a - b, 1.0 - a, u, v)
  {
    var p, q := 2.0 - a - b, 1.0 - a;
    assert p * (p * u - q * v) == p * p * u - p * q * v;
  }

  lemma StepTakes(a: real, b: real, x1: real, x0: real)
    ensures var x2 := Recurrence(a, b, x1, x0);
            V(a, b, x2, x1) == V(a, b, x1, x0) - Times(a, Square(x2 - x0))
  {
    VDescends(a, b, x1, x0);
  }

  lemma NormSplits(k: real, e: real, f: real)
    ensures Times(k, Norm(e, f)) == Times(k, Square(e)) + Times(k, Square(f))
  {
    Distributes(k, e * e, f * f);
  }

  /** Two steps of the loop take away from V the squares of both changes. */
  lemma TwoStepsTake(a: real, b: real, u: real, v: real)
    ensures var x2 := Recurrence(a, b, u, v);
            var x3 := Recurrence(a, b, x2, u);
            V(a, b, x3, x2) == V(a, b, u, v) - Times(a, Norm(x2 - v, x3 - u))
  {
    var x2 := Recurrence(a, b, u, v);
    var x3 := Recurrence(a, b, x2, u);
    StepTakes(a, b, u, v);
    StepTakes(a, b, x2, u);
    NormSplits(a, x2 - v, x3 - u);
  }

  lemma ShareTaken(a: real, b: real, uu: real, vv: real, changes: real, w: real)
    requires a > 0.0 && w <= 4.0 * (uu + vv)
    requires var mm := Square(Margin(a, b));
             Times(mm, uu) <= Times(8.0, changes) && Times(mm, vv) <= Times(20.0, changes)
    ensures Times(Share(a, b), w) <= Times(a, changes)
  {
    SquareAtLeastZero(Margin(a, b));
    ShareArithmetic(a, Square(Margin(a, b)), uu, vv, changes, w);
  }

  lemma ShareArithmetic(a: real, mm: real, uu: real, vv: real, changes: real, w: real)
    requires a > 0.0 && w <= 4.0 * (uu + vv) && mm >= 0.0
    requires Times(mm, uu) <= Times(8.0, changes) && Times(mm, vv) <= Times(20.0, changes)
    ensures a * mm / 112.0 * w <= a * changes
  {
    Nonnegative(mm, 4.0 * (uu + vv) - w);
    assert mm * (4.0 * (uu + vv) - w) == 4.0 * (mm * uu) + 4.0 * (mm * vv) - mm * w;
    assert mm * w <= 112.0 * changes;
    Nonnegative(a, 112.0 * changes - mm * w);
    assert a * (112.0 * changes - mm * w) == 112.0 * (a * changes) - a * (mm * w);
    assert a * mm / 112.0 * w == a * (mm * w) / 112.0;
  }

  lemma TwoStepsShare(a: real, b: real, u: real, v: real)
    requires 0.0 < a && 0.0 < b && 2.0 * a + b < 4.0
    ensures var n := Norm(Change1(2.0 - a - b, 1.0 - a, u, v), Change2(2.0 - a - b, 1.0 - a, u, v));
            Times(Share(a, b), V(a, b, u, v)) <= Times(a, n)
  {
    var p, q := 2.0 - a - b, 1.0 - a;
    MarginIsDeterminant(a, b);
    ChangesAreLarge(p, q, u, v);
    VAtMost(a, b, u, v);
    ShareTaken(a, b, Square(u), Square(v), Norm(Change1(p, q, u, v), Change2(p, q, u, v)), V(a, b, u, v));
  }

  /** Two steps of the loop take a fixed share of V away. */
  lemma TwoStepsDescend(a: real, b: real, u: real, v: real)
    requires 0.0 < a && 0.0 < b && 2.0 * a + b < 4.0
    ensures var x2 := Recurrence(a, b, u, v);
            var x3 := Recurrence(a, b, x2, u);
            V(a, b, x3, x2) + Times(Share(a, b), V(a, b, u, v)) <= V(a, b, u, v)
  {
    TwoChanges(a, b, u, v);
    TwoStepsTake(a, b, u, v);
    TwoStepsShare(a, b, u, v);
  }

  /** k shares on top of the whole. */
  function Weighed(share: real, k: int, w: real): real {
    w + k as real * (share * w)
  }

  lemma SharesAddUp(share: real, k: nat, w: real, next: real)
    requires share >= 0.0 && 0.0 <= w && next + Times(share, w) <= w
    ensures Weighed(share, k + 1, next) <= Weighed(share, k, w)
  {
    Nonnegative(share, w);
    Nonnegative(share, w - next);
    assert share * (w - next) == share * w - share * next;
    Nonnegative(k as real, share * w - share * next);
    assert k as real * (share * w - share * next) == k as real * (share * w) - k as real * (share * next);
    assert (k + 1) as real * (share * next) == k as real * (share * next) + share * next;
  }

  function Energy(a: real, b: real, x0: real, x1: real, n: nat): real {
    V(a, b, Offset(a, b, x0, x1, n + 1), Offset(a, b, x0, x1, n))
  }

  lemma SharePositive(a: real, b: real)
    requires 0.0 < a && 0.0 < b && 2.0 * a + b < 4.0
    ensures Share(a, b) > 0.0
  {
    var c := 4.0 - 2.0 * a - b;
    var m := Margin(a, b);
    Product(b, c, m);
    Product(m, m, m * m);
    Product(a, m * m, a * (m * m));
  }

  lemma EnergyNonNegative(a: real, b: real, u: real, v: real)
    requires 0.0 < b && 2.0 * a + b < 4.0
    ensures V(a, b, u, v) >= Times(Least(a, b), Square(v)) >= 0.0
  {
    VDominates(a, b, u, v);
    SquareAtLeastZero(u);
    SquareAtLeastZero(v);
    Nonnegative(Least(a, b), v * v);
    Nonnegative(Least(a, b), u * u);
    Distributes(Least(a, b), u * u, v * v);
  }

  lemma EnergyStep(a: real, b: real, x0: real, x1: real, n: nat, k: nat)
    requires 0.0 < a && 0.0 < b && 2.0 * a + b < 4.0
    ensures Weighed(Share(a, b), k + 1, Energy(a, b, x0, x1, n + 2)) <= Weighed(Share(a, b), k, Energy(a, b, x0, x1, n))
  {
    var u, v := Offset(a, b, x0, x1, n + 1), Offset(a, b, x0, x1, n);
    TwoStepsDescend(a, b, u, v);
    EnergyNonNegative(a, b, u, v);
    SharePositive(a, b);
    SharesAddUp(Share(a, b), k, Energy(a, b, x0, x1, n), Energy(a, b, x0, x1, n + 2));
  }

  lemma Unweighed(share: real, w: real)
    ensures Weighed(share, 0, w) == w
  {
  }

  /** By the n-th offset, n / 2 shares of what is left have gone. */
  lemma {:induction false} EnergyDecays(a: real, b: real, x0: real, x1: real, n: nat)
    requires 0.0 < a && 0.0 < b && 2.0 * a + b < 4.0
    ensures Weighed(Share(a, b), n / 2, Energy(a, b, x0, x1, n)) <= V(a, b, x1, x0)
  {
    if n < 2 {
      VStaysBelow(a, b, x0, x1, n);
      Unweighed(Share(a, b), Energy(a, b, x0, x1, n));
    } else {
      EnergyDecays(a, b, x0, x1, n - 2);
      EnergyStep(a, b, x0, x1, n - 2, (n - 2) / 2);
    }
  }

  ghost predicate WithinFrom(a: real, b: real, x0: real, x1: real, eps: real, start: nat) {
    forall n: nat :: n >= start ==> -eps <= Offset(a, b, x0, x1, n) <= eps
  }

  ghost predicate EventuallyWithin(a: real, b: real, x0: real, x1: real, eps: real) {
    exists start: nat :: WithinFrom(a, b, x0, x1, eps, start)
  }

  /** The offsets of this start converge to 0. */
  ghost predicate DiesOut(a: real, b: real, x0: real, x1: real) {
    forall eps: real :: eps > 0.0 ==> EventuallyWithin(a, b, x0, x1, eps)
  }

  function Unit(share: real, least: real, eps: real): real {
    Times(share, Times(least, Square(eps)))
  }

  lemma UnitPositive(share: real, least: real, eps: real)
    requires share > 0.0 && least > 0.0 && eps > 0.0
    ensures Times(least, Square(eps)) > 0.0 && Unit(share, least, eps) > 0.0
  {
    var e := Square(eps);
    Product(eps, eps, e);
    Product(least, e, Times(least, e));
    Product(share, Times(least, e), Unit(share, least, eps));
  }

  lemma LargeSquare(least: real, eps: real, x: real)
    requires least > 0.0 && eps > 0.0 && (x < -eps || x > eps)
    ensures Times(least, Square(eps)) <= Times(least, Square(x))
  {
    var y := if x < 0.0 then -x else x;
    assert y * y == x * x;
    Nonnegative(y - eps, y + eps);
    assert (y - eps) * (y + eps) == y * y - eps * eps;
    Monotone(eps * eps, x * x, least);
  }

  lemma MoreUnits(enough: nat, k: nat, unit: real)
    requires enough <= k && unit >= 0.0
    ensures Times(enough as real, unit) <= Times(k as real, unit)
  {
    Monotone(enough as real, k as real, unit);
  }

  lemma SmallInTheEnd(share: real, enough: nat, k: nat, least: real, eps: real, x: real, w: real, top: real)
    requires share > 0.0 && least > 0.0 && eps > 0.0 && Times(least, Square(x)) <= w && enough <= k
    requires Weighed(share, k, w) <= top && top <= Times(enough as real, Unit(share, least, eps))
    ensures -eps <= x <= eps
  {
    if x < -eps || x > eps {
      var small := Times(least, Square(eps));
      UnitPositive(share, least, eps);
      LargeSquare(least, eps, x);
      MoreUnits(enough, k, Unit(share, least, eps));
      SmallIsEnough(share, k, small, w);
    }
  }

  lemma SmallIsEnough(share: real, k: nat, small: real, w: real)
    requires share > 0.0 && 0.0 < small <= w
    ensures Weighed(share, k, w) > Times(k as real, Times(share, small))
  {
    Nonnegative(share, w - small);
    assert share * (w - small) == share * w - share * small;
    Nonnegative(k as real, share * w - share * small);
    assert k as real * (share * w - share * small) == k as real * (share * w) - k as real * (share * small);
  }

  lemma EnoughSteps(top: real, unit: real) returns (k: nat)
    requires unit > 0.0
    ensures top <= Times(k as real, unit)
  {
    var q := top / unit;
    k := if q < 0.0 then 0 else q.Floor + 1;
    assert q * unit == top;
    Nonnegative(k as real - q, unit);
    assert (k as real - q) * unit == k as real * unit - q * unit;
  }

  lemma InsideDiesOut(a: real, b: real, x0: real, x1: real)
    requires 0.0 < a && 0.0 < b && 2.0 * a + b < 4.0
    ensures DiesOut(a, b, x0, x1)
  {
    forall eps: real | eps > 0.0
      ensures EventuallyWithin(a, b, x0, x1, eps)
    {
      SharePositive(a, b);
      UnitPositive(Share(a, b), Least(a, b), eps);
      var k := EnoughSteps(V(a, b, x1, x0), Unit(Share(a, b), Least(a, b), eps));
      forall n: nat | n >= 2 * k
        ensures -eps <= Offset(a, b, x0, x1, n) <= eps
      {
        InsideSmall(a, b, x0, x1, eps, k, n);
      }
      assert WithinFrom(a, b, x0, x1, eps, 2 * k);
    }
  }

  lemma InsideSmall(a: real, b: real, x0: real, x1: real, eps: real, k: nat, n: nat)
    requires 0.0 < a && 0.0 < b && 2.0 * a + b < 4.0 && eps > 0.0 && n >= 2 * k
    requires V(a, b, x1, x0) <= Times(k as real, Unit(Share(a, b), Least(a, b), eps))
    ensures -eps <= Offset(a, b, x0, x1, n) <= eps
  {
    var share, least, w := Share(a, b), Least(a, b), Energy(a, b, x0, x1, n);
    SharePositive(a, b);
    EnergyDecays(a, b, x0, x1, n);
    EnergyNonNegative(a, b, Offset(a, b, x0, x1, n + 1), Offset(a, b, x0, x1, n));
    SmallInTheEnd(share, k, n / 2, least, eps, Offset(a, b, x0, x1, n), w, V(a, b, x1, x0));
  }

  /** On the border the offsets 1 and -1 alternate for ever. */
  lemma {:induction false} BorderAlternates(a: real, b: real, n: nat)
    requires 2.0 * a + b == 4.0
    ensures Offset(a, b, -1.0, 1.0, n) == Sign(n)
  {
    if n > 1 {
      BorderAlternates(a, b, n - 1);
      BorderAlternates(a, b, n - 2);
      assert Sign(n) == Sign(n - 2) == -Sign(n - 1);
    }
  }

  lemma SwingIsSize(g: real, x: real)
    requires (g == 1.0 || g == -1.0) && Times(g, x) >= 0.0
    ensures Times(g, x) == Servo.AbsReal(x)
  {
  }

  /** Outside, one start's offsets never come closer to 0 than the floor of the swings. */
  lemma OutsideStays(a: real, b: real, x0: real, n: nat)
    requires 0.0 < a && 0.0 < b && 2.0 * a + b >= 4.0 && n >= 1
    requires x0 == (if 2.0 * a + b == 4.0 then -1.0 else 0.0)
    ensures Servo.AbsReal(Offset(a, b, x0, 1.0, n)) >= Floor(a, b)
  {
    if 2.0 * a + b == 4.0 {
      BorderAlternates(a, b, n);
    } else {
      SwingFloor(a, b, n);
      assert Sign(n) == 1.0 || Sign(n) == -1.0;
      SwingIsSize(Sign(n), Offset(a, b, 0.0, 1.0, n));
    }
  }

  lemma OutsideDoesNotDie(a: real, b: real)
    requires 0.0 < a && 0.0 < b && 2.0 * a + b >= 4.0
    ensures exists x0: real :: !DiesOut(a, b, x0, 1.0)
  {
    var x0 := if 2.0 * a + b == 4.0 then -1.0 else 0.0;
    var eps := Floor(a, b) / 2.0;
    forall start: nat
      ensures !WithinFrom(a, b, x0, 1.0, eps, start)
    {
      OutsideStays(a, b, x0, start + 1);
      assert !(-eps <= Offset(a, b, x0, 1.0, start + 1) <= eps);
    }
    assert !EventuallyWithin(a, b, x0, 1.0, eps);
    assert !DiesOut(a, b, x0, 1.0);
  }

  /** For positive gains and without the clamp, every start ends at offset 0 exactly when 2a + b < 4. */
  lemma ConvergesIff(a: real, b: real)
    requires 0.0 < a && 0.0 < b
    ensures (forall x0: real, x1: real :: DiesOut(a, b, x0, x1)) <==> 2.0 * a + b < 4.0
  {
    if 2.0 * a + b < 4.0 {
      forall x0: real, x1: real
        ensures DiesOut(a, b, x0, x1)
      {
        InsideDiesOut(a, b, x0, x1);
      }
    } else {
      OutsideDoesNotDie(a, b);
    }
  }

  /** Offset and learned frequency are both within eps of what they should be. */
  ghost predicate Near(p: Plant, s: Loop, eps: real) {
    -eps <= s.x <= eps && -eps <= s.drift - p.error <= eps
  }

  ghost predicate NearFrom(p: Plant, s: Loop, eps: real, start: nat) {
    forall n: nat :: n >= start ==> Near(p, After(p, s, n), eps)
  }

  ghost predicate EventuallyNear(p: Plant, s: Loop, eps: real) {
    exists start: nat :: NearFrom(p, s, eps, start)
  }

  ghost predicate Settles(p: Plant, s: Loop) {
    forall eps: real :: eps > 0.0 ==> EventuallyNear(p, s, eps)
  }

  /** What is left of the learned frequency's error moves the offset. */
  lemma LearnedError(p: Plant, s: Loop)
    requires Unsaturated(p, s)
    ensures Times(p.interval, Next(p, s).drift - p.error) == s.x - Next(p, s).x - Times(A(p), s.x)
  {
    NextUnsaturated(p, s);
    var t, y := p.interval, s.drift + p.ki * s.x - p.error;
    var w := p.kp * s.x;
    assert t * (p.error - (w + s.drift + p.ki * s.x)) == -(t * y) - t * w;
    assert t * w == A(p) * s.x;
  }

  lemma AtMostTwice(a: real, x: real, top: real)
    requires 0.0 < a < 2.0 && x <= top && 0.0 <= top
    ensures a * x <= 2.0 * top
  {
    var rest := 2.0 - a;
    Nonnegative(a, top - x);
    Nonnegative(rest, top);
    assert a * (top - x) == a * top - a * x;
    assert rest * top == 2.0 * top - a * top;
  }

  lemma Doubles(a: real, x: real, small: real)
    requires 0.0 < a < 2.0 && -small <= x <= small
    ensures -2.0 * small <= Times(a, x) <= 2.0 * small
  {
    AtMostTwice(a, x, small);
    AtMostTwice(a, -x, small);
    assert a * (-x) == -(a * x);
  }

  lemma Unscaled(k: real, y: real, eps: real)
    requires k > 0.0 && -Times(k, eps) <= Times(k, y) <= Times(k, eps)
    ensures -eps <= y <= eps
  {
    Cancel(k, y, eps);
    assert k * (-eps) == -(k * eps);
    Cancel(k, -eps, y);
  }

  lemma SmallOffsetsLearn(p: Plant, s: Loop, small: real, eps: real)
    requires Unsaturated(p, s) && p.interval > 0.0 && 0.0 < A(p) < 2.0
    requires small <= eps && 4.0 * small <= Times(p.interval, eps)
    requires -small <= s.x <= small && -small <= Next(p, s).x <= small
    ensures Near(p, Next(p, s), eps)
  {
    LearnedError(p, s);
    Doubles(A(p), s.x, small);
    Unscaled(p.interval, Next(p, s).drift - p.error, eps);
  }

  lemma SmallEnough(interval: real, eps: real) returns (small: real)
    requires interval > 0.0 && eps > 0.0
    ensures 0.0 < small <= eps && 4.0 * small <= Times(interval, eps)
  {
    Product(interval, eps, interval * eps);
    var quarter := interval * eps / 4.0;
    small := if quarter < eps then quarter else eps;
  }

  lemma StepNear(p: Plant, s: Loop, small: real, eps: real, n: nat)
    requires p.interval > 0.0 && 0.0 < A(p) < 2.0 && NeverSaturates(p, s)
    requires small <= eps && 4.0 * small <= Times(p.interval, eps)
    requires var x1 := Next(p, s).x;
             && -small <= Offset(A(p), B(p), s.x, x1, n) <= small
             && -small <= Offset(A(p), B(p), s.x, x1, n + 1) <= small
    ensures Near(p, After(p, s, n + 1), eps)
  {
    LoopOffsets(p, s, n);
    LoopOffsets(p, s, n + 1);
    assert Unsaturated(p, After(p, s, n));
    SmallOffsetsLearn(p, After(p, s, n), small, eps);
  }

  /** A loop inside the border that is never clamped brings the offset to 0 and learns the clock's error. */
  lemma InsideSettles(p: Plant, s: Loop)
    requires p.interval > 0.0 && 0.0 < A(p) && 0.0 < B(p) && 2.0 * A(p) + B(p) < 4.0
    requires NeverSaturates(p, s)
    ensures Settles(p, s)
  {
    forall eps: real | eps > 0.0
      ensures EventuallyNear(p, s, eps)
    {
      var small := SmallEnough(p.interval, eps);
      var x1 := Next(p, s).x;
      InsideDiesOut(A(p), B(p), s.x, x1);
      assert EventuallyWithin(A(p), B(p), s.x, x1, small);
      var start: nat :| WithinFrom(A(p), B(p), s.x, x1, small, start);
      forall n: nat | n >= start + 1
        ensures Near(p, After(p, s, n), eps)
      {
        StepNear(p, s, small, eps, n - 1);
      }
      assert NearFrom(p, s, eps, start + 1);
    }
  }

  // ---- Starts that are never clamped -----------------------------------------------------------

  function FreeAfter(p: Plant, s: Loop, n: nat): Loop {
    if n == 0 then s else Loop(FreeOffset(p, FreeAfter(p, s, n - 1)), FreeDrift(p, FreeAfter(p, s, n - 1)))
  }

  lemma {:induction false} FreeOffsets(p: Plant, s: Loop, n: nat)
    ensures FreeAfter(p, s, n).x == Offset(A(p), B(p), s.x, FreeOffset(p, s), n)
  {
    if n == 1 {
      assert FreeAfter(p, s, 0) == s;
    } else if n > 1 {
      FreeOffsets(p, s, n - 1);
      FreeOffsets(p, s, n - 2);
      FreeRecurrence(p, FreeAfter(p, s, n - 2), FreeAfter(p, s, n - 1));
    }
  }

  /** The output is what moves the offset, beside the clock's own error: small offsets need no large outputs. */
  lemma SmallStepsUnclamped(p: Plant, s: Loop, m: real)
    requires p.interval > 0.0 && Servo.AbsReal(p.error) + 2.0 * m / p.interval <= p.limit
    requires -m <= s.x <= m && -m <= FreeOffset(p, s) <= m
    ensures Unsaturated(p, s)
  {
    var u := p.kp * s.x + s.drift + p.ki * s.x;
    var q := 2.0 * m / p.interval;
    assert p.interval * q == 2.0 * m;
    assert FreeOffset(p, s) - s.x == p.interval * (p.error - u);
    assert p.interval * (-q) == -(p.interval * q);
    Unscaled(p.interval, p.error - u, q);
    FullWeight(p.kp, s.x);
    FullWeight(p.ki, s.x);
  }

  lemma {:induction false} StaysFree(p: Plant, s: Loop, m: real, n: nat)
    requires p.interval > 0.0 && Servo.AbsReal(p.error) + 2.0 * m / p.interval <= p.limit
    requires Within(A(p), B(p), s.x, FreeOffset(p, s), m)
    ensures After(p, s, n) == FreeAfter(p, s, n) && Unsaturated(p, After(p, s, n))
  {
    if n > 0 {
      StaysFree(p, s, m, n - 1);
      NextUnsaturated(p, After(p, s, n - 1));
    }
    FreeOffsets(p, s, n);
    FreeOffsets(p, s, n + 1);
    assert -m <= Offset(A(p), B(p), s.x, FreeOffset(p, s), n) <= m;
    assert -m <= Offset(A(p), B(p), s.x, FreeOffset(p, s), n + 1) <= m;
    SmallStepsUnclamped(p, FreeAfter(p, s, n), m);
  }

  /** If the loop without the clamp keeps its offsets within m, an output limit of |error| + 2m / interval is enough. */
  lemma WithinNeverSaturates(p: Plant, s: Loop, m: real)
    requires p.interval > 0.0 && Servo.AbsReal(p.error) + 2.0 * m / p.interval <= p.limit
    requires Within(A(p), B(p), s.x, FreeOffset(p, s), m)
    ensures NeverSaturates(p, s)
  {
    forall n: nat
      ensures Unsaturated(p, After(p, s, n))
    {
      StaysFree(p, s, m, n);
    }
  }

  /** Whether the limit leaves room for every output, judged by the first two offsets. */
  predicate StartLeavesRoom(p: Plant, s: Loop) {
    && p.interval > 0.0 && 0.0 < A(p) && 0.0 < B(p) && 2.0 * A(p) + B(p) < 4.0
    && Servo.AbsReal(p.error) + 2.0 * StartBound(A(p), B(p), s.x, FreeOffset(p, s)) / p.interval <= p.limit
  }

  /** Such a start is never clamped, brings the offset to 0 and learns the clock's error. */
  lemma RoomySettles(p: Plant, s: Loop)
    requires StartLeavesRoom(p, s)
    ensures NeverSaturates(p, s) && Settles(p, s)
  {
    var x1 := FreeOffset(p, s);
    InsideWithin(A(p), B(p), s.x, x1);
    WithinNeverSaturates(p, s, StartBound(A(p), B(p), s.x, x1));
    InsideSettles(p, s);
  }

  // ---- What the caps on a user's gains leave open ----------------------------------------------

  /** With these gains every loop that is never clamped settles, whatever the clock and the limit. */
  ghost predicate UnclampedAlwaysSettle(kp: real, ki: real, interval: real) {
    forall p: Plant, s: Loop ::
      p.kp == kp && p.ki == ki && p.interval == interval && NeverSaturates(p, s) ==> Settles(p, s)
  }

  /** On the border, a perfect clock with limit 2 / interval can swing between -1 and 1 for ever. */
  lemma BorderSwings(p: Plant, s: Loop)
    requires p.interval > 0.0 && 0.0 < A(p) && 0.0 < B(p) && 2.0 * A(p) + B(p) == 4.0
    requires p.error == 0.0 && p.limit == 2.0 / p.interval && s == Loop(-1.0, (A(p) + B(p) - 2.0) / p.interval)
    ensures NeverSaturates(p, s) && !Settles(p, s)
  {
    BorderStart(p, s);
    forall n: nat
      ensures -1.0 <= Offset(A(p), B(p), -1.0, 1.0, n) <= 1.0
    {
      BorderAlternates(A(p), B(p), n);
    }
    assert Within(A(p), B(p), s.x, FreeOffset(p, s), 1.0);
    WithinNeverSaturates(p, s, 1.0);
    forall start: nat
      ensures !NearFrom(p, s, 0.5, start)
    {
      StaysFree(p, s, 1.0, start);
      FreeOffsets(p, s, start);
      BorderAlternates(A(p), B(p), start);
      assert !Near(p, After(p, s, start), 0.5);
    }
    assert !EventuallyNear(p, s, 0.5);
  }

  lemma BorderStart(p: Plant, s: Loop)
    requires p.interval > 0.0 && p.error == 0.0 && s == Loop(-1.0, (A(p) + B(p) - 2.0) / p.interval)
    ensures FreeOffset(p, s) == 1.0
  {
    assert p.interval * s.drift == A(p) + B(p) - 2.0;
    assert p.interval * (0.0 - (p.kp * -1.0 + s.drift + p.ki * -1.0)) == A(p) + B(p) - p.interval * s.drift;
  }

  lemma UnclampedSettlesIff(kp: real, ki: real, interval: real)
    requires interval > 0.0 && 0.0 < interval * kp && 0.0 < interval * ki
    requires 2.0 * (interval * kp) + interval * ki <= 4.0
    ensures UnclampedAlwaysSettle(kp, ki, interval) <==> 2.0 * (interval * kp) + interval * ki < 4.0
  {
    if 2.0 * (interval * kp) + interval * ki < 4.0 {
      forall p: Plant, s: Loop | p.kp == kp && p.ki == ki && p.interval == interval && NeverSaturates(p, s)
        ensures Settles(p, s)
      {
        InsideSettles(p, s);
      }
    } else {
      var p := Plant(kp, ki, interval, 0.0, 2.0 / interval);
      BorderSwings(p, Loop(-1.0, (A(p) + B(p) - 2.0) / interval));
    }
  }

  /** The caps on a user's gains make every loop that is never clamped settle, exactly unless both of them bind. */
  lemma UnclampedUserGainsSettle(cfg: PiServo.State, kp: real, ki: real, g: PiServo.Gains, swTs: bool, interval: real)
    requires kp > 0.0 && ki > 0.0 && interval > 0.0
    requires cfg.gains == PiServo.Configured(kp, ki, swTs, g)
    ensures var pi := PiServo.AfterSyncInterval(cfg, interval, 1.0, 1.0);
            UnclampedAlwaysSettle(pi.kp, pi.ki, interval)
            <==> kp * interval < PiServo.MAX_KP_NORM_MAX || ki * interval < PiServo.MAX_KI_NORM_MAX
  {
    var pi := PiServo.AfterSyncInterval(cfg, interval, 1.0, 1.0);
    PiServo.GainsAreCapped(cfg, interval, 1.0, 1.0);
    CappedPositive(kp, PiServo.MAX_KP_NORM_MAX, interval);
    CappedPositive(ki, PiServo.MAX_KI_NORM_MAX, interval);
    CapBinds(kp, PiServo.MAX_KP_NORM_MAX, interval);
    CapBinds(ki, PiServo.MAX_KI_NORM_MAX, interval);
    UnclampedSettlesIff(pi.kp, pi.ki, interval);
  }

  lemma CapBinds(gain: real, normMax: real, interval: real)
    requires gain > 0.0 && normMax > 0.0 && interval > 0.0
    ensures interval * PiServo.Capped(gain * 1.0, normMax, interval) < normMax <==> gain * interval < normMax
  {
    var cap := normMax / interval;
    assert interval * cap == normMax;
    Compare(gain, cap, interval);
  }
}
