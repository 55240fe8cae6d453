/** Weighted least squares over the reals: what the sums in servo/linreg/linreg.c compute, and why it is the best
    fit. */
module LeastSquares {
  import opened Reals

  datatype Point = Point(x: real, y: real, w: real)

  datatype Sums = Sums(x: real, y: real, xy: real, x2: real, w: real)

  const NO_SUMS := Sums(0.0, 0.0, 0.0, 0.0, 0.0)

  function Accumulate(s: Sums, p: Point): Sums {
    Sums(s.x + p.x * p.w, s.y + p.y * p.w, s.xy + p.x * p.y * p.w, s.x2 + p.x * p.x * p.w, s.w + p.w)
  }

  /** The weighted sums over exactly the points ps. */
  function SumsOf(ps: seq<Point>): Sums {
    if ps == [] then NO_SUMS else Accumulate(SumsOf(ps[..|ps| - 1]), ps[|ps| - 1])
  }

  /** The determinant-like denominator of the slope. */
  function Spread(s: Sums): real
    requires s.w != 0.0
  {
    s.x2 - s.x * s.x / s.w
  }

  function Slope(s: Sums): real
    requires s.w != 0.0 && Spread(s) != 0.0
  {
    (s.xy - s.x * s.y / s.w) / Spread(s)
  }

  function Intercept(s: Sums, slope: real): real
    requires s.w != 0.0
  {
    (s.y - slope * s.x) / s.w
  }

  // ---- The quantities that are minimised ----------------------------------------------------

  function Residual(p: Point, slope: real, intercept: real): real {
    p.y - slope * p.x - intercept
  }

  function Penalty(w: real, v: real): real {
    w * (v * v)
  }

  /** The weighted sum of squared residuals of a line. */
  function SquaredError(ps: seq<Point>, slope: real, intercept: real): real {
    if ps == [] then 0.0
    else
      var p := ps[|ps| - 1];
      SquaredError(ps[..|ps| - 1], slope, intercept) + Penalty(p.w, Residual(p, slope, intercept))
  }

  function At(a: real, b: real, x: real): real {
    a * x + b
  }

  /** The weighted sum of squares of a * x + b. */
  function Square(ps: seq<Point>, a: real, b: real): real {
    if ps == [] then 0.0
    else
      var p := ps[|ps| - 1];
      Square(ps[..|ps| - 1], a, b) + Penalty(p.w, At(a, b, p.x))
  }

  ghost predicate Weighted(ps: seq<Point>) {
    forall i :: 0 <= i < |ps| ==> ps[i].w > 0.0
  }

  /** At least two points, all at different x. */
  ghost predicate Spreads(ps: seq<Point>) {
    && |ps| >= 2 && Weighted(ps)
    && forall i, j :: 0 <= i < j < |ps| ==> ps[i].x != ps[j].x
  }

  /** The line is the only minimiser of the squared error over all real lines. */
  ghost predicate IsBestFit(ps: seq<Point>, slope: real, intercept: real) {
    forall a: real, b: real {:trigger SquaredError(ps, a, b)} ::
      && SquaredError(ps, slope, intercept) <= SquaredError(ps, a, b)
      && (SquaredError(ps, slope, intercept) == SquaredError(ps, a, b) ==> a == slope && b == intercept)
  }

  // ---- Expansions ---------------------------------------------------------------------------

  lemma SquareSign(v: real, q: real)
    requires q == v * v
    ensures q >= 0.0
    ensures v != 0.0 ==> q > 0.0
  {
    var u := if v < 0.0 then -v else v;
    assert q == u * u;
    if u > 0.0 {
      PositiveProduct(u, u, q);
    }
  }

  lemma PenaltySign(w: real, v: real)
    requires w > 0.0
    ensures Penalty(w, v) >= 0.0
    ensures v != 0.0 ==> Penalty(w, v) > 0.0
  {
    var q := v * v;
    SquareSign(v, q);
    PositiveProduct(w, q, Penalty(w, v));
  }

  lemma PositiveProduct(w: real, q: real, r: real)
    requires w > 0.0 && q >= 0.0 && r == w * q
    ensures r >= 0.0
    ensures q > 0.0 ==> r > 0.0
  {
  }

  function PointMoments(p: Point, i: real, j: real, k: real): real {
    i * (p.x * p.x * p.w) + j * (p.x * p.w) + k * p.w
  }

  lemma PenaltyExpands(p: Point, a: real, b: real, i: real, j: real, k: real)
    requires i == a * a && j == 2.0 * a * b && k == b * b
    ensures Penalty(p.w, At(a, b, p.x)) == PointMoments(p, i, j, k)
  {
    var w, x := p.w, p.x;
    var v := a * x + b;
    assert v * v == (a * x) * (a * x) + 2.0 * (a * x) * b + b * b;
    assert (a * x) * (a * x) == i * (x * x);
    assert 2.0 * (a * x) * b == j * x;
    assert w * (i * (x * x)) == i * (x * x * w);
    assert w * (j * x) == j * (x * w);
  }

  lemma {:induction false} SquareExpands(ps: seq<Point>, a: real, b: real, i: real, j: real, k: real)
    requires i == a * a && j == 2.0 * a * b && k == b * b
    ensures Square(ps, a, b) == Moments(SumsOf(ps), i, j, k)
  {
    if ps != [] {
      var before, p := ps[..|ps| - 1], ps[|ps| - 1];
      SquareExpands(before, a, b, i, j, k);
      PenaltyExpands(p, a, b, i, j, k);
      MomentsAdd(SumsOf(before), p, i, j, k);
    }
  }

  lemma MomentsAdd(s: Sums, p: Point, i: real, j: real, k: real)
    ensures Moments(Accumulate(s, p), i, j, k) == Moments(s, i, j, k) + PointMoments(p, i, j, k)
  {
    Distributes(i, s.x2, p.x * p.x * p.w);
    Distributes(j, s.x, p.x * p.w);
    Distributes(k, s.w, p.w);
  }

  function Moments(s: Sums, i: real, j: real, k: real): real {
    i * s.x2 + j * s.x + k * s.w
  }

  lemma {:induction false} SquareAtLeastZero(ps: seq<Point>, a: real, b: real)
    requires Weighted(ps)
    ensures Square(ps, a, b) >= 0.0
  {
    if ps != [] {
      SquareAtLeastZero(ps[..|ps| - 1], a, b);
      PenaltySign(ps[|ps| - 1].w, At(a, b, ps[|ps| - 1].x));
    }
  }

  lemma {:induction false} SquarePositive(ps: seq<Point>, a: real, b: real, i: nat)
    requires Weighted(ps) && i < |ps| && At(a, b, ps[i].x) != 0.0
    ensures Square(ps, a, b) > 0.0
  {
    var before, p := ps[..|ps| - 1], ps[|ps| - 1];
    PenaltySign(p.w, At(a, b, p.x));
    if i < |before| {
      SquarePositive(before, a, b, i);
    } else {
      SquareAtLeastZero(before, a, b);
    }
  }

  lemma OneZero(a: real, b: real, u: real, v: real)
    requires u != v && (a != 0.0 || b != 0.0)
    ensures At(a, b, u) != 0.0 || At(a, b, v) != 0.0
  {
    assert (a * u + b) - (a * v + b) == a * (u - v);
  }

  /** A line other than 0 vanishes at no more than one x. */
  lemma SpreadSquarePositive(ps: seq<Point>, a: real, b: real)
    requires Spreads(ps) && (a != 0.0 || b != 0.0)
    ensures Square(ps, a, b) > 0.0
  {
    OneZero(a, b, ps[0].x, ps[1].x);
    SquarePositive(ps, a, b, if At(a, b, ps[0].x) != 0.0 then 0 else 1);
  }

  /** Strict Cauchy-Schwarz: neither division of the regression can fail. */
  lemma DenominatorsPositive(ps: seq<Point>)
    requires Spreads(ps)
    ensures SumsOf(ps).w > 0.0
    ensures Spread(SumsOf(ps)) > 0.0
  {
    var s := SumsOf(ps);
    SpreadSquarePositive(ps, 0.0, 1.0);
    SquareExpands(ps, 0.0, 1.0, 0.0, 0.0, 1.0);
    assert s.w > 0.0;
    var m := s.x / s.w;
    SpreadSquarePositive(ps, 1.0, -m);
    SquareExpands(ps, 1.0, -m, 1.0, -2.0 * m, m * m);
    SpreadIs(s, m);
  }

  lemma SpreadIs(s: Sums, m: real)
    requires s.w > 0.0 && m == s.x / s.w
    ensures Spread(s) == Moments(s, 1.0, -2.0 * m, m * m)
  {
    assert m * s.w == s.x;
    assert m * m * s.w == m * (m * s.w);
    assert s.x * s.x / s.w == s.x * m;
  }

  // ---- Optimality ---------------------------------------------------------------------------

  function Pair(w: real, r: real, v: real): real {
    w * (r * v)
  }

  /** The weighted sum of residual times (a * x + b). */
  function Cross(ps: seq<Point>, slope: real, intercept: real, a: real, b: real): real {
    if ps == [] then 0.0
    else
      var p := ps[|ps| - 1];
      Cross(ps[..|ps| - 1], slope, intercept, a, b) + Pair(p.w, Residual(p, slope, intercept), At(a, b, p.x))
  }

  /** What is left of the two normal equations, for sums and for one point. */
  function Normal1(s: Sums, slope: real, intercept: real): real {
    s.xy - slope * s.x2 - intercept * s.x
  }

  function Normal2(s: Sums, slope: real, intercept: real): real {
    s.y - slope * s.x - intercept * s.w
  }

  lemma NormalAdds(s: Sums, p: Point, slope: real, intercept: real)
    ensures Normal1(Accumulate(s, p), slope, intercept)
         == Normal1(s, slope, intercept) + Residual(p, slope, intercept) * p.w * p.x
    ensures Normal2(Accumulate(s, p), slope, intercept)
         == Normal2(s, slope, intercept) + Residual(p, slope, intercept) * p.w
  {
    var r := Residual(p, slope, intercept);
    assert r * p.w == p.y * p.w - slope * (p.x * p.w) - intercept * p.w;
    assert r * p.w * p.x == p.x * p.y * p.w - slope * (p.x * p.x * p.w) - intercept * (p.x * p.w);
    Distributes(slope, s.x2, p.x * p.x * p.w);
    Distributes(slope, s.x, p.x * p.w);
    Distributes(intercept, s.x, p.x * p.w);
    Distributes(intercept, s.w, p.w);
  }

  lemma {:induction false} CrossExpands(ps: seq<Point>, slope: real, intercept: real, a: real, b: real)
    ensures Cross(ps, slope, intercept, a, b)
         == a * Normal1(SumsOf(ps), slope, intercept) + b * Normal2(SumsOf(ps), slope, intercept)
  {
    if ps != [] {
      var before, p := ps[..|ps| - 1], ps[|ps| - 1];
      var s, r := SumsOf(before), Residual(p, slope, intercept);
      CrossExpands(before, slope, intercept, a, b);
      NormalAdds(s, p, slope, intercept);
      CrossTerm(p.w, r, a, p.x, b);
      Distributes(a, Normal1(s, slope, intercept), r * p.w * p.x);
      Distributes(b, Normal2(s, slope, intercept), r * p.w);
    }
  }

  lemma CrossTerm(w: real, r: real, a: real, x: real, b: real)
    ensures Pair(w, r, At(a, b, x)) == a * (r * w * x) + b * (r * w)
  {
    assert r * (a * x + b) == a * (r * x) + b * r;
  }

  /** The error of another line is the error of this one, a cross term and the square of their difference. */
  lemma {:induction false} ErrorSplits(ps: seq<Point>, slope: real, intercept: real, a: real, b: real)
    ensures SquaredError(ps, slope - a, intercept - b)
         == SquaredError(ps, slope, intercept) + 2.0 * Cross(ps, slope, intercept, a, b) + Square(ps, a, b)
  {
    if ps != [] {
      var p := ps[|ps| - 1];
      ErrorSplits(ps[..|ps| - 1], slope, intercept, a, b);
      ResidualSplits(p, slope, intercept, a, b);
    }
  }

  lemma ResidualSplits(p: Point, slope: real, intercept: real, a: real, b: real)
    ensures var r, v, t := Residual(p, slope, intercept), At(a, b, p.x), Residual(p, slope - a, intercept - b);
            Penalty(p.w, t) == Penalty(p.w, r) + 2.0 * Pair(p.w, r, v) + Penalty(p.w, v)
  {
    var r, v := Residual(p, slope, intercept), At(a, b, p.x);
    assert (slope - a) * p.x == slope * p.x - a * p.x;
    assert Residual(p, slope - a, intercept - b) == r + v;
    assert (r + v) * (r + v) == r * r + 2.0 * (r * v) + v * v;
    assert p.w * (r * r + 2.0 * (r * v) + v * v) == p.w * (r * r) + 2.0 * (p.w * (r * v)) + p.w * (v * v);
  }

  /** The computed slope and intercept solve the normal equations. */
  lemma NormalEquations(s: Sums)
    requires s.w > 0.0 && Spread(s) > 0.0
    ensures var slope := Slope(s); var intercept := Intercept(s, slope);
            Normal1(s, slope, intercept) == 0.0 && Normal2(s, slope, intercept) == 0.0
  {
    var slope := Slope(s);
    var intercept := Intercept(s, slope);
    var u := s.x / s.w;
    assert u * s.w == s.x && intercept * s.w == s.y - slope * s.x;
    assert s.x * s.x / s.w == s.x * u && s.x * s.y / s.w == s.y * u;
    assert slope * (s.x2 - s.x * u) == s.xy - s.y * u;
    assert intercept * s.x == (intercept * s.w) * u;
    assert (s.y - slope * s.x) * u == s.y * u - slope * (s.x * u);
    assert slope * (s.x2 - s.x * u) == slope * s.x2 - slope * (s.x * u);
  }

  /** The computed line is the unique minimiser of the weighted squared error over all pairs of reals. */
  lemma RegressionIsBestFit(ps: seq<Point>)
    requires Spreads(ps)
    ensures SumsOf(ps).w > 0.0 && Spread(SumsOf(ps)) > 0.0
    ensures IsBestFit(ps, Slope(SumsOf(ps)), Intercept(SumsOf(ps), Slope(SumsOf(ps))))
  {
    DenominatorsPositive(ps);
    NormalEquations(SumsOf(ps));
    var slope := Slope(SumsOf(ps));
    var intercept := Intercept(SumsOf(ps), slope);
    forall a: real, b: real {:trigger SquaredError(ps, a, b)}
      ensures SquaredError(ps, slope, intercept) <= SquaredError(ps, a, b)
      ensures SquaredError(ps, slope, intercept) == SquaredError(ps, a, b) ==> a == slope && b == intercept
    {
      var da, db := slope - a, intercept - b;
      ErrorSplits(ps, slope, intercept, da, db);
      CrossExpands(ps, slope, intercept, da, db);
      assert SquaredError(ps, a, b) == SquaredError(ps, slope, intercept) + Square(ps, da, db);
      SquareAtLeastZero(ps, da, db);
      if da != 0.0 || db != 0.0 {
        SpreadSquarePositive(ps, da, db);
      }
    }
  }

  lemma BestFitIsUnique(ps: seq<Point>, a: real, b: real, a': real, b': real)
    requires IsBestFit(ps, a, b) && IsBestFit(ps, a', b')
    ensures a == a' && b == b'
  {
    assert SquaredError(ps, a, b) <= SquaredError(ps, a', b');
  }

  // ---- Exact data and moving frames ---------------------------------------------------------

  ghost predicate OnLine(ps: seq<Point>, slope: real, intercept: real) {
    forall i :: 0 <= i < |ps| ==> ps[i].y == slope * ps[i].x + intercept
  }

  lemma {:induction false} OnLineNoError(ps: seq<Point>, slope: real, intercept: real)
    requires OnLine(ps, slope, intercept)
    ensures SquaredError(ps, slope, intercept) == 0.0
  {
    if ps != [] {
      OnLineNoError(ps[..|ps| - 1], slope, intercept);
      assert Residual(ps[|ps| - 1], slope, intercept) == 0.0;
    }
  }

  lemma {:induction false} ErrorNonNegative(ps: seq<Point>, slope: real, intercept: real)
    requires Weighted(ps)
    ensures SquaredError(ps, slope, intercept) >= 0.0
  {
    if ps != [] {
      ErrorNonNegative(ps[..|ps| - 1], slope, intercept);
      PenaltySign(ps[|ps| - 1].w, Residual(ps[|ps| - 1], slope, intercept));
    }
  }

  /** Points on a line give back that line. */
  lemma LineIsRecovered(ps: seq<Point>, slope: real, intercept: real)
    requires Spreads(ps) && OnLine(ps, slope, intercept)
    ensures SumsOf(ps).w > 0.0 && Spread(SumsOf(ps)) > 0.0
    ensures Slope(SumsOf(ps)) == slope && Intercept(SumsOf(ps), slope) == intercept
  {
    RegressionIsBestFit(ps);
    OnLineNoError(ps, slope, intercept);
    ErrorNonNegative(ps, Slope(SumsOf(ps)), Intercept(SumsOf(ps), Slope(SumsOf(ps))));
    assert SquaredError(ps, slope, intercept) == 0.0;
  }

  /** qs are the points ps seen from an origin moved by (dx, dy). */
  ghost predicate Moved(ps: seq<Point>, qs: seq<Point>, dx: real, dy: real) {
    && |ps| == |qs|
    && forall i :: 0 <= i < |ps| ==> qs[i] == Point(ps[i].x - dx, ps[i].y - dy, ps[i].w)
  }

  lemma {:induction false} MovedError(ps: seq<Point>, qs: seq<Point>, dx: real, dy: real, slope: real, intercept: real)
    requires Moved(ps, qs, dx, dy)
    ensures SquaredError(qs, slope, intercept + dx * slope - dy) == SquaredError(ps, slope, intercept)
  {
    if ps != [] {
      var p, q := ps[|ps| - 1], qs[|qs| - 1];
      MovedError(ps[..|ps| - 1], qs[..|qs| - 1], dx, dy, slope, intercept);
      assert slope * (p.x - dx) == slope * p.x - slope * dx;
      assert Residual(q, slope, intercept + dx * slope - dy) == Residual(p, slope, intercept);
    }
  }

  /** Moving the origin moves the best fit along with the points. */
  lemma MovedBestFit(ps: seq<Point>, qs: seq<Point>, dx: real, dy: real, slope: real, intercept: real, moved: real)
    requires Moved(ps, qs, dx, dy) && IsBestFit(ps, slope, intercept) && moved == intercept + dx * slope - dy
    ensures IsBestFit(qs, slope, moved)
  {
    MovedError(ps, qs, dx, dy, slope, intercept);
    forall a: real, b: real {:trigger SquaredError(qs, a, b)}
      ensures SquaredError(qs, slope, moved) <= SquaredError(qs, a, b)
      ensures SquaredError(qs, slope, moved) == SquaredError(qs, a, b) ==> a == slope && b == moved
    {
      var b' := b - dx * a + dy;
      MovedError(ps, qs, dx, dy, a, b');
      assert b' + dx * a - dy == b;
      assert SquaredError(ps, slope, intercept) <= SquaredError(ps, a, b');
    }
  }
}
