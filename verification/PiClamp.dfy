/** The closed loop of PiLoop with the clamp of the output (servo/pi/pi.c): when it stays bounded and when it comes to
    rest, from every start a tracking servo can have. */
module PiClamp {
  import opened PiLoop
  import opened PiSettle
  import opened Reals
  import PiServo
  import Servo

  // ---- One interval ---------------------------------------------------------------------------

  /** What the anti-windup keeps: the drift never leaves the limit. */
  predicate Tracks(p: Plant, s: Loop) {
    -p.limit <= s.drift <= p.limit
  }

  /** The output before the clamp. */
  function Drive(p: Plant, s: Loop): real {
    p.kp * s.x + s.drift + p.ki * s.x
  }

  /** By how much an unclamped interval lowers the offset, and the most that a clamped one can lower or raise it. */
  function Fall(p: Plant, s: Loop): real {
    p.interval * (Drive(p, s) - p.error)
  }

  function MostDown(p: Plant): real {
    p.interval * (p.limit - p.error)
  }

  function MostUp(p: Plant): real {
    p.interval * (p.limit + p.error)
  }

  predicate High(p: Plant, s: Loop) {
    Drive(p, s) > p.limit
  }

  predicate Low(p: Plant, s: Loop) {
    Drive(p, s) < -p.limit
  }

  function Gain(p: Plant): real {
    A(p) + B(p)
  }

  predicate Positive(p: Plant) {
    p.interval > 0.0 && 0.0 < A(p) && 0.0 < B(p) && p.limit > 0.0
  }

  lemma UnsaturatedIff(p: Plant, s: Loop)
    ensures Unsaturated(p, s) <==> !High(p, s) && !Low(p, s)
  {
    FullWeight(p.kp, s.x);
    FullWeight(p.ki, s.x);
    assert PiServo.Term(p.kp, s.x, 1.0) + s.drift + PiServo.Term(p.ki, s.x, 1.0) == Drive(p, s);
  }

  lemma FallIs(p: Plant, s: Loop)
    ensures Fall(p, s) == Gain(p) * s.x + p.interval * (s.drift - p.error)
  {
    var t, x := p.interval, s.x;
    assert Drive(p, s) - p.error == p.kp * x + p.ki * x + (s.drift - p.error);
    assert t * (p.kp * x + p.ki * x + (s.drift - p.error)) == t * (p.kp * x) + t * (p.ki * x) + t * (s.drift - p.error);
    assert t * (p.kp * x) == (t * p.kp) * x && t * (p.ki * x) == (t * p.ki) * x;
  }

  lemma HighIff(p: Plant, s: Loop)
    requires p.interval > 0.0
    ensures High(p, s) <==> Fall(p, s) > MostDown(p)
    ensures Low(p, s) <==> Fall(p, s) < -MostUp(p)
  {
    var t := p.interval;
    Compare(p.limit - p.error, Drive(p, s) - p.error, t);
    Compare(Drive(p, s) - p.error, -p.limit - p.error, t);
    assert (-p.limit - p.error) * t == -MostUp(p);
  }

  lemma HighStep(p: Plant, s: Loop)
    requires p.limit >= 0.0 && High(p, s)
    ensures Next(p, s) == Loop(s.x - MostDown(p), s.drift)
    ensures Fall(p, Next(p, s)) == Fall(p, s) - Gain(p) * MostDown(p)
  {
    FullWeight(p.kp, s.x);
    FullWeight(p.ki, s.x);
    assert p.interval * (p.error - p.limit) == -MostDown(p);
    FallIs(p, s);
    FallIs(p, Next(p, s));
    assert Gain(p) * (s.x - MostDown(p)) == Gain(p) * s.x - Gain(p) * MostDown(p);
  }

  lemma FreeStep(p: Plant, s: Loop)
    requires Unsaturated(p, s)
    ensures Next(p, s).x == s.x - Fall(p, s)
    ensures Fall(p, Next(p, s)) == Fall(p, s) - Times(Gain(p), Fall(p, s)) + Times(B(p), s.x)
  {
    NextUnsaturated(p, s);
    var s' := Next(p, s);
    var t := p.interval;
    assert t * (p.error - Drive(p, s)) == -Fall(p, s);
    FallIs(p, s);
    FallIs(p, s');
    assert Gain(p) * (s.x - Fall(p, s)) == Gain(p) * s.x - Gain(p) * Fall(p, s);
    assert t * (s.drift + p.ki * s.x - p.error) == t * (s.drift - p.error) + B(p) * s.x by {
      assert t * (s.drift - p.error + p.ki * s.x) == t * (s.drift - p.error) + t * (p.ki * s.x);
      assert t * (p.ki * s.x) == (t * p.ki) * s.x;
    }
  }

  lemma NextTracks(p: Plant, s: Loop)
    requires Tracks(p, s) && p.kp >= 0.0 && p.ki >= 0.0
    ensures Tracks(p, Next(p, s))
  {
    PiServo.SameSign(p.kp, p.ki, s.drift, p.limit, s.x, 1.0);
  }

  /** Turning the time line around: everything with the opposite sign. */
  function Mirror(p: Plant): Plant {
    p.(error := -p.error)
  }

  function Mirrored(s: Loop): Loop {
    Loop(-s.x, -s.drift)
  }

  lemma MirrorDrive(p: Plant, s: Loop)
    ensures Drive(Mirror(p), Mirrored(s)) == -Drive(p, s)
    ensures Fall(Mirror(p), Mirrored(s)) == -Fall(p, s)
  {
    assert p.kp * (-s.x) == -(p.kp * s.x) && p.ki * (-s.x) == -(p.ki * s.x);
    assert p.interval * (-(Drive(p, s) - p.error)) == -(p.interval * (Drive(p, s) - p.error));
  }

  /** The control law on the two products of the offset with the gains. */
  function Response(proportional: real, integral: real, drift: real, limit: real): (real, real) {
    var ppb := proportional + drift + integral;
    if ppb < -limit then (-limit, drift)
    else if ppb > limit then (limit, drift)
    else (ppb, drift + integral)
  }

  lemma ControlResponds(kp: real, ki: real, drift: real, limit: real, x: real, proportional: real, integral: real)
    requires proportional == kp * x && integral == ki * x
    ensures PiServo.Control(kp, ki, drift, limit, x, 1.0) == Response(proportional, integral, drift, limit)
  {
    FullWeight(kp, x);
    FullWeight(ki, x);
  }

  lemma ResponseMirrors(proportional: real, integral: real, drift: real, limit: real)
    requires limit >= 0.0
    ensures var (ppb, drift') := Response(proportional, integral, drift, limit);
            Response(-proportional, -integral, -drift, limit) == (-ppb, -drift')
  {
  }

  lemma MirrorControl(p: Plant, s: Loop)
    requires p.limit >= 0.0
    ensures var (ppb, drift) := PiServo.Control(p.kp, p.ki, s.drift, p.limit, s.x, 1.0);
            PiServo.Control(p.kp, p.ki, -s.drift, p.limit, -s.x, 1.0) == (-ppb, -drift)
  {
    var proportional, integral := p.kp * s.x, p.ki * s.x;
    assert p.kp * (-s.x) == -proportional && p.ki * (-s.x) == -integral;
    ControlResponds(p.kp, p.ki, s.drift, p.limit, s.x, proportional, integral);
    ControlResponds(p.kp, p.ki, -s.drift, p.limit, -s.x, -proportional, -integral);
    ResponseMirrors(proportional, integral, s.drift, p.limit);
  }

  lemma MirrorStep(p: Plant, s: Loop)
    requires p.limit >= 0.0
    ensures Next(Mirror(p), Mirrored(s)) == Mirrored(Next(p, s))
  {
    MirrorControl(p, s);
    var ppb := PiServo.Control(p.kp, p.ki, s.drift, p.limit, s.x, 1.0).0;
    assert p.interval * (-p.error - (-ppb)) == -(p.interval * (p.error - ppb));
  }

  // ---- The quadratic form, with the clamp -----------------------------------------------------

  /** V of an offset and the one an unclamped interval would lead to. */
  function W(a: real, b: real, x: real, v: real): real {
    V(a, b, x - v, x)
  }

  /** The form in a state of the loop. */
  function StateLevel(p: Plant, s: Loop): real {
    Level(A(p), B(p), s.x, Fall(p, s))
  }

  /** The same form as a sum of two squares. */
  function Squares(b: real, e: real, r: real, v: real): real {
    0.5 * (b * (r * r) + e * (v * v))
  }

  function Level(a: real, b: real, x: real, v: real): real {
    Squares(b, 4.0 - 2.0 * a - b, 2.0 * x - v, v)
  }

  lemma WSquares(a: real, b: real, x: real, v: real)
    ensures W(a, b, x, v) == Level(a, b, x, v)
  {
    var u, e := x - v, 4.0 - 2.0 * a - b;
    var p, q := (u + x) * (u + x), (u - x) * (u - x);
    assert u * u + x * x == 0.5 * (p + q) && u * x == 0.25 * (p - q);
    assert u - x == -v && q == v * v;
    TwoSquares(a, b, p, q);
  }

  lemma TwoSquares(a: real, b: real, p: real, q: real)
    ensures (2.0 - a) * (0.5 * (p + q)) - 2.0 * (2.0 - a - b) * (0.25 * (p - q))
         == 0.5 * (b * p + (4.0 - 2.0 * a - b) * q)
  {
    assert (2.0 - a) * p - (2.0 - a - b) * p == b * p;
    assert (2.0 - a) * q + (2.0 - a - b) * q == (4.0 - 2.0 * a - b) * q;
  }

  lemma SquareMoves(k: real, r: real, s: real)
    ensures k * ((r - s) * (r - s)) == k * (r * r) - 2.0 * k * (s * r) + k * (s * s)
  {
    assert (r - s) * (r - s) == r * r - 2.0 * (s * r) + s * s;
  }

  /** What two squares lose when both are moved. */
  function Moved(b: real, e: real, r: real, v: real, s: real, t: real): real {
    b * (s * r) + e * (t * v) - 0.5 * (b * (s * s) + e * (t * t))
  }

  lemma SquaresMove(b: real, e: real, r: real, v: real, s: real, t: real)
    ensures Squares(b, e, r - s, v - t) == Squares(b, e, r, v) - Moved(b, e, r, v, s, t)
  {
    SquareMoves(b, r, s);
    SquareMoves(e, v, t);
  }

  function Stiffness(a: real, b: real): real {
    b + a * (2.0 - a - b)
  }

  /** What a clamped interval takes from V, with products of q, the step that is left, and of the offset and the excess
      over q that the servo wanted. */
  function Loss(a: real, b: real, xq: real, excess: real, qq: real): real {
    OffsetLoss(a, b, xq) + StiffLoss(a, b, excess) + SquareLoss(a, b, qq)
  }

  function OffsetLoss(a: real, b: real, xq: real): real {
    2.0 * (b * (2.0 - a - b)) * xq
  }

  function StiffLoss(a: real, b: real, excess: real): real {
    2.0 * Stiffness(a, b) * excess
  }

  function SquareLoss(a: real, b: real, qq: real): real {
    a * Square(2.0 - a - b) * qq
  }

  lemma Coefficients(a: real, b: real, c: real, m: real, e: real)
    requires c == a + b && m == 2.0 - a - b && e == 4.0 - 2.0 * a - b
    ensures e * c - b * m == 2.0 * Stiffness(a, b)
    ensures 0.5 * (b * (m * m) + e * (c * c)) == 2.0 * Stiffness(a, b) - a * (m * m)
  {
  }

  function Collected(bm: real, ec: real, half: real, rq: real, vq: real, qq: real): real {
    bm * rq + ec * vq - half * qq
  }

  lemma Collect(bm: real, ec: real, half: real, k: real, am: real, xq: real, vq: real, qq: real)
    requires ec - bm == k && half == k - am
    ensures Collected(bm, ec, half, 2.0 * xq - vq, vq, qq) == 2.0 * bm * xq + k * (vq - qq) + am * qq
  {
    assert bm * (2.0 * xq - vq) == 2.0 * bm * xq - bm * vq;
    assert (ec - bm) * vq == ec * vq - bm * vq;
    assert (k - am) * qq == k * qq - am * qq;
    assert k * (vq - qq) == k * vq - k * qq;
  }

  /** The products of a step of size q, with the step as a factor. */
  lemma StepProducts(k: real, n: real, q: real, y: real, yq: real)
    requires yq == y * q
    ensures k * ((n * q) * y) == (k * n) * yq
    ensures k * ((n * q) * (n * q)) == (k * (n * n)) * (q * q)
  {
  }

  lemma MovedInSteps(b: real, e: real, m: real, c: real, r: real, v: real, q: real, rq: real, vq: real)
    requires rq == r * q && vq == v * q
    ensures Moved(b, e, r, v, m * q, c * q)
         == Collected(b * m, e * c, 0.5 * (b * (m * m) + e * (c * c)), rq, vq, q * q)
  {
    StepProducts(b, m, q, r, rq);
    StepProducts(e, c, q, v, vq);
    HalfSum(b * (m * m), e * (c * c), q * q);
  }

  lemma HalfSum(y: real, z: real, qq: real)
    ensures 0.5 * (y * qq + z * qq) == (0.5 * (y + z)) * qq
  {
  }

  lemma LossIsCollected(a: real, b: real, c: real, m: real, e: real, xq: real, vq: real, qq: real)
    requires c == a + b && m == 2.0 - a - b && e == 4.0 - 2.0 * a - b
    ensures Collected(b * m, e * c, 0.5 * (b * (m * m) + e * (c * c)), 2.0 * xq - vq, vq, qq)
         == Loss(a, b, xq, vq - qq, qq)
  {
    Coefficients(a, b, c, m, e);
    Collect(b * m, e * c, 0.5 * (b * (m * m) + e * (c * c)), 2.0 * Stiffness(a, b), a * (m * m), xq, vq, qq);
  }

  lemma MovedIsLoss(a: real, b: real, c: real, m: real, e: real, r: real, x: real, v: real, q: real)
    requires c == a + b && m == 2.0 - a - b && e == 4.0 - 2.0 * a - b && r == 2.0 * x - v
    ensures Moved(b, e, r, v, m * q, c * q) == Loss(a, b, x * q, v * q - q * q, q * q)
  {
    var xq, vq, qq := x * q, v * q, q * q;
    assert r * q == 2.0 * xq - vq;
    MovedInSteps(b, e, m, c, r, v, q, 2.0 * xq - vq, vq);
    LossIsCollected(a, b, c, m, e, xq, vq, qq);
  }

  lemma SquaresLose(a: real, b: real, c: real, m: real, e: real, r: real, x: real, v: real, q: real, r': real, v': real)
    requires c == a + b && m == 2.0 - a - b && e == 4.0 - 2.0 * a - b && r == 2.0 * x - v
    requires r' == r - m * q && v' == v - c * q
    ensures Squares(b, e, r', v') == Squares(b, e, r, v) - Loss(a, b, x * q, v * q - q * q, q * q)
  {
    SquaresMove(b, e, r, v, m * q, c * q);
    MovedIsLoss(a, b, c, m, e, r, x, v, q);
  }

  lemma FreeNext(a: real, b: real, x: real, v: real, x': real, v': real)
    requires x' == x - v && v' == v - Times(a + b, v) + Times(b, x)
    ensures Recurrence(a, b, x', x) == x' - v'
  {
    assert (2.0 - a - b) * (x - v) == 2.0 * x - 2.0 * v - (a + b) * x + (a + b) * v;
    assert (1.0 - a) * x == x - a * x;
    assert (a + b) * x == a * x + b * x;
  }

  lemma FreeLoss(a: real, b: real, x: real, v: real, x': real, v': real)
    requires x' == x - v && v' == v - Times(a + b, v) + Times(b, x)
    ensures W(a, b, x', v') == W(a, b, x, v) - Times(a, Square(v + v'))
  {
    FreeNext(a, b, x, v, x', v');
    VDescends(a, b, x', x);
    SquareOfNegation(v + v');
    assert x' - v' - x == -(v + v');
  }

  /** The limit leaves room for the clock's own error on both sides. */
  predicate Follows(p: Plant) {
    -p.limit < p.error < p.limit
  }

  /** The gains the quadratic form can cope with. */
  predicate Mild(p: Plant) {
    Positive(p) && Gain(p) <= 2.0
  }

  lemma RoomPositive(p: Plant)
    requires Positive(p) && Follows(p)
    ensures MostDown(p) > 0.0 && MostUp(p) > 0.0
  {
    Product(p.interval, p.limit - p.error, MostDown(p));
    Product(p.interval, p.limit + p.error, MostUp(p));
  }

  lemma Gains(p: Plant)
    requires Positive(p)
    ensures p.kp > 0.0 && p.ki > 0.0
  {
    Compare(0.0, p.kp, p.interval);
    Compare(0.0, p.ki, p.interval);
  }

  /** An output above the limit means an offset above 0, because the drift alone stays within the limit. */
  lemma HighIsAhead(p: Plant, s: Loop)
    requires Positive(p) && Tracks(p, s) && High(p, s)
    ensures s.x > 0.0
  {
    Gains(p);
    Compare(0.0, s.x, p.kp + p.ki);
    assert s.x * (p.kp + p.ki) == p.kp * s.x + p.ki * s.x;
  }

  function LossAt(a: real, b: real, x: real, v: real, q: real): real {
    Loss(a, b, x * q, v * q - q * q, q * q)
  }

  /** The part of a loss that every clamped interval has, and the part that grows with the excess. */
  function FixedLoss(a: real, b: real, q: real): real {
    a * Square(2.0 - a - b) * Square(q)
  }

  function ExcessLoss(b: real, excess: real, q: real): real {
    2.0 * b * (excess * q)
  }

  lemma StiffPart(a: real, b: real, excess: real, q: real)
    requires a > 0.0 && b > 0.0 && a + b <= 2.0 && excess >= 0.0 && q >= 0.0
    ensures StiffLoss(a, b, excess * q) >= ExcessLoss(b, excess, q) >= 0.0
  {
    var product := excess * q;
    Nonnegative(excess, q);
    Nonnegative(a, 2.0 - a - b);
    Monotone(2.0 * b, 2.0 * Stiffness(a, b), product);
    Nonnegative(2.0 * b, product);
  }

  lemma OffsetPart(a: real, b: real, x: real, q: real)
    requires b > 0.0 && a + b <= 2.0 && x >= 0.0 && q >= 0.0
    ensures OffsetLoss(a, b, x * q) >= 0.0
  {
    Nonnegative(x, q);
    Nonnegative(b, 2.0 - a - b);
    Nonnegative(2.0 * (b * (2.0 - a - b)), x * q);
  }

  lemma FixedPart(a: real, b: real, q: real)
    requires a > 0.0
    ensures SquareLoss(a, b, q * q) == FixedLoss(a, b, q) >= 0.0
  {
    var m := 2.0 - a - b;
    SquareAtLeastZero(m);
    SquareAtLeastZero(q);
    Nonnegative(a, m * m);
    Nonnegative(a * (m * m), q * q);
  }

  lemma LossAtLeast(a: real, b: real, x: real, v: real, q: real)
    requires a > 0.0 && b > 0.0 && a + b <= 2.0 && x >= 0.0 && v >= q >= 0.0
    ensures LossAt(a, b, x, v, q) >= FixedLoss(a, b, q) >= 0.0
    ensures LossAt(a, b, x, v, q) >= ExcessLoss(b, v - q, q)
  {
    assert (v - q) * q == v * q - q * q;
    StiffPart(a, b, v - q, q);
    OffsetPart(a, b, x, q);
    FixedPart(a, b, q);
  }

  lemma EnergyDrop(a: real, b: real, x: real, v: real, x': real, v': real, q: real)
    requires x' == x - q && v' == v - (a + b) * q
    ensures Level(a, b, x', v') == Level(a, b, x, v) - LossAt(a, b, x, v, q)
  {
    var c, m := a + b, 2.0 - a - b;
    assert m * q == 2.0 * q - c * q;
    SquaresLose(a, b, c, m, 4.0 - 2.0 * a - b, 2.0 * x - v, x, v, q, 2.0 * x' - v', v');
  }

  lemma HighEnergy(p: Plant, s: Loop)
    requires p.limit >= 0.0 && High(p, s)
    ensures StateLevel(p, Next(p, s)) == StateLevel(p, s) - LossAt(A(p), B(p), s.x, Fall(p, s), MostDown(p))
  {
    HighStep(p, s);
    EnergyDrop(A(p), B(p), s.x, Fall(p, s), Next(p, s).x, Fall(p, Next(p, s)), MostDown(p));
  }

  /** What a step with the clamp at its upper end takes away, in two ways. */
  lemma HighLoss(p: Plant, s: Loop)
    requires Mild(p) && Follows(p) && Tracks(p, s) && High(p, s)
    ensures StateLevel(p, Next(p, s)) <= StateLevel(p, s) - FixedLoss(A(p), B(p), MostDown(p)) <= StateLevel(p, s)
    ensures StateLevel(p, Next(p, s)) <= StateLevel(p, s) - ExcessLoss(B(p), Fall(p, s) - MostDown(p), MostDown(p))
  {
    RoomPositive(p);
    HighIff(p, s);
    HighIsAhead(p, s);
    HighEnergy(p, s);
    LossAtLeast(A(p), B(p), s.x, Fall(p, s), MostDown(p));
  }

  lemma MirrorEnergy(p: Plant, s: Loop)
    ensures StateLevel(Mirror(p), Mirrored(s)) == StateLevel(p, s)
  {
    MirrorDrive(p, s);
    MirrorForm(A(p), B(p), s.x, Fall(p, s));
  }

  lemma MirrorForm(a: real, b: real, x: real, v: real)
    ensures Level(a, b, -x, -v) == Level(a, b, x, v)
  {
    SquareOfNegation(2.0 * x - v);
    SquareOfNegation(v);
  }

  /** The mirror image of a low step is a high one. */
  lemma MirrorLow(p: Plant, s: Loop)
    requires Mild(p) && Follows(p) && Tracks(p, s) && Low(p, s)
    ensures Mild(Mirror(p)) && Follows(Mirror(p)) && Tracks(Mirror(p), Mirrored(s)) && High(Mirror(p), Mirrored(s))
    ensures MostDown(Mirror(p)) == MostUp(p) && A(Mirror(p)) == A(p) && B(Mirror(p)) == B(p)
  {
    MirrorDrive(p, s);
  }

  lemma MirrorEnergies(p: Plant, s: Loop)
    requires p.limit >= 0.0
    ensures StateLevel(Mirror(p), Mirrored(s)) == StateLevel(p, s)
    ensures StateLevel(Mirror(p), Next(Mirror(p), Mirrored(s))) == StateLevel(p, Next(p, s))
    ensures Fall(Mirror(p), Mirrored(s)) == -Fall(p, s)
  {
    MirrorDrive(p, s);
    MirrorStep(p, s);
    MirrorEnergy(p, s);
    MirrorEnergy(p, Next(p, s));
  }

  lemma LowLoss(p: Plant, s: Loop)
    requires Mild(p) && Follows(p) && Tracks(p, s) && Low(p, s)
    ensures StateLevel(p, Next(p, s)) <= StateLevel(p, s) - FixedLoss(A(p), B(p), MostUp(p)) <= StateLevel(p, s)
    ensures StateLevel(p, Next(p, s)) <= StateLevel(p, s) - ExcessLoss(B(p), -Fall(p, s) - MostUp(p), MostUp(p))
  {
    MirrorLow(p, s);
    MirrorEnergies(p, s);
    HighLoss(Mirror(p), Mirrored(s));
  }

  lemma FreeDrop(a: real, b: real, x: real, v: real, x': real, v': real)
    requires x' == x - v && v' == v - Times(a + b, v) + Times(b, x)
    ensures Level(a, b, x', v') == Level(a, b, x, v) - Times(a, Square(v + v'))
  {
    FreeLoss(a, b, x, v, x', v');
    WSquares(a, b, x, v);
    WSquares(a, b, x', v');
  }

  lemma FreeEnergy(p: Plant, s: Loop)
    requires Unsaturated(p, s)
    ensures StateLevel(p, Next(p, s)) == StateLevel(p, s) - Times(A(p), Square(Fall(p, s) + Fall(p, Next(p, s))))
  {
    FreeStep(p, s);
    FreeDrop(A(p), B(p), s.x, Fall(p, s), Next(p, s).x, Fall(p, Next(p, s)));
  }

  /** A step without the clamp takes the square of what two such steps would change; with A + B == 2, that is B x. */
  lemma UnclampedLoss(p: Plant, s: Loop)
    requires Positive(p) && Unsaturated(p, s)
    ensures StateLevel(p, Next(p, s)) <= StateLevel(p, s)
    ensures Gain(p) == 2.0 ==> StateLevel(p, Next(p, s)) == StateLevel(p, s) - Times(A(p), Square(Times(B(p), s.x)))
  {
    FreeEnergy(p, s);
    FreeStep(p, s);
    var both := Fall(p, s) + Fall(p, Next(p, s));
    SquareAtLeastZero(both);
    Nonnegative(A(p), Square(both));
  }

  // ---- Only finitely many large events --------------------------------------------------------

  lemma NeverGains(p: Plant, s: Loop)
    requires Mild(p) && Follows(p) && Tracks(p, s)
    ensures StateLevel(p, Next(p, s)) <= StateLevel(p, s)
  {
    UnsaturatedIff(p, s);
    if High(p, s) {
      HighLoss(p, s);
    } else if Low(p, s) {
      LowLoss(p, s);
    } else {
      UnclampedLoss(p, s);
    }
  }

  lemma {:induction false} LevelStays(p: Plant, s: Loop, n: nat)
    requires Mild(p) && Follows(p) && Tracks(p, s)
    ensures Tracks(p, After(p, s, n)) && StateLevel(p, After(p, s, n)) <= StateLevel(p, s)
  {
    if n > 0 {
      LevelStays(p, s, n - 1);
      Gains(p);
      NextTracks(p, After(p, s, n - 1));
      NeverGains(p, After(p, s, n - 1));
    }
  }

  lemma SquaresNonNegative(b: real, e: real, r: real, v: real)
    requires b >= 0.0 && e >= 0.0
    ensures Squares(b, e, r, v) >= 0.0
  {
    SquareAtLeastZero(r);
    SquareAtLeastZero(v);
    Nonnegative(b, r * r);
    Nonnegative(e, v * v);
  }

  lemma LevelNonNegative(p: Plant, s: Loop)
    requires Mild(p)
    ensures StateLevel(p, s) >= 0.0
  {
    SquaresNonNegative(B(p), 4.0 - 2.0 * A(p) - B(p), 2.0 * s.x - Fall(p, s), Fall(p, s));
  }

  function Tightest(p: Plant): real {
    if MostDown(p) <= MostUp(p) then MostDown(p) else MostUp(p)
  }

  /** An interval that is clamped; with A + B == 2, where a clamped one may take next to nothing from V, one that is
      clamped by eta at least, or not clamped with an offset of eta at least. */
  predicate Big(p: Plant, s: Loop, eta: real) {
    if Gain(p) < 2.0 then High(p, s) || Low(p, s)
    else if High(p, s) then Fall(p, s) - MostDown(p) >= eta
    else if Low(p, s) then -Fall(p, s) - MostUp(p) >= eta
    else Servo.AbsReal(s.x) >= eta
  }

  function SwingLoss(a: real, b: real, x: real): real {
    Times(a, Square(Times(b, x)))
  }

  /** What a large event takes from V at least. */
  function Cost(p: Plant, eta: real): real {
    var q := Tightest(p);
    if Gain(p) < 2.0 then FixedLoss(A(p), B(p), q)
    else if ExcessLoss(B(p), eta, q) <= SwingLoss(A(p), B(p), eta) then ExcessLoss(B(p), eta, q)
    else SwingLoss(A(p), B(p), eta)
  }

  lemma SquareGrows(x: real, y: real)
    requires 0.0 <= x <= y
    ensures Square(x) <= Square(y)
  {
    Nonnegative(y - x, y + x);
    assert (y - x) * (y + x) == y * y - x * x;
  }

  lemma FixedGrows(a: real, b: real, q: real, q': real)
    requires a > 0.0 && 0.0 <= q <= q'
    ensures FixedLoss(a, b, q) <= FixedLoss(a, b, q')
  {
    SquareAtLeastZero(2.0 - a - b);
    Nonnegative(a, Square(2.0 - a - b));
    SquareGrows(q, q');
    Nonnegative(a * Square(2.0 - a - b), Square(q') - Square(q));
    Distributes(a * Square(2.0 - a - b), Square(q') - Square(q), Square(q));
  }

  lemma ExcessGrows(b: real, e: real, e': real, q: real, q': real)
    requires b > 0.0 && 0.0 <= e <= e' && 0.0 <= q <= q'
    ensures ExcessLoss(b, e, q) <= ExcessLoss(b, e', q')
  {
    Monotone(e, e', q);
    Monotone(q, q', e');
    Monotone(e * q, e' * q', 2.0 * b);
  }

  lemma SwingLossGrows(a: real, b: real, x: real, eta: real)
    requires a > 0.0 && b > 0.0 && 0.0 <= eta <= Servo.AbsReal(x)
    ensures SwingLoss(a, b, eta) <= SwingLoss(a, b, x)
  {
    var y := Servo.AbsReal(x);
    Monotone(eta, y, b);
    Nonnegative(b, eta);
    SquareGrows(b * eta, b * y);
    assert b * (-x) == -(b * x);
    SquareOfNegation(b * x);
    Monotone(Square(b * eta), Square(b * y), a);
  }

  lemma BigCosts(p: Plant, s: Loop, eta: real)
    requires Mild(p) && Follows(p) && Tracks(p, s) && eta > 0.0 && Big(p, s, eta)
    ensures StateLevel(p, Next(p, s)) <= StateLevel(p, s) - Cost(p, eta)
  {
    RoomPositive(p);
    UnsaturatedIff(p, s);
    var a, b, q := A(p), B(p), Tightest(p);
    if High(p, s) {
      HighLoss(p, s);
      FixedGrows(a, b, q, MostDown(p));
      HighIff(p, s);
      if Gain(p) == 2.0 {
        ExcessGrows(b, eta, Fall(p, s) - MostDown(p), q, MostDown(p));
      }
    } else if Low(p, s) {
      LowLoss(p, s);
      FixedGrows(a, b, q, MostUp(p));
      HighIff(p, s);
      if Gain(p) == 2.0 {
        ExcessGrows(b, eta, -Fall(p, s) - MostUp(p), q, MostUp(p));
      }
    } else {
      UnclampedLoss(p, s);
      SwingLossGrows(a, b, s.x, eta);
    }
  }

  lemma FixedPositive(a: real, b: real, q: real)
    requires a > 0.0 && a + b < 2.0 && q > 0.0
    ensures FixedLoss(a, b, q) > 0.0
  {
    var m := 2.0 - a - b;
    Product(q, q, Square(q));
    Product(m, m, Square(m));
    Product(a, Square(m), a * Square(m));
    Product(a * Square(m), Square(q), FixedLoss(a, b, q));
  }

  lemma ExcessPositive(b: real, excess: real, q: real)
    requires b > 0.0 && excess > 0.0 && q > 0.0
    ensures ExcessLoss(b, excess, q) > 0.0
  {
    Product(excess, q, excess * q);
    Product(2.0 * b, excess * q, ExcessLoss(b, excess, q));
  }

  lemma SwingPositive(a: real, b: real, x: real)
    requires a > 0.0 && b > 0.0 && x > 0.0
    ensures SwingLoss(a, b, x) > 0.0
  {
    Product(b, x, b * x);
    Product(b * x, b * x, Square(b * x));
    Product(a, Square(b * x), SwingLoss(a, b, x));
  }

  lemma CostPositive(p: Plant, eta: real)
    requires Mild(p) && Follows(p) && eta > 0.0
    ensures Cost(p, eta) > 0.0
  {
    RoomPositive(p);
    if Gain(p) < 2.0 {
      FixedPositive(A(p), B(p), Tightest(p));
    } else {
      ExcessPositive(B(p), eta, Tightest(p));
      SwingPositive(A(p), B(p), eta);
    }
  }

  lemma {:induction false} AfterAdds(p: Plant, s: Loop, m: nat, n: nat)
    ensures After(p, After(p, s, m), n) == After(p, s, m + n)
  {
    if n > 0 {
      AfterAdds(p, s, m, n - 1);
    }
  }

  ghost predicate Quiet(p: Plant, s: Loop, eta: real) {
    forall n: nat :: !Big(p, After(p, s, n), eta)
  }

  /** V pays for every large event, so one of them is the last. */
  lemma {:induction false} Calms(p: Plant, s: Loop, eta: real) returns (start: nat)
    requires Mild(p) && Follows(p) && Tracks(p, s) && eta > 0.0
    ensures Tracks(p, After(p, s, start)) && Quiet(p, After(p, s, start), eta)
    decreases (StateLevel(p, s) / (if Cost(p, eta) == 0.0 then 1.0 else Cost(p, eta))).Floor
  {
    CostPositive(p, eta);
    if Quiet(p, s, eta) {
      start := 0;
    } else {
      var n: nat :| Big(p, After(p, s, n), eta);
      var t := After(p, s, n + 1);
      LevelStays(p, s, n);
      LevelStays(p, s, n + 1);
      BigCosts(p, After(p, s, n), eta);
      LevelNonNegative(p, t);
      LevelNonNegative(p, s);
      QuotientDrops(StateLevel(p, s), StateLevel(p, t), Cost(p, eta));
      var rest := Calms(p, t, eta);
      start := n + 1 + rest;
      AfterAdds(p, s, n + 1, rest);
    }
  }

  lemma QuotientDrops(x: real, y: real, cost: real)
    requires cost > 0.0 && 0.0 <= y <= x - cost
    ensures 0 <= (y / cost).Floor < (x / cost).Floor
  {
    var qx, qy := x / cost, y / cost;
    assert qx * cost == x && qy * cost == y;
    Compare(qy + 1.0, qx, cost);
    Compare(qx, qy + 1.0, cost);
    Compare(qy, 0.0, cost);
    assert (qy + 1.0) * cost == y + cost;
  }

  // ---- After the last large event there is no clamped one ---------------------------------------

  /** Small against the steps that the clamp leaves, and against their difference. */
  predicate Fine(p: Plant, eta: real) {
    && eta > 0.0 && 3.0 * eta <= MostDown(p) && 3.0 * eta <= MostUp(p)
    && (MostDown(p) != MostUp(p) ==> 2.0 * eta <= Servo.AbsReal(MostDown(p) - MostUp(p)))
  }

  lemma FineExists(p: Plant) returns (eta: real)
    requires Positive(p) && Follows(p)
    ensures Fine(p, eta)
  {
    RoomPositive(p);
    var apart := Servo.AbsReal(MostDown(p) - MostUp(p));
    eta := Tightest(p) / 3.0;
    if apart != 0.0 && apart / 2.0 < eta {
      eta := apart / 2.0;
    }
  }

  lemma QuietNow(p: Plant, s: Loop, eta: real)
    requires Quiet(p, s, eta)
    ensures !Big(p, s, eta) && Quiet(p, Next(p, s), eta)
  {
    assert After(p, s, 0) == s && !Big(p, After(p, s, 0), eta);
    assert Next(p, s) == After(p, s, 1);
    forall n: nat
      ensures !Big(p, After(p, Next(p, s), n), eta)
    {
      AfterAdds(p, s, 1, n);
    }
  }

  /** By how much the clamp at the upper end cuts the step. */
  function Excess(p: Plant, s: Loop): real {
    Fall(p, s) - MostDown(p)
  }

  /** The interval after a slightly clamped one is not clamped and starts near offset 0. */
  lemma AfterHigh(p: Plant, s: Loop, eta: real)
    requires Positive(p) && Follows(p) && Tracks(p, s) && Gain(p) == 2.0 && Fine(p, eta) && Quiet(p, s, eta)
    requires High(p, s)
    ensures var t := Next(p, s);
            && 0.0 < Excess(p, s) < eta && Unsaturated(p, t) && Tracks(p, t) && Quiet(p, t, eta)
            && t.x == s.x - MostDown(p) && -eta < t.x < eta && Fall(p, t) == Excess(p, s) - MostDown(p)
  {
    var t := Next(p, s);
    RoomPositive(p);
    QuietNow(p, s, eta);
    HighIff(p, s);
    HighStep(p, s);
    Gains(p);
    NextTracks(p, s);
    QuietNow(p, t, eta);
    HighIff(p, t);
    UnsaturatedIff(p, t);
  }

  lemma LowIsBehind(p: Plant, s: Loop)
    requires Positive(p) && Tracks(p, s) && Low(p, s)
    ensures s.x < 0.0
  {
    MirrorDrive(p, s);
    HighIsAhead(Mirror(p), Mirrored(s));
  }

  /** It leads back to a clamped one. */
  lemma HighAgain(p: Plant, s: Loop, eta: real)
    requires Positive(p) && Follows(p) && Tracks(p, s) && Gain(p) == 2.0 && Fine(p, eta) && Quiet(p, s, eta)
    requires High(p, s)
    ensures var u := Next(p, Next(p, s));
            && High(p, u) && Tracks(p, u) && Quiet(p, u, eta) && Excess(p, u) > 0.0
            && u.x == s.x - Excess(p, s)
            && Excess(p, u) == Times(B(p), s.x - MostDown(p)) - Excess(p, s)
  {
    var t := Next(p, s);
    var u := Next(p, t);
    AfterHigh(p, s, eta);
    FreeStep(p, t);
    Gains(p);
    NextTracks(p, t);
    QuietNow(p, t, eta);
    QuietNow(p, u, eta);
    if Low(p, u) {
      LowIsBehind(p, u);
    }
    HighIff(p, u);
  }

  /** With B >= 1 the excess would have to change its sign. */
  lemma QuietNotHigh(p: Plant, s: Loop, eta: real)
    requires Positive(p) && Follows(p) && Tracks(p, s) && Gain(p) == 2.0 && 1.0 <= B(p)
    requires Fine(p, eta) && Quiet(p, s, eta)
    ensures !High(p, s)
  {
    if High(p, s) {
      var u := Next(p, Next(p, s));
      HighAgain(p, s, eta);
      HighAgain(p, u, eta);
      AfterHigh(p, s, eta);
      ExcessTurns(B(p), s.x - MostDown(p), Excess(p, s));
      assert false;
    }
  }

  lemma ExcessTurns(b: real, ahead: real, excess: real)
    requires b >= 1.0 && excess > 0.0
    ensures Times(b, ahead - excess) - (Times(b, ahead) - excess) <= 0.0
  {
    Monotone(1.0, b, excess);
    assert b * (ahead - excess) == b * ahead - b * excess;
  }

  lemma {:induction false} MirrorAfter(p: Plant, s: Loop, n: nat)
    requires p.limit >= 0.0
    ensures After(Mirror(p), Mirrored(s), n) == Mirrored(After(p, s, n))
  {
    if n > 0 {
      MirrorAfter(p, s, n - 1);
      MirrorStep(p, After(p, s, n - 1));
    }
  }

  lemma MirrorBig(p: Plant, s: Loop, eta: real)
    requires Positive(p)
    ensures Big(Mirror(p), Mirrored(s), eta) <==> Big(p, s, eta)
  {
    MirrorDrive(p, s);
  }

  lemma MirrorQuiet(p: Plant, s: Loop, eta: real)
    requires Positive(p) && Quiet(p, s, eta)
    ensures Quiet(Mirror(p), Mirrored(s), eta)
  {
    forall n: nat
      ensures !Big(Mirror(p), After(Mirror(p), Mirrored(s), n), eta)
    {
      assert !Big(p, After(p, s, n), eta);
      MirrorAfter(p, s, n);
      MirrorBig(p, After(p, s, n), eta);
    }
  }

  lemma MirrorFine(p: Plant, s: Loop, eta: real)
    requires Positive(p) && Follows(p) && Tracks(p, s) && Fine(p, eta)
    ensures Positive(Mirror(p)) && Follows(Mirror(p)) && Tracks(Mirror(p), Mirrored(s)) && Fine(Mirror(p), eta)
    ensures Gain(Mirror(p)) == Gain(p) && B(Mirror(p)) == B(p)
  {
  }

  lemma QuietNotLow(p: Plant, s: Loop, eta: real)
    requires Positive(p) && Follows(p) && Tracks(p, s) && Gain(p) == 2.0 && 1.0 <= B(p)
    requires Fine(p, eta) && Quiet(p, s, eta)
    ensures !Low(p, s)
  {
    MirrorFine(p, s, eta);
    MirrorQuiet(p, s, eta);
    MirrorDrive(p, s);
    QuietNotHigh(Mirror(p), Mirrored(s), eta);
  }

  /** The gains with which every tracking loop comes to rest. */
  predicate Resting(a: real, b: real) {
    a + b < 2.0 || (a + b == 2.0 && a <= 1.0)
  }

  lemma QuietNotClamped(p: Plant, s: Loop, eta: real)
    requires Positive(p) && Follows(p) && Tracks(p, s) && Resting(A(p), B(p)) && Fine(p, eta) && Quiet(p, s, eta)
    ensures Unsaturated(p, s)
  {
    UnsaturatedIff(p, s);
    if Gain(p) == 2.0 {
      QuietNotHigh(p, s, eta);
      QuietNotLow(p, s, eta);
    } else {
      QuietNow(p, s, eta);
    }
  }

  lemma {:induction false} QuietAfter(p: Plant, s: Loop, eta: real, n: nat)
    requires Quiet(p, s, eta)
    ensures Quiet(p, After(p, s, n), eta)
  {
    if n > 0 {
      QuietAfter(p, s, eta, n - 1);
      QuietNow(p, After(p, s, n - 1), eta);
    }
  }

  lemma {:induction false} TracksAfter(p: Plant, s: Loop, n: nat)
    requires Positive(p) && Tracks(p, s)
    ensures Tracks(p, After(p, s, n))
  {
    if n > 0 {
      TracksAfter(p, s, n - 1);
      Gains(p);
      NextTracks(p, After(p, s, n - 1));
    }
  }

  lemma QuietNeverSaturates(p: Plant, s: Loop, eta: real)
    requires Positive(p) && Follows(p) && Tracks(p, s) && Resting(A(p), B(p)) && Fine(p, eta) && Quiet(p, s, eta)
    ensures NeverSaturates(p, s)
  {
    forall n: nat
      ensures Unsaturated(p, After(p, s, n))
    {
      QuietAfter(p, s, eta, n);
      TracksAfter(p, s, n);
      QuietNotClamped(p, After(p, s, n), eta);
    }
  }

  // ---- When a tracking loop comes to rest -------------------------------------------------------

  lemma SettlesLater(p: Plant, s: Loop, start: nat)
    requires Settles(p, After(p, s, start))
    ensures Settles(p, s)
  {
    forall eps: real | eps > 0.0
      ensures EventuallyNear(p, s, eps)
    {
      assert EventuallyNear(p, After(p, s, start), eps);
      var from: nat :| NearFrom(p, After(p, s, start), eps, from);
      forall n: nat | n >= start + from
        ensures Near(p, After(p, s, n), eps)
      {
        AfterAdds(p, s, start, n - start);
        assert Near(p, After(p, After(p, s, start), n - start), eps);
      }
      assert NearFrom(p, s, eps, start + from);
    }
  }

  /** With these gains a tracking loop whose limit exceeds the clock's error comes to rest from every offset and every
      drift, however often it is clamped on the way. */
  lemma RestingSettles(p: Plant, s: Loop)
    requires Positive(p) && Follows(p) && Tracks(p, s) && Resting(A(p), B(p))
    ensures Settles(p, s)
  {
    var eta := FineExists(p);
    var start := Calms(p, s, eta);
    QuietNeverSaturates(p, After(p, s, start), eta);
    InsideSettles(p, After(p, s, start));
    SettlesLater(p, s, start);
  }

  // ---- Why the conditions are needed ------------------------------------------------------------

  /** A clock whose error the limit does not exceed runs away from the servo, or keeps its distance. */
  lemma {:induction false} NeverCatchesUp(p: Plant, s: Loop, n: nat)
    requires Positive(p) && Tracks(p, s) && p.error >= p.limit
    ensures After(p, s, n).x >= s.x + Times(n as real, -MostDown(p)) >= s.x
  {
    Nonnegative(p.interval, p.error - p.limit);
    assert -MostDown(p) == p.interval * (p.error - p.limit);
    Nonnegative(n as real, -MostDown(p));
    if n > 0 {
      NeverCatchesUp(p, s, n - 1);
      TracksAfter(p, s, n - 1);
      StepRises(p, After(p, s, n - 1));
      OneMore(n, -MostDown(p));
    }
  }

  lemma OneMore(n: nat, k: real)
    requires n > 0
    ensures Times(n as real, k) == Times((n - 1) as real, k) + k
  {
    assert n as real == (n - 1) as real + 1.0;
  }

  lemma OutputLimited(p: Plant, s: Loop)
    requires Positive(p) && Tracks(p, s)
    ensures -p.limit <= PiServo.Control(p.kp, p.ki, s.drift, p.limit, s.x, 1.0).0 <= p.limit
  {
    Gains(p);
    PiServo.SameSign(p.kp, p.ki, s.drift, p.limit, s.x, 1.0);
  }

  lemma StepRises(p: Plant, s: Loop)
    requires Positive(p) && Tracks(p, s)
    ensures s.x - MostDown(p) <= Next(p, s).x <= s.x + MostUp(p)
  {
    var ppb := PiServo.Control(p.kp, p.ki, s.drift, p.limit, s.x, 1.0).0;
    OutputLimited(p, s);
    Monotone(p.error - p.limit, p.error - ppb, p.interval);
    Monotone(p.error - ppb, p.error + p.limit, p.interval);
    assert (p.error - p.limit) * p.interval == -MostDown(p);
  }

  lemma AwayDoesNotSettle(p: Plant, s: Loop, eps: real)
    requires eps > 0.0 && forall n: nat :: Servo.AbsReal(After(p, s, 2 * n).x) > eps
    ensures !Settles(p, s)
  {
    forall start: nat
      ensures !NearFrom(p, s, eps, start)
    {
      assert Servo.AbsReal(After(p, s, 2 * start).x) > eps;
      assert !Near(p, After(p, s, 2 * start), eps);
    }
    assert !EventuallyNear(p, s, eps);
  }

  lemma FastClockNotFollowed(p: Plant, s: Loop)
    requires Positive(p) && Tracks(p, s) && p.error >= p.limit && s.x > 1.0
    ensures !Settles(p, s)
  {
    forall n: nat
      ensures Servo.AbsReal(After(p, s, 2 * n).x) > 1.0
    {
      NeverCatchesUp(p, s, 2 * n);
    }
    AwayDoesNotSettle(p, s, 1.0);
  }

  /** With A + B > 2, a perfect clock half of the largest step away is thrown from one side to the other for ever. */
  lemma {:induction false} Thrown(p: Plant, s: Loop, n: nat)
    requires Positive(p) && p.error == 0.0 && Gain(p) > 2.0 && s == Loop(0.5 * MostDown(p), 0.0)
    ensures After(p, s, n) == Loop(if n % 2 == 0 then 0.5 * MostDown(p) else -(0.5 * MostDown(p)), 0.0)
  {
    if n > 0 {
      Thrown(p, s, n - 1);
      ThrownOver(p, 0.5 * MostDown(p));
    }
  }

  lemma HalfStepHigh(p: Plant, s: Loop)
    requires Positive(p) && p.error == 0.0 && Gain(p) > 2.0 && s == Loop(0.5 * MostDown(p), 0.0)
    ensures s.x > 0.0 && High(p, s)
  {
    RoomPositive(p);
    FallIs(p, s);
    assert s.drift - p.error == 0.0 && p.interval * (s.drift - p.error) == 0.0;
    Compare(2.0, Gain(p), s.x);
    assert Fall(p, s) > 2.0 * s.x == MostDown(p);
    HighIff(p, s);
  }

  lemma ThrownOver(p: Plant, x: real)
    requires Positive(p) && p.error == 0.0 && Gain(p) > 2.0 && x == 0.5 * MostDown(p)
    ensures x > 0.0 && Next(p, Loop(x, 0.0)) == Loop(-x, 0.0) && Next(p, Loop(-x, 0.0)) == Loop(x, 0.0)
  {
    var s := Loop(x, 0.0);
    HalfStepHigh(p, s);
    HighStep(p, s);
    MirrorStep(p, s);
    assert Mirror(p) == p && Mirrored(s) == Loop(-x, 0.0);
  }

  lemma StrongNeverSettles(p: Plant)
    requires Positive(p) && p.error == 0.0 && Gain(p) > 2.0
    ensures !Settles(p, Loop(0.5 * MostDown(p), 0.0))
  {
    var s := Loop(0.5 * MostDown(p), 0.0);
    ThrownOver(p, s.x);
    forall n: nat
      ensures Servo.AbsReal(After(p, s, 2 * n).x) > 0.5 * s.x
    {
      Thrown(p, s, 2 * n);
    }
    AwayDoesNotSettle(p, s, 0.5 * s.x);
  }

  // With A + B == 2 and B < 1, slightly clamped intervals repeat.

  /** How far the offset is ahead of the largest step. */
  function Ahead(p: Plant, s: Loop): real {
    s.x - MostDown(p)
  }

  ghost predicate Wedge(p: Plant, s: Loop) {
    Tracks(p, s) && 0.0 < Excess(p, s) < Times(B(p), Ahead(p, s)) && Ahead(p, s) <= MostDown(p)
  }

  predicate Weak(p: Plant) {
    Positive(p) && Follows(p) && Gain(p) == 2.0 && B(p) < 1.0 && MostDown(p) <= MostUp(p)
  }

  /** The interval after a clamped one in the wedge is not clamped. */
  lemma AfterWedge(p: Plant, s: Loop)
    requires Weak(p) && Wedge(p, s)
    ensures var t := Next(p, s);
            && Unsaturated(p, t) && Tracks(p, t) && t.x == Ahead(p, s) && Fall(p, t) == Excess(p, s) - MostDown(p)
  {
    var t := Next(p, s);
    RoomPositive(p);
    HighIff(p, s);
    HighStep(p, s);
    Gains(p);
    NextTracks(p, s);
    WedgeNarrow(B(p), Ahead(p, s), Excess(p, s));
    HighIff(p, t);
    UnsaturatedIff(p, t);
  }

  lemma WedgeNarrow(b: real, ahead: real, excess: real)
    requires 0.0 < b < 1.0 && 0.0 < excess < Times(b, ahead)
    ensures excess < ahead
    ensures 0.0 < Times(b, ahead) - excess < Times(b, ahead - excess)
  {
    Compare(0.0, ahead, b);
    Monotone(b, 1.0, ahead);
    Product(1.0 - b, excess, (1.0 - b) * excess);
    assert b * (ahead - excess) == b * ahead - b * excess;
    assert (1.0 - b) * excess == excess - b * excess;
  }

  lemma WedgeStays(p: Plant, s: Loop)
    requires Weak(p) && Wedge(p, s)
    ensures Wedge(p, Next(p, Next(p, s)))
  {
    var t := Next(p, s);
    AfterWedge(p, s);
    FreeStep(p, t);
    Gains(p);
    NextTracks(p, t);
    WedgeNarrow(B(p), Ahead(p, s), Excess(p, s));
    assert Excess(p, Next(p, t)) == Times(B(p), Ahead(p, s)) - Excess(p, s);
    assert Ahead(p, Next(p, t)) == Ahead(p, s) - Excess(p, s);
  }

  lemma {:induction false} WedgeForEver(p: Plant, s: Loop, n: nat)
    requires Weak(p) && Wedge(p, s)
    ensures Wedge(p, After(p, s, 2 * n))
  {
    if n > 0 {
      WedgeForEver(p, s, n - 1);
      WedgeStays(p, After(p, s, 2 * n - 2));
    }
  }

  lemma WedgeNeverSettles(p: Plant, s: Loop)
    requires Weak(p) && Wedge(p, s)
    ensures !Settles(p, s)
  {
    RoomPositive(p);
    var eps := 0.5 * MostDown(p);
    forall n: nat
      ensures Servo.AbsReal(After(p, s, 2 * n).x) > eps
    {
      var t := After(p, s, 2 * n);
      WedgeForEver(p, s, n);
      WedgeNarrow(B(p), Ahead(p, t), Excess(p, t));
    }
    AwayDoesNotSettle(p, s, eps);
  }

  /** A plant and a start in the wedge: an error of half the limit. */
  lemma WedgeExists(kp: real, ki: real, interval: real) returns (p: Plant, s: Loop)
    requires interval > 0.0 && interval * kp > 0.0 && interval * ki > 0.0
    requires interval * kp + interval * ki == 2.0 && interval * ki < 1.0
    ensures p.kp == kp && p.ki == ki && p.interval == interval && Weak(p) && Wedge(p, s)
  {
    p := Plant(kp, ki, interval, 0.5, 1.0);
    var q, b := MostDown(p), interval * ki;
    assert B(p) == b && A(p) == interval * kp;
    assert q == 0.5 * interval && MostUp(p) == 1.5 * interval;
    var ahead := 0.5 * q;
    var excess := 0.5 * (b * ahead);
    Product(b, ahead, b * ahead);
    s := Loop(q + ahead, (excess - 2.0 * ahead) / interval);
    WedgeStart(p, s, ahead, excess);
  }

  lemma WedgeStart(p: Plant, s: Loop, ahead: real, excess: real)
    requires p.interval > 0.0 && p.error == 0.5 && p.limit == 1.0 && Gain(p) == 2.0 && 0.0 < B(p) < 1.0
    requires ahead == 0.25 * p.interval && 0.0 < excess == 0.5 * Times(B(p), ahead)
    requires s == Loop(MostDown(p) + ahead, (excess - 2.0 * ahead) / p.interval)
    ensures Wedge(p, s)
  {
    var t := p.interval;
    assert t * s.drift == excess - 2.0 * ahead;
    Monotone(B(p), 1.0, ahead);
    Unscaled(t, s.drift, 1.0);
    FallIs(p, s);
    assert t * (s.drift - 0.5) == t * s.drift - 0.5 * t;
    assert Gain(p) * s.x == 2.0 * s.x;
  }

  // ---- Which gains come to rest, and which plants stay bounded ----------------------------------

  /** With these gains every clock that the limit can follow is followed, from every start that tracks. */
  ghost predicate AlwaysRests(kp: real, ki: real, interval: real) {
    forall p: Plant, s: Loop ::
      p.kp == kp && p.ki == ki && p.interval == interval && p.limit > 0.0 && Follows(p) && Tracks(p, s)
      ==> Settles(p, s)
  }

  /** Positive gains rest always exactly if a + b is below 2, or 2 with a no larger than 1. */
  lemma RestsIff(kp: real, ki: real, interval: real)
    requires interval > 0.0 && interval * kp > 0.0 && interval * ki > 0.0
    ensures AlwaysRests(kp, ki, interval) <==> Resting(interval * kp, interval * ki)
  {
    var a, b := interval * kp, interval * ki;
    if Resting(a, b) {
      forall p: Plant, s: Loop |
        p.kp == kp && p.ki == ki && p.interval == interval && p.limit > 0.0 && Follows(p) && Tracks(p, s)
        ensures Settles(p, s)
      {
        RestingSettles(p, s);
      }
    } else if a + b > 2.0 {
      var p := Plant(kp, ki, interval, 0.0, 1.0);
      StrongNeverSettles(p);
      assert Tracks(p, Loop(0.5 * MostDown(p), 0.0)) && Follows(p);
    } else {
      var p, s := WedgeExists(kp, ki, interval);
      WedgeNeverSettles(p, s);
    }
  }

  /** The loop comes to rest from every start that tracks. */
  ghost predicate Rests(p: Plant) {
    forall s: Loop :: Tracks(p, s) ==> Settles(p, s)
  }

  lemma FollowsRests(p: Plant)
    requires Positive(p) && Follows(p) && Resting(A(p), B(p))
    ensures Rests(p)
  {
    forall s: Loop | Tracks(p, s)
      ensures Settles(p, s)
    {
      RestingSettles(p, s);
    }
  }

  lemma SlowClockNotFollowed(p: Plant, s: Loop)
    requires Positive(p) && Tracks(p, s) && p.error <= -p.limit && s.x < -1.0
    ensures !Settles(p, s)
  {
    FastClockNotFollowed(Mirror(p), Mirrored(s));
    if Settles(p, s) {
      MirrorSettles(p, s);
    }
  }

  /** A plant with such gains comes to rest from every start exactly if the limit exceeds the clock's error. */
  lemma RestsIffFollows(p: Plant)
    requires Positive(p) && Resting(A(p), B(p))
    ensures Rests(p) <==> Follows(p)
  {
    var ahead, behind := Loop(2.0, 0.0), Loop(-2.0, 0.0);
    assert Tracks(p, ahead) && Tracks(p, behind);
    if Follows(p) {
      FollowsRests(p);
    } else if p.error >= p.limit {
      FastClockNotFollowed(p, ahead);
    } else {
      SlowClockNotFollowed(p, behind);
    }
  }

  lemma MirrorSettles(p: Plant, s: Loop)
    requires p.limit >= 0.0 && Settles(p, s)
    ensures Settles(Mirror(p), Mirrored(s))
  {
    forall eps: real | eps > 0.0
      ensures EventuallyNear(Mirror(p), Mirrored(s), eps)
    {
      assert EventuallyNear(p, s, eps);
      var start: nat :| NearFrom(p, s, eps, start);
      forall n: nat | n >= start
        ensures Near(Mirror(p), After(Mirror(p), Mirrored(s), n), eps)
      {
        MirrorAfter(p, s, n);
        assert Near(p, After(p, s, n), eps);
      }
      assert NearFrom(Mirror(p), Mirrored(s), eps, start);
    }
  }

  /** The user's gains, as capped, rest always exactly if their sum, in units of one interval, is at most 2. */
  lemma UserGainsRest(cfg: PiServo.State, kp: real, ki: real, g: PiServo.Gains, swTs: bool, interval: real)
    requires kp > 0.0 && ki > 0.0 && interval > 0.0
    requires cfg.gains == PiServo.Configured(kp, ki, swTs, g)
    ensures var pi := PiServo.AfterSyncInterval(cfg, interval, 1.0, 1.0);
            AlwaysRests(pi.kp, pi.ki, interval) <==> (pi.kp + pi.ki) * interval <= 2.0
  {
    var pi := PiServo.AfterSyncInterval(cfg, interval, 1.0, 1.0);
    PiServo.GainsAreCapped(cfg, interval, 1.0, 1.0);
    CappedPositive(kp, PiServo.MAX_KP_NORM_MAX, interval);
    CappedPositive(ki, PiServo.MAX_KI_NORM_MAX, interval);
    RestsIff(pi.kp, pi.ki, interval);
    assert (pi.kp + pi.ki) * interval == interval * pi.kp + interval * pi.ki;
  }

  // ---- How far a clamped loop can stray ---------------------------------------------------------

  /** Beyond this offset the output is always clamped. */
  function Reach(p: Plant): real
    requires p.kp + p.ki != 0.0
  {
    2.0 * p.limit / (p.kp + p.ki)
  }

  lemma BeyondReachHigh(p: Plant, s: Loop)
    requires Positive(p) && Tracks(p, s) && p.kp + p.ki > 0.0 && s.x > Reach(p)
    ensures High(p, s)
  {
    var k := p.kp + p.ki;
    assert Reach(p) * k == 2.0 * p.limit;
    Compare(Reach(p), s.x, k);
    assert s.x * k == p.kp * s.x + p.ki * s.x;
  }

  /** The most that an interval moves the offset of a clock whose error the limit covers. */
  function Stride(p: Plant): real {
    2.0 * Times(p.interval, p.limit)
  }

  predicate Covers(p: Plant) {
    -p.limit <= p.error <= p.limit
  }

  lemma StepsWithinStride(p: Plant)
    requires Positive(p) && Covers(p)
    ensures 0.0 <= MostDown(p) && 0.0 <= MostUp(p) <= Stride(p)
  {
    Nonnegative(p.interval, p.limit - p.error);
    Nonnegative(p.interval, p.limit + p.error);
    Monotone(p.error + p.limit, 2.0 * p.limit, p.interval);
  }

  /** An interval moves the offset by a stride at most, and back if the output is beyond reach. */
  lemma StepStaysBelow(p: Plant, s: Loop, m: real)
    requires Positive(p) && Tracks(p, s) && Covers(p) && p.kp + p.ki > 0.0
    requires m >= Reach(p) + Stride(p) && s.x <= m
    ensures Next(p, s).x <= m
  {
    StepsWithinStride(p);
    StepRises(p, s);
    if s.x > Reach(p) {
      BeyondReachHigh(p, s);
      HighStep(p, s);
    }
  }

  lemma StepStaysAbove(p: Plant, s: Loop, m: real)
    requires Positive(p) && Tracks(p, s) && Covers(p) && p.kp + p.ki > 0.0
    requires m >= Reach(p) + Stride(p) && -m <= s.x
    ensures -m <= Next(p, s).x
  {
    MirrorStep(p, s);
    StepStaysBelow(Mirror(p), Mirrored(s), m);
  }

  lemma {:induction false} StaysWithin(p: Plant, s: Loop, m: real, n: nat)
    requires Positive(p) && Tracks(p, s) && Covers(p) && p.kp + p.ki > 0.0
    requires m >= Reach(p) + Stride(p) && -m <= s.x <= m
    ensures -m <= After(p, s, n).x <= m
  {
    if n > 0 {
      StaysWithin(p, s, m, n - 1);
      TracksAfter(p, s, n - 1);
      StepStaysBelow(p, After(p, s, n - 1), m);
      StepStaysAbove(p, After(p, s, n - 1), m);
    }
  }

  ghost predicate StaysBounded(p: Plant, s: Loop) {
    exists m: real :: LoopWithin(p, s, m)
  }

  /** Any positive gains keep the clamped loop bounded, from every start, as long as the limit covers the clock's
      error. */
  lemma ClampBounds(p: Plant, s: Loop)
    requires Positive(p) && Tracks(p, s) && Covers(p)
    ensures p.kp + p.ki > 0.0
    ensures LoopWithin(p, s, Servo.AbsReal(s.x) + Reach(p) + Stride(p))
    ensures StaysBounded(p, s)
  {
    Gains(p);
    var m := Servo.AbsReal(s.x) + Reach(p) + Stride(p);
    assert Reach(p) >= 0.0;
    Nonnegative(p.interval, p.limit);
    forall n: nat
      ensures -m <= After(p, s, n).x <= m
    {
      StaysWithin(p, s, m, n);
    }
    assert LoopWithin(p, s, m);
  }

  lemma RunsAway(p: Plant, s: Loop)
    requires Positive(p) && Tracks(p, s) && p.error > p.limit
    ensures !StaysBounded(p, s)
  {
    var rise := -MostDown(p);
    Product(p.interval, p.error - p.limit, rise);
    forall m: real
      ensures !LoopWithin(p, s, m)
    {
      var n := EnoughSteps(m - s.x + 1.0, rise);
      NeverCatchesUp(p, s, n);
      assert !(-m <= After(p, s, n).x <= m);
    }
  }

  lemma MirrorBounded(p: Plant, s: Loop)
    requires p.limit >= 0.0 && StaysBounded(p, s)
    ensures StaysBounded(Mirror(p), Mirrored(s))
  {
    var m: real :| LoopWithin(p, s, m);
    forall n: nat
      ensures -m <= After(Mirror(p), Mirrored(s), n).x <= m
    {
      MirrorAfter(p, s, n);
      assert -m <= After(p, s, n).x <= m;
    }
    assert LoopWithin(Mirror(p), Mirrored(s), m);
  }

  /** With positive gains, a tracking loop stays bounded exactly if the limit covers the clock's error. */
  lemma BoundedIff(p: Plant, s: Loop)
    requires Positive(p) && Tracks(p, s)
    ensures StaysBounded(p, s) <==> Covers(p)
  {
    if Covers(p) {
      ClampBounds(p, s);
    } else if p.error > p.limit {
      RunsAway(p, s);
    } else {
      RunsAway(Mirror(p), Mirrored(s));
      if StaysBounded(p, s) {
        MirrorBounded(p, s);
      }
    }
  }

  /** Whatever a user configures: the loop with the capped gains stays bounded, from every start that tracks, exactly if
      the limit covers the clock's error. */
  lemma UserGainsAreStable(cfg: PiServo.State, kp: real, ki: real, g: PiServo.Gains, swTs: bool, interval: real,
                           error: real, limit: real, s: Loop)
    requires kp > 0.0 && ki > 0.0 && interval > 0.0 && limit > 0.0 && -limit <= s.drift <= limit
    requires cfg.gains == PiServo.Configured(kp, ki, swTs, g)
    ensures var pi := PiServo.AfterSyncInterval(cfg, interval, 1.0, 1.0);
            StaysBounded(Plant(pi.kp, pi.ki, interval, error, limit), s) <==> -limit <= error <= limit
  {
    var pi := PiServo.AfterSyncInterval(cfg, interval, 1.0, 1.0);
    PiServo.GainsAreCapped(cfg, interval, 1.0, 1.0);
    CappedPositive(kp, PiServo.MAX_KP_NORM_MAX, interval);
    CappedPositive(ki, PiServo.MAX_KI_NORM_MAX, interval);
    BoundedIff(Plant(pi.kp, pi.ki, interval, error, limit), s);
  }

  // ---- The servo that the loop stands for -------------------------------------------------------

  /** A servo that tracks with the gains and the limit of the plant, and steps nothing away. */
  ghost predicate TracksPlant(p: Plant, y: PiServo.System) {
    && y.pi.count == 2 && y.common.stepThreshold == 0.0
    && p.kp == y.pi.kp && p.ki == y.pi.ki && p.limit == y.common.maxFrequency
  }

  /** A sample of full weight does to drift and output what the loop says. */
  lemma SampleIsNext(p: Plant, y: PiServo.System, offset: int, localTs: int, s: Loop)
    requires TracksPlant(p, y) && s == Loop(offset as real, y.pi.drift)
    ensures var e := PiServo.Event.Sample(offset, localTs, 1.0);
            && TracksPlant(p, PiServo.Next(y, e)) && PiServo.Next(y, e).pi.drift == Next(p, s).drift
            && Next(p, s).x == s.x + p.interval * (p.error - PiServo.Engine(y, e).1.adjustment)
  {
  }

  function Samples(offsets: seq<int>, times: seq<int>): seq<PiServo.Event>
    requires |offsets| == |times|
  {
    seq(|offsets|, k requires 0 <= k < |offsets| => PiServo.Event.Sample(offsets[k], times[k], 1.0))
  }

  /** The servo is shown the loop's offsets, as far as they are whole nanoseconds. */
  ghost predicate ShowsLoop(p: Plant, s: Loop, offsets: seq<int>) {
    forall k :: 0 <= k < |offsets| ==> offsets[k] as real == After(p, s, k).x
  }

  /** Shown the offsets of the loop, a tracking servo learns the drifts of the loop. */
  lemma {:induction false} LoopIsServo(p: Plant, y: PiServo.System, s: Loop, offsets: seq<int>, times: seq<int>)
    requires |offsets| == |times| && TracksPlant(p, y) && s.drift == y.pi.drift && ShowsLoop(p, s, offsets)
    ensures PiServo.AdmissibleRun(Samples(offsets, times))
    ensures var y' := PiServo.Run(y, Samples(offsets, times));
            TracksPlant(p, y') && y'.pi.drift == After(p, s, |offsets|).drift
  {
    if offsets != [] {
      var n := |offsets| - 1;
      LoopIsServo(p, y, s, offsets[..n], times[..n]);
      assert Samples(offsets, times)[..n] == Samples(offsets[..n], times[..n]);
      SampleIsNext(p, PiServo.Run(y, Samples(offsets[..n], times[..n])), offsets[n], times[n], After(p, s, n));
    }
  }

  /** A new servo with gains 1 and 1.5, one sample a second, no thresholds, and a limit of 1000 ppb. */
  const STRONG_SERVO :=
    PiServo.CreatedSystem(Servo.Config(1000.0, 0.0, 0.0, 0, 0), PiServo.Gains(1.0, 0.0, 1.0, 1.5, 0.0, 2.0), 0)

  /** The offset that a perfect clock, moved by the servo's outputs for a second each, then shows. */
  function Thrown500(n: nat): int {
    if n % 2 == 0 then 500 else -500
  }

  /** Two samples to lock, then n more. */
  function ThrownEvents(n: nat): (events: seq<PiServo.Event>)
    ensures |events| == n + 3
  {
    if n == 0 then [PiServo.EVERY_SECOND, PiServo.At(1, 500), PiServo.At(2, 500)]
    else ThrownEvents(n - 1) + [PiServo.At(n + 2, Thrown500(n - 1))]
  }

  lemma {:induction false} ThrownAdmissible(n: nat)
    ensures PiServo.AdmissibleRun(ThrownEvents(n))
  {
    if n > 0 {
      ThrownAdmissible(n - 1);
    }
  }

  ghost predicate StrongTracks(y: PiServo.System) {
    && y.pi.count == 2 && y.pi.kp == 1.0 && y.pi.ki == 1.5 && y.pi.drift == 0.0
    && y.common.maxFrequency == 1000.0 && y.common.stepThreshold == 0.0
  }

  lemma StrongStep(y: PiServo.System, n: nat)
    requires StrongTracks(y)
    ensures var e := PiServo.At(n + 3, Thrown500(n));
            && StrongTracks(PiServo.Next(y, e))
            && Thrown500(n + 1) as real == Thrown500(n) as real - PiServo.Engine(y, e).1.adjustment
  {
    assert PiServo.Term(1.0, 500.0, 1.0) == 500.0 && PiServo.Term(1.5, 500.0, 1.0) == 750.0;
    assert PiServo.Term(1.0, -500.0, 1.0) == -500.0 && PiServo.Term(1.5, -500.0, 1.0) == -750.0;
  }

  /** It locks, and its outputs throw a perfect clock from 500 ns ahead to 500 ns behind and back for ever. */
  lemma {:induction false} StrongServoNeverRests(n: nat)
    ensures PiServo.AdmissibleRun(ThrownEvents(n))
    ensures var y := PiServo.Run(STRONG_SERVO, ThrownEvents(n)); var e := PiServo.At(n + 3, Thrown500(n));
            && StrongTracks(y)
            && Thrown500(n + 1) as real == Thrown500(n) as real - PiServo.Engine(y, e).1.adjustment
  {
    ThrownAdmissible(n);
    if n == 0 {
      StrongLocks();
    } else {
      StrongServoNeverRests(n - 1);
      assert ThrownEvents(n)[..n + 2] == ThrownEvents(n - 1);
      StrongStep(PiServo.Run(STRONG_SERVO, ThrownEvents(n - 1)), n - 1);
    }
    StrongStep(PiServo.Run(STRONG_SERVO, ThrownEvents(n)), n);
  }

  lemma StrongLocks()
    ensures PiServo.AdmissibleRun(ThrownEvents(0)) && StrongTracks(PiServo.Run(STRONG_SERVO, ThrownEvents(0)))
  {
    var y, e := STRONG_SERVO, ThrownEvents(0);
    assert PiServo.Before(y, e, 0) == y;
    PiServo.BeforeNext(y, e, 0);
    PiServo.BeforeNext(y, e, 1);
    PiServo.BeforeNext(y, e, 2);
    assert e[..3] == e;
    StrongSettings();
  }

  lemma StrongSettings()
    ensures var s := PiServo.Next(PiServo.Next(PiServo.Next(STRONG_SERVO, PiServo.EVERY_SECOND), PiServo.At(1, 500)),
                                  PiServo.At(2, 500));
            StrongTracks(s)
  {
    var s0 := PiServo.Next(STRONG_SERVO, PiServo.EVERY_SECOND);
    assert s0.pi.kp == 1.0 && s0.pi.ki == 1.5;
    assert s0.common.maxFrequency == 1000.0;
    var s1 := PiServo.Next(s0, PiServo.At(1, 500));
    assert PiServo.Span(1000000000, 2000000000) >= PiServo.EstimationInterval(1.5);
    assert PiServo.EstimatedDrift(s1.pi, 500, 2000000000) == 0.0;
  }
}
