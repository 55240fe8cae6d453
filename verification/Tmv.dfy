/** Signed 64-bit time values (tmv.h): nanosecond counts whose sums and differences wrap modulo 2^64. */
module Tmv {

  const TWO_63: int := 0x8000_0000_0000_0000
  const TWO_64: int := 0x1_0000_0000_0000_0000

  predicate Fits(n: int) {
    -TWO_63 <= n < TWO_63
  }

  /** The int64_t with the same residue modulo 2^64 as n. */
  function Wrap(n: int): (r: int)
    ensures Fits(r)
    ensures Fits(n) <==> r == n
  {
    (n + TWO_63) % TWO_64 - TWO_63
  }

  /** How often the value wraps around. */
  ghost function Turns(n: int): int {
    (n + TWO_63) / TWO_64
  }

  lemma WrapTurns(n: int)
    ensures n == Wrap(n) + Turns(n) * TWO_64
  {
  }

  function Add(a: int, b: int): int {
    Wrap(a + b)
  }

  function Sub(a: int, b: int): int {
    Wrap(a - b)
  }

  /** C integer division: truncation toward zero. */
  function Div(a: int, divisor: int): (r: int)
    requires divisor > 0
    ensures a >= 0 ==> r * divisor <= a < (r + 1) * divisor
    ensures a < 0 ==> (r - 1) * divisor < a <= r * divisor
  {
    if a >= 0 then a / divisor else -((-a) / divisor)
  }

  function Cmp(a: int, b: int): int {
    if a == b then 0 else if a > b then 1 else -1
  }

  function Sign(a: int): int {
    if a == 0 then 0 else if a > 0 then 1 else -1
  }

  /** C conversion from double to integer: truncation toward zero. */
  function Truncate(x: real): (r: int)
    ensures x >= 0.0 ==> 0 <= r && r as real <= x < r as real + 1.0
    ensures x < 0.0 ==> r <= 0 && r as real - 1.0 < x <= r as real
  {
    if x >= 0.0 then x.Floor else -((-x).Floor)
  }

  /** Wrapping is idempotent under any further sum: only the residue matters. */
  lemma WrapUnique(n: int, m: int, k: int)
    requires n == m + k * TWO_64
    ensures Wrap(n) == Wrap(m)
  {
    WrapTurns(n);
    WrapTurns(m);
    var turns := Turns(m) + k - Turns(n);
    assert Wrap(n) - Wrap(m) == turns * TWO_64;
    assert turns == 0;
  }

  lemma WrapAbsorbs(a: int, b: int)
    ensures Add(Wrap(a), b) == Wrap(a + b) == Add(a, Wrap(b))
    ensures Sub(Wrap(a), b) == Wrap(a - b) == Sub(a, Wrap(b))
  {
    WrapTurns(a);
    WrapTurns(b);
    var k, l := Turns(a), Turns(b);
    WrapUnique(a + b, Wrap(a) + b, k);
    WrapUnique(a + b, a + Wrap(b), l);
    WrapUnique(a - b, Wrap(a) - b, k);
    WrapUnique(a - b, a - Wrap(b), -l);
  }

  /** The uint64_t with the same residue modulo 2^64 as n. */
  function Unsigned(n: int): (r: int)
    ensures 0 <= r < TWO_64
  {
    n % TWO_64
  }

  /** Differences of values kept modulo 2^64, read as signed numbers, are right exactly when the true ones fit. */
  lemma MachineDifference(a: int, b: int)
    ensures Wrap(Unsigned(Unsigned(a) - Unsigned(b))) == a - b <==> Fits(a - b)
  {
    var d := Unsigned(a) - Unsigned(b);
    var k := a / TWO_64 - b / TWO_64 + d / TWO_64;
    assert a == Unsigned(a) + a / TWO_64 * TWO_64 && b == Unsigned(b) + b / TWO_64 * TWO_64;
    assert d == Unsigned(d) + d / TWO_64 * TWO_64;
    WrapUnique(a - b, Unsigned(d), k);
  }

  lemma WrapSum(a: int, b: int, sum: int)
    requires a + b == sum
    ensures Add(Wrap(a), Wrap(b)) == Wrap(sum)
  {
    WrapAbsorbs(a, Wrap(b));
    WrapAbsorbs(a, b);
  }

  /** Truncating division keeps a value inside bounds that hold for the exact quotient. */
  lemma DivBetween(a: int, divisor: int, lo: int, hi: int)
    requires divisor > 0 && lo * divisor <= a <= hi * divisor
    ensures lo <= Div(a, divisor) <= hi
  {
    var r := Div(a, divisor);
    if r < lo {
      MulOrder(r + 1, lo, divisor);
      assert false;
    }
    if r > hi {
      MulOrder(hi, r - 1, divisor);
      assert false;
    }
  }

  lemma MulOrder(a: int, b: int, d: int)
    requires a <= b && d > 0
    ensures a * d <= b * d
  {
  }

  /** Dividing a wrapped sum is right exactly when the sum did not wrap. */
  lemma WrappedQuotient(n: int, divisor: int)
    requires 0 < divisor < TWO_63
    ensures Div(Wrap(n), divisor) == Div(n, divisor) <==> Fits(n)
  {
    if !Fits(n) {
      WrapTurns(n);
      assert n >= Wrap(n) + TWO_64 || n <= Wrap(n) - TWO_64;
      if n >= Wrap(n) + TWO_64 {
        QuotientsApart(Wrap(n), n, divisor);
      } else {
        QuotientsApart(n, Wrap(n), divisor);
      }
    }
  }

  lemma QuotientsApart(a: int, b: int, divisor: int)
    requires 0 < divisor < TWO_63 && b - a >= TWO_64
    ensures Div(a, divisor) < Div(b, divisor)
  {
    var q, r := Div(a, divisor), Div(b, divisor);
    assert (q - 1) * divisor < (r - 1) * divisor by {
      assert (q - 1) * divisor <= a;
      assert b <= (r + 1) * divisor == (r - 1) * divisor + 2 * divisor;
    }
    MulCancel(q - 1, r - 1, divisor);
  }

  lemma MulCancel(a: int, b: int, d: int)
    requires d > 0 && a * d < b * d
    ensures a < b
  {
    if b <= a {
      MulOrder(b, a, d);
    }
  }
}
