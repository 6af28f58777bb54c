/**
 * Exact-arithmetic counterparts of the numeric conversions main.py performs on
 * floats: `math.ceil` and `math.trunc` over reals, and truncating integer
 * division (Python's `int(trunc(a / d))`), which differs from Dafny's
 * Euclidean `/` on negative operands.
 */
module Arith {

  /** `math.ceil`: the least integer not below `x`. */
  function Ceil(x: real): (r: int)
    ensures (r - 1) as real < x <= r as real
  {
    -((-x).Floor)
  }

  /** `math.trunc`: drop the fractional part, rounding toward zero. */
  function Trunc(x: real): (r: int)
    ensures x >= 0.0 ==> r >= 0 && r as real <= x < r as real + 1.0
    ensures x <= 0.0 ==> r <= 0 && r as real - 1.0 < x <= r as real
  {
    if x >= 0.0 then x.Floor else -((-x).Floor)
  }

  /** Integer division rounding toward zero, as `int(math.trunc(a / d))` does for d > 0. */
  function TruncDiv(a: int, d: int): (q: int)
    requires d > 0
    ensures a >= 0 ==> q * d <= a < q * d + d
    ensures a < 0 ==> q * d - d < a <= q * d
  {
    if a >= 0 then
      var f := a / d;
      assert a == d * f + a % d;
      f
    else
      var f := (-a) / d;
      assert -a == d * f + (-a) % d;
      assert (-f) * d == -(f * d);
      -f
  }

  /** Multiplying by a positive factor keeps the sign. */
  lemma SignOfProduct(t: real, m: real)
    requires m > 0.0
    ensures (t * m >= 0.0) == (t >= 0.0)
    ensures (t * m > 0.0) == (t > 0.0)
  {
  }

  /** Dividing an inequality between products by a positive factor. */
  lemma QuotientBounds(f: real, n: real, m: real)
    requires m > 0.0 && f * m <= n < f * m + m
    ensures f <= n / m < f + 1.0
  {
    var x := n / m;
    assert x * m == n;
    assert (x - f) * m == n - f * m;
    SignOfProduct(x - f, m);
    assert (f + 1.0 - x) * m == f * m + m - n;
    SignOfProduct(f + 1.0 - x, m);
  }

  /** Truncating the exact quotient is the same as truncating integer division. */
  lemma TruncOfQuotient(a: int, d: int)
    requires d > 0
    ensures Trunc(a as real / d as real) == TruncDiv(a, d)
  {
    if a >= 0 {
      NonNegQuotient(a, d);
    } else {
      NonNegQuotient(-a, d);
      assert a as real / d as real == -((-a) as real / d as real);
    }
  }

  lemma NonNegQuotient(n: int, d: int)
    requires n >= 0 && d > 0
    ensures Trunc(n as real / d as real) == n / d
  {
    var f := n / d;
    assert f * d <= n < f * d + d by {
      assert n == d * f + n % d;
    }
    assert (f * d) as real == (f as real) * (d as real);
    QuotientBounds(f as real, n as real, d as real);
  }
}
