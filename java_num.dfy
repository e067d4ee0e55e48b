/** Java's numeric conversions and integer division, stated over Dafny's
    unbounded `int` and exact `real`. Float rounding and the saturation of
    `(int)` at the ends of the 32-bit range are not modelled. */
module JavaNum {

  function Abs(n: int): int { if n < 0 then -n else n }

  function RealAbs(x: real): real { if x < 0.0 then -x else x }

  /** Java's `(int) x` for a float `x`: truncation toward zero, which for a
      negative `x` rounds up (Dafny's `.Floor` would round down). */
  function Trunc(x: real): (r: int)
    ensures 0.0 <= x ==> 0 <= r && r as real <= x < r as real + 1.0
    ensures x < 0.0 ==> r <= 0 && r as real - 1.0 < x <= r as real
  {
    if x >= 0.0 then x.Floor else -((-x).Floor)
  }

  /** Java's `a / b` on ints: the quotient truncated toward zero, so the
      remainder `a - q * b` has the sign of `a` and is smaller than `b` in
      magnitude. (Dafny's own `/` is Euclidean.) */
  function Div(a: int, b: int): (q: int)
    requires b != 0
    ensures 0 <= a ==> 0 <= a - q * b < Abs(b)
    ensures a <= 0 ==> -Abs(b) < a - q * b <= 0
    ensures 0 <= a && 0 < b ==> 0 <= q
  {
    if b > 0 then
      if a >= 0 then EuclidQuotient(a, b); a / b
      else EuclidQuotient(-a, b); -((-a) / b)
    else
      if a >= 0 then EuclidQuotient(a, -b); -(a / -b)
      else EuclidQuotient(-a, -b); (-a) / (-b)
  }

  /** For a non-negative dividend and a positive divisor, Dafny's `/`
      already truncates toward zero. */
  lemma EuclidQuotient(a: int, b: int)
    requires 0 <= a && 0 < b
    ensures 0 <= a / b && 0 <= a - (a / b) * b < b
  {
    assert a == (a / b) * b + a % b;
  }

  /** A multiple of `b` that is smaller than `b` in magnitude is zero. */
  lemma SmallMultipleIsZero(m: int, b: int)
    requires b != 0 && Abs(m * b) < Abs(b)
    ensures m == 0
  {
    if m > 0 {
      assert Abs(m * b) == m * Abs(b);
      MulAtLeast(m, Abs(b));
    } else if m < 0 {
      assert Abs(m * b) == (-m) * Abs(b);
      MulAtLeast(-m, Abs(b));
    }
  }

  lemma MulAtLeast(m: int, c: int)
    requires 1 <= m && 0 <= c
    ensures c <= m * c
  {
    assert m * c == (m - 1) * c + c;
    MulNonNegative(m - 1, c);
  }

  lemma MulNonNegative(a: int, c: int)
    requires 0 <= a && 0 <= c
    ensures 0 <= a * c
  {
  }

  /** `Div` is the only quotient with a remainder of `a`'s sign smaller than `b`. */
  lemma DivUnique(a: int, b: int, q: int)
    requires b != 0
    requires 0 <= a ==> 0 <= a - q * b < Abs(b)
    requires a <= 0 ==> -Abs(b) < a - q * b <= 0
    ensures q == Div(a, b)
  {
    QuotientUnique(a, b, Div(a, b), q);
  }

  lemma QuotientUnique(a: int, b: int, p: int, q: int)
    requires b != 0
    requires 0 <= a ==> 0 <= a - p * b < Abs(b) && 0 <= a - q * b < Abs(b)
    requires a <= 0 ==> -Abs(b) < a - p * b <= 0 && -Abs(b) < a - q * b <= 0
    ensures p == q
  {
    var r, s := a - q * b, a - p * b;
    assert Abs(r - s) < Abs(b);
    assert (p - q) * b == r - s by {
      assert (p - q) * b == p * b - q * b;
    }
    SmallMultipleIsZero(p - q, b);
  }
}
