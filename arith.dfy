/** Small facts about arithmetic that the solver does not find alone. */
module Arith {

  function Abs(r: real): (a: real)
    ensures a >= 0.0 && (a == r || a == -r)
  {
    if r < 0.0 then -r else r
  }

  function Max(a: real, b: real): (m: real)
    ensures m >= a && m >= b && (m == a || m == b)
  {
    if a >= b then a else b
  }

  /** Multiplying by a positive factor keeps a strict order. */
  lemma MulLess(a: real, b: real, c: real)
    requires a < b && c > 0.0
    ensures a * c < b * c
  {
    assert b * c - a * c == (b - a) * c;
  }

  /** Multiplying by a positive factor keeps a weak order. */
  lemma MulLe(a: real, b: real, c: real)
    requires a <= b && c > 0.0
    ensures a * c <= b * c
  {
    if a < b {
      MulLess(a, b, c);
    }
  }

  lemma ZeroMul(a: real, c: real)
    requires a == 0.0
    ensures a * c == 0.0
  {
  }

  /** Dividing and multiplying back by the same non-zero factor. */
  lemma DivMul(a: real, b: real)
    requires b > 0.0
    ensures (a / b) * b == a
  {
  }

  /** A quotient of positive numbers is positive. */
  lemma DivPos(a: real, b: real)
    requires a > 0.0 && b > 0.0
    ensures a / b > 0.0
  {
  }

  /** A product of an integer and a positive integer stays within one factor only when it is zero. */
  lemma MulSmall(d: int, n: int)
    requires n > 0 && -n < d * n < n
    ensures d == 0
  {
  }

  /** The remainder is the unique `r` in `[0, n)` with `x == q * n + r`. */
  lemma ModUnique(x: int, n: int, q: int, r: int)
    requires n > 0 && 0 <= r < n && x == q * n + r
    ensures x % n == r
  {
    var d := q - x / n;
    assert x == (x / n) * n + x % n;
    assert d * n == q * n - (x / n) * n;
    MulSmall(d, n);
  }
}
