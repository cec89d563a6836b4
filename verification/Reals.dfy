/** Signs of products and quotients, for the averaging arithmetic of the indicators. */
module Reals {

  function Abs(x: real): real {
    if x < 0.0 then -x else x
  }

  function Min(x: real, y: real): real {
    if x <= y then x else y
  }

  function Max(x: real, y: real): real {
    if x >= y then x else y
  }

  /** The weighted mean every indicator here smooths with. */
  function Mix(k: real, x: real, prev: real): real {
    k * x + (1.0 - k) * prev
  }

  lemma NonNegative(a: real, b: real)
    requires a >= 0.0 && b >= 0.0
    ensures a * b >= 0.0
  {
  }

  lemma Positive(a: real, b: real)
    requires a > 0.0 && b > 0.0
    ensures a * b > 0.0
  {
  }

  lemma ProductOfSum(x: real, y: real, c: real)
    ensures (x + y) * c == x * c + y * c
  {
  }

  lemma ProductOfDifference(a: real, x: real, y: real)
    ensures a * x - a * y == a * (x - y)
  {
  }

  /** Multiplying by a positive number keeps the sign. */
  lemma SameSign(a: real, b: real)
    requires b > 0.0
    ensures a > 0.0 <==> a * b > 0.0
    ensures a == 0.0 <==> a * b == 0.0
  {
  }

  /** Comparing a quotient with a number. */
  lemma QuotientBound(a: real, b: real, c: real)
    requires b > 0.0
    ensures (a / b) * b == a
    ensures a / b <= c <==> a <= c * b
    ensures a / b < c <==> a < c * b
    ensures a / b == c <==> a == c * b
  {
    SameSign(c - a / b, b);
    assert (c - a / b) * b == c * b - a;
  }

  /** A weighted mean lies between its two parts. */
  lemma Between(k: real, x: real, prev: real, lo: real, hi: real)
    requires 0.0 <= k <= 1.0 && lo <= x <= hi && lo <= prev <= hi
    ensures lo <= Mix(k, x, prev) <= hi
  {
    NonNegative(k, x - lo);
    NonNegative(1.0 - k, prev - lo);
    NonNegative(k, hi - x);
    NonNegative(1.0 - k, hi - prev);
  }
}
