/** Multiples of a positive step, for bucket boundaries and strides. */
module Integers {

  lemma Distributes(k: int, j: int, b: int)
    ensures (k - j) * b == k * b - j * b
  {
  }

  /** Different multiples lie at least one step apart. */
  lemma Distance(d: int, b: int)
    requires b > 0
    ensures d >= 1 ==> d * b >= b
    ensures d == 1 ==> d * b == b
    ensures d >= 2 ==> d * b >= 2 * b
    ensures d <= -1 ==> d * b <= -b
    ensures d == 0 ==> d * b == 0
  {
  }
}
