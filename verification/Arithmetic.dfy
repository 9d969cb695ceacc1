/** Two facts about division that the ring positions and the session ids rest on. */
module Arithmetic {
  lemma MultipleIsFar(d: int, m: int)
    requires m > 0
    ensures d >= 1 ==> d * m >= m
    ensures d <= -1 ==> d * m <= -m
  {
  }

  /** A remainder is determined by any quotient that leaves one in range. */
  lemma RemainderIsUnique(a: int, m: int, q: int, r: int)
    requires 0 <= r < m && a == q * m + r
    ensures a % m == r
  {
    var d := a / m - q;
    assert d * m == r - a % m;
    MultipleIsFar(d, m);
  }
}
