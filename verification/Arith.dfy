/** Division with a variable divisor. */
module Arith {
  lemma MulAtLeast(m: int, d: int)
    requires m > 0 && d >= 1
    ensures m * d >= m
  {
  }

  lemma MulLess(m: int, a: int, b: int)
    requires m > 0
    ensures a < b ==> m * a + m <= m * b
  {
    if a < b {
      MulAtLeast(m, b - a);
    }
  }

  /** Quotient and remainder are unique. */
  lemma DivModUnique(x: int, m: int, q: int, r: int)
    requires m > 0 && 0 <= r < m && x == m * q + r
    ensures x / m == q && x % m == r
  {
    assert x == m * (x / m) + x % m;
    MulLess(m, x / m, q);
    MulLess(m, q, x / m);
  }

  /** Counting up modulo `m`. */
  lemma ModSuccessor(c: int, m: int)
    requires m > 0
    ensures (c + 1) % m == if c % m + 1 == m then 0 else c % m + 1
  {
    var q := c / m;
    assert c == m * q + c % m;
    if c % m + 1 == m {
      assert m * (q + 1) == m * q + m;
      DivModUnique(c + 1, m, q + 1, 0);
    } else {
      DivModUnique(c + 1, m, q, c % m + 1);
    }
  }
}
