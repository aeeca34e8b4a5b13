/** Facts about Dafny's (Euclidean) remainder by a positive divisor, used
    where C++ remainders on non-negative or negated operands are modelled. */
module Remainders {
  /** A remainder of a value already below the divisor is the value. */
  lemma SmallRemainder(x: int, n: int)
    requires 0 <= x < n
    ensures x % n == x
  {
  }

  /** A value between one and two divisors leaves the divisor's excess. */
  lemma OneWrapRemainder(y: int, n: int)
    requires 0 < n <= y < 2 * n
    ensures y % n == y - n
  {
    var q, r := y / n, y % n;
    assert y == q * n + r;
    assert q <= 0 ==> q * n <= 0;
    assert q >= 2 ==> q * n >= 2 * n;
  }

  /** For a non-negative dividend, the dividend minus its remainder is a
      multiple of the divisor, and so is its negation. */
  lemma TruncatedRemainderDivides(a: int, m: int)
    requires 0 <= a && 0 < m
    ensures (a - a % m) % m == 0
    ensures (-a + a % m) % m == 0
  {
    var q := a / m;
    assert a - a % m == q * m;
    assert -a + a % m == (-q) * m;
    MultipleRemainder(q, m);
    MultipleRemainder(-q, m);
  }

  /** A multiple of a positive divisor leaves no remainder. */
  lemma MultipleRemainder(q: int, m: int)
    requires 0 < m
    ensures (q * m) % m == 0
  {
    var k, r := (q * m) / m, (q * m) % m;
    assert q * m == k * m + r;
    assert (q - k) * m == r;
    assert q - k >= 1 ==> (q - k) * m >= m;
    assert q - k <= -1 ==> (q - k) * m <= -m;
  }
}
