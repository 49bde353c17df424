/** Division facts the time grids rest on. */
module Arithmetic {
  /** A multiple of d other than 0 is at least d away from it. */
  lemma Steps(k: int, d: int)
    requires d > 0
    ensures k >= 1 ==> k * d >= d
    ensures k <= -1 ==> k * d <= -d
  {
  }

  lemma Quotient(n: int, q: int, d: int)
    requires d > 0 && n == q * d
    ensures n / d == q && n % d == 0
  {
    QuotientWithin(n, q, 0, d);
  }

  /** n / d and n % d are the only way to write n as q·d + r with 0 <= r < d. */
  lemma QuotientWithin(n: int, q: int, r: int, d: int)
    requires d > 0 && n == q * d + r && 0 <= r < d
    ensures n / d == q && n % d == r
  {
    var k := n / d - q;
    assert k * d == n / d * d - q * d;
    Steps(k, d);
  }

  lemma Multiples(a: int, b: int, d: int)
    requires d > 0 && a % d == 0 && b % d == 0
    ensures (a - b) / d * d == a - b && (a - b) % d == 0
  {
    var q := a / d - b / d;
    assert a - b == q * d;
    Quotient(a - b, q, d);
  }
}
