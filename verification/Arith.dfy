/** Floor division and products, in the forms the rounding proofs use. */
module Arith {

  lemma DivBounds(n: int, d: int)
    requires d > 0
    ensures (n / d) * d <= n < (n / d) * d + d
    ensures n >= 0 ==> n / d >= 0
  {
  }

  lemma MulMonotone(x: int, y: int, k: int)
    requires x <= y && k >= 0
    ensures x * k <= y * k
  {
  }

  /** The floor of a quotient is the largest integer not above it. */
  lemma QuotientAtLeast(q: int, n: int, d: int)
    requires d > 0 && q * d <= n
    ensures q <= n / d
  {
    var f := n / d;
    DivBounds(n, d);
    assert (f + 1) * d == f * d + d;
    if f < q {
      MulMonotone(f + 1, q, d);
      assert false;
    }
  }

  lemma QuotientBelow(q: int, n: int, d: int)
    requires d > 0 && n < q * d
    ensures n / d < q
  {
    DivBounds(n, d);
    if n / d >= q {
      MulMonotone(q, n / d, d);
      assert false;
    }
  }

  lemma DivExact(q: int, d: int)
    requires d > 0
    ensures (q * d) / d == q
    ensures (d * q) / d == q
  {
    var n := q * d;
    assert n == d * q;
    QuotientAtLeast(q, n, d);
    assert n < (q + 1) * d;
    QuotientBelow(q + 1, n, d);
  }

  lemma CastProduct(x: int, y: int)
    ensures (x * y) as real == x as real * y as real
  {
  }
}
