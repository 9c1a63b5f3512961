/** Order facts about products and quotients of reals, proved once by case analysis
    so that the proofs about ratios and weighted means need no nonlinear search. */
module RealOrder {

  /** Multiplying by a non-zero factor keeps or flips the sign, by the factor's sign. */
  lemma ProductSign(x: real, c: real)
    requires c != 0.0
    ensures c > 0.0 ==> (x >= 0.0 <==> x * c >= 0.0) && (x > 0.0 <==> x * c > 0.0)
    ensures c < 0.0 ==> (x >= 0.0 <==> x * c <= 0.0) && (x > 0.0 <==> x * c < 0.0)
  {
    if x > 0.0 {
      if c > 0.0 { assert x * c > 0.0; } else { assert x * c < 0.0; }
    } else if x < 0.0 {
      if c > 0.0 { assert x * c < 0.0; } else { assert x * c > 0.0; }
    } else {
      assert x * c == 0.0;
    }
  }

  /** A product of non-negative reals is non-negative. */
  lemma NonNegativeProduct(x: real, y: real)
    requires x >= 0.0 && y >= 0.0
    ensures x * y >= 0.0
  {
    if x > 0.0 && y > 0.0 {
      ProductSign(x, y);
    }
  }

  /** Comparing a quotient with a bound is comparing the numerator with the bound
      times the divisor, the order flipping for a negative divisor. */
  lemma QuotientOrder(n: real, d: real, k: real)
    requires d != 0.0
    ensures d > 0.0 ==> (k <= n / d <==> k * d <= n) && (n / d < k <==> n < k * d)
    ensures d < 0.0 ==> (k <= n / d <==> n <= k * d) && (n / d < k <==> k * d < n)
  {
    var q := n / d;
    assert q * d == n;
    assert n - k * d == (q - k) * d;
    ProductSign(q - k, d);
  }
}
