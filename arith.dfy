/** Integer division facts, stated once so that the other modules need no nonlinear reasoning. */
module Arith {

  /** Euclidean quotient bounds. */
  lemma {:induction false} QuotientBounds(a: int, b: int)
    requires a >= 0 && b > 0
    ensures b * (a / b) <= a < b * (a / b) + b
  {
    var q, r := a / b, a % b;
    assert a == b * q + r && 0 <= r < b;
  }

  /** Multiples by a positive d of two distinct integers are at least d apart. */
  lemma {:induction false} MultiplesApart(d: int, r: int, s: int)
    requires d > 0
    ensures r > s ==> d * r - d * s >= d
  {
    if r > s {
      var e := r - s - 1;
      assert d * r - d * s == d + d * e;
      assert d * e >= 0;
    }
  }

  /** Quotient and remainder are the only pair that reassembles n. */
  lemma {:induction false} DivModUnique(n: int, d: int, q: int, r: int)
    requires d > 0 && n == d * q + r && 0 <= r < d
    ensures n / d == q && n % d == r
  {
    var q', r' := n / d, n % d;
    assert n == d * q' + r' && 0 <= r' < d;
    MultiplesApart(d, q, q');
    MultiplesApart(d, q', q);
  }

  /**
   * The product a * b, defined by recursion on b; MulIsProduct shows it is
   * the ordinary product.  Amounts defined with it keep products away from
   * the solver in proofs that only compare or move those amounts.
   */
  function Mul(a: int, b: int): int
    decreases if b < 0 then -b else b
  {
    if b == 0 then 0 else if b > 0 then Mul(a, b - 1) + a else Mul(a, b + 1) - a
  }

  lemma {:induction false} MulIsProduct(a: int, b: int)
    ensures Mul(a, b) == a * b
    decreases if b < 0 then -b else b
  {
    if b > 0 {
      MulIsProduct(a, b - 1);
    } else if b < 0 {
      MulIsProduct(a, b + 1);
    }
  }
}
