/** Two facts about integer division that the sampling and ramp arithmetic
    rely on. */
module Arith {

  /** Multiplication by a positive factor can be cancelled from `<`. */
  lemma MulCancelLess(d: int, a: int, b: int)
    requires 0 < d && d * a < d * b
    ensures a < b
  {
  }

  /** If `d * q <= n < d * (q + 1)` then `n / d` is `q`. */
  lemma DivideBetween(n: nat, d: nat, q: nat)
    requires 0 < d
    requires d * q <= n < d * (q + 1)
    ensures n / d == q
  {
    var r := n / d;
    assert n == d * r + n % d;
    assert d * (r + 1) == d * r + d;
    MulCancelLess(d, r, q + 1);
    MulCancelLess(d, q, r + 1);
  }
}
