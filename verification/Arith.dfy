/** Division by unique quotient and remainder. */
module Arith {
  lemma QuotientUnique(w: int, q: int, rem: int, d: int)
    requires 0 <= rem < d && w == q * d + rem
    ensures w / d == q && w % d == rem
  {
    var e := w / d;
    assert w == e * d + w % d;
    assert e + 1 <= q ==> (e + 1) * d <= q * d;
    assert q + 1 <= e ==> (q + 1) * d <= e * d;
  }
}
