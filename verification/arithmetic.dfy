/** Integer facts the other modules share. */
module Arithmetic {

  lemma MulLe(a: int, b: int, q: int)
    requires a <= b && q >= 0
    ensures a * q <= b * q
  {
  }

  lemma MulLt(a: int, b: int, q: int)
    requires a < b && q > 0
    ensures a * q < b * q
  {
  }

  lemma LtCancel(a: int, b: int, q: int)
    requires q > 0 && a * q < b * q
    ensures a < b
  {
    if b <= a {
      MulLe(b, a, q);
    }
  }

  lemma MulSwap(a: int, q: int, r: int)
    ensures (a * q) * r == (a * r) * q
  {
  }

  lemma ProductSign(c: int, r: int)
    requires r >= 0
    ensures c >= 0 ==> c * r >= 0
    ensures c <= 0 ==> c * r <= 0
  {
  }

  lemma DivBounds(n: int, d: int)
    requires d > 0
    ensures (n / d) * d <= n < (n / d + 1) * d
  {
  }

  lemma DivIs(n: int, d: int, q: int)
    requires d > 0 && q * d <= n < (q + 1) * d
    ensures n / d == q
  {
    DivBounds(n, d);
    LtCancel(n / d, q + 1, d);
    LtCancel(q, n / d + 1, d);
  }

  /** floor(floor(c*r/q) / r) == floor(c/q): two truncations lose nothing over one. */
  lemma NestedFloor(c: int, r: int, q: int)
    requires c >= 0 && 0 < r <= q
    ensures (c * r / q) / r == c / q
  {
    var a := c / q;
    var b := c * r / q;
    DivBounds(c, q);
    DivBounds(c * r, q);
    MulLe(a * q, c, r);
    MulSwap(a, q, r);
    LtCancel(a * r, b + 1, q);
    MulLt(c, (a + 1) * q, r);
    MulSwap(a + 1, q, r);
    LtCancel(b, (a + 1) * r, q);
    DivIs(b, r, a);
  }
}
