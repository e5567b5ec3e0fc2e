/** Small facts about products and division that the solver needs spelled out. */
module Arithmetic {
  function Min(a: nat, b: nat): nat {
    if a < b then a else b
  }

  lemma MulMonotone(a: nat, b: nat, c: nat)
    requires b <= c
    ensures 0 <= a * b <= a * c
  {
  }

  lemma DivMod(x: nat, y: nat)
    requires y > 0
    ensures x == y * (x / y) + x % y && 0 <= x % y < y && 0 <= x / y <= x
  {
    var q := x / y;
    MulMonotone(q, 1, y);
  }

  lemma QuotientOf(q: nat, hi: nat, lo: nat)
    requires lo < q
    ensures (q * hi + lo) / q == hi && (q * hi + lo) % q == lo
  {
    var w := q * hi + lo;
    DivMod(w, q);
    var k := w / q;
    if k < hi {
      MulMonotone(q, k + 1, hi);
    } else if k > hi {
      MulMonotone(q, hi + 1, k);
    }
  }
}
