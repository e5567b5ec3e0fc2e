/** The multiplicative group IDEA computes in: integers modulo 65537, where the 16-bit word 0 stands for 65536. */
module IdeaArith {
  import opened Arithmetic
  import opened Words

  const P: nat := 0x1_0001

  /** The residue a 16-bit word stands for. */
  function Residue(x: Word16): (n: nat)
    ensures 1 <= n < P
  {
    if x == 0 then 0x1_0000 else x
  }

  /** The 16-bit word that stands for a nonzero residue. */
  function Encode(n: nat): (x: Word16)
    requires 1 <= n < P
    ensures Residue(x) == n
  {
    n % 0x1_0000
  }

  /** Reference product: multiply the residues modulo 65537. */
  ghost function Mul(x: Word16, y: Word16): Word16 {
    ProductNonzero(Residue(x), Residue(y));
    Encode(Residue(x) * Residue(y) % P)
  }

  /** The word whose product with `x` is 1. */
  ghost function Inverse(x: Word16): (y: Word16)
    ensures Mul(x, y) == 1
  {
    InverseExists(x);
    var y: Word16 :| Mul(x, y) == 1;
    y
  }

  // ---------- 65537 is prime, so nonzero residues form a group ----------

  lemma NoSmallFactor(a: int, b: int)
    requires 2 <= a <= 256
    ensures a * b != P
  {
  }

  lemma NoFactors(a: nat, b: nat)
    requires 2 <= a && 2 <= b
    ensures a * b != P
  {
    if a <= 256 {
      NoSmallFactor(a, b);
    } else if b <= 256 {
      NoSmallFactor(b, a);
    } else {
      assert a * b >= 257 * 257;
    }
  }

  /** Every nonzero residue has an inverse: by Euclid's descent on 65537 % x. */
  lemma {:induction false} BezoutInverse(x: nat) returns (z: int, k: int)
    requires 1 <= x < P
    ensures x * z == 1 + P * k
    decreases x
  {
    if x == 1 {
      z, k := 1, 0;
    } else {
      var q, y := P / x, P % x;
      assert P == x * q + y;
      if y == 0 {
        assert q >= 2;
        NoFactors(x, q);
      }
      var z', k' := BezoutInverse(y);
      // x * q == P - y, so x * (-q * z') == y * z' - P * z' == 1 + P * (k' - z')
      z, k := -q * z', k' - z';
      assert x * z == -(x * q) * z';
      assert (P - y) * z' == P * z' - y * z';
    }
  }

  lemma ModShift(n: int, k: int)
    ensures (n + P * k) % P == n % P
  {
  }

  lemma ProductNonzero(a: nat, b: nat)
    requires 1 <= a < P && 1 <= b < P
    ensures a * b % P != 0
  {
    if a * b % P == 0 {
      var z, k := BezoutInverse(b);
      var m := a * b / P;
      MultipleCancels(a, b, z, k, m);
      ModShift(a, a * k - m * z);
    }
  }

  /** If b has inverse z and a * b is a multiple of 65537, then so is a. */
  lemma MultipleCancels(a: int, b: int, z: int, k: int, m: int)
    requires b * z == 1 + P * k && a * b == P * m
    ensures a + P * (a * k - m * z) == 0
  {
    assert a * (b * z) == (a * b) * z;
    assert a * (1 + P * k) == a + P * (a * k);
    assert (P * m) * z == P * (m * z);
  }

  lemma ProductModLeft(a: nat, b: nat)
    ensures (a % P) * b % P == a * b % P
  {
    var q := a / P;
    assert a == P * q + a % P;
    assert a * b == (a % P) * b + P * (q * b);
    ModShift((a % P) * b, q * b);
  }

  lemma MulAssociative(x: Word16, y: Word16, z: Word16)
    ensures Mul(Mul(x, y), z) == Mul(x, Mul(y, z))
  {
    var a, b, c := Residue(x), Residue(y), Residue(z);
    ProductNonzero(a, b);
    ProductNonzero(b, c);
    ProductModLeft(a * b, c);
    ProductModLeft(b * c, a);
    assert a * b * c == b * c * a;
    assert a * (b * c % P) == (b * c % P) * a;
  }

  lemma MulCommutes(x: Word16, y: Word16)
    ensures Mul(x, y) == Mul(y, x)
  {
  }

  lemma MulOne(x: Word16)
    ensures Mul(x, 1) == x == Mul(1, x)
  {
  }

  /** Multiplying by a key word and then by its inverse gives the operand back. */
  lemma MulCancel(x: Word16, k: Word16)
    ensures Mul(Mul(x, k), Inverse(k)) == x
  {
    MulAssociative(x, k, Inverse(k));
    MulOne(x);
  }

  lemma InverseUnique(x: Word16, y: Word16)
    requires Mul(x, y) == 1
    ensures y == Inverse(x)
  {
    MulCancel(y, x);
    MulCommutes(x, y);
    MulOne(Inverse(x));
  }

  lemma InverseInvolutive(x: Word16)
    ensures Inverse(Inverse(x)) == x
  {
    MulCommutes(x, Inverse(x));
    InverseUnique(Inverse(x), x);
  }

  lemma InverseExists(x: Word16)
    ensures exists y: Word16 :: Mul(x, y) == 1
  {
    var a := Residue(x);
    var z, k := BezoutInverse(a);
    var b := z % P;
    assert z == P * (z / P) + b;
    assert a * z == a * b + P * (a * (z / P));
    ModShift(a * b, a * (z / P));
    ModShift(1, k);
    assert a * b % P == 1;
    assert b != 0;
    var y := Encode(b);
    assert Mul(x, y) == 1;
  }

  // ---------- the code ----------

  /** The MUL macro: 16x16->32 multiply, then low half minus high half. */
  method MulLowHigh(x0: Word16, y: Word16) returns (x: Word16)
    ensures x == Mul(x0, y)
  {
    x := x0;
    var t16: Word16 := y;
    if t16 != 0 {
      if x != 0 {
        var t32 := Product32(x, t16);
        x := t32 % 0x1_0000;
        t16 := t32 / 0x1_0000;
        LowMinusHigh(x0, y, x, t16);
        x := Add16(Sub16(x, t16), if x < t16 then 1 else 0);
      } else {
        MulByMinusOne(y);
        MulCommutes(x0, y);
        x := Sub16(1, t16);
      }
    } else {
      MulByMinusOne(x0);
      x := Sub16(1, x);
    }
  }

  /** The 32-bit product of two 16-bit words does not wrap. */
  function Product32(x: Word16, y: Word16): (p: Word32)
    ensures p == x * y
  {
    MulMonotone(x, y, 0xFFFF);
    MulMonotone(0xFFFF, x, 0xFFFF);
    x * y
  }

  /** 65536 is -1 modulo 65537, so 2^16 * hi + lo is congruent to lo - hi. */
  lemma LowMinusHigh(x: Word16, y: Word16, lo: Word16, hi: Word16)
    requires x != 0 && y != 0 && x * y == 0x1_0000 * hi + lo
    ensures Mul(x, y) == Add16(Sub16(lo, hi), if lo < hi then 1 else 0)
    ensures lo != hi
  {
    ProductNonzero(x, y);
    DifferenceResidue(x * y, lo, hi);
    DifferenceWord(lo, hi);
  }

  lemma DifferenceResidue(n: nat, lo: Word16, hi: Word16)
    requires n == 0x1_0000 * hi + lo && n % P != 0
    ensures lo != hi && n % P == if lo < hi then lo - hi + P else lo - hi
  {
    ModShift(lo - hi, hi);
    ModShift(lo - hi + P, -1);
  }

  lemma DifferenceWord(lo: Word16, hi: Word16)
    requires lo != hi
    ensures var d := if lo < hi then lo - hi + P else lo - hi;
      1 <= d < P && Encode(d) == Add16(Sub16(lo, hi), if lo < hi then 1 else 0)
  {
    assert Sub16(lo, hi) == if lo < hi then lo - hi + 0x1_0000 else lo - hi;
  }

  lemma MulByMinusOne(x: Word16)
    ensures Mul(x, 0) == Sub16(1, x)
  {
    var a := Residue(x);
    ProductNonzero(a, 0x1_0000);
    assert a * 0x1_0000 == (P - a) + P * (a - 1);
    ModShift(P - a, a - 1);
  }

  /**
   * Extended Euclid on (65537, x), unrolled two divisions to an iteration. Every assignment below is to a
   * 16-bit word, so verification also shows that no coefficient wraps.
   */
  method MulInv(x0: Word16) returns (r: Word16)
    ensures Mul(x0, r) == 1
    ensures r == Inverse(x0)
  {
    r := MulInvEuclid(x0);
    InverseUnique(x0, r);
  }

  method MulInvEuclid(x0: Word16) returns (r: Word16)
    ensures Mul(x0, r) == 1
  {
    hide Mul, Coefficients;
    var x: Word16 := x0;
    if x <= 1 {
      OwnInverse(x);
      return x;
    }
    FirstDivision(x);
    var t1: Word16 := P / x;
    var y: Word16 := P % x;
    if y == 1 {
      return Sub16(1, t1);
    }
    var t0: Word16 := 1;
    while true
      invariant 2 <= y < x && Coefficients(x0, x, y, t0, t1)
      decreases y
    {
      DivMod(x, y);
      var q: Word16 := x / y;
      EvenStep(x0, x, y, t0, t1, q, x % y);
      x := x % y;
      t0 := t0 + q * t1;
      if x == 1 {
        CongruentToOne(x0, y, t0, t1);
        return t0;
      }
      DivMod(y, x);
      q := y / x;
      OddStep(x0, x, y, t0, t1, q, y % x);
      y := y % x;
      t1 := t1 + q * t0;
      if y == 1 {
        break;
      }
    }
    CongruentToMinusOne(x0, x, t0, t1);
    return Sub16(1, t1);
  }

  lemma OwnInverse(x: Word16)
    requires x <= 1
    ensures Mul(x, x) == 1
  {
  }

  lemma FirstDivision(x: Word16)
    requires 2 <= x
    ensures 1 <= P / x <= 0x8000 && 1 <= P % x < x
    ensures if P % x == 1 then Mul(x, Sub16(1, P / x)) == 1 else Coefficients(x, x, P % x, 1, P / x)
  {
    var t1, y := P / x, P % x;
    DivMod(P, x);
    MulMonotone(t1, 2, x);
    if y == 0 {
      NoFactors(x, t1);
    } else if y == 1 {
      MinusInverse(x, t1);
    }
  }

  /** What the loop keeps: t0 and -t1 are the Bezout coefficients of x and y, and they sum to 65537. */
  ghost predicate Coefficients(x0: nat, x: nat, y: nat, t0: nat, t1: nat) {
    && 1 <= t0 && 1 <= t1
    && x * t1 + y * t0 == P
    && (x0 * t0 - x) % P == 0
    && (x0 * t1 + y) % P == 0
  }

  lemma EvenStep(x0: nat, x: nat, y: Word16, t0: nat, t1: nat, q: nat, r: nat)
    requires 2 <= y && Coefficients(x0, x, y, t0, t1) && x == y * q + r
    ensures 1 <= r && 0 <= q * t1 && t0 + q * t1 < 0x1_0000
    ensures Coefficients(x0, r, y, t0 + q * t1, t1)
  {
    EuclidStep(x, y, t0, t1, q, r);
    CongruenceStep(x0, x, y, r, q, t0, t1);
  }

  lemma OddStep(x0: nat, x: Word16, y: nat, t0: nat, t1: nat, q: nat, r: nat)
    requires 2 <= x && Coefficients(x0, x, y, t0, t1) && y == x * q + r
    ensures 1 <= r && 0 <= q * t0 && t1 + q * t0 < 0x1_0000
    ensures Coefficients(x0, x, r, t0, t1 + q * t0)
  {
    EuclidStep(y, x, t1, t0, q, r);
    MirroredCongruenceStep(x0, x, y, r, q, t0, t1);
  }

  /** One division x == y * q + r: the coefficients still sum to 65537, fit 16 bits, and the remainder is not 0. */
  lemma EuclidStep(x: nat, y: Word16, t0: nat, t1: nat, q: nat, r: nat)
    requires 2 <= y && 1 <= t0 && x == y * q + r
    requires x * t1 + y * t0 == P
    ensures 0 <= q * t1 && t0 + q * t1 <= 0x8000
    ensures r * t1 + y * (t0 + q * t1) == P
    ensures 1 <= r
  {
    MulMonotone(q, 0, t1);
    var t: nat := t0 + q * t1;
    SumStep(x, y, q, r, t0, t1);
    if r == 0 {
      NoFactors(y, t);
    }
    MulMonotone(t, 2, y);
    MulMonotone(t1, 0, r);
  }

  lemma SumStep(x: nat, y: nat, q: nat, r: nat, t0: nat, t1: nat)
    requires x == y * q + r
    ensures r * t1 + y * (t0 + q * t1) == x * t1 + y * t0
  {
    assert (y * q + r) * t1 == (y * q) * t1 + r * t1;
    assert (y * q) * t1 == y * (q * t1);
    assert y * (t0 + q * t1) == y * t0 + y * (q * t1);
  }

  /** The same division keeps the coefficient congruent to the remainder. */
  lemma CongruenceStep(x0: int, x: int, y: int, r: int, q: int, t0: int, t1: int)
    requires x == y * q + r
    requires (x0 * t0 - x) % P == 0 && (x0 * t1 + y) % P == 0
    ensures (x0 * (t0 + q * t1) - r) % P == 0
  {
    var k0, k1 := (x0 * t0 - x) / P, (x0 * t1 + y) / P;
    assert x0 * t0 == x + P * k0 && x0 * t1 == -y + P * k1;
    assert x0 * (t0 + q * t1) == x0 * t0 + q * (x0 * t1);
    assert q * (-y + P * k1) == -(y * q) + P * (q * k1);
    ModShift(0, k0 + q * k1);
  }

  lemma MirroredCongruenceStep(x0: int, x: int, y: int, r: int, q: int, t0: int, t1: int)
    requires y == x * q + r
    requires (x0 * t0 - x) % P == 0 && (x0 * t1 + y) % P == 0
    ensures (x0 * (t1 + q * t0) + r) % P == 0
  {
    var k0, k1 := (x0 * t0 - x) / P, (x0 * t1 + y) / P;
    assert x0 * t0 == x + P * k0 && x0 * t1 == -y + P * k1;
    assert x0 * (t1 + q * t0) == x0 * t1 + q * (x0 * t0);
    assert q * (x + P * k0) == x * q + P * (q * k0);
    ModShift(0, k1 + q * k0);
  }

  lemma CongruentToOne(x0: Word16, y: nat, t0: Word16, t1: nat)
    requires x0 != 0 && Coefficients(x0, 1, y, t0, t1)
    ensures Mul(x0, t0) == 1
  {
    ModShift(1, (x0 * t0 - 1) / P);
  }

  lemma CongruentToMinusOne(x0: Word16, x: nat, t0: nat, t1: Word16)
    requires x0 != 0 && Coefficients(x0, x, 1, t0, t1)
    ensures Mul(x0, Sub16(1, t1)) == 1
  {
    MinusInverse(x0, t1);
  }

  /** When x * t1 is congruent to -1, the inverse of x is 65537 - t1, which in 16 bits is 1 - t1. */
  lemma MinusInverse(x: Word16, t1: Word16)
    requires x != 0 && t1 != 0
    requires (x * t1 + 1) % P == 0
    ensures Mul(x, Sub16(1, t1)) == 1
  {
    var r, k := P - t1, (x * t1 + 1) / P;
    assert Residue(Sub16(1, t1)) == r;
    assert x * t1 == -1 + P * k;
    assert x * r == 1 + P * (x - k);
    ModShift(1, x - k);
  }
}
