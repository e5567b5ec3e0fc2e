/** Steps of the MD5 transform on literal words: what a reader with pencil and paper would check, step by step. */
module Md5Digits {
  import opened Arithmetic
  import opened HexWords
  import opened Words
  import opened Md5Compress

  // ---------- the auxiliary functions, bit by bit ----------

  lemma {:induction false} SelectIs(n: nat, x: nat, y: nat, z: nat)
    ensures Or(n, And(n, x, y), And(n, Not(n, x), z)) == Bitwise(Select, n, x, y, z)
  {
    if n > 0 {
      SelectIs(n - 1, x / 2, y / 2, z / 2);
      SelectHalves(n, x, y, z);
    }
  }

  lemma SelectByLast(n: nat, x: nat, y: nat, z: nat)
    ensures Or(n, And(n, x, z), And(n, y, Not(n, z))) == Bitwise(Select, n, z, x, y)
  {
    AndCommutes(n, x, z);
    AndCommutes(n, y, Not(n, z));
    SelectIs(n, z, x, y);
  }

  lemma {:induction false} ParityIs(n: nat, x: nat, y: nat, z: nat)
    ensures Xor(n, Xor(n, x, y), z) == Bitwise(Parity, n, x, y, z)
  {
    if n > 0 {
      ParityIs(n - 1, x / 2, y / 2, z / 2);
      XorHalves(n, x, y);
    }
  }

  lemma OrHalves(n: nat, x: nat, y: nat)
    requires n > 0
    ensures Or(n, x, y) / 2 == Or(n - 1, x / 2, y / 2)
    ensures (Or(n, x, y) % 2 == 1) == (x % 2 == 1 || y % 2 == 1)
  {
  }

  lemma {:induction false} SkewIs(n: nat, x: nat, y: nat, z: nat)
    ensures Xor(n, y, Or(n, x, Not(n, z))) == Bitwise(Skew, n, x, y, z)
  {
    if n > 0 {
      SkewIs(n - 1, x / 2, y / 2, z / 2);
      NotHalves(n, z);
      OrHalves(n, x, Not(n, z));
    }
  }

  /** Whether f is the value of the auxiliary function of step i. */
  predicate OnAuxiliary(i: nat, b: Hex8, c: Hex8, d: Hex8, f: Hex8) {
    if i < 16 then OnHex8(Select, b, c, d, f)
    else if i < 32 then OnHex8(Select, d, b, c, f)
    else if i < 48 then OnHex8(Parity, b, c, d, f)
    else OnHex8(Skew, b, c, d, f)
  }

  lemma AuxiliaryValue(i: nat, b: Hex8, c: Hex8, d: Hex8, f: Hex8)
    requires OnAuxiliary(i, b, c, d, f)
    ensures Auxiliary(i, Value8(b), Value8(c), Value8(d)) == Value8(f)
  {
    hide OnHex8, Value8, Bitwise, Or, And, Not, Xor;
    var x, y, z := Value8(b), Value8(c), Value8(d);
    if i < 16 {
      SelectIs(32, x, y, z);
      OnHex8Value(Select, b, c, d, f);
    } else if i < 32 {
      SelectByLast(32, x, y, z);
      OnHex8Value(Select, d, b, c, f);
    } else if i < 48 {
      ParityIs(32, x, y, z);
      OnHex8Value(Parity, b, c, d, f);
    } else {
      SkewIs(32, x, y, z);
      OnHex8Value(Skew, b, c, d, f);
    }
  }

  // ---------- one step ----------

  /** Powers of two whose sum of exponents is 32. */
  predicate Halves(s: nat, p: nat, q: nat) {
    0 < s < 32 && p == Pow2(s) && q == Pow2(32 - s)
  }

  lemma RotateBy(s: nat, p: nat, q: nat, hi: nat, lo: nat)
    requires Halves(s, p, q) && hi < p && lo < q && q * hi + lo < 0x1_0000_0000
    ensures RotateLeft(q * hi + lo, s) == lo * p + hi
  {
    hide Pow2, RotateLeft;
    RotateParts(q * hi + lo, s);
    QuotientOf(q, hi, lo);
  }

  lemma SumOfFour(a: Word32, f: Word32, x: Word32, k: Word32, sum: Word32)
    requires a + f + x + k - sum in {0, 0x1_0000_0000, 0x2_0000_0000, 0x3_0000_0000}
    ensures Add32(Add32(Add32(a, f), x), k) == sum
  {
  }

  lemma SumOfTwo(b: Word32, r: Word32, n: Word32)
    requires b + r - n in {0, 0x1_0000_0000}
    ensures Add32(b, r) == n
  {
  }

  datatype Registers = Registers(a: Hex8, b: Hex8, c: Hex8, d: Hex8)

  function ChainOf(r: Registers): Chain {
    Chain(Value8(r.a), Value8(r.b), Value8(r.c), Value8(r.d))
  }

  /**
   * Step i as data: f is the value of its auxiliary function, hi and lo are what the rotation exchanges of its sum,
   * p and q the powers of two it shifts by, and n is the new register.
   */
  lemma OneStep(i: nat, start: Chain, x: seq<Word32>, r: Registers, p: nat, q: nat, f: Hex8, hi: nat, lo: nat, n: Hex8)
    returns (t: Registers)
    requires i < 64 && |x| == 16 && Steps(i, start, x) == ChainOf(r)
    requires Halves(Shift(i), p, q) && hi < p && lo < q && q * hi + lo < 0x1_0000_0000
    requires OnAuxiliary(i, r.b, r.c, r.d, f)
    requires Value8(r.a) + Value8(f) + x[MessageIndex(i)] + Sine(i) - (q * hi + lo)
          in {0, 0x1_0000_0000, 0x2_0000_0000, 0x3_0000_0000}
    requires 0 <= lo * p + hi < 0x1_0000_0000 && Value8(r.b) + (lo * p + hi) - Value8(n) in {0, 0x1_0000_0000}
    ensures t == Registers(r.d, n, r.b, r.c) && Steps(i + 1, start, x) == ChainOf(t)
  {
    hide Value8, OnAuxiliary, MessageIndex, Shift, Sine, Pow2, Auxiliary, Halves, RotateLeft, Add32;
    AuxiliaryValue(i, r.b, r.c, r.d, f);
    RotateBy(Shift(i), p, q, hi, lo);
    SumOfFour(Value8(r.a), Value8(f), x[MessageIndex(i)], Sine(i), q * hi + lo);
    SumOfTwo(Value8(r.b), lo * p + hi, Value8(n));
    t := Registers(r.d, n, r.b, r.c);
  }

  lemma Round1Shifts()
    ensures Halves(7, 0x80, 0x200_0000) && Halves(12, 0x1000, 0x10_0000)
    ensures Halves(17, 0x2_0000, 0x8000) && Halves(22, 0x40_0000, 0x400)
  {
    assert Pow2(7) == 0x80 && Pow2(10) == 0x400 && Pow2(12) == 0x1000 && Pow2(15) == 0x8000;
    assert Pow2(17) == 0x2_0000 && Pow2(20) == 0x10_0000 && Pow2(22) == 0x40_0000 && Pow2(25) == 0x200_0000;
  }

  lemma Round2Shifts()
    ensures Halves(5, 0x20, 0x800_0000) && Halves(9, 0x200, 0x80_0000)
    ensures Halves(14, 0x4000, 0x4_0000) && Halves(20, 0x10_0000, 0x1000)
  {
    assert Pow2(5) == 0x20 && Pow2(9) == 0x200 && Pow2(12) == 0x1000 && Pow2(14) == 0x4000;
    assert Pow2(18) == 0x4_0000 && Pow2(20) == 0x10_0000 && Pow2(23) == 0x80_0000 && Pow2(27) == 0x800_0000;
  }

  lemma Round3Shifts()
    ensures Halves(4, 0x10, 0x1000_0000) && Halves(11, 0x800, 0x20_0000)
    ensures Halves(16, 0x1_0000, 0x1_0000) && Halves(23, 0x80_0000, 0x200)
  {
    assert Pow2(4) == 0x10 && Pow2(9) == 0x200 && Pow2(11) == 0x800 && Pow2(16) == 0x1_0000;
    assert Pow2(21) == 0x20_0000 && Pow2(23) == 0x80_0000 && Pow2(28) == 0x1000_0000;
  }

  lemma Round4Shifts()
    ensures Halves(6, 0x40, 0x400_0000) && Halves(10, 0x400, 0x40_0000)
    ensures Halves(15, 0x8000, 0x2_0000) && Halves(21, 0x20_0000, 0x800)
  {
    assert Pow2(6) == 0x40 && Pow2(10) == 0x400 && Pow2(11) == 0x800 && Pow2(15) == 0x8000;
    assert Pow2(17) == 0x2_0000 && Pow2(21) == 0x20_0000 && Pow2(22) == 0x40_0000 && Pow2(26) == 0x400_0000;
  }
}
