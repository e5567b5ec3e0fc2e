/** Words given by their hexadecimal digits, and bitwise operations of three operands evaluated digit by digit. */
module HexWords {
  import opened Words

  datatype Op = Select | Parity | Skew

  type Bit = b: int | 0 <= b < 2

  /** One bit: choose by x, add modulo 2, or y xor (x or not z). */
  function OnBits(op: Op, x: Bit, y: Bit, z: Bit): Bit {
    match op
    case Select => if x == 1 then y else z
    case Parity => if x == y then z else 1 - z
    case Skew => if x == 1 || z == 0 then 1 - y else y
  }

  function Bitwise(op: Op, n: nat, x: nat, y: nat, z: nat): nat {
    if n == 0 then 0 else 2 * Bitwise(op, n - 1, x / 2, y / 2, z / 2) + OnBits(op, x % 2, y % 2, z % 2)
  }

  /** A hexadecimal digit with its bits. */
  datatype Digit = Digit(v: nat, b3: Bit, b2: Bit, b1: Bit, b0: Bit)

  type HexDigit = d: Digit | d.v == 8 * d.b3 + 4 * d.b2 + 2 * d.b1 + d.b0 witness Digit(0, 0, 0, 0, 0)

  const H0: HexDigit := Digit(0, 0, 0, 0, 0)
  const H1: HexDigit := Digit(1, 0, 0, 0, 1)
  const H2: HexDigit := Digit(2, 0, 0, 1, 0)
  const H3: HexDigit := Digit(3, 0, 0, 1, 1)
  const H4: HexDigit := Digit(4, 0, 1, 0, 0)
  const H5: HexDigit := Digit(5, 0, 1, 0, 1)
  const H6: HexDigit := Digit(6, 0, 1, 1, 0)
  const H7: HexDigit := Digit(7, 0, 1, 1, 1)
  const H8: HexDigit := Digit(8, 1, 0, 0, 0)
  const H9: HexDigit := Digit(9, 1, 0, 0, 1)
  const HA: HexDigit := Digit(10, 1, 0, 1, 0)
  const HB: HexDigit := Digit(11, 1, 0, 1, 1)
  const HC: HexDigit := Digit(12, 1, 1, 0, 0)
  const HD: HexDigit := Digit(13, 1, 1, 0, 1)
  const HE: HexDigit := Digit(14, 1, 1, 1, 0)
  const HF: HexDigit := Digit(15, 1, 1, 1, 1)

  /** Whether f is the result of the operation on the digits x, y and z. */
  predicate OnDigits(op: Op, x: HexDigit, y: HexDigit, z: HexDigit, f: HexDigit) {
    && f.b3 == OnBits(op, x.b3, y.b3, z.b3) && f.b2 == OnBits(op, x.b2, y.b2, z.b2)
    && f.b1 == OnBits(op, x.b1, y.b1, z.b1) && f.b0 == OnBits(op, x.b0, y.b0, z.b0)
  }

  lemma LowBit(op: Op, n: nat, x: nat, y: nat, z: nat, a: Bit, b: Bit, c: Bit)
    ensures Bitwise(op, n + 1, 2 * x + a, 2 * y + b, 2 * z + c) == 2 * Bitwise(op, n, x, y, z) + OnBits(op, a, b, c)
  {
    hide OnBits;
  }

  lemma LowDigit(op: Op, n: nat, x: nat, y: nat, z: nat, u: HexDigit, v: HexDigit, w: HexDigit, f: HexDigit)
    requires OnDigits(op, u, v, w, f)
    ensures Bitwise(op, n + 4, 16 * x + u.v, 16 * y + v.v, 16 * z + w.v) == 16 * Bitwise(op, n, x, y, z) + f.v
  {
    hide Bitwise, OnBits;
    LowBit(op, n, x, y, z, u.b3, v.b3, w.b3);
    var x3, y3, z3 := 2 * x + u.b3, 2 * y + v.b3, 2 * z + w.b3;
    LowBit(op, n + 1, x3, y3, z3, u.b2, v.b2, w.b2);
    var x2, y2, z2 := 2 * x3 + u.b2, 2 * y3 + v.b2, 2 * z3 + w.b2;
    LowBit(op, n + 2, x2, y2, z2, u.b1, v.b1, w.b1);
    var x1, y1, z1 := 2 * x2 + u.b1, 2 * y2 + v.b1, 2 * z2 + w.b1;
    LowBit(op, n + 3, x1, y1, z1, u.b0, v.b0, w.b0);
  }

  /** A 16-bit word of four hexadecimal digits. */
  datatype Hex4 = Hex4(d3: HexDigit, d2: HexDigit, d1: HexDigit, d0: HexDigit)

  function Value4(h: Hex4): Word16 {
    0x1000 * h.d3.v + 0x100 * h.d2.v + 0x10 * h.d1.v + h.d0.v
  }

  predicate OnHex4(op: Op, x: Hex4, y: Hex4, z: Hex4, f: Hex4) {
    && OnDigits(op, x.d3, y.d3, z.d3, f.d3) && OnDigits(op, x.d2, y.d2, z.d2, f.d2)
    && OnDigits(op, x.d1, y.d1, z.d1, f.d1) && OnDigits(op, x.d0, y.d0, z.d0, f.d0)
  }

  lemma LowDigits(op: Op, n: nat, x: nat, y: nat, z: nat, u: HexDigit, v: HexDigit, w: HexDigit, f: HexDigit,
                  u': HexDigit, v': HexDigit, w': HexDigit, f': HexDigit)
    requires OnDigits(op, u, v, w, f) && OnDigits(op, u', v', w', f')
    ensures Bitwise(op, n + 8, 0x100 * x + (0x10 * u.v + u'.v), 0x100 * y + (0x10 * v.v + v'.v),
                    0x100 * z + (0x10 * w.v + w'.v))
         == 0x100 * Bitwise(op, n, x, y, z) + (0x10 * f.v + f'.v)
  {
    hide Bitwise, OnDigits;
    LowDigit(op, n, x, y, z, u, v, w, f);
    LowDigit(op, n + 4, 16 * x + u.v, 16 * y + v.v, 16 * z + w.v, u', v', w', f');
  }

  lemma LowHex4(op: Op, n: nat, x: nat, y: nat, z: nat, u: Hex4, v: Hex4, w: Hex4, f: Hex4)
    requires OnHex4(op, u, v, w, f)
    ensures Bitwise(op, n + 16, 0x1_0000 * x + Value4(u), 0x1_0000 * y + Value4(v), 0x1_0000 * z + Value4(w))
         == 0x1_0000 * Bitwise(op, n, x, y, z) + Value4(f)
  {
    hide Bitwise, OnDigits;
    var a, b, c := 0x10 * u.d3.v + u.d2.v, 0x10 * v.d3.v + v.d2.v, 0x10 * w.d3.v + w.d2.v;
    LowDigits(op, n, x, y, z, u.d3, v.d3, w.d3, f.d3, u.d2, v.d2, w.d2, f.d2);
    LowDigits(op, n + 8, 0x100 * x + a, 0x100 * y + b, 0x100 * z + c,
              u.d1, v.d1, w.d1, f.d1, u.d0, v.d0, w.d0, f.d0);
  }

  lemma NoBits(op: Op)
    ensures Bitwise(op, 0, 0, 0, 0) == 0
  {
  }

  lemma OnHex4Value(op: Op, x: Hex4, y: Hex4, z: Hex4, f: Hex4)
    requires OnHex4(op, x, y, z, f)
    ensures Bitwise(op, 16, Value4(x), Value4(y), Value4(z)) == Value4(f)
  {
    NoBits(op);
    hide OnHex4, Value4, Bitwise;
    LowHex4(op, 0, 0, 0, 0, x, y, z, f);
  }

  /** A 32-bit word of eight hexadecimal digits. */
  datatype Hex8 = Hex8(d7: HexDigit, d6: HexDigit, d5: HexDigit, d4: HexDigit,
                       d3: HexDigit, d2: HexDigit, d1: HexDigit, d0: HexDigit)

  function Value8(h: Hex8): Word32 {
    0x1000_0000 * h.d7.v + 0x100_0000 * h.d6.v + 0x10_0000 * h.d5.v + 0x1_0000 * h.d4.v
      + 0x1000 * h.d3.v + 0x100 * h.d2.v + 0x10 * h.d1.v + h.d0.v
  }

  function High(h: Hex8): Hex4 {
    Hex4(h.d7, h.d6, h.d5, h.d4)
  }

  function Low(h: Hex8): Hex4 {
    Hex4(h.d3, h.d2, h.d1, h.d0)
  }

  predicate OnHex8(op: Op, x: Hex8, y: Hex8, z: Hex8, f: Hex8) {
    OnHex4(op, High(x), High(y), High(z), High(f)) && OnHex4(op, Low(x), Low(y), Low(z), Low(f))
  }

  lemma HighLow(h: Hex8)
    ensures Value8(h) == 0x1_0000 * Value4(High(h)) + Value4(Low(h))
  {
  }

  lemma OnHex8Value(op: Op, x: Hex8, y: Hex8, z: Hex8, f: Hex8)
    requires OnHex8(op, x, y, z, f)
    ensures Bitwise(op, 32, Value8(x), Value8(y), Value8(z)) == Value8(f)
  {
    HighLow(x);
    HighLow(y);
    HighLow(z);
    HighLow(f);
    hide OnHex4, Value4, Value8, Bitwise, High, Low;
    OnHex4Value(op, High(x), High(y), High(z), High(f));
    LowHex4(op, 16, Value4(High(x)), Value4(High(y)), Value4(High(z)), Low(x), Low(y), Low(z), Low(f));
  }

  lemma {:induction false} XorIsParity(n: nat, x: nat, y: nat)
    ensures Xor(n, x, y) == Bitwise(Parity, n, x, y, 0)
  {
    if n > 0 {
      XorIsParity(n - 1, x / 2, y / 2);
    }
  }

  lemma XorOfHex(x: Hex4, y: Hex4, f: Hex4)
    requires OnHex4(Parity, x, y, Hex4(H0, H0, H0, H0), f)
    ensures Xor16(Value4(x), Value4(y)) == Value4(f)
  {
    hide Bitwise, OnHex4;
    XorIsParity(16, Value4(x), Value4(y));
    assert Value4(Hex4(H0, H0, H0, H0)) == 0;
    hide Value4, Xor;
    OnHex4Value(Parity, x, y, Hex4(H0, H0, H0, H0), f);
  }
}
