/** Fixed-width machine words as bounded integers: powers, words made of bytes, and bitwise operations. */
module Words {
  type Byte = x: int | 0 <= x < 0x100
  type Word16 = x: int | 0 <= x < 0x1_0000
  type Word32 = x: int | 0 <= x < 0x1_0000_0000

  function Zeros(n: nat): (s: seq<Byte>)
    ensures |s| == n
  {
    seq(n, _ => 0)
  }

  function Power(base: nat, n: nat): (p: nat)
    requires base >= 1
    ensures p >= 1
  {
    if n == 0 then 1 else base * Power(base, n - 1)
  }

  function Pow2(n: nat): (p: nat)
    ensures p >= 1
  {
    Power(2, n)
  }

  /** Words made of bytes, the most significant one first. */
  function Join16(hi: int, lo: int): (w: int)
    requires 0 <= hi < 0x100 && 0 <= lo < 0x100
    ensures 0 <= w < 0x1_0000
  {
    hi * 0x100 + lo
  }

  function Join32(b0: int, b1: int, b2: int, b3: int): (w: int)
    requires 0 <= b0 < 0x100 && 0 <= b1 < 0x100 && 0 <= b2 < 0x100 && 0 <= b3 < 0x100
    ensures 0 <= w < 0x1_0000_0000
  {
    b0 * 0x100_0000 + b1 * 0x1_0000 + b2 * 0x100 + b3
  }

  lemma {:induction false} Pow2Sum(m: nat, n: nat)
    ensures Pow2(m) * Pow2(n) == Pow2(m + n)
  {
    if m > 0 {
      Pow2Sum(m - 1, n);
    }
  }

  /** Exclusive or of the `n` low bits, least significant bit first. */
  function Xor(n: nat, x: nat, y: nat): (z: nat)
    ensures z < Pow2(n)
  {
    if n == 0 then 0 else 2 * Xor(n - 1, x / 2, y / 2) + (if x % 2 == y % 2 then 0 else 1)
  }

  /** The low bit of an exclusive or, and the exclusive or of the rest. */
  lemma XorHalves(n: nat, x: nat, y: nat)
    requires n > 0
    ensures Xor(n, x, y) / 2 == Xor(n - 1, x / 2, y / 2)
    ensures (Xor(n, x, y) % 2 == 0) == (x % 2 == y % 2)
  {
  }

  lemma {:induction false} XorUndo(n: nat, x: nat, y: nat)
    requires x < Pow2(n)
    ensures Xor(n, Xor(n, x, y), y) == x
  {
    if n > 0 {
      XorUndo(n - 1, x / 2, y / 2);
      XorHalves(n, x, y);
    }
  }

  lemma {:induction false} XorShared(n: nat, x: nat, y: nat, t: nat)
    ensures Xor(n, Xor(n, x, t), Xor(n, y, t)) == Xor(n, x, y)
  {
    if n > 0 {
      XorHalves(n, x, t);
      XorHalves(n, y, t);
      var u, v := Xor(n, x, t), Xor(n, y, t);
      assert (u % 2 == v % 2) == (x % 2 == y % 2);
      XorShared(n - 1, x / 2, y / 2, t / 2);
      assert Xor(n, u, v) == 2 * Xor(n - 1, u / 2, v / 2) + (if u % 2 == v % 2 then 0 else 1);
    }
  }

  /** Bitwise and, or, and complement of the `n` low bits. */
  function And(n: nat, x: nat, y: nat): (z: nat)
    ensures z < Pow2(n)
  {
    if n == 0 then 0 else 2 * And(n - 1, x / 2, y / 2) + (if x % 2 == 1 && y % 2 == 1 then 1 else 0)
  }

  function Or(n: nat, x: nat, y: nat): (z: nat)
    ensures z < Pow2(n)
  {
    if n == 0 then 0 else 2 * Or(n - 1, x / 2, y / 2) + (if x % 2 == 1 || y % 2 == 1 then 1 else 0)
  }

  function Not(n: nat, x: nat): (z: nat)
    ensures z < Pow2(n)
  {
    if n == 0 then 0 else 2 * Not(n - 1, x / 2) + (if x % 2 == 1 then 0 else 1)
  }

  lemma AndHalves(n: nat, x: nat, y: nat)
    requires n > 0
    ensures And(n, x, y) / 2 == And(n - 1, x / 2, y / 2)
    ensures (And(n, x, y) % 2 == 1) == (x % 2 == 1 && y % 2 == 1)
  {
  }

  lemma NotHalves(n: nat, x: nat)
    requires n > 0
    ensures Not(n, x) / 2 == Not(n - 1, x / 2)
    ensures (Not(n, x) % 2 == 1) == (x % 2 == 0)
  {
  }

  lemma {:induction false} XorCommutes(n: nat, x: nat, y: nat)
    ensures Xor(n, x, y) == Xor(n, y, x)
  {
    if n > 0 {
      XorCommutes(n - 1, x / 2, y / 2);
    }
  }

  function Xor8(x: Byte, y: Byte): Byte {
    assert Pow2(8) == 0x100;
    Xor(8, x, y)
  }

  function Xor16(x: Word16, y: Word16): Word16 {
    assert Pow2(8) == 0x100 && Pow2(16) == 0x1_0000;
    Xor(16, x, y)
  }

  /** Masking a byte twice with the same byte changes nothing. */
  lemma Xor8Undo(x: Byte, y: Byte)
    ensures Xor8(Xor8(x, y), y) == x
  {
    assert Pow2(8) == 0x100;
    XorUndo(8, x, y);
  }

  lemma Xor8Commutes(x: Byte, y: Byte)
    ensures Xor8(x, y) == Xor8(y, x)
  {
    XorCommutes(8, x, y);
  }

  lemma Xor16Undo(x: Word16, y: Word16)
    ensures Xor16(Xor16(x, y), y) == x
  {
    assert Pow2(8) == 0x100 && Pow2(16) == 0x1_0000;
    XorUndo(16, x, y);
  }

  lemma Xor16Commutes(x: Word16, y: Word16)
    ensures Xor16(x, y) == Xor16(y, x)
  {
    XorCommutes(16, x, y);
  }

  /** Masking both operands with the same word leaves their exclusive or unchanged. */
  lemma Xor16Shared(x: Word16, y: Word16, t: Word16)
    ensures Xor16(Xor16(x, t), Xor16(y, t)) == Xor16(x, y)
  {
    XorShared(16, x, y, t);
  }

  function Xor32(x: Word32, y: Word32): Word32 {
    Width32();
    Xor(32, x, y)
  }

  function And32(x: Word32, y: Word32): Word32 {
    Width32();
    And(32, x, y)
  }

  function Or32(x: Word32, y: Word32): Word32 {
    Width32();
    Or(32, x, y)
  }

  function Not32(x: Word32): Word32 {
    Width32();
    Not(32, x)
  }

  lemma Width32()
    ensures Pow2(32) == 0x1_0000_0000
  {
    assert Pow2(8) == 0x100 && Pow2(16) == 0x1_0000 && Pow2(24) == 0x100_0000;
  }

  function Add32(x: Word32, y: Word32): Word32 {
    (x + y) % 0x1_0000_0000
  }

  function Add16(x: Word16, y: Word16): Word16 {
    (x + y) % 0x1_0000
  }

  function Sub16(x: Word16, y: Word16): Word16 {
    (x + 0x1_0000 - y) % 0x1_0000
  }

  function Neg16(x: Word16): Word16 {
    (0x1_0000 - x) % 0x1_0000
  }
}
