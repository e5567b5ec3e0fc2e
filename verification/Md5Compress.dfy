/** The MD5 block transform: the table-driven definition of RFC 1321, section 3.4, and the unrolled code. */
module Md5Compress {
  import opened Arithmetic
  import opened Words

  datatype Chain = Chain(a: Word32, b: Word32, c: Word32, d: Word32)

  // ---------- reference definition ----------

  function AuxF(x: Word32, y: Word32, z: Word32): Word32 {
    Or32(And32(x, y), And32(Not32(x), z))
  }

  function AuxG(x: Word32, y: Word32, z: Word32): Word32 {
    Or32(And32(x, z), And32(y, Not32(z)))
  }

  function AuxH(x: Word32, y: Word32, z: Word32): Word32 {
    Xor32(Xor32(x, y), z)
  }

  function AuxI(x: Word32, y: Word32, z: Word32): Word32 {
    Xor32(y, Or32(x, Not32(z)))
  }

  /** The auxiliary function of step i, one per round of sixteen. */
  function Auxiliary(i: nat, x: Word32, y: Word32, z: Word32): Word32 {
    if i < 16 then AuxF(x, y, z) else if i < 32 then AuxG(x, y, z) else if i < 48 then AuxH(x, y, z) else AuxI(x, y, z)
  }

  /** Which message word step i adds. */
  function MessageIndex(i: nat): (k: nat)
    ensures k < 16
  {
    if i < 16 then i % 16 else if i < 32 then (5 * i + 1) % 16 else if i < 48 then (3 * i + 5) % 16 else 7 * i % 16
  }

  /** How far step i rotates. */
  function Shift(i: nat): (s: nat)
    ensures 0 < s < 32
  {
    var j := i % 4;
    if i < 16 then if j == 0 then 7 else if j == 1 then 12 else if j == 2 then 17 else 22
    else if i < 32 then if j == 0 then 5 else if j == 1 then 9 else if j == 2 then 14 else 20
    else if i < 48 then if j == 0 then 4 else if j == 1 then 11 else if j == 2 then 16 else 23
    else if j == 0 then 6 else if j == 1 then 10 else if j == 2 then 15 else 21
  }

  /** The additive constant of step i: the integer part of 2^32 * |sin(i + 1)|. */
  function Sine(i: nat): Word32
    requires i < 64
  {
    match i
    case 0 => 0xd76aa478
    case 1 => 0xe8c7b756
    case 2 => 0x242070db
    case 3 => 0xc1bdceee
    case 4 => 0xf57c0faf
    case 5 => 0x4787c62a
    case 6 => 0xa8304613
    case 7 => 0xfd469501
    case 8 => 0x698098d8
    case 9 => 0x8b44f7af
    case 10 => 0xffff5bb1
    case 11 => 0x895cd7be
    case 12 => 0x6b901122
    case 13 => 0xfd987193
    case 14 => 0xa679438e
    case 15 => 0x49b40821
    case 16 => 0xf61e2562
    case 17 => 0xc040b340
    case 18 => 0x265e5a51
    case 19 => 0xe9b6c7aa
    case 20 => 0xd62f105d
    case 21 => 0x02441453
    case 22 => 0xd8a1e681
    case 23 => 0xe7d3fbc8
    case 24 => 0x21e1cde6
    case 25 => 0xc33707d6
    case 26 => 0xf4d50d87
    case 27 => 0x455a14ed
    case 28 => 0xa9e3e905
    case 29 => 0xfcefa3f8
    case 30 => 0x676f02d9
    case 31 => 0x8d2a4c8a
    case 32 => 0xfffa3942
    case 33 => 0x8771f681
    case 34 => 0x6d9d6122
    case 35 => 0xfde5380c
    case 36 => 0xa4beea44
    case 37 => 0x4bdecfa9
    case 38 => 0xf6bb4b60
    case 39 => 0xbebfbc70
    case 40 => 0x289b7ec6
    case 41 => 0xeaa127fa
    case 42 => 0xd4ef3085
    case 43 => 0x04881d05
    case 44 => 0xd9d4d039
    case 45 => 0xe6db99e5
    case 46 => 0x1fa27cf8
    case 47 => 0xc4ac5665
    case 48 => 0xf4292244
    case 49 => 0x432aff97
    case 50 => 0xab9423a7
    case 51 => 0xfc93a039
    case 52 => 0x655b59c3
    case 53 => 0x8f0ccc92
    case 54 => 0xffeff47d
    case 55 => 0x85845dd1
    case 56 => 0x6fa87e4f
    case 57 => 0xfe2ce6e0
    case 58 => 0xa3014314
    case 59 => 0x4e0811a1
    case 60 => 0xf7537e82
    case 61 => 0xbd3af235
    case 62 => 0x2ad7d2bb
    case _ => 0xeb86d391
  }

  /** The low 31 bits move up, the high bit comes in below them. */
  function RotateOnce(w: Word32): Word32 {
    w % 0x8000_0000 * 2 + w / 0x8000_0000
  }

  /** Circular left shift by s bits. */
  function RotateLeft(w: Word32, s: nat): Word32 {
    if s == 0 then w else RotateOnce(RotateLeft(w, s - 1))
  }

  lemma RotationFits(w: Word32, s: nat)
    requires 0 < s < 32
    ensures var p, q := Pow2(s), Pow2(32 - s); var r := w % q * p + w / q;
      0 <= w % q * p <= r < 0x1_0000_0000 && w % q * p == w * p % 0x1_0000_0000
  {
    Width32();
    Pow2Sum(s, 32 - s);
    hide Pow2;
    var p, q := Pow2(s), Pow2(32 - s);
    var hi, lo := w / q, w % q;
    DivMod(w, q);
    MulCommutes(p, q);
    HighPartBounded(p, q, hi);
    LowPartBounded(p, q, lo);
    ShiftedSum(p, q, hi, lo);
    assert w * p == 0x1_0000_0000 * hi + lo * p;
  }

  /** The low part of w, of q values, moved up by p, and the high part below it. */
  function Exchanged(w: nat, p: nat, q: nat): nat
    requires q >= 1
  {
    w % q * p + w / q
  }

  /** By s bits at once: the low 32 - s bits move up, the high s bits come in below them. */
  lemma {:induction false} RotateParts(w: Word32, s: nat)
    requires s < 32
    ensures RotateLeft(w, s) == Exchanged(w, Pow2(s), Pow2(32 - s))
  {
    Width32();
    if s == 0 {
      assert Pow2(0) == 1;
    } else {
      RotateParts(w, s - 1);
      Pow2Sum(s - 1, 32 - s);
      PowersAround(s);
      hide Pow2, RotateOnce, Exchanged;
      OneMoreBit(w, Pow2(s - 1), Pow2(32 - s));
    }
  }

  lemma PowersAround(s: nat)
    requires 0 < s < 32
    ensures Pow2(31) == 0x8000_0000 && Pow2(s) == 2 * Pow2(s - 1) && Pow2(33 - s) == 2 * Pow2(32 - s)
  {
    Width32();
    assert Pow2(32) == 2 * Pow2(31);
  }

  /** From a rotation by one bit less: the lowest of the high bits has still to come in below. */
  lemma OneMoreBit(w: Word32, p: nat, q: nat)
    requires p >= 1 && q >= 1 && p * q == 0x8000_0000
    ensures Exchanged(w, p, 2 * q) < 0x1_0000_0000
    ensures RotateOnce(Exchanged(w, p, 2 * q)) == Exchanged(w, 2 * p, q)
  {
    hide Exchanged, RotateOnce;
    DivMod(w, q);
    var hi, lo := w / q, w % q;
    OneMoreBitOf(p, q, hi / 2, hi % 2, lo);
  }

  lemma ExchangedOf(p: nat, q: nat, hi: nat, lo: nat)
    requires lo < q
    ensures Exchanged(q * hi + lo, p, q) == lo * p + hi
  {
    QuotientOf(q, hi, lo);
  }

  lemma OneMoreBitOf(p: nat, q: nat, h: nat, b: nat, lo: nat)
    requires p * q == 0x8000_0000 && b < 2 && lo < q && q * (2 * h + b) + lo < 0x1_0000_0000
    ensures var w := q * (2 * h + b) + lo;
      Exchanged(w, p, 2 * q) < 0x1_0000_0000 && RotateOnce(Exchanged(w, p, 2 * q)) == Exchanged(w, 2 * p, q)
  {
    hide Exchanged, RotateOnce;
    MovesOver(q, h, b, lo);
    ExchangedOf(p, 2 * q, h, q * b + lo);
    ExchangedOf(2 * p, q, 2 * h + b, lo);
    HighBelow(p, q, h, q * b + lo);
    LowPartBounded(p, q, lo);
    MulCommutes(p, q);
    BitAbove(p, q, h, b, lo);
  }

  lemma HighBelow(p: nat, q: nat, h: nat, rest: nat)
    requires p * q == 0x8000_0000 && 2 * q * h + rest < 0x1_0000_0000
    ensures h < p
  {
    assert p * (2 * q) == 2 * (p * q);
    HighPartBounded(p, 2 * q, h);
  }

  lemma MovesOver(q: nat, h: nat, b: nat, lo: nat)
    requires b < 2 && lo < q
    ensures q * (2 * h + b) + lo == 2 * q * h + (q * b + lo) && q * b + lo < 2 * q
  {
  }

  lemma HighBitBelow(b: nat, t: nat)
    requires b < 2 && t < 0x8000_0000
    ensures RotateOnce(0x8000_0000 * b + t) == 2 * t + b
  {
  }

  lemma BitAbove(p: nat, q: nat, h: nat, b: nat, lo: nat)
    requires b < 2 && p * q == 0x8000_0000 && lo * p + h < 0x8000_0000
    ensures 0 <= (q * b + lo) * p + h < 0x1_0000_0000 && 0 <= lo * (2 * p)
    ensures RotateOnce((q * b + lo) * p + h) == lo * (2 * p) + (2 * h + b)
  {
    var l := lo * p;
    ShiftedSum(p, q, b, lo);
    assert lo * (2 * p) == 2 * l;
    assert (p * q) * b == 0x8000_0000 * b;
    HighBitBelow(b, l + h);
  }

  lemma MulCommutes(a: nat, b: nat)
    ensures a * b == b * a
  {
  }

  lemma LowPartBounded(p: nat, q: nat, lo: nat)
    requires lo < q
    ensures 0 <= lo * p && lo * p + p <= q * p
  {
    MulMonotone(p, lo + 1, q);
  }

  lemma ShiftedSum(p: nat, q: nat, hi: nat, lo: nat)
    ensures (q * hi + lo) * p == (p * q) * hi + lo * p
  {
  }

  lemma HighPartBounded(p: nat, q: nat, hi: nat)
    requires q * hi < p * q
    ensures hi < p
  {
    if p <= hi {
      MulMonotone(q, p, hi);
    }
  }

  /** One step. The registers are renamed after it, so that every step reads the same. */
  function Step(i: nat, r: Chain, x: seq<Word32>): Chain
    requires i < 64 && |x| == 16
  {
    var sum := Add32(Add32(Add32(r.a, Auxiliary(i, r.b, r.c, r.d)), x[MessageIndex(i)]), Sine(i));
    Chain(r.d, Add32(r.b, RotateLeft(sum, Shift(i))), r.b, r.c)
  }

  function Steps(n: nat, r: Chain, x: seq<Word32>): Chain
    requires n <= 64 && |x| == 16
  {
    if n == 0 then r else Step(n - 1, Steps(n - 1, r, x), x)
  }

  function Sum(r: Chain, s: Chain): Chain {
    Chain(Add32(r.a, s.a), Add32(r.b, s.b), Add32(r.c, s.c), Add32(r.d, s.d))
  }

  /** The sixteen little-endian words of a block in memory. */
  function LoadWords(block: seq<Byte>): (x: seq<Word32>)
    requires |block| == 64
    ensures |x| == 16
  {
    seq(16, i requires 0 <= i < 16 =>
      Join32(block[4 * i + 3], block[4 * i + 2], block[4 * i + 1], block[4 * i]))
  }

  function Compress(r: Chain, block: seq<Byte>): Chain
    requires |block| == 64
  {
    Sum(r, Steps(64, r, LoadWords(block)))
  }

  // ---------- the code ----------

  function F1(x: Word32, y: Word32, z: Word32): Word32 {
    Xor32(z, And32(x, Xor32(y, z)))
  }

  function F2(x: Word32, y: Word32, z: Word32): Word32 {
    F1(z, x, y)
  }

  function F3(x: Word32, y: Word32, z: Word32): Word32 {
    Xor32(Xor32(x, y), z)
  }

  function F4(x: Word32, y: Word32, z: Word32): Word32 {
    Xor32(y, Or32(x, Not32(z)))
  }

  function F(i: nat, x: Word32, y: Word32, z: Word32): Word32 {
    if i < 16 then F1(x, y, z) else if i < 32 then F2(x, y, z) else if i < 48 then F3(x, y, z) else F4(x, y, z)
  }

  /** z ^ (x & (y ^ z)) selects y where x has a one and z elsewhere, on n bits. */
  lemma {:induction false} SelectBits(n: nat, x: nat, y: nat, z: nat)
    ensures Xor(n, z, And(n, x, Xor(n, y, z))) == Or(n, And(n, x, y), And(n, Not(n, x), z))
  {
    if n > 0 {
      SelectBits(n - 1, x / 2, y / 2, z / 2);
      SelectHalves(n, x, y, z);
    }
  }

  lemma SelectHalves(n: nat, x: nat, y: nat, z: nat)
    requires n > 0
    ensures Xor(n, z, And(n, x, Xor(n, y, z)))
         == 2 * Xor(n - 1, z / 2, And(n - 1, x / 2, Xor(n - 1, y / 2, z / 2)))
          + (if x % 2 == 1 then y % 2 else z % 2)
    ensures Or(n, And(n, x, y), And(n, Not(n, x), z))
         == 2 * Or(n - 1, And(n - 1, x / 2, y / 2), And(n - 1, Not(n - 1, x / 2), z / 2))
          + (if x % 2 == 1 then y % 2 else z % 2)
  {
    XorHalves(n, y, z);
    AndHalves(n, x, Xor(n, y, z));
    AndHalves(n, x, y);
    NotHalves(n, x);
    AndHalves(n, Not(n, x), z);
  }

  lemma {:induction false} OrCommutes(n: nat, x: nat, y: nat)
    ensures Or(n, x, y) == Or(n, y, x)
  {
    if n > 0 {
      OrCommutes(n - 1, x / 2, y / 2);
    }
  }

  lemma {:induction false} AndCommutes(n: nat, x: nat, y: nat)
    ensures And(n, x, y) == And(n, y, x)
  {
    if n > 0 {
      AndCommutes(n - 1, x / 2, y / 2);
    }
  }

  /** The optimised forms compute the functions of the standard. */
  lemma F1IsAuxF(x: Word32, y: Word32, z: Word32)
    ensures F1(x, y, z) == AuxF(x, y, z)
  {
    SelectBits(32, x, y, z);
  }

  lemma F2IsAuxG(x: Word32, y: Word32, z: Word32)
    ensures F2(x, y, z) == AuxG(x, y, z)
  {
    SelectBits(32, z, x, y);
    AndCommutes(32, z, x);
    AndCommutes(32, Not32(z), y);
  }

  lemma OptimisedAuxiliary(i: nat, x: Word32, y: Word32, z: Word32)
    ensures F(i, x, y, z) == Auxiliary(i, x, y, z)
  {
    hide F1, F2, AuxF, AuxG;
    F1IsAuxF(x, y, z);
    F2IsAuxG(x, y, z);
  }

  /** w << s | w >> (32 - s): the two shifts share no bit, so "or" is addition. */
  function ShiftsJoined(w: Word32, s: nat): (r: Word32)
    requires 0 < s < 32
    ensures r == RotateLeft(w, s)
  {
    RotationFits(w, s);
    RotateParts(w, s);
    w * Pow2(s) % 0x1_0000_0000 + w / Pow2(32 - s)
  }

  /** The step macro, given the value of its function argument. */
  function MD5Step(f: Word32, w: Word32, x: Word32, data: Word32, s: nat): Word32
    requires 0 < s < 32
  {
    var w1 := Add32(w, Add32(f, data));
    var w2 := ShiftsJoined(w1, s);
    Add32(w2, x)
  }

  lemma SumOfThree(x: Word32, y: Word32, z: Word32)
    ensures Add32(x, Add32(y, z)) == Add32(Add32(x, y), z)
  {
    assert Add32(x, Add32(y, z)) == (x + y + z) % 0x1_0000_0000;
  }

  lemma SumAssociates(w: Word32, f: Word32, d: Word32, t: Word32)
    ensures Add32(w, Add32(f, Add32(d, t))) == Add32(Add32(Add32(w, f), d), t)
  {
    hide Add32;
    SumOfThree(f, d, t);
    SumOfThree(w, Add32(f, d), t);
    SumOfThree(w, f, d);
  }

  lemma SumCommutes(x: Word32, y: Word32)
    ensures Add32(x, y) == Add32(y, x)
  {
  }

  /** A macro call writes the register that the reference step computes. */
  lemma StepMatches(i: nat, r: Chain, x: seq<Word32>)
    requires i < 64 && |x| == 16
    ensures Step(i, r, x)
         == Chain(r.d, MD5Step(F(i, r.b, r.c, r.d), r.a, r.b, Add32(x[MessageIndex(i)], Sine(i)), Shift(i)), r.b, r.c)
  {
    OptimisedAuxiliary(i, r.b, r.c, r.d);
    hide Auxiliary, Sine, Shift, MessageIndex, F, Add32, RotateLeft, ShiftsJoined;
    var f, d, t := F(i, r.b, r.c, r.d), x[MessageIndex(i)], Sine(i);
    SumAssociates(r.a, f, d, t);
    SumCommutes(r.b, RotateLeft(Add32(r.a, Add32(f, Add32(d, t))), Shift(i)));
  }

  /** Four macro calls in a row return the registers to their places. */
  lemma FourSteps(i: nat, r: Chain, x: seq<Word32>)
    requires i + 4 <= 64 && |x| == 16
    ensures
      var s := Steps(i, r, x);
      var a := MD5Step(F(i, s.b, s.c, s.d), s.a, s.b, Add32(x[MessageIndex(i)], Sine(i)), Shift(i));
      var d := MD5Step(F(i + 1, a, s.b, s.c), s.d, a, Add32(x[MessageIndex(i + 1)], Sine(i + 1)), Shift(i + 1));
      var c := MD5Step(F(i + 2, d, a, s.b), s.c, d, Add32(x[MessageIndex(i + 2)], Sine(i + 2)), Shift(i + 2));
      var b := MD5Step(F(i + 3, c, d, a), s.b, c, Add32(x[MessageIndex(i + 3)], Sine(i + 3)), Shift(i + 3));
      Steps(i + 4, r, x) == Chain(a, b, c, d)
  {
    hide Step, MD5Step, F, Sine, Shift, MessageIndex, Add32;
    StepMatches(i, Steps(i, r, x), x);
    StepMatches(i + 1, Steps(i + 1, r, x), x);
    StepMatches(i + 2, Steps(i + 2, r, x), x);
    StepMatches(i + 3, Steps(i + 3, r, x), x);
  }

  /** Steps 0 to 15 of the unrolled transform. */
  method Round1(a0: Word32, b0: Word32, c0: Word32, d0: Word32, input: seq<Word32>, ghost r: Chain)
    returns (a: Word32, b: Word32, c: Word32, d: Word32)
    requires |input| == 16 && Chain(a0, b0, c0, d0) == Steps(0, r, input)
    ensures Chain(a, b, c, d) == Steps(16, r, input)
  {
    hide MD5Step, F1, F2, F3, F4, Step, Steps, Add32;
    a, b, c, d := a0, b0, c0, d0;
    FourSteps(0, r, input);
    a := MD5Step(F1(b, c, d), a, b, Add32(input[0], 0xd76aa478), 7);
    d := MD5Step(F1(a, b, c), d, a, Add32(input[1], 0xe8c7b756), 12);
    c := MD5Step(F1(d, a, b), c, d, Add32(input[2], 0x242070db), 17);
    b := MD5Step(F1(c, d, a), b, c, Add32(input[3], 0xc1bdceee), 22);
    FourSteps(4, r, input);
    a := MD5Step(F1(b, c, d), a, b, Add32(input[4], 0xf57c0faf), 7);
    d := MD5Step(F1(a, b, c), d, a, Add32(input[5], 0x4787c62a), 12);
    c := MD5Step(F1(d, a, b), c, d, Add32(input[6], 0xa8304613), 17);
    b := MD5Step(F1(c, d, a), b, c, Add32(input[7], 0xfd469501), 22);
    FourSteps(8, r, input);
    a := MD5Step(F1(b, c, d), a, b, Add32(input[8], 0x698098d8), 7);
    d := MD5Step(F1(a, b, c), d, a, Add32(input[9], 0x8b44f7af), 12);
    c := MD5Step(F1(d, a, b), c, d, Add32(input[10], 0xffff5bb1), 17);
    b := MD5Step(F1(c, d, a), b, c, Add32(input[11], 0x895cd7be), 22);
    FourSteps(12, r, input);
    a := MD5Step(F1(b, c, d), a, b, Add32(input[12], 0x6b901122), 7);
    d := MD5Step(F1(a, b, c), d, a, Add32(input[13], 0xfd987193), 12);
    c := MD5Step(F1(d, a, b), c, d, Add32(input[14], 0xa679438e), 17);
    b := MD5Step(F1(c, d, a), b, c, Add32(input[15], 0x49b40821), 22);
  }

  /** Steps 16 to 31 of the unrolled transform. */
  method Round2(a0: Word32, b0: Word32, c0: Word32, d0: Word32, input: seq<Word32>, ghost r: Chain)
    returns (a: Word32, b: Word32, c: Word32, d: Word32)
    requires |input| == 16 && Chain(a0, b0, c0, d0) == Steps(16, r, input)
    ensures Chain(a, b, c, d) == Steps(32, r, input)
  {
    hide MD5Step, F1, F2, F3, F4, Step, Steps, Add32;
    a, b, c, d := a0, b0, c0, d0;
    FourSteps(16, r, input);
    a := MD5Step(F2(b, c, d), a, b, Add32(input[1], 0xf61e2562), 5);
    d := MD5Step(F2(a, b, c), d, a, Add32(input[6], 0xc040b340), 9);
    c := MD5Step(F2(d, a, b), c, d, Add32(input[11], 0x265e5a51), 14);
    b := MD5Step(F2(c, d, a), b, c, Add32(input[0], 0xe9b6c7aa), 20);
    FourSteps(20, r, input);
    a := MD5Step(F2(b, c, d), a, b, Add32(input[5], 0xd62f105d), 5);
    d := MD5Step(F2(a, b, c), d, a, Add32(input[10], 0x02441453), 9);
    c := MD5Step(F2(d, a, b), c, d, Add32(input[15], 0xd8a1e681), 14);
    b := MD5Step(F2(c, d, a), b, c, Add32(input[4], 0xe7d3fbc8), 20);
    FourSteps(24, r, input);
    a := MD5Step(F2(b, c, d), a, b, Add32(input[9], 0x21e1cde6), 5);
    d := MD5Step(F2(a, b, c), d, a, Add32(input[14], 0xc33707d6), 9);
    c := MD5Step(F2(d, a, b), c, d, Add32(input[3], 0xf4d50d87), 14);
    b := MD5Step(F2(c, d, a), b, c, Add32(input[8], 0x455a14ed), 20);
    FourSteps(28, r, input);
    a := MD5Step(F2(b, c, d), a, b, Add32(input[13], 0xa9e3e905), 5);
    d := MD5Step(F2(a, b, c), d, a, Add32(input[2], 0xfcefa3f8), 9);
    c := MD5Step(F2(d, a, b), c, d, Add32(input[7], 0x676f02d9), 14);
    b := MD5Step(F2(c, d, a), b, c, Add32(input[12], 0x8d2a4c8a), 20);
  }

  /** Steps 32 to 47 of the unrolled transform. */
  method Round3(a0: Word32, b0: Word32, c0: Word32, d0: Word32, input: seq<Word32>, ghost r: Chain)
    returns (a: Word32, b: Word32, c: Word32, d: Word32)
    requires |input| == 16 && Chain(a0, b0, c0, d0) == Steps(32, r, input)
    ensures Chain(a, b, c, d) == Steps(48, r, input)
  {
    hide MD5Step, F1, F2, F3, F4, Step, Steps, Add32;
    a, b, c, d := a0, b0, c0, d0;
    FourSteps(32, r, input);
    a := MD5Step(F3(b, c, d), a, b, Add32(input[5], 0xfffa3942), 4);
    d := MD5Step(F3(a, b, c), d, a, Add32(input[8], 0x8771f681), 11);
    c := MD5Step(F3(d, a, b), c, d, Add32(input[11], 0x6d9d6122), 16);
    b := MD5Step(F3(c, d, a), b, c, Add32(input[14], 0xfde5380c), 23);
    FourSteps(36, r, input);
    a := MD5Step(F3(b, c, d), a, b, Add32(input[1], 0xa4beea44), 4);
    d := MD5Step(F3(a, b, c), d, a, Add32(input[4], 0x4bdecfa9), 11);
    c := MD5Step(F3(d, a, b), c, d, Add32(input[7], 0xf6bb4b60), 16);
    b := MD5Step(F3(c, d, a), b, c, Add32(input[10], 0xbebfbc70), 23);
    FourSteps(40, r, input);
    a := MD5Step(F3(b, c, d), a, b, Add32(input[13], 0x289b7ec6), 4);
    d := MD5Step(F3(a, b, c), d, a, Add32(input[0], 0xeaa127fa), 11);
    c := MD5Step(F3(d, a, b), c, d, Add32(input[3], 0xd4ef3085), 16);
    b := MD5Step(F3(c, d, a), b, c, Add32(input[6], 0x04881d05), 23);
    FourSteps(44, r, input);
    a := MD5Step(F3(b, c, d), a, b, Add32(input[9], 0xd9d4d039), 4);
    d := MD5Step(F3(a, b, c), d, a, Add32(input[12], 0xe6db99e5), 11);
    c := MD5Step(F3(d, a, b), c, d, Add32(input[15], 0x1fa27cf8), 16);
    b := MD5Step(F3(c, d, a), b, c, Add32(input[2], 0xc4ac5665), 23);
  }

  /** Steps 48 to 63 of the unrolled transform. */
  method Round4(a0: Word32, b0: Word32, c0: Word32, d0: Word32, input: seq<Word32>, ghost r: Chain)
    returns (a: Word32, b: Word32, c: Word32, d: Word32)
    requires |input| == 16 && Chain(a0, b0, c0, d0) == Steps(48, r, input)
    ensures Chain(a, b, c, d) == Steps(64, r, input)
  {
    hide MD5Step, F1, F2, F3, F4, Step, Steps, Add32;
    a, b, c, d := a0, b0, c0, d0;
    FourSteps(48, r, input);
    a := MD5Step(F4(b, c, d), a, b, Add32(input[0], 0xf4292244), 6);
    d := MD5Step(F4(a, b, c), d, a, Add32(input[7], 0x432aff97), 10);
    c := MD5Step(F4(d, a, b), c, d, Add32(input[14], 0xab9423a7), 15);
    b := MD5Step(F4(c, d, a), b, c, Add32(input[5], 0xfc93a039), 21);
    FourSteps(52, r, input);
    a := MD5Step(F4(b, c, d), a, b, Add32(input[12], 0x655b59c3), 6);
    d := MD5Step(F4(a, b, c), d, a, Add32(input[3], 0x8f0ccc92), 10);
    c := MD5Step(F4(d, a, b), c, d, Add32(input[10], 0xffeff47d), 15);
    b := MD5Step(F4(c, d, a), b, c, Add32(input[1], 0x85845dd1), 21);
    FourSteps(56, r, input);
    a := MD5Step(F4(b, c, d), a, b, Add32(input[8], 0x6fa87e4f), 6);
    d := MD5Step(F4(a, b, c), d, a, Add32(input[15], 0xfe2ce6e0), 10);
    c := MD5Step(F4(d, a, b), c, d, Add32(input[6], 0xa3014314), 15);
    b := MD5Step(F4(c, d, a), b, c, Add32(input[13], 0x4e0811a1), 21);
    FourSteps(60, r, input);
    a := MD5Step(F4(b, c, d), a, b, Add32(input[4], 0xf7537e82), 6);
    d := MD5Step(F4(a, b, c), d, a, Add32(input[11], 0xbd3af235), 10);
    c := MD5Step(F4(d, a, b), c, d, Add32(input[2], 0x2ad7d2bb), 15);
    b := MD5Step(F4(c, d, a), b, c, Add32(input[9], 0xeb86d391), 21);
  }

  method MD5Transform(buf: array<Word32>, input: array<Byte>)
    requires buf.Length == 4 && input.Length == 64
    modifies buf
    ensures Chain(buf[0], buf[1], buf[2], buf[3])
         == Compress(Chain(old(buf[0]), old(buf[1]), old(buf[2]), old(buf[3])), input[..])
  {
    hide Steps, Join32, Add32;
    ghost var r := Chain(buf[0], buf[1], buf[2], buf[3]);
    var x := LoadWords(input[..]);
    assert Steps(0, r, x) == r by {
      NoSteps(r, x);
    }
    var a, b, c, d := Round1(buf[0], buf[1], buf[2], buf[3], x, r);
    a, b, c, d := Round2(a, b, c, d, x, r);
    a, b, c, d := Round3(a, b, c, d, x, r);
    a, b, c, d := Round4(a, b, c, d, x, r);
    buf[0] := Add32(buf[0], a);
    buf[1] := Add32(buf[1], b);
    buf[2] := Add32(buf[2], c);
    buf[3] := Add32(buf[3], d);
  }

  lemma NoSteps(r: Chain, x: seq<Word32>)
    requires |x| == 16
    ensures Steps(0, r, x) == r
  {
  }
}
