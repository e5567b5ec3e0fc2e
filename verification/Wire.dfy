/** The typed wire format: what the output stream writes for each value and what the input stream reads back. */
module Wire {
  import opened Words

  type Int8 = x: int | -0x80 <= x < 0x80
  type Int16 = x: int | -0x8000 <= x < 0x8000
  type Int32 = x: int | -0x8000_0000 <= x < 0x8000_0000

  datatype Value =
    | U8(u8: Byte) | U16(u16: Word16) | U32(u32: Word32)
    | I8(i8: Int8) | I16(i16: Int16) | I32(i32: Int32)
    | Str(s: seq<Byte>)

  datatype Tag = TU8 | TU16 | TU32 | TI8 | TI16 | TI32 | TStr

  function TagOf(v: Value): Tag {
    match v
    case U8(_) => TU8
    case U16(_) => TU16
    case U32(_) => TU32
    case I8(_) => TI8
    case I16(_) => TI16
    case I32(_) => TI32
    case Str(_) => TStr
  }

  // ---------- two's complement and byte order ----------

  function Unsigned(i: int, modulus: nat): (u: nat)
    requires modulus > 0
    ensures u < modulus
  {
    i % modulus
  }

  function Signed(u: nat, modulus: nat): int {
    if 2 * u < modulus then u else u - modulus
  }

  lemma SignedRoundTrip(i: int, modulus: nat)
    requires modulus > 0 && -(modulus as int) <= 2 * i < modulus
    ensures Signed(Unsigned(i, modulus), modulus) == i
  {
    if i < 0 {
      ModOfNegative(i, modulus);
    }
  }

  lemma ModOfNegative(i: int, modulus: nat)
    requires -(modulus as int) <= i < 0
    ensures i % modulus == i + modulus
  {
    assert i == modulus * (-1) + (i + modulus);
  }

  function BigEndian16(w: Word16): seq<Byte> {
    [w / 0x100, w % 0x100]
  }

  function BigEndian32(w: Word32): seq<Byte> {
    [w / 0x100_0000, w / 0x1_0000 % 0x100, w / 0x100 % 0x100, w % 0x100]
  }

  /** (s & 0xff) << 8 | (s >> 8) & 0xff. */
  function Swap16(s: Word16): Word16 {
    s % 0x100 * 0x100 + s / 0x100 % 0x100
  }

  /** l >> 24 | (l & 0x00ff0000) >> 8 | (l & 0x0000ff00) << 8 | l << 24. */
  function Swap32(l: Word32): Word32 {
    l / 0x100_0000 + l / 0x1_0000 % 0x100 * 0x100 + l / 0x100 % 0x100 * 0x1_0000 + l % 0x100 * 0x100_0000
  }

  /** The bytes of a word in the memory of a little-endian host. */
  function Memory16(w: Word16): seq<Byte> {
    [w % 0x100, w / 0x100]
  }

  function Memory32(w: Word32): seq<Byte> {
    [w % 0x100, w / 0x100 % 0x100, w / 0x1_0000 % 0x100, w / 0x100_0000]
  }

  /** Swapping and storing little-endian is storing big-endian, and swapping twice changes nothing. */
  lemma SwappedMemory16(w: Word16)
    ensures Memory16(Swap16(w)) == BigEndian16(w) && Swap16(Swap16(w)) == w
  {
  }

  /** The four byte fields that shifts and masks pick out of a word. */
  lemma Fields(b0: Byte, b1: Byte, b2: Byte, b3: Byte)
    ensures var w := Join32(b0, b1, b2, b3);
      && w / 0x100_0000 == b0 && w / 0x1_0000 % 0x100 == b1 && w / 0x100 % 0x100 == b2 && w % 0x100 == b3
  {
    var w := Join32(b0, b1, b2, b3);
    assert w / 0x1_0000 == b0 * 0x100 + b1;
    assert w / 0x100 == b0 * 0x1_0000 + b1 * 0x100 + b2;
  }

  lemma SwapBytes(b0: Byte, b1: Byte, b2: Byte, b3: Byte)
    ensures Swap32(Join32(b3, b2, b1, b0)) == Join32(b0, b1, b2, b3)
    ensures Memory32(Join32(b3, b2, b1, b0)) == [b0, b1, b2, b3] == BigEndian32(Join32(b0, b1, b2, b3))
  {
    Fields(b0, b1, b2, b3);
    Fields(b3, b2, b1, b0);
  }

  lemma SwappedMemory32(w: Word32)
    ensures Memory32(Swap32(w)) == BigEndian32(w) && Swap32(Swap32(w)) == w
  {
    var b0, b1, b2, b3 := w / 0x100_0000, w / 0x1_0000 % 0x100, w / 0x100 % 0x100, w % 0x100;
    Joined32(w);
    SwapBytes(b3, b2, b1, b0);
    SwapBytes(b0, b1, b2, b3);
  }

  // ---------- the format ----------

  /** A string is written with the low 16 bits of its length, and cut to that length. */
  function Encode(v: Value): seq<Byte> {
    match v
    case U8(x) => [x]
    case U16(x) => BigEndian16(x)
    case U32(x) => BigEndian32(x)
    case I8(x) => [Unsigned(x, 0x100)]
    case I16(x) => BigEndian16(Unsigned(x, 0x1_0000))
    case I32(x) => BigEndian32(Unsigned(x, 0x1_0000_0000))
    case Str(s) => BigEndian16(|s| % 0x1_0000) + s[..|s| % 0x1_0000]
  }

  datatype Decoded = Decoded(v: Value, size: nat) | TooShort

  function Decode(tag: Tag, b: seq<Byte>): Decoded {
    match tag
    case TU8 => if |b| < 1 then TooShort else Decoded(U8(b[0]), 1)
    case TU16 => if |b| < 2 then TooShort else Decoded(U16(Join16(b[0], b[1])), 2)
    case TU32 => if |b| < 4 then TooShort else Decoded(U32(Join32(b[0], b[1], b[2], b[3])), 4)
    case TI8 => if |b| < 1 then TooShort else Decoded(I8(Signed(b[0], 0x100)), 1)
    case TI16 => if |b| < 2 then TooShort else Decoded(I16(Signed(Join16(b[0], b[1]), 0x1_0000)), 2)
    case TI32 =>
      if |b| < 4 then TooShort else Decoded(I32(Signed(Join32(b[0], b[1], b[2], b[3]), 0x1_0000_0000)), 4)
    case TStr =>
      if |b| < 2 then TooShort
      else
        var n := Join16(b[0], b[1]);
        if |b| < 2 + n then TooShort else Decoded(Str(b[2..2 + n]), 2 + n)
  }

  /** What survives the trip: everything but the end of a string of 65536 bytes or more. */
  function Carried(v: Value): Value {
    if v.Str? then Str(v.s[..|v.s| % 0x1_0000]) else v
  }

  predicate Short(v: Value) {
    v.Str? ==> |v.s| < 0x1_0000
  }

  lemma CarriedIff(v: Value)
    ensures Carried(v) == v <==> Short(v)
  {
  }

  lemma Joined16(w: Word16)
    ensures var b := BigEndian16(w); Join16(b[0], b[1]) == w
  {
  }

  lemma Joined32(w: Word32)
    ensures var b := BigEndian32(w); Join32(b[0], b[1], b[2], b[3]) == w
  {
    var x := w / 0x100;
    var y := x / 0x100;
    assert w == 0x100 * x + w % 0x100 && x == 0x100 * y + x % 0x100;
    assert y == w / 0x1_0000 && y == 0x100 * (y / 0x100) + y % 0x100;
    assert y / 0x100 == w / 0x100_0000;
  }

  lemma DecodeEncoded(v: Value, rest: seq<Byte>)
    ensures Decode(TagOf(v), Encode(v) + rest) == Decoded(Carried(v), |Encode(v)|)
  {
    hide Join16, Join32, BigEndian32;
    match v
    case U8(x) =>
    case U16(x) => Joined16(x);
    case U32(x) => Joined32(x); LongWord(x);
    case I8(x) => SignedRoundTrip(x, 0x100);
    case I16(x) =>
      SignedRoundTrip(x, 0x1_0000);
      Joined16(Unsigned(x, 0x1_0000));
    case I32(x) =>
      SignedRoundTrip(x, 0x1_0000_0000);
      Joined32(Unsigned(x, 0x1_0000_0000));
      LongWord(Unsigned(x, 0x1_0000_0000));
    case Str(s) =>
      var n := |s| % 0x1_0000;
      Joined16(n);
      assert (Encode(v) + rest)[2..2 + n] == s[..n];
  }

  lemma LongWord(w: Word32)
    ensures |BigEndian32(w)| == 4
  {
  }

  /** An encoding cut short anywhere is noticed. */
  lemma DecodeCut(v: Value, n: nat)
    requires n < |Encode(v)|
    ensures Decode(TagOf(v), Encode(v)[..n]) == TooShort
  {
    if v.Str? && n >= 2 {
      Joined16(|v.s| % 0x1_0000);
    }
  }

  /** Network byte order: the first byte counts most. */
  lemma NetworkOrder16(x: Word16)
    ensures var b := Encode(U16(x)); |b| == 2 && x == 256 * (b[0] as int) + b[1] as int
  {
  }

  lemma NetworkOrder32(x: Word32)
    ensures var b := Encode(U32(x));
      |b| == 4 && x == 16777216 * (b[0] as int) + 65536 * (b[1] as int) + 256 * (b[2] as int) + b[3] as int
  {
    Joined32(x);
    LongWord(x);
    hide BigEndian32;
  }

  /** Two's complement: a negative value is written as the unsigned one 2^8, 2^16 or 2^32 above it. */
  lemma TwosComplement(x: Int8, y: Int16, z: Int32)
    ensures Encode(I8(x)) == Encode(U8(if x < 0 then x + 256 else x))
    ensures Encode(I16(y)) == Encode(U16(if y < 0 then y + 65536 else y))
    ensures Encode(I32(z)) == Encode(U32(if z < 0 then z + 4294967296 else z))
  {
    hide BigEndian16, BigEndian32;
    if x < 0 {
      ModOfNegative(x, 0x100);
    }
    if y < 0 {
      ModOfNegative(y, 0x1_0000);
    }
    if z < 0 {
      ModOfNegative(z, 0x1_0000_0000);
    }
  }

  /** A string is its length in two bytes and then its text, unless it is too long. */
  lemma LengthFirst(s: seq<Byte>)
    requires |s| < 65536
    ensures var b := Encode(Str(s)); |b| == 2 + |s| && b[..2] == Encode(U16(|s|)) && b[2..] == s
  {
    hide BigEndian16;
    assert |BigEndian16(|s|)| == 2 by {
      NetworkOrder16(|s|);
    }
  }

  // ---------- sequences of values ----------

  function EncodeAll(vs: seq<Value>): seq<Byte> {
    if vs == [] then [] else Encode(vs[0]) + EncodeAll(vs[1..])
  }

  function Tags(vs: seq<Value>): seq<Tag> {
    if vs == [] then [] else [TagOf(vs[0])] + Tags(vs[1..])
  }

  function CarriedAll(vs: seq<Value>): seq<Value> {
    if vs == [] then [] else [Carried(vs[0])] + CarriedAll(vs[1..])
  }

  datatype DecodedAll = DecodedAll(vs: seq<Value>, size: nat) | AllTooShort

  function DecodeAll(tags: seq<Tag>, b: seq<Byte>): DecodedAll {
    if tags == [] then DecodedAll([], 0)
    else
      match Decode(tags[0], b)
      case TooShort => AllTooShort
      case Decoded(v, size) =>
        if size > |b| then AllTooShort
        else
          match DecodeAll(tags[1..], b[size..])
          case AllTooShort => AllTooShort
          case DecodedAll(vs, more) => DecodedAll([v] + vs, size + more)
  }

  lemma {:induction false} DecodeAllEncoded(vs: seq<Value>, rest: seq<Byte>)
    ensures DecodeAll(Tags(vs), EncodeAll(vs) + rest) == DecodedAll(CarriedAll(vs), |EncodeAll(vs)|)
  {
    hide Encode, Decode, TagOf, Carried;
    if vs != [] {
      var b := EncodeAll(vs) + rest;
      assert b == Encode(vs[0]) + (EncodeAll(vs[1..]) + rest);
      DecodeEncoded(vs[0], EncodeAll(vs[1..]) + rest);
      assert b[|Encode(vs[0])|..] == EncodeAll(vs[1..]) + rest;
      assert Tags(vs)[1..] == Tags(vs[1..]);
      DecodeAllEncoded(vs[1..], rest);
    }
  }

  lemma {:induction false} CarriedAllIff(vs: seq<Value>)
    ensures |CarriedAll(vs)| == |vs|
    ensures CarriedAll(vs) == vs <==> forall v :: v in vs ==> Short(v)
  {
    hide Carried, Short;
    if vs != [] {
      CarriedIff(vs[0]);
      CarriedAllIff(vs[1..]);
      assert vs == [vs[0]] + vs[1..];
      assert CarriedAll(vs)[1..] == CarriedAll(vs[1..]);
      assert forall v :: v in vs <==> v == vs[0] || v in vs[1..];
    }
  }

  /**
   * Main result: any list of values read back with its own tags takes up exactly the bytes that were written; the
   * values are the ones written if and only if every string is shorter than 65536 bytes.
   */
  lemma ListRoundTrip(vs: seq<Value>, rest: seq<Byte>)
    ensures var r := DecodeAll(Tags(vs), EncodeAll(vs) + rest);
      && r.DecodedAll? && r.size == |EncodeAll(vs)| && |r.vs| == |vs|
      && (r.vs == vs <==> forall v :: v in vs ==> Short(v))
  {
    DecodeAllEncoded(vs, rest);
    CarriedAllIff(vs);
  }

  /** Main result: a message cut short anywhere is noticed by the reader, whatever its values. */
  lemma {:induction false} CutMessageNoticed(vs: seq<Value>, n: nat)
    requires n < |EncodeAll(vs)|
    ensures DecodeAll(Tags(vs), EncodeAll(vs)[..n]) == AllTooShort
  {
    hide Encode, Decode, TagOf, Carried;
    var first, b := Encode(vs[0]), EncodeAll(vs)[..n];
    if n < |first| {
      assert b == first[..n];
      DecodeCut(vs[0], n);
    } else {
      assert b == first + EncodeAll(vs[1..])[..n - |first|];
      DecodeEncoded(vs[0], EncodeAll(vs[1..])[..n - |first|]);
      assert b[|first|..] == EncodeAll(vs[1..])[..n - |first|];
      assert Tags(vs)[1..] == Tags(vs[1..]);
      CutMessageNoticed(vs[1..], n - |first|);
    }
  }
}
