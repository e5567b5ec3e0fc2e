/** The IDEA block cipher: 8 rounds and a half over four 16-bit words, its key schedule and its key inverter. */
module IdeaBlock {
  import opened Words
  import opened IdeaArith

  const ROUNDS: nat := 8
  const KEY_LENGTH: nat := 52

  /** A working key: six words for each round and four for the final half round. */
  type Key = k: seq<Word16> | |k| == KEY_LENGTH witness seq(52, _ => 0)

  datatype Block = Block(x1: Word16, x2: Word16, x3: Word16, x4: Word16)

  // ---------- reference definition ----------

  /** The key layer of round r: the outer words are multiplied, the inner words are added to. */
  ghost function MixKey(b: Block, key: Key, r: nat): Block
    requires r <= ROUNDS
  {
    Block(Mul(b.x1, key[6 * r]), Add16(b.x2, key[6 * r + 1]), Add16(b.x3, key[6 * r + 2]), Mul(b.x4, key[6 * r + 3]))
  }

  /** The multiply-add layer: x1, x3 are masked with one word and x2, x4 with another. */
  ghost function MultiplyAdd(b: Block, k5: Word16, k6: Word16): Block {
    var t := Mul(Xor16(b.x3, b.x1), k5);
    var u := Mul(Add16(Xor16(b.x2, b.x4), t), k6);
    var v := Add16(t, u);
    Block(Xor16(b.x1, u), Xor16(b.x2, v), Xor16(b.x3, u), Xor16(b.x4, v))
  }

  function SwapMiddle(b: Block): Block {
    Block(b.x1, b.x3, b.x2, b.x4)
  }

  ghost function Round(b: Block, key: Key, r: nat): Block
    requires r < ROUNDS
  {
    SwapMiddle(MultiplyAdd(MixKey(b, key, r), key[6 * r + 4], key[6 * r + 5]))
  }

  /**
   * What a round does, read off its input and output. Two words leave it masked with u and two with v; v - u is a
   * product by word 4 of the round's key, and u is one by word 5.
   */
  lemma RoundMasks(b: Block, key: Key, r: nat)
    requires r < ROUNDS
    ensures var o := Round(b, key, r);
      var m1, m2 := Mul(b.x1, key[6 * r]), Add16(b.x2, key[6 * r + 1]);
      var m3, m4 := Add16(b.x3, key[6 * r + 2]), Mul(b.x4, key[6 * r + 3]);
      var u, v := Xor16(o.x1, m1), Xor16(o.x3, m2);
      && o.x1 == Xor16(m1, u) && o.x2 == Xor16(m3, u) && o.x3 == Xor16(m2, v) && o.x4 == Xor16(m4, v)
      && Sub16(v, u) == Mul(Xor16(m1, m3), key[6 * r + 4])
      && u == Mul(Add16(Xor16(m2, m4), Sub16(v, u)), key[6 * r + 5])
  {
    hide Mul, Xor16, Add16, Sub16;
    var m := MixKey(b, key, r);
    var t := Mul(Xor16(m.x3, m.x1), key[6 * r + 4]);
    var u := Mul(Add16(Xor16(m.x2, m.x4), t), key[6 * r + 5]);
    Xor16Commutes(m.x1, m.x3);
    MaskRead(m.x1, u);
    MaskRead(m.x2, Add16(t, u));
    SumRead(t, u);
  }

  lemma SumRead(t: Word16, u: Word16)
    ensures Sub16(Add16(t, u), u) == t
  {
  }

  lemma MaskRead(x: Word16, mask: Word16)
    ensures Xor16(Xor16(x, mask), x) == mask
  {
    Xor16Commutes(x, mask);
    Xor16Undo(mask, x);
  }

  ghost function Rounds(b: Block, key: Key, n: nat): Block
    requires n <= ROUNDS
  {
    if n == 0 then b else Round(Rounds(b, key, n - 1), key, n - 1)
  }

  /** Eight rounds, then the key layer once more with the last swap undone. */
  ghost function Encipher(b: Block, key: Key): Block {
    MixKey(SwapMiddle(Rounds(b, key, ROUNDS)), key, ROUNDS)
  }

  /** Big-endian words of an 8-byte buffer. */
  function Load(s: seq<Byte>): Block
    requires |s| == 8
  {
    Block(Join16(s[0], s[1]), Join16(s[2], s[3]), Join16(s[4], s[5]), Join16(s[6], s[7]))
  }

  function Store(b: Block): (s: seq<Byte>)
    ensures |s| == 8 && Load(s) == b
  {
    [b.x1 / 256, b.x1 % 256, b.x2 / 256, b.x2 % 256, b.x3 / 256, b.x3 % 256, b.x4 / 256, b.x4 % 256]
  }

  ghost function Cipher(s: seq<Byte>, key: Key): (t: seq<Byte>)
    requires |s| == 8
    ensures |t| == 8
  {
    Store(Encipher(Load(s), key))
  }

  // ---------- decryption ----------

  /**
   * Word j of round r of the inverted key. Rounds run backwards; the key layer of an inner round also
   * exchanges its two additive words, because there the inverse is applied after the swap of the middle words.
   */
  ghost function InvertedWord(ek: Key, r: nat, j: nat): Word16
    requires j < 6 && 6 * r + j < KEY_LENGTH
  {
    if j == 0 || j == 3 then Inverse(ek[6 * (ROUNDS - r) + j])
    else if j == 4 || j == 5 then ek[6 * (ROUNDS - 1 - r) + j]
    else if r == 0 || r == ROUNDS then Neg16(ek[6 * (ROUNDS - r) + j])
    else Neg16(ek[6 * (ROUNDS - r) + 3 - j])
  }

  ghost function InvertedKey(ek: Key): Key {
    seq(KEY_LENGTH, i requires 0 <= i < KEY_LENGTH => InvertedWord(ek, i / 6, i % 6))
  }

  lemma InvertedAt(ek: Key, r: nat, j: nat)
    requires j < 6 && 6 * r + j < KEY_LENGTH
    ensures InvertedKey(ek)[6 * r + j] == InvertedWord(ek, r, j)
  {
    hide InvertedWord;
    assert (6 * r + j) / 6 == r && (6 * r + j) % 6 == j;
  }

  lemma AddCancel(x: Word16, k: Word16)
    ensures Add16(Add16(x, k), Neg16(k)) == x
  {
  }

  lemma InvertedMixKey(ek: Key, s: nat)
    requires s <= ROUNDS
    ensures var dk, r := InvertedKey(ek), ROUNDS - s;
      && dk[6 * s] == Inverse(ek[6 * r]) && dk[6 * s + 3] == Inverse(ek[6 * r + 3])
      && if s == 0 || s == ROUNDS
         then dk[6 * s + 1] == Neg16(ek[6 * r + 1]) && dk[6 * s + 2] == Neg16(ek[6 * r + 2])
         else dk[6 * s + 1] == Neg16(ek[6 * r + 2]) && dk[6 * s + 2] == Neg16(ek[6 * r + 1])
  {
    hide InvertedKey, Inverse, Neg16;
    InvertedAt(ek, s, 0);
    InvertedAt(ek, s, 1);
    InvertedAt(ek, s, 2);
    InvertedAt(ek, s, 3);
  }

  /** The first and last key layers of decryption undo the last and first of encryption. */
  lemma OuterMixKeyUndone(b: Block, ek: Key, r: nat)
    requires r == 0 || r == ROUNDS
    ensures MixKey(MixKey(b, ek, r), InvertedKey(ek), ROUNDS - r) == b
  {
    var dk, s := InvertedKey(ek), ROUNDS - r;
    hide InvertedKey, Mul, Inverse, Add16, Neg16;
    InvertedMixKey(ek, s);
    MulCancel(b.x1, ek[6 * r]);
    MulCancel(b.x4, ek[6 * r + 3]);
    AddCancel(b.x2, ek[6 * r + 1]);
    AddCancel(b.x3, ek[6 * r + 2]);
  }

  /** In between, the layers cancel across the swap of the middle words. */
  lemma InnerMixKeyUndone(b: Block, ek: Key, r: nat)
    requires 0 < r < ROUNDS
    ensures MixKey(SwapMiddle(MixKey(b, ek, r)), InvertedKey(ek), ROUNDS - r) == SwapMiddle(b)
  {
    var dk, s := InvertedKey(ek), ROUNDS - r;
    hide InvertedKey, Mul, Inverse, Add16, Neg16;
    InvertedMixKey(ek, s);
    MulCancel(b.x1, ek[6 * r]);
    MulCancel(b.x4, ek[6 * r + 3]);
    AddCancel(b.x2, ek[6 * r + 1]);
    AddCancel(b.x3, ek[6 * r + 2]);
  }

  /** The masks depend only on x1 ^ x3 and x2 ^ x4, which masking leaves unchanged, so the layer undoes itself. */
  lemma MultiplyAddInvolutive(b: Block, k5: Word16, k6: Word16)
    ensures MultiplyAdd(MultiplyAdd(b, k5, k6), k5, k6) == b
  {
    hide Mul, Add16, Xor16;
    var t := Mul(Xor16(b.x3, b.x1), k5);
    var u := Mul(Add16(Xor16(b.x2, b.x4), t), k6);
    var v := Add16(t, u);
    Xor16Shared(b.x3, b.x1, u);
    Xor16Shared(b.x2, b.x4, v);
    Xor16Undo(b.x1, u);
    Xor16Undo(b.x2, v);
    Xor16Undo(b.x3, u);
    Xor16Undo(b.x4, v);
  }

  lemma {:induction false} DecryptedRounds(b: Block, ek: Key, n: nat)
    requires n < ROUNDS
    ensures MixKey(Rounds(Encipher(b, ek), InvertedKey(ek), n), InvertedKey(ek), n)
         == SwapMiddle(Rounds(b, ek, ROUNDS - n))
    ensures Rounds(Encipher(b, ek), InvertedKey(ek), n + 1)
         == SwapMiddle(MixKey(Rounds(b, ek, ROUNDS - 1 - n), ek, ROUNDS - 1 - n))
  {
    hide MixKey, MultiplyAdd, InvertedWord;
    var c, dk, r := Encipher(b, ek), InvertedKey(ek), ROUNDS - 1 - n;
    var e := Rounds(b, ek, r);
    if n == 0 {
      OuterMixKeyUndone(SwapMiddle(Rounds(b, ek, ROUNDS)), ek, ROUNDS);
    } else {
      DecryptedRounds(b, ek, n - 1);
      InnerMixKeyUndone(Rounds(b, ek, r + 1), ek, r + 1);
    }
    InvertedMultiplyAddKey(ek, n);
    MultiplyAddInvolutive(MixKey(e, ek, r), ek[6 * r + 4], ek[6 * r + 5]);
    assert Rounds(b, ek, r + 1) == Round(e, ek, r);
  }

  lemma InvertedMultiplyAddKey(ek: Key, s: nat)
    requires s < ROUNDS
    ensures var dk, r := InvertedKey(ek), ROUNDS - 1 - s;
      dk[6 * s + 4] == ek[6 * r + 4] && dk[6 * s + 5] == ek[6 * r + 5]
  {
    hide InvertedKey, Inverse, Neg16;
    InvertedAt(ek, s, 4);
    InvertedAt(ek, s, 5);
  }

  /** Deciphering with the inverted key restores every block under every key. */
  lemma EncipherInverted(b: Block, ek: Key)
    ensures Encipher(Encipher(b, ek), InvertedKey(ek)) == b
  {
    hide MixKey, MultiplyAdd, Round, InvertedKey;
    DecryptedRounds(b, ek, ROUNDS - 1);
    OuterMixKeyUndone(b, ek, 0);
  }

  lemma InvertedKeyInvolutive(ek: Key)
    ensures InvertedKey(InvertedKey(ek)) == ek
  {
    hide InvertedKey, InvertedWord;
    forall i | 0 <= i < KEY_LENGTH
      ensures InvertedKey(InvertedKey(ek))[i] == ek[i]
    {
      InvertedTwice(ek, i / 6, i % 6);
    }
  }

  lemma InvertedTwice(ek: Key, r: nat, j: nat)
    requires j < 6 && 6 * r + j < KEY_LENGTH
    ensures InvertedKey(InvertedKey(ek))[6 * r + j] == ek[6 * r + j]
  {
    hide InvertedKey, Inverse, Neg16;
    InvertedAt(InvertedKey(ek), r, j);
    var r' := if j < 4 then ROUNDS - r else ROUNDS - 1 - r;
    var j' := if (j == 1 || j == 2) && r != 0 && r != ROUNDS then 3 - j else j;
    InvertedAt(ek, r', j');
    InverseInvolutive(ek[6 * r + j]);
    NegInvolutive(ek[6 * r + j]);
  }

  lemma NegInvolutive(x: Word16)
    ensures Neg16(Neg16(x)) == x
  {
  }

  /** Main result: for every key the cipher is a bijection on 8-byte blocks, inverted by the inverted key. */
  lemma CipherInverted(s: seq<Byte>, ek: Key)
    requires |s| == 8
    ensures Cipher(Cipher(s, ek), InvertedKey(ek)) == s
    ensures Cipher(Cipher(s, InvertedKey(ek)), ek) == s
  {
    hide Encipher, InvertedKey;
    EncipherInverted(Load(s), ek);
    EncipherInverted(Load(s), InvertedKey(ek));
    InvertedKeyInvolutive(ek);
    StoreLoad(s);
  }

  lemma StoreLoad(s: seq<Byte>)
    requires |s| == 8
    ensures Store(Load(s)) == s
  {
  }

  // ---------- the code ----------

  /** A little-endian 16-bit memory access followed by the swap of the two halves. */
  function LoadSwapped(lo: Byte, hi: Byte): (x: Word16)
    ensures x == 256 * lo + hi
  {
    var x: Word16 := lo + 256 * hi;
    x / 256 + x % 256 * 256
  }

  function Swapped(x: Word16): (y: Word16)
    ensures y % 256 == x / 256 && y / 256 == x % 256
  {
    x / 256 + x % 256 * 256
  }

  /** The two buffers may be the same one. */
  method IdeaCipher(inbuf: array<Byte>, outbuf: array<Byte>, key: array<Word16>)
    requires inbuf.Length == 8 && outbuf.Length == 8 && key.Length == KEY_LENGTH
    modifies outbuf
    ensures outbuf[..] == Cipher(old(inbuf[..]), key[..])
  {
    hide Mul, MixKey, MultiplyAdd, Round;
    ghost var b := Load(inbuf[..]);
    ghost var k: Key := key[..];
    var x1 := LoadSwapped(inbuf[0], inbuf[1]);
    var x2 := LoadSwapped(inbuf[2], inbuf[3]);
    var x3 := LoadSwapped(inbuf[4], inbuf[5]);
    var x4 := LoadSwapped(inbuf[6], inbuf[7]);
    var r: nat, p: nat := ROUNDS, 0;
    while r > 0
      invariant r <= ROUNDS && p == 6 * (ROUNDS - r)
      invariant Block(x1, x2, x3, x4) == Rounds(b, k, ROUNDS - r)
    {
      x1, x2, x3, x4 := IdeaRound(x1, x2, x3, x4, k, key, p);
      p := p + 6;
      r := r - 1;
    }
    x1, x2, x3, x4 := OutputTransform(x1, x2, x3, x4, k, key, p);
    StoreSwapped(outbuf, x1, x3, x2, x4);
  }

  /** The four little-endian stores of swapped words. */
  method StoreSwapped(outbuf: array<Byte>, x1: Word16, x2: Word16, x3: Word16, x4: Word16)
    requires outbuf.Length == 8
    modifies outbuf
    ensures outbuf[..] == Store(Block(x1, x2, x3, x4))
  {
    outbuf[0], outbuf[1] := Swapped(x1) % 256, Swapped(x1) / 256;
    outbuf[2], outbuf[3] := Swapped(x2) % 256, Swapped(x2) / 256;
    outbuf[4], outbuf[5] := Swapped(x3) % 256, Swapped(x3) / 256;
    outbuf[6], outbuf[7] := Swapped(x4) % 256, Swapped(x4) / 256;
  }

  /** The loop body, with the key pointer at p. */
  method IdeaRound(y1: Word16, y2: Word16, y3: Word16, y4: Word16, ghost k: Key, key: array<Word16>, p: nat)
    returns (x1: Word16, x2: Word16, x3: Word16, x4: Word16)
    requires key.Length == KEY_LENGTH && key[..] == k
    requires p % 6 == 0 && p / 6 < ROUNDS
    ensures Block(x1, x2, x3, x4) == Round(Block(y1, y2, y3, y4), k, p / 6)
  {
    hide Mul, Add16, Xor16;
    x1 := MulLowHigh(y1, key[p]);
    x2 := Add16(y2, key[p + 1]);
    x3 := Add16(y3, key[p + 2]);
    x4 := MulLowHigh(y4, key[p + 3]);
    ghost var mixed := Block(x1, x2, x3, x4);
    assert mixed == MixKey(Block(y1, y2, y3, y4), k, p / 6);
    var s3 := x3;
    x3 := Xor16(x3, x1);
    x3 := MulLowHigh(x3, key[p + 4]);
    var s2 := x2;
    x2 := Xor16(x2, x4);
    x2 := Add16(x2, x3);
    x2 := MulLowHigh(x2, key[p + 5]);
    x3 := Add16(x3, x2);
    x1 := Xor16(x1, x2);
    x4 := Xor16(x4, x3);
    Xor16Commutes(x2, s3);
    Xor16Commutes(x3, s2);
    x2 := Xor16(x2, s3);
    x3 := Xor16(x3, s2);
  }

  /** The four statements after the loop: x2 and x3 are stored in the other order, undoing the last swap. */
  method OutputTransform(y1: Word16, y2: Word16, y3: Word16, y4: Word16, ghost k: Key, key: array<Word16>, p: nat)
    returns (x1: Word16, x2: Word16, x3: Word16, x4: Word16)
    requires key.Length == KEY_LENGTH && key[..] == k && p == 48
    ensures Block(x1, x3, x2, x4) == MixKey(SwapMiddle(Block(y1, y2, y3, y4)), k, ROUNDS)
  {
    hide Mul;
    x1 := MulLowHigh(y1, key[p]);
    x3 := Add16(y3, key[p + 1]);
    x2 := Add16(y2, key[p + 2]);
    x4 := MulLowHigh(y4, key[p + 3]);
  }

  /** Two stores through a pointer that moves down: *--p = v; *--p = w. */
  method PutBackwards(temp: array<Word16>, p: nat, v: Word16, w: Word16)
    requires 2 <= p <= temp.Length
    modifies temp
    ensures temp[p - 1] == v && temp[p - 2] == w
    ensures forall k :: 0 <= k < temp.Length && k != p - 1 && k != p - 2 ==> temp[k] == old(temp[k])
  {
    temp[p - 1] := v;
    temp[p - 2] := w;
  }

  /** The words of a round, stored through the descending pointer: k6, k5, then the key layer from its last word. */
  method PutRound(temp: array<Word16>, p: nat, k6: Word16, k5: Word16, t4: Word16, t3: Word16, t2: Word16, t1: Word16)
    requires 6 <= p <= temp.Length
    modifies temp
    ensures temp[p - 1] == k6 && temp[p - 2] == k5
    ensures temp[p - 3] == t4 && temp[p - 4] == t3 && temp[p - 5] == t2 && temp[p - 6] == t1
    ensures forall k :: 0 <= k < temp.Length && !(p - 6 <= k < p) ==> temp[k] == old(temp[k])
  {
    PutBackwards(temp, p, k6, k5);
    PutBackwards(temp, p - 2, t4, t3);
    PutBackwards(temp, p - 4, t2, t1);
  }

  /** The inverses of the four words of a key layer, read through a pointer at e. */
  method InverseWords(ek: array<Word16>, e: nat) returns (t1: Word16, t2: Word16, t3: Word16, t4: Word16)
    requires e + 4 <= ek.Length
    ensures t1 == Inverse(ek[e]) && t4 == Inverse(ek[e + 3])
    ensures t2 == Neg16(ek[e + 1]) && t3 == Neg16(ek[e + 2])
  {
    t1 := MulInv(ek[e]);
    t2 := Neg16(ek[e + 1]);
    t3 := Neg16(ek[e + 2]);
    t4 := MulInv(ek[e + 3]);
  }

  /** Writes the inverted key backwards into a scratch buffer; the two keys may be the same array. */
  method IdeaInvertKey(ek: array<Word16>, dk: array<Word16>)
    requires ek.Length == KEY_LENGTH && dk.Length == KEY_LENGTH
    modifies dk
    ensures dk[..] == InvertedKey(old(ek[..]))
  {
    hide Inverse, InvertedKey, Neg16;
    ghost var key: Key := ek[..];
    ghost var inverted := InvertedKey(key);
    var temp := new Word16[KEY_LENGTH];
    var e, p := 0, KEY_LENGTH;

    InvertedMixKey(key, ROUNDS);
    var t1, t2, t3, t4 := InverseWords(ek, e);
    PutBackwards(temp, p, t4, t3);
    PutBackwards(temp, p - 2, t2, t1);
    e, p := e + 4, p - 4;

    for i := 0 to ROUNDS - 1
      invariant e == 6 * i + 4 && p == 48 - 6 * i
      invariant ek[..] == key
      invariant Filled(temp[..], inverted, p)
    {
      InvertedMultiplyAddKey(key, ROUNDS - 1 - i);
      InvertedMixKey(key, ROUNDS - 1 - i);
      t1, t2, t3, t4 := InverseWords(ek, e + 2);
      PutRound(temp, p, ek[e + 1], ek[e], t4, t2, t3, t1);
      FilledDown(temp[..], inverted, p);
      e, p := e + 6, p - 6;
    }

    InvertedMultiplyAddKey(key, 0);
    InvertedMixKey(key, 0);
    t1, t2, t3, t4 := InverseWords(ek, e + 2);
    PutRound(temp, p, ek[e + 1], ek[e], t4, t3, t2, t1);
    FilledDown(temp[..], inverted, p);

    assert temp[..] == inverted;
    CopyKey(temp, dk);
  }

  /** The scratch buffer holds the inverted key from position p on. */
  ghost predicate Filled(temp: seq<Word16>, inverted: Key, p: nat)
    requires |temp| == KEY_LENGTH
  {
    forall k :: p <= k < KEY_LENGTH ==> temp[k] == inverted[k]
  }

  lemma FilledDown(temp: seq<Word16>, inverted: Key, p: nat)
    requires |temp| == KEY_LENGTH && 6 <= p <= KEY_LENGTH && Filled(temp, inverted, p)
    requires temp[p - 1] == inverted[p - 1] && temp[p - 2] == inverted[p - 2] && temp[p - 3] == inverted[p - 3]
    requires temp[p - 4] == inverted[p - 4] && temp[p - 5] == inverted[p - 5] && temp[p - 6] == inverted[p - 6]
    ensures Filled(temp, inverted, p - 6)
  {
  }

  /** memcpy(DK, temp, sizeof(temp)). */
  method CopyKey(temp: array<Word16>, dk: array<Word16>)
    requires temp.Length == KEY_LENGTH && dk.Length == KEY_LENGTH && temp != dk
    modifies dk
    ensures dk[..] == temp[..]
  {
    forall k | 0 <= k < KEY_LENGTH {
      dk[k] := temp[k];
    }
  }
}
