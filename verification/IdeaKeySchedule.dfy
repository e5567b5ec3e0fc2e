/** Expansion of a 128-bit user key to the 52-word working key: successive left rotations by 25 bits. */
module IdeaKeySchedule {
  import opened Words
  import opened IdeaBlock

  type UserKey = k: seq<Byte> | |k| == 16 witness seq(16, _ => 0)

  /** Bit e of a number, least significant bit 0. */
  function Bit(w: nat, e: nat): nat {
    if e == 0 then w % 2 else Bit(w / 2, e - 1)
  }

  /** Bit p of the user key, most significant bit first. */
  function KeyBit(user: UserKey, p: nat): nat
    requires p < 128
  {
    Bit(user[p / 8], 7 - p % 8)
  }

  /** Bit b of a word, most significant bit first. */
  function WordBit(w: Word16, b: nat): nat
    requires b < 16
  {
    Bit(w, 15 - b)
  }

  /** a << 9 | c >> 7, truncated to 16 bits. */
  function Rotated(a: Word16, c: Word16): Word16 {
    (a * 512 + c / 128) % 0x1_0000
  }

  /** Word w of the g-th group of eight: the group before it, as 128 bits, rotated left by 25. */
  function ScheduleWord(user: UserKey, g: nat, w: nat): Word16
    requires w < 8
  {
    if g == 0 then Join16(user[2 * w], user[2 * w + 1])
    else Rotated(ScheduleWord(user, g - 1, (w + 1) % 8), ScheduleWord(user, g - 1, (w + 2) % 8))
  }

  function Schedule(user: UserKey): Key {
    seq(KEY_LENGTH, n requires 0 <= n < KEY_LENGTH => ScheduleWord(user, n / 8, n % 8))
  }

  /** The bits of a number put together from a high part and a low part of k bits. */
  lemma {:induction false} BitOfConcat(k: nat, hi: nat, lo: nat, e: nat)
    requires lo < Pow2(k)
    ensures Bit(Pow2(k) * hi + lo, e) == if e < k then Bit(lo, e) else Bit(hi, e - k)
  {
    if k > 0 {
      var w := Pow2(k) * hi + lo;
      assert w == 2 * (Pow2(k - 1) * hi) + lo;
      assert w % 2 == lo % 2 && w / 2 == Pow2(k - 1) * hi + lo / 2;
      if e > 0 {
        BitOfConcat(k - 1, hi, lo / 2, e - 1);
      }
    }
  }

  lemma RotatedBit(a: Word16, c: Word16, b: nat)
    requires b < 16
    ensures WordBit(Rotated(a, c), b) == if b < 7 then WordBit(a, b + 9) else WordBit(c, b - 7)
  {
    assert Pow2(7) == 128 && Pow2(9) == 512 && Pow2(16) == 0x1_0000;
    var v: nat, d: nat, e := a * 512 + c / 128, c / 128, 15 - b;
    BitOfConcat(16, v / 0x1_0000, v % 0x1_0000, e);
    BitOfConcat(9, a, d, e);
    BitOfConcat(7, d, c % 128, e + 7);
  }

  lemma UserWordBit(user: UserKey, n: nat, b: nat)
    requires n < 8 && b < 16
    ensures WordBit(Join16(user[2 * n], user[2 * n + 1]), b) == KeyBit(user, 16 * n + b)
  {
    assert Pow2(8) == 256;
    BitOfConcat(8, user[2 * n], user[2 * n + 1], 15 - b);
    if b < 8 {
      assert (16 * n + b) / 8 == 2 * n && (16 * n + b) % 8 == b;
    } else {
      assert (16 * n + b) / 8 == 2 * n + 1 && (16 * n + b) % 8 == b - 8;
    }
  }

  /** Where in the user key bit b of word w of group g comes from. */
  function Position(g: nat, w: nat, b: nat): (p: nat)
    ensures p < 128
  {
    (25 * g + 16 * w + b) % 128
  }

  lemma NextPosition(g: nat, w: nat, b: nat)
    requires g > 0 && w < 8 && b < 16
    ensures if b < 7 then Position(g - 1, (w + 1) % 8, b + 9) == Position(g, w, b)
            else Position(g - 1, (w + 2) % 8, b - 7) == Position(g, w, b)
  {
    var p := 25 * g + 16 * w + b;
    assert (p - 128) % 128 == p % 128;
    if b < 7 {
      assert (w + 1) % 8 == if w < 7 then w + 1 else w - 7;
    } else {
      assert (w + 2) % 8 == if w < 6 then w + 2 else w - 6;
    }
  }

  lemma FirstGroupBit(user: UserKey, w: nat, b: nat)
    requires w < 8 && b < 16
    ensures WordBit(Join16(user[2 * w], user[2 * w + 1]), b) == KeyBit(user, Position(0, w, b))
  {
    hide WordBit, KeyBit, Join16;
    UserWordBit(user, w, b);
  }

  lemma {:induction false} GroupRotates(user: UserKey, g: nat, w: nat, b: nat)
    requires w < 8 && b < 16
    ensures WordBit(ScheduleWord(user, g, w), b) == KeyBit(user, Position(g, w, b))
    decreases g
  {
    hide WordBit, KeyBit, Rotated, Position, Join16;
    if g == 0 {
      FirstGroupBit(user, w, b);
    } else {
      var w1, w2 := (w + 1) % 8, (w + 2) % 8;
      RotatedBit(ScheduleWord(user, g - 1, w1), ScheduleWord(user, g - 1, w2), b);
      NextPosition(g, w, b);
      if b < 7 {
        GroupRotates(user, g - 1, w1, b + 9);
      } else {
        GroupRotates(user, g - 1, w2, b - 7);
      }
    }
  }

  /** Main result: every bit of the working key is the user key's bit a whole number of 25-bit rotations away. */
  lemma ScheduleRotates(user: UserKey, n: nat, b: nat)
    requires n < KEY_LENGTH && b < 16
    ensures WordBit(Schedule(user)[n], b) == KeyBit(user, (25 * (n / 8) + 16 * (n % 8) + b) % 128)
  {
    hide WordBit, KeyBit;
    GroupRotates(user, n / 8, n % 8, b);
  }

  lemma GroupIndex(g: nat, w: nat)
    requires w < 8
    ensures (8 * g + w) / 8 == g && (8 * g + w) % 8 == w
  {
  }

  /** The pointer is at the g-th group; i stays in 0..7 between iterations and j counts the words written. */
  method IdeaExpandKey(userkey: array<Byte>, ek: array<Word16>)
    requires userkey.Length == 16 && ek.Length == KEY_LENGTH
    modifies ek
    ensures ek[..] == Schedule(userkey[..])
  {
    hide Rotated, Schedule, Join16;
    ghost var user: UserKey := userkey[..];
    ghost var key := Schedule(user);
    FirstGroup(user);
    for j := 0 to 8
      invariant forall n :: 0 <= n < j ==> ek[n] == key[n]
    {
      ek[j] := Join16(userkey[2 * j], userkey[2 * j + 1]);
    }
    var base, i, j := 0, 0, 8;
    ghost var g := 0;
    while j < KEY_LENGTH
      invariant 8 <= j <= KEY_LENGTH && 0 <= i < 8 && base == 8 * g && j == base + 8 + i
      invariant forall n :: 0 <= n < j ==> ek[n] == key[n]
    {
      NextWord(user, g, i);
      i := i + 1;
      ek[base + i + 7] := Rotated(ek[base + i % 8], ek[base + (i + 1) % 8]);
      if i == 8 {
        base, g := base + 8, g + 1;
      }
      i := i % 8;
      j := j + 1;
    }
    assert ek[..] == key;
  }

  lemma FirstGroup(user: UserKey)
    ensures forall w :: 0 <= w < 8 ==> Schedule(user)[w] == Join16(user[2 * w], user[2 * w + 1])
  {
  }

  lemma NextWord(user: UserKey, g: nat, w: nat)
    requires w < 8 && 8 * (g + 1) + w < KEY_LENGTH
    ensures var key := Schedule(user);
      key[8 * (g + 1) + w] == Rotated(key[8 * g + (w + 1) % 8], key[8 * g + (w + 2) % 8])
  {
    hide Rotated;
    GroupIndex(g + 1, w);
    GroupIndex(g, (w + 1) % 8);
    GroupIndex(g, (w + 2) % 8);
  }
}
