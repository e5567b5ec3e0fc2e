/** The published test vector of IDEA: key 0001 to 0008, block 0000 0001 0002 0003, round by round. */
module IdeaVector {
  import opened HexWords
  import opened IdeaArith
  import opened IdeaBlock
  import opened IdeaKeySchedule
  import opened Words

  /** The user key of the words 0001 to 0008. */
  predicate Published(user: UserKey) {
    forall w :: 0 <= w < 8 ==> user[2 * w] == 0 && user[2 * w + 1] == w + 1
  }

  lemma MulIs(x: Word16, y: Word16, q: nat, z: Word16)
    requires Residue(x) * Residue(y) == P * q + Residue(z)
    ensures Mul(x, y) == z
  {
    RemainderOf(q, Residue(z));
    hide Residue;
  }

  lemma RemainderOf(q: nat, z: nat)
    requires 1 <= z < P
    ensures (P * q + z) % P == z
  {
  }

  /** A block given by its digits. */
  function Words4(a: Hex4, b: Hex4, c: Hex4, d: Hex4): Block {
    Block(Value4(a), Value4(b), Value4(c), Value4(d))
  }

  lemma SumIs(x: Word16, y: Word16, z: Word16)
    requires x + y - z in {0, 0x1_0000}
    ensures Add16(x, y) == z
  {
  }

  /** Word n of the working key. */
  function KeyWord(user: UserKey, n: nat): Word16
    requires n < KEY_LENGTH
  {
    Schedule(user)[n]
  }

  lemma UserWord(user: UserKey, w: nat)
    requires Published(user) && w < 8
    ensures KeyWord(user, w) == w + 1
  {
    FirstGroup(user);
    hide Schedule;
  }

  lemma RotatedIs(a: Word16, c: Word16, p: nat, d: nat, z: Word16)
    requires 128 * d <= c < 128 * d + 128 && 512 * a + d == 0x1_0000 * p + z
    ensures Rotated(a, c) == z
  {
    assert c / 128 == d;
  }

  /** A further word as data: a shifted by 9, with p the bits shifted out, and d the high bits of c. */
  lemma NextKeyWord(user: UserKey, g: nat, w: nat, a: Word16, c: Word16, p: nat, d: nat, z: Word16)
    requires w < 8 && 8 * (g + 1) + w < KEY_LENGTH
    requires KeyWord(user, 8 * g + (w + 1) % 8) == a && KeyWord(user, 8 * g + (w + 2) % 8) == c
    requires 128 * d <= c < 128 * d + 128 && 512 * a + d == 0x1_0000 * p + z
    ensures KeyWord(user, 8 * (g + 1) + w) == z
  {
    NextWord(user, g, w);
    hide Schedule;
    RotatedIs(a, c, p, d, z);
    hide Rotated;
  }

  /** x times y is z modulo 65537, with 0 standing for 65536, and q the quotient. */
  predicate ProductIs(x: Word16, y: Word16, q: nat, z: Word16) {
    Residue(x) * Residue(y) == P * q + Residue(z)
  }

  /** The key layer as data: its key words, the quotients of its two products, and its results. */
  lemma KeyLayer(b: Block, user: UserKey, r: nat, k1: Word16, k2: Word16, k3: Word16, k4: Word16,
                 q1: nat, m1: Word16, m2: Word16, m3: Word16, q4: nat, m4: Word16)
    requires r <= ROUNDS && KeyWord(user, 6 * r) == k1 && KeyWord(user, 6 * r + 1) == k2
    requires KeyWord(user, 6 * r + 2) == k3 && KeyWord(user, 6 * r + 3) == k4
    requires ProductIs(b.x1, k1, q1, m1) && ProductIs(b.x4, k4, q4, m4)
    requires b.x2 + k2 - m2 in {0, 0x1_0000} && b.x3 + k3 - m3 in {0, 0x1_0000}
    ensures MixKey(b, Schedule(user), r) == Block(m1, m2, m3, m4)
  {
    hide Residue, Mul, Schedule;
    MulIs(b.x1, k1, q1, m1);
    SumIs(b.x2, k2, m2);
    SumIs(b.x3, k3, m3);
    MulIs(b.x4, k4, q4, m4);
  }

  predicate XorIs(x: Hex4, y: Hex4, z: Hex4) {
    OnHex4(Parity, x, y, Hex4(H0, H0, H0, H0), z)
  }

  /** The multiply-add layer and the swap as data: the operands and quotients of its products, and its masks. */
  lemma MaskLayer(m1: Hex4, m2: Hex4, m3: Hex4, m4: Hex4, k5: Word16, k6: Word16,
                  s: Hex4, qt: nat, t: Word16, w: Hex4, v: Word16, qu: nat, u: Hex4, y: Hex4,
                  o1: Hex4, o2: Hex4, o3: Hex4, o4: Hex4)
    requires XorIs(m3, m1, s) && XorIs(m2, m4, w)
    requires ProductIs(Value4(s), k5, qt, t) && Value4(w) + t - v in {0, 0x1_0000}
    requires ProductIs(v, k6, qu, Value4(u)) && t + Value4(u) - Value4(y) in {0, 0x1_0000}
    requires XorIs(m1, u, o1) && XorIs(m3, u, o2) && XorIs(m2, y, o3) && XorIs(m4, y, o4)
    ensures SwapMiddle(MultiplyAdd(Words4(m1, m2, m3, m4), k5, k6)) == Words4(o1, o2, o3, o4)
  {
    hide Residue, Value4, OnHex4, Mul, Add16, Xor16;
    XorOfHex(m3, m1, s);
    XorOfHex(m2, m4, w);
    MulIs(Value4(s), k5, qt, t);
    SumIs(Value4(w), t, v);
    MulIs(v, k6, qu, Value4(u));
    SumIs(t, Value4(u), Value4(y));
    XorOfHex(m1, u, o1);
    XorOfHex(m2, y, o3);
    XorOfHex(m3, u, o2);
    XorOfHex(m4, y, o4);
  }

  // ---------- the working key ----------

  lemma KeyGroup0(user: UserKey)
    requires Published(user)
    ensures KeyWord(user, 0) == 0x0001 && KeyWord(user, 1) == 0x0002 && KeyWord(user, 2) == 0x0003
    ensures KeyWord(user, 3) == 0x0004 && KeyWord(user, 4) == 0x0005 && KeyWord(user, 5) == 0x0006
    ensures KeyWord(user, 6) == 0x0007 && KeyWord(user, 7) == 0x0008
  {
    UserWord(user, 0);
    UserWord(user, 1);
    UserWord(user, 2);
    UserWord(user, 3);
    UserWord(user, 4);
    UserWord(user, 5);
    UserWord(user, 6);
    UserWord(user, 7);
    hide *;
  }

  lemma KeyGroup1(user: UserKey)
    requires Published(user)
    ensures KeyWord(user, 8) == 0x0400 && KeyWord(user, 9) == 0x0600 && KeyWord(user, 10) == 0x0800
    ensures KeyWord(user, 11) == 0x0a00 && KeyWord(user, 12) == 0x0c00 && KeyWord(user, 13) == 0x0e00
    ensures KeyWord(user, 14) == 0x1000 && KeyWord(user, 15) == 0x0200
  {
    hide Published, KeyWord;
    KeyGroup0(user);
    NextKeyWord(user, 0, 0, 0x0002, 0x0003, 0x0, 0x0, 0x0400);
    NextKeyWord(user, 0, 1, 0x0003, 0x0004, 0x0, 0x0, 0x0600);
    NextKeyWord(user, 0, 2, 0x0004, 0x0005, 0x0, 0x0, 0x0800);
    NextKeyWord(user, 0, 3, 0x0005, 0x0006, 0x0, 0x0, 0x0a00);
    NextKeyWord(user, 0, 4, 0x0006, 0x0007, 0x0, 0x0, 0x0c00);
    NextKeyWord(user, 0, 5, 0x0007, 0x0008, 0x0, 0x0, 0x0e00);
    NextKeyWord(user, 0, 6, 0x0008, 0x0001, 0x0, 0x0, 0x1000);
    NextKeyWord(user, 0, 7, 0x0001, 0x0002, 0x0, 0x0, 0x0200);
  }

  lemma KeyGroup2(user: UserKey)
    requires Published(user)
    ensures KeyWord(user, 16) == 0x0010 && KeyWord(user, 17) == 0x0014 && KeyWord(user, 18) == 0x0018
    ensures KeyWord(user, 19) == 0x001c && KeyWord(user, 20) == 0x0020 && KeyWord(user, 21) == 0x0004
    ensures KeyWord(user, 22) == 0x0008 && KeyWord(user, 23) == 0x000c
  {
    hide Published, KeyWord;
    KeyGroup1(user);
    NextKeyWord(user, 1, 0, 0x0600, 0x0800, 0xc, 0x10, 0x0010);
    NextKeyWord(user, 1, 1, 0x0800, 0x0a00, 0x10, 0x14, 0x0014);
    NextKeyWord(user, 1, 2, 0x0a00, 0x0c00, 0x14, 0x18, 0x0018);
    NextKeyWord(user, 1, 3, 0x0c00, 0x0e00, 0x18, 0x1c, 0x001c);
    NextKeyWord(user, 1, 4, 0x0e00, 0x1000, 0x1c, 0x20, 0x0020);
    NextKeyWord(user, 1, 5, 0x1000, 0x0200, 0x20, 0x4, 0x0004);
    NextKeyWord(user, 1, 6, 0x0200, 0x0400, 0x4, 0x8, 0x0008);
    NextKeyWord(user, 1, 7, 0x0400, 0x0600, 0x8, 0xc, 0x000c);
  }

  lemma KeyGroup3(user: UserKey)
    requires Published(user)
    ensures KeyWord(user, 24) == 0x2800 && KeyWord(user, 25) == 0x3000 && KeyWord(user, 26) == 0x3800
    ensures KeyWord(user, 27) == 0x4000 && KeyWord(user, 28) == 0x0800 && KeyWord(user, 29) == 0x1000
    ensures KeyWord(user, 30) == 0x1800 && KeyWord(user, 31) == 0x2000
  {
    hide Published, KeyWord;
    KeyGroup2(user);
    NextKeyWord(user, 2, 0, 0x0014, 0x0018, 0x0, 0x0, 0x2800);
    NextKeyWord(user, 2, 1, 0x0018, 0x001c, 0x0, 0x0, 0x3000);
    NextKeyWord(user, 2, 2, 0x001c, 0x0020, 0x0, 0x0, 0x3800);
    NextKeyWord(user, 2, 3, 0x0020, 0x0004, 0x0, 0x0, 0x4000);
    NextKeyWord(user, 2, 4, 0x0004, 0x0008, 0x0, 0x0, 0x0800);
    NextKeyWord(user, 2, 5, 0x0008, 0x000c, 0x0, 0x0, 0x1000);
    NextKeyWord(user, 2, 6, 0x000c, 0x0010, 0x0, 0x0, 0x1800);
    NextKeyWord(user, 2, 7, 0x0010, 0x0014, 0x0, 0x0, 0x2000);
  }

  lemma KeyGroup4(user: UserKey)
    requires Published(user)
    ensures KeyWord(user, 32) == 0x0070 && KeyWord(user, 33) == 0x0080 && KeyWord(user, 34) == 0x0010
    ensures KeyWord(user, 35) == 0x0020 && KeyWord(user, 36) == 0x0030 && KeyWord(user, 37) == 0x0040
    ensures KeyWord(user, 38) == 0x0050 && KeyWord(user, 39) == 0x0060
  {
    hide Published, KeyWord;
    KeyGroup3(user);
    NextKeyWord(user, 3, 0, 0x3000, 0x3800, 0x60, 0x70, 0x0070);
    NextKeyWord(user, 3, 1, 0x3800, 0x4000, 0x70, 0x80, 0x0080);
    NextKeyWord(user, 3, 2, 0x4000, 0x0800, 0x80, 0x10, 0x0010);
    NextKeyWord(user, 3, 3, 0x0800, 0x1000, 0x10, 0x20, 0x0020);
    NextKeyWord(user, 3, 4, 0x1000, 0x1800, 0x20, 0x30, 0x0030);
    NextKeyWord(user, 3, 5, 0x1800, 0x2000, 0x30, 0x40, 0x0040);
    NextKeyWord(user, 3, 6, 0x2000, 0x2800, 0x40, 0x50, 0x0050);
    NextKeyWord(user, 3, 7, 0x2800, 0x3000, 0x50, 0x60, 0x0060);
  }

  lemma KeyGroup5(user: UserKey)
    requires Published(user)
    ensures KeyWord(user, 40) == 0x0000 && KeyWord(user, 41) == 0x2000 && KeyWord(user, 42) == 0x4000
    ensures KeyWord(user, 43) == 0x6000 && KeyWord(user, 44) == 0x8000 && KeyWord(user, 45) == 0xa000
    ensures KeyWord(user, 46) == 0xc000 && KeyWord(user, 47) == 0xe001
  {
    hide Published, KeyWord;
    KeyGroup4(user);
    NextKeyWord(user, 4, 0, 0x0080, 0x0010, 0x1, 0x0, 0x0000);
    NextKeyWord(user, 4, 1, 0x0010, 0x0020, 0x0, 0x0, 0x2000);
    NextKeyWord(user, 4, 2, 0x0020, 0x0030, 0x0, 0x0, 0x4000);
    NextKeyWord(user, 4, 3, 0x0030, 0x0040, 0x0, 0x0, 0x6000);
    NextKeyWord(user, 4, 4, 0x0040, 0x0050, 0x0, 0x0, 0x8000);
    NextKeyWord(user, 4, 5, 0x0050, 0x0060, 0x0, 0x0, 0xa000);
    NextKeyWord(user, 4, 6, 0x0060, 0x0070, 0x0, 0x0, 0xc000);
    NextKeyWord(user, 4, 7, 0x0070, 0x0080, 0x0, 0x1, 0xe001);
  }

  lemma KeyGroup6(user: UserKey)
    requires Published(user)
    ensures KeyWord(user, 48) == 0x0080 && KeyWord(user, 49) == 0x00c0 && KeyWord(user, 50) == 0x0100
    ensures KeyWord(user, 51) == 0x0140
  {
    hide Published, KeyWord;
    KeyGroup5(user);
    NextKeyWord(user, 5, 0, 0x2000, 0x4000, 0x40, 0x80, 0x0080);
    NextKeyWord(user, 5, 1, 0x4000, 0x6000, 0x80, 0xc0, 0x00c0);
    NextKeyWord(user, 5, 2, 0x6000, 0x8000, 0xc0, 0x100, 0x0100);
    NextKeyWord(user, 5, 3, 0x8000, 0xa000, 0x100, 0x140, 0x0140);
  }

  // ---------- the rounds ----------

  const PLAIN: Block := Block(0, 1, 2, 3)

  lemma NoRounds(user: UserKey)
    ensures Rounds(PLAIN, Schedule(user), 0) == Block(0, 1, 2, 3)
  {
  }

  lemma NextRound(user: UserKey, r: nat)
    requires r < ROUNDS
    ensures var b, k := Rounds(PLAIN, Schedule(user), r), Schedule(user);
      Rounds(PLAIN, k, r + 1)
        == SwapMiddle(MultiplyAdd(MixKey(b, k, r), KeyWord(user, 6 * r + 4), KeyWord(user, 6 * r + 5)))
  {
    hide Schedule, MixKey, MultiplyAdd;
  }

  lemma Mixed0(user: UserKey)
    requires Published(user)
    ensures MixKey(Block(0x0000, 0x0001, 0x0002, 0x0003), Schedule(user), 0)
         == Block(0x0000, 0x0003, 0x0005, 0x000c)
    ensures KeyWord(user, 4) == 0x0005 && KeyWord(user, 5) == 0x0006
  {
    hide Published, KeyWord, Schedule, MixKey;
    KeyGroup0(user);
    KeyLayer(Block(0x0000, 0x0001, 0x0002, 0x0003), user, 0, 0x0001, 0x0002, 0x0003, 0x0004,
             0, 0x0000, 0x0003, 0x0005, 0, 0x000c);
  }

  lemma Masked0()
    ensures SwapMiddle(MultiplyAdd(Block(0x0000, 0x0003, 0x0005, 0x000c), 0x0005, 0x0006))
         == Block(0x00f0, 0x00f5, 0x010a, 0x0105)
  {
    hide MultiplyAdd;
    MaskLayer(Hex4(H0, H0, H0, H0), Hex4(H0, H0, H0, H3),
              Hex4(H0, H0, H0, H5), Hex4(H0, H0, H0, HC),
              0x0005, 0x0006, Hex4(H0, H0, H0, H5), 0, 0x0019, Hex4(H0, H0, H0, HF), 0x0028,
              0, Hex4(H0, H0, HF, H0), Hex4(H0, H1, H0, H9),
              Hex4(H0, H0, HF, H0), Hex4(H0, H0, HF, H5),
              Hex4(H0, H1, H0, HA), Hex4(H0, H1, H0, H5));
  }

  lemma AfterRound1(user: UserKey)
    requires Published(user)
    ensures Rounds(PLAIN, Schedule(user), 1) == Block(0x00f0, 0x00f5, 0x010a, 0x0105)
  {
    hide Published, Schedule, KeyWord, MixKey, MultiplyAdd, SwapMiddle, Rounds;
    NoRounds(user);
    NextRound(user, 0);
    Mixed0(user);
    Masked0();
  }

  lemma Mixed1(user: UserKey)
    requires Published(user)
    ensures MixKey(Block(0x00f0, 0x00f5, 0x010a, 0x0105), Schedule(user), 1)
         == Block(0x0690, 0x00fd, 0x050a, 0x1dfa)
    ensures KeyWord(user, 10) == 0x0800 && KeyWord(user, 11) == 0x0a00
  {
    hide Published, KeyWord, Schedule, MixKey;
    KeyGroup0(user);
    KeyGroup1(user);
    KeyLayer(Block(0x00f0, 0x00f5, 0x010a, 0x0105), user, 1, 0x0007, 0x0008, 0x0400, 0x0600,
             0, 0x0690, 0x00fd, 0x050a, 6, 0x1dfa);
  }

  lemma Masked1()
    ensures SwapMiddle(MultiplyAdd(Block(0x0690, 0x00fd, 0x050a, 0x1dfa), 0x0800, 0x0a00))
         == Block(0x222f, 0x21b5, 0xf45e, 0xe959)
  {
    hide MultiplyAdd;
    MaskLayer(Hex4(H0, H6, H9, H0), Hex4(H0, H0, HF, HD),
              Hex4(H0, H5, H0, HA), Hex4(H1, HD, HF, HA),
              0x0800, 0x0a00, Hex4(H0, H3, H9, HA), 28, 0xcfe4, Hex4(H1, HD, H0, H7), 0xeceb,
              2369, Hex4(H2, H4, HB, HF), Hex4(HF, H4, HA, H3),
              Hex4(H2, H2, H2, HF), Hex4(H2, H1, HB, H5),
              Hex4(HF, H4, H5, HE), Hex4(HE, H9, H5, H9));
  }

  lemma AfterRound2(user: UserKey)
    requires Published(user)
    ensures Rounds(PLAIN, Schedule(user), 2) == Block(0x222f, 0x21b5, 0xf45e, 0xe959)
  {
    hide Published, Schedule, KeyWord, MixKey, MultiplyAdd, SwapMiddle, Rounds;
    AfterRound1(user);
    NextRound(user, 1);
    Mixed1(user);
    Masked1();
  }

  lemma Mixed2(user: UserKey)
    requires Published(user)
    ensures MixKey(Block(0x222f, 0x21b5, 0xf45e, 0xe959), Schedule(user), 2)
         == Block(0x3266, 0x2fb5, 0x045e, 0xb02e)
    ensures KeyWord(user, 16) == 0x0010 && KeyWord(user, 17) == 0x0014
  {
    hide Published, KeyWord, Schedule, MixKey;
    KeyGroup1(user);
    KeyGroup2(user);
    KeyLayer(Block(0x222f, 0x21b5, 0xf45e, 0xe959), user, 2, 0x0c00, 0x0e00, 0x1000, 0x0200,
             410, 0x3266, 0x2fb5, 0x045e, 466, 0xb02e);
  }

  lemma Masked2()
    ensures SwapMiddle(MultiplyAdd(Block(0x3266, 0x2fb5, 0x045e, 0xb02e), 0x0010, 0x0014))
         == Block(0x0f86, 0x39be, 0x8ee8, 0x1173)
  {
    hide MultiplyAdd;
    MaskLayer(Hex4(H3, H2, H6, H6), Hex4(H2, HF, HB, H5),
              Hex4(H0, H4, H5, HE), Hex4(HB, H0, H2, HE),
              0x0010, 0x0014, Hex4(H3, H6, H3, H8), 3, 0x637d, Hex4(H9, HF, H9, HB), 0x0318,
              0, Hex4(H3, HD, HE, H0), Hex4(HA, H1, H5, HD),
              Hex4(H0, HF, H8, H6), Hex4(H3, H9, HB, HE),
              Hex4(H8, HE, HE, H8), Hex4(H1, H1, H7, H3));
  }

  lemma AfterRound3(user: UserKey)
    requires Published(user)
    ensures Rounds(PLAIN, Schedule(user), 3) == Block(0x0f86, 0x39be, 0x8ee8, 0x1173)
  {
    hide Published, Schedule, KeyWord, MixKey, MultiplyAdd, SwapMiddle, Rounds;
    AfterRound2(user);
    NextRound(user, 2);
    Mixed2(user);
    Masked2();
  }

  lemma Mixed3(user: UserKey)
    requires Published(user)
    ensures MixKey(Block(0x0f86, 0x39be, 0x8ee8, 0x1173), Schedule(user), 3)
         == Block(0x748f, 0x39da, 0x8f08, 0x45cc)
    ensures KeyWord(user, 22) == 0x0008 && KeyWord(user, 23) == 0x000c
  {
    hide Published, KeyWord, Schedule, MixKey;
    KeyGroup2(user);
    KeyLayer(Block(0x0f86, 0x39be, 0x8ee8, 0x1173), user, 3, 0x0018, 0x001c, 0x0020, 0x0004,
             1, 0x748f, 0x39da, 0x8f08, 0, 0x45cc);
  }

  lemma Masked3()
    ensures SwapMiddle(MultiplyAdd(Block(0x748f, 0x39da, 0x8f08, 0x45cc), 0x0008, 0x000c))
         == Block(0x57df, 0xac58, 0xc65b, 0xba4d)
  {
    hide MultiplyAdd;
    MaskLayer(Hex4(H7, H4, H8, HF), Hex4(H3, H9, HD, HA),
              Hex4(H8, HF, H0, H8), Hex4(H4, H5, HC, HC),
              0x0008, 0x000c, Hex4(HF, HB, H8, H7), 7, 0xdc31, Hex4(H7, HC, H1, H6), 0x5847,
              4, Hex4(H2, H3, H5, H0), Hex4(HF, HF, H8, H1),
              Hex4(H5, H7, HD, HF), Hex4(HA, HC, H5, H8),
              Hex4(HC, H6, H5, HB), Hex4(HB, HA, H4, HD));
  }

  lemma AfterRound4(user: UserKey)
    requires Published(user)
    ensures Rounds(PLAIN, Schedule(user), 4) == Block(0x57df, 0xac58, 0xc65b, 0xba4d)
  {
    hide Published, Schedule, KeyWord, MixKey, MultiplyAdd, SwapMiddle, Rounds;
    AfterRound3(user);
    NextRound(user, 3);
    Mixed3(user);
    Masked3();
  }

  lemma Mixed4(user: UserKey)
    requires Published(user)
    ensures MixKey(Block(0x57df, 0xac58, 0xc65b, 0xba4d), Schedule(user), 4)
         == Block(0xca46, 0xdc58, 0xfe5b, 0x116d)
    ensures KeyWord(user, 28) == 0x0800 && KeyWord(user, 29) == 0x1000
  {
    hide Published, KeyWord, Schedule, MixKey;
    KeyGroup3(user);
    KeyLayer(Block(0x57df, 0xac58, 0xc65b, 0xba4d), user, 4, 0x2800, 0x3000, 0x3800, 0x4000,
             3514, 0xca46, 0xdc58, 0xfe5b, 11923, 0x116d);
  }

  lemma Masked4()
    ensures SwapMiddle(MultiplyAdd(Block(0xca46, 0xdc58, 0xfe5b, 0x116d), 0x0800, 0x1000))
         == Block(0x8e81, 0xba9c, 0xf77f, 0x3a4a)
  {
    hide MultiplyAdd;
    MaskLayer(Hex4(HC, HA, H4, H6), Hex4(HD, HC, H5, H8),
              Hex4(HF, HE, H5, HB), Hex4(H1, H1, H6, HD),
              0x0800, 0x1000, Hex4(H3, H4, H1, HD), 416, 0xe660, Hex4(HC, HD, H3, H5), 0xb395,
              2873, Hex4(H4, H4, HC, H7), Hex4(H2, HB, H2, H7),
              Hex4(H8, HE, H8, H1), Hex4(HB, HA, H9, HC),
              Hex4(HF, H7, H7, HF), Hex4(H3, HA, H4, HA));
  }

  lemma AfterRound5(user: UserKey)
    requires Published(user)
    ensures Rounds(PLAIN, Schedule(user), 5) == Block(0x8e81, 0xba9c, 0xf77f, 0x3a4a)
  {
    hide Published, Schedule, KeyWord, MixKey, MultiplyAdd, SwapMiddle, Rounds;
    AfterRound4(user);
    NextRound(user, 4);
    Mixed4(user);
    Masked4();
  }

  lemma Mixed5(user: UserKey)
    requires Published(user)
    ensures MixKey(Block(0x8e81, 0xba9c, 0xf77f, 0x3a4a), Schedule(user), 5)
         == Block(0x0aa4, 0xda9c, 0xf7ef, 0x24e3)
    ensures KeyWord(user, 34) == 0x0010 && KeyWord(user, 35) == 0x0020
  {
    hide Published, KeyWord, Schedule, MixKey;
    KeyGroup3(user);
    KeyGroup4(user);
    KeyLayer(Block(0x8e81, 0xba9c, 0xf77f, 0x3a4a), user, 5, 0x1800, 0x2000, 0x0070, 0x0080,
             3420, 0x0aa4, 0xda9c, 0xf7ef, 29, 0x24e3);
  }

  lemma Masked5()
    ensures SwapMiddle(MultiplyAdd(Block(0x0aa4, 0xda9c, 0xf7ef, 0x24e3), 0x0010, 0x0020))
         == Block(0x6942, 0x9409, 0xe21b, 0x1c64)
  {
    hide MultiplyAdd;
    MaskLayer(Hex4(H0, HA, HA, H4), Hex4(HD, HA, H9, HC),
              Hex4(HF, H7, HE, HF), Hex4(H2, H4, HE, H3),
              0x0010, 0x0020, Hex4(HF, HD, H4, HB), 15, 0xd4a1, Hex4(HF, HE, H7, HF), 0xd320,
              26, Hex4(H6, H3, HE, H6), Hex4(H3, H8, H8, H7),
              Hex4(H6, H9, H4, H2), Hex4(H9, H4, H0, H9),
              Hex4(HE, H2, H1, HB), Hex4(H1, HC, H6, H4));
  }

  lemma AfterRound6(user: UserKey)
    requires Published(user)
    ensures Rounds(PLAIN, Schedule(user), 6) == Block(0x6942, 0x9409, 0xe21b, 0x1c64)
  {
    hide Published, Schedule, KeyWord, MixKey, MultiplyAdd, SwapMiddle, Rounds;
    AfterRound5(user);
    NextRound(user, 5);
    Mixed5(user);
    Masked5();
  }

  lemma Mixed6(user: UserKey)
    requires Published(user)
    ensures MixKey(Block(0x6942, 0x9409, 0xe21b, 0x1c64), Schedule(user), 6)
         == Block(0xbc4d, 0x9449, 0xe26b, 0xa576)
    ensures KeyWord(user, 40) == 0x0000 && KeyWord(user, 41) == 0x2000
  {
    hide Published, KeyWord, Schedule, MixKey;
    KeyGroup4(user);
    KeyGroup5(user);
    KeyLayer(Block(0x6942, 0x9409, 0xe21b, 0x1c64), user, 6, 0x0030, 0x0040, 0x0050, 0x0060,
             19, 0xbc4d, 0x9449, 0xe26b, 10, 0xa576);
  }

  lemma Masked6()
    ensures SwapMiddle(MultiplyAdd(Block(0xbc4d, 0x9449, 0xe26b, 0xa576), 0x0000, 0x2000))
         == Block(0x99d0, 0xc7f6, 0x5331, 0x620e)
  {
    hide MultiplyAdd;
    MaskLayer(Hex4(HB, HC, H4, HD), Hex4(H9, H4, H4, H9),
              Hex4(HE, H2, H6, HB), Hex4(HA, H5, H7, H6),
              0x0000, 0x2000, Hex4(H5, HE, H2, H6), 24101, 0xa1db, Hex4(H3, H1, H3, HF), 0xd31a,
              6755, Hex4(H2, H5, H9, HD), Hex4(HC, H7, H7, H8),
              Hex4(H9, H9, HD, H0), Hex4(HC, H7, HF, H6),
              Hex4(H5, H3, H3, H1), Hex4(H6, H2, H0, HE));
  }

  lemma AfterRound7(user: UserKey)
    requires Published(user)
    ensures Rounds(PLAIN, Schedule(user), 7) == Block(0x99d0, 0xc7f6, 0x5331, 0x620e)
  {
    hide Published, Schedule, KeyWord, MixKey, MultiplyAdd, SwapMiddle, Rounds;
    AfterRound6(user);
    NextRound(user, 6);
    Mixed6(user);
    Masked6();
  }

  lemma Mixed7(user: UserKey)
    requires Published(user)
    ensures MixKey(Block(0x99d0, 0xc7f6, 0x5331, 0x620e), Schedule(user), 7)
         == Block(0xd98d, 0x27f6, 0xd331, 0x82b8)
    ensures KeyWord(user, 46) == 0xc000 && KeyWord(user, 47) == 0xe001
  {
    hide Published, KeyWord, Schedule, MixKey;
    KeyGroup5(user);
    KeyLayer(Block(0x99d0, 0xc7f6, 0x5331, 0x620e), user, 7, 0x4000, 0x6000, 0x8000, 0xa000,
             9843, 0xd98d, 0x27f6, 0xd331, 15688, 0x82b8);
  }

  lemma Masked7()
    ensures SwapMiddle(MultiplyAdd(Block(0xd98d, 0x27f6, 0xd331, 0x82b8), 0xc000, 0xe001))
         == Block(0x0a24, 0x0098, 0xec6b, 0x4925)
  {
    hide MultiplyAdd;
    MaskLayer(Hex4(HD, H9, H8, HD), Hex4(H2, H7, HF, H6),
              Hex4(HD, H3, H3, H1), Hex4(H8, H2, HB, H8),
              0xc000, 0xe001, Hex4(H0, HA, HB, HC), 2060, 0xf7f4, Hex4(HA, H5, H4, HE), 0x9d42,
              35225, Hex4(HD, H3, HA, H9), Hex4(HC, HB, H9, HD),
              Hex4(H0, HA, H2, H4), Hex4(H0, H0, H9, H8),
              Hex4(HE, HC, H6, HB), Hex4(H4, H9, H2, H5));
  }

  lemma AfterRound8(user: UserKey)
    requires Published(user)
    ensures Rounds(PLAIN, Schedule(user), 8) == Block(0x0a24, 0x0098, 0xec6b, 0x4925)
  {
    hide Published, Schedule, KeyWord, MixKey, MultiplyAdd, SwapMiddle, Rounds;
    AfterRound7(user);
    NextRound(user, 7);
    Mixed7(user);
    Masked7();
  }

  /** Main result: the block 0000 0001 0002 0003 is enciphered to 11FB ED2B 0198 6DE5. */
  lemma PublishedVector(user: UserKey)
    requires Published(user)
    ensures Encipher(PLAIN, Schedule(user)) == Block(0x11fb, 0xed2b, 0x0198, 0x6de5)
  {
    hide Published, KeyWord, Schedule, MixKey, Rounds;
    AfterRound8(user);
    KeyGroup6(user);
    KeyLayer(Block(0x0a24, 0xec6b, 0x0098, 0x4925), user, 8, 0x0080, 0x00c0, 0x0100, 0x0140,
             5, 0x11fb, 0xed2b, 0x0198, 91, 0x6de5);
  }

  /** The same on the bytes that the code reads and writes. */
  lemma PublishedBytes(user: UserKey)
    requires Published(user)
    ensures Cipher([0, 0, 0, 1, 0, 2, 0, 3], Schedule(user)) == [0x11, 0xFB, 0xED, 0x2B, 0x01, 0x98, 0x6D, 0xE5]
  {
    PublishedVector(user);
    hide Encipher, Schedule;
    assert Load([0, 0, 0, 1, 0, 2, 0, 3]) == PLAIN;
  }
}
