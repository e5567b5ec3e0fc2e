/** The digests of the empty message and of "abc" in the test suite of RFC 1321 (A.5), step by step. */
module Md5Vectors {
  import opened HexWords
  import opened Md5
  import opened Md5Compress
  import opened Md5Digits
  import opened Words

  const INITIAL_REGISTERS: Registers :=
    Registers(Hex8(H6, H7, H4, H5, H2, H3, H0, H1), Hex8(HE, HF, HC, HD, HA, HB, H8, H9),
              Hex8(H9, H8, HB, HA, HD, HC, HF, HE), Hex8(H1, H0, H3, H2, H5, H4, H7, H6))

  lemma StartingRegisters(x: seq<Word32>)
    requires |x| == 16
    ensures Steps(0, INITIAL, x) == ChainOf(INITIAL_REGISTERS)
  {
  }

  const ABC: seq<Byte> := [0x61, 0x62, 0x63]

  // ---------- the two blocks ----------

  predicate EmptyBlock(x: seq<Word32>) {
    |x| == 16 && x[0] == 0x80 && forall k :: 0 < k < 16 ==> x[k] == 0
  }

  predicate AbcBlock(x: seq<Word32>) {
    |x| == 16 && x[0] == 0x8063_6261 && x[14] == 24 && forall k :: 0 < k < 16 && k != 14 ==> x[k] == 0
  }

  lemma {:induction false} ZeroBytes(count: nat)
    ensures forall k :: 0 <= k < count ==> Bytes(0, count)[k] == 0
  {
    if count > 0 {
      ZeroBytes(count - 1);
    }
  }

  lemma EmptyPadded()
    ensures |Padded([])| == 64 && EmptyBlock(LoadWords(Padded([])[0..64]))
  {
    ZeroBytes(8);
    var p := Padded([]);
    assert p == [] + [0x80] + Zeros(55) + Bytes(0, 8);
    hide Padded, Bytes;
    assert forall k :: 1 <= k < 64 ==> p[k] == 0;
    assert p[0..64] == p;
  }

  lemma AbcPadded()
    ensures |Padded(ABC)| == 64 && AbcBlock(LoadWords(Padded(ABC)[0..64]))
  {
    AbcBytes(Padded(ABC));
    hide *;
    assert Padded(ABC)[0..64] == Padded(ABC);
    AbcWords(Padded(ABC));
  }

  lemma AbcParts()
    ensures Padded(ABC) == ABC + [0x80] + Zeros(52) + Bytes(24, 8)
  {
    hide Bytes, Zeros;
  }

  lemma AbcBytes(p: seq<Byte>)
    requires p == Padded(ABC)
    ensures |p| == 64 && p[0] == 0x61 && p[1] == 0x62 && p[2] == 0x63 && p[3] == 0x80 && p[56] == 24
    ensures forall k :: 4 <= k < 64 && k != 56 ==> p[k] == 0
  {
    AbcParts();
    NextByte(24, 0, 7);
    ZeroBytes(7);
    hide Padded, Bytes, Zeros;
    forall k | 4 <= k < 64 && k != 56
      ensures p[k] == 0
    {
      if k < 56 {
        assert p[k] == Zeros(52)[k - 4];
        ZerosAt(52, k - 4);
      } else {
        assert p[k] == Bytes(24, 8)[k - 56] == Bytes(0, 7)[k - 57];
      }
    }
  }

  lemma ZerosAt(n: nat, k: nat)
    requires k < n
    ensures Zeros(n)[k] == 0
  {
  }

  lemma AbcWords(p: seq<Byte>)
    requires |p| == 64 && p[0] == 0x61 && p[1] == 0x62 && p[2] == 0x63 && p[3] == 0x80 && p[56] == 24
    requires forall k :: 4 <= k < 64 && k != 56 ==> p[k] == 0
    ensures AbcBlock(LoadWords(p))
  {
  }

  lemma NextByte(b: Byte, w: nat, count: nat)
    ensures Bytes(0x100 * w + b, count + 1) == [b] + Bytes(w, count)
  {
  }

  lemma FourBytes(b0: Byte, b1: Byte, b2: Byte, b3: Byte)
    ensures Bytes(Join32(b3, b2, b1, b0), 4) == [b0, b1, b2, b3]
  {
    assert Bytes(0, 0) == [];
    hide Bytes;
    NextByte(b3, 0, 0);
    NextByte(b2, b3, 1);
    NextByte(b1, 0x100 * b3 + b2, 2);
    NextByte(b0, 0x1_0000 * b3 + 0x100 * b2 + b1, 3);
  }

  lemma DigestBytes(d: seq<Byte>, r: Chain)
    requires |d| == 16
    requires r == Chain(Join32(d[3], d[2], d[1], d[0]), Join32(d[7], d[6], d[5], d[4]),
                        Join32(d[11], d[10], d[9], d[8]), Join32(d[15], d[14], d[13], d[12]))
    ensures Digest(r) == d
  {
    hide Bytes, Join32;
    FourBytes(d[0], d[1], d[2], d[3]);
    FourBytes(d[4], d[5], d[6], d[7]);
    FourBytes(d[8], d[9], d[10], d[11]);
    FourBytes(d[12], d[13], d[14], d[15]);
  }

  lemma OneBlock(m: seq<Byte>)
    requires |Padded(m)| == 64
    ensures Hash(m) == Digest(Sum(INITIAL, Steps(64, INITIAL, LoadWords(Padded(m)[0..64]))))
  {
    hide Padded, LoadWords, Digest, Sum, Steps;
    assert Fold(Padded(m), 0) == INITIAL;
    assert Fold(Padded(m), 1) == Compress(INITIAL, Padded(m)[0..64]);
  }

  // ---------- the empty message ----------

  lemma EmptyTo4(x: seq<Word32>) returns (r: Registers)
    requires EmptyBlock(x)
    ensures Steps(4, INITIAL, x) == ChainOf(r)
    ensures r == Registers(Hex8(HA, H5, H2, H0, H2, H7, H7, H4), Hex8(H1, HB, H1, H6, H3, H2, H0, H3),
              Hex8(HE, H7, HF, H0, H6, HB, H2, H3), Hex8(HF, H5, H9, H5, H9, H2, HD, HD))
  {
    Round1Shifts();
    hide Halves, Steps, ChainOf;
    StartingRegisters(x);
    r := INITIAL_REGISTERS;
    r := OneStep(0, INITIAL, x, r, 0x80, 0x200_0000,
      Hex8(H9, H8, HB, HA, HD, HC, HF, HE), 0x6b, 0x16a_a4f7, Hex8(HA, H5, H2, H0, H2, H7, H7, H4));
    r := OneStep(1, INITIAL, x, r, 0x1000, 0x10_0000,
      Hex8(HB, HD, H9, HA, HF, HB, H8, HA), 0xb69, 0x5_0756, Hex8(HF, H5, H9, H5, H9, H2, HD, HD));
    r := OneStep(2, INITIAL, x, r, 0x2_0000, 0x8000,
      Hex8(HA, HF, H4, H8, H2, HB, H5, H4), 0xd846, 0x792d, Hex8(HE, H7, HF, H0, H6, HB, H2, H3));
    r := OneStep(3, INITIAL, x, r, 0x40_0000, 0x400,
      Hex8(HE, H5, H9, H0, H0, H6, H5, H5), 0x25_c6e0, 0xcc, Hex8(H1, HB, H1, H6, H3, H2, H0, H3));
  }

  lemma EmptyTo8(x: seq<Word32>) returns (r: Registers)
    requires EmptyBlock(x)
    ensures Steps(8, INITIAL, x) == ChainOf(r)
    ensures r == Registers(Hex8(H3, H2, H0, H3, H3, H3, H4, H4), Hex8(H9, HB, HC, H1, H3, HC, HE, H9),
              Hex8(HF, H5, HB, H1, H5, H8, HD, HB), Hex8(H2, HF, H3, H5, HD, H4, H9, H4))
  {
    Round1Shifts();
    hide Halves, Steps, ChainOf;
    r := EmptyTo4(x);
    r := OneStep(4, INITIAL, x, r, 0x80, 0x200_0000,
      Hex8(HE, H7, H9, H1, HA, H2, HD, HF), 0x41, 0x2d_da02, Hex8(H3, H2, H0, H3, H3, H3, H4, H4));
    r := OneStep(5, INITIAL, x, r, 0x1000, 0x10_0000,
      Hex8(HD, H7, HF, H2, H7, HA, H2, H3), 0x150, 0xf_d32a, Hex8(H2, HF, H3, H5, HD, H4, H9, H4));
    r := OneStep(6, INITIAL, x, r, 0x2_0000, 0x8000,
      Hex8(H3, H2, H0, H3, H3, H2, H0, H7), 0x1_8447, 0x633d, Hex8(HF, H5, HB, H1, H5, H8, HD, HB));
    r := OneStep(7, INITIAL, x, r, 0x40_0000, 0x400,
      Hex8(H2, H7, H3, H3, H7, H3, H9, H4), 0xf_e40e, 0x298, Hex8(H9, HB, HC, H1, H3, HC, HE, H9));
  }

  lemma EmptyTo12(x: seq<Word32>) returns (r: Registers)
    requires EmptyBlock(x)
    ensures Steps(12, INITIAL, x) == ChainOf(r)
    ensures r == Registers(Hex8(H3, H8, H9, H3, HB, H9, H9, H1), Hex8(H7, H0, H7, H6, H8, HA, H2, H9),
              Hex8(HE, H1, HE, HF, H0, H5, H7, H6), Hex8(HF, HC, HE, H4, HA, H3, H1, H2))
  {
    Round1Shifts();
    hide Halves, Steps, ChainOf;
    r := EmptyTo8(x);
    r := OneStep(8, INITIAL, x, r, 0x80, 0x200_0000,
      Hex8(HB, H5, HB, H5, HD, H8, HD, HD), 0x28, 0x139_a4f9, Hex8(H3, H8, H9, H3, HB, H9, H9, H1));
    r := OneStep(9, INITIAL, x, r, 0x1000, 0x10_0000,
      Hex8(HD, HD, HA, H1, H7, H8, HC, HB), 0x981, 0xc_450e, Hex8(HF, HC, HE, H4, HA, H3, H1, H2));
    r := OneStep(10, INITIAL, x, r, 0x2_0000, 0x8000,
      Hex8(H3, HB, H8, H1, HB, HD, HF, H9), 0x6264, 0x7285, Hex8(HE, H1, HE, HF, H0, H5, H7, H6));
    r := OneStep(11, INITIAL, x, r, 0x40_0000, 0x400,
      Hex8(HF, H8, HF, H4, HB, H9, H9, H3), 0x7_84b3, 0x23a, Hex8(H7, H0, H7, H6, H8, HA, H2, H9));
  }

  lemma EmptyTo16(x: seq<Word32>) returns (r: Registers)
    requires EmptyBlock(x)
    ensures Steps(16, INITIAL, x) == ChainOf(r)
    ensures r == Registers(Hex8(HF, H5, H6, HC, H7, HC, HF, H1), Hex8(HD, H6, H8, H1, H9, HC, H6, HA),
              Hex8(H5, HA, HA, H5, H3, HF, H7, H5), Hex8(H3, H7, H4, H9, H4, H3, HA, H7))
  {
    Round1Shifts();
    hide Halves, Steps, ChainOf;
    r := EmptyTo12(x);
    r := OneStep(12, INITIAL, x, r, 0x80, 0x200_0000,
      Hex8(HE, HC, HE, H6, H2, H1, H3, H2), 0x48, 0x109_ebe5, Hex8(HF, H5, H6, HC, H7, HC, HF, H1));
    r := OneStep(13, INITIAL, x, r, 0x1000, 0x10_0000,
      Hex8(H7, H0, HE, H7, H0, H9, H2, H7), 0x6b6, 0x4_1dcc, Hex8(H3, H7, H4, H9, H4, H3, HA, H7));
    r := OneStep(14, INITIAL, x, r, 0x2_0000, 0x8000,
      Hex8(H7, H5, H7, HE, HC, H8, HA, H9), 0x1_fbce, 0x11ad, Hex8(H5, HA, HA, H5, H3, HF, H7, H5));
    r := OneStep(15, INITIAL, x, r, 0x40_0000, 0x400,
      Hex8(HB, H7, H4, H9, H4, H3, HA, H5), 0x1c_5cf5, 0x1ef, Hex8(HD, H6, H8, H1, H9, HC, H6, HA));
  }

  lemma EmptyTo20(x: seq<Word32>) returns (r: Registers)
    requires EmptyBlock(x)
    ensures Steps(20, INITIAL, x) == ChainOf(r)
    ensures r == Registers(Hex8(H1, HC, H7, HD, H7, H5, H1, H3), Hex8(HB, HD, H7, H8, H2, HE, H1, H7),
              Hex8(HC, H0, H9, H5, HF, H1, H3, HA), Hex8(H7, HB, HD, H5, H7, HA, H3, HA))
  {
    Round2Shifts();
    hide Halves, Steps, ChainOf;
    r := EmptyTo16(x);
    r := OneStep(16, INITIAL, x, r, 0x20, 0x800_0000,
      Hex8(H5, HE, HA, H5, H3, HC, H7, H2), 0x9, 0x22f_dec5, Hex8(H1, HC, H7, HD, H7, H5, H1, H3));
    r := OneStep(17, INITIAL, x, r, 0x200, 0x80_0000,
      Hex8(H9, HC, H2, H5, HB, H5, H1, HB), 0x127, 0x2f_ac02, Hex8(H7, HB, HD, H5, H7, HA, H3, HA));
    r := OneStep(18, INITIAL, x, r, 0x4000, 0x4_0000,
      Hex8(H5, HA, HF, HD, H7, H9, H3, HB), 0x3700, 0x1_1301, Hex8(HC, H0, H9, H5, HF, H1, H3, HA));
    r := OneStep(19, INITIAL, x, r, 0x10_0000, 0x1000,
      Hex8(H6, H3, H9, H5, H7, HB, H3, HA), 0x2_3cdd, 0xfce, Hex8(HB, HD, H7, H8, H2, HE, H1, H7));
  }

  lemma EmptyTo24(x: seq<Word32>) returns (r: Registers)
    requires EmptyBlock(x)
    ensures Steps(24, INITIAL, x) == ChainOf(r)
    ensures r == Registers(Hex8(H3, HD, H1, HE, H3, HE, H6, HC), Hex8(HE, H4, H2, H2, H5, H3, H1, HA),
              Hex8(HE, HB, H4, H1, H6, H4, H3, HE), Hex8(H6, H8, HB, H7, HB, H3, HE, H3))
  {
    Round2Shifts();
    hide Halves, Steps, ChainOf;
    r := EmptyTo20(x);
    r := OneStep(20, INITIAL, x, r, 0x20, 0x800_0000,
      Hex8(HB, H9, H5, H0, HA, HB, H1, H2), 0x15, 0x3fd_3082, Hex8(H3, HD, H1, HE, H3, HE, H6, HC));
    r := OneStep(21, INITIAL, x, r, 0x200, 0x80_0000,
      Hex8(H3, HD, H7, HC, H3, HE, H2, HD), 0x177, 0x15_ccba, Hex8(H6, H8, HB, H7, HB, H3, HE, H3));
    r := OneStep(22, INITIAL, x, r, 0x4000, 0x4_0000,
      Hex8(H2, H8, H3, H6, H3, H2, H6, HB), 0x305b, 0x2_0a26, Hex8(HE, HB, H4, H1, H6, H4, H3, HE));
    r := OneStep(23, INITIAL, x, r, 0x10_0000, 0x1000,
      Hex8(H6, H9, HA, H1, HA, H5, HA, HF), 0xeedc, 0xf8e, Hex8(HE, H4, H2, H2, H5, H3, H1, HA));
  }

  lemma EmptyTo28(x: seq<Word32>) returns (r: Registers)
    requires EmptyBlock(x)
    ensures Steps(28, INITIAL, x) == ChainOf(r)
    ensures r == Registers(Hex8(H3, H0, H6, HE, HC, H1, H2, H2), Hex8(HA, H0, H5, H7, H2, H8, H0, H7),
              Hex8(HA, H3, HC, H6, H6, H3, HD, HA), Hex8(HD, H2, H8, HC, H7, H7, HC, H2))
  {
    Round2Shifts();
    hide Halves, Steps, ChainOf;
    r := EmptyTo24(x);
    r := OneStep(24, INITIAL, x, r, 0x20, 0x800_0000,
      Hex8(HE, H3, H6, H2, H5, H7, H1, HE), 0x8, 0x262_6370, Hex8(H3, H0, H6, HE, HC, H1, H2, H2));
    r := OneStep(25, INITIAL, x, r, 0x200, 0x80_0000,
      Hex8(H2, H4, H6, H2, H5, H3, H2, H2), 0xa0, 0x51_0edb, Hex8(HD, H2, H8, HC, H7, H7, HC, H2));
    r := OneStep(26, INITIAL, x, r, 0x4000, 0x4_0000,
      Hex8(HD, H0, H4, HC, HD, H3, H2, H2), 0x2c18, 0x3_44e7, Hex8(HA, H3, HC, H6, H6, H3, HD, HA));
    r := OneStep(27, INITIAL, x, r, 0x10_0000, 0x1000,
      Hex8(HE, H2, HC, H6, H7, H7, HC, H2), 0xc42d, 0xfc9, Hex8(HA, H0, H5, H7, H2, H8, H0, H7));
  }

  lemma EmptyTo32(x: seq<Word32>) returns (r: Registers)
    requires EmptyBlock(x)
    ensures Steps(32, INITIAL, x) == ChainOf(r)
    ensures r == Registers(Hex8(H1, H3, H7, H0, H7, H0, H3, H6), Hex8(HA, H2, H2, H0, H5, HF, H1, HF),
              Hex8(H1, HC, H3, H1, HC, H3, H8, H4), Hex8(HA, HE, H7, H8, H1, H3, HD, HB))
  {
    Round2Shifts();
    hide Halves, Steps, ChainOf;
    r := EmptyTo28(x);
    r := OneStep(28, INITIAL, x, r, 0x20, 0x800_0000,
      Hex8(HA, H1, H4, H6, H2, H0, H1, HA), 0xf, 0x398_ca41, Hex8(H1, H3, H7, H0, H7, H0, H3, H6));
    r := OneStep(29, INITIAL, x, r, 0x200, 0x80_0000,
      Hex8(H0, H3, H5, H1, H6, H8, H1, H7), 0x1a5, 0x4d_83d1, Hex8(HA, HE, H7, H8, H1, H3, HD, HB));
    r := OneStep(30, INITIAL, x, r, 0x4000, 0x4_0000,
      Hex8(HB, H3, H7, H0, H5, H0, H3, H3), 0x2fa9, 0x1_b6e6, Hex8(H1, HC, H3, H1, HC, H3, H8, H4));
    r := OneStep(31, INITIAL, x, r, 0x10_0000, 0x1000,
      Hex8(HB, HC, H3, H8, H4, H3, HC, HD), 0xe_9b9b, 0x85e, Hex8(HA, H2, H2, H0, H5, HF, H1, HF));
  }

  lemma EmptyTo36(x: seq<Word32>) returns (r: Registers)
    requires EmptyBlock(x)
    ensures Steps(36, INITIAL, x) == ChainOf(r)
    ensures r == Registers(Hex8(HD, HF, H6, H3, HE, HA, HA, H1), Hex8(H0, H0, H4, HB, H6, H6, H6, H9),
              Hex8(H1, H2, HF, H3, HE, H7, H5, H5), Hex8(HC, H3, H6, H8, H9, HF, H5, HB))
  {
    Round3Shifts();
    hide Halves, Steps, ChainOf;
    r := EmptyTo32(x);
    r := OneStep(32, INITIAL, x, r, 0x10, 0x1000_0000,
      Hex8(H1, H0, H6, H9, H8, HF, H4, H0), 0x2, 0x3d4_38b8, Hex8(HD, HF, H6, H3, HE, HA, HA, H1));
    r := OneStep(33, INITIAL, x, r, 0x800, 0x20_0000,
      Hex8(H6, H1, H7, H2, H7, H6, H3, HA), 0x4ba, 0x1c_8096, Hex8(HC, H3, H6, H8, H9, HF, H5, HB));
    r := OneStep(34, INITIAL, x, r, 0x1_0000, 0x1_0000,
      Hex8(HB, HE, H2, HB, H2, HA, HE, H5), 0x47fa, 0x4f8b, Hex8(H1, H2, HF, H3, HE, H7, H5, H5));
    r := OneStep(35, INITIAL, x, r, 0x80_0000, 0x200,
      Hex8(H0, HE, HF, H8, H9, H2, HA, HF), 0x57_7f14, 0x1da, Hex8(H0, H0, H4, HB, H6, H6, H6, H9));
  }

  lemma EmptyTo40(x: seq<Word32>) returns (r: Registers)
    requires EmptyBlock(x)
    ensures Steps(40, INITIAL, x) == ChainOf(r)
    ensures r == Registers(Hex8(H5, HF, H7, HA, H9, HB, H2, HE), Hex8(HC, H5, HD, HC, H8, HC, H1, H5),
              Hex8(H9, H1, HC, HA, H4, HC, HB, H7), Hex8(HA, HB, HC, H3, H4, HE, H1, H6))
  {
    Round3Shifts();
    hide Halves, Steps, ChainOf;
    r := EmptyTo36(x);
    r := OneStep(36, INITIAL, x, r, 0x10, 0x1000_0000,
      Hex8(HD, H1, HD, H0, H1, HE, H6, H7), 0x5, 0x5f2_f34c, Hex8(H5, HF, H7, HA, H9, HB, H2, HE));
    r := OneStep(37, INITIAL, x, r, 0x800, 0x20_0000,
      Hex8(H4, HD, HC, H2, H1, HA, H1, H2), 0x2e8, 0x9_8916, Hex8(HA, HB, HC, H3, H4, HE, H1, H6));
    r := OneStep(38, INITIAL, x, r, 0x1_0000, 0x1_0000,
      Hex8(HF, H4, HF, H2, HB, H3, H5, H1), 0xfea1, 0xe606, Hex8(H9, H1, HC, HA, H4, HC, HB, H7));
    r := OneStep(39, INITIAL, x, r, 0x80_0000, 0x200,
      Hex8(H6, H5, H7, H3, H9, H9, H8, HF), 0x12_3f5e, 0x68, Hex8(HC, H5, HD, HC, H8, HC, H1, H5));
  }

  lemma EmptyTo44(x: seq<Word32>) returns (r: Registers)
    requires EmptyBlock(x)
    ensures Steps(44, INITIAL, x) == ChainOf(r)
    ensures r == Registers(Hex8(H4, H4, H9, H7, H1, H6, H9, HD), Hex8(H0, HF, HE, H3, H2, H4, H5, H3),
              Hex8(HF, HD, H9, H5, HF, H2, H4, H3), Hex8(H7, H6, HF, HD, H9, H3, HD, H4))
  {
    Round3Shifts();
    hide Halves, Steps, ChainOf;
    r := EmptyTo40(x);
    r := OneStep(40, INITIAL, x, r, 0x10, 0x1000_0000,
      Hex8(HF, HF, HD, H5, H8, HE, HB, H4), 0x8, 0x7eb_a8a8, Hex8(H4, H4, H9, H7, H1, H6, H9, HD));
    r := OneStep(41, INITIAL, x, r, 0x800, 0x20_0000,
      Hex8(H1, H0, H8, H1, HD, H6, H3, HF), 0x537, 0x6_4ccf, Hex8(H7, H6, HF, HD, H9, H3, HD, H4));
    r := OneStep(42, INITIAL, x, r, 0x1_0000, 0x1_0000,
      Hex8(HF, H7, HB, H6, H0, H9, H5, HC), 0x5e6f, 0x8698, Hex8(HF, HD, H9, H5, HF, H2, H4, H3));
    r := OneStep(43, INITIAL, x, r, 0x80_0000, 0x200,
      Hex8(HC, HF, HF, HF, H7, H7, H0, HA), 0x4d_3210, 0x24, Hex8(H0, HF, HE, H3, H2, H4, H5, H3));
  }

  lemma EmptyTo48(x: seq<Word32>) returns (r: Registers)
    requires EmptyBlock(x)
    ensures Steps(48, INITIAL, x) == ChainOf(r)
    ensures r == Registers(Hex8(H3, HF, H5, H5, HE, HD, HF, HD), Hex8(HC, HA, H7, HD, H2, HD, HB, HD),
              Hex8(H6, H8, HD, H8, H4, HE, HA, H2), Hex8(H2, H2, HA, H3, H1, HF, H5, H4))
  {
    Round3Shifts();
    hide Halves, Steps, ChainOf;
    r := EmptyTo44(x);
    r := OneStep(44, INITIAL, x, r, 0x10, 0x1000_0000,
      Hex8(H8, H4, H8, HB, H4, H5, HC, H4), 0xa, 0x2f7_2c9a, Hex8(H3, HF, H5, H5, HE, HD, HF, HD));
    r := OneStep(45, INITIAL, x, r, 0x800, 0x20_0000,
      Hex8(HC, HD, H2, H3, H3, HB, HE, HD), 0x157, 0x1c_69a6, Hex8(H2, H2, HA, H3, H1, HF, H5, H4));
    r := OneStep(46, INITIAL, x, r, 0x1_0000, 0x1_0000,
      Hex8(H1, H2, H1, H5, HD, H6, HF, HA), 0x2f4e, 0x4635, Hex8(H6, H8, HD, H8, H4, HE, HA, H2));
    r := OneStep(47, INITIAL, x, r, 0x80_0000, 0x200,
      Hex8(H7, H5, H2, HE, HB, HC, H0, HB), 0x24_df1b, 0xc3, Hex8(HC, HA, H7, HD, H2, HD, HB, HD));
  }

  lemma EmptyTo52(x: seq<Word32>) returns (r: Registers)
    requires EmptyBlock(x)
    ensures Steps(52, INITIAL, x) == ChainOf(r)
    ensures r == Registers(Hex8(H9, H3, HA, HA, H2, H5, H7, H7), Hex8(H5, H6, H1, HE, H0, H6, H8, H9),
              Hex8(HC, HD, H8, H5, HB, H8, HC, HB), Hex8(H1, H6, H8, H8, HD, HC, H8, H5))
  {
    Round4Shifts();
    hide Halves, Steps, ChainOf;
    r := EmptyTo48(x);
    r := OneStep(48, INITIAL, x, r, 0x40, 0x400_0000,
      Hex8(HB, H7, HA, H5, HA, H3, H1, HD), 0x3a, 0x324_b3de, Hex8(H9, H3, HA, HA, H2, H5, H7, H7));
    r := OneStep(49, INITIAL, x, r, 0x400, 0x40_0000,
      Hex8(H5, HD, HD, H2, H9, H8, HC, H2), 0x30e, 0x20_b7ad, Hex8(H1, H6, H8, H8, HD, HC, H8, H5));
    r := OneStep(50, INITIAL, x, r, 0x8000, 0x2_0000,
      Hex8(HA, H4, H2, H0, HF, HB, HB, H0), 0x5c46, 0x1_6df9, Hex8(HC, HD, H8, H5, HB, H8, HC, HB));
    r := OneStep(51, INITIAL, x, r, 0x20_0000, 0x800,
      Hex8(HF, HB, H5, HD, H2, H6, H4, HE), 0x18_4dbe, 0x444, Hex8(H5, H6, H1, HE, H0, H6, H8, H9));
  }

  lemma EmptyTo56(x: seq<Word32>) returns (r: Registers)
    requires EmptyBlock(x)
    ensures Steps(56, INITIAL, x) == ChainOf(r)
    ensures r == Registers(Hex8(H5, H6, H2, H5, HA, H1, H1, H4), Hex8(H1, HE, H7, H7, HF, HA, H6, H1),
              Hex8(H3, H9, H2, HA, HD, H0, HD, H0), Hex8(H3, H4, H5, H0, HF, H4, H2, HB))
  {
    Round4Shifts();
    hide Halves, Steps, ChainOf;
    r := EmptyTo52(x);
    r := OneStep(52, INITIAL, x, r, 0x40, 0x400_0000,
      Hex8(H3, H2, HF, HA, H9, HF, H3, H0), 0xb, 0x1e6a, Hex8(H5, H6, H2, H5, HA, H1, H1, H4));
    r := OneStep(53, INITIAL, x, r, 0x400, 0x40_0000,
      Hex8(H2, H0, H6, H1, HE, H1, HB, HD), 0x317, 0x37_8ad4, Hex8(H3, H4, H5, H0, HF, H4, H2, HB));
    r := OneStep(54, INITIAL, x, r, 0x8000, 0x2_0000,
      Hex8(HE, HB, HD, H4, H5, HC, H6, HB), 0x5ca5, 0x9b3, Hex8(H3, H9, H2, HA, HD, H0, HD, H0));
    r := OneStep(55, INITIAL, x, r, 0x20_0000, 0x800,
      Hex8(H8, HD, HA, HA, H2, HA, HD, H0), 0xd_2991, 0x72a, Hex8(H1, HE, H7, H7, HF, HA, H6, H1));
  }

  lemma EmptyTo60(x: seq<Word32>) returns (r: Registers)
    requires EmptyBlock(x)
    ensures Steps(60, INITIAL, x) == ChainOf(r)
    ensures r == Registers(Hex8(H4, H7, H4, HA, H9, HC, H8, HC), Hex8(H3, H0, H1, H3, H0, H1, H8, H2),
              Hex8(H3, H6, H5, H9, H4, HB, H1, H4), Hex8(HD, HF, HC, HE, H0, H0, HB, HC))
  {
    Round4Shifts();
    hide Halves, Steps, ChainOf;
    r := EmptyTo56(x);
    r := OneStep(56, INITIAL, x, r, 0x40, 0x400_0000,
      Hex8(HE, H6, HD, H5, H2, HB, H2, H5), 0x2b, 0xa3_4a88, Hex8(H4, H7, H4, HA, H9, HC, H8, HC));
    r := OneStep(57, INITIAL, x, r, 0x400, 0x40_0000,
      Hex8(HD, H9, HA, H8, H4, H5, HC, HE), 0x30, 0x26_20d9, Hex8(HD, HF, HC, HE, H0, H0, HB, HC));
    r := OneStep(58, INITIAL, x, r, 0x8000, 0x2_0000,
      Hex8(HB, H8, H8, H4, H9, H9, H3, H2), 0x4a58, 0xad16, Hex8(H3, H6, H5, H9, H4, HB, H1, H4));
    r := OneStep(59, INITIAL, x, r, 0x20_0000, 0x800,
      Hex8(H6, H1, H3, H3, H6, HB, HC, HB), 0x19_b66e, 0x7cd, Hex8(H3, H0, H1, H3, H0, H1, H8, H2));
  }

  lemma EmptyTo64(x: seq<Word32>) returns (r: Registers)
    requires EmptyBlock(x)
    ensures Steps(64, INITIAL, x) == ChainOf(r)
    ensures r == Registers(Hex8(H7, H2, H4, H6, HF, HA, HD, H3), Hex8(H1, H4, HE, H4, H5, H5, H0, H6),
              Hex8(HF, HF, H4, HE, HA, H3, HE, HB), Hex8(H6, HE, H1, H0, HA, H4, H7, H6))
  {
    Round4Shifts();
    hide Halves, Steps, ChainOf;
    r := EmptyTo60(x);
    r := OneStep(60, INITIAL, x, r, 0x40, 0x400_0000,
      Hex8(H0, H6, H6, HA, HB, H4, HD, H7), 0x11, 0x108_cfe5, Hex8(H7, H2, H4, H6, HF, HA, HD, H3));
    r := OneStep(61, INITIAL, x, r, 0x400, 0x40_0000,
      Hex8(HC, HB, HF, H5, HF, HF, H7, H9), 0x1a3, 0x3e_f26a, Hex8(H6, HE, H1, H0, HA, H4, H7, H6));
    r := OneStep(62, INITIAL, x, r, 0x8000, 0x2_0000,
      Hex8(H9, HD, HB, HA, H0, H4, HA, HC), 0x7f75, 0x1_227b, Hex8(HF, HF, H4, HE, HA, H3, HE, HB));
    r := OneStep(63, INITIAL, x, r, 0x20_0000, 0x800,
      Hex8(H9, H1, HE, HF, H0, H3, H9, H9), 0x15_b11b, 0xac, Hex8(H1, H4, HE, H4, H5, H5, H0, H6));
  }

  lemma EmptySum(r: Registers)
    requires r == Registers(Hex8(H7, H2, H4, H6, HF, HA, HD, H3), Hex8(H1, H4, HE, H4, H5, H5, H0, H6),
                           Hex8(HF, HF, H4, HE, HA, H3, HE, HB), Hex8(H6, HE, H1, H0, HA, H4, H7, H6))
    ensures Sum(INITIAL, ChainOf(r))
         == Chain(0xd98c_1dd4, 0x4b2_008f, 0x9809_80e9, 0x7e42_f8ec)
  {
  }

  lemma EmptyDigestBytes(r: Chain)
    requires r == Chain(0xd98c_1dd4, 0x4b2_008f, 0x9809_80e9, 0x7e42_f8ec)
    ensures Digest(r)
         == [0xd4, 0x1d, 0x8c, 0xd9, 0x8f, 0x00, 0xb2, 0x04, 0xe9, 0x80, 0x09, 0x98, 0xec, 0xf8, 0x42, 0x7e]
  {
    DigestBytes([0xd4, 0x1d, 0x8c, 0xd9, 0x8f, 0x00, 0xb2, 0x04, 0xe9, 0x80, 0x09, 0x98, 0xec, 0xf8, 0x42, 0x7e], r);
  }

  /** Main result: MD5 of the empty message is d41d8cd98f00b204e9800998ecf8427e. */
  lemma EmptyDigest()
    ensures Hash([])
         == [0xd4, 0x1d, 0x8c, 0xd9, 0x8f, 0x00, 0xb2, 0x04, 0xe9, 0x80, 0x09, 0x98, 0xec, 0xf8, 0x42, 0x7e]
  {
    EmptyPadded();
    OneBlock([]);
    hide Hash, Padded, LoadWords, Digest, Steps, Sum, ChainOf;
    var r := EmptyTo64(LoadWords(Padded([])[0..64]));
    EmptySum(r);
    EmptyDigestBytes(Sum(INITIAL, ChainOf(r)));
  }

  // ---------- "abc" ----------

  lemma AbcTo4(x: seq<Word32>) returns (r: Registers)
    requires AbcBlock(x)
    ensures Steps(4, INITIAL, x) == ChainOf(r)
    ensures r == Registers(Hex8(HD, H6, HD, H1, H1, H7, HB, H4), Hex8(H7, HA, HD, H9, H5, H6, HF, H2),
              Hex8(H2, HF, H6, HF, HB, HD, H7, H2), Hex8(H3, H4, H4, HA, H8, H4, H3, H2))
  {
    Round1Shifts();
    hide Halves, Steps, ChainOf;
    StartingRegisters(x);
    r := INITIAL_REGISTERS;
    r := OneStep(0, INITIAL, x, r, 0x80, 0x200_0000,
      Hex8(H9, H8, HB, HA, HD, HC, HF, HE), 0x2b, 0x1ce_06d8, Hex8(HD, H6, HD, H1, H1, H7, HB, H4));
    r := OneStep(1, INITIAL, x, r, 0x1000, 0x10_0000,
      Hex8(HC, HE, HE, HB, HC, HB, HC, HA), 0xc7e, 0x5_d796, Hex8(H3, H4, H4, HA, H8, H4, H3, H2));
    r := OneStep(2, INITIAL, x, r, 0x2_0000, 0x8000,
      Hex8(HD, HF, HC, H5, H2, HF, HB, H9), 0x1_3940, 0x7d92, Hex8(H2, HF, H6, HF, HB, HD, H7, H2));
    r := OneStep(3, INITIAL, x, r, 0x40_0000, 0x400,
      Hex8(HF, H4, HD, HA, H8, H6, HB, H6), 0x29_9980, 0x12d, Hex8(H7, HA, HD, H9, H5, H6, HF, H2));
  }

  lemma AbcTo8(x: seq<Word32>) returns (r: Registers)
    requires AbcBlock(x)
    ensures Steps(8, INITIAL, x) == ChainOf(r)
    ensures r == Registers(Hex8(HC, H7, H3, H7, H4, H1, HE, HF), Hex8(H9, H2, H8, HD, H9, H9, HF, H6),
              Hex8(H2, H0, H7, HD, HC, H6, H7, HB), Hex8(H8, HB, HA, HC, H3, H0, H5, H1))
  {
    Round1Shifts();
    hide Halves, Steps, ChainOf;
    r := AbcTo4(x);
    r := OneStep(4, INITIAL, x, r, 0x80, 0x200_0000,
      Hex8(H2, HE, H4, HB, H9, H4, H7, H2), 0x7d, 0x98_bbd5, Hex8(HC, H7, H3, H7, H4, H1, HE, HF));
    r := OneStep(5, INITIAL, x, r, 0x1000, 0x10_0000,
      Hex8(H6, HA, H5, H9, HF, HC, HF, H2), 0xe62, 0xc_474e, Hex8(H8, HB, HA, HC, H3, H0, H5, H1));
    r := OneStep(6, INITIAL, x, r, 0x2_0000, 0x8000,
      Hex8(HF, H3, H7, H5, H4, H6, HE, H3), 0x1_962a, 0x4a68, Hex8(H2, H0, H7, HD, HC, H6, H7, HB));
    r := OneStep(7, INITIAL, x, r, 0x40_0000, 0x400,
      Hex8(HC, H7, H2, HE, H0, H1, HD, H5), 0xf_d37b, 0x1c8, Hex8(H9, H2, H8, HD, H9, H9, HF, H6));
  }

  lemma AbcTo12(x: seq<Word32>) returns (r: Registers)
    requires AbcBlock(x)
    ensures Steps(12, INITIAL, x) == ChainOf(r)
    ensures r == Registers(Hex8(H8, H5, H4, HB, H3, H7, H1, H2), Hex8(H5, HE, HD, H4, H9, H5, H9, H6),
              Hex8(H3, H0, H2, H0, H4, H0, H1, HC), Hex8(H7, H4, HE, H2, HF, H2, H8, H4))
  {
    Round1Shifts();
    hide Halves, Steps, ChainOf;
    r := AbcTo8(x);
    r := OneStep(8, INITIAL, x, r, 0x80, 0x200_0000,
      Hex8(H0, H9, H2, HD, HA, H0, H7, H3), 0x1c, 0x1e5_7b3a, Hex8(H8, H5, H4, HB, H3, H7, H1, H2));
    r := OneStep(9, INITIAL, x, r, 0x1000, 0x10_0000,
      Hex8(HA, H0, H3, HD, HD, H1, H7, HB), 0xb72, 0xe_f97b, Hex8(H7, H4, HE, H2, HF, H2, H8, H4));
    r := OneStep(10, INITIAL, x, r, 0x2_0000, 0x8000,
      Hex8(H8, H6, H4, HF, H3, HB, H7, H2), 0x1_4d98, 0x5d9e, Hex8(H3, H0, H2, H0, H4, H0, H1, HC));
    r := OneStep(11, INITIAL, x, r, 0x40_0000, 0x400,
      Hex8(HB, H5, H6, HB, H7, H7, H0, H6), 0x34_557a, 0xba, Hex8(H5, HE, HD, H4, H9, H5, H9, H6));
  }

  lemma AbcTo16(x: seq<Word32>) returns (r: Registers)
    requires AbcBlock(x)
    ensures Steps(16, INITIAL, x) == ChainOf(r)
    ensures r == Registers(Hex8(HD, HD, HA, H9, HB, H9, HA, H6), Hex8(H7, H2, HA, HF, HF, H2, HE, H0),
              Hex8(HE, H3, H9, H6, H8, H5, H6, HB), Hex8(HA, H1, H0, H5, H1, H8, H9, H5))
  {
    Round1Shifts();
    hide Halves, Steps, ChainOf;
    r := AbcTo12(x);
    r := OneStep(12, INITIAL, x, r, 0x80, 0x200_0000,
      Hex8(H3, H0, H2, H2, H6, H2, H1, H4), 0x10, 0xfd_aa48, Hex8(HD, HD, HA, H9, HB, H9, HA, H6));
    r := OneStep(13, INITIAL, x, r, 0x1000, 0x10_0000,
      Hex8(H7, HC, H8, H0, HD, H1, H9, HE), 0xeef, 0xc_35b5, Hex8(HA, H1, H0, H5, H1, H8, H9, H5));
    r := OneStep(14, INITIAL, x, r, 0x2_0000, 0x8000,
      Hex8(HD, HF, HD, H1, H9, HD, H8, H6), 0x1_6cd6, 0x2148, Hex8(HE, H3, H9, H6, H8, H5, H6, HB));
    r := OneStep(15, INITIAL, x, r, 0x40_0000, 0x400,
      Hex8(HB, HD, H2, HD, H3, H8, H8, H5), 0x19_6d75, 0x23c, Hex8(H7, H2, HA, HF, HF, H2, HE, H0));
  }

  lemma AbcTo20(x: seq<Word32>) returns (r: Registers)
    requires AbcBlock(x)
    ensures Steps(20, INITIAL, x) == ChainOf(r)
    ensures r == Registers(Hex8(H3, HE, H9, HE, H9, H1, H2, H6), Hex8(HB, H5, HB, H2, H0, H4, HE, H4),
              Hex8(HE, H2, H5, HE, H1, H6, H5, H2), Hex8(H4, HA, H1, HD, H8, H0, H4, HE))
  {
    Round2Shifts();
    hide Halves, Steps, ChainOf;
    r := AbcTo16(x);
    r := OneStep(16, INITIAL, x, r, 0x20, 0x800_0000,
      Hex8(H6, H2, H9, H7, H9, H5, HE, HA), 0x6, 0x65f_74f2, Hex8(H3, HE, H9, HE, H9, H1, H2, H6));
    r := OneStep(17, INITIAL, x, r, 0x200, 0x80_0000,
      Hex8(H3, H2, HB, HF, HF, H3, HA, H2), 0x128, 0x5_bf77, Hex8(H4, HA, H1, HD, H8, H0, H4, HE));
    r := OneStep(18, INITIAL, x, r, 0x4000, 0x4_0000,
      Hex8(H4, HE, H1, HD, H8, H1, H4, H6), 0x1604, 0x2_6102, Hex8(HE, H2, H5, HE, H1, H6, H5, H2));
    r := OneStep(19, INITIAL, x, r, 0x10_0000, 0x1000,
      Hex8(H6, H2, H1, HF, H1, H0, H4, HA), 0x3_ee92, 0xd35, Hex8(HB, H5, HB, H2, H0, H4, HE, H4));
  }

  lemma AbcTo24(x: seq<Word32>) returns (r: Registers)
    requires AbcBlock(x)
    ensures Steps(24, INITIAL, x) == ChainOf(r)
    ensures r == Registers(Hex8(H5, H9, HA, H8, HF, HF, HD, HA), Hex8(H4, H7, H0, H9, H2, HC, H0, H7),
              Hex8(HA, HB, HF, HC, H7, H9, H2, H0), Hex8(H6, HD, H0, H0, H2, HF, H1, HE))
  {
    Round2Shifts();
    hide Halves, Steps, ChainOf;
    r := AbcTo20(x);
    r := OneStep(20, INITIAL, x, r, 0x20, 0x800_0000,
      Hex8(HA, H0, H5, H2, H1, H6, H5, H4), 0x16, 0x51f_b7d7, Hex8(H5, H9, HA, H8, HF, HF, HD, HA));
    r := OneStep(21, INITIAL, x, r, 0x200, 0x80_0000,
      Hex8(H5, H5, HA, H8, H1, H6, HF, H6), 0x144, 0x9_ab97, Hex8(H6, HD, H0, H0, H2, HF, H1, HE));
    r := OneStep(22, INITIAL, x, r, 0x4000, 0x4_0000,
      Hex8(H6, HD, H0, H8, HF, HF, H1, HE), 0xa02, 0xfbf1, Hex8(HA, HB, HF, HC, H7, H9, H2, H0));
    r := OneStep(23, INITIAL, x, r, 0x10_0000, 0x1000,
      Hex8(H2, HD, HA, H8, H7, H9, H0, H4), 0xc_b2e7, 0x9b0, Hex8(H4, H7, H0, H9, H2, HC, H0, H7));
  }

  lemma AbcTo28(x: seq<Word32>) returns (r: Registers)
    requires AbcBlock(x)
    ensures Steps(28, INITIAL, x) == ChainOf(r)
    ensures r == Registers(Hex8(HB, H7, HF, H2, H6, H8, HC, HF), Hex8(H7, H8, H6, HA, HC, HB, H8, HF),
              Hex8(HF, HE, H1, H6, H2, H3, HB, H1), Hex8(H0, H9, H3, H8, H8, HE, HF, HF))
  {
    Round2Shifts();
    hide Halves, Steps, ChainOf;
    r := AbcTo24(x);
    r := OneStep(24, INITIAL, x, r, 0x20, 0x800_0000,
      Hex8(HC, H7, HF, HC, H7, HC, H2, H6), 0x8, 0x387_49e6, Hex8(HB, H7, HF, H2, H6, H8, HC, HF));
    r := OneStep(25, INITIAL, x, r, 0x200, 0x80_0000,
      Hex8(HE, H7, HF, H1, H6, HC, H0, H7), 0x30, 0x28_a313, Hex8(H0, H9, H3, H8, H8, HE, HF, HF));
    r := OneStep(26, INITIAL, x, r, 0x4000, 0x4_0000,
      Hex8(HB, H1, HF, HA, H4, HC, HC, HF), 0x14b2, 0x3_d376, Hex8(HF, HE, H1, H6, H2, H3, HB, H1));
    r := OneStep(27, INITIAL, x, r, 0x10_0000, 0x1000,
      Hex8(HB, HE, H1, HA, HA, H6, HB, H1), 0x4_a7de, 0x7a5, Hex8(H7, H8, H6, HA, HC, HB, H8, HF));
  }

  lemma AbcTo32(x: seq<Word32>) returns (r: Registers)
    requires AbcBlock(x)
    ensures Steps(32, INITIAL, x) == ChainOf(r)
    ensures r == Registers(Hex8(H7, H9, H0, HA, H7, H7, HF, HB), Hex8(H7, H2, H6, H3, H4, H2, HD, H3),
              Hex8(HA, H6, H2, H8, H8, H4, HA, HA), Hex8(H9, HF, H4, H7, HE, H4, HF, H8))
  {
    Round2Shifts();
    hide Halves, Steps, ChainOf;
    r := AbcTo28(x);
    r := OneStep(28, INITIAL, x, r, 0x20, 0x800_0000,
      Hex8(HF, HE, H2, HE, HA, HB, H8, HF), 0xc, 0x4_fd63, Hex8(H7, H9, H0, HA, H7, H7, HF, HB));
    r := OneStep(29, INITIAL, x, r, 0x200, 0x80_0000,
      Hex8(H7, H8, H6, HA, HE, HB, HB, HF), 0xfd, 0x13_1eb6, Hex8(H9, HF, H4, H7, HE, H4, HF, H8));
    r := OneStep(30, INITIAL, x, r, 0x4000, 0x4_0000,
      Hex8(H1, H9, H4, H2, HF, H4, HF, H8), 0x1fb2, 0x1b82, Hex8(HA, H6, H2, H8, H8, H4, HA, HA));
    r := OneStep(31, INITIAL, x, r, 0x10_0000, 0x1000,
      Hex8(HA, H6, H4, HD, H8, H4, HA, HA), 0xa_be29, 0xcc3, Hex8(H7, H2, H6, H3, H4, H2, HD, H3));
  }

  lemma AbcTo36(x: seq<Word32>) returns (r: Registers)
    requires AbcBlock(x)
    ensures Steps(36, INITIAL, x) == ChainOf(r)
    ensures r == Registers(Hex8(HB, H3, H7, H0, H7, HE, HB, HF), Hex8(H3, HB, H0, H8, H7, H5, HC, H7),
              Hex8(H8, HD, H2, H1, H2, HF, HF, H5), Hex8(H6, H0, H1, H2, H7, HB, H2, HE))
  {
    Round3Shifts();
    hide Halves, Steps, ChainOf;
    r := AbcTo32(x);
    r := OneStep(32, INITIAL, x, r, 0x10, 0x1000_0000,
      Hex8(H4, HB, H0, HC, H2, H2, H8, H1), 0xc, 0x410_d3be, Hex8(HB, H3, H7, H0, H7, HE, HB, HF));
    r := OneStep(33, INITIAL, x, r, 0x800, 0x20_0000,
      Hex8(H6, H7, H3, HB, HB, H8, HC, H6), 0x46f, 0x15_943f, Hex8(H6, H0, H1, H2, H7, HB, H2, HE));
    r := OneStep(34, INITIAL, x, r, 0x1_0000, 0x1_0000,
      Hex8(HA, H1, H0, H1, H4, H7, H4, H2), 0xb4c7, 0x2d0e, Hex8(H8, HD, H2, H1, H2, HF, HF, H5));
    r := OneStep(35, INITIAL, x, r, 0x80_0000, 0x200,
      Hex8(H5, HE, H4, H3, H2, HA, H6, H4), 0x67_45d2, 0x15b, Hex8(H3, HB, H0, H8, H7, H5, HC, H7));
  }

  lemma AbcTo40(x: seq<Word32>) returns (r: Registers)
    requires AbcBlock(x)
    ensures Steps(40, INITIAL, x) == ChainOf(r)
    ensures r == Registers(Hex8(H2, H1, HB, H1, H1, H7, HB, H9), Hex8(H5, HA, H2, HF, H5, HE, HA, H5),
              Hex8(H3, H5, H7, H5, H2, H2, H7, HE), Hex8(H6, HE, H7, H4, H2, H9, HD, H5))
  {
    Round3Shifts();
    hide Halves, Steps, ChainOf;
    r := AbcTo36(x);
    r := OneStep(36, INITIAL, x, r, 0x10, 0x1000_0000,
      Hex8(HD, H6, H3, HB, H2, H1, H1, HC), 0x2, 0xe6a_8a1f, Hex8(H2, H1, HB, H1, H1, H7, HB, H9));
    r := OneStep(37, INITIAL, x, r, 0x800, 0x20_0000,
      Hex8(H9, H7, H9, H8, H4, HD, H8, HB), 0x21c, 0x9_9862, Hex8(H6, HE, H7, H4, H2, H9, HD, H5));
    r := OneStep(38, INITIAL, x, r, 0x1_0000, 0x1_0000,
      Hex8(H7, H4, HC, HD, H4, HB, HA, HB), 0xf8a9, 0xc700, Hex8(H3, H5, H7, H5, H2, H2, H7, HE));
    r := OneStep(39, INITIAL, x, r, 0x80_0000, 0x200,
      Hex8(H7, HA, HB, H0, H1, HC, H1, H2), 0x3a_3c27, 0x49, Hex8(H5, HA, H2, HF, H5, HE, HA, H5));
  }

  lemma AbcTo44(x: seq<Word32>) returns (r: Registers)
    requires AbcBlock(x)
    ensures Steps(44, INITIAL, x) == ChainOf(r)
    ensures r == Registers(Hex8(H1, H1, HD, HE, H1, H7, H7, H9), Hex8(H4, HC, H6, H1, H2, H4, HF, H4),
              Hex8(H3, H1, HC, H4, H6, H5, HC, HA), Hex8(HF, HA, HD, HC, HA, HA, H3, H8))
  {
    Round3Shifts();
    hide Halves, Steps, ChainOf;
    r := AbcTo40(x);
    r := OneStep(40, INITIAL, x, r, 0x10, 0x1000_0000,
      Hex8(H0, H1, H2, HE, H5, H5, H0, HE), 0x4, 0xb7a_eb8d, Hex8(H1, H1, HD, HE, H1, H7, H7, H9));
    r := OneStep(41, INITIAL, x, r, 0x800, 0x20_0000,
      Hex8(H7, HE, H8, H4, H6, HB, HA, H2), 0x2bf, 0x1d_1fd2, Hex8(HF, HA, HD, HC, HA, HA, H3, H8));
    r := OneStep(42, INITIAL, x, r, 0x1_0000, 0x1_0000,
      Hex8(HB, H1, H2, HD, HE, H3, HE, H4), 0xbb92, 0x36e7, Hex8(H3, H1, HC, H4, H6, H5, HC, HA));
    r := OneStep(43, INITIAL, x, r, 0x80_0000, 0x200,
      Hex8(HD, HA, HC, H6, HD, H8, H8, HB), 0x1c_bf2a, 0x35, Hex8(H4, HC, H6, H1, H2, H4, HF, H4));
  }

  lemma AbcTo48(x: seq<Word32>) returns (r: Registers)
    requires AbcBlock(x)
    ensures Steps(48, INITIAL, x) == ChainOf(r)
    ensures r == Registers(Hex8(H7, HF, H2, HE, H5, H0, H7, HB), Hex8(H7, HB, HE, HB, H9, H7, H0, H0),
              Hex8(H8, HF, HA, HE, H6, H3, H9, H9), Hex8(H9, H9, HD, H9, H6, H7, H9, HD))
  {
    Round3Shifts();
    hide Halves, Steps, ChainOf;
    r := AbcTo44(x);
    r := OneStep(44, INITIAL, x, r, 0x10, 0x1000_0000,
      Hex8(H8, H7, H7, H9, HE, HB, H0, H6), 0x7, 0x32c_d2b8, Hex8(H7, HF, H2, HE, H5, H0, H7, HB));
    r := OneStep(45, INITIAL, x, r, 0x800, 0x20_0000,
      Hex8(H0, H2, H8, HB, H1, H1, H4, H5), 0x722, 0x3_5562, Hex8(H9, H9, HD, H9, H6, H7, H9, HD));
    r := OneStep(46, INITIAL, x, r, 0x1_0000, 0x1_0000,
      Hex8(HA, HA, H9, H6, H1, H3, H1, H2), 0xfbfc, 0xf5d4, Hex8(H8, HF, HA, HE, H6, H3, H9, H9));
    r := OneStep(47, INITIAL, x, r, 0x80_0000, 0x200,
      Hex8(H6, H9, H5, H9, H5, H4, H7, HF), 0x3d_3367, 0x1d8, Hex8(H7, HB, HE, HB, H9, H7, H0, H0));
  }

  lemma AbcTo52(x: seq<Word32>) returns (r: Registers)
    requires AbcBlock(x)
    ensures Steps(52, INITIAL, x) == ChainOf(r)
    ensures r == Registers(Hex8(H7, HB, H2, H0, H1, HD, HF, H8), Hex8(H8, HB, HF, H0, H2, H5, HC, H4),
              Hex8(HB, H2, H9, H8, HC, HE, HF, HD), Hex8(HF, H4, HE, H8, HE, H9, H6, HE))
  {
    Round4Shifts();
    hide Halves, Steps, ChainOf;
    r := AbcTo48(x);
    r := OneStep(48, INITIAL, x, r, 0x40, 0x400_0000,
      Hex8(HF, H0, H4, H1, HF, HC, HF, HB), 0x38, 0x3fc_d21b, Hex8(H7, HB, H2, H0, H1, HD, HF, H8));
    r := OneStep(49, INITIAL, x, r, 0x400, 0x40_0000,
      Hex8(H0, H0, H9, HA, H0, HA, HF, HE), 0x376, 0x1e_7232, Hex8(HF, H4, HE, H8, HE, H9, H6, HE));
    r := OneStep(50, INITIAL, x, r, 0x8000, 0x2_0000,
      Hex8(H8, HF, HD, HC, HF, H4, H0, H7), 0x658f, 0x1_7b5f, Hex8(HB, H2, H9, H8, HC, HE, HF, HD));
    r := OneStep(51, INITIAL, x, r, 0x20_0000, 0x800,
      Hex8(H4, H2, H3, H7, H0, H7, H9, H1), 0x17_56c7, 0x6ca, Hex8(H8, HB, HF, H0, H2, H5, HC, H4));
  }

  lemma AbcTo56(x: seq<Word32>) returns (r: Registers)
    requires AbcBlock(x)
    ensures Steps(56, INITIAL, x) == ChainOf(r)
    ensures r == Registers(Hex8(H0, H6, HC, HC, H5, HE, H8, HA), Hex8(H3, HB, HF, HA, H2, HC, H2, H7),
              Hex8(H7, HD, H6, H3, H2, HD, HD, H0), Hex8(H5, HB, H0, HD, H9, H7, HA, HA))
  {
    Round4Shifts();
    hide Halves, Steps, ChainOf;
    r := AbcTo52(x);
    r := OneStep(52, INITIAL, x, r, 0x40, 0x400_0000,
      Hex8(H3, H9, H6, HF, HF, H9, H2, H8), 0x6, 0x1eb_70e3, Hex8(H0, H6, HC, HC, H5, HE, H8, HA));
    r := OneStep(53, INITIAL, x, r, 0x400, 0x40_0000,
      Hex8(HC, H4, H1, HF, H5, HA, H4, HE), 0x120, 0x15_104e, Hex8(H5, HB, H0, HD, H9, H7, HA, HA));
    r := OneStep(54, INITIAL, x, r, 0x8000, 0x2_0000,
      Hex8(H7, H9, HC, H3, H8, H1, H3, H1), 0x1626, 0x44ab, Hex8(H7, HD, H6, H3, H2, HD, HD, H0));
    r := OneStep(55, INITIAL, x, r, 0x20_0000, 0x800,
      Hex8(HA, H6, H7, HE, H3, HA, H5, HF), 0x16_fe57, 0x5f4, Hex8(H3, HB, HF, HA, H2, HC, H2, H7));
  }

  lemma AbcTo60(x: seq<Word32>) returns (r: Registers)
    requires AbcBlock(x)
    ensures Steps(60, INITIAL, x) == ChainOf(r)
    ensures r == Registers(Hex8(H7, HF, H8, H1, HC, HC, H3, H5), Hex8(H7, H3, H2, H7, HD, H6, H0, H4),
              Hex8(H4, HF, H9, HD, HB, HE, H3, HF), Hex8(H0, H9, H4, H4, H5, H4, HA, HB))
  {
    Round4Shifts();
    hide Halves, Steps, ChainOf;
    r := AbcTo56(x);
    r := OneStep(56, INITIAL, x, r, 0x40, 0x400_0000,
      Hex8(HC, H2, H9, H9, H4, H1, HA, H7), 0xe, 0x10e_1e80, Hex8(H7, HF, H8, H1, HC, HC, H3, H5));
    r := OneStep(57, INITIAL, x, r, 0x400, 0x40_0000,
      Hex8(HC, H4, H6, H7, HF, H2, H1, H8), 0x76, 0x22_70a2, Hex8(H0, H9, H4, H4, H5, H4, HA, HB));
    r := OneStep(58, INITIAL, x, r, 0x8000, 0x2_0000,
      Hex8(HB, H2, HC, H4, H1, HB, HC, HE), 0x6994, 0x8cb2, Hex8(H4, HF, H9, HD, HB, HE, H3, HF));
    r := OneStep(59, INITIAL, x, r, 0x20_0000, 0x800,
      Hex8(HC, H6, HB, HB, HE, HB, H5, H4), 0xa_17c5, 0x11c, Hex8(H7, H3, H2, H7, HD, H6, H0, H4));
  }

  lemma AbcTo64(x: seq<Word32>) returns (r: Registers)
    requires AbcBlock(x)
    ensures Steps(64, INITIAL, x) == ChainOf(r)
    ensures r == Registers(Hex8(H3, H1, H0, HA, HD, HE, H8, HF), Hex8(HC, H0, H8, H2, H2, H6, HB, H3),
              Hex8(HE, H4, H8, H4, HB, H9, HD, H8), Hex8(H6, H2, H4, HD, H8, HC, HB, H2))
  {
    Round4Shifts();
    hide Halves, Steps, ChainOf;
    r := AbcTo60(x);
    r := OneStep(60, INITIAL, x, r, 0x40, 0x400_0000,
      Hex8(HB, H8, H2, H2, H4, H1, H6, HB), 0xb, 0x2f7_8c22, Hex8(H3, H1, H0, HA, HD, HE, H8, HF));
    r := OneStep(61, INITIAL, x, r, 0x400, 0x40_0000,
      Hex8(HC, H2, H4, HD, H0, H9, HC, HB), 0x223, 0xc_50ab, Hex8(H6, H2, H4, HD, H8, HC, HB, H2));
    r := OneStep(62, INITIAL, x, r, 0x8000, 0x2_0000,
      Hex8(HD, HF, HD, H7, H7, H3, H7, H4), 0x2d26, 0x1_046e, Hex8(HE, H4, H8, H4, HB, H9, HD, H8));
    r := OneStep(63, INITIAL, x, r, 0x20_0000, 0x800,
      Hex8(H8, HC, HB, H8, H3, H5, H4, HA), 0x1d_6cdb, 0x6df, Hex8(HC, H0, H8, H2, H2, H6, HB, H3));
  }

  lemma AbcSum(r: Registers)
    requires r == Registers(Hex8(H3, H1, H0, HA, HD, HE, H8, HF), Hex8(HC, H0, H8, H2, H2, H6, HB, H3),
                           Hex8(HE, H4, H8, H4, HB, H9, HD, H8), Hex8(H6, H2, H4, HD, H8, HC, HB, H2))
    ensures Sum(INITIAL, ChainOf(r))
         == Chain(0x9850_0190, 0xb04f_d23c, 0x7d3f_96d6, 0x727f_e128)
  {
  }

  lemma AbcDigestBytes(r: Chain)
    requires r == Chain(0x9850_0190, 0xb04f_d23c, 0x7d3f_96d6, 0x727f_e128)
    ensures Digest(r)
         == [0x90, 0x01, 0x50, 0x98, 0x3c, 0xd2, 0x4f, 0xb0, 0xd6, 0x96, 0x3f, 0x7d, 0x28, 0xe1, 0x7f, 0x72]
  {
    DigestBytes([0x90, 0x01, 0x50, 0x98, 0x3c, 0xd2, 0x4f, 0xb0, 0xd6, 0x96, 0x3f, 0x7d, 0x28, 0xe1, 0x7f, 0x72], r);
  }

  /** Main result: MD5 of "abc" is 900150983cd24fb0d6963f7d28e17f72. */
  lemma AbcDigest()
    ensures Hash(ABC)
         == [0x90, 0x01, 0x50, 0x98, 0x3c, 0xd2, 0x4f, 0xb0, 0xd6, 0x96, 0x3f, 0x7d, 0x28, 0xe1, 0x7f, 0x72]
  {
    AbcPadded();
    OneBlock(ABC);
    hide Hash, Padded, LoadWords, Digest, Steps, Sum, ChainOf;
    var r := AbcTo64(LoadWords(Padded(ABC)[0..64]));
    AbcSum(r);
    AbcDigestBytes(Sum(INITIAL, ChainOf(r)));
  }
}
