/** The MD5 context updated in place, against the message padding and block iteration of RFC 1321. */
module Md5 {
  import opened Words
  import opened Md5Compress

  const BLOCK: nat := 64
  const TWO32: nat := 0x1_0000_0000
  const TWO64: nat := 0x1_0000_0000_0000_0000

  // ---------- reference definition ----------

  const INITIAL: Chain := Chain(0x67452301, 0xefcdab89, 0x98badcfe, 0x10325476)

  /** The block transform folded over the first k blocks. */
  function Fold(m: seq<Byte>, k: nat): Chain
    requires BLOCK * k <= |m|
  {
    if k == 0 then INITIAL else Compress(Fold(m, k - 1), m[BLOCK * (k - 1)..BLOCK * k])
  }

  /** Little-endian bytes of a number. */
  function Bytes(n: nat, count: nat): (s: seq<Byte>)
    ensures |s| == count
  {
    if count == 0 then [] else [n % 256] + Bytes(n / 256, count - 1)
  }

  /** The least number of zero bytes that leaves 8 bytes free in the last block after the mark. */
  function PaddingZeros(length: nat): (z: nat)
    ensures z < BLOCK && (length + 1 + z) % BLOCK == 56
  {
    if length % BLOCK < 56 then 55 - length % BLOCK else 119 - length % BLOCK
  }

  lemma PaddedLength(length: nat)
    ensures (length + 1 + PaddingZeros(length) + 8) % BLOCK == 0
  {
  }

  /** Sections 3.1 and 3.2 of RFC 1321: a one bit, zeros up to 56 modulo 64, the bit count modulo 2^64. */
  function Padded(m: seq<Byte>): (p: seq<Byte>)
    ensures |p| % BLOCK == 0
  {
    PaddedLength(|m|);
    hide Bytes, Zeros, PaddingZeros;
    m + [0x80] + Zeros(PaddingZeros(|m|)) + Bytes(8 * |m| % TWO64, 8)
  }

  function Digest(r: Chain): (d: seq<Byte>)
    ensures |d| == 16
  {
    Bytes(r.a, 4) + Bytes(r.b, 4) + Bytes(r.c, 4) + Bytes(r.d, 4)
  }

  function Hash(m: seq<Byte>): seq<Byte> {
    var p := Padded(m);
    Digest(Fold(p, |p| / BLOCK))
  }

  // ---------- facts about padding ----------

  lemma {:induction false} BytesInjective(a: nat, b: nat, count: nat)
    requires Bytes(a, count) == Bytes(b, count) && a < Power(256, count) && b < Power(256, count)
    ensures a == b
  {
    if count > 0 {
      assert Bytes(a, count)[1..] == Bytes(a / 256, count - 1);
      assert Bytes(b, count)[1..] == Bytes(b / 256, count - 1);
      assert Bytes(a, count)[0] == a % 256 && Bytes(b, count)[0] == b % 256;
      BytesInjective(a / 256, b / 256, count - 1);
    }
  }

  lemma PaddedParts(m: seq<Byte>)
    ensures |m| + 9 <= |Padded(m)| < |m| + 9 + BLOCK
    ensures Padded(m)[..|m|] == m && Padded(m)[|Padded(m)| - 8..] == Bytes(8 * |m| % TWO64, 8)
  {
    hide Bytes, Zeros, PaddingZeros;
  }

  lemma SameLength(a: nat, b: nat)
    requires 8 * a % TWO64 == 8 * b % TWO64 && -(BLOCK as int) < a - b < BLOCK
    ensures a == b
  {
    var i, j := 8 * a / TWO64, 8 * b / TWO64;
    assert 8 * (a - b) == TWO64 * (i - j);
  }

  /** Main result: no two messages, of any length, share their padded form. */
  lemma PaddingInjective(m: seq<Byte>, n: seq<Byte>)
    requires Padded(m) == Padded(n)
    ensures m == n
  {
    hide Padded, Bytes;
    PaddedParts(m);
    PaddedParts(n);
    assert Power(256, 4) == TWO32 && Power(256, 8) == TWO64;
    BytesInjective(8 * |m| % TWO64, 8 * |n| % TWO64, 8);
    SameLength(|m|, |n|);
  }

  // ---------- what a context stands for ----------

  /** The fields of a context, as a value. */
  datatype Context = Context(buf: Chain, lo: Word32, hi: Word32, input: seq<Byte>)

  /**
   * c is the context of a stream in which exactly m has been absorbed: the chaining state covers the whole blocks,
   * the block buffer starts with the rest, and the counters hold the number of bits modulo 2^64.
   */
  ghost predicate Absorbed(c: Context, m: seq<Byte>) {
    AbsorbedBlocks(c, m, |m| / BLOCK)
  }

  ghost predicate AbsorbedBlocks(c: Context, m: seq<Byte>, k: nat) {
    && BLOCK * k <= |m| < BLOCK * k + BLOCK == BLOCK * k + |c.input|
    && c.buf == Fold(m, k)
    && c.input[..|m| - BLOCK * k] == m[BLOCK * k..]
    && Counts(c.lo, c.hi, |m|)
  }

  lemma WholeBlockCount(n: nat, k: nat)
    requires BLOCK * k <= n < BLOCK * k + BLOCK
    ensures n / BLOCK == k && n % BLOCK == n - BLOCK * k
  {
  }

  /** Blocks already folded are not affected by what follows. */
  lemma {:induction false} FoldPrefix(m: seq<Byte>, more: seq<Byte>, k: nat)
    requires BLOCK * k <= |m|
    ensures Fold(m + more, k) == Fold(m, k)
  {
    hide Compress;
    if k > 0 {
      FoldPrefix(m, more, k - 1);
      SlicePrefix(m, more, BLOCK * (k - 1), BLOCK * k);
    }
  }

  lemma SlicePrefix(m: seq<Byte>, more: seq<Byte>, i: nat, j: nat)
    requires i <= j <= |m|
    ensures (m + more)[i..j] == m[i..j]
  {
  }

  predicate Counts(lo: Word32, hi: Word32, length: nat) {
    lo == 8 * length % TWO32 && hi == 8 * length / TWO32 % TWO32
  }

  /** Everything a later call can observe is determined by the absorbed message, however it was split. */
  lemma AbsorbedDetermines(c: Context, d: Context, m: seq<Byte>)
    requires Absorbed(c, m) && Absorbed(d, m)
    ensures c.buf == d.buf && c.lo == d.lo && c.hi == d.hi
    ensures c.input[..c.lo / 8 % BLOCK] == d.input[..c.lo / 8 % BLOCK]
  {
    PendingCount(c.lo, c.hi, |m|);
  }

  /** The number of pending bytes is read off the low counter. */
  lemma PendingCount(lo: Word32, hi: Word32, length: nat)
    requires Counts(lo, hi, length)
    ensures lo / 8 % BLOCK == length % BLOCK
  {
    var k := 8 * length / TWO32;
    assert 8 * length == TWO32 * k + lo;
    assert lo / 8 == length - 0x2000_0000 * k;
  }

  /** The counter update: a 32-bit sum, a carry when it wraps, and the three bits shifted out of len << 3. */
  lemma CountsAdvance(lo: Word32, hi: Word32, length: nat, len: Word32)
    requires Counts(lo, hi, length)
    ensures var lo' := Add32(lo, 8 * len % TWO32);
      var carried := if lo' < lo then Add32(hi, 1) else hi;
      Counts(lo', Add32(carried, len / 0x2000_0000), length + len)
  {
    var k, top, low := 8 * length / TWO32, len / 0x2000_0000, 8 * len % TWO32;
    assert 8 * length == TWO32 * k + lo && hi == k % TWO32;
    assert 8 * len == TWO32 * top + low;
    var carry := if lo + low >= TWO32 then 1 else 0;
    var lo' := lo + low - TWO32 * carry;
    Quotient(8 * (length + len), k + top + carry, lo');
    HighCounter(hi, k, top, carry);
  }

  lemma Quotient(n: nat, q: nat, r: nat)
    requires n == TWO32 * q + r && r < TWO32
    ensures n / TWO32 == q && n % TWO32 == r
  {
  }

  lemma HighCounter(hi: Word32, k: nat, top: Word32, carry: nat)
    requires hi == k % TWO32 && carry <= 1
    ensures Add32(if carry == 1 then Add32(hi, 1) else hi, top) == (k + top + carry) % TWO32
  {
    var q := k / TWO32;
    assert k == TWO32 * q + hi;
    assert (k + top + carry) % TWO32 == (hi + top + carry) % TWO32;
  }

  // ---------- the code ----------

  class MD5Context {
    const buf: array<Word32>
    const bits: array<Word32>
    const input: array<Byte>

    ghost predicate Valid() {
      buf.Length == 4 && bits.Length == 2 && input.Length == BLOCK && buf != bits
    }

    ghost function Buf(): Chain
      requires Valid()
      reads buf
    {
      Chain(buf[0], buf[1], buf[2], buf[3])
    }

    ghost function Value(): Context
      requires Valid()
      reads buf, bits, input
    {
      Context(Buf(), bits[0], bits[1], input[..])
    }

    constructor ()
      ensures Valid() && fresh(buf) && fresh(bits) && fresh(input)
    {
      buf, bits, input := new Word32[4], new Word32[2], new Byte[BLOCK];
    }

    method MD5Init()
      requires Valid()
      modifies buf, bits
      ensures Absorbed(Value(), [])
    {
      buf[0], buf[1], buf[2], buf[3] := 0x67452301, 0xefcdab89, 0x98badcfe, 0x10325476;
      bits[0], bits[1] := 0, 0;
    }

    /** memmove(input + at, data + from, n). */
    method CopyIn(at: nat, data: array<Byte>, from: nat, n: nat)
      requires Valid() && data != input
      requires at + n <= BLOCK && from + n <= data.Length
      modifies input
      ensures input[at..at + n] == data[from..from + n]
      ensures input[..at] == old(input[..at])
    {
      forall i | 0 <= i < n {
        input[at + i] := data[from + i];
      }
    }

    /** memset(input + at, 0, n). */
    method Clear(at: nat, n: nat)
      requires Valid() && at + n <= BLOCK
      modifies input
      ensures input[at..at + n] == Zeros(n)
      ensures input[..at] == old(input[..at]) && input[at + n..] == old(input[at + n..])
    {
      forall i | 0 <= i < n {
        input[at + i] := 0;
      }
    }

    /** Transforms the block in `input`, which is block k of the stream. */
    method TransformBlock(ghost all: seq<Byte>, ghost k: nat)
      requires Valid() && BLOCK * (k + 1) <= |all|
      requires Buf() == Fold(all, k) && input[..] == all[BLOCK * k..BLOCK * (k + 1)]
      modifies buf
      ensures Buf() == Fold(all, k + 1)
    {
      hide Compress;
      MD5Transform(buf, input);
    }

    method UpdateCounts(len: Word32, ghost length: nat)
      requires Valid() && Counts(bits[0], bits[1], length)
      modifies bits
      ensures Counts(bits[0], bits[1], length + len)
    {
      hide Counts, Add32;
      CountsAdvance(bits[0], bits[1], length, len);
      var t := bits[0];
      bits[0] := Add32(t, 8 * len % TWO32);
      if bits[0] < t {
        bits[1] := Add32(bits[1], 1);
      }
      bits[1] := Add32(bits[1], len / 0x2000_0000);
    }

    /** Completes block k, of which `pending` bytes are in place, from the caller's data, and transforms it. */
    method FillBlock(data: array<Byte>, p: nat, pending: nat, ghost all: seq<Byte>, ghost k: nat)
      requires Valid() && data != input && pending < BLOCK && p + BLOCK - pending <= data.Length
      requires BLOCK * (k + 1) <= |all| && Buf() == Fold(all, k)
      requires input[..pending] == all[BLOCK * k..BLOCK * k + pending]
      requires data[p..p + BLOCK - pending] == all[BLOCK * k + pending..BLOCK * (k + 1)]
      modifies buf, input
      ensures Buf() == Fold(all, k + 1)
    {
      hide Fold;
      CopyIn(pending, data, p, BLOCK - pending);
      assert input[..] == input[..pending] + input[pending..pending + (BLOCK - pending)];
      TransformBlock(all, k);
    }

    /** The loop over whole blocks, from the bytes data + p, which continue the stream at block k0. */
    method WholeBlocks(data: array<Byte>, p0: nat, len: nat, ghost all: seq<Byte>, ghost k0: nat)
      returns (p: nat, ghost k: nat)
      requires Valid() && data != input && p0 <= len <= data.Length
      requires BLOCK * k0 + len - p0 == |all| && Buf() == Fold(all, k0)
      requires Continues(all, data[..len], |all| - len)
      modifies buf, input
      ensures p <= len && BLOCK * k + len - p == |all| < BLOCK * k + BLOCK
      ensures Buf() == Fold(all, k)
    {
      hide Fold, Continues;
      p, k := p0, k0;
      while len - p >= BLOCK
        invariant p <= len && BLOCK * k + len - p == |all|
        invariant Buf() == Fold(all, k)
      {
        ContinuesSlice(all, data[..len], |all| - len, p, p + BLOCK);
        FillBlock(data, p, 0, all, k);
        p, k := p + BLOCK, k + 1;
      }
    }

    /** Absorbs len bytes of data; m is what was absorbed before. */
    method MD5Update(data: array<Byte>, len: Word32, ghost m: seq<Byte>)
      requires Valid() && data != input && len <= data.Length
      requires Absorbed(Value(), m)
      modifies buf, bits, input
      ensures Absorbed(Value(), m + data[..len])
    {
      hide Fold, Counts;
      PendingCount(bits[0], bits[1], |m|);
      WholeBlockCount(|m|, |m| / BLOCK);
      var pending: nat := bits[0] / 8 % BLOCK;
      UpdateCounts(len, |m|);
      ghost var k := UpdateBlocks(data, len, pending, m, |m| / BLOCK);
      WholeBlockCount(|m| + len, k);
    }

    method LeadingChunk(data: array<Byte>, len: nat, pending: nat, ghost m: seq<Byte>, ghost k: nat)
      requires Valid() && data != input && len <= data.Length
      requires |m| == BLOCK * k + pending && pending < BLOCK <= pending + len
      requires Buf() == Fold(m + data[..len], k) && input[..pending] == m[BLOCK * k..]
      modifies buf, input
      ensures Buf() == Fold(m + data[..len], k + 1)
    {
      hide Fold, Continues;
      AppendContinues(m, data[..len]);
      SlicePrefix(m, data[..len], BLOCK * k, |m|);
      ContinuesSlice(m + data[..len], data[..len], |m|, 0, BLOCK - pending);
      FillBlock(data, 0, pending, m + data[..len], k);
    }

    /** The data movement: complete the pending block if there is one, then whole blocks, then keep the rest. */
    method UpdateBlocks(data: array<Byte>, len: nat, pending: nat, ghost m: seq<Byte>, ghost k0: nat)
      returns (ghost k: nat)
      requires Valid() && data != input && len <= data.Length
      requires |m| == BLOCK * k0 + pending && pending < BLOCK
      requires Buf() == Fold(m, k0) && input[..pending] == m[BLOCK * k0..]
      modifies buf, input
      ensures BLOCK * k <= |m| + len < BLOCK * k + BLOCK
      ensures Buf() == Fold(m + data[..len], k)
      ensures input[..|m| + len - BLOCK * k] == (m + data[..len])[BLOCK * k..]
    {
      hide Fold, Continues;
      ghost var chunk := data[..len];
      ghost var all := m + chunk;
      k := k0;
      FoldPrefix(m, chunk, k);
      AppendContinues(m, chunk);
      var p := 0;
      if pending != 0 {
        var free := BLOCK - pending;
        if len < free {
          CopyIn(pending, data, 0, len);
          PendingGrows(input[..], m, chunk, k);
          return;
        }
        LeadingChunk(data, len, pending, m, k);
        p, k := free, k + 1;
      }
      p, k := WholeBlocks(data, p, len, all, k);
      ContinuesSlice(all, chunk, |m|, p, len);
      CopyIn(0, data, p, len - p);
    }

    /** Stores the two counters as the last two words of the block. */
    method StoreCounts()
      requires Valid()
      modifies input
      ensures input[..56] == old(input[..56]) && input[56..] == Bytes(bits[0], 4) + Bytes(bits[1], 4)
    {
      StoreWord(input, 56, bits[0]);
      StoreWord(input, 60, bits[1]);
      assert input[56..] == input[56..60] + input[60..64];
    }

    /** Stores 0x80 after the pending bytes, pads the block to 56 bytes, over two blocks if need be, and counts. */
    method Pad(ghost m: seq<Byte>)
      requires Valid() && Absorbed(Value(), m)
      modifies buf, input
      ensures Buf() == Fold(Padded(m), |Padded(m)| / BLOCK)
    {
      hide Fold, Counts, Padded, Bytes, PaddingZeros;
      ghost var k, n, p := |m| / BLOCK, |m|, Padded(m);
      PendingCount(bits[0], bits[1], n);
      WholeBlockCount(n, k);
      CountBytes(bits[0], bits[1], n);
      FoldPadded(m, k);
      var count: nat := bits[0] / 8 % BLOCK;
      ghost var rest := m[BLOCK * k..];
      input[count] := 0x80;
      assert input[..count + 1] == rest + [0x80];
      var room := BLOCK - 1 - count;
      if room < 8 {
        Clear(count + 1, room);
        assert input[..] == input[..count + 1] + input[count + 1..count + 1 + room];
        PaddedTwoBlocks(m, k);
        TransformBlock(p, k);
        Clear(0, 56);
        StoreCounts();
        assert input[..] == input[..56] + input[56..];
        TransformBlock(p, k + 1);
      } else {
        Clear(count + 1, room - 8);
        assert input[..56] == input[..count + 1] + input[count + 1..count + 1 + (room - 8)];
        StoreCounts();
        assert input[..] == input[..56] + input[56..];
        PaddedOneBlock(m, k);
        TransformBlock(p, k);
      }
    }

    /** memmove(digest, ctx->buf, 16). */
    method EmitDigest(digest: array<Byte>)
      requires Valid() && digest.Length == 16
      modifies digest
      ensures digest[..] == Digest(Buf())
    {
      hide Bytes;
      StoreWord(digest, 0, buf[0]);
      StoreWord(digest, 4, buf[1]);
      assert digest[..8] == Bytes(buf[0], 4) + Bytes(buf[1], 4);
      StoreWord(digest, 8, buf[2]);
      assert digest[..12] == Bytes(buf[0], 4) + Bytes(buf[1], 4) + Bytes(buf[2], 4);
      StoreWord(digest, 12, buf[3]);
      assert digest[..] == digest[..12] + digest[12..16];
    }

    /**
     * Pads, emits the digest, and clears the first sizeof(ctx) bytes of the context. As ctx is a pointer, that is
     * one or two chaining words, not the whole context: the other two still hold the second half of the digest.
     */
    method MD5Final(digest: array<Byte>, pointerSize: nat, ghost m: seq<Byte>)
      requires Valid() && digest.Length == 16 && digest != input
      requires Absorbed(Value(), m) && (pointerSize == 4 || pointerSize == 8)
      modifies buf, input, digest
      ensures digest[..] == Hash(m)
      ensures buf[0] == 0 && (pointerSize == 8 ==> buf[1] == 0)
      ensures Bytes(buf[2], 4) + Bytes(buf[3], 4) == Hash(m)[8..]
    {
      hide Digest, Fold, Padded, Absorbed;
      Pad(m);
      ghost var r := Buf();
      EmitDigest(digest);
      DigestHalves(r);
      buf[0] := 0;
      if pointerSize == 8 {
        buf[1] := 0;
      }
    }
  }

  lemma DigestHalves(r: Chain)
    ensures Digest(r)[8..] == Bytes(r.c, 4) + Bytes(r.d, 4)
  {
    hide Bytes;
  }

  /** A little-endian store of a word. */
  method StoreWord(a: array<Byte>, at: nat, w: Word32)
    requires at + 4 <= a.Length
    modifies a
    ensures a[at..at + 4] == Bytes(w, 4)
    ensures a[..at] == old(a[..at]) && a[at + 4..] == old(a[at + 4..])
  {
    WordBytes(w);
    hide Bytes;
    a[at] := w % 256;
    a[at + 1] := w / 256 % 256;
    a[at + 2] := w / 256 / 256 % 256;
    a[at + 3] := w / 256 / 256 / 256 % 256;
  }

  lemma WordBytes(w: Word32)
    ensures Bytes(w, 4) == [w % 256, w / 256 % 256, w / 256 / 256 % 256, w / 256 / 256 / 256 % 256]
  {
    assert Bytes(w / 256 / 256, 2) == [w / 256 / 256 % 256, w / 256 / 256 / 256 % 256];
  }

  /** The hash of a whole message: one context, one update, the final padding. */
  method MD5Make(digest: array<Byte>, data: array<Byte>, len: Word32, pointerSize: nat)
    requires digest.Length == 16 && len <= data.Length && (pointerSize == 4 || pointerSize == 8)
    modifies digest
    ensures digest[..] == Hash(old(data[..len]))
  {
    hide Hash, Absorbed;
    var ctx := new MD5Context();
    ctx.MD5Init();
    ctx.MD5Update(data, len, []);
    assert [] + data[..len] == data[..len];
    ctx.MD5Final(digest, pointerSize, data[..len]);
  }

  /** The two counter words, stored little-endian, are the 64-bit bit count of the standard. */
  lemma CountBytes(lo: Word32, hi: Word32, length: nat)
    requires Counts(lo, hi, length)
    ensures Bytes(8 * length % TWO64, 8) == Bytes(lo, 4) + Bytes(hi, 4)
  {
    CountModulo(lo, hi, 8 * length, 8 * length / TWO32 / TWO32);
    hide Bytes;
    assert Power(256, 4) == TWO32;
    BytesConcat(lo, hi, 4, 4);
  }

  lemma CountModulo(lo: Word32, hi: Word32, n: nat, q: nat)
    requires n == TWO32 * (TWO32 * q + hi) + lo
    ensures n % TWO64 == TWO32 * hi + lo
  {
    assert n == TWO64 * q + (TWO32 * hi + lo);
  }

  lemma LowByte(high: nat, lo: nat)
    ensures (256 * high + lo) % 256 == lo % 256 && (256 * high + lo) / 256 == high + lo / 256
  {
  }

  lemma {:induction false} BytesConcat(lo: nat, hi: nat, i: nat, j: nat)
    requires lo < Power(256, i)
    ensures Bytes(Power(256, i) * hi + lo, i + j) == Bytes(lo, i) + Bytes(hi, j)
  {
    if i > 0 {
      assert Power(256, i) * hi == 256 * (Power(256, i - 1) * hi);
      LowByte(Power(256, i - 1) * hi, lo);
      BytesConcat(lo / 256, hi, i - 1, j);
    }
  }

  lemma FoldPadded(m: seq<Byte>, k: nat)
    requires BLOCK * k <= |m|
    ensures BLOCK * k <= |Padded(m)| && Fold(Padded(m), k) == Fold(m, k)
  {
    hide Fold, Bytes, PaddingZeros, Zeros;
    var tail := [0x80] + Zeros(PaddingZeros(|m|)) + Bytes(8 * |m| % TWO64, 8);
    assert Padded(m) == m + tail;
    FoldPrefix(m, tail, k);
  }

  /** The padding fits behind the pending bytes. */
  lemma PaddedOneBlock(m: seq<Byte>, k: nat)
    requires BLOCK * k <= |m| < BLOCK * k + 56
    ensures |Padded(m)| / BLOCK == k + 1 && |Padded(m)| == BLOCK * (k + 1)
    ensures Padded(m)[BLOCK * k..BLOCK * (k + 1)]
         == m[BLOCK * k..] + [0x80] + Zeros(55 - (|m| - BLOCK * k)) + Bytes(8 * |m| % TWO64, 8)
  {
    hide Bytes, Zeros;
    WholeBlockCount(|m|, k);
  }

  /** The mark and some zeros complete the pending block; the rest of the padding is a block of its own. */
  lemma PaddedTwoBlocks(m: seq<Byte>, k: nat)
    requires BLOCK * k + 56 <= |m| < BLOCK * (k + 1)
    ensures |Padded(m)| / BLOCK == k + 2 && |Padded(m)| == BLOCK * (k + 2)
    ensures Padded(m)[BLOCK * k..BLOCK * (k + 1)] == m[BLOCK * k..] + [0x80] + Zeros(63 - (|m| - BLOCK * k))
    ensures Padded(m)[BLOCK * (k + 1)..BLOCK * (k + 1 + 1)] == Zeros(56) + Bytes(8 * |m| % TWO64, 8)
  {
    hide Bytes;
    WholeBlockCount(|m|, k);
  }

  /** The stream `all` holds the bytes of `chunk` from position `at` on. */
  ghost predicate Continues(all: seq<Byte>, chunk: seq<Byte>, at: int) {
    0 <= at && at + |chunk| == |all| && forall i {:trigger chunk[i]} :: 0 <= i < |chunk| ==> all[at + i] == chunk[i]
  }

  lemma AppendContinues(m: seq<Byte>, chunk: seq<Byte>)
    ensures Continues(m + chunk, chunk, |m|)
  {
  }

  lemma ContinuesSlice(all: seq<Byte>, chunk: seq<Byte>, at: int, i: nat, j: nat)
    requires Continues(all, chunk, at) && i <= j <= |chunk|
    ensures at + j <= |all| && chunk[i..j] == all[at + i..at + j]
  {
    forall x | 0 <= x < j - i
      ensures chunk[i..j][x] == all[at + i..at + j][x]
    {
      assert all[at + (i + x)] == chunk[i + x];
    }
  }

  /** A chunk too short to complete the pending block. */
  lemma PendingGrows(input: seq<Byte>, m: seq<Byte>, chunk: seq<Byte>, k: nat)
    requires |input| == BLOCK && BLOCK * k <= |m| && |m| + |chunk| < BLOCK * k + BLOCK
    requires var rest := |m| - BLOCK * k;
      input[..rest] == m[BLOCK * k..] && input[rest..rest + |chunk|] == chunk
    ensures input[..|m| + |chunk| - BLOCK * k] == (m + chunk)[BLOCK * k..]
  {
    var rest := |m| - BLOCK * k;
    assert input[..rest + |chunk|] == input[..rest] + input[rest..rest + |chunk|];
  }
}
