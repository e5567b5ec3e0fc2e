/** The resumable CFB context over IDEA, updated in place through its buffers, and the public Crypt call. */
module IdeaCfb {
  import opened Words
  import opened IdeaBlock
  import opened IdeaKeySchedule
  import opened CfbMode

  ghost function Idea(key: Key): BlockFunction {
    (s: Octets) => Cipher(s, key)
  }

  function ZeroIv(): Octets {
    Zeros(8)
  }

  /** A buffer with some of its bytes replaced. */
  ghost function Overwritten(d: seq<Byte>, from: nat, out: seq<Byte>): seq<Byte>
    requires from + |out| <= |d|
  {
    d[..from] + out + d[from + |out|..]
  }

  lemma OverwrittenNothing(d: seq<Byte>, from: nat)
    requires from <= |d|
    ensures Overwritten(d, from, []) == d
  {
  }

  lemma OverwrittenNext(d: seq<Byte>, from: nat, out: seq<Byte>, x: Byte)
    requires from + |out| < |d|
    ensures |Overwritten(d, from, out)| == |d|
    ensures Overwritten(d, from, out)[from + |out| := x] == Overwritten(d, from, out + [x])
  {
  }

  lemma OverwrittenAgain(d: seq<Byte>, out: seq<Byte>, next: seq<Byte>)
    requires |out| + |next| <= |d|
    ensures |Overwritten(d, 0, out)| == |d|
    ensures Overwritten(Overwritten(d, 0, out), |out|, next) == Overwritten(d, 0, out + next)
  {
  }

  lemma OverwrittenPrefix(d: seq<Byte>, out: seq<Byte>)
    requires |out| <= |d|
    ensures |Overwritten(d, 0, out)| == |d|
    ensures Overwritten(d, 0, out)[..|out|] == out && Overwritten(d, 0, out)[|out|..] == d[|out|..]
  {
  }

  class IdeaCfbContext {
    const oldcipher: array<Byte>
    const iv: array<Byte>
    const key: array<Word16>
    var bufleft: int

    ghost predicate Valid()
      reads this
    {
      && oldcipher.Length == 8 && iv.Length == 8 && key.Length == KEY_LENGTH && oldcipher != iv
      && 0 <= bufleft < 8
    }

    ghost function Value(): State
      requires Valid()
      reads this, oldcipher, iv
    {
      State(iv[..], oldcipher[..], bufleft)
    }

    ghost function F(): BlockFunction
      requires Valid()
      reads this, key
    {
      Idea(key[..])
    }

    /** Whether a caller's buffer is none of the context's own. */
    ghost predicate Foreign(a: array<Byte>) {
      a != iv && a != oldcipher
    }

    constructor ()
      ensures Valid() && fresh(oldcipher) && fresh(iv) && fresh(key)
    {
      oldcipher, iv, key := new Byte[8], new Byte[8], new Word16[KEY_LENGTH];
      bufleft := 0;
    }

    /** A missing vector means eight zero bytes. */
    method IdeaCfbReinit(vector: array?<Byte>)
      requires Valid() && (vector != null ==> vector.Length == 8)
      modifies this`bufleft, iv
      ensures Valid() && bufleft == 0
      ensures iv[..] == if vector == null then ZeroIv() else old(vector[..])
      ensures vector == null ==> forall i :: 0 <= i < 8 ==> iv[i] == 0
    {
      if vector != null {
        forall i | 0 <= i < 8 {
          iv[i] := vector[i];
        }
      } else {
        forall i | 0 <= i < 8 {
          iv[i] := 0;
        }
      }
      bufleft := 0;
    }

    method IdeaCfbInit(userkey: array<Byte>)
      requires Valid() && userkey.Length == 16
      modifies this`bufleft, iv, key
      ensures Valid() && bufleft == 0 && iv[..] == ZeroIv()
      ensures key[..] == Schedule(old(userkey[..]))
    {
      IdeaExpandKey(userkey, key);
      IdeaCfbReinit(null);
    }

    method IdeaCfbSync()
      requires Valid()
      modifies this`bufleft, iv
      ensures Valid() && Value() == Sync(old(Value()))
    {
      var n := bufleft;
      if n != 0 {
        ghost var before, head := Value(), iv[..8 - n];
        ShiftUp(n);
        CopyTail(n);
        bufleft := 0;
        assert iv[..] == iv[..n] + iv[n..] == oldcipher[8 - n..] + head;
        assert Sync(before).iv == iv[..];
      }
    }

    /** memmove(iv + n, iv, 8 - n): the regions overlap. */
    method ShiftUp(n: nat)
      requires Valid() && n < 8
      modifies iv
      ensures iv[n..] == old(iv[..8 - n])
    {
      forall i | 0 <= i < 8 - n {
        iv[n + i] := iv[i];
      }
    }

    /** memcpy(iv, oldcipher + 8 - n, n). */
    method CopyTail(n: nat)
      requires Valid() && n < 8
      modifies iv
      ensures iv[..n] == oldcipher[8 - n..] && iv[n..] == old(iv[n..])
    {
      forall i | 0 <= i < n {
        iv[i] := oldcipher[8 - n + i];
      }
    }

    /** memcpy(oldcipher, iv, 8), then the cipher run in place on iv. */
    method Crank()
      requires Valid()
      modifies iv, oldcipher
      ensures State(iv[..], oldcipher[..], 8) == Refill(State(old(iv[..]), old(oldcipher[..]), 0), F())
    {
      forall i | 0 <= i < 8 {
        oldcipher[i] := iv[i];
      }
      assert oldcipher[..] == old(iv[..]);
      IdeaCipher(iv, iv, key);
    }

    /** Encryption: *dest++ = (*bufptr++ ^= *src++); decryption: t = *bufptr; *dest++ = t ^ (*bufptr++ = *src++). */
    method MaskByte(k: nat, src: array<Byte>, dest: array<Byte>, j: nat, encrypt: bool)
      requires Valid() && Foreign(src) && Foreign(dest)
      requires k < 8 && j < src.Length && j < dest.Length
      modifies iv, dest
      ensures var x := Xor8(old(iv[k]), old(src[j]));
        && iv[..] == old(iv[..])[k := if encrypt then x else old(src[j])]
        && dest[..] == old(dest[..])[j := x]
    {
      hide Xor8;
      if encrypt {
        iv[k] := Xor8(iv[k], src[j]);
        dest[j] := iv[k];
      } else {
        var t := iv[k];
        iv[k] := src[j];
        dest[j] := Xor8(t, iv[k]);
      }
    }

    /** The inner loops: n bytes from bufptr = iv + k. */
    method MaskBytes(k: nat, src: array<Byte>, dest: array<Byte>, from: nat, n: nat, encrypt: bool,
                     ghost f: BlockFunction) returns (ghost out: seq<Byte>)
      requires Valid() && Foreign(src) && Foreign(dest)
      requires k + n <= 8 && from + n <= src.Length && from + n <= dest.Length
      modifies iv, dest
      ensures Run(State(old(iv[..]), oldcipher[..], 8 - k), f, old(src[from..from + n]), encrypt)
           == Output(State(iv[..], oldcipher[..], 8 - k - n), out)
      ensures |out| == n && dest[..] == Overwritten(old(dest[..]), from, out)
      ensures forall j :: from + n <= j < src.Length ==> src[j] == old(src[j])
    {
      hide Xor8, Run, Overwritten;
      ghost var bs, d := src[from..from + n], dest[..];
      ghost var s := State(iv[..], oldcipher[..], 8 - k);
      out := [];
      assert bs[..0] == [];
      RunNothing(s, f);
      OverwrittenNothing(d, from);
      var i := 0;
      while i < n
        invariant 0 <= i <= n && |out| == i
        invariant Run(s, f, bs[..i], encrypt) == Output(State(iv[..], oldcipher[..], 8 - k - i), out)
        invariant dest[..] == Overwritten(d, from, out)
        invariant forall j :: from + i <= j < src.Length ==> src[j] == old(src[j])
      {
        RunNext(s, f, bs, i, encrypt, State(iv[..], oldcipher[..], 8 - k - i), out);
        OverwrittenNext(d, from, out, Xor8(iv[k + i], bs[i]));
        out := out + [Xor8(iv[k + i], bs[i])];
        MaskByte(k + i, src, dest, from + i, encrypt);
        i := i + 1;
      }
      assert bs[..n] == bs;
    }

    /** One block of at most 8 bytes: run the cipher, then mask the bytes. */
    method CrankAndMask(src: array<Byte>, dest: array<Byte>, done: nat, n: nat, encrypt: bool, ghost f: BlockFunction)
      returns (ghost out: seq<Byte>)
      requires Valid() && Foreign(src) && Foreign(dest) && f == F()
      requires 0 < n <= 8 && done + n <= src.Length && done + n <= dest.Length
      modifies iv, oldcipher, dest
      ensures Run(State(old(iv[..]), old(oldcipher[..]), 0), f, old(src[done..done + n]), encrypt)
           == Output(State(iv[..], oldcipher[..], 8 - n), out)
      ensures |out| == n && dest[..] == Overwritten(old(dest[..]), done, out)
      ensures forall j :: done + n <= j < src.Length ==> src[j] == old(src[j])
    {
      hide Run, Refill, Idea;
      RunRefilled(State(iv[..], oldcipher[..], 0), f, src[done..done + n], encrypt);
      Crank();
      out := MaskBytes(0, src, dest, done, n, encrypt, f);
    }

    /** The two directions share their block structure; src and dest may be the same buffer. */
    method IdeaCfb(src: array<Byte>, dest: array<Byte>, count: nat, encrypt: bool)
      requires Valid() && Foreign(src) && Foreign(dest)
      requires count <= src.Length && count <= dest.Length
      modifies this`bufleft, iv, oldcipher, dest
      ensures Valid()
      ensures Run(old(Value()), F(), old(src[..count]), encrypt) == Output(Value(), dest[..count])
      ensures dest[count..] == old(dest[count..])
    {
      hide Run, Idea, Overwritten;
      ghost var f, s, bs, d := F(), Value(), src[..count], dest[..];
      ghost var out, next;
      var n := bufleft;
      if count <= n {
        assert bs == src[0..count];
        out := MaskBytes(8 - n, src, dest, 0, count, encrypt, f);
        OverwrittenPrefix(d, out);
        bufleft := n - count;
        return;
      }
      assert bs[..n] == src[0..n];
      out := MaskBytes(8 - n, src, dest, 0, n, encrypt, f);
      var done, left: nat := n, count - n;
      while left > 8
        invariant 0 < left && done + left == count && Valid() && f == F() && |out| == done
        invariant Run(s, f, bs[..done], encrypt) == Output(State(iv[..], oldcipher[..], 0), out)
        invariant dest[..] == Overwritten(d, 0, out)
        invariant forall j :: done <= j < src.Length ==> src[j] == old(src[j])
      {
        assert src[done..done + 8] == bs[done..done + 8];
        next := CrankAndMask(src, dest, done, 8, encrypt, f);
        RunAppendSlice(s, f, bs, done, 8, encrypt);
        OverwrittenAgain(d, out, next);
        out, done, left := out + next, done + 8, left - 8;
      }
      assert src[done..done + left] == bs[done..done + left];
      next := CrankAndMask(src, dest, done, left, encrypt, f);
      RunAppendSlice(s, f, bs, done, left, encrypt);
      OverwrittenAgain(d, out, next);
      bufleft := 8 - left;
      OverwrittenPrefix(d, out + next);
      assert bs[..count] == bs;
    }

    method IdeaCfbEncrypt(src: array<Byte>, dest: array<Byte>, count: nat)
      requires Valid() && Foreign(src) && Foreign(dest)
      requires count <= src.Length && count <= dest.Length
      modifies this`bufleft, iv, oldcipher, dest
      ensures Valid()
      ensures Run(old(Value()), F(), old(src[..count]), true) == Output(Value(), dest[..count])
      ensures dest[count..] == old(dest[count..])
    {
      IdeaCfb(src, dest, count, true);
    }

    method IdeaCfbDecrypt(src: array<Byte>, dest: array<Byte>, count: nat)
      requires Valid() && Foreign(src) && Foreign(dest)
      requires count <= src.Length && count <= dest.Length
      modifies this`bufleft, iv, oldcipher, dest
      ensures Valid()
      ensures Run(old(Value()), F(), old(src[..count]), false) == Output(Value(), dest[..count])
      ensures dest[count..] == old(dest[count..])
    {
      IdeaCfb(src, dest, count, false);
    }

    /** The public call: a fresh schedule and a zero vector every time. */
    method Crypt(userkey: array<Byte>, src: array<Byte>, dest: array<Byte>, count: nat, encrypt: bool)
      requires Valid() && userkey.Length == 16 && Foreign(src) && Foreign(dest)
      requires count <= src.Length && count <= dest.Length
      modifies this`bufleft, iv, oldcipher, key, dest
      ensures Valid()
      ensures dest[..count] == Crypted(Schedule(old(userkey[..])), old(src[..count]), encrypt)
      ensures dest[count..] == old(dest[count..])
    {
      hide Run, CfbEncrypt, CfbDecrypt, Idea, Schedule;
      IdeaCfbInit(userkey);
      IdeaCfbSync();
      ghost var s := Value();
      RunIsCfb(s, F(), src[..count], encrypt);
      if encrypt {
        IdeaCfbEncrypt(src, dest, count);
      } else {
        IdeaCfbDecrypt(src, dest, count);
      }
    }
  }

  /** What Crypt returns: standard CFB over IDEA under the expanded key and from a zero vector. */
  ghost function Crypted(key: Key, bs: seq<Byte>, encrypt: bool): seq<Byte> {
    if encrypt then CfbEncrypt(Idea(key), ZeroIv(), bs) else CfbDecrypt(Idea(key), ZeroIv(), bs)
  }

  /** Main result: the first bytes of any message are masked with the enciphered block of eight zero bytes. */
  lemma FirstBlock(key: Key, zero: Octets, bs: seq<Byte>, encrypt: bool, i: nat)
    requires i < |bs| && i < 8 && forall k :: 0 <= k < 8 ==> zero[k] == 0
    ensures |Crypted(key, bs, encrypt)| == |bs|
    ensures Crypted(key, bs, encrypt)[i] == Xor8(Cipher(zero, key)[i], bs[i])
  {
    hide Cipher, CfbEncrypt, CfbDecrypt, Xor8;
    assert zero == ZeroIv();
    CfbEncryptByte(Idea(key), ZeroIv(), bs, i);
    CfbDecryptByte(Idea(key), ZeroIv(), bs, i);
  }

  /** Main result: with the same key, the two directions undo each other on messages of any length. */
  lemma CryptRoundTrip(key: Key, bs: seq<Byte>, encrypt: bool)
    ensures Crypted(key, Crypted(key, bs, encrypt), !encrypt) == bs
  {
    CfbRoundTrip(Idea(key), ZeroIv(), bs);
  }
}
