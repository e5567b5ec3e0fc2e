/** The word-at-a-time scan for trailing spaces, against the byte-at-a-time one. */
module SkipSpace {
  import opened Words

  const SPACE: Byte := 0x20
  const SPACE_INT: Word32 := 0x20202020
  const SIZEOF_INT: nat := 4
  const ADDRESSES: nat := 0x1_0000_0000_0000_0000

  /** Where the naive backward scan stops. */
  function TrimmedLength(s: seq<Byte>): (n: nat)
    ensures n <= |s|
  {
    if s != [] && s[|s| - 1] == SPACE then TrimmedLength(s[..|s| - 1]) else |s|
  }

  /** The naive scan removes spaces only, and all of them at the end. */
  lemma {:induction false} TrimmedIsLast(s: seq<Byte>)
    ensures var n := TrimmedLength(s);
      && (forall i :: n <= i < |s| ==> s[i] == 0x20)
      && (n > 0 ==> s[n - 1] != 0x20)
  {
    if s != [] && s[|s| - 1] == SPACE {
      TrimmedIsLast(s[..|s| - 1]);
    }
  }

  /** Cutting spaces off the end does not change the answer. */
  lemma {:induction false} TrimmedOfPrefix(s: seq<Byte>, end: nat)
    requires end <= |s| && forall i :: end <= i < |s| ==> s[i] == SPACE
    ensures TrimmedLength(s[..end]) == TrimmedLength(s)
  {
    if end < |s| {
      TrimmedOfPrefix(s[..|s| - 1], end);
      assert s[..|s| - 1][..end] == s[..end];
    } else {
      assert s[..end] == s;
    }
  }

  /** Rounding an address down or up to a multiple of the word size, in 64-bit arithmetic. */
  function AlignDown(address: nat): nat {
    address / SIZEOF_INT * SIZEOF_INT
  }

  function AlignUp(address: nat): nat {
    (address + SIZEOF_INT - 1) % ADDRESSES / SIZEOF_INT * SIZEOF_INT
  }

  /** An aligned 4-byte read at address base + i, where base is the address of s[0]. */
  function ReadWord(s: seq<Byte>, base: nat, i: nat): Word32
    requires i + 4 <= |s| && (base + i) % SIZEOF_INT == 0
  {
    Join32(s[i + 3], s[i + 2], s[i + 1], s[i])
  }

  lemma Alignment(base: nat, len: nat)
    requires 20 < len && base + len < ADDRESSES
    ensures base + len - 4 < AlignDown(base + len) <= base + len && AlignDown(base + len) % SIZEOF_INT == 0
    ensures base <= AlignUp(base) <= base + 3 && AlignUp(base) % SIZEOF_INT == 0
  {
  }

  lemma WordOfSpaces(s: seq<Byte>, base: nat, i: nat)
    requires i + 4 <= |s| && (base + i) % SIZEOF_INT == 0 && ReadWord(s, base, i) == SPACE_INT
    ensures s[i] == s[i + 1] == s[i + 2] == s[i + 3] == SPACE
  {
  }

  /**
   * Main result: for every string at every address the scan ends where the naive one does. s holds exactly the
   * bytes from the pointer on, so verification also shows that nothing outside them is read.
   */
  method SkipTrailingSpace(s: seq<Byte>, base: nat) returns (end: nat)
    requires base + |s| < ADDRESSES
    ensures end == TrimmedLength(s)
  {
    hide AlignDown, AlignUp, ReadWord;
    var len := |s|;
    end := len;
    if len > 20 {
      Alignment(base, len);
      var endWords := AlignDown(base + end) - base;
      var startWords := AlignUp(base) - base;
      if endWords > 0 {
        while end > endWords && s[end - 1] == SPACE
          invariant endWords <= end <= len
          invariant forall i :: end <= i < len ==> s[i] == SPACE
        {
          end := end - 1;
        }
        if s[end - 1] == SPACE && startWords < endWords {
          while end > startWords && ReadWord(s, base, end - 4) == SPACE_INT
            invariant 0 <= startWords <= end <= endWords && (base + end) % SIZEOF_INT == 0
            invariant forall i :: end <= i < len ==> s[i] == SPACE
          {
            WordOfSpaces(s, base, end - 4);
            end := end - 4;
          }
        }
      }
    }
    while end > 0 && s[end - 1] == SPACE
      invariant 0 <= end <= len
      invariant forall i :: end <= i < len ==> s[i] == SPACE
    {
      end := end - 1;
    }
    TrimmedOfPrefix(s, end);
  }
}
