/** What cipher feedback mode computes, one byte at a time, for any function on 8-byte blocks. */
module CfbMode {
  import opened Words

  type Octets = s: seq<Byte> | |s| == 8 witness [0, 0, 0, 0, 0, 0, 0, 0]

  /** The keyed block function. */
  type BlockFunction = Octets -> Octets

  /**
   * iv: the feedback buffer; its last `left` bytes are unused mask, the bytes before are ciphertext.
   * last: the ciphertext block before that. left is 8 only inside a call, just after the cipher was run.
   */
  datatype State = State(iv: Octets, last: Octets, left: Left)
  type Left = n: nat | n <= 8

  datatype Output = Output(state: State, bytes: seq<Byte>)

  /** Run the cipher over the feedback when no mask byte is left. */
  function Refill(s: State, f: BlockFunction): (t: State)
    ensures t.left > 0
  {
    if s.left == 0 then State(f(s.iv), s.iv, 8) else s
  }

  function Mask(t: State): Byte
    requires t.left > 0
  {
    t.iv[8 - t.left]
  }

  /** The ciphertext byte of a step: its output when encrypting, its input when decrypting. */
  function CipherByte(t: State, b: Byte, encrypt: bool): Byte
    requires t.left > 0
  {
    if encrypt then Xor8(Mask(t), b) else b
  }

  function Step(s: State, f: BlockFunction, b: Byte, encrypt: bool): State {
    var t := Refill(s, f);
    State(t.iv[8 - t.left := CipherByte(t, b, encrypt)], t.last, t.left - 1)
  }

  /** The byte-at-a-time definition. */
  function Run(s: State, f: BlockFunction, bs: seq<Byte>, encrypt: bool): (r: Output)
    ensures |r.bytes| == |bs|
  {
    if bs == [] then Output(s, [])
    else
      var n := |bs| - 1;
      var r := Run(s, f, bs[..n], encrypt);
      Output(Step(r.state, f, bs[n], encrypt), r.bytes + [Xor8(Mask(Refill(r.state, f)), bs[n])])
  }

  lemma RunNothing(s: State, f: BlockFunction)
    ensures Run(s, f, [], true) == Run(s, f, [], false) == Output(s, [])
  {
  }

  /** One more byte while mask is left. */
  lemma RunNext(s: State, f: BlockFunction, bs: seq<Byte>, i: nat, encrypt: bool, t: State, out: seq<Byte>)
    requires i < |bs| && t.left > 0
    requires Run(s, f, bs[..i], encrypt) == Output(t, out)
    ensures var k := 8 - t.left; var x := Xor8(t.iv[k], bs[i]);
      Run(s, f, bs[..i + 1], encrypt)
        == Output(State(t.iv[k := if encrypt then x else bs[i]], t.last, t.left - 1), out + [x])
  {
    hide Xor8;
    assert bs[..i + 1][..i] == bs[..i];
  }

  // ---------- chunking ----------

  /** Two calls in a row produce what one call on the joined data produces, output and state. */
  lemma {:induction false} RunAppend(s: State, f: BlockFunction, a: seq<Byte>, b: seq<Byte>, encrypt: bool)
    ensures var first := Run(s, f, a, encrypt);
      var second := Run(first.state, f, b, encrypt);
      Run(s, f, a + b, encrypt) == Output(second.state, first.bytes + second.bytes)
  {
    hide Step, Refill, Mask, Xor8;
    if b == [] {
      assert a + b == a;
    } else {
      var n := |b| - 1;
      assert (a + b)[..|a| + n] == a + b[..n];
      RunAppend(s, f, a, b[..n], encrypt);
    }
  }

  lemma RunAppendSlice(s: State, f: BlockFunction, bs: seq<Byte>, i: nat, n: nat, encrypt: bool)
    requires i + n <= |bs|
    ensures var first := Run(s, f, bs[..i], encrypt); var second := Run(first.state, f, bs[i..i + n], encrypt);
      Run(s, f, bs[..i + n], encrypt) == Output(second.state, first.bytes + second.bytes)
  {
    assert bs[..i] + bs[i..i + n] == bs[..i + n];
    RunAppend(s, f, bs[..i], bs[i..i + n], encrypt);
  }

  function Flatten(chunks: seq<seq<Byte>>): seq<Byte> {
    if chunks == [] then [] else Flatten(chunks[..|chunks| - 1]) + chunks[|chunks| - 1]
  }

  function RunChunks(s: State, f: BlockFunction, chunks: seq<seq<Byte>>, encrypt: bool): Output {
    if chunks == [] then Output(s, [])
    else
      var r := RunChunks(s, f, chunks[..|chunks| - 1], encrypt);
      var next := Run(r.state, f, chunks[|chunks| - 1], encrypt);
      Output(next.state, r.bytes + next.bytes)
  }

  lemma {:induction false} ChunkingIrrelevant(s: State, f: BlockFunction, chunks: seq<seq<Byte>>, encrypt: bool)
    ensures RunChunks(s, f, chunks, encrypt) == Run(s, f, Flatten(chunks), encrypt)
  {
    if chunks != [] {
      var n := |chunks| - 1;
      ChunkingIrrelevant(s, f, chunks[..n], encrypt);
      RunAppend(s, f, Flatten(chunks[..n]), chunks[n], encrypt);
    }
  }

  // ---------- decryption ----------

  /** Equal as far as any later call can tell: oldcipher is read only while mask bytes are left. */
  predicate Agree(s: State, t: State) {
    s.iv == t.iv && s.left == t.left && (s.left > 0 ==> s.last == t.last)
  }

  lemma StepInverted(s: State, t: State, f: BlockFunction, b: Byte, encrypt: bool)
    requires Agree(s, t)
    ensures var x := Xor8(Mask(Refill(s, f)), b);
      && Xor8(Mask(Refill(t, f)), x) == b
      && Agree(Step(s, f, b, encrypt), Step(t, f, x, !encrypt))
  {
    MaskTwice(Mask(Refill(s, f)), b);
    hide Xor8;
  }

  /** Running the other direction over the output gives the input back, and the two states stay in step. */
  lemma {:induction false} RunInverted(s: State, t: State, f: BlockFunction, bs: seq<Byte>, encrypt: bool)
    requires Agree(s, t)
    ensures var there := Run(s, f, bs, encrypt); var back := Run(t, f, there.bytes, !encrypt);
      back.bytes == bs && Agree(there.state, back.state)
  {
    hide Xor8, Step, Refill, Mask, Agree;
    if bs != [] {
      var n := |bs| - 1;
      RunInverted(s, t, f, bs[..n], encrypt);
      var before, there := Run(s, f, bs[..n], encrypt), Run(s, f, bs, encrypt);
      assert there.bytes[..n] == before.bytes;
      StepInverted(before.state, Run(t, f, before.bytes, !encrypt).state, f, bs[n], encrypt);
    }
  }

  lemma MaskTwice(mask: Byte, b: Byte)
    ensures Xor8(mask, Xor8(mask, b)) == b
  {
    Xor8Commutes(mask, b);
    Xor8Commutes(mask, Xor8(b, mask));
    Xor8Undo(b, mask);
  }

  /** Main result: the receiver recovers the data however either side splits it, and stays in step. */
  lemma ChunkedRoundTrip(s: State, t: State, f: BlockFunction, plain: seq<seq<Byte>>, wire: seq<seq<Byte>>)
    requires Agree(s, t)
    requires Flatten(wire) == RunChunks(s, f, plain, true).bytes
    ensures var sent := RunChunks(s, f, plain, true); var received := RunChunks(t, f, wire, false);
      received.bytes == Flatten(plain) && Agree(sent.state, received.state)
  {
    ChunkingIrrelevant(s, f, plain, true);
    ChunkingIrrelevant(t, f, wire, false);
    RunInverted(s, t, f, Flatten(plain), true);
  }

  // ---------- the block definition ----------

  function XorBytes(mask: seq<Byte>, bs: seq<Byte>): (r: seq<Byte>)
    requires |bs| <= |mask|
    ensures |r| == |bs|
    ensures forall i :: 0 <= i < |bs| ==> r[i] == Xor8(mask[i], bs[i])
  {
    seq(|bs|, i requires 0 <= i < |bs| => Xor8(mask[i], bs[i]))
  }

  /** CFB encryption with 8-byte segments and a short last segment (SP 800-38A, section 6.3, s = 64). */
  function CfbEncrypt(f: BlockFunction, iv: Octets, plain: seq<Byte>): seq<Byte>
    decreases |plain|
  {
    var mask := f(iv);
    if |plain| <= 8 then XorBytes(mask, plain)
    else
      var c := XorBytes(mask, plain[..8]);
      c + CfbEncrypt(f, c, plain[8..])
  }

  function CfbDecrypt(f: BlockFunction, iv: Octets, wire: seq<Byte>): seq<Byte>
    decreases |wire|
  {
    var mask := f(iv);
    if |wire| <= 8 then XorBytes(mask, wire)
    else XorBytes(mask, wire[..8]) + CfbDecrypt(f, wire[..8], wire[8..])
  }

  /** The block before position i of the ciphertext, or the vector. */
  function Previous(iv: Octets, wire: seq<Byte>, i: nat): Octets
    requires i < |wire|
  {
    if i < 8 then iv else wire[i / 8 * 8 - 8..i / 8 * 8]
  }

  lemma {:induction false} CfbLength(f: BlockFunction, iv: Octets, bs: seq<Byte>)
    ensures |CfbEncrypt(f, iv, bs)| == |CfbDecrypt(f, iv, bs)| == |bs|
    decreases |bs|
  {
    if |bs| > 8 {
      CfbLength(f, XorBytes(f(iv), bs[..8]), bs[8..]);
      CfbLength(f, bs[..8], bs[8..]);
    }
  }

  /** Main result: each byte is masked with the enciphered block of ciphertext before it, whatever its position. */
  lemma {:induction false} CfbEncryptByte(f: BlockFunction, iv: Octets, plain: seq<Byte>, i: nat)
    requires i < |plain|
    ensures var c := CfbEncrypt(f, iv, plain);
      |c| == |plain| && c[i] == Xor8(f(Previous(iv, c, i))[i % 8], plain[i])
    decreases |plain|
  {
    CfbLength(f, iv, plain);
    if |plain| > 8 && i >= 8 {
      var c := XorBytes(f(iv), plain[..8]);
      CfbEncryptByte(f, c, plain[8..], i - 8);
      CfbLength(f, c, plain[8..]);
      PreviousLater(iv, c, CfbEncrypt(f, c, plain[8..]), i);
    }
  }

  lemma {:induction false} CfbDecryptByte(f: BlockFunction, iv: Octets, wire: seq<Byte>, i: nat)
    requires i < |wire|
    ensures var p := CfbDecrypt(f, iv, wire);
      |p| == |wire| && p[i] == Xor8(f(Previous(iv, wire, i))[i % 8], wire[i])
    decreases |wire|
  {
    CfbLength(f, iv, wire);
    if |wire| > 8 && i >= 8 {
      CfbDecryptByte(f, wire[..8], wire[8..], i - 8);
      CfbLength(f, wire[..8], wire[8..]);
      assert wire == wire[..8] + wire[8..];
      PreviousLater(iv, wire[..8], wire[8..], i);
    }
  }

  lemma PreviousLater(iv: Octets, c: Octets, rest: seq<Byte>, i: nat)
    requires 8 <= i < 8 + |rest|
    ensures Previous(iv, c + rest, i) == Previous(c, rest, i - 8) && (i - 8) % 8 == i % 8
  {
    var k := i / 8 * 8;
    assert (i - 8) / 8 * 8 == k - 8;
    if i < 16 {
      assert (c + rest)[0..8] == c;
    } else {
      assert (c + rest)[k - 8..k] == rest[k - 16..k - 8];
    }
  }

  function Spliced(iv: Octets, k: nat, wire: seq<Byte>): Octets
    requires k + |wire| <= 8
  {
    iv[..k] + wire + iv[k + |wire|..]
  }

  /** Bytes that fit in the mask that is left: closed form of a run that does not refill. */
  lemma {:induction false} RunWithinMask(s: State, f: BlockFunction, bs: seq<Byte>, encrypt: bool)
    requires |bs| <= s.left
    ensures var k, n := 8 - s.left, |bs|;
      var out := XorBytes(s.iv[k..], bs);
      Run(s, f, bs, encrypt) == Output(State(Spliced(s.iv, k, if encrypt then out else bs), s.last, s.left - n), out)
  {
    hide Xor8, Step, Mask, Refill, XorBytes, Spliced;
    var k := 8 - s.left;
    if bs == [] {
      SplicedNothing(s.iv, k);
    } else {
      var n := |bs| - 1;
      RunWithinMask(s, f, bs[..n], encrypt);
      XorPrefix(s.iv[k..], bs, n);
      var out := XorBytes(s.iv[k..], bs);
      assert out[..n] == XorBytes(s.iv[k..], bs[..n]);
      StepWithinMask(s, f, k, bs, if encrypt then out else bs, encrypt);
    }
  }

  lemma SplicedNothing(iv: Octets, k: nat)
    requires k <= 8
    ensures Spliced(iv, k, []) == iv
  {
  }

  lemma XorPrefix(mask: seq<Byte>, bs: seq<Byte>, n: nat)
    requires |bs| == n + 1 <= |mask|
    ensures XorBytes(mask, bs) == XorBytes(mask, bs[..n]) + [Xor8(mask[n], bs[n])]
  {
    hide Xor8;
  }

  lemma StepWithinMask(s: State, f: BlockFunction, k: nat, bs: seq<Byte>, wire: seq<Byte>, encrypt: bool)
    requires s.left == 8 - k && 0 < |bs| == |wire| <= s.left
    requires wire[|bs| - 1] == if encrypt then Xor8(s.iv[k..][|bs| - 1], bs[|bs| - 1]) else bs[|bs| - 1]
    ensures var n := |bs| - 1;
      var before := State(Spliced(s.iv, k, wire[..n]), s.last, s.left - n);
      && Step(before, f, bs[n], encrypt) == State(Spliced(s.iv, k, wire), s.last, s.left - n - 1)
      && Mask(Refill(before, f)) == s.iv[k..][n]
  {
    hide Xor8;
    var n := |bs| - 1;
    var before := State(Spliced(s.iv, k, wire[..n]), s.last, s.left - n);
    assert before.iv[k + n] == s.iv[k..][n];
    assert before.iv[k + n := wire[n]] == Spliced(s.iv, k, wire);
  }

  lemma RunOneBlock(s: State, f: BlockFunction, bs: seq<Byte>, encrypt: bool)
    requires s.left == 0 && 0 < |bs| <= 8
    ensures var r := Run(s, f, bs, encrypt); var out := XorBytes(f(s.iv), bs);
      && r.bytes == out
      && r.state.left == 8 - |bs|
      && (|bs| == 8 ==> r.state.iv == if encrypt then out else bs)
  {
    RunRefilled(s, f, bs, encrypt);
    RunWithinMask(Refill(s, f), f, bs, encrypt);
    var mask := f(s.iv);
    assert mask[0..] == mask;
    if |bs| == 8 {
      var wire := if encrypt then XorBytes(mask, bs) else bs;
      assert Spliced(mask, 0, wire) == wire;
    }
  }

  lemma {:induction false} RunRefilled(s: State, f: BlockFunction, bs: seq<Byte>, encrypt: bool)
    requires bs != []
    ensures Run(s, f, bs, encrypt) == Run(Refill(s, f), f, bs, encrypt)
  {
    if |bs| > 1 {
      RunRefilled(s, f, bs[..|bs| - 1], encrypt);
    } else {
      assert bs[..0] == [];
    }
  }

  /** Main result: from a context with no mask left, the byte-wise run is the standard's block definition. */
  lemma {:induction false} RunIsCfb(s: State, f: BlockFunction, bs: seq<Byte>, encrypt: bool)
    requires s.left == 0
    ensures Run(s, f, bs, encrypt).bytes == if encrypt then CfbEncrypt(f, s.iv, bs) else CfbDecrypt(f, s.iv, bs)
    decreases |bs|
  {
    hide Step, Refill, Mask, Xor8, XorBytes;
    if bs == [] {
    } else if |bs| <= 8 {
      RunOneBlock(s, f, bs, encrypt);
    } else {
      RunOneBlock(s, f, bs[..8], encrypt);
      RunIsCfb(Run(s, f, bs[..8], encrypt).state, f, bs[8..], encrypt);
      assert bs[..8] + bs[8..] == bs;
      RunAppend(s, f, bs[..8], bs[8..], encrypt);
    }
  }

  /** Main result: the two block definitions are inverse to each other, in both orders. */
  lemma CfbRoundTrip(f: BlockFunction, iv: Octets, bs: seq<Byte>)
    ensures CfbDecrypt(f, iv, CfbEncrypt(f, iv, bs)) == bs
    ensures CfbEncrypt(f, iv, CfbDecrypt(f, iv, bs)) == bs
  {
    hide Run, CfbEncrypt, CfbDecrypt;
    var s := State(iv, iv, 0);
    RunInverted(s, s, f, bs, true);
    RunInverted(s, s, f, bs, false);
    RunIsCfb(s, f, bs, true);
    RunIsCfb(s, f, bs, false);
    RunIsCfb(s, f, CfbEncrypt(f, iv, bs), false);
    RunIsCfb(s, f, CfbDecrypt(f, iv, bs), true);
  }

  // ---------- synchronisation ----------

  function Sync(s: State): State {
    if s.left == 0 then s else State(s.last[8 - s.left..] + s.iv[..8 - s.left], s.last, 0)
  }

  datatype Call = CryptCall(bytes: seq<Byte>, encrypt: bool) | SyncCall

  /** The ciphertext of a call: what it sends or what it receives. */
  function CallCiphertext(s: State, f: BlockFunction, call: Call): seq<Byte> {
    match call
    case CryptCall(bytes, encrypt) => if encrypt then Run(s, f, bytes, true).bytes else bytes
    case SyncCall => []
  }

  function CallState(s: State, f: BlockFunction, call: Call): State {
    match call
    case CryptCall(bytes, encrypt) => Run(s, f, bytes, encrypt).state
    case SyncCall => Sync(s)
  }

  function StateAfter(s: State, f: BlockFunction, calls: seq<Call>): State {
    if calls == [] then s
    else CallState(StateAfter(s, f, calls[..|calls| - 1]), f, calls[|calls| - 1])
  }

  function Ciphertext(s: State, f: BlockFunction, calls: seq<Call>): seq<Byte> {
    if calls == [] then []
    else
      var n := |calls| - 1;
      Ciphertext(s, f, calls[..n]) + CallCiphertext(StateAfter(s, f, calls[..n]), f, calls[n])
  }

  /** The context holds the end of the ciphertext history h, which starts with the initial vector. */
  predicate Tracks(s: State, h: seq<Byte>) {
    var k := 8 - s.left;
    if s.left == 0 then |h| >= 8 && s.iv == h[|h| - 8..]
    else k > 0 && |h| >= 8 + k && s.iv[..k] == h[|h| - k..] && s.last == h[|h| - k - 8..|h| - k]
  }

  lemma StepTracks(s: State, f: BlockFunction, h: seq<Byte>, b: Byte, encrypt: bool)
    requires Tracks(s, h)
    ensures Tracks(Step(s, f, b, encrypt), h + [CipherByte(Refill(s, f), b, encrypt)])
  {
    var c, t := CipherByte(Refill(s, f), b, encrypt), Step(s, f, b, encrypt);
    var g, k := h + [c], 8 - t.left;
    if s.left == 0 {
      assert g[|g| - 9..|g| - 1] == h[|h| - 8..];
    } else {
      assert t.iv[..k] == s.iv[..k - 1] + [c];
      assert g[|g| - k..] == h[|h| - (k - 1)..] + [c];
      assert t.left > 0 ==> g[|g| - k - 8..|g| - k] == h[|h| - (k - 1) - 8..|h| - (k - 1)];
    }
  }

  lemma {:induction false} RunTracks(s: State, f: BlockFunction, h: seq<Byte>, bs: seq<Byte>, encrypt: bool)
    requires Tracks(s, h)
    ensures var r := Run(s, f, bs, encrypt); Tracks(r.state, h + (if encrypt then r.bytes else bs))
  {
    hide Tracks, Step, Refill, Mask, Xor8;
    if bs == [] {
      assert h + [] == h;
    } else {
      var n := |bs| - 1;
      RunTracks(s, f, h, bs[..n], encrypt);
      var r := Run(s, f, bs[..n], encrypt);
      var g := h + (if encrypt then r.bytes else bs[..n]);
      StepTracks(r.state, f, g, bs[n], encrypt);
      assert bs[..n] + [bs[n]] == bs;
      assert g + [CipherByte(Refill(r.state, f), bs[n], encrypt)]
          == h + (if encrypt then Run(s, f, bs, true).bytes else bs);
    }
  }

  lemma SyncTracks(s: State, h: seq<Byte>)
    requires Tracks(s, h)
    ensures Tracks(Sync(s), h)
  {
    if s.left > 0 {
      var k := 8 - s.left;
      assert h[|h| - 8..] == h[|h| - k - 8..|h| - k][k..] + h[|h| - k..];
    }
  }

  lemma CallTracks(s: State, f: BlockFunction, h: seq<Byte>, call: Call)
    requires Tracks(s, h)
    ensures Tracks(CallState(s, f, call), h + CallCiphertext(s, f, call))
  {
    hide Tracks, Run, Sync;
    match call
    case CryptCall(bytes, encrypt) => RunTracks(s, f, h, bytes, encrypt);
    case SyncCall =>
      SyncTracks(s, h);
      assert h + [] == h;
  }

  lemma {:induction false} CallsTrack(s: State, f: BlockFunction, calls: seq<Call>)
    requires s.left == 0
    ensures Tracks(StateAfter(s, f, calls), s.iv + Ciphertext(s, f, calls))
  {
    hide CallState, CallCiphertext;
    if calls == [] {
      assert s.iv + [] == s.iv;
    } else {
      hide Tracks;
      var n := |calls| - 1;
      CallsTrack(s, f, calls[..n]);
      var t, h := StateAfter(s, f, calls[..n]), s.iv + Ciphertext(s, f, calls[..n]);
      CallTracks(t, f, h, calls[n]);
      assert h + CallCiphertext(t, f, calls[n]) == s.iv + Ciphertext(s, f, calls);
    }
  }

  /** Main result: after any run, syncing leaves the last 8 bytes of the initial vector followed by all ciphertext. */
  lemma SyncKeepsLastBlock(s: State, f: BlockFunction, calls: seq<Call>)
    requires s.left == 0
    ensures var h := s.iv + Ciphertext(s, f, calls); var t := Sync(StateAfter(s, f, calls));
      |h| >= 8 && t.iv == h[|h| - 8..] && t.left == 0
  {
    CallsTrack(s, f, calls);
    SyncTracks(StateAfter(s, f, calls), s.iv + Ciphertext(s, f, calls));
  }
}
