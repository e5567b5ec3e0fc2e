/** The output and input streams over the wire format: growable buffers with a cursor, updated in place. */
module Streams {
  import opened Words
  import opened Wire

  const INITIAL_SIZE: nat := 1024

  class JOutStream {
    var buffer: seq<Byte>
    var currIndex: nat

    ghost predicate Valid()
      reads this
    {
      currIndex <= |buffer|
    }

    /** What Data() and Length() give: the bytes before the cursor. */
    ghost function Written(): seq<Byte>
      requires Valid()
      reads this
    {
      buffer[..currIndex]
    }

    constructor ()
      ensures Valid() && Written() == []
    {
      buffer := Zeros(INITIAL_SIZE);
      currIndex := 0;
    }

    function Length(): (n: nat)
      requires Valid()
      reads this
      ensures n == |Written()|
    {
      currIndex
    }

    /** Grows the buffer to exactly what is needed; nothing already stored changes. */
    method EnsureWritableBytes(len: nat)
      requires Valid()
      modifies this`buffer
      ensures |buffer| == if |old(buffer)| < currIndex + len then currIndex + len else |old(buffer)|
      ensures old(buffer) <= buffer
    {
      if |buffer| - currIndex < len {
        buffer := buffer + Zeros(currIndex + len - |buffer|);
      }
    }

    /** Overwrites from the cursor on, growing if need be; bytes beyond the data written stay. */
    method Append(data: seq<Byte>)
      requires Valid()
      modifies this
      ensures Valid() && Written() == old(Written()) + data
      ensures buffer[currIndex..] == if currIndex <= |old(buffer)| then old(buffer)[currIndex..] else []
    {
      EnsureWritableBytes(|data|);
      buffer := buffer[..currIndex] + data + buffer[currIndex + |data|..];
      currIndex := currIndex + |data|;
    }

    method PutU8(x: Byte)
      requires Valid()
      modifies this
      ensures Valid() && Written() == old(Written()) + Encode(U8(x))
    {
      Append([x]);
    }

    method PutU16(x: Word16)
      requires Valid()
      modifies this
      ensures Valid() && Written() == old(Written()) + Encode(U16(x))
    {
      SwappedMemory16(x);
      var be16 := Swap16(x);
      Append(Memory16(be16));
    }

    method PutU32(x: Word32)
      requires Valid()
      modifies this
      ensures Valid() && Written() == old(Written()) + Encode(U32(x))
    {
      hide BigEndian32;
      SwappedMemory32(x);
      var be32 := Swap32(x);
      Append(Memory32(be32));
    }

    method PutI8(x: Int8)
      requires Valid()
      modifies this
      ensures Valid() && Written() == old(Written()) + Encode(I8(x))
    {
      Append([Unsigned(x, 0x100)]);
    }

    method PutI16(x: Int16)
      requires Valid()
      modifies this
      ensures Valid() && Written() == old(Written()) + Encode(I16(x))
    {
      SwappedMemory16(Unsigned(x, 0x1_0000));
      var be16 := Swap16(Unsigned(x, 0x1_0000));
      Append(Memory16(be16));
    }

    method PutI32(x: Int32)
      requires Valid()
      modifies this
      ensures Valid() && Written() == old(Written()) + Encode(I32(x))
    {
      hide BigEndian32;
      SwappedMemory32(Unsigned(x, 0x1_0000_0000));
      var be32 := Swap32(Unsigned(x, 0x1_0000_0000));
      Append(Memory32(be32));
    }

    /** The length is cast to 16 bits, and that many bytes are written. */
    method PutString(s: seq<Byte>)
      requires Valid()
      modifies this
      ensures Valid() && Written() == old(Written()) + Encode(Str(s))
    {
      hide BigEndian16;
      var len: Word16 := |s| % 0x1_0000;
      ghost var before := Written();
      PutU16(len);
      Append(s[..len]);
      assert before + BigEndian16(len) + s[..len] == before + (BigEndian16(len) + s[..len]);
    }

    /** Only positions inside the buffer: the code does not check. */
    method Reposition(pos: nat)
      requires Valid() && pos <= |buffer|
      modifies this`currIndex
      ensures Valid() && Written() == buffer[..pos]
    {
      currIndex := pos;
    }

    method Skip(len: nat)
      requires Valid()
      modifies this
      ensures Valid() && currIndex == old(currIndex) + len && old(Written()) <= Written()
    {
      EnsureWritableBytes(len);
      currIndex := currIndex + len;
    }

    /** The insertion operator of the value's type. */
    method Put(v: Value)
      requires Valid()
      modifies this
      ensures Valid() && Written() == old(Written()) + Encode(v)
    {
      hide Encode;
      match v {
        case U8(x) => PutU8(x);
        case U16(x) => PutU16(x);
        case U32(x) => PutU32(x);
        case I8(x) => PutI8(x);
        case I16(x) => PutI16(x);
        case I32(x) => PutI32(x);
        case Str(s) => PutString(s);
      }
    }

    /** A whole message, one operator after the other. */
    method PutAll(vs: seq<Value>)
      requires Valid()
      modifies this
      ensures Valid() && Written() == old(Written()) + EncodeAll(vs)
    {
      hide Encode;
      for i := 0 to |vs|
        invariant Valid() && Written() + EncodeAll(vs[i..]) == old(Written()) + EncodeAll(vs)
      {
        ghost var before := Written();
        Put(vs[i]);
        assert vs[i..][1..] == vs[i + 1..];
        assert Written() + EncodeAll(vs[i + 1..]) == before + EncodeAll(vs[i..]);
      }
    }
  }

  class JInStream {
    var buffer: seq<Byte>
    var currIndex: nat

    ghost predicate Valid()
      reads this
    {
      currIndex <= |buffer|
    }

    ghost function Rest(): seq<Byte>
      requires Valid()
      reads this
    {
      buffer[currIndex..]
    }

    constructor (data: seq<Byte>)
      ensures Valid() && currIndex == 0 && Rest() == data
    {
      buffer, currIndex := data, 0;
    }

    /** ReadableBytes() >= n, the assertion of every reader. */
    predicate Readable(n: nat)
      requires Valid()
      reads this
    {
      |buffer| - currIndex >= n
    }

    /** Moves the cursor past the next n bytes and returns them. */
    method Next(n: nat) returns (b: seq<Byte>)
      requires Valid() && Readable(n)
      modifies this`currIndex
      ensures Valid() && |b| == n && b == old(Rest())[..n] && Rest() == old(Rest())[n..]
    {
      b := buffer[currIndex..currIndex + n];
      currIndex := currIndex + n;
    }

    method GetU8() returns (x: Byte)
      requires Valid() && Readable(1)
      modifies this`currIndex
      ensures Valid() && Decode(TU8, old(Rest())) == Decoded(U8(x), 1) && Rest() == old(Rest())[1..]
    {
      var b := Next(1);
      x := b[0];
    }

    method GetU16() returns (x: Word16)
      requires Valid() && Readable(2)
      modifies this`currIndex
      ensures Valid() && Decode(TU16, old(Rest())) == Decoded(U16(x), 2) && Rest() == old(Rest())[2..]
    {
      var b := Next(2);
      x := FromMemory16(b[0], b[1]);
    }

    method GetU32() returns (x: Word32)
      requires Valid() && Readable(4)
      modifies this`currIndex
      ensures Valid() && Decode(TU32, old(Rest())) == Decoded(U32(x), 4) && Rest() == old(Rest())[4..]
    {
      hide Join32;
      var b := Next(4);
      x := FromMemory32(b[0], b[1], b[2], b[3]);
    }

    method GetI8() returns (x: Int8)
      requires Valid() && Readable(1)
      modifies this`currIndex
      ensures Valid() && Decode(TI8, old(Rest())) == Decoded(I8(x), 1) && Rest() == old(Rest())[1..]
    {
      var b := Next(1);
      x := Signed(b[0], 0x100);
    }

    method GetI16() returns (x: Int16)
      requires Valid() && Readable(2)
      modifies this`currIndex
      ensures Valid() && Decode(TI16, old(Rest())) == Decoded(I16(x), 2) && Rest() == old(Rest())[2..]
    {
      var b := Next(2);
      x := Signed(FromMemory16(b[0], b[1]), 0x1_0000);
    }

    method GetI32() returns (x: Int32)
      requires Valid() && Readable(4)
      modifies this`currIndex
      ensures Valid() && Decode(TI32, old(Rest())) == Decoded(I32(x), 4) && Rest() == old(Rest())[4..]
    {
      hide Join32;
      var b := Next(4);
      x := Signed(FromMemory32(b[0], b[1], b[2], b[3]), 0x1_0000_0000);
    }

    /** The assertions: the length prefix must be there, and then as many bytes as it says. */
    method GetString() returns (s: seq<Byte>)
      requires Valid() && !Decode(TStr, Rest()).TooShort?
      modifies this`currIndex
      ensures Valid() && Decode(TStr, old(Rest())) == Decoded(Str(s), 2 + |s|)
      ensures Rest() == old(Rest())[2 + |s|..]
    {
      StringParts(Rest());
      hide Decode;
      var len := GetU16();
      s := Next(len);
    }

    /** The code demands strictly more bytes than it skips, so the cursor never skips to the very end. */
    method Skip(len: nat)
      requires Valid() && Readable(len + 1)
      modifies this`currIndex
      ensures Valid() && Rest() == old(Rest())[len..] && Rest() != []
    {
      currIndex := currIndex + len;
    }

    /** The extraction operator of the type asked for. */
    method Get(tag: Tag) returns (v: Value)
      requires Valid() && !Decode(tag, Rest()).TooShort?
      modifies this`currIndex
      ensures Valid()
      ensures var d := Decode(tag, old(Rest()));
        d.v == v && d.size <= |old(Rest())| && Rest() == old(Rest())[d.size..]
    {
      hide Join16, Join32;
      match tag {
        case TU8 => var x := GetU8(); v := U8(x);
        case TU16 => var x := GetU16(); v := U16(x);
        case TU32 => var x := GetU32(); v := U32(x);
        case TI8 => var x := GetI8(); v := I8(x);
        case TI16 => var x := GetI16(); v := I16(x);
        case TI32 => var x := GetI32(); v := I32(x);
        case TStr => var s := GetString(); v := Str(s);
      }
    }

    /** A whole message; its values are those of the format, and the cursor moves past exactly its bytes. */
    method GetAll(tags: seq<Tag>) returns (vs: seq<Value>)
      requires Valid() && DecodeAll(tags, Rest()).DecodedAll?
      modifies this`currIndex
      ensures Valid() && old(currIndex) <= currIndex
      ensures DecodeAll(tags, old(Rest())) == DecodedAll(vs, currIndex - old(currIndex))
      ensures buffer == old(buffer)
    {
      hide Decode;
      vs := [];
      ghost var all := DecodeAll(tags, Rest());
      for i := 0 to |tags|
        invariant Valid() && old(currIndex) <= currIndex
        invariant var more := DecodeAll(tags[i..], Rest());
          more.DecodedAll? && all == DecodedAll(vs + more.vs, currIndex - old(currIndex) + more.size)
      {
        assert tags[i..][1..] == tags[i + 1..];
        ghost var rest, done := Rest(), vs;
        var v := Get(tags[i]);
        vs := vs + [v];
        assert currIndex == |buffer| - |Rest()|;
        assert done + ([v] + DecodeAll(tags[i + 1..], Rest()).vs) == vs + DecodeAll(tags[i + 1..], Rest()).vs;
      }
    }
  }

  lemma StringParts(b: seq<Byte>)
    requires !Decode(TStr, b).TooShort?
    ensures |b| >= 2
    ensures var n := Join16(b[0], b[1]);
      && Decode(TU16, b) == Decoded(U16(n), 2) && |b| >= 2 + n
      && Decode(TStr, b) == Decoded(Str(b[2..][..n]), 2 + n) && b[2..][n..] == b[2 + n..]
  {
    hide Join16;
    var n := Join16(b[0], b[1]);
    assert b[2..][..n] == b[2..2 + n];
    assert b[2..][n..] == b[2 + n..];
  }

  /** memcpy into a little-endian word, then the swap. */
  function FromMemory16(b0: Byte, b1: Byte): (w: Word16)
    ensures w == Join16(b0, b1)
  {
    assert Join16(b1, b0) % 0x100 == b0 && Join16(b1, b0) / 0x100 == b1;
    Swap16(Join16(b1, b0))
  }

  function FromMemory32(b0: Byte, b1: Byte, b2: Byte, b3: Byte): (w: Word32)
    ensures w == Join32(b0, b1, b2, b3)
  {
    SwapBytes(b0, b1, b2, b3);
    Swap32(Join32(b3, b2, b1, b0))
  }

  /**
   * Main result: a message put into an output stream, growing its buffer as needed, and read from an input stream
   * over the bytes written, takes up exactly these bytes and comes back as the list of values, unless a string of
   * 65536 bytes or more is among them.
   */
  method Transmit(vs: seq<Value>) returns (received: seq<Value>, length: nat, consumed: nat)
    ensures received == CarriedAll(vs) && |received| == |vs|
    ensures length == consumed == |EncodeAll(vs)|
    ensures received == vs <==> forall v :: v in vs ==> Short(v)
  {
    var out := new JOutStream();
    out.PutAll(vs);
    length := out.Length();
    var input := new JInStream(out.buffer[..length]);
    assert input.Rest() == EncodeAll(vs) + [];
    DecodeAllEncoded(vs, []);
    CarriedAllIff(vs);
    received := input.GetAll(Tags(vs));
    consumed := input.currIndex;
  }
}
