/** The integer printer with its mirrored digit table and in-place reversal, the fixed buffer and the log stream. */
module LogStream {
  import opened Numerals

  const DIGITS: string := "9876543210123456789"
  const DIGITS_HEX: string := "0123456789ABCDEF"
  const SMALL_BUFFER: nat := 4000
  const MAX_NUMERIC_SIZE: nat := 32

  // ---------- C arithmetic and the digit tables ----------

  /** Integer division and remainder of C: toward zero. */
  function Quotient(i: int, b: int): int
    requires b > 0
  {
    if i >= 0 then i / b else -((-i) / b)
  }

  function Remainder(i: int, b: int): int
    requires b > 0
  {
    if i >= 0 then i % b else -((-i) % b)
  }

  function Abs(i: int): nat {
    if i < 0 then -i else i
  }

  /** zero[lsd], where zero points to the middle of the mirrored table, for a digit of either sign. */
  function ZeroAt(lsd: int): (c: char)
    requires -10 < lsd < 10
    ensures c == DigitChar(Abs(lsd))
  {
    DIGITS[9 + lsd]
  }

  function HexAt(lsd: int): (c: char)
    requires 0 <= lsd < 16
    ensures c == DigitChar(lsd)
  {
    DIGITS_HEX[lsd]
  }

  function Reversed(s: string): (r: string)
    ensures |r| == |s|
  {
    if s == [] then [] else [s[|s| - 1]] + Reversed(s[..|s| - 1])
  }

  lemma {:induction false} ReversedAt(s: string, k: nat)
    requires k < |s|
    ensures Reversed(s)[k] == s[|s| - 1 - k]
  {
    if k > 0 {
      ReversedAt(s[..|s| - 1], k - 1);
    }
  }

  /** std::reverse on the range from lo to hi. */
  method Reverse(buf: array<char>, lo: nat, hi: nat)
    requires lo <= hi <= buf.Length
    modifies buf
    ensures buf[lo..hi] == Reversed(old(buf[lo..hi]))
    ensures buf[..lo] == old(buf[..lo]) && buf[hi..] == old(buf[hi..])
  {
    ghost var s := buf[lo..hi];
    var i, j := lo, hi;
    while i < j
      invariant lo <= i <= j + 1 && i - lo == hi - j && j <= hi
      invariant forall k :: lo <= k < i || j <= k < hi ==> buf[k] == s[hi - 1 - k]
      invariant forall k :: i <= k < j ==> buf[k] == s[k - lo]
      invariant buf[..lo] == old(buf[..lo]) && buf[hi..] == old(buf[hi..])
    {
      j := j - 1;
      buf[i], buf[j] := buf[j], buf[i];
      i := i + 1;
    }
    forall k | 0 <= k < hi - lo
      ensures buf[lo..hi][k] == s[|s| - 1 - k]
    {
      assert buf[lo + k] == s[hi - 1 - (lo + k)];
    }
    ReversedIs(s, buf[lo..hi]);
  }

  lemma ReversedIs(s: string, r: string)
    requires |r| == |s| && forall k :: 0 <= k < |r| ==> r[k] == s[|s| - 1 - k]
    ensures r == Reversed(s)
  {
    forall k | 0 <= k < |r|
      ensures r[k] == Reversed(s)[k]
    {
      ReversedAt(s, k);
    }
  }

  lemma ReversedAppend(s: string, c: char)
    ensures Reversed(s + [c]) == [c] + Reversed(s)
  {
    assert (s + [c])[..|s|] == s;
  }

  // ---------- the printers ----------

  /** One pass of the digit loop: the digit just written completes the number from the left. */
  lemma DigitWritten(n: nat, base: Base, whole: string, written: string)
    requires whole == Digits(n, base) + Reversed(written)
    ensures var next := written + [DigitChar(n % base)];
      whole == if n < base then Reversed(next) else Digits(n / base, base) + Reversed(next)
  {
    hide DigitChar;
    ReversedAppend(written, DigitChar(n % base));
    if n < base {
      assert n % base == n;
    }
  }

  /** The digit loop of convert, least significant digit first; |i| shrinks whichever sign it has. */
  method WriteDigits(buf: array<char>, from: nat, value: int) returns (p: nat)
    requires from + |Digits(Abs(value), 10)| <= buf.Length
    modifies buf
    ensures p == from + |Digits(Abs(value), 10)|
    ensures Reversed(buf[from..p]) == Digits(Abs(value), 10)
    ensures buf[..from] == old(buf[..from])
  {
    hide Digits, DigitChar, Reversed;
    var i := value;
    p := from;
    ghost var whole, written := Digits(Abs(value), 10), "";
    NothingReversed();
    while true
      invariant whole == Digits(Abs(i), 10) + Reversed(written)
      invariant from <= p == from + |written| && p < from + |whole| && buf[from..p] == written
      invariant buf[..from] == old(buf[..from])
      decreases Abs(i)
    {
      DigitWritten(Abs(i), 10, whole, written);
      written := written + [DigitChar(Abs(i) % 10)];
      var lsd := Remainder(i, 10);
      var rest := Quotient(i, 10);
      buf[p] := ZeroAt(lsd);
      p := p + 1;
      assert buf[from..p] == written;
      if rest == 0 {
        break;
      }
      i := rest;
    }
  }

  lemma NothingReversed()
    ensures Reversed("") == ""
  {
  }

  /** Prints a value of any integer type of at most 64 bits at buf + from. */
  method Convert(buf: array<char>, from: nat, value: int) returns (length: nat)
    requires Int64(value) && from + |Decimal(value)| < buf.Length
    modifies buf
    ensures length == |Decimal(value)| && buf[from..from + length] == Decimal(value)
    ensures buf[from + length] == '\0'
    ensures buf[..from] == old(buf[..from])
  {
    hide Digits, Reversed;
    var p := WriteDigits(buf, from, value);
    ghost var written := buf[from..p];
    if value < 0 {
      buf[p] := '-';
      p := p + 1;
      ReversedAppend(written, '-');
      assert buf[from..p] == written + ['-'];
    }
    buf[p] := '\0';
    Reverse(buf, from, p);
    length := p - from;
  }

  /** Prints an address in hexadecimal at buf + from. */
  method ConvertHex(buf: array<char>, from: nat, value: nat) returns (length: nat)
    requires value < 0x1_0000_0000_0000_0000 && from + |Digits(value, 16)| < buf.Length
    modifies buf
    ensures length == |Digits(value, 16)| && buf[from..from + length] == Digits(value, 16)
    ensures buf[from + length] == '\0'
    ensures buf[..from] == old(buf[..from])
  {
    hide Digits, DigitChar, Reversed;
    var i, p := value, from;
    ghost var whole, written := Digits(value, 16), "";
    NothingReversed();
    while true
      invariant 0 <= i && whole == Digits(i, 16) + Reversed(written)
      invariant from <= p == from + |written| && p < from + |whole| && buf[from..p] == written
      invariant buf[..from] == old(buf[..from])
      decreases i
    {
      DigitWritten(i, 16, whole, written);
      written := written + [DigitChar(i % 16)];
      var lsd := i % 16;
      var rest := i / 16;
      buf[p] := HexAt(lsd);
      p := p + 1;
      assert buf[from..p] == written;
      if rest == 0 {
        break;
      }
      i := rest;
    }
    buf[p] := '\0';
    Reverse(buf, from, p);
    length := p - from;
  }

  // ---------- what a stream holds ----------

  datatype Item = Number(v: int) | Pointer(address: nat) | Text(s: string)

  predicate WellTyped(item: Item) {
    match item
    case Number(v) => Int64(v)
    case Pointer(address) => address < 0x1_0000_0000_0000_0000
    case Text(_) => true
  }

  function Piece(item: Item): string {
    match item
    case Number(v) => Decimal(v)
    case Pointer(address) => "0x" + Digits(address, 16)
    case Text(s) => s
  }

  /** Numbers ask for 32 free characters; text must leave at least one character free. */
  predicate Fits(size: nat, used: nat, item: Item) {
    if item.Text? then used + |item.s| < size else used + MAX_NUMERIC_SIZE <= size
  }

  function Accept(size: nat, contents: string, item: Item): string {
    if Fits(size, |contents|, item) then contents + Piece(item) else contents
  }

  function Streamed(size: nat, items: seq<Item>): string {
    if items == [] then "" else Accept(size, Streamed(size, items[..|items| - 1]), items[|items| - 1])
  }

  /** The items that are written: an item is written whole or not at all. */
  function Accepted(size: nat, items: seq<Item>): seq<Item> {
    if items == [] then []
    else
      var n := |items| - 1;
      Accepted(size, items[..n]) + (if Fits(size, |Streamed(size, items[..n])|, items[n]) then [items[n]] else [])
  }

  function Concat(items: seq<Item>): string {
    if items == [] then "" else Concat(items[..|items| - 1]) + Piece(items[|items| - 1])
  }

  /** A piece that fits leaves room for a terminating NUL. */
  lemma PieceFits(size: nat, used: nat, item: Item)
    requires WellTyped(item) && Fits(size, used, item)
    ensures used + |Piece(item)| < size
  {
    match item
    case Number(v) => DecimalLength(v);
    case Pointer(address) => HexLength(address);
    case Text(_) =>
  }

  /**
   * Main result: for every sequence of outputs the stream holds exactly the accepted pieces, whole and in order,
   * and its length stays below the size of the buffer.
   */
  lemma {:induction false} StreamHoldsAccepted(size: nat, items: seq<Item>)
    requires size > 0 && forall item :: item in items ==> WellTyped(item)
    ensures Streamed(size, items) == Concat(Accepted(size, items))
    ensures |Streamed(size, items)| < size
  {
    hide Piece, Fits, WellTyped;
    if items != [] {
      var n := |items| - 1;
      assert forall item :: item in items[..n] ==> item in items;
      StreamHoldsAccepted(size, items[..n]);
      var before := Streamed(size, items[..n]);
      if Fits(size, |before|, items[n]) {
        PieceFits(size, |before|, items[n]);
        ConcatAppend(Accepted(size, items[..n]), items[n]);
      } else {
        assert Accepted(size, items) == Accepted(size, items[..n]);
      }
    }
  }

  /** Main result: of 4000 characters, a number needs 32 free ones, and text one more than its length, no more. */
  lemma AcceptedExactly(items: seq<Item>, i: nat)
    requires i < |items|
    ensures var before := Streamed(SMALL_BUFFER, items[..i]);
      Streamed(SMALL_BUFFER, items[..i + 1]) ==
        match items[i]
        case Number(v) => if |before| + 32 <= 4000 then before + Decimal(v) else before
        case Pointer(address) => if |before| + 32 <= 4000 then before + "0x" + Digits(address, 16) else before
        case Text(s) => if |before| + |s| < 4000 then before + s else before
  {
    hide Decimal, Digits;
    assert items[..i + 1][..i] == items[..i];
  }

  lemma ConcatAppend(items: seq<Item>, item: Item)
    ensures Concat(items + [item]) == Concat(items) + Piece(item)
  {
    assert (items + [item])[..|items|] == items;
  }

  // ---------- the classes ----------

  class FixedBuffer {
    const data: array<char>
    var cur: nat

    ghost predicate Valid()
      reads this
    {
      cur < data.Length
    }

    ghost function Contents(): string
      requires Valid()
      reads this, data
    {
      data[..cur]
    }

    constructor (size: nat)
      requires size > 0
      ensures Valid() && fresh(data) && data.Length == size && Contents() == ""
    {
      data := new char[size];
      cur := 0;
    }

    function Avail(): (n: int)
      reads this
      ensures n == data.Length - cur
    {
      data.Length - cur
    }

    /** Appends the whole text, or nothing if it does not leave a free character. */
    method Append(buf: string)
      requires Valid()
      modifies this, data
      ensures Valid() && Contents() == Accept(data.Length, old(Contents()), Text(buf))
    {
      if Avail() > |buf| {
        ghost var before := Contents();
        forall i | 0 <= i < |buf| {
          data[cur + i] := buf[i];
        }
        assert data[..cur] == before;
        assert data[cur..cur + |buf|] == buf;
        cur := cur + |buf|;
        assert data[..cur] == before + buf;
      }
    }

    method Reset()
      requires Valid()
      modifies this
      ensures Valid() && Contents() == ""
    {
      cur := 0;
    }
  }

  lemma PointerRefused(before: string, address: nat)
    ensures |before| + MAX_NUMERIC_SIZE > SMALL_BUFFER ==> Accept(SMALL_BUFFER, before, Pointer(address)) == before
  {
  }

  lemma PointerAccepted(before: string, address: nat)
    requires |before| + MAX_NUMERIC_SIZE <= SMALL_BUFFER
    ensures Accept(SMALL_BUFFER, before, Pointer(address)) == before + "0x" + Digits(address, 16)
  {
    hide Digits;
  }

  /** buf[0] = '0', buf[1] = 'x'. */
  method StorePrefix(data: array<char>, at: nat)
    requires at + 2 <= data.Length
    modifies data
    ensures data[..at + 2] == old(data[..at]) + "0x"
  {
    data[at] := '0';
    data[at + 1] := 'x';
  }

  class LogStream {
    const buffer: FixedBuffer

    ghost predicate Valid()
      reads this, buffer
    {
      buffer.Valid() && buffer.data.Length == SMALL_BUFFER
    }

    ghost function Contents(): string
      requires Valid()
      reads this, buffer, buffer.data
    {
      buffer.Contents()
    }

    constructor ()
      ensures Valid() && fresh(buffer) && fresh(buffer.data) && Contents() == ""
    {
      buffer := new FixedBuffer(SMALL_BUFFER);
    }

    method PutInteger(v: int)
      requires Valid() && Int64(v)
      modifies buffer, buffer.data
      ensures Valid() && Contents() == Accept(SMALL_BUFFER, old(Contents()), Number(v))
      ensures Contents() == if |old(Contents())| + 32 <= 4000 then old(Contents()) + Decimal(v) else old(Contents())
    {
      hide Decimal;
      if buffer.Avail() >= MAX_NUMERIC_SIZE {
        DecimalLength(v);
        var cur := buffer.cur;
        var len := Convert(buffer.data, cur, v);
        buffer.cur := cur + len;
        assert buffer.data[..cur + len] == buffer.data[..cur] + buffer.data[cur..cur + len];
      }
    }

    method PutPointer(address: nat)
      requires Valid() && address < 0x1_0000_0000_0000_0000
      modifies buffer, buffer.data
      ensures Valid() && Contents() == Accept(SMALL_BUFFER, old(Contents()), Pointer(address))
    {
      hide Digits, Accept;
      PointerRefused(Contents(), address);
      if buffer.Avail() >= MAX_NUMERIC_SIZE {
        HexLength(address);
        var cur := buffer.cur;
        ghost var before := Contents();
        StorePrefix(buffer.data, cur);
        ghost var prefix := buffer.data[..cur + 2];
        var len := ConvertHex(buffer.data, cur + 2, address);
        buffer.cur := cur + (len + 2);
        assert buffer.data[..cur + 2 + len] == prefix + buffer.data[cur + 2..cur + 2 + len];
        PointerAccepted(before, address);
      }
    }

    method PutText(s: string)
      requires Valid()
      modifies buffer, buffer.data
      ensures Valid() && Contents() == Accept(SMALL_BUFFER, old(Contents()), Text(s))
      ensures Contents() == if |old(Contents())| + |s| < 4000 then old(Contents()) + s else old(Contents())
    {
      buffer.Append(s);
    }

    method PutBool(v: bool)
      requires Valid()
      modifies buffer, buffer.data
      ensures Valid() && Contents() == Accept(SMALL_BUFFER, old(Contents()), Text(if v then "1" else "0"))
    {
      buffer.Append(if v then "1" else "0");
    }

    /** One output operator of the item's type. */
    method Put(item: Item)
      requires Valid() && WellTyped(item)
      modifies buffer, buffer.data
      ensures Valid() && Contents() == Accept(SMALL_BUFFER, old(Contents()), item)
    {
      hide Accept;
      match item {
        case Number(v) => PutInteger(v);
        case Pointer(address) => PutPointer(address);
        case Text(s) => PutText(s);
      }
    }

    /** A whole line of outputs into an empty stream; what it holds is what StreamHoldsAccepted says. */
    method PutAll(items: seq<Item>)
      requires Valid() && Contents() == "" && forall item :: item in items ==> WellTyped(item)
      modifies buffer, buffer.data
      ensures Valid() && Contents() == Streamed(SMALL_BUFFER, items)
      ensures Contents() == Concat(Accepted(SMALL_BUFFER, items)) && |Contents()| < SMALL_BUFFER
    {
      hide Accept, WellTyped, Concat, Accepted;
      for i := 0 to |items|
        invariant Valid() && Contents() == Streamed(SMALL_BUFFER, items[..i])
      {
        assert items[..i + 1][..i] == items[..i];
        Put(items[i]);
      }
      assert items[..|items|] == items;
      StreamHoldsAccepted(SMALL_BUFFER, items);
    }
  }
}
