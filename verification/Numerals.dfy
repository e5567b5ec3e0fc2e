/** Numerals in base 10 and 16: how numbers are written, how they are read back, and how long they get. */
module Numerals {
  import opened Arithmetic
  import opened Words

  type Digit = d: int | 0 <= d < 16

  function DigitChar(d: Digit): char {
    if d < 10 then '0' + d as char else 'A' + (d - 10) as char
  }

  function DigitValue(c: char): int {
    if '0' <= c <= '9' then c as int - '0' as int
    else if 'A' <= c <= 'F' then c as int - 'A' as int + 10
    else -1
  }

  type Base = b: int | 2 <= b <= 16 witness 10

  /** Most significant digit first, without leading zeros. */
  function Digits(n: nat, base: Base): (s: string)
    ensures |s| >= 1
    decreases n
  {
    if n < base then [DigitChar(n)] else Shrinks(n, base); Digits(n / base, base) + [DigitChar(n % base)]
  }

  lemma Shrinks(n: nat, base: Base)
    requires n >= base
    ensures 0 < n / base < n && 0 <= n % base < base && n == base * (n / base) + n % base
  {
  }

  function Value(s: string, base: Base): int {
    if s == [] then 0 else base * Value(s[..|s| - 1], base) + DigitValue(s[|s| - 1])
  }

  predicate IsNumeral(s: string, base: Base) {
    && s != []
    && (forall c :: c in s ==> 0 <= DigitValue(c) < base)
    && (|s| > 1 ==> s[0] != '0')
  }

  function Decimal(v: int): string {
    if v < 0 then "-" + Digits(-v, 10) else Digits(v, 10)
  }

  function DecimalValue(s: string): int {
    if s != [] && s[0] == '-' then -Value(s[1..], 10) else Value(s, 10)
  }

  predicate IsDecimal(s: string) {
    if s != [] && s[0] == '-' then IsNumeral(s[1..], 10) && s[1] != '0' else IsNumeral(s, 10)
  }

  lemma DigitRoundTrip(d: Digit)
    ensures DigitValue(DigitChar(d)) == d
  {
  }

  lemma CharRoundTrip(c: char)
    requires 0 <= DigitValue(c)
    ensures DigitValue(c) < 16 && DigitChar(DigitValue(c)) == c
  {
  }

  /** What is written reads back as the number, and is a numeral without leading zeros. */
  lemma {:induction false} DigitsReadBack(n: nat, base: Base)
    ensures Value(Digits(n, base), base) == n && IsNumeral(Digits(n, base), base)
    ensures n > 0 ==> Digits(n, base)[0] != '0'
    decreases n
  {
    hide DigitChar, DigitValue;
    if n < base {
      DigitRoundTrip(n);
      ZeroDigit(n);
      assert Digits(n, base)[..0] == [];
    } else {
      Shrinks(n, base);
      var s, d := Digits(n / base, base), n % base;
      DigitsReadBack(n / base, base);
      DigitRoundTrip(d);
      assert Digits(n, base)[..|s|] == s;
    }
  }

  lemma ZeroDigit(d: Digit)
    ensures DigitChar(d) == '0' <==> d == 0
  {
  }

  lemma {:induction false} ValueNonnegative(s: string, base: Base)
    requires forall c :: c in s ==> 0 <= DigitValue(c) < base
    ensures 0 <= Value(s, base)
    ensures s != [] && s[0] != '0' ==> 0 < Value(s, base)
  {
    hide DigitValue;
    if s != [] {
      var n := |s| - 1;
      assert s[n] in s;
      assert forall c :: c in s[..n] ==> c in s;
      ValueNonnegative(s[..n], base);
      ProductSign(base, Value(s[..n], base));
      if n == 0 && s[0] != '0' {
        NonzeroChar(s[0]);
      }
    }
  }

  lemma ProductSign(base: Base, v: nat)
    ensures 0 <= base * v && (0 < v ==> 0 < base * v)
  {
  }

  lemma NonzeroChar(c: char)
    requires c != '0' && 0 <= DigitValue(c)
    ensures 0 < DigitValue(c)
  {
  }

  /** Cutting off the last digit of a numeral of several digits leaves a positive numeral. */
  lemma NumeralPrefix(s: string, base: Base)
    requires IsNumeral(s, base) && |s| > 1
    ensures IsNumeral(s[..|s| - 1], base) && 0 < Value(s[..|s| - 1], base)
  {
    hide DigitValue, Value;
    assert forall c :: c in s[..|s| - 1] ==> c in s;
    ValueNonnegative(s[..|s| - 1], base);
  }

  lemma LastDigit(s: string, base: Base)
    requires IsNumeral(s, base)
    ensures 0 <= DigitValue(s[|s| - 1]) < base && DigitChar(DigitValue(s[|s| - 1])) == s[|s| - 1]
  {
    assert s[|s| - 1] in s;
    CharRoundTrip(s[|s| - 1]);
  }

  /** A numeral is the only one for its value. */
  lemma {:induction false} NumeralsAreDigits(s: string, base: Base)
    requires IsNumeral(s, base)
    ensures 0 <= Value(s, base) && Digits(Value(s, base), base) == s
  {
    hide Digits, DigitChar, DigitValue;
    LastDigit(s, base);
    var n := |s| - 1;
    var d := DigitValue(s[n]);
    assert s[..n] + [s[n]] == s;
    if n == 0 {
      DigitsOne(s, d, base);
    } else {
      NumeralPrefix(s, base);
      hide IsNumeral;
      NumeralsAreDigits(s[..n], base);
      DigitsExtended(Value(s[..n], base), d, base);
    }
  }

  lemma DigitsOne(s: string, d: Digit, base: Base)
    requires |s| == 1 && DigitValue(s[0]) == d && DigitChar(d) == s[0] && d < base
    ensures Value(s, base) == d && Digits(d, base) == s
  {
    hide DigitValue, DigitChar;
    assert s[..0] == [];
  }

  lemma DigitsExtended(q: nat, d: Digit, base: Base)
    requires 0 < q && d < base
    ensures 0 <= base * q + d && Digits(base * q + d, base) == Digits(q, base) + [DigitChar(d)]
  {
    hide DigitChar;
    QuotientDigit(q, d, base);
  }

  lemma QuotientDigit(q: nat, d: nat, base: Base)
    requires 0 < q && d < base
    ensures base * q + d >= base && (base * q + d) / base == q && (base * q + d) % base == d
  {
  }

  /** Main result: decimal text and integers are in bijection. */
  lemma DecimalRoundTrip(v: int)
    ensures IsDecimal(Decimal(v)) && DecimalValue(Decimal(v)) == v
  {
    var n := if v < 0 then -v else v;
    DigitsReadBack(n, 10);
    var s := Digits(n, 10);
    if v < 0 {
      assert Decimal(v)[1..] == s;
    } else {
      assert s[0] in s;
    }
  }

  lemma DecimalUnique(s: string)
    requires IsDecimal(s)
    ensures Decimal(DecimalValue(s)) == s
  {
    if s[0] == '-' {
      NumeralsAreDigits(s[1..], 10);
      ValueNonnegative(s[1..], 10);
      assert "-" + s[1..] == s;
    } else {
      NumeralsAreDigits(s, 10);
    }
  }

  lemma {:induction false} DigitsLength(n: nat, base: Base, k: nat)
    requires n < Power(base, k) && k >= 1
    ensures |Digits(n, base)| <= k
    decreases k
  {
    assert Power(base, 1) == base;
    if n >= base {
      Shrinks(n, base);
      QuotientBound(n, base, Power(base, k - 1));
      DigitsLength(n / base, base, k - 1);
    }
  }

  lemma QuotientBound(n: nat, base: Base, p: nat)
    requires n < base * p
    ensures n / base < p
  {
    if p <= n / base {
      MulMonotone(base, p, n / base);
    }
  }

  /** Any value of a C integer type of at most 64 bits, signed or unsigned. */
  predicate Int64(v: int) {
    -0x8000_0000_0000_0000 <= v < 0x1_0000_0000_0000_0000
  }

  /** Main result: no 64-bit integer, the most negative included, needs more than 20 characters. */
  lemma DecimalLength(v: int)
    requires Int64(v)
    ensures 1 <= |Decimal(v)| <= 20
  {
    assert Power(10, 10) == 10000000000;
    if v < 0 {
      PowerOfTen19();
      DigitsLength(-v, 10, 19);
    } else {
      PowerOfTen20();
      DigitsLength(v, 10, 20);
    }
  }

  lemma PowerOfTen19()
    ensures Power(10, 19) == 10000000000000000000
  {
    assert Power(10, 8) == 100000000;
    assert Power(10, 16) == 10000000000000000;
  }

  lemma PowerOfTen20()
    ensures Power(10, 20) == 100000000000000000000
  {
    PowerOfTen19();
  }

  lemma HexLength(v: nat)
    requires v < 0x1_0000_0000_0000_0000
    ensures |Digits(v, 16)| <= 16
  {
    assert Power(16, 8) == 0x1_0000_0000;
    assert Power(16, 16) == 0x1_0000_0000_0000_0000;
    DigitsLength(v, 16, 16);
  }

  /** Most significant digit first, a minus sign in front, and upper-case letters. */
  lemma SomeNumerals()
    ensures Decimal(0) == "0" && Decimal(-7) == "-7" && Decimal(1024) == "1024"
    ensures Digits(0xBEEF, 16) == "BEEF"
  {
    assert Digits(1024, 10) == Digits(102, 10) + "4" == (Digits(10, 10) + "2") + "4";
    assert Digits(0xBEEF, 16) == Digits(0xBEE, 16) + "F" == (Digits(0xBE, 16) + "E") + "F";
  }
}
