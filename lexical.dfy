/**
 * Decoding of token images as the parser does it with the Java library:
 * Integer.parseInt, Float.parseFloat / new Double(...), StringTokenizer and
 * String.equalsIgnoreCase. Only the parts of those routines that decimal
 * token images reach are modelled; see the README for what is left out.
 */
module Lexical {
  import opened Wrappers
  import opened JavaInt

  predicate IsDigit(c: char) {
    '0' <= c <= '9'
  }

  predicate AllDigits(s: string) {
    s == [] || (IsDigit(s[0]) && AllDigits(s[1..]))
  }

  /** The value of a decimal digit (0 for any other character, which callers never pass). */
  function DigitValue(c: char): nat {
    if IsDigit(c) then (c - '0') as nat else 0
  }

  /** The number a string of decimal digits denotes (0 for the empty string). */
  function DigitsValue(s: string): nat
  {
    if s == [] then 0 else DigitsValue(s[..|s| - 1]) * 10 + DigitValue(s[|s| - 1])
  }

  function Pow10(n: nat): (r: nat)
    ensures r >= 1
  {
    if n == 0 then 1 else 10 * Pow10(n - 1)
  }

  /** The length of the longest prefix of s made of digits. */
  function DigitRun(s: string): (n: nat)
    ensures n <= |s| && AllDigits(s[..n])
    ensures n < |s| ==> !IsDigit(s[n])
  {
    if s == [] || !IsDigit(s[0]) then 0
    else
      var n := 1 + DigitRun(s[1..]);
      assert s[..n] == [s[0]] + s[1..][..n - 1];
      n
  }

  /**
   * `Integer.parseInt` of the Java release the source was written for: an
   * optional minus sign, at least one digit, and a value in the int range.
   * A leading plus sign is refused, as the comments at UnitParser.java:345
   * and :634 note.
   */
  function ParseInt(s: string): (r: Option<int>)
    ensures r.Some? ==> IsInt32(r.value)
  {
    var negative := |s| > 0 && s[0] == '-';
    var digits := if negative then s[1..] else s;
    if digits == [] || !AllDigits(digits) then None
    else
      var v: int := if negative then -(DigitsValue(digits) as int) else DigitsValue(digits);
      if IsInt32(v) then Some(v) else None
  }

  /** A signed exponent: an optional sign and at least one digit. */
  function ParseExponent(s: string): Option<int> {
    var signed := |s| > 0 && (s[0] == '-' || s[0] == '+');
    var digits := if signed then s[1..] else s;
    if digits == [] || !AllDigits(digits) then None
    else if signed && s[0] == '-' then Some(-(DigitsValue(digits) as int))
    else Some(DigitsValue(digits))
  }

  function Scale10(x: real, e: int): real
    decreases if e < 0 then -e else e
  {
    if e == 0 then x else if e > 0 then Scale10(x * 10.0, e - 1) else Scale10(x / 10.0, e + 1)
  }

  /** The parts of a decimal literal: digits before the point, digits after it, and what follows. */
  datatype Mantissa = Mantissa(whole: string, fraction: string, tail: string)

  function SplitMantissa(s: string): (m: Mantissa)
    decreases |s|
  {
    if s != [] && IsDigit(s[0]) then
      var m := SplitMantissa(s[1..]);
      Mantissa([s[0]] + m.whole, m.fraction, m.tail)
    else if s != [] && s[0] == '.' then
      var j := DigitRun(s[1..]);
      Mantissa([], s[1..][..j], s[1..][j..])
    else
      Mantissa([], [], s)
  }

  function MantissaValue(m: Mantissa): real
  {
    DigitsValue(m.whole) as real + FractionValue(m.fraction)
  }

  /** x divided by ten, n times over. */
  function Tenths(x: real, n: nat): real {
    if n == 0 then x else Tenths(x, n - 1) / 10.0
  }

  /** The value of digits written after a decimal point. */
  function FractionValue(d: string): real
  {
    Tenths(DigitsValue(d) as real, |d|)
  }

  /** An unsigned decimal: digits, an optional point and more digits (at least one digit in all), an optional exponent. */
  function ParseUnsignedDecimal(s: string): Option<real> {
    var m := SplitMantissa(s);
    if |m.whole| + |m.fraction| == 0 then None
    else if m.tail == [] then Some(MantissaValue(m))
    else if m.tail[0] == 'e' || m.tail[0] == 'E' then
      match ParseExponent(m.tail[1..])
      case Some(e) => Some(Scale10(MantissaValue(m), e))
      case None => None
    else None
  }

  /** `Float.parseFloat` / `new Double(...)` on a decimal literal with an optional sign (rounding not modelled). */
  function ParseDecimal(s: string): Option<real> {
    var signed := |s| > 0 && (s[0] == '-' || s[0] == '+');
    match ParseUnsignedDecimal(if signed then s[1..] else s)
    case None => None
    case Some(x) => Some(if signed && s[0] == '-' then -x else x)
  }

  /** `(int) Float.parseFloat(s)`. */
  function ParseFloatToInt(s: string): Option<int> {
    match ParseDecimal(s)
    case Some(x) => Some(CastToInt(x))
    case None => None
  }

  /** The leading run of characters other than delim. */
  function Run(s: string, delim: char): (r: string)
    ensures |r| <= |s| && r == s[..|r|]
    ensures delim !in r
    ensures |r| < |s| ==> s[|r|] == delim
  {
    if s == [] || s[0] == delim then [] else [s[0]] + Run(s[1..], delim)
  }

  /** `new StringTokenizer(s, delim)`: the maximal non-empty runs of characters other than delim. */
  function Fields(s: string, delim: char): (r: seq<string>)
    decreases |s|
  {
    if s == [] then []
    else if s[0] == delim then Fields(s[1..], delim)
    else
      var run := Run(s, delim);
      [run] + Fields(s[|run|..], delim)
  }

  /** `s.equalsIgnoreCase("T")`. */
  predicate IsLetterT(s: string) {
    s == "T" || s == "t"
  }

  // ---------------------------------------------------------------------
  // Properties.

  /** The decimal digits of n, most significant first ("0" for zero). */
  function DigitsOf(n: nat): (s: string)
    ensures AllDigits(s) && s != []
  {
    var last := ['0' + (n % 10) as char];
    if n < 10 then last
    else
      var front := DigitsOf(n / 10);
      DigitsAppend(front, last);
      front + last
  }

  lemma {:induction false} DigitsAppend(a: string, b: string)
    requires AllDigits(a) && AllDigits(b)
    ensures AllDigits(a + b)
    decreases |a|
  {
    if a != [] {
      DigitsAppend(a[1..], b);
      assert (a + b)[1..] == a[1..] + b;
    } else {
      assert a + b == b;
    }
  }

  /** A digit string contains no separator or sign. */
  lemma {:induction false} DigitsExclude(s: string, c: char)
    requires AllDigits(s) && !IsDigit(c)
    ensures c !in s
  {
    if s != [] {
      DigitsExclude(s[1..], c);
      assert s == [s[0]] + s[1..];
    }
  }

  /** Reading back the decimal digits of n gives n. */
  lemma {:induction false} DigitsRoundTrip(n: nat)
    ensures DigitsValue(DigitsOf(n)) == n
  {
    var s := DigitsOf(n);
    if n >= 10 {
      DigitsRoundTrip(n / 10);
      assert s[..|s| - 1] == DigitsOf(n / 10);
    }
  }

  /** The decimal rendering of an int, as Integer.toString writes it. */
  function IntToString(n: int): string {
    if n < 0 then "-" + DigitsOf(-n) else DigitsOf(n)
  }

  /** parseInt reads back every int written in decimal. */
  lemma IntRoundTrip(n: int)
    requires IsInt32(n)
    ensures ParseInt(IntToString(n)) == Some(n)
  {
    if n < 0 {
      DigitsRoundTrip(-n);
      assert IntToString(n)[1..] == DigitsOf(-n);
    } else {
      DigitsRoundTrip(n);
    }
  }

  /** A digit string read as a decimal literal has its integer value. */
  lemma {:induction false} DigitRunAll(s: string)
    requires AllDigits(s)
    ensures DigitRun(s) == |s|
  {
    if s != [] {
      DigitRunAll(s[1..]);
    }
  }

  /** A digit string is all whole part: no fraction and nothing after it. */
  lemma {:induction false} SplitDigits(s: string)
    requires AllDigits(s)
    ensures SplitMantissa(s) == Mantissa(s, [], [])
    decreases |s|
  {
    if s != [] {
      SplitDigits(s[1..]);
      assert [s[0]] + s[1..] == s;
    }
  }

  lemma DecimalOfDigits(s: string)
    requires AllDigits(s) && s != []
    ensures ParseDecimal(s) == Some(DigitsValue(s) as real)
  {
    SplitDigits(s);
    assert IsDigit(s[0]);
    assert ParseUnsignedDecimal(s) == Some(MantissaValue(Mantissa(s, [], [])));
  }

  /** `(int) Float.parseFloat` also reads back every int written in decimal, in exact arithmetic. */
  lemma FloatRoundTrip(n: int)
    requires IsInt32(n)
    ensures ParseFloatToInt(IntToString(n)) == Some(n)
  {
    var d := DigitsOf(Abs(n));
    DigitsRoundTrip(Abs(n));
    DecimalOfDigits(d);
    assert IsDigit(d[0]);
    assert ParseUnsignedDecimal(d) == Some(Abs(n) as real);
    if n < 0 {
      assert IntToString(n)[1..] == d;
    }
  }

  lemma {:induction false} DigitsBelowPow10(s: string)
    ensures DigitsValue(s) < Pow10(|s|)
  {
    if s != [] {
      DigitsBelowPow10(s[..|s| - 1]);
    }
  }

  lemma SplitFraction(d: string)
    requires AllDigits(d) && d != []
    ensures SplitMantissa("." + d) == Mantissa([], d, [])
  {
    var s := "." + d;
    assert DigitRun(s) == 0;
    assert s[0..] == s && s[1..] == d;
    DigitRunAll(d);
    assert d[..|d|] == d && d[|d|..] == [];
  }

  /** Dividing by ten n times is dividing by 10^n. */
  lemma {:induction false} TenthsTimesPow10(x: real, n: nat)
    ensures Tenths(x, n) * Pow10(n) as real == x
  {
    if n > 0 {
      TenthsTimesPow10(x, n - 1);
      var y := Tenths(x, n - 1);
      assert Tenths(x, n) * Pow10(n) as real == (y / 10.0) * (10.0 * Pow10(n - 1) as real);
    }
  }

  lemma TenthsBelowOne(x: real, n: nat)
    requires 0.0 <= x < Pow10(n) as real
    ensures 0.0 <= Tenths(x, n) < 1.0
  {
    TenthsTimesPow10(x, n);
    var y, p := Tenths(x, n), Pow10(n) as real;
    assert y < 0.0 ==> y * p < 0.0;
    assert y >= 1.0 ==> y * p >= p;
  }

  /**
   * "." followed by a digit string is a fraction in [0, 1): the check for a
   * negative value after a decimal point can only fire through the integer
   * part in front of it.
   */
  lemma FractionInUnitInterval(d: string)
    requires AllDigits(d) && d != []
    ensures ParseDecimal("." + d).Some?
    ensures 0.0 <= ParseDecimal("." + d).value < 1.0
    ensures ParseDecimal("." + d).value == FractionValue(d)
  {
    SplitFraction(d);
    assert ("." + d)[0] == '.';
    DigitsBelowPow10(d);
    TenthsBelowOne(DigitsValue(d) as real, |d|);
    assert DigitsValue([]) == 0;
  }

  /** A sign in front of a fraction makes parseDouble fail: it must come before the point. */
  lemma SignedFractionRefused(d: string)
    requires AllDigits(d) && d != []
    ensures ParseDecimal("." + ("-" + d)) == None
    ensures ParseDecimal("." + ("+" + d)) == None
  {
    assert DigitRun("." + ("-" + d)) == 0;
    assert DigitRun(("-" + d)) == 0;
    assert DigitRun(("+" + d)) == 0;
    assert ("." + ("-" + d))[1..] == "-" + d;
    assert ("." + ("+" + d))[1..] == "+" + d;
  }

  /** Joining non-empty, delimiter-free fields with single delimiters. */
  function Join(fields: seq<string>, delim: char): string
    requires |fields| > 0
  {
    if |fields| == 1 then fields[0] else fields[0] + [delim] + Join(fields[1..], delim)
  }

  lemma {:induction false} RunOfField(f: string, rest: string, delim: char)
    requires delim !in f
    requires rest == [] || rest[0] == delim
    ensures Run(f + rest, delim) == f
  {
    if f != [] {
      assert (f + rest)[1..] == f[1..] + rest;
      RunOfField(f[1..], rest, delim);
    }
  }

  /** StringTokenizer splits a delimiter-joined string back into its fields. */
  lemma {:induction false} FieldsOfJoin(fields: seq<string>, delim: char)
    requires |fields| > 0
    requires forall k :: 0 <= k < |fields| ==> fields[k] != [] && delim !in fields[k]
    ensures Fields(Join(fields, delim), delim) == fields
  {
    var f := fields[0];
    if |fields| == 1 {
      RunOfField(f, [], delim);
      assert Join(fields, delim) == f;
      assert f + [] == f;
      assert f[0] != delim;
      assert f[|f|..] == [];
      assert Fields(f, delim) == [f] + Fields([], delim);
    } else {
      var rest := [delim] + Join(fields[1..], delim);
      var s := f + rest;
      assert Join(fields, delim) == s;
      RunOfField(f, rest, delim);
      assert s[|f|..] == rest;
      assert rest[1..] == Join(fields[1..], delim);
      FieldsOfJoin(fields[1..], delim);
    }
  }
}
