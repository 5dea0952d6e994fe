/**
 * Numbers as JavaScript and Python see them, and the conversions from text the
 * model needs: JavaScript's `Number(string)`, Python's `float(str)` and
 * `int(str)`, `Math.round`, Python's round-half-even `.0f` formatting, and the
 * printing of decimal numbers by JavaScript's `String` and Python's `str`.
 * Finite values are exact rationals (IEEE-754 rounding is not modelled).
 */
module Numbers {
  import opened Text
  import opened Wrappers

  /** A floating-point value: a finite (exact) value, an infinity, or NaN. */
  datatype Number = Finite(r: real) | PosInfinity | NegInfinity | NaN

  function Pow10(e: nat): (p: nat)
    ensures p >= 1
  {
    if e == 0 then 1 else 10 * Pow10(e - 1)
  }

  /** The exact value m × 10^e. */
  function Scaled(m: int, e: int): real
  {
    if e >= 0 then (m * Pow10(e)) as real else m as real / Pow10(-e) as real
  }

  /** Index of the first character of s in cs, or |s| when there is none. */
  function Find(s: string, cs: set<char>): (k: nat)
    ensures k <= |s|
    ensures NoneIn(s[..k], cs)
    ensures k < |s| ==> s[k] in cs
  {
    if s == [] then 0
    else if s[0] in cs then 0
    else
      var k := 1 + Find(s[1..], cs);
      assert s[..k] == [s[0]] + s[1..][..k - 1];
      k
  }

  /**
   * A run of decimal digits; when underscores are allowed (Python's digit
   * grouping) a single `_` may stand between two digits.
   */
  predicate DigitGroup(g: string, underscores: bool)
  {
    && |g| > 0
    && IsDigit(g[0]) && IsDigit(g[|g| - 1])
    && GroupChars(g, underscores)
    && forall i :: 0 <= i < |g| - 1 ==> !(g[i] == '_' && g[i + 1] == '_')
  }

  /** Every character is a digit, or an underscore where they are allowed. */
  predicate GroupChars(g: string, underscores: bool)
  {
    forall i :: 0 <= i < |g| ==> IsDigit(g[i]) || (underscores && g[i] == '_')
  }

  /** The digits of a group, without its underscores. */
  function GroupDigits(g: string): (d: string)
    requires GroupChars(g, true)
    ensures AllDigits(d) && |d| <= |g|
  {
    if g == [] then ""
    else if g[0] == '_' then GroupDigits(g[1..])
    else [g[0]] + GroupDigits(g[1..])
  }

  /** A group without underscores is its own digit string. */
  lemma {:induction false} GroupDigitsOfDigits(g: string)
    requires AllDigits(g)
    ensures GroupDigits(g) == g
  {
    if g != [] {
      GroupDigitsOfDigits(g[1..]);
    }
  }

  /** The value of a valid group. */
  function GroupValue(g: string, underscores: bool): nat
    requires DigitGroup(g, underscores)
  {
    DigitsValue(GroupDigits(g))
  }

  /** An exponent part after `e`/`E`: an optional sign and a digit group. */
  function ExponentPart(x: string, underscores: bool): Option<int>
  {
    if x != [] && x[0] in {'+', '-'} then
      var g := x[1..];
      if DigitGroup(g, underscores) then
        var v: int := GroupValue(g, underscores);
        Some(if x[0] == '-' then -v else v)
      else None
    else if DigitGroup(x, underscores) then Some(GroupValue(x, underscores))
    else None
  }

  /**
   * An unsigned decimal literal: digits, an optional `.` with optional
   * digits (at least one digit in all), then an optional exponent. The
   * grammar shared by JavaScript's StrUnsignedDecimalLiteral and Python's
   * float syntax, the latter with digit grouping.
   */
  function UnsignedDecimal(t: string, underscores: bool): Option<real>
  {
    var ei := Find(t, {'e', 'E'});
    var exp := if ei == |t| then Some(0) else ExponentPart(t[ei + 1..], underscores);
    if exp.None? then None else MantissaValue(t[..ei], exp.value, underscores)
  }

  /** The value of the part before the exponent, `int.frac`, scaled by 10^e. */
  function MantissaValue(mant: string, e: int, underscores: bool): Option<real>
  {
    var di := Find(mant, {'.'});
    var ip := mant[..di];
    var fp := if di < |mant| then mant[di + 1..] else "";
    if ip == "" && fp == "" then None
    else if ip != "" && !DigitGroup(ip, underscores) then None
    else if fp != "" && !DigitGroup(fp, underscores) then None
    else
      var id := if ip == "" then "" else GroupDigits(ip);
      var fd := if fp == "" then "" else GroupDigits(fp);
      Some(Scaled(DigitsValue(id + fd), e - |fd|))
  }

  /** The value of digit c in the given radix (2, 8 or 16), if it is one. */
  function RadixDigit(c: char, radix: nat): Option<nat>
  {
    var v :=
      if '0' <= c <= '9' then c as int - '0' as int
      else if 'a' <= c <= 'f' then c as int - 'a' as int + 10
      else if 'A' <= c <= 'F' then c as int - 'A' as int + 10
      else 99;
    if v < radix then Some(v) else None
  }

  /** The value of a non-empty string of radix digits. */
  function RadixValue(s: string, radix: nat): Option<nat>
  {
    if s == [] then Some(0)
    else
      match (RadixValue(s[..|s| - 1], radix), RadixDigit(s[|s| - 1], radix))
      case (Some(h), Some(d)) => Some(h * radix + d)
      case _ => None
  }

  /** The radix a prefix letter after `0` selects: `x` 16, `o` 8, `b` 2, otherwise 0. */
  function RadixOfPrefix(c: char): nat
  {
    if c in {'x', 'X'} then 16 else if c in {'o', 'O'} then 8 else if c in {'b', 'B'} then 2 else 0
  }

  /**
   * JavaScript's `Number(s)` for a string (StringToNumber of ECMA-262):
   * surrounding whitespace is ignored, the empty string is 0, `Infinity` may
   * carry a sign, `0x`/`0o`/`0b` literals have no sign, and anything else
   * that is not a signed decimal literal is NaN.
   */
  function JsStringToNumber(s: string): (n: Number)
    ensures AllIn(s, JsWhitespace) ==> n == Finite(0.0)
  {
    StripEmpty(s, JsWhitespace);
    JsTrimmedToNumber(Strip(s, JsWhitespace))
  }

  /** StringToNumber on text whose surrounding whitespace is already gone. */
  function JsTrimmedToNumber(t: string): (n: Number)
  {
    if t == "" then Finite(0.0)
    else if t == "Infinity" || t == "+Infinity" then PosInfinity
    else if t == "-Infinity" then NegInfinity
    else if |t| > 2 && t[0] == '0' && RadixOfPrefix(t[1]) > 0 then
      match RadixValue(t[2..], RadixOfPrefix(t[1]))
      case Some(v) => Finite(v as real)
      case None => NaN
    else if t[0] == '-' then Negate(DecimalNumber(t[1..]))
    else if t[0] == '+' then DecimalNumber(t[1..])
    else DecimalNumber(t)
  }

  /** The value of an unsigned decimal literal, NaN if t is not one. */
  function DecimalNumber(t: string): Number
  {
    match UnsignedDecimal(t, false)
    case Some(v) => Finite(v)
    case None => NaN
  }

  function Negate(x: Number): Number
  {
    match x
    case Finite(r) => Finite(-r)
    case PosInfinity => NegInfinity
    case NegInfinity => PosInfinity
    case NaN => NaN
  }

  /** ASCII letters in lower case, everything else unchanged. */
  function AsciiLower(s: string): (r: string)
    ensures |r| == |s|
  {
    seq(|s|, i requires 0 <= i < |s| => if 'A' <= s[i] <= 'Z' then (s[i] as int + 32) as char else s[i])
  }

  /**
   * Python's `float(s)` for a string: surrounding whitespace is ignored, an
   * optional sign, then `inf`, `infinity` or `nan` in any case, or a decimal
   * literal with digit grouping. None is the ValueError.
   */
  function PyStringToFloat(s: string): (n: Option<Number>)
    ensures AllIn(s, PyWhitespace) ==> n == None
  {
    StripEmpty(s, PyWhitespace);
    PyTrimmedToFloat(Strip(s, PyWhitespace))
  }

  /** `float` of text whose surrounding whitespace is already gone. */
  function PyTrimmedToFloat(t: string): Option<Number>
  {
    if t == "" then None
    else if t[0] == '-' then
      match PyUnsignedFloat(t[1..]) case Some(x) => Some(Negate(x)) case None => None
    else if t[0] == '+' then PyUnsignedFloat(t[1..])
    else PyUnsignedFloat(t)
  }

  /** An unsigned float: `inf`, `infinity` or `nan` in any case, or a decimal with digit grouping. */
  function PyUnsignedFloat(b: string): Option<Number>
  {
    var word := AsciiLower(b);
    if word == "inf" || word == "infinity" then Some(PosInfinity)
    else if word == "nan" then Some(NaN)
    else
      match UnsignedDecimal(b, true)
      case Some(v) => Some(Finite(v))
      case None => None
  }

  /**
   * Python's `int(s)` for a string in base 10: surrounding whitespace is
   * ignored, an optional sign, then a digit group. None is the ValueError.
   */
  function PyStringToInt(s: string): (n: Option<int>)
    ensures AllIn(s, PyWhitespace) ==> n == None
  {
    StripEmpty(s, PyWhitespace);
    var t := Strip(s, PyWhitespace);
    if t == "" then None
    else
      var body := if t[0] in {'+', '-'} then t[1..] else t;
      if DigitGroup(body, true) then
        var v: int := GroupValue(body, true);
        Some(if t[0] == '-' then -v else v)
      else None
  }

  /** A decimal text (such as IntText prints) contains no whitespace of either language. */
  lemma IntTextNoSpace(n: int)
    ensures Strip(IntText(n), JsWhitespace) == IntText(n)
    ensures Strip(IntText(n), PyWhitespace) == IntText(n)
  {
    var t := IntText(n);
    DigitsAreNotSpace(t[0]);
    DigitsAreNotSpace(t[|t| - 1]);
    StripNoop(t, JsWhitespace);
    StripNoop(t, PyWhitespace);
  }

  /** A non-empty digit string is a group whose value is its digits' value. */
  lemma DigitsAreGroup(d: string, underscores: bool)
    requires |d| > 0 && AllDigits(d)
    ensures DigitGroup(d, underscores) && GroupDigits(d) == d
    ensures GroupValue(d, underscores) == DigitsValue(d)
  {
    GroupDigitsOfDigits(d);
  }

  /** The sign and the digits of IntText(n). */
  lemma IntTextParts(n: int) returns (d: string)
    ensures d == NatText(if n < 0 then -n else n)
    ensures IntText(n) == if n < 0 then "-" + d else d
    ensures IntText(n)[0] == if n < 0 then '-' else d[0]
    ensures Strip(IntText(n), JsWhitespace) == IntText(n)
    ensures Strip(IntText(n), PyWhitespace) == IntText(n)
  {
    d := NatText(if n < 0 then -n else n);
    IntTextNoSpace(n);
  }

  /** Python's `int` reads back what `str` prints for an integer. */
  lemma PyIntRoundTrip(n: int)
    ensures PyStringToInt(IntText(n)) == Some(n)
  {
    var d := IntTextParts(n);
    var t := IntText(n);
    DigitsAreGroup(d, true);
    var body := if t[0] in {'+', '-'} then t[1..] else t;
    assert body == d by {
      if n < 0 {
        assert t[1..] == d;
      } else {
        assert IsDigit(d[0]);
      }
    }
  }

  /** Neither an exponent marker nor a decimal point occurs in a digit string. */
  lemma FindInDigits(d: string)
    requires AllDigits(d)
    ensures Find(d, {'e', 'E'}) == |d| && Find(d, {'.'}) == |d|
  {
  }

  /** A digit group without a point or exponent is a decimal literal of its value. */
  lemma PlainGroupIsDecimal(d: string, underscores: bool)
    requires Find(d, {'e', 'E'}) == |d| && Find(d, {'.'}) == |d|
    requires DigitGroup(d, underscores) && GroupDigits(d) == d
    ensures UnsignedDecimal(d, underscores) == Some(DigitsValue(d) as real)
  {
    assert d[..|d|] == d;
    assert UnsignedDecimal(d, underscores) == MantissaValue(d, 0, underscores);
    PlainMantissa(d, underscores);
  }

  /** A dot-free digit group scaled by 10^0 is its own value. */
  lemma PlainMantissa(d: string, underscores: bool)
    requires Find(d, {'.'}) == |d|
    requires DigitGroup(d, underscores) && GroupDigits(d) == d
    ensures MantissaValue(d, 0, underscores) == Some(DigitsValue(d) as real)
  {
    assert d[..|d|] == d;
    assert d + "" == d;
    assert Scaled(DigitsValue(d), 0) == DigitsValue(d) as real by {
      assert Pow10(0) == 1;
    }
  }

  /** A digit string is a decimal literal with that value. */
  lemma DigitsAreDecimal(d: string, underscores: bool)
    requires |d| > 0 && AllDigits(d)
    ensures UnsignedDecimal(d, underscores) == Some(DigitsValue(d) as real)
  {
    FindInDigits(d);
    DigitsAreGroup(d, underscores);
    PlainGroupIsDecimal(d, underscores);
  }

  /** Text starting with a digit, or `-` and a digit, is no spelling of infinity. */
  lemma NotInfinityText(t: string)
    requires |t| > 0 && (IsDigit(t[0]) || t[0] == '-') && (|t| > 1 ==> IsDigit(t[1]))
    ensures t != "Infinity" && t != "+Infinity" && t != "-Infinity"
  {
    if |t| > 1 { assert "-Infinity"[1] == 'I'; }
  }

  /** Text that is neither empty, infinity nor a radix literal is read as a signed decimal. */
  lemma JsTrimmedIsDecimal(t: string)
    requires t != "" && t != "Infinity" && t != "+Infinity" && t != "-Infinity"
    requires !(|t| > 2 && t[0] == '0' && RadixOfPrefix(t[1]) > 0)
    ensures JsTrimmedToNumber(t) == if t[0] == '-' then Negate(DecimalNumber(t[1..])) else if t[0] == '+' then DecimalNumber(t[1..]) else DecimalNumber(t)
  {
  }

  /** A digit string is a decimal number of its value. */
  lemma DecimalNumberOfDigits(d: string)
    requires |d| > 0 && AllDigits(d)
    ensures DecimalNumber(d) == Finite(DigitsValue(d) as real)
  {
    DigitsAreDecimal(d, false);
  }

  /** JavaScript's `Number` of a digit string without leading zeros. */
  lemma JsNumberOfDigits(t: string)
    requires |t| > 0 && AllDigits(t) && (|t| > 1 ==> t[0] != '0')
    ensures JsTrimmedToNumber(t) == Finite(DigitsValue(t) as real)
  {
    NotInfinityText(t);
    JsTrimmedIsDecimal(t);
    DecimalNumberOfDigits(t);
  }

  /** JavaScript's `Number` of a negated digit string. */
  lemma JsNumberOfNegatedDigits(t: string, body: string)
    requires t == "-" + body
    requires |body| > 0 && AllDigits(body)
    ensures JsTrimmedToNumber(t) == Finite(-(DigitsValue(body) as real))
  {
    assert t[1..] == body;
    NotInfinityText(t);
    JsTrimmedIsDecimal(t);
    DecimalNumberOfDigits(body);
  }

  /** JavaScript's `Number` reads back the decimal text of an integer. */
  lemma JsNumberRoundTrip(n: int)
    ensures JsStringToNumber(IntText(n)) == Finite(n as real)
  {
    var d := IntTextParts(n);
    if n < 0 {
      JsNumberOfNegatedDigits(IntText(n), d);
    } else {
      JsNumberOfDigits(d);
    }
    assert JsStringToNumber(IntText(n)) == JsTrimmedToNumber(IntText(n));
  }

  /** Lower-casing leaves digits alone, so a digit string spells no word. */
  lemma LowerDigits(d: string)
    requires |d| > 0 && AllDigits(d)
    ensures AsciiLower(d) == d
    ensures d != "inf" && d != "infinity" && d != "nan"
  {
    assert IsDigit(d[0]);
  }

  /** Python's `float` of a digit string. */
  lemma PyFloatOfDigits(d: string)
    requires |d| > 0 && AllDigits(d)
    ensures PyUnsignedFloat(d) == Some(Finite(DigitsValue(d) as real))
  {
    LowerDigits(d);
    DigitsAreDecimal(d, true);
  }

  /** Python's `float` reads the decimal text of an integer as that integer. */
  lemma PyFloatOfIntText(n: int)
    ensures PyStringToFloat(IntText(n)) == Some(Finite(n as real))
  {
    var d := IntTextParts(n);
    var t := IntText(n);
    PyFloatOfDigits(d);
    if n < 0 {
      assert t[1..] == d;
    } else {
      assert IsDigit(t[0]);
    }
    assert PyStringToFloat(t) == PyTrimmedToFloat(t);
  }

  /**
   * JavaScript's `Math.round`: the nearest integer, halves going up.
   */
  function JsRound(x: real): (r: int)
    ensures x - 0.5 < r as real <= x + 0.5
  {
    (x + 0.5).Floor
  }

  /** Round half to even, as Python's `format(x, ".0f")` rounds. */
  function RoundHalfEven(x: real): (r: int)
    ensures x - 0.5 <= r as real <= x + 0.5
    ensures (r as real - x == 0.5 || x - r as real == 0.5) ==> r % 2 == 0
  {
    var f := x.Floor;
    var d := x - f as real;
    if d < 0.5 then f
    else if d > 0.5 then f + 1
    else if f % 2 == 0 then f else f + 1
  }

  /**
   * Python's `format(x, ".0f")`: the rounded value, `-0` for a negative value
   * that rounds to zero, and `inf`, `-inf`, `nan`.
   */
  function PyFixed0(x: Number): (s: string)
    ensures x.Finite? && x.r >= 0.0 ==> AllDigits(s)
  {
    match x
    case Finite(r) =>
      var k := RoundHalfEven(r);
      if r < 0.0 && k == 0 then "-0" else IntText(k)
    case PosInfinity => "inf"
    case NegInfinity => "-inf"
    case NaN => "nan"
  }

  /** m × 10^e with the trailing zeros of m moved into e. */
  function Normalize(m: nat, e: int): (p: (nat, int))
    ensures Scaled(p.0, p.1) == Scaled(m, e)
    ensures p.0 == 0 || p.0 % 10 != 0
    decreases m
  {
    if m != 0 && m % 10 == 0 then
      ScaledShift(m / 10, e);
      Normalize(m / 10, e + 1)
    else (m, e)
  }

  /** Moving a factor ten from the mantissa to the exponent keeps the value. */
  lemma ScaledShift(m: nat, e: int)
    ensures Scaled(m * 10, e) == Scaled(m, e + 1)
  {
    if e >= 0 {
      assert Pow10(e + 1) == 10 * Pow10(e);
      assert m * 10 * Pow10(e) == m * Pow10(e + 1);
    } else if e == -1 {
      assert Scaled(m * 10, -1) == (m * 10) as real / 10 as real;
    } else {
      var p := Pow10(-e - 1);
      assert Pow10(-e) == 10 * p;
      assert (m * 10) as real / (10 * p) as real == m as real / p as real;
    }
  }

  function Zeros(n: nat): (z: string)
    ensures |z| == n && AllDigits(z)
  {
    seq(n, _ => '0')
  }

  /**
   * JavaScript's `String(x)` for x = m × 10^e (Number::toString of
   * ECMA-262, taking the digits of m as the shortest digits of x): plain
   * digits when the decimal point falls within 21 places, `0.000ddd` down
   * to six zeros, exponential notation otherwise.
   */
  function JsNumberText(m: int, e: int): (s: string)
    ensures |s| >= 1
    ensures m < 0 ==> s[0] == '-'
    decreases if m < 0 then 1 else 0
  {
    if m < 0 then "-" + JsNumberText(-m, e)
    else if m == 0 then "0"
    else
      var (d, x) := Normalize(m, e);
      var digits := NatText(d);
      var k := |digits|;
      var n := x + k;
      if k <= n <= 21 then digits + Zeros(n - k)
      else if 0 < n <= 21 then digits[..n] + "." + digits[n..]
      else if -6 < n <= 0 then "0." + Zeros(-n) + digits
      else
        var sign := if n - 1 < 0 then "-" else "+";
        var mag := if n - 1 < 0 then 1 - n else n - 1;
        (if k == 1 then digits else digits[..1] + "." + digits[1..]) + "e" + sign + NatText(mag)
  }

  /** Normalizing only strips factors of ten: m = d × 10^(x - e). */
  lemma {:induction false} NormalizeFactor(m: nat, e: int)
    ensures Normalize(m, e).1 >= e
    ensures m == Normalize(m, e).0 * Pow10(Normalize(m, e).1 - e)
    ensures m > 0 ==> Normalize(m, e).0 > 0
    decreases m
  {
    if m != 0 && m % 10 == 0 {
      NormalizeFactor(m / 10, e + 1);
      var p := Normalize(m / 10, e + 1);
      assert Normalize(m, e) == p;
      FactorStep(m, p.0, p.1 - e);
    }
  }

  lemma FactorStep(m: nat, d: nat, k: nat)
    requires k >= 1 && m % 10 == 0 && m / 10 == d * Pow10(k - 1)
    ensures m == d * Pow10(k)
  {
    PowStep(d, k);
  }

  /** Appending x zeros to the digits of d > 0 multiplies it by 10^x. */
  lemma {:induction false} NatTextShift(d: nat, x: nat)
    requires d > 0
    ensures NatText(d * Pow10(x)) == NatText(d) + Zeros(x)
  {
    if x > 0 {
      var n := d * Pow10(x - 1);
      NatTextShift(d, x - 1);
      PowStep(d, x);
      NatTextTimesTen(n);
      ZerosSnoc(x - 1);
      SeqAssoc(NatText(d), Zeros(x - 1), ['0']);
    }
  }

  lemma PowStep(d: nat, x: nat)
    requires x > 0
    ensures d * Pow10(x) == (d * Pow10(x - 1)) * 10
  {
    var p := Pow10(x - 1);
    assert Pow10(x) == 10 * p;
    assert d * (10 * p) == (d * p) * 10;
  }

  lemma ZerosSnoc(n: nat)
    ensures Zeros(n) + ['0'] == Zeros(n + 1)
  {
    assert Zeros(n) + ['0'] == Zeros(n + 1);
  }

  /** The digits of 10 × n are those of n followed by a zero. */
  lemma NatTextTimesTen(n: nat)
    requires n > 0
    ensures NatText(n * 10) == NatText(n) + ['0']
  {
    assert (n * 10) / 10 == n && (n * 10) % 10 == 0;
  }

  /** A number below 10^j has at most j digits. */
  lemma {:induction false} NatTextLength(n: nat, j: nat)
    requires j >= 1 && n < Pow10(j)
    ensures |NatText(n)| <= j
  {
    if n >= 10 {
      assert j >= 2;
      assert Pow10(j) == 10 * Pow10(j - 1);
      assert n / 10 < Pow10(j - 1);
      NatTextLength(n / 10, j - 1);
    }
  }

  /** 10^21: from this magnitude on JavaScript writes numbers in exponent form. */
  const JsPlainLimit: int := 1_000_000_000_000_000_000_000

  /**
   * JavaScript writes an integer below 10^21 in magnitude as its plain
   * decimal digits.
   */
  lemma JsIntegerText(i: int)
    requires -JsPlainLimit < i < JsPlainLimit
    ensures JsNumberText(i, 0) == IntText(i)
  {
    if i < 0 {
      JsNegativeText(i, 0);
      JsNaturalText(-i);
    } else {
      JsNaturalText(i);
    }
  }

  /** A negative number is written as a minus sign before its magnitude. */
  lemma JsNegativeText(m: int, e: int)
    requires m < 0
    ensures JsNumberText(m, e) == "-" + JsNumberText(-m, e)
  {
  }

  lemma JsNaturalText(i: nat)
    requires i < JsPlainLimit
    ensures JsNumberText(i, 0) == NatText(i)
  {
    if i > 0 {
      NormalizeFactor(i, 0);
      var (d, x) := Normalize(i, 0);
      assert i == d * Pow10(x);
      NatTextShift(d, x);
      PlainLimitDigits(i);
      assert |NatText(i)| == |NatText(d)| + x;
      JsPlainText(i, 0);
    }
  }

  lemma PlainLimitPower()
    ensures Pow10(21) == JsPlainLimit
  {
    assert Pow10(7) == 10_000_000;
    assert Pow10(14) == 100_000_000_000_000;
  }

  /** A number below 10^21 has at most 21 digits. */
  lemma PlainLimitDigits(n: nat)
    requires n < JsPlainLimit
    ensures |NatText(n)| <= 21
  {
    PlainLimitPower();
    NatTextLength(n, 21);
  }

  /** From 10^21 on JavaScript writes an integer in exponent form. */
  lemma JsLargeIntegerText(i: nat)
    requires i >= JsPlainLimit
    ensures 'e' in JsNumberText(i, 0)
  {
    NormalizeFactor(i, 0);
    var (d, x) := Normalize(i, 0);
    assert i == d * Pow10(x);
    NatTextShift(d, x);
    PlainLimitPower();
    NatTextLongEnough(i, 21);
    assert |NatText(i)| == |NatText(d)| + x;
    JsExponentText(i, 0);
  }

  /** A number of at least 10^j has more than j digits. */
  lemma {:induction false} NatTextLongEnough(n: nat, j: nat)
    requires n >= Pow10(j)
    ensures |NatText(n)| > j
  {
    if j > 0 {
      assert Pow10(j) == 10 * Pow10(j - 1);
      assert n / 10 >= Pow10(j - 1);
      NatTextLongEnough(n / 10, j - 1);
    }
  }

  /** Past 21 places before the point, m × 10^e is written with an exponent. */
  lemma JsExponentText(m: nat, e: int)
    requires m > 0
    requires Normalize(m, e).1 + |NatText(Normalize(m, e).0)| > 21
    ensures 'e' in JsNumberText(m, e)
  {
    var (d, x) := Normalize(m, e);
    var digits := NatText(d);
    var k := |digits|;
    var n := x + k;
    var sign := if n - 1 < 0 then "-" else "+";
    var mag := if n - 1 < 0 then 1 - n else n - 1;
    var front := if k == 1 then digits else digits[..1] + "." + digits[1..];
    assert JsNumberText(m, e) == front + "e" + sign + NatText(mag);
    assert (front + "e" + sign + NatText(mag))[|front|] == 'e';
  }

  /** Up to 21 places before the point, m × 10^e is written without a point. */
  lemma JsPlainText(m: nat, e: int)
    requires m > 0
    requires Normalize(m, e).1 >= 0 && Normalize(m, e).1 + |NatText(Normalize(m, e).0)| <= 21
    ensures JsNumberText(m, e) == NatText(Normalize(m, e).0) + Zeros(Normalize(m, e).1)
  {
  }

  /**
   * Python's `str(x)` for a float x = m × 10^e (repr with the digits of m as
   * the shortest digits): fixed notation, always with a fractional part, when
   * the decimal exponent lies in [-4, 16), otherwise `d.ddde±XX`.
   */
  function PyFloatText(m: int, e: int): (s: string)
    ensures |s| >= 3
    ensures m < 0 ==> s[0] == '-'
    decreases if m < 0 then 1 else 0
  {
    if m < 0 then "-" + PyFloatText(-m, e)
    else if m == 0 then "0.0"
    else
      var (d, x) := Normalize(m, e);
      var digits := NatText(d);
      var k := |digits|;
      var n := x + k;
      if -4 < n <= 16 then
        if n >= k then digits + Zeros(n - k) + ".0"
        else if n > 0 then digits[..n] + "." + digits[n..]
        else "0." + Zeros(-n) + digits
      else
        var sign := if n - 1 < 0 then "-" else "+";
        var mag := if n - 1 < 0 then 1 - n else n - 1;
        var magText := if mag < 10 then "0" + NatText(mag) else NatText(mag);
        (if k == 1 then digits else digits[..1] + "." + digits[1..]) + "e" + sign + magText
  }
}
