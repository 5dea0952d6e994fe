/**
 * Percent-encoding of text as section 2.1 of RFC 3986 describes it: every
 * character outside a safe set becomes the `%HH` escapes of its UTF-8
 * bytes (RFC 3629), with upper-case hexadecimal digits. JavaScript's
 * `encodeURIComponent` and Python's `urllib.parse.quote` differ only in
 * which punctuation they leave alone.
 */
module Percent {
  import opened Text

  /** ASCII letters and digits, which both encoders leave alone. */
  predicate AsciiAlnum(c: char)
  {
    'A' <= c <= 'Z' || 'a' <= c <= 'z' || '0' <= c <= '9'
  }

  predicate Kept(c: char, extra: set<char>)
  {
    AsciiAlnum(c) || c in extra
  }

  /** The punctuation `encodeURIComponent` does not escape. */
  const UriComponentExtra: set<char> := {'-', '_', '.', '!', '~', '*', '\'', '(', ')'}

  /** The punctuation `quote` does not escape, with its default safe character `/`. */
  const QuoteExtra: set<char> := {'_', '.', '-', '~', '/'}

  /** The UTF-8 encoding of a Unicode scalar value. */
  function Utf8(c: char): (bs: seq<nat>)
    ensures 1 <= |bs| <= 4
    ensures forall i :: 0 <= i < |bs| ==> bs[i] < 256
    ensures |bs| == Utf8Length(bs[0])
  {
    var n := c as int;
    if n < 0x80 then [n]
    else if n < 0x800 then [0xC0 + n / 64, 0x80 + n % 64]
    else if n < 0x10000 then [0xE0 + n / 4096, 0x80 + (n / 64) % 64, 0x80 + n % 64]
    else [0xF0 + n / 262144, 0x80 + (n / 4096) % 64, 0x80 + (n / 64) % 64, 0x80 + n % 64]
  }

  /** The length of a UTF-8 sequence, read off its first byte. */
  function Utf8Length(b: nat): nat
  {
    if b < 0x80 then 1 else if b < 0xE0 then 2 else if b < 0xF0 then 3 else 4
  }

  /** The code point a UTF-8 sequence of one to four bytes stands for. */
  function Utf8Decode(bs: seq<nat>): int
    requires 1 <= |bs| <= 4
  {
    var b: seq<int> := bs;
    if |b| == 1 then b[0]
    else if |b| == 2 then (b[0] - 0xC0) * 64 + (b[1] - 0x80)
    else if |b| == 3 then (b[0] - 0xE0) * 4096 + (b[1] - 0x80) * 64 + (b[2] - 0x80)
    else (b[0] - 0xF0) * 262144 + (b[1] - 0x80) * 4096 + (b[2] - 0x80) * 64 + (b[3] - 0x80)
  }

  /** Decoding undoes the encoding, so no two characters share a UTF-8 encoding. */
  lemma Utf8RoundTrip(c: char)
    ensures Utf8Decode(Utf8(c)) == c as int
  {
    var n := c as int;
    var q := n / 64;
    assert n == q * 64 + n % 64;
    if n >= 0x800 {
      assert q == (n / 4096) * 64 + q % 64;
      if n >= 0x10000 {
        assert n / 4096 == (n / 262144) * 64 + (n / 4096) % 64;
      }
    }
  }

  lemma Utf8Injective(c: char, d: char)
    requires Utf8(c) == Utf8(d)
    ensures c == d
  {
    Utf8RoundTrip(c);
    Utf8RoundTrip(d);
  }

  /** An upper-case hexadecimal digit. */
  function HexDigit(d: nat): (c: char)
    requires d < 16
    ensures IsDigit(c) || 'A' <= c <= 'F'
  {
    if d < 10 then ('0' as int + d) as char else ('A' as int + d - 10) as char
  }

  /** A byte as two hexadecimal digits. */
  function Hex(b: nat): (h: string)
    requires b < 256
    ensures |h| == 2
  {
    [HexDigit(b / 16), HexDigit(b % 16)]
  }

  lemma HexInjective(a: nat, b: nat)
    requires a < 256 && b < 256 && Hex(a) == Hex(b)
    ensures a == b
  {
    assert HexDigit(a / 16) == HexDigit(b / 16);
    assert HexDigit(a % 16) == HexDigit(b % 16);
  }

  /** `%HH` for each byte. */
  function Escapes(bs: seq<nat>): (s: string)
    requires forall i :: 0 <= i < |bs| ==> bs[i] < 256
    ensures |s| == 3 * |bs|
    ensures bs != [] ==> s[0] == '%' && s[1..3] == Hex(bs[0])
  {
    if bs == [] then "" else "%" + Hex(bs[0]) + Escapes(bs[1..])
  }

  lemma {:induction false} EscapesInjective(bs: seq<nat>, cs: seq<nat>)
    requires forall i :: 0 <= i < |bs| ==> bs[i] < 256
    requires forall i :: 0 <= i < |cs| ==> cs[i] < 256
    requires Escapes(bs) == Escapes(cs)
    ensures bs == cs
  {
    if bs != [] {
      var s := Escapes(bs);
      HexInjective(bs[0], cs[0]);
      assert s[3..] == Escapes(bs[1..]);
      assert Escapes(cs)[3..] == Escapes(cs[1..]);
      EscapesInjective(bs[1..], cs[1..]);
      assert bs == [bs[0]] + bs[1..];
      assert cs == [cs[0]] + cs[1..];
    }
  }

  /** One character: itself if kept, otherwise its escaped UTF-8 bytes. */
  function EncodeChar(c: char, extra: set<char>): (s: string)
    ensures 1 <= |s| <= 12
    ensures Kept(c, extra) ==> s == [c]
    ensures !Kept(c, extra) ==> s[0] == '%'
  {
    if Kept(c, extra) then [c] else Escapes(Utf8(c))
  }

  /** Percent-encoding of s, keeping ASCII letters, digits and the characters in extra. */
  function PercentEncode(s: string, extra: set<char>): (r: string)
    ensures |r| >= |s|
  {
    if s == [] then "" else EncodeChar(s[0], extra) + PercentEncode(s[1..], extra)
  }

  /** Text made only of kept characters is unchanged. */
  lemma {:induction false} EncodeKept(s: string, extra: set<char>)
    requires forall i :: 0 <= i < |s| ==> Kept(s[i], extra)
    ensures PercentEncode(s, extra) == s
  {
    if s != [] {
      EncodeKept(s[1..], extra);
      assert s == [s[0]] + s[1..];
    }
  }

  /** The encodings of two characters cannot start the same text unless they are equal. */
  lemma EncodeCharPrefix(c: char, d: char, x: string, y: string, extra: set<char>)
    requires '%' !in extra
    requires EncodeChar(c, extra) + x == EncodeChar(d, extra) + y
    ensures c == d
  {
    var ec := EncodeChar(c, extra);
    var ed := EncodeChar(d, extra);
    assert (ec + x)[0] == ec[0] && (ed + y)[0] == ed[0];
    if !Kept(c, extra) && !Kept(d, extra) {
      var bc := Utf8(c);
      var bd := Utf8(d);
      assert (ec + x)[1..3] == ec[1..3];
      assert (ed + y)[1..3] == ed[1..3];
      HexInjective(bc[0], bd[0]);
      assert |ec| == |ed|;
      assert ec == (ec + x)[..|ec|];
      assert ed == (ed + y)[..|ed|];
      EscapesInjective(bc, bd);
      Utf8Injective(c, d);
    }
  }

  /** Percent-encoding is injective: distinct texts have distinct encodings. */
  lemma {:induction false} EncodeInjective(s: string, t: string, extra: set<char>)
    requires '%' !in extra
    requires PercentEncode(s, extra) == PercentEncode(t, extra)
    ensures s == t
  {
    if s != [] && t != [] {
      EncodeCharPrefix(s[0], t[0], PercentEncode(s[1..], extra), PercentEncode(t[1..], extra), extra);
      var e := EncodeChar(s[0], extra);
      assert PercentEncode(s, extra)[|e|..] == PercentEncode(s[1..], extra);
      assert PercentEncode(t, extra)[|e|..] == PercentEncode(t[1..], extra);
      EncodeInjective(s[1..], t[1..], extra);
      assert s == [s[0]] + s[1..];
      assert t == [t[0]] + t[1..];
    }
  }

  /** JavaScript's `encodeURIComponent`. */
  function EncodeUriComponent(s: string): string
  {
    PercentEncode(s, UriComponentExtra)
  }

  /** Python's `urllib.parse.quote` with its default safe character `/`. */
  function Quote(s: string): string
  {
    PercentEncode(s, QuoteExtra)
  }

  /** Distinct file names give distinct `encodeURIComponent` texts. */
  lemma EncodeUriComponentInjective(s: string, t: string)
    requires EncodeUriComponent(s) == EncodeUriComponent(t)
    ensures s == t
  {
    EncodeInjective(s, t, UriComponentExtra);
  }

  /** Distinct file names give distinct `quote` texts. */
  lemma QuoteInjective(s: string, t: string)
    requires Quote(s) == Quote(t)
    ensures s == t
  {
    EncodeInjective(s, t, QuoteExtra);
  }
}
