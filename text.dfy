/**
 * String helpers shared by the Python and TypeScript parts of the model:
 * splitting on a set of separator characters, joining, character replacement,
 * stripping a whitespace set from both ends, and decimal digits.
 */
module Text {

  /** True when no character of s is in cs. */
  predicate NoneIn(s: string, cs: set<char>)
  {
    forall i :: 0 <= i < |s| ==> s[i] !in cs
  }

  /** True when every character of s is in cs. */
  predicate AllIn(s: string, cs: set<char>)
  {
    forall i :: 0 <= i < |s| ==> s[i] in cs
  }

  /**
   * The pieces of s between separator characters, as Python's `str.split(c)`
   * and JavaScript's `String.prototype.split` with a one-character class do:
   * there is always at least one piece, and a separator at either end or two
   * separators in a row give an empty piece.
   */
  function Split(s: string, seps: set<char>): (r: seq<string>)
    ensures |r| >= 1
    ensures forall i :: 0 <= i < |r| ==> NoneIn(r[i], seps)
    decreases |s|
  {
    if s == [] then [""]
    else
      var rest := Split(s[1..], seps);
      if s[0] in seps then [""] + rest
      else [[s[0]] + rest[0]] + rest[1..]
  }

  /** The pieces joined with sep between neighbours, as Python's `sep.join(parts)`. */
  function Join(parts: seq<string>, sep: string): string
  {
    if |parts| == 0 then ""
    else if |parts| == 1 then parts[0]
    else parts[0] + sep + Join(parts[1..], sep)
  }

  function Last<T>(s: seq<T>): T
    requires |s| > 0
  {
    s[|s| - 1]
  }

  /** Joining the pieces of a split with the same separator gives back the original string. */
  lemma {:induction false} JoinSplit(s: string, c: char)
    ensures Join(Split(s, {c}), [c]) == s
    decreases |s|
  {
    if s != [] {
      var rest := Split(s[1..], {c});
      JoinSplit(s[1..], c);
      if s[0] == c {
        assert Split(s, {c}) == [""] + rest;
        assert Join([""] + rest, [c]) == "" + [c] + Join(rest, [c]);
        assert s == [s[0]] + s[1..];
      } else {
        var parts := [[s[0]] + rest[0]] + rest[1..];
        assert Split(s, {c}) == parts;
        if |rest| == 1 {
          assert Join(parts, [c]) == [s[0]] + rest[0];
          assert Join(rest, [c]) == rest[0];
        } else {
          assert rest == [rest[0]] + rest[1..];
          assert Join(rest, [c]) == rest[0] + [c] + Join(rest[1..], [c]);
          assert Join(parts, [c]) == [s[0]] + rest[0] + [c] + Join(rest[1..], [c]);
        }
        assert s == [s[0]] + s[1..];
      }
    }
  }

  /**
   * Splitting a join of separator-free pieces gives back the pieces, so
   * Split and Join are inverse on those lists.
   */
  lemma {:induction false} SplitJoin(parts: seq<string>, c: char)
    requires |parts| >= 1
    requires forall i :: 0 <= i < |parts| ==> NoneIn(parts[i], {c})
    ensures Split(Join(parts, [c]), {c}) == parts
    decreases |parts|, |parts[0]|
  {
    if |parts| == 1 {
      SplitNoSep(parts[0], {c});
    } else if parts[0] == "" {
      var tail := parts[1..];
      assert Join(parts, [c]) == [c] + Join(tail, [c]);
      SplitJoin(tail, c);
      assert ([c] + Join(tail, [c]))[1..] == Join(tail, [c]);
      assert parts == [""] + tail;
    } else {
      var shorter := [parts[0][1..]] + parts[1..];
      ShorterPartsClean(parts, c);
      SplitJoin(shorter, c);
      SplitJoinFirstChar(parts, c);
    }
  }

  /** Dropping the first character of the first piece keeps every piece separator-free. */
  lemma ShorterPartsClean(parts: seq<string>, c: char)
    requires |parts| >= 2 && parts[0] != ""
    requires forall i :: 0 <= i < |parts| ==> NoneIn(parts[i], {c})
    ensures var shorter := [parts[0][1..]] + parts[1..];
      forall i :: 0 <= i < |shorter| ==> NoneIn(shorter[i], {c})
  {
    var p := parts[0];
    var shorter := [p[1..]] + parts[1..];
    forall i | 0 <= i < |shorter| ensures NoneIn(shorter[i], {c}) {
      if i == 0 {
        assert forall k :: 0 <= k < |p[1..]| ==> p[1..][k] == p[k + 1];
      } else {
        assert shorter[i] == parts[i];
      }
    }
  }

  /** The step of SplitJoin for a first piece that starts with an ordinary character. */
  lemma SplitJoinFirstChar(parts: seq<string>, c: char)
    requires |parts| >= 2 && parts[0] != "" && NoneIn(parts[0], {c})
    requires Split(Join([parts[0][1..]] + parts[1..], [c]), {c}) == [parts[0][1..]] + parts[1..]
    ensures Split(Join(parts, [c]), {c}) == parts
  {
    var p := parts[0];
    var shorter := [p[1..]] + parts[1..];
    JoinFirstChar(parts, c);
    assert p[0] != c;
    SplitCons(p[0], Join(shorter, [c]), {c});
    assert shorter[0] == p[1..] && shorter[1..] == parts[1..];
    assert [p[0]] + p[1..] == p;
    assert parts == [p] + parts[1..];
  }

  /** A join whose first piece is non-empty starts with that piece's first character. */
  lemma JoinFirstChar(parts: seq<string>, c: char)
    requires |parts| >= 2 && parts[0] != ""
    ensures Join(parts, [c]) == [parts[0][0]] + Join([parts[0][1..]] + parts[1..], [c])
  {
    var p := parts[0];
    var shorter := [p[1..]] + parts[1..];
    var tail := Join(parts[1..], [c]);
    var a := p[1..] + [c];
    assert Join(parts, [c]) == (p + [c]) + tail;
    assert shorter[1..] == parts[1..];
    assert Join(shorter, [c]) == a + tail;
    SeqAssoc([p[0]], a, tail);
    SeqAssoc([p[0]], p[1..], [c]);
    assert [p[0]] + p[1..] == p;
  }

  /** Concatenation of three strings does not depend on grouping. */
  lemma SeqAssoc(a: string, b: string, d: string)
    ensures a + (b + d) == (a + b) + d
  {
  }

  /** An ordinary character in front joins the first piece. */
  lemma SplitCons(ch: char, t: string, seps: set<char>)
    requires ch !in seps
    ensures Split([ch] + t, seps) == [[ch] + Split(t, seps)[0]] + Split(t, seps)[1..]
  {
    assert ([ch] + t)[1..] == t;
  }

  /** A string with no separator splits into itself alone. */
  lemma {:induction false} SplitNoSep(s: string, seps: set<char>)
    requires NoneIn(s, seps)
    ensures Split(s, seps) == [s]
    decreases |s|
  {
    if s != [] {
      assert NoneIn(s[1..], seps) by {
        forall k | 0 <= k < |s[1..]| ensures s[1..][k] !in seps {
          assert s[1..][k] == s[k + 1];
        }
      }
      SplitNoSep(s[1..], seps);
      assert s == [s[0]] + s[1..];
    }
  }

  /**
   * The last piece of a split is the longest suffix of s without a
   * separator: it ends s, holds no separator, and the character before it,
   * when there is one, is a separator.
   */
  lemma {:induction false} LastPiece(s: string, seps: set<char>)
    ensures var l := Last(Split(s, seps));
      |l| <= |s| && s[|s| - |l|..] == l && NoneIn(l, seps) &&
      (|l| < |s| ==> s[|s| - |l| - 1] in seps)
    decreases |s|
  {
    if s != [] {
      LastPiece(s[1..], seps);
      var rest := Split(s[1..], seps);
      var l := Last(rest);
      if s[0] !in seps && |rest| == 1 {
        LastPieceWhole(s, seps);
      } else {
        LastPieceOfRest(s, seps);
        if s[0] !in seps && |l| == |s| - 1 {
          assert l == s[1..];
          SplitNoSep(s[1..], seps);
        }
        SuffixOfTail(s, l, seps);
      }
    }
  }

  /** A string that starts with an ordinary character and whose tail splits into one piece is its own last piece. */
  lemma LastPieceWhole(s: string, seps: set<char>)
    requires s != [] && s[0] !in seps && |Split(s[1..], seps)| == 1
    ensures Last(Split(s, seps)) == s
  {
    SplitOnePiece(s[1..], seps);
    assert Split(s, seps) == [[s[0]] + s[1..]];
    assert [s[0]] + s[1..] == s;
  }

  /** Otherwise the last piece is the tail's last piece. */
  lemma LastPieceOfRest(s: string, seps: set<char>)
    requires s != [] && (s[0] in seps || |Split(s[1..], seps)| > 1)
    ensures Last(Split(s, seps)) == Last(Split(s[1..], seps))
  {
  }

  /** A separator-led suffix of s[1..] is one of s, and at its full length the separator is s[0]. */
  lemma SuffixOfTail(s: string, l: string, seps: set<char>)
    requires s != [] && |l| <= |s| - 1 && s[1..][|s| - 1 - |l|..] == l
    requires |l| < |s| - 1 ==> s[1..][|s| - 1 - |l| - 1] in seps
    requires |l| == |s| - 1 ==> s[0] in seps
    ensures s[|s| - |l|..] == l && (|l| < |s| ==> s[|s| - |l| - 1] in seps)
  {
    assert s[|s| - |l|..] == s[1..][|s| - 1 - |l|..];
  }

  /** The last piece of a text ending in a separator and then a separator-free e is e. */
  lemma LastPieceAfter(x: string, c: char, e: string, seps: set<char>)
    requires c in seps && NoneIn(e, seps)
    ensures Last(Split(x + [c] + e, seps)) == e
  {
    var s := x + [c] + e;
    LastPiece(s, seps);
    var l := Last(Split(s, seps));
    assert s[|s| - |e| - 1] == c;
    assert forall k :: 0 <= k < |e| ==> s[|s| - |e| + k] == e[k];
    assert s[|s| - |e|..] == e;
  }

  /** A split with a single piece left the string whole. */
  lemma {:induction false} SplitOnePiece(s: string, seps: set<char>)
    requires |Split(s, seps)| == 1
    ensures Split(s, seps)[0] == s
    decreases |s|
  {
    if s != [] {
      SplitOnePiece(s[1..], seps);
      assert s == [s[0]] + s[1..];
    }
  }

  /** s with every occurrence of a replaced by b, as Python's `s.replace(a, b)` for single characters. */
  function Replace(s: string, a: char, b: char): (r: string)
    ensures |r| == |s|
    ensures forall i :: 0 <= i < |s| ==> r[i] == if s[i] == a then b else s[i]
  {
    seq(|s|, i requires 0 <= i < |s| => if s[i] == a then b else s[i])
  }

  /**
   * Replacing a by b and then splitting on b gives the same pieces as
   * splitting on both a and b.
   */
  lemma {:induction false} SplitReplace(s: string, a: char, b: char)
    ensures Split(Replace(s, a, b), {b}) == Split(s, {a, b})
    decreases |s|
  {
    if s != [] {
      SplitReplace(s[1..], a, b);
      assert Replace(s, a, b)[1..] == Replace(s[1..], a, b);
    }
  }

  /** Characters JavaScript's `trim` removes: WhiteSpace and LineTerminator of ECMA-262. */
  const JsWhitespace: set<char> := {
    '\t', '\n', '\U{000B}', '\U{000C}', '\r', ' ', '\U{00A0}', '\U{1680}',
    '\U{2000}', '\U{2001}', '\U{2002}', '\U{2003}', '\U{2004}', '\U{2005}',
    '\U{2006}', '\U{2007}', '\U{2008}', '\U{2009}', '\U{200A}',
    '\U{2028}', '\U{2029}', '\U{202F}', '\U{205F}', '\U{3000}', '\U{FEFF}'
  }

  /**
   * Characters Python's `str.strip()` removes: those for which `str.isspace()`
   * holds. Unlike JavaScript, Python counts U+001C..U+001F and U+0085 and not
   * U+FEFF.
   */
  const PyWhitespace: set<char> := {
    '\t', '\n', '\U{000B}', '\U{000C}', '\r',
    '\U{001C}', '\U{001D}', '\U{001E}', '\U{001F}', ' ', '\U{0085}', '\U{00A0}', '\U{1680}',
    '\U{2000}', '\U{2001}', '\U{2002}', '\U{2003}', '\U{2004}', '\U{2005}',
    '\U{2006}', '\U{2007}', '\U{2008}', '\U{2009}', '\U{200A}',
    '\U{2028}', '\U{2029}', '\U{202F}', '\U{205F}', '\U{3000}'
  }

  /** No whitespace of either language is a digit or a sign. */
  lemma DigitsAreNotSpace(c: char)
    requires IsDigit(c) || c == '-' || c == '+'
    ensures c !in JsWhitespace && c !in PyWhitespace
  {
  }

  /** How many whitespace characters s starts with. */
  function LeadingSpaces(s: string, ws: set<char>): (k: nat)
    ensures k <= |s|
    ensures AllIn(s[..k], ws)
    ensures k < |s| ==> s[k] !in ws
  {
    if s != [] && s[0] in ws then
      var k := 1 + LeadingSpaces(s[1..], ws);
      assert s[..k] == [s[0]] + s[1..][..k - 1];
      k
    else 0
  }

  /** How many whitespace characters s ends with. */
  function TrailingSpaces(s: string, ws: set<char>): (k: nat)
    ensures k <= |s|
    ensures AllIn(s[|s| - k..], ws)
    ensures k < |s| ==> s[|s| - k - 1] !in ws
    decreases |s|
  {
    if s != [] && s[|s| - 1] in ws then
      var j := TrailingSpaces(s[..|s| - 1], ws);
      TrailingStep(s, ws, j);
      1 + j
    else 0
  }

  /** A whitespace character after a run of j trailing whitespace characters makes a run of j + 1. */
  lemma TrailingStep(s: string, ws: set<char>, j: nat)
    requires s != [] && s[|s| - 1] in ws
    requires j <= |s| - 1 && AllIn(s[..|s| - 1][|s| - 1 - j..], ws)
    requires j < |s| - 1 ==> s[..|s| - 1][|s| - 1 - j - 1] !in ws
    ensures AllIn(s[|s| - (j + 1)..], ws)
    ensures j + 1 < |s| ==> s[|s| - (j + 1) - 1] !in ws
  {
    var run := s[|s| - (j + 1)..];
    forall k | 0 <= k < |run| ensures run[k] in ws {
      if k < j {
        assert run[k] == s[..|s| - 1][|s| - 1 - j..][k];
      } else {
        assert run[k] == s[|s| - 1];
      }
    }
  }

  /**
   * s with whitespace removed from both ends, as Python's `str.strip()` and
   * JavaScript's `String.prototype.trim` do with their own whitespace.
   */
  function Strip(s: string, ws: set<char>): string
  {
    var t := s[LeadingSpaces(s, ws)..];
    t[..|t| - TrailingSpaces(t, ws)]
  }

  /**
   * What Strip removes and keeps: s is the stripped string with whitespace
   * on either side (i counts the characters removed in front), and the ends
   * of the stripped string are not whitespace.
   */
  lemma StripShape(s: string, ws: set<char>) returns (i: nat)
    ensures i + |Strip(s, ws)| <= |s|
    ensures s[i..i + |Strip(s, ws)|] == Strip(s, ws)
    ensures AllIn(s[..i], ws) && AllIn(s[i + |Strip(s, ws)|..], ws)
    ensures Strip(s, ws) != [] ==> Strip(s, ws)[0] !in ws && Last(Strip(s, ws)) !in ws
  {
    i := LeadingSpaces(s, ws);
    var t := s[i..];
    var j := TrailingSpaces(t, ws);
    var r := t[..|t| - j];
    assert r == Strip(s, ws);
    assert s[i..i + |r|] == r;
    assert s[i + |r|..] == t[|t| - j..];
    if r != [] {
      assert r[0] == t[0];
      assert r[|r| - 1] == t[|t| - j - 1];
    }
  }

  /** The stripped string is empty exactly when every character is whitespace. */
  lemma StripEmpty(s: string, ws: set<char>)
    ensures Strip(s, ws) == [] <==> AllIn(s, ws)
  {
    var i := StripShape(s, ws);
    if Strip(s, ws) == [] {
      forall k | 0 <= k < |s| ensures s[k] in ws {
        if k < i {
          assert s[k] == s[..i][k];
        } else {
          assert s[k] == s[i..][k - i];
        }
      }
    } else {
      assert Strip(s, ws)[0] == s[i];
    }
  }

  /** A string whose ends are not whitespace is its own strip. */
  lemma StripNoop(s: string, ws: set<char>)
    requires s != [] ==> s[0] !in ws && s[|s| - 1] !in ws
    ensures Strip(s, ws) == s
  {
  }

  predicate IsDigit(c: char)
  {
    '0' <= c <= '9'
  }

  predicate AllDigits(s: string)
  {
    forall i :: 0 <= i < |s| ==> IsDigit(s[i])
  }

  function DigitChar(d: nat): (c: char)
    requires d < 10
    ensures IsDigit(c) && c as int - '0' as int == d
  {
    ('0' as int + d) as char
  }

  /** The value of a string of decimal digits. */
  function DigitsValue(s: string): nat
    requires AllDigits(s)
  {
    if s == [] then 0 else DigitsValue(s[..|s| - 1]) * 10 + (s[|s| - 1] as int - '0' as int)
  }

  /** The decimal digits of n, without leading zeros, as Python's `str` and JavaScript's `String` print a whole number. */
  function NatText(n: nat): (r: string)
    ensures |r| >= 1 && AllDigits(r)
    ensures DigitsValue(r) == n
    ensures |r| > 1 ==> r[0] != '0'
    decreases n
  {
    if n < 10 then [DigitChar(n)]
    else
      var r := NatText(n / 10) + [DigitChar(n % 10)];
      assert r[..|r| - 1] == NatText(n / 10);
      r
  }

  /** The decimal text of an integer, with a leading `-` for negatives. */
  function IntText(n: int): (r: string)
    ensures |r| >= 1
    ensures n >= 0 ==> r == NatText(n)
    ensures n < 0 ==> r == "-" + NatText(-n)
  {
    if n < 0 then "-" + NatText(-n) else NatText(n)
  }

  /** Different whole numbers have different decimal digits. */
  lemma NatTextInjective(m: nat, n: nat)
    requires NatText(m) == NatText(n)
    ensures m == n
  {
  }
}
