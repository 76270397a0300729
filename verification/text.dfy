/**
 * The pieces of JavaScript's string semantics the application relies on:
 * character classes of its regular expressions, `toLowerCase`/`toUpperCase`
 * on ASCII and Latin-1 (with ß upper-casing to "SS"), `length` in UTF-16
 * code units, `startsWith`, `includes`, `split` and `join` on one separator character, and the
 * decimal rendering of integers in template literals.
 */
module JsText {

  // ---------------------------------------------------------------------
  // Character classes

  predicate IsAsciiUpper(c: char) { 'A' <= c <= 'Z' }
  predicate IsAsciiLower(c: char) { 'a' <= c <= 'z' }
  predicate IsAsciiDigit(c: char) { '0' <= c <= '9' }

  /** `\w` in a JavaScript regular expression without the `u` flag. */
  predicate IsWordChar(c: char) {
    IsAsciiUpper(c) || IsAsciiLower(c) || IsAsciiDigit(c) || c == '_'
  }

  /** `\s` in a JavaScript regular expression; also what `trim` removes. */
  predicate IsSpace(c: char) {
    || c == ' ' || c == '\t' || c == '\n' || c == '\r'
    || c == '\U{000B}' || c == '\U{000C}' || c == '\U{00A0}' || c == '\U{1680}'
    || ('\U{2000}' <= c <= '\U{200A}')
    || c == '\U{2028}' || c == '\U{2029}' || c == '\U{202F}' || c == '\U{205F}'
    || c == '\U{3000}' || c == '\U{FEFF}'
  }

  /** Upper-case letters of the Latin-1 Supplement (À..Þ without ×). */
  predicate IsLatin1Upper(c: char) { '\U{00C0}' <= c <= '\U{00DE}' && c != '\U{00D7}' }
  /** Lower-case letters of the Latin-1 Supplement: the micro sign µ and ß..ÿ without ÷. */
  predicate IsLatin1Lower(c: char) { c == '\U{00B5}' || ('\U{00DF}' <= c <= '\U{00FF}' && c != '\U{00F7}') }

  const SHARP_S: char := '\U{00DF}'

  // ---------------------------------------------------------------------
  // Case mapping

  /**
   * `toLowerCase` of one character: ASCII and Latin-1 capitals, and the two
   * capitals outside Latin-1 that Latin-1 letters upper-case to (Ÿ and Μ).
   */
  function LowerChar(c: char): (r: char)
    ensures !IsAsciiUpper(r) && !IsLatin1Upper(r)
  {
    if IsAsciiUpper(c) || IsLatin1Upper(c) then (c as int + 32) as char
    else if c == '\U{0178}' then '\U{00FF}'
    else if c == '\U{039C}' then '\U{03BC}'
    else c
  }

  /**
   * `toUpperCase` of one character other than ß: ASCII and à..þ move down
   * by 32, ÿ becomes Ÿ (U+0178) and µ becomes Greek capital Mu (U+039C).
   */
  function UpperChar(c: char): (r: char)
    ensures c != SHARP_S ==> !IsAsciiLower(r) && !IsLatin1Lower(r)
    ensures r == SHARP_S <==> c == SHARP_S
  {
    if IsAsciiLower(c) || ('\U{00E0}' <= c <= '\U{00FE}' && c != '\U{00F7}') then (c as int - 32) as char
    else if c == '\U{00FF}' then '\U{0178}'
    else if c == '\U{00B5}' then '\U{039C}'
    else c
  }

  /** The full upper-case mapping of one character: ß becomes the two letters "SS". */
  function UpperUnits(c: char): (r: string)
    ensures 1 <= |r| <= 2
    ensures forall k :: 0 <= k < |r| ==> !IsAsciiLower(r[k]) && !IsLatin1Lower(r[k])
    ensures c != SHARP_S ==> r == [UpperChar(c)]
  {
    if c == SHARP_S then "SS" else [UpperChar(c)]
  }

  /** `s.toLowerCase()` */
  function Lower(s: string): (r: string)
    ensures |r| == |s|
    ensures forall i :: 0 <= i < |s| ==> r[i] == LowerChar(s[i])
  {
    seq(|s|, i requires 0 <= i < |s| => LowerChar(s[i]))
  }

  /**
   * `s.toUpperCase()`: every character replaced by its full upper-case
   * mapping, so the result has no lower-case letter and is one longer for
   * every ß; without ß it maps character by character.
   */
  function Upper(s: string): (r: string)
    ensures |s| <= |r| <= 2 * |s|
    ensures forall k :: 0 <= k < |r| ==> !IsAsciiLower(r[k]) && !IsLatin1Lower(r[k])
    ensures SHARP_S !in s ==> |r| == |s| && forall i :: 0 <= i < |s| ==> r[i] == UpperChar(s[i])
  {
    if s == [] then [] else UpperUnits(s[0]) + Upper(s[1..])
  }

  /** Every character of `Upper(s)` comes from the upper-case mapping of a character of `s`. */
  lemma {:induction false} UpperOrigin(s: string, k: int)
    requires 0 <= k < |Upper(s)|
    ensures exists i :: 0 <= i < |s| && Upper(s)[k] in UpperUnits(s[i])
  {
    var u := UpperUnits(s[0]);
    if k < |u| {
      assert Upper(s)[k] in UpperUnits(s[0]);
    } else {
      UpperOrigin(s[1..], k - |u|);
      var i :| 0 <= i < |s[1..]| && Upper(s[1..])[k - |u|] in UpperUnits(s[1..][i]);
      assert Upper(s)[k] in UpperUnits(s[i + 1]);
    }
  }

  lemma LowerIdempotent(s: string)
    ensures Lower(Lower(s)) == Lower(s)
  {
  }

  // ---------------------------------------------------------------------
  // Length, prefixes and substrings

  /** `s.length`: UTF-16 code units, two for a character outside the BMP. */
  function Utf16Length(s: string): (n: nat)
    ensures |s| <= n <= 2 * |s|
  {
    if s == [] then 0 else (if s[0] as int > 0xFFFF then 2 else 1) + Utf16Length(s[1..])
  }

  /** `s.startsWith(prefix)` */
  predicate StartsWith(s: string, prefix: string) {
    |prefix| <= |s| && s[..|prefix|] == prefix
  }

  /** `s.includes(sub)` */
  predicate Contains(s: string, sub: string)
    decreases |s|
  {
    StartsWith(s, sub) || (|s| > 0 && Contains(s[1..], sub))
  }

  /** A string that contains `sub` contains every prefix of `sub`. */
  lemma {:induction false} ContainsPrefix(s: string, sub: string, p: string)
    requires StartsWith(sub, p)
    requires Contains(s, sub)
    ensures Contains(s, p)
    decreases |s|
  {
    if StartsWith(s, sub) {
      assert s[..|p|] == sub[..|p|];
    } else {
      ContainsPrefix(s[1..], sub, p);
    }
  }

  // ---------------------------------------------------------------------
  // split / join on one separator character

  /** `s.split(d)` for a one-character separator: never empty, `"".split(d) == [""]`. */
  function Split(s: string, d: char): (r: seq<string>)
    ensures |r| >= 1
  {
    if s == [] then [[]]
    else if s[0] == d then [[]] + Split(s[1..], d)
    else
      var t := Split(s[1..], d);
      [[s[0]] + t[0]] + t[1..]
  }

  /**
   * The first piece of a split is the longest prefix free of the
   * separator: the whole string when it has none, otherwise the text up to
   * the first separator.
   */
  lemma {:induction false} SplitFirstPiece(s: string, d: char)
    ensures var p := Split(s, d)[0];
      && |p| <= |s| && s[..|p|] == p
      && d !in p
      && (|p| < |s| ==> s[|p|] == d)
  {
    if s != [] && s[0] != d {
      var t := Split(s[1..], d);
      SplitFirstPiece(s[1..], d);
      var p := [s[0]] + t[0];
      assert Split(s, d)[0] == p;
      assert s[..|p|] == [s[0]] + s[1..][..|t[0]|];
    }
  }

  /** `s.split(d)[0]` is all of `s` when `s` has no separator. */
  lemma SplitFirstPieceWhole(s: string, d: char)
    requires d !in s
    ensures Split(s, d)[0] == s
  {
    SplitFirstPiece(s, d);
  }

  /** `xs.join(d)` */
  function Join(xs: seq<string>, d: char): string {
    if |xs| == 0 then ""
    else if |xs| == 1 then xs[0]
    else xs[0] + [d] + Join(xs[1..], d)
  }

  predicate NoneContains(xs: seq<string>, d: char) {
    forall i :: 0 <= i < |xs| ==> d !in xs[i]
  }

  /** Joining pieces free of a character with a different separator leaves the character out. */
  lemma {:induction false} JoinAvoids(xs: seq<string>, d: char, c: char)
    requires d != c
    requires NoneContains(xs, c)
    ensures c !in Join(xs, d)
  {
    if |xs| > 1 {
      JoinAvoids(xs[1..], d, c);
      assert forall i :: 0 <= i < |xs[1..]| ==> xs[1..][i] == xs[i + 1];
    }
  }

  lemma {:induction false} SplitWithoutSeparator(s: string, d: char)
    requires d !in s
    ensures Split(s, d) == [s]
  {
    if s != [] {
      assert s[0] != d;
      SplitWithoutSeparator(s[1..], d);
      assert [s[0]] + s[1..] == s;
    }
  }

  lemma {:induction false} SplitAtFirstSeparator(a: string, rest: string, d: char)
    requires d !in a
    ensures Split(a + [d] + rest, d) == [a] + Split(rest, d)
  {
    if a == [] {
      assert a + [d] + rest == [d] + rest;
    } else {
      SplitAtFirstSeparator(a[1..], rest, d);
      assert (a + [d] + rest)[1..] == a[1..] + [d] + rest;
      assert [a[0]] + a[1..] == a;
    }
  }

  /** Splitting a join recovers the pieces when no piece holds the separator. */
  lemma {:induction false} SplitJoin(xs: seq<string>, d: char)
    requires |xs| >= 1
    requires NoneContains(xs, d)
    ensures Split(Join(xs, d), d) == xs
  {
    if |xs| == 1 {
      SplitWithoutSeparator(xs[0], d);
    } else {
      SplitJoin(xs[1..], d);
      SplitAtFirstSeparator(xs[0], Join(xs[1..], d), d);
      assert [xs[0]] + xs[1..] == xs;
    }
  }

  // ---------------------------------------------------------------------
  // Integers in template literals

  function DigitChar(n: nat): char
    requires n < 10
  {
    "0123456789"[n]
  }

  /** `${n}` for a non-negative integer. */
  function NatToString(n: nat): (s: string)
    ensures |s| >= 1
    ensures forall i :: 0 <= i < |s| ==> IsAsciiDigit(s[i])
  {
    if n < 10 then [DigitChar(n)] else NatToString(n / 10) + [DigitChar(n % 10)]
  }

  /** `${i}` for an integer. */
  function IntToString(i: int): (s: string)
    ensures |s| >= 1 && (s[0] == '-' || IsAsciiDigit(s[0]))
  {
    if i < 0 then "-" + NatToString(-i) else NatToString(i)
  }
}
