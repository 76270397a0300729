/**
 * `StringUtils` of src/utils/index.ts: capitalization, initials,
 * truncation with an ellipsis and URL slugs. Each character of a string
 * counts as one code unit here.
 */
module StringUtils {
  import opened JsText

  function Min(a: int, b: int): int {
    if a < b then a else b
  }

  // ---------------------------------------------------------------------
  // capitalize

  /**
   * `capitalize`: the first character upper-cased, the rest lower-cased. A
   * leading ß upper-cases to "SS", so the result is then one longer.
   */
  function Capitalize(s: string): (r: string)
    ensures s == [] ==> r == []
    ensures |s| > 0 && s[0] != SHARP_S ==> |r| == |s| && r[0] == UpperChar(s[0])
    ensures |s| > 0 && s[0] == SHARP_S ==> |r| == |s| + 1 && r[..2] == "SS"
    ensures |s| > 0 ==> !IsAsciiLower(r[0]) && !IsLatin1Lower(r[0])
    ensures forall i :: 1 <= i < |s| ==> r[|r| - |s| + i] == LowerChar(s[i])
  {
    if s == [] then [] else Upper(s[..1]) + Lower(s[1..])
  }

  /**
   * Capitalizing twice is capitalizing once, except after a leading ß:
   * "ß" gives "SS", which capitalizes to "Ss".
   */
  lemma CapitalizeIdempotent(s: string)
    ensures Capitalize(Capitalize(s)) == Capitalize(s) <==> (s == [] || s[0] != SHARP_S)
  {
    var c := Capitalize(s);
    var cc := Capitalize(c);
    if s != [] && s[0] == SHARP_S {
      assert c[1] == 'S';
      assert cc[1] == LowerChar(c[1]) == 's';
    } else if s != [] {
      assert |cc| == |c|;
      forall i | 0 <= i < |c|
        ensures cc[i] == c[i]
      {
        if i == 0 {
          assert cc[0] == UpperChar(UpperChar(s[0]));
        } else {
          assert cc[i] == LowerChar(LowerChar(s[i]));
        }
      }
    }
  }

  // ---------------------------------------------------------------------
  // truncate

  /** The end index `slice(0, end)` uses on a string of length `n`. */
  function SliceEnd(n: nat, end: int): (k: nat)
    ensures k <= n
    ensures 0 <= end <= n ==> k == end
    ensures end < 0 ==> k == if n + end < 0 then 0 else n + end
  {
    if end < 0 then (if n + end < 0 then 0 else n + end)
    else if end > n then n
    else end
  }

  /**
   * `truncate`: a string that fits is returned as it is; a longer one
   * keeps its first `length` characters followed by `...`.
   */
  function Truncate(s: string, length: int): (r: string)
    ensures |s| <= length ==> r == s
    ensures 0 <= length < |s| ==> r == s[..length] + "..." && |r| == length + 3
    ensures length < 0 ==> r == s[..SliceEnd(|s|, length)] + "..."
  {
    if |s| <= length then s else s[..SliceEnd(|s|, length)] + "..."
  }

  /** For a non-negative length the result is at most three characters longer and starts like the input. */
  lemma TruncateBounds(s: string, length: int)
    requires length >= 0
    ensures var r := Truncate(s, length);
      && |r| <= length + 3
      && (r == s || (|r| == length + 3 && StartsWith(s, r[..length]) && r[length..] == "..."))
  {
    var r := Truncate(s, length);
    if length < |s| {
      assert r[..length] == s[..length];
    }
  }

  // ---------------------------------------------------------------------
  // getInitials

  /** The first characters of the words, in order (`word.charAt(0)` joined). */
  function Firsts(words: seq<string>): string {
    if words == [] then [] else words[0][..Min(1, |words[0]|)] + Firsts(words[1..])
  }

  /** A word starts at `i`: a non-space at the start or after a space. */
  predicate IsWordStart(s: string, i: int)
    requires 0 <= i < |s|
  {
    s[i] != ' ' && (i == 0 || s[i - 1] == ' ')
  }

  /** The characters that start a word, scanning left to right; `afterSpace` says whether a word may start at `s[0]`. */
  function WordStartsFrom(s: string, afterSpace: bool): string {
    if s == [] then []
    else (if s[0] != ' ' && afterSpace then [s[0]] else []) + WordStartsFrom(s[1..], s[0] == ' ')
  }

  function WordStarts(s: string): string {
    WordStartsFrom(s, true)
  }

  /** Splitting on spaces and taking each word's first character picks exactly the word-start characters. */
  lemma {:induction false} FirstsOfSplit(s: string)
    ensures Firsts(Split(s, ' ')) == WordStarts(s)
    ensures Firsts(Split(s, ' ')[1..]) == WordStartsFrom(s, false)
  {
    if s == [] {
    } else if s[0] == ' ' {
      FirstsOfSplit(s[1..]);
      assert Split(s, ' ')[1..] == Split(s[1..], ' ');
    } else {
      FirstsOfSplit(s[1..]);
      var t := Split(s[1..], ' ');
      assert Split(s, ' ')[1..] == t[1..];
      assert Split(s, ' ')[0][..1] == [s[0]];
    }
  }

  /** A word starts at `s[i]`, where `afterSpace` stands for the character before `s[0]`. */
  predicate StartsWordAt(s: string, i: int, afterSpace: bool)
    requires 0 <= i < |s|
  {
    s[i] != ' ' && (if i == 0 then afterSpace else s[i - 1] == ' ')
  }

  /** `c` is the character at some word start of `s`. */
  predicate IsWordStartChar(s: string, afterSpace: bool, c: char) {
    exists i :: 0 <= i < |s| && StartsWordAt(s, i, afterSpace) && s[i] == c
  }

  /** Each word-start character of `s` is a character at a word start. */
  lemma {:induction false} WordStartsFromChars(s: string, afterSpace: bool)
    ensures forall k :: 0 <= k < |WordStartsFrom(s, afterSpace)| ==>
      IsWordStartChar(s, afterSpace, WordStartsFrom(s, afterSpace)[k])
  {
    if s != [] {
      var tail := s[1..];
      WordStartsFromChars(tail, s[0] == ' ');
      var head := if s[0] != ' ' && afterSpace then [s[0]] else [];
      var r := WordStartsFrom(s, afterSpace);
      var rt := WordStartsFrom(tail, s[0] == ' ');
      assert r == head + rt;
      forall k | 0 <= k < |r|
        ensures IsWordStartChar(s, afterSpace, r[k])
      {
        if k < |head| {
          assert StartsWordAt(s, 0, afterSpace) && r[k] == s[0];
        } else {
          assert r[k] == rt[k - |head|];
          assert IsWordStartChar(tail, s[0] == ' ', rt[k - |head|]);
          var i :| 0 <= i < |tail| && StartsWordAt(tail, i, s[0] == ' ') && tail[i] == rt[k - |head|];
          assert tail[i] == s[i + 1];
          assert StartsWordAt(s, i + 1, afterSpace);
        }
      }
    }
  }

  /** `getInitials`: the upper-cased first characters of the space-separated words, at most two. */
  function Initials(name: string): (r: string)
    ensures |r| <= 2
    ensures forall k :: 0 <= k < |r| ==> !IsAsciiLower(r[k]) && !IsLatin1Lower(r[k])
  {
    var letters := Upper(Firsts(Split(name, ' ')));
    letters[..Min(2, |letters|)]
  }

  /**
   * The initials are the first two characters of the upper-cased word
   * starts; each comes from upper-casing a character at a word start (a
   * leading ß gives both letters of "SS").
   */
  lemma InitialsSpec(name: string)
    ensures var r := Initials(name);
      && r == Upper(WordStarts(name))[..Min(2, |Upper(WordStarts(name))|)]
      && |r| == Min(2, |Upper(WordStarts(name))|)
      && forall k :: 0 <= k < |r| ==> exists i :: 0 <= i < |name| && IsWordStart(name, i) && r[k] in UpperUnits(name[i])
  {
    FirstsOfSplit(name);
    WordStartsFromChars(name, true);
    var w := WordStarts(name);
    var r := Initials(name);
    assert r == Upper(w)[..Min(2, |Upper(w)|)];
    forall k | 0 <= k < |r|
      ensures exists i :: 0 <= i < |name| && IsWordStart(name, i) && r[k] in UpperUnits(name[i])
    {
      assert r[k] == Upper(w)[k];
      UpperOrigin(w, k);
      var j :| 0 <= j < |w| && Upper(w)[k] in UpperUnits(w[j]);
      assert IsWordStartChar(name, true, w[j]);
      var i :| 0 <= i < |name| && StartsWordAt(name, i, true) && name[i] == w[j];
      assert IsWordStart(name, i) && r[k] in UpperUnits(name[i]);
    }
  }

  /** Upper-casing a leading ß fills both initials: `getInitials("ß x")` is "SS". */
  lemma InitialsOfSharpS()
    ensures Initials([SHARP_S, ' ', 'x']) == "SS"
  {
    var name := [SHARP_S, ' ', 'x'];
    SplitWithoutSeparator("x", ' ');
    SplitAtFirstSeparator([SHARP_S], "x", ' ');
    assert name == [SHARP_S] + [' '] + "x";
    var ws: seq<string> := [[SHARP_S], "x"];
    assert ws[1..] == ["x"] && ["x"][1..] == [];
    assert Firsts(["x"]) == "x";
    assert Firsts(Split(name, ' ')) == [SHARP_S, 'x'];
    assert Upper([SHARP_S, 'x']) == "SSX";
  }

  // ---------------------------------------------------------------------
  // slugify

  /** `trim()`: leading and trailing white space and line terminators removed. */
  function TrimStart(s: string): (r: string)
    ensures |r| <= |s| && r == s[|s| - |r|..]
    ensures r != [] ==> !IsSpace(r[0])
  {
    if s != [] && IsSpace(s[0]) then TrimStart(s[1..]) else s
  }

  function TrimEnd(s: string): (r: string)
    ensures |r| <= |s| && r == s[..|r|]
    ensures r != [] ==> !IsSpace(r[|r| - 1])
  {
    if s != [] && IsSpace(s[|s| - 1]) then TrimEnd(s[..|s| - 1]) else s
  }

  function Trim(s: string): string {
    TrimEnd(TrimStart(s))
  }

  /** `replace(/[^\w\s-]/g, '')`: only word characters, white space and dashes stay. */
  function KeepSlugChars(s: string): (r: string)
    ensures forall i :: 0 <= i < |r| ==> IsWordChar(r[i]) || IsSpace(r[i]) || r[i] == '-'
    ensures NoUpper(s) ==> NoUpper(r)
  {
    if s == [] then []
    else (if IsWordChar(s[0]) || IsSpace(s[0]) || s[0] == '-' then [s[0]] else []) + KeepSlugChars(s[1..])
  }

  predicate NoUpper(s: string) {
    forall i :: 0 <= i < |s| ==> !IsAsciiUpper(s[i])
  }

  lemma SliceNoUpper(s: string, lo: int, hi: int)
    requires 0 <= lo <= hi <= |s| && NoUpper(s)
    ensures NoUpper(s[lo..hi])
  {
    assert forall i :: 0 <= i < hi - lo ==> s[lo..hi][i] == s[lo + i];
  }

  predicate IsSeparator(c: char) {
    IsSpace(c) || c == '_' || c == '-'
  }

  /** The input after its leading run of separators. */
  function DropSeparators(s: string): (r: string)
    ensures |r| <= |s| && r == s[|s| - |r|..]
    ensures r != [] ==> !IsSeparator(r[0])
    ensures s != [] && IsSeparator(s[0]) ==> |r| < |s|
  {
    if s != [] && IsSeparator(s[0]) then DropSeparators(s[1..]) else s
  }

  /** `replace(/[\s_-]+/g, '-')`: each maximal run of separators becomes one dash. */
  function CollapseSeparators(s: string): (r: string)
    ensures s != [] && !IsSeparator(s[0]) ==> r != [] && r[0] == s[0]
    decreases |s|
  {
    if s == [] then []
    else if IsSeparator(s[0]) then "-" + CollapseSeparators(DropSeparators(s))
    else [s[0]] + CollapseSeparators(s[1..])
  }

  function DropLeadingDashes(s: string): (r: string)
    ensures |r| <= |s| && r == s[|s| - |r|..]
    ensures r != [] ==> r[0] != '-'
  {
    if s != [] && s[0] == '-' then DropLeadingDashes(s[1..]) else s
  }

  function DropTrailingDashes(s: string): (r: string)
    ensures |r| <= |s| && r == s[..|r|]
    ensures r != [] ==> r[|r| - 1] != '-'
  {
    if s != [] && s[|s| - 1] == '-' then DropTrailingDashes(s[..|s| - 1]) else s
  }

  /** `replace(/^-+|-+$/g, '')` */
  function TrimDashes(s: string): string {
    DropTrailingDashes(DropLeadingDashes(s))
  }

  /** `slugify` */
  function Slugify(s: string): string {
    TrimDashes(CollapseSeparators(KeepSlugChars(Trim(Lower(s)))))
  }

  predicate IsSlugChar(c: char) {
    IsAsciiLower(c) || IsAsciiDigit(c) || c == '-'
  }

  predicate NoDoubleDash(s: string) {
    forall i :: 0 <= i < |s| - 1 ==> !(s[i] == '-' && s[i + 1] == '-')
  }

  /** Lower-case letters, digits and single dashes, not at either end. */
  predicate IsSlug(s: string) {
    && (forall i :: 0 <= i < |s| ==> IsSlugChar(s[i]))
    && NoDoubleDash(s)
    && (s != [] ==> s[0] != '-' && s[|s| - 1] != '-')
  }

  /** What survives lower-casing and `KeepSlugChars`. */
  predicate Kept(c: char) {
    (IsWordChar(c) && !IsAsciiUpper(c)) || IsSpace(c) || c == '-'
  }

  predicate SlugShaped(s: string) {
    (forall i :: 0 <= i < |s| ==> IsSlugChar(s[i])) && NoDoubleDash(s)
  }

  /** A slug character in front of a slug-shaped string keeps its shape unless two dashes meet. */
  lemma ConsShape(c: char, t: string)
    requires IsSlugChar(c) && SlugShaped(t)
    requires c == '-' ==> t == [] || t[0] != '-'
    ensures SlugShaped([c] + t)
  {
    var r := [c] + t;
    assert forall i :: 1 <= i < |r| ==> r[i] == t[i - 1];
  }

  lemma {:induction false} CollapseSeparatorsShape(s: string)
    requires forall i :: 0 <= i < |s| ==> Kept(s[i])
    ensures SlugShaped(CollapseSeparators(s))
    decreases |s|
  {
    if s == [] {
    } else if IsSeparator(s[0]) {
      var d := DropSeparators(s);
      assert forall i :: 0 <= i < |d| ==> d[i] == s[|s| - |d| + i];
      CollapseSeparatorsShape(d);
      ConsShape('-', CollapseSeparators(d));
    } else {
      assert forall i :: 0 <= i < |s[1..]| ==> s[1..][i] == s[i + 1];
      CollapseSeparatorsShape(s[1..]);
      ConsShape(s[0], CollapseSeparators(s[1..]));
    }
  }

  lemma SliceKeepsShape(s: string, lo: int, hi: int)
    requires 0 <= lo <= hi <= |s|
    requires SlugShaped(s)
    ensures SlugShaped(s[lo..hi])
  {
    var t := s[lo..hi];
    assert forall i :: 0 <= i < |t| ==> t[i] == s[lo + i];
  }

  /** After lower-casing, trimming and `KeepSlugChars` only kept characters remain. */
  lemma KeptBeforeCollapse(s: string)
    ensures var k := KeepSlugChars(Trim(Lower(s)));
      forall i :: 0 <= i < |k| ==> Kept(k[i])
  {
    var ls := Lower(s);
    assert NoUpper(ls);
    var ts := TrimStart(ls);
    SliceNoUpper(ls, |ls| - |ts|, |ls|);
    var t := TrimEnd(ts);
    SliceNoUpper(ts, 0, |t|);
  }

  /** Cutting the dashes off both ends of a slug-shaped string leaves a slug. */
  lemma TrimDashesIsSlug(c: string)
    requires SlugShaped(c)
    ensures IsSlug(TrimDashes(c))
  {
    var l := DropLeadingDashes(c);
    SliceKeepsShape(c, |c| - |l|, |c|);
    var r := DropTrailingDashes(l);
    SliceKeepsShape(l, 0, |r|);
  }

  /** Every slug consists of lower-case letters, digits and single inner dashes. */
  lemma SlugifyIsSlug(s: string)
    ensures IsSlug(Slugify(s))
  {
    var k := KeepSlugChars(Trim(Lower(s)));
    KeptBeforeCollapse(s);
    CollapseSeparatorsShape(k);
    TrimDashesIsSlug(CollapseSeparators(k));
  }

  // Each step leaves a slug as it is.

  lemma {:induction false} TrimStartOfSlug(s: string)
    requires s == [] || !IsSpace(s[0])
    ensures TrimStart(s) == s
  {
  }

  lemma {:induction false} KeepSlugCharsOfSlug(s: string)
    requires forall i :: 0 <= i < |s| ==> IsSlugChar(s[i])
    ensures KeepSlugChars(s) == s
  {
    if s != [] {
      KeepSlugCharsOfSlug(s[1..]);
      assert [s[0]] + s[1..] == s;
    }
  }

  /** In a slug-shaped string a separator is a single dash. */
  lemma SeparatorInSlug(s: string)
    requires SlugShaped(s) && s != [] && IsSeparator(s[0])
    ensures s[0] == '-' && DropSeparators(s) == s[1..]
  {
    var t := s[1..];
    assert IsSlugChar(s[0]);
    SlugCharSeparator(s[0]);
    if t != [] {
      assert t[0] == s[1] && IsSlugChar(s[1]);
      assert s[1] != '-';
      SlugCharSeparator(s[1]);
    }
    DropSeparatorsNone(t);
  }

  /** A string that does not start with a separator loses nothing. */
  lemma DropSeparatorsNone(s: string)
    requires s == [] || !IsSeparator(s[0])
    ensures DropSeparators(s) == s
  {
  }

  /** The only slug character that is a separator is the dash. */
  lemma SlugCharSeparator(c: char)
    requires IsSlugChar(c)
    ensures IsSeparator(c) <==> c == '-'
  {
  }

  lemma {:induction false} CollapseSeparatorsOfSlug(s: string)
    requires SlugShaped(s)
    ensures CollapseSeparators(s) == s
    decreases |s|
  {
    if s != [] {
      var t := s[1..];
      SliceKeepsShape(s, 1, |s|);
      CollapseSeparatorsOfSlug(t);
      if IsSeparator(s[0]) {
        SeparatorInSlug(s);
        assert CollapseSeparators(s) == "-" + t;
      } else {
        assert CollapseSeparators(s) == [s[0]] + t;
      }
      assert [s[0]] + t == s;
    }
  }

  /** Slugifying a slug changes nothing, so `slugify` is idempotent. */
  lemma SlugifyOfSlug(s: string)
    requires IsSlug(s)
    ensures Slugify(s) == s
  {
    assert Lower(s) == s;
    TrimStartOfSlug(s);
    assert Trim(s) == s;
    KeepSlugCharsOfSlug(s);
    CollapseSeparatorsOfSlug(s);
  }

  lemma SlugifyIdempotent(s: string)
    ensures Slugify(Slugify(s)) == Slugify(s)
  {
    SlugifyIsSlug(s);
    SlugifyOfSlug(Slugify(s));
  }
}

/** `NumberUtils.clamp` of src/utils/index.ts. */
module NumberUtils {

  /** `Math.min(Math.max(num, min), max)` */
  function Clamp(num: real, min: real, max: real): (r: real)
    ensures min <= max ==> min <= r <= max
    ensures min <= num <= max ==> r == num
    ensures num < min <= max ==> r == min
    ensures min <= max < num ==> r == max
    ensures min > max ==> r == max
  {
    var low := if num > min then num else min;
    if low < max then low else max
  }

  /** Clamping a clamped value again leaves it as it is. */
  lemma ClampIdempotent(num: real, min: real, max: real)
    requires min <= max
    ensures Clamp(Clamp(num, min, max), min, max) == Clamp(num, min, max)
  {
  }
}
