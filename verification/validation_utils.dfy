/**
 * `ValidationUtils` of src/utils/index.ts: the e-mail shape test and the
 * password-strength report.
 */
module ValidationUtils {
  import opened JsText

  // ---------------------------------------------------------------------
  // isValidEmail

  /** One part of `/^[^\s@]+@[^\s@]+\.[^\s@]+$/`: non-empty, no white space, no `@`. */
  predicate EmailPart(s: string) {
    |s| > 0 && forall i :: 0 <= i < |s| ==> !IsSpace(s[i]) && s[i] != '@'
  }

  /** `s` reads local `@` domain `.` suffix, with the `@` at `at` and the `.` at `dot`. */
  predicate EmailShape(s: string, at: int, dot: int) {
    && 0 <= at < dot < |s|
    && s[at] == '@' && s[dot] == '.'
    && EmailPart(s[..at]) && EmailPart(s[at + 1..dot]) && EmailPart(s[dot + 1..])
  }

  /** `s.indexOf(c)`, or `|s|` when `c` does not occur. */
  function IndexOf(s: string, c: char): (k: nat)
    ensures k <= |s|
    ensures k < |s| ==> s[k] == c
    ensures c !in s[..k]
  {
    if s == [] || s[0] == c then 0
    else
      var k := 1 + IndexOf(s[1..], c);
      assert s[..k] == [s[0]] + s[1..][..k - 1];
      k
  }

  lemma IndexOfFirst(s: string, c: char, k: int)
    requires 0 <= k < |s| && s[k] == c && c !in s[..k]
    ensures IndexOf(s, c) == k
  {
  }

  /**
   * `isValidEmail`, decided in one pass: no white space, exactly one `@`
   * and not first, and a `.` in the domain with something on both sides.
   */
  predicate IsValidEmail(s: string) {
    var at := IndexOf(s, '@');
    && (forall i :: 0 <= i < |s| ==> !IsSpace(s[i]))
    && 0 < at
    && at + 3 <= |s|
    && '@' !in s[at + 1..]
    && '.' in s[at + 2..|s| - 1]
  }

  /** A string the one-pass test accepts splits into the three parts at its `@` and a later `.`. */
  lemma ValidEmailHasShape(s: string)
    requires IsValidEmail(s)
    ensures exists at, dot :: EmailShape(s, at, dot)
  {
    var at := IndexOf(s, '@');
    var mid := s[at + 2..|s| - 1];
    var j :| 0 <= j < |mid| && mid[j] == '.';
    var dot := at + 2 + j;
    assert s[dot] == '.';
    forall n | 0 <= n < at ensures s[n] != '@' {
      assert s[n] == s[..at][n];
    }
    forall n | at + 1 <= n < |s| ensures s[n] != '@' {
      assert s[n] == s[at + 1..][n - at - 1];
    }
    assert EmailShape(s, at, dot);
  }

  /** In a string of the three parts, no character is white space. */
  lemma ShapeHasNoSpace(s: string, a: int, d: int)
    requires EmailShape(s, a, d)
    ensures forall i :: 0 <= i < |s| ==> !IsSpace(s[i])
  {
    forall i | 0 <= i < |s| ensures !IsSpace(s[i]) {
      if i < a {
        assert s[i] == s[..a][i];
      } else if a < i < d {
        assert s[i] == s[a + 1..d][i - a - 1];
      } else if d < i {
        assert s[i] == s[d + 1..][i - d - 1];
      }
    }
  }

  /** In a string of the three parts, the `@` at `a` is the only one. */
  lemma ShapeHasOneAt(s: string, a: int, d: int)
    requires EmailShape(s, a, d)
    ensures IndexOf(s, '@') == a
    ensures '@' !in s[a + 1..]
  {
    assert '@' !in s[..a] by {
      forall i | 0 <= i < a ensures s[..a][i] != '@' {
        assert s[..a][i] == s[..a][i];
      }
    }
    IndexOfFirst(s, '@', a);
    forall n | a + 1 <= n < |s| ensures s[n] != '@' {
      if n < d {
        assert s[n] == s[a + 1..d][n - a - 1];
      } else if d < n {
        assert s[n] == s[d + 1..][n - d - 1];
      }
    }
    var rest := s[a + 1..];
    forall i | 0 <= i < |rest| ensures rest[i] != '@' {
      assert rest[i] == s[a + 1 + i];
    }
  }

  /** The one-pass test accepts exactly the strings the regular expression matches. */
  lemma IsValidEmailSpec(s: string)
    ensures IsValidEmail(s) <==> exists at, dot :: EmailShape(s, at, dot)
  {
    if IsValidEmail(s) {
      ValidEmailHasShape(s);
    }
    if exists a, d :: EmailShape(s, a, d) {
      var a, d :| EmailShape(s, a, d);
      ShapeHasNoSpace(s, a, d);
      ShapeHasOneAt(s, a, d);
      assert s[a + 2..|s| - 1][d - a - 2] == '.';
    }
  }

  // ---------------------------------------------------------------------
  // validatePassword

  /** The strength rules, in the order they are checked. */
  datatype PasswordRule = MinLength | HasUppercase | HasLowercase | HasDigit | HasSpecial

  const RULE_ORDER: seq<PasswordRule> := [MinLength, HasUppercase, HasLowercase, HasDigit, HasSpecial]

  /** The characters of the class `[!@#$%^&*(),.?":{}|<>]`. */
  const SPECIAL_CHARS: string := "!@#$%^&*(),.?\":{}|<>"

  predicate HasCharWhere(s: string, cls: char -> bool) {
    exists i :: 0 <= i < |s| && cls(s[i])
  }

  predicate IsSpecialChar(c: char) {
    c in SPECIAL_CHARS
  }

  predicate Satisfies(password: string, rule: PasswordRule) {
    match rule
    case MinLength => Utf16Length(password) >= 8
    case HasUppercase => HasCharWhere(password, IsAsciiUpper)
    case HasLowercase => HasCharWhere(password, IsAsciiLower)
    case HasDigit => HasCharWhere(password, IsAsciiDigit)
    case HasSpecial => HasCharWhere(password, IsSpecialChar)
  }

  function Message(rule: PasswordRule): string {
    match rule
    case MinLength => "Password must be at least 8 characters long"
    case HasUppercase => "Password must contain at least one uppercase letter"
    case HasLowercase => "Password must contain at least one lowercase letter"
    case HasDigit => "Password must contain at least one number"
    case HasSpecial => "Password must contain at least one special character"
  }

  /** The rules `password` breaks. */
  function BrokenBy(password: string): PasswordRule -> bool {
    rule => !Satisfies(password, rule)
  }

  /** The messages of the rules among the first `k` that `broken` flags, in rule order. */
  function ErrorsUpTo(broken: PasswordRule -> bool, k: nat): (errors: seq<string>)
    requires k <= |RULE_ORDER|
    ensures |errors| <= k
  {
    if k == 0 then []
    else
      var rule := RULE_ORDER[k - 1];
      ErrorsUpTo(broken, k - 1) + (if broken(rule) then [Message(rule)] else [])
  }

  /** The messages of all the rules the password breaks. */
  function PasswordErrors(password: string): seq<string> {
    ErrorsUpTo(BrokenBy(password), |RULE_ORDER|)
  }

  /** A rule's position in `RULE_ORDER`. */
  function Rank(rule: PasswordRule): (k: nat)
    ensures k < |RULE_ORDER| && RULE_ORDER[k] == rule
  {
    match rule
    case MinLength => 0
    case HasUppercase => 1
    case HasLowercase => 2
    case HasDigit => 3
    case HasSpecial => 4
  }

  /** Each position of `RULE_ORDER` holds the rule of that rank, so no rule appears twice. */
  lemma RankOfListed(k: int)
    requires 0 <= k < |RULE_ORDER|
    ensures Rank(RULE_ORDER[k]) == k
  {
  }

  lemma RankInjective(r1: PasswordRule, r2: PasswordRule)
    ensures Rank(r1) == Rank(r2) <==> r1 == r2
  {
  }

  /** Character 37 of each rule's message; no two rules share it. */
  function Mark(rule: PasswordRule): char {
    match rule
    case MinLength => 's'
    case HasUppercase => 'p'
    case HasLowercase => 'w'
    case HasDigit => 'm'
    case HasSpecial => 'e'
  }

  lemma MessageMark(rule: PasswordRule)
    ensures |Message(rule)| > 37 && Message(rule)[37] == Mark(rule)
  {
    match rule
    case MinLength =>
    case HasUppercase =>
    case HasLowercase =>
    case HasDigit =>
    case HasSpecial =>
  }

  /** Different rules have different messages. */
  lemma MessageInjective(r1: PasswordRule, r2: PasswordRule)
    ensures Message(r1) == Message(r2) <==> r1 == r2
  {
    MessageMark(r1);
    MessageMark(r2);
  }

  /** Going from `k - 1` to `k` rules adds the message of rule `k - 1` if it is flagged, and no other. */
  lemma ErrorsUpToStep(broken: PasswordRule -> bool, k: nat, r: PasswordRule)
    requires 0 < k <= |RULE_ORDER|
    requires Message(r) in ErrorsUpTo(broken, k - 1) <==> Rank(r) < k - 1 && broken(r)
    ensures Message(r) in ErrorsUpTo(broken, k) <==> Rank(r) < k && broken(r)
  {
    var rule := RULE_ORDER[k - 1];
    RankOfListed(k - 1);
    RankInjective(r, rule);
    MessageInjective(r, rule);
    var extra := if broken(rule) then [Message(rule)] else [];
    assert ErrorsUpTo(broken, k) == ErrorsUpTo(broken, k - 1) + extra;
    assert Message(r) in extra <==> broken(rule) && r == rule;
  }

  /** Among the first `k` rules, a rule's message is listed exactly when the rule is flagged. */
  lemma {:induction false} ErrorsUpToSpec(broken: PasswordRule -> bool, k: nat)
    requires k <= |RULE_ORDER|
    ensures forall r :: Message(r) in ErrorsUpTo(broken, k) <==> Rank(r) < k && broken(r)
  {
    if k > 0 {
      ErrorsUpToSpec(broken, k - 1);
      forall r ensures Message(r) in ErrorsUpTo(broken, k) <==> Rank(r) < k && broken(r) {
        ErrorsUpToStep(broken, k, r);
      }
    }
  }

  /** The list for the first `k` rules is empty exactly when none of them is flagged. */
  lemma {:induction false} ErrorsUpToEmpty(broken: PasswordRule -> bool, k: nat)
    requires k <= |RULE_ORDER|
    ensures ErrorsUpTo(broken, k) == [] <==> forall r :: Rank(r) < k ==> !broken(r)
  {
    if k > 0 {
      ErrorsUpToEmpty(broken, k - 1);
      var rule := RULE_ORDER[k - 1];
      RankOfListed(k - 1);
      assert ErrorsUpTo(broken, k) == [] <==> ErrorsUpTo(broken, k - 1) == [] && !broken(rule);
      assert (forall r :: Rank(r) < k ==> !broken(r)) <==>
        (forall r :: Rank(r) < k - 1 ==> !broken(r)) && !broken(rule);
    }
  }

  /** A rule's message is reported exactly when the password breaks the rule; none is reported exactly when it breaks none. */
  lemma PasswordErrorsSpec(password: string)
    ensures forall r :: Message(r) in PasswordErrors(password) <==> !Satisfies(password, r)
    ensures PasswordErrors(password) == [] <==> forall r :: Satisfies(password, r)
  {
    ErrorsUpToSpec(BrokenBy(password), |RULE_ORDER|);
    ErrorsUpToEmpty(BrokenBy(password), |RULE_ORDER|);
  }

  /**
   * `validatePassword`: one message per broken rule, in the order length,
   * upper-case, lower-case, digit, special character; valid exactly when
   * no rule is broken.
   */
  method ValidatePassword(password: string) returns (isValid: bool, errors: seq<string>)
    ensures errors == PasswordErrors(password)
    ensures isValid <==> errors == []
  {
    errors := [];
    if Utf16Length(password) < 8 {
      errors := errors + [Message(MinLength)];
    }
    assert errors == ErrorsUpTo(BrokenBy(password), 1);
    if !HasCharWhere(password, IsAsciiUpper) {
      errors := errors + [Message(HasUppercase)];
    }
    assert errors == ErrorsUpTo(BrokenBy(password), 2);
    if !HasCharWhere(password, IsAsciiLower) {
      errors := errors + [Message(HasLowercase)];
    }
    assert errors == ErrorsUpTo(BrokenBy(password), 3);
    if !HasCharWhere(password, IsAsciiDigit) {
      errors := errors + [Message(HasDigit)];
    }
    assert errors == ErrorsUpTo(BrokenBy(password), 4);
    if !HasCharWhere(password, IsSpecialChar) {
      errors := errors + [Message(HasSpecial)];
    }
    assert errors == ErrorsUpTo(BrokenBy(password), 5);
    isValid := |errors| == 0;
  }
}

/** `DateUtils.getTimeAgo` of src/utils/index.ts, on millisecond timestamps. */
module DateUtils {
  import opened JsText

  /** How long ago a moment was, as `getTimeAgo` buckets it. */
  datatype TimeAgo = JustNow | MinutesAgo(n: int) | HoursAgo(n: int) | DaysAgo(n: int) | WeeksAgo(n: int) | Older

  /** The bucket, by successive floor divisions as in the source. */
  function TimeAgoBucket(dateMs: int, nowMs: int): TimeAgo {
    var seconds := (nowMs - dateMs) / 1000;
    if seconds < 60 then JustNow
    else
      var minutes := seconds / 60;
      if minutes < 60 then MinutesAgo(minutes)
      else
        var hours := minutes / 60;
        if hours < 24 then HoursAgo(hours)
        else
          var days := hours / 24;
          if days < 7 then DaysAgo(days)
          else
            var weeks := days / 7;
            if weeks < 4 then WeeksAgo(weeks) else Older
  }

  /**
   * `getTimeAgo`: `now`, `Nm`, `Nh`, `Nd`, `Nw`, or the date as
   * `format(date, 'MMM dd')` renders it (the parameter `monthDay`).
   */
  function GetTimeAgo(dateMs: int, nowMs: int, monthDay: string): (r: string)
    ensures TimeAgoBucket(dateMs, nowMs) != Older ==> (r == "now" <==> nowMs - dateMs < 60000)
    ensures TimeAgoBucket(dateMs, nowMs) == Older ==> r == monthDay
    ensures TimeAgoBucket(dateMs, nowMs).MinutesAgo? ==> r == IntToString(TimeAgoBucket(dateMs, nowMs).n) + "m"
    ensures TimeAgoBucket(dateMs, nowMs).HoursAgo? ==> r == IntToString(TimeAgoBucket(dateMs, nowMs).n) + "h"
    ensures TimeAgoBucket(dateMs, nowMs).DaysAgo? ==> r == IntToString(TimeAgoBucket(dateMs, nowMs).n) + "d"
    ensures TimeAgoBucket(dateMs, nowMs).WeeksAgo? ==> r == IntToString(TimeAgoBucket(dateMs, nowMs).n) + "w"
  {
    TimeAgoBucketSpec(dateMs, nowMs);
    match TimeAgoBucket(dateMs, nowMs)
    case JustNow => "now"
    case MinutesAgo(n) => WithUnit(n, 'm')
    case HoursAgo(n) => WithUnit(n, 'h')
    case DaysAgo(n) => WithUnit(n, 'd')
    case WeeksAgo(n) => WithUnit(n, 'w')
    case Older => monthDay
  }

  /** `${n}` followed by a unit letter; never reads `now`. */
  function WithUnit(n: int, unit: char): (r: string)
    ensures r != "now"
  {
    var digits := IntToString(n);
    var r := digits + [unit];
    assert r[0] == digits[0] && (digits[0] == '-' || IsAsciiDigit(digits[0]));
    r
  }

  /**
   * The buckets are fixed windows of the elapsed whole seconds `s`, each
   * count is `s` divided by the bucket's unit, rounded down, and each
   * count lies between 1 and one less than the next unit.
   */
  lemma TimeAgoBucketSpec(dateMs: int, nowMs: int)
    ensures var s := (nowMs - dateMs) / 1000;
      var b := TimeAgoBucket(dateMs, nowMs);
      && (b == JustNow <==> nowMs - dateMs < 60000)
      && (b.MinutesAgo? <==> 60 <= s < 3600) && (b.MinutesAgo? ==> b.n == s / 60 && 1 <= b.n <= 59)
      && (b.HoursAgo? <==> 3600 <= s < 86400) && (b.HoursAgo? ==> b.n == s / 3600 && 1 <= b.n <= 23)
      && (b.DaysAgo? <==> 86400 <= s < 604800) && (b.DaysAgo? ==> b.n == s / 86400 && 1 <= b.n <= 6)
      && (b.WeeksAgo? <==> 604800 <= s < 2419200) && (b.WeeksAgo? ==> b.n == s / 604800 && 1 <= b.n <= 3)
      && (b == Older <==> s >= 2419200)
  {
    var s := (nowMs - dateMs) / 1000;
    assert s < 60 <==> nowMs - dateMs < 60000;
    if s >= 60 {
      var m := s / 60;
      var h := m / 60;
      assert h == s / 3600;
      var d := h / 24;
      assert d == s / 86400;
      var w := d / 7;
      assert w == s / 604800;
    }
  }

  /** A later clock never moves a moment into a more recent bucket. */
  lemma TimeAgoMonotone(dateMs: int, now1: int, now2: int)
    requires now1 <= now2
    ensures Rank(TimeAgoBucket(dateMs, now1)) <= Rank(TimeAgoBucket(dateMs, now2))
  {
    TimeAgoBucketSpec(dateMs, now1);
    TimeAgoBucketSpec(dateMs, now2);
    assert (now1 - dateMs) / 1000 <= (now2 - dateMs) / 1000;
  }

  function Rank(b: TimeAgo): int {
    match b
    case JustNow => 0
    case MinutesAgo(_) => 1
    case HoursAgo(_) => 2
    case DaysAgo(_) => 3
    case WeeksAgo(_) => 4
    case Older => 5
  }
}
