/** The contact form's e-mail check: script.js tests an address against the
    regular expression  ^[^\s@]+@[^\s@]+\.[^\s@]+$  . The pattern is taken as
    written (it is not an address grammar); `\s` is the ECMAScript class of
    white space and line terminators. */
module EmailValidation {

  /** Membership in the ECMAScript `\s` class (WhiteSpace and LineTerminator). */
  predicate IsWhitespace(c: char) {
    c == '\t' || c == '\n' || c == '\U{000B}' || c == '\U{000C}' || c == '\r' ||
    c == ' ' || c == '\U{00A0}' || c == '\U{1680}' ||
    ('\U{2000}' <= c <= '\U{200A}') ||
    c == '\U{2028}' || c == '\U{2029}' || c == '\U{202F}' || c == '\U{205F}' ||
    c == '\U{3000}' || c == '\U{FEFF}'
  }

  /** The character class `[^\s@]`. */
  predicate IsPlainChar(c: char) {
    !IsWhitespace(c) && c != '@'
  }

  /** Every character of `s` is in `[^\s@]`. */
  predicate AllPlain(s: string) {
    forall j :: 0 <= j < |s| ==> IsPlainChar(s[j])
  }

  /** One way of matching the whole pattern against `s`: the `@` sits at index
      `at`, the `.` matched by `\.` at index `dot`, and the three runs
      `[^\s@]+` are s[..at], s[at+1..dot] and s[dot+1..]. */
  predicate MatchAt(s: string, at: int, dot: int) {
    0 < at && at + 1 < dot && dot + 1 < |s| &&
    s[at] == '@' && s[dot] == '.' &&
    AllPlain(s[..at]) && AllPlain(s[at + 1..dot]) && AllPlain(s[dot + 1..])
  }

  /** isValidEmail: the anchored pattern matches `s` (some split of `s` fits it). */
  predicate IsValidEmail(s: string) {
    exists at, dot | 0 <= at < |s| && 0 <= dot < |s| :: MatchAt(s, at, dot)
  }

  /** Number of occurrences of `c` in `s`. */
  function Count(s: string, c: char): (n: nat)
    ensures n <= |s|
  {
    if s == [] then 0 else (if s[0] == c then 1 else 0) + Count(s[1..], c)
  }

  lemma {:induction false} CountAppend(a: string, b: string, c: char)
    ensures Count(a + b, c) == Count(a, c) + Count(b, c)
  {
    if a == [] {
      assert a + b == b;
    } else {
      assert (a + b)[1..] == a[1..] + b;
      CountAppend(a[1..], b, c);
    }
  }

  lemma {:induction false} CountZero(s: string, c: char)
    ensures Count(s, c) == 0 <==> forall j :: 0 <= j < |s| ==> s[j] != c
  {
    if s != [] {
      CountZero(s[1..], c);
      assert forall j :: 1 <= j < |s| ==> s[j] == s[1..][j - 1];
    }
  }

  /** The address contains no character of `\s`. */
  predicate NoWhitespace(s: string) {
    forall j :: 0 <= j < |s| ==> !IsWhitespace(s[j])
  }

  /** `d` has a `.` with at least one character on each side of it. */
  predicate HasInnerDot(d: string) {
    exists k :: 0 < k < |d| - 1 && d[k] == '.'
  }

  /** The character-level reading of the pattern: no white space, exactly one
      `@`, something before it, and after it a `.` that is neither first nor
      last. */
  predicate WellShaped(s: string) {
    NoWhitespace(s) && Count(s, '@') == 1 &&
    exists at :: 0 < at < |s| && s[at] == '@' && HasInnerDot(s[at + 1..])
  }

  /** The pattern matches exactly the well-shaped strings. */
  lemma EmailCharacterization(s: string)
    ensures IsValidEmail(s) <==> WellShaped(s)
  {
    if IsValidEmail(s) {
      var at, dot :| 0 <= at < |s| && 0 <= dot < |s| && MatchAt(s, at, dot);
      MatchIsWellShaped(s, at, dot);
    }
    if WellShaped(s) {
      var at :| 0 < at < |s| && s[at] == '@' && HasInnerDot(s[at + 1..]);
      var k :| 0 < k < |s[at + 1..]| - 1 && s[at + 1..][k] == '.';
      WellShapedMatches(s, at, at + 1 + k);
    }
  }

  lemma MatchIsWellShaped(s: string, at: int, dot: int)
    requires MatchAt(s, at, dot)
    ensures WellShaped(s)
  {
    var a, b, c := s[..at], s[at + 1..dot], s[dot + 1..];
    assert s == a + ['@'] + b + ['.'] + c;
    forall j | 0 <= j < |s| ensures !IsWhitespace(s[j]) {
      if j < at { assert s[j] == a[j]; }
      else if at < j < dot { assert s[j] == b[j - at - 1]; }
      else if dot < j { assert s[j] == c[j - dot - 1]; }
    }
    CountZero(a, '@');
    CountZero(b, '@');
    CountZero(c, '@');
    CountAppend(a, ['@'], '@');
    CountAppend(a + ['@'], b, '@');
    CountAppend(a + ['@'] + b, ['.'], '@');
    CountAppend(a + ['@'] + b + ['.'], c, '@');
    assert Count(['@'], '@') == 1;
    assert Count(['.'], '@') == 0;
    var d := s[at + 1..];
    assert d[dot - at - 1] == '.';
    assert HasInnerDot(d);
  }

  lemma WellShapedMatches(s: string, at: int, dot: int)
    requires NoWhitespace(s) && Count(s, '@') == 1
    requires 0 < at && at + 1 < dot && dot + 1 < |s| && s[at] == '@' && s[dot] == '.'
    ensures IsValidEmail(s)
  {
    var a, b := s[..at], s[at + 1..];
    assert s == a + ['@'] + b;
    CountAppend(a, ['@'], '@');
    CountAppend(a + ['@'], b, '@');
    assert Count(['@'], '@') == 1;
    CountZero(a, '@');
    CountZero(b, '@');
    forall j | 0 <= j < |s| && j != at ensures s[j] != '@' {
      if j < at { assert s[j] == a[j]; } else { assert s[j] == b[j - at - 1]; }
    }
    assert MatchAt(s, at, dot);
  }
}
