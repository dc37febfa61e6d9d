/** The regular expressions of the sign-up and login forms, written as character-class
    predicates. For the two anchored patterns (email, phone) a ghost predicate states the
    language of the expression with its free choices existentially quantified, and an
    executable predicate decides it deterministically; a lemma shows the two agree. */
module Patterns {
  import opened Text

  predicate IsAsciiLetter(c: char)
  {
    'a' <= c <= 'z' || 'A' <= c <= 'Z'
  }

  /** `[A-Z]` */
  predicate IsAsciiUpper(c: char)
  {
    'A' <= c <= 'Z'
  }

  /** `/[A-Z]/.test(s)` */
  predicate HasUpper(s: string)
  {
    exists i :: 0 <= i < |s| && IsAsciiUpper(s[i])
  }

  /** `/[0-9]/.test(s)` */
  predicate HasDigit(s: string)
  {
    exists i :: 0 <= i < |s| && IsDigit(s[i])
  }

  /** `[a-zA-Z0-9._%+-]` */
  predicate IsLocalChar(c: char)
  {
    IsAsciiLetter(c) || IsDigit(c) || c == '.' || c == '_' || c == '%' || c == '+' || c == '-'
  }

  /** `[a-zA-Z0-9.-]` */
  predicate IsDomainChar(c: char)
  {
    IsAsciiLetter(c) || IsDigit(c) || c == '.' || c == '-'
  }

  predicate AllLocal(s: string)
  {
    forall i :: 0 <= i < |s| ==> IsLocalChar(s[i])
  }

  predicate AllDomain(s: string)
  {
    forall i :: 0 <= i < |s| ==> IsDomainChar(s[i])
  }

  predicate AllLetters(s: string)
  {
    forall i :: 0 <= i < |s| ==> IsAsciiLetter(s[i])
  }

  predicate AllDigits(s: string)
  {
    forall i :: 0 <= i < |s| ==> IsDigit(s[i])
  }

  /** `^[a-zA-Z0-9._%+-]+@[a-zA-Z0-9.-]+\.[a-zA-Z]{2,}$` matches `s` with the `@` at
      position `at` and the literal `\.` at position `dot`. */
  predicate EmailMatchAt(s: string, at: int, dot: int)
  {
    0 < at && at + 1 < dot && dot + 2 < |s|
    && AllLocal(s[..at]) && s[at] == '@'
    && AllDomain(s[at + 1..dot]) && s[dot] == '.'
    && AllLetters(s[dot + 1..])
  }

  /** The language of the email expression. */
  ghost predicate EmailPattern(s: string)
  {
    exists at, dot :: EmailMatchAt(s, at, dot)
  }

  /** Position of the first `c` in `s`, or `|s|` when there is none. */
  function FirstIndexOf(s: string, c: char): (k: nat)
    ensures k <= |s| && (k < |s| ==> s[k] == c)
    ensures forall j :: 0 <= j < k ==> s[j] != c
  {
    if s == [] then 0 else if s[0] == c then 0 else 1 + FirstIndexOf(s[1..], c)
  }

  /** Position of the last `c` in `s`, or -1 when there is none. */
  function LastIndexOf(s: string, c: char): (k: int)
    ensures -1 <= k < |s| && (k >= 0 ==> s[k] == c)
    ensures forall j :: k < j < |s| ==> s[j] != c
  {
    if s == [] then -1 else if s[|s| - 1] == c then |s| - 1 else LastIndexOf(s[..|s| - 1], c)
  }

  /** Deterministic email check: no local character is `@` and no TLD character is `.`,
      so the only possible `@` is the first one and the only possible `.` the last one. */
  predicate IsEmail(s: string)
  {
    EmailMatchAt(s, FirstIndexOf(s, '@'), LastIndexOf(s, '.'))
  }

  lemma IsEmailMatchesPattern(s: string)
    ensures IsEmail(s) <==> EmailPattern(s)
  {
    if EmailPattern(s) {
      var at, dot :| EmailMatchAt(s, at, dot);
      var a := FirstIndexOf(s, '@');
      var d := LastIndexOf(s, '.');
      forall j | 0 <= j < at ensures s[j] != '@' {
        assert IsLocalChar(s[..at][j]);
      }
      assert a == at;
      forall j | dot < j < |s| ensures s[j] != '.' {
        assert IsAsciiLetter(s[dot + 1..][j - dot - 1]);
      }
      assert d == dot;
    }
  }

  /** A string with no `@` at any position counts none. */
  lemma NoAtCounted(t: string)
    requires forall j :: 0 <= j < |t| ==> t[j] != '@'
    ensures multiset(t)['@'] == 0
  {
    assert '@' !in t;
  }

  /** Whatever matches the email expression has exactly one `@`. */
  lemma EmailPatternOneAt(s: string)
    requires EmailPattern(s)
    ensures Occurrences(s, '@') == 1
  {
    var at, dot :| EmailMatchAt(s, at, dot);
    var local, rest := s[..at], s[at + 1..];
    forall j | 0 <= j < |local| ensures local[j] != '@' {
      assert IsLocalChar(local[j]);
    }
    forall j | 0 <= j < |rest| ensures rest[j] != '@' {
      var d := dot - at - 1;
      if j < d { assert rest[j] == s[at + 1..dot][j]; assert IsDomainChar(s[at + 1..dot][j]); }
      else if j > d { assert rest[j] == s[dot + 1..][j - d - 1]; assert IsAsciiLetter(s[dot + 1..][j - d - 1]); }
    }
    NoAtCounted(local);
    NoAtCounted(rest);
    assert multiset(s) == multiset(local) + multiset{'@'} + multiset(rest) by {
      assert s == local + [s[at]] + rest;
    }
  }

  /** Whatever matches the email expression holds no whitespace. */
  lemma EmailPatternNoWhitespace(s: string)
    requires EmailPattern(s)
    ensures forall i :: 0 <= i < |s| ==> !IsWhitespace(s[i])
  {
    var at, dot :| EmailMatchAt(s, at, dot);
    forall i | 0 <= i < |s| ensures !IsWhitespace(s[i]) {
      if i < at { assert IsLocalChar(s[..at][i]); }
      else if at < i < dot { assert IsDomainChar(s[at + 1..dot][i - at - 1]); }
      else if dot < i { assert IsAsciiLetter(s[dot + 1..][i - dot - 1]); }
    }
  }

  /** A string the email expression accepts is not whitespace-only. */
  lemma EmailPatternNotBlank(s: string)
    ensures EmailPattern(s) ==> !AllWhitespace(s)
  {
    if EmailPattern(s) {
      EmailPatternNoWhitespace(s);
      var at, dot :| EmailMatchAt(s, at, dot);
      assert !IsWhitespace(s[0]);
    }
  }

  /** `[-. ]` */
  predicate IsPhoneSeparator(c: char)
  {
    c == '-' || c == '.' || c == ' '
  }

  /** `^\+?([0-9]{2})[-. ]?([0-9]{4})[-. ]?([0-9]{4})$` matches `s`, where `plus`, `sep1`
      and `sep2` (each 0 or 1) say whether the `+` and the two separators are present. */
  predicate PhoneMatchWith(s: string, plus: int, sep1: int, sep2: int)
  {
    0 <= plus <= 1 && 0 <= sep1 <= 1 && 0 <= sep2 <= 1
    && |s| == plus + sep1 + sep2 + 10
    && (plus == 1 ==> s[0] == '+')
    && AllDigits(s[plus..plus + 2])
    && (sep1 == 1 ==> IsPhoneSeparator(s[plus + 2]))
    && AllDigits(s[plus + 2 + sep1..plus + 6 + sep1])
    && (sep2 == 1 ==> IsPhoneSeparator(s[plus + 6 + sep1]))
    && AllDigits(s[plus + 6 + sep1 + sep2..])
  }

  /** The language of the phone expression. */
  ghost predicate PhonePattern(s: string)
  {
    exists plus, sep1, sep2 :: PhoneMatchWith(s, plus, sep1, sep2)
  }

  /** Deterministic phone check: a digit is never `+` nor a separator, so each optional
      part is present exactly when the character at its position is that part. */
  predicate IsPhone(s: string)
  {
    var plus := if |s| > 0 && s[0] == '+' then 1 else 0;
    var sep1 := if |s| > plus + 2 && IsPhoneSeparator(s[plus + 2]) then 1 else 0;
    var sep2 := if |s| > plus + 6 + sep1 && IsPhoneSeparator(s[plus + 6 + sep1]) then 1 else 0;
    PhoneMatchWith(s, plus, sep1, sep2)
  }

  lemma IsPhoneMatchesPattern(s: string)
    ensures IsPhone(s) <==> PhonePattern(s)
  {
    if PhonePattern(s) {
      var p, x, y :| PhoneMatchWith(s, p, x, y);
      if p == 0 { assert IsDigit(s[p..p + 2][0]); }
      if x == 0 { assert IsDigit(s[p + 2 + x..p + 6 + x][0]); }
      if y == 0 { assert IsDigit(s[p + 6 + x + y..][0]); }
    }
  }

  /** A phone number the expression accepts has 10 to 13 characters. */
  lemma PhonePatternLength(s: string)
    requires PhonePattern(s)
    ensures 10 <= |s| <= 13
  {
  }
}
