/** The e-mail check shared by the login and registration pages: not blank, and a
    match of the anchored pattern `^[a-zA-Z0-9._%+-]+@[a-zA-Z0-9.-]+\.[a-zA-Z]{2,}$`.

    The pattern is given twice: `PatternIsMatch` is what the regular expression
    denotes (a split of the string into its parts), and `ScanMatches` is a
    deterministic check that finds the split with one forward and one backward
    search. `ScanMatchesIffSplit` proves the two agree. */
module EmailValidation {
  import opened Wrappers
  import opened Text

  predicate IsAsciiLetter(c: char) {
    'a' <= c <= 'z' || 'A' <= c <= 'Z'
  }

  predicate IsAsciiDigit(c: char) {
    '0' <= c <= '9'
  }

  /** The class `[a-zA-Z0-9._%+-]` of the part before the '@'. */
  predicate IsLocalChar(c: char) {
    IsAsciiLetter(c) || IsAsciiDigit(c) || c == '.' || c == '_' || c == '%' || c == '+' || c == '-'
  }

  /** The class `[a-zA-Z0-9.-]` of the domain before the last '.'. */
  predicate IsDomainChar(c: char) {
    IsAsciiLetter(c) || IsAsciiDigit(c) || c == '.' || c == '-'
  }

  predicate AllLocal(s: string) {
    forall i :: 0 <= i < |s| ==> IsLocalChar(s[i])
  }

  predicate AllDomain(s: string) {
    forall i :: 0 <= i < |s| ==> IsDomainChar(s[i])
  }

  predicate AllLetters(s: string) {
    forall i :: 0 <= i < |s| ==> IsAsciiLetter(s[i])
  }

  /** `s` is `local + "@" + domain + "." + tld` with the '@' at `at` and that '.' at
      `dot`: a non-empty local part, a non-empty domain, and at least two letters. */
  ghost predicate SplitsAt(s: string, at: int, dot: int) {
    && 0 < at
    && at + 1 < dot
    && dot + 2 < |s|
    && s[at] == '@'
    && s[dot] == '.'
    && AllLocal(s[..at])
    && AllDomain(s[at + 1..dot])
    && AllLetters(s[dot + 1..])
  }

  /** The strings the pattern between `^` and `$` matches in full. */
  ghost predicate MatchesBody(s: string) {
    exists at, dot :: SplitsAt(s, at, dot)
  }

  /** `Regex.IsMatch` with this pattern: `^` anchors at the start, and `$` matches at
      the end or just before one final '\n'. */
  ghost predicate PatternIsMatch(s: string) {
    || MatchesBody(s)
    || (|s| > 0 && s[|s| - 1] == '\n' && MatchesBody(s[..|s| - 1]))
  }

  /** The index of the first `c` in `s`, or -1 (`string.IndexOf`). */
  function IndexOf(s: string, c: char): (i: int)
    ensures -1 <= i < |s|
    ensures 0 <= i ==> s[i] == c && forall k :: 0 <= k < i ==> s[k] != c
    ensures i == -1 ==> forall k :: 0 <= k < |s| ==> s[k] != c
  {
    if |s| == 0 then -1
    else if s[0] == c then 0
    else
      var k := IndexOf(s[1..], c);
      if k < 0 then -1 else k + 1
  }

  /** The index of the last `c` in `s`, or -1 (`string.LastIndexOf`). */
  function LastIndexOf(s: string, c: char): (i: int)
    ensures -1 <= i < |s|
    ensures 0 <= i ==> s[i] == c && forall k :: i < k < |s| ==> s[k] != c
    ensures i == -1 ==> forall k :: 0 <= k < |s| ==> s[k] != c
  {
    if |s| == 0 then -1
    else if s[|s| - 1] == c then |s| - 1
    else LastIndexOf(s[..|s| - 1], c)
  }

  /** Splits `s` at its first '@' and its last '.' and checks the parts. */
  function ScanMatches(s: string): bool {
    var at := IndexOf(s, '@');
    var dot := LastIndexOf(s, '.');
    && 0 < at
    && at + 1 < dot
    && dot + 2 < |s|
    && AllLocal(s[..at])
    && AllDomain(s[at + 1..dot])
    && AllLetters(s[dot + 1..])
  }

  /** Any split the pattern accepts is the one at the first '@' and the last '.':
      the local part holds no '@' and the top-level label holds no '.'. */
  lemma SplitIsUnique(s: string, at: int, dot: int)
    requires SplitsAt(s, at, dot)
    ensures at == IndexOf(s, '@') && dot == LastIndexOf(s, '.')
  {
    forall k | 0 <= k < at
      ensures s[k] != '@'
    {
      assert IsLocalChar(s[..at][k]);
    }
    forall k | dot < k < |s|
      ensures s[k] != '.'
    {
      assert IsAsciiLetter(s[dot + 1..][k - dot - 1]);
    }
  }

  lemma {:induction false} ScanMatchesIffSplit(s: string)
    ensures ScanMatches(s) <==> MatchesBody(s)
  {
    if ScanMatches(s) {
      assert SplitsAt(s, IndexOf(s, '@'), LastIndexOf(s, '.'));
    }
    if MatchesBody(s) {
      var at, dot :| SplitsAt(s, at, dot);
      SplitIsUnique(s, at, dot);
    }
  }

  /** `IsValidEmail` of LoginPage and RegisterPage: false for blank input, otherwise
      whether the pattern matches. */
  function IsValidEmail(email: Option<string>): (ok: bool)
    ensures ok <==> !IsNullOrWhiteSpace(email) && PatternIsMatch(email.value)
  {
    if IsNullOrWhiteSpace(email) then false
    else
      var s := email.value;
      ScanMatchesIffSplit(s);
      if |s| > 0 && s[|s| - 1] == '\n' then
        ScanMatchesIffSplit(s[..|s| - 1]);
        ScanMatches(s) || ScanMatches(s[..|s| - 1])
      else
        ScanMatches(s)
  }

  /** The blank check only matters for null: a string the pattern matches holds an
      '@', which is not white space. */
  lemma {:induction false} BlankCheckOnlyRejectsNull(s: string)
    ensures IsValidEmail(Some(s)) <==> PatternIsMatch(s)
  {
    if MatchesBody(s) {
      var at, dot :| SplitsAt(s, at, dot);
      assert !IsWhiteSpace(s[at]);
    } else if PatternIsMatch(s) {
      var t := s[..|s| - 1];
      var at, dot :| SplitsAt(t, at, dot);
      assert s[at] == t[at];
      assert !IsWhiteSpace(s[at]);
    }
  }

  /** The only '@' a match can hold is the one its split is made at. */
  lemma OnlyAtOfSplit(s: string, at: int, dot: int, k: int)
    requires SplitsAt(s, at, dot)
    requires 0 <= k < |s| && k != at
    ensures s[k] != '@'
  {
    if k < at {
      assert IsLocalChar(s[..at][k]);
    } else if k < dot {
      assert IsDomainChar(s[at + 1..dot][k - at - 1]);
    } else if k > dot {
      assert IsAsciiLetter(s[dot + 1..][k - dot - 1]);
    }
  }

  /** An accepted address holds exactly one '@'. */
  lemma {:induction false} ValidEmailHasOneAt(s: string)
    requires IsValidEmail(Some(s))
    ensures exists at :: 0 < at < |s| && s[at] == '@' && forall k :: 0 <= k < |s| && k != at ==> s[k] != '@'
  {
    if MatchesBody(s) {
      var at, dot :| SplitsAt(s, at, dot);
      forall k | 0 <= k < |s| && k != at
        ensures s[k] != '@'
      {
        OnlyAtOfSplit(s, at, dot, k);
      }
    } else {
      var t := s[..|s| - 1];
      var at, dot :| SplitsAt(t, at, dot);
      assert s[at] == t[at];
      forall k | 0 <= k < |s| && k != at
        ensures s[k] != '@'
      {
        if k < |t| {
          assert s[k] == t[k];
          OnlyAtOfSplit(t, at, dot, k);
        }
      }
    }
  }

  /** Addresses the pattern accepts, including the trailing '\n' that `$` lets
      through. */
  lemma AcceptedExamples()
    ensures IsValidEmail(Some("ana@uni.es"))
    ensures IsValidEmail(Some("ana@uni.es\n"))
  {
    assert SplitsAt("ana@uni.es", 3, 7);
    assert "ana@uni.es\n"[..10] == "ana@uni.es";
  }

  /** Inputs the check refuses: a one-letter top-level label, an empty local part,
      an empty domain, blank text and null. */
  lemma RejectedExamples()
    ensures !IsValidEmail(Some("ana@uni.e"))
    ensures !IsValidEmail(Some("@uni.es"))
    ensures !IsValidEmail(Some("ana@.es"))
    ensures !IsValidEmail(Some("   "))
    ensures !IsValidEmail(None)
  {
  }
}
