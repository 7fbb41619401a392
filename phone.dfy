/**
 * The phone pattern of the customer mutations,
 *   ^(\+?\d{1,3}[-.\s]?)?\(?\d{3}\)?[-.\s]?\d{3}[-.\s]?\d{4}$
 * applied with re.match. PatternMatch states what the pattern means, one
 * split point per optional group; PhoneMatches is a recognizer that tries
 * the few splits the pattern allows, as the regex engine backtracks over them.
 */
module Phone {
  import opened Text

  /** \s, restricted to ASCII: what str.isspace accepts below 128, the four information separators included. */
  predicate IsSpace(c: char) {
    c == ' ' || c == '\t' || c == '\n' || c == '\r' || c == '\U{0B}' || c == '\U{0C}'
    || c == '\U{1C}' || c == '\U{1D}' || c == '\U{1E}' || c == '\U{1F}'
  }

  /** [-.\s] */
  predicate IsSep(c: char) {
    c == '-' || c == '.' || IsSpace(c)
  }

  /** n digits start at position i of s. */
  predicate DigitsAt(s: string, i: nat, n: nat) {
    i + n <= |s| && forall k :: i <= k < i + n ==> IsDigit(s[k])
  }

  /** The position after an optional character at i that satisfies the separator class. */
  function SkipSep(s: string, i: nat): nat {
    if i < |s| && IsSep(s[i]) then i + 1 else i
  }

  function SkipChar(s: string, i: nat, c: char): nat {
    if i < |s| && s[i] == c then i + 1 else i
  }

  /**
   * c is all of `\(?\d{3}\)?[-.\s]?\d{3}[-.\s]?\d{4}`. Every optional token
   * here is of a class that cannot begin the token after it, so each one is
   * present exactly when its character is.
   */
  predicate CoreMatch(c: string) {
    DigitsAt(c, Open(c), 3) && DigitsAt(c, Exchange(c), 3) && DigitsAt(c, Line(c), 4) && |c| == Line(c) + 4
  }

  /** Where the area code starts: after an optional '('. */
  function Open(c: string): nat {
    SkipChar(c, 0, '(')
  }

  /** Where the exchange starts: after the area code, an optional ')' and an optional separator. */
  function Exchange(c: string): nat {
    SkipSep(c, SkipChar(c, Open(c) + 3, ')'))
  }

  /** Where the line number starts: after the exchange and an optional separator. */
  function Line(c: string): nat {
    SkipSep(c, Exchange(c) + 3)
  }

  /** p is all of `\+?\d{1,3}[-.\s]?`, the optional country-code group. */
  predicate CountryCode(p: string) {
    |p| > 0 && CodeFrom(p) + 1 <= CodeTo(p) <= CodeFrom(p) + 3 &&
    forall k :: CodeFrom(p) <= k < CodeTo(p) ==> IsDigit(p[k])
  }

  /** Where the digits of a country-code group start: after an optional '+'. */
  function CodeFrom(p: string): nat
    requires |p| > 0
  {
    if p[0] == '+' then 1 else 0
  }

  /** Where the digits of a country-code group end: before an optional final separator. */
  function CodeTo(p: string): nat
    requires |p| > 0
  {
    if IsSep(p[|p| - 1]) then |p| - 1 else |p|
  }

  /** `$` at position j: the end of s, or a final '\n'. */
  predicate EndAt(s: string, j: nat) {
    j == |s| || (j + 1 == |s| && s[j] == '\n')
  }

  /** A split of s into the optional country-code group, the ten-digit core and the end. */
  predicate SplitMatches(s: string, i: nat, j: nat) {
    i <= j <= |s| && (i == 0 || CountryCode(s[..i])) && CoreMatch(s[i..j]) && EndAt(s, j)
  }

  /** What the pattern accepts. */
  ghost predicate PatternMatch(s: string) {
    exists i: nat, j: nat :: SplitMatches(s, i, j)
  }

  /** The core, preceded by a country code of n digits. */
  predicate AfterCode(b: string, n: nat) {
    var a := if |b| > 0 && b[0] == '+' then 1 else 0;
    DigitsAt(b, a, n) && CoreMatch(b[SkipSep(b, a + n)..])
  }

  predicate MatchesWhole(b: string) {
    CoreMatch(b) || AfterCode(b, 1) || AfterCode(b, 2) || AfterCode(b, 3)
  }

  /** The recognizer: phone_pattern.match(s) is not None. */
  predicate PhoneMatches(s: string) {
    MatchesWhole(s) || (|s| > 0 && s[|s| - 1] == '\n' && MatchesWhole(s[..|s| - 1]))
  }

  lemma CoreStart(c: string)
    requires CoreMatch(c)
    ensures |c| > 0 && (c[0] == '(' || IsDigit(c[0]))
  {
  }

  lemma SepNotDigit(c: char)
    requires IsSep(c)
    ensures !IsDigit(c) && c != '(' && c != '+'
  {
  }

  /** A core preceded by a country code of n digits is a split of the pattern. */
  lemma AfterCodeSplit(s: string, j: nat, n: nat)
    requires j <= |s| && EndAt(s, j) && 1 <= n <= 3 && AfterCode(s[..j], n)
    ensures PatternMatch(s)
  {
    var b := s[..j];
    var i := AfterCodeParts(b, n);
    assert s[..i] == b[..i] && s[i..j] == b[i..];
    assert SplitMatches(s, i, j);
  }

  /** Where the country code of n digits ends in b, the core begins. */
  lemma AfterCodeParts(b: string, n: nat) returns (i: nat)
    requires 1 <= n <= 3 && AfterCode(b, n)
    ensures 0 < i <= |b| && CountryCode(b[..i]) && CoreMatch(b[i..])
  {
    var a := if |b| > 0 && b[0] == '+' then 1 else 0;
    i := SkipSep(b, a + n);
    var p := b[..i];
    assert |p| == i && p[0] == b[0];
    assert a == 0 ==> IsDigit(b[0]);
    assert CodeFrom(p) == a;
    if i == a + n + 1 {
      assert p[|p| - 1] == b[a + n];
    } else {
      assert p[|p| - 1] == b[a + n - 1];
      assert IsDigit(p[|p| - 1]);
    }
    assert CodeTo(p) == a + n;
    assert forall k :: a <= k < a + n ==> p[k] == b[k];
  }

  lemma MatchesWholeSplit(s: string, j: nat)
    requires j <= |s| && EndAt(s, j) && MatchesWhole(s[..j])
    ensures PatternMatch(s)
  {
    var b := s[..j];
    if CoreMatch(b) {
      assert s[0..j] == b;
      assert SplitMatches(s, 0, j);
    } else if AfterCode(b, 1) {
      AfterCodeSplit(s, j, 1);
    } else if AfterCode(b, 2) {
      AfterCodeSplit(s, j, 2);
    } else {
      AfterCodeSplit(s, j, 3);
    }
  }

  /** With a country code, the split is one the recognizer tries. */
  lemma CodeSplitWhole(s: string, i: nat, j: nat)
    requires SplitMatches(s, i, j) && i > 0
    ensures MatchesWhole(s[..j])
  {
    var b := s[..j];
    assert b[..i] == s[..i] && b[i..] == s[i..j];
    CodeThenCore(b, i);
  }

  /** A country code then a core is one of the three shapes the recognizer tries. */
  lemma CodeThenCore(b: string, i: nat)
    requires 0 < i <= |b| && CountryCode(b[..i]) && CoreMatch(b[i..])
    ensures MatchesWhole(b)
  {
    var p := b[..i];
    var a, n := CodeFrom(p), CodeTo(p) - CodeFrom(p);
    CodeDigitsOf(b, i);
    CodeEndsWhereCoreStarts(b, i);
    assert SkipSep(b, a + n) == i;
    assert AfterCode(b, n);
  }

  /** The country-code group's digits, read in the whole string. */
  lemma CodeDigitsOf(b: string, i: nat)
    requires 0 < i <= |b| && CountryCode(b[..i])
    ensures CodeFrom(b[..i]) == (if b[0] == '+' then 1 else 0)
    ensures DigitsAt(b, CodeFrom(b[..i]), CodeTo(b[..i]) - CodeFrom(b[..i]))
  {
    var p := b[..i];
    assert b[0] == p[0];
    assert forall k :: CodeFrom(p) <= k < CodeTo(p) ==> b[k] == p[k];
  }

  /** The optional separator after the country-code digits is the group's last character, not the core's first. */
  lemma CodeEndsWhereCoreStarts(b: string, i: nat)
    requires 0 < i <= |b| && CountryCode(b[..i]) && CoreMatch(b[i..])
    ensures SkipSep(b, CodeTo(b[..i])) == i
  {
    var p := b[..i];
    CoreStart(b[i..]);
    if CodeTo(p) == |p| {
      assert b[i] == b[i..][0];
    } else {
      assert b[|p| - 1] == p[|p| - 1];
    }
  }

  lemma SplitMatchesWhole(s: string, i: nat, j: nat)
    requires SplitMatches(s, i, j)
    ensures MatchesWhole(s[..j])
  {
    if i == 0 {
      assert s[i..j] == s[..j];
    } else {
      CodeSplitWhole(s, i, j);
    }
  }

  /** The recognizer accepts exactly what the pattern accepts. */
  lemma RecognizerIsPattern(s: string)
    ensures PhoneMatches(s) <==> PatternMatch(s)
  {
    if MatchesWhole(s) {
      assert s[..|s|] == s;
      MatchesWholeSplit(s, |s|);
    } else if |s| > 0 && s[|s| - 1] == '\n' && MatchesWhole(s[..|s| - 1]) {
      MatchesWholeSplit(s, |s| - 1);
    }
    if PatternMatch(s) {
      var i: nat, j: nat :| SplitMatches(s, i, j);
      SplitMatchesWhole(s, i, j);
      if j == |s| { assert s[..j] == s; }
    }
  }

  /** The number of digit characters in s. */
  function DigitCount(s: string): nat {
    if s == [] then 0 else DigitCount(s[..|s| - 1]) + (if IsDigit(s[|s| - 1]) then 1 else 0)
  }

  lemma {:induction false} DigitCountConcat(a: string, b: string)
    ensures DigitCount(a + b) == DigitCount(a) + DigitCount(b)
  {
    if b == [] {
      assert a + b == a;
    } else {
      assert (a + b)[..|a + b| - 1] == a + b[..|b| - 1];
      DigitCountConcat(a, b[..|b| - 1]);
    }
  }

  lemma CountSplit(s: string, lo: nat, m: nat, hi: nat)
    requires lo <= m <= hi <= |s|
    ensures DigitCount(s[lo..hi]) == DigitCount(s[lo..m]) + DigitCount(s[m..hi])
  {
    assert s[lo..hi] == s[lo..m] + s[m..hi];
    DigitCountConcat(s[lo..m], s[m..hi]);
  }

  lemma {:induction false} CountDigitRun(s: string, lo: nat, n: nat)
    requires DigitsAt(s, lo, n)
    ensures DigitCount(s[lo..lo + n]) == n
  {
    if n > 0 {
      CountDigitRun(s, lo, n - 1);
      assert s[lo..lo + n][..n - 1] == s[lo..lo + n - 1];
    }
  }

  /** An optional token that is not a digit adds no digit. */
  lemma CountOptional(s: string, i: nat, j: nat)
    requires i <= j <= i + 1 && j <= |s| && (j == i + 1 ==> !IsDigit(s[i]))
    ensures DigitCount(s[i..j]) == 0
  {
    if j == i + 1 {
      assert s[i..j][..0] == [];
    }
  }

  lemma CountSkipSep(s: string, i: nat)
    requires i <= |s|
    ensures SkipSep(s, i) <= |s| && DigitCount(s[i..SkipSep(s, i)]) == 0
  {
    if SkipSep(s, i) == i + 1 {
      SepNotDigit(s[i]);
      CountOptional(s, i, i + 1);
    } else {
      assert s[i..i] == [];
    }
  }

  lemma CountSkipChar(s: string, i: nat, c: char)
    requires i <= |s| && !IsDigit(c)
    ensures SkipChar(s, i, c) <= |s| && DigitCount(s[i..SkipChar(s, i, c)]) == 0
  {
    if SkipChar(s, i, c) == i + 1 {
      CountOptional(s, i, i + 1);
    } else {
      assert s[i..i] == [];
    }
  }

  lemma CoreHasTenDigits(c: string)
    requires CoreMatch(c)
    ensures DigitCount(c) == 10
  {
    var i1 := SkipChar(c, Open(c) + 3, ')');
    var i2 := Exchange(c);
    AreaCodeDigits(c);
    ExchangeDigits(c);
    LineDigits(c);
    assert c[0..|c|] == c;
    CountSplit(c, 0, i1, |c|);
    CountSplit(c, i1, i2 + 3, |c|);
  }

  /** `\(?\d{3}\)?` holds three digits. */
  lemma AreaCodeDigits(c: string)
    requires CoreMatch(c)
    ensures DigitCount(c[0..SkipChar(c, Open(c) + 3, ')')]) == 3
  {
    var i0 := Open(c);
    var i1 := SkipChar(c, i0 + 3, ')');
    CountSplit(c, 0, i0, i1);
    CountSplit(c, i0, i0 + 3, i1);
    CountSkipChar(c, 0, '(');
    CountDigitRun(c, i0, 3);
    CountSkipChar(c, i0 + 3, ')');
  }

  /** `[-.\s]?\d{3}` holds three digits. */
  lemma ExchangeDigits(c: string)
    requires CoreMatch(c)
    ensures DigitCount(c[SkipChar(c, Open(c) + 3, ')')..Exchange(c) + 3]) == 3
  {
    var i1 := SkipChar(c, Open(c) + 3, ')');
    var i2 := Exchange(c);
    CountSplit(c, i1, i2, i2 + 3);
    CountSkipSep(c, i1);
    CountDigitRun(c, i2, 3);
  }

  /** `[-.\s]?\d{4}` holds four digits. */
  lemma LineDigits(c: string)
    requires CoreMatch(c)
    ensures DigitCount(c[Exchange(c) + 3..|c|]) == 4
  {
    var i2, i3 := Exchange(c), Line(c);
    CountSplit(c, i2 + 3, i3, |c|);
    CountSkipSep(c, i2 + 3);
    CountDigitRun(c, i3, 4);
  }

  lemma CountryCodeDigits(p: string)
    requires CountryCode(p)
    ensures 1 <= DigitCount(p) <= 3
  {
    var a, e := CodeFrom(p), CodeTo(p);
    assert p[0..|p|] == p;
    CountSplit(p, 0, a, |p|);
    CountSplit(p, a, e, |p|);
    CountOptional(p, 0, a);
    CountDigitRun(p, a, e - a);
    CountOptional(p, e, |p|);
  }

  /**
   * Whatever the pattern accepts holds ten to thirteen digits, and at least
   * eleven when it starts with '+': the country code is then mandatory.
   */
  lemma MatchDigitCount(s: string)
    requires PhoneMatches(s)
    ensures 10 <= DigitCount(s) <= 13
    ensures s[0] == '+' ==> DigitCount(s) >= 11
  {
    RecognizerIsPattern(s);
    var i: nat, j: nat :| SplitMatches(s, i, j);
    assert s[0..|s|] == s && s[..i] == s[0..i];
    CountSplit(s, 0, i, |s|);
    CountSplit(s, i, j, |s|);
    CountOptional(s, j, |s|);
    CoreHasTenDigits(s[i..j]);
    CoreStart(s[i..j]);
    if i == 0 {
      assert s[0..0] == [];
      assert s[0] == s[i..j][0];
    } else {
      CountryCodeDigits(s[..i]);
    }
  }

  /** Ten bare digits are a phone number. */
  lemma TenDigitsMatch(s: string)
    requires |s| == 10 && AllDigits(s)
    ensures PhoneMatches(s)
  {
    assert CoreMatch(s);
  }

  /** The pattern accepts one of the two formats its own error message recommends ... */
  lemma DashedExampleMatches()
    ensures PhoneMatches("123-456-7890")
  {
    var good := "123-456-7890";
    assert Open(good) == 0;
    assert Exchange(good) == 4;
    assert Line(good) == 8;
    assert CoreMatch(good);
  }

  /** ... and rejects the other: "+1234567890" has only ten digits after the '+'. */
  lemma PlusExampleRejected()
    ensures !PhoneMatches("+1234567890")
  {
    var bad := "+1234567890";
    assert bad[0..|bad|] == bad;
    CountSplit(bad, 0, 1, |bad|);
    CountOptional(bad, 0, 1);
    CountDigitRun(bad, 1, 10);
    assert DigitCount(bad) == 10;
    if PhoneMatches(bad) {
      MatchDigitCount(bad);
    }
  }
}
