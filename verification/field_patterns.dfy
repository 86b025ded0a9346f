/**
 The two regular expressions the form validator applies:
   email  `^[^\s@]+@[^\s@]+\.[^\s@]+$`
   phone  `^[\d\s\(\)\-\+]+$`
 Each is given as a predicate over characters. For the email pattern there
 is also a reference reading of the expression as a grammar, which is proved
 to agree with the executable check.
 */
module FieldPatterns {
  import opened JsText

  /** A character of the class `[^\s@]`. */
  predicate IsAddressChar(c: char) {
    !IsWhitespace(c) && c != '@'
  }

  /** The language of `[^\s@]+`: a non-empty run of address characters. */
  predicate IsAddressRun(s: string) {
    |s| > 0 && forall i :: 0 <= i < |s| ==> IsAddressChar(s[i])
  }

  /** The email expression read as a grammar: a local part, `@`, a domain
      label, `.`, and a final label, each a non-empty run of `[^\s@]`.
      The labels may themselves contain dots. */
  ghost predicate EmailShape(s: string) {
    exists local, domain, tld ::
      && IsAddressRun(local) && IsAddressRun(domain) && IsAddressRun(tld)
      && s == local + "@" + domain + "." + tld
  }

  /** The index of the first `c` in `s`, or `|s|` when `s` has none. */
  function IndexOf(s: string, c: char): (i: nat)
    ensures i <= |s|
    ensures i < |s| ==> s[i] == c
    ensures forall j :: 0 <= j < i ==> s[j] != c
  {
    if |s| == 0 then 0
    else if s[0] == c then 0
    else 1 + IndexOf(s[1..], c)
  }

  /** What may follow the `@`: `[^\s@]+\.[^\s@]+`, that is a run of address
      characters with a dot somewhere other than at either end. */
  predicate IsEmailDomain(r: string) {
    IsAddressRun(r) && |r| >= 3 && '.' in r[1..|r| - 1]
  }

  /** The value splits at position `at` into a local part, a run of address
      characters, and a domain as `IsEmailDomain` describes. */
  predicate SplitsAt(s: string, at: nat) {
    at < |s| && IsAddressRun(s[..at]) && IsEmailDomain(s[at + 1..])
  }

  /** `.test` of the email expression, done by splitting at the first `@`.
      It accepts exactly the strings the grammar reading describes. */
  predicate IsEmail(s: string)
    ensures IsEmail(s) <==> EmailShape(s)
  {
    FirstAtSplitIffShape(s);
    SplitsAt(s, IndexOf(s, '@'))
  }

  /** A character of the class `[\d\s\(\)\-\+]`. */
  predicate IsPhoneChar(c: char) {
    IsDigit(c) || IsWhitespace(c) || c == '(' || c == ')' || c == '-' || c == '+'
  }

  /** The language of `^[\d\s\(\)\-\+]+$` read off the expression: a
      non-empty value whose every character is in the class. */
  ghost predicate PhoneShape(s: string) {
    |s| > 0 && forall i :: 0 <= i < |s| ==> IsPhoneChar(s[i])
  }

  /** `.test` of the phone expression, matching `[...]+` one character at a
      time: a class character, then either the end or another match. It
      accepts exactly the strings of `PhoneShape`. */
  predicate IsPhone(s: string)
    ensures IsPhone(s) <==> PhoneShape(s)
  {
    && |s| > 0
    && IsPhoneChar(s[0])
    && (|s| == 1 || (assert forall i :: 1 <= i < |s| ==> s[1..][i - 1] == s[i]; IsPhone(s[1..])))
  }

  /** The split of the domain at a dot yields the two labels the grammar asks for. */
  lemma DomainSplit(r: string, k: nat)
    requires IsAddressRun(r) && 1 <= k < |r| - 1 && r[k] == '.'
    ensures IsAddressRun(r[..k]) && IsAddressRun(r[k + 1..])
    ensures r == r[..k] + "." + r[k + 1..]
  {
  }

  /** Splitting at the first `@` succeeds exactly for the strings of the
      grammar reading. */
  lemma FirstAtSplitIffShape(s: string)
    ensures SplitsAt(s, IndexOf(s, '@')) <==> EmailShape(s)
  {
    if SplitsAt(s, IndexOf(s, '@')) {
      SplitGivesShape(s, IndexOf(s, '@'));
    }
    if EmailShape(s) {
      var local, domain, tld :|
        && IsAddressRun(local) && IsAddressRun(domain) && IsAddressRun(tld)
        && s == local + "@" + domain + "." + tld;
      ShapeSplitsAtFirstAt(s, local, domain, tld);
    }
  }

  /** A split at an `@` yields the three labels of the grammar reading. */
  lemma SplitGivesShape(s: string, at: nat)
    requires SplitsAt(s, at) && s[at] == '@'
    ensures EmailShape(s)
  {
    var local, r := s[..at], s[at + 1..];
    assert '.' in r[1..|r| - 1];
    var j :| 0 <= j < |r| - 2 && r[1..|r| - 1][j] == '.';
    var k := j + 1;
    DomainSplit(r, k);
    var domain, tld := r[..k], r[k + 1..];
    assert s == local + "@" + r;
    assert s == local + "@" + domain + "." + tld;
  }

  /** A string built as the grammar says splits at its first `@`, which is
      the one after the local part. */
  lemma ShapeSplitsAtFirstAt(s: string, local: string, domain: string, tld: string)
    requires IsAddressRun(local) && IsAddressRun(domain) && IsAddressRun(tld)
    requires s == local + "@" + domain + "." + tld
    ensures IndexOf(s, '@') == |local|
    ensures SplitsAt(s, |local|)
  {
    var n := |local|;
    var r := domain + "." + tld;
    assert s == local + "@" + r;
    assert s[n] == '@';
    assert forall j :: 0 <= j < n ==> s[j] == local[j];
    var at := IndexOf(s, '@');
    assert at == n;
    assert s[..at] == local;
    assert s[at + 1..] == r;
    assert forall i :: 0 <= i < |r| ==> IsAddressChar(r[i]) by {
      forall i | 0 <= i < |r|
        ensures IsAddressChar(r[i])
      {
        if i < |domain| {
          assert r[i] == domain[i];
        } else if i > |domain| {
          assert r[i] == tld[i - |domain| - 1];
        }
      }
    }
    assert r[1..|r| - 1][|domain| - 1] == '.';
  }

  /** Surrounding white space makes an address fail the expression: it is
      tested on the untrimmed value. */
  lemma WhitespaceIsNoEmail(s: string, i: nat)
    requires i < |s| && IsWhitespace(s[i])
    ensures !EmailShape(s)
  {
    FirstAtSplitIffShape(s);
  }

  /** A value without `@` is rejected by the email expression. */
  lemma NoAtIsNoEmail(s: string)
    requires '@' !in s
    ensures !EmailShape(s)
  {
    FirstAtSplitIffShape(s);
  }
}
