/**
 * The three regular expressions the registration forms and the server
 * action test, written out as predicates over strings:
 *
 *   email      ^[^\s@]+@[^\s@]+\.[^\s@]+$
 *   phone      ^\+?\d{8,}$
 *   Facebook   ^https?://(www\.)?facebook\.com/.+$
 *
 * Each executable predicate (the one the model's handlers call) is proved
 * equal to a reference predicate that follows the regular expression's
 * structure piece by piece, backtracking included.
 */
module Patterns {
  import opened Common

  // ---------------------------------------------------------------- email

  /** `[^\s@]*`: no whitespace and no '@'. */
  predicate NoSpaceOrAt(s: string) {
    forall i :: 0 <= i < |s| ==> s[i] != '@' && !IsSpace(s[i])
  }

  /** `[^\s@]+`. */
  predicate SpaceFreeRun(s: string) {
    s != "" && NoSpaceOrAt(s)
  }

  /**
   * The email expression read literally: some '@' at `i` and some '.' at `j`
   * split the string into three non-empty runs free of whitespace and '@'.
   */
  ghost predicate EmailRegex(s: string) {
    exists i, j :: 0 <= i < j < |s| && s[i] == '@' && s[j] == '.'
      && SpaceFreeRun(s[..i]) && SpaceFreeRun(s[i + 1..j]) && SpaceFreeRun(s[j + 1..])
  }

  /** The first position of `c` in `s`, or `|s|` when there is none. */
  function IndexOf(s: string, c: char): (k: nat)
    ensures k <= |s|
    ensures k < |s| ==> s[k] == c
    ensures forall j :: 0 <= j < k ==> s[j] != c
  {
    if s == [] then 0
    else if s[0] == c then 0
    else 1 + IndexOf(s[1..], c)
  }

  /** A '.' with at least one character on each side of it. */
  predicate HasInnerDot(d: string) {
    exists k :: 0 < k < |d| - 1 && d[k] == '.'
  }

  /**
   * The email test without backtracking: a non-empty local part before the
   * only '@', no whitespace anywhere, and a dot strictly inside the domain.
   */
  predicate IsValidEmail(s: string) {
    var at := IndexOf(s, '@');
    0 < at < |s| && NoSpaceOrAt(s[..at]) && NoSpaceOrAt(s[at + 1..]) && HasInnerDot(s[at + 1..])
  }

  /** Every string the scan accepts is matched by the regular expression. */
  lemma EmailScanImpliesRegex(s: string)
    requires IsValidEmail(s)
    ensures EmailRegex(s)
  {
    var at := IndexOf(s, '@');
    var d := s[at + 1..];
    var k :| 0 < k < |d| - 1 && d[k] == '.';
    var j := at + 1 + k;
    assert s[at + 1..j] == d[..k];
    assert s[j + 1..] == d[k + 1..];
    assert s[j] == '.';
    assert SpaceFreeRun(s[..at]);
    assert SpaceFreeRun(s[at + 1..j]);
    assert SpaceFreeRun(s[j + 1..]);
  }

  /** Joining two runs free of whitespace and '@' around such a character gives such a run. */
  lemma NoSpaceOrAtJoin(a: string, c: char, b: string)
    requires NoSpaceOrAt(a) && NoSpaceOrAt(b) && c != '@' && !IsSpace(c)
    ensures NoSpaceOrAt(a + [c] + b)
  {
    var r := a + [c] + b;
    forall m | 0 <= m < |r|
      ensures r[m] != '@' && !IsSpace(r[m])
    {
      if m < |a| {
        assert r[m] == a[m];
      } else if m > |a| {
        assert r[m] == b[m - |a| - 1];
      }
    }
  }

  /** A suffix is the part before position `j`, the character there, and the rest. */
  lemma SliceAround(s: string, lo: nat, j: nat)
    requires lo <= j < |s|
    ensures s[lo..] == s[lo..j] + [s[j]] + s[j + 1..]
  {
  }

  /** An '@' with no '@' before it is the first one. */
  lemma AtIsFirst(s: string, i: nat)
    requires i < |s| && s[i] == '@' && NoSpaceOrAt(s[..i])
    ensures IndexOf(s, '@') == i
  {
    assert forall m :: 0 <= m < i ==> s[m] == s[..i][m];
  }

  /** The two runs around the regular expression's dot make a domain the scan accepts. */
  lemma DomainAccepted(s: string, i: nat, j: nat)
    requires i < j < |s| && s[j] == '.'
    requires SpaceFreeRun(s[i + 1..j]) && SpaceFreeRun(s[j + 1..])
    ensures NoSpaceOrAt(s[i + 1..]) && HasInnerDot(s[i + 1..])
  {
    SliceAround(s, i + 1, j);
    assert !IsSpace('.');
    NoSpaceOrAtJoin(s[i + 1..j], s[j], s[j + 1..]);
    assert s[i + 1..][j - i - 1] == '.';
  }

  /** Every string the regular expression matches is accepted by the scan. */
  lemma EmailRegexImpliesScan(s: string)
    requires EmailRegex(s)
    ensures IsValidEmail(s)
  {
    var i, j :| 0 <= i < j < |s| && s[i] == '@' && s[j] == '.'
      && SpaceFreeRun(s[..i]) && SpaceFreeRun(s[i + 1..j]) && SpaceFreeRun(s[j + 1..]);
    AtIsFirst(s, i);
    DomainAccepted(s, i, j);
  }

  /** The scan-based email test accepts exactly the strings the regular expression matches. */
  lemma EmailMatchesRegex(s: string)
    ensures IsValidEmail(s) <==> EmailRegex(s)
  {
    if IsValidEmail(s) { EmailScanImpliesRegex(s); }
    if EmailRegex(s) { EmailRegexImpliesScan(s); }
  }

  // ---------------------------------------------------------------- phone

  /** `^\+?\d{8,}$`: an optional leading '+', then at least eight ASCII digits and nothing else. */
  predicate IsValidPhone(s: string) {
    var digits := if s != "" && s[0] == '+' then s[1..] else s;
    |digits| >= 8 && AllDigits(digits)
  }

  /**
   * The phone test, character by character: at least eight digits, every
   * character a digit except possibly a '+' in the first position.
   */
  lemma PhoneShape(s: string)
    ensures IsValidPhone(s) <==>
      (forall i :: 0 <= i < |s| ==> IsDigit(s[i]) || (i == 0 && s[i] == '+'))
      && |s| - (if s != "" && s[0] == '+' then 1 else 0) >= 8
  {
    if s != "" && s[0] == '+' {
      assert forall i :: 1 <= i < |s| ==> s[i] == s[1..][i - 1];
    }
  }

  // ------------------------------------------------------------- Facebook

  /** The four literal prefixes `https?://(www\.)?facebook\.com/` can match, as scheme then host. */
  const FacebookPrefixes: set<string> :=
    {"http://" + "facebook.com/", "https://" + "facebook.com/",
     "http://" + "www.facebook.com/", "https://" + "www.facebook.com/"}

  /** `.*`: characters the regular-expression dot matches. */
  predicate NoLineTerminator(s: string) {
    forall i :: 0 <= i < |s| ==> !IsLineTerminator(s[i])
  }

  /** The Facebook expression read literally: one of the four prefixes, then `.+`. */
  ghost predicate FacebookRegex(s: string) {
    exists p :: 0 < p < |s| && s[..p] in FacebookPrefixes && NoLineTerminator(s[p..])
  }

  /** What follows `https?://`, if the string starts with it. */
  function AfterScheme(s: string): Option<string> {
    if StartsWith(s, "https://") then Some(s[8..])
    else if StartsWith(s, "http://") then Some(s[7..])
    else None
  }

  /** What follows `(www\.)?facebook\.com/`, if the string starts with it. */
  function AfterHost(t: string): Option<string> {
    if StartsWith(t, "www.facebook.com/") then Some(t[17..])
    else if StartsWith(t, "facebook.com/") then Some(t[13..])
    else None
  }

  /** The Facebook test as a left-to-right match of scheme, host and path. */
  predicate IsValidFacebookUrl(s: string) {
    match AfterScheme(s)
    case None => false
    case Some(t) =>
      match AfterHost(t)
      case None => false
      case Some(rest) => rest != "" && NoLineTerminator(rest)
  }

  /** A string that starts with `a` and then `b` starts with `a + b`. */
  lemma StartsWithConcat(s: string, a: string, b: string)
    requires StartsWith(s, a) && StartsWith(s[|a|..], b)
    ensures s[..|a| + |b|] == a + b && s[|a| + |b|..] == s[|a|..][|b|..]
  {
    assert s[..|a| + |b|] == s[..|a|] + s[|a|..][..|b|];
  }

  /** A string that starts with `a + b` starts with `a` and then with `b`. */
  lemma ConcatStartsWith(s: string, a: string, b: string)
    requires |a| + |b| <= |s| && s[..|a| + |b|] == a + b
    ensures StartsWith(s, a) && StartsWith(s[|a|..], b) && s[|a|..][|b|..] == s[|a| + |b|..]
  {
    assert s[..|a|] == (a + b)[..|a|];
    assert s[|a|..][..|b|] == (a + b)[|a|..];
  }

  /** A scheme and host from the expression followed by a non-empty dot-run is a match. */
  lemma PrefixWitness(s: string, scheme: string, host: string)
    requires scheme + host in FacebookPrefixes && StartsWith(s, scheme) && StartsWith(s[|scheme|..], host)
    requires |s| > |scheme| + |host| && NoLineTerminator(s[|scheme| + |host|..])
    ensures FacebookRegex(s)
  {
    StartsWithConcat(s, scheme, host);
    var p := |scheme| + |host|;
    assert 0 < p < |s| && s[..p] in FacebookPrefixes && NoLineTerminator(s[p..]);
  }

  /** Every string the left-to-right test accepts is matched by the regular expression. */
  lemma FacebookScanImpliesRegex(s: string)
    requires IsValidFacebookUrl(s)
    ensures FacebookRegex(s)
  {
    if StartsWith(s, "https://") {
      if StartsWith(s[8..], "www.facebook.com/") {
        PrefixWitness(s, "https://", "www.facebook.com/");
      } else {
        PrefixWitness(s, "https://", "facebook.com/");
      }
    } else {
      if StartsWith(s[7..], "www.facebook.com/") {
        PrefixWitness(s, "http://", "www.facebook.com/");
      } else {
        PrefixWitness(s, "http://", "facebook.com/");
      }
    }
  }

  /** A match whose prefix starts with "https://" is accepted by the test. */
  lemma SecureRegexCase(s: string, host: string)
    requires host == "www.facebook.com/" || host == "facebook.com/"
    requires |s| > 8 + |host| && s[..8 + |host|] == "https://" + host
    requires NoLineTerminator(s[8 + |host|..])
    ensures IsValidFacebookUrl(s)
  {
    ConcatStartsWith(s, "https://", host);
    assert AfterScheme(s) == Some(s[8..]);
    HostCase(s[8..], host);
  }

  /** A match whose prefix starts with "http://" is accepted by the test. */
  lemma PlainRegexCase(s: string, host: string)
    requires host == "www.facebook.com/" || host == "facebook.com/"
    requires |s| > 7 + |host| && s[..7 + |host|] == "http://" + host
    requires NoLineTerminator(s[7 + |host|..])
    ensures IsValidFacebookUrl(s)
  {
    ConcatStartsWith(s, "http://", host);
    assert s[4] == s[..7][4] == ':';
    assert !StartsWith(s, "https://") by { assert "https://"[4] == 's'; }
    assert AfterScheme(s) == Some(s[7..]);
    HostCase(s[7..], host);
  }

  /** After the scheme, the host of the match is the one the test picks. */
  lemma HostCase(t: string, host: string)
    requires host == "www.facebook.com/" || host == "facebook.com/"
    requires StartsWith(t, host) && |t| > |host| && NoLineTerminator(t[|host|..])
    ensures AfterHost(t) == Some(t[|host|..])
  {
    if host == "facebook.com/" {
      assert t[0] == t[..|host|][0] == 'f';
      assert !StartsWith(t, "www.facebook.com/") by { assert "www.facebook.com/"[0] == 'w'; }
    }
  }

  /** Every string the regular expression matches is accepted by the left-to-right test. */
  lemma FacebookRegexImpliesScan(s: string)
    requires FacebookRegex(s)
    ensures IsValidFacebookUrl(s)
  {
    var p :| 0 < p < |s| && s[..p] in FacebookPrefixes && NoLineTerminator(s[p..]);
    if s[..p] == "https://" + "www.facebook.com/" {
      SecureRegexCase(s, "www.facebook.com/");
    } else if s[..p] == "https://" + "facebook.com/" {
      SecureRegexCase(s, "facebook.com/");
    } else if s[..p] == "http://" + "www.facebook.com/" {
      PlainRegexCase(s, "www.facebook.com/");
    } else {
      PlainRegexCase(s, "facebook.com/");
    }
  }

  /** The left-to-right Facebook test accepts exactly the strings the regular expression matches. */
  lemma FacebookMatchesRegex(s: string)
    ensures IsValidFacebookUrl(s) <==> FacebookRegex(s)
  {
    if IsValidFacebookUrl(s) { FacebookScanImpliesRegex(s); }
    if FacebookRegex(s) { FacebookRegexImpliesScan(s); }
  }
}
