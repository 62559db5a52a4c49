/**
 * The `isEmailValid` check of `BankAccount`.
 *
 * The source matches the whole string against `^[^@]+@[^@.]+\.[A-Za-z]{2,}$`.
 * `MatchesEmailPattern` states that pattern as "there is a split of the string
 * into the four parts"; `IsEmailValid` decides it by locating the last `'.'`
 * and the last `'@'` before it, and `EmailValidIffPattern` proves the two agree.
 */
module Emails {
  import opened Wrappers

  /** `[A-Za-z]` */
  predicate IsAsciiLetter(c: char) {
    'A' <= c <= 'Z' || 'a' <= c <= 'z'
  }

  /** `[^@]+`: the local part before the `'@'`. */
  predicate IsLocalPart(t: string) {
    |t| > 0 && forall k :: 0 <= k < |t| ==> t[k] != '@'
  }

  /** `[^@.]+`: the domain label between the `'@'` and the `'.'`. */
  predicate IsDomainLabel(t: string) {
    |t| > 0 && forall k :: 0 <= k < |t| ==> t[k] != '@' && t[k] != '.'
  }

  /** `[A-Za-z]{2,}`: the top-level domain after the `'.'`. */
  predicate IsTopLevelDomain(t: string) {
    |t| >= 2 && forall k :: 0 <= k < |t| ==> IsAsciiLetter(t[k])
  }

  /** `s` is `local '@' domain '.' tld` with the `'@'` at index `at` and the `'.'` at index `dot`. */
  predicate SplitsAt(s: string, at: int, dot: int) {
    0 <= at < dot < |s| && s[at] == '@' && s[dot] == '.' &&
    IsLocalPart(s[..at]) && IsDomainLabel(s[at + 1..dot]) && IsTopLevelDomain(s[dot + 1..])
  }

  /** The whole string matches `^[^@]+@[^@.]+\.[A-Za-z]{2,}$`. */
  ghost predicate MatchesEmailPattern(s: string) {
    exists at, dot :: SplitsAt(s, at, dot)
  }

  /** The index of the last occurrence of `c` in `s`, or -1 when there is none. */
  function LastIndexOf(s: string, c: char): (i: int)
    ensures -1 <= i < |s|
    ensures i >= 0 ==> s[i] == c
    ensures forall k :: i < k < |s| ==> s[k] != c
  {
    if |s| == 0 then -1
    else if s[|s| - 1] == c then |s| - 1
    else LastIndexOf(s[..|s| - 1], c)
  }

  /**
   * `isEmailValid`: false for a null or empty email; otherwise the email must
   * split, at its last `'.'` and at the last `'@'` before that, into a local
   * part, a domain label and a top-level domain.
   */
  predicate IsEmailValid(email: Option<string>)
    ensures IsEmailValid(email) ==> email.Some? && |email.value| >= 6
  {
    match email
    case None => false
    case Some(s) =>
      if |s| == 0 then false
      else
        var dot := LastIndexOf(s, '.');
        if dot < 0 then false
        else SplitsAt(s, LastIndexOf(s[..dot], '@'), dot)
  }

  /** The last occurrence of `c` is the occurrence with no `c` after it. */
  lemma LastIndexOfIs(s: string, c: char, i: int)
    requires 0 <= i < |s| && s[i] == c
    requires forall k :: i < k < |s| ==> s[k] != c
    ensures LastIndexOf(s, c) == i
  {
  }

  /** The check accepts a non-null email exactly when it matches the pattern. */
  lemma EmailValidIffPattern(s: string)
    ensures IsEmailValid(Some(s)) <==> MatchesEmailPattern(s)
  {
  }

  /** Every email assembled from a local part, a domain label and a top-level domain is accepted. */
  lemma ComposedEmailIsValid(local: string, domain: string, tld: string)
    requires IsLocalPart(local) && IsDomainLabel(domain) && IsTopLevelDomain(tld)
    ensures IsEmailValid(Some(local + "@" + domain + "." + tld))
  {
    var s := local + "@" + domain + "." + tld;
    var at, dot := |local|, |local| + 1 + |domain|;
    assert s[..at] == local;
    assert s[at + 1..dot] == domain;
    assert s[dot + 1..] == tld;
    assert SplitsAt(s, at, dot);
    EmailValidIffPattern(s);
  }

  /** A valid email contains exactly one `'@'`. */
  lemma ValidEmailHasOneAt(s: string)
    requires IsEmailValid(Some(s))
    ensures multiset(s)['@'] == 1
  {
    var dot := LastIndexOf(s, '.');
    var at := LastIndexOf(s[..dot], '@');
    assert SplitsAt(s, at, dot);
    var local, domain, tld := s[..at], s[at + 1..dot], s[dot + 1..];
    assert s == local + ['@'] + domain + ['.'] + tld;
    assert '@' !in local;
    assert '@' !in domain;
    assert '@' !in tld by {
      forall k | 0 <= k < |tld| ensures tld[k] != '@' {
        assert IsAsciiLetter(tld[k]);
      }
    }
    assert multiset(s) == multiset(local) + multiset{'@'} + multiset(domain) + multiset{'.'} + multiset(tld);
  }

  /** A null email is rejected, and so is every email without an `'@'`, the empty one included. */
  lemma RejectsNullOrNoAt(s: string)
    requires '@' !in s
    ensures !IsEmailValid(None) && !IsEmailValid(Some(s))
  {
  }
}
