/**
 * The filename sanitiser `sanitize` of braintrust_exporter.py: keep letters,
 * digits, space, '-' and '_', turn every space into '_', and cut the result
 * to at most 100 characters.
 */
module Sanitizer {

  /** The length of the slice `[:100]` that ends `sanitize`. */
  const MaxLength: nat := 100

  /** `str.isalnum` on one character, restricted to ASCII letters and digits. */
  predicate IsAlnum(c: char) {
    ('a' <= c <= 'z') || ('A' <= c <= 'Z') || ('0' <= c <= '9')
  }

  /** The filter of the generator expression inside `sanitize`. */
  predicate Allowed(c: char) {
    IsAlnum(c) || c == ' ' || c == '-' || c == '_'
  }

  /** A character that may appear in a sanitised name. */
  predicate SafeChar(c: char) {
    IsAlnum(c) || c == '-' || c == '_'
  }

  predicate AllSafe(s: string) {
    forall i :: 0 <= i < |s| ==> SafeChar(s[i])
  }

  predicate AllAllowed(s: string) {
    forall i :: 0 <= i < |s| ==> Allowed(s[i])
  }

  /** `''.join(c for c in s if ...)`: the allowed characters of `s`, in order. */
  function KeepAllowed(s: string): (r: string)
    ensures |r| <= |s|
    ensures AllAllowed(r)
  {
    if s == [] then []
    else (if Allowed(s[0]) then [s[0]] else []) + KeepAllowed(s[1..])
  }

  /** `str.replace(' ', '_')`. */
  function ReplaceSpaces(s: string): (r: string)
    ensures |r| == |s|
    ensures forall i :: 0 <= i < |s| ==> r[i] == (if s[i] == ' ' then '_' else s[i])
  {
    if s == [] then [] else [if s[0] == ' ' then '_' else s[0]] + ReplaceSpaces(s[1..])
  }

  /** Python's slice `s[:n]` for a non-negative bound `n`. */
  function Take<T>(s: seq<T>, n: nat): (r: seq<T>)
    ensures |r| == (if |s| <= n then |s| else n)
    ensures r <= s
  {
    if |s| <= n then s else s[..n]
  }

  function Sanitize(s: string): (r: string)
    ensures |r| <= MaxLength
    ensures AllSafe(r)
    ensures ' ' !in r
  {
    Take(ReplaceSpaces(KeepAllowed(s)), MaxLength)
  }

  /**
   * Reference definition, one character at a time: an allowed character is
   * kept (a space becoming '_'), any other character is dropped.
   */
  function Image(c: char): string {
    if c == ' ' then "_" else if Allowed(c) then [c] else []
  }

  function Cleaned(s: string): string {
    if s == [] then [] else Image(s[0]) + Cleaned(s[1..])
  }

  /** Cleaning preserves order: it maps a concatenation to a concatenation. */
  lemma {:induction false} CleanedAppend(s: string, t: string)
    ensures Cleaned(s + t) == Cleaned(s) + Cleaned(t)
  {
    if s == [] {
      assert s + t == t;
    } else {
      assert (s + t)[1..] == s[1..] + t;
      CleanedAppend(s[1..], t);
    }
  }

  lemma {:induction false} ReplaceSpacesAppend(s: string, t: string)
    ensures ReplaceSpaces(s + t) == ReplaceSpaces(s) + ReplaceSpaces(t)
  {
    var l, r := ReplaceSpaces(s + t), ReplaceSpaces(s) + ReplaceSpaces(t);
    assert |l| == |r|;
    forall i | 0 <= i < |l| ensures l[i] == r[i] {
      if i < |s| { assert (s + t)[i] == s[i]; } else { assert (s + t)[i] == t[i - |s|]; }
    }
  }

  /** Filtering and then replacing spaces is the one-pass cleaning. */
  lemma {:induction false} FilterThenReplaceIsCleaned(s: string)
    ensures ReplaceSpaces(KeepAllowed(s)) == Cleaned(s)
  {
    if s != [] {
      var head := if Allowed(s[0]) then [s[0]] else [];
      ReplaceSpacesAppend(head, KeepAllowed(s[1..]));
      FilterThenReplaceIsCleaned(s[1..]);
    }
  }

  /** The filter removes exactly the characters that are not allowed. */
  lemma {:induction false} KeepAllowedCount(s: string, c: char)
    ensures multiset(KeepAllowed(s))[c] == if Allowed(c) then multiset(s)[c] else 0
  {
    if s != [] {
      KeepAllowedCount(s[1..], c);
      assert s == [s[0]] + s[1..];
      assert multiset(s) == multiset([s[0]]) + multiset(s[1..]);
    }
  }

  lemma {:induction false} KeepAllowedOfAllowed(s: string)
    requires AllAllowed(s)
    ensures KeepAllowed(s) == s
  {
    if s != [] {
      KeepAllowedOfAllowed(s[1..]);
    }
  }

  /**
   * The sanitised name is the first 100 characters of the cleaned name, and
   * all of it when the cleaned name is no longer than that.
   */
  lemma SanitizeIsCleanedPrefix(s: string)
    ensures Sanitize(s) <= Cleaned(s)
    ensures |Sanitize(s)| == if |Cleaned(s)| <= MaxLength then |Cleaned(s)| else MaxLength
    ensures |Cleaned(s)| <= MaxLength ==> Sanitize(s) == Cleaned(s)
  {
    FilterThenReplaceIsCleaned(s);
  }

  /** The names that `sanitize` leaves unchanged are exactly the short, safe ones. */
  lemma SanitizeFixedPoints(s: string)
    ensures Sanitize(s) == s <==> |s| <= MaxLength && AllSafe(s)
  {
    if |s| <= MaxLength && AllSafe(s) {
      KeepAllowedOfAllowed(s);
      assert ReplaceSpaces(s) == s;
    }
  }

  lemma SanitizeIdempotent(s: string)
    ensures Sanitize(Sanitize(s)) == Sanitize(s)
  {
    SanitizeFixedPoints(Sanitize(s));
  }

  /** Names that agree on their first 100 cleaned characters sanitise alike. */
  lemma SanitizeTruncates(s: string, t: string)
    requires |Cleaned(s)| >= MaxLength
    ensures Sanitize(s + t) == Sanitize(s)
  {
    CleanedAppend(s, t);
    SanitizeIsCleanedPrefix(s);
    SanitizeIsCleanedPrefix(s + t);
  }
}
