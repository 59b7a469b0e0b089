/**
 * The handful of Python `str` operations the backend relies on, restricted to
 * ASCII: `strip()`, `lower()`, the `in` substring test and the ordering that
 * `sorted` uses on strings (code point by code point).
 */
module Strings {

  /** Python's `str.isspace` on the ASCII range: space, `\t` to `\r`, and `\x1c` to `\x1f`. */
  predicate IsSpace(c: char) {
    c == ' ' || ('\t' <= c <= '\r') || ('\U{1C}' <= c <= '\U{1F}')
  }

  /** The number of whitespace characters `s.lstrip()` drops. */
  function LeadingSpace(s: string): (k: nat)
    ensures k <= |s|
    ensures forall j :: 0 <= j < k ==> IsSpace(s[j])
    ensures k < |s| ==> !IsSpace(s[k])
  {
    if s == [] || !IsSpace(s[0]) then 0 else 1 + LeadingSpace(s[1..])
  }

  /** Where `s` ends once the whitespace after position `lo` is dropped from its end. */
  function TrimmedEnd(s: string, lo: nat): (e: nat)
    requires lo <= |s|
    ensures lo <= e <= |s|
    ensures forall j :: e <= j < |s| ==> IsSpace(s[j])
    ensures e > lo ==> !IsSpace(s[e - 1])
  {
    if |s| == lo || !IsSpace(s[|s| - 1]) then |s| else TrimmedEnd(s[..|s| - 1], lo)
  }

  /**
   * `s.strip()`: the slice of `s` after its leading whitespace, followed only
   * by whitespace, with no whitespace at either end.
   */
  function Strip(s: string): (r: string)
    ensures var lo := LeadingSpace(s);
      && lo + |r| <= |s| && r == s[lo..lo + |r|]
      && (forall j :: lo + |r| <= j < |s| ==> IsSpace(s[j]))
    ensures r == [] || (!IsSpace(r[0]) && !IsSpace(r[|r| - 1]))
  {
    var lo := LeadingSpace(s);
    s[lo..TrimmedEnd(s, lo)]
  }

  function LowerChar(c: char): char {
    if 'A' <= c <= 'Z' then (c as int - 'A' as int + 'a' as int) as char else c
  }

  /** `s.lower()` on ASCII letters; every other character is kept. */
  function Lower(s: string): (r: string)
    ensures |r| == |s|
    ensures forall i :: 0 <= i < |s| ==> r[i] == LowerChar(s[i])
  {
    if s == [] then [] else [LowerChar(s[0])] + Lower(s[1..])
  }

  /** Python's `sub in s`. */
  predicate Contains(s: string, sub: string)
    decreases |s|
  {
    sub <= s || (s != [] && Contains(s[1..], sub))
  }

  /** What `s[i:]` contains, `s` contains. */
  lemma {:induction false} ContainsOfSuffix(s: string, i: nat, sub: string)
    requires i <= |s| && Contains(s[i..], sub)
    ensures Contains(s, sub)
    decreases i
  {
    if i > 0 {
      assert s[1..][i - 1..] == s[i..];
      ContainsOfSuffix(s[1..], i - 1, sub);
    }
  }

  /** A string that contains `outer` contains every substring of `outer`. */
  lemma {:induction false} ContainsInner(s: string, outer: string, k: nat, n: nat)
    requires k + n <= |outer|
    requires Contains(s, outer)
    ensures Contains(s, outer[k..k + n])
    decreases |s|
  {
    if outer <= s {
      assert outer[k..k + n] <= s[k..];
      ContainsOfSuffix(s, k, outer[k..k + n]);
    } else {
      ContainsInner(s[1..], outer, k, n);
    }
  }

  /** Python's `a < b` on strings: the first differing code point decides; a proper prefix is smaller. */
  predicate Less(a: string, b: string)
    decreases |a|
  {
    if a == [] then b != []
    else if b == [] then false
    else if a[0] == b[0] then Less(a[1..], b[1..])
    else a[0] < b[0]
  }

  lemma {:induction false} LessIrreflexive(a: string)
    ensures !Less(a, a)
    decreases |a|
  {
    if a != [] { LessIrreflexive(a[1..]); }
  }

  lemma {:induction false} LessTransitive(a: string, b: string, c: string)
    requires Less(a, b) && Less(b, c)
    ensures Less(a, c)
    decreases |a|
  {
    if a != [] && a[0] == b[0] && b[0] == c[0] {
      LessTransitive(a[1..], b[1..], c[1..]);
    }
  }

  /** Any two different strings are ordered one way or the other. */
  lemma {:induction false} LessTotal(a: string, b: string)
    requires a != b
    ensures Less(a, b) || Less(b, a)
    decreases |a|
  {
    if a != [] && b != [] && a[0] == b[0] {
      assert a == [a[0]] + a[1..] && b == [b[0]] + b[1..];
      LessTotal(a[1..], b[1..]);
    }
  }

  lemma {:induction false} LessAsymmetric(a: string, b: string)
    requires Less(a, b)
    ensures !Less(b, a)
    decreases |a|
  {
    if a != [] && b != [] && a[0] == b[0] {
      LessAsymmetric(a[1..], b[1..]);
    }
  }
}
