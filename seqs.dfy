/**
 * The two list disciplines the backend applies over and over: "deduplicate,
 * keeping the first occurrence" (the `seen`/`out` loops) and `sorted(set(xs))`.
 */
module Seqs {
  import opened Strings

  predicate NoDup<T(==)>(s: seq<T>) {
    forall i, j :: 0 <= i < j < |s| ==> s[i] != s[j]
  }

  /** The position of the first occurrence of `x` in `xs`. */
  function FirstIndex(xs: seq<string>, x: string): (k: nat)
    requires x in xs
    ensures k < |xs| && xs[k] == x && x !in xs[..k]
  {
    if xs[0] == x then 0 else 1 + FirstIndex(xs[1..], x)
  }

  /** `xs` with every repeated element dropped: the specification of the `seen`/`out` loops. */
  function Distinct(xs: seq<string>): (r: seq<string>)
    ensures NoDup(r) && |r| <= |xs|
    ensures forall x :: x in r <==> x in xs
  {
    if xs == [] then []
    else
      var d := Distinct(xs[..|xs| - 1]);
      var x := xs[|xs| - 1];
      assert xs == xs[..|xs| - 1] + [x];
      if x in d then d else d + [x]
  }

  /** A list that has no duplicates is left as it is. */
  lemma {:induction false} DistinctOfNoDup(xs: seq<string>)
    requires NoDup(xs)
    ensures Distinct(xs) == xs
  {
    if xs != [] {
      var p := xs[..|xs| - 1];
      assert NoDup(p);
      DistinctOfNoDup(p);
      assert xs == p + [xs[|xs| - 1]];
    }
  }

  /** What is kept of a prefix is a prefix of what is kept of the whole. */
  lemma {:induction false} DistinctPrefix(a: seq<string>, b: seq<string>)
    ensures Distinct(a) <= Distinct(a + b)
    decreases |b|
  {
    if b != [] {
      var b' := b[..|b| - 1];
      assert (a + b)[..|a + b| - 1] == a + b';
      DistinctPrefix(a, b');
    } else {
      assert a + b == a;
    }
  }

  /** Distinct keeps first-seen order: earlier in the output means first seen earlier in the input. */
  lemma {:induction false} DistinctKeepsFirstSeenOrder(xs: seq<string>, i: nat, j: nat)
    requires i < j < |Distinct(xs)|
    ensures FirstIndex(xs, Distinct(xs)[i]) < FirstIndex(xs, Distinct(xs)[j])
  {
    var p := xs[..|xs| - 1];
    var x := xs[|xs| - 1];
    var d := Distinct(p);
    assert xs == p + [x];
    var di, dj := Distinct(xs)[i], Distinct(xs)[j];
    if x in d {
      assert Distinct(xs) == d;
      DistinctKeepsFirstSeenOrder(p, i, j);
      FirstIndexOfPrefix(p, x, di);
      FirstIndexOfPrefix(p, x, dj);
    } else {
      assert Distinct(xs) == d + [x];
      FirstIndexOfPrefix(p, x, di);
      if j < |d| {
        DistinctKeepsFirstSeenOrder(p, i, j);
        FirstIndexOfPrefix(p, x, dj);
      } else {
        assert dj == x && x !in p;
        assert FirstIndex(xs, x) == |p| by {
          assert xs[..|p|] == p;
        }
      }
    }
  }

  lemma {:induction false} FirstIndexOfPrefix(p: seq<string>, x: string, y: string)
    requires y in p
    ensures FirstIndex(p + [x], y) == FirstIndex(p, y)
  {
    if p[0] != y {
      assert (p + [x])[1..] == p[1..] + [x];
      FirstIndexOfPrefix(p[1..], x, y);
    }
  }

  /** The `seen`/`out` loop: keeps the first occurrence of every element, in input order. */
  method RemoveDuplicates(xs: seq<string>) returns (out: seq<string>)
    ensures out == Distinct(xs)
  {
    var seen: set<string> := {};
    out := [];
    var i := 0;
    while i < |xs|
      invariant 0 <= i <= |xs|
      invariant out == Distinct(xs[..i])
      invariant forall x :: x in seen <==> x in out
    {
      var x := xs[i];
      assert xs[..i + 1][..i] == xs[..i];
      if x !in seen {
        seen := seen + {x};
        out := out + [x];
      }
      i := i + 1;
    }
    assert xs[..i] == xs;
  }

  /** Strictly increasing in Python's string order, hence free of duplicates. */
  predicate Sorted(s: seq<string>) {
    forall i, j :: 0 <= i < j < |s| ==> Less(s[i], s[j])
  }

  lemma SortedNoDup(s: seq<string>)
    requires Sorted(s)
    ensures NoDup(s)
  {
    forall i, j | 0 <= i < j < |s| ensures s[i] != s[j] {
      if s[i] == s[j] { LessIrreflexive(s[i]); }
    }
  }

  /** Inserts `x` at its place in a sorted list, unless it is already there. */
  function Insert(s: seq<string>, x: string): (r: seq<string>)
    requires Sorted(s)
    ensures Sorted(r)
    ensures forall y :: y in r <==> y in s || y == x
  {
    if s == [] then [x]
    else if x == s[0] then s
    else if Less(x, s[0]) then
      assert forall j :: 0 <= j < |s| ==> Less(x, s[j]) by {
        forall j | 0 < j < |s| ensures Less(x, s[j]) { LessTransitive(x, s[0], s[j]); }
      }
      [x] + s
    else
      LessTotal(x, s[0]);
      var t := Insert(s[1..], x);
      assert forall y :: y in s[1..] ==> Less(s[0], y) by {
        forall y | y in s[1..] ensures Less(s[0], y) {
          var k :| 0 <= k < |s[1..]| && s[1..][k] == y;
          assert s[k + 1] == y;
        }
      }
      assert forall j :: 0 <= j < |t| ==> Less(s[0], t[j]) by {
        forall j | 0 <= j < |t| ensures Less(s[0], t[j]) {
          assert t[j] in t;
        }
      }
      assert s == [s[0]] + s[1..];
      [s[0]] + t
  }

  /** Python's `sorted(set(xs))`. */
  function SortedUnique(xs: seq<string>): (r: seq<string>)
    ensures Sorted(r) && NoDup(r)
    ensures forall y :: y in r <==> y in xs
  {
    var r := if xs == [] then [] else Insert(SortedUnique(xs[..|xs| - 1]), xs[|xs| - 1]);
    assert xs != [] ==> xs == xs[..|xs| - 1] + [xs[|xs| - 1]];
    SortedNoDup(r);
    r
  }

  lemma HeadIsMember(b: seq<string>)
    requires b != []
    ensures b[0] in b
  {
  }

  /** A sorted list is determined by its elements, so `sorted(set(...))` depends on the set alone. */
  lemma {:induction false} SortedUniqueBySet(a: seq<string>, b: seq<string>)
    requires Sorted(a) && Sorted(b)
    requires forall y :: y in a <==> y in b
    ensures a == b
    decreases |a|
  {
    if a != [] {
      assert b != [] by { assert a[0] in b; }
      assert a[0] == b[0] by {
        if a[0] != b[0] {
          assert b[0] in a && a[0] in b;
          var j :| 0 <= j < |a| && a[j] == b[0];
          var k :| 0 <= k < |b| && b[k] == a[0];
          assert Less(a[0], a[j]) && Less(b[0], b[k]);
          LessAsymmetric(a[0], b[0]);
        }
      }
      forall y ensures y in a[1..] <==> y in b[1..] {
        if y in a[1..] {
          var k :| 0 <= k < |a[1..]| && a[1..][k] == y;
          assert Less(a[0], a[k + 1]);
          if y == b[0] { LessIrreflexive(y); }
          assert y in b;
          assert b == [b[0]] + b[1..];
        }
        if y in b[1..] {
          var k :| 0 <= k < |b[1..]| && b[1..][k] == y;
          assert Less(b[0], b[k + 1]);
          if y == a[0] { LessIrreflexive(y); }
          assert y in a;
          assert a == [a[0]] + a[1..];
        }
      }
      SortedUniqueBySet(a[1..], b[1..]);
      assert a == [a[0]] + a[1..] && b == [b[0]] + b[1..];
    } else {
      if b != [] {
        HeadIsMember(b);
        assert false;
      }
    }
  }
}
