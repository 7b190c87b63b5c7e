/** Facts about sequences shared by the groupings and the option list. */
module Seqs {

  /** Number of times `x` occurs in `s`. */
  function Occurrences<T(==)>(s: seq<T>, x: T): nat
  {
    if s == [] then 0
    else Occurrences(s[..|s| - 1], x) + (if s[|s| - 1] == x then 1 else 0)
  }

  ghost predicate Distinct<T>(s: seq<T>)
  {
    forall i, j :: 0 <= i < j < |s| ==> s[i] != s[j]
  }

  /** Position of the first occurrence of `x` in `s`, or `|s|` when there is none. */
  function FirstIndex<T(==)>(s: seq<T>, x: T): nat
  {
    if s == [] then 0
    else if s[0] == x then 0
    else 1 + FirstIndex(s[1..], x)
  }

  /** The elements of `s` in first-seen order, each once: what a JavaScript
      `Set` (or the key list of an object) holds after receiving the elements
      of `s` one at a time. */
  function Dedup<T(==)>(s: seq<T>): seq<T>
  {
    if s == [] then []
    else
      var seen := Dedup(s[..|s| - 1]);
      if s[|s| - 1] in seen then seen else seen + [s[|s| - 1]]
  }

  lemma {:induction false} OccurrencesAppend<T>(a: seq<T>, b: seq<T>, x: T)
    ensures Occurrences(a + b, x) == Occurrences(a, x) + Occurrences(b, x)
    decreases |b|
  {
    if b == [] {
      assert a + b == a;
    } else {
      assert (a + b)[..|a + b| - 1] == a + b[..|b| - 1];
      OccurrencesAppend(a, b[..|b| - 1], x);
    }
  }

  /** `x` occurs in `s` exactly when it is counted at least once. */
  lemma {:induction false} OccurrencesPositive<T>(s: seq<T>, x: T)
    ensures Occurrences(s, x) > 0 <==> x in s
  {
    if s != [] {
      OccurrencesPositive(s[..|s| - 1], x);
      assert s == s[..|s| - 1] + [s[|s| - 1]];
    }
  }

  /** The first index is where `x` is, and nothing before it is `x`. */
  lemma {:induction false} FirstIndexSpec<T>(s: seq<T>, x: T)
    ensures FirstIndex(s, x) < |s| <==> x in s
    ensures FirstIndex(s, x) < |s| ==> s[FirstIndex(s, x)] == x
    ensures forall j :: 0 <= j < FirstIndex(s, x) && j < |s| ==> s[j] != x
  {
    if s != [] && s[0] != x {
      FirstIndexSpec(s[1..], x);
      assert forall j :: 1 <= j < |s| ==> s[j] == s[1..][j - 1];
      if x in s {
        var k :| 0 <= k < |s| && s[k] == x;
        assert s[1..][k - 1] == x;
      }
    }
  }

  lemma {:induction false} FirstIndexAppend<T>(a: seq<T>, b: seq<T>, x: T)
    ensures FirstIndex(a + b, x) == if x in a then FirstIndex(a, x) else |a| + FirstIndex(b, x)
    decreases |a|
  {
    if a == [] {
      assert a + b == b;
    } else {
      assert (a + b)[1..] == a[1..] + b;
      FirstIndexAppend(a[1..], b, x);
      if a[0] != x {
        assert x in a <==> x in a[1..];
      }
    }
  }

  /** Dedup keeps exactly the elements of `s`, once each, ordered by where
      each first appears in `s`. */
  lemma {:induction false} DedupSpec<T>(s: seq<T>)
    ensures forall i :: 0 <= i < |Dedup(s)| ==> Dedup(s)[i] in s
    ensures forall x :: x in s ==> x in Dedup(s)
    ensures Distinct(Dedup(s))
    ensures forall i, j :: 0 <= i < j < |Dedup(s)| ==> FirstIndex(s, Dedup(s)[i]) < FirstIndex(s, Dedup(s)[j])
  {
    if s != [] {
      var p, x := s[..|s| - 1], s[|s| - 1];
      assert s == p + [x];
      DedupSpec(p);
      var seen := Dedup(p);
      forall y | y in p
        ensures FirstIndex(s, y) == FirstIndex(p, y) < |p|
      {
        FirstIndexAppend(p, [x], y);
        FirstIndexSpec(p, y);
      }
      if x !in seen {
        FirstIndexAppend(p, [x], x);
        assert FirstIndex(s, x) == |p|;
        var r := Dedup(s);
        assert r == seen + [x];
        forall i, j | 0 <= i < j < |r|
          ensures FirstIndex(s, r[i]) < FirstIndex(s, r[j])
        {
          assert r[i] == seen[i] && seen[i] in p;
          if j < |seen| {
            assert r[j] == seen[j] && seen[j] in p;
            assert FirstIndex(p, seen[i]) < FirstIndex(p, seen[j]);
          }
        }
      } else {
        assert Dedup(s) == seen;
        forall i, j | 0 <= i < j < |seen|
          ensures FirstIndex(s, seen[i]) < FirstIndex(s, seen[j])
        {
          assert seen[i] in p && seen[j] in p;
          assert FirstIndex(p, seen[i]) < FirstIndex(p, seen[j]);
        }
      }
    }
  }

  /** In a sequence without repetitions every element is counted once. */
  lemma {:induction false} DistinctOccurrences<T>(s: seq<T>, x: T)
    requires Distinct(s)
    ensures Occurrences(s, x) <= 1
  {
    if s != [] {
      var p := s[..|s| - 1];
      assert Distinct(p);
      DistinctOccurrences(p, x);
      if s[|s| - 1] == x {
        OccurrencesPositive(p, x);
      }
    }
  }

  lemma {:induction false} MultisetOccurrences<T>(s: seq<T>, x: T)
    ensures multiset(s)[x] == Occurrences(s, x)
  {
    if s != [] {
      MultisetOccurrences(s[..|s| - 1], x);
      assert s == s[..|s| - 1] + [s[|s| - 1]];
    }
  }

  /** A rearrangement of a sequence without repetitions has none either. */
  lemma DistinctPermutation<T>(a: seq<T>, b: seq<T>)
    requires Distinct(a) && multiset(a) == multiset(b)
    ensures Distinct(b)
  {
    forall i, j | 0 <= i < j < |b|
      ensures b[i] != b[j]
    {
      if b[i] == b[j] {
        var x := b[i];
        assert b == b[..j] + b[j..];
        OccurrencesAppend(b[..j], b[j..], x);
        OccurrencesPositive(b[..j], x);
        OccurrencesPositive(b[j..], x);
        assert b[..j][i] == x && b[j..][0] == x;
        MultisetOccurrences(a, x);
        MultisetOccurrences(b, x);
        DistinctOccurrences(a, x);
      }
    }
  }

  /** The step of a proof that a function of a sequence depends only on its
      multiset: the last element of `a` sits at some index `i` of `b`, and
      what remains on both sides is again a permutation. */
  lemma PermutationStep<T>(a: seq<T>, b: seq<T>) returns (i: nat)
    requires a != [] && multiset(a) == multiset(b)
    ensures i < |b| && b[i] == a[|a| - 1]
    ensures a == a[..|a| - 1] + [a[|a| - 1]]
    ensures b == b[..i] + [b[i]] + b[i + 1..]
    ensures multiset(a[..|a| - 1]) == multiset(b[..i] + b[i + 1..])
  {
    var x := a[|a| - 1];
    assert x in multiset(b);
    i :| 0 <= i < |b| && b[i] == x;
    var a', b' := a[..|a| - 1], b[..i] + b[i + 1..];
    assert a == a' + [x];
    assert b == b[..i] + [x] + b[i + 1..];
    assert multiset(a') == multiset(a) - multiset{x};
    assert multiset(b') == multiset(b) - multiset{x};
  }
}
