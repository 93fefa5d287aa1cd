/**
 * Generic facts about sequences shared by the dashboard's list operations:
 * an optional value, duplicate-freedom, order-preserving subsequences and
 * the insertion-ordered de-duplication that a JavaScript `Set` performs.
 */
module Seqs {

  datatype Option<T> = None | Some(value: T)

  /** No element occurs twice. */
  predicate NoDuplicates<T(==)>(s: seq<T>) {
    forall i, j :: 0 <= i < j < |s| ==> s[i] != s[j]
  }

  /** `a` can be obtained from `b` by deleting elements, keeping the order of the rest. */
  predicate IsSubsequence<T(==)>(a: seq<T>, b: seq<T>)
    decreases |b|
  {
    if a == [] then true
    else if b == [] then false
    else (a[0] == b[0] && IsSubsequence(a[1..], b[1..])) || IsSubsequence(a, b[1..])
  }

  lemma {:induction false} SubsequenceMembers<T>(a: seq<T>, b: seq<T>)
    requires IsSubsequence(a, b)
    ensures forall x :: x in a ==> x in b
    decreases |b|
  {
    if a != [] {
      if a[0] == b[0] && IsSubsequence(a[1..], b[1..]) {
        SubsequenceMembers(a[1..], b[1..]);
        forall x | x in a ensures x in b {
          if x != a[0] {
            assert x in a[1..];
          }
        }
      } else {
        SubsequenceMembers(a, b[1..]);
      }
    }
  }

  lemma {:induction false} SubsequenceOfDistinct<T>(a: seq<T>, b: seq<T>)
    requires IsSubsequence(a, b) && NoDuplicates(b)
    ensures NoDuplicates(a)
    decreases |b|
  {
    if a != [] {
      assert NoDuplicates(b[1..]) by {
        forall i, j | 0 <= i < j < |b[1..]| ensures b[1..][i] != b[1..][j] {
          assert b[1..][i] == b[i + 1] && b[1..][j] == b[j + 1];
        }
      }
      if a[0] == b[0] && IsSubsequence(a[1..], b[1..]) {
        SubsequenceOfDistinct(a[1..], b[1..]);
        SubsequenceMembers(a[1..], b[1..]);
        assert b[0] !in b[1..] by {
          forall k | 0 <= k < |b[1..]| ensures b[1..][k] != b[0] {
            assert b[1..][k] == b[k + 1];
          }
        }
        forall i, j | 0 <= i < j < |a| ensures a[i] != a[j] {
          assert a[j] == a[1..][j - 1];
          if i > 0 {
            assert a[i] == a[1..][i - 1];
          }
        }
      } else {
        SubsequenceOfDistinct(a, b[1..]);
      }
    }
  }

  /**
   * The elements of `s` in the order a JavaScript `Set` built from `s`
   * iterates them: each value once, at the position of its first occurrence.
   */
  function Distinct<T(==)>(s: seq<T>): (r: seq<T>)
    ensures NoDuplicates(r)
    ensures forall i :: 0 <= i < |r| ==> r[i] in s
    ensures forall i :: 0 <= i < |s| ==> s[i] in r
    ensures |r| <= |s|
    decreases |s|
  {
    if s == [] then []
    else
      var init, last := s[..|s| - 1], s[|s| - 1];
      assert s == init + [last];
      var r := Distinct(init);
      if last in r then r else r + [last]
  }

  /**
   * Distinct lists values in the order of their first occurrences: a value
   * listed before another occurs in `s` somewhere before the other first does.
   */
  lemma {:induction false} DistinctFirstOccurrenceOrder<T>(s: seq<T>)
    ensures forall i, j :: 0 <= i < j < |Distinct(s)| ==>
      exists k :: 0 <= k < |s| && s[k] == Distinct(s)[i] && Distinct(s)[j] !in s[..k]
    decreases |s|
  {
    if s != [] {
      var init, last := s[..|s| - 1], s[|s| - 1];
      assert s == init + [last];
      DistinctFirstOccurrenceOrder(init);
      var r0, r := Distinct(init), Distinct(s);
      forall i, j | 0 <= i < j < |r|
        ensures exists k :: 0 <= k < |s| && s[k] == r[i] && r[j] !in s[..k]
      {
        assert r[i] == r0[i];
        if j < |r0| {
          assert r[j] == r0[j];
          var k :| 0 <= k < |init| && init[k] == r0[i] && r0[j] !in init[..k];
          assert s[..k] == init[..k] && s[k] == init[k];
        } else {
          assert r == r0 + [last] && r[j] == last;
          forall m | 0 <= m < |init| ensures init[m] != last {
            assert init[m] in r0;
          }
          var k :| 0 <= k < |init| && init[k] == r0[i];
          assert s[..k] == init[..k] && s[k] == init[k];
        }
      }
    } else {
      assert Distinct(s) == [];
    }
  }

  /** Distinct is an order-preserving subsequence of its source. */
  lemma {:induction false} DistinctIsSubsequence<T>(s: seq<T>)
    ensures IsSubsequence(Distinct(s), s)
    decreases |s|
  {
    if s != [] {
      var init, last := s[..|s| - 1], s[|s| - 1];
      assert s == init + [last];
      DistinctIsSubsequence(init);
      var r := Distinct(init);
      if last in r {
        SubsequenceAppendRight(r, init, last);
      } else {
        SubsequenceAppendBoth(r, init, last);
      }
    }
  }

  lemma {:induction false} SubsequenceAppendRight<T>(a: seq<T>, b: seq<T>, x: T)
    requires IsSubsequence(a, b)
    ensures IsSubsequence(a, b + [x])
    decreases |b|
  {
    if a != [] {
      assert (b + [x])[1..] == b[1..] + [x];
      if a[0] == b[0] && IsSubsequence(a[1..], b[1..]) {
        SubsequenceAppendRight(a[1..], b[1..], x);
      } else {
        SubsequenceAppendRight(a, b[1..], x);
      }
    }
  }

  lemma {:induction false} SubsequenceAppendBoth<T>(a: seq<T>, b: seq<T>, x: T)
    requires IsSubsequence(a, b)
    ensures IsSubsequence(a + [x], b + [x])
    decreases |b|
  {
    if a == [] {
      if b == [] {
        assert IsSubsequence(([] + [x])[1..], ([] + [x])[1..]);
      } else {
        assert (b + [x])[1..] == b[1..] + [x];
        SubsequenceAppendBoth(a, b[1..], x);
      }
    } else {
      assert (a + [x])[1..] == a[1..] + [x];
      assert (b + [x])[1..] == b[1..] + [x];
      if a[0] == b[0] && IsSubsequence(a[1..], b[1..]) {
        SubsequenceAppendBoth(a[1..], b[1..], x);
      } else {
        SubsequenceAppendBoth(a, b[1..], x);
      }
    }
  }
}
