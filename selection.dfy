/**
 * Selections of numeric ids, as the Launch page, the Library page and the
 * media-library dialog keep them: plain lists that click handlers replace
 * by a new list built with `filter` or a spread-and-append.
 */
module Selection {
  import opened Seqs

  /** `prev.filter(id => id !== x)`: every occurrence of `x` dropped, the rest kept in order. */
  function RemoveAll(s: seq<int>, x: int): (r: seq<int>)
    ensures x !in r
    ensures forall y :: y != x ==> (y in r <==> y in s)
    ensures IsSubsequence(r, s)
    ensures |r| <= |s|
  {
    if s == [] then []
    else if s[0] == x then RemoveAll(s[1..], x)
    else [s[0]] + RemoveAll(s[1..], x)
  }

  /** `prev.includes(x) ? prev.filter(id => id !== x) : [...prev, x]`. */
  function Toggle(s: seq<int>, x: int): (r: seq<int>)
    ensures x in r <==> x !in s
    ensures forall y :: y != x ==> (y in r <==> y in s)
    ensures x !in s ==> |r| == |s| + 1 && r[..|s|] == s && r[|s|] == x
    ensures x in s ==> IsSubsequence(r, s)
    ensures x in s ==> r == RemoveAll(s, x) && multiset(r) == multiset(s)[x := 0]
    ensures NoDuplicates(s) ==> NoDuplicates(r)
  {
    if x in s then
      SubsequenceOfDistinctWhen(RemoveAll(s, x), s);
      RemoveAllMultiset(s, x);
      RemoveAll(s, x)
    else
      s + [x]
  }

  lemma SubsequenceOfDistinctWhen(a: seq<int>, b: seq<int>)
    requires IsSubsequence(a, b)
    ensures NoDuplicates(b) ==> NoDuplicates(a)
  {
    if NoDuplicates(b) {
      SubsequenceOfDistinct(a, b);
    }
  }

  /** Removing an id that is not there changes nothing. */
  lemma {:induction false} RemoveAbsent(s: seq<int>, x: int)
    requires x !in s
    ensures RemoveAll(s, x) == s
  {
    if s != [] {
      assert x !in s[1..];
      RemoveAbsent(s[1..], x);
    }
  }

  /** Removal distributes over concatenation. */
  lemma {:induction false} RemoveAllAppend(s: seq<int>, t: seq<int>, x: int)
    ensures RemoveAll(s + t, x) == RemoveAll(s, x) + RemoveAll(t, x)
  {
    if s != [] {
      assert (s + t)[1..] == s[1..] + t;
      RemoveAllAppend(s[1..], t, x);
    } else {
      assert s + t == t;
    }
  }

  /** Removal takes out exactly the occurrences of `x`: every other id keeps its multiplicity. */
  lemma {:induction false} RemoveAllMultiset(s: seq<int>, x: int)
    ensures multiset(RemoveAll(s, x)) == multiset(s)[x := 0]
  {
    if s != [] {
      RemoveAllMultiset(s[1..], x);
      assert s == [s[0]] + s[1..];
    }
  }

  /** Toggling an id that was absent, twice, gives back exactly the original list. */
  lemma ToggleTwiceAbsent(s: seq<int>, x: int)
    requires x !in s
    ensures Toggle(Toggle(s, x), x) == s
  {
    RemoveAllAppend(s, [x], x);
    RemoveAbsent(s, x);
  }

  /**
   * Toggling a present id twice, in a duplicate-free list, restores the same
   * ids with the same multiplicities, but `x` moves to the end.
   */
  lemma ToggleTwicePresent(s: seq<int>, x: int)
    requires NoDuplicates(s) && x in s
    ensures Toggle(Toggle(s, x), x) == RemoveAll(s, x) + [x]
    ensures multiset(Toggle(Toggle(s, x), x)) == multiset(s)
  {
    RemoveAllMultiset(s, x);
    DistinctOccursOnce(s, x);
  }

  lemma {:induction false} DistinctOccursOnce(s: seq<int>, x: int)
    requires NoDuplicates(s) && x in s
    ensures multiset(s)[x] == 1
  {
    assert s == [s[0]] + s[1..];
    if s[0] == x {
      assert x !in s[1..] by {
        forall k | 0 <= k < |s[1..]| ensures s[1..][k] != x {
          assert s[1..][k] == s[k + 1];
        }
      }
    } else {
      assert x in s[1..];
      DistinctOccursOnce(s[1..], x);
    }
  }
}
