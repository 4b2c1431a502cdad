/**
 * The in-place sort both lists of the app use: `Collections.sort` of the scanned SSIDs
 * and the device adapter's sort with the device comparator. Both order elements by a
 * string key under Java's `String.compareTo`.
 */
module Sorting {
  import opened JavaLang

  /** Neighbouring elements are in `compareTo` order of their keys. */
  predicate SortedBy<T>(s: seq<T>, key: T -> string)
  {
    forall k :: 0 < k < |s| ==> CompareTo(key(s[k - 1]), key(s[k])) <= 0
  }

  /** Sorted neighbours give a sorted sequence: every earlier key precedes every later one. */
  lemma {:induction false} SortedByOrdersAllPairs<T>(s: seq<T>, key: T -> string, i: int, j: int)
    requires SortedBy(s, key) && 0 <= i <= j < |s|
    ensures CompareTo(key(s[i]), key(s[j])) <= 0
    decreases j - i
  {
    if i == j {
      CompareToZero(key(s[i]), key(s[j]));
    } else {
      SortedByOrdersAllPairs(s, key, i, j - 1);
      CompareToTransitive(key(s[i]), key(s[j - 1]), key(s[j]));
    }
  }

  /** Keys of `a` in order between the positions `lo` and `hi` (neighbour by neighbour). */
  ghost predicate OrderedBetween<T>(a: seq<T>, key: T -> string, lo: int, hi: int)
    requires 0 <= lo && hi <= |a|
  {
    forall k :: lo < k < hi ==> CompareTo(key(a[k - 1]), key(a[k])) <= 0
  }

  /** One step of the insertion: swapping the out-of-order neighbours at `j - 1` and `j`. */
  lemma SwapStep<T>(s: seq<T>, key: T -> string, i: int, j: int)
    requires 0 < j <= i < |s|
    requires OrderedBetween(s, key, 0, j) && OrderedBetween(s, key, j, i + 1)
    requires 0 < j < i ==> CompareTo(key(s[j - 1]), key(s[j + 1])) <= 0
    requires CompareTo(key(s[j - 1]), key(s[j])) > 0
    ensures var t := s[j - 1 := s[j]][j := s[j - 1]];
      OrderedBetween(t, key, 0, j - 1) && OrderedBetween(t, key, j - 1, i + 1)
      && (0 < j - 1 < i ==> CompareTo(key(t[j - 2]), key(t[j])) <= 0)
      && multiset(t) == multiset(s) && t[i + 1..] == s[i + 1..]
  {
    var t := s[j - 1 := s[j]][j := s[j - 1]];
    CompareToAntisymmetric(key(s[j - 1]), key(s[j]));
    forall k | 0 < k < j - 1
      ensures CompareTo(key(t[k - 1]), key(t[k])) <= 0
    {
      assert t[k - 1] == s[k - 1] && t[k] == s[k];
    }
    forall k | j - 1 < k < i + 1
      ensures CompareTo(key(t[k - 1]), key(t[k])) <= 0
    {
      if k == j {
        assert t[k - 1] == s[j] && t[k] == s[j - 1];
      } else if k == j + 1 {
        assert t[k - 1] == s[j - 1] && t[k] == s[j + 1];
      } else {
        assert t[k - 1] == s[k - 1] && t[k] == s[k];
      }
    }
    assert t[i + 1..] == s[i + 1..];
    SwapPermutes(s, j - 1, j);
  }

  /** Swapping two positions keeps the elements. */
  lemma SwapPermutes<T>(s: seq<T>, x: int, y: int)
    requires 0 <= x < y < |s|
    ensures multiset(s[x := s[y]][y := s[x]]) == multiset(s)
  {
  }

  /** Moves `a[i]` left past the larger keys before it, so that `a[..i + 1]` is sorted. */
  method InsertAt<T>(a: array<T>, i: int, key: T -> string)
    requires 0 <= i < a.Length && OrderedBetween(a[..], key, 0, i)
    modifies a
    ensures OrderedBetween(a[..], key, 0, i + 1)
    ensures a[i + 1..] == old(a[i + 1..])
    ensures multiset(a[..]) == multiset(old(a[..]))
  {
    var j := i;
    while j > 0 && CompareTo(key(a[j - 1]), key(a[j])) > 0
      invariant 0 <= j <= i
      invariant OrderedBetween(a[..], key, 0, j)
      invariant OrderedBetween(a[..], key, j, i + 1)
      invariant 0 < j < i ==> CompareTo(key(a[j - 1]), key(a[j + 1])) <= 0
      invariant a[i + 1..] == old(a[i + 1..])
      invariant multiset(a[..]) == multiset(old(a[..]))
    {
      ghost var before := a[..];
      SwapStep(before, key, i, j);
      a[j - 1], a[j] := a[j], a[j - 1];
      assert a[..] == before[j - 1 := before[j]][j := before[j - 1]];
      j := j - 1;
    }
  }

  /**
   * Sorts `a` in place by key with insertion. Equal keys are never swapped, so elements
   * with equal keys keep their order.
   */
  method SortBy<T>(a: array<T>, key: T -> string)
    modifies a
    ensures SortedBy(a[..], key)
    ensures multiset(a[..]) == multiset(old(a[..]))
  {
    var i := 0;
    while i < a.Length
      invariant 0 <= i <= a.Length
      invariant OrderedBetween(a[..], key, 0, i)
      invariant multiset(a[..]) == multiset(old(a[..]))
    {
      InsertAt(a, i, key);
      i := i + 1;
    }
  }
}
