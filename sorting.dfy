/**
 * `slice::sort_by` as used by the core: the comparator is given as the
 * relation `le(a, b)` meaning `cmp(a, b) != Ordering::Greater`. A valid
 * comparator makes `le` total and transitive.
 */
module Sorting {

  ghost predicate Total<T(!new)>(le: (T, T) -> bool)
  {
    forall a, b :: le(a, b) || le(b, a)
  }

  ghost predicate Transitive<T(!new)>(le: (T, T) -> bool)
  {
    forall a, b, c :: le(a, b) && le(b, c) ==> le(a, c)
  }

  predicate SortedBy<T>(s: seq<T>, le: (T, T) -> bool)
  {
    forall i, j :: 0 <= i < j < |s| ==> le(s[i], s[j])
  }

  /** Placing `x` after every element not above it and before every element above it keeps the order. */
  lemma InsertedSorted<T(!new)>(s: seq<T>, j: nat, x: T, le: (T, T) -> bool)
    requires Transitive(le) && SortedBy(s, le) && j <= |s|
    requires j > 0 ==> le(s[j - 1], x)
    requires forall k :: j <= k < |s| ==> le(x, s[k])
    ensures SortedBy(s[..j] + [x] + s[j..], le)
  {
    var r := s[..j] + [x] + s[j..];
    forall a, b | 0 <= a < b < |r|
      ensures le(r[a], r[b])
    {
      if b < j {
        assert r[a] == s[a] && r[b] == s[b];
      } else if a < j && b == j {
        assert r[a] == s[a] && r[b] == x;
        if a < j - 1 {
          assert le(s[a], s[j - 1]);
        }
      } else if a < j {
        assert r[a] == s[a] && r[b] == s[b - 1];
      } else if a == j {
        assert r[b] == s[b - 1];
      } else {
        assert r[a] == s[a - 1] && r[b] == s[b - 1];
      }
    }
  }

  /** Puts `x` into the sorted `s` after every element not above it. */
  method Insert<T(!new)>(s: seq<T>, x: T, le: (T, T) -> bool) returns (r: seq<T>)
    requires Total(le) && Transitive(le)
    requires SortedBy(s, le)
    ensures SortedBy(r, le)
    ensures multiset(r) == multiset(s) + multiset{x}
  {
    var j := |s|;
    while j > 0 && !le(s[j - 1], x)
      invariant 0 <= j <= |s|
      invariant forall k :: j <= k < |s| ==> le(x, s[k])
    {
      j := j - 1;
    }
    r := s[..j] + [x] + s[j..];
    assert s == s[..j] + s[j..];
    InsertedSorted(s, j, x, le);
  }

  /** Sorts `s` by insertion; the result is an ordered permutation of `s`. */
  method SortBy<T(!new)>(s: seq<T>, le: (T, T) -> bool) returns (r: seq<T>)
    requires Total(le) && Transitive(le)
    ensures SortedBy(r, le)
    ensures multiset(r) == multiset(s)
  {
    r := [];
    var i := 0;
    while i < |s|
      invariant 0 <= i <= |s|
      invariant SortedBy(r, le)
      invariant multiset(r) == multiset(s[..i])
    {
      assert s[..i + 1] == s[..i] + [s[i]];
      r := Insert(r, s[i], le);
      i := i + 1;
    }
    assert s[..|s|] == s;
  }
}
