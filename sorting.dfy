/** Sorting by a total preorder, standing for `sorted(...)` and SQL `ORDER BY`. */
module Sorting {

  ghost predicate IsTotalPreorder<T(!new)>(le: (T, T) -> bool) {
    (forall a, b :: le(a, b) || le(b, a))
    && (forall a, b, c :: le(a, b) && le(b, c) ==> le(a, c))
  }

  predicate SortedBy<T>(s: seq<T>, le: (T, T) -> bool) {
    forall i, j :: 0 <= i < j < |s| ==> le(s[i], s[j])
  }

  /** Inserts `x` before the first element it does not come after. */
  function Insert<T(!new)>(x: T, s: seq<T>, le: (T, T) -> bool): (r: seq<T>)
    requires IsTotalPreorder(le)
    requires SortedBy(s, le)
    ensures SortedBy(r, le)
    ensures multiset(r) == multiset(s) + multiset{x}
  {
    if s == [] || le(x, s[0]) then
      assert forall k :: 0 <= k < |s| ==> le(x, s[k]) by {
        forall k | 0 <= k < |s| ensures le(x, s[k]) {
          assert le(s[0], s[k]) || k == 0;
        }
      }
      SortedCons(x, s, le);
      [x] + s
    else
      var tail := Insert(x, s[1..], le);
      BoundAll(s[0], x, s[1..], tail, le);
      SortedCons(s[0], tail, le);
      assert s == [s[0]] + s[1..];
      [s[0]] + tail
  }

  /** A lower bound of a sorted sequence can be put in front of it. */
  lemma SortedCons<T>(y: T, t: seq<T>, le: (T, T) -> bool)
    requires SortedBy(t, le) && forall k :: 0 <= k < |t| ==> le(y, t[k])
    ensures SortedBy([y] + t, le)
  {
    forall i, j | 0 <= i < j < |t| + 1 ensures le(([y] + t)[i], ([y] + t)[j]) {
      assert ([y] + t)[j] == t[j - 1];
      if i > 0 {
        assert ([y] + t)[i] == t[i - 1];
      }
    }
  }

  /** A lower bound of `x` and of every element of `s` bounds every element of a
      permutation of `s` with `x`. */
  lemma BoundAll<T>(y: T, x: T, s: seq<T>, t: seq<T>, le: (T, T) -> bool)
    requires le(y, x) && forall k :: 0 <= k < |s| ==> le(y, s[k])
    requires multiset(t) == multiset(s) + multiset{x}
    ensures forall k :: 0 <= k < |t| ==> le(y, t[k])
  {
    forall k | 0 <= k < |t| ensures le(y, t[k]) {
      assert t[k] in multiset(t);
      if t[k] != x {
        assert t[k] in multiset(s);
        var m :| 0 <= m < |s| && s[m] == t[k];
      }
    }
  }

  /** A sorted permutation of `s`; equal elements keep their relative order. */
  function SortBy<T(!new)>(s: seq<T>, le: (T, T) -> bool): (r: seq<T>)
    requires IsTotalPreorder(le)
    ensures SortedBy(r, le)
    ensures multiset(r) == multiset(s)
    ensures |r| == |s|
  {
    if s == [] then []
    else
      assert s == [s[0]] + s[1..];
      Insert(s[0], SortBy(s[1..], le), le)
  }
}
