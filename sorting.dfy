/**
 * `Array.prototype.sort` with a numeric comparator of the shape
 * `(a, b) => key(b) - key(a)`: the array is put in place into non-increasing
 * order of `key`, and keeps the same elements.
 */
module Sorting {

  /** No element is followed by one with a larger key. */
  ghost predicate NonIncreasing<T>(s: seq<T>, key: T -> int) {
    forall i, j :: 0 <= i < j < |s| ==> key(s[i]) >= key(s[j])
  }

  /** Sorts `a` in place, largest key first, by selecting the largest remaining element. */
  method SortDescendingBy<T>(a: array<T>, key: T -> int)
    modifies a
    ensures NonIncreasing(a[..], key)
    ensures multiset(a[..]) == multiset(old(a[..]))
  {
    for i := 0 to a.Length
      invariant forall p, q :: 0 <= p < q < a.Length && p < i ==> key(a[p]) >= key(a[q])
      invariant multiset(a[..]) == multiset(old(a[..]))
    {
      var m := IndexOfMax(a, i, key);
      a[i], a[m] := a[m], a[i];
    }
  }

  /** The position of a largest key in `a[from..]`. */
  method IndexOfMax<T>(a: array<T>, from: int, key: T -> int) returns (m: int)
    requires 0 <= from < a.Length
    ensures from <= m < a.Length
    ensures forall q :: from <= q < a.Length ==> key(a[m]) >= key(a[q])
  {
    m := from;
    for q := from + 1 to a.Length
      invariant from <= m < q
      invariant forall r :: from <= r < q ==> key(a[m]) >= key(a[r])
    {
      if key(a[q]) > key(a[m]) {
        m := q;
      }
    }
  }
}
