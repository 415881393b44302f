/**
 * `Array.prototype.sort(compare)` for comparators of the form
 * `(a, b) => key(a) - key(b)`, which is how the catalogue and the order
 * history sort. The JavaScript sort is stable; an insertion sort with
 * adjacent swaps is a stable sort, so it produces the same order.
 */
module Sorting {

  /** Non-decreasing in `key`, i.e. no pair is out of order for the comparator. */
  predicate SortedBy<T>(s: seq<T>, key: T -> real) {
    forall i, j :: 0 <= i < j < |s| ==> key(s[i]) <= key(s[j])
  }

  /**
   * Sorts `a` in place by `key`. The result is a permutation of the input,
   * and an input that is already in order (in particular any input when the
   * comparator always returns 0) is left exactly as it was.
   */
  method SortInPlace<T>(a: array<T>, key: T -> real)
    modifies a
    ensures SortedBy(a[..], key)
    ensures multiset(a[..]) == multiset(old(a[..]))
    ensures SortedBy(old(a[..]), key) ==> a[..] == old(a[..])
  {
    if a.Length == 0 {
      return;
    }
    var i := 1;
    while i < a.Length
      invariant 1 <= i <= a.Length
      invariant forall p, q :: 0 <= p < q < i ==> key(a[p]) <= key(a[q])
      invariant multiset(a[..]) == multiset(old(a[..]))
      invariant SortedBy(old(a[..]), key) ==> a[..] == old(a[..])
    {
      Insert(a, i, key);
      i := i + 1;
    }
  }

  /**
   * One step of the insertion sort: `a[..i]` is in order, and `a[i]` is
   * moved left past every element with a strictly larger key.
   */
  method Insert<T>(a: array<T>, i: nat, key: T -> real)
    requires i < a.Length
    requires forall p, q :: 0 <= p < q < i ==> key(a[p]) <= key(a[q])
    modifies a
    ensures forall p, q :: 0 <= p < q <= i ==> key(a[p]) <= key(a[q])
    ensures multiset(a[..]) == multiset(old(a[..]))
    ensures (i > 0 ==> key(old(a[i - 1])) <= key(old(a[i]))) ==> a[..] == old(a[..])
  {
    if i == 0 || key(a[i - 1]) <= key(a[i]) {
      return;
    }
    var j := i;
    while j > 0 && key(a[j - 1]) > key(a[j])
      invariant 0 <= j <= i
      invariant forall p, q :: 0 <= p < q <= i && p != j && q != j ==> key(a[p]) <= key(a[q])
      invariant forall q :: j < q <= i ==> key(a[j]) < key(a[q])
      invariant multiset(a[..]) == multiset(old(a[..]))
    {
      SwapAdjacent(a, j);
      j := j - 1;
    }
  }

  /** Exchanges `a[j - 1]` and `a[j]`, which keeps the multiset of elements. */
  method SwapAdjacent<T>(a: array<T>, j: nat)
    requires 0 < j < a.Length
    modifies a
    ensures a[..] == old(a[..])[j - 1 := old(a[j])][j := old(a[j - 1])]
    ensures multiset(a[..]) == multiset(old(a[..]))
  {
    a[j - 1], a[j] := a[j], a[j - 1];
  }
}
