/**
 In-place selection and sorting of a range of an array by a comparator, as `std::nth_element` and `std::sort`
 promise them.
 */
module Sorting {

  ghost predicate StrictWeak<T(!new)>(less: (T, T) -> bool) {
    && (forall x :: !less(x, x))
    && (forall x, y, z :: less(x, y) && less(y, z) ==> less(x, z))
    && (forall x, y, z :: !less(x, y) && !less(y, z) ==> !less(x, z))
  }

  /** Everything in `[i0, i1)` may stand before everything in `[j0, j1)`. */
  ghost predicate Before<T(!new)>(s: seq<T>, less: (T, T) -> bool, i0: int, i1: int, j0: int, j1: int)
    requires 0 <= i0 && i1 <= |s| && 0 <= j0 && j1 <= |s|
  {
    forall i, j :: i0 <= i < i1 && j0 <= j < j1 ==> !less(s[j], s[i])
  }

  ghost predicate Sorted<T(!new)>(s: seq<T>, less: (T, T) -> bool, lo: int, hi: int)
    requires 0 <= lo && hi <= |s|
  {
    forall i, j :: lo <= i < j < hi ==> !less(s[j], s[i])
  }

  /** The same elements, rearranged within `[lo, hi)` only. */
  ghost predicate Rearranged<T>(s: seq<T>, t: seq<T>, lo: int, hi: int) {
    && |s| == |t| && multiset(s) == multiset(t)
    && forall i :: 0 <= i < |s| && !(lo <= i < hi) ==> t[i] == s[i]
  }

  lemma RearrangedTwice<T>(s: seq<T>, t: seq<T>, u: seq<T>, lo: int, hi: int)
    requires Rearranged(s, t, lo, hi) && Rearranged(t, u, lo, hi)
    ensures Rearranged(s, u, lo, hi)
  {
  }

  lemma Split<T>(s: seq<T>, lo: int, hi: int)
    requires 0 <= lo <= hi <= |s|
    ensures multiset(s) == multiset(s[..lo]) + multiset(s[lo..hi]) + multiset(s[hi..])
  {
    assert s == s[..lo] + s[lo..hi] + s[hi..];
  }

  lemma Cancel<T>(a: multiset<T>, b: multiset<T>, c: multiset<T>, d: multiset<T>)
    requires a + b + d == a + c + d
    ensures b == c
  {
    forall x ensures b[x] == c[x] {
      assert (a + b + d)[x] == (a + c + d)[x];
    }
  }

  /** An element of the rearranged range comes from the range. */
  lemma Origin<T>(s: seq<T>, t: seq<T>, lo: int, hi: int, j: int) returns (k: int)
    requires 0 <= lo <= j < hi <= |s| && Rearranged(s, t, lo, hi)
    ensures lo <= k < hi && s[k] == t[j]
  {
    Split(s, lo, hi);
    Split(t, lo, hi);
    assert s[..lo] == t[..lo] && s[hi..] == t[hi..];
    Cancel(multiset(s[..lo]), multiset(s[lo..hi]), multiset(t[lo..hi]), multiset(s[hi..]));
    assert t[lo..hi][j - lo] in multiset(t[lo..hi]);
    k :| 0 <= k < hi - lo && s[lo..hi][k] == t[j];
    k := k + lo;
  }

  /** Rearranging a range keeps what stands before and after it in place. */
  lemma BeforeKept<T(!new)>(s: seq<T>, t: seq<T>, less: (T, T) -> bool, lo: int, hi: int,
                            i0: int, i1: int, j0: int, j1: int)
    requires 0 <= lo <= hi <= |s| && Rearranged(s, t, lo, hi)
    requires 0 <= i0 <= i1 <= |s| && 0 <= j0 <= j1 <= |s|
    requires Before(s, less, i0, i1, j0, j1)
    requires (i0 <= lo && hi <= i1) || i1 <= lo || hi <= i0
    requires (j0 <= lo && hi <= j1) || j1 <= lo || hi <= j0
    ensures Before(t, less, i0, i1, j0, j1)
  {
    forall i, j | i0 <= i < i1 && j0 <= j < j1 ensures !less(t[j], t[i]) {
      var i', j' := i, j;
      if lo <= i < hi { i' := Origin(s, t, lo, hi, i); }
      if lo <= j < hi { j' := Origin(s, t, lo, hi, j); }
      assert !less(s[j'], s[i']);
    }
  }

  method Swap<T>(a: array<T>, i: int, j: int, ghost lo: int, ghost hi: int)
    requires 0 <= lo <= i < hi <= a.Length && lo <= j < hi
    modifies a
    ensures a[i] == old(a[j]) && a[j] == old(a[i])
    ensures forall k :: 0 <= k < a.Length && k != i && k != j ==> a[k] == old(a[k])
    ensures Rearranged(old(a[..]), a[..], lo, hi)
  {
    a[i], a[j] := a[j], a[i];
    assert a[..] == old(a[..])[i := old(a[j])][j := old(a[i])];
  }

  lemma Divided<T(!new)>(s: seq<T>, less: (T, T) -> bool, lo: int, p: int, hi: int)
    requires 0 <= lo <= p < hi <= |s| && StrictWeak(less)
    requires forall k :: lo <= k < p ==> less(s[k], s[p])
    requires forall k :: p < k < hi ==> !less(s[k], s[p])
    ensures Before(s, less, lo, p, p, hi) && Before(s, less, p, p + 1, p, hi)
  {
  }

  /** Puts the elements less than the first one before it, and the others after it. */
  method Partition<T(!new)>(a: array<T>, lo: int, hi: int, less: (T, T) -> bool) returns (p: int)
    requires 0 <= lo < hi <= a.Length && StrictWeak(less)
    modifies a
    ensures lo <= p < hi && Rearranged(old(a[..]), a[..], lo, hi)
    ensures Before(a[..], less, lo, p, p, hi) && Before(a[..], less, p, p + 1, p, hi)
  {
    ghost var start := a[..];
    assert Rearranged(start, a[..], lo, hi);
    hide Rearranged, StrictWeak;
    var x := a[lo];
    p := lo;
    var i := lo + 1;
    while i < hi
      invariant lo <= p < i <= hi && a[lo] == x
      invariant Rearranged(start, a[..], lo, hi)
      invariant forall k :: lo < k <= p ==> less(a[k], x)
      invariant forall k :: p < k < i ==> !less(a[k], x)
    {
      if less(a[i], x) {
        p := p + 1;
        ghost var before := a[..];
        Swap(a, p, i, lo, hi);
        RearrangedTwice(start, before, a[..], lo, hi);
      }
      i := i + 1;
    }
    ghost var before := a[..];
    Swap(a, lo, p, lo, hi);
    RearrangedTwice(start, before, a[..], lo, hi);
    Divided(a[..], less, lo, p, hi);
  }

  /** `nth_element`: the element that belongs at `mid` is put there, between those that may stand before and after. */
  method NthElement<T(!new)>(a: array<T>, lo: int, mid: int, hi: int, less: (T, T) -> bool)
    requires 0 <= lo <= mid < hi <= a.Length && StrictWeak(less)
    modifies a
    ensures Rearranged(old(a[..]), a[..], lo, hi)
    ensures Before(a[..], less, lo, mid, mid, hi) && Before(a[..], less, lo, mid + 1, mid + 1, hi)
  {
    var l, h := lo, hi;
    while h - l > 1
      invariant lo <= l <= mid < h <= hi
      invariant Rearranged(old(a[..]), a[..], lo, hi)
      invariant Before(a[..], less, lo, l, l, hi) && Before(a[..], less, lo, h, h, hi)
      decreases h - l
    {
      ghost var s := a[..];
      var p := Partition(a, l, h, less);
      BeforeKept(s, a[..], less, l, h, lo, l, l, hi);
      BeforeKept(s, a[..], less, l, h, lo, h, h, hi);
      if mid < p {
        h := p;
      } else if mid > p {
        l := p + 1;
      } else {
        l, h := p, p + 1;
      }
    }
  }

  /** One round of a sort: the element at `k` moves down to its place in the sorted range before it. */
  method Insert<T(!new)>(a: array<T>, lo: int, k: int, ghost hi: int, less: (T, T) -> bool)
    requires 0 <= lo <= k < hi <= a.Length && StrictWeak(less) && Sorted(a[..], less, lo, k)
    modifies a
    ensures Rearranged(old(a[..]), a[..], lo, hi) && Sorted(a[..], less, lo, k + 1)
  {
    var j := k;
    while j > lo && less(a[j], a[j - 1])
      invariant lo <= j <= k
      invariant Rearranged(old(a[..]), a[..], lo, hi)
      invariant forall p, q :: lo <= p < q <= k && q != j ==> !less(a[q], a[p])
    {
      Swap(a, j, j - 1, lo, hi);
      j := j - 1;
    }
  }
}
