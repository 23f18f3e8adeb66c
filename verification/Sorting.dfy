// mtl/Sort.h: selection sort for short ranges and a Hoare-partition quicksort.
module Sorting {
  ghost predicate StrictWeakOrder<T(!new)>(lt: (T, T) -> bool) {
    && (forall x :: !lt(x, x))
    && (forall x, y, z :: lt(x, y) && lt(y, z) ==> lt(x, z))
    && (forall x, y, z :: !lt(x, y) && !lt(y, z) ==> !lt(x, z))
  }

  ghost predicate Sorted<T(!new)>(a: seq<T>, lt: (T, T) -> bool) {
    forall i, j :: 0 <= i < j < |a| ==> !lt(a[j], a[i])
  }

  // Only the range lo..hi of the array has changed, and by a permutation.
  ghost predicate PermutedIn<T>(was: seq<T>, now: seq<T>, lo: nat, hi: nat) {
    && |was| == |now| && lo <= hi <= |now|
    && was[..lo] == now[..lo] && was[hi..] == now[hi..]
    && multiset(was[lo..hi]) == multiset(now[lo..hi])
  }

  lemma PermutedTrans<T>(a: seq<T>, b: seq<T>, c: seq<T>, lo: nat, hi: nat)
    requires PermutedIn(a, b, lo, hi) && PermutedIn(b, c, lo, hi)
    ensures PermutedIn(a, c, lo, hi)
  {
  }

  lemma PermutedWider<T>(a: seq<T>, b: seq<T>, lo: nat, hi: nat, l: nat, h: nat)
    requires PermutedIn(a, b, l, h) && lo <= l && h <= hi <= |a|
    ensures PermutedIn(a, b, lo, hi)
  {
    assert a[lo..hi] == a[lo..l] + a[l..h] + a[h..hi];
    assert b[lo..hi] == b[lo..l] + b[l..h] + b[h..hi];
    assert a[lo..l] == a[..l][lo..] && b[lo..l] == b[..l][lo..];
    assert a[h..hi] == a[h..][..hi - h] && b[h..hi] == b[h..][..hi - h];
    assert a[..lo] == a[..l][..lo] && b[..lo] == b[..l][..lo];
    assert a[hi..] == a[h..][hi - h..] && b[hi..] == b[h..][hi - h..];
  }

  lemma SwapPermutes<T>(a: seq<T>, i: nat, j: nat, lo: nat, hi: nat)
    requires lo <= i < hi <= |a| && lo <= j < hi
    ensures PermutedIn(a, a[i := a[j]][j := a[i]], lo, hi)
  {
    var b := a[i := a[j]][j := a[i]];
    assert b[lo..hi] == a[lo..hi][i - lo := a[j]][j - lo := a[i]];
    assert multiset(b[lo..hi]) == multiset(a[lo..hi]) by {
      var s := a[lo..hi];
      SwapMultiset(s, i - lo, j - lo);
    }
  }

  lemma SwapMultiset<T>(s: seq<T>, i: nat, j: nat)
    requires i < |s| && j < |s|
    ensures multiset(s[i := s[j]][j := s[i]]) == multiset(s)
  {
  }

  lemma PermutedMember<T>(a: seq<T>, b: seq<T>, lo: nat, hi: nat, x: T)
    requires PermutedIn(a, b, lo, hi)
    ensures x in b[lo..hi] <==> x in a[lo..hi]
  {
    assert x in b[lo..hi] <==> x in multiset(b[lo..hi]);
    assert x in a[lo..hi] <==> x in multiset(a[lo..hi]);
  }

  method SelectionSort<T(!new)>(a: array<T>, lo: nat, hi: nat, lt: (T, T) -> bool)
    requires StrictWeakOrder(lt) && lo <= hi <= a.Length
    modifies a
    ensures PermutedIn(old(a[..]), a[..], lo, hi)
    ensures Sorted(a[lo..hi], lt)
  {
    var i := lo;
    while i + 1 < hi
      invariant lo <= i <= hi
      invariant PermutedIn(old(a[..]), a[..], lo, hi)
      invariant forall x, y :: lo <= x < i && x < y < hi ==> !lt(a[y], a[x])
    {
      ghost var s := a[..];
      var best := i;
      for j := i + 1 to hi
        invariant i <= best < hi && a[..] == s
        invariant forall y :: i <= y < j ==> !lt(a[y], a[best])
      {
        if lt(a[j], a[best]) {
          LessThanAll(s[i..j], s[best], s[j], lt);
          best := j;
        }
      }
      SwapPermutes(s, i, best, lo, hi);
      a[i], a[best] := a[best], a[i];
      assert a[..] == s[i := s[best]][best := s[i]];
      PermutedTrans(old(a[..]), s, a[..], lo, hi);
      i := i + 1;
    }
  }

  lemma LessThanAll<T(!new)>(s: seq<T>, best: T, x: T, lt: (T, T) -> bool)
    requires StrictWeakOrder(lt) && lt(x, best) && forall y :: 0 <= y < |s| ==> !lt(s[y], best)
    ensures forall y :: 0 <= y < |s| ==> !lt(s[y], x)
  {
  }

  // a[lo..i] holds nothing above the pivot and a[j..hi] nothing below it; past
  // the first round both parts are non-empty and stop the scans.
  ghost predicate Parted<T(!new)>(a: seq<T>, lo: nat, hi: nat, i: int, j: int, pivot: T, lt: (T, T) -> bool) {
    && lo - 1 <= i < j <= hi <= |a|
    && (forall k :: lo <= k <= i ==> !lt(pivot, a[k]))
    && (forall k :: j <= k < hi ==> !lt(a[k], pivot))
    && (i == lo - 1 <==> j == hi)
    && (i == lo - 1 ==> lo + 1 < hi && a[lo + (hi - lo) / 2] == pivot)
  }

  // Where the unguarded scans stop at the latest: the pivot in the first round,
  // an exchanged element afterwards.
  ghost function StopUp(lo: nat, hi: nat, j: int): int {
    if j < hi then j else lo + (hi - lo) / 2
  }

  ghost function StopDown(lo: nat, hi: nat, i: int): int {
    if i >= lo then i else lo + (hi - lo) / 2
  }

  // do i++; while (lt(array[i], pivot));
  method ScanUp<T(!new)>(a: array<T>, from: int, p: T, lt: (T, T) -> bool, ghost stop: int) returns (i: int)
    requires -1 <= from < stop < a.Length && !lt(a[stop], p)
    ensures from < i <= stop && !lt(a[i], p)
    ensures forall k :: from < k < i ==> lt(a[k], p)
  {
    i := from + 1;
    while lt(a[i], p)
      invariant from < i <= stop
      invariant forall k :: from < k < i ==> lt(a[k], p)
      decreases stop - i
    {
      i := i + 1;
    }
  }

  // do j--; while (lt(pivot, array[j]));
  method ScanDown<T(!new)>(a: array<T>, from: int, p: T, lt: (T, T) -> bool, ghost stop: int) returns (j: int)
    requires 0 <= stop < from <= a.Length && !lt(p, a[stop])
    ensures stop <= j < from && !lt(p, a[j])
    ensures forall k :: j < k < from ==> lt(p, a[k])
  {
    j := from - 1;
    while lt(p, a[j])
      invariant stop <= j < from
      invariant forall k :: j < k < from ==> lt(p, a[k])
      decreases j - stop
    {
      j := j - 1;
    }
  }

  method Partition<T(!new)>(a: array<T>, lo: nat, hi: nat, lt: (T, T) -> bool) returns (m: nat, ghost pivot: T)
    requires StrictWeakOrder(lt) && lo + 1 < hi <= a.Length
    modifies a
    ensures PermutedIn(old(a[..]), a[..], lo, hi)
    ensures lo < m < hi
    ensures forall x :: lo <= x < m ==> !lt(pivot, a[x])
    ensures forall y :: m <= y < hi ==> !lt(a[y], pivot)
  {
    var p := a[lo + (hi - lo) / 2];
    pivot := p;
    var i: int := lo - 1;
    var j: int := hi;
    while true
      invariant Parted(a[..], lo, hi, i, j, p, lt)
      invariant PermutedIn(old(a[..]), a[..], lo, hi)
      decreases j - i
    {
      ghost var i0, j0, s := i, j, a[..];
      Stops(s, lo, hi, i, j, p, lt);
      assert forall k :: 0 <= k < |s| ==> s[k] == a[k];
      i := ScanUp(a, i, p, lt, StopUp(lo, hi, j0));
      j := ScanDown(a, j, p, lt, StopDown(lo, hi, i0));
      if i >= j {
        m := i;
        ScansMet(s, lo, hi, i0, j0, i, j, p, lt);
        return;
      }
      SwapPermutes(s, i, j, lo, hi);
      Round(s, lo, hi, i0, j0, i, j, p, lt);
      a[i], a[j] := a[j], a[i];
      assert a[..] == s[i := s[j]][j := s[i]];
      PermutedTrans(old(a[..]), s, a[..], lo, hi);
    }
  }

  lemma Asymmetric<T(!new)>(lt: (T, T) -> bool)
    requires StrictWeakOrder(lt)
    ensures forall x, y :: lt(x, y) ==> !lt(y, x)
  {
    forall x, y | lt(x, y) ensures !lt(y, x) {
      assert !lt(x, x);
    }
  }

  lemma Stops<T(!new)>(s: seq<T>, lo: nat, hi: nat, i: int, j: int, p: T, lt: (T, T) -> bool)
    requires StrictWeakOrder(lt) && Parted(s, lo, hi, i, j, p, lt)
    ensures i < StopUp(lo, hi, j) < |s| && lo <= StopUp(lo, hi, j) < hi && !lt(s[StopUp(lo, hi, j)], p)
    ensures lo <= StopDown(lo, hi, i) < j && !lt(p, s[StopDown(lo, hi, i)])
  {
  }

  // An exchange extends both parts.
  lemma Round<T(!new)>(s: seq<T>, lo: nat, hi: nat, i0: int, j0: int, i: int, j: int, p: T, lt: (T, T) -> bool)
    requires StrictWeakOrder(lt) && Parted(s, lo, hi, i0, j0, p, lt)
    requires lo - 1 <= i0 < i < j < j0 <= hi
    requires !lt(s[i], p) && !lt(p, s[j])
    requires forall k :: i0 < k < i ==> lt(s[k], p)
    requires forall k :: j < k < j0 ==> lt(p, s[k])
    ensures Parted(s[i := s[j]][j := s[i]], lo, hi, i, j, p, lt)
  {
    Asymmetric(lt);
    var u := s[i := s[j]][j := s[i]];
    forall k | lo <= k <= i ensures !lt(p, u[k]) {
      assert k <= i0 || k == i || lt(s[k], p);
    }
    forall k | j <= k < hi ensures !lt(u[k], p) {
      assert k >= j0 || k == j || lt(p, s[k]);
    }
  }

  lemma ScansMet<T(!new)>(s: seq<T>, lo: nat, hi: nat, i0: int, j0: int, i: int, j: int, p: T, lt: (T, T) -> bool)
    requires StrictWeakOrder(lt) && Parted(s, lo, hi, i0, j0, p, lt)
    requires i0 < i <= StopUp(lo, hi, j0) && StopDown(lo, hi, i0) <= j < j0 && j <= i < hi
    requires forall k :: i0 < k < i ==> lt(s[k], p)
    requires forall k :: j < k < j0 ==> lt(p, s[k])
    requires !lt(s[i], p)
    ensures lo < i
    ensures forall x :: lo <= x < i ==> !lt(p, s[x])
    ensures forall y :: i <= y < hi ==> !lt(s[y], p)
  {
    Asymmetric(lt);
  }

  // sort(array, size, lt).
  method Sort<T(!new)>(a: array<T>, lo: nat, hi: nat, lt: (T, T) -> bool)
    requires StrictWeakOrder(lt) && lo <= hi <= a.Length
    modifies a
    ensures PermutedIn(old(a[..]), a[..], lo, hi)
    ensures Sorted(a[lo..hi], lt)
    decreases hi - lo
  {
    if hi - lo <= 15 {
      SelectionSort(a, lo, hi, lt);
      return;
    }
    var m;
    ghost var pivot;
    m, pivot := Partition(a, lo, hi, lt);
    ghost var s := a[..];
    Sort(a, lo, m, lt);
    ghost var t := a[..];
    Sort(a, m, hi, lt);
    PermutedWider(s, t, lo, hi, lo, m);
    PermutedWider(t, a[..], lo, hi, m, hi);
    PermutedTrans(s, t, a[..], lo, hi);
    PermutedTrans(old(a[..]), s, a[..], lo, hi);
    SortedJoin(s, t, a[..], lo, m, hi, pivot, lt);
  }

  lemma SortedJoin<T(!new)>(s: seq<T>, t: seq<T>, u: seq<T>, lo: nat, m: nat, hi: nat, pivot: T, lt: (T, T) -> bool)
    requires StrictWeakOrder(lt) && lo <= m <= hi <= |s|
    requires PermutedIn(s, t, lo, m) && PermutedIn(t, u, m, hi)
    requires Sorted(t[lo..m], lt) && Sorted(u[m..hi], lt)
    requires forall x :: lo <= x < m ==> !lt(pivot, s[x])
    requires forall y :: m <= y < hi ==> !lt(s[y], pivot)
    ensures Sorted(u[lo..hi], lt)
  {
    forall x | lo <= x < m ensures u[x] == t[x] && !lt(pivot, u[x]) {
      assert u[..m][x] == t[..m][x];
      assert t[lo..m][x - lo] in t[lo..m];
      PermutedMember(s, t, lo, m, t[x]);
      var k :| 0 <= k < |s[lo..m]| && s[lo..m][k] == t[x];
      assert s[lo + k] == t[x];
    }
    forall y | m <= y < hi ensures !lt(u[y], pivot) {
      assert u[m..hi][y - m] in u[m..hi];
      PermutedMember(t, u, m, hi, u[y]);
      var k :| 0 <= k < |t[m..hi]| && t[m..hi][k] == u[y];
      assert t[m..][k] == s[m..][k];
      assert s[m + k] == u[y];
    }
    var v := u[lo..hi];
    forall i, j | 0 <= i < j < |v| ensures !lt(v[j], v[i]) {
      if lo + j < m {
        assert t[lo..m][i] == v[i] && t[lo..m][j] == v[j];
      } else if m <= lo + i {
        assert u[m..hi][lo + i - m] == v[i] && u[m..hi][lo + j - m] == v[j];
      }
    }
  }
}
