// mtl/Heap.h: a binary heap of numbers with the position of each, ordered by a
// comparator that may change between calls, as the activity of variables does.
module Heaps {
  import opened Logic
  import Sorting

  type Order = (nat, nat) -> bool

  function Left(i: nat): nat {
    2 * i + 1
  }

  function Right(i: nat): nat {
    2 * (i + 1)
  }

  function Parent(i: nat): nat
    requires i > 0
  {
    (i - 1) / 2
  }

  lemma Children(i: nat, j: nat)
    requires j > 0
    ensures Parent(j) == i <==> j == Left(i) || j == Right(i)
    ensures Parent(j) < j
  {
  }

  // indices_ is the exact inverse of heap_, and -1 off the heap.
  ghost predicate Indexed(h: seq<nat>, ix: seq<int>) {
    && (forall i :: 0 <= i < |h| ==> h[i] < |ix| && ix[h[i]] == i)
    && (forall n :: 0 <= n < |ix| ==> -1 <= ix[n] < |h| && (ix[n] >= 0 ==> h[ix[n]] == n))
  }

  // No element comes before its parent, from parent lo on.
  ghost predicate HeapedFrom(h: seq<nat>, lt: Order, lo: nat) {
    forall j :: 0 < j < |h| && Parent(j) >= lo ==> InOrder(h, lt, j)
  }

  ghost predicate Heaped(h: seq<nat>, lt: Order) {
    HeapedFrom(h, lt, 0)
  }

  ghost predicate InOrder(h: seq<nat>, lt: Order, j: nat)
    requires 0 < j < |h|
  {
    !lt(h[j], h[Parent(j)])
  }

  // The children of i do not come before the parent of i.
  ghost predicate Skips(h: seq<nat>, lt: Order, lo: nat, i: nat) {
    forall j :: 0 < j < |h| && Parent(j) == i && i > 0 && Parent(i) >= lo ==> !lt(h[j], h[Parent(i)])
  }

  // Only the element at i may be out of order.
  ghost predicate OnlyAt(h: seq<nat>, lt: Order, i: nat) {
    && (forall j :: 0 < j < |h| && j != i && Parent(j) != i ==> InOrder(h, lt, j))
    && Skips(h, lt, 0, i)
  }

  // The children of i are in order.
  ghost predicate ChildrenFine(h: seq<nat>, lt: Order, i: nat) {
    forall j :: 0 < j < |h| && Parent(j) == i ==> InOrder(h, lt, j)
  }

  // Only the children of i may come before it.
  ghost predicate DownFrom(h: seq<nat>, lt: Order, lo: nat, i: nat) {
    && (forall j :: 0 < j < |h| && Parent(j) >= lo && Parent(j) != i ==> InOrder(h, lt, j))
    && Skips(h, lt, lo, i)
  }

  function Swapped(h: seq<nat>, i: nat, p: nat): seq<nat>
    requires i < |h| && p < |h|
  {
    h[i := h[p]][p := h[i]]
  }

  lemma SwapIndexed(h: seq<nat>, ix: seq<int>, i: nat, p: nat)
    requires Indexed(h, ix) && i < |h| && p < |h| && i != p
    ensures h[i] < |ix| && h[p] < |ix|
    ensures Indexed(Swapped(h, i, p), ix[h[p] := i][h[i] := p])
  {
    assert h[i] != h[p];
  }

  // ---------------------------------------------------------------- moving up

  lemma UpStep(h: seq<nat>, lt: Order, i: nat)
    requires Sorting.StrictWeakOrder(lt) && 0 < i < |h| && OnlyAt(h, lt, i) && lt(h[i], h[Parent(i)])
    ensures OnlyAt(Swapped(h, i, Parent(i)), lt, Parent(i))
    ensures ChildrenFine(Swapped(h, i, Parent(i)), lt, Parent(i))
  {
    var p := Parent(i);
    var now := Swapped(h, i, p);
    forall j | 0 < j < |now| && j != p ensures InOrder(now, lt, j) {
      if j != i && Parent(j) != i {
        assert InOrder(h, lt, j);
      }
    }
    forall j | 0 < j < |now| && Parent(j) == p && p > 0 ensures !lt(now[j], now[Parent(p)]) {
      assert InOrder(h, lt, p);
      if j != i {
        assert InOrder(h, lt, j);
      }
    }
  }

  lemma UpDone(h: seq<nat>, lt: Order, i: nat)
    requires Sorting.StrictWeakOrder(lt) && i < |h| && OnlyAt(h, lt, i)
    requires i == 0 || !lt(h[i], h[Parent(i)])
    ensures DownFrom(h, lt, 0, i)
    ensures ChildrenFine(h, lt, i) ==> Heaped(h, lt)
  {
    forall j | 0 < j < |h| && Parent(j) != i ensures InOrder(h, lt, j) {
    }
  }

  // -------------------------------------------------------------- moving down

  // c is the child of i that comes first.
  ghost predicate FirstChild(h: seq<nat>, lt: Order, i: nat, c: nat)
    requires i < |h|
  {
    && 0 < c < |h| && Parent(c) == i
    && forall j :: 0 < j < |h| && Parent(j) == i ==> !lt(h[j], h[c])
  }

  lemma DownStep(h: seq<nat>, lt: Order, lo: nat, i: nat, c: nat)
    requires Sorting.StrictWeakOrder(lt) && lo <= i < |h| && DownFrom(h, lt, lo, i) && FirstChild(h, lt, i, c)
    requires lt(h[c], h[i])
    ensures DownFrom(Swapped(h, i, c), lt, lo, c)
  {
    var now := Swapped(h, i, c);
    forall j | 0 < j < |now| && Parent(j) >= lo && Parent(j) != c ensures InOrder(now, lt, j) {
      if Parent(j) != i && j != i {
        assert InOrder(h, lt, j);
      }
    }
    forall j | 0 < j < |now| && Parent(j) == c ensures !lt(now[j], now[Parent(c)]) {
      assert InOrder(h, lt, j);
    }
  }

  lemma DownDone(h: seq<nat>, lt: Order, lo: nat, i: nat, c: nat)
    requires Sorting.StrictWeakOrder(lt) && lo <= i < |h| && DownFrom(h, lt, lo, i)
    requires Left(i) < |h| ==> FirstChild(h, lt, i, c) && !lt(h[c], h[i])
    ensures HeapedFrom(h, lt, lo)
  {
    forall j | 0 < j < |h| && Parent(j) >= lo ensures InOrder(h, lt, j) {
      Children(i, j);
    }
  }

  // -------------------------------------------------------------- changed keys

  // Only the key of n has changed.
  ghost predicate SameBut(was: Order, lt: Order, n: nat) {
    forall x, y :: x != n && y != n ==> (lt(x, y) <==> was(x, y))
  }

  ghost predicate Earlier(was: Order, lt: Order, n: nat) {
    forall x :: x != n ==> (lt(x, n) ==> was(x, n)) && (was(n, x) ==> lt(n, x))
  }

  ghost predicate Later(was: Order, lt: Order, n: nat) {
    Earlier(lt, was, n)
  }

  lemma {:induction false} KeyMoved(h: seq<nat>, ix: seq<int>, was: Order, lt: Order, n: nat)
    requires Indexed(h, ix) && n < |ix| && ix[n] >= 0 && Heaped(h, was) && SameBut(was, lt, n)
    requires Sorting.StrictWeakOrder(was) && Sorting.StrictWeakOrder(lt)
    ensures OnlyAt(h, lt, ix[n])
    ensures Earlier(was, lt, n) ==> ChildrenFine(h, lt, ix[n])
    ensures Later(was, lt, n) ==> DownFrom(h, lt, 0, ix[n])
  {
    var i := ix[n];
    forall j | 0 < j < |h| ensures InOrder(h, was, j) && (j != i ==> h[j] != n) {
    }
    forall j | 0 < j < |h| && j != i && Parent(j) != i ensures InOrder(h, lt, j) {
      assert InOrder(h, was, j);
    }
    forall j | 0 < j < |h| && Parent(j) == i && i > 0 ensures !lt(h[j], h[Parent(i)]) {
      assert InOrder(h, was, j) && InOrder(h, was, i);
      assert !was(h[j], h[Parent(i)]);
    }
  }

  // The root comes first.
  lemma {:induction false} RootFirst(h: seq<nat>, lt: Order, j: nat)
    requires Sorting.StrictWeakOrder(lt) && Heaped(h, lt) && j < |h|
    ensures !lt(h[j], h[0])
  {
    if j > 0 {
      RootFirst(h, lt, Parent(j));
      assert InOrder(h, lt, j);
    }
  }

  class Heap {
    var heap: seq<nat>
    var indices: seq<int>

    ghost predicate Valid() reads this {
      Indexed(heap, indices)
    }

    predicate InHeap(n: nat) reads this {
      n < |indices| && indices[n] >= 0
    }

    // What is on the heap.
    ghost function Contents(): set<nat> reads this {
      set n | 0 <= n < |indices| && indices[n] >= 0
    }

    constructor ()
      ensures Valid() && Contents() == {} && heap == []
    {
      heap, indices := [], [];
    }

    // The hole at i moves up; x is written when it has stopped.
    method PercolateUp(start: nat, lt: Order)
      requires Valid() && Sorting.StrictWeakOrder(lt) && start < |heap| && OnlyAt(heap, lt, start)
      modifies this
      ensures Valid() && |heap| == |old(heap)| && |indices| == |old(indices)| && Contents() == old(Contents())
      ensures var i := indices[old(heap[start])]; i >= 0 && DownFrom(heap, lt, 0, i)
      ensures ChildrenFine(old(heap), lt, start) ==> Heaped(heap, lt)
    {
      hide Indexed, OnlyAt, DownFrom, ChildrenFine, Heaped, Sorting.StrictWeakOrder;
      var i, x := start, heap[start];
      ghost var h, ix := heap, indices;
      ghost var fine := ChildrenFine(heap, lt, start);
      IndexedAt(h, ix, i);
      assert heap[i := x] == h && indices[x := i] == ix;
      while i != 0 && lt(x, heap[Parent(i)])
        invariant i < |heap| == |h| && |indices| == |ix| == |old(indices)| && |h| == |old(heap)| && x < |indices|
        invariant heap[i := x] == h && indices[x := i] == ix && Indexed(h, ix) && h[i] == x
        invariant OnlyAt(h, lt, i) && (fine ==> ChildrenFine(h, lt, i)) && SameOn(old(indices), ix)
        decreases i
      {
        var p := Parent(i);
        Children(p, i);
        assert heap[p] == h[p];
        IndexedAt(h, ix, p);
        UpStep(h, lt, i);
        SwapIndexed(h, ix, i, p);
        SwapSame(h, ix, i, p);
        SameTrans(old(indices), ix, ix[h[p] := i][h[i] := p]);
        heap := heap[i := heap[p]];
        indices := indices[heap[p] := i];
        h, ix := Swapped(h, i, p), ix[h[p] := i][h[i] := p];
        i := p;
      }
      assert i != 0 ==> heap[Parent(i)] == h[Parent(i)];
      UpDone(h, lt, i);
      heap := heap[i := x];
      indices := indices[x := i];
      SameContents(old(indices), indices);
    }

    method PercolateDown(start: nat, lt: Order, ghost lo: nat)
      requires Valid() && Sorting.StrictWeakOrder(lt) && lo <= start < |heap| && DownFrom(heap, lt, lo, start)
      modifies this
      ensures Valid() && |heap| == |old(heap)| && |indices| == |old(indices)| && Contents() == old(Contents())
      ensures HeapedFrom(heap, lt, lo)
    {
      hide Indexed, DownFrom, HeapedFrom, Sorting.StrictWeakOrder, FirstChild;
      var i, x := start, heap[start];
      ghost var h, ix := heap, indices;
      ghost var c := 0;
      IndexedAt(h, ix, i);
      assert heap[i := x] == h && indices[x := i] == ix;
      while Left(i) < |heap|
        invariant lo <= i < |heap| == |h| && |indices| == |ix| == |old(indices)| && |h| == |old(heap)| && x < |indices|
        invariant heap[i := x] == h && indices[x := i] == ix && Indexed(h, ix) && h[i] == x
        invariant DownFrom(h, lt, lo, i) && SameOn(old(indices), ix)
        decreases |heap| - i
      {
        var child := if Right(i) < |heap| && lt(heap[Right(i)], heap[Left(i)]) then Right(i) else Left(i);
        c := child;
        assert heap[Left(i)] == h[Left(i)] && (Right(i) < |heap| ==> heap[Right(i)] == h[Right(i)]);
        FirstOfTwo(h, lt, i, c);
        if !lt(heap[child], x) {
          break;
        }
        IndexedAt(h, ix, c);
        DownStep(h, lt, lo, i, c);
        SwapIndexed(h, ix, i, c);
        SwapSame(h, ix, i, c);
        SameTrans(old(indices), ix, ix[h[c] := i][h[i] := c]);
        heap := heap[i := heap[child]];
        indices := indices[heap[i] := i];
        h, ix := Swapped(h, i, c), ix[h[c] := i][h[i] := c];
        i := child;
      }
      DownDone(h, lt, lo, i, c);
      heap := heap[i := x];
      indices := indices[x := i];
      SameContents(old(indices), indices);
    }

    // The key of n has moved forward since the heap was ordered by was.
    method Decrease(n: nat, lt: Order, ghost was: Order)
      requires Valid() && InHeap(n) && Heaped(heap, was) && SameBut(was, lt, n) && Earlier(was, lt, n)
      requires Sorting.StrictWeakOrder(was) && Sorting.StrictWeakOrder(lt)
      modifies this
      ensures Valid() && Heaped(heap, lt) && Contents() == old(Contents())
    {
      KeyMoved(heap, indices, was, lt, n);
      PercolateUp(indices[n], lt);
    }

    // The key of n has moved back.
    method Increase(n: nat, lt: Order, ghost was: Order)
      requires Valid() && InHeap(n) && Heaped(heap, was) && SameBut(was, lt, n) && Later(was, lt, n)
      requires Sorting.StrictWeakOrder(was) && Sorting.StrictWeakOrder(lt)
      modifies this
      ensures Valid() && Heaped(heap, lt) && Contents() == old(Contents())
    {
      KeyMoved(heap, indices, was, lt, n);
      PercolateDown(indices[n], lt, 0);
    }

    // The key of n has changed in any way, or n is new.
    method Update(n: nat, lt: Order, ghost was: Order)
      requires Valid() && Heaped(heap, was) && SameBut(was, lt, n)
      requires Sorting.StrictWeakOrder(was) && Sorting.StrictWeakOrder(lt)
      modifies this
      ensures Valid() && Heaped(heap, lt) && Contents() == old(Contents()) + {n}
    {
      if !InHeap(n) {
        OrderOff(heap, indices, was, lt, n);
        Insert(n, lt);
      } else {
        KeyMoved(heap, indices, was, lt, n);
        assert heap[indices[n]] == n;
        PercolateUp(indices[n], lt);
        PercolateDown(indices[n], lt, 0);
      }
    }

    method Insert(n: nat, lt: Order)
      requires Valid() && !InHeap(n) && Heaped(heap, lt) && Sorting.StrictWeakOrder(lt)
      modifies this
      ensures Valid() && Heaped(heap, lt) && Contents() == old(Contents()) + {n}
    {
      if |indices| < n + 1 {
        indices := indices + seq(n + 1 - |indices|, i => -1);
      }
      assert Indexed(heap, indices) && indices[n] == -1;
      indices := indices[n := |heap|];
      heap := heap + [n];
      LastNew(heap, lt);
      assert forall i :: 0 <= i < |heap| - 1 ==> heap[i] != n;
      assert Contents() == old(Contents()) + {n};
      PercolateUp(indices[n], lt);
    }

    // The element that is taken off comes first.
    method RemoveMin(lt: Order) returns (x: nat)
      requires Valid() && Heaped(heap, lt) && heap != [] && Sorting.StrictWeakOrder(lt)
      modifies this
      ensures Valid() && Heaped(heap, lt) && x in old(Contents()) && Contents() == old(Contents()) - {x}
      ensures forall n :: n in old(Contents()) ==> !lt(n, x)
    {
      x := heap[0];
      forall n | n in Contents() ensures !lt(n, x) {
        RootFirst(heap, lt, indices[n]);
      }
      ghost var h, ix := heap, indices;
      heap := heap[0 := heap[|heap| - 1]];
      indices := indices[heap[0] := 0];
      indices := indices[x := -1];
      heap := heap[..|heap| - 1];
      LastMoved(h, ix, lt);
      assert Contents() == old(Contents()) - {x};
      if |heap| > 1 {
        PercolateDown(0, lt, 0);
      }
    }

    // The heap is rebuilt from ns.
    method Build(ns: seq<nat>, lt: Order)
      requires Valid() && Sorting.StrictWeakOrder(lt) && NoDup(ns) && forall n :: n in ns ==> n < |indices|
      modifies this
      ensures Valid() && Heaped(heap, lt) && Contents() == set n | n in ns
    {
      for i := 0 to |heap|
        invariant heap == old(heap) && |indices| == |old(indices)|
        invariant forall n :: 0 <= n < |indices| ==>
                    indices[n] == if 0 <= old(indices[n]) < i then -1 else old(indices[n])
      {
        indices := indices[heap[i] := -1];
      }
      heap := [];
      for i := 0 to |ns|
        invariant heap == ns[..i] && |indices| == |old(indices)| && Indexed(heap, indices)
      {
        assert ns[i] in ns && ns[..i + 1] == ns[..i] + [ns[i]];
        assert ns[i] !in ns[..i];
        indices := indices[ns[i] := i];
        heap := heap + [ns[i]];
      }
      assert heap == ns;
      assert Contents() == set n | n in ns;
      var k: nat := |heap| / 2;
      NoChildren(heap, lt, k);
      while k > 0
        invariant Valid() && k <= |heap| / 2 && HeapedFrom(heap, lt, k) && Contents() == set n | n in ns
      {
        k := k - 1;
        OneMore(heap, lt, k);
        PercolateDown(k, lt, k);
      }
    }
  }

  // The same elements are on the heap.
  ghost predicate SameOn(was: seq<int>, now: seq<int>) {
    |was| == |now| && forall n :: 0 <= n < |was| ==> (was[n] >= 0 <==> now[n] >= 0)
  }

  lemma SameTrans(a: seq<int>, b: seq<int>, c: seq<int>)
    requires SameOn(a, b) && SameOn(b, c)
    ensures SameOn(a, c)
  {
  }

  lemma SameContents(was: seq<int>, now: seq<int>)
    requires SameOn(was, now)
    ensures (set n | 0 <= n < |was| && was[n] >= 0) == set n | 0 <= n < |now| && now[n] >= 0
  {
  }

  lemma SwapSame(h: seq<nat>, ix: seq<int>, i: nat, p: nat)
    requires Indexed(h, ix) && i < |h| && p < |h|
    ensures h[i] < |ix| && h[p] < |ix| && SameOn(ix, ix[h[p] := i][h[i] := p])
  {
  }

  lemma IndexedAt(h: seq<nat>, ix: seq<int>, i: nat)
    requires Indexed(h, ix) && i < |h|
    ensures h[i] < |ix| && ix[h[i]] == i
  {
  }

  lemma FirstOfTwo(h: seq<nat>, lt: Order, i: nat, c: nat)
    requires Sorting.StrictWeakOrder(lt) && i < |h| && Left(i) < |h|
    requires c == if Right(i) < |h| && lt(h[Right(i)], h[Left(i)]) then Right(i) else Left(i)
    ensures FirstChild(h, lt, i, c)
  {
    forall j | 0 < j < |h| && Parent(j) == i ensures !lt(h[j], h[c]) {
      Children(i, j);
    }
  }

  lemma LastNew(h: seq<nat>, lt: Order)
    requires h != [] && Heaped(h[..|h| - 1], lt)
    ensures OnlyAt(h, lt, |h| - 1) && ChildrenFine(h, lt, |h| - 1)
  {
    forall j | 0 < j < |h| - 1 ensures InOrder(h, lt, j) {
      assert InOrder(h[..|h| - 1], lt, j);
    }
  }

  // An element that is not on the heap is compared with nothing.
  lemma OrderOff(h: seq<nat>, ix: seq<int>, was: Order, lt: Order, n: nat)
    requires Indexed(h, ix) && (n < |ix| ==> ix[n] < 0) && Heaped(h, was) && SameBut(was, lt, n)
    ensures Heaped(h, lt)
  {
    forall j | 0 < j < |h| ensures InOrder(h, lt, j) {
      assert InOrder(h, was, j);
    }
  }

  lemma LastMoved(h: seq<nat>, ix: seq<int>, lt: Order)
    requires h != [] && Indexed(h, ix) && Heaped(h, lt)
    ensures var k := |h| - 1;
            var now, nix := h[0 := h[k]][..k], ix[h[k] := 0][h[0] := -1];
            Indexed(now, nix) && (k > 0 ==> DownFrom(now, lt, 0, 0)) && (k <= 1 ==> Heaped(now, lt))
  {
    var k := |h| - 1;
    var now := h[0 := h[k]][..k];
    forall j | 0 < j < |now| && Parent(j) != 0 ensures InOrder(now, lt, j) {
      assert InOrder(h, lt, j);
    }
  }

  lemma NoChildren(h: seq<nat>, lt: Order, k: nat)
    requires k == |h| / 2
    ensures HeapedFrom(h, lt, k)
  {
  }

  lemma OneMore(h: seq<nat>, lt: Order, k: nat)
    requires HeapedFrom(h, lt, k + 1)
    ensures DownFrom(h, lt, k, k)
  {
  }
}
