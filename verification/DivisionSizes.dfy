// The bounds that run_check of constraints/GraphDivision.cc reads off an order
// encoding, with the literals that give them.
module DivisionSizes {
  import opened Logic
  import opened Divisions
  import OE = OrderEncodings

  // size_lb_ and size_ub_ of a vertex, with the literals that say so.
  datatype SizeBounds = SizeBounds(lb: int, ub: int, lbWhy: seq<Lit>, ubWhy: seq<Lit>)

  // The literal left - 1 is the last one that is true.
  ghost predicate LowAt(e: Encoding, t: seq<Lit>, b: SizeBounds, i: nat) {
    && i < |e.values| == |e.lits| + 1 && b.lb == e.values[i]
    && b.lbWhy == (if i == 0 then [] else [e.lits[i - 1]])
    && (i > 0 ==> e.lits[i - 1] in t) && (i < |e.lits| ==> e.lits[i] !in t)
  }

  // The literal left is the first one that is false.
  ghost predicate HighAt(e: Encoding, t: seq<Lit>, b: SizeBounds, j: nat) {
    && j < |e.values| == |e.lits| + 1 && b.ub == e.values[j]
    && b.ubWhy == (if j == |e.lits| then [] else [Neg(e.lits[j])])
    && (j < |e.lits| ==> Neg(e.lits[j]) in t) && (j > 0 ==> Neg(e.lits[j - 1]) !in t)
  }

  ghost predicate BoundsFit(e: Encoding, t: seq<Lit>, b: SizeBounds) {
    (exists i: nat :: LowAt(e, t, b, i)) && exists j: nat :: HighAt(e, t, b, j)
  }

  // The order clauses have been propagated.
  ghost predicate Ordered(e: Encoding, t: seq<Lit>) {
    forall i, j :: 0 <= i < j < |e.lits| ==>
      (e.lits[j] in t ==> e.lits[i] in t) && (Neg(e.lits[i]) in t ==> Neg(e.lits[j]) in t)
  }

  lemma BoundsWhy(e: Encoding, t: seq<Lit>, b: SizeBounds)
    requires BoundsFit(e, t, b)
    ensures forall l :: l in b.lbWhy || l in b.ubWhy ==> l in t
  {
  }

  // The bounds hold for the literals that give them.
  lemma BoundsKeep(e: Encoding, n: nat, t: seq<Lit>, b: SizeBounds)
    requires EncodingOK(e, n) && BoundsFit(e, t, b)
    ensures Keeps(e, b.lbWhy + b.ubWhy, b.lb, b.ub) && Caps(e, b.ubWhy, b.ub)
  {
    forall a: Assignment, v | HasSize(e, a, v) ensures AllHold(a, b.lbWhy) ==> b.lb <= v {
      LowKeeps(e, n, t, b, a, v);
    }
    forall a: Assignment, v | HasSize(e, a, v) ensures AllHold(a, b.ubWhy) ==> v <= b.ub {
      HighKeeps(e, n, t, b, a, v);
    }
    forall a: Assignment ensures AllHold(a, b.lbWhy + b.ubWhy) <==> AllHold(a, b.lbWhy) && AllHold(a, b.ubWhy) {
      Split2(a, b.lbWhy, b.ubWhy);
    }
  }

  lemma LowKeeps(e: Encoding, n: nat, t: seq<Lit>, b: SizeBounds, a: Assignment, v: int)
    requires EncodingOK(e, n) && BoundsFit(e, t, b) && HasSize(e, a, v)
    ensures AllHold(a, b.lbWhy) ==> b.lb <= v
  {
    var i: nat :| LowAt(e, t, b, i);
    var k :| 0 <= k < |e.values| && e.values[k] == v && Steps(e, a, k);
    if AllHold(a, b.lbWhy) && i > 0 {
      assert e.lits[i - 1] in b.lbWhy;
    }
  }

  lemma HighKeeps(e: Encoding, n: nat, t: seq<Lit>, b: SizeBounds, a: Assignment, v: int)
    requires EncodingOK(e, n) && BoundsFit(e, t, b) && HasSize(e, a, v)
    ensures AllHold(a, b.ubWhy) ==> v <= b.ub
  {
    var j: nat :| HighAt(e, t, b, j);
    var k :| 0 <= k < |e.values| && e.values[k] == v && Steps(e, a, k);
    if AllHold(a, b.ubWhy) && j < |e.lits| {
      assert Neg(e.lits[j]) in b.ubWhy;
      NegHolds(a, e.lits[j]);
    }
  }

  // A bound that holds on the trail has its literal there: at_most(x) for the
  // upper one, at_least(x) for the lower one.
  lemma MostTrue(e: Encoding, n: nat, t: seq<Lit>, b: SizeBounds, x: int)
    requires EncodingOK(e, n) && !Absent(e) && BoundsFit(e, t, b) && Ordered(e, t) && b.ub <= x
    ensures AtMost(e, x) != Never && forall l :: l in BoundLits(AtMost(e, x)) ==> l in t
  {
    var j: nat :| HighAt(e, t, b, j);
    ValueRange(e.values, j);
    if AtMost(e, x).Is? {
      var k := OE.LowerBound(e.values, x + 1);
      IndexOrder(e.values, j, x + 1);
      assert j < k && k - 1 < |e.lits|;
    }
  }

  lemma LeastTrue(e: Encoding, n: nat, t: seq<Lit>, b: SizeBounds, x: int)
    requires EncodingOK(e, n) && !Absent(e) && BoundsFit(e, t, b) && Ordered(e, t) && x <= b.lb
    ensures AtLeast(e, x) != Never && forall l :: l in BoundLits(AtLeast(e, x)) ==> l in t
  {
    var i: nat :| LowAt(e, t, b, i);
    ValueRange(e.values, i);
    if AtLeast(e, x).Is? {
      var k := OE.LowerBound(e.values, x);
      IndexOrder(e.values, i, x);
      assert 1 <= k <= i;
    }
  }

  // Within the domain a bound is possible.
  lemma LeastPossible(e: Encoding, n: nat, t: seq<Lit>, b: SizeBounds, x: int)
    requires EncodingOK(e, n) && !Absent(e) && BoundsFit(e, t, b)
    ensures x <= b.ub ==> AtLeast(e, x) != Never
    ensures b.lb <= x ==> AtMost(e, x) != Never
    ensures b.lb <= n
  {
    var i: nat :| LowAt(e, t, b, i);
    var j: nat :| HighAt(e, t, b, j);
    ValueRange(e.values, i);
    ValueRange(e.values, j);
  }

  // The literal that is enqueued is not false if the bound does not say so.
  lemma EncodedLit(e: Encoding, x: int)
    requires |e.values| == |e.lits| + 1
    ensures AtLeast(e, x).Is? ==> AtLeast(e, x).l in e.lits
    ensures AtMost(e, x).Is? ==> Neg(AtMost(e, x).l) in e.lits
  {
    if AtMost(e, x).Is? {
      var l := e.lits[OE.LowerBound(e.values, x + 1) - 1];
      assert Neg(Neg(l)) == l;
    }
  }

  lemma BoundsMeet(e: Encoding, n: nat, t: seq<Lit>, b: SizeBounds)
    requires EncodingOK(e, n) && !Absent(e) && BoundsFit(e, t, b) && Ordered(e, t) && NoClash(t)
    ensures b.lb <= b.ub
  {
    var i: nat :| LowAt(e, t, b, i);
    var j: nat :| HighAt(e, t, b, j);
    LowBeforeHigh(e, t, b, i, j);
    assert i < j ==> e.values[i] < e.values[j];
  }

  lemma LowBeforeHigh(e: Encoding, t: seq<Lit>, b: SizeBounds, i: nat, j: nat)
    requires LowAt(e, t, b, i) && HighAt(e, t, b, j) && Ordered(e, t) && NoClash(t)
    ensures i <= j
  {
    if i > 0 {
      TrueBelow(e, t, i - 1);
    }
  }

  lemma TrueBelow(e: Encoding, t: seq<Lit>, k: nat)
    requires Ordered(e, t) && NoClash(t) && k < |e.lits| && e.lits[k] in t
    ensures forall j :: 0 <= j <= k ==> e.lits[j] in t && Neg(e.lits[j]) !in t
  {
  }

  predicate IsFalseIn(t: seq<Lit>, l: Lit) {
    Neg(l) in t
  }

  ghost predicate Settled(t: seq<Lit>, l: Lit) {
    l in t || Neg(l) in t
  }

  // The bounds of a decided size meet in its value.
  lemma TotalSize(e: Encoding, n: nat, t: seq<Lit>, b: SizeBounds, a: Assignment)
    requires EncodingOK(e, n) && !Absent(e) && BoundsFit(e, t, b) && Ordered(e, t) && NoClash(t) && AllHold(a, t)
    requires forall i :: 0 <= i < |e.lits| ==> Settled(t, e.lits[i])
    ensures b.lb == b.ub && HasSize(e, a, b.lb)
  {
    var i: nat :| LowAt(e, t, b, i);
    var j: nat :| HighAt(e, t, b, j);
    LowBeforeHigh(e, t, b, i, j);
    if j > 0 {
      assert Settled(t, e.lits[j - 1]);
      TrueBelow(e, t, j - 1);
    }
    assert i == j;
    forall x | 0 <= x < |e.lits| ensures Holds(a, e.lits[x]) <==> x < i {
      assert Settled(t, e.lits[x]);
      NegHolds(a, e.lits[x]);
      if x < i {
        assert e.lits[x] in t;
      } else {
        assert Neg(e.lits[i]) in t && Neg(e.lits[x]) in t;
      }
    }
    assert Steps(e, a, i);
  }

  lemma MostThere(e: Encoding, n: nat, ls: seq<Lit>, b: SizeBounds, x: int)
    requires EncodingOK(e, n) && !Absent(e) && BoundsFit(e, ls, b) && Ordered(e, ls) && AtMost(e, x) != Never
    requires forall l :: l in BoundLits(AtMost(e, x)) ==> l in ls
    ensures b.ub <= x
  {
    var j: nat :| HighAt(e, ls, b, j);
    ValueRange(e.values, j);
    if AtMost(e, x).Is? {
      var k := OE.LowerBound(e.values, x + 1);
      assert AtMost(e, x).l in BoundLits(AtMost(e, x));
      FirstFalse(e, ls, b, j, k - 1);
      IndexOrder(e.values, j, x + 1);
    }
  }

  lemma FirstFalse(e: Encoding, ls: seq<Lit>, b: SizeBounds, j: nat, k: nat)
    requires HighAt(e, ls, b, j) && Ordered(e, ls) && k < |e.lits| && Neg(e.lits[k]) in ls
    ensures j <= k
  {
  }

  lemma LastTrue(e: Encoding, ls: seq<Lit>, b: SizeBounds, i: nat, k: nat)
    requires LowAt(e, ls, b, i) && Ordered(e, ls) && k < |e.lits| && e.lits[k] in ls
    ensures k < i
  {
  }

  lemma LeastThere(e: Encoding, n: nat, ls: seq<Lit>, b: SizeBounds, x: int)
    requires EncodingOK(e, n) && !Absent(e) && BoundsFit(e, ls, b) && Ordered(e, ls) && AtLeast(e, x) != Never
    requires forall l :: l in BoundLits(AtLeast(e, x)) ==> l in ls
    ensures x <= b.lb
  {
    var i: nat :| LowAt(e, ls, b, i);
    ValueRange(e.values, i);
    if AtLeast(e, x).Is? {
      var k := OE.LowerBound(e.values, x);
      assert AtLeast(e, x).l in BoundLits(AtLeast(e, x));
      LastTrue(e, ls, b, i, k - 1);
      IndexOrder(e.values, i, x);
    }
  }

  // A bound whose literal is true elsewhere is at least as good there.
  lemma UpperThere(e: Encoding, n: nat, t: seq<Lit>, b: SizeBounds, ls: seq<Lit>, c: SizeBounds)
    requires EncodingOK(e, n) && BoundsFit(e, t, b) && BoundsFit(e, ls, c) && Ordered(e, ls) && !Absent(e)
    requires forall l :: l in b.ubWhy ==> l in ls
    ensures c.ub <= b.ub
  {
    var j: nat :| HighAt(e, t, b, j);
    var k: nat :| HighAt(e, ls, c, k);
    if j < |e.lits| {
      assert Neg(e.lits[j]) in b.ubWhy;
      FirstFalse(e, ls, c, k, j);
    }
    assert k < j ==> e.values[k] < e.values[j];
  }

  lemma LowerThere(e: Encoding, n: nat, t: seq<Lit>, b: SizeBounds, ls: seq<Lit>, c: SizeBounds)
    requires EncodingOK(e, n) && BoundsFit(e, t, b) && BoundsFit(e, ls, c) && Ordered(e, ls) && !Absent(e)
    requires forall l :: l in b.lbWhy ==> l in ls
    ensures b.lb <= c.lb
  {
    var i: nat :| LowAt(e, t, b, i);
    var k: nat :| LowAt(e, ls, c, k);
    if i > 0 {
      assert e.lits[i - 1] in b.lbWhy;
      LastTrue(e, ls, c, k, i - 1);
    }
    assert i < k ==> e.values[i] < e.values[k];
  }
}
