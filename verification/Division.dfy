// What a division of a graph into regions is, and why the rules of run_check in
// constraints/GraphDivision.cc are sound.
module Divisions {
  import opened Logic
  import UF = UnionFinds
  import OE = OrderEncodings

  // OptionalOrderEncoding: literal i says that the value is at least values[i + 1].
  datatype Encoding = Encoding(lits: seq<Lit>, values: seq<int>)

  predicate Absent(e: Encoding) {
    |e.values| == 0
  }

  ghost predicate EncodingOK(e: Encoding, n: nat) {
    !Absent(e) ==>
      |e.values| == |e.lits| + 1 && OE.Ascending(e.values) && e.values[|e.lits|] <= n
  }

  ghost predicate Steps(e: Encoding, a: Assignment, i: nat) {
    forall j :: 0 <= j < |e.lits| ==> (Holds(a, e.lits[j]) <==> j < i)
  }

  // The assignment gives the variable the value x.
  ghost predicate HasSize(e: Encoding, a: Assignment, x: int) {
    exists i :: 0 <= i < |e.values| && e.values[i] == x && Steps(e, a, i)
  }

  // An absent bound, an impossible one (lit_Undef), or a literal.
  datatype Bound = Always | Never | Is(l: Lit)

  lemma BoundInside(d: seq<int>, x: int)
    requires |d| > 0 && d[0] < x <= d[|d| - 1]
    ensures 1 <= OE.LowerBound(d, x) < |d|
  {
  }

  function AtLeast(e: Encoding, x: int): Bound
    requires |e.values| == |e.lits| + 1
  {
    if x <= e.values[0] then Always
    else if x > e.values[|e.lits|] then Never
    else
      BoundInside(e.values, x);
      Is(e.lits[OE.LowerBound(e.values, x) - 1])
  }

  function AtMost(e: Encoding, x: int): Bound
    requires |e.values| == |e.lits| + 1
  {
    if x >= e.values[|e.lits|] then Always
    else if x < e.values[0] then Never
    else
      BoundInside(e.values, x + 1);
      Is(Neg(e.lits[OE.LowerBound(e.values, x + 1) - 1]))
  }

  ghost predicate Says(b: Bound, a: Assignment, holds: bool) {
    match b
    case Always => holds
    case Never => !holds
    case Is(l) => Holds(a, l) <==> holds
  }

  lemma IndexOrder(d: seq<int>, i: nat, x: int)
    requires OE.Ascending(d) && i < |d|
    ensures OE.LowerBound(d, x) <= i <==> x <= d[i]
  {
    var k := OE.LowerBound(d, x);
    if k < i {
      assert d[k] < d[i];
    }
  }

  lemma AtLeastMeans(e: Encoding, n: nat, a: Assignment, v: int, x: int)
    requires EncodingOK(e, n) && !Absent(e) && HasSize(e, a, v)
    ensures Says(AtLeast(e, x), a, v >= x)
  {
    var i :| 0 <= i < |e.values| && e.values[i] == v && Steps(e, a, i);
    IndexOrder(e.values, i, x);
    IndexOrder(e.values, 0, x);
    IndexOrder(e.values, |e.lits|, x);
    ValueRange(e.values, i);
  }

  lemma AtMostMeans(e: Encoding, n: nat, a: Assignment, v: int, x: int)
    requires EncodingOK(e, n) && !Absent(e) && HasSize(e, a, v)
    ensures Says(AtMost(e, x), a, v <= x)
  {
    var i :| 0 <= i < |e.values| && e.values[i] == v && Steps(e, a, i);
    IndexOrder(e.values, i, x + 1);
    ValueRange(e.values, i);
    if AtMost(e, x).Is? {
      NegHolds(a, e.lits[OE.LowerBound(e.values, x + 1) - 1]);
    }
  }

  lemma ValueRange(d: seq<int>, i: nat)
    requires OE.Ascending(d) && i < |d|
    ensures d[0] <= d[i] <= d[|d| - 1]
  {
  }

  // ------------------------------------------------------------------ regions

  // edges join two vertices each; a border literal is true where a border runs.
  datatype Division = Division(sizes: seq<Encoding>, edges: seq<(nat, nat)>, borders: seq<Lit>)

  ghost predicate DivisionOK(d: Division) {
    && |d.edges| == |d.borders|
    && (forall e :: 0 <= e < |d.edges| ==>
          d.edges[e].0 < |d.sizes| && d.edges[e].1 < |d.sizes| && d.edges[e].0 != d.edges[e].1)
    && (forall u :: 0 <= u < |d.sizes| ==> EncodingOK(d.sizes[u], |d.sizes|))
  }

  // The edges without a border.
  ghost function Open(d: Division, a: Assignment): set<(nat, nat)>
    requires |d.edges| == |d.borders|
  {
    set e | 0 <= e < |d.edges| && !Holds(a, d.borders[e]) :: d.edges[e]
  }

  ghost function RegionOf(n: nat, pairs: set<(nat, nat)>, u: nat): set<nat> {
    set v | 0 <= v < n && UF.Joined(pairs, u, v)
  }

  // The constraint: no border runs within a region, and the size variables give
  // the sizes of the regions.
  ghost predicate Divides(d: Division, a: Assignment)
    requires |d.edges| == |d.borders|
  {
    && (forall e :: 0 <= e < |d.edges| && Holds(a, d.borders[e]) ==> Apart(d, a, e))
    && (forall u :: 0 <= u < |d.sizes| && !Absent(d.sizes[u]) ==> SizeFits(d, a, u))
  }

  ghost predicate Apart(d: Division, a: Assignment, e: nat)
    requires |d.edges| == |d.borders| && e < |d.edges|
  {
    !UF.Joined(Open(d, a), d.edges[e].0, d.edges[e].1)
  }

  ghost predicate SizeFits(d: Division, a: Assignment, u: nat)
    requires |d.edges| == |d.borders| && u < |d.sizes|
  {
    HasSize(d.sizes[u], a, |RegionOf(|d.sizes|, Open(d, a), u)|)
  }

  // No division meets all the literals of r.
  ghost predicate Refuted(d: Division, r: seq<Lit>)
    requires |d.edges| == |d.borders|
  {
    forall a: Assignment :: Divides(d, a) ==> !AllHold(a, r)
  }

  ghost predicate Implied(d: Division, r: seq<Lit>, p: Lit)
    requires |d.edges| == |d.borders|
  {
    forall a: Assignment :: Divides(d, a) && AllHold(a, r) ==> Holds(a, p)
  }

  // ----------------------------------------------------------------- joining

  ghost predicate Within(pairs: set<(nat, nat)>, n: nat) {
    forall e :: e in pairs ==> e.0 < n && e.1 < n
  }

  lemma JoinedSelf(pairs: set<(nat, nat)>, u: nat)
    ensures UF.Joined(pairs, u, u)
  {
  }

  lemma JoinedTrans(pairs: set<(nat, nat)>, u: nat, v: nat, w: nat)
    requires UF.Joined(pairs, u, v) && UF.Joined(pairs, v, w)
    ensures UF.Joined(pairs, u, w)
  {
  }

  lemma JoinedPair(pairs: set<(nat, nat)>, u: nat, w: nat)
    requires (u, w) in pairs || (w, u) in pairs
    ensures UF.Joined(pairs, u, w)
  {
    forall x: set<nat> | UF.Respects(pairs, x) && u in x ensures w in x {
      if (u, w) in pairs {
        assert (u, w).0 in x <==> (u, w).1 in x;
      } else {
        assert (w, u).0 in x <==> (w, u).1 in x;
      }
    }
  }

  lemma JoinedSym(pairs: set<(nat, nat)>, n: nat, u: nat, w: nat)
    requires Within(pairs, n) && u < n && w < n && UF.Joined(pairs, u, w)
    ensures UF.Joined(pairs, w, u)
  {
    forall x: set<nat> | UF.Respects(pairs, x) && w in x ensures u in x {
      var rest := set v | 0 <= v < n && v !in x;
      assert UF.Respects(pairs, rest);
      assert u in rest ==> w in rest;
    }
  }

  lemma JoinedMore(few: set<(nat, nat)>, more: set<(nat, nat)>, u: nat, w: nat)
    requires UF.Joined(few, u, w) && few <= more
    ensures UF.Joined(more, u, w)
  {
    forall x: set<nat> | UF.Respects(more, x) && u in x ensures w in x {
      assert UF.Respects(few, x);
    }
  }

  lemma OpenWithin(d: Division, a: Assignment)
    requires DivisionOK(d)
    ensures Within(Open(d, a), |d.sizes|)
  {
  }

  lemma SameRegion(n: nat, pairs: set<(nat, nat)>, u: nat, w: nat)
    requires Within(pairs, n) && u < n && w < n && UF.Joined(pairs, u, w)
    ensures RegionOf(n, pairs, u) == RegionOf(n, pairs, w)
  {
    hide UF.Joined;
    JoinedSym(pairs, n, u, w);
    forall v | 0 <= v < n ensures UF.Joined(pairs, u, v) <==> UF.Joined(pairs, w, v) {
      if UF.Joined(pairs, u, v) {
        JoinedTrans(pairs, w, u, v);
      }
      if UF.Joined(pairs, w, v) {
        JoinedTrans(pairs, u, w, v);
      }
    }
  }

  // Vertices of regions of different sizes are in disjoint regions.
  lemma OtherRegion(n: nat, pairs: set<(nat, nat)>, u: nat, w: nat)
    requires Within(pairs, n) && u < n && w < n && |RegionOf(n, pairs, u)| != |RegionOf(n, pairs, w)|
    ensures RegionOf(n, pairs, u) !! RegionOf(n, pairs, w)
  {
    hide UF.Joined;
    forall v | v in RegionOf(n, pairs, u) && v in RegionOf(n, pairs, w) ensures false {
      SameRegion(n, pairs, u, v);
      SameRegion(n, pairs, w, v);
      assert false;
    }
  }

  // ------------------------------------------------------------- explanations

  // With the literals of r, u and w are in one region.
  ghost predicate Joins(d: Division, r: seq<Lit>, u: nat, w: nat)
    requires |d.edges| == |d.borders|
  {
    forall a: Assignment :: AllHold(a, r) ==> UF.Joined(Open(d, a), u, w)
  }

  // With the literals of r, the vertices of x are in one region.
  ghost predicate Gathers(d: Division, r: seq<Lit>, x: set<nat>)
    requires |d.edges| == |d.borders|
  {
    forall a: Assignment, u, w :: AllHold(a, r) && u in x && w in x ==> UF.Joined(Open(d, a), u, w)
  }

  // With the literals of r, no region goes beyond x.
  ghost predicate Fences(d: Division, r: seq<Lit>, x: set<nat>)
    requires |d.edges| == |d.borders|
  {
    forall a: Assignment, u :: AllHold(a, r) && u in x ==> RegionOf(|d.sizes|, Open(d, a), u) <= x
  }

  ghost predicate Inside(d: Division, x: set<nat>) {
    forall u :: u in x ==> u < |d.sizes|
  }

  // The literal of a bound, if there is one.
  function BoundLits(b: Bound): seq<Lit> {
    if b.Is? then [b.l] else []
  }

  lemma Split2(a: Assignment, r: seq<Lit>, s: seq<Lit>)
    ensures AllHold(a, r + s) <==> AllHold(a, r) && AllHold(a, s)
  {
    assert forall l :: l in r + s <==> l in r || l in s;
  }

  lemma Holds1(a: Assignment, l: Lit)
    ensures AllHold(a, [l]) <==> Holds(a, l)
  {
    assert l in [l];
  }

  lemma BoundSays(b: Bound, a: Assignment, holds: bool)
    requires Says(b, a, holds) && b != Never && AllHold(a, BoundLits(b))
    ensures holds
  {
    if b.Is? {
      Holds1(a, b.l);
    }
  }

  ghost predicate Between(d: Division, e: nat, u: nat, w: nat) {
    e < |d.edges| && (d.edges[e] == (u, w) || d.edges[e] == (w, u))
  }

  // Rule 1.
  lemma BorderWithin(d: Division, r: seq<Lit>, u: nat, w: nat, e: nat)
    requires DivisionOK(d) && Joins(d, r, u, w) && Between(d, e, u, w)
    ensures Refuted(d, r + [d.borders[e]]) && Implied(d, r, Neg(d.borders[e]))
  {
    hide UF.Joined, Open, SizeFits, AllHold;
    forall a: Assignment | Divides(d, a) && AllHold(a, r) ensures !Holds(a, d.borders[e]) {
      if Holds(a, d.borders[e]) {
        assert Apart(d, a, e);
        OpenWithin(d, a);
        if d.edges[e] == (w, u) {
          JoinedSym(Open(d, a), |d.sizes|, u, w);
        }
        assert false;
      }
    }
    forall a: Assignment | Divides(d, a) ensures !AllHold(a, r + [d.borders[e]]) {
      Split2(a, r, [d.borders[e]]);
      Holds1(a, d.borders[e]);
    }
    forall a: Assignment | Divides(d, a) && AllHold(a, r) ensures Holds(a, Neg(d.borders[e])) {
      NegHolds(a, d.borders[e]);
    }
  }

  lemma GatheredSize(d: Division, r: seq<Lit>, x: set<nat>, p: nat, a: Assignment)
    requires DivisionOK(d) && Gathers(d, r, x) && Inside(d, x) && p in x && AllHold(a, r)
    ensures |x| <= |RegionOf(|d.sizes|, Open(d, a), p)|
  {
    hide UF.Joined, Open;
    var y := RegionOf(|d.sizes|, Open(d, a), p);
    assert x <= y;
    SubsetSize(x, y);
  }

  // Rule 2: the size is at least that of the decided region.
  lemma TooFew(d: Division, r: seq<Lit>, x: set<nat>, p: nat)
    requires DivisionOK(d) && Gathers(d, r, x) && Inside(d, x) && p in x && p < |d.sizes| && !Absent(d.sizes[p])
    requires |d.sizes[p].values| == |d.sizes[p].lits| + 1
    ensures var b := AtMost(d.sizes[p], |x| - 1); b != Never ==> Refuted(d, r + BoundLits(b))
    ensures var b := AtLeast(d.sizes[p], |x|); b.Is? ==> Implied(d, r, b.l)
  {
    hide UF.Joined, Open, HasSize, EncodingOK, AtMost, AtLeast, RegionOf, Gathers, AllHold, Apart, BoundLits;
    var e, n := d.sizes[p], |d.sizes|;
    var b := AtMost(e, |x| - 1);
    forall a: Assignment | Divides(d, a) && b != Never ensures !AllHold(a, r + BoundLits(b)) {
      Split2(a, r, BoundLits(b));
      if AllHold(a, r) && AllHold(a, BoundLits(b)) {
        assert SizeFits(d, a, p);
        GatheredSize(d, r, x, p, a);
        AtMostMeans(e, n, a, |RegionOf(n, Open(d, a), p)|, |x| - 1);
        BoundSays(b, a, |RegionOf(n, Open(d, a), p)| <= |x| - 1);
        assert false;
      }
    }
    forall a: Assignment | Divides(d, a) && AllHold(a, r) && AtLeast(e, |x|).Is? ensures Holds(a, AtLeast(e, |x|).l) {
      assert SizeFits(d, a, p);
      GatheredSize(d, r, x, p, a);
      AtLeastMeans(e, n, a, |RegionOf(n, Open(d, a), p)|, |x|);
    }
  }

  // The literals of r keep the size between lo and hi.
  ghost predicate Keeps(e: Encoding, r: seq<Lit>, lo: int, hi: int) {
    forall a: Assignment, v :: HasSize(e, a, v) && AllHold(a, r) ==> lo <= v <= hi
  }

  ghost predicate Caps(e: Encoding, r: seq<Lit>, hi: int) {
    forall a: Assignment, v :: HasSize(e, a, v) && AllHold(a, r) ==> v <= hi
  }

  // Rule 2: the sizes within a region are equal.
  lemma SizesDiffer(d: Division, r: seq<Lit>, cap: seq<Lit>, u: nat, p: nat, hi: int)
    requires DivisionOK(d) && Joins(d, r, u, p) && u < |d.sizes| && p < |d.sizes|
    requires !Absent(d.sizes[u]) && !Absent(d.sizes[p]) && Caps(d.sizes[u], cap, hi)
    requires |d.sizes[p].values| == |d.sizes[p].lits| + 1
    ensures var b := AtLeast(d.sizes[p], hi + 1); b != Never ==> Refuted(d, r + cap + BoundLits(b))
  {
    hide UF.Joined, Open, HasSize, EncodingOK, AtLeast, RegionOf, AllHold, Apart, BoundLits;
    var e, n := d.sizes[p], |d.sizes|;
    var b := AtLeast(e, hi + 1);
    forall a: Assignment | Divides(d, a) && b != Never ensures !AllHold(a, r + cap + BoundLits(b)) {
      Split2(a, r + cap, BoundLits(b));
      Split2(a, r, cap);
      if AllHold(a, r) && AllHold(a, cap) && AllHold(a, BoundLits(b)) {
        assert SizeFits(d, a, u) && SizeFits(d, a, p);
        OpenWithin(d, a);
        SameRegion(n, Open(d, a), u, p);
        AtLeastMeans(e, n, a, |RegionOf(n, Open(d, a), p)|, hi + 1);
        BoundSays(b, a, |RegionOf(n, Open(d, a), p)| >= hi + 1);
        assert false;
      }
    }
  }

  lemma FencedSize(d: Division, r: seq<Lit>, x: set<nat>, p: nat, a: Assignment)
    requires DivisionOK(d) && Fences(d, r, x) && p in x && AllHold(a, r)
    ensures |RegionOf(|d.sizes|, Open(d, a), p)| <= |x|
  {
    hide RegionOf, Open;
    SubsetSize(RegionOf(|d.sizes|, Open(d, a), p), x);
  }

  // Rule 3: the size is at most that of the potential region.
  lemma TooMany(d: Division, r: seq<Lit>, x: set<nat>, p: nat)
    requires DivisionOK(d) && Fences(d, r, x) && p in x && p < |d.sizes| && !Absent(d.sizes[p])
    requires |d.sizes[p].values| == |d.sizes[p].lits| + 1
    ensures var b := AtLeast(d.sizes[p], |x| + 1); b != Never ==> Refuted(d, r + BoundLits(b))
    ensures var b := AtMost(d.sizes[p], |x|); b.Is? ==> Implied(d, r, b.l)
  {
    hide UF.Joined, Open, HasSize, EncodingOK, AtMost, AtLeast, RegionOf, Fences, AllHold, Apart, BoundLits;
    var e, n := d.sizes[p], |d.sizes|;
    var b := AtLeast(e, |x| + 1);
    forall a: Assignment | Divides(d, a) && b != Never ensures !AllHold(a, r + BoundLits(b)) {
      Split2(a, r, BoundLits(b));
      if AllHold(a, r) && AllHold(a, BoundLits(b)) {
        assert SizeFits(d, a, p);
        FencedSize(d, r, x, p, a);
        AtLeastMeans(e, n, a, |RegionOf(n, Open(d, a), p)|, |x| + 1);
        BoundSays(b, a, |RegionOf(n, Open(d, a), p)| >= |x| + 1);
        assert false;
      }
    }
    forall a: Assignment | Divides(d, a) && AllHold(a, r) && AtMost(e, |x|).Is? ensures Holds(a, AtMost(e, |x|).l) {
      assert SizeFits(d, a, p);
      FencedSize(d, r, x, p, a);
      AtMostMeans(e, n, a, |RegionOf(n, Open(d, a), p)|, |x|);
    }
  }

  // ---------------------------------------------------------------- rule 3a

  // A vertex whose size is kept between lo and hi by lits.
  datatype Cell = Cell(v: nat, lo: int, hi: int, lits: seq<Lit>)

  function SumLo(cells: seq<Cell>): int {
    if cells == [] then 0 else SumLo(cells[..|cells| - 1]) + cells[|cells| - 1].lo
  }

  function CellLits(cells: seq<Cell>): seq<Lit> {
    if cells == [] then [] else CellLits(cells[..|cells| - 1]) + cells[|cells| - 1].lits
  }

  ghost predicate CellOK(d: Division, x: set<nat>, c: Cell) {
    && c.v in x && c.v < |d.sizes| && !Absent(d.sizes[c.v])
    && Keeps(d.sizes[c.v], c.lits, c.lo, c.hi)
  }

  // Intervals that do not overlap, one after the other.
  ghost predicate Staggered(cells: seq<Cell>) {
    forall i, j :: 0 <= i < j < |cells| ==> cells[i].hi < cells[j].lo
  }

  // The regions of the cells, together.
  ghost function Covered(d: Division, a: Assignment, cells: seq<Cell>): set<nat>
    requires |d.edges| == |d.borders|
  {
    if cells == [] then {}
    else Covered(d, a, cells[..|cells| - 1]) + RegionOf(|d.sizes|, Open(d, a), cells[|cells| - 1].v)
  }

  lemma CellSize(d: Division, x: set<nat>, a: Assignment, c: Cell)
    requires DivisionOK(d) && CellOK(d, x, c) && Divides(d, a) && AllHold(a, c.lits)
    ensures c.lo <= |RegionOf(|d.sizes|, Open(d, a), c.v)| <= c.hi
  {
    hide RegionOf, Open, HasSize, AllHold, Apart;
    assert SizeFits(d, a, c.v);
  }

  lemma {:induction false} CoveredApart(d: Division, x: set<nat>, a: Assignment, cells: seq<Cell>, c: Cell)
    requires DivisionOK(d) && Divides(d, a) && (forall k :: 0 <= k < |cells| ==> CellOK(d, x, cells[k]))
    requires AllHold(a, CellLits(cells)) && c.v < |d.sizes|
    requires forall k :: 0 <= k < |cells| ==> cells[k].hi < |RegionOf(|d.sizes|, Open(d, a), c.v)|
    ensures Covered(d, a, cells) !! RegionOf(|d.sizes|, Open(d, a), c.v)
  {
    hide RegionOf, Open, Divides, CellOK, AllHold, DivisionOK;
    assert |d.edges| == |d.borders| by { DivisionLengths(d); }
    if cells != [] {
      var k := |cells| - 1;
      Split2(a, CellLits(cells[..k]), cells[k].lits);
      CoveredApart(d, x, a, cells[..k], c);
      CellSize(d, x, a, cells[k]);
      CellInside(d, x, cells[k]);
      OpenWithin(d, a);
      OtherRegion(|d.sizes|, Open(d, a), cells[k].v, c.v);
    }
  }

  lemma DivisionLengths(d: Division)
    requires DivisionOK(d)
    ensures |d.edges| == |d.borders|
  {
  }

  lemma CellInside(d: Division, x: set<nat>, c: Cell)
    requires CellOK(d, x, c)
    ensures c.v < |d.sizes| && c.v in x
  {
  }

  // The regions of the cells need at least the sum of the lower bounds.
  lemma {:induction false} CoveredSum(d: Division, x: set<nat>, r: seq<Lit>, a: Assignment, cells: seq<Cell>)
    requires DivisionOK(d) && Divides(d, a) && (forall k :: 0 <= k < |cells| ==> CellOK(d, x, cells[k]))
    requires AllHold(a, CellLits(cells)) && Staggered(cells) && Fences(d, r, x) && AllHold(a, r)
    ensures SumLo(cells) <= |Covered(d, a, cells)| && Covered(d, a, cells) <= x
  {
    hide RegionOf, Open, Divides, CellOK, AllHold, DivisionOK;
    assert |d.edges| == |d.borders| by { DivisionLengths(d); }
    if cells != [] {
      var k := |cells| - 1;
      var front, c := cells[..k], cells[k];
      Split2(a, CellLits(front), c.lits);
      CoveredSum(d, x, r, a, front);
      CellSize(d, x, a, c);
      CellInside(d, x, c);
      assert forall i :: 0 <= i < k ==> front[i].hi < c.lo;
      CoveredApart(d, x, a, front, c);
    }
  }

  // Rule 3a: disjoint size intervals need the sum of their lower bounds.
  lemma TooTight(d: Division, r: seq<Lit>, x: set<nat>, cells: seq<Cell>)
    requires DivisionOK(d) && Fences(d, r, x) && Staggered(cells) && SumLo(cells) > |x|
    requires forall k :: 0 <= k < |cells| ==> CellOK(d, x, cells[k])
    ensures Refuted(d, r + CellLits(cells))
  {
    hide RegionOf, Open, Divides, CellOK, AllHold, DivisionOK, Fences, Staggered, SumLo, CellLits, Covered;
    assert |d.edges| == |d.borders| by { DivisionLengths(d); }
    forall a: Assignment | Divides(d, a) ensures !AllHold(a, r + CellLits(cells)) {
      Split2(a, r, CellLits(cells));
      if AllHold(a, r) && AllHold(a, CellLits(cells)) {
        CoveredSum(d, x, r, a, cells);
        SubsetSize(Covered(d, a, cells), x);
        assert false;
      }
    }
  }
}
