// An objection of run_check has literals that no state it found fine has: in a part
// of the present state where the objection held too, the same rule would object.
module DivisionNews {
  import opened Logic
  import opened Divisions
  import opened DivisionRegions
  import opened DivisionSizes
  import opened DivisionViews
  import UF = UnionFinds

  lemma {:induction false} ChosenLits(cells: seq<Cell>, k: nat)
    requires k < |cells|
    ensures forall l :: l in cells[k].lits ==> l in CellLits(cells)
  {
    if k < |cells| - 1 {
      ChosenLits(cells[..|cells| - 1], k);
    }
  }

  lemma AbsentBounds(d: Division, adj: Adjacency, v: View, t: seq<Lit>, p: nat)
    requires Prepared(d, adj, v, t) && p < |d.sizes| && p < |v.bounds| && v.bounds[p].lb > 0
    ensures !Absent(d.sizes[p])
  {
    hide AdjOK, StatesOK, PartitionOK, Pairs, Unmixed, NoClash, BoundsOK, AllOrdered, DivisionOK;
  }

  // Borders that are undecided in ls are taken to be there, or not to be.
  ghost function Shown(d: Division, ls: seq<Lit>, border: bool): Assignment {
    (set l | l in ls && !l.sign :: l.v)
    + (set e | 0 <= e < |d.borders| && d.borders[e] !in ls && Neg(d.borders[e]) !in ls
               && d.borders[e].sign != border :: d.borders[e].v)
  }

  lemma SameSigns(d: Division, e: nat, f: nat)
    requires Unmixed(d) && e < |d.borders| && f < |d.borders| && d.borders[e].v == d.borders[f].v
    ensures d.borders[e] == d.borders[f]
  {
    assert d.borders[e] != Neg(d.borders[f]);
  }

  lemma TwoSigns(x: Lit, y: Lit)
    ensures x.v == y.v ==> x == y || Neg(x) == y
  {
  }

  // It agrees with the watched literals of ls, and has the borders wanted.
  lemma ShownHolds(d: Division, t: seq<Lit>, ls: seq<Lit>, border: bool, l: Lit)
    requires Unmixed(d) && NoClash(t) && WatchedIn(d, ls, t) && Watches(d, l) && l in ls
    ensures Holds(Shown(d, ls, border), l)
  {
    var a := Shown(d, ls, border);
    assert Watches(d, Neg(l)) && Neg(l) !in ls by {
      assert Neg(l).v == l.v;
      assert l in t;
    }
    if l.sign {
      forall m | m in ls && !m.sign ensures m.v != l.v {
        assert m.v == l.v ==> m == Neg(l);
      }
      forall e | 0 <= e < |d.borders| && d.borders[e] !in ls && Neg(d.borders[e]) !in ls ensures d.borders[e].v != l.v {
        TwoSigns(d.borders[e], l);
      }
    }
  }

  lemma ShownBorder(d: Division, ls: seq<Lit>, border: bool, e: nat)
    requires Unmixed(d) && e < |d.borders| && d.borders[e] !in ls && Neg(d.borders[e]) !in ls
    ensures Holds(Shown(d, ls, border), d.borders[e]) <==> border
  {
    var a, b := Shown(d, ls, border), d.borders[e];
    forall m | m in ls ensures m.v != b.v {
      assert m.v == b.v ==> m == b || m == Neg(b);
    }
    forall f | 0 <= f < |d.borders| && d.borders[f].v == b.v ensures d.borders[f] == b {
      SameSigns(d, e, f);
    }
  }

  lemma ShownOpen(d: Division, st: seq<EdgeState>, t: seq<Lit>, ls: seq<Lit>, border: bool)
    requires Unmixed(d) && NoClash(t) && WatchedIn(d, ls, t) && StatesOK(d, st, ls)
    ensures |d.edges| == |d.borders| == |st| && Open(d, Shown(d, ls, border)) == Pairs(d, st, !border)
  {
    var a := Shown(d, ls, border);
    forall e | 0 <= e < |st| ensures Counts(st[e], !border) <==> !Holds(a, d.borders[e]) {
      var b := d.borders[e];
      assert Watches(d, b) && Watches(d, Neg(b)) by {
        assert Neg(b).v == b.v;
      }
      if b in ls {
        ShownHolds(d, t, ls, border, b);
      } else if Neg(b) in ls {
        ShownHolds(d, t, ls, border, Neg(b));
        NegHolds(a, b);
      } else {
        ShownBorder(d, ls, border, e);
      }
    }
  }

  lemma ShownAll(d: Division, t: seq<Lit>, ls: seq<Lit>, border: bool, r: seq<Lit>)
    requires Unmixed(d) && NoClash(t) && WatchedIn(d, ls, t) && AllWatched(d, r) && forall l :: l in r ==> l in ls
    ensures AllHold(Shown(d, ls, border), r)
  {
    forall l | l in r ensures Holds(Shown(d, ls, border), l) {
      ShownHolds(d, t, ls, border, l);
    }
  }

  // What r says about the regions shows in every state in which r is true.
  lemma JoinsThere(d: Division, adj: Adjacency, v: View, t: seq<Lit>, ls: seq<Lit>, r: seq<Lit>, u: nat, w: nat)
    requires Unmixed(d) && NoClash(t) && WatchedIn(d, ls, t) && Judged(d, adj, v, ls) && |d.edges| == |d.borders|
    requires Joins(d, r, u, w) && AllWatched(d, r) && (forall l :: l in r ==> l in ls) && u < |d.sizes| && w < |d.sizes|
    ensures |v.dec.ids| == |d.sizes| && v.dec.ids[u] == v.dec.ids[w]
  {
    hide Unmixed, NoClash, WatchedIn, AllWatched, Pairs, Open, AllHold, UF.Joined, DivisionOK, AdjOK, StatesOK,
         BoundsOK, AbsentOK, AllOrdered;
    ShownAll(d, t, ls, true, r);
    ShownOpen(d, v.st, t, ls, true);
    JoinedIds(|d.sizes|, Pairs(d, v.st, false), v.dec, u, w);
  }

  lemma GathersThere(d: Division, adj: Adjacency, v: View, t: seq<Lit>, ls: seq<Lit>, r: seq<Lit>, x: set<nat>, p: nat)
    requires Unmixed(d) && NoClash(t) && WatchedIn(d, ls, t) && Judged(d, adj, v, ls) && |d.edges| == |d.borders|
    requires Gathers(d, r, x) && AllWatched(d, r) && (forall l :: l in r ==> l in ls) && p in x && Inside(d, x)
    ensures p < |d.sizes| == |v.dec.ids| && 0 <= v.dec.ids[p] < |v.dec.regions|
    ensures |x| <= |v.dec.regions[v.dec.ids[p]]|
  {
    hide Unmixed, NoClash, WatchedIn, AllWatched, Pairs, Open, AllHold, UF.Joined, AdjOK, StatesOK, Gathers,
         BoundsOK, AbsentOK, AllOrdered, PartitionOK, RegionOf, DivisionOK;
    ShownAll(d, t, ls, true, r);
    ShownOpen(d, v.st, t, ls, true);
    GatheredSize(d, r, x, p, Shown(d, ls, true));
    RegionSize(|d.sizes|, Pairs(d, v.st, false), v.dec, p);
    IdsSize(|d.sizes|, Pairs(d, v.st, false), v.dec);
  }

  lemma FencesThere(d: Division, adj: Adjacency, v: View, t: seq<Lit>, ls: seq<Lit>, r: seq<Lit>, x: set<nat>, p: nat)
    requires Unmixed(d) && NoClash(t) && WatchedIn(d, ls, t) && Judged(d, adj, v, ls) && |d.edges| == |d.borders|
    requires Fences(d, r, x) && AllWatched(d, r) && (forall l :: l in r ==> l in ls) && p in x && p < |d.sizes|
    ensures |v.pot.ids| == |d.sizes| && 0 <= v.pot.ids[p] < |v.pot.regions|
    ensures SetOf(v.pot.regions[v.pot.ids[p]]) <= x && |v.pot.regions[v.pot.ids[p]]| <= |x|
  {
    hide Unmixed, NoClash, WatchedIn, AllWatched, Pairs, Open, AllHold, UF.Joined, AdjOK, StatesOK,
         BoundsOK, AbsentOK, AllOrdered, PartitionOK, RegionOf, DivisionOK;
    ShownAll(d, t, ls, false, r);
    ShownOpen(d, v.st, t, ls, false);
    FencedSize(d, r, x, p, Shown(d, ls, false));
    RegionSize(|d.sizes|, Pairs(d, v.st, true), v.pot, p);
    IdsSize(|d.sizes|, Pairs(d, v.st, true), v.pot);
  }

  lemma WatchesSize(d: Division, u: nat, l: Lit)
    requires u < |d.sizes| && (l in d.sizes[u].lits || Neg(l) in d.sizes[u].lits)
    ensures Watches(d, l)
  {
    if l in d.sizes[u].lits {
      var i :| 0 <= i < |d.sizes[u].lits| && d.sizes[u].lits[i] == l;
    } else {
      var i :| 0 <= i < |d.sizes[u].lits| && d.sizes[u].lits[i] == Neg(l);
      assert d.sizes[u].lits[i].v == l.v;
    }
  }

  lemma EncodedWatched(d: Division, u: nat, x: int)
    requires u < |d.sizes| && |d.sizes[u].values| == |d.sizes[u].lits| + 1
    ensures AtLeast(d.sizes[u], x).Is? ==> Watches(d, AtLeast(d.sizes[u], x).l)
    ensures AtMost(d.sizes[u], x).Is? ==> Watches(d, AtMost(d.sizes[u], x).l)
  {
    hide Watches;
    EncodedLit(d.sizes[u], x);
    if AtLeast(d.sizes[u], x).Is? {
      WatchesSize(d, u, AtLeast(d.sizes[u], x).l);
    }
    if AtMost(d.sizes[u], x).Is? {
      WatchesSize(d, u, AtMost(d.sizes[u], x).l);
    }
  }

  lemma WatchesBorder(d: Division, e: nat)
    requires e < |d.borders|
    ensures Watches(d, d.borders[e]) && Watches(d, Neg(d.borders[e]))
  {
  }

  // In a part of the present state the bounds are at most as good.
  lemma BoundsLess(d: Division, u: nat, n: nat, t: seq<Lit>, b: SizeBounds, ls: seq<Lit>, c: SizeBounds)
    requires u < |d.sizes| && EncodingOK(d.sizes[u], n) && !Absent(d.sizes[u]) && Ordered(d.sizes[u], t)
    requires BoundsFit(d.sizes[u], t, b) && BoundsFit(d.sizes[u], ls, c) && WatchedIn(d, ls, t)
    ensures c.lb <= b.lb && b.ub <= c.ub
  {
    var e := d.sizes[u];
    forall l | l in c.lbWhy || l in c.ubWhy ensures l in t {
      BoundsWhy(e, ls, c);
      WhyWatched(d, u, ls, c, l);
    }
    UpperThere(e, n, ls, c, t, b);
    LowerThere(e, n, ls, c, t, b);
  }

  lemma WhyWatched(d: Division, u: nat, t: seq<Lit>, b: SizeBounds, l: Lit)
    requires u < |d.sizes| && BoundsFit(d.sizes[u], t, b) && (l in b.lbWhy || l in b.ubWhy)
    ensures Watches(d, l)
  {
    assert forall i :: 0 <= i < |d.sizes[u].lits| ==> Neg(Neg(d.sizes[u].lits[i])) == d.sizes[u].lits[i];
    assert l in d.sizes[u].lits || Neg(l) in d.sizes[u].lits;
    WatchesSize(d, u, l);
  }

  ghost predicate HeldBy(r: seq<Lit>, ls: seq<Lit>) {
    forall l :: l in r ==> l in ls
  }

  lemma HeldParts(x: seq<Lit>, y: seq<Lit>, ls: seq<Lit>)
    ensures HeldBy(x + y, ls) <==> HeldBy(x, ls) && HeldBy(y, ls)
  {
    assert forall l :: l in x + y <==> l in x || l in y;
  }

  // What the lemmas below assume of a state ls that passes the rules.
  ghost predicate Passes(d: Division, adj: Adjacency, v: View, t: seq<Lit>, ls: seq<Lit>) {
    && Unmixed(d) && NoClash(t) && WatchedIn(d, ls, t) && Judged(d, adj, v, ls) && RulesFine(d, adj, v)
    && |d.edges| == |d.borders|
  }

  lemma PassesParts(d: Division, adj: Adjacency, v: View, t: seq<Lit>, ls: seq<Lit>)
    requires Passes(d, adj, v, t, ls)
    ensures Unmixed(d) && NoClash(t) && WatchedIn(d, ls, t) && Judged(d, adj, v, ls) && RulesFine(d, adj, v)
    ensures DivisionOK(d) && AdjOK(d, adj) && StatesOK(d, v.st, ls) && |v.st| == |d.edges|
    ensures PartitionOK(|d.sizes|, Pairs(d, v.st, false), v.dec) && PartitionOK(|d.sizes|, Pairs(d, v.st, true), v.pot)
    ensures |adj| == |d.sizes| && |d.borders| == |d.edges|
  {
    hide Unmixed, NoClash, WatchedIn, RulesFine, Pairs, UF.Joined, BoundsOK, AbsentOK, AllOrdered;
  }

  lemma JudgedAt(d: Division, adj: Adjacency, v: View, ls: seq<Lit>, u: nat)
    requires Judged(d, adj, v, ls) && u < |d.sizes| && !Absent(d.sizes[u])
    ensures |v.bounds| == |d.sizes| && BoundsFit(d.sizes[u], ls, v.bounds[u]) && Ordered(d.sizes[u], ls)
    ensures EncodingOK(d.sizes[u], |d.sizes|) && |d.sizes[u].values| == |d.sizes[u].lits| + 1
  {
    hide AdjOK, StatesOK, PartitionOK, Pairs, Ordered, BoundsFit;
    assert BoundOK(d, ls, v.bounds, u);
    assert EncodingOK(d.sizes[u], |d.sizes|);
  }

  lemma BorderNews(d: Division, adj: Adjacency, v: View, t: seq<Lit>, ls: seq<Lit>, path: seq<Lit>, u: nat, w: nat,
                   e: nat)
    requires Passes(d, adj, v, t, ls) && Joins(d, path, u, w) && AllWatched(d, path) && Between(d, e, u, w)
    ensures !HeldBy(path + [d.borders[e]], ls)
  {
    hide Passes, Unmixed, NoClash, WatchedIn, AllWatched, Judged, RulesFine, Joins, DivisionOK, AdjOK, StatesOK,
         PartitionOK, Pairs, NoBorder;
    PassesParts(d, adj, v, t, ls);
    if HeldBy(path + [d.borders[e]], ls) {
      HeldParts(path, [d.borders[e]], ls);
      EdgeRange(d, e);
      JoinsThere(d, adj, v, t, ls, path, u, w);
      assert d.borders[e] in [d.borders[e]];
      BorderThere(d, adj, v, ls, e);
      assert false;
    }
  }

  lemma EdgeRange(d: Division, e: nat)
    requires DivisionOK(d) && e < |d.edges|
    ensures d.edges[e].0 < |d.sizes| && d.edges[e].1 < |d.sizes|
  {
  }

  // Where rule 1 is satisfied, a border has different decided regions beside it.
  lemma BorderThere(d: Division, adj: Adjacency, v: View, ls: seq<Lit>, e: nat)
    requires DivisionOK(d) && AdjOK(d, adj) && StatesOK(d, v.st, ls) && RulesFine(d, adj, v) && e < |d.edges|
    requires e < |d.borders| && d.borders[e] in ls && |v.dec.ids| == |d.sizes|
    ensures d.edges[e].0 < |v.dec.ids| && d.edges[e].1 < |v.dec.ids|
    ensures v.dec.ids[d.edges[e].0] != v.dec.ids[d.edges[e].1]
  {
    hide LargeEnough, SmallEnough, EqualSizes, Roomy, NoBorder;
    var (x, y) := d.edges[e];
    AdjEdge(d, adj, e);
    assert NoBorder(adj, v.dec.ids, v.st, x, |adj[x]|);
    NoBorderOf(d, adj, v, x, y, e);
    assert v.st[e] == Disconnected;
  }

  lemma NoBorderOf(d: Division, adj: Adjacency, v: View, x: nat, y: nat, e: nat)
    requires x < |adj| && NoBorder(adj, v.dec.ids, v.st, x, |adj[x]|) && (y, e) in adj[x]
    ensures NoBorderAt(v.dec.ids, v.st, x, (y, e))
  {
    var k :| 0 <= k < |adj[x]| && adj[x][k] == (y, e);
    assert NoBorderAt(v.dec.ids, v.st, x, adj[x][k]);
  }

  lemma UpperNews(d: Division, adj: Adjacency, v: View, t: seq<Lit>, ls: seq<Lit>, ret: seq<Lit>, x: set<nat>, p: nat)
    requires Passes(d, adj, v, t, ls) && Gathers(d, ret, x) && AllWatched(d, ret) && p in x && Inside(d, x)
    requires p < |d.sizes| && !Absent(d.sizes[p]) && |d.sizes[p].values| == |d.sizes[p].lits| + 1
    requires AtMost(d.sizes[p], |x| - 1) != Never
    ensures !HeldBy(ret + BoundLits(AtMost(d.sizes[p], |x| - 1)), ls)
  {
    hide Passes, Unmixed, NoClash, WatchedIn, AllWatched, Judged, RulesFine, Gathers, DivisionOK, AdjOK, StatesOK,
         PartitionOK, Pairs, AtMost, BoundLits, EncodingOK, BoundsFit, Ordered, Inside;
    PassesParts(d, adj, v, t, ls);
    var lits := BoundLits(AtMost(d.sizes[p], |x| - 1));
    if HeldBy(ret + lits, ls) {
      HeldParts(ret, lits, ls);
      GathersThere(d, adj, v, t, ls, ret, x, p);
      JudgedAt(d, adj, v, ls, p);
      MostThere(d.sizes[p], |d.sizes|, ls, v.bounds[p], |x| - 1);
      RegionFine(d, adj, v, p);
      assert false;
    }
  }

  // What the rules say of one vertex.
  lemma RegionFine(d: Division, adj: Adjacency, v: View, p: nat)
    requires RulesFine(d, adj, v) && p < |d.sizes| == |v.bounds| && !Absent(d.sizes[p]) && |v.st| == |d.edges|
    requires PartitionOK(|d.sizes|, Pairs(d, v.st, false), v.dec) && PartitionOK(|d.sizes|, Pairs(d, v.st, true), v.pot)
    ensures |v.dec.ids| == |v.pot.ids| == |d.sizes|
    ensures 0 <= v.dec.ids[p] < |v.dec.regions| && v.bounds[p].ub >= |v.dec.regions[v.dec.ids[p]]|
    ensures 0 <= v.pot.ids[p] < |v.pot.regions| && v.bounds[p].lb <= |v.pot.regions[v.pot.ids[p]]|
  {
    hide EqualSizes, Roomy, NoBorder, LargeEnough, SmallEnough, PartitionOK, Pairs;
    IdsSize(|d.sizes|, Pairs(d, v.st, false), v.dec);
    IdsSize(|d.sizes|, Pairs(d, v.st, true), v.pot);
    InOwnRegion(|d.sizes|, Pairs(d, v.st, false), v.dec, p);
    InOwnRegion(|d.sizes|, Pairs(d, v.st, true), v.pot, p);
    LargeIs(d, v.bounds, v.dec.regions[v.dec.ids[p]], p);
    SmallIs(d, v.bounds, v.pot.regions[v.pot.ids[p]], p);
  }

  lemma LargeIs(d: Division, bounds: seq<SizeBounds>, region: seq<nat>, p: nat)
    requires LargeEnough(d, bounds, region, |region|) && p in region && p < |d.sizes| && !Absent(d.sizes[p])
    ensures p < |bounds| && bounds[p].ub >= |region|
  {
    assert LargeAt(d, bounds, p, |region|);
  }

  lemma SmallIs(d: Division, bounds: seq<SizeBounds>, region: seq<nat>, p: nat)
    requires SmallEnough(d, bounds, region, |region|) && p in region && p < |d.sizes| && !Absent(d.sizes[p])
    ensures p < |bounds| && bounds[p].lb <= |region|
  {
    assert SmallAt(d, bounds, p, |region|);
  }

  lemma DifferNews(d: Division, adj: Adjacency, v: View, t: seq<Lit>, ls: seq<Lit>, ret: seq<Lit>, u: nat, p: nat,
                   b: SizeBounds)
    requires Passes(d, adj, v, t, ls) && Joins(d, ret, u, p) && AllWatched(d, ret) && u < |d.sizes| && p < |d.sizes|
    requires !Absent(d.sizes[u]) && !Absent(d.sizes[p]) && |d.sizes[p].values| == |d.sizes[p].lits| + 1
    requires BoundsFit(d.sizes[u], t, b) && AtLeast(d.sizes[p], b.ub + 1) != Never
    ensures !HeldBy(ret + b.ubWhy + BoundLits(AtLeast(d.sizes[p], b.ub + 1)), ls)
  {
    hide Passes, Unmixed, NoClash, WatchedIn, AllWatched, Judged, RulesFine, Joins, DivisionOK, AdjOK, StatesOK,
         PartitionOK, Pairs, AtLeast, BoundLits, EncodingOK, BoundsFit, Ordered;
    PassesParts(d, adj, v, t, ls);
    var lits := BoundLits(AtLeast(d.sizes[p], b.ub + 1));
    if HeldBy(ret + b.ubWhy + lits, ls) {
      HeldParts(ret + b.ubWhy, lits, ls);
      HeldParts(ret, b.ubWhy, ls);
      JoinsThere(d, adj, v, t, ls, ret, u, p);
      JudgedAt(d, adj, v, ls, u);
      JudgedAt(d, adj, v, ls, p);
      UpperThere(d.sizes[u], |d.sizes|, t, b, ls, v.bounds[u]);
      LeastThere(d.sizes[p], |d.sizes|, ls, v.bounds[p], b.ub + 1);
      PairFine(d, adj, v, p, u);
      assert false;
    }
  }

  lemma PairFine(d: Division, adj: Adjacency, v: View, p: nat, q: nat)
    requires RulesFine(d, adj, v) && p < |d.sizes| == |v.bounds| && q < |d.sizes| && |v.dec.ids| == |d.sizes|
    requires !Absent(d.sizes[p]) && !Absent(d.sizes[q]) && v.dec.ids[p] == v.dec.ids[q] && |v.st| == |d.edges|
    requires PartitionOK(|d.sizes|, Pairs(d, v.st, false), v.dec)
    ensures v.bounds[p].lb <= v.bounds[q].ub
  {
    hide Roomy, NoBorder, LargeEnough, SmallEnough, PartitionOK, Pairs;
    InOwnRegion(|d.sizes|, Pairs(d, v.st, false), v.dec, p);
    InOwnRegion(|d.sizes|, Pairs(d, v.st, false), v.dec, q);
    assert EqualSizes(d, v.bounds, v.dec.regions[v.dec.ids[p]]);
    assert Sized(d, v.bounds, p) && Sized(d, v.bounds, q);
  }

  lemma FenceNews(d: Division, adj: Adjacency, v: View, t: seq<Lit>, ls: seq<Lit>, ret: seq<Lit>, x: set<nat>, p: nat)
    requires Passes(d, adj, v, t, ls) && Fences(d, ret, x) && AllWatched(d, ret) && p in x
    requires p < |d.sizes| && !Absent(d.sizes[p]) && |d.sizes[p].values| == |d.sizes[p].lits| + 1
    requires AtLeast(d.sizes[p], |x| + 1) != Never
    ensures !HeldBy(ret + BoundLits(AtLeast(d.sizes[p], |x| + 1)), ls)
  {
    hide Passes, Unmixed, NoClash, WatchedIn, AllWatched, Judged, RulesFine, Fences, DivisionOK, AdjOK, StatesOK,
         PartitionOK, Pairs, AtLeast, BoundLits, EncodingOK, BoundsFit, Ordered;
    PassesParts(d, adj, v, t, ls);
    var lits := BoundLits(AtLeast(d.sizes[p], |x| + 1));
    if HeldBy(ret + lits, ls) {
      HeldParts(ret, lits, ls);
      FencesThere(d, adj, v, t, ls, ret, x, p);
      JudgedAt(d, adj, v, ls, p);
      LeastThere(d.sizes[p], |d.sizes|, ls, v.bounds[p], |x| + 1);
      RegionFine(d, adj, v, p);
      assert false;
    }
  }

  // In a part of the present state bounds are at most as good, and the same where
  // their reasons are true.
  ghost predicate Weaker(bounds: seq<SizeBounds>, other: seq<SizeBounds>, region: seq<nat>) {
    && |other| == |bounds|
    && forall p :: p in region && p < |bounds| ==> other[p].lb <= bounds[p].lb && bounds[p].ub <= other[p].ub
  }

  ghost predicate Alike(bounds: seq<SizeBounds>, other: seq<SizeBounds>, chain: seq<nat>) {
    && |other| == |bounds|
    && forall p :: p in chain && p < |bounds| ==> other[p].lb == bounds[p].lb && other[p].ub == bounds[p].ub
  }

  // The sweep takes the same vertices there: what it takes here is the same, and
  // what it leaves starts no later.
  lemma {:induction false} SweepSame(bounds: seq<SizeBounds>, other: seq<SizeBounds>, region: seq<nat>,
                                     there: seq<nat>, chain: seq<nat>, rival: seq<nat>, k: nat)
    requires Swept(bounds, region, chain) && Swept(other, there, rival) && k <= |chain|
    requires Weaker(bounds, other, region) && Alike(bounds, other, chain)
    requires forall p :: p in region <==> p in there
    ensures k <= |rival| && chain[..k] == rival[..k]
  {
    hide Swept, Weaker, Alike;
    if k > 0 {
      SweepSame(bounds, other, region, there, chain, rival, k - 1);
      ReachedSame(bounds, other, chain, rival, k - 1);
      NextSame(bounds, other, region, there, chain, rival, k - 1);
      assert chain[..k] == chain[..k - 1] + [chain[k - 1]];
      assert rival[..k] == rival[..k - 1] + [rival[k - 1]];
    }
  }

  lemma ReachedSame(bounds: seq<SizeBounds>, other: seq<SizeBounds>, chain: seq<nat>, rival: seq<nat>, k: nat)
    requires Alike(bounds, other, chain) && k <= |chain| && k <= |rival| && chain[..k] == rival[..k]
    ensures Reached(bounds, chain, k) == Reached(other, rival, k)
  {
    if k > 0 {
      assert chain[k - 1] == chain[..k][k - 1] == rival[..k][k - 1];
      assert chain[k - 1] in chain;
    }
  }

  lemma NextSame(bounds: seq<SizeBounds>, other: seq<SizeBounds>, region: seq<nat>, there: seq<nat>, chain: seq<nat>,
                 rival: seq<nat>, k: nat)
    requires Swept(bounds, region, chain) && Swept(other, there, rival) && k < |chain| && k <= |rival|
    requires Weaker(bounds, other, region) && Alike(bounds, other, chain)
    requires (forall p :: p in region <==> p in there) && Reached(bounds, chain, k) == Reached(other, rival, k)
    ensures k < |rival| && chain[k] == rival[k]
  {
    assert Picked(bounds, region, chain, k);
    assert chain[k] in chain;
    if k == |rival| {
      assert false;
    }
    assert Picked(other, there, rival, k);
    assert rival[k] in region;
    assert KeyLe(bounds, chain[k], rival[k]) && KeyLe(other, rival[k], chain[k]);
  }

  lemma {:induction false} SumSame(bounds: seq<SizeBounds>, other: seq<SizeBounds>, chain: seq<nat>, rival: seq<nat>,
                                   k: nat)
    requires Alike(bounds, other, chain) && k <= |chain| && k <= |rival| && chain[..k] == rival[..k]
    ensures SumLb(other, rival[..k]) == SumLb(bounds, chain[..k])
  {
    hide Alike;
    if k > 0 {
      assert chain[..k][..k - 1] == chain[..k - 1] && rival[..k][..k - 1] == rival[..k - 1];
      assert chain[..k - 1] == rival[..k - 1];
      SumSame(bounds, other, chain, rival, k - 1);
      assert chain[..k][k - 1] == chain[k - 1] && chain[k - 1] in chain;
      assert Alike(bounds, other, chain);
      AlikeAt(bounds, other, chain, chain[k - 1]);
    }
  }

  lemma AlikeAt(bounds: seq<SizeBounds>, other: seq<SizeBounds>, chain: seq<nat>, p: nat)
    requires Alike(bounds, other, chain) && p in chain
    ensures |other| == |bounds| && (p < |bounds| ==> other[p].lb == bounds[p].lb)
  {
  }

  // Later vertices only add to the sum.
  lemma {:induction false} SumGrows(bounds: seq<SizeBounds>, region: seq<nat>, chain: seq<nat>, k: nat, m: nat)
    requires Swept(bounds, region, chain) && k <= m <= |chain|
    ensures SumLb(bounds, chain[..k]) <= SumLb(bounds, chain[..m])
  {
    hide Swept;
    if k < m {
      SumGrows(bounds, region, chain, k, m - 1);
      assert chain[..m][..m - 1] == chain[..m - 1] && chain[..m][m - 1] == chain[m - 1];
      PickedPositive(bounds, region, chain, m - 1);
    }
  }

  lemma {:induction false} PickedPositive(bounds: seq<SizeBounds>, region: seq<nat>, chain: seq<nat>, k: nat)
    requires Swept(bounds, region, chain) && k < |chain|
    ensures chain[k] < |bounds| && bounds[chain[k]].lb > 0 && bounds[chain[k]].ub > 0
  {
    assert Picked(bounds, region, chain, k);
    if k > 0 {
      PickedPositive(bounds, region, chain, k - 1);
    }
  }

  // So what does not fit here does not fit there.
  lemma NotRoomy(bounds: seq<SizeBounds>, other: seq<SizeBounds>, region: seq<nat>, there: seq<nat>, chain: seq<nat>)
    requires Swept(bounds, region, chain) && SumLb(bounds, chain) > |region| && |there| <= |region|
    requires Weaker(bounds, other, region) && Alike(bounds, other, chain) && forall p :: p in region <==> p in there
    ensures !Roomy(other, there)
  {
    hide Swept, Weaker, Alike, SumLb;
    forall rival | Swept(other, there, rival) ensures SumLb(other, rival) > |there| {
      var k := |chain|;
      SweepSame(bounds, other, region, there, chain, rival, k);
      SumSame(bounds, other, chain, rival, k);
      SumGrows(other, there, rival, k, |rival|);
      assert chain[..k] == chain && rival[..|rival|] == rival;
    }
  }

  lemma BorderForbids(d: Division, t: seq<Lit>, path: seq<Lit>, u: nat, w: nat, e: nat)
    requires Unmixed(d) && NoClash(t) && |d.edges| == |d.borders|
    requires Joins(d, path, u, w) && AllWatched(d, path) && Between(d, e, u, w)
    ensures Forbids(d, t, path + [d.borders[e]])
  {
    hide Unmixed, NoClash, WatchedIn, AllWatched, Judged, RulesFine, Joins;
    forall ls | DivisionQuiet(d, ls) && WatchedIn(d, ls, t)
      ensures exists l :: l in path + [d.borders[e]] && l !in ls
    {
      var adj, v :| Judged(d, adj, v, ls) && RulesFine(d, adj, v);
      BorderNews(d, adj, v, t, ls, path, u, w, e);
    }
  }

  lemma UpperForbids(d: Division, t: seq<Lit>, ret: seq<Lit>, x: set<nat>, p: nat)
    requires Unmixed(d) && NoClash(t) && |d.edges| == |d.borders|
    requires Gathers(d, ret, x) && AllWatched(d, ret) && p in x && Inside(d, x)
    requires p < |d.sizes| && !Absent(d.sizes[p]) && |d.sizes[p].values| == |d.sizes[p].lits| + 1
    requires AtMost(d.sizes[p], |x| - 1) != Never
    ensures Forbids(d, t, ret + BoundLits(AtMost(d.sizes[p], |x| - 1)))
  {
    hide Unmixed, NoClash, WatchedIn, AllWatched, Judged, RulesFine, Gathers, AtMost, BoundLits, Inside;
    var r := ret + BoundLits(AtMost(d.sizes[p], |x| - 1));
    forall ls | DivisionQuiet(d, ls) && WatchedIn(d, ls, t) ensures exists l :: l in r && l !in ls {
      var adj, v :| Judged(d, adj, v, ls) && RulesFine(d, adj, v);
      UpperNews(d, adj, v, t, ls, ret, x, p);
    }
  }

  lemma DifferForbids(d: Division, t: seq<Lit>, ret: seq<Lit>, u: nat, p: nat, b: SizeBounds)
    requires Unmixed(d) && NoClash(t) && |d.edges| == |d.borders|
    requires Joins(d, ret, u, p) && AllWatched(d, ret) && u < |d.sizes| && p < |d.sizes|
    requires !Absent(d.sizes[u]) && !Absent(d.sizes[p]) && |d.sizes[p].values| == |d.sizes[p].lits| + 1
    requires BoundsFit(d.sizes[u], t, b) && AtLeast(d.sizes[p], b.ub + 1) != Never
    ensures Forbids(d, t, ret + b.ubWhy + BoundLits(AtLeast(d.sizes[p], b.ub + 1)))
  {
    hide Unmixed, NoClash, WatchedIn, AllWatched, Judged, RulesFine, Joins, AtLeast, BoundLits, BoundsFit;
    var r := ret + b.ubWhy + BoundLits(AtLeast(d.sizes[p], b.ub + 1));
    forall ls | DivisionQuiet(d, ls) && WatchedIn(d, ls, t) ensures exists l :: l in r && l !in ls {
      var adj, v :| Judged(d, adj, v, ls) && RulesFine(d, adj, v);
      DifferNews(d, adj, v, t, ls, ret, u, p, b);
    }
  }

  lemma FenceForbids(d: Division, t: seq<Lit>, ret: seq<Lit>, x: set<nat>, p: nat)
    requires Unmixed(d) && NoClash(t) && |d.edges| == |d.borders|
    requires Fences(d, ret, x) && AllWatched(d, ret) && p in x
    requires p < |d.sizes| && !Absent(d.sizes[p]) && |d.sizes[p].values| == |d.sizes[p].lits| + 1
    requires AtLeast(d.sizes[p], |x| + 1) != Never
    ensures Forbids(d, t, ret + BoundLits(AtLeast(d.sizes[p], |x| + 1)))
  {
    hide Unmixed, NoClash, WatchedIn, AllWatched, Judged, RulesFine, Fences, AtLeast, BoundLits;
    var r := ret + BoundLits(AtLeast(d.sizes[p], |x| + 1));
    forall ls | DivisionQuiet(d, ls) && WatchedIn(d, ls, t) ensures exists l :: l in r && l !in ls {
      var adj, v :| Judged(d, adj, v, ls) && RulesFine(d, adj, v);
      FenceNews(d, adj, v, t, ls, ret, x, p);
    }
  }

  lemma TightForbids(d: Division, adj: Adjacency, v: View, t: seq<Lit>, r: nat, chain: seq<nat>, chosen: seq<Cell>,
                     ret: seq<Lit>)
    requires Prepared(d, adj, v, t) && r < |v.pot.regions| && |d.edges| == |d.borders|
    requires Swept(v.bounds, v.pot.regions[r], chain) && Chosen(v.bounds, chain, chosen)
    requires SumLb(v.bounds, chain) > |v.pot.regions[r]|
    requires Fences(d, ret, SetOf(v.pot.regions[r])) && AllWatched(d, ret)
    ensures Forbids(d, t, ret + CellLits(chosen))
  {
    hide Prepared, Unmixed, NoClash, WatchedIn, AllWatched, Judged, RulesFine, Fences, Swept, Chosen, SumLb, CellLits;
    PreparedFacts(d, adj, v, t);
    forall ls | DivisionQuiet(d, ls) && WatchedIn(d, ls, t)
      ensures exists l :: l in ret + CellLits(chosen) && l !in ls
    {
      var adj2, v2 :| Judged(d, adj2, v2, ls) && RulesFine(d, adj2, v2);
      TightNews(d, adj, v, t, r, chain, chosen, ret, adj2, v2, ls);
    }
  }

  lemma TightNews(d: Division, adj: Adjacency, v: View, t: seq<Lit>, r: nat, chain: seq<nat>, chosen: seq<Cell>,
                  ret: seq<Lit>, adj2: Adjacency, v2: View, ls: seq<Lit>)
    requires Prepared(d, adj, v, t) && r < |v.pot.regions| && Passes(d, adj2, v2, t, ls)
    requires Swept(v.bounds, v.pot.regions[r], chain) && Chosen(v.bounds, chain, chosen)
    requires SumLb(v.bounds, chain) > |v.pot.regions[r]|
    requires Fences(d, ret, SetOf(v.pot.regions[r])) && AllWatched(d, ret)
    ensures !HeldBy(ret + CellLits(chosen), ls)
  {
    hide Prepared, Passes, Unmixed, NoClash, WatchedIn, AllWatched, Judged, RulesFine, Fences, Swept, Chosen, SumLb,
         CellLits, DivisionOK, AdjOK, StatesOK, PartitionOK, Pairs, Roomy, Weaker, Alike;
    var region := v.pot.regions[r];
    PreparedFacts(d, adj, v, t);
    PassesParts(d, adj2, v2, t, ls);
    if HeldBy(ret + CellLits(chosen), ls) {
      HeldParts(ret, CellLits(chosen), ls);
      var p := FirstPicked(v.bounds, region, chain);
      RegionMember(|d.sizes|, Pairs(d, v.st, true), v.pot, r, p);
      RegionCount(|d.sizes|, Pairs(d, v.st, true), v.pot, r);
      FencesThere(d, adj2, v2, t, ls, ret, SetOf(region), p);
      var q := v2.pot.ids[p];
      PotentialThere(d, adj, v, t, r, p, adj2, v2, ls);
      WeakerThere(d, adj, v, t, r, adj2, v2, ls);
      AlikeThere(d, adj, v, t, r, chain, chosen, adj2, v2, ls);
      NotRoomy(v.bounds, v2.bounds, region, v2.pot.regions[q], chain);
      RoomyThere(d, adj2, v2, q);
      assert false;
    }
  }

  lemma RoomyThere(d: Division, adj: Adjacency, v: View, q: int)
    requires RulesFine(d, adj, v) && 0 <= q < |v.pot.regions|
    ensures Roomy(v.bounds, v.pot.regions[q])
  {
    hide Roomy, NoBorder, LargeEnough, SmallEnough, EqualSizes;
  }

  lemma FirstPicked(bounds: seq<SizeBounds>, region: seq<nat>, chain: seq<nat>) returns (p: nat)
    requires Swept(bounds, region, chain) && SumLb(bounds, chain) > |region|
    ensures p in region
  {
    assert |chain| > 0;
    assert Picked(bounds, region, chain, 0);
    p := chain[0];
  }

  // With fewer literals true the potential region is no smaller.
  lemma PotentialThere(d: Division, adj: Adjacency, v: View, t: seq<Lit>, r: nat, p: nat, adj2: Adjacency, v2: View,
                       ls: seq<Lit>)
    requires Prepared(d, adj, v, t) && r < |v.pot.regions| && Passes(d, adj2, v2, t, ls) && p in v.pot.regions[r]
    requires p < |d.sizes| && |v2.pot.ids| == |d.sizes| && 0 <= v2.pot.ids[p] < |v2.pot.regions|
    requires SetOf(v2.pot.regions[v2.pot.ids[p]]) <= SetOf(v.pot.regions[r])
    ensures forall q :: q in v.pot.regions[r] <==> q in v2.pot.regions[v2.pot.ids[p]]
  {
    hide Prepared, Passes, Judged, RulesFine, Unmixed, NoClash, WatchedIn, DivisionOK, AdjOK, StatesOK, PartitionOK,
         Pairs, UF.Joined;
    PreparedFacts(d, adj, v, t);
    PassesParts(d, adj2, v2, t, ls);
    PairsMore(d, v.st, t, v2.st, ls);
    var n, there := |d.sizes|, v2.pot.regions[v2.pot.ids[p]];
    forall q | q in v.pot.regions[r] ensures q in there {
      SameId(n, Pairs(d, v.st, true), v.pot, r, p, q);
      JoinedMore(Pairs(d, v.st, true), Pairs(d, v2.st, true), p, q);
      JoinedIds(n, Pairs(d, v2.st, true), v2.pot, p, q);
      InOwnRegion(n, Pairs(d, v2.st, true), v2.pot, q);
    }
    forall q | q in there ensures q in v.pot.regions[r] {
      assert q in SetOf(there);
    }
  }

  lemma PairsMore(d: Division, st: seq<EdgeState>, t: seq<Lit>, other: seq<EdgeState>, ls: seq<Lit>)
    requires StatesOK(d, st, t) && StatesOK(d, other, ls) && WatchedIn(d, ls, t) && NoClash(t)
    ensures Pairs(d, st, true) <= Pairs(d, other, true)
  {
    forall e | 0 <= e < |st| && Counts(st[e], true) ensures Counts(other[e], true) {
      WatchesBorder(d, e);
      assert d.borders[e] in ls ==> d.borders[e] in t;
    }
  }

  lemma WeakerThere(d: Division, adj: Adjacency, v: View, t: seq<Lit>, r: nat, adj2: Adjacency, v2: View, ls: seq<Lit>)
    requires Prepared(d, adj, v, t) && r < |v.pot.regions| && Passes(d, adj2, v2, t, ls)
    ensures Weaker(v.bounds, v2.bounds, v.pot.regions[r])
  {
    hide Prepared, Passes, Judged, RulesFine, Unmixed, NoClash, WatchedIn, DivisionOK, AdjOK, StatesOK, PartitionOK,
         Pairs, UF.Joined, BoundsFit, Ordered, EncodingOK;
    PreparedFacts(d, adj, v, t);
    PassesParts(d, adj2, v2, t, ls);
    BoundsSizes(d, adj2, v2, ls);
    forall p | p in v.pot.regions[r] && p < |v.bounds|
      ensures v2.bounds[p].lb <= v.bounds[p].lb && v.bounds[p].ub <= v2.bounds[p].ub
    {
      if Absent(d.sizes[p]) {
        AbsentSame(d, adj, v, t, adj2, v2, ls, p);
      } else {
        PreparedAt(d, adj, v, t, p);
        JudgedAt(d, adj2, v2, ls, p);
        BoundsLess(d, p, |d.sizes|, t, v.bounds[p], ls, v2.bounds[p]);
      }
    }
  }

  lemma BoundsSizes(d: Division, adj: Adjacency, v: View, ls: seq<Lit>)
    requires Judged(d, adj, v, ls)
    ensures |v.bounds| == |d.sizes| && AbsentOK(d, v.bounds)
  {
    hide DivisionOK, AdjOK, StatesOK, PartitionOK, Pairs, AbsentOK, BoundsOK, AllOrdered;
  }

  lemma AbsentSame(d: Division, adj: Adjacency, v: View, t: seq<Lit>, adj2: Adjacency, v2: View, ls: seq<Lit>, p: nat)
    requires Prepared(d, adj, v, t) && Judged(d, adj2, v2, ls) && p < |d.sizes| && Absent(d.sizes[p])
    ensures |v.bounds| == |v2.bounds| == |d.sizes| && v.bounds[p] == v2.bounds[p]
  {
    hide Judged, Unmixed, NoClash;
    BoundsSizes(d, adj, v, t);
    BoundsSizes(d, adj2, v2, ls);
  }

  lemma AlikeThere(d: Division, adj: Adjacency, v: View, t: seq<Lit>, r: nat, chain: seq<nat>, chosen: seq<Cell>,
                   adj2: Adjacency, v2: View, ls: seq<Lit>)
    requires Prepared(d, adj, v, t) && r < |v.pot.regions| && Passes(d, adj2, v2, t, ls)
    requires Swept(v.bounds, v.pot.regions[r], chain) && Chosen(v.bounds, chain, chosen)
    requires HeldBy(CellLits(chosen), ls) && Weaker(v.bounds, v2.bounds, v.pot.regions[r])
    ensures Alike(v.bounds, v2.bounds, chain)
  {
    hide Prepared, Passes, Judged, RulesFine, Unmixed, NoClash, WatchedIn, DivisionOK, AdjOK, StatesOK, PartitionOK,
         Pairs, UF.Joined, BoundsFit, Ordered, EncodingOK, CellLits, Swept;
    PreparedFacts(d, adj, v, t);
    PassesParts(d, adj2, v2, t, ls);
    forall p | p in chain && p < |v.bounds|
      ensures v2.bounds[p].lb == v.bounds[p].lb && v2.bounds[p].ub == v.bounds[p].ub
    {
      var k :| 0 <= k < |chain| && chain[k] == p;
      assert ChosenAt(v.bounds, chain[k], chosen[k]);
      ChosenLits(chosen, k);
      PickedIn(v.bounds, v.pot.regions[r], chain, k);
      AbsentBounds(d, adj, v, t, p);
      PreparedAt(d, adj, v, t, p);
      JudgedAt(d, adj2, v2, ls, p);
      UpperThere(d.sizes[p], |d.sizes|, t, v.bounds[p], ls, v2.bounds[p]);
      LowerThere(d.sizes[p], |d.sizes|, t, v.bounds[p], ls, v2.bounds[p]);
    }
  }

  lemma PickedIn(bounds: seq<SizeBounds>, region: seq<nat>, chain: seq<nat>, k: nat)
    requires Swept(bounds, region, chain) && k < |chain|
    ensures chain[k] in region && chain[k] < |bounds| && bounds[chain[k]].lb > 0
  {
    assert Picked(bounds, region, chain, k);
    PickedPositive(bounds, region, chain, k);
  }
}
