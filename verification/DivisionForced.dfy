// What run_check of constraints/GraphDivision.cc enqueues when it has nothing to
// object to: the literals that the components of the graph call for.
module DivisionForced {
  import opened Logic
  import opened Divisions
  import opened DivisionRegions
  import opened DivisionSizes
  import opened DivisionViews
  import opened DivisionRules
  import UF = UnionFinds
  import OE = OrderEncodings

  // The edges whose border is ruled out, or with open those whose border is not there.
  ghost function Present(d: Division, t: seq<Lit>, open: bool): set<(nat, nat)>
    requires |d.edges| == |d.borders|
  {
    set e | 0 <= e < |d.edges| && (if open then d.borders[e] !in t else Neg(d.borders[e]) in t) :: d.edges[e]
  }

  // The size of the component of u.
  ghost function Reach(d: Division, t: seq<Lit>, open: bool, u: nat): nat
    requires |d.edges| == |d.borders|
  {
    |RegionOf(|d.sizes|, Present(d, t, open), u)|
  }

  ghost predicate Free(t: seq<Lit>, l: Lit) {
    l !in t && Neg(l) !in t
  }

  ghost predicate Known(t: seq<Lit>, l: Lit) {
    l in t || Neg(l) in t
  }

  // A border within a component under the connected edges.
  ghost predicate NoPlace(d: Division, t: seq<Lit>, e: nat) {
    e < |d.edges| == |d.borders| && UF.Joined(Present(d, t, false), d.edges[e].0, d.edges[e].1)
  }

  // The size of u is at least that of its component under the connected edges, and at
  // most that of its component under the connected and the undecided ones.
  ghost predicate SaysSize(d: Division, t: seq<Lit>, u: nat, l: Lit) {
    && |d.edges| == |d.borders| && u < |d.sizes| && |d.sizes[u].values| == |d.sizes[u].lits| + 1
    && (AtLeast(d.sizes[u], Reach(d, t, false, u)) == Is(l) || AtMost(d.sizes[u], Reach(d, t, true, u)) == Is(l))
  }

  // The literal follows from the components, and is open in t.
  ghost predicate Wanted(d: Division, t: seq<Lit>, l: Lit) {
    && Free(t, l)
    && ((exists e: nat :: e < |d.borders| && l == Neg(d.borders[e]) && NoPlace(d, t, e))
        || exists u: nat :: SaysSize(d, t, u, l))
  }

  // Nothing but wanted literals has been enqueued.
  ghost predicate Drawn(d: Division, t: seq<Lit>, now: seq<Lit>) {
    forall l :: l in now ==> l in t || Wanted(d, t, l)
  }

  // Every wanted literal has a value.
  ghost predicate Decided(d: Division, t: seq<Lit>, now: seq<Lit>) {
    forall l :: Wanted(d, t, l) ==> Known(now, l)
  }

  // No literal is wanted together with its negation.
  ghost predicate NoneOpposed(d: Division, t: seq<Lit>) {
    forall l :: Wanted(d, t, l) ==> !Wanted(d, t, Neg(l))
  }

  // ------------------------------------------------------------------ borders

  lemma PresentIs(d: Division, st: seq<EdgeState>, t: seq<Lit>, open: bool)
    requires StatesOK(d, st, t) && NoClash(t)
    ensures |d.edges| == |d.borders| == |st| && Present(d, t, open) == Pairs(d, st, open)
  {
    forall e | 0 <= e < |st|
      ensures Counts(st[e], open) <==> if open then d.borders[e] !in t else Neg(d.borders[e]) in t
    {
      assert st[e] == StateOf(t, d.borders[e]);
      assert Neg(d.borders[e]) in t ==> Neg(Neg(d.borders[e])) !in t;
    }
  }

  // The undecided borders among the first k edges of u within a decided region are gone.
  ghost predicate GoneTo(d: Division, adj: Adjacency, ids: seq<int>, t: seq<Lit>, now: seq<Lit>, u: nat, k: nat) {
    u < |adj| && forall x :: 0 <= x < k && x < |adj[u]| ==> GoneAt(d, ids, t, now, u, adj[u][x])
  }

  ghost predicate GoneAt(d: Division, ids: seq<int>, t: seq<Lit>, now: seq<Lit>, u: nat, x: (nat, nat)) {
    && u < |ids| && x.0 < |ids| && x.1 < |d.borders|
    && (ids[u] == ids[x.0] && Free(t, d.borders[x.1]) ==> Neg(d.borders[x.1]) in now)
  }

  lemma GoneNone(d: Division, adj: Adjacency, ids: seq<int>, t: seq<Lit>, now: seq<Lit>, u: nat)
    requires u < |adj|
    ensures GoneTo(d, adj, ids, t, now, u, 0)
  {
  }

  lemma GoneNext(d: Division, adj: Adjacency, ids: seq<int>, t: seq<Lit>, now: seq<Lit>, more: seq<Lit>, u: nat, k: nat)
    requires GoneTo(d, adj, ids, t, now, u, k) && now <= more && k < |adj[u]|
    requires GoneAt(d, ids, t, more, u, adj[u][k])
    ensures GoneTo(d, adj, ids, t, more, u, k + 1)
  {
    forall x | 0 <= x < k + 1 && x < |adj[u]| ensures GoneAt(d, ids, t, more, u, adj[u][x]) {
      assert x < k ==> GoneAt(d, ids, t, now, u, adj[u][x]);
    }
  }

  lemma GoneMore(d: Division, adj: Adjacency, ids: seq<int>, t: seq<Lit>, now: seq<Lit>, more: seq<Lit>, u: nat)
    requires u < |adj| && GoneTo(d, adj, ids, t, now, u, |adj[u]|) && now <= more
    ensures GoneTo(d, adj, ids, t, more, u, |adj[u]|)
  {
    forall x | 0 <= x < |adj[u]| ensures GoneAt(d, ids, t, more, u, adj[u][x]) {
      assert GoneAt(d, ids, t, now, u, adj[u][x]);
    }
  }

  lemma GoneHere(d: Division, ids: seq<int>, st: seq<EdgeState>, t: seq<Lit>, now: seq<Lit>, u: nat, w: nat, e: nat)
    requires StatesOK(d, st, t) && u < |ids| && w < |ids| && e < |st|
    requires ids[u] == ids[w] && st[e] == Undecided ==> Neg(d.borders[e]) in now
    ensures GoneAt(d, ids, t, now, u, (w, e))
  {
    assert st[e] == StateOf(t, d.borders[e]);
  }

  lemma AllGoneMore(d: Division, adj: Adjacency, ids: seq<int>, t: seq<Lit>, now: seq<Lit>, more: seq<Lit>, m: nat)
    requires m <= |adj| && now <= more && forall u :: 0 <= u < m ==> GoneTo(d, adj, ids, t, now, u, |adj[u]|)
    ensures forall u :: 0 <= u < m ==> GoneTo(d, adj, ids, t, more, u, |adj[u]|)
  {
    hide GoneTo;
    forall u | 0 <= u < m ensures GoneTo(d, adj, ids, t, more, u, |adj[u]|) {
      GoneMore(d, adj, ids, t, now, more, u);
    }
  }

  lemma BorderWanted(d: Division, adj: Adjacency, v: View, t: seq<Lit>, e: nat, u: nat, w: nat)
    requires Prepared(d, adj, v, t) && e < |v.st| == |d.edges| == |d.borders| && Between(d, e, u, w)
    requires UF.Joined(Pairs(d, v.st, false), u, w) && v.st[e] == Undecided
    ensures Wanted(d, t, Neg(d.borders[e]))
  {
    hide AdjOK, PartitionOK, Pairs, Present, UF.Joined, BoundsOK, AbsentOK, AllOrdered, Unmixed, SaysSize;
    PresentIs(d, v.st, t, false);
    PairsWithin(d, v.st, false);
    JoinedSym(Pairs(d, v.st, false), |d.sizes|, u, w);
    assert v.st[e] == StateOf(t, d.borders[e]);
    assert Neg(Neg(d.borders[e])) == d.borders[e];
    assert NoPlace(d, t, e);
  }

  // Every border within a decided region has been ruled out.
  lemma BordersGone(d: Division, adj: Adjacency, v: View, t: seq<Lit>, now: seq<Lit>, e: nat)
    requires Prepared(d, adj, v, t) && e < |d.edges| && e < |d.borders| && NoPlace(d, t, e) && Free(t, d.borders[e])
    requires forall u :: 0 <= u < |adj| ==> GoneTo(d, adj, v.dec.ids, t, now, u, |adj[u]|)
    ensures Neg(d.borders[e]) in now
  {
    hide Prepared, PartitionOK, Pairs, Present, UF.Joined, GoneTo, AdjOK, DivisionOK, StatesOK, NoClash;
    PreparedFacts(d, adj, v, t);
    PresentIs(d, v.st, t, false);
    AdjEdge(d, adj, e);
    var (u, w) := d.edges[e];
    JoinedIds(|d.sizes|, Pairs(d, v.st, false), v.dec, u, w);
    GoneOf(d, adj, v.dec.ids, t, now, u, (w, e));
  }

  lemma GoneOf(d: Division, adj: Adjacency, ids: seq<int>, t: seq<Lit>, now: seq<Lit>, u: nat, x: (nat, nat))
    requires u < |adj| && GoneTo(d, adj, ids, t, now, u, |adj[u]|) && x in adj[u]
    ensures GoneAt(d, ids, t, now, u, x)
  {
    var k :| 0 <= k < |adj[u]| && adj[u][k] == x;
    assert GoneAt(d, ids, t, now, u, adj[u][k]);
  }

  // -------------------------------------------------------------------- sizes

  ghost predicate KnownBound(now: seq<Lit>, b: Bound) {
    b.Is? ==> Known(now, b.l)
  }

  // The literal that says that the size of each vertex of the region is at least size,
  // or with open at most, has a value.
  ghost predicate SizesKnown(d: Division, now: seq<Lit>, region: seq<nat>, open: bool, size: nat) {
    forall p :: p in region ==> SizeKnown(d, now, p, open, size)
  }

  ghost predicate SizeKnown(d: Division, now: seq<Lit>, p: nat, open: bool, size: nat) {
    p < |d.sizes| && |d.sizes[p].values| == |d.sizes[p].lits| + 1 ==>
      KnownBound(now, if open then AtMost(d.sizes[p], size) else AtLeast(d.sizes[p], size))
  }

  lemma SizesNone(d: Division, now: seq<Lit>, region: seq<nat>, open: bool, size: nat)
    ensures SizesKnown(d, now, region[..0], open, size)
  {
  }

  lemma SizesNext(d: Division, now: seq<Lit>, more: seq<Lit>, region: seq<nat>, i: nat, open: bool, size: nat)
    requires i < |region| && SizesKnown(d, now, region[..i], open, size) && now <= more
    requires SizeKnown(d, more, region[i], open, size)
    ensures SizesKnown(d, more, region[..i + 1], open, size)
  {
    hide AtLeast, AtMost;
    assert region[..i + 1] == region[..i] + [region[i]];
    forall p | p in region[..i] ensures SizeKnown(d, more, p, open, size) {
      assert SizeKnown(d, now, p, open, size);
    }
  }

  lemma SizesMore(d: Division, now: seq<Lit>, more: seq<Lit>, region: seq<nat>, open: bool, size: nat)
    requires SizesKnown(d, now, region, open, size) && now <= more
    ensures SizesKnown(d, more, region, open, size)
  {
    hide AtLeast, AtMost;
    forall p | p in region ensures SizeKnown(d, more, p, open, size) {
      assert SizeKnown(d, now, p, open, size);
    }
  }

  lemma AbsentKnown(d: Division, now: seq<Lit>, p: nat, open: bool, size: nat)
    requires p < |d.sizes| ==> Absent(d.sizes[p])
    ensures SizeKnown(d, now, p, open, size)
  {
  }

  // A bound that has been reached is true already.
  lemma LowerHeld(e: Encoding, n: nat, t: seq<Lit>, b: SizeBounds, x: int)
    requires EncodingOK(e, n) && !Absent(e) && BoundsFit(e, t, b) && Ordered(e, t) && b.lb >= x
    ensures AtLeast(e, x).Is? ==> AtLeast(e, x).l in t
  {
    var i: nat :| LowAt(e, t, b, i);
    if AtLeast(e, x).Is? {
      BoundInside(e.values, x);
      IndexOrder(e.values, i, x);
      assert OE.LowerBound(e.values, x) - 1 <= i - 1;
    }
  }

  lemma UpperHeld(e: Encoding, n: nat, t: seq<Lit>, b: SizeBounds, x: int)
    requires EncodingOK(e, n) && !Absent(e) && BoundsFit(e, t, b) && Ordered(e, t) && b.ub <= x
    ensures AtMost(e, x).Is? ==> AtMost(e, x).l in t
  {
    var j: nat :| HighAt(e, t, b, j);
    if AtMost(e, x).Is? {
      BoundInside(e.values, x + 1);
      var k := OE.LowerBound(e.values, x + 1);
      IndexOrder(e.values, j, x + 1);
      assert j <= k - 1 && j < |e.lits|;
      assert Neg(e.lits[j]) in t;
    }
  }

  // After one vertex of a decided region: its bound was good enough, or its literal
  // had a value, or has been enqueued.
  lemma LowerKnown(d: Division, adj: Adjacency, v: View, t: seq<Lit>, props: map<Lit, seq<Lit>>, was: seq<Lit>,
                   nowProps: map<Lit, seq<Lit>>, now: seq<Lit>, p: nat, size: nat)
    requires At(d, adj, v, t, p) && Grew(d, t, props, now, nowProps) && was <= now
    requires v.bounds[p].lb < size ==>
               KnownBound(was, AtLeast(d.sizes[p], size)) || KnownBound(now, AtLeast(d.sizes[p], size))
    ensures SizeKnown(d, now, p, false, size)
  {
    hide Prepared, Grew, BoundsFit, Ordered, EncodingOK, AtLeast;
    PreparedAt(d, adj, v, t, p);
    GrewPrefix(d, t, props, now, nowProps);
    if v.bounds[p].lb >= size {
      LowerHeld(d.sizes[p], |d.sizes|, t, v.bounds[p], size);
    }
  }

  lemma UpperKnown(d: Division, adj: Adjacency, v: View, t: seq<Lit>, props: map<Lit, seq<Lit>>, was: seq<Lit>,
                   nowProps: map<Lit, seq<Lit>>, now: seq<Lit>, p: nat, size: nat)
    requires At(d, adj, v, t, p) && Grew(d, t, props, now, nowProps) && was <= now
    requires v.bounds[p].ub > size ==>
               KnownBound(was, AtMost(d.sizes[p], size)) || KnownBound(now, AtMost(d.sizes[p], size))
    ensures SizeKnown(d, now, p, true, size)
  {
    hide Prepared, Grew, BoundsFit, Ordered, EncodingOK, AtMost;
    PreparedAt(d, adj, v, t, p);
    GrewPrefix(d, t, props, now, nowProps);
    if v.bounds[p].ub <= size {
      UpperHeld(d.sizes[p], |d.sizes|, t, v.bounds[p], size);
    }
  }

  // The first m regions have been dealt with.
  ghost predicate AllKnown(d: Division, now: seq<Lit>, regions: seq<seq<nat>>, open: bool, m: nat) {
    m <= |regions| && forall r :: 0 <= r < m ==> SizesKnown(d, now, regions[r], open, |regions[r]|)
  }

  lemma NextKnown(d: Division, now: seq<Lit>, more: seq<Lit>, regions: seq<seq<nat>>, open: bool, m: nat)
    requires AllKnown(d, now, regions, open, m) && now <= more && m < |regions|
    requires SizesKnown(d, more, regions[m], open, |regions[m]|)
    ensures AllKnown(d, more, regions, open, m + 1)
  {
    hide SizesKnown;
    forall r | 0 <= r < m ensures SizesKnown(d, more, regions[r], open, |regions[r]|) {
      SizesMore(d, now, more, regions[r], open, |regions[r]|);
    }
  }

  lemma LowerWanted(d: Division, adj: Adjacency, v: View, t: seq<Lit>, r: nat, i: nat)
    requires r < |v.dec.regions| && i < |v.dec.regions[r]| && At(d, adj, v, t, v.dec.regions[r][i])
    ensures var x := AtLeast(d.sizes[v.dec.regions[r][i]], |v.dec.regions[r]|);
            x.Is? && Free(t, x.l) ==> Wanted(d, t, x.l)
  {
    hide Prepared, AtLeast, AtMost, Present, Pairs, PartitionOK, StatesOK, AdjOK, DivisionOK, NoClash, Unmixed,
         RegionOf;
    PreparedFacts(d, adj, v, t);
    PresentIs(d, v.st, t, false);
    var p := v.dec.regions[r][i];
    RegionRange(|d.sizes|, Pairs(d, v.st, false), v.dec, r, i);
    RegionSize(|d.sizes|, Pairs(d, v.st, false), v.dec, p);
    var x := AtLeast(d.sizes[p], |v.dec.regions[r]|);
    assert x.Is? ==> SaysSize(d, t, p, x.l);
  }

  lemma UpperWanted(d: Division, adj: Adjacency, v: View, t: seq<Lit>, r: nat, i: nat)
    requires r < |v.pot.regions| && i < |v.pot.regions[r]| && At(d, adj, v, t, v.pot.regions[r][i])
    ensures var x := AtMost(d.sizes[v.pot.regions[r][i]], |v.pot.regions[r]|);
            x.Is? && Free(t, x.l) ==> Wanted(d, t, x.l)
  {
    hide Prepared, AtLeast, AtMost, Present, Pairs, PartitionOK, StatesOK, AdjOK, DivisionOK, NoClash, Unmixed,
         RegionOf;
    PreparedFacts(d, adj, v, t);
    PresentIs(d, v.st, t, true);
    var p := v.pot.regions[r][i];
    RegionRange(|d.sizes|, Pairs(d, v.st, true), v.pot, r, i);
    RegionSize(|d.sizes|, Pairs(d, v.st, true), v.pot, p);
    var x := AtMost(d.sizes[p], |v.pot.regions[r]|);
    assert x.Is? ==> SaysSize(d, t, p, x.l);
  }

  lemma SizeDecided(d: Division, adj: Adjacency, v: View, t: seq<Lit>, now: seq<Lit>, u: nat, l: Lit)
    requires Prepared(d, adj, v, t) && SaysSize(d, t, u, l)
    requires forall r :: 0 <= r < |v.dec.regions| ==> SizesKnown(d, now, v.dec.regions[r], false, |v.dec.regions[r]|)
    requires forall r :: 0 <= r < |v.pot.regions| ==> SizesKnown(d, now, v.pot.regions[r], true, |v.pot.regions[r]|)
    ensures Known(now, l)
  {
    hide Prepared, AtLeast, AtMost, Present, Pairs, PartitionOK, StatesOK, AdjOK, DivisionOK, NoClash, Unmixed,
         RegionOf, Known;
    PreparedFacts(d, adj, v, t);
    PresentIs(d, v.st, t, false);
    PresentIs(d, v.st, t, true);
    RegionSize(|d.sizes|, Pairs(d, v.st, false), v.dec, u);
    RegionSize(|d.sizes|, Pairs(d, v.st, true), v.pot, u);
    InOwnRegion(|d.sizes|, Pairs(d, v.st, false), v.dec, u);
    InOwnRegion(|d.sizes|, Pairs(d, v.st, true), v.pot, u);
    assert SizeKnown(d, now, u, false, |v.dec.regions[v.dec.ids[u]]|);
    assert SizeKnown(d, now, u, true, |v.pot.regions[v.pot.ids[u]]|);
  }

  lemma DrawnSelf(d: Division, t: seq<Lit>)
    ensures Drawn(d, t, t)
  {
  }

  // What the first rules have enqueued stays.
  lemma ChecksDecided(d: Division, adj: Adjacency, v: View, t: seq<Lit>, first: seq<Lit>, second: seq<Lit>,
                      now: seq<Lit>)
    requires Prepared(d, adj, v, t) && first <= second <= now
    requires forall u :: 0 <= u < |adj| ==> GoneTo(d, adj, v.dec.ids, t, first, u, |adj[u]|)
    requires forall r :: 0 <= r < |v.dec.regions| ==> SizesKnown(d, second, v.dec.regions[r], false, |v.dec.regions[r]|)
    requires forall r :: 0 <= r < |v.pot.regions| ==> SizesKnown(d, now, v.pot.regions[r], true, |v.pot.regions[r]|)
    ensures Decided(d, t, now)
  {
    hide Prepared, GoneTo, SizesKnown, Decided;
    AllGoneMore(d, adj, v.dec.ids, t, first, now, |adj|);
    forall r | 0 <= r < |v.dec.regions| ensures SizesKnown(d, now, v.dec.regions[r], false, |v.dec.regions[r]|) {
      SizesMore(d, second, now, v.dec.regions[r], false, |v.dec.regions[r]|);
    }
    AllDecided(d, adj, v, t, now);
  }

  // run_check has been through all rules.
  lemma AllDecided(d: Division, adj: Adjacency, v: View, t: seq<Lit>, now: seq<Lit>)
    requires Prepared(d, adj, v, t)
    requires forall u :: 0 <= u < |adj| ==> GoneTo(d, adj, v.dec.ids, t, now, u, |adj[u]|)
    requires forall r :: 0 <= r < |v.dec.regions| ==> SizesKnown(d, now, v.dec.regions[r], false, |v.dec.regions[r]|)
    requires forall r :: 0 <= r < |v.pot.regions| ==> SizesKnown(d, now, v.pot.regions[r], true, |v.pot.regions[r]|)
    ensures Decided(d, t, now)
  {
    hide Prepared, GoneTo, SizesKnown, SaysSize, NoPlace;
    PreparedFacts(d, adj, v, t);
    forall l | Wanted(d, t, l) ensures Known(now, l) {
      if u: nat :| SaysSize(d, t, u, l) {
        SizeDecided(d, adj, v, t, now, u, l);
      } else {
        var e: nat :| e < |d.borders| && l == Neg(d.borders[e]) && NoPlace(d, t, e);
        assert Neg(Neg(d.borders[e])) == d.borders[e];
        BordersGone(d, adj, v, t, now, e);
      }
    }
  }
}
