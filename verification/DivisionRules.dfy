// Steps of the rules of run_check in constraints/GraphDivision.cc.
module DivisionRules {
  import opened Logic
  import opened Divisions
  import opened DivisionRegions
  import opened DivisionSizes
  import opened DivisionViews
  import opened DivisionNews
  import UF = UnionFinds
  import Sorting

  lemma NoBorderNone(adj: Adjacency, ids: seq<int>, st: seq<EdgeState>, u: nat)
    requires u < |adj|
    ensures NoBorder(adj, ids, st, u, 0)
  {
  }

  lemma NoBorderNext(adj: Adjacency, ids: seq<int>, st: seq<EdgeState>, u: nat, k: nat)
    requires NoBorder(adj, ids, st, u, k) && k < |adj[u]| && NoBorderAt(ids, st, u, adj[u][k])
    ensures NoBorder(adj, ids, st, u, k + 1)
  {
    hide NoBorderAt;
  }

  lemma LargeAbsent(d: Division, bounds: seq<SizeBounds>, region: seq<nat>, p: nat, size: nat)
    requires LargeEnough(d, bounds, region, size) && p < |d.sizes| && p < |bounds| && Absent(d.sizes[p])
    ensures LargeEnough(d, bounds, region + [p], size)
  {
  }

  lemma LargeNext(d: Division, bounds: seq<SizeBounds>, region: seq<nat>, p: nat, size: nat)
    requires LargeEnough(d, bounds, region, size) && p < |d.sizes| && p < |bounds| && bounds[p].ub >= size
    ensures LargeEnough(d, bounds, region + [p], size)
  {
  }

  // least_ub and least_ub_pos: the position gives the bound, if there is one.
  ghost predicate LeastIs(d: Division, bounds: seq<SizeBounds>, region: seq<nat>, leastUb: int, pos: int) {
    || (pos == -1 && leastUb == |d.sizes|)
    || (0 <= pos < |d.sizes| && pos < |bounds| && pos in region && !Absent(d.sizes[pos]) && leastUb == bounds[pos].ub)
  }

  lemma LeastNone(d: Division, bounds: seq<SizeBounds>, region: seq<nat>)
    ensures LeastIs(d, bounds, region, |d.sizes|, -1) && LeastOf(d, bounds, region[..0], |d.sizes|)
    ensures LargeEnough(d, bounds, region[..0], |region|)
  {
  }

  lemma LeastNext(d: Division, bounds: seq<SizeBounds>, region: seq<nat>, leastUb: int, pos: int, i: nat)
    requires i < |region| && region[i] < |d.sizes| && region[i] < |bounds| && !Absent(d.sizes[region[i]])
    ensures LeastIs(d, bounds, region, bounds[region[i]].ub, region[i])
  {
  }

  // least_ub does not exceed the upper bounds seen so far.
  ghost predicate LeastOf(d: Division, bounds: seq<SizeBounds>, region: seq<nat>, leastUb: int) {
    forall p :: p in region && Sized(d, bounds, p) ==> leastUb <= bounds[p].ub
  }

  lemma LeastOfNext(d: Division, bounds: seq<SizeBounds>, region: seq<nat>, p: nat, leastUb: int)
    requires LeastOf(d, bounds, region, leastUb) && p < |d.sizes| && p < |bounds|
    ensures Absent(d.sizes[p]) || leastUb <= bounds[p].ub ==> LeastOf(d, bounds, region + [p], leastUb)
    ensures leastUb > bounds[p].ub ==> LeastOf(d, bounds, region + [p], bounds[p].ub)
  {
  }

  ghost predicate Below(d: Division, bounds: seq<SizeBounds>, region: seq<nat>, leastUb: int) {
    forall p :: p in region && Sized(d, bounds, p) ==> bounds[p].lb <= leastUb
  }

  lemma BelowNone(d: Division, bounds: seq<SizeBounds>, region: seq<nat>, leastUb: int)
    ensures Below(d, bounds, region[..0], leastUb)
  {
  }

  lemma BelowNext(d: Division, bounds: seq<SizeBounds>, region: seq<nat>, p: nat, leastUb: int)
    requires Below(d, bounds, region, leastUb) && p < |d.sizes| && p < |bounds|
    ensures Absent(d.sizes[p]) || bounds[p].lb <= leastUb ==> Below(d, bounds, region + [p], leastUb)
  {
  }

  lemma BelowEqual(d: Division, bounds: seq<SizeBounds>, region: seq<nat>, leastUb: int)
    requires Below(d, bounds, region, leastUb) && LeastOf(d, bounds, region, leastUb)
    ensures EqualSizes(d, bounds, region)
  {
    hide Sized;
  }

  // What the lemmas on a vertex of a region share.
  ghost predicate At(d: Division, adj: Adjacency, v: View, t: seq<Lit>, p: nat) {
    && Prepared(d, adj, v, t) && p < |d.sizes| == |v.bounds| && |d.edges| == |d.borders|
    && !Absent(d.sizes[p]) && |d.sizes[p].values| == |d.sizes[p].lits| + 1
  }

  lemma UpperConflict(d: Division, adj: Adjacency, v: View, t: seq<Lit>, r: nat, i: nat, ret: seq<Lit>)
    requires r < |v.dec.regions| && i < |v.dec.regions[r]| && At(d, adj, v, t, v.dec.regions[r][i])
    requires v.bounds[v.dec.regions[r][i]].ub < |v.dec.regions[r]|
    requires Gathers(d, ret, SetOf(v.dec.regions[r])) && AllWatched(d, ret) && forall l :: l in ret ==> l in t
    ensures ConflictOK(d, t, ret + BoundLits(AtMost(d.sizes[v.dec.regions[r][i]], |v.dec.regions[r]| - 1)))
  {
    hide Forbids, AllWatched, Unmixed, NoClash, Prepared, Gathers, Refuted, Implied, AtMost, AtLeast, PartitionOK,
         EncodingOK, BoundsFit, Ordered, DivisionOK;
    var p, k := v.dec.regions[r][i], |v.dec.regions[r]|;
    PreparedFacts(d, adj, v, t);
    PreparedAt(d, adj, v, t, p);
    RegionSet(|d.sizes|, Pairs(d, v.st, false), v.dec, r, i);
    MostTrue(d.sizes[p], |d.sizes|, t, v.bounds[p], k - 1);
    TooFew(d, ret, SetOf(v.dec.regions[r]), p);
    UpperForbids(d, t, ret, SetOf(v.dec.regions[r]), p);
  }

  lemma LowerForced(d: Division, adj: Adjacency, v: View, r: nat, i: nat, ret: seq<Lit>, t: seq<Lit>)
    requires r < |v.dec.regions| && i < |v.dec.regions[r]| && At(d, adj, v, t, v.dec.regions[r][i])
    requires Gathers(d, ret, SetOf(v.dec.regions[r]))
    ensures var x := AtLeast(d.sizes[v.dec.regions[r][i]], |v.dec.regions[r]|);
            x.Is? ==> Implied(d, ret, x.l) && Watches(d, x.l)
  {
    hide Watches, Prepared, Gathers, Refuted, Implied, AtMost, AtLeast, PartitionOK, DivisionOK;
    PreparedFacts(d, adj, v, t);
    RegionSet(|d.sizes|, Pairs(d, v.st, false), v.dec, r, i);
    TooFew(d, ret, SetOf(v.dec.regions[r]), v.dec.regions[r][i]);
    EncodedWatched(d, v.dec.regions[r][i], |v.dec.regions[r]|);
  }

  // The least upper bound has a position if some lower bound exceeds it.
  lemma LeastFound(d: Division, adj: Adjacency, v: View, t: seq<Lit>, r: nat, i: nat, leastUb: int, pos: int)
    requires r < |v.dec.regions| && i < |v.dec.regions[r]| && At(d, adj, v, t, v.dec.regions[r][i])
    requires LeastIs(d, v.bounds, v.dec.regions[r], leastUb, pos) && leastUb < v.bounds[v.dec.regions[r][i]].lb
    ensures 0 <= pos < |d.sizes| && At(d, adj, v, t, pos) && leastUb == v.bounds[pos].ub
    ensures |v.st| == |d.edges| && UF.Joined(Pairs(d, v.st, false), pos, v.dec.regions[r][i])
  {
    hide Prepared, PartitionOK, Pairs, UF.Joined;
    var p := v.dec.regions[r][i];
    PreparedFacts(d, adj, v, t);
    PreparedAt(d, adj, v, t, p);
    assert pos != -1;
    PreparedAt(d, adj, v, t, pos);
    assert p in v.dec.regions[r];
    SameId(|d.sizes|, Pairs(d, v.st, false), v.dec, r, pos, p);
  }

  lemma DifferConflict(d: Division, adj: Adjacency, v: View, t: seq<Lit>, u: nat, p: nat, ret: seq<Lit>)
    requires At(d, adj, v, t, u) && At(d, adj, v, t, p) && v.bounds[u].ub < v.bounds[p].lb
    requires Joins(d, ret, u, p) && AllWatched(d, ret) && forall l :: l in ret ==> l in t
    ensures ConflictOK(d, t, ret + v.bounds[u].ubWhy + BoundLits(AtLeast(d.sizes[p], v.bounds[u].ub + 1)))
  {
    hide Forbids, AllWatched, Unmixed, NoClash, Prepared, Joins, Refuted, AtLeast, EncodingOK, BoundsFit, Ordered,
         DivisionOK, Caps, Keeps;
    PreparedFacts(d, adj, v, t);
    PreparedAt(d, adj, v, t, u);
    PreparedAt(d, adj, v, t, p);
    BoundsWhy(d.sizes[u], t, v.bounds[u]);
    BoundsKeep(d.sizes[u], |d.sizes|, t, v.bounds[u]);
    LeastTrue(d.sizes[p], |d.sizes|, t, v.bounds[p], v.bounds[u].ub + 1);
    SizesDiffer(d, ret, v.bounds[u].ubWhy, u, p, v.bounds[u].ub);
    DifferForbids(d, t, ret, u, p, v.bounds[u]);
  }

  lemma SmallNone(d: Division, bounds: seq<SizeBounds>, region: seq<nat>, size: nat)
    ensures SmallEnough(d, bounds, region[..0], size)
  {
  }

  lemma SmallAbsent(d: Division, bounds: seq<SizeBounds>, region: seq<nat>, p: nat, size: nat)
    requires SmallEnough(d, bounds, region, size) && p < |d.sizes| && p < |bounds| && Absent(d.sizes[p])
    ensures SmallEnough(d, bounds, region + [p], size)
  {
  }

  lemma SmallNext(d: Division, bounds: seq<SizeBounds>, region: seq<nat>, p: nat, size: nat)
    requires SmallEnough(d, bounds, region, size) && p < |d.sizes| && p < |bounds| && bounds[p].lb <= size
    ensures SmallEnough(d, bounds, region + [p], size)
  {
  }

  lemma FenceConflict(d: Division, adj: Adjacency, v: View, t: seq<Lit>, r: nat, i: nat, ret: seq<Lit>)
    requires r < |v.pot.regions| && i < |v.pot.regions[r]| && At(d, adj, v, t, v.pot.regions[r][i])
    requires v.bounds[v.pot.regions[r][i]].lb > |v.pot.regions[r]|
    requires Fences(d, ret, SetOf(v.pot.regions[r])) && AllWatched(d, ret) && forall l :: l in ret ==> l in t
    ensures ConflictOK(d, t, ret + BoundLits(AtLeast(d.sizes[v.pot.regions[r][i]], |v.pot.regions[r]| + 1)))
  {
    hide Forbids, AllWatched, Unmixed, NoClash, Prepared, Fences, Refuted, Implied, AtMost, AtLeast, PartitionOK,
         EncodingOK, BoundsFit, Ordered, DivisionOK;
    var p, k := v.pot.regions[r][i], |v.pot.regions[r]|;
    PreparedFacts(d, adj, v, t);
    PreparedAt(d, adj, v, t, p);
    RegionSet(|d.sizes|, Pairs(d, v.st, true), v.pot, r, i);
    LeastTrue(d.sizes[p], |d.sizes|, t, v.bounds[p], k + 1);
    TooMany(d, ret, SetOf(v.pot.regions[r]), p);
    FenceForbids(d, t, ret, SetOf(v.pot.regions[r]), p);
  }

  lemma FenceForced(d: Division, adj: Adjacency, v: View, r: nat, i: nat, ret: seq<Lit>, t: seq<Lit>)
    requires r < |v.pot.regions| && i < |v.pot.regions[r]| && At(d, adj, v, t, v.pot.regions[r][i])
    requires Fences(d, ret, SetOf(v.pot.regions[r]))
    ensures var x := AtMost(d.sizes[v.pot.regions[r][i]], |v.pot.regions[r]|);
            x.Is? ==> Implied(d, ret, x.l) && Watches(d, x.l)
  {
    hide Watches, Prepared, Fences, Refuted, Implied, AtMost, AtLeast, PartitionOK, DivisionOK;
    PreparedFacts(d, adj, v, t);
    RegionSet(|d.sizes|, Pairs(d, v.st, true), v.pot, r, i);
    TooMany(d, ret, SetOf(v.pot.regions[r]), v.pot.regions[r][i]);
    EncodedWatched(d, v.pot.regions[r][i], |v.pot.regions[r]|);
  }

  predicate CellLt(x: (int, int, nat), y: (int, int, nat)) {
    x.0 < y.0 || (x.0 == y.0 && (x.1 < y.1 || (x.1 == y.1 && x.2 < y.2)))
  }

  lemma CellLtOrders()
    ensures Sorting.StrictWeakOrder(CellLt)
  {
  }

  ghost predicate IntervalOf(bounds: seq<SizeBounds>, region: seq<nat>, c: (int, int, nat)) {
    c.2 in region && c.2 < |bounds| && c == (bounds[c.2].ub, -bounds[c.2].lb, c.2)
  }

  // Every vertex of the region has its cell, and the cells are sorted.
  ghost predicate IntervalsOK(bounds: seq<SizeBounds>, region: seq<nat>, cells: seq<(int, int, nat)>) {
    && (forall k :: 0 <= k < |cells| ==> IntervalOf(bounds, region, cells[k]))
    && (forall p :: p in region ==> CellAt(cells, p))
    && (forall i, k :: 0 <= i < k < |cells| ==> !CellLt(cells[k], cells[i]))
  }

  ghost predicate CellAt(cells: seq<(int, int, nat)>, p: nat) {
    exists k :: 0 <= k < |cells| && cells[k].2 == p
  }

  lemma SortedIntervals(bounds: seq<SizeBounds>, region: seq<nat>, was: seq<(int, int, nat)>, now: seq<(int, int, nat)>)
    requires |was| == |region| && Sorting.PermutedIn(was, now, 0, |was|) && Sorting.Sorted(now[0..|was|], CellLt)
    requires forall k :: 0 <= k < |was| ==> IntervalOf(bounds, region, was[k]) && was[k].2 == region[k]
    ensures IntervalsOK(bounds, region, now)
  {
    hide IntervalOf, CellLt;
    assert was[0..|was|] == was && now[0..|was|] == now;
    forall k | 0 <= k < |now| ensures IntervalOf(bounds, region, now[k]) {
      assert now[k] in now;
      Sorting.PermutedMember(was, now, 0, |was|, now[k]);
      var i :| 0 <= i < |was| && was[i] == now[k];
    }
    forall p | p in region ensures CellAt(now, p) {
      var k :| 0 <= k < |region| && region[k] == p;
      assert was[k] in was;
      Sorting.PermutedMember(was, now, 0, |was|, was[k]);
      var i :| 0 <= i < |now| && now[i] == was[k];
    }
  }

  // The first i cells have been looked at.
  ghost predicate Sweeping(bounds: seq<SizeBounds>, region: seq<nat>, cells: seq<(int, int, nat)>, chain: seq<nat>,
                           cur: int, i: nat)
  {
    && IntervalsOK(bounds, region, cells) && cur == Reached(bounds, chain, |chain|)
    && (forall k :: 0 <= k < |chain| ==> Picked(bounds, region, chain, k))
    && (forall k :: 0 <= k < i && k < |cells| ==> -cells[k].1 <= cur)
  }

  lemma SweepNone(bounds: seq<SizeBounds>, region: seq<nat>, cells: seq<(int, int, nat)>)
    requires IntervalsOK(bounds, region, cells)
    ensures Sweeping(bounds, region, cells, [], 0, 0)
  {
  }

  lemma SweepPast(bounds: seq<SizeBounds>, region: seq<nat>, cells: seq<(int, int, nat)>, chain: seq<nat>, cur: int,
                  i: nat)
    requires Sweeping(bounds, region, cells, chain, cur, i) && i < |cells|
    ensures IntervalsOK(bounds, region, cells)
    ensures -cells[i].1 <= cur ==> Sweeping(bounds, region, cells, chain, cur, i + 1)
  {
    hide IntervalsOK, Picked;
  }

  lemma SweepTakes(bounds: seq<SizeBounds>, region: seq<nat>, cells: seq<(int, int, nat)>, chain: seq<nat>, cur: int,
                   i: nat)
    requires Sweeping(bounds, region, cells, chain, cur, i) && i < |cells| && cur < -cells[i].1 <= cells[i].0
    ensures Sweeping(bounds, region, cells, chain + [cells[i].2], cells[i].0, i + 1)
  {
    var p, more := cells[i].2, chain + [cells[i].2];
    assert IntervalOf(bounds, region, cells[i]);
    forall k | 0 <= k < |chain| ensures Picked(bounds, region, more, k) {
      assert Picked(bounds, region, chain, k);
      assert Reached(bounds, more, k) == Reached(bounds, chain, k);
    }
    assert Reached(bounds, more, |chain|) == cur;
    forall x | x in region && x < |bounds| && bounds[x].lb > cur ensures KeyLe(bounds, p, x) {
      assert CellAt(cells, x);
      var m :| 0 <= m < |cells| && cells[m].2 == x;
      assert IntervalOf(bounds, region, cells[m]);
      assert m >= i;
      assert m > i ==> !CellLt(cells[m], cells[i]);
    }
    assert Picked(bounds, region, more, |chain|);
  }

  lemma SweepDone(bounds: seq<SizeBounds>, region: seq<nat>, cells: seq<(int, int, nat)>, chain: seq<nat>, cur: int)
    requires Sweeping(bounds, region, cells, chain, cur, |cells|)
    ensures Swept(bounds, region, chain)
  {
    hide Picked;
    forall x | x in region && x < |bounds| ensures bounds[x].lb <= cur {
      assert CellAt(cells, x);
      var m :| 0 <= m < |cells| && cells[m].2 == x;
      assert IntervalOf(bounds, region, cells[m]);
    }
  }

  lemma RoomyIs(bounds: seq<SizeBounds>, region: seq<nat>, chain: seq<nat>)
    requires Swept(bounds, region, chain) && SumLb(bounds, chain) <= |region|
    ensures Roomy(bounds, region)
  {
    hide Swept, SumLb;
  }

  lemma {:induction false} ChosenSum(bounds: seq<SizeBounds>, chain: seq<nat>, chosen: seq<Cell>)
    requires Chosen(bounds, chain, chosen)
    ensures SumLo(chosen) == SumLb(bounds, chain)
  {
    if chain != [] {
      var k := |chain| - 1;
      assert ChosenAt(bounds, chain[k], chosen[k]);
      ChosenSum(bounds, chain[..k], chosen[..k]);
    }
  }

  lemma NothingChosen(d: Division, t: seq<Lit>, x: set<nat>)
    ensures CellsOK(d, t, x, []) && Staggered([]) && SumLo([]) == 0
  {
  }

  // The cell that is taken has a size variable: the bounds of the others are -1.
  lemma IntervalCell(d: Division, adj: Adjacency, v: View, t: seq<Lit>, r: nat, cells: seq<(int, int, nat)>, i: nat)
    requires Prepared(d, adj, v, t) && r < |v.pot.regions| && IntervalsOK(v.bounds, v.pot.regions[r], cells)
    requires i < |cells| && -cells[i].1 > 0
    ensures var p := cells[i].2;
            && p < |v.bounds| && v.bounds[p].ub == cells[i].0 && v.bounds[p].lb == -cells[i].1 <= cells[i].0
            && CellOK(d, SetOf(v.pot.regions[r]),
                      Cell(p, v.bounds[p].lb, v.bounds[p].ub, v.bounds[p].lbWhy + v.bounds[p].ubWhy))
            && forall l :: l in v.bounds[p].lbWhy + v.bounds[p].ubWhy ==> l in t
  {
    hide Prepared, BoundsFit, Ordered, EncodingOK, Keeps, Caps, PartitionOK;
    var p := cells[i].2;
    assert IntervalOf(v.bounds, v.pot.regions[r], cells[i]);
    PreparedFacts(d, adj, v, t);
    AbsentBounds(d, adj, v, t, p);
    PreparedAt(d, adj, v, t, p);
    BoundsWhy(d.sizes[p], t, v.bounds[p]);
    BoundsKeep(d.sizes[p], |d.sizes|, t, v.bounds[p]);
  }

  lemma ChosenNext(d: Division, t: seq<Lit>, x: set<nat>, chosen: seq<Cell>, c: Cell, cur: int)
    requires CellsOK(d, t, x, chosen) && Staggered(chosen) && CellOK(d, x, c) && cur < c.lo <= c.hi
    requires (forall l :: l in c.lits ==> l in t) && forall k :: 0 <= k < |chosen| ==> chosen[k].hi <= cur
    ensures CellsOK(d, t, x, chosen + [c]) && Staggered(chosen + [c]) && SumLo(chosen + [c]) == SumLo(chosen) + c.lo
  {
    hide CellOK;
    var more := chosen + [c];
    assert more[..|chosen|] == chosen;
  }

  lemma TightConflict(d: Division, adj: Adjacency, v: View, t: seq<Lit>, r: nat, chain: seq<nat>, chosen: seq<Cell>,
                      ret: seq<Lit>)
    requires Prepared(d, adj, v, t) && r < |v.pot.regions| && |d.edges| == |d.borders|
    requires CellsOK(d, t, SetOf(v.pot.regions[r]), chosen) && Staggered(chosen)
    requires SumLo(chosen) > |v.pot.regions[r]| && SumLo(chosen) == SumLb(v.bounds, chain)
    requires Swept(v.bounds, v.pot.regions[r], chain) && Chosen(v.bounds, chain, chosen)
    requires Fences(d, ret, SetOf(v.pot.regions[r])) && AllWatched(d, ret) && forall l :: l in ret ==> l in t
    ensures ConflictOK(d, t, ret + CellLits(chosen))
  {
    hide Prepared, Fences, Refuted, PartitionOK, CellOK, Staggered, SumLo, CellLits, DivisionOK, Forbids, AllWatched,
         Swept, Chosen, SumLb, Unmixed, NoClash;
    PreparedFacts(d, adj, v, t);
    RegionCount(|d.sizes|, Pairs(d, v.st, true), v.pot, r);
    TooTight(d, ret, SetOf(v.pot.regions[r]), chosen);
    TightForbids(d, adj, v, t, r, chain, chosen, ret);
  }
}
