// constraints/GraphDivision.cc: run_check, its explanations and the propagator
// around it.
module GraphDivisions {
  import opened Logic
  import opened Trails
  import opened Divisions
  import opened DivisionRegions
  import opened DivisionSizes
  import opened DivisionReasons
  import opened DivisionViews
  import opened DivisionNews
  import opened DivisionRules
  import opened DivisionForced
  import opened Filtering
  import UF = UnionFinds
  import Sorting

  class GraphDivision {
    const d: Division
    const adj: Adjacency
    var edgeState: seq<EdgeState>
    var bounds: seq<SizeBounds>
    var decided: Partition
    var potential: Partition
    var reasonsProp: map<Lit, seq<Lit>>
    var reasons: seq<seq<Lit>>
    // The literals that are true in the solver.
    var trail: seq<Lit>
    // The literals delivered and not yet undone.
    ghost var log: seq<Lit>

    ghost predicate Valid()
      reads this
    {
      && DivisionOK(d) && AdjOK(d, adj) && Unmixed(d) && NoClash(trail)
      && |edgeState| == |d.edges| && |bounds| == |d.sizes| && AbsentOK(d, bounds)
      && |d.edges| == |d.borders| && PropsOK(d, reasonsProp) && |reasons| == |log|
    }

    constructor (d: Division)
      requires DivisionOK(d) && Unmixed(d)
      ensures this.d == d && Valid() && reasonsProp == map[] && reasons == [] && trail == [] && log == []
    {
      var a: Adjacency := seq(|d.sizes|, u => []);
      for i := 0 to |d.edges|
        invariant |a| == |d.sizes| && AdjTo(d, a, i)
      {
        var (s, t) := d.edges[i];
        AdjNext(d, a, i);
        a := a[s := a[s] + [(t, i)]];
        a := a[t := a[t] + [(s, i)]];
      }
      this.d, adj := d, a;
      edgeState := seq(|d.edges|, e => Undecided);
      bounds := seq(|d.sizes|, u => SizeBounds(-1, -1, [], []));
      decided, potential := Partition([], []), Partition([], []);
      reasonsProp, reasons, trail, log := map[], [], [], [];
      new;
      AdjDone(d, a);
    }

    // compute_regions_dfs
    method RegionDfs(p: nat, id: nat, pot: bool, region: seq<nat>, ids: seq<int>)
      returns (region': seq<nat>, ids': seq<int>)
      requires DivisionOK(d) && AdjOK(d, adj) && |edgeState| == |d.edges|
      requires |ids| == |d.sizes| && p < |ids| && ListOK(ids, region)
      ensures Spread(Pairs(d, edgeState, pot), p, id, ids, ids') && Done(Pairs(d, edgeState, pot), ids, ids', -1)
      ensures Listed(ids, ids', region, region') && ListOK(ids', region') && |ids'| == |ids| && ids'[p] >= 0
      decreases Unvisited(ids)
    {
      hide AdjOK, DivisionOK, Spread, Done, Listed, ListOK, Pairs, Near, VisitedTo, Unvisited;
      ghost var pairs := Pairs(d, edgeState, pot);
      SizesOf(d, adj);
      region', ids' := region, ids;
      if ids[p] >= 0 {
        SpreadSelf(pairs, p, id, ids, region);
        return;
      }
      SpreadStart(pairs, p, id, ids, region);
      region', ids' := region + [p], ids[p := id];
      VisitedNone(adj, edgeState, pot, ids', p);
      for k := 0 to |adj[p]|
        invariant |ids'| == |ids| && Spread(pairs, p, id, ids, ids') && Done(pairs, ids, ids', p)
        invariant Listed(ids, ids', region, region') && ListOK(ids', region') && ids'[p] >= 0
        invariant VisitedTo(adj, edgeState, pot, ids', p, k) && Unvisited(ids') < Unvisited(ids)
      {
        AdjAt(d, adj, p, k);
        var (q, e) := adj[p][k];
        ghost var mid, list := ids', region';
        if Counts(edgeState[e], pot) {
          region', ids' := RegionDfs(q, id, pot, region', ids');
          NearEdge(d, edgeState, pot, p, q, e);
          SpreadNext(pairs, p, id, ids, mid, ids', q);
          SpreadGrows(pairs, p, id, ids, mid);
          SpreadGrows(pairs, q, id, mid, ids');
          ListedTrans(ids, mid, ids', region, list, region');
        }
        VisitedNext(adj, edgeState, pot, mid, ids', p, k);
      }
      AllVisited(d, adj, edgeState, pot, ids, ids', p);
    }

    // compute_regions
    method ComputeRegions(pot: bool) returns (p: Partition)
      requires DivisionOK(d) && AdjOK(d, adj) && |edgeState| == |d.edges|
      ensures PartitionOK(|d.sizes|, Pairs(d, edgeState, pot), p)
    {
      hide AdjOK, DivisionOK, Spread, Done, Listed, Pairs, Numbered, NoDup, PartitionOK;
      var n := |d.sizes|;
      ghost var pairs := Pairs(d, edgeState, pot);
      PairsWithin(d, edgeState, pot);
      var ids := seq(n, u => -1);
      var regions: seq<seq<nat>> := [];
      NumberedNothing(n, pairs);
      for i := 0 to n
        invariant |ids| == n && Numbered(n, pairs, ids, regions) && forall u :: 0 <= u < i ==> ids[u] >= 0
      {
        if ids[i] < 0 {
          NothingListed(ids);
          ghost var was := ids;
          var region;
          region, ids := RegionDfs(i, |regions|, pot, [], ids);
          ListedOnce(ids, region);
          NumberedNext(n, pairs, was, regions, i, ids, region);
          SpreadGrows(pairs, i, |regions|, was, ids);
          regions := regions + [region];
        }
      }
      AllNumbered(n, pairs, ids, regions);
      p := Partition(ids, regions);
    }

    // The search of reason_decided_connecting_path.
    method Search(src: nat, dest: nat) returns (origin: seq<(int, int)>, ghost order: seq<nat>)
      requires DivisionOK(d) && AdjOK(d, adj) && |edgeState| == |d.edges| && src < |d.sizes| && dest < |d.sizes|
      requires UF.Joined(Pairs(d, edgeState, false), src, dest)
      ensures TreeOK(d, edgeState, src, origin, order) && dest in order
    {
      hide AdjOK, DivisionOK, TreeOK, Pairs, Near, Scanned, Opened, UF.Joined;
      SizesOf(d, adj);
      origin := seq(|d.sizes|, u => (-2, -2));
      origin := origin[src := (-1, -1)];
      order := [src];
      var queue := [src];
      TreeStart(d, edgeState, src, origin);
      while |queue| > 0
        invariant |origin| == |d.sizes| && TreeOK(d, edgeState, src, origin, order)
        invariant forall u :: u in queue ==> u in order && u < |d.sizes|
        invariant |queue| <= |order|
        invariant origin[dest].0 == -2 ==>
                    && queue == order[|order| - |queue|..]
                    && Scanned(d, edgeState, origin, order, |order| - |queue|)
        decreases Unseen(origin), |queue|
      {
        var u := queue[0];
        assert u in queue;
        ghost var m := |order| - |queue|;
        ghost var origin0, order0 := origin, order;
        queue := queue[1..];
        OpenedNone(adj, edgeState, origin, u);
        for k := 0 to |adj[u]|
          invariant |origin| == |d.sizes| && TreeOK(d, edgeState, src, origin, order)
          invariant forall w :: w in queue ==> w in order && w < |d.sizes|
          invariant m < |order| && |queue| <= |order| && u in order
          invariant Unseen(origin) < Unseen(origin0)
                    || (Unseen(origin) == Unseen(origin0) && |queue| == |order0| - m - 1)
          invariant origin[dest].0 == -2 ==>
                      && queue == order[m + 1..] && order[m] == u
                      && Scanned(d, edgeState, origin, order, m) && Opened(adj, edgeState, origin, u, k)
        {
          AdjAt(d, adj, u, k);
          var (v, e) := adj[u][k];
          if edgeState[e] == Connected && origin[v].0 == -2 {
            TreeGrows(d, edgeState, src, origin, order, u, v, e);
            ScannedGrows(d, adj, edgeState, origin, order, m, u, k, v, e);
            UnseenShrinks(origin, v, (u, e));
            origin := origin[v := (u, e)];
            order := order + [v];
            if v == dest {
              break;
            }
            queue := queue + [v];
          }
          OpenedNext(adj, edgeState, origin, u, k);
        }
        if origin[dest].0 == -2 {
          ScannedNext(d, adj, edgeState, origin, order, m, u);
        }
      }
      if origin[dest].0 == -2 {
        AllScanned(d, edgeState, src, origin, order, dest);
      }
      TreeMember(d, edgeState, src, origin, order, dest);
    }

    // reason_decided_connecting_path: why src and dest are in one decided region.
    method ReasonPath(src: nat, dest: nat, ghost t: seq<Lit>) returns (ret: seq<Lit>)
      requires DivisionOK(d) && AdjOK(d, adj) && StatesOK(d, edgeState, t)
      requires src < |d.sizes| && dest < |d.sizes| && UF.Joined(Pairs(d, edgeState, false), src, dest)
      ensures Joins(d, ret, src, dest) && AllWatched(d, ret) && forall l :: l in ret ==> l in t
    {
      hide AdjOK, DivisionOK, TreeOK, Pairs, UF.Joined, Joins, StatesOK, Watches;
      StatesSize(d, edgeState, t);
      SizesOf(d, adj);
      ret := [];
      JoinsSelf(d, dest);
      if src == dest {
        return;
      }
      ghost var order;
      var origin;
      origin, order := Search(src, dest);
      var p := dest;
      ghost var k: nat :| k < |order| && order[k] == dest;
      while p != src
        invariant k < |order| && order[k] == p && Joins(d, ret, p, dest) && AllWatched(d, ret)
        invariant forall l :: l in ret ==> l in t
        decreases k
      {
        ghost var j := TreeStep(d, edgeState, src, origin, order, k);
        JoinsStep(d, ret, origin[p].0, p, dest, origin[p].1);
        ConnectedTrue(d, edgeState, t, origin[p].1);
        WatchesBorder(d, origin[p].1);
        ret := ret + [Neg(d.borders[origin[p].1])];
        p, k := origin[p].0, j;
      }
    }

    // reason_decided_region: why the vertices of decided region id are connected.
    method ReasonDecided(id: nat, ghost t: seq<Lit>) returns (ret: seq<Lit>)
      requires DivisionOK(d) && AdjOK(d, adj) && StatesOK(d, edgeState, t)
      requires PartitionOK(|d.sizes|, Pairs(d, edgeState, false), decided) && id < |decided.regions|
      ensures Gathers(d, ret, SetOf(decided.regions[id])) && AllWatched(d, ret) && forall l :: l in ret ==> l in t
    {
      hide Watches, AdjOK, DivisionOK, Pairs, PartitionOK, StatesOK, Gathers, Gathered, GatheredAt;
      StatesSize(d, edgeState, t);
      SizesOf(d, adj);
      var region := decided.regions[id];
      ret := [];
      GatheredNone(d, adj, edgeState, region, ret);
      for i := 0 to |region|
        invariant Gathered(d, adj, edgeState, region, i, ret) && AllWatched(d, ret) && forall l :: l in ret ==> l in t
      {
        var p := region[i];
        RegionRange(|d.sizes|, Pairs(d, edgeState, false), decided, id, i);
        GatheredAtNone(d, adj, edgeState, p, ret);
        for k := 0 to |adj[p]|
          invariant Gathered(d, adj, edgeState, region, i, ret) && GatheredAt(d, adj, edgeState, p, k, ret)
          invariant AllWatched(d, ret) && forall l :: l in ret ==> l in t
        {
          AdjAt(d, adj, p, k);
          var (q, e) := adj[p][k];
          ghost var was := ret;
          if edgeState[e] == Connected && p < q {
            ConnectedTrue(d, edgeState, t, e);
            WatchesBorder(d, e);
            ret := ret + [Neg(d.borders[e])];
          }
          GatheredMore(d, adj, edgeState, region, i, was, ret);
          GatheredAtNext(d, adj, edgeState, p, k, was, ret);
        }
        GatheredNext(d, adj, edgeState, region, i, ret);
      }
      AllGathered(d, adj, edgeState, decided, id, ret);
    }

    // reason_potential_region: why potential region id cannot be extended.
    method ReasonPotential(id: nat, ghost t: seq<Lit>) returns (ret: seq<Lit>)
      requires DivisionOK(d) && AdjOK(d, adj) && StatesOK(d, edgeState, t)
      requires PartitionOK(|d.sizes|, Pairs(d, edgeState, true), potential) && id < |potential.regions|
      ensures Fences(d, ret, SetOf(potential.regions[id])) && AllWatched(d, ret) && forall l :: l in ret ==> l in t
    {
      hide Watches, AdjOK, DivisionOK, Pairs, PartitionOK, StatesOK, Fences, Fenced, FencedAt;
      StatesSize(d, edgeState, t);
      SizesOf(d, adj);
      var region := potential.regions[id];
      ret := [];
      FencedNone(d, adj, potential.ids, id, region, ret);
      for i := 0 to |region|
        invariant Fenced(d, adj, potential.ids, id, region, i, ret) && AllWatched(d, ret)
        invariant forall l :: l in ret ==> l in t
      {
        var p := region[i];
        RegionRange(|d.sizes|, Pairs(d, edgeState, true), potential, id, i);
        FencedAtNone(d, adj, potential.ids, id, p, ret);
        for k := 0 to |adj[p]|
          invariant Fenced(d, adj, potential.ids, id, region, i, ret)
          invariant FencedAt(d, adj, potential.ids, id, p, k, ret) && AllWatched(d, ret)
          invariant forall l :: l in ret ==> l in t
        {
          AdjAt(d, adj, p, k);
          var (q, e) := adj[p][k];
          ghost var was := ret;
          if potential.ids[q] != id {
            CrossingTrue(d, edgeState, t, potential, p, q, e);
            WatchesBorder(d, e);
            ret := ret + [d.borders[e]];
          }
          FencedMore(d, adj, potential.ids, id, region, i, was, ret);
          FencedAtNext(d, adj, potential.ids, id, p, k, was, ret);
        }
        FencedNext(d, adj, potential.ids, id, region, i, ret);
      }
      AllFenced(d, adj, edgeState, potential, id, ret);
    }

    ghost function Seen(): View
      reads this`edgeState, this`bounds, this`decided, this`potential
    {
      View(edgeState, bounds, decided, potential)
    }

    // reasons_prop_[p] = reason and enqueue(p).
    method Force(p: Lit, reason: seq<Lit>, ghost t: seq<Lit>, ghost props: map<Lit, seq<Lit>>)
      requires Grew(d, t, props, trail, reasonsProp) && |d.edges| == |d.borders| && Implied(d, reason, p)
      requires (forall l :: l in reason ==> l in t) && p !in t && Neg(p) !in trail && Watches(d, p)
      requires Drawn(d, t, trail) && Wanted(d, t, p)
      modifies this`trail, this`reasonsProp
      ensures Grew(d, t, props, trail, reasonsProp) && Drawn(d, t, trail) && old(trail) <= trail
      ensures trail == if p in old(trail) then old(trail) else old(trail) + [p]
    {
      hide Grew, Implied, Watches, Wanted;
      ForceGrew(d, t, props, trail, reasonsProp, p, reason);
      reasonsProp := reasonsProp[p := reason];
      if p !in trail {
        trail := trail + [p];
      }
    }

    // 1. No border within a decided region.
    method Rule1(ghost t: seq<Lit>, ghost props: map<Lit, seq<Lit>>) returns (c: Outcome)
      requires Prepared(d, adj, Seen(), t) && Grew(d, t, props, trail, reasonsProp) && BordersOnly(d, t, trail)
      requires Drawn(d, t, trail)
      modifies this`trail, this`reasonsProp
      ensures Grew(d, t, props, trail, reasonsProp) && Drawn(d, t, trail)
      ensures c.Conflict? ==> ConflictOK(d, t, c.reason)
      ensures c == Fine ==> forall u :: 0 <= u < |adj| ==> NoBorder(adj, decided.ids, edgeState, u, |adj[u]|)
      ensures c == Fine ==> forall u :: 0 <= u < |adj| ==> GoneTo(d, adj, decided.ids, t, trail, u, |adj[u]|)
    {
      hide DivisionOK, AdjOK, StatesOK, PartitionOK, Prepared, Grew, BordersOnly, NoBorder, Joins, Pairs, UF.Joined,
           Refuted, Implied, Forbids, AllWatched, Watches, Drawn, Wanted, GoneTo, GoneAt;
      PreparedFacts(d, adj, Seen(), t);
      SizesOf(d, adj);
      StatesSize(d, edgeState, t);
      for u := 0 to |d.sizes|
        invariant Grew(d, t, props, trail, reasonsProp) && BordersOnly(d, t, trail)
        invariant forall w :: 0 <= w < u ==> NoBorder(adj, decided.ids, edgeState, w, |adj[w]|)
        invariant Drawn(d, t, trail) && forall w :: 0 <= w < u ==> GoneTo(d, adj, decided.ids, t, trail, w, |adj[w]|)
      {
        NoBorderNone(adj, decided.ids, edgeState, u);
        GoneNone(d, adj, decided.ids, t, trail, u);
        ghost var start := trail;
        for k := 0 to |adj[u]|
          invariant Grew(d, t, props, trail, reasonsProp) && BordersOnly(d, t, trail)
          invariant NoBorder(adj, decided.ids, edgeState, u, k)
          invariant Drawn(d, t, trail) && start <= trail && GoneTo(d, adj, decided.ids, t, trail, u, k)
        {
          AdjAt(d, adj, u, k);
          var (v, e) := adj[u][k];
          ghost var was := trail;
          if decided.ids[u] == decided.ids[v] {
            JoinedIds(|d.sizes|, Pairs(d, edgeState, false), decided, u, v);
            if edgeState[e] == Disconnected {
              var ret := ReasonPath(u, v, t);
              BorderWithin(d, ret, u, v, e);
              DisconnectedTrue(d, edgeState, t, e);
              BorderForbids(d, t, ret, u, v, e);
              return Conflict(ret + [d.borders[e]]);
            } else if edgeState[e] == Undecided {
              var ret := ReasonPath(u, v, t);
              BorderWithin(d, ret, u, v, e);
              BorderWanted(d, adj, Seen(), t, e, u, v);
              BorderFree(d, edgeState, t, trail, e);
              BordersMore(d, t, trail, e);
              WatchesBorder(d, e);
              Force(Neg(d.borders[e]), ret, t, props);
            }
          }
          NoBorderNext(adj, decided.ids, edgeState, u, k);
          GoneHere(d, decided.ids, edgeState, t, trail, u, v, e);
          GoneNext(d, adj, decided.ids, t, was, trail, u, k);
        }
        AllGoneMore(d, adj, decided.ids, t, start, trail, u);
      }
      c := Fine;
    }

    // 2. Size variables within a decided region.
    method Rule2(ghost t: seq<Lit>, ghost props: map<Lit, seq<Lit>>) returns (c: Outcome)
      requires Prepared(d, adj, Seen(), t) && Grew(d, t, props, trail, reasonsProp) && Drawn(d, t, trail)
      modifies this`trail, this`reasonsProp
      ensures Grew(d, t, props, trail, reasonsProp) && Drawn(d, t, trail) && old(trail) <= trail
      ensures c.Conflict? ==> ConflictOK(d, t, c.reason)
      ensures c == Fine ==>
                forall r :: 0 <= r < |decided.regions| ==>
                  SizesKnown(d, trail, decided.regions[r], false, |decided.regions[r]|)
      ensures c == Fine ==>
                forall r :: 0 <= r < |decided.regions| ==>
                  LargeEnough(d, bounds, decided.regions[r], |decided.regions[r]|)
      ensures c == Fine ==> forall r :: 0 <= r < |decided.regions| ==> EqualSizes(d, bounds, decided.regions[r])
    {
      hide DivisionOK, AdjOK, StatesOK, PartitionOK, Prepared, Grew, LargeEnough, ConflictOK, EqualSizes, LeastOf,
           Drawn, SizesKnown;
      PreparedFacts(d, adj, Seen(), t);
      for r := 0 to |decided.regions|
        invariant Grew(d, t, props, trail, reasonsProp) && Drawn(d, t, trail) && old(trail) <= trail
        invariant AllKnown(d, trail, decided.regions, false, r)
        invariant forall q :: 0 <= q < r ==> LargeEnough(d, bounds, decided.regions[q], |decided.regions[q]|)
        invariant forall q :: 0 <= q < r ==> EqualSizes(d, bounds, decided.regions[q])
      {
        var leastUb, leastUbPos;
        ghost var was := trail;
        c, leastUb, leastUbPos := RegionLower(r, t, props);
        if c.Conflict? {
          return;
        }
        NextKnown(d, was, trail, decided.regions, false, r);
        c := RegionEqual(r, leastUb, leastUbPos, t);
        if c.Conflict? {
          return;
        }
      }
      c := Fine;
    }

    // The first loop over a decided region: sizes are at least that of the region.
    method RegionLower(r: nat, ghost t: seq<Lit>, ghost props: map<Lit, seq<Lit>>)
      returns (c: Outcome, leastUb: int, leastUbPos: int)
      requires Prepared(d, adj, Seen(), t) && Grew(d, t, props, trail, reasonsProp) && r < |decided.regions|
      requires Drawn(d, t, trail)
      modifies this`trail, this`reasonsProp
      ensures Grew(d, t, props, trail, reasonsProp) && Drawn(d, t, trail) && old(trail) <= trail
      ensures c == Fine ==> SizesKnown(d, trail, decided.regions[r], false, |decided.regions[r]|)
      ensures c.Conflict? ==> ConflictOK(d, t, c.reason)
      ensures c == Fine ==> LargeEnough(d, bounds, decided.regions[r], |decided.regions[r]|)
      ensures c == Fine ==> LeastIs(d, bounds, decided.regions[r], leastUb, leastUbPos)
      ensures c == Fine ==> LeastOf(d, bounds, decided.regions[r], leastUb)
    {
      hide DivisionOK, AdjOK, StatesOK, PartitionOK, Prepared, Grew, Gathers, Pairs, ConflictOK, Refuted, Implied,
           LeastIs, LeastOf, LargeEnough, AtMost, AtLeast, AllWatched, Watches, Drawn, Wanted, SizesKnown,
           BoundsFit;
      PreparedFacts(d, adj, Seen(), t);
      var region := decided.regions[r];
      var rSize := |region|;
      leastUb, leastUbPos := |d.sizes|, -1;
      LeastNone(d, bounds, region);
      SizesNone(d, trail, region, false, rSize);
      for i := 0 to |region|
        invariant Grew(d, t, props, trail, reasonsProp) && Drawn(d, t, trail) && old(trail) <= trail
        invariant SizesKnown(d, trail, region[..i], false, rSize)
        invariant LargeEnough(d, bounds, region[..i], rSize) && LeastIs(d, bounds, region, leastUb, leastUbPos)
        invariant LeastOf(d, bounds, region[..i], leastUb)
      {
        var p := region[i];
        ghost var was := trail;
        RegionRange(|d.sizes|, Pairs(d, edgeState, false), decided, r, i);
        assert region[..i + 1] == region[..i] + [p];
        LeastOfNext(d, bounds, region[..i], p, leastUb);
        if Absent(d.sizes[p]) {
          LargeAbsent(d, bounds, region[..i], p, rSize);
          AbsentKnown(d, trail, p, false, rSize);
          SizesNext(d, was, trail, region, i, false, rSize);
          continue;
        }
        PreparedAt(d, adj, Seen(), t, p);
        LeastNext(d, bounds, region, leastUb, leastUbPos, i);
        if leastUb > bounds[p].ub {
          leastUb, leastUbPos := bounds[p].ub, p;
        }
        if bounds[p].ub < rSize {
          var ret := ReasonDecided(r, t);
          var x := AtMost(d.sizes[p], rSize - 1);
          UpperConflict(d, adj, Seen(), t, r, i, ret);
          return Conflict(ret + BoundLits(x)), leastUb, leastUbPos;
        }
        LargeNext(d, bounds, region[..i], p, rSize);
        if bounds[p].lb < rSize {
          var x := AtLeast(d.sizes[p], rSize);
          if x.Is? {
            if Value(trail, x.l) == Undef {
              var ret := ReasonDecided(r, t);
              LowerForced(d, adj, Seen(), r, i, ret, t);
              GrewPrefix(d, t, props, trail, reasonsProp);
              LowerWanted(d, adj, Seen(), t, r, i);
              Force(x.l, ret, t, props);
            }
          }
        }
        LowerKnown(d, adj, Seen(), t, props, was, reasonsProp, trail, p, rSize);
        SizesNext(d, was, trail, region, i, false, rSize);
      }
      assert region[..|region|] == region;
      c := Fine;
    }

    // The second loop: the lower bounds do not exceed the least upper bound.
    method RegionEqual(r: nat, leastUb: int, leastUbPos: int, ghost t: seq<Lit>) returns (c: Outcome)
      requires Prepared(d, adj, Seen(), t) && r < |decided.regions|
      requires LeastIs(d, bounds, decided.regions[r], leastUb, leastUbPos)
      requires LeastOf(d, bounds, decided.regions[r], leastUb)
      ensures c.Conflict? ==> ConflictOK(d, t, c.reason)
      ensures c == Fine ==> EqualSizes(d, bounds, decided.regions[r])
    {
      hide DivisionOK, AdjOK, StatesOK, PartitionOK, Prepared, Joins, Pairs, ConflictOK, Refuted, UF.Joined, LeastIs,
           AtLeast, LeastOf, AllWatched, Below, EqualSizes;
      PreparedFacts(d, adj, Seen(), t);
      var region := decided.regions[r];
      BelowNone(d, bounds, region, leastUb);
      for i := 0 to |region|
        invariant Below(d, bounds, region[..i], leastUb)
      {
        var p := region[i];
        assert region[..i + 1] == region[..i] + [p];
        RegionRange(|d.sizes|, Pairs(d, edgeState, false), decided, r, i);
        BelowNext(d, bounds, region[..i], p, leastUb);
        if Absent(d.sizes[p]) {
          continue;
        }
        PreparedAt(d, adj, Seen(), t, p);
        if leastUb < bounds[p].lb {
          LeastFound(d, adj, Seen(), t, r, i, leastUb, leastUbPos);
          var ret := ReasonPath(leastUbPos, p, t);
          var x := AtLeast(d.sizes[p], leastUb + 1);
          DifferConflict(d, adj, Seen(), t, leastUbPos, p, ret);
          return Conflict(ret + bounds[leastUbPos].ubWhy + BoundLits(x));
        }
      }
      assert region[..|region|] == region;
      BelowEqual(d, bounds, region, leastUb);
      c := Fine;
    }

    // 3. Size variables within a potential region.
    method Rule3(ghost t: seq<Lit>, ghost props: map<Lit, seq<Lit>>) returns (c: Outcome)
      requires Prepared(d, adj, Seen(), t) && Grew(d, t, props, trail, reasonsProp) && Drawn(d, t, trail)
      modifies this`trail, this`reasonsProp
      ensures Grew(d, t, props, trail, reasonsProp) && Drawn(d, t, trail) && old(trail) <= trail
      ensures c.Conflict? ==> ConflictOK(d, t, c.reason)
      ensures c == Fine ==>
                forall r :: 0 <= r < |potential.regions| ==>
                  SizesKnown(d, trail, potential.regions[r], true, |potential.regions[r]|)
      ensures c == Fine ==>
                forall r :: 0 <= r < |potential.regions| ==>
                  SmallEnough(d, bounds, potential.regions[r], |potential.regions[r]|)
    {
      hide Prepared, Grew, SmallEnough, ConflictOK, Drawn, SizesKnown;
      for r := 0 to |potential.regions|
        invariant Grew(d, t, props, trail, reasonsProp) && Drawn(d, t, trail) && old(trail) <= trail
        invariant AllKnown(d, trail, potential.regions, true, r)
        invariant forall q :: 0 <= q < r ==> SmallEnough(d, bounds, potential.regions[q], |potential.regions[q]|)
      {
        ghost var was := trail;
        c := RegionUpper(r, t, props);
        if c.Conflict? {
          return;
        }
        NextKnown(d, was, trail, potential.regions, true, r);
      }
      c := Fine;
    }

    method RegionUpper(r: nat, ghost t: seq<Lit>, ghost props: map<Lit, seq<Lit>>) returns (c: Outcome)
      requires Prepared(d, adj, Seen(), t) && Grew(d, t, props, trail, reasonsProp) && r < |potential.regions|
      requires Drawn(d, t, trail)
      modifies this`trail, this`reasonsProp
      ensures Grew(d, t, props, trail, reasonsProp) && Drawn(d, t, trail) && old(trail) <= trail
      ensures c == Fine ==> SizesKnown(d, trail, potential.regions[r], true, |potential.regions[r]|)
      ensures c.Conflict? ==> ConflictOK(d, t, c.reason)
      ensures c == Fine ==> SmallEnough(d, bounds, potential.regions[r], |potential.regions[r]|)
    {
      hide DivisionOK, AdjOK, StatesOK, PartitionOK, Prepared, Grew, Fences, Pairs, ConflictOK, Refuted, Implied,
           SmallEnough, AtMost, AtLeast, AllWatched, Watches, Drawn, Wanted, SizesKnown, BoundsFit;
      PreparedFacts(d, adj, Seen(), t);
      var region := potential.regions[r];
      var rSize := |region|;
      var known, why := false, [];
      SmallNone(d, bounds, region, rSize);
      SizesNone(d, trail, region, true, rSize);
      for i := 0 to |region|
        invariant Grew(d, t, props, trail, reasonsProp) && Drawn(d, t, trail) && old(trail) <= trail
        invariant SizesKnown(d, trail, region[..i], true, rSize)
        invariant SmallEnough(d, bounds, region[..i], rSize)
        invariant known ==> Fences(d, why, SetOf(region)) && AllWatched(d, why) && forall l :: l in why ==> l in t
      {
        var p := region[i];
        ghost var was := trail;
        RegionRange(|d.sizes|, Pairs(d, edgeState, true), potential, r, i);
        assert region[..i + 1] == region[..i] + [p];
        if Absent(d.sizes[p]) {
          SmallAbsent(d, bounds, region[..i], p, rSize);
          AbsentKnown(d, trail, p, true, rSize);
          SizesNext(d, was, trail, region, i, true, rSize);
          continue;
        }
        PreparedAt(d, adj, Seen(), t, p);
        if bounds[p].lb > rSize {
          if !known {
            why := ReasonPotential(r, t);
            known := true;
          }
          var x := AtLeast(d.sizes[p], rSize + 1);
          FenceConflict(d, adj, Seen(), t, r, i, why);
          return Conflict(why + BoundLits(x));
        }
        SmallNext(d, bounds, region[..i], p, rSize);
        if bounds[p].ub > rSize {
          var x := AtMost(d.sizes[p], rSize);
          if x.Is? {
            if Value(trail, x.l) == Undef {
              if !known {
                why := ReasonPotential(r, t);
                known := true;
              }
              FenceForced(d, adj, Seen(), r, i, why, t);
              GrewPrefix(d, t, props, trail, reasonsProp);
              UpperWanted(d, adj, Seen(), t, r, i);
              Force(x.l, why, t, props);
            }
          }
        }
        UpperKnown(d, adj, Seen(), t, props, was, reasonsProp, trail, p, rSize);
        SizesNext(d, was, trail, region, i, true, rSize);
      }
      assert region[..|region|] == region;
      c := Fine;
    }

    // 3a. Size intervals within a potential region that do not overlap.
    method Rule3a(ghost t: seq<Lit>) returns (c: Outcome)
      requires Prepared(d, adj, Seen(), t)
      ensures c.Conflict? ==> ConflictOK(d, t, c.reason)
      ensures c == Fine ==> forall r :: 0 <= r < |potential.regions| ==> Roomy(bounds, potential.regions[r])
    {
      hide Prepared, ConflictOK, Roomy;
      for r := 0 to |potential.regions|
        invariant forall q :: 0 <= q < r ==> Roomy(bounds, potential.regions[q])
      {
        c := RegionIntervals(r, t);
        if c.Conflict? {
          return;
        }
      }
      c := Fine;
    }

    // Cells are taken in the order of their upper bounds, each starting above the
    // upper bound of the last one taken.
    method RegionIntervals(r: nat, ghost t: seq<Lit>) returns (c: Outcome)
      requires Prepared(d, adj, Seen(), t) && r < |potential.regions|
      ensures c.Conflict? ==> ConflictOK(d, t, c.reason)
      ensures c == Fine ==> Roomy(bounds, potential.regions[r])
    {
      hide DivisionOK, AdjOK, StatesOK, PartitionOK, Prepared, Fences, Pairs, ConflictOK, Refuted, CellsOK, Staggered,
           CellLits, SumLo, IntervalsOK, Sweeping, Roomy, AllWatched;
      PreparedFacts(d, adj, Seen(), t);
      var region := potential.regions[r];
      var cells := Intervals(r, t);
      var cur, minRequired := 0, 0;
      var chosen: seq<Cell> := [];
      ghost var chain: seq<nat> := [];
      NothingChosen(d, t, SetOf(region));
      SweepNone(bounds, region, cells);
      for i := 0 to |cells|
        invariant cur >= 0 && minRequired == SumLo(chosen) && CellsOK(d, t, SetOf(region), chosen) && Staggered(chosen)
        invariant forall k :: 0 <= k < |chosen| ==> chosen[k].hi <= cur
        invariant Sweeping(bounds, region, cells, chain, cur, i) && Chosen(bounds, chain, chosen)
      {
        var (ub, negLb, p) := cells[i];
        var lb := -negLb;
        SweepPast(bounds, region, cells, chain, cur, i);
        if cur < lb {
          IntervalCell(d, adj, Seen(), t, r, cells, i);
          var cell := Cell(p, lb, ub, bounds[p].lbWhy + bounds[p].ubWhy);
          ChosenNext(d, t, SetOf(region), chosen, cell, cur);
          SweepTakes(bounds, region, cells, chain, cur, i);
          minRequired := minRequired + lb;
          cur := ub;
          chosen := chosen + [cell];
          chain := chain + [p];
        }
      }
      SweepDone(bounds, region, cells, chain, cur);
      ChosenSum(bounds, chain, chosen);
      if minRequired > |region| {
        var ret := ReasonPotential(r, t);
        TightConflict(d, adj, Seen(), t, r, chain, chosen, ret);
        return Conflict(ret + CellLits(chosen));
      }
      RoomyIs(bounds, region, chain);
      c := Fine;
    }

    // The cells of a potential region, sorted by upper bound, lower bound and vertex.
    method Intervals(r: nat, ghost t: seq<Lit>) returns (cells: seq<(int, int, nat)>)
      requires Prepared(d, adj, Seen(), t) && r < |potential.regions|
      ensures IntervalsOK(bounds, potential.regions[r], cells)
    {
      hide Prepared, PartitionOK, DivisionOK, AdjOK, StatesOK;
      PreparedFacts(d, adj, Seen(), t);
      var region := potential.regions[r];
      cells := [];
      for i := 0 to |region|
        invariant |cells| == i
        invariant forall k :: 0 <= k < i ==> IntervalOf(bounds, region, cells[k]) && cells[k].2 == region[k]
      {
        RegionRange(|d.sizes|, Pairs(d, edgeState, true), potential, r, i);
        var p := region[i];
        assert p in region;
        cells := cells + [(bounds[p].ub, -bounds[p].lb, p)];
      }
      var a := new (int, int, nat)[|cells|](i requires 0 <= i < |cells| => cells[i]);
      assert a[..] == cells;
      CellLtOrders();
      Sorting.Sort(a, 0, a.Length, CellLt);
      SortedIntervals(bounds, region, cells, a[..]);
      cells := a[..];
    }

    // size_lb_ and size_ub_ of one vertex, by binary search.
    static method BoundsOf(e: Encoding, trail: seq<Lit>) returns (b: SizeBounds)
      requires !Absent(e) && |e.values| == |e.lits| + 1
      ensures BoundsFit(e, trail, b)
    {
      var left, right := 0, |e.values| - 1;
      while left < right
        invariant 0 <= left <= right <= |e.lits|
        invariant left > 0 ==> e.lits[left - 1] in trail
        invariant right < |e.lits| ==> e.lits[right] !in trail
      {
        var mid := (left + right + 1) / 2;
        if Value(trail, e.lits[mid - 1]) == True {
          left := mid;
        } else {
          right := mid - 1;
        }
      }
      var lb, lbWhy := e.values[left], if left == 0 then [] else [e.lits[left - 1]];
      ghost var i: nat := left;
      left, right := 0, |e.values| - 1;
      while left < right
        invariant 0 <= left <= right <= |e.lits|
        invariant right < |e.lits| ==> IsFalseIn(trail, e.lits[right])
        invariant left > 0 ==> !IsFalseIn(trail, e.lits[left - 1])
      {
        var mid := (left + right) / 2;
        if IsFalseIn(trail, e.lits[mid]) {
          right := mid;
        } else {
          left := mid + 1;
        }
      }
      b := SizeBounds(lb, e.values[left], lbWhy, if left == |e.values| - 1 then [] else [Neg(e.lits[left])]);
      ghost var j: nat := left;
      assert LowAt(e, trail, b, i) && HighAt(e, trail, b, j);
    }

    // run_check
    method RunCheck() returns (c: Outcome)
      requires Valid() && AllOrdered(d, trail)
      modifies this`edgeState, this`bounds, this`decided, this`potential, this`trail, this`reasonsProp
      ensures Valid() && Grew(d, old(trail), old(reasonsProp), trail, reasonsProp)
      ensures Drawn(d, old(trail), trail) && (c == Fine ==> Decided(d, old(trail), trail))
      ensures c.Conflict? ==> ConflictOK(d, old(trail), c.reason)
      ensures c == Fine ==> DivisionQuiet(d, old(trail))
      ensures Total(d, old(trail)) ==>
                forall a: Assignment :: AllHold(a, old(trail)) ==> (c == Fine <==> Divides(d, a))
    {
      hide DivisionOK, AdjOK, StatesOK, PartitionOK, Prepared, Grew, BordersOnly, NoBorder, LargeEnough, SmallEnough,
           Divides, Total, Refuted, AllOrdered, AllHold, PropsOK, BoundsOK, Unmixed, Forbids, DivisionQuiet, EqualSizes,
           Roomy, Drawn, Decided, Wanted, GoneTo, SizesKnown;
      ghost var t, props := trail, reasonsProp;
      ReadStates();
      ReadBounds();
      ValidSizes(d, adj, edgeState, bounds);
      decided := ComputeRegions(false);
      potential := ComputeRegions(true);
      PreparedNow(d, adj, Seen(), t);
      GrewSelf(d, t, props);
      DrawnSelf(d, t);
      c := Rule1(t, props);
      if c == Fine {
        ghost var first := trail;
        c := Rule2(t, props);
        if c == Fine {
          ghost var second := trail;
          c := Rule3(t, props);
          if c == Fine {
            c := Rule3a(t);
            if c == Fine {
              FineDivides(d, adj, Seen(), t);
              FineQuiet(d, adj, Seen(), t);
              ChecksDecided(d, adj, Seen(), t, first, second, trail);
            }
          }
        }
      }
      if c.Conflict? {
        ConflictFails(d, t, c.reason);
      }
      GrewValid(d, t, props, trail, reasonsProp);
    }

    // initialize, without the calls of addWatch.  A first value below 0 is compared
    // as an unsigned number, so it too counts as larger than the graph.
    method Initialize(now: seq<Lit>) returns (a: Answer)
      requires Valid() && log == [] && NoClash(now) && AllOrdered(d, now)
      modifies this`edgeState, this`bounds, this`decided, this`potential, this`trail, this`reasonsProp
      ensures Valid()
      ensures NoneNegative(d) ==> trail == now + a.implied && Replies(d, now, false, a)
      ensures !NoneNegative(d) ==> !a.accept && trail == now
    {
      hide DivisionOK, AdjOK, Unmixed, AbsentOK, PropsOK, AllOrdered, Grew, ConflictOK, DivisionQuiet, Divides, Total,
           Replies, NoClash;
      trail := now;
      for u := 0 to |d.sizes|
        invariant trail == now && Valid() && NonNegativeTo(d, u)
      {
        if !Absent(d.sizes[u]) && (d.sizes[u].values[0] < 0 || d.sizes[u].values[0] > |d.sizes|) {
          FirstValue(d, u);
          return Argued([], false, map[], []);
        }
      }
      ghost var props := reasonsProp;
      var c := RunCheck();
      GrewKeeps(d, now, props, trail, reasonsProp);
      a := Argued(trail[|now|..], c == Fine, reasonsProp, if c.Conflict? then c.reason else []);
      RunReplies(d, now, props, trail, reasonsProp, c, a);
    }

    // pending says that further watched literals are still to be delivered.
    method Propagate(p: Lit, now: seq<Lit>, pending: bool) returns (a: Answer)
      requires Valid() && NoClash(now) && (!pending ==> AllOrdered(d, now))
      modifies this
      ensures Valid() && log == old(log) + [p] && trail == now + a.implied
      ensures Replies(d, now, pending, a) && a.why == reasonsProp && reasons == old(reasons) + [a.because]
      ensures forall q :: q in now ==>
                && (q in reasonsProp <==> q in old(reasonsProp))
                && (q in reasonsProp ==> reasonsProp[q] == old(reasonsProp)[q])
    {
      hide DivisionOK, AdjOK, Unmixed, AbsentOK, PropsOK, AllOrdered, Grew, ConflictOK, DivisionQuiet, Divides, Total,
           Replies, NoClash;
      trail, log := now, log + [p];
      if pending {
        reasons := reasons + [[]];
        a := Argued([], true, reasonsProp, []);
        LazyReplies(d, now, a);
        return;
      }
      ghost var props := reasonsProp;
      reasons := reasons + [[]];
      var c := RunCheck();
      GrewKeeps(d, now, props, trail, reasonsProp);
      if c.Conflict? {
        var r := SortedUnique(c.reason);
        SameConflict(d, now, c.reason, r);
        reasons := reasons[|reasons| - 1 := r];
        c := Conflict(r);
      }
      a := Argued(trail[|now|..], c == Fine, reasonsProp, reasons[|reasons| - 1]);
      RunReplies(d, now, props, trail, reasonsProp, c, a);
    }

    // p and extra are empty for lit_Undef.
    method CalcReason(p: seq<Lit>, extra: seq<Lit>) returns (reason: seq<Lit>)
      requires Valid() && reasons != [] && |p| <= 1 && forall l :: l in p ==> l in reasonsProp
      ensures p == [] ==> reason == reasons[|reasons| - 1] + extra
      ensures p != [] ==> reason == reasonsProp[p[0]] + extra && Implied(d, reason, p[0])
    {
      reason := if p == [] then reasons[|reasons| - 1] else reasonsProp[p[0]];
      if p != [] {
        ImpliedMore(d, reason, extra, p[0]);
      }
      reason := reason + extra;
    }

    method Undo(p: Lit)
      requires Valid() && log != [] && log[|log| - 1] == p
      modifies this`reasons, this`log
      ensures Valid() && log == old(log)[..|old(log)| - 1] && reasons == old(reasons)[..|old(reasons)| - 1]
    {
      reasons, log := reasons[..|reasons| - 1], log[..|log| - 1];
    }

    // std::sort and std::unique.
    static method SortedUnique(r: seq<Lit>) returns (out: seq<Lit>)
      ensures (forall l :: l in out <==> l in r) && forall x, y :: 0 <= x < y < |out| ==> LitLt(out[x], out[y])
    {
      hide LitLt;
      var a := new Lit[|r|](i requires 0 <= i < |r| => r[i]);
      assert a[..] == r;
      LitLtOrders();
      Sorting.Sort(a, 0, a.Length, LitLt);
      assert r[0..|r|] == r;
      SortedMembers(r, a[..]);
      var c := a[..];
      out := [];
      for i := 0 to |c|
        invariant UniqueTo(c, i, out)
      {
        UniqueNext(c, i, out);
        if out == [] || out[|out| - 1] != c[i] {
          out := out + [c[i]];
        }
      }
      assert c[..|c|] == c;
    }

    method ReadStates()
      requires |d.edges| == |d.borders|
      modifies this`edgeState
      ensures StatesOK(d, edgeState, trail)
    {
      edgeState := [];
      for i := 0 to |d.borders|
        invariant |edgeState| == i && forall e :: 0 <= e < i ==> edgeState[e] == StateOf(trail, d.borders[e])
      {
        var v := Value(trail, d.borders[i]);
        edgeState := edgeState + [if v == True then Disconnected else if v == False then Connected else Undecided];
      }
    }

    method ReadBounds()
      requires DivisionOK(d) && |bounds| == |d.sizes| && AbsentOK(d, bounds) && NoClash(trail)
      modifies this`bounds
      ensures |bounds| == |d.sizes| && BoundsOK(d, trail, bounds) && AbsentOK(d, bounds)
    {
      for u := 0 to |d.sizes|
        invariant |bounds| == |d.sizes| && AbsentOK(d, bounds)
        invariant forall w :: 0 <= w < u ==> BoundOK(d, trail, bounds, w)
      {
        ghost var was := bounds;
        if !Absent(d.sizes[u]) {
          assert EncodingOK(d.sizes[u], |d.sizes|);
          var b := BoundsOf(d.sizes[u], trail);
          bounds := bounds[u := b];
        }
        forall w | 0 <= w < u + 1 ensures BoundOK(d, trail, bounds, w) {
          assert w < u ==> BoundOK(d, trail, was, w) && bounds[w] == was[w];
        }
      }
    }
  }

  ghost predicate NonNegativeTo(d: Division, k: nat) {
    forall u :: 0 <= u < k && u < |d.sizes| && !Absent(d.sizes[u]) ==> d.sizes[u].values[0] >= 0
  }

  // The first values are not below 0.
  ghost predicate NoneNegative(d: Division) {
    NonNegativeTo(d, |d.sizes|)
  }

  // With values of at most the number of vertices only a negative one is refused.
  lemma FirstValue(d: Division, u: nat)
    requires DivisionOK(d) && u < |d.sizes| && !Absent(d.sizes[u])
    requires d.sizes[u].values[0] < 0 || d.sizes[u].values[0] > |d.sizes|
    ensures !NoneNegative(d)
  {
    assert EncodingOK(d.sizes[u], |d.sizes|);
    ValueRange(d.sizes[u].values, 0);
  }

  // out holds the literals of c[..i], each once, in ascending order.
  ghost predicate UniqueTo(c: Clause, i: nat, out: seq<Lit>)
    requires i <= |c|
  {
    && (forall l :: l in out <==> l in c[..i])
    && (forall x, y :: 0 <= x < y < |out| ==> LitLt(out[x], out[y]))
    && (if i == 0 then out == [] else out != [] && out[|out| - 1] == c[i - 1])
  }

  lemma UniqueNext(c: Clause, i: nat, out: seq<Lit>)
    requires i < |c| && Ascend(c) && UniqueTo(c, i, out)
    ensures UniqueTo(c, i + 1, if out == [] || out[|out| - 1] != c[i] then out + [c[i]] else out)
  {
    assert c[..i + 1] == c[..i] + [c[i]];
    if out != [] && out[|out| - 1] != c[i] {
      assert !LitLt(c[i], c[i - 1]);
      ToLitOf(c[i]);
      ToLitOf(c[i - 1]);
    }
  }

  // q was not true before, and neither was its negation; its reason was, and
  // implies it.
  ghost predicate Earned(d: Division, t: seq<Lit>, why: map<Lit, seq<Lit>>, q: Lit)
    requires |d.edges| == |d.borders|
  {
    && Watches(d, q) && q !in t && Neg(q) !in t
    && q in why && (forall l :: l in why[q] ==> l in t) && Implied(d, why[q], q)
  }

  // What initialize and propagate answer when t is true.
  ghost predicate Replies(d: Division, t: seq<Lit>, pending: bool, a: Answer) {
    && |d.edges| == |d.borders| && a.Argued? && NoClash(a.implied)
    && (forall q :: q in a.implied ==> Earned(d, t, a.why, q))
    && (pending ==> a.accept && a.implied == [])
    && (forall q :: q in a.implied ==> Wanted(d, t, q))
    && (!pending && a.accept ==> forall q :: Wanted(d, t, q) ==> Known(a.implied, q))
    && (!a.accept ==> ConflictOK(d, t, a.because))
    && (!pending && a.accept ==> DivisionQuiet(d, t))
    && (!pending && Total(d, t) ==> forall b: Assignment :: AllHold(b, t) ==> (a.accept <==> Divides(d, b)))
  }

  lemma LazyReplies(d: Division, t: seq<Lit>, a: Answer)
    requires |d.edges| == |d.borders| && a.Argued? && a.accept && a.implied == []
    ensures Replies(d, t, true, a)
  {
  }

  lemma GrewEarned(d: Division, t: seq<Lit>, props: map<Lit, seq<Lit>>, now: seq<Lit>, nowProps: map<Lit, seq<Lit>>,
                   q: Lit)
    requires Grew(d, t, props, now, nowProps) && q in now[|t|..]
    ensures |d.edges| == |d.borders| && Earned(d, t, nowProps, q) && Neg(q) !in now
  {
    hide Implied, Watches;
    var i :| |t| <= i < |now| && now[i] == q;
    assert StoredFor(t, nowProps, q);
  }

  lemma GrewKeeps(d: Division, t: seq<Lit>, props: map<Lit, seq<Lit>>, now: seq<Lit>, nowProps: map<Lit, seq<Lit>>)
    requires Grew(d, t, props, now, nowProps)
    ensures forall q :: q in t ==> (q in nowProps <==> q in props) && (q in props ==> nowProps[q] == props[q])
    ensures t <= now && now == t + now[|t|..]
  {
    hide PropsOK, NoClash, StoredFor, Watches;
  }

  // In terms of the literals that are new.
  lemma AnswerWanted(d: Division, t: seq<Lit>, props: map<Lit, seq<Lit>>, now: seq<Lit>, nowProps: map<Lit, seq<Lit>>,
                     fine: bool)
    requires Grew(d, t, props, now, nowProps) && Drawn(d, t, now) && (fine ==> Decided(d, t, now))
    ensures |t| <= |now| && forall q :: q in now[|t|..] ==> Wanted(d, t, q)
    ensures fine ==> forall q :: Wanted(d, t, q) ==> Known(now[|t|..], q)
  {
    hide PropsOK, NoClash, StoredFor, Watches, NoPlace, SaysSize;
    GrewKeeps(d, t, props, now, nowProps);
    forall q | q in now[|t|..] ensures Wanted(d, t, q) {
      var i :| 0 <= i < |now[|t|..]| && now[|t|..][i] == q;
      assert now[|t| + i] == q && q !in t;
    }
    if fine {
      forall q | Wanted(d, t, q) ensures Known(now[|t|..], q) {
        assert Known(now, q) && Free(t, q);
      }
    }
  }

  lemma RunReplies(d: Division, t: seq<Lit>, props: map<Lit, seq<Lit>>, now: seq<Lit>, nowProps: map<Lit, seq<Lit>>,
                   c: Outcome, a: Answer)
    requires Grew(d, t, props, now, nowProps) && (c.Conflict? ==> ConflictOK(d, t, c.reason))
    requires c == Fine ==> DivisionQuiet(d, t)
    requires |d.edges| == |d.borders| && Drawn(d, t, now) && (c == Fine ==> Decided(d, t, now))
    requires Total(d, t) ==> forall b: Assignment :: AllHold(b, t) ==> (c == Fine <==> Divides(d, b))
    requires |t| <= |now| && a.Argued? && a.implied == now[|t|..] && a.why == nowProps && (a.accept <==> c == Fine)
    requires c.Conflict? ==> a.because == c.reason
    ensures Replies(d, t, false, a)
  {
    hide Grew, ConflictOK, DivisionQuiet, Total, AllHold, Divides, Earned, Wanted, Drawn, Decided, Known;
    AnswerWanted(d, t, props, now, nowProps, c == Fine);
    forall q | q in a.implied ensures Earned(d, t, a.why, q) && Neg(q) !in a.implied {
      GrewEarned(d, t, props, now, nowProps, q);
    }
  }

  // When run_check has nothing to object to, it has enqueued all that is wanted exactly
  // if no two wanted literals are opposite, and then nothing else.
  lemma ForcedExactly(d: Division, t: seq<Lit>, a: Answer)
    requires Replies(d, t, false, a) && a.accept
    ensures (forall l :: Wanted(d, t, l) ==> l in a.implied) <==> NoneOpposed(d, t)
    ensures NoneOpposed(d, t) ==> forall l :: l in a.implied <==> Wanted(d, t, l)
  {
    hide Wanted, Earned, DivisionQuiet, Total, Divides, ConflictOK;
    if NoneOpposed(d, t) {
      forall l | Wanted(d, t, l) ensures l in a.implied {
        assert Known(a.implied, l) && !Wanted(d, t, Neg(l));
      }
    }
    if forall l :: Wanted(d, t, l) ==> l in a.implied {
      forall l | Wanted(d, t, l) ensures !Wanted(d, t, Neg(l)) {
        assert l in a.implied && Neg(l) !in a.implied;
      }
    }
  }

  // A conflict is as good when sorted.
  lemma SameConflict(d: Division, t: seq<Lit>, r: seq<Lit>, s: seq<Lit>)
    requires ConflictOK(d, t, r) && forall l :: l in s <==> l in r
    ensures ConflictOK(d, t, s)
  {
    hide Divides, DivisionQuiet, WatchedIn;
    forall a: Assignment ensures AllHold(a, s) <==> AllHold(a, r) {
    }
  }

  lemma ImpliedMore(d: Division, r: seq<Lit>, extra: seq<Lit>, p: Lit)
    requires |d.edges| == |d.borders| && Implied(d, r, p)
    ensures Implied(d, r + extra, p)
  {
    hide Divides;
    forall a: Assignment | Divides(d, a) && AllHold(a, r + extra) ensures Holds(a, p) {
      assert AllHold(a, r);
    }
  }

  // A graph of one vertex whose size is -1 or 1: it has a division, and initialize
  // refuses it.
  lemma NegativeRefused(x: Var)
    ensures var d := Division([Encoding([Lit(x, false)], [-1, 1])], [], []);
            DivisionOK(d) && Unmixed(d) && !NoneNegative(d) && Divides(d, {x})
  {
    var d := Division([Encoding([Lit(x, false)], [-1, 1])], [], []);
    var e := d.sizes[0];
    assert !Absent(e) && e.values[0] < 0;
    JoinedSelf(Open(d, {x}), 0);
    assert RegionOf(1, Open(d, {x}), 0) == {0};
    assert Steps(e, {x}, 1) && e.values[1] == 1;
    assert HasSize(e, {x}, 1);
    assert SizeFits(d, {x}, 0);
  }
}
