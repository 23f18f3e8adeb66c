// Why vertices are connected, and why a region goes no further: what the three
// reason functions of constraints/GraphDivision.cc collect.
module DivisionReasons {
  import opened Logic
  import opened Divisions
  import opened DivisionRegions
  import UF = UnionFinds

  ghost predicate HasParent(d: Division, st: seq<EdgeState>, origin: seq<(int, int)>, order: seq<nat>, i: nat, j: nat)
    requires i < |order| && j < |order|
  {
    && order[i] < |origin| && origin[order[i]].0 == order[j]
    && 0 <= origin[order[i]].1 < |st| && st[origin[order[i]].1] == Connected
    && Between(d, origin[order[i]].1, order[j], order[i])
  }

  // order lists the vertices visited; each but src has an earlier one as origin.
  ghost predicate TreeOK(d: Division, st: seq<EdgeState>, src: nat, origin: seq<(int, int)>, order: seq<nat>) {
    && |origin| == |d.sizes| && |order| > 0 && order[0] == src
    && (forall v: nat :: v in order <==> v < |origin| && origin[v].0 != -2)
    && (forall i :: 0 < i < |order| ==> Rooted(d, st, origin, order, i))
  }

  ghost predicate Rooted(d: Division, st: seq<EdgeState>, origin: seq<(int, int)>, order: seq<nat>, i: nat)
    requires i < |order|
  {
    exists j :: 0 <= j < i && HasParent(d, st, origin, order, i, j)
  }

  ghost predicate AllOpen(d: Division, st: seq<EdgeState>, origin: seq<(int, int)>, w: nat)
    requires |st| == |d.edges|
  {
    forall q :: 0 <= q < |origin| && Near(Pairs(d, st, false), w, q) ==> origin[q].0 != -2
  }

  ghost predicate Scanned(d: Division, st: seq<EdgeState>, origin: seq<(int, int)>, order: seq<nat>, m: nat)
    requires |st| == |d.edges|
  {
    forall i :: 0 <= i < m && i < |order| ==> AllOpen(d, st, origin, order[i])
  }

  ghost predicate Opened(adj: Adjacency, st: seq<EdgeState>, origin: seq<(int, int)>, u: nat, k: nat)
    requires u < |adj|
  {
    forall x :: 0 <= x < k && x < |adj[u]| && adj[u][x].1 < |st| && st[adj[u][x].1] == Connected ==>
      adj[u][x].0 < |origin| && origin[adj[u][x].0].0 != -2
  }

  ghost function Unseen(origin: seq<(int, int)>): set<nat> {
    set v | 0 <= v < |origin| && origin[v].0 == -2
  }

  lemma UnseenShrinks(origin: seq<(int, int)>, v: nat, x: (int, int))
    requires v < |origin| && origin[v].0 == -2 && x.0 != -2
    ensures Unseen(origin[v := x]) < Unseen(origin)
  {
    assert v in Unseen(origin) && v !in Unseen(origin[v := x]);
  }

  lemma TreeStart(d: Division, st: seq<EdgeState>, src: nat, origin: seq<(int, int)>)
    requires src < |d.sizes| && origin == seq(|d.sizes|, u => (-2, -2))[src := (-1, -1)] && |st| == |d.edges|
    ensures TreeOK(d, st, src, origin, [src]) && Scanned(d, st, origin, [src], 0)
  {
  }

  lemma TreeGrows(d: Division, st: seq<EdgeState>, src: nat, origin: seq<(int, int)>, order: seq<nat>, u: nat, v: nat,
                  e: nat)
    requires TreeOK(d, st, src, origin, order) && u in order && v < |origin| && origin[v].0 == -2
    requires e < |st| && st[e] == Connected && Between(d, e, u, v)
    ensures TreeOK(d, st, src, origin[v := (u, e)], order + [v])
  {
    var now, more := origin[v := (u, e)], order + [v];
    var j :| 0 <= j < |order| && order[j] == u;
    assert HasParent(d, st, now, more, |order|, j);
    forall i | 0 < i < |order| ensures Rooted(d, st, now, more, i) {
      assert Rooted(d, st, origin, order, i);
      var x :| 0 <= x < i && HasParent(d, st, origin, order, i, x);
      assert order[i] in order;
      assert HasParent(d, st, now, more, i, x);
    }
    assert more[0] == src;
  }

  lemma ScannedGrows(d: Division, adj: Adjacency, st: seq<EdgeState>, origin: seq<(int, int)>, order: seq<nat>, m: nat,
                     u: nat, k: nat, v: nat, e: nat)
    requires |st| == |d.edges| && u < |adj| && v < |origin| && m <= |order|
    ensures Scanned(d, st, origin, order, m) ==> Scanned(d, st, origin[v := (u, e)], order + [v], m)
    ensures Opened(adj, st, origin, u, k) ==> Opened(adj, st, origin[v := (u, e)], u, k)
  {
    var now := origin[v := (u, e)];
    if Scanned(d, st, origin, order, m) {
      forall i | 0 <= i < m ensures AllOpen(d, st, now, (order + [v])[i]) {
        assert AllOpen(d, st, origin, order[i]);
      }
    }
  }

  lemma OpenedNone(adj: Adjacency, st: seq<EdgeState>, origin: seq<(int, int)>, u: nat)
    requires u < |adj|
    ensures Opened(adj, st, origin, u, 0)
  {
  }

  lemma OpenedNext(adj: Adjacency, st: seq<EdgeState>, origin: seq<(int, int)>, u: nat, k: nat)
    requires u < |adj| && k < |adj[u]|
    requires adj[u][k].1 < |st| && st[adj[u][k].1] == Connected ==>
               adj[u][k].0 < |origin| && origin[adj[u][k].0].0 != -2
    ensures Opened(adj, st, origin, u, k) ==> Opened(adj, st, origin, u, k + 1)
  {
  }

  lemma ScannedNext(d: Division, adj: Adjacency, st: seq<EdgeState>, origin: seq<(int, int)>, order: seq<nat>, m: nat,
                    u: nat)
    requires AdjOK(d, adj) && |st| == |d.edges| && |origin| == |d.sizes| && u < |adj|
    requires m < |order| && order[m] == u && Scanned(d, st, origin, order, m)
    requires Opened(adj, st, origin, u, |adj[u]|)
    ensures Scanned(d, st, origin, order, m + 1)
  {
    hide Pairs;
    forall q | 0 <= q < |origin| && Near(Pairs(d, st, false), u, q) ensures origin[q].0 != -2 {
      var e := EdgeOfNear(d, st, false, u, q);
      assert (q, e) in adj[u];
      var x :| 0 <= x < |adj[u]| && adj[u][x] == (q, e);
    }
    assert AllOpen(d, st, origin, order[m]);
  }

  // Everything visited has been scanned, so what is joined to src is visited.
  lemma AllScanned(d: Division, st: seq<EdgeState>, src: nat, origin: seq<(int, int)>, order: seq<nat>, dest: nat)
    requires DivisionOK(d) && |st| == |d.edges| && TreeOK(d, st, src, origin, order) && dest < |d.sizes|
    requires Scanned(d, st, origin, order, |order|) && UF.Joined(Pairs(d, st, false), src, dest)
    ensures origin[dest].0 != -2
  {
    var pairs := Pairs(d, st, false);
    PairsWithin(d, st, false);
    hide Pairs, HasParent;
    var x := set v | 0 <= v < |origin| && origin[v].0 != -2;
    forall e | e in pairs ensures e.0 in x <==> e.1 in x {
      assert Near(pairs, e.0, e.1) && Near(pairs, e.1, e.0);
      if e.0 in x {
        ScannedAt(d, st, src, origin, order, e.0);
      }
      if e.1 in x {
        ScannedAt(d, st, src, origin, order, e.1);
      }
    }
    assert UF.Respects(pairs, x);
    assert src in order;
  }

  lemma ScannedAt(d: Division, st: seq<EdgeState>, src: nat, origin: seq<(int, int)>, order: seq<nat>, v: nat)
    requires |st| == |d.edges| && TreeOK(d, st, src, origin, order) && v < |origin| && origin[v].0 != -2
    requires Scanned(d, st, origin, order, |order|)
    ensures AllOpen(d, st, origin, v)
  {
    hide AllOpen, HasParent;
    assert v in order;
    var i :| 0 <= i < |order| && order[i] == v;
  }

  lemma TreeMember(d: Division, st: seq<EdgeState>, src: nat, origin: seq<(int, int)>, order: seq<nat>, v: nat)
    requires TreeOK(d, st, src, origin, order) && v < |origin| && origin[v].0 != -2
    ensures v in order
  {
    hide HasParent;
  }

  // One step back towards src.
  lemma TreeStep(d: Division, st: seq<EdgeState>, src: nat, origin: seq<(int, int)>, order: seq<nat>, k: nat)
    returns (j: nat)
    requires TreeOK(d, st, src, origin, order) && k < |order| && order[k] != src
    ensures j < k && order[k] < |origin| && 0 <= origin[order[k]].0 == order[j]
    ensures 0 <= origin[order[k]].1 < |st| && st[origin[order[k]].1] == Connected
    ensures Between(d, origin[order[k]].1, order[j], order[k])
  {
    assert Rooted(d, st, origin, order, k);
    j :| 0 <= j < k && HasParent(d, st, origin, order, k, j);
  }

  lemma JoinsSelf(d: Division, u: nat)
    requires |d.edges| == |d.borders|
    ensures Joins(d, [], u, u)
  {
    hide Open;
    forall a: Assignment ensures UF.Joined(Open(d, a), u, u) {
      JoinedSelf(Open(d, a), u);
    }
  }

  lemma JoinsStep(d: Division, r: seq<Lit>, u: nat, p: nat, dest: nat, e: nat)
    requires |d.edges| == |d.borders| && Joins(d, r, p, dest) && Between(d, e, u, p)
    ensures Joins(d, r + [Neg(d.borders[e])], u, dest)
  {
    hide UF.Joined, AllHold;
    forall a: Assignment | AllHold(a, r + [Neg(d.borders[e])]) ensures UF.Joined(Open(d, a), u, dest) {
      Split2(a, r, [Neg(d.borders[e])]);
      Holds1(a, Neg(d.borders[e]));
      NegHolds(a, d.borders[e]);
      OpenEdge(d, a, e, u, p);
      JoinedTrans(Open(d, a), u, p, dest);
    }
  }

  lemma OpenEdge(d: Division, a: Assignment, e: nat, u: nat, w: nat)
    requires |d.edges| == |d.borders| && Between(d, e, u, w) && !Holds(a, d.borders[e])
    ensures UF.Joined(Open(d, a), u, w)
  {
    assert d.edges[e] in Open(d, a);
    JoinedPair(Open(d, a), u, w);
  }

  lemma StatesSize(d: Division, st: seq<EdgeState>, t: seq<Lit>)
    requires StatesOK(d, st, t)
    ensures |st| == |d.edges| == |d.borders|
  {
  }

  lemma ConnectedTrue(d: Division, st: seq<EdgeState>, t: seq<Lit>, e: nat)
    requires StatesOK(d, st, t) && e < |st| && st[e] == Connected
    ensures e < |d.borders| && Neg(d.borders[e]) in t
  {
  }

  ghost predicate GatheredAt(d: Division, adj: Adjacency, st: seq<EdgeState>, p: nat, k: nat, ret: seq<Lit>) {
    p < |adj| && forall x :: 0 <= x < k && x < |adj[p]| ==> GatheredOne(d, st, p, adj[p][x], ret)
  }

  ghost predicate GatheredOne(d: Division, st: seq<EdgeState>, p: nat, x: (nat, nat), ret: seq<Lit>) {
    x.1 < |st| && x.1 < |d.borders| && st[x.1] == Connected && p < x.0 ==> Neg(d.borders[x.1]) in ret
  }

  ghost predicate Gathered(d: Division, adj: Adjacency, st: seq<EdgeState>, region: seq<nat>, i: nat, ret: seq<Lit>) {
    forall x :: 0 <= x < i && x < |region| ==>
      region[x] < |adj| && GatheredAt(d, adj, st, region[x], |adj[region[x]]|, ret)
  }

  lemma GatheredNone(d: Division, adj: Adjacency, st: seq<EdgeState>, region: seq<nat>, ret: seq<Lit>)
    ensures Gathered(d, adj, st, region, 0, ret)
  {
  }

  lemma GatheredAtNone(d: Division, adj: Adjacency, st: seq<EdgeState>, p: nat, ret: seq<Lit>)
    requires p < |adj|
    ensures GatheredAt(d, adj, st, p, 0, ret)
  {
  }

  lemma GatheredMore(d: Division, adj: Adjacency, st: seq<EdgeState>, region: seq<nat>, i: nat, was: seq<Lit>,
                     ret: seq<Lit>)
    requires Gathered(d, adj, st, region, i, was) && was <= ret
    ensures Gathered(d, adj, st, region, i, ret)
  {
    forall x | 0 <= x < i && x < |region| ensures GatheredAt(d, adj, st, region[x], |adj[region[x]]|, ret) {
      assert GatheredAt(d, adj, st, region[x], |adj[region[x]]|, was);
      assert forall l :: l in was ==> l in ret;
    }
  }

  lemma GatheredAtNext(d: Division, adj: Adjacency, st: seq<EdgeState>, p: nat, k: nat, was: seq<Lit>, ret: seq<Lit>)
    requires GatheredAt(d, adj, st, p, k, was) && was <= ret && p < |adj| && k < |adj[p]|
    requires GatheredOne(d, st, p, adj[p][k], ret)
    ensures GatheredAt(d, adj, st, p, k + 1, ret)
  {
    assert forall l :: l in was ==> l in ret;
  }

  lemma GatheredNext(d: Division, adj: Adjacency, st: seq<EdgeState>, region: seq<nat>, i: nat, ret: seq<Lit>)
    requires i < |region| && Gathered(d, adj, st, region, i, ret) && region[i] < |adj|
    requires GatheredAt(d, adj, st, region[i], |adj[region[i]]|, ret)
    ensures Gathered(d, adj, st, region, i + 1, ret)
  {
    hide GatheredAt;
  }

  // Every connected edge of the region is in the reason.
  lemma GatheredEdge(d: Division, adj: Adjacency, st: seq<EdgeState>, p: Partition, id: nat, ret: seq<Lit>, u: nat,
                     w: nat, e: nat)
    requires DivisionOK(d) && AdjOK(d, adj) && |st| == |d.edges| && PartitionOK(|d.sizes|, Pairs(d, st, false), p)
    requires id < |p.regions| && Gathered(d, adj, st, p.regions[id], |p.regions[id]|, ret)
    requires u in p.regions[id] && w in p.regions[id] && Between(d, e, u, w) && st[e] == Connected
    ensures Neg(d.borders[e]) in ret
  {
    hide PartitionOK, Pairs, UF.Joined;
    var lo, hi := if u < w then u else w, if u < w then w else u;
    assert u != w;
    var region := p.regions[id];
    var i :| 0 <= i < |region| && region[i] == lo;
    SizesOf(d, adj);
    RegionRange(|d.sizes|, Pairs(d, st, false), p, id, i);
    assert GatheredAt(d, adj, st, lo, |adj[lo]|, ret);
    assert Between(d, e, lo, hi);
    assert (hi, e) in adj[lo];
    var x :| 0 <= x < |adj[lo]| && adj[lo][x] == (hi, e);
    assert GatheredOne(d, st, lo, adj[lo][x], ret);
  }

  lemma AllGathered(d: Division, adj: Adjacency, st: seq<EdgeState>, p: Partition, id: nat, ret: seq<Lit>)
    requires DivisionOK(d) && AdjOK(d, adj) && |st| == |d.edges| && PartitionOK(|d.sizes|, Pairs(d, st, false), p)
    requires id < |p.regions| && Gathered(d, adj, st, p.regions[id], |p.regions[id]|, ret)
    ensures Gathers(d, ret, SetOf(p.regions[id]))
  {
    hide AdjOK, Gathered, PartitionOK, Pairs, DivisionOK, AllHold, UF.Joined, Open;
    SizesOf(d, adj);
    forall a: Assignment, u, w | AllHold(a, ret) && u in SetOf(p.regions[id]) && w in SetOf(p.regions[id])
      ensures UF.Joined(Open(d, a), u, w)
    {
      RegionJoined(d, adj, st, p, id, ret, a, u, w);
    }
  }

  // Regions are closed under the edges that count, so a set closed under the open
  // edges of a can be widened by the vertices outside the region.
  lemma RegionJoined(d: Division, adj: Adjacency, st: seq<EdgeState>, p: Partition, id: nat, ret: seq<Lit>,
                     a: Assignment, u: nat, w: nat)
    requires DivisionOK(d) && AdjOK(d, adj) && |st| == |d.edges| && PartitionOK(|d.sizes|, Pairs(d, st, false), p)
    requires id < |p.regions| && Gathered(d, adj, st, p.regions[id], |p.regions[id]|, ret) && AllHold(a, ret)
    requires u in p.regions[id] && w in p.regions[id]
    ensures |d.edges| == |d.borders| && UF.Joined(Open(d, a), u, w)
  {
    var pairs, region, n := Pairs(d, st, false), p.regions[id], |d.sizes|;
    SizesOf(d, adj);
    SameId(n, pairs, p, id, u, w);
    forall x: set<nat> | UF.Respects(Open(d, a), x) && u in x ensures w in x {
      var y := x + set v | 0 <= v < n && v !in region;
      forall g | g in pairs ensures g.0 in y <==> g.1 in y {
        WidenedRespects(d, adj, st, p, id, ret, a, x, g);
      }
      assert UF.Respects(pairs, y);
      assert u in y;
    }
  }

  lemma WidenedRespects(d: Division, adj: Adjacency, st: seq<EdgeState>, p: Partition, id: nat, ret: seq<Lit>,
                        a: Assignment, x: set<nat>, g: (nat, nat))
    requires DivisionOK(d) && AdjOK(d, adj) && |st| == |d.edges| && PartitionOK(|d.sizes|, Pairs(d, st, false), p)
    requires id < |p.regions| && Gathered(d, adj, st, p.regions[id], |p.regions[id]|, ret) && AllHold(a, ret)
    requires |d.edges| == |d.borders| && UF.Respects(Open(d, a), x) && g in Pairs(d, st, false)
    ensures g.0 < |d.sizes| && g.1 < |d.sizes| && (g.0 in p.regions[id] <==> g.1 in p.regions[id])
    ensures g.0 in p.regions[id] ==> (g.0 in x <==> g.1 in x)
  {
    hide AdjOK, Gathered, PartitionOK, AllHold, UF.Joined;
    var e :| 0 <= e < |st| && Counts(st[e], false) && d.edges[e] == g;
    PairIds(|d.sizes|, Pairs(d, st, false), p, id, g);
    if g.0 in p.regions[id] {
      GatheredEdge(d, adj, st, p, id, ret, g.0, g.1, e);
      HoldsIn(a, ret, Neg(d.borders[e]));
      NegHolds(a, d.borders[e]);
      assert d.edges[e] in Open(d, a);
    }
  }

  lemma HoldsIn(a: Assignment, ls: seq<Lit>, l: Lit)
    requires AllHold(a, ls) && l in ls
    ensures Holds(a, l)
  {
  }

  ghost predicate FencedAt(d: Division, adj: Adjacency, ids: seq<int>, id: nat, p: nat, k: nat, ret: seq<Lit>) {
    p < |adj| && forall x :: 0 <= x < k && x < |adj[p]| ==> FencedOne(d, ids, id, adj[p][x], ret)
  }

  ghost predicate FencedOne(d: Division, ids: seq<int>, id: nat, x: (nat, nat), ret: seq<Lit>) {
    x.1 < |d.borders| && x.0 < |ids| && ids[x.0] != id ==> d.borders[x.1] in ret
  }

  ghost predicate Fenced(d: Division, adj: Adjacency, ids: seq<int>, id: nat, region: seq<nat>, i: nat, ret: seq<Lit>) {
    forall x :: 0 <= x < i && x < |region| ==>
      region[x] < |adj| && FencedAt(d, adj, ids, id, region[x], |adj[region[x]]|, ret)
  }

  lemma FencedNone(d: Division, adj: Adjacency, ids: seq<int>, id: nat, region: seq<nat>, ret: seq<Lit>)
    ensures Fenced(d, adj, ids, id, region, 0, ret)
  {
  }

  lemma FencedAtNone(d: Division, adj: Adjacency, ids: seq<int>, id: nat, p: nat, ret: seq<Lit>)
    requires p < |adj|
    ensures FencedAt(d, adj, ids, id, p, 0, ret)
  {
  }

  lemma FencedMore(d: Division, adj: Adjacency, ids: seq<int>, id: nat, region: seq<nat>, i: nat, was: seq<Lit>,
                   ret: seq<Lit>)
    requires Fenced(d, adj, ids, id, region, i, was) && was <= ret
    ensures Fenced(d, adj, ids, id, region, i, ret)
  {
    forall x | 0 <= x < i && x < |region| ensures FencedAt(d, adj, ids, id, region[x], |adj[region[x]]|, ret) {
      assert FencedAt(d, adj, ids, id, region[x], |adj[region[x]]|, was);
      assert forall l :: l in was ==> l in ret;
    }
  }

  lemma FencedAtNext(d: Division, adj: Adjacency, ids: seq<int>, id: nat, p: nat, k: nat, was: seq<Lit>, ret: seq<Lit>)
    requires FencedAt(d, adj, ids, id, p, k, was) && was <= ret && p < |adj| && k < |adj[p]|
    requires FencedOne(d, ids, id, adj[p][k], ret)
    ensures FencedAt(d, adj, ids, id, p, k + 1, ret)
  {
    assert forall l :: l in was ==> l in ret;
  }

  lemma FencedNext(d: Division, adj: Adjacency, ids: seq<int>, id: nat, region: seq<nat>, i: nat, ret: seq<Lit>)
    requires i < |region| && Fenced(d, adj, ids, id, region, i, ret) && region[i] < |adj|
    requires FencedAt(d, adj, ids, id, region[i], |adj[region[i]]|, ret)
    ensures Fenced(d, adj, ids, id, region, i + 1, ret)
  {
    hide FencedAt;
  }

  // An edge between two potential regions has a border.
  lemma CrossingTrue(d: Division, st: seq<EdgeState>, t: seq<Lit>, p: Partition, u: nat, w: nat, e: nat)
    requires DivisionOK(d) && StatesOK(d, st, t) && PartitionOK(|d.sizes|, Pairs(d, st, true), p)
    requires Between(d, e, u, w) && u < |d.sizes| && w < |d.sizes| && p.ids[u] != p.ids[w]
    ensures st[e] == Disconnected && d.borders[e] in t
  {
    hide UF.Joined, Pairs;
    if Counts(st[e], true) {
      NearEdge(d, st, true, u, w, e);
      JoinedNear(Pairs(d, st, true), u, w);
      assert false;
    }
  }

  lemma FencedEdge(d: Division, adj: Adjacency, st: seq<EdgeState>, p: Partition, id: nat, ret: seq<Lit>, u: nat,
                   w: nat, e: nat)
    requires DivisionOK(d) && AdjOK(d, adj) && |st| == |d.edges| && PartitionOK(|d.sizes|, Pairs(d, st, true), p)
    requires id < |p.regions| && Fenced(d, adj, p.ids, id, p.regions[id], |p.regions[id]|, ret)
    requires u in p.regions[id] && w < |d.sizes| && w !in p.regions[id] && Between(d, e, u, w)
    ensures d.borders[e] in ret
  {
    hide Pairs, UF.Joined, NoDup;
    var region := p.regions[id];
    var i :| 0 <= i < |region| && region[i] == u;
    SizesOf(d, adj);
    RegionRange(|d.sizes|, Pairs(d, st, true), p, id, i);
    assert RegionOK(|d.sizes|, p.ids, region, id);
    assert FencedAt(d, adj, p.ids, id, u, |adj[u]|, ret);
    assert (w, e) in adj[u];
    var x :| 0 <= x < |adj[u]| && adj[u][x] == (w, e);
    assert FencedOne(d, p.ids, id, adj[u][x], ret);
  }

  lemma AllFenced(d: Division, adj: Adjacency, st: seq<EdgeState>, p: Partition, id: nat, ret: seq<Lit>)
    requires DivisionOK(d) && AdjOK(d, adj) && |st| == |d.edges| && PartitionOK(|d.sizes|, Pairs(d, st, true), p)
    requires id < |p.regions| && Fenced(d, adj, p.ids, id, p.regions[id], |p.regions[id]|, ret)
    ensures Fences(d, ret, SetOf(p.regions[id]))
  {
    hide AdjOK, Fenced, PartitionOK, Pairs, AllHold;
    SizesOf(d, adj);
    var x := SetOf(p.regions[id]);
    forall a: Assignment, u | AllHold(a, ret) && u in x ensures RegionOf(|d.sizes|, Open(d, a), u) <= x {
      forall g | g in Open(d, a) ensures g.0 in x <==> g.1 in x {
        var e :| 0 <= e < |d.edges| && !Holds(a, d.borders[e]) && d.edges[e] == g;
        if g.0 in x && g.1 !in x {
          FencedEdge(d, adj, st, p, id, ret, g.0, g.1, e);
          HoldsIn(a, ret, d.borders[e]);
        }
        if g.1 in x && g.0 !in x {
          FencedEdge(d, adj, st, p, id, ret, g.1, g.0, e);
          HoldsIn(a, ret, d.borders[e]);
        }
      }
      assert UF.Respects(Open(d, a), x);
    }
  }

  lemma DisconnectedTrue(d: Division, st: seq<EdgeState>, t: seq<Lit>, e: nat)
    requires StatesOK(d, st, t) && e < |st| && st[e] == Disconnected
    ensures e < |d.borders| && d.borders[e] in t
  {
  }
}
