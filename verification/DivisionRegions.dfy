// The regions of constraints/GraphDivision.cc: what compute_regions and its search
// build, for the edges without a border and for those that may be without one.
module DivisionRegions {
  import opened Logic
  import opened Trails
  import opened Divisions
  import UF = UnionFinds

  datatype EdgeState = Undecided | Connected | Disconnected

  type Adjacency = seq<seq<(nat, nat)>>

  // adj_: the edges at each vertex, with the vertex at the other end.
  ghost predicate AdjOK(d: Division, adj: Adjacency) {
    && |adj| == |d.sizes|
    && (forall u, k :: 0 <= u < |adj| && 0 <= k < |adj[u]| ==> Between(d, adj[u][k].1, u, adj[u][k].0))
    && (forall u: nat, w: nat, e: nat :: u < |adj| && Between(d, e, u, w) ==> (w, e) in adj[u])
  }

  function StateOf(t: seq<Lit>, border: Lit): EdgeState {
    match Value(t, border)
    case True => Disconnected
    case False => Connected
    case Undef => Undecided
  }

  ghost predicate StatesOK(d: Division, st: seq<EdgeState>, t: seq<Lit>) {
    |st| == |d.edges| == |d.borders| && forall e :: 0 <= e < |st| ==> st[e] == StateOf(t, d.borders[e])
  }

  // Edges that count: the connected ones, and for potential regions also the
  // undecided ones.
  predicate Counts(s: EdgeState, potential: bool) {
    s == Connected || (potential && s == Undecided)
  }

  ghost function Pairs(d: Division, st: seq<EdgeState>, potential: bool): set<(nat, nat)>
    requires |st| == |d.edges|
  {
    set e | 0 <= e < |st| && Counts(st[e], potential) :: d.edges[e]
  }

  ghost predicate Near(pairs: set<(nat, nat)>, u: nat, w: nat) {
    (u, w) in pairs || (w, u) in pairs
  }

  lemma PairsWithin(d: Division, st: seq<EdgeState>, potential: bool)
    requires DivisionOK(d) && |st| == |d.edges|
    ensures Within(Pairs(d, st, potential), |d.sizes|)
  {
  }

  lemma NearEdge(d: Division, st: seq<EdgeState>, potential: bool, u: nat, w: nat, e: nat)
    requires |st| == |d.edges| && Between(d, e, u, w) && Counts(st[e], potential)
    ensures Near(Pairs(d, st, potential), u, w)
  {
  }

  lemma EdgeOfNear(d: Division, st: seq<EdgeState>, potential: bool, u: nat, w: nat) returns (e: nat)
    requires |st| == |d.edges| && Near(Pairs(d, st, potential), u, w)
    ensures Between(d, e, u, w) && Counts(st[e], potential)
  {
    if (u, w) in Pairs(d, st, potential) {
      e :| 0 <= e < |st| && Counts(st[e], potential) && d.edges[e] == (u, w);
    } else {
      e :| 0 <= e < |st| && Counts(st[e], potential) && d.edges[e] == (w, u);
    }
  }

  // region_id and the regions of compute_regions.
  datatype Partition = Partition(ids: seq<int>, regions: seq<seq<nat>>)

  ghost predicate PartitionOK(n: nat, pairs: set<(nat, nat)>, p: Partition) {
    && |p.ids| == n
    && (forall u :: 0 <= u < n ==> 0 <= p.ids[u] < |p.regions|)
    && (forall u, w :: 0 <= u < n && 0 <= w < n ==> (p.ids[u] == p.ids[w] <==> UF.Joined(pairs, u, w)))
    && (forall r :: 0 <= r < |p.regions| ==> RegionOK(n, p.ids, p.regions[r], r))
  }

  ghost predicate RegionOK(n: nat, ids: seq<int>, region: seq<nat>, r: int)
    requires |ids| == n
  {
    NoDup(region) && forall u: nat :: u in region <==> u < n && ids[u] == r
  }

  ghost function SetOf(s: seq<nat>): set<nat> {
    set u | u in s
  }

  lemma {:induction false} NoDupCount(s: seq<nat>)
    requires NoDup(s)
    ensures |SetOf(s)| == |s|
  {
    if s == [] {
      assert SetOf(s) == {};
    } else {
      var front, x := s[..|s| - 1], s[|s| - 1];
      NoDupCount(front);
      assert s == front + [x];
      assert x !in front;
      assert SetOf(s) == SetOf(front) + {x};
    }
  }

  lemma RegionSize(n: nat, pairs: set<(nat, nat)>, p: Partition, u: nat)
    requires PartitionOK(n, pairs, p) && u < n
    ensures 0 <= p.ids[u] < |p.regions| && SetOf(p.regions[p.ids[u]]) == RegionOf(n, pairs, u)
    ensures |p.regions[p.ids[u]]| == |RegionOf(n, pairs, u)|
  {
    hide UF.Joined, NoDup;
    var region := p.regions[p.ids[u]];
    assert RegionOK(n, p.ids, region, p.ids[u]);
    forall v: nat ensures v in SetOf(region) <==> v in RegionOf(n, pairs, u) {
    }
    NoDupCount(region);
  }

  ghost predicate Expanded(pairs: set<(nat, nat)>, ids: seq<int>, w: nat) {
    forall q :: 0 <= q < |ids| && Near(pairs, w, q) ==> ids[q] >= 0
  }

  // From ids to now, vertices joined to p were given the number id.
  ghost predicate Spread(pairs: set<(nat, nat)>, p: nat, id: int, ids: seq<int>, now: seq<int>) {
    && |now| == |ids|
    && (forall w :: 0 <= w < |ids| ==> SpreadAt(pairs, p, id, ids[w], now[w], w))
  }

  ghost predicate SpreadAt(pairs: set<(nat, nat)>, p: nat, id: int, was: int, now: int, w: nat) {
    now == was || (was < 0 && now == id && UF.Joined(pairs, p, w))
  }

  // The vertices that are new, other than p, have all their neighbours numbered.
  ghost predicate Done(pairs: set<(nat, nat)>, ids: seq<int>, now: seq<int>, p: int) {
    |now| == |ids| && forall w :: 0 <= w < |ids| && ids[w] < 0 <= now[w] && w != p ==> Expanded(pairs, now, w)
  }

  ghost predicate Listed(ids: seq<int>, now: seq<int>, region: seq<nat>, more: seq<nat>) {
    && |now| == |ids|
    && (forall w: nat :: w in more <==> w in region || (w < |ids| && ids[w] < 0 <= now[w]))
  }

  // Only numbered vertices are listed, once.
  ghost predicate ListOK(ids: seq<int>, region: seq<nat>) {
    NoDup(region) && forall w :: w in region ==> w < |ids| && ids[w] >= 0
  }

  ghost function Unvisited(ids: seq<int>): set<nat> {
    set w | 0 <= w < |ids| && ids[w] < 0
  }

  lemma SpreadSelf(pairs: set<(nat, nat)>, p: nat, id: int, ids: seq<int>, region: seq<nat>)
    ensures Spread(pairs, p, id, ids, ids) && Done(pairs, ids, ids, -1) && Listed(ids, ids, region, region)
  {
  }

  // p itself gets its number.
  lemma SpreadStart(pairs: set<(nat, nat)>, p: nat, id: nat, ids: seq<int>, region: seq<nat>)
    requires p < |ids| && ids[p] < 0 && ListOK(ids, region)
    ensures var now := ids[p := id];
            && Spread(pairs, p, id, ids, now) && Done(pairs, ids, now, p) && Listed(ids, now, region, region + [p])
            && ListOK(now, region + [p]) && Unvisited(now) < Unvisited(ids)
  {
    JoinedSelf(pairs, p);
    var now := ids[p := id];
    assert p in Unvisited(ids) && p !in Unvisited(now);
    assert p !in region;
  }

  lemma SpreadGrows(pairs: set<(nat, nat)>, p: nat, id: int, ids: seq<int>, now: seq<int>)
    requires Spread(pairs, p, id, ids, now) && id >= 0
    ensures forall w :: 0 <= w < |ids| && ids[w] >= 0 ==> now[w] == ids[w]
    ensures forall w :: 0 <= w < |ids| ==> now[w] == ids[w] || (ids[w] < 0 && now[w] == id)
    ensures Unvisited(now) <= Unvisited(ids)
  {
    hide UF.Joined;
    forall w | 0 <= w < |ids| ensures now[w] == ids[w] || (ids[w] < 0 && now[w] == id) {
      assert SpreadAt(pairs, p, id, ids[w], now[w], w);
    }
  }

  // After the call for a neighbour q of p.
  lemma SpreadNext(pairs: set<(nat, nat)>, p: nat, id: int, ids: seq<int>, mid: seq<int>, now: seq<int>, q: nat)
    requires Spread(pairs, p, id, ids, mid) && Spread(pairs, q, id, mid, now) && Near(pairs, p, q) && id >= 0
    requires Done(pairs, ids, mid, p) && Done(pairs, mid, now, -1)
    ensures Spread(pairs, p, id, ids, now) && Done(pairs, ids, now, p)
  {
    hide UF.Joined, Near;
    JoinedNear(pairs, p, q);
    SpreadGrows(pairs, p, id, ids, mid);
    SpreadGrows(pairs, q, id, mid, now);
    forall w | 0 <= w < |ids| ensures SpreadAt(pairs, p, id, ids[w], now[w], w) {
      assert SpreadAt(pairs, p, id, ids[w], mid[w], w) && SpreadAt(pairs, q, id, mid[w], now[w], w);
      if UF.Joined(pairs, q, w) {
        JoinedTrans(pairs, p, q, w);
      }
    }
    forall w | 0 <= w < |ids| && ids[w] < 0 <= now[w] && w != p ensures Expanded(pairs, now, w) {
      if mid[w] >= 0 {
        assert Expanded(pairs, mid, w);
      }
    }
  }

  lemma JoinedNear(pairs: set<(nat, nat)>, u: nat, w: nat)
    requires Near(pairs, u, w)
    ensures UF.Joined(pairs, u, w)
  {
    JoinedPair(pairs, u, w);
  }

  lemma ListedTrans(ids: seq<int>, mid: seq<int>, now: seq<int>, a: seq<nat>, b: seq<nat>, c: seq<nat>)
    requires Listed(ids, mid, a, b) && Listed(mid, now, b, c)
    requires forall w :: 0 <= w < |ids| && ids[w] >= 0 ==> mid[w] == ids[w]
    requires forall w :: 0 <= w < |mid| && mid[w] >= 0 ==> now[w] == mid[w]
    ensures Listed(ids, now, a, c)
  {
  }

  // All neighbours of p that count have been visited.
  ghost predicate VisitedTo(adj: Adjacency, st: seq<EdgeState>, potential: bool, ids: seq<int>, p: nat, i: nat)
    requires p < |adj|
  {
    forall k :: 0 <= k < i && k < |adj[p]| && adj[p][k].1 < |st| && Counts(st[adj[p][k].1], potential) ==>
      adj[p][k].0 < |ids| && ids[adj[p][k].0] >= 0
  }

  lemma AllVisited(d: Division, adj: Adjacency, st: seq<EdgeState>, potential: bool, ids: seq<int>, now: seq<int>,
                   p: nat)
    requires AdjOK(d, adj) && |st| == |d.edges| && |now| == |d.sizes| && p < |adj|
    requires VisitedTo(adj, st, potential, now, p, |adj[p]|) && Done(Pairs(d, st, potential), ids, now, p)
    ensures Done(Pairs(d, st, potential), ids, now, -1)
  {
    var pairs := Pairs(d, st, potential);
    hide Pairs;
    forall q | 0 <= q < |now| && Near(pairs, p, q) ensures now[q] >= 0 {
      var e := EdgeOfNear(d, st, potential, p, q);
      assert (q, e) in adj[p];
      var k :| 0 <= k < |adj[p]| && adj[p][k] == (q, e);
    }
    assert Expanded(pairs, now, p);
  }

  // The vertices numbered so far fall into whole regions.
  ghost predicate Numbered(n: nat, pairs: set<(nat, nat)>, ids: seq<int>, regions: seq<seq<nat>>) {
    && |ids| == n
    && (forall w :: 0 <= w < n ==> -1 <= ids[w] < |regions|)
    && (forall w :: 0 <= w < n && ids[w] >= 0 ==> Expanded(pairs, ids, w))
    && (forall u, w :: 0 <= u < n && 0 <= w < n && ids[u] >= 0 && ids[w] >= 0 ==>
          (ids[u] == ids[w] <==> UF.Joined(pairs, u, w)))
    && (forall r :: 0 <= r < |regions| ==> RegionOK(n, ids, regions[r], r))
  }

  // No edge leads from numbered vertices to others, so nothing joins them.
  lemma NumberedApart(n: nat, pairs: set<(nat, nat)>, ids: seq<int>, regions: seq<seq<nat>>, u: nat, w: nat)
    requires Numbered(n, pairs, ids, regions) && Within(pairs, n) && u < n && w < n && ids[u] >= 0 && ids[w] < 0
    ensures !UF.Joined(pairs, u, w) && !UF.Joined(pairs, w, u)
  {
    var x := set v | 0 <= v < n && ids[v] >= 0;
    forall e | e in pairs ensures e.0 in x <==> e.1 in x {
      assert Near(pairs, e.0, e.1) && Near(pairs, e.1, e.0);
      if ids[e.0] >= 0 {
        assert Expanded(pairs, ids, e.0);
      }
      if ids[e.1] >= 0 {
        assert Expanded(pairs, ids, e.1);
      }
    }
    assert UF.Respects(pairs, x);
    if UF.Joined(pairs, w, u) {
      JoinedSym(pairs, n, w, u);
      assert false;
    }
  }

  lemma NumberedNext(n: nat, pairs: set<(nat, nat)>, ids: seq<int>, regions: seq<seq<nat>>, p: nat, now: seq<int>,
                     region: seq<nat>)
    requires Numbered(n, pairs, ids, regions) && Within(pairs, n) && p < n && ids[p] < 0
    requires Spread(pairs, p, |regions|, ids, now) && Done(pairs, ids, now, -1) && now[p] >= 0
    requires Listed(ids, now, [], region) && NoDup(region)
    ensures Numbered(n, pairs, now, regions + [region])
  {
    var id := |regions|;
    SpreadGrows(pairs, p, id, ids, now);
    NewRegion(n, pairs, ids, now, id, region);
    hide UF.Joined, Near, NoDup, Done, Listed;
    forall w | 0 <= w < n && now[w] >= 0 ensures Expanded(pairs, now, w) {
      NewExpanded(n, pairs, ids, regions, now, w);
    }
    forall u, w | 0 <= u < n && 0 <= w < n && now[u] >= 0 && now[w] >= 0
      ensures now[u] == now[w] <==> UF.Joined(pairs, u, w)
    {
      NewJoined(n, pairs, ids, regions, p, now, u, w);
    }
    forall r | 0 <= r < id ensures RegionOK(n, now, regions[r], r) {
      assert RegionOK(n, ids, regions[r], r);
    }
  }

  lemma NewRegion(n: nat, pairs: set<(nat, nat)>, ids: seq<int>, now: seq<int>, id: nat, region: seq<nat>)
    requires |ids| == n && Listed(ids, now, [], region) && NoDup(region)
    requires forall w :: 0 <= w < n ==> -1 <= ids[w] < id
    requires forall w :: 0 <= w < n ==> now[w] == ids[w] || (ids[w] < 0 && now[w] == id)
    ensures RegionOK(n, now, region, id)
  {
    hide NoDup;
  }

  lemma NewExpanded(n: nat, pairs: set<(nat, nat)>, ids: seq<int>, regions: seq<seq<nat>>, now: seq<int>, w: nat)
    requires Numbered(n, pairs, ids, regions) && Done(pairs, ids, now, -1) && w < n && now[w] >= 0
    requires forall v :: 0 <= v < n && ids[v] >= 0 ==> now[v] == ids[v]
    ensures Expanded(pairs, now, w)
  {
    hide Near;
    if ids[w] >= 0 {
      assert Expanded(pairs, ids, w);
    }
  }

  lemma NewJoined(n: nat, pairs: set<(nat, nat)>, ids: seq<int>, regions: seq<seq<nat>>, p: nat, now: seq<int>, u: nat,
                  w: nat)
    requires Numbered(n, pairs, ids, regions) && Within(pairs, n) && p < n && ids[p] < 0
    requires Spread(pairs, p, |regions|, ids, now)
    requires u < n && w < n && now[u] >= 0 && now[w] >= 0
    ensures now[u] == now[w] <==> UF.Joined(pairs, u, w)
  {
    hide UF.Joined, Expanded;
    assert SpreadAt(pairs, p, |regions|, ids[u], now[u], u) && SpreadAt(pairs, p, |regions|, ids[w], now[w], w);
    if ids[u] < 0 && ids[w] < 0 {
      JoinedSym(pairs, n, p, u);
      JoinedTrans(pairs, u, p, w);
    } else if ids[u] >= 0 && ids[w] < 0 {
      NumberedApart(n, pairs, ids, regions, u, w);
    } else if ids[u] < 0 {
      NumberedApart(n, pairs, ids, regions, w, u);
    }
  }

  lemma AllNumbered(n: nat, pairs: set<(nat, nat)>, ids: seq<int>, regions: seq<seq<nat>>)
    requires Numbered(n, pairs, ids, regions) && forall w :: 0 <= w < n ==> ids[w] >= 0
    ensures PartitionOK(n, pairs, Partition(ids, regions))
  {
    hide UF.Joined, Expanded, RegionOK;
  }

  lemma NumberedNothing(n: nat, pairs: set<(nat, nat)>)
    ensures Numbered(n, pairs, seq(n, u => -1), [])
  {
  }

  lemma VisitedNext(adj: Adjacency, st: seq<EdgeState>, potential: bool, mid: seq<int>, ids: seq<int>, p: nat, k: nat)
    requires p < |adj| && k < |adj[p]| && VisitedTo(adj, st, potential, mid, p, k) && |ids| == |mid|
    requires forall w :: 0 <= w < |mid| && mid[w] >= 0 ==> ids[w] == mid[w]
    requires adj[p][k].1 < |st| && Counts(st[adj[p][k].1], potential) ==> adj[p][k].0 < |ids| && ids[adj[p][k].0] >= 0
    ensures VisitedTo(adj, st, potential, ids, p, k + 1)
  {
  }

  lemma AdjAt(d: Division, adj: Adjacency, p: nat, k: nat)
    requires AdjOK(d, adj) && DivisionOK(d) && p < |adj| && k < |adj[p]|
    ensures adj[p][k].1 < |d.edges| == |d.borders| && adj[p][k].0 < |d.sizes| == |adj| && adj[p][k].0 != p
    ensures Between(d, adj[p][k].1, p, adj[p][k].0)
  {
    assert Between(d, adj[p][k].1, p, adj[p][k].0);
  }

  // The first i edges have been entered.
  ghost predicate AdjTo(d: Division, adj: Adjacency, i: nat) {
    && |adj| == |d.sizes|
    && (forall u, k :: 0 <= u < |adj| && 0 <= k < |adj[u]| ==>
          adj[u][k].1 < i && Between(d, adj[u][k].1, u, adj[u][k].0))
    && (forall u: nat, w: nat, e: nat :: u < |adj| && e < i && Between(d, e, u, w) ==> (w, e) in adj[u])
  }

  lemma AdjNext(d: Division, adj: Adjacency, i: nat)
    requires DivisionOK(d) && AdjTo(d, adj, i) && i < |d.edges|
    ensures var (s, t) := d.edges[i];
            && s < |adj| && t < |adj| && s != t
            && AdjTo(d, adj[s := adj[s] + [(t, i)]][t := adj[t] + [(s, i)]], i + 1)
  {
    var (s, t) := d.edges[i];
    var now := adj[s := adj[s] + [(t, i)]][t := adj[t] + [(s, i)]];
    forall u: nat, w: nat, e: nat | u < |now| && e < i + 1 && Between(d, e, u, w) ensures (w, e) in now[u] {
      if e < i {
        assert (w, e) in adj[u];
      }
    }
  }

  lemma AdjDone(d: Division, adj: Adjacency)
    requires AdjTo(d, adj, |d.edges|)
    ensures AdjOK(d, adj)
  {
  }

  lemma SizesOf(d: Division, adj: Adjacency)
    requires AdjOK(d, adj) && DivisionOK(d)
    ensures |adj| == |d.sizes| && |d.borders| == |d.edges|
  {
  }

  lemma VisitedNone(adj: Adjacency, st: seq<EdgeState>, potential: bool, ids: seq<int>, p: nat)
    requires p < |adj|
    ensures VisitedTo(adj, st, potential, ids, p, 0)
  {
  }

  lemma NothingListed(ids: seq<int>)
    ensures ListOK(ids, [])
  {
  }

  lemma ListedOnce(ids: seq<int>, region: seq<nat>)
    requires ListOK(ids, region)
    ensures NoDup(region)
  {
  }

  lemma RegionRange(n: nat, pairs: set<(nat, nat)>, p: Partition, id: nat, i: nat)
    requires PartitionOK(n, pairs, p) && id < |p.regions| && i < |p.regions[id]|
    ensures |p.ids| == n && p.regions[id][i] < n && p.ids[p.regions[id][i]] == id
  {
    assert RegionOK(n, p.ids, p.regions[id], id);
    assert p.regions[id][i] in p.regions[id];
  }

  lemma SameId(n: nat, pairs: set<(nat, nat)>, p: Partition, id: nat, u: nat, w: nat)
    requires PartitionOK(n, pairs, p) && id < |p.regions| && u in p.regions[id] && w in p.regions[id]
    ensures u < n && w < n && p.ids[u] == p.ids[w] == id && UF.Joined(pairs, u, w)
  {
    hide UF.Joined, NoDup;
    assert RegionOK(n, p.ids, p.regions[id], id);
  }

  lemma PairIds(n: nat, pairs: set<(nat, nat)>, p: Partition, id: nat, g: (nat, nat))
    requires PartitionOK(n, pairs, p) && id < |p.regions| && g in pairs && g.0 < n && g.1 < n
    ensures g.0 in p.regions[id] <==> g.1 in p.regions[id]
    ensures p.ids[g.0] == p.ids[g.1]
  {
    hide UF.Joined, NoDup;
    JoinedPair(pairs, g.0, g.1);
    assert RegionOK(n, p.ids, p.regions[id], id);
  }

  lemma JoinedIds(n: nat, pairs: set<(nat, nat)>, p: Partition, u: nat, w: nat)
    requires PartitionOK(n, pairs, p) && u < n && w < n
    ensures |p.ids| == n && (p.ids[u] == p.ids[w] <==> UF.Joined(pairs, u, w))
  {
    hide UF.Joined, RegionOK;
  }

  lemma RegionSet(n: nat, pairs: set<(nat, nat)>, p: Partition, r: nat, i: nat)
    requires PartitionOK(n, pairs, p) && r < |p.regions| && i < |p.regions[r]|
    ensures |SetOf(p.regions[r])| == |p.regions[r]| && p.regions[r][i] in SetOf(p.regions[r]) && p.regions[r][i] < n
    ensures forall u :: u in SetOf(p.regions[r]) ==> u < n
  {
    hide UF.Joined, NoDup;
    assert RegionOK(n, p.ids, p.regions[r], r);
    assert p.regions[r][i] in p.regions[r];
    NoDupCount(p.regions[r]);
  }

  lemma RegionCount(n: nat, pairs: set<(nat, nat)>, p: Partition, r: nat)
    requires PartitionOK(n, pairs, p) && r < |p.regions|
    ensures |SetOf(p.regions[r])| == |p.regions[r]|
  {
    hide UF.Joined, NoDup;
    assert RegionOK(n, p.ids, p.regions[r], r);
    NoDupCount(p.regions[r]);
  }

  lemma InOwnRegion(n: nat, pairs: set<(nat, nat)>, p: Partition, u: nat)
    requires PartitionOK(n, pairs, p) && u < n
    ensures 0 <= p.ids[u] < |p.regions| && u in p.regions[p.ids[u]]
  {
    hide UF.Joined, NoDup;
    assert RegionOK(n, p.ids, p.regions[p.ids[u]], p.ids[u]);
  }

  lemma IdsSize(n: nat, pairs: set<(nat, nat)>, p: Partition)
    requires PartitionOK(n, pairs, p)
    ensures |p.ids| == n
  {
  }

  lemma RegionMember(n: nat, pairs: set<(nat, nat)>, p: Partition, r: nat, u: nat)
    requires PartitionOK(n, pairs, p) && r < |p.regions| && u in p.regions[r]
    ensures |p.ids| == n && u < n && p.ids[u] == r && u in SetOf(p.regions[r])
  {
    hide UF.Joined, NoDup;
    assert RegionOK(n, p.ids, p.regions[r], r);
  }
}
