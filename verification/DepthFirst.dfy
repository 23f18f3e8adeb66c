// The depth-first search of constraints/Graph.cc: preorder numbers, lowlinks and
// active counts of subtrees, and what they say about connectivity.
module DepthFirst {
  import opened Connectivity

  datatype NodeState = Undecided | Active | Inactive

  // rank_, lowlink_, subtree_active_count_, cluster_id_, parent_ and next_rank_.
  // end is specification only: the subtree of v holds the vertices whose rank is
  // at least rank[v] and less than end[v].
  datatype Dfs = Dfs(rank: seq<int>, low: seq<int>, count: seq<int>, cluster: seq<int>, parent: seq<int>,
                     end: seq<int>, next: nat)

  ghost function Possible(st: seq<NodeState>): set<nat> {
    set v | 0 <= v < |st| && st[v] != Inactive
  }

  ghost function Actives(st: seq<NodeState>): set<nat> {
    set v | 0 <= v < |st| && st[v] == Active
  }

  ghost predicate Sized(d: Dfs, n: nat) {
    |d.rank| == |d.low| == |d.count| == |d.cluster| == |d.parent| == |d.end| == n
  }

  ghost predicate RanksOK(d: Dfs, n: nat) {
    && Sized(d, n)
    && (forall v :: 0 <= v < n ==> -1 <= d.rank[v] < d.next)
    && (forall u, v :: 0 <= u < n && 0 <= v < n && d.rank[u] == d.rank[v] >= 0 ==> u == v)
  }

  // The vertices with a rank in lo..hi.
  ghost function Span(d: Dfs, lo: int, hi: int): set<nat> {
    set v | 0 <= v < |d.rank| && lo <= d.rank[v] < hi
  }

  ghost function Sub(d: Dfs, x: nat): set<nat>
    requires x < |d.rank| && x < |d.end|
  {
    Span(d, d.rank[x], d.end[x])
  }

  ghost predicate Within(d: Dfs, x: nat, y: nat)
    requires x < |d.rank| == |d.end| && y < |d.rank|
  {
    d.rank[x] <= d.rank[y] < d.end[x]
  }

  // An edge from the subtree of x to a vertex that is not inactive.
  ghost predicate EdgeOf(g: Graph, st: seq<NodeState>, d: Dfs, x: nat, z: nat, y: nat): (b: bool)
    requires |g| == |st| == |d.rank| == |d.end| && x < |g|
    ensures b ==> z < |g| && y < |g|
  {
    z < |g| && y < |g| && Within(d, x, z) && y in g[z] && st[y] != Inactive
  }

  ghost predicate LowOK(g: Graph, st: seq<NodeState>, d: Dfs, x: nat)
    requires |g| == |st| && Sized(d, |g|) && x < |g|
  {
    && d.low[x] <= d.rank[x]
    && (d.low[x] == d.rank[x] || exists z: nat, y: nat :: EdgeOf(g, st, d, x, z, y) && d.rank[y] == d.low[x])
    && (forall z: nat, y: nat :: EdgeOf(g, st, d, x, z, y) && y != d.parent[z] ==> d.low[x] <= d.rank[y])
  }

  // y lies below its parent, which lies below x.
  ghost predicate Hangs(g: Graph, d: Dfs, x: nat, y: nat)
    requires Sized(d, |g|) && x < |g| && y < |g|
  {
    var p := d.parent[y];
    && 0 <= p < |g| && y in g[p]
    && d.rank[x] <= d.rank[p] < d.rank[y] < d.end[p]
  }

  ghost predicate SameAt(c: Dfs, d: Dfs, n: nat, v: nat)
    requires Sized(c, n) && Sized(d, n) && v < n
  {
    && d.low[v] == c.low[v] && d.count[v] == c.count[v] && d.cluster[v] == c.cluster[v]
    && d.parent[v] == c.parent[v] && d.end[v] == c.end[v]
  }

  // What has been visited keeps its rank, and what is new gets later ones.
  ghost predicate Later(c: Dfs, d: Dfs, n: nat) {
    && RanksOK(c, n) && RanksOK(d, n) && c.next <= d.next
    && (forall v :: 0 <= v < n && c.rank[v] >= 0 ==> d.rank[v] == c.rank[v])
    && (forall v :: 0 <= v < n && c.rank[v] < 0 && d.rank[v] >= 0 ==> c.next <= d.rank[v])
  }

  // What has been visited is not touched any more.
  ghost predicate Grown(c: Dfs, d: Dfs, n: nat) {
    Later(c, d, n) && forall v :: 0 <= v < n && c.rank[v] >= 0 ==> SameAt(c, d, n, v)
  }

  lemma GrownTrans(b: Dfs, c: Dfs, d: Dfs, n: nat)
    requires Grown(b, c, n) && Grown(c, d, n)
    ensures Grown(b, d, n)
  {
  }

  ghost predicate Agrees(g: Graph, c: Dfs, d: Dfs, x: nat) {
    && Later(c, d, |g|) && x < |g| && 0 <= c.rank[x] < c.end[x] <= c.next
    && forall v :: 0 <= v < |g| && Within(c, x, v) ==> SameAt(c, d, |g|, v)
  }

  lemma AgreeSubtree(g: Graph, st: seq<NodeState>, c: Dfs, d: Dfs, x: nat)
    requires |g| == |st| && Agrees(g, c, d, x)
    ensures SameAt(c, d, |g|, x) && d.rank[x] == c.rank[x]
    ensures forall y :: 0 <= y < |g| ==> (Within(d, x, y) <==> Within(c, x, y))
    ensures forall y :: 0 <= y < |g| && Within(c, x, y) ==> c.rank[y] >= 0
    ensures forall z: nat, y: nat :: EdgeOf(g, st, d, x, z, y) <==> EdgeOf(g, st, c, x, z, y)
    ensures Sub(d, x) == Sub(c, x)
  {
    assert Within(c, x, x);
    forall y | 0 <= y < |g| ensures Within(d, x, y) <==> Within(c, x, y) {
    }
  }

  ghost predicate EdgesOK(g: Graph, st: seq<NodeState>, d: Dfs, x: nat)
    requires |g| == |st| && Sized(d, |g|) && x < |g|
  {
    forall z: nat, y: nat :: EdgeOf(g, st, d, x, z, y) ==> 0 <= d.rank[y] < d.end[z]
  }

  ghost predicate TreeOK(g: Graph, d: Dfs, x: nat)
    requires Sized(d, |g|) && x < |g|
  {
    forall y :: 0 <= y < |g| && Within(d, x, y) ==> d.end[y] <= d.end[x] && (y != x ==> Hangs(g, d, x, y))
  }

  // All that is true of a vertex once buildTree has returned.
  ghost predicate Finished(g: Graph, st: seq<NodeState>, d: Dfs, x: nat)
    requires |g| == |st| && Sized(d, |g|) && x < |g|
  {
    && st[x] != Inactive
    && 0 <= d.rank[x] < d.end[x] <= d.next
    && EdgesOK(g, st, d, x) && TreeOK(g, d, x) && LowOK(g, st, d, x)
    && d.count[x] == |Sub(d, x) * Actives(st)|
  }

  ghost predicate AllFinished(g: Graph, st: seq<NodeState>, d: Dfs, lo: int)
    requires |g| == |st| && Sized(d, |g|)
  {
    forall y :: 0 <= y < |g| && lo <= d.rank[y] ==> Finished(g, st, d, y)
  }

  lemma KeptEdges(g: Graph, st: seq<NodeState>, c: Dfs, d: Dfs, x: nat)
    requires |g| == |st| && Agrees(g, c, d, x) && EdgesOK(g, st, c, x)
    ensures EdgesOK(g, st, d, x)
    ensures forall z: nat, y: nat ::
              EdgeOf(g, st, c, x, z, y) ==> z < |g| && y < |g| && c.rank[y] >= 0 && c.rank[z] >= 0
  {
    AgreeSubtree(g, st, c, d, x);
    forall z: nat, y: nat | EdgeOf(g, st, c, x, z, y)
      ensures z < |g| && y < |g| && c.rank[y] >= 0 && c.rank[z] >= 0 && d.rank[y] < d.end[z]
    {
      assert SameAt(c, d, |g|, z);
    }
  }

  lemma KeptLow(g: Graph, st: seq<NodeState>, c: Dfs, d: Dfs, x: nat)
    requires |g| == |st| && Agrees(g, c, d, x) && EdgesOK(g, st, c, x) && LowOK(g, st, c, x)
    ensures LowOK(g, st, d, x)
  {
    AgreeSubtree(g, st, c, d, x);
    KeptEdges(g, st, c, d, x);
    if c.low[x] != c.rank[x] {
      var z: nat, y: nat :| EdgeOf(g, st, c, x, z, y) && c.rank[y] == c.low[x];
      assert EdgeOf(g, st, d, x, z, y) && d.rank[y] == d.low[x];
    }
    forall z: nat, y: nat | EdgeOf(g, st, d, x, z, y) && y != d.parent[z] ensures d.low[x] <= d.rank[y] {
      assert EdgeOf(g, st, c, x, z, y) && SameAt(c, d, |g|, z);
    }
  }

  lemma KeptTree(g: Graph, st: seq<NodeState>, c: Dfs, d: Dfs, x: nat)
    requires |g| == |st| && Agrees(g, c, d, x) && TreeOK(g, c, x)
    ensures TreeOK(g, d, x)
  {
    hide EdgeOf;
    AgreeSubtree(g, st, c, d, x);
    forall y | 0 <= y < |g| && Within(d, x, y) ensures d.end[y] <= d.end[x] && (y != x ==> Hangs(g, d, x, y)) {
      assert SameAt(c, d, |g|, y);
      if y != x {
        assert Hangs(g, c, x, y);
        assert Within(c, x, c.parent[y]) && SameAt(c, d, |g|, c.parent[y]);
      }
    }
  }

  // A finished subtree that is not touched stays finished.
  lemma FinishedKept(g: Graph, st: seq<NodeState>, c: Dfs, d: Dfs, x: nat)
    requires |g| == |st| && Agrees(g, c, d, x) && Finished(g, st, c, x)
    ensures Finished(g, st, d, x)
  {
    hide EdgesOK, TreeOK, LowOK, Sub, Within, EdgeOf;
    AgreeSubtree(g, st, c, d, x);
    KeptEdges(g, st, c, d, x);
    KeptLow(g, st, c, d, x);
    KeptTree(g, st, c, d, x);
  }

  lemma GrownAgrees(g: Graph, st: seq<NodeState>, c: Dfs, d: Dfs, x: nat)
    requires |g| == |st| && Grown(c, d, |g|) && x < |g| && Finished(g, st, c, x)
    ensures Agrees(g, c, d, x)
  {
    hide EdgesOK, TreeOK, LowOK, Sub, EdgeOf;
  }

  lemma AllKept(g: Graph, st: seq<NodeState>, c: Dfs, d: Dfs, lo: int)
    requires |g| == |st| && Grown(c, d, |g|) && AllFinished(g, st, c, lo) && 0 <= lo
    requires AllFinished(g, st, d, c.next)
    ensures AllFinished(g, st, d, lo)
  {
    forall x | 0 <= x < |g| && lo <= d.rank[x] ensures Finished(g, st, d, x) {
      if c.rank[x] >= 0 {
        GrownAgrees(g, st, c, d, x);
        FinishedKept(g, st, c, d, x);
      }
    }
  }

  // ------------------------------------------------- the loop of buildTree

  // y has been reached from v.
  ghost predicate HangsUnder(g: Graph, d: Dfs, v: nat, y: nat)
    requires Sized(d, |g|) && v < |g| && y < |g|
  {
    var p := d.parent[y];
    0 <= p < |g| && y in g[p] && d.rank[v] <= d.rank[p] < d.rank[y] && (p == v || d.rank[y] < d.end[p])
  }

  // An edge looked at so far: one of the first i of v, or one from a vertex
  // reached from v.
  ghost predicate PartEdge(g: Graph, st: seq<NodeState>, d: Dfs, v: nat, i: nat, z: nat, y: nat): (b: bool)
    requires |g| == |st| && Sized(d, |g|) && v < |g| && i <= |g[v]|
    ensures b ==> z < |g| && y < |g|
  {
    && z < |g| && y < |g| && st[y] != Inactive
    && ((d.rank[z] > d.rank[v] && y in g[z]) || (z == v && y in g[v][..i]))
  }

  ghost predicate LowSoFar(g: Graph, st: seq<NodeState>, d: Dfs, v: nat, i: nat, low: int)
    requires |g| == |st| && Sized(d, |g|) && v < |g| && i <= |g[v]|
  {
    && low <= d.rank[v]
    && (low == d.rank[v] || exists z: nat, y: nat :: PartEdge(g, st, d, v, i, z, y) && d.rank[y] == low)
    && (forall z: nat, y: nat :: PartEdge(g, st, d, v, i, z, y) && y != d.parent[z] ==> low <= d.rank[y])
  }

  ghost predicate Placed(g: Graph, st: seq<NodeState>, d: Dfs, v: nat) {
    && |g| == |st| && RanksOK(d, |g|) && v < |g| && 0 <= d.rank[v] < d.next && st[v] != Inactive
    && -1 <= d.parent[v] < |g| && (d.parent[v] >= 0 ==> 0 <= d.rank[d.parent[v]] < d.rank[v])
  }

  ghost predicate Reached(g: Graph, st: seq<NodeState>, d: Dfs, v: nat)
    requires Placed(g, st, d, v)
  {
    && AllFinished(g, st, d, d.rank[v] + 1)
    && (forall y :: 0 <= y < |g| && d.rank[y] > d.rank[v] ==> HangsUnder(g, d, v, y))
  }

  ghost predicate SeenSoFar(g: Graph, st: seq<NodeState>, d: Dfs, v: nat, i: nat)
    requires |g| == |st| && Sized(d, |g|) && v < |g| && i <= |g[v]|
  {
    forall w :: w in g[v][..i] && w < |g| && st[w] != Inactive ==> d.rank[w] >= 0
  }

  ghost predicate Exploring(g: Graph, st: seq<NodeState>, d: Dfs, v: nat, i: nat, low: int, count: int) {
    && Placed(g, st, d, v) && Reached(g, st, d, v) && i <= |g[v]|
    && SeenSoFar(g, st, d, v, i) && LowSoFar(g, st, d, v, i, low)
    && count == |Span(d, d.rank[v], d.next) * Actives(st)|
  }

  lemma PrefixMember(s: seq<nat>, i: nat, y: nat)
    requires i < |s|
    ensures y in s[..i + 1] <==> y in s[..i] || y == s[i]
  {
    assert s[..i + 1] == s[..i] + [s[i]];
  }

  // A neighbour that has been visited, or that does not matter.
  lemma ExploreVisited(g: Graph, st: seq<NodeState>, d: Dfs, v: nat, i: nat, low: int, count: int)
    requires GraphOK(g) && Exploring(g, st, d, v, i, low, count) && i < |g[v]| && g[v][i] < |g|
    ensures var w := g[v][i];
            && (w == d.parent[v] || st[w] == Inactive ==> Exploring(g, st, d, v, i + 1, low, count))
            && (w != d.parent[v] && st[w] != Inactive && d.rank[w] >= 0 ==>
                 Exploring(g, st, d, v, i + 1, if d.rank[w] < low then d.rank[w] else low, count))
  {
    hide Finished, HangsUnder, GraphOK;
    var w := g[v][i];
    forall y ensures y in g[v][..i + 1] <==> y in g[v][..i] || y == w {
      PrefixMember(g[v], i, y);
    }
    if w == d.parent[v] || st[w] == Inactive {
      LowSkips(g, st, d, v, i, low);
    } else if d.rank[w] >= 0 {
      LowMeets(g, st, d, v, i, low);
    }
  }

  lemma LowSkips(g: Graph, st: seq<NodeState>, d: Dfs, v: nat, i: nat, low: int)
    requires |g| == |st| && Sized(d, |g|) && v < |g| && i < |g[v]| && g[v][i] < |g|
    requires LowSoFar(g, st, d, v, i, low) && (g[v][i] == d.parent[v] || st[g[v][i]] == Inactive)
    ensures LowSoFar(g, st, d, v, i + 1, low)
  {
    forall z: nat, y: nat ensures PartEdge(g, st, d, v, i + 1, z, y) <==>
                                  PartEdge(g, st, d, v, i, z, y) || (z == v && y == g[v][i] && st[y] != Inactive)
    {
      PrefixMember(g[v], i, y);
    }
  }

  lemma LowMeets(g: Graph, st: seq<NodeState>, d: Dfs, v: nat, i: nat, low: int)
    requires |g| == |st| && Sized(d, |g|) && v < |g| && i < |g[v]| && g[v][i] < |g|
    requires LowSoFar(g, st, d, v, i, low) && st[g[v][i]] != Inactive
    ensures LowSoFar(g, st, d, v, i + 1, if d.rank[g[v][i]] < low then d.rank[g[v][i]] else low)
  {
    forall z: nat, y: nat ensures PartEdge(g, st, d, v, i + 1, z, y) <==>
                                  PartEdge(g, st, d, v, i, z, y) || (z == v && y == g[v][i] && st[y] != Inactive)
    {
      PrefixMember(g[v], i, y);
    }
    assert PartEdge(g, st, d, v, i + 1, v, g[v][i]);
  }

  // What buildTree(v) has done when it returns; c is the state before the call.
  ghost predicate Built(g: Graph, st: seq<NodeState>, c: Dfs, d: Dfs, v: nat, parent: int, cluster: int) {
    && |g| == |st| && Grown(c, d, |g|) && v < |g| && c.rank[v] < 0
    && d.rank[v] == c.next < d.next && d.end[v] == d.next && d.parent[v] == parent
    && AllFinished(g, st, d, c.next)
    && (forall y :: 0 <= y < |g| && c.next <= d.rank[y] ==> d.cluster[y] == cluster)
  }

  lemma BuiltFacts(g: Graph, st: seq<NodeState>, c: Dfs, d: Dfs, v: nat, parent: int, cluster: int)
    requires Built(g, st, c, d, v, parent, cluster)
    ensures |g| == |st| && v < |g| && Grown(c, d, |g|) && Later(c, d, |g|) && Sized(c, |g|) && Sized(d, |g|)
    ensures c.rank[v] < 0 && d.rank[v] == c.next < d.next && d.end[v] == d.next && d.parent[v] == parent
    ensures AllFinished(g, st, d, c.next) && Finished(g, st, d, v)
  {
    hide Finished;
  }

  lemma ReachedAt(g: Graph, st: seq<NodeState>, d: Dfs, v: nat, y: nat)
    requires Placed(g, st, d, v) && Reached(g, st, d, v) && y < |g| && d.rank[y] > d.rank[v]
    ensures HangsUnder(g, d, v, y) && Finished(g, st, d, y)
  {
    hide Finished, HangsUnder;
  }

  lemma GrownAt(c: Dfs, d: Dfs, n: nat, v: nat)
    requires Grown(c, d, n) && v < n && c.rank[v] >= 0
    ensures SameAt(c, d, n, v) && d.rank[v] == c.rank[v]
  {
  }

  lemma ChildHangs(g: Graph, st: seq<NodeState>, d: Dfs, e: Dfs, v: nat, w: nat, cluster: int)
    requires Placed(g, st, d, v) && Reached(g, st, d, v) && w < |g| && w in g[v] && Built(g, st, d, e, w, v, cluster)
    ensures Placed(g, st, e, v) && Reached(g, st, e, v)
  {
    hide Finished, AllFinished, Built, Grown, Reached, HangsUnder, EdgesOK, LowOK, TreeOK, RanksOK, Later;
    BuiltFacts(g, st, d, e, w, v, cluster);
    PlacedKept(g, st, d, e, v);
    FinishedTree(g, st, e, w);
    ReachedAll(g, st, d, v);
    AllKept(g, st, d, e, d.rank[v] + 1);
    forall y | 0 <= y < |g| && e.rank[y] > e.rank[v] ensures HangsUnder(g, e, v, y) {
      ChildHangsAt(g, st, d, e, v, w, y);
    }
    assert Reached(g, st, e, v) by { ReachedIs(g, st, e, v); }
  }

  lemma ReachedAll(g: Graph, st: seq<NodeState>, d: Dfs, v: nat)
    requires Placed(g, st, d, v) && Reached(g, st, d, v)
    ensures AllFinished(g, st, d, d.rank[v] + 1)
  {
    hide Finished, HangsUnder, AllFinished;
  }

  lemma PlacedKept(g: Graph, st: seq<NodeState>, d: Dfs, e: Dfs, v: nat)
    requires Placed(g, st, d, v) && Grown(d, e, |g|)
    ensures Placed(g, st, e, v) && e.rank[v] == d.rank[v] && SameAt(d, e, |g|, v)
  {
    GrownAt(d, e, |g|, v);
    if d.parent[v] >= 0 {
      GrownAt(d, e, |g|, d.parent[v]);
    }
  }

  lemma ReachedIs(g: Graph, st: seq<NodeState>, d: Dfs, v: nat)
    requires Placed(g, st, d, v) && AllFinished(g, st, d, d.rank[v] + 1)
    requires forall y :: 0 <= y < |g| && d.rank[y] > d.rank[v] ==> HangsUnder(g, d, v, y)
    ensures Reached(g, st, d, v)
  {
    hide Finished, HangsUnder, AllFinished;
  }

  lemma ChildHangsAt(g: Graph, st: seq<NodeState>, d: Dfs, e: Dfs, v: nat, w: nat, y: nat)
    requires Placed(g, st, d, v) && Reached(g, st, d, v) && w < |g| && w in g[v] && Grown(d, e, |g|) && y < |g|
    requires d.rank[w] < 0 && e.rank[w] == d.next < e.next && e.end[w] == e.next && e.parent[w] == v
    requires TreeOK(g, e, w) && e.rank[y] > e.rank[v]
    ensures HangsUnder(g, e, v, y)
  {
    GrownAt(d, e, |g|, v);
    if d.rank[y] >= 0 {
      GrownAt(d, e, |g|, y);
      ReachedAt(g, st, d, v, y);
      hide Grown, Reached, Finished, TreeOK;
      assert d.rank[d.parent[y]] >= 0;
      GrownAt(d, e, |g|, d.parent[y]);
    } else {
      assert e.rank[y] >= d.next;
      hide Grown, Reached;
      assert Within(e, w, y) && (y != w ==> Hangs(g, e, w, y));
    }
  }

  lemma FinishedTree(g: Graph, st: seq<NodeState>, d: Dfs, x: nat)
    requires |g| == |st| && Sized(d, |g|) && x < |g| && Finished(g, st, d, x)
    ensures TreeOK(g, d, x) && EdgesOK(g, st, d, x) && LowOK(g, st, d, x) && st[x] != Inactive
    ensures 0 <= d.rank[x] < d.end[x] <= d.next && d.count[x] == |Sub(d, x) * Actives(st)|
  {
  }

  // Edges looked at after the child w are those from before and those of its subtree.
  lemma ChildEdges(g: Graph, st: seq<NodeState>, d: Dfs, e: Dfs, v: nat, i: nat, cluster: int, z: nat, y: nat)
    requires Placed(g, st, d, v) && i < |g[v]| && g[v][i] < |g| && Built(g, st, d, e, g[v][i], v, cluster)
    requires PartEdge(g, st, e, v, i + 1, z, y)
    ensures z < |g| && y < |g|
    ensures PartEdge(g, st, d, v, i, z, y) || EdgeOf(g, st, e, g[v][i], z, y) || (z == v && y == g[v][i])
  {
    PrefixMember(g[v], i, y);
  }

  lemma ChildLow(g: Graph, st: seq<NodeState>, d: Dfs, e: Dfs, v: nat, i: nat, low: int, cluster: int)
    requires Placed(g, st, d, v) && Reached(g, st, d, v) && i < |g[v]| && g[v][i] < |g| && st[g[v][i]] != Inactive
    requires Built(g, st, d, e, g[v][i], v, cluster) && LowSoFar(g, st, d, v, i, low)
    requires SeenSoFar(g, st, d, v, i)
    ensures LowSoFar(g, st, e, v, i + 1, if e.low[g[v][i]] < low then e.low[g[v][i]] else low)
  {
    var w, j: nat := g[v][i], i + 1;
    var now := if e.low[w] < low then e.low[w] else low;
    hide Finished, AllFinished, Reached, EdgesOK, TreeOK, Built, Grown, Later, RanksOK, EdgeOf, PartEdge, SeenSoFar,
         LowOK;
    BuiltFacts(g, st, d, e, w, v, cluster);
    FinishedTree(g, st, e, w);
    PlacedKept(g, st, d, e, v);
    if now != e.rank[v] {
      ChildWitness(g, st, d, e, v, i, j, low);
    }
    assert low <= d.rank[v];
    hide LowSoFar;
    forall z: nat, y: nat | PartEdge(g, st, e, v, j, z, y) && y != e.parent[z] ensures now <= e.rank[y] {
      ChildBound(g, st, d, e, v, i, low, cluster, z, y);
    }
    LowIs(g, st, e, v, j, now);
  }

  lemma LowIs(g: Graph, st: seq<NodeState>, d: Dfs, v: nat, i: nat, low: int)
    requires |g| == |st| && Sized(d, |g|) && v < |g| && i <= |g[v]| && low <= d.rank[v]
    requires low == d.rank[v] || exists z: nat, y: nat :: PartEdge(g, st, d, v, i, z, y) && d.rank[y] == low
    requires forall z: nat, y: nat :: PartEdge(g, st, d, v, i, z, y) && y != d.parent[z] ==> low <= d.rank[y]
    ensures LowSoFar(g, st, d, v, i, low)
  {
    hide PartEdge;
  }

  lemma ChildWitness(g: Graph, st: seq<NodeState>, d: Dfs, e: Dfs, v: nat, i: nat, j: nat, low: int)
    requires Placed(g, st, d, v) && Reached(g, st, d, v) && i < |g[v]| && g[v][i] < |g| && Grown(d, e, |g|)
    requires Sized(e, |g|) && SeenSoFar(g, st, d, v, i) && LowSoFar(g, st, d, v, i, low) && j == i + 1
    requires LowOK(g, st, e, g[v][i]) && e.rank[v] == d.rank[v] < e.rank[g[v][i]]
    requires (if e.low[g[v][i]] < low then e.low[g[v][i]] else low) != e.rank[v]
    ensures exists z: nat, y: nat :: PartEdge(g, st, e, v, j, z, y)
              && e.rank[y] == if e.low[g[v][i]] < low then e.low[g[v][i]] else low
  {
    assert Sized(d, |g|);
    hide Reached, EdgeOf, PartEdge, RanksOK, SeenSoFar, Grown;
    var w := g[v][i];
    if low <= e.low[w] {
      var z: nat, y: nat :| PartEdge(g, st, d, v, i, z, y) && d.rank[y] == low;
      PartKept(g, st, d, e, v, i, z, y);
      assert PartEdge(g, st, e, v, j, z, y) && e.rank[y] == low;
    } else {
      assert e.low[w] != e.rank[w];
      var z: nat, y: nat :| EdgeOf(g, st, e, w, z, y) && e.rank[y] == e.low[w];
      SubtreeEdge(g, st, e, v, i, w, z, y);
      assert PartEdge(g, st, e, v, j, z, y);
    }
  }

  lemma SubtreeEdge(g: Graph, st: seq<NodeState>, e: Dfs, v: nat, i: nat, w: nat, z: nat, y: nat)
    requires |g| == |st| && Sized(e, |g|) && v < |g| && i < |g[v]| && w < |g|
    requires EdgeOf(g, st, e, w, z, y) && e.rank[v] < e.rank[w]
    ensures PartEdge(g, st, e, v, i + 1, z, y)
  {
  }

  lemma ChildBound(g: Graph, st: seq<NodeState>, d: Dfs, e: Dfs, v: nat, i: nat, low: int, cluster: int, z: nat, y: nat)
    requires Placed(g, st, d, v) && Reached(g, st, d, v) && i < |g[v]| && g[v][i] < |g| && st[g[v][i]] != Inactive
    requires Built(g, st, d, e, g[v][i], v, cluster) && LowSoFar(g, st, d, v, i, low)
    requires SeenSoFar(g, st, d, v, i) && Sized(e, |g|) && LowOK(g, st, e, g[v][i]) && z < |g| && y < |g|
    requires PartEdge(g, st, e, v, i + 1, z, y) && y != e.parent[z]
    ensures e.low[g[v][i]] <= e.rank[y] || low <= e.rank[y]
  {
    hide Finished, AllFinished, Reached, Built, Grown, Later, RanksOK, EdgeOf, PartEdge, SeenSoFar;
    BuiltFacts(g, st, d, e, g[v][i], v, cluster);
    ChildEdges(g, st, d, e, v, i, cluster, z, y);
    if PartEdge(g, st, d, v, i, z, y) {
      PartKept(g, st, d, e, v, i, z, y);
    }
  }

  lemma PartKept(g: Graph, st: seq<NodeState>, d: Dfs, e: Dfs, v: nat, i: nat, z: nat, y: nat)
    requires Placed(g, st, d, v) && Reached(g, st, d, v) && i < |g[v]| && Grown(d, e, |g|)
    requires SeenSoFar(g, st, d, v, i) && PartEdge(g, st, d, v, i, z, y)
    ensures PartEdge(g, st, e, v, i + 1, z, y) && e.rank[y] == d.rank[y] >= 0 && e.parent[z] == d.parent[z]
  {
    PrefixMember(g[v], i, y);
    assert SameAt(d, e, |g|, z);
    if d.rank[z] > d.rank[v] {
      FinishedTree(g, st, d, z);
      assert EdgeOf(g, st, d, z, z, y);
    }
  }

  lemma ChildCount(g: Graph, st: seq<NodeState>, d: Dfs, e: Dfs, v: nat, w: nat, count: int, cluster: int)
    requires Placed(g, st, d, v) && w < |g| && Built(g, st, d, e, w, v, cluster)
    requires count == |Span(d, d.rank[v], d.next) * Actives(st)|
    ensures count + e.count[w] == |Span(e, e.rank[v], e.next) * Actives(st)|
  {
    FinishedTree(g, st, e, w);
    hide AllFinished, Finished;
    var a, b := Span(d, d.rank[v], d.next) * Actives(st), Sub(e, w) * Actives(st);
    SpanSplits(d, e, |g|, d.rank[v]);
    assert Span(e, e.rank[v], e.next) * Actives(st) == a + b && a !! b;
  }

  lemma SpanSplits(d: Dfs, e: Dfs, n: nat, lo: int)
    requires Later(d, e, n) && 0 <= lo <= d.next
    ensures Span(e, lo, e.next) == Span(d, lo, d.next) + Span(e, d.next, e.next)
    ensures Span(d, lo, d.next) !! Span(e, d.next, e.next)
  {
  }

  lemma ExploreChild(g: Graph, st: seq<NodeState>, d: Dfs, e: Dfs, v: nat, i: nat, low: int, count: int, cluster: int)
    requires Exploring(g, st, d, v, i, low, count) && i < |g[v]| && g[v][i] < |g| && st[g[v][i]] != Inactive
    requires Built(g, st, d, e, g[v][i], v, cluster)
    ensures var w := g[v][i];
            Exploring(g, st, e, v, i + 1, if e.low[w] < low then e.low[w] else low, count + e.count[w])
  {
    hide Reached, LowSoFar, AllFinished, Span, Actives;
    ChildHangs(g, st, d, e, v, g[v][i], cluster);
    ChildLow(g, st, d, e, v, i, low, cluster);
    ChildCount(g, st, d, e, v, g[v][i], count, cluster);
    forall w | w in g[v][..i + 1] && w < |g| && st[w] != Inactive ensures e.rank[w] >= 0 {
      PrefixMember(g[v], i, w);
    }
  }

  // ---------------------------------------------------- entering and leaving

  function Entered(d: Dfs, v: nat, parent: int, cluster: int): Dfs
    requires v < |d.rank| && v < |d.cluster| && v < |d.parent|
  {
    d.(rank := d.rank[v := d.next], next := d.next + 1, cluster := d.cluster[v := cluster],
       parent := d.parent[v := parent])
  }

  function Left(d: Dfs, v: nat, low: int, count: int): Dfs
    requires v < |d.low| && v < |d.count| && v < |d.end|
  {
    d.(low := d.low[v := low], count := d.count[v := count], end := d.end[v := d.next])
  }

  lemma ExploreStart(g: Graph, st: seq<NodeState>, d: Dfs, v: nat, parent: int, cluster: int)
    requires |g| == |st| && RanksOK(d, |g|) && v < |g| && d.rank[v] < 0 && st[v] != Inactive
    requires -1 <= parent < |g| && (parent >= 0 ==> d.rank[parent] >= 0)
    ensures var e := Entered(d, v, parent, cluster);
            Grown(d, e, |g|) && Exploring(g, st, e, v, 0, e.rank[v], if st[v] == Active then 1 else 0)
  {
    var e := Entered(d, v, parent, cluster);
    EnteredRanks(g, st, d, v, parent, cluster);
    assert Span(e, e.rank[v], e.next) == {v};
    assert Span(e, e.rank[v], e.next) * Actives(st) == if st[v] == Active then {v} else {};
    hide Grown, Finished, HangsUnder, RanksOK;
    assert forall y :: 0 <= y < |g| ==> e.rank[y] <= e.rank[v];
    assert Reached(g, st, e, v);
    assert g[v][..0] == [];
    assert LowSoFar(g, st, e, v, 0, e.rank[v]);
  }

  lemma EnteredRanks(g: Graph, st: seq<NodeState>, d: Dfs, v: nat, parent: int, cluster: int)
    requires |g| == |st| && RanksOK(d, |g|) && v < |g| && d.rank[v] < 0 && st[v] != Inactive
    requires -1 <= parent < |g| && (parent >= 0 ==> d.rank[parent] >= 0)
    ensures var e := Entered(d, v, parent, cluster);
            && Grown(d, e, |g|) && Placed(g, st, e, v) && Sized(e, |g|) && e.rank[v] + 1 == e.next
            && forall y :: 0 <= y < |g| ==> e.rank[y] <= e.rank[v] && (y != v ==> e.rank[y] < e.rank[v])
  {
  }

  // Low, count and end of v do not matter to the vertices below it.
  lemma LeftKeeps(g: Graph, st: seq<NodeState>, d: Dfs, v: nat, low: int, count: int, x: nat)
    requires Placed(g, st, d, v) && x < |g| && d.rank[x] > d.rank[v] && Finished(g, st, d, x)
    ensures Finished(g, st, Left(d, v, low, count), x)
  {
    hide Finished, EdgesOK, TreeOK, LowOK, Agrees;
    FinishedTree(g, st, d, x);
    LeftAgrees(g, st, d, v, low, count, x);
    FinishedKept(g, st, d, Left(d, v, low, count), x);
  }

  lemma LeftAgrees(g: Graph, st: seq<NodeState>, d: Dfs, v: nat, low: int, count: int, x: nat)
    requires Placed(g, st, d, v) && x < |g| && d.rank[x] > d.rank[v] && d.rank[x] < d.end[x] <= d.next
    ensures Agrees(g, d, Left(d, v, low, count), x)
  {
  }

  lemma LeftTree(g: Graph, st: seq<NodeState>, d: Dfs, v: nat, low: int, count: int)
    requires Placed(g, st, d, v) && Reached(g, st, d, v)
    ensures TreeOK(g, Left(d, v, low, count), v)
  {
    var e := Left(d, v, low, count);
    forall y | 0 <= y < |g| && Within(e, v, y) ensures e.end[y] <= e.end[v] && (y != v ==> Hangs(g, e, v, y)) {
      if y != v {
        assert d.rank[y] > d.rank[v] && HangsUnder(g, d, v, y);
        FinishedTree(g, st, d, y);
      }
    }
  }

  lemma LeftEdges(g: Graph, st: seq<NodeState>, d: Dfs, v: nat, low: int, count: int, z: nat, y: nat)
    requires v < |g| && Exploring(g, st, d, v, |g[v]|, low, count)
    ensures var e := Left(d, v, low, count);
            EdgeOf(g, st, e, v, z, y) ==> PartEdge(g, st, d, v, |g[v]|, z, y) && 0 <= d.rank[y] < e.end[z]
    ensures PartEdge(g, st, d, v, |g[v]|, z, y) ==> EdgeOf(g, st, Left(d, v, low, count), v, z, y)
  {
    var e := Left(d, v, low, count);
    assert g[v][..|g[v]|] == g[v];
    if EdgeOf(g, st, e, v, z, y) && z != v {
      FinishedTree(g, st, d, z);
      assert EdgeOf(g, st, d, z, z, y);
    }
  }

  lemma LeftFinished(g: Graph, st: seq<NodeState>, d: Dfs, v: nat, low: int, count: int)
    requires v < |g| && Exploring(g, st, d, v, |g[v]|, low, count)
    ensures Finished(g, st, Left(d, v, low, count), v)
  {
    var e := Left(d, v, low, count);
    LeftTree(g, st, d, v, low, count);
    LeftLow(g, st, d, v, low, count);
    assert Sub(e, v) == Span(d, d.rank[v], d.next);
    hide EdgesOK, LowOK, TreeOK, Reached, Actives, SeenSoFar, LowSoFar, Span;
  }

  lemma LeftLow(g: Graph, st: seq<NodeState>, d: Dfs, v: nat, low: int, count: int)
    requires v < |g| && Exploring(g, st, d, v, |g[v]|, low, count)
    ensures EdgesOK(g, st, Left(d, v, low, count), v) && LowOK(g, st, Left(d, v, low, count), v)
  {
    LeftEquiv(g, st, d, v, low, count);
    hide EdgeOf, PartEdge, Reached, Actives, SeenSoFar, RanksOK, LowSoFar, Span;
    LowTransfers(g, st, d, v, low, count);
  }

  lemma LeftEquiv(g: Graph, st: seq<NodeState>, d: Dfs, v: nat, low: int, count: int)
    requires v < |g| && Exploring(g, st, d, v, |g[v]|, low, count)
    ensures var e := Left(d, v, low, count);
            && EdgesOK(g, st, e, v)
            && forall z: nat, y: nat :: EdgeOf(g, st, e, v, z, y) <==> PartEdge(g, st, d, v, |g[v]|, z, y)
  {
    var e := Left(d, v, low, count);
    assert Sized(e, |g|);
    hide Exploring, EdgeOf, PartEdge;
    forall z: nat, y: nat
      ensures EdgeOf(g, st, e, v, z, y) ==> 0 <= e.rank[y] < e.end[z]
      ensures EdgeOf(g, st, e, v, z, y) <==> PartEdge(g, st, d, v, |g[v]|, z, y)
    {
      LeftEdges(g, st, d, v, low, count, z, y);
    }
  }

  lemma LowTransfers(g: Graph, st: seq<NodeState>, d: Dfs, v: nat, low: int, count: int)
    requires |g| == |st| && Sized(d, |g|) && v < |g| && LowSoFar(g, st, d, v, |g[v]|, low)
    requires forall z: nat, y: nat ::
               EdgeOf(g, st, Left(d, v, low, count), v, z, y) <==> PartEdge(g, st, d, v, |g[v]|, z, y)
    ensures LowOK(g, st, Left(d, v, low, count), v)
  {
    hide EdgeOf, PartEdge;
    var e := Left(d, v, low, count);
    if low != d.rank[v] {
      var z: nat, y: nat :| PartEdge(g, st, d, v, |g[v]|, z, y) && d.rank[y] == low;
      assert EdgeOf(g, st, e, v, z, y) && e.rank[y] == e.low[v];
    }
  }

  // buildTree(v) has done its work.
  lemma ExploreEnd(g: Graph, st: seq<NodeState>, c: Dfs, d: Dfs, v: nat, low: int, count: int, parent: int,
                   cluster: int)
    requires |g| == |st| && RanksOK(c, |g|) && v < |g| && c.rank[v] < 0
    requires Exploring(g, st, d, v, |g[v]|, low, count)
    requires Grown(c, d, |g|) && d.rank[v] == c.next && d.parent[v] == parent
    requires forall y :: 0 <= y < |g| && c.next <= d.rank[y] ==> d.cluster[y] == cluster
    ensures Built(g, st, c, Left(d, v, low, count), v, parent, cluster)
  {
    var e := Left(d, v, low, count);
    LeftFinished(g, st, d, v, low, count);
    ExploringIs(g, st, d, v, low, count);
    hide Finished, Reached, RanksOK, Exploring, Grown, Placed;
    LeftGrown(g, c, d, v, low, count);
    LeftRest(g, st, d, v, low, count);
    assert Sized(d, |g|);
    assert AllFinished(g, st, e, c.next);
  }

  lemma ExploringIs(g: Graph, st: seq<NodeState>, d: Dfs, v: nat, low: int, count: int)
    requires v < |g| && Exploring(g, st, d, v, |g[v]|, low, count)
    ensures Placed(g, st, d, v) && Reached(g, st, d, v) && Sized(d, |g|) && 0 <= d.rank[v] < d.next
    ensures forall x :: 0 <= x < |g| && d.rank[x] == d.rank[v] ==> x == v
  {
    hide Finished, LowSoFar, SeenSoFar, Span, Reached;
  }

  lemma LeftRest(g: Graph, st: seq<NodeState>, d: Dfs, v: nat, low: int, count: int)
    requires Placed(g, st, d, v) && Reached(g, st, d, v)
    ensures AllFinished(g, st, Left(d, v, low, count), d.rank[v] + 1)
  {
    assert Sized(d, |g|);
    hide Finished, Reached, RanksOK;
    forall x | 0 <= x < |g| && d.rank[v] + 1 <= d.rank[x] ensures Finished(g, st, Left(d, v, low, count), x) {
      ReachedAt(g, st, d, v, x);
      LeftKeeps(g, st, d, v, low, count, x);
    }
  }

  lemma LeftGrown(g: Graph, c: Dfs, d: Dfs, v: nat, low: int, count: int)
    requires v < |g| && Grown(c, d, |g|) && c.rank[v] < 0
    ensures Grown(c, Left(d, v, low, count), |g|)
  {
  }
}
