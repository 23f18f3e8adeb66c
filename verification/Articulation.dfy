// What the numbers of a complete depth-first search say: the clusters are the
// connected components, and comparing the lowlink of a child with the rank of its
// parent tells whether the subtree of the child stays attached without the parent.
module Articulation {
  import opened Logic
  import opened Connectivity
  import opened DepthFirst

  // ------------------------------------------------------------ the clusters

  // Everything visited so far belongs to a completed tree.
  ghost predicate InTree(g: Graph, d: Dfs, x: nat)
    requires Sized(d, |g|) && x < |g|
  {
    && 0 <= d.cluster[x] < |g| && d.cluster[d.cluster[x]] == d.cluster[x]
    && 0 <= d.rank[d.cluster[x]] && Within(d, d.cluster[x], x)
  }

  ghost predicate Roots(g: Graph, d: Dfs)
    requires Sized(d, |g|)
  {
    forall x, y :: 0 <= x < |g| && 0 <= y < |g| && d.rank[x] >= 0 && d.cluster[x] == x && 0 <= d.rank[y] < d.rank[x] ==>
      d.end[y] <= d.rank[x]
  }

  ghost predicate TreesBuilt(g: Graph, st: seq<NodeState>, d: Dfs) {
    && |g| == |st| && RanksOK(d, |g|) && AllFinished(g, st, d, 0)
    && (forall x :: 0 <= x < |g| && d.rank[x] >= 0 ==> InTree(g, d, x))
    && Roots(g, d)
  }

  // Every vertex that is not inactive has been visited.
  ghost predicate Complete(g: Graph, st: seq<NodeState>, d: Dfs) {
    TreesBuilt(g, st, d) && forall x :: 0 <= x < |g| ==> (st[x] != Inactive <==> d.rank[x] >= 0)
  }

  lemma NewTree(g: Graph, st: seq<NodeState>, c: Dfs, d: Dfs, i: nat)
    requires TreesBuilt(g, st, c) && Built(g, st, c, d, i, -1, i)
    ensures TreesBuilt(g, st, d)
  {
    hide AllFinished, Finished;
    BuiltFacts(g, st, c, d, i, -1, i);
    AllKept(g, st, c, d, 0);
    forall x | 0 <= x < |g| && d.rank[x] >= 0 ensures InTree(g, d, x) {
      if c.rank[x] >= 0 {
        assert InTree(g, c, x);
        GrownAt(c, d, |g|, x);
        GrownAt(c, d, |g|, c.cluster[x]);
      }
    }
    NewRoots(g, st, c, d, i);
  }

  lemma NewRoots(g: Graph, st: seq<NodeState>, c: Dfs, d: Dfs, i: nat)
    requires TreesBuilt(g, st, c) && Built(g, st, c, d, i, -1, i)
    ensures Roots(g, d)
  {
    hide InTree;
    BuiltFacts(g, st, c, d, i, -1, i);
    forall x, y
      | 0 <= x < |g| && 0 <= y < |g| && d.rank[x] >= 0 && d.cluster[x] == x && 0 <= d.rank[y] < d.rank[x]
      ensures d.end[y] <= d.rank[x]
    {
      if c.rank[x] >= 0 {
        GrownAt(c, d, |g|, x);
        GrownAt(c, d, |g|, y);
      } else {
        assert x == i;
        GrownAt(c, d, |g|, y);
        FinishedTree(g, st, c, y);
      }
    }
  }

  // An edge from the subtree of a vertex leads to a vertex already visited.
  lemma EdgeFrom(g: Graph, st: seq<NodeState>, d: Dfs, z: nat, y: nat)
    requires |g| == |st| && Sized(d, |g|) && z < |g| && y < |g| && Finished(g, st, d, z)
    requires y in g[z] && st[y] != Inactive
    ensures 0 <= d.rank[y] < d.end[z]
  {
    FinishedTree(g, st, d, z);
    assert EdgeOf(g, st, d, z, z, y);
  }

  lemma DoneIn(g: Graph, st: seq<NodeState>, d: Dfs, x: nat)
    requires TreesBuilt(g, st, d) && x < |g| && d.rank[x] >= 0
    ensures Sized(d, |g|) && Finished(g, st, d, x) && InTree(g, d, x) && st[x] != Inactive
    ensures d.rank[x] < d.end[x]
  {
    hide Finished, InTree;
    assert Finished(g, st, d, x);
    FinishedTree(g, st, d, x);
  }

  lemma DoneAt(g: Graph, st: seq<NodeState>, d: Dfs, x: nat)
    requires Complete(g, st, d) && x < |g| && d.rank[x] >= 0
    ensures Sized(d, |g|) && Finished(g, st, d, x) && InTree(g, d, x) && st[x] != Inactive
    ensures d.rank[x] < d.end[x]
  {
    hide Finished, InTree, TreesBuilt;
    DoneIn(g, st, d, x);
  }

  // Within a subtree everything is linked to its root.
  lemma {:induction false} SubLinked(g: Graph, st: seq<NodeState>, d: Dfs, s: set<nat>, x: nat, y: nat)
    requires Complete(g, st, d) && x < |g| && y < |g| && d.rank[x] >= 0 && Within(d, x, y) && Sub(d, x) <= s
    ensures Linked(g, s, x, y)
    decreases d.rank[y]
  {
    DoneAt(g, st, d, x);
    FinishedTree(g, st, d, x);
    hide Complete, Finished, EdgesOK, LowOK, Linked, Closed;
    assert Within(d, x, x) && x in Sub(d, x) && y in Sub(d, x);
    if y == x {
      LinkedSelf(g, s, x);
    } else {
      assert Hangs(g, d, x, y);
      var p := d.parent[y];
      assert p in Sub(d, x);
      SubLinked(g, st, d, s, x, p);
      LinkedEdge(g, s, p, y);
      LinkedTrans(g, s, x, p, y);
    }
  }

  // Subtrees are nested or apart.
  lemma Nested(g: Graph, st: seq<NodeState>, d: Dfs, x: nat, y: nat)
    requires Complete(g, st, d) && x < |g| && y < |g| && d.rank[x] >= 0 && Within(d, x, y)
    ensures d.end[y] <= d.end[x] && (y != x ==> Hangs(g, d, x, y)) && Sub(d, y) <= Sub(d, x)
  {
    DoneAt(g, st, d, x);
    FinishedTree(g, st, d, x);
    hide Complete, Finished, EdgesOK, LowOK;
  }

  lemma RootEdge(g: Graph, st: seq<NodeState>, d: Dfs, r: nat, z: nat, y: nat)
    requires GraphOK(g) && Complete(g, st, d) && r < |g| && d.rank[r] >= 0 && d.cluster[r] == r
    requires z < |g| && y < |g| && Within(d, r, z) && y in g[z] && st[y] != Inactive
    ensures Within(d, r, y)
  {
    hide Finished, InTree, TreesBuilt;
    RootEdgeIn(g, st, d, r, z, y);
  }

  lemma RootEdgeIn(g: Graph, st: seq<NodeState>, d: Dfs, r: nat, z: nat, y: nat)
    requires GraphOK(g) && TreesBuilt(g, st, d) && r < |g| && d.rank[r] >= 0 && d.cluster[r] == r
    requires z < |g| && y < |g| && Within(d, r, z) && y in g[z] && st[y] != Inactive
    ensures Within(d, r, y)
  {
    hide Finished, InTree;
    DoneIn(g, st, d, z);
    EdgeFrom(g, st, d, z, y);
    DoneIn(g, st, d, r);
    FinishedTree(g, st, d, r);
    DoneIn(g, st, d, y);
    EdgeFrom(g, st, d, y, z);
  }

  // The tree of a root is closed, so it is a whole component.
  lemma RootClosed(g: Graph, st: seq<NodeState>, d: Dfs, r: nat)
    requires GraphOK(g) && Complete(g, st, d) && r < |g| && d.rank[r] >= 0 && d.cluster[r] == r
    ensures Closed(g, Possible(st), Sub(d, r))
  {
    hide TreesBuilt;
    RootClosedIn(g, st, d, r);
  }

  lemma RootClosedIn(g: Graph, st: seq<NodeState>, d: Dfs, r: nat)
    requires GraphOK(g) && TreesBuilt(g, st, d) && r < |g| && d.rank[r] >= 0 && d.cluster[r] == r
    ensures Closed(g, Possible(st), Sub(d, r))
  {
    assert |g| == |st| && Sized(d, |g|);
    hide TreesBuilt, GraphOK;
    forall z, y | z in Sub(d, r) && z in Possible(st) && y in Possible(st) && z < |g| && y in g[z]
      ensures y in Sub(d, r)
    {
      RootEdgeIn(g, st, d, r, z, y);
    }
  }

  // Two vertices are in one cluster exactly if they are linked.
  lemma ClusterIsComponent(g: Graph, st: seq<NodeState>, d: Dfs, x: nat, y: nat)
    requires GraphOK(g) && Complete(g, st, d) && x < |g| && y < |g| && st[x] != Inactive && st[y] != Inactive
    ensures Sized(d, |g|)
    ensures Linked(g, Possible(st), x, y) <==> d.cluster[x] == d.cluster[y]
  {
    DoneAt(g, st, d, x);
    DoneAt(g, st, d, y);
    var r, p := d.cluster[x], Possible(st);
    assert Sub(d, r) <= p by { SubPossible(g, st, d, r); }
    RootClosed(g, st, d, r);
    if d.cluster[y] == r {
      SubLinked(g, st, d, p, r, x);
      SubLinked(g, st, d, p, r, y);
      LinkedSym(g, p, r, x);
      LinkedTrans(g, p, x, r, y);
    } else {
      TreesApart(g, st, d, x, y);
      Separated(g, p, Sub(d, r), x, y);
    }
  }

  lemma SubPossible(g: Graph, st: seq<NodeState>, d: Dfs, x: nat)
    requires Complete(g, st, d) && x < |g| && d.rank[x] >= 0
    ensures Sized(d, |g|) && Sub(d, x) <= Possible(st)
  {
    hide Finished, InTree;
  }

  lemma TreesApart(g: Graph, st: seq<NodeState>, d: Dfs, x: nat, y: nat)
    requires Complete(g, st, d) && x < |g| && y < |g| && d.rank[x] >= 0 && d.rank[y] >= 0
    requires d.cluster[x] != d.cluster[y]
    ensures 0 <= d.cluster[x] < |g| && y !in Sub(d, d.cluster[x])
  {
    hide TreesBuilt;
    TreesApartIn(g, st, d, x, y);
  }

  lemma TreesApartIn(g: Graph, st: seq<NodeState>, d: Dfs, x: nat, y: nat)
    requires TreesBuilt(g, st, d) && x < |g| && y < |g| && d.rank[x] >= 0 && d.rank[y] >= 0
    requires d.cluster[x] != d.cluster[y]
    ensures 0 <= d.cluster[x] < |g| && y !in Sub(d, d.cluster[x])
  {
    DoneIn(g, st, d, x);
    DoneIn(g, st, d, y);
    var r, q := d.cluster[x], d.cluster[y];
    hide Finished, InTree, AllFinished;
    assert d.rank[q] != d.rank[r];
    if d.rank[q] < d.rank[r] {
      assert d.end[q] <= d.rank[r];
    } else {
      assert d.end[r] <= d.rank[q];
    }
  }

  // Two trees with active vertices: these are not linked.
  lemma TwoTrees(g: Graph, st: seq<NodeState>, d: Dfs, u: nat, w: nat)
    requires GraphOK(g) && TreesBuilt(g, st, d) && u in Actives(st) && w in Actives(st)
    requires u < |g| && w < |g| && d.rank[u] >= 0 && d.rank[w] >= 0 && d.cluster[u] != d.cluster[w]
    ensures !AllLinked(g, Possible(st), Actives(st))
  {
    hide TreesBuilt, Closed, Linked;
    DoneIn(g, st, d, u);
    RootClosedIn(g, st, d, d.cluster[u]);
    TreesApartIn(g, st, d, u, w);
    Separated(g, Possible(st), Sub(d, d.cluster[u]), u, w);
  }

  // All active vertices in one tree: these are linked.
  lemma OneTree(g: Graph, st: seq<NodeState>, d: Dfs, r: int)
    requires GraphOK(g) && Complete(g, st, d) && forall u :: u in Actives(st) ==> u < |d.cluster| && d.cluster[u] == r
    ensures AllLinked(g, Possible(st), Actives(st))
  {
    assert |g| == |st| && Sized(d, |g|);
    hide Complete, Linked, GraphOK;
    forall u, w | u in Actives(st) && w in Actives(st) ensures Linked(g, Possible(st), u, w) {
      ClusterIsComponent(g, st, d, u, w);
    }
  }

  // ------------------------------------------------------ children and lowlinks

  ghost predicate Child(g: Graph, d: Dfs, v: nat, w: nat)
    requires Sized(d, |g|) && v < |g|
  {
    w < |g| && w in g[v] && d.rank[v] < d.rank[w] && d.parent[w] == v
  }

  // The test of the source.
  ghost predicate Joins(d: Dfs, v: nat, w: nat)
    requires v < |d.rank| && w < |d.low|
  {
    d.low[w] < d.rank[v]
  }

  lemma ChildWithin(g: Graph, st: seq<NodeState>, d: Dfs, v: nat, w: nat)
    requires Complete(g, st, d) && v < |g| && d.rank[v] >= 0 && Child(g, d, v, w)
    ensures Within(d, v, w) && Sub(d, w) <= Sub(d, v) && v !in Sub(d, w) && w in Sub(d, w)
  {
    DoneAt(g, st, d, v);
    DoneAt(g, st, d, w);
    EdgeFrom(g, st, d, v, w);
    Nested(g, st, d, v, w);
  }

  // The lowlink of a child is below its parent's rank exactly if an edge leads
  // from its subtree to a vertex visited before the parent.
  lemma LowTest(g: Graph, st: seq<NodeState>, d: Dfs, v: nat, w: nat)
    requires Complete(g, st, d) && v < |g| && d.rank[v] >= 0 && Child(g, d, v, w)
    ensures Joins(d, v, w) <==> exists z: nat, y: nat :: EdgeOf(g, st, d, w, z, y) && d.rank[y] < d.rank[v]
  {
    DoneAt(g, st, d, w);
    FinishedTree(g, st, d, w);
    hide Complete, Finished, EdgesOK;
    if z: nat, y: nat :| EdgeOf(g, st, d, w, z, y) && d.rank[y] < d.rank[v] {
      assert z == w || Hangs(g, d, w, z);
      assert y != d.parent[z];
    }
  }

  lemma SeparateClosed(g: Graph, st: seq<NodeState>, d: Dfs, v: nat, w: nat)
    requires GraphOK(g) && Complete(g, st, d) && v < |g| && d.rank[v] >= 0 && Child(g, d, v, w) && !Joins(d, v, w)
    ensures Closed(g, Possible(st) - {v}, Sub(d, w))
  {
    hide Finished, InTree, Linked, Joins;
    ChildWithin(g, st, d, v, w);
    LowTest(g, st, d, v, w);
    var s := Possible(st) - {v};
    forall z, y | z in Sub(d, w) && z in s && y in s && z < |g| && y in g[z] ensures y in Sub(d, w) {
      SeparateEdge(g, st, d, v, w, z, y);
    }
  }

  lemma SeparateEdge(g: Graph, st: seq<NodeState>, d: Dfs, v: nat, w: nat, z: nat, y: nat)
    requires GraphOK(g) && Complete(g, st, d) && v < |g| && d.rank[v] >= 0 && Child(g, d, v, w) && z < |g| && y < |g|
    requires !exists z: nat, y: nat :: EdgeOf(g, st, d, w, z, y) && d.rank[y] < d.rank[v]
    requires Within(d, w, z) && y in g[z] && st[y] != Inactive && y != v && Within(d, v, w)
    ensures Within(d, w, y)
  {
    assert EdgeOf(g, st, d, w, z, y);
    DoneAt(g, st, d, z);
    EdgeFrom(g, st, d, z, y);
    Nested(g, st, d, w, z);
    DoneAt(g, st, d, y);
    EdgeFrom(g, st, d, y, z);
    assert d.rank[y] != d.rank[v];
    if d.rank[y] < d.rank[w] {
      assert Within(d, y, w);
      Nested(g, st, d, y, w);
      assert false;
    }
  }

  // Every vertex below v is below one of its children.
  lemma {:induction false} ChildAbove(g: Graph, st: seq<NodeState>, d: Dfs, v: nat, y: nat) returns (w: nat)
    requires Complete(g, st, d) && v < |g| && y < |g| && d.rank[v] >= 0 && Within(d, v, y) && y != v
    ensures Child(g, d, v, w) && Within(d, w, y)
    decreases d.rank[y]
  {
    Nested(g, st, d, v, y);
    var p := d.parent[y];
    DoneAt(g, st, d, y);
    if p == v {
      w := y;
    } else {
      w := ChildAbove(g, st, d, v, p);
      DoneAt(g, st, d, w);
      Nested(g, st, d, w, p);
    }
  }

  lemma ChildrenApart(g: Graph, st: seq<NodeState>, d: Dfs, v: nat, w: nat, x: nat)
    requires Complete(g, st, d) && v < |g| && d.rank[v] >= 0 && Child(g, d, v, w) && Child(g, d, v, x) && w != x
    ensures Sub(d, w) !! Sub(d, x)
  {
    ApartOrdered(g, st, d, v, w, x);
    ApartOrdered(g, st, d, v, x, w);
    assert d.rank[w] != d.rank[x];
    hide Complete;
  }

  lemma ApartOrdered(g: Graph, st: seq<NodeState>, d: Dfs, v: nat, w: nat, x: nat)
    requires Complete(g, st, d) && v < |g| && d.rank[v] >= 0 && Child(g, d, v, w) && Child(g, d, v, x)
    ensures d.rank[w] < d.rank[x] ==> d.end[w] <= d.rank[x]
  {
    if d.rank[w] < d.rank[x] < d.end[w] {
      DoneAt(g, st, d, w);
      Nested(g, st, d, w, x);
      assert false;
    }
  }

  // ------------------------------------------------------- the parent's side

  // Without v, what is not below v stays linked to the root.
  lemma {:induction false} AboveLinked(g: Graph, st: seq<NodeState>, d: Dfs, r: nat, v: nat, x: nat)
    requires Complete(g, st, d) && r < |g| && v < |g| && x < |g| && d.rank[r] >= 0 && Within(d, r, v) && Within(d, r, x)
    requires v != r && !Within(d, v, x)
    ensures Linked(g, Possible(st) - {v}, r, x)
    decreases d.rank[x]
  {
    var s := Possible(st) - {v};
    if x == r {
      AboveIn(g, st, d, r, v, r);
      LinkedSelf(g, s, r);
    } else {
      AboveParent(g, st, d, r, v, x);
      var p := d.parent[x];
      AboveLinked(g, st, d, r, v, p);
      AboveIn(g, st, d, r, v, p);
      AboveIn(g, st, d, r, v, x);
      hide Complete, Linked;
      LinkedEdge(g, s, p, x);
      LinkedTrans(g, s, r, p, x);
    }
  }

  lemma AboveIn(g: Graph, st: seq<NodeState>, d: Dfs, r: nat, v: nat, x: nat)
    requires Complete(g, st, d) && r < |g| && v < |g| && x < |g| && d.rank[r] >= 0 && Within(d, r, v) && Within(d, r, x)
    requires !Within(d, v, x)
    ensures x in Possible(st) - {v}
  {
    hide Finished, InTree, Roots;
    DoneAt(g, st, d, v);
  }

  lemma AboveParent(g: Graph, st: seq<NodeState>, d: Dfs, r: nat, v: nat, x: nat)
    requires Complete(g, st, d) && r < |g| && v < |g| && x < |g| && d.rank[r] >= 0 && Within(d, r, v) && Within(d, r, x)
    requires v != r && !Within(d, v, x) && x != r
    ensures var p := d.parent[x];
            0 <= p < |g| && x in g[p] && Within(d, r, p) && !Within(d, v, p) && 0 <= d.rank[p] < d.rank[x]
  {
    Nested(g, st, d, r, x);
    Nested(g, st, d, r, v);
    var p := d.parent[x];
    hide Complete, Sub;
    if Within(d, v, p) {
      Nested(g, st, d, v, p);
      assert false;
    }
  }

  // So does the subtree of a child that joins.
  lemma JoinedLinked(g: Graph, st: seq<NodeState>, d: Dfs, r: nat, v: nat, w: nat, x: nat)
    requires GraphOK(g) && Complete(g, st, d) && r < |g| && v < |g| && x < |g| && d.rank[r] >= 0 && d.cluster[r] == r
    requires Within(d, r, v) && v != r && Child(g, d, v, w) && Joins(d, v, w) && Within(d, w, x)
    ensures Linked(g, Possible(st) - {v}, r, x)
  {
    var s := Possible(st) - {v};
    var z, y := JoiningEdge(g, st, d, r, v, w);
    AboveLinked(g, st, d, r, v, y);
    AboveIn(g, st, d, r, v, y);
    ChildIn(g, st, d, r, v, w);
    hide Complete, Linked, Closed;
    assert z in Sub(d, w);
    SubLinkedBack(g, st, d, s, w, z);
    SubLinked(g, st, d, s, w, x);
    LinkedEdge(g, s, y, z);
    LinkedTrans(g, s, r, y, z);
    LinkedTrans(g, s, r, z, w);
    LinkedTrans(g, s, r, w, x);
  }

  lemma ChildIn(g: Graph, st: seq<NodeState>, d: Dfs, r: nat, v: nat, w: nat)
    requires Complete(g, st, d) && v < |g| && d.rank[v] >= 0 && Child(g, d, v, w)
    ensures d.rank[w] >= 0 && Sub(d, w) <= Possible(st) - {v}
  {
    ChildWithin(g, st, d, v, w);
    SubPossible(g, st, d, w);
  }

  lemma JoiningEdge(g: Graph, st: seq<NodeState>, d: Dfs, r: nat, v: nat, w: nat) returns (z: nat, y: nat)
    requires GraphOK(g) && Complete(g, st, d) && r < |g| && v < |g| && d.rank[r] >= 0 && d.cluster[r] == r
    requires Within(d, r, v) && v != r && Child(g, d, v, w) && Joins(d, v, w)
    ensures z < |g| && y < |g| && Within(d, w, z) && z in g[y] && Within(d, r, y) && !Within(d, v, y)
  {
    LowTest(g, st, d, v, w);
    z, y :| EdgeOf(g, st, d, w, z, y) && d.rank[y] < d.rank[v];
    ChildWithin(g, st, d, v, w);
    Nested(g, st, d, r, v);
    SubMember(d, w, v, z);
    SubMember(d, v, r, z);
    hide Complete, Sub;
    RootEdge(g, st, d, r, z, y);
  }

  lemma SubMember(d: Dfs, w: nat, v: nat, z: nat)
    requires w < |d.rank| && v < |d.rank| && z < |d.rank| == |d.end| && Sub(d, w) <= Sub(d, v) && Within(d, w, z)
    ensures Within(d, v, z)
  {
    assert z in Sub(d, w);
  }

  lemma SubLinkedBack(g: Graph, st: seq<NodeState>, d: Dfs, s: set<nat>, x: nat, y: nat)
    requires GraphOK(g) && Complete(g, st, d) && x < |g| && y < |g| && d.rank[x] >= 0 && Within(d, x, y)
    requires Sub(d, x) <= s && forall v :: v in s ==> v < |g|
    ensures Linked(g, s, y, x)
  {
    SubLinked(g, st, d, s, x, y);
    LinkedSym(g, s, x, y);
  }

  // No child of a root joins.
  lemma RootChildren(g: Graph, st: seq<NodeState>, d: Dfs, r: nat, w: nat)
    requires GraphOK(g) && Complete(g, st, d) && r < |g| && d.rank[r] >= 0 && d.cluster[r] == r && Child(g, d, r, w)
    ensures !Joins(d, r, w)
  {
    LowTest(g, st, d, r, w);
    ChildWithin(g, st, d, r, w);
    hide Complete, Joins, Sub;
    forall z: nat, y: nat | EdgeOf(g, st, d, w, z, y) ensures d.rank[r] <= d.rank[y] {
      SubMember(d, w, r, z);
      RootEdge(g, st, d, r, z, y);
    }
  }

  // ------------------------------------------------ the pieces left without v

  // What is left on the parent's side after looking at i neighbours of v.
  ghost function Side(g: Graph, d: Dfs, r: nat, v: nat, i: nat): (s: set<nat>)
    requires Sized(d, |g|) && r < |g| && v < |g| && i <= |g[v]|
    ensures forall x :: x in s ==> x < |g|
  {
    if i == 0 then Sub(d, r) - Sub(d, v)
    else
      var w := g[v][i - 1];
      Side(g, d, r, v, i - 1) + if Child(g, d, v, w) && Joins(d, v, w) then Sub(d, w) else {}
  }

  // The children that are cut off and have active vertices below them.
  ghost function Alone(g: Graph, d: Dfs, v: nat, i: nat): (s: set<nat>)
    requires Sized(d, |g|) && v < |g| && i <= |g[v]|
    ensures forall x :: x in s ==> x < |g|
  {
    if i == 0 then {}
    else
      var w := g[v][i - 1];
      Alone(g, d, v, i - 1) + if Child(g, d, v, w) && !Joins(d, v, w) && d.count[w] > 0 then {w} else {}
  }

  lemma {:induction false} AloneMembers(g: Graph, d: Dfs, v: nat, i: nat, w: nat)
    requires Sized(d, |g|) && v < |g| && i <= |g[v]|
    ensures w in Alone(g, d, v, i) <==> w in g[v][..i] && Child(g, d, v, w) && !Joins(d, v, w) && d.count[w] > 0
  {
    if i > 0 {
      AloneMembers(g, d, v, i - 1, w);
      PrefixMember(g[v], i - 1, w);
    }
  }

  lemma {:induction false} SideMembers(g: Graph, d: Dfs, r: nat, v: nat, i: nat, x: nat)
    requires Sized(d, |g|) && r < |g| && v < |g| && i <= |g[v]| && x < |g|
    ensures x in Side(g, d, r, v, i) <==>
            || (Within(d, r, x) && !Within(d, v, x))
            || exists w :: w in g[v][..i] && Child(g, d, v, w) && Joins(d, v, w) && Within(d, w, x)
  {
    if i > 0 {
      SideMembers(g, d, r, v, i - 1, x);
      var u := g[v][i - 1];
      forall w ensures w in g[v][..i] <==> w in g[v][..i - 1] || w == u {
        PrefixMember(g[v], i - 1, w);
      }
      if Child(g, d, v, u) && Joins(d, v, u) && Within(d, u, x) {
        assert u in g[v][..i];
      }
    }
  }

  lemma ChildInRange(g: Graph, d: Dfs, v: nat, w: nat)
    requires Sized(d, |g|) && v < |g| && Child(g, d, v, w)
    ensures w < |g|
  {
  }

  lemma InSub(d: Dfs, w: nat, x: nat)
    requires w < |d.rank| == |d.end| && x < |d.rank|
    ensures x in Sub(d, w) <==> Within(d, w, x)
  {
  }

  lemma CountIs(g: Graph, st: seq<NodeState>, d: Dfs, x: nat)
    requires Complete(g, st, d) && x < |g| && d.rank[x] >= 0
    ensures Sized(d, |g|) && d.count[x] == |Sub(d, x) * Actives(st)|
  {
    DoneAt(g, st, d, x);
    FinishedTree(g, st, d, x);
  }

  lemma SetMinus(a: set<nat>, b: set<nat>)
    requires b <= a
    ensures |a - b| == |a| - |b|
  {
  }

  // The counter parent_side_count.  It counts a child that is listed twice twice,
  // but is positive exactly if there are active vertices on the parent's side.
  lemma SideStart(g: Graph, st: seq<NodeState>, d: Dfs, r: nat, v: nat)
    requires Sized(d, |g|) && r < |g| && v < |g| && Complete(g, st, d) && d.rank[r] >= 0 && Within(d, r, v)
    ensures 0 <= d.count[r] - d.count[v]
    ensures d.count[r] - d.count[v] > 0 <==> Side(g, d, r, v, 0) * Actives(st) != {}
  {
    hide Complete, Sub, Within, Actives;
    Nested(g, st, d, r, v);
    CountIs(g, st, d, r);
    CountIs(g, st, d, v);
    var a, b := Sub(d, r) * Actives(st), Sub(d, v) * Actives(st);
    assert Side(g, d, r, v, 0) * Actives(st) == a - b;
    SetMinus(a, b);
  }

  lemma SideStep(g: Graph, st: seq<NodeState>, d: Dfs, r: nat, v: nat, i: nat)
    requires Sized(d, |g|) && r < |g| && v < |g| && i < |g[v]|
    requires GraphOK(g) && Complete(g, st, d) && d.rank[v] >= 0
    ensures var w := g[v][i];
            && (Child(g, d, v, w) ==> d.count[w] >= 0)
            && (Side(g, d, r, v, i + 1) * Actives(st) != {} <==>
                 || Side(g, d, r, v, i) * Actives(st) != {}
                 || (Child(g, d, v, w) && Joins(d, v, w) && d.count[w] > 0))
  {
    hide Complete, Sub, GraphOK, Joins, Actives;
    var w := g[v][i];
    if Child(g, d, v, w) {
      CountIs(g, st, d, w);
      SideGrows(g, d, r, v, i);
      if Joins(d, v, w) {
        var a, b := Side(g, d, r, v, i), Sub(d, w);
        assert (a + b) * Actives(st) == a * Actives(st) + b * Actives(st);
      }
    }
  }

  // A child that is cut off and has active vertices below it, listed more than once.
  ghost predicate Doubled(g: Graph, d: Dfs, v: nat, i: nat)
    requires Sized(d, |g|) && v < |g| && i <= |g[v]|
  {
    exists x, y :: 0 <= x < y < i && g[v][x] == g[v][y] && CutChild(g, d, v, g[v][y])
  }

  ghost predicate CutChild(g: Graph, d: Dfs, v: nat, w: nat)
    requires Sized(d, |g|) && v < |g|
  {
    Child(g, d, v, w) && !Joins(d, v, w) && d.count[w] > 0
  }

  // The counter n_nonempty_subgraph: each listing counts.
  lemma AloneStep(g: Graph, d: Dfs, v: nat, i: nat, pieces: nat)
    requires Sized(d, |g|) && v < |g| && i < |g[v]|
    requires pieces >= |Alone(g, d, v, i)| && (pieces > |Alone(g, d, v, i)| <==> Doubled(g, d, v, i))
    ensures var more := if CutChild(g, d, v, g[v][i]) then pieces + 1 else pieces;
            && more >= |Alone(g, d, v, i + 1)|
            && (more > |Alone(g, d, v, i + 1)| <==> Doubled(g, d, v, i + 1))
  {
    hide Child, Joins, CutChild;
    var w := g[v][i];
    AloneIn(g, d, v, i, w);
    if CutChild(g, d, v, w) {
      if w in Alone(g, d, v, i) {
        var x :| 0 <= x < i && g[v][x] == w;
        assert Doubled(g, d, v, i + 1);
      } else {
        assert Doubled(g, d, v, i + 1) ==> Doubled(g, d, v, i);
      }
    } else {
      assert Doubled(g, d, v, i + 1) ==> Doubled(g, d, v, i);
    }
  }

  lemma AloneIn(g: Graph, d: Dfs, v: nat, i: nat, w: nat)
    requires Sized(d, |g|) && v < |g| && i < |g[v]| && w == g[v][i]
    ensures w in Alone(g, d, v, i) <==> CutChild(g, d, v, w) && exists x :: 0 <= x < i && g[v][x] == w
    ensures Alone(g, d, v, i + 1) == Alone(g, d, v, i) + if CutChild(g, d, v, w) then {w} else {}
  {
    AloneMembers(g, d, v, i, w);
    assert w in g[v][..i] <==> exists x :: 0 <= x < i && g[v][x] == w;
  }

  lemma AloneStart(g: Graph, d: Dfs, v: nat)
    requires Sized(d, |g|) && v < |g|
    ensures |Alone(g, d, v, 0)| == 0 && !Doubled(g, d, v, 0)
  {
  }

  // In a graph without parallel edges no child is listed twice.
  lemma NotDoubled(g: Graph, d: Dfs, v: nat)
    requires Sized(d, |g|) && v < |g| && Simple(g)
    ensures !Doubled(g, d, v, |g[v]|)
  {
    assert NoDup(g[v]);
  }

  lemma SideGrows(g: Graph, d: Dfs, r: nat, v: nat, i: nat)
    requires Sized(d, |g|) && r < |g| && v < |g| && i < |g[v]| && Child(g, d, v, g[v][i])
    ensures Side(g, d, r, v, i + 1) == Side(g, d, r, v, i) + if Joins(d, v, g[v][i]) then Sub(d, g[v][i]) else {}
  {
  }

  // v is undecided and every active vertex is in its tree.
  ghost predicate Judged(g: Graph, st: seq<NodeState>, d: Dfs, r: nat, v: nat) {
    && |g| == |st| && Sized(d, |g|) && r < |g| && v < |g|
    && GraphOK(g) && Complete(g, st, d) && d.rank[r] >= 0 && d.cluster[r] == r
    && Within(d, r, v) && d.rank[v] >= 0 && st[v] == Undecided
    && Actives(st) <= Sub(d, r)
  }

  lemma JudgedIs(g: Graph, st: seq<NodeState>, d: Dfs, r: nat, v: nat)
    requires Judged(g, st, d, r, v)
    ensures |g| == |st| && Sized(d, |g|) && r < |g| && v < |g| && GraphOK(g) && Complete(g, st, d)
    ensures d.rank[r] >= 0 && d.cluster[r] == r && Within(d, r, v) && d.rank[v] >= 0
    ensures forall u :: u in Actives(st) ==> u < |g| && Within(d, r, u) && u != v && u in Possible(st) - {v}
    ensures forall u :: u in Possible(st) - {v} ==> u < |g|
  {
    hide Complete, GraphOK;
  }

  // An active vertex is on the parent's side or below a child that is cut off.
  lemma Placement(g: Graph, st: seq<NodeState>, d: Dfs, r: nat, v: nat, u: nat)
    requires Sized(d, |g|) && r < |g| && v < |g| && u < |g|
    requires Judged(g, st, d, r, v) && u in Actives(st)
    ensures u in Side(g, d, r, v, |g[v]|) || exists w :: w in Alone(g, d, v, |g[v]|) && Within(d, w, u)
  {
    hide Judged, Complete, GraphOK, Sub;
    JudgedIs(g, st, d, r, v);
    SideMembers(g, d, r, v, |g[v]|, u);
    assert g[v][..|g[v]|] == g[v];
    if Within(d, v, u) {
      var w := ChildAbove(g, st, d, v, u);
      ChildInRange(g, d, v, w);
      AloneMembers(g, d, v, |g[v]|, w);
      hide Side, Alone;
      CountIs(g, st, d, w);
      InSub(d, w, u);
      assert u in Sub(d, w) * Actives(st);
      assert Joins(d, v, w) ==> u in Side(g, d, r, v, |g[v]|);
    }
  }

  lemma AloneIs(g: Graph, st: seq<NodeState>, d: Dfs, r: nat, v: nat, w: nat)
    requires Sized(d, |g|) && r < |g| && v < |g|
    requires Judged(g, st, d, r, v) && w in Alone(g, d, v, |g[v]|)
    ensures Child(g, d, v, w) && !Joins(d, v, w) && Sub(d, w) <= Possible(st) - {v} && d.rank[w] >= 0
    ensures exists u :: u in Sub(d, w) && u in Actives(st)
  {
    hide Judged, Complete, GraphOK, Sub;
    JudgedIs(g, st, d, r, v);
    AloneMembers(g, d, v, |g[v]|, w);
    ChildIn(g, st, d, r, v, w);
    CountIs(g, st, d, w);
    var u :| u in Sub(d, w) * Actives(st);
  }

  lemma SideLinked(g: Graph, st: seq<NodeState>, d: Dfs, r: nat, v: nat, x: nat)
    requires Sized(d, |g|) && r < |g| && v < |g|
    requires Judged(g, st, d, r, v) && x in Side(g, d, r, v, |g[v]|)
    ensures Linked(g, Possible(st) - {v}, r, x)
  {
    hide Judged, Complete, GraphOK, Sub, Linked, Joins, Actives, Possible;
    JudgedIs(g, st, d, r, v);
    SideMembers(g, d, r, v, |g[v]|, x);
    assert g[v][..|g[v]|] == g[v];
    hide Side;
    if Within(d, r, x) && !Within(d, v, x) {
      assert v != r;
      AboveLinked(g, st, d, r, v, x);
    } else {
      var w :| w in g[v] && Child(g, d, v, w) && Joins(d, v, w) && Within(d, w, x);
      ChildInRange(g, d, v, w);
      JoinedBelowRoot(g, st, d, r, v, w);
      JoinedLinked(g, st, d, r, v, w, x);
    }
  }

  lemma JoinedBelowRoot(g: Graph, st: seq<NodeState>, d: Dfs, r: nat, v: nat, w: nat)
    requires Sized(d, |g|) && r < |g| && v < |g| && Judged(g, st, d, r, v) && Child(g, d, v, w) && Joins(d, v, w)
    ensures v != r
  {
    hide Judged, Complete, GraphOK;
    JudgedIs(g, st, d, r, v);
    if v == r {
      RootChildren(g, st, d, r, w);
      assert false;
    }
  }

  // The active vertices fall apart without v exactly if two pieces have some:
  // children that are cut off, and the parent's side.
  lemma CutTest(g: Graph, st: seq<NodeState>, d: Dfs, r: nat, v: nat)
    requires Sized(d, |g|) && r < |g| && v < |g| && Judged(g, st, d, r, v)
    ensures var n := |g[v]|;
            |Alone(g, d, v, n)| + (if Side(g, d, r, v, n) * Actives(st) != {} then 1 else 0) >= 2 <==>
            !AllLinked(g, Possible(st) - {v}, Actives(st))
  {
    hide Judged, AllLinked, Side, Alone, Actives, Possible;
    var n := |g[v]|;
    var alone, side := Alone(g, d, v, n), Side(g, d, r, v, n) * Actives(st);
    if alone == {} {
      NoneAlone(g, st, d, r, v);
    } else {
      var w :| w in alone;
      if alone == {w} {
        if side != {} {
          var u :| u in side;
          CutSide(g, st, d, r, v, w, u);
        } else {
          OneAlone(g, st, d, r, v, w);
        }
      } else {
        var x := Another(alone, w);
        CutOff(g, st, d, r, v, w, x);
      }
    }
  }

  lemma Another(s: set<nat>, w: nat) returns (x: nat)
    requires w in s && s != {w}
    ensures x in s && x != w && |s| >= 2
  {
    x :| x in s && x != w;
    assert |s - {w}| >= 1;
  }

  lemma NoneAlone(g: Graph, st: seq<NodeState>, d: Dfs, r: nat, v: nat)
    requires Sized(d, |g|) && r < |g| && v < |g| && Judged(g, st, d, r, v) && Alone(g, d, v, |g[v]|) == {}
    ensures AllLinked(g, Possible(st) - {v}, Actives(st))
  {
    hide Judged, Complete, Linked, Side, Alone, Actives, Possible, GraphOK;
    JudgedIs(g, st, d, r, v);
    var s := Possible(st) - {v};
    forall u, w | u in Actives(st) && w in Actives(st) ensures Linked(g, s, u, w) {
      Placement(g, st, d, r, v, u);
      Placement(g, st, d, r, v, w);
      SideLinked(g, st, d, r, v, u);
      SideLinked(g, st, d, r, v, w);
      LinkedSym(g, s, r, u);
      LinkedTrans(g, s, u, r, w);
    }
  }

  lemma OneAlone(g: Graph, st: seq<NodeState>, d: Dfs, r: nat, v: nat, w: nat)
    requires Sized(d, |g|) && r < |g| && v < |g|
    requires Judged(g, st, d, r, v) && Alone(g, d, v, |g[v]|) == {w}
    requires Side(g, d, r, v, |g[v]|) * Actives(st) == {}
    ensures AllLinked(g, Possible(st) - {v}, Actives(st))
  {
    hide Judged, Complete, Linked, Side, Alone, Actives, Possible, GraphOK, Sub, Joins;
    JudgedIs(g, st, d, r, v);
    AloneIs(g, st, d, r, v, w);
    ChildInRange(g, d, v, w);
    var s := Possible(st) - {v};
    forall x, y | x in Actives(st) && y in Actives(st) ensures Linked(g, s, x, y) {
      Placement(g, st, d, r, v, x);
      Placement(g, st, d, r, v, y);
      SubLinkedBack(g, st, d, s, w, x);
      SubLinked(g, st, d, s, w, y);
      LinkedTrans(g, s, x, w, y);
    }
  }

  lemma CutOff(g: Graph, st: seq<NodeState>, d: Dfs, r: nat, v: nat, w: nat, x: nat)
    requires Sized(d, |g|) && r < |g| && v < |g|
    requires Judged(g, st, d, r, v) && w in Alone(g, d, v, |g[v]|) && x in Alone(g, d, v, |g[v]|) && w != x
    ensures !AllLinked(g, Possible(st) - {v}, Actives(st))
  {
    hide Judged, Complete, Alone, Sub, Closed, Linked, GraphOK, Actives, Possible;
    JudgedIs(g, st, d, r, v);
    AloneIs(g, st, d, r, v, w);
    AloneIs(g, st, d, r, v, x);
    ChildrenApart(g, st, d, v, w, x);
    SeparateClosed(g, st, d, v, w);
    var a :| a in Sub(d, w) && a in Actives(st);
    var b :| b in Sub(d, x) && b in Actives(st);
    Separated(g, Possible(st) - {v}, Sub(d, w), a, b);
  }

  lemma CutSide(g: Graph, st: seq<NodeState>, d: Dfs, r: nat, v: nat, w: nat, b: nat)
    requires Sized(d, |g|) && r < |g| && v < |g|
    requires Judged(g, st, d, r, v) && w in Alone(g, d, v, |g[v]|)
    requires b in Side(g, d, r, v, |g[v]|) && b in Actives(st)
    ensures !AllLinked(g, Possible(st) - {v}, Actives(st))
  {
    hide Judged, Complete, Alone, Sub, Closed, Linked, Side, GraphOK, Actives, Possible;
    JudgedIs(g, st, d, r, v);
    AloneIs(g, st, d, r, v, w);
    SeparateClosed(g, st, d, v, w);
    OffSide(g, st, d, r, v, w, b);
    var a :| a in Sub(d, w) && a in Actives(st);
    Separated(g, Possible(st) - {v}, Sub(d, w), a, b);
  }

  lemma OffSide(g: Graph, st: seq<NodeState>, d: Dfs, r: nat, v: nat, w: nat, b: nat)
    requires Sized(d, |g|) && r < |g| && v < |g|
    requires Judged(g, st, d, r, v) && Child(g, d, v, w) && !Joins(d, v, w) && b in Side(g, d, r, v, |g[v]|)
    ensures b !in Sub(d, w)
  {
    hide Judged, Complete, Sub, GraphOK, Actives, Possible, Joins;
    JudgedIs(g, st, d, r, v);
    ChildInRange(g, d, v, w);
    SideMembers(g, d, r, v, |g[v]|, b);
    ChildWithin(g, st, d, v, w);
    assert g[v][..|g[v]|] == g[v];
    InSub(d, w, b);
    hide Side;
    if Within(d, r, b) && !Within(d, v, b) {
      if Within(d, w, b) {
        SubMember(d, w, v, b);
        assert false;
      }
    } else {
      var x :| x in g[v] && Child(g, d, v, x) && Joins(d, v, x) && Within(d, x, b);
      ChildInRange(g, d, v, x);
      ChildrenApart(g, st, d, v, w, x);
      InSub(d, x, b);
    }
  }

  // The two pieces the test of the source finds are pieces, unless they are one
  // that is listed twice.
  lemma DoubledCuts(g: Graph, d: Dfs, v: nat)
    requires Sized(d, |g|) && v < |g| && Doubled(g, d, v, |g[v]|)
    ensures |Alone(g, d, v, |g[v]|)| >= 1
  {
    var x, y :| 0 <= x < y < |g[v]| && g[v][x] == g[v][y] && CutChild(g, d, v, g[v][y]);
    AloneMembers(g, d, v, |g[v]|, g[v][y]);
    assert g[v][y] in g[v][..|g[v]|];
    assert |Alone(g, d, v, |g[v]|) - {g[v][y]}| >= 0;
  }

  // The smallest case: two edges between 0 and 1 and one between 1 and 2, of which 1
  // and 2 are active.  The search from 0 makes 1 a child that is listed twice, so 0
  // is taken for a cut vertex, although 1 and 2 are connected without it.
  lemma ParallelForces()
    ensures var g, st, d := ParallelGraph(), [Undecided, Active, Active], ParallelSearch();
            && !Simple(g) && Judged(g, st, d, 0, 0)
            && Doubled(g, d, 0, |g[0]|) && AllLinked(g, Possible(st) - {0}, Actives(st))
  {
    hide Judged, Doubled, AllLinked;
    assert ParallelGraph()[0][0] == ParallelGraph()[0][1];
    ParallelJudged();
    ParallelDoubled();
    ParallelLinked();
  }

  lemma ParallelJudged()
    ensures Judged(ParallelGraph(), [Undecided, Active, Active], ParallelSearch(), 0, 0)
  {
    hide Finished, Within, Sub, InTree, Roots, RanksOK, GraphOK;
    var g, st, d := ParallelGraph(), [Undecided, Active, Active], ParallelSearch();
    ParallelWithin();
    ParallelOK();
    forall y | 0 <= y < 3 ensures Finished(g, st, d, y) {
      ParallelFinished(y);
    }
  }

  lemma ParallelOK()
    ensures GraphOK(ParallelGraph()) && RanksOK(ParallelSearch(), 3) && Roots(ParallelGraph(), ParallelSearch())
    ensures forall x :: 0 <= x < 3 ==> InTree(ParallelGraph(), ParallelSearch(), x)
  {
    hide GraphOK, InTree;
    ParallelAdjacent();
    ParallelInTree();
  }

  lemma ParallelAdjacent()
    ensures GraphOK(ParallelGraph())
  {
  }

  lemma ParallelInTree()
    ensures forall x :: 0 <= x < 3 ==> InTree(ParallelGraph(), ParallelSearch(), x)
  {
  }

  lemma ParallelDoubled()
    ensures var g := ParallelGraph(); Doubled(g, ParallelSearch(), 0, |g[0]|)
  {
    var g, d := ParallelGraph(), ParallelSearch();
    assert g[0][0] == g[0][1] && 1 in g[0] && CutChild(g, d, 0, g[0][1]);
  }

  lemma ParallelLinked()
    ensures var st := [Undecided, Active, Active]; AllLinked(ParallelGraph(), Possible(st) - {0}, Actives(st))
  {
    hide Linked;
    var g, st := ParallelGraph(), [Undecided, Active, Active];
    var s := Possible(st) - {0};
    assert 1 in s && 2 in s && s == {1, 2};
    ParallelOK();
    LinkedSelf(g, s, 1);
    LinkedSelf(g, s, 2);
    assert 2 in g[1];
    LinkedEdge(g, s, 1, 2);
    LinkedSym(g, s, 1, 2);
    assert Actives(st) == {1, 2};
  }

  function ParallelGraph(): Graph {
    [[1, 1], [0, 0, 2], [1]]
  }

  // What the search leaves.
  function ParallelSearch(): Dfs {
    Dfs([0, 1, 2], [0, 1, 2], [2, 2, 1], [0, 0, 0], [-1, 0, 1], [3, 3, 3], 3)
  }

  lemma ParallelWithin()
    ensures forall x, y :: 0 <= x < 3 && 0 <= y < 3 ==> (Within(ParallelSearch(), x, y) <==> x <= y)
    ensures Sub(ParallelSearch(), 0) == {0, 1, 2}
  {
  }

  lemma ParallelFinished(x: nat)
    requires x < 3
    ensures Finished(ParallelGraph(), [Undecided, Active, Active], ParallelSearch(), x)
  {
    hide Within, EdgesOK, TreeOK, LowOK, Sub, Actives;
    ParallelEdges(x);
    ParallelTree(x);
    ParallelLow(x);
    ParallelCount(x);
  }

  lemma ParallelEdges(x: nat)
    requires x < 3
    ensures EdgesOK(ParallelGraph(), [Undecided, Active, Active], ParallelSearch(), x)
  {
  }

  lemma ParallelTree(x: nat)
    requires x < 3
    ensures TreeOK(ParallelGraph(), ParallelSearch(), x)
  {
  }

  lemma ParallelLow(x: nat)
    requires x < 3
    ensures LowOK(ParallelGraph(), [Undecided, Active, Active], ParallelSearch(), x)
  {
  }

  lemma ParallelCount(x: nat)
    requires x < 3
    ensures ParallelSearch().count[x] == |Sub(ParallelSearch(), x) * Actives([Undecided, Active, Active])|
  {
    var d, act := ParallelSearch(), Actives([Undecided, Active, Active]);
    assert act == {1, 2};
    hide Actives;
    if x == 0 {
      assert Sub(d, 0) == {0, 1, 2} && Sub(d, 0) * act == {1, 2};
    } else if x == 1 {
      assert Sub(d, 1) == {1, 2} && Sub(d, 1) * act == {1, 2};
    } else {
      assert Sub(d, 2) == {2} && Sub(d, 2) * act == {2};
    }
  }
}
