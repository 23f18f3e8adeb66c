// The clusters of constraints/Graph.cc: the trees of the search, and what propagate
// reads off them.
module GraphClusters {
  import opened Logic
  import opened Connectivity
  import opened DepthFirst
  import opened Articulation
  import opened Graphs
  import opened GraphStates

  ghost predicate SearchedTo(g: Graph, st: seq<NodeState>, d: Dfs, i: nat) {
    && |g| == |st| && Sized(d, |g|)
    && (forall x :: 0 <= x < |g| && x < i && st[x] != Inactive ==> d.rank[x] >= 0)
  }

  // Of the trees so far at most tree r has active vertices; with no empty tree
  // there is no other.
  ghost predicate OneCluster(g: Graph, st: seq<NodeState>, d: Dfs, r: int, empties: int) {
    && |g| == |st| && Sized(d, |g|) && -1 <= r < |g|
    && (r >= 0 ==>
         d.rank[r] >= 0 && d.cluster[r] == r
         && exists u :: u in Actives(st) && d.rank[u] >= 0 && d.cluster[u] == r)
    && (forall u :: 0 <= u < |g| && st[u] == Active && d.rank[u] >= 0 ==> r >= 0 && d.cluster[u] == r)
    && (empties == 0 ==> forall x :: 0 <= x < |g| && d.rank[x] >= 0 ==> d.cluster[x] == r)
  }

  lemma SearchFacts(g: Graph, st: seq<NodeState>, d: Dfs)
    requires TreesBuilt(g, st, d)
    ensures |g| == |st| && Sized(d, |g|) && RanksOK(d, |g|)
  {
  }

  lemma NothingYet(g: Graph, st: seq<NodeState>)
    requires |g| == |st|
    ensures TreesBuilt(g, st, Unvisited(|g|)) && SearchedTo(g, st, Unvisited(|g|), 0)
    ensures OneCluster(g, st, Unvisited(|g|), -1, 0)
  {
  }

  lemma SearchSkips(g: Graph, st: seq<NodeState>, d: Dfs, i: nat)
    requires SearchedTo(g, st, d, i) && i < |g| && (st[i] == Inactive || d.rank[i] >= 0)
    ensures SearchedTo(g, st, d, i + 1)
  {
  }

  lemma SearchGrows(g: Graph, st: seq<NodeState>, c: Dfs, d: Dfs, i: nat)
    requires SearchedTo(g, st, c, i) && Built(g, st, c, d, i, -1, i)
    ensures SearchedTo(g, st, d, i + 1)
  {
    hide Built, AllFinished, Finished;
    BuiltFacts(g, st, c, d, i, -1, i);
    forall x | 0 <= x < |g| && x < i + 1 && st[x] != Inactive ensures d.rank[x] >= 0 {
      if x < i {
        GrownAt(c, d, |g|, x);
      }
    }
  }

  // The vertices of the new tree, and those from before.
  lemma TreeMembers(g: Graph, st: seq<NodeState>, c: Dfs, d: Dfs, i: nat, x: nat)
    requires Built(g, st, c, d, i, -1, i) && x < |g|
    ensures Sized(c, |g|) && Sized(d, |g|)
    ensures c.rank[x] >= 0 ==> d.rank[x] == c.rank[x] && d.cluster[x] == c.cluster[x]
    ensures c.rank[x] < 0 && d.rank[x] >= 0 ==> d.cluster[x] == i && Within(d, i, x)
    ensures Within(d, i, x) ==> c.rank[x] < 0
  {
    hide AllFinished, Finished;
    BuiltFacts(g, st, c, d, i, -1, i);
    if c.rank[x] >= 0 {
      GrownAt(c, d, |g|, x);
    }
  }

  lemma TreeCount(g: Graph, st: seq<NodeState>, c: Dfs, d: Dfs, i: nat)
    requires Built(g, st, c, d, i, -1, i)
    ensures Sized(d, |g|) && i < |g| && |g| == |st|
    ensures d.rank[i] >= 0 && d.cluster[i] == i
    ensures d.count[i] >= 1 ==> exists u :: u in Actives(st) && Within(d, i, u)
    ensures d.count[i] < 1 ==> forall u :: u in Actives(st) ==> !Within(d, i, u)
  {
    hide AllFinished, Finished, EdgesOK, LowOK, TreeOK, Grown, Later;
    BuiltFacts(g, st, c, d, i, -1, i);
    FinishedTree(g, st, d, i);
    if d.count[i] >= 1 {
      var u :| u in Sub(d, i) * Actives(st);
      InSub(d, i, u);
    } else {
      forall u | u in Actives(st) ensures !Within(d, i, u) {
        InSub(d, i, u);
        assert u !in Sub(d, i) * Actives(st);
      }
    }
  }

  lemma SecondCluster(g: Graph, st: seq<NodeState>, c: Dfs, d: Dfs, r: int, empties: int, i: nat)
    requires GraphOK(g) && TreesBuilt(g, st, d) && Built(g, st, c, d, i, -1, i) && OneCluster(g, st, c, r, empties)
    requires r >= 0 && i < |g| && Sized(d, |g|) && d.count[i] >= 1
    ensures !AllLinked(g, Possible(st), Actives(st))
  {
    TreeCount(g, st, c, d, i);
    var u :| u in Actives(st) && Within(d, i, u);
    var w :| w in Actives(st) && c.rank[w] >= 0 && c.cluster[w] == r;
    assert c.rank[r] >= 0;
    hide GraphOK, TreesBuilt, Built, AllLinked, OneCluster;
    TreeMembers(g, st, c, d, i, u);
    TreeMembers(g, st, c, d, i, w);
    TreeMembers(g, st, c, d, i, i);
    TwoTrees(g, st, d, u, w);
  }

  lemma FirstCluster(g: Graph, st: seq<NodeState>, c: Dfs, d: Dfs, empties: int, i: nat)
    requires Built(g, st, c, d, i, -1, i) && OneCluster(g, st, c, -1, empties) && TreesBuilt(g, st, c)
    requires i < |g| && Sized(d, |g|) && d.count[i] >= 1
    ensures OneCluster(g, st, d, i, empties)
  {
    hide Built, TreesBuilt;
    TreeCount(g, st, c, d, i);
    var u :| u in Actives(st) && Within(d, i, u);
    forall x | 0 <= x < |g| && d.rank[x] >= 0
      ensures st[x] == Active ==> d.cluster[x] == i
      ensures empties == 0 ==> d.cluster[x] == i
    {
      TreeMembers(g, st, c, d, i, x);
      if c.rank[x] >= 0 {
        InSomeTree(g, st, c, x);
      }
    }
    TreeMembers(g, st, c, d, i, u);
    assert d.rank[u] >= 0 && d.cluster[u] == i;
  }

  lemma InSomeTree(g: Graph, st: seq<NodeState>, d: Dfs, x: nat)
    requires TreesBuilt(g, st, d) && x < |g| && d.rank[x] >= 0
    ensures Sized(d, |g|) && d.cluster[x] >= 0
  {
    DoneIn(g, st, d, x);
  }

  lemma EmptyCluster(g: Graph, st: seq<NodeState>, c: Dfs, d: Dfs, r: int, empties: nat, i: nat)
    requires Built(g, st, c, d, i, -1, i) && OneCluster(g, st, c, r, empties)
    requires i < |g| && Sized(d, |g|) && d.count[i] < 1
    ensures OneCluster(g, st, d, r, empties + 1)
  {
    hide Built;
    TreeCount(g, st, c, d, i);
    forall u | 0 <= u < |g| && st[u] == Active && d.rank[u] >= 0 ensures r >= 0 && d.cluster[u] == r {
      TreeMembers(g, st, c, d, i, u);
    }
    if r >= 0 {
      TreeMembers(g, st, c, d, i, r);
      var u :| u in Actives(st) && c.rank[u] >= 0 && c.cluster[u] == r;
      TreeMembers(g, st, c, d, i, u);
    }
  }

  lemma SearchDone(g: Graph, st: seq<NodeState>, d: Dfs, r: int, empties: int)
    requires GraphOK(g) && TreesBuilt(g, st, d) && SearchedTo(g, st, d, |g|) && OneCluster(g, st, d, r, empties)
    ensures Complete(g, st, d) && AllLinked(g, Possible(st), Actives(st))
  {
    hide TreesBuilt, AllLinked, GraphOK;
    assert Complete(g, st, d) by {
      forall x | 0 <= x < |g| ensures st[x] != Inactive <==> d.rank[x] >= 0 {
        if d.rank[x] >= 0 {
          DoneIn(g, st, d, x);
        }
      }
    }
    OneTree(g, st, d, r);
  }

  lemma CompleteSizes(g: Graph, st: seq<NodeState>, d: Dfs)
    requires Complete(g, st, d)
    ensures |g| == |st| && Sized(d, |g|)
    ensures forall x :: 0 <= x < |g| ==> (st[x] != Inactive <==> d.rank[x] >= 0)
  {
    hide TreesBuilt;
    SearchFacts(g, st, d);
  }

  lemma ClusterRoot(g: Graph, st: seq<NodeState>, d: Dfs, r: int, empties: int)
    requires Complete(g, st, d) && OneCluster(g, st, d, r, empties) && |Actives(st)| > 0
    ensures 0 <= r < |g|
  {
    hide Complete;
    CompleteSizes(g, st, d);
    var u :| u in Actives(st);
  }

  lemma OutsideCluster(g: Graph, st: seq<NodeState>, d: Dfs, r: nat, empties: int, v: nat)
    requires GraphOK(g) && Complete(g, st, d) && OneCluster(g, st, d, r, empties) && r < |g|
    requires v < |g| && Sized(d, |g|) && |g| == |st| && st[v] == Undecided
    ensures d.cluster[v] != r <==> !AllLinked(g, Possible(st), Actives(st) + {v})
    ensures d.cluster[v] == r ==> Judged(g, st, d, r, v)
  {
    hide Complete, GraphOK, Linked, Judged;
    CompleteSizes(g, st, d);
    if d.cluster[v] != r {
      var u :| u in Actives(st) && d.rank[u] >= 0 && d.cluster[u] == r;
      ClusterIsComponent(g, st, d, u, v);
      assert u in Actives(st) + {v} && v in Actives(st) + {v};
    } else {
      InCluster(g, st, d, r, empties, v);
      forall u, w | u in Actives(st) + {v} && w in Actives(st) + {v} ensures Linked(g, Possible(st), u, w) {
        ClusterIsComponent(g, st, d, u, w);
      }
    }
  }

  lemma InCluster(g: Graph, st: seq<NodeState>, d: Dfs, r: nat, empties: int, v: nat)
    requires GraphOK(g) && Complete(g, st, d) && OneCluster(g, st, d, r, empties) && r < |g|
    requires v < |g| && Sized(d, |g|) && |g| == |st| && st[v] == Undecided && d.cluster[v] == r
    ensures Judged(g, st, d, r, v)
  {
    hide Complete, GraphOK;
    CompleteSizes(g, st, d);
    DoneAt(g, st, d, v);
    forall u | u in Actives(st) ensures u in Sub(d, r) {
      DoneAt(g, st, d, u);
      InSub(d, r, u);
    }
  }

  lemma FewActives(g: Graph, st: seq<NodeState>, v: nat)
    requires |Actives(st)| <= 1 && v < |st| && st[v] == Undecided
    ensures AllLinked(g, Possible(st) - {v}, Actives(st))
  {
    var s := Possible(st) - {v};
    forall u, w | u in Actives(st) && w in Actives(st) ensures Linked(g, s, u, w) {
      AtMostOne(Actives(st), u, w);
      LinkedSelf(g, s, u);
    }
  }

  lemma AtMostOne(s: set<nat>, u: nat, w: nat)
    requires |s| <= 1 && u in s && w in s
    ensures u == w
  {
    assert |s - {u}| == 0;
    assert w !in s - {u};
  }

  lemma ForcedNext(g: Graph, lits: seq<Lit>, log: seq<Lit>, v: nat, st: seq<NodeState>)
    requires StateOK(lits, log, st) && NoClash(log) && v < |lits|
    ensures Forced(g, lits, log, v) ==
            (if st[v] != Undecided then []
             else if !AllLinked(g, Possible(st), Actives(st) + {v}) then [Neg(lits[v])]
             else if !AllLinked(g, Possible(st) - {v}, Actives(st)) then [lits[v]]
             else [])
            + Forced(g, lits, log, v + 1)
  {
    hide AllLinked;
    StateSets(lits, log, st);
  }

  // A vertex below i that IsCut takes for a cut vertex because a child is listed twice.
  ghost predicate DoubleTaken(g: Graph, lits: seq<Lit>, log: seq<Lit>, d: Dfs, i: nat, x: Lit) {
    exists v :: 0 <= v < |lits| && v < i && DoubleAt(g, lits, log, d, v) && x == lits[v]
  }

  ghost predicate DoubleAt(g: Graph, lits: seq<Lit>, log: seq<Lit>, d: Dfs, v: nat)
    requires v < |lits|
  {
    && Sized(d, |g|) && v < |g| && IsUndecided(lits, log, v)
    && AllLinked(g, PossibleOf(lits, log), ActivesOf(lits, log) + {v}) && Doubled(g, d, v, |g[v]|)
  }

  // What is enqueued are the literals of Forced and, with two active vertices at
  // least, those of DoubleTaken for the finished search d.
  ghost predicate MoreOnly(g: Graph, lits: seq<Lit>, log: seq<Lit>, st: seq<NodeState>, d: Dfs, nActive: int,
                           implied: seq<Lit>)
  {
    && (nActive > 1 ==> Complete(g, st, d))
    && forall x :: x in implied <==>
         x in Forced(g, lits, log, 0) || (nActive > 1 && DoubleTaken(g, lits, log, d, |lits|, x))
  }

  lemma DoubleNext(g: Graph, lits: seq<Lit>, log: seq<Lit>, st: seq<NodeState>, d: Dfs, v: nat)
    requires StateOK(lits, log, st) && NoClash(log) && v < |lits| == |g| && Sized(d, |g|)
    ensures forall x :: DoubleTaken(g, lits, log, d, v + 1, x) <==>
              DoubleTaken(g, lits, log, d, v, x)
              || (x == lits[v] && st[v] == Undecided && AllLinked(g, Possible(st), Actives(st) + {v})
                  && Doubled(g, d, v, |g[v]|))
  {
    StateSets(lits, log, st);
    assert DoubleAt(g, lits, log, d, v) <==>
           st[v] == Undecided && AllLinked(g, Possible(st), Actives(st) + {v}) && Doubled(g, d, v, |g[v]|);
    hide DoubleAt, AllLinked, Doubled, StateOK, NoClash;
    forall x ensures DoubleTaken(g, lits, log, d, v + 1, x) <==>
      DoubleTaken(g, lits, log, d, v, x) || (x == lits[v] && DoubleAt(g, lits, log, d, v))
    {
      if DoubleTaken(g, lits, log, d, v, x) {
        var u :| 0 <= u < |lits| && u < v && DoubleAt(g, lits, log, d, u) && x == lits[u];
        assert u < v + 1;
      }
    }
  }

  lemma DoubleNone(g: Graph, lits: seq<Lit>, log: seq<Lit>, d: Dfs)
    ensures forall x :: !DoubleTaken(g, lits, log, d, 0, x)
  {
  }

  lemma ForcedNone(g: Graph, lits: seq<Lit>, log: seq<Lit>)
    ensures Forced(g, lits, log, |lits|) == []
  {
  }

  lemma {:induction false} NeverForced(g: Graph, lits: seq<Lit>, log: seq<Lit>, v: nat)
    requires v <= |lits|
    requires forall x :: 0 <= x < |lits| && IsUndecided(lits, log, x) ==>
               && AllLinked(g, PossibleOf(lits, log), ActivesOf(lits, log) + {x})
               && AllLinked(g, PossibleOf(lits, log) - {x}, ActivesOf(lits, log))
    ensures Forced(g, lits, log, v) == []
    decreases |lits| - v
  {
    hide AllLinked;
    if v < |lits| {
      NeverForced(g, lits, log, v + 1);
    }
  }

  lemma NothingForced(g: Graph, lits: seq<Lit>, log: seq<Lit>)
    requires |ActivesOf(lits, log)| == 0
    ensures Told(g, lits, log, false) == Answer([], true)
  {
    assert ActivesOf(lits, log) == {};
    forall x | 0 <= x < |lits| && IsUndecided(lits, log, x)
      ensures AllLinked(g, PossibleOf(lits, log), ActivesOf(lits, log) + {x})
    {
      LinkedSelf(g, PossibleOf(lits, log), x);
    }
    NeverForced(g, lits, log, 0);
  }

  lemma UndecidedIn(g: Graph, lits: seq<Lit>, log: seq<Lit>, st: seq<NodeState>, d: Dfs, r: nat, x: nat)
    requires |g| == |lits| && StateOK(lits, log, st) && |st| == |d.cluster| == |g| && OneCluster(g, st, d, r, 0)
    requires x < |lits| && IsUndecided(lits, log, x) && Complete(g, st, d)
    ensures st[x] == Undecided && d.cluster[x] == r
  {
    hide Complete;
    CompleteSizes(g, st, d);
  }

  lemma AllInCluster(g: Graph, lits: seq<Lit>, log: seq<Lit>, st: seq<NodeState>, d: Dfs, r: nat)
    requires GraphOK(g) && |g| == |lits| && StateOK(lits, log, st) && NoClash(log)
    requires Complete(g, st, d) && OneCluster(g, st, d, r, 0) && r < |g| && |Actives(st)| <= 1
    ensures Forced(g, lits, log, 0) == []
  {
    hide Complete, GraphOK, AllLinked, Actives, Possible, ActivesOf, PossibleOf, NoClash, StateOK, OneCluster,
         Forced;
    StateSets(lits, log, st);
    CompleteSizes(g, st, d);
    forall x | 0 <= x < |lits| && IsUndecided(lits, log, x)
      ensures AllLinked(g, PossibleOf(lits, log), ActivesOf(lits, log) + {x})
      ensures AllLinked(g, PossibleOf(lits, log) - {x}, ActivesOf(lits, log))
    {
      UndecidedIn(g, lits, log, st, d, r, x);
      OutsideCluster(g, st, d, r, 0, x);
      FewActives(g, st, x);
    }
    NeverForced(g, lits, log, 0);
  }

  function Unvisited(n: nat): Dfs {
    Dfs(seq(n, v => -1), seq(n, v => -1), seq(n, v => 0), seq(n, v => -1), seq(n, v => -1), seq(n, v => 0), 0)
  }

  ghost function Fresh(d: Dfs): set<nat> {
    set v | 0 <= v < |d.rank| && d.rank[v] < 0
  }

  lemma FreshShrinks(c: Dfs, d: Dfs, n: nat, v: nat)
    requires Grown(c, d, n) && v < n && c.rank[v] < 0 <= d.rank[v]
    ensures Fresh(d) < Fresh(c)
  {
    assert v in Fresh(c) && v !in Fresh(d);
    assert Fresh(d) <= Fresh(c);
  }

  lemma EdgeInRange(g: Graph, v: nat, i: nat)
    requires GraphOK(g) && v < |g| && i < |g[v]|
    ensures g[v][i] < |g|
  {
  }

  lemma ExploreRanks(g: Graph, st: seq<NodeState>, d: Dfs, v: nat, i: nat, low: int, count: int)
    requires Exploring(g, st, d, v, i, low, count)
    ensures RanksOK(d, |g|) && d.rank[v] >= 0 && |g| == |st| && v < |g|
  {
    hide Reached, LowSoFar, SeenSoFar, Span;
  }

  ghost predicate ClusterFrom(g: Graph, d: Dfs, lo: int, cluster: int)
    requires Sized(d, |g|)
  {
    forall y :: 0 <= y < |g| && lo <= d.rank[y] ==> d.cluster[y] == cluster
  }

  lemma ClusterIs(g: Graph, d: Dfs, lo: int, cluster: int)
    requires Sized(d, |g|) && ClusterFrom(g, d, lo, cluster)
    ensures forall y :: 0 <= y < |g| && lo <= d.rank[y] ==> d.cluster[y] == cluster
  {
  }

  lemma ExploreDone(g: Graph, st: seq<NodeState>, c: Dfs, d: Dfs, v: nat, low: int, count: int, parent: int,
                    cluster: int)
    requires |g| == |st| && RanksOK(c, |g|) && v < |g| && c.rank[v] < 0 && Sized(d, |g|)
    requires Exploring(g, st, d, v, |g[v]|, low, count) && ClusterFrom(g, d, c.next, cluster)
    requires Grown(c, d, |g|) && d.rank[v] == c.next && d.parent[v] == parent
    ensures Built(g, st, c, Left(d, v, low, count), v, parent, cluster)
    ensures Sized(Left(d, v, low, count), |g|) && Left(d, v, low, count).low[v] == low
  {
    hide Built, Grown, RanksOK, Exploring;
    ClusterIs(g, d, c.next, cluster);
    ExploreEnd(g, st, c, d, v, low, count, parent, cluster);
  }

  lemma RanksSized(d: Dfs, n: nat)
    requires RanksOK(d, n)
    ensures Sized(d, n)
  {
  }

  lemma ClusterStart(g: Graph, d: Dfs, v: nat, parent: int, cluster: int)
    requires RanksOK(d, |g|) && v < |g|
    ensures Sized(Entered(d, v, parent, cluster), |g|)
    ensures ClusterFrom(g, Entered(d, v, parent, cluster), d.next, cluster)
  {
  }

  lemma ClusterChild(g: Graph, st: seq<NodeState>, e: Dfs, d: Dfs, v: nat, w: nat, lo: int, cluster: int)
    requires Sized(e, |g|) && ClusterFrom(g, e, lo, cluster) && Built(g, st, e, d, w, v, cluster) && 0 <= lo
    ensures Sized(d, |g|) && ClusterFrom(g, d, lo, cluster)
  {
    hide Finished, AllFinished;
    forall y | 0 <= y < |g| && lo <= d.rank[y] ensures d.cluster[y] == cluster {
      if e.rank[y] >= 0 {
        GrownAt(e, d, |g|, y);
      }
    }
  }
}
