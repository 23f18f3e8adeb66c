// constraints/Graph.cc: the propagator.
module GraphPropagators {
  import opened Logic
  import opened Trails
  import opened Watching
  import opened Connectivity
  import opened DepthFirst
  import opened Articulation
  import opened UnionFinds
  import opened Graphs
  import opened GraphStates
  import opened GraphClusters
  import opened GraphMerges
  import opened GraphReasons

  class ActiveVerticesConnected {
    const g: Graph
    const lits: seq<Lit>
    var state: seq<NodeState>
    var decisionOrder: seq<nat>
    var nActive: int
    var d: Dfs
    // The literals delivered and not yet undone.
    ghost var log: seq<Lit>
    // How many entries of decision_order_ initialize made before it delivered
    // anything: those vertices are listed a second time.
    ghost var early: nat

    ghost predicate Framed() {
      GraphOK(g) && |g| == |lits|
    }

    ghost predicate Valid() reads this {
      && Framed() && NoDup(log) && NoClash(log)
      && StateOK(lits, log, state)
      && early <= |decisionOrder| && OrderOK(lits, log, decisionOrder[early..])
      && EarlyOK(lits, log, decisionOrder[..early])
      && nActive == |Actives(state)|
    }

    constructor (lits: seq<Lit>, g: Graph)
      requires GraphOK(g) && |g| == |lits|
      ensures Valid() && this.lits == lits && this.g == g && log == [] && decisionOrder == []
    {
      this.lits, this.g := lits, g;
      state := seq(|lits|, i => Undecided);
      decisionOrder, nActive, log, early := [], 0, [], 0;
      d := Unvisited(|lits|);
      new;
      assert Actives(state) == {};
    }

    // buildTree
    method BuildTree(v: nat, parent: int, cluster: int) returns (low: int)
      requires GraphOK(g) && |g| == |state| && RanksOK(d, |g|) && v < |g| && d.rank[v] < 0 && state[v] != Inactive
      requires -1 <= parent < |g| && (parent >= 0 ==> d.rank[parent] >= 0)
      modifies this`d
      ensures Built(g, state, old(d), d, v, parent, cluster) && Sized(d, |g|) && low == d.low[v]
      decreases Fresh(d)
    {
      hide Finished, Reached, LowSoFar, SeenSoFar, Span, GraphOK, Grown, RanksOK, AllFinished, Built, Exploring,
           ClusterFrom, Left;
      RanksSized(d, |g|);
      ghost var c := d;
      ExploreStart(g, state, d, v, parent, cluster);
      assert d.next == Entered(d, v, parent, cluster).rank[v];
      ClusterStart(g, d, v, parent, cluster);
      d := Entered(d, v, parent, cluster);
      low := d.rank[v];
      var count := if state[v] == Active then 1 else 0;
      for i := 0 to |g[v]|
        invariant Exploring(g, state, d, v, i, low, count) && Sized(d, |g|)
        invariant Grown(c, d, |g|) && d.rank[v] == c.next && d.parent[v] == parent
        invariant ClusterFrom(g, d, c.next, cluster)
      {
        var w := g[v][i];
        assert w < |g| by { EdgeInRange(g, v, i); }
        ExploreVisited(g, state, d, v, i, low, count);
        if w != parent && state[w] != Inactive {
          ghost var e := d;
          if d.rank[w] < 0 {
            ExploreRanks(g, state, d, v, i, low, count);
            FreshShrinks(c, d, |g|, v);
            var l := BuildTree(w, v, cluster);
            ExploreChild(g, state, e, d, v, i, low, count, cluster);
            ClusterChild(g, state, e, d, v, w, c.next, cluster);
            BuiltFacts(g, state, e, d, w, v, cluster);
            GrownTrans(c, e, d, |g|);
            GrownAt(e, d, |g|, v) by { ExploreRanks(g, state, e, v, i, low, count); }
            low := if l < low then l else low;
            count := count + d.count[w];
          } else {
            low := if d.rank[w] < low then d.rank[w] else low;
          }
        }
      }
      ExploreDone(g, state, c, d, v, low, count, parent, cluster);
      d := Left(d, v, low, count);
    }

    // The first part of propagate: the range of var_to_idx_ for the variable of p,
    // which is true.
    method Learn(p: Lit)
      requires |state| == |lits|
      modifies this`state, this`decisionOrder, this`nActive, this`log
      ensures log == old(log) + [p]
      ensures decisionOrder == old(decisionOrder) + VerticesOf(lits, p.v, |lits|)
      ensures state == Filled(lits, old(state), p, |lits|)
      ensures nActive == old(nActive) + |Owners(lits, p, |lits|)|
    {
      hide Owners, Filled;
      MarkNone(lits, state, p);
      for i := 0 to |lits|
        invariant state == Filled(lits, old(state), p, i)
        invariant decisionOrder == old(decisionOrder) + VerticesOf(lits, p.v, i)
        invariant nActive == old(nActive) + |Owners(lits, p, i)| && log == old(log)
      {
        MarkStep(lits, old(state), p, i);
        if lits[i].v == p.v {
          if lits[i] == p {
            nActive := nActive + 1;
          }
          state := state[i := if lits[i] == p then Active else Inactive];
          decisionOrder := decisionOrder + [i];
        }
      }
      log := log + [p];
    }

    // What was true before initialize is never undone.
    method Undo(p: Lit)
      requires Valid() && log != [] && log[|log| - 1] == p
      requires forall k :: 0 <= k < early && decisionOrder[k] < |lits| ==> lits[decisionOrder[k]].v != p.v
      modifies this`state, this`decisionOrder, this`nActive, this`log
      ensures Valid() && log == old(log)[..|old(log)| - 1] && early == old(early)
    {
      hide GraphOK, StateOK, OrderOK, EarlyOK, NoDup, NoClash, Actives, Cleared;
      ghost var front := log[..|log| - 1];
      assert log == front + [p];
      StateSize(lits, log, state);
      OrderBack(lits, log, decisionOrder, early);
      LastUndone(front, p);
      StateBack(lits, front, state, p);
      MarkNone(lits, state, p);
      for i := 0 to |lits|
        invariant state == Cleared(lits, old(state), p.v, i) && nActive == |Actives(state)|
        invariant |VerticesOf(lits, p.v, i)| <= |old(decisionOrder)|
        invariant decisionOrder == old(decisionOrder)[..|old(decisionOrder)| - |VerticesOf(lits, p.v, i)|]
      {
        ClearStep(lits, old(state), p.v, i);
        VerticesMore(lits, p.v, i + 1, |lits|);
        if lits[i].v == p.v {
          CountStep(state, i, Undecided);
          if state[i] == Active {
            nActive := nActive - 1;
          }
          state := state[i := Undecided];
          decisionOrder := decisionOrder[..|decisionOrder| - 1];
        }
      }
      log := front;
    }

    // The trees of the search: whether two of them have active vertices, which one
    // has some, and how many have none.
    method FindClusters() returns (split: bool, r: int, empties: nat)
      requires GraphOK(g) && |g| == |state|
      modifies this`d
      ensures split <==> !AllLinked(g, Possible(state), Actives(state))
      ensures !split ==> Complete(g, state, d) && OneCluster(g, state, d, r, empties)
    {
      hide TreesBuilt, GraphOK, AllLinked, Built, OneCluster;
      d := Unvisited(|g|);
      NothingYet(g, state);
      r, empties := -1, 0;
      for i := 0 to |g|
        invariant TreesBuilt(g, state, d) && SearchedTo(g, state, d, i) && OneCluster(g, state, d, r, empties)
      {
        SearchFacts(g, state, d);
        if state[i] != Inactive && d.rank[i] < 0 {
          ghost var c := d;
          var low := BuildTree(i, -1, i);
          NewTree(g, state, c, d, i);
          SearchGrows(g, state, c, d, i);
          SearchFacts(g, state, d);
          if d.count[i] >= 1 {
            if r != -1 {
              SecondCluster(g, state, c, d, r, empties, i);
              return true, r, empties;
            }
            FirstCluster(g, state, c, d, empties, i);
            r := i;
          } else {
            EmptyCluster(g, state, c, d, r, empties, i);
            empties := empties + 1;
          }
        } else {
          SearchSkips(g, state, d, i);
        }
      }
      SearchDone(g, state, d, r, empties);
      split := false;
    }

    // Is v an articulation point between active vertices?
    method IsCut(v: nat, r: nat) returns (cut: bool)
      requires Sized(d, |g|) && r < |g| && v < |g| && Judged(g, state, d, r, v)
      ensures cut <==> !AllLinked(g, Possible(state) - {v}, Actives(state)) || Doubled(g, d, v, |g[v]|)
    {
      hide Judged, Complete, GraphOK, AllLinked, Actives, Possible, Side, Alone, Doubled;
      JudgedIs(g, state, d, r, v);
      var parentSide := d.count[r] - d.count[v];
      var pieces := 0;
      SideStart(g, state, d, r, v);
      AloneStart(g, d, v);
      for i := 0 to |g[v]|
        invariant parentSide >= 0 && (parentSide > 0 <==> Side(g, d, r, v, i) * Actives(state) != {})
        invariant pieces >= |Alone(g, d, v, i)| && (pieces > |Alone(g, d, v, i)| <==> Doubled(g, d, v, i))
      {
        var w := g[v][i];
        assert w < |g| by { EdgeInRange(g, v, i); }
        AloneStep(g, d, v, i, pieces);
        SideStep(g, state, d, r, v, i);
        if d.rank[v] < d.rank[w] && d.parent[w] == v {
          if d.low[w] < d.rank[v] {
            parentSide := parentSide + d.count[w];
          } else if d.count[w] > 0 {
            pieces := pieces + 1;
          }
        }
      }
      CutTest(g, state, d, r, v);
      if Doubled(g, d, v, |g[v]|) {
        DoubledCuts(g, d, v);
      }
      if parentSide > 0 {
        pieces := pieces + 1;
      }
      cut := pieces >= 2;
    }

    // The loop that enqueues literals of undecided vertices.
    method ForceAll(r: nat, ghost empties: nat, ghost all: seq<Lit>) returns (implied: seq<Lit>)
      requires Framed() && NoClash(all) && StateOK(lits, all, state) && 0 <= nActive <= |Actives(state)|
      requires Complete(g, state, d) && OneCluster(g, state, d, r, empties) && r < |g|
      ensures Simple(g) && nActive == |Actives(state)| ==> implied == Forced(g, lits, all, 0)
      ensures Simple(g) ==> forall x :: x in implied ==> x in Forced(g, lits, all, 0)
      ensures nActive == |Actives(state)| ==> forall x :: x in Forced(g, lits, all, 0) ==> x in implied
      ensures nActive == |Actives(state)| ==>
                forall x :: x in implied <==>
                  x in Forced(g, lits, all, 0) || (nActive > 1 && DoubleTaken(g, lits, all, d, |lits|, x))
    {
      hide Complete, GraphOK, AllLinked, Forced, OneCluster, NoDup, Actives, Possible, Doubled, Simple, NoClash,
           StateOK, DoubleTaken;
      StateSize(lits, all, state);
      DoubleNone(g, lits, all, d);
      implied := [];
      for v := 0 to |g|
        invariant Simple(g) && nActive == |Actives(state)| ==>
                    implied + Forced(g, lits, all, v) == Forced(g, lits, all, 0)
        invariant Simple(g) ==>
                    forall x :: x in implied || x in Forced(g, lits, all, v) ==> x in Forced(g, lits, all, 0)
        invariant nActive == |Actives(state)| ==>
                    forall x :: x in Forced(g, lits, all, 0) ==> x in implied || x in Forced(g, lits, all, v)
        invariant nActive == |Actives(state)| ==>
                    forall x :: x in implied || x in Forced(g, lits, all, v) <==>
                      x in Forced(g, lits, all, 0) || (nActive > 1 && DoubleTaken(g, lits, all, d, v, x))
      {
        ForcedNext(g, lits, all, v, state);
        CompleteSizes(g, state, d);
        DoubleNext(g, lits, all, state, d, v);
        if Simple(g) {
          NotDoubled(g, d, v);
        }
        if state[v] == Undecided {
          OutsideCluster(g, state, d, r, empties, v);
          if d.cluster[v] != r {
            implied := implied + [Neg(lits[v])];
          } else if nActive <= 1 {
            if |Actives(state)| <= 1 {
              FewActives(g, state, v);
            }
          } else {
            var cut := IsCut(v, r);
            if cut {
              implied := implied + [lits[v]];
            }
          }
        }
      }
      ForcedNone(g, lits, all);
    }

    // The second part of propagate.  all are the literals state_ has taken in; while
    // initialize runs the count of active vertices is behind.
    method Check(ghost all: seq<Lit>) returns (a: Answer)
      requires Framed() && NoClash(all) && StateOK(lits, all, state) && 0 <= nActive <= |Actives(state)|
      modifies this`d
      ensures a.accept <==> nActive == 0 || Told(g, lits, all, false).accept
      ensures Simple(g) && nActive == |Actives(state)| ==> a == Told(g, lits, all, false)
      ensures Simple(g) ==> forall x :: x in a.implied ==> x in Told(g, lits, all, false).implied
      ensures nActive == |Actives(state)| ==> forall x :: x in Told(g, lits, all, false).implied ==> x in a.implied
      ensures nActive == |Actives(state)| && a.accept ==> MoreOnly(g, lits, all, state, d, nActive, a.implied)
    {
      hide GraphOK, StateOK, AllLinked, Complete, OneCluster, Forced, Simple, ActivesOf, PossibleOf,
           Actives, Possible, NoClash;
      StateSize(lits, all, state);
      StateSets(lits, all, state);
      if nActive == 0 {
        if |Actives(state)| == 0 {
          NothingForced(g, lits, all);
        }
        return Answer([], true);
      }
      var split, r, empties := FindClusters();
      if split {
        return Answer([], false);
      }
      ClusterRoot(g, state, d, r, empties);
      if nActive <= 1 && empties == 0 {
        if |Actives(state)| <= 1 {
          AllInCluster(g, lits, all, state, d, r);
        }
        return Answer([], true);
      }
      var implied := ForceAll(r, empties, all);
      a := Answer(implied, true);
    }

    // propagate(p): pending stands for num_pending_propagation() > 0.  With parallel
    // edges it may enqueue too much: exactly the literals of vertices with a child of
    // the search that is cut off and listed twice.
    method Propagate(p: Lit, pending: bool) returns (a: Answer)
      requires Valid() && p !in log && Neg(p) !in log && HasVertex(lits, p)
      modifies this`state, this`decisionOrder, this`nActive, this`d, this`log
      ensures Valid() && log == old(log) + [p] && early == old(early)
      ensures Simple(g) ==> a == Told(g, lits, log, pending)
      ensures a.accept == Told(g, lits, log, pending).accept
      ensures forall x :: x in Told(g, lits, log, pending).implied ==> x in a.implied
      ensures !pending && a.accept ==> MoreOnly(g, lits, log, state, d, nActive, a.implied)
    {
      hide Told, GraphOK, MoreOnly;
      LearnValid(lits, log, state, p, decisionOrder, early);
      Learn(p);
      if pending {
        NothingTold(g, lits, log);
        return Answer([], true);
      }
      a := Check(log);
      if nActive == 0 {
        StateSets(lits, log, state);
        NothingForced(g, lits, log);
      }
    }

    // initialize, without the calls of addWatch.  order lists the literals of vertices
    // that are true when it is called, as propagate_lits does.
    method Initialize(order: seq<Lit>, trail: seq<Lit>) returns (a: Answer)
      requires Valid() && log == [] && decisionOrder == [] && NoClash(trail)
      requires NoDup(order) && forall l :: l in order <==> l in trail && HasVertex(lits, l)
      modifies this`state, this`decisionOrder, this`nActive, this`d, this`log, this`early
      ensures a.accept <==> Told(g, lits, order, false).accept
      ensures a.accept ==> Valid() && log == order
      ensures a.accept ==> early <= |decisionOrder| && decisionOrder[..early] == Assigned(lits, order, |lits|)
      ensures a.accept ==> forall x :: x in Told(g, lits, order, false).implied ==> x in a.implied
      ensures Simple(g) ==> forall x :: x in a.implied ==> x in Told(g, lits, order, false).implied
    {
      hide GraphOK, StateOK, Told, OrderOK, EarlyOK, NoDup, NoClash, Simple, ActivesOf, Actives, HasVertex;
      ReadState(order, trail);
      ghost var st, first := state, decisionOrder;
      early, nActive := |decisionOrder|, 0;
      TakenNone(lits, order, st, first);
      var implied := [];
      for k := 0 to |order|
        invariant state == st && log == order[..k] && early == |first|
        invariant first <= decisionOrder && OrderOK(lits, order[..k], decisionOrder[|first|..])
        invariant nActive == |ActivesOf(lits, order[..k])| <= |Actives(st)|
        invariant k == |order| ==> nActive == |Actives(st)|
        invariant nActive > 0 ==> Told(g, lits, order, false).accept
        invariant Simple(g) ==> forall x :: x in implied ==> x in Told(g, lits, order, false).implied
        invariant k == |order| && k > 0 ==> forall x :: x in Told(g, lits, order, false).implied ==> x in implied
      {
        assert order[k] in order && order[..k + 1] == order[..k] + [order[k]];
        StateSize(lits, order, state);
        ghost var was := decisionOrder;
        TakenNext(lits, order, st, k, was[|first|..]);
        Learn(order[k]);
        assert decisionOrder[|first|..] == was[|first|..] + VerticesOf(lits, order[k].v, |lits|);
        a := Check(order);
        if !a.accept {
          return Answer(implied, false);
        }
        implied := implied + a.implied;
      }
      assert order[..|order|] == order;
      assert decisionOrder[..early] == first;
      if nActive == 0 {
        StateSets(lits, order, st);
        NothingForced(g, lits, order);
        AnswerIs(g, lits, order);
      }
      a := Answer(implied, true);
    }

    // The first loop of initialize.
    method ReadState(ghost order: seq<Lit>, trail: seq<Lit>)
      requires Framed() && StateOK(lits, [], state) && decisionOrder == [] && NoClash(trail)
      requires NoDup(order) && forall l :: l in order <==> l in trail && HasVertex(lits, l)
      modifies this`state, this`decisionOrder
      ensures StateOK(lits, order, state) && NoClash(order)
      ensures EarlyOK(lits, order, decisionOrder) && decisionOrder == Assigned(lits, order, |lits|)
    {
      hide EarlyOK, NoClash, GraphOK, HasVertex;
      ReadNone(lits, trail, state);
      for i := 0 to |lits|
        invariant |state| == |lits| && ReadTo(lits, trail, i, state, decisionOrder)
      {
        ReadNext(lits, trail, i, state, decisionOrder);
        var val := Value(trail, lits[i]);
        if val != Undef {
          decisionOrder := decisionOrder + [i];
        }
        if val == True {
          state := state[i := Active];
        } else if val == False {
          state := state[i := Inactive];
        }
      }
      ReadAll(lits, trail, state, decisionOrder, order);
    }

    // ------------------------------------------------------------- calcReason

    // Joins v with its neighbours that are activated.
    method MergeNeighbours(uf: UnionFind, v: nat, activated: seq<bool>, ghost s: set<nat>)
      requires GraphOK(g) && uf.Valid() && |uf.m.rep| == |g| == |activated| && v < |g|
      requires EdgesFit(uf.m.edges, g, s) && Flags(activated, s)
      modifies uf`f, uf`redo, uf`m
      ensures uf.Valid() && |uf.m.rep| == |g| && uf.m.act == old(uf.m.act)
      ensures EdgesFit(uf.m.edges, g, s + {v})
    {
      hide EdgesFit, GraphOK;
      FitStart(uf.m.edges, g, s, v);
      for i := 0 to |g[v]|
        invariant uf.Valid() && |uf.m.rep| == |g| && uf.m.act == old(uf.m.act)
        invariant FitPart(uf.m.edges, g, s, v, i)
      {
        var w := g[v][i];
        assert w < |g| by { EdgeInRange(g, v, i); }
        if activated[w] {
          FitMerge(uf.m.edges, g, s, v, i);
          uf.Merge(v, w);
        } else {
          FitSkip(uf.m.edges, g, s, v, i);
        }
      }
      FitEnd(uf.m.edges, g, s, v);
    }

    // The counts and merges calcReason starts from.
    method Prepare(p: seq<Lit>) returns (uf: UnionFind, activated: seq<bool>)
      requires GraphOK(g) && |g| == |lits| && Unset(lits, state, p)
      ensures fresh(uf) && uf.Valid() && uf.savedF == uf.f && uf.savedM == uf.m
      ensures |uf.m.rep| == |g| == |activated|
      ensures Flags(activated, StartPossible(lits, state, p))
      ensures EdgesFit(uf.m.edges, g, StartPossible(lits, state, p))
      ensures Counts(uf.m.act, StartActives(lits, state, p))
    {
      hide EdgesFit, Counts, Flags, GraphOK, StartPossible, StartActives;
      uf := new UnionFind(|lits|);
      activated := CountActives(uf, p);
      MergeAll(uf, activated, StartPossible(lits, state, p));
      CountHyp(uf, p);
      uf.Commit();
    }

    method CountActives(uf: UnionFind, p: seq<Lit>) returns (activated: seq<bool>)
      requires Unset(lits, state, p) && uf.Valid()
      requires |uf.m.rep| == |lits| && uf.m.edges == {} && uf.m.act == seq(|lits|, i => 0)
      modifies uf`f, uf`redo, uf`m
      ensures uf.Valid() && |uf.m.rep| == |lits| && uf.m.edges == {} && |activated| == |lits|
      ensures Flags(activated, StartPossible(lits, state, p)) && Counts(uf.m.act, Actives(state))
    {
      hide ForestOK;
      activated := seq(|lits|, i => false);
      for i := 0 to |lits|
        invariant uf.Valid() && |uf.m.rep| == |lits| == |uf.m.act| && uf.m.edges == {} && |activated| == |lits|
        invariant forall x :: 0 <= x < |uf.m.act| ==> uf.m.act[x] == if x < i && state[x] == Active then 1 else 0
        invariant forall x :: 0 <= x < |lits| ==> (activated[x] <==> x < i && x in StartPossible(lits, state, p))
      {
        if state[i] == Active {
          uf.AddActiveCount(i, 1);
        }
        if state[i] != Inactive && (p == [] || p[0] != lits[i]) {
          activated := activated[i := true];
        }
      }
    }

    // The vertices whose literal p would make inactive count as active.
    method CountHyp(uf: UnionFind, p: seq<Lit>)
      requires Unset(lits, state, p) && uf.Valid() && |uf.m.rep| == |lits| && Counts(uf.m.act, Actives(state))
      modifies uf`f, uf`redo, uf`m
      ensures uf.Valid() && |uf.m.rep| == |lits| && uf.m.edges == old(uf.m.edges)
      ensures Counts(uf.m.act, StartActives(lits, state, p))
    {
      assert |uf.m.act| == |lits|;
      hide ForestOK;
      for i := 0 to |lits|
        invariant uf.Valid() && |uf.m.rep| == |lits| == |uf.m.act| && uf.m.edges == old(uf.m.edges)
        invariant forall x :: 0 <= x < |uf.m.act| ==>
                    uf.m.act[x] == if state[x] == Active || (x < i && p != [] && lits[x] == Neg(p[0])) then 1 else 0
      {
        if p != [] && lits[i] == Neg(p[0]) {
          assert lits[i].v == p[0].v;
          uf.AddActiveCount(i, 1);
        }
      }
    }

    // All edges between activated vertices.
    method MergeAll(uf: UnionFind, activated: seq<bool>, ghost s: set<nat>)
      requires GraphOK(g) && uf.Valid() && |uf.m.rep| == |g| == |activated| && uf.m.edges == {}
      requires Flags(activated, s)
      modifies uf`f, uf`redo, uf`m
      ensures uf.Valid() && |uf.m.rep| == |g| && uf.m.act == old(uf.m.act)
      ensures EdgesFit(uf.m.edges, g, s)
    {
      for v := 0 to |g|
        invariant uf.Valid() && |uf.m.rep| == |g| && uf.m.act == old(uf.m.act)
        invariant AllFit(uf.m.edges, g, s, v, 0)
      {
        for i := 0 to |g[v]|
          invariant uf.Valid() && |uf.m.rep| == |g| && uf.m.act == old(uf.m.act)
          invariant AllFit(uf.m.edges, g, s, v, i)
        {
          var w := g[v][i];
          assert w < |g| by { EdgeInRange(g, v, i); }
          AllFitStep(uf.m.edges, g, s, v, i);
          if activated[v] && activated[w] {
            uf.Merge(v, w);
          }
        }
        AllFitNext(uf.m.edges, g, s, v);
      }
      AllFitEnd(uf.m.edges, g, s);
    }

    // p and extra are empty for lit_Undef; cause is conflict_cause_pos_.  The
    // answer is what is left of the decisions once none can be dropped, followed by
    // literals that were true before initialize; the abort for fewer than two
    // clusters is never reached.  When vertices share a variable they are dropped one
    // by one, and the answer is still enough.
    method CalcReason(p: seq<Lit>, extra: seq<Lit>, cause: nat) returns (reason: seq<Lit>)
      requires Valid() && |p| <= 1 && |extra| <= 1 && (p != [] ==> extra == [] && p[0] !in log && Neg(p[0]) !in log)
      requires extra == [] ==> Disconnected(g, lits, log + Hyp(p))
      requires extra != [] ==> cause < |lits| && lits[cause].v == extra[0].v && Splits(g, lits, log, cause, extra[0])
      modifies this`state, this`decisionOrder
      ensures Valid() && state == old(state) && decisionOrder == old(decisionOrder)
      ensures (forall l :: l in reason ==> l in log + extra) && Disconnected(g, lits, reason + Hyp(p))
      ensures DistinctVars(lits) ==>
                var r := Reduced(g, lits, log + extra, [], Hyp(p));
                reason == r + Again(g, lits, log + extra, r + Hyp(p), decisionOrder[..early])
    {
      hide GraphOK, Disconnected, Reduced, DistinctVars, Again, Primed, Exact, Splits, StateOK, OrderOK, EarlyOK, NoDup,
           NoClash, Actives;
      ghost var all, first := log + extra, decisionOrder[..early];
      StateSize(lits, log, state);
      if extra != [] {
        CausePrimed(g, lits, log, state, decisionOrder, early, cause, extra[0]);
        assert all == log + [extra[0]];
        decisionOrder := decisionOrder + [cause];
        state := state[cause := if extra[0] == lits[cause] then Active else Inactive];
        assert decisionOrder[..early] == first;
        assert all + Hyp(p) == all;
      } else {
        LogPrimed(g, lits, log, state, decisionOrder, early, p);
        assert all == log;
      }
      reason := Reduce(p, all);
      if extra != [] {
        decisionOrder := decisionOrder[..|decisionOrder| - 1];
        state := state[cause := Undecided];
        CauseFree(g, lits, log, old(state), cause, extra[0]);
        assert state == old(state);
      }
    }

    // Drops the decision of vertex v if enough clusters stay, or keeps its literal.
    method Step(uf: UnionFind, v: nat, activated: seq<bool>, reason: seq<Lit>, ghost s: set<nat>)
      returns (more: seq<bool>, now: seq<Lit>, ghost mid: Meaning, ghost midF: Forest)
      requires GraphOK(g) && |g| == |lits| == |state| && v < |g|
      requires uf.Valid() && uf.savedF == uf.f && uf.savedM == uf.m && |uf.m.rep| == |uf.m.act| == |g| == |activated|
      requires EdgesFit(uf.m.edges, g, s) && Flags(activated, s)
      modifies uf
      ensures uf.Valid() && uf.savedF == uf.f && uf.savedM == uf.m && |more| == |g|
      ensures ForestOK(midF, mid) && |mid.rep| == |g| && EdgesFit(mid.edges, g, s + {v})
      ensures mid.act == if state[v] == Active then old(uf.m.act)[v := old(uf.m.act)[v] - 1] else old(uf.m.act)
      ensures midF.clusters >= 2 ==> uf.m == mid && more == activated[v := true] && now == reason
      ensures midF.clusters < 2 ==>
                uf.m == old(uf.m) && more == activated
                && now == reason + [if state[v] == Active then lits[v] else Neg(lits[v])]
    {
      hide GraphOK, EdgesFit, Flags, ForestOK, Undone, LogOK;
      more, now := activated, reason;
      if state[v] == Active {
        uf.AddActiveCount(v, -1);
      }
      MergeNeighbours(uf, v, activated, s);
      mid, midF := uf.m, uf.f;
      var clusters := uf.NumActiveClusters();
      if clusters >= 2 {
        uf.Commit();
        more := more[v := true];
      } else {
        uf.Redo();
        now := now + [if state[v] == Active then lits[v] else Neg(lits[v])];
      }
    }

    // From the last decision to the first.
    method Reduce(p: seq<Lit>, ghost all: seq<Lit>) returns (reason: seq<Lit>)
      requires Primed(g, lits, all, state, decisionOrder, early, p)
      requires Exact(g, lits, all, state, decisionOrder, early, p)
      ensures (forall l :: l in reason ==> l in all) && Disconnected(g, lits, reason + Hyp(p))
      ensures early <= |decisionOrder|
      ensures DistinctVars(lits) ==>
                var r := Reduced(g, lits, all, [], Hyp(p));
                reason == r + Again(g, lits, all, r + Hyp(p), decisionOrder[..early])
    {
      hide GraphOK, EdgesFit, Counts, Flags, Disconnected, Reduced, DistinctVars, ForestOK, Undone, LogOK, Again, Round,
           StartPossible, StartActives, Halfway, Primed, Exact, Unset;
      PrimedFacts(g, lits, all, state, decisionOrder, early, p);
      var uf, activated := Prepare(p);
      reason := [];
      var k := |decisionOrder|;
      ghost var s, a := StartPossible(lits, state, p), StartActives(lits, state, p);
      ForestSizes(uf.f, uf.m);
      HalfwayFirst(g, lits, all, state, decisionOrder, early, p, uf.f, uf.m);
      if DistinctVars(lits) {
        RoundFirst(g, lits, all, state, decisionOrder, early, p, uf.f, uf.m);
      }
      var enough := uf.NumActiveClusters();
      assert enough >= 2;
      while k > 0
        invariant 0 <= k <= |decisionOrder| && fresh(uf) && uf.Valid() && uf.savedF == uf.f && uf.savedM == uf.m
        invariant |uf.m.rep| == |g| == |activated| && EdgesFit(uf.m.edges, g, s) && Flags(activated, s)
        invariant Halfway(g, lits, all, state, decisionOrder, early, p, k, reason, uf.m, s, a)
        invariant DistinctVars(lits) ==> Round(g, lits, all, Hyp(p), decisionOrder, early, k, reason, uf.m, s)
      {
        k := k - 1;
        var v := decisionOrder[k];
        Unexplained(g, lits, all, state, decisionOrder, early, k, p);
        assert p != [] ==> p[0].v != lits[v].v;
        ghost var was, m0, s0, a0, flags := reason, uf.m, s, a, activated;
        ForestSizes(uf.savedF, uf.savedM);
        ghost var mid, midF;
        activated, reason, mid, midF := Step(uf, v, activated, reason, s);
        if midF.clusters >= 2 {
          FlagsAdd(flags, s, v);
          s, a := s + {v}, a - {v};
        }
        DroppedAgain(g, m0, mid, midF, s0, v, state[v] == Active);
        HalfwayNext(g, lits, all, state, decisionOrder, early, p, k, was, reason, m0, s0, a0, mid, midF, uf.m, s, a);
        if DistinctVars(lits) {
          RoundNext(g, lits, all, p, state, decisionOrder, early, k, was, reason, m0, s0, mid, midF, uf.m, s);
        }
      }
      HalfwayLast(g, lits, all, state, decisionOrder, early, p, reason, uf.m, s, a);
      if DistinctVars(lits) {
        RoundLast(g, lits, all, Hyp(p), decisionOrder, early, reason, uf.m, s);
      }
    }
  }
}
