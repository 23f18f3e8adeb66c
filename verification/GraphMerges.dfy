// calcReason of constraints/Graph.cc: the merges, and what dropping one decision after
// the other leaves.
module GraphMerges {
  import opened Logic
  import opened Watching
  import opened Connectivity
  import opened DepthFirst
  import opened UnionFinds
  import opened Graphs
  import opened GraphStates

  // The pairs merged are the edges within s.
  ghost predicate EdgesFit(edges: set<(nat, nat)>, g: Graph, s: set<nat>) {
    && (forall e :: e in edges ==> e.0 in s && e.1 in s && e.0 < |g| && e.1 in g[e.0])
    && (forall u, w :: u in s && w in s && u < |g| && w in g[u] && u != w ==> (u, w) in edges || (w, u) in edges)
  }

  lemma JoinedIsLinked(edges: set<(nat, nat)>, g: Graph, s: set<nat>, u: nat, w: nat)
    requires GraphOK(g) && EdgesFit(edges, g, s) && u in s && w in s && forall x :: x in s ==> x < |g|
    ensures Joined(edges, u, w) <==> Linked(g, s, u, w)
  {
    if Joined(edges, u, w) {
      forall x: set<nat> | u in x && Closed(g, s, x) ensures w in x {
        assert Respects(edges, x) by {
          forall e | e in edges ensures e.0 in x <==> e.1 in x {
            assert e.0 in g[e.1];
          }
        }
      }
    }
    if Linked(g, s, u, w) {
      forall x: set<nat> | Respects(edges, x) && u in x ensures w in x {
        assert Closed(g, s, x);
      }
    }
  }

  ghost predicate Counts(act: seq<int>, a: set<nat>) {
    forall i :: 0 <= i < |act| ==> act[i] == if i in a then 1 else 0
  }

  // Two active clusters: the active vertices are not all linked.
  lemma ClustersSay(f: Forest, m: Meaning, g: Graph, s: set<nat>, a: set<nat>)
    requires ForestOK(f, m) && |m.rep| == |g| && GraphOK(g) && EdgesFit(m.edges, g, s) && Counts(m.act, a)
    requires a <= s && forall x :: x in s ==> x < |g|
    ensures f.clusters >= 2 <==> !AllLinked(g, s, a)
  {
    TwoClusters(f, m);
    assert |m.act| == |m.rep|;
    hide TreesOK, EdgesFit, Linked, Joined;
    forall u, w | u in a && w in a ensures m.rep[u] == m.rep[w] <==> Linked(g, s, u, w) {
      JoinedIsLinked(m.edges, g, s, u, w);
    }
    if u, w :| 0 <= u < |m.rep| && 0 <= w < |m.rep| && m.act[u] > 0 && m.act[w] > 0 && m.rep[u] != m.rep[w] {
      assert u in a && w in a && !Linked(g, s, u, w);
    }
    if !AllLinked(g, s, a) {
      var u, w :| u in a && w in a && !Linked(g, s, u, w);
      assert m.act[u] > 0 && m.act[w] > 0;
    }
  }

  // Without its last literal l, of vertex v, a list of decisions leaves v possible
  // and not active.
  lemma WithoutLast(lits: seq<Lit>, rest: seq<Lit>, l: Lit, others: seq<Lit>, v: nat)
    requires DistinctVars(lits) && v < |lits| && lits[v].v == l.v && NoDup(rest + [l] + others)
    requires NoClash(rest + [l] + others)
    ensures PossibleOf(lits, rest + others) == PossibleOf(lits, rest + [l] + others) + {v}
    ensures ActivesOf(lits, rest + others) == ActivesOf(lits, rest + [l] + others) - {v}
  {
    var all := rest + [l] + others;
    assert all[|rest|] == l;
    assert l !in rest + others by {
      forall k | 0 <= k < |rest + others| ensures (rest + others)[k] != l {
        assert (rest + others)[k] == all[if k < |rest| then k else k + 1];
      }
    }
    assert forall x :: x in all <==> x in rest + others || x == l;
    assert l == lits[v] || l == Neg(lits[v]);
    assert Neg(l) !in all && Neg(Neg(l)) == l;
    forall i | 0 <= i < |lits| && i != v ensures lits[i] != l && Neg(lits[i]) != l {
    }
  }

  ghost predicate Flags(activated: seq<bool>, s: set<nat>) {
    forall x :: 0 <= x < |activated| ==> (activated[x] <==> x in s)
  }

  ghost predicate EdgesIn(edges: set<(nat, nat)>, g: Graph, s: set<nat>) {
    forall e :: e in edges ==> e.0 in s && e.1 in s && e.0 < |g| && e.1 in g[e.0]
  }

  ghost predicate FitPart(edges: set<(nat, nat)>, g: Graph, s: set<nat>, v: nat, i: nat)
    requires v < |g| && i <= |g[v]|
  {
    && EdgesIn(edges, g, s + {v})
    && (forall u, w :: u in s && w in s && u < |g| && w in g[u] && u != w ==> (u, w) in edges || (w, u) in edges)
    && (forall w :: w in g[v][..i] && w in s && w != v ==> (v, w) in edges || (w, v) in edges)
  }

  lemma FitStart(edges: set<(nat, nat)>, g: Graph, s: set<nat>, v: nat)
    requires EdgesFit(edges, g, s) && v < |g|
    ensures FitPart(edges, g, s, v, 0)
  {
  }

  lemma FitMerge(edges: set<(nat, nat)>, g: Graph, s: set<nat>, v: nat, i: nat)
    requires v < |g| && i < |g[v]| && FitPart(edges, g, s, v, i) && g[v][i] in s
    ensures FitPart(edges + {(v, g[v][i])}, g, s, v, i + 1)
  {
    forall w ensures w in g[v][..i + 1] <==> w in g[v][..i] || w == g[v][i] {
      PrefixMember(g[v], i, w);
    }
  }

  lemma FitSkip(edges: set<(nat, nat)>, g: Graph, s: set<nat>, v: nat, i: nat)
    requires v < |g| && i < |g[v]| && FitPart(edges, g, s, v, i) && g[v][i] !in s
    ensures FitPart(edges, g, s, v, i + 1)
  {
    forall w ensures w in g[v][..i + 1] <==> w in g[v][..i] || w == g[v][i] {
      PrefixMember(g[v], i, w);
    }
  }

  lemma FitEnd(edges: set<(nat, nat)>, g: Graph, s: set<nat>, v: nat)
    requires GraphOK(g) && v < |g| && FitPart(edges, g, s, v, |g[v]|)
    ensures EdgesFit(edges, g, s + {v})
  {
    assert g[v][..|g[v]|] == g[v];
    forall u, w | u in s + {v} && w in s + {v} && u < |g| && w in g[u] && u != w
      ensures (u, w) in edges || (w, u) in edges
    {
      assert w < |g| && u in g[w] by {
        var k :| 0 <= k < |g[u]| && g[u][k] == w;
      }
    }
  }

  ghost predicate AllFit(edges: set<(nat, nat)>, g: Graph, s: set<nat>, v: nat, i: nat)
    requires v < |g| ==> i <= |g[v]|
  {
    && EdgesIn(edges, g, s)
    && (forall u, w :: u in s && w in s && u < |g| && w in g[u] && (u < v || (u == v && w in g[v][..i])) ==>
          (u, w) in edges)
  }

  lemma AllFitStep(edges: set<(nat, nat)>, g: Graph, s: set<nat>, v: nat, i: nat)
    requires v < |g| && i < |g[v]| && AllFit(edges, g, s, v, i)
    ensures v in s && g[v][i] in s ==> AllFit(edges + {(v, g[v][i])}, g, s, v, i + 1)
    ensures !(v in s && g[v][i] in s) ==> AllFit(edges, g, s, v, i + 1)
  {
    forall w ensures w in g[v][..i + 1] <==> w in g[v][..i] || w == g[v][i] {
      PrefixMember(g[v], i, w);
    }
  }

  lemma AllFitNext(edges: set<(nat, nat)>, g: Graph, s: set<nat>, v: nat)
    requires v < |g| && AllFit(edges, g, s, v, |g[v]|)
    ensures AllFit(edges, g, s, v + 1, 0)
  {
    assert g[v][..|g[v]|] == g[v];
  }

  lemma AllFitEnd(edges: set<(nat, nat)>, g: Graph, s: set<nat>)
    requires AllFit(edges, g, s, |g|, 0)
    ensures EdgesFit(edges, g, s)
  {
  }

  // The sets calcReason starts from: what it activates, and what counts as active.
  ghost function StartPossible(lits: seq<Lit>, st: seq<NodeState>, p: seq<Lit>): set<nat>
    requires |st| == |lits|
  {
    set i | 0 <= i < |lits| && st[i] != Inactive && (p == [] || p[0] != lits[i])
  }

  ghost function StartActives(lits: seq<Lit>, st: seq<NodeState>, p: seq<Lit>): set<nat>
    requires |st| == |lits|
  {
    set i | 0 <= i < |lits| && (st[i] == Active || (p != [] && lits[i] == Neg(p[0])))
  }

  // The vertices of the literal to be explained are undecided.
  ghost predicate Unset(lits: seq<Lit>, st: seq<NodeState>, p: seq<Lit>) {
    |st| == |lits| && |p| <= 1 && forall i :: 0 <= i < |lits| && p != [] && lits[i].v == p[0].v ==> st[i] == Undecided
  }

  // The vertex c alone would be enough for a conflict if its literal e held.
  ghost predicate Splits(g: Graph, lits: seq<Lit>, log: seq<Lit>, c: nat, e: Lit)
    requires c < |lits|
  {
    && IsUndecided(lits, log, c)
    && if e == lits[c] then !AllLinked(g, PossibleOf(lits, log), ActivesOf(lits, log) + {c})
       else !AllLinked(g, PossibleOf(lits, log) - {c}, ActivesOf(lits, log))
  }

  // state_ says nothing that all does not, and the decisions after the early ones are
  // the vertices that are not undecided, once each.
  ghost predicate Primed(g: Graph, lits: seq<Lit>, all: seq<Lit>, st: seq<NodeState>, order: seq<nat>, early: nat,
                         p: seq<Lit>)
  {
    && GraphOK(g) && |g| == |lits| == |st| && Unset(lits, st, p) && early <= |order| && NoDup(order[early..])
    && (forall i :: 0 <= i < |lits| && st[i] == Active ==> lits[i] in all)
    && (forall i :: 0 <= i < |lits| && st[i] == Inactive ==> Neg(lits[i]) in all)
    && (forall i: nat :: i in order[early..] <==> i < |lits| && st[i] != Undecided)
    && (forall k :: 0 <= k < early ==> order[k] < |lits| && st[order[k]] != Undecided)
    && !AllLinked(g, StartPossible(lits, st, p), StartActives(lits, st, p))
  }

  // With a variable of its own for each vertex, state_ says what all says.
  ghost predicate Exact(g: Graph, lits: seq<Lit>, all: seq<Lit>, st: seq<NodeState>, order: seq<nat>, early: nat,
                        p: seq<Lit>)
  {
    DistinctVars(lits) ==>
      && NoDup(all) && NoClash(all) && |p| <= 1 && (p != [] ==> p[0] !in all && Neg(p[0]) !in all)
      && StateOK(lits, all, st) && early <= |order|
      && OneByOne(lits, all, order[early..]) && EarlyOK(lits, all, order[..early])
      && Disconnected(g, lits, all + Hyp(p))
  }

  lemma PrimedFacts(g: Graph, lits: seq<Lit>, all: seq<Lit>, st: seq<NodeState>, order: seq<nat>, early: nat,
                    p: seq<Lit>)
    requires Primed(g, lits, all, st, order, early, p)
    ensures GraphOK(g) && |g| == |lits| == |st| && Unset(lits, st, p) && early <= |order|
  {
    hide AllLinked, GraphOK;
  }

  // StateOK gives the sets by the literals.
  lemma StartSets(lits: seq<Lit>, all: seq<Lit>, st: seq<NodeState>, p: seq<Lit>)
    requires StateOK(lits, all, st) && NoClash(all) && |p| <= 1 && (p != [] ==> p[0] !in all && Neg(p[0]) !in all)
    ensures StartPossible(lits, st, p) == PossibleOf(lits, all + Hyp(p))
    ensures StartActives(lits, st, p) == ActivesOf(lits, all + Hyp(p))
    ensures Unset(lits, st, p)
  {
    forall i | 0 <= i < |lits|
      ensures i in StartPossible(lits, st, p) <==> i in PossibleOf(lits, all + Hyp(p))
      ensures i in StartActives(lits, st, p) <==> i in ActivesOf(lits, all + Hyp(p))
      ensures p != [] && lits[i].v == p[0].v ==> st[i] == Undecided
    {
      if p != [] {
        SameVar(lits[i], p[0]);
        assert Neg(lits[i]) == Neg(p[0]) ==> lits[i] == p[0];
        assert Neg(Neg(p[0])) == p[0];
      }
    }
  }

  lemma LogPrimed(g: Graph, lits: seq<Lit>, log: seq<Lit>, st: seq<NodeState>, order: seq<nat>, early: nat, p: seq<Lit>)
    requires GraphOK(g) && |g| == |lits| && NoDup(log) && NoClash(log) && StateOK(lits, log, st)
    requires early <= |order| && OrderOK(lits, log, order[early..]) && EarlyOK(lits, log, order[..early])
    requires |p| <= 1 && (p != [] ==> p[0] !in log && Neg(p[0]) !in log) && Disconnected(g, lits, log + Hyp(p))
    ensures Primed(g, lits, log, st, order, early, p) && Exact(g, lits, log, st, order, early, p)
  {
    hide GraphOK, AllLinked, DistinctVars, NoDup, OneByOne, StartPossible, StartActives, HasVertex, PossibleOf,
         ActivesOf, Unset, NoClash;
    StartSets(lits, log, st, p);
    StatePrimed(lits, log, st, order, early);
    if DistinctVars(lits) {
      OneEach(lits, log, order[early..]);
    }
  }

  lemma StatePrimed(lits: seq<Lit>, log: seq<Lit>, st: seq<NodeState>, order: seq<nat>, early: nat)
    requires NoDup(log) && NoClash(log) && StateOK(lits, log, st)
    requires early <= |order| && OrderOK(lits, log, order[early..]) && EarlyOK(lits, log, order[..early])
    ensures |st| == |lits| && NoDup(order[early..])
    ensures forall i :: 0 <= i < |lits| && st[i] == Active ==> lits[i] in log
    ensures forall i :: 0 <= i < |lits| && st[i] == Inactive ==> Neg(lits[i]) in log
    ensures forall i: nat :: i in order[early..] <==> i < |lits| && st[i] != Undecided
    ensures forall k :: 0 <= k < early ==> order[k] < |lits| && st[order[k]] != Undecided
  {
    hide NoDup, NoClash, HasVertex;
    ListedIn(lits, log);
    forall k | 0 <= k < early ensures order[k] < |lits| && st[order[k]] != Undecided {
      assert order[..early][k] == order[k];
    }
  }

  // What propagate enqueues can be explained: calcReason may be called for the
  // literal, and for the conflict if it was false.
  lemma EnqueuedExplained(g: Graph, lits: seq<Lit>, log: seq<Lit>, x: Lit)
    requires x in Told(g, lits, log, false).implied
    ensures x !in log && Neg(x) !in log && Disconnected(g, lits, log + Hyp([x]))
    ensures exists c :: 0 <= c < |lits| && lits[c].v == x.v && Splits(g, lits, log, c, Neg(x))
  {
    hide AllLinked, Disconnected;
    ForcedHas(g, lits, log, 0, x);
    var c :| 0 <= c < |lits| && ForcedAt(g, lits, log, c, x);
    assert Neg(Neg(lits[c])) == lits[c];
    ForcedForces(g, lits, log, c);
    assert Splits(g, lits, log, c, Neg(x));
  }

  lemma CauseFree(g: Graph, lits: seq<Lit>, log: seq<Lit>, st: seq<NodeState>, c: nat, e: Lit)
    requires StateOK(lits, log, st) && c < |lits| && Splits(g, lits, log, c, e)
    ensures |st| == |lits| && st[c] == Undecided
  {
  }

  lemma CausePrimed(g: Graph, lits: seq<Lit>, log: seq<Lit>, st: seq<NodeState>, order: seq<nat>, early: nat, c: nat,
                    e: Lit)
    requires GraphOK(g) && |g| == |lits| && NoDup(log) && NoClash(log) && StateOK(lits, log, st)
    requires early <= |order| && OrderOK(lits, log, order[early..]) && EarlyOK(lits, log, order[..early])
    requires c < |lits| && lits[c].v == e.v && Splits(g, lits, log, c, e)
    ensures |st| == |lits|
    ensures Primed(g, lits, log + [e], st[c := if e == lits[c] then Active else Inactive], order + [c], early, [])
    ensures Exact(g, lits, log + [e], st[c := if e == lits[c] then Active else Inactive], order + [c], early, [])
  {
    hide GraphOK, AllLinked, DistinctVars, NoDup, OneByOne, HasVertex, NoClash, Splits, StateOK, OrderOK, EarlyOK,
         Disconnected;
    CauseFree(g, lits, log, st, c, e);
    StatePrimed(lits, log, st, order, early);
    CauseSets(g, lits, log, st, c, e);
    assert (order + [c])[early..] == order[early..] + [c] && (order + [c])[..early] == order[..early];
    AddedLast(order[early..], c);
    SameVar(lits[c], e);
    assert Neg(Neg(e)) == e;
    if DistinctVars(lits) {
      CauseExact(g, lits, log, st, order, early, c, e);
    }
  }

  lemma AddedLast(entries: seq<nat>, c: nat)
    requires NoDup(entries) && c !in entries
    ensures NoDup(entries + [c]) && forall i: nat :: i in entries + [c] <==> i in entries || i == c
  {
  }

  lemma CauseSets(g: Graph, lits: seq<Lit>, log: seq<Lit>, st: seq<NodeState>, c: nat, e: Lit)
    requires NoClash(log) && StateOK(lits, log, st) && c < |lits| && Splits(g, lits, log, c, e)
    ensures var now := st[c := if e == lits[c] then Active else Inactive];
            !AllLinked(g, StartPossible(lits, now, []), StartActives(lits, now, []))
  {
    hide AllLinked;
    var now := st[c := if e == lits[c] then Active else Inactive];
    var p, a := PossibleOf(lits, log), ActivesOf(lits, log);
    assert StartPossible(lits, now, []) == if e == lits[c] then p else p - {c};
    assert StartActives(lits, now, []) == if e == lits[c] then a + {c} else a;
  }

  lemma CauseExact(g: Graph, lits: seq<Lit>, log: seq<Lit>, st: seq<NodeState>, order: seq<nat>, early: nat, c: nat,
                   e: Lit)
    requires DistinctVars(lits) && NoDup(log) && NoClash(log) && StateOK(lits, log, st)
    requires early <= |order| && OrderOK(lits, log, order[early..]) && EarlyOK(lits, log, order[..early])
    requires c < |lits| && lits[c].v == e.v && Splits(g, lits, log, c, e)
    ensures |st| == |lits|
    ensures Exact(g, lits, log + [e], st[c := if e == lits[c] then Active else Inactive], order + [c], early, [])
  {
    hide AllLinked, DistinctVars, OrderOK, NoDup, NoClash, Disconnected, StateOK, EarlyOK, Splits;
    StateSize(lits, log, st);
    CauseNew(g, lits, log, c, e);
    FreshLast(log, e);
    OneEach(lits, log, order[early..]);
    assert (order + [c])[early..] == order[early..] + [c] && (order + [c])[..early] == order[..early];
    EarlyMore(lits, log, order[..early], e);
    StateStep(lits, log, st, e);
    FilledOne(lits, st, e, c);
    assert log + [e] + Hyp([]) == log + [e];
  }

  lemma CauseNew(g: Graph, lits: seq<Lit>, log: seq<Lit>, c: nat, e: Lit)
    requires c < |lits| && lits[c].v == e.v && Splits(g, lits, log, c, e)
    ensures e !in log && Neg(e) !in log && Disconnected(g, lits, log + [e])
  {
    hide AllLinked, Disconnected;
    SameVar(lits[c], e);
    assert Neg(Neg(lits[c])) == lits[c] && Neg(Neg(e)) == e;
    ForcedForces(g, lits, log, c);
  }

  lemma FilledOne(lits: seq<Lit>, st: seq<NodeState>, e: Lit, c: nat)
    requires DistinctVars(lits) && |st| == |lits| && c < |lits| && lits[c].v == e.v
    ensures Filled(lits, st, e, |lits|) == st[c := if e == lits[c] then Active else Inactive]
  {
  }

  // After v has been dropped once more.
  ghost predicate Dropping(g: Graph, m: Meaning, mid: Meaning, midF: Forest, s: set<nat>, v: nat, active: bool) {
    && ForestOK(midF, mid) && |mid.rep| == |mid.act| == |g| == |m.act| && v < |g|
    && EdgesFit(mid.edges, g, s + {v})
    && mid.act == if active then m.act[v := m.act[v] - 1] else m.act
  }

  // Where calcReason is when it comes to entry k - 1 of decision_order_: the vertices
  // it has dropped are in s and not in a, and of the others the literal was kept.
  ghost predicate Halfway(g: Graph, lits: seq<Lit>, all: seq<Lit>, st: seq<NodeState>, order: seq<nat>, early: nat,
                          p: seq<Lit>, k: nat, reason: seq<Lit>, m: Meaning, s: set<nat>, a: set<nat>)
  {
    && early <= |order| && k <= |order| && |st| == |lits| && (forall l :: l in reason ==> l in all)
    && (k >= early ==>
         && Counts(m.act, a) && a <= s && (forall i :: i in s ==> i < |g|) && !AllLinked(g, s, a)
         && (forall i: nat :: i < |lits| && i !in s ==> i in order[early..k] || Neg(lits[i]) in reason + Hyp(p))
         && (forall i: nat :: i in a ==> i < |lits| && (i in order[early..k] || lits[i] in reason + Hyp(p)))
         && (forall i: nat :: i in order[early..k] ==> i < |st| && (st[i] == Active <==> i in a)))
    && (k <= early ==> Disconnected(g, lits, reason + Hyp(p)))
  }

  lemma HalfwayFirst(g: Graph, lits: seq<Lit>, all: seq<Lit>, st: seq<NodeState>, order: seq<nat>, early: nat,
                     p: seq<Lit>, f: Forest, m: Meaning)
    requires Primed(g, lits, all, st, order, early, p) && |st| == |lits|
    requires ForestOK(f, m) && |m.rep| == |g| && EdgesFit(m.edges, g, StartPossible(lits, st, p))
    requires Counts(m.act, StartActives(lits, st, p))
    ensures f.clusters >= 2
    ensures Halfway(g, lits, all, st, order, early, p, |order|, [], m, StartPossible(lits, st, p),
                    StartActives(lits, st, p))
  {
    hide AllLinked, GraphOK, ForestOK, EdgesFit, Counts, Disconnected;
    var s, a := StartPossible(lits, st, p), StartActives(lits, st, p);
    StartWithin(lits, st, p);
    ClustersSay(f, m, g, s, a);
    assert order[early..|order|] == order[early..];
    forall i: nat | i < |lits| && i !in s ensures i in order[early..] || Neg(lits[i]) in [] + Hyp(p) {
      assert st[i] == Inactive || (p != [] && p[0] == lits[i]);
    }
    if |order| == early {
      HalfwayOver(g, lits, all, st, order, early, p, [], m, s, a);
    }
  }

  lemma StartWithin(lits: seq<Lit>, st: seq<NodeState>, p: seq<Lit>)
    requires Unset(lits, st, p)
    ensures StartActives(lits, st, p) <= StartPossible(lits, st, p)
    ensures forall i :: i in StartActives(lits, st, p) && st[i] != Active ==> lits[i] in Hyp(p) && st[i] == Undecided
  {
    forall i | i in StartActives(lits, st, p)
      ensures i in StartPossible(lits, st, p) && (st[i] != Active ==> lits[i] in Hyp(p) && st[i] == Undecided)
    {
      if p != [] {
        SameVar(lits[i], p[0]);
        assert Neg(p[0]) != p[0] && Neg(p[0]).v == p[0].v;
      }
    }
  }

  // All decisions have been looked at once: what was kept is enough.
  lemma HalfwayOver(g: Graph, lits: seq<Lit>, all: seq<Lit>, st: seq<NodeState>, order: seq<nat>, early: nat,
                    p: seq<Lit>, reason: seq<Lit>, m: Meaning, s: set<nat>, a: set<nat>)
    requires early <= |order| && a <= s && (forall i :: i in s ==> i < |g|) && |g| == |lits| && !AllLinked(g, s, a)
    requires forall i: nat :: i < |lits| && i !in s ==> i in order[early..early] || Neg(lits[i]) in reason + Hyp(p)
    requires forall i: nat :: i in a ==> i < |lits| && (i in order[early..early] || lits[i] in reason + Hyp(p))
    ensures Disconnected(g, lits, reason + Hyp(p))
  {
    hide AllLinked;
    var ls := reason + Hyp(p);
    assert PossibleOf(lits, ls) <= s && a <= ActivesOf(lits, ls);
    if AllLinked(g, PossibleOf(lits, ls), ActivesOf(lits, ls)) {
      AllLinkedEasier(g, PossibleOf(lits, ls), s, ActivesOf(lits, ls), a);
    }
  }

  lemma HalfwayNext(g: Graph, lits: seq<Lit>, all: seq<Lit>, st: seq<NodeState>, order: seq<nat>, early: nat,
                    p: seq<Lit>, k: nat, was: seq<Lit>, reason: seq<Lit>, m0: Meaning, s0: set<nat>, a0: set<nat>,
                    mid: Meaning, midF: Forest, m: Meaning, s: set<nat>, a: set<nat>)
    requires Primed(g, lits, all, st, order, early, p) && k < |order| && order[k] < |lits| == |st|
    requires Halfway(g, lits, all, st, order, early, p, k + 1, was, m0, s0, a0)
    requires Dropping(g, m0, mid, midF, s0, order[k], st[order[k]] == Active)
    requires midF.clusters >= 2 ==> m == mid && s == s0 + {order[k]} && a == a0 - {order[k]} && reason == was
    requires midF.clusters < 2 ==>
               m == m0 && s == s0 && a == a0
               && reason == was + [if st[order[k]] == Active then lits[order[k]] else Neg(lits[order[k]])]
    ensures Halfway(g, lits, all, st, order, early, p, k, reason, m, s, a)
  {
    hide AllLinked, GraphOK, ForestOK, EdgesFit, Counts, Disconnected, Dropping, Unset, StartPossible, StartActives;
    var v := order[k];
    KeptSaid(g, lits, all, st, order, early, p, k);
    if k >= early {
      EntryLast(order, early, k);
      DropCounts(g, m0, mid, midF, s0, a0, v, st[v] == Active);
      if k == early {
        HalfwayOver(g, lits, all, st, order, early, p, reason, m, s, a);
      }
    } else {
      DisconnectedMore(g, lits, was + Hyp(p), reason + Hyp(p));
    }
  }

  lemma KeptSaid(g: Graph, lits: seq<Lit>, all: seq<Lit>, st: seq<NodeState>, order: seq<nat>, early: nat,
                 p: seq<Lit>, k: nat)
    requires Primed(g, lits, all, st, order, early, p) && k < |order| && order[k] < |lits| == |st|
    ensures st[order[k]] != Undecided && |g| == |lits|
    ensures (if st[order[k]] == Active then lits[order[k]] else Neg(lits[order[k]])) in all
  {
    hide AllLinked, GraphOK, Unset;
    if k >= early {
      assert order[early..][k - early] == order[k];
    }
  }

  lemma EntryLast(order: seq<nat>, early: nat, k: nat)
    requires early <= k < |order| && NoDup(order[early..])
    ensures order[early..k + 1] == order[early..k] + [order[k]] && order[k] !in order[early..k]
  {
    forall x | 0 <= x < k - early ensures order[early..k][x] != order[k] {
      assert order[early..][x] == order[early..k][x] && order[early..][k - early] == order[k];
    }
  }

  lemma DropCounts(g: Graph, m0: Meaning, mid: Meaning, midF: Forest, s0: set<nat>, a0: set<nat>, v: nat, active: bool)
    requires GraphOK(g) && Dropping(g, m0, mid, midF, s0, v, active) && Counts(m0.act, a0) && (active <==> v in a0)
    requires a0 <= s0 && forall i :: i in s0 ==> i < |g|
    ensures Counts(mid.act, a0 - {v})
    ensures midF.clusters >= 2 <==> !AllLinked(g, s0 + {v}, a0 - {v})
  {
    hide AllLinked, GraphOK, ForestOK, EdgesFit;
    ClustersSay(midF, mid, g, s0 + {v}, a0 - {v});
  }

  lemma HalfwayLast(g: Graph, lits: seq<Lit>, all: seq<Lit>, st: seq<NodeState>, order: seq<nat>, early: nat,
                    p: seq<Lit>, reason: seq<Lit>, m: Meaning, s: set<nat>, a: set<nat>)
    requires Halfway(g, lits, all, st, order, early, p, 0, reason, m, s, a)
    ensures (forall l :: l in reason ==> l in all) && Disconnected(g, lits, reason + Hyp(p)) && early <= |order|
  {
    hide Disconnected, AllLinked;
  }

  lemma ForestSizes(f: Forest, m: Meaning)
    requires ForestOK(f, m)
    ensures |m.act| == |m.rep|
  {
  }

  lemma FlagsAdd(activated: seq<bool>, s: set<nat>, v: nat)
    requires Flags(activated, s) && v < |activated|
    ensures Flags(activated[v := true], s + {v})
  {
  }

  lemma DroppedAgain(g: Graph, m: Meaning, mid: Meaning, midF: Forest, s: set<nat>, v: nat, active: bool)
    requires ForestOK(midF, mid) && |mid.rep| == |g| == |m.act| && v < |g| && EdgesFit(mid.edges, g, s + {v})
    requires mid.act == if active then m.act[v := m.act[v] - 1] else m.act
    ensures Dropping(g, m, mid, midF, s, v, active)
  {
    hide ForestOK, EdgesFit;
  }

  // The abort for a decision on the variable of p is never reached.
  lemma Unexplained(g: Graph, lits: seq<Lit>, all: seq<Lit>, st: seq<NodeState>, order: seq<nat>, early: nat, k: nat,
                    p: seq<Lit>)
    requires Primed(g, lits, all, st, order, early, p) && k < |order|
    ensures order[k] < |lits| && (p != [] ==> p[0].v != lits[order[k]].v)
  {
    hide AllLinked, GraphOK;
    if k >= early {
      assert order[early..][k - early] == order[k];
      assert order[k] in order[early..];
    }
    assert order[k] < |lits| && st[order[k]] != Undecided;
  }
}
