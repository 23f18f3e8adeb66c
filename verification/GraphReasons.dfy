// The answer of calcReason of constraints/Graph.cc when every vertex has a variable of
// its own: the reduction, and what the vertices that are listed twice add.
module GraphReasons {
  import opened Logic
  import opened Watching
  import opened Connectivity
  import opened DepthFirst
  import opened UnionFinds
  import opened Graphs
  import opened GraphStates
  import opened GraphMerges

  ghost predicate Mirrors(m: Meaning, g: Graph, lits: seq<Lit>, ls: seq<Lit>) {
    EdgesFit(m.edges, g, PossibleOf(lits, ls)) && Counts(m.act, ActivesOf(lits, ls))
  }

  ghost predicate Sane(lits: seq<Lit>, ls: seq<Lit>) {
    NoDup(ls) && NoClash(ls)
  }

  lemma ReduceStart(lits: seq<Lit>, all: seq<Lit>, p: seq<Lit>)
    requires NoDup(all) && NoClash(all) && |p| <= 1 && (p != [] ==> p[0] !in all && Neg(p[0]) !in all)
    ensures Sane(lits, all + [] + Hyp(p)) && Sane(lits, all + Hyp(p))
  {
    assert all + [] + Hyp(p) == all + Hyp(p);
    if p != [] {
      assert Neg(Neg(p[0])) == p[0];
    }
  }

  lemma MirrorsIs(f: Forest, m: Meaning, g: Graph, lits: seq<Lit>, ls: seq<Lit>)
    requires EdgesFit(m.edges, g, PossibleOf(lits, ls)) && Counts(m.act, ActivesOf(lits, ls))
    ensures Mirrors(m, g, lits, ls)
  {
  }

  lemma ClustersNow(f: Forest, m: Meaning, g: Graph, lits: seq<Lit>, ls: seq<Lit>)
    requires ForestOK(f, m) && |m.rep| == |g| == |lits| && GraphOK(g) && Mirrors(m, g, lits, ls) && Sane(lits, ls)
    ensures f.clusters >= 2 <==> Disconnected(g, lits, ls)
  {
    hide ForestOK, EdgesFit, Counts, GraphOK;
    assert ActivesOf(lits, ls) <= PossibleOf(lits, ls);
    ClustersSay(f, m, g, PossibleOf(lits, ls), ActivesOf(lits, ls));
  }

  lemma ReduceStep(g: Graph, lits: seq<Lit>, all: seq<Lit>, st: seq<NodeState>, k: nat, kept: seq<Lit>, hyp: seq<Lit>,
                   v: nat)
    requires StateOK(lits, all, st) && DistinctVars(lits) && k < |all| && v < |lits| && lits[v].v == all[k].v
    requires Sane(lits, all[..k + 1] + kept + hyp) && NoClash(all)
    ensures var was, now := all[..k + 1] + kept + hyp, all[..k] + kept + hyp;
            && PossibleOf(lits, now) == PossibleOf(lits, was) + {v}
            && ActivesOf(lits, now) == ActivesOf(lits, was) - {v}
            && (st[v] == Active <==> v in ActivesOf(lits, was))
            && all[k] == (if st[v] == Active then lits[v] else Neg(lits[v])) && Sane(lits, now)
            && Reduced(g, lits, all[..k + 1], kept, hyp)
               == Reduced(g, lits, all[..k], if Disconnected(g, lits, now) then kept else kept + [all[k]], hyp)
  {
    hide Disconnected;
    var l, rest, others := all[k], all[..k], kept + hyp;
    var was, now := all[..k + 1] + kept + hyp, all[..k] + kept + hyp;
    assert all[..k + 1] == rest + [l];
    assert was == rest + [l] + others && now == rest + others;
    WithoutLast(lits, rest, l, others, v);
    assert was[k] == l;
    SaneWithout(lits, rest, l, others);
    StateAtLast(lits, all, st, k, v);
    assert l in was;
  }

  lemma SaneWithout(lits: seq<Lit>, rest: seq<Lit>, l: Lit, others: seq<Lit>)
    requires Sane(lits, rest + [l] + others)
    ensures Sane(lits, rest + others)
  {
    var all, less := rest + [l] + others, rest + others;
    forall x | 0 <= x < |less| ensures less[x] == all[if x < |rest| then x else x + 1] {
    }
    forall x | x in less ensures x in all {
    }
  }

  lemma MirrorsStep(m: Meaning, saved: Meaning, g: Graph, lits: seq<Lit>, was: seq<Lit>, now: seq<Lit>,
                    st: seq<NodeState>, v: nat)
    requires Mirrors(saved, g, lits, was) && |saved.act| == |lits| == |st| && v < |lits|
    requires PossibleOf(lits, now) == PossibleOf(lits, was) + {v} && ActivesOf(lits, now) == ActivesOf(lits, was) - {v}
    requires st[v] == Active <==> v in ActivesOf(lits, was)
    requires m.act == if st[v] == Active then saved.act[v := saved.act[v] - 1] else saved.act
    requires EdgesFit(m.edges, g, PossibleOf(lits, was) + {v})
    ensures Mirrors(m, g, lits, now)
  {
    hide EdgesFit, ActivesOf, PossibleOf;
  }

  // calcReason has gone through the decisions from j on and kept the literals kept.
  ghost predicate Reducing(g: Graph, lits: seq<Lit>, all: seq<Lit>, j: nat, kept: seq<Lit>, hyp: seq<Lit>, m: Meaning,
                           s: set<nat>)
    requires j <= |all|
  {
    var now := all[..j] + kept + hyp;
    && s == PossibleOf(lits, now) && Mirrors(m, g, lits, now) && Disconnected(g, lits, now) && Sane(lits, now)
    && Reduced(g, lits, all[..j], kept, hyp) == Reduced(g, lits, all, [], hyp)
  }

  lemma ReducingBegins(g: Graph, lits: seq<Lit>, all: seq<Lit>, hyp: seq<Lit>, m: Meaning, s: set<nat>)
    requires s == PossibleOf(lits, all + [] + hyp) && Mirrors(m, g, lits, all + [] + hyp)
    requires Disconnected(g, lits, all + hyp) && Sane(lits, all + hyp)
    ensures Reducing(g, lits, all, |all|, [], hyp, m, s)
  {
    hide Mirrors, Disconnected, Sane, PossibleOf, Reduced;
    assert all[..|all|] == all && all + [] + hyp == all + hyp;
  }

  lemma ReducingStep(g: Graph, lits: seq<Lit>, all: seq<Lit>, st: seq<NodeState>, j: nat, was: seq<Lit>,
                     kept: seq<Lit>, hyp: seq<Lit>, v: nat, m0: Meaning, s0: set<nat>, mid: Meaning, midF: Forest,
                     m: Meaning, s: set<nat>)
    requires j < |all| && Reducing(g, lits, all, j + 1, was, hyp, m0, s0)
    requires StateOK(lits, all, st) && DistinctVars(lits) && NoClash(all) && GraphOK(g)
    requires v < |lits| && lits[v].v == all[j].v && |lits| == |st| == |g| == |mid.rep| == |m0.act|
    requires ForestOK(midF, mid) && EdgesFit(mid.edges, g, s0 + {v})
    requires mid.act == if st[v] == Active then m0.act[v := m0.act[v] - 1] else m0.act
    requires midF.clusters >= 2 ==> m == mid && s == s0 + {v} && kept == was
    requires midF.clusters < 2 ==>
               m == m0 && s == s0 && kept == was + [if st[v] == Active then lits[v] else Neg(lits[v])]
    ensures Reducing(g, lits, all, j, kept, hyp, m, s)
  {
    hide GraphOK, StateOK, EdgesFit, Disconnected, PossibleOf, ActivesOf, Reduced, NoClash, DistinctVars, ForestOK,
         Sane, Mirrors;
    ReduceStep(g, lits, all, st, j, was, hyp, v);
    MirrorsStep(mid, m0, g, lits, all[..j + 1] + was + hyp, all[..j] + was + hyp, st, v);
    ClustersNow(midF, mid, g, lits, all[..j] + was + hyp);
    if midF.clusters < 2 {
      KeptStep(g, lits, all, j, was, hyp);
      MirrorsSame(m0, g, lits, all[..j + 1] + was + hyp, all[..j] + kept + hyp);
    }
  }

  lemma MirrorsSame(m: Meaning, g: Graph, lits: seq<Lit>, was: seq<Lit>, now: seq<Lit>)
    requires Mirrors(m, g, lits, was)
    requires PossibleOf(lits, now) == PossibleOf(lits, was) && ActivesOf(lits, now) == ActivesOf(lits, was)
    ensures Mirrors(m, g, lits, now)
  {
  }

  lemma ReducingEnds(g: Graph, lits: seq<Lit>, all: seq<Lit>, kept: seq<Lit>, hyp: seq<Lit>, m: Meaning, s: set<nat>)
    requires Reducing(g, lits, all, 0, kept, hyp, m, s) && Disconnected(g, lits, all + hyp) && |m.act| == |lits|
    ensures kept == Reduced(g, lits, all, [], hyp) && Sane(lits, kept + hyp)
    ensures Fading(g, lits, kept + hyp, m, s)
  {
    hide Disconnected, Sane, PossibleOf, EdgesFit;
    assert all[..0] == [];
    ReducedNothing(g, lits, kept, hyp);
    assert all[..0] + kept + hyp == kept + hyp;
    forall i: nat | i < |m.act| ensures FadesAt(g, lits, kept + hyp, m.act[i], i) {
      CountFades(g, lits, kept + hyp, i);
    }
  }

  lemma CountFades(g: Graph, lits: seq<Lit>, ls: seq<Lit>, i: nat)
    requires Sane(lits, ls)
    ensures FadesAt(g, lits, ls, if i in ActivesOf(lits, ls) then 1 else 0, i)
  {
    if i in ActivesOf(lits, ls) {
      LinkedSelf(g, PossibleOf(lits, ls), i);
    }
  }

  // While vertices are dropped a second time the counts of those that are connected
  // to an active vertex are right, and the others are not positive.
  ghost predicate Fading(g: Graph, lits: seq<Lit>, ls: seq<Lit>, m: Meaning, s: set<nat>) {
    s == PossibleOf(lits, ls) && forall i: nat :: i < |m.act| ==> FadesAt(g, lits, ls, m.act[i], i)
  }

  ghost predicate FadesAt(g: Graph, lits: seq<Lit>, ls: seq<Lit>, c: int, i: nat) {
    if NearActive(g, lits, ls, i) then c == (if i in ActivesOf(lits, ls) then 1 else 0) else c <= 0
  }

  // What calcReason kept cannot be spared, apart from the hypothesis.
  ghost predicate TightOK(g: Graph, lits: seq<Lit>, all: seq<Lit>, r: seq<Lit>, hyp: seq<Lit>) {
    && GraphOK(g) && |g| == |lits| && DistinctVars(lits) && |hyp| <= 1
    && Disconnected(g, lits, r + hyp) && AllNeeded(g, lits, r, hyp) && Sane(lits, r + hyp)
    && NoClash(all) && (forall l :: l in r ==> l in all) && forall l :: l in hyp ==> l !in all && Neg(l) !in all
  }

  lemma TightFacts(g: Graph, lits: seq<Lit>, all: seq<Lit>, r: seq<Lit>, hyp: seq<Lit>)
    requires TightOK(g, lits, all, r, hyp)
    ensures GraphOK(g) && |g| == |lits|
    ensures forall x :: x in ActivesOf(lits, r + hyp) ==> x in PossibleOf(lits, r + hyp)
    ensures forall x :: x in PossibleOf(lits, r + hyp) ==> x < |g|
  {
    hide Disconnected, AllNeeded, NoDup;
  }

  lemma WithoutVertex(g: Graph, lits: seq<Lit>, all: seq<Lit>, r: seq<Lit>, hyp: seq<Lit>, v: nat)
    requires TightOK(g, lits, all, r, hyp) && v < |lits| && (lits[v] in r || Neg(lits[v]) in r)
    ensures AllLinked(g, PossibleOf(lits, r + hyp) + {v}, ActivesOf(lits, r + hyp) - {v})
  {
    hide AllLinked, PossibleOf, ActivesOf, NoDup, NoClash;
    var k :| 0 <= k < |r| && (r[k] == lits[v] || r[k] == Neg(lits[v]));
    var l := r[k];
    assert Neg(lits[v]).v == lits[v].v;
    assert Needed(g, lits, r, k, hyp);
    assert r + hyp == r[..k] + [l] + (r[k + 1..] + hyp);
    assert r[..k] + r[k + 1..] + hyp == r[..k] + (r[k + 1..] + hyp);
    WithoutLast(lits, r[..k], l, r[k + 1..] + hyp, v);
  }

  // Exactly two active vertices are left, and they are not connected.
  lemma TwoActives(g: Graph, lits: seq<Lit>, all: seq<Lit>, r: seq<Lit>, hyp: seq<Lit>) returns (a: nat, b: nat)
    requires TightOK(g, lits, all, r, hyp)
    ensures ActivesOf(lits, r + hyp) == {a, b} && a != b
    ensures !Linked(g, PossibleOf(lits, r + hyp), a, b) && !Linked(g, PossibleOf(lits, r + hyp), b, a)
  {
    TightFacts(g, lits, all, r, hyp);
    var act, p := ActivesOf(lits, r + hyp), PossibleOf(lits, r + hyp);
    assert !AllLinked(g, p, act);
    a, b :| a in act && b in act && !Linked(g, p, a, b);
    hide TightOK, PossibleOf, ActivesOf, Linked;
    LinkedSelf(g, p, a);
    if Linked(g, p, b, a) {
      LinkedSym(g, p, b, a);
    }
    forall c | c in act ensures c == a || c == b {
      if c != a && c != b {
        ThirdActive(g, lits, all, r, hyp, a, b, c);
      }
    }
    assert act == {a, b};
  }

  // A third one could be spared, or one of the two.
  lemma ThirdActive(g: Graph, lits: seq<Lit>, all: seq<Lit>, r: seq<Lit>, hyp: seq<Lit>, a: nat, b: nat, c: nat)
    requires TightOK(g, lits, all, r, hyp) && a in ActivesOf(lits, r + hyp) && b in ActivesOf(lits, r + hyp)
    requires !Linked(g, PossibleOf(lits, r + hyp), a, b) && a != b && c != a && c != b
    ensures c !in ActivesOf(lits, r + hyp)
  {
    TightFacts(g, lits, all, r, hyp);
    var act, p := ActivesOf(lits, r + hyp), PossibleOf(lits, r + hyp);
    if c in act {
      if lits[c] in r {
        Spared(g, lits, all, r, hyp, c, a, b);
      } else {
        OneHyp(g, lits, all, r, hyp, c, a);
        OneHyp(g, lits, all, r, hyp, c, b);
        Spared(g, lits, all, r, hyp, a, b, c);
        Spared(g, lits, all, r, hyp, b, a, c);
        LinkedSym(g, p, b, c);
        LinkedTrans(g, p, a, c, b);
      }
    }
  }

  lemma Spared(g: Graph, lits: seq<Lit>, all: seq<Lit>, r: seq<Lit>, hyp: seq<Lit>, c: nat, a: nat, b: nat)
    requires TightOK(g, lits, all, r, hyp) && c in ActivesOf(lits, r + hyp) && lits[c] in r
    requires a in ActivesOf(lits, r + hyp) && b in ActivesOf(lits, r + hyp) && a != c && b != c
    ensures Linked(g, PossibleOf(lits, r + hyp), a, b)
  {
    TightFacts(g, lits, all, r, hyp);
    hide TightOK, Linked;
    WithoutVertex(g, lits, all, r, hyp, c);
    assert PossibleOf(lits, r + hyp) + {c} == PossibleOf(lits, r + hyp);
  }

  // At most one active vertex comes from the hypothesis.
  lemma OneHyp(g: Graph, lits: seq<Lit>, all: seq<Lit>, r: seq<Lit>, hyp: seq<Lit>, c: nat, a: nat)
    requires TightOK(g, lits, all, r, hyp) && c in ActivesOf(lits, r + hyp) && a in ActivesOf(lits, r + hyp)
    requires lits[c] !in r && a != c
    ensures lits[a] in r
  {
    hide Disconnected, AllNeeded, GraphOK;
    assert lits[c] in hyp && hyp == [lits[c]];
    assert lits[a] != lits[c];
  }

  // Two vertices are in one class exactly if they are connected within s.
  lemma ClassLinked(f: Forest, m: Meaning, g: Graph, s: set<nat>, u: nat, w: nat)
    requires ForestOK(f, m) && |m.rep| == |g| && GraphOK(g) && EdgesFit(m.edges, g, s)
    requires u < |g| && w in s && forall x :: x in s ==> x < |g|
    ensures m.rep[u] == m.rep[w] <==> Linked(g, s, u, w)
  {
    hide TreesOK, Linked, Joined;
    if u in s {
      JoinedIsLinked(m.edges, g, s, u, w);
    } else {
      OutsideAlone(m.edges, g, s, u, w);
    }
  }

  lemma OutsideAlone(edges: set<(nat, nat)>, g: Graph, s: set<nat>, u: nat, w: nat)
    requires EdgesFit(edges, g, s) && u !in s && w in s
    ensures !Joined(edges, u, w) && !Linked(g, s, u, w)
  {
    assert Respects(edges, {u});
  }

  // If v is not connected to an active vertex the two active classes stay.
  lemma StayTwo(g: Graph, lits: seq<Lit>, all: seq<Lit>, r: seq<Lit>, hyp: seq<Lit>, m: Meaning, s: set<nat>, v: nat,
                mid: Meaning, midF: Forest)
    requires TightOK(g, lits, all, r, hyp) && Fading(g, lits, r + hyp, m, s) && v < |lits| && |m.act| == |lits|
    requires Dropping(g, m, mid, midF, s, v, lits[v] in all) && !KeptAgain(g, lits, all, r + hyp, v)
    ensures midF.clusters >= 2 && s + {v} == s && Fading(g, lits, r + hyp, mid, s)
  {
    hide TightOK, ForestOK, EdgesFit, NearActive, Sum;
    assert v in s;
    assert s + {v} == s;
    var a, b := TwoActives(g, lits, all, r, hyp);
    OneCounts(g, lits, all, r, hyp, m, s, v, mid, midF, a, b);
    OneCounts(g, lits, all, r, hyp, m, s, v, mid, midF, b, a);
    TightFacts(g, lits, all, r, hyp);
    ClassLinked(midF, mid, g, s, a, b);
    ClustersBySums(midF, mid);
  }

  lemma OneCounts(g: Graph, lits: seq<Lit>, all: seq<Lit>, r: seq<Lit>, hyp: seq<Lit>, m: Meaning, s: set<nat>, v: nat,
                  mid: Meaning, midF: Forest, a: nat, b: nat)
    requires TightOK(g, lits, all, r, hyp) && Fading(g, lits, r + hyp, m, s) && v < |lits| && |m.act| == |lits|
    requires Dropping(g, m, mid, midF, s, v, lits[v] in all) && !KeptAgain(g, lits, all, r + hyp, v) && s + {v} == s
    requires ActivesOf(lits, r + hyp) == {a, b} && a != b && !Linked(g, s, b, a)
    ensures a < |mid.rep| && Sum(mid.rep, mid.act, mid.rep[a], |mid.rep|) == 1
  {
    hide TightOK, ForestOK, EdgesFit, Sum, Linked;
    TightFacts(g, lits, all, r, hyp);
    forall i | 0 <= i < |mid.rep| && mid.rep[i] == mid.rep[a] ensures mid.act[i] == if i == a then 1 else 0 {
      ClassLinked(midF, mid, g, s, i, a);
      assert a in ActivesOf(lits, r + hyp);
      assert NearActive(g, lits, r + hyp, i);
      assert FadesAt(g, lits, r + hyp, m.act[i], i);
    }
    SumOnly(mid.rep, mid.act, mid.rep[a], |mid.rep|, a);
  }

  // If its literal was kept and it is inactive, all active vertices are in one class.
  lemma BackInactive(g: Graph, lits: seq<Lit>, all: seq<Lit>, r: seq<Lit>, hyp: seq<Lit>, m: Meaning, s: set<nat>,
                     v: nat, mid: Meaning, midF: Forest)
    requires TightOK(g, lits, all, r, hyp) && Fading(g, lits, r + hyp, m, s) && v < |lits| && |m.act| == |lits|
    requires Dropping(g, m, mid, midF, s, v, lits[v] in all) && Neg(lits[v]) in r + hyp
    requires lits[v] in all || Neg(lits[v]) in all
    ensures midF.clusters < 2
  {
    hide TightOK, ForestOK, EdgesFit, Sum, Linked, NearActive, FadesAt, ActivesOf, PossibleOf, Fading;
    BackLinked(g, lits, all, r, hyp, m, s, v, mid, midF);
    ClustersBySums(midF, mid);
    forall u: nat, w: nat | u < |mid.rep| && w < |mid.rep|
                            && Sum(mid.rep, mid.act, mid.rep[u], |mid.rep|) > 0
                            && Sum(mid.rep, mid.act, mid.rep[w], |mid.rep|) > 0
      ensures mid.rep[u] == mid.rep[w]
    {
      var i := ActiveIn(g, lits, r + hyp, m, s, mid, mid.rep[u]);
      var j := ActiveIn(g, lits, r + hyp, m, s, mid, mid.rep[w]);
      ClassLinked(midF, mid, g, s + {v}, i, j);
    }
  }

  lemma BackLinked(g: Graph, lits: seq<Lit>, all: seq<Lit>, r: seq<Lit>, hyp: seq<Lit>, m: Meaning, s: set<nat>,
                   v: nat, mid: Meaning, midF: Forest)
    requires TightOK(g, lits, all, r, hyp) && Fading(g, lits, r + hyp, m, s) && v < |lits| && |m.act| == |lits|
    requires Dropping(g, m, mid, midF, s, v, lits[v] in all) && Neg(lits[v]) in r + hyp
    requires lits[v] in all || Neg(lits[v]) in all
    ensures GraphOK(g) && forall x :: 0 <= x < |m.act| ==> mid.act[x] <= m.act[x]
    ensures forall i :: i in ActivesOf(lits, r + hyp) ==> i in s + {v}
    ensures forall x :: x in s + {v} ==> x < |g|
    ensures forall i, j :: i in ActivesOf(lits, r + hyp) && j in ActivesOf(lits, r + hyp) ==> Linked(g, s + {v}, i, j)
  {
    InactiveKept(g, lits, all, r, hyp, v);
    WithoutVertex(g, lits, all, r, hyp, v);
    TightFacts(g, lits, all, r, hyp);
    hide TightOK, ForestOK, EdgesFit, Linked, NearActive, FadesAt;
    assert ActivesOf(lits, r + hyp) - {v} == ActivesOf(lits, r + hyp);
  }

  // A class with a positive sum has an active vertex.
  lemma ActiveIn(g: Graph, lits: seq<Lit>, ls: seq<Lit>, m: Meaning, s: set<nat>, mid: Meaning, c: nat)
    returns (i: nat)
    requires Fading(g, lits, ls, m, s) && |mid.rep| == |mid.act| == |m.act|
    requires forall x :: 0 <= x < |m.act| ==> mid.act[x] <= m.act[x]
    requires Sum(mid.rep, mid.act, c, |mid.rep|) > 0
    ensures i < |mid.rep| && mid.rep[i] == c && i in ActivesOf(lits, ls)
  {
    hide NearActive, Sum, ActivesOf, PossibleOf;
    SumHas(mid.rep, mid.act, c, |mid.rep|);
    i :| 0 <= i < |mid.rep| && mid.rep[i] == c && mid.act[i] > 0;
    assert FadesAt(g, lits, ls, m.act[i], i);
  }

  lemma InactiveKept(g: Graph, lits: seq<Lit>, all: seq<Lit>, r: seq<Lit>, hyp: seq<Lit>, v: nat)
    requires TightOK(g, lits, all, r, hyp) && v < |lits| && Neg(lits[v]) in r + hyp
    requires lits[v] in all || Neg(lits[v]) in all
    ensures Neg(lits[v]) in r && lits[v] !in all && v !in ActivesOf(lits, r + hyp)
  {
    hide Disconnected, AllNeeded, GraphOK, DistinctVars;
    assert Neg(Neg(lits[v])) == lits[v];
    if Neg(lits[v]) in hyp {
      assert false;
    }
  }

  // If it is active and connected to an active vertex, that one's class counts zero.
  lemma BackActive(g: Graph, lits: seq<Lit>, all: seq<Lit>, r: seq<Lit>, hyp: seq<Lit>, m: Meaning, s: set<nat>, v: nat,
                   mid: Meaning, midF: Forest)
    requires TightOK(g, lits, all, r, hyp) && Fading(g, lits, r + hyp, m, s) && v < |lits| && |m.act| == |lits|
    requires Dropping(g, m, mid, midF, s, v, true) && NearActive(g, lits, r + hyp, v)
    ensures midF.clusters < 2
  {
    var x, y := TwoActives(g, lits, all, r, hyp);
    var u :| u in ActivesOf(lits, r + hyp) && Linked(g, s, v, u);
    var o := if u == x then y else x;
    assert v in s;
    TightFacts(g, lits, all, r, hyp);
    assert s + {v} == s;
    LastActive(g, lits, all, r, hyp, m, s, v, mid, midF, u, o);
  }

  lemma LastActive(g: Graph, lits: seq<Lit>, all: seq<Lit>, r: seq<Lit>, hyp: seq<Lit>, m: Meaning, s: set<nat>,
                   v: nat, mid: Meaning, midF: Forest, u: nat, o: nat)
    requires TightOK(g, lits, all, r, hyp) && Fading(g, lits, r + hyp, m, s) && v < |lits| && |m.act| == |lits|
    requires Dropping(g, m, mid, midF, s, v, true) && s + {v} == s && Linked(g, s, v, u)
    requires ActivesOf(lits, r + hyp) == {u, o} && u != o && !Linked(g, s, o, u)
    ensures midF.clusters < 2
  {
    hide TightOK, ForestOK, EdgesFit, Sum, Linked, NearActive, FadesAt, Fading, ActivesOf;
    NearZero(g, lits, all, r, hyp, m, s, v, mid, midF, u, o);
    ClustersBySums(midF, mid);
    forall c: nat | c < |mid.rep| && Sum(mid.rep, mid.act, mid.rep[c], |mid.rep|) > 0
      ensures o < |mid.rep| && mid.rep[c] == mid.rep[o]
    {
      var i := ActiveIn(g, lits, r + hyp, m, s, mid, mid.rep[c]);
      assert i == u || i == o;
    }
  }

  lemma NearZero(g: Graph, lits: seq<Lit>, all: seq<Lit>, r: seq<Lit>, hyp: seq<Lit>, m: Meaning, s: set<nat>, v: nat,
                 mid: Meaning, midF: Forest, u: nat, o: nat)
    requires TightOK(g, lits, all, r, hyp) && Fading(g, lits, r + hyp, m, s) && v < |lits| && |m.act| == |lits|
    requires Dropping(g, m, mid, midF, s, v, true) && s + {v} == s && Linked(g, s, v, u)
    requires ActivesOf(lits, r + hyp) == {u, o} && u != o && !Linked(g, s, o, u)
    ensures u < |mid.rep| && Sum(mid.rep, mid.act, mid.rep[u], |mid.rep|) == 0
  {
    TightFacts(g, lits, all, r, hyp);
    assert u in ActivesOf(lits, r + hyp);
    hide TightOK, ForestOK, EdgesFit, Sum, Linked;
    forall i | 0 <= i < |mid.rep| && mid.rep[i] == mid.rep[u] ensures m.act[i] == if i == u then 1 else 0 {
      ClassLinked(midF, mid, g, s, i, u);
      assert NearActive(g, lits, r + hyp, i);
      assert FadesAt(g, lits, r + hyp, m.act[i], i);
    }
    SumOnly(mid.rep, m.act, mid.rep[u], |mid.rep|, u);
    ClassLinked(midF, mid, g, s, v, u);
    SumAdded(mid.rep, m.act, v, -1, mid.rep[u], |mid.rep|);
  }

  // Exactly the vertices KeptAgain describes are kept a second time.
  lemma FadingStep(g: Graph, lits: seq<Lit>, all: seq<Lit>, r: seq<Lit>, hyp: seq<Lit>, m: Meaning, s: set<nat>, v: nat,
                   mid: Meaning, midF: Forest)
    requires TightOK(g, lits, all, r, hyp) && Fading(g, lits, r + hyp, m, s) && v < |lits| && |m.act| == |lits|
    requires Dropping(g, m, mid, midF, s, v, lits[v] in all) && (lits[v] in all || Neg(lits[v]) in all)
    ensures midF.clusters >= 2 <==> !KeptAgain(g, lits, all, r + hyp, v)
    ensures midF.clusters >= 2 ==> s + {v} == s && Fading(g, lits, r + hyp, mid, s)
  {
    hide TightOK, Fading, Dropping, NearActive;
    if !KeptAgain(g, lits, all, r + hyp, v) {
      StayTwo(g, lits, all, r, hyp, m, s, v, mid, midF);
    } else if Neg(lits[v]) in r + hyp {
      BackInactive(g, lits, all, r, hyp, m, s, v, mid, midF);
    } else {
      BackActive(g, lits, all, r, hyp, m, s, v, mid, midF);
    }
  }

  // Where calcReason is when it comes to entry k - 1 of decision_order_.
  ghost predicate Round(g: Graph, lits: seq<Lit>, all: seq<Lit>, hyp: seq<Lit>, order: seq<nat>, early: nat, k: nat,
                        reason: seq<Lit>, m: Meaning, s: set<nat>)
  {
    var r := Reduced(g, lits, all, [], hyp);
    && early <= |order| && k <= |order| && |order| == early + |all|
    && (k >= early ==> Reducing(g, lits, all, k - early, reason, hyp, m, s))
    && (k <= early ==>
         && Fading(g, lits, r + hyp, m, s)
         && reason + Again(g, lits, all, r + hyp, order[..k]) == r + Again(g, lits, all, r + hyp, order[..early]))
  }

  lemma RoundFirst(g: Graph, lits: seq<Lit>, all: seq<Lit>, st: seq<NodeState>, order: seq<nat>, early: nat,
                   p: seq<Lit>, f: Forest, m: Meaning)
    requires GraphOK(g) && |g| == |lits| == |m.rep| == |m.act| == |st| && DistinctVars(lits)
    requires Exact(g, lits, all, st, order, early, p) && ForestOK(f, m)
    requires EdgesFit(m.edges, g, StartPossible(lits, st, p)) && Counts(m.act, StartActives(lits, st, p))
    ensures Round(g, lits, all, Hyp(p), order, early, |order|, [], m, StartPossible(lits, st, p))
  {
    hide GraphOK, EdgesFit, Counts, Disconnected, PossibleOf, ActivesOf, Reduced, NoDup, NoClash, ForestOK, Again, Sane,
         Reducing, Fading, Hyp, StartPossible, StartActives, DistinctVars, StateOK, EarlyOK;
    var hyp, s := Hyp(p), StartPossible(lits, st, p);
    StartSets(lits, all, st, p);
    ReduceStart(lits, all, p);
    MirrorsIs(f, m, g, lits, all + hyp);
    ClustersNow(f, m, g, lits, all + hyp);
    assert all + [] + hyp == all + hyp;
    ReducingBegins(g, lits, all, hyp, m, s);
    if |order| == early {
      ReducingEnds(g, lits, all, [], hyp, m, s);
    }
  }

  lemma RoundNext(g: Graph, lits: seq<Lit>, all: seq<Lit>, p: seq<Lit>, st: seq<NodeState>, order: seq<nat>,
                  early: nat, k: nat, was: seq<Lit>, reason: seq<Lit>, m0: Meaning, s0: set<nat>, mid: Meaning,
                  midF: Forest, m: Meaning, s: set<nat>)
    requires GraphOK(g) && |g| == |lits| == |st| && DistinctVars(lits) && k < |order|
    requires Exact(g, lits, all, st, order, early, p)
    requires Round(g, lits, all, Hyp(p), order, early, k + 1, was, m0, s0) && order[k] < |lits|
    requires Dropping(g, m0, mid, midF, s0, order[k], st[order[k]] == Active)
    requires midF.clusters >= 2 ==> m == mid && s == s0 + {order[k]} && reason == was
    requires midF.clusters < 2 ==>
               m == m0 && s == s0
               && reason == was + [if st[order[k]] == Active then lits[order[k]] else Neg(lits[order[k]])]
    ensures Round(g, lits, all, Hyp(p), order, early, k, reason, m, s)
  {
    hide GraphOK, DistinctVars, NoDup, NoClash, Disconnected, StateOK, EarlyOK, Again, Reducing, Fading, Reduced, Hyp,
         ForestOK, EdgesFit;
    var v, hyp := order[k], Hyp(p);
    if k >= early {
      assert order[early..][k - early] == v;
      ReducingStep(g, lits, all, st, k - early, was, reason, hyp, v, m0, s0, mid, midF, m, s);
      if k == early {
        ReducingEnds(g, lits, all, reason, hyp, m, s);
      }
    } else {
      var first, ls := order[..early], Reduced(g, lits, all, [], hyp) + hyp;
      EarlyState(lits, all, st, first, k);
      assert first[k] == v && first[..k + 1] == order[..k + 1] && first[..k] == order[..k];
      TightNow(g, lits, all, p);
      FadingStep(g, lits, all, Reduced(g, lits, all, [], hyp), hyp, m0, s0, v, mid, midF);
      AgainNext(g, lits, all, ls, first, k);
    }
  }

  lemma RoundLast(g: Graph, lits: seq<Lit>, all: seq<Lit>, hyp: seq<Lit>, order: seq<nat>, early: nat,
                  reason: seq<Lit>, m: Meaning, s: set<nat>)
    requires Round(g, lits, all, hyp, order, early, 0, reason, m, s)
    ensures var r := Reduced(g, lits, all, [], hyp);
            early <= |order| && reason == r + Again(g, lits, all, r + hyp, order[..early])
  {
    hide Reducing, Fading, Reduced, KeptAgain;
  }

  lemma TightNow(g: Graph, lits: seq<Lit>, all: seq<Lit>, p: seq<Lit>)
    requires GraphOK(g) && |g| == |lits| && DistinctVars(lits) && |p| <= 1 && NoDup(all) && NoClash(all)
    requires (p != [] ==> p[0] !in all && Neg(p[0]) !in all) && Disconnected(g, lits, all + Hyp(p))
    ensures TightOK(g, lits, all, Reduced(g, lits, all, [], Hyp(p)), Hyp(p))
  {
    hide Disconnected, GraphOK, DistinctVars, AllNeeded, Reduced, NoDup, NoClash;
    var hyp := Hyp(p);
    var r := Reduced(g, lits, all, [], hyp);
    assert all + [] + hyp == all + hyp;
    ReduceStart(lits, all, p);
    ReducedEnough(g, lits, all, [], hyp);
    ReducedIrreducible(g, lits, all, [], hyp);
    ReducedSane(g, lits, all, [], hyp);
    if p != [] {
      assert Neg(Neg(p[0])) == p[0];
    }
  }

  lemma {:induction false} ReducedSane(g: Graph, lits: seq<Lit>, todo: seq<Lit>, kept: seq<Lit>, hyp: seq<Lit>)
    requires Sane(lits, todo + kept + hyp)
    ensures Sane(lits, Reduced(g, lits, todo, kept, hyp) + hyp)
    decreases |todo|
  {
    hide Disconnected, Sane;
    if todo == [] {
      assert todo + kept + hyp == kept + hyp;
    } else {
      var l, rest := todo[|todo| - 1], todo[..|todo| - 1];
      assert todo == rest + [l] && todo[..|todo|] == todo;
      if Disconnected(g, lits, rest + kept + hyp) {
        assert todo + kept + hyp == rest + [l] + (kept + hyp) && rest + kept + hyp == rest + (kept + hyp);
        SaneWithout(lits, rest, l, kept + hyp);
        ReducedSane(g, lits, rest, kept, hyp);
      } else {
        KeptStep(g, lits, todo, |rest|, kept, hyp);
        ReducedSane(g, lits, rest, kept + [l], hyp);
      }
    }
  }

  lemma EarlyState(lits: seq<Lit>, all: seq<Lit>, st: seq<NodeState>, first: seq<nat>, k: nat)
    requires StateOK(lits, all, st) && EarlyOK(lits, all, first) && NoClash(all) && k < |first|
    ensures first[k] < |lits| == |st| && (lits[first[k]] in all || Neg(lits[first[k]]) in all)
    ensures st[first[k]] == Active <==> lits[first[k]] in all
  {
  }

  lemma AgainNext(g: Graph, lits: seq<Lit>, log: seq<Lit>, ls: seq<Lit>, first: seq<nat>, k: nat)
    requires k < |first| && first[k] < |lits|
    ensures Again(g, lits, log, ls, first[..k + 1])
         == (if KeptAgain(g, lits, log, ls, first[k]) then [LitOf(lits, log, first[k])] else [])
            + Again(g, lits, log, ls, first[..k])
  {
    hide KeptAgain;
    assert first[..k + 1][..k] == first[..k];
  }

  // A decision that is kept moves to the reason.
  lemma KeptStep(g: Graph, lits: seq<Lit>, all: seq<Lit>, k: nat, kept: seq<Lit>, hyp: seq<Lit>)
    requires k < |all| && Sane(lits, all[..k + 1] + kept + hyp)
    ensures var was, next := all[..k + 1] + kept + hyp, all[..k] + (kept + [all[k]]) + hyp;
            && PossibleOf(lits, next) == PossibleOf(lits, was) && ActivesOf(lits, next) == ActivesOf(lits, was)
            && (Disconnected(g, lits, next) <==> Disconnected(g, lits, was)) && Sane(lits, next)
  {
    var rest, l := all[..k], all[k];
    var was, next := all[..k + 1] + kept + hyp, rest + (kept + [l]) + hyp;
    assert all[..k + 1] == rest + [l];
    forall x ensures x in next <==> x in was {
    }
    forall i, j | 0 <= i < j < |next| ensures next[i] != next[j] {
      assert next[i] == was[Shifted(k, |kept|, i)] && next[j] == was[Shifted(k, |kept|, j)];
    }
  }

  // Where an element of rest + (kept + [l]) + hyp is in (rest + [l]) + kept + hyp.
  function Shifted(k: nat, m: nat, i: nat): nat {
    if i < k then i else if i < k + m then i + 1 else if i == k + m then k else i
  }
}
