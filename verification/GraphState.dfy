// state_ and decision_order_ of constraints/Graph.cc, and what initialize, propagate
// and undo do to them.
module GraphStates {
  import opened Logic
  import opened Trails
  import opened Watching
  import opened Connectivity
  import opened DepthFirst
  import opened Graphs

  lemma SameVar(a: Lit, b: Lit)
    ensures a.v == b.v <==> a == b || Neg(a) == b
  {
  }

  lemma LastUndone(front: seq<Lit>, p: Lit)
    requires NoDup(front + [p]) && NoClash(front + [p])
    ensures p !in front && Neg(p) !in front && NoDup(front) && NoClash(front)
  {
    var all := front + [p];
    assert all[|front|] == p;
    forall k | 0 <= k < |front| ensures front[k] != p && front[k] != Neg(p) {
      assert all[k] == front[k];
      assert p in all && front[k] in all;
    }
    forall x, y | 0 <= x < y < |front| ensures front[x] != front[y] {
      assert all[x] == front[x] && all[y] == front[y];
    }
  }

  lemma FreshLast(log: seq<Lit>, p: Lit)
    requires NoDup(log) && NoClash(log) && p !in log && Neg(p) !in log
    ensures NoDup(log + [p]) && NoClash(log + [p])
  {
    assert Neg(Neg(p)) == p;
    forall l | l in log + [p] ensures Neg(l) !in log + [p] {
      SameVar(l, p);
    }
  }

  function StateAt(lits: seq<Lit>, log: seq<Lit>, i: nat): NodeState
    requires i < |lits|
  {
    if lits[i] in log then Active else if Neg(lits[i]) in log then Inactive else Undecided
  }

  // state_ says what the literals delivered say.
  ghost predicate StateOK(lits: seq<Lit>, log: seq<Lit>, st: seq<NodeState>) {
    |st| == |lits| && forall i :: 0 <= i < |lits| ==> st[i] == StateAt(lits, log, i)
  }

  // The vertices below i of the variable x, as var_to_idx_ has them.
  function VerticesOf(lits: seq<Lit>, x: Var, i: nat): seq<nat>
    requires i <= |lits|
  {
    if i == 0 then [] else VerticesOf(lits, x, i - 1) + if lits[i - 1].v == x then [i - 1] else []
  }

  // The vertices of the literals delivered, one literal after the other.
  function Listed(lits: seq<Lit>, log: seq<Lit>): seq<nat> {
    if log == [] then [] else Listed(lits, log[..|log| - 1]) + VerticesOf(lits, log[|log| - 1].v, |lits|)
  }

  ghost predicate HasVertex(lits: seq<Lit>, l: Lit) {
    exists i :: 0 <= i < |lits| && lits[i].v == l.v
  }

  // decision_order_ lists the vertices in the order of their literals.
  ghost predicate OrderOK(lits: seq<Lit>, log: seq<Lit>, order: seq<nat>) {
    order == Listed(lits, log) && forall l :: l in log ==> HasVertex(lits, l)
  }

  // One vertex for each literal.
  ghost predicate OneByOne(lits: seq<Lit>, log: seq<Lit>, order: seq<nat>) {
    |order| == |log| && forall k :: 0 <= k < |log| ==> order[k] < |lits| && lits[order[k]].v == log[k].v
  }

  lemma {:induction false} VerticesIn(lits: seq<Lit>, x: Var, i: nat)
    requires i <= |lits|
    ensures forall v: nat :: v in VerticesOf(lits, x, i) <==> v < i && lits[v].v == x
    ensures NoDup(VerticesOf(lits, x, i)) && |VerticesOf(lits, x, i)| <= |VerticesOf(lits, x, |lits|)|
    decreases |lits| + i
  {
    if i > 0 {
      VerticesIn(lits, x, i - 1);
    }
    VerticesMore(lits, x, i, |lits|);
  }

  lemma {:induction false} VerticesMore(lits: seq<Lit>, x: Var, i: nat, j: nat)
    requires i <= j <= |lits|
    ensures |VerticesOf(lits, x, i)| <= |VerticesOf(lits, x, j)|
  {
    if i < j {
      VerticesMore(lits, x, i, j - 1);
    }
  }

  lemma {:induction false} ListedIn(lits: seq<Lit>, log: seq<Lit>)
    ensures forall v: nat :: v in Listed(lits, log) <==> v < |lits| && (lits[v] in log || Neg(lits[v]) in log)
    ensures NoDup(log) && NoClash(log) ==> NoDup(Listed(lits, log))
  {
    if log != [] {
      var front, l := log[..|log| - 1], log[|log| - 1];
      assert log == front + [l];
      ListedIn(lits, front);
      VerticesIn(lits, l.v, |lits|);
      forall v: nat | v < |lits| ensures lits[v].v == l.v <==> lits[v] == l || Neg(lits[v]) == l {
        SameVar(lits[v], l);
      }
      if NoDup(log) && NoClash(log) {
        LastUndone(front, l);
        JoinNoDup(Listed(lits, front), VerticesOf(lits, l.v, |lits|));
      }
    }
  }

  lemma JoinNoDup(a: seq<nat>, b: seq<nat>)
    requires NoDup(a) && NoDup(b) && forall v :: v in a ==> v !in b
    ensures NoDup(a + b)
  {
    forall x, y | 0 <= x < y < |a + b| ensures (a + b)[x] != (a + b)[y] {
      assert x < |a| ==> (a + b)[x] in a;
      assert y >= |a| ==> (a + b)[y] in b;
    }
  }

  lemma {:induction false} OneVertex(lits: seq<Lit>, c: nat, i: nat)
    requires DistinctVars(lits) && c < |lits| && i <= |lits|
    ensures VerticesOf(lits, lits[c].v, i) == if c < i then [c] else []
  {
    if i > 0 {
      OneVertex(lits, c, i - 1);
    }
  }

  lemma {:induction false} OneEach(lits: seq<Lit>, log: seq<Lit>, order: seq<nat>)
    requires DistinctVars(lits) && OrderOK(lits, log, order)
    ensures OneByOne(lits, log, order)
  {
    hide DistinctVars;
    if log != [] {
      var front, l := log[..|log| - 1], log[|log| - 1];
      OneEach(lits, front, Listed(lits, front));
      assert HasVertex(lits, l);
      var c :| 0 <= c < |lits| && lits[c].v == l.v;
      OneVertex(lits, c, |lits|);
    }
  }

  lemma StateSize(lits: seq<Lit>, log: seq<Lit>, st: seq<NodeState>)
    requires StateOK(lits, log, st)
    ensures |st| == |lits|
  {
  }

  lemma StateSets(lits: seq<Lit>, log: seq<Lit>, st: seq<NodeState>)
    requires StateOK(lits, log, st) && NoClash(log)
    ensures Actives(st) == ActivesOf(lits, log) && Possible(st) == PossibleOf(lits, log)
  {
  }

  // The first i vertices after p has become true.
  function Filled(lits: seq<Lit>, st: seq<NodeState>, p: Lit, i: nat): (r: seq<NodeState>)
    requires |st| == |lits|
    ensures |r| == |lits|
  {
    seq(|lits|, v requires 0 <= v < |lits| =>
      if v < i && lits[v].v == p.v then (if lits[v] == p then Active else Inactive) else st[v])
  }

  // And after the variable x has lost its value.
  function Cleared(lits: seq<Lit>, st: seq<NodeState>, x: Var, i: nat): (r: seq<NodeState>)
    requires |st| == |lits|
    ensures |r| == |lits|
  {
    seq(|lits|, v requires 0 <= v < |lits| => if v < i && lits[v].v == x then Undecided else st[v])
  }

  ghost function Owners(lits: seq<Lit>, p: Lit, i: nat): set<nat> {
    set v | 0 <= v < |lits| && v < i && lits[v] == p
  }

  lemma MarkNone(lits: seq<Lit>, st: seq<NodeState>, p: Lit)
    requires |st| == |lits|
    ensures Filled(lits, st, p, 0) == st && Cleared(lits, st, p.v, 0) == st && |Owners(lits, p, 0)| == 0
  {
    assert Owners(lits, p, 0) == {};
  }

  lemma MarkStep(lits: seq<Lit>, st: seq<NodeState>, p: Lit, i: nat)
    requires |st| == |lits| && i < |lits|
    ensures var was, now := Filled(lits, st, p, i), Filled(lits, st, p, i + 1);
            now == if lits[i].v != p.v then was else was[i := if lits[i] == p then Active else Inactive]
    ensures |Owners(lits, p, i + 1)| == |Owners(lits, p, i)| + if lits[i] == p then 1 else 0
  {
    assert Owners(lits, p, i + 1) == Owners(lits, p, i) + if lits[i] == p then {i} else {};
  }

  lemma ClearStep(lits: seq<Lit>, st: seq<NodeState>, x: Var, i: nat)
    requires |st| == |lits| && i < |lits|
    ensures var was, now := Cleared(lits, st, x, i), Cleared(lits, st, x, i + 1);
            now == if lits[i].v != x then was else was[i := Undecided]
  {
  }

  // p is new: the vertices of its variable get their values.
  lemma StateStep(lits: seq<Lit>, log: seq<Lit>, st: seq<NodeState>, p: Lit)
    requires StateOK(lits, log, st) && p !in log && Neg(p) !in log
    ensures StateOK(lits, log + [p], Filled(lits, st, p, |lits|))
    ensures |Actives(Filled(lits, st, p, |lits|))| == |Actives(st)| + |Owners(lits, p, |lits|)|
  {
    var now := Filled(lits, st, p, |lits|);
    forall v | 0 <= v < |lits| ensures now[v] == StateAt(lits, log + [p], v) {
      SameVar(lits[v], p);
    }
    forall v | v in Owners(lits, p, |lits|) ensures v !in Actives(st) {
    }
    assert Actives(now) == Actives(st) + Owners(lits, p, |lits|) by {
      forall v: nat ensures v in Actives(now) <==> v in Actives(st) || v in Owners(lits, p, |lits|) {
        if v < |lits| {
          SameVar(lits[v], p);
        }
      }
    }
  }

  lemma StateBack(lits: seq<Lit>, log: seq<Lit>, st: seq<NodeState>, p: Lit)
    requires StateOK(lits, log + [p], st) && p !in log && Neg(p) !in log
    ensures StateOK(lits, log, Cleared(lits, st, p.v, |lits|))
  {
    forall v | 0 <= v < |lits| ensures Cleared(lits, st, p.v, |lits|)[v] == StateAt(lits, log, v) {
      SameVar(lits[v], p);
    }
  }

  lemma CountStep(st: seq<NodeState>, i: nat, s: NodeState)
    requires i < |st|
    ensures st[i] != Active && s == Active ==> |Actives(st[i := s])| == |Actives(st)| + 1
    ensures st[i] != Active && s != Active ==> |Actives(st[i := s])| == |Actives(st)|
    ensures st[i] == Active && s != Active ==> |Actives(st[i := s])| == |Actives(st)| - 1
  {
    var t := st[i := s];
    forall x: nat ensures x in Actives(t) <==> if x == i then s == Active else x in Actives(st) {
    }
    assert i in Actives(st) <==> st[i] == Active;
    CountSets(Actives(st), Actives(t), i, st[i], s);
  }

  lemma CountSets(a: set<nat>, b: set<nat>, i: nat, was: NodeState, s: NodeState)
    requires i in a <==> was == Active
    requires forall x: nat :: x in b <==> if x == i then s == Active else x in a
    ensures was != Active && s == Active ==> |b| == |a| + 1
    ensures was != Active && s != Active ==> |b| == |a|
    ensures was == Active && s != Active ==> |b| == |a| - 1
  {
    if was != Active && s == Active {
      assert b == a + {i};
    } else if was == Active && s != Active {
      assert b == a - {i};
    } else if was != Active {
      assert b == a;
    }
  }

  // The values of the first i vertices have been read.
  ghost predicate ReadTo(lits: seq<Lit>, trail: seq<Lit>, i: nat, st: seq<NodeState>, order: seq<nat>)
    requires |st| == |lits|
  {
    && (forall v :: 0 <= v < |lits| ==> st[v] == if v < i then StateAt(lits, trail, v) else Undecided)
    && i <= |lits| && order == Assigned(lits, trail, i)
  }

  // The first i vertices that have a value, in order.
  function Assigned(lits: seq<Lit>, ls: seq<Lit>, i: nat): seq<nat>
    requires i <= |lits|
  {
    if i == 0 then []
    else Assigned(lits, ls, i - 1) + if IsUndecided(lits, ls, i - 1) then [] else [i - 1]
  }

  lemma {:induction false} AssignedEarly(lits: seq<Lit>, ls: seq<Lit>, i: nat)
    requires i <= |lits|
    ensures EarlyOK(lits, ls, Assigned(lits, ls, i))
  {
    if i > 0 {
      AssignedEarly(lits, ls, i - 1);
    }
  }

  lemma {:induction false} AssignedSame(lits: seq<Lit>, trail: seq<Lit>, order: seq<Lit>, i: nat)
    requires i <= |lits|
    requires forall v :: 0 <= v < |lits| ==> (IsUndecided(lits, trail, v) <==> IsUndecided(lits, order, v))
    ensures Assigned(lits, trail, i) == Assigned(lits, order, i)
  {
    if i > 0 {
      AssignedSame(lits, trail, order, i - 1);
    }
  }

  lemma ReadNone(lits: seq<Lit>, trail: seq<Lit>, st: seq<NodeState>)
    requires StateOK(lits, [], st)
    ensures ReadTo(lits, trail, 0, st, [])
  {
  }

  lemma ReadNext(lits: seq<Lit>, trail: seq<Lit>, i: nat, st: seq<NodeState>, order: seq<nat>)
    requires i < |lits| == |st| && ReadTo(lits, trail, i, st, order)
    ensures var val := Value(trail, lits[i]);
            && (val == True ==> ReadTo(lits, trail, i + 1, st[i := Active], order + [i]))
            && (val == False ==> ReadTo(lits, trail, i + 1, st[i := Inactive], order + [i]))
            && (val == Undef ==> ReadTo(lits, trail, i + 1, st, order))
  {
  }

  lemma ReadAll(lits: seq<Lit>, trail: seq<Lit>, st: seq<NodeState>, early: seq<nat>, order: seq<Lit>)
    requires |st| == |lits| && ReadTo(lits, trail, |lits|, st, early) && NoClash(trail)
    requires forall l :: l in order <==> l in trail && HasVertex(lits, l)
    ensures StateOK(lits, order, st) && EarlyOK(lits, order, early) && NoClash(order)
    ensures early == Assigned(lits, order, |lits|)
  {
    forall v | 0 <= v < |lits|
      ensures (lits[v] in order <==> lits[v] in trail) && (Neg(lits[v]) in order <==> Neg(lits[v]) in trail)
    {
      assert HasVertex(lits, lits[v]) && HasVertex(lits, Neg(lits[v]));
    }
    AssignedSame(lits, trail, order, |lits|);
    AssignedEarly(lits, order, |lits|);
  }

  lemma TakenNone(lits: seq<Lit>, order: seq<Lit>, st: seq<NodeState>, first: seq<nat>)
    requires StateOK(lits, order, st) && NoClash(order)
    ensures order[..0] == [] && OrderOK(lits, order[..0], first[|first|..])
    ensures |ActivesOf(lits, order[..0])| == 0 <= |Actives(st)|
    ensures |order| == 0 ==> |Actives(st)| == 0
  {
    StateSets(lits, order, st);
    assert ActivesOf(lits, order[..0]) == {};
    assert |order| == 0 ==> order == order[..0];
  }

  // Delivering a literal whose value has been read only counts it.
  lemma TakenNext(lits: seq<Lit>, order: seq<Lit>, st: seq<NodeState>, k: nat, entries: seq<nat>)
    requires StateOK(lits, order, st) && NoClash(order) && NoDup(order) && |st| == |lits|
    requires k < |order| && HasVertex(lits, order[k]) && OrderOK(lits, order[..k], entries)
    ensures Filled(lits, st, order[k], |lits|) == st
    ensures OrderOK(lits, order[..k + 1], entries + VerticesOf(lits, order[k].v, |lits|))
    ensures |ActivesOf(lits, order[..k + 1])| == |ActivesOf(lits, order[..k])| + |Owners(lits, order[k], |lits|)|
    ensures |ActivesOf(lits, order[..k + 1])| <= |Actives(st)|
    ensures k + 1 == |order| ==> |ActivesOf(lits, order[..k + 1])| == |Actives(st)|
  {
    hide StateOK, NoClash, NoDup, OrderOK, ActivesOf, Actives, StateAt, Owners, Filled, HasVertex;
    OneMoreTaken(lits, order, st, k);
    OrderMore(lits, order[..k], entries, order[k]);
    assert order[..k + 1] == order[..k] + [order[k]];
    StateTaken(lits, order, st, order[k]);
  }

  lemma OneMoreTaken(lits: seq<Lit>, order: seq<Lit>, st: seq<NodeState>, k: nat)
    requires StateOK(lits, order, st) && NoClash(order) && NoDup(order) && k < |order|
    ensures |ActivesOf(lits, order[..k + 1])| == |ActivesOf(lits, order[..k])| + |Owners(lits, order[k], |lits|)|
    ensures |ActivesOf(lits, order[..k + 1])| <= |Actives(st)|
    ensures k + 1 == |order| ==> |ActivesOf(lits, order[..k + 1])| == |Actives(st)|
  {
    hide StateOK, NoClash, Actives, ActivesOf, Owners;
    StateSets(lits, order, st);
    assert order[..k + 1] == order[..k] + [order[k]];
    assert order[k] !in order[..k];
    OneMoreActive(lits, order[..k], order[k]);
    SomeActives(lits, order, k + 1);
    SubsetSize(ActivesOf(lits, order[..k + 1]), ActivesOf(lits, order));
    assert k + 1 == |order| ==> order[..k + 1] == order;
  }

  lemma OneMoreActive(lits: seq<Lit>, ls: seq<Lit>, p: Lit)
    requires p !in ls
    ensures |ActivesOf(lits, ls + [p])| == |ActivesOf(lits, ls)| + |Owners(lits, p, |lits|)|
  {
    var was, more := ActivesOf(lits, ls), Owners(lits, p, |lits|);
    assert ActivesOf(lits, ls + [p]) == was + more;
    assert was * more == {};
  }

  lemma SomeActives(lits: seq<Lit>, order: seq<Lit>, k: nat)
    requires k <= |order|
    ensures ActivesOf(lits, order[..k]) <= ActivesOf(lits, order)
  {
  }

  lemma StateTaken(lits: seq<Lit>, order: seq<Lit>, st: seq<NodeState>, p: Lit)
    requires StateOK(lits, order, st) && NoClash(order) && p in order
    ensures Filled(lits, st, p, |lits|) == st
  {
    forall v | 0 <= v < |lits| ensures Filled(lits, st, p, |lits|)[v] == st[v] {
      SameVar(lits[v], p);
    }
  }

  lemma AnswerIs(g: Graph, lits: seq<Lit>, log: seq<Lit>)
    requires Told(g, lits, log, false) == Answer([], true)
    ensures Told(g, lits, log, false).accept && Told(g, lits, log, false).implied == []
  {
  }

  lemma NothingTold(g: Graph, lits: seq<Lit>, log: seq<Lit>)
    ensures Told(g, lits, log, true) == Answer([], true)
  {
  }

  // The state after a new literal.
  lemma LearnValid(lits: seq<Lit>, log: seq<Lit>, st: seq<NodeState>, p: Lit, order: seq<nat>, early: nat)
    requires StateOK(lits, log, st) && NoDup(log) && NoClash(log)
    requires p !in log && Neg(p) !in log && HasVertex(lits, p)
    requires early <= |order| && OrderOK(lits, log, order[early..]) && EarlyOK(lits, log, order[..early])
    ensures |st| == |lits| && StateOK(lits, log + [p], Filled(lits, st, p, |lits|))
    ensures |Actives(Filled(lits, st, p, |lits|))| == |Actives(st)| + |Owners(lits, p, |lits|)|
    ensures NoDup(log + [p]) && NoClash(log + [p])
    ensures var now := order + VerticesOf(lits, p.v, |lits|);
            OrderOK(lits, log + [p], now[early..]) && EarlyOK(lits, log + [p], now[..early])
  {
    hide OrderOK, EarlyOK, StateOK, Filled, Actives, Owners, HasVertex;
    StateStep(lits, log, st, p);
    StateSize(lits, log, st);
    OrderMore(lits, log, order[early..], p);
    EarlyMore(lits, log, order[..early], p);
    var now := order + VerticesOf(lits, p.v, |lits|);
    assert now[early..] == order[early..] + VerticesOf(lits, p.v, |lits|) && now[..early] == order[..early];
    assert Neg(Neg(p)) == p;
    FreshLast(log, p);
  }

  lemma OrderMore(lits: seq<Lit>, log: seq<Lit>, entries: seq<nat>, p: Lit)
    requires OrderOK(lits, log, entries) && HasVertex(lits, p)
    ensures OrderOK(lits, log + [p], entries + VerticesOf(lits, p.v, |lits|))
  {
    hide HasVertex;
    assert (log + [p])[..|log|] == log;
  }

  lemma EarlyMore(lits: seq<Lit>, log: seq<Lit>, first: seq<nat>, p: Lit)
    requires EarlyOK(lits, log, first)
    ensures EarlyOK(lits, log + [p], first)
  {
  }

  // The vertices of the last literal are at the end.
  lemma OrderBack(lits: seq<Lit>, log: seq<Lit>, order: seq<nat>, early: nat)
    requires log != [] && early <= |order| && OrderOK(lits, log, order[early..]) && EarlyOK(lits, log, order[..early])
    requires forall k :: 0 <= k < early && order[k] < |lits| ==> lits[order[k]].v != log[|log| - 1].v
    ensures var n := |VerticesOf(lits, log[|log| - 1].v, |lits|)|;
            && early + n <= |order|
            && OrderOK(lits, log[..|log| - 1], order[..|order| - n][early..])
            && EarlyOK(lits, log[..|log| - 1], order[..|order| - n][..early])
  {
    hide HasVertex;
    var rest, front, p := order[early..], log[..|log| - 1], log[|log| - 1];
    var n := |VerticesOf(lits, p.v, |lits|)|;
    assert rest == Listed(lits, front) + VerticesOf(lits, p.v, |lits|);
    assert order[..|order| - n][early..] == rest[..|rest| - n] == Listed(lits, front);
    assert order[..|order| - n][..early] == order[..early];
    assert log == front + [p];
    forall k | 0 <= k < early ensures order[k] < |lits| && (lits[order[k]] in front || Neg(lits[order[k]]) in front) {
      assert order[..early][k] == order[k];
    }
  }

  lemma StateAtLast(lits: seq<Lit>, all: seq<Lit>, st: seq<NodeState>, k: nat, v: nat)
    requires StateOK(lits, all, st) && k < |all| && v < |lits| && lits[v].v == all[k].v && NoClash(all)
    ensures all[k] == if st[v] == Active then lits[v] else Neg(lits[v])
  {
    assert all[k] in all;
    assert all[k] == lits[v] || all[k] == Neg(lits[v]);
  }
}
