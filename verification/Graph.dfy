// constraints/Graph.cc: the vertices whose literals are true are connected.  What
// propagate and calcReason compute, and what that means.
module Graphs {
  import opened Logic
  import opened Contracts
  import opened Trails
  import opened Watching
  import opened Connectivity

  ghost function ActivesOf(lits: seq<Lit>, ls: seq<Lit>): set<nat> {
    set i | 0 <= i < |lits| && lits[i] in ls
  }

  ghost function PossibleOf(lits: seq<Lit>, ls: seq<Lit>): set<nat> {
    set i | 0 <= i < |lits| && Neg(lits[i]) !in ls
  }

  ghost function TrueOnes(lits: seq<Lit>, a: Assignment): set<nat> {
    set i | 0 <= i < |lits| && Holds(a, lits[i])
  }

  // The active vertices cannot be connected any more.
  ghost predicate Disconnected(g: Graph, lits: seq<Lit>, ls: seq<Lit>) {
    !AllLinked(g, PossibleOf(lits, ls), ActivesOf(lits, ls))
  }

  predicate IsUndecided(lits: seq<Lit>, log: seq<Lit>, v: nat)
    requires v < |lits|
  {
    lits[v] !in log && Neg(lits[v]) !in log
  }

  // The literals enqueued for the vertices from v on: an undecided vertex that an
  // active one cannot reach is inactive, and one without which the active ones
  // fall apart is active.
  ghost function Forced(g: Graph, lits: seq<Lit>, log: seq<Lit>, v: nat): seq<Lit>
    requires v <= |lits|
    decreases |lits| - v
  {
    if v == |lits| then []
    else
      (if !IsUndecided(lits, log, v) then []
       else if !AllLinked(g, PossibleOf(lits, log), ActivesOf(lits, log) + {v}) then [Neg(lits[v])]
       else if !AllLinked(g, PossibleOf(lits, log) - {v}, ActivesOf(lits, log)) then [lits[v]]
       else [])
      + Forced(g, lits, log, v + 1)
  }

  ghost function Told(g: Graph, lits: seq<Lit>, log: seq<Lit>, pending: bool): Answer {
    if pending then Answer([], true)
    else if Disconnected(g, lits, log) then Answer([], false)
    else Answer(Forced(g, lits, log, 0), true)
  }

  // calcReason goes through the decisions from the last to the first and drops
  // the ones without which the rest is still disconnected.
  ghost function Reduced(g: Graph, lits: seq<Lit>, todo: seq<Lit>, kept: seq<Lit>, hyp: seq<Lit>): seq<Lit>
    decreases |todo|
  {
    if todo == [] then kept
    else
      var l, rest := todo[|todo| - 1], todo[..|todo| - 1];
      Reduced(g, lits, rest, if Disconnected(g, lits, rest + kept + hyp) then kept else kept + [l], hyp)
  }

  ghost function ConnectedK(g: Graph, lits: seq<Lit>): Constraint {
    Constraint(a => Connected(g, TrueOnes(lits, a)),
               ls => Disconnected(g, lits, ls),
               (set i | 0 <= i < |lits| :: lits[i]) + (set i | 0 <= i < |lits| :: Neg(lits[i])),
               (log, trail, pending) => Told(g, lits, log, pending),
               (log, trail, p) => Reduced(g, lits, log, [], [Neg(p)]),
               (log, trail, extra) => Reduced(g, lits, log + extra, [], []))
  }

  lemma DisconnectedMore(g: Graph, lits: seq<Lit>, few: seq<Lit>, more: seq<Lit>)
    requires Disconnected(g, lits, few)
    requires forall i :: 0 <= i < |lits| ==>
               (lits[i] in few ==> lits[i] in more) && (Neg(lits[i]) in few ==> Neg(lits[i]) in more)
    ensures Disconnected(g, lits, more)
  {
    if !Disconnected(g, lits, more) {
      AllLinkedEasier(g, PossibleOf(lits, more), PossibleOf(lits, few), ActivesOf(lits, more), ActivesOf(lits, few));
      assert false;
    }
  }

  lemma ConnectedRecognises(g: Graph, lits: seq<Lit>)
    ensures Recognises(ConnectedK(g, lits))
  {
    hide AllLinked;
    var con := ConnectedK(g, lits);
    forall ls | con.blocked(ls) ensures Refutes(con.sat, ls) {
      forall a: Assignment | con.sat(a) ensures !AllHold(a, ls) {
        if AllHold(a, ls) {
          var t := TrueOnes(lits, a);
          assert ActivesOf(lits, ls) <= t;
          assert t <= PossibleOf(lits, ls) by {
            forall i | i in t ensures Neg(lits[i]) !in ls {
              NegHolds(a, lits[i]);
            }
          }
          AllLinkedEasier(g, t, PossibleOf(lits, ls), t, ActivesOf(lits, ls));
          assert false;
        }
      }
    }
    forall few, more | con.blocked(few) && forall l :: l in few && l in con.watched ==> l in more
      ensures con.blocked(more)
    {
      forall i | 0 <= i < |lits| ensures lits[i] in con.watched && Neg(lits[i]) in con.watched {
      }
      DisconnectedMore(g, lits, few, more);
    }
  }

  lemma {:induction false} ForcedMembers(g: Graph, lits: seq<Lit>, log: seq<Lit>, v: nat, x: Lit)
    requires v <= |lits| && x in Forced(g, lits, log, v)
    ensures exists i :: v <= i < |lits| && IsUndecided(lits, log, i)
              && ((x == Neg(lits[i]) && !AllLinked(g, PossibleOf(lits, log), ActivesOf(lits, log) + {i}))
                  || (x == lits[i] && !AllLinked(g, PossibleOf(lits, log) - {i}, ActivesOf(lits, log))))
    decreases |lits| - v
  {
    hide AllLinked;
    if x in Forced(g, lits, log, v + 1) {
      ForcedMembers(g, lits, log, v + 1, x);
    }
  }

  lemma ForcedForces(g: Graph, lits: seq<Lit>, log: seq<Lit>, i: nat)
    requires i < |lits|
    ensures !AllLinked(g, PossibleOf(lits, log), ActivesOf(lits, log) + {i}) ==>
              Disconnected(g, lits, log + [Neg(Neg(lits[i]))])
    ensures !AllLinked(g, PossibleOf(lits, log) - {i}, ActivesOf(lits, log)) ==>
              Disconnected(g, lits, log + [Neg(lits[i])])
  {
    hide AllLinked;
    var p, a := PossibleOf(lits, log), ActivesOf(lits, log);
    var up, down := log + [Neg(Neg(lits[i]))], log + [Neg(lits[i])];
    assert lits[i] in up && Neg(lits[i]) in down;
    assert PossibleOf(lits, up) <= p && a + {i} <= ActivesOf(lits, up);
    assert PossibleOf(lits, down) <= p - {i} && a <= ActivesOf(lits, down);
    if AllLinked(g, PossibleOf(lits, up), ActivesOf(lits, up)) {
      AllLinkedEasier(g, PossibleOf(lits, up), p, ActivesOf(lits, up), a + {i});
    }
    if AllLinked(g, PossibleOf(lits, down), ActivesOf(lits, down)) {
      AllLinkedEasier(g, PossibleOf(lits, down), p - {i}, ActivesOf(lits, down), a);
    }
  }

  lemma ToldOK(g: Graph, lits: seq<Lit>, n: nat, log: seq<Lit>, trail: seq<Lit>, pending: bool)
    requires InRange(lits, n)
    ensures AnswerOK(ConnectedK(g, lits), n, log, trail, pending, Told(g, lits, log, pending))
  {
    hide AllLinked;
    var con, a := ConnectedK(g, lits), Told(g, lits, log, pending);
    forall x | x in a.implied ensures x.v < n && Forces(con, log, x) {
      ForcedMembers(g, lits, log, 0, x);
      var i :| 0 <= i < |lits| && IsUndecided(lits, log, i)
        && ((x == Neg(lits[i]) && !AllLinked(g, PossibleOf(lits, log), ActivesOf(lits, log) + {i}))
            || (x == lits[i] && !AllLinked(g, PossibleOf(lits, log) - {i}, ActivesOf(lits, log))));
      assert lits[i] in lits;
      ForcedForces(g, lits, log, i);
    }
    if a.accept && !pending {
      AcceptContent(g, lits, log);
    }
  }

  lemma AcceptContent(g: Graph, lits: seq<Lit>, log: seq<Lit>)
    requires !Disconnected(g, lits, log)
    ensures Content(ConnectedK(g, lits), log)
  {
    hide AllLinked;
    var con := ConnectedK(g, lits);
    forall a: Assignment | Matches(con, a, log) ensures con.sat(a) {
      forall i | 0 <= i < |lits| ensures Holds(a, lits[i]) <==> lits[i] in log
        ensures Holds(a, lits[i]) <==> Neg(lits[i]) !in log
      {
        NegHolds(a, lits[i]);
        assert lits[i] in con.watched && Neg(lits[i]) in con.watched;
      }
      assert TrueOnes(lits, a) == ActivesOf(lits, log) == PossibleOf(lits, log);
    }
  }

  // The reason is part of the decisions, and with the hypothesis it is enough.
  lemma {:induction false} ReducedEnough(g: Graph, lits: seq<Lit>, todo: seq<Lit>, kept: seq<Lit>, hyp: seq<Lit>)
    requires Disconnected(g, lits, todo + kept + hyp)
    ensures var r := Reduced(g, lits, todo, kept, hyp);
            Disconnected(g, lits, r + hyp) && kept <= r && forall l :: l in r ==> l in todo || l in kept
    decreases |todo|
  {
    hide Disconnected;
    if todo == [] {
      assert todo + kept + hyp == kept + hyp;
    } else {
      var l, rest := todo[|todo| - 1], todo[..|todo| - 1];
      assert todo == rest + [l];
      if Disconnected(g, lits, rest + kept + hyp) {
        ReducedEnough(g, lits, rest, kept, hyp);
      } else {
        DisconnectedMore(g, lits, todo + kept + hyp, rest + (kept + [l]) + hyp);
        ReducedEnough(g, lits, rest, kept + [l], hyp);
      }
    }
  }

  ghost predicate Needed(g: Graph, lits: seq<Lit>, r: seq<Lit>, k: nat, hyp: seq<Lit>)
    requires k < |r|
  {
    !Disconnected(g, lits, r[..k] + r[k + 1..] + hyp)
  }

  ghost predicate AllNeeded(g: Graph, lits: seq<Lit>, r: seq<Lit>, hyp: seq<Lit>) {
    forall k :: 0 <= k < |r| ==> Needed(g, lits, r, k, hyp)
  }

  // Nothing can be left out of the reason.
  lemma {:induction false} ReducedIrreducible(g: Graph, lits: seq<Lit>, todo: seq<Lit>, kept: seq<Lit>, hyp: seq<Lit>)
    requires forall k :: 0 <= k < |kept| ==> !Disconnected(g, lits, todo + (kept[..k] + kept[k + 1..]) + hyp)
    requires Disconnected(g, lits, todo + kept + hyp)
    ensures var r := Reduced(g, lits, todo, kept, hyp);
            AllNeeded(g, lits, r, hyp)
    decreases |todo|
  {
    hide Disconnected;
    if todo == [] {
      forall k | 0 <= k < |kept| ensures Needed(g, lits, kept, k, hyp) {
        assert todo + (kept[..k] + kept[k + 1..]) + hyp == kept[..k] + kept[k + 1..] + hyp;
      }
    } else {
      var l, rest := todo[|todo| - 1], todo[..|todo| - 1];
      assert todo == rest + [l];
      var now := if Disconnected(g, lits, rest + kept + hyp) then kept else kept + [l];
      forall k | 0 <= k < |now| ensures !Disconnected(g, lits, rest + (now[..k] + now[k + 1..]) + hyp) {
        StillNeeded(g, lits, rest, l, kept, now, hyp, k);
      }
      if now != kept {
        DisconnectedMore(g, lits, todo + kept + hyp, rest + now + hyp);
      }
      ReducedIrreducible(g, lits, rest, now, hyp);
      assert Reduced(g, lits, todo, kept, hyp) == Reduced(g, lits, rest, now, hyp);
      assert AllNeeded(g, lits, Reduced(g, lits, rest, now, hyp), hyp);
    }
  }

  lemma StillNeeded(g: Graph, lits: seq<Lit>, rest: seq<Lit>, l: Lit, kept: seq<Lit>, now: seq<Lit>, hyp: seq<Lit>,
                    k: nat)
    requires forall k :: 0 <= k < |kept| ==> !Disconnected(g, lits, (rest + [l]) + (kept[..k] + kept[k + 1..]) + hyp)
    requires now == if Disconnected(g, lits, rest + kept + hyp) then kept else kept + [l]
    requires k < |now|
    ensures !Disconnected(g, lits, rest + (now[..k] + now[k + 1..]) + hyp)
  {
    hide Disconnected;
    var less := rest + (now[..k] + now[k + 1..]) + hyp;
    if k < |kept| {
      var more := (rest + [l]) + (kept[..k] + kept[k + 1..]) + hyp;
      if now != kept {
        assert now[..k] == kept[..k] && now[k + 1..] == kept[k + 1..] + [l];
      }
      if Disconnected(g, lits, less) {
        DisconnectedMore(g, lits, less, more);
      }
    } else {
      assert now[..k] + now[k + 1..] == kept;
    }
  }

  lemma ConnectedHonest(g: Graph, lits: seq<Lit>, n: nat)
    requires InRange(lits, n)
    ensures Honest(ConnectedK(g, lits), n)
  {
    hide Disconnected, Recognises, AnswerOK, Fed, InRange, Told, Reduced;
    var con := ConnectedK(g, lits);
    ConnectedRecognises(g, lits);
    WatchedInRange(g, lits, n);
    forall log, trail, pending | Fed(con, log, trail) && NoClash(trail)
      ensures AnswerOK(con, n, log, trail, pending, con.propagate(log, trail, pending))
    {
      ToldOK(g, lits, n, log, trail, pending);
    }
    forall log, trail, p | MayExplain(con, log, trail, p) ensures ExplainOK(con, log, trail, p) {
      ReasonOK(g, lits, log, trail, p);
    }
    forall log, trail, extra | MayRefute(con, log, trail, extra) ensures RefuteOK(con, log, trail, extra) {
      ConflictOK(g, lits, log, trail, extra);
    }
  }

  // What Initialize answers on a simple graph will do to begin with.
  lemma ConnectedStarts(g: Graph, lits: seq<Lit>, n: nat, order: seq<Lit>, trail: seq<Lit>, a: Answer)
    requires InRange(lits, n) && NoClash(trail) && NoDup(order)
    requires forall l :: l in order <==> l in trail && exists i :: 0 <= i < |lits| && lits[i].v == l.v
    requires a.accept <==> Told(g, lits, order, false).accept
    requires forall x :: x in a.implied ==> x in Told(g, lits, order, false).implied
    ensures StartOK(ConnectedK(g, lits), n, trail, a)
  {
    hide Told, Disconnected, Honest, AnswerOK, StartOK, InRange, NoClash, NoDup;
    var con := ConnectedK(g, lits);
    forall l ensures l in con.watched <==> exists i :: 0 <= i < |lits| && lits[i].v == l.v {
      WatchedVars(g, lits, l);
    }
    ConnectedHonest(g, lits, n);
    ToldOK(g, lits, n, order, trail, false);
    AnswerStarts(con, n, order, trail, Told(g, lits, order, false), a);
  }

  lemma WatchedVars(g: Graph, lits: seq<Lit>, l: Lit)
    ensures l in ConnectedK(g, lits).watched <==> exists i :: 0 <= i < |lits| && lits[i].v == l.v
  {
    if i :| 0 <= i < |lits| && lits[i].v == l.v {
      assert l == lits[i] || l == Neg(lits[i]);
    }
  }

  lemma WatchedInRange(g: Graph, lits: seq<Lit>, n: nat)
    requires InRange(lits, n)
    ensures forall l :: l in ConnectedK(g, lits).watched ==> l.v < n
  {
    forall i | 0 <= i < |lits| ensures lits[i].v < n {
      assert lits[i] in lits;
    }
  }

  lemma ReasonOK(g: Graph, lits: seq<Lit>, log: seq<Lit>, trail: seq<Lit>, p: Lit)
    requires MayExplain(ConnectedK(g, lits), log, trail, p)
    ensures ExplainOK(ConnectedK(g, lits), log, trail, p)
  {
    hide Disconnected;
    assert log + [] + [Neg(p)] == log + [Neg(p)];
    ReducedEnough(g, lits, log, [], [Neg(p)]);
  }

  lemma ConflictOK(g: Graph, lits: seq<Lit>, log: seq<Lit>, trail: seq<Lit>, extra: seq<Lit>)
    requires MayRefute(ConnectedK(g, lits), log, trail, extra)
    ensures RefuteOK(ConnectedK(g, lits), log, trail, extra)
  {
    hide Disconnected;
    assert log + extra + [] + [] == log + extra;
    ReducedEnough(g, lits, log + extra, [], []);
    var r := Reduced(g, lits, log + extra, [], []);
    assert r + [] == r;
  }

  ghost predicate ForcedAt(g: Graph, lits: seq<Lit>, log: seq<Lit>, i: nat, x: Lit)
    requires i < |lits|
  {
    && IsUndecided(lits, log, i)
    && if !AllLinked(g, PossibleOf(lits, log), ActivesOf(lits, log) + {i}) then x == Neg(lits[i])
       else !AllLinked(g, PossibleOf(lits, log) - {i}, ActivesOf(lits, log)) && x == lits[i]
  }

  lemma {:induction false} ForcedHas(g: Graph, lits: seq<Lit>, log: seq<Lit>, v: nat, x: Lit)
    requires v <= |lits|
    ensures x in Forced(g, lits, log, v) <==> exists i :: v <= i < |lits| && ForcedAt(g, lits, log, i, x)
    decreases |lits| - v
  {
    hide Forced, ForcedAt;
    ForcedStep(g, lits, log, v, x);
    if v < |lits| {
      ForcedHas(g, lits, log, v + 1, x);
    }
  }

  lemma ForcedStep(g: Graph, lits: seq<Lit>, log: seq<Lit>, v: nat, x: Lit)
    requires v <= |lits|
    ensures x in Forced(g, lits, log, v) <==>
            v < |lits| && (ForcedAt(g, lits, log, v, x) || x in Forced(g, lits, log, v + 1))
  {
    hide AllLinked, ActivesOf, PossibleOf;
  }

  // When vertices share a variable propagate can miss a consequence: on the cycle
  // 0 - 1 - 3 - 2 - 0, where 0 and 3 are active and x stands for 1 and for 2, neither
  // of 1 and 2 is a cut vertex, but without x both are gone.
  lemma SharedMisses(x: Lit, a: Lit, b: Lit)
    requires x.v != a.v && x.v != b.v && a.v != b.v
    ensures var g, lits, log := Cycle(), [a, x, x, b], [a, b];
            && GraphOK(g) && Simple(g) && NoClash(log)
            && Explains(ConnectedK(g, lits).sat, log, x)
            && Told(g, lits, log, false).accept && x !in Told(g, lits, log, false).implied
  {
    hide AllLinked, Linked, Connected;
    var g, lits, log := Cycle(), [a, x, x, b], [a, b];
    CycleLinks();
    var act, p := ActivesOf(lits, log), PossibleOf(lits, log);
    assert lits[0] == a && lits[1] == x && lits[2] == x && lits[3] == b;
    assert act == {0, 3} && p == {0, 1, 2, 3} && p - {1} == {0, 2, 3} && p - {2} == {0, 1, 3};
    ForcedHas(g, lits, log, 0, x);
    forall i | 0 <= i < |lits| ensures !ForcedAt(g, lits, log, i, x) {
      SharedFree(lits, log, i, x, a, b);
    }
    assert act + {1} == {0, 1, 3} && act + {2} == {0, 2, 3};
    forall c: Assignment | ConnectedK(g, lits).sat(c) && AllHold(c, log) ensures Holds(c, x) {
      assert a in log && b in log;
      if !Holds(c, x) {
        assert TrueOnes(lits, c) == {0, 3};
        CycleApart();
        assert false;
      }
    }
  }

  function Cycle(): Graph {
    [[1, 2], [0, 3], [0, 3], [1, 2]]
  }

  lemma SharedFree(lits: seq<Lit>, log: seq<Lit>, i: nat, x: Lit, a: Lit, b: Lit)
    requires x.v != a.v && x.v != b.v && a.v != b.v && lits == [a, x, x, b] && log == [a, b] && i < 4
    requires ActivesOf(lits, log) == {0, 3} && PossibleOf(lits, log) == {0, 1, 2, 3}
    ensures !ForcedAt(Cycle(), lits, log, i, x)
  {
    hide AllLinked;
    CycleLinks();
    var p := {0, 1, 2, 3};
    assert p - {1} == {0, 2, 3} && p - {2} == {0, 1, 3};
    assert {0, 3} + {1} == {0, 1, 3} && {0, 3} + {2} == {0, 2, 3};
    if i == 0 || i == 3 {
      assert lits[i] in log;
    }
  }

  lemma CycleLinks()
    ensures var g := Cycle(); GraphOK(g) && Simple(g)
    ensures AllLinked(Cycle(), {0, 1, 2, 3}, {0, 3}) && AllLinked(Cycle(), {0, 1, 2, 3}, {0, 1, 3})
    ensures AllLinked(Cycle(), {0, 1, 2, 3}, {0, 2, 3})
    ensures AllLinked(Cycle(), {0, 2, 3}, {0, 3}) && AllLinked(Cycle(), {0, 1, 3}, {0, 3})
  {
    hide AllLinked, GraphOK, Simple;
    var all: set<nat>, one: set<nat>, two: set<nat>, ends: set<nat> := {0, 1, 2, 3}, {0, 1, 3}, {0, 2, 3}, {0, 3};
    CycleSimple();
    PathLinks(1);
    PathLinks(2);
    AllLinkedEasier(Cycle(), one, all, one, one);
    AllLinkedEasier(Cycle(), two, all, two, two);
    AllLinkedEasier(Cycle(), one, all, one, ends);
    AllLinkedEasier(Cycle(), one, one, one, ends);
    AllLinkedEasier(Cycle(), two, two, two, ends);
  }

  lemma CycleSimple()
    ensures var g := Cycle(); GraphOK(g) && Simple(g)
  {
  }

  lemma PathLinks(v: nat)
    requires v == 1 || v == 2
    ensures AllLinked(Cycle(), {0, v, 3}, {0, v, 3})
  {
    hide Linked;
    var g: Graph, s: set<nat> := Cycle(), {0, v, 3};
    assert g[v] == [0, 3];
    assert 0 in g[v] && 3 in g[v];
    LinkedEdge(g, s, v, 0);
    LinkedEdge(g, s, v, 3);
    LinkedSym(g, s, v, 0);
    LinkedSym(g, s, v, 3);
    LinkedTrans(g, s, 0, v, 3);
    LinkedTrans(g, s, 3, v, 0);
    LinkedSelf(g, s, 0);
    LinkedSelf(g, s, v);
    LinkedSelf(g, s, 3);
  }

  lemma CycleApart()
    ensures !Connected(Cycle(), {0, 3})
  {
    hide Linked;
    var s: set<nat> := {0, 3};
    assert Closed(Cycle(), s, {0});
    Separated(Cycle(), s, {0}, 0, 3);
    assert 0 in s && 3 in s;
  }

  // v is in every choice of the undecided vertices that connects the active ones.
  ghost predicate Always(g: Graph, lits: seq<Lit>, log: seq<Lit>, v: nat) {
    forall s :: Completes(g, PossibleOf(lits, log), ActivesOf(lits, log), s) ==> v in s
  }

  ghost predicate Never(g: Graph, lits: seq<Lit>, log: seq<Lit>, v: nat) {
    forall s :: Completes(g, PossibleOf(lits, log), ActivesOf(lits, log), s) ==> v !in s
  }

  // v is undecided, and x is what it is in every connected completion.
  ghost predicate Fixes(g: Graph, lits: seq<Lit>, log: seq<Lit>, v: nat, x: Lit)
    requires v < |lits|
  {
    IsUndecided(lits, log, v)
    && ((x == lits[v] && Always(g, lits, log, v)) || (x == Neg(lits[v]) && Never(g, lits, log, v)))
  }

  // The variable of v is not the variable of another undecided vertex.
  ghost predicate OwnVar(lits: seq<Lit>, log: seq<Lit>, v: nat)
    requires v < |lits|
  {
    forall i :: 0 <= i < |lits| && i != v && IsUndecided(lits, log, i) ==> lits[i].v != lits[v].v
  }

  // propagate accepts exactly if some completion is connected, and then enqueues
  // exactly the literals of undecided vertices that are in every connected completion,
  // or in none.  For a vertex that shares its variable with no other undecided one
  // this decides both literals; see SharedMisses for the others.
  lemma DomainConsistent(g: Graph, lits: seq<Lit>, log: seq<Lit>)
    requires GraphOK(g) && |g| == |lits| && NoClash(log)
    ensures var a := Told(g, lits, log, false);
            && (a.accept <==> exists s :: Completes(g, PossibleOf(lits, log), ActivesOf(lits, log), s))
            && (a.accept ==>
                 forall x :: x in a.implied <==> exists v :: 0 <= v < |lits| && Fixes(g, lits, log, v, x))
            && (a.accept ==> forall v :: 0 <= v < |lits| && IsUndecided(lits, log, v) && OwnVar(lits, log, v) ==>
                 && (lits[v] in a.implied <==> Always(g, lits, log, v))
                 && (Neg(lits[v]) in a.implied <==> Never(g, lits, log, v)))
  {
    var p, act, a := PossibleOf(lits, log), ActivesOf(lits, log), Told(g, lits, log, false);
    assert act <= p;
    hide AllLinked, Completes, GraphOK, NoClash, Always, Never, OwnVar, Forced, Fixes;
    CompletionExists(g, p, act);
    if a.accept {
      forall x ensures x in a.implied <==> exists v :: 0 <= v < |lits| && Fixes(g, lits, log, v, x) {
        ForcedExactly(g, lits, log, x);
      }
      forall v | 0 <= v < |lits| && IsUndecided(lits, log, v) && OwnVar(lits, log, v)
        ensures lits[v] in a.implied <==> Always(g, lits, log, v)
        ensures Neg(lits[v]) in a.implied <==> Never(g, lits, log, v)
      {
        ForcedOwn(g, lits, log, v);
      }
    }
  }

  lemma ForcedIs(g: Graph, lits: seq<Lit>, log: seq<Lit>, v: nat, x: Lit)
    requires GraphOK(g) && |g| == |lits| && v < |lits|
    requires ActivesOf(lits, log) <= PossibleOf(lits, log) && !Disconnected(g, lits, log)
    ensures ForcedAt(g, lits, log, v, x) <==> Fixes(g, lits, log, v, x)
  {
    hide AllLinked, Completes, GraphOK;
    var p, act := PossibleOf(lits, log), ActivesOf(lits, log);
    if IsUndecided(lits, log, v) {
      assert v in p && v !in act;
      CompletionExists(g, p, act);
      InEveryCompletion(g, p, act, v);
      InNoCompletion(g, p, act, v);
    }
  }

  lemma ForcedExactly(g: Graph, lits: seq<Lit>, log: seq<Lit>, x: Lit)
    requires GraphOK(g) && |g| == |lits|
    requires ActivesOf(lits, log) <= PossibleOf(lits, log) && !Disconnected(g, lits, log)
    ensures x in Forced(g, lits, log, 0) <==> exists v :: 0 <= v < |lits| && Fixes(g, lits, log, v, x)
  {
    hide AllLinked, Fixes, ForcedAt, GraphOK, Forced;
    ForcedHas(g, lits, log, 0, x);
    forall v | 0 <= v < |lits| ensures ForcedAt(g, lits, log, v, x) <==> Fixes(g, lits, log, v, x) {
      ForcedIs(g, lits, log, v, x);
    }
  }

  lemma ForcedOwn(g: Graph, lits: seq<Lit>, log: seq<Lit>, v: nat)
    requires GraphOK(g) && |g| == |lits| && v < |lits| && IsUndecided(lits, log, v) && OwnVar(lits, log, v)
    requires ActivesOf(lits, log) <= PossibleOf(lits, log) && !Disconnected(g, lits, log)
    ensures lits[v] in Forced(g, lits, log, 0) <==> Always(g, lits, log, v)
    ensures Neg(lits[v]) in Forced(g, lits, log, 0) <==> Never(g, lits, log, v)
  {
    hide AllLinked, Disconnected, Always, Never, GraphOK, Forced, ActivesOf, PossibleOf;
    ForcedExactly(g, lits, log, lits[v]);
    ForcedExactly(g, lits, log, Neg(lits[v]));
    assert Neg(lits[v]).v == lits[v].v && Neg(lits[v]) != lits[v];
    assert Fixes(g, lits, log, v, lits[v]) <==> Always(g, lits, log, v);
    assert Fixes(g, lits, log, v, Neg(lits[v])) <==> Never(g, lits, log, v);
    forall i | 0 <= i < |lits| && (Fixes(g, lits, log, i, lits[v]) || Fixes(g, lits, log, i, Neg(lits[v])))
      ensures i == v
    {
      assert Neg(lits[i]).v == lits[i].v;
    }
  }

  ghost predicate Completable(g: Graph, lits: seq<Lit>, ls: seq<Lit>) {
    exists s :: Completes(g, PossibleOf(lits, ls), ActivesOf(lits, ls), s)
  }

  lemma CompletableIs(g: Graph, lits: seq<Lit>, ls: seq<Lit>)
    requires GraphOK(g) && |g| == |lits| && NoClash(ls)
    ensures Completable(g, lits, ls) <==> !Disconnected(g, lits, ls)
  {
    assert ActivesOf(lits, ls) <= PossibleOf(lits, ls);
    CompletionExists(g, PossibleOf(lits, ls), ActivesOf(lits, ls));
  }

  // The answer of calcReason is sufficient: no choice of the remaining vertices is
  // connected.  And it is irreducible: without any one of its literals some is.
  lemma ReasonIsTight(g: Graph, lits: seq<Lit>, log: seq<Lit>, hyp: seq<Lit>)
    requires GraphOK(g) && |g| == |lits| && NoClash(log + hyp) && Disconnected(g, lits, log + hyp)
    ensures var r := Reduced(g, lits, log, [], hyp);
            && (forall l :: l in r ==> l in log)
            && !Completable(g, lits, r + hyp)
            && (forall k :: 0 <= k < |r| ==> Completable(g, lits, r[..k] + r[k + 1..] + hyp))
  {
    hide Disconnected, Completable, GraphOK, Reduced, NoClash;
    var r := Reduced(g, lits, log, [], hyp);
    assert log + [] + hyp == log + hyp;
    ReducedEnough(g, lits, log, [], hyp);
    ReducedIrreducible(g, lits, log, [], hyp);
    NoClashSome(log + hyp, r + hyp);
    CompletableIs(g, lits, r + hyp);
    forall k | 0 <= k < |r| ensures Completable(g, lits, r[..k] + r[k + 1..] + hyp) {
      assert Needed(g, lits, r, k, hyp);
      WithoutOne(r, k);
      NoClashSome(log + hyp, r[..k] + r[k + 1..] + hyp);
      CompletableIs(g, lits, r[..k] + r[k + 1..] + hyp);
    }
  }

  function Hyp(p: seq<Lit>): seq<Lit> {
    if p == [] then [] else [Neg(p[0])]
  }

  // The entries initialize made first: their literals were true then, and still are.
  ghost predicate EarlyOK(lits: seq<Lit>, log: seq<Lit>, early: seq<nat>) {
    forall k :: 0 <= k < |early| ==> early[k] < |lits| && (lits[early[k]] in log || Neg(lits[early[k]]) in log)
  }

  // Vertices that were assigned before initialize are listed twice in decision_order_,
  // and calcReason comes to them a second time when it is through with the log.  ls is
  // what it has kept, with the hypothesis.  Dropping such a vertex again fails if its
  // literal was kept, and if it is active and connected to an active vertex of ls:
  // then it takes away the count of that one.
  ghost predicate NearActive(g: Graph, lits: seq<Lit>, ls: seq<Lit>, v: nat) {
    exists u :: u in ActivesOf(lits, ls) && Linked(g, PossibleOf(lits, ls), v, u)
  }

  ghost predicate KeptAgain(g: Graph, lits: seq<Lit>, log: seq<Lit>, ls: seq<Lit>, v: nat)
    requires v < |lits|
  {
    Neg(lits[v]) in ls || (lits[v] in log && NearActive(g, lits, ls, v))
  }

  function LitOf(lits: seq<Lit>, log: seq<Lit>, v: nat): Lit
    requires v < |lits|
  {
    if lits[v] in log then lits[v] else Neg(lits[v])
  }

  // The literals it adds for the vertices listed twice, the last one first.
  ghost function Again(g: Graph, lits: seq<Lit>, log: seq<Lit>, ls: seq<Lit>, early: seq<nat>): seq<Lit> {
    if early == [] then []
    else
      var v, rest := early[|early| - 1], early[..|early| - 1];
      (if v < |lits| && KeptAgain(g, lits, log, ls, v) then [LitOf(lits, log, v)] else [])
      + Again(g, lits, log, ls, rest)
  }

  lemma {:induction false} AgainNone(g: Graph, lits: seq<Lit>, log: seq<Lit>, ls: seq<Lit>, early: seq<nat>)
    requires forall v :: v in early ==> v < |lits|
    ensures Again(g, lits, log, ls, early) == [] <==> forall v :: v in early ==> !KeptAgain(g, lits, log, ls, v)
  {
    hide KeptAgain;
    if early != [] {
      var v, rest := early[|early| - 1], early[..|early| - 1];
      assert early == rest + [v];
      assert forall x :: x in rest ==> x in early;
      AgainNone(g, lits, log, ls, rest);
    }
  }

  // The literal of v is not kept, and if v is active it is not connected to an active
  // vertex that is.
  ghost predicate Apart(g: Graph, lits: seq<Lit>, log: seq<Lit>, r: seq<Lit>, hyp: seq<Lit>, v: nat)
    requires v < |lits|
  {
    lits[v] !in r && Neg(lits[v]) !in r && (lits[v] in log ==> !NearActive(g, lits, r + hyp, v))
  }

  lemma ApartIs(g: Graph, lits: seq<Lit>, log: seq<Lit>, r: seq<Lit>, hyp: seq<Lit>, v: nat)
    requires v < |lits| && NoClash(log + hyp) && (forall l :: l in r ==> l in log)
    requires lits[v] in log || Neg(lits[v]) in log
    requires forall l :: l in hyp ==> l !in log && Neg(l) !in log
    ensures KeptAgain(g, lits, log, r + hyp, v) <==> !Apart(g, lits, log, r, hyp, v)
  {
    var ls := r + hyp;
    assert Neg(Neg(lits[v])) == lits[v];
    assert lits[v] !in hyp && Neg(lits[v]) !in hyp;
    if lits[v] in r {
      assert lits[v] in log + hyp && Neg(lits[v]) !in log + hyp;
      assert Neg(lits[v]) !in ls;
      LinkedSelf(g, PossibleOf(lits, ls), v);
      assert v in ActivesOf(lits, ls);
    }
  }

  // With the literals it adds the answer of calcReason stays sufficient.  It is
  // irreducible exactly if none are added, that is, exactly if every vertex listed
  // twice is apart from what was kept.
  lemma TightExactly(g: Graph, lits: seq<Lit>, log: seq<Lit>, hyp: seq<Lit>, early: seq<nat>)
    requires GraphOK(g) && |g| == |lits| && NoClash(log + hyp) && Disconnected(g, lits, log + hyp)
    requires EarlyOK(lits, log, early) && forall l :: l in hyp ==> l !in log && Neg(l) !in log
    ensures var r := Reduced(g, lits, log, [], hyp);
            var more := Again(g, lits, log, r + hyp, early);
            && Disconnected(g, lits, r + more + hyp)
            && (AllNeeded(g, lits, r + more, hyp) <==> more == [])
            && (more == [] <==> forall v :: v in early ==> v < |lits| && Apart(g, lits, log, r, hyp, v))
  {
    hide Disconnected, GraphOK, Reduced, NoClash, Completable, KeptAgain, Apart, Again;
    var r := Reduced(g, lits, log, [], hyp);
    var more := Again(g, lits, log, r + hyp, early);
    assert log + [] + hyp == log + hyp;
    ReducedEnough(g, lits, log, [], hyp);
    AddedNotNeeded(g, lits, log, hyp, more);
    assert forall v :: v in early ==> v < |lits|;
    AgainNone(g, lits, log, r + hyp, early);
    forall v | v in early ensures KeptAgain(g, lits, log, r + hyp, v) <==> !Apart(g, lits, log, r, hyp, v) {
      ApartIs(g, lits, log, r, hyp, v);
    }
  }

  // On the path 0 - 1 - 2 - 3, where 0 and 1 are active before initialize, then 3
  // becomes active and 2 inactive, calcReason answers with the negation of c, e, a and
  // then b and a again, although the first three are enough.
  lemma PathAddsAgain(a: Lit, b: Lit, c: Lit, e: Lit)
    requires DistinctVars([a, b, c, e])
    ensures var g, lits, log := Path(), [a, b, c, e], [a, b, e, Neg(c)];
            && Disconnected(g, lits, log) && EarlyOK(lits, log, [0, 1])
            && Reduced(g, lits, log, [], []) == [Neg(c), e, a]
            && Again(g, lits, log, [Neg(c), e, a], [0, 1]) == [b, a]
  {
    hide Disconnected, NearActive;
    var g, lits, log := Path(), [a, b, c, e], [a, b, e, Neg(c)];
    PathVars(a, b, c, e);
    PathDisconnected(lits, a, b, c, e);
    PathReduced(lits, a, b, c, e);
    PathNear(lits, a, b, c, e);
    PathAgain(lits, a, b, c, e);
  }

  function Path(): Graph {
    [[1], [0, 2], [1, 3], [2]]
  }

  lemma PathVars(a: Lit, b: Lit, c: Lit, e: Lit)
    requires DistinctVars([a, b, c, e])
    ensures a.v != b.v && a.v != c.v && a.v != e.v && b.v != c.v && b.v != e.v && c.v != e.v
  {
    var lits := [a, b, c, e];
    assert lits[0].v != lits[1].v && lits[0].v != lits[2].v && lits[0].v != lits[3].v;
    assert lits[1].v != lits[2].v && lits[1].v != lits[3].v && lits[2].v != lits[3].v;
  }

  // The active and possible vertices of what is looked at on the way.
  lemma PathSets(lits: seq<Lit>, a: Lit, b: Lit, c: Lit, e: Lit)
    requires lits == [a, b, c, e] && a.v != b.v && a.v != c.v && a.v != e.v && b.v != c.v && b.v != e.v && c.v != e.v
    ensures var x := Neg(c);
            && PossibleOf(lits, [a, b, e]) == {0, 1, 2, 3} && ActivesOf(lits, [a, b, e]) == {0, 1, 3}
            && PossibleOf(lits, [a, b, x]) == {0, 1, 3} && ActivesOf(lits, [a, b, x]) == {0, 1}
            && PossibleOf(lits, [a, x, e]) == {0, 1, 3} && ActivesOf(lits, [a, x, e]) == {0, 3}
    ensures var x := Neg(c);
            && PossibleOf(lits, [x, e]) == {0, 1, 3} && ActivesOf(lits, [x, e]) == {3}
            && PossibleOf(lits, [x, e, a]) == {0, 1, 3} && ActivesOf(lits, [x, e, a]) == {0, 3}
            && PossibleOf(lits, [a, b, e, x]) == {0, 1, 3} && ActivesOf(lits, [a, b, e, x]) == {0, 1, 3}
  {
    var x := Neg(c);
    assert lits[0] == a && lits[1] == b && lits[2] == c && lits[3] == e;
    assert x.v == c.v && x != c;
  }

  lemma PathDisconnected(lits: seq<Lit>, a: Lit, b: Lit, c: Lit, e: Lit)
    requires lits == [a, b, c, e] && a.v != b.v && a.v != c.v && a.v != e.v && b.v != c.v && b.v != e.v && c.v != e.v
    ensures var g, x := Path(), Neg(c);
            && !Disconnected(g, lits, [a, b, e]) && !Disconnected(g, lits, [a, b, x])
            && Disconnected(g, lits, [a, x, e]) && !Disconnected(g, lits, [x, e])
            && Disconnected(g, lits, [a, b, e, x])
  {
    hide PossibleOf, ActivesOf, AllLinked;
    PathSets(lits, a, b, c, e);
    PathLinked();
  }

  lemma PathLinked()
    ensures var g := Path();
            && AllLinked(g, {0, 1, 2, 3}, {0, 1, 3}) && AllLinked(g, {0, 1, 3}, {0, 1}) && AllLinked(g, {0, 1, 3}, {3})
            && !AllLinked(g, {0, 1, 3}, {0, 3}) && !AllLinked(g, {0, 1, 3}, {0, 1, 3})
            && Linked(g, {0, 1, 3}, 1, 0) && Linked(g, {0, 1, 3}, 0, 0)
  {
    hide Linked;
    var g := Path();
    var all: set<nat>, s: set<nat> := {0, 1, 2, 3}, {0, 1, 3};
    PathSimple();
    assert 0 in g[1] && 1 in g[2] && 2 in g[3];
    LinkedEdge(g, s, 1, 0);
    LinkedSym(g, s, 1, 0);
    LinkedSelf(g, s, 0);
    LinkedSelf(g, s, 1);
    LinkedSelf(g, s, 3);
    LinkedWider(g, s, all, 1, 0);
    LinkedWider(g, s, all, 0, 1);
    LinkedWider(g, s, all, 0, 0);
    LinkedWider(g, s, all, 1, 1);
    LinkedWider(g, s, all, 3, 3);
    LinkedEdge(g, all, 2, 1);
    LinkedEdge(g, all, 3, 2);
    LinkedTrans(g, all, 3, 2, 1);
    LinkedTrans(g, all, 3, 1, 0);
    LinkedSym(g, all, 3, 1);
    LinkedSym(g, all, 3, 0);
    PathApart();
  }

  lemma PathSimple()
    ensures GraphOK(Path()) && Simple(Path())
  {
  }

  lemma PathApart()
    ensures !Linked(Path(), {0, 1, 3}, 0, 3)
  {
    var s: set<nat> := {0, 1, 3};
    assert Closed(Path(), s, {0, 1});
    Separated(Path(), s, {0, 1}, 0, 3);
  }

  lemma ReducedOne(g: Graph, lits: seq<Lit>, rest: seq<Lit>, l: Lit, kept: seq<Lit>, hyp: seq<Lit>)
    ensures Reduced(g, lits, rest + [l], kept, hyp)
         == Reduced(g, lits, rest, if Disconnected(g, lits, rest + kept + hyp) then kept else kept + [l], hyp)
  {
    hide Disconnected;
    assert (rest + [l])[..|rest|] == rest;
  }

  lemma PathReduced(lits: seq<Lit>, a: Lit, b: Lit, c: Lit, e: Lit)
    requires lits == [a, b, c, e] && a.v != b.v && a.v != c.v && a.v != e.v && b.v != c.v && b.v != e.v && c.v != e.v
    ensures Reduced(Path(), lits, [a, b, e, Neg(c)], [], []) == [Neg(c), e, a]
  {
    hide Disconnected, Reduced;
    var g, x, no: seq<Lit> := Path(), Neg(c), [];
    PathDisconnected(lits, a, b, c, e);
    assert [a, b, e] + [x] == [a, b, e, x] && [a, b, e] + no + no == [a, b, e] && no + [x] == [x];
    ReducedOne(g, lits, [a, b, e], x, [], []);
    assert [a, b] + [e] == [a, b, e] && [a, b] + [x] + no == [a, b, x] && [x] + [e] == [x, e];
    ReducedOne(g, lits, [a, b], e, [x], []);
    assert [a] + [b] == [a, b] && [a] + [x, e] + no == [a, x, e];
    ReducedOne(g, lits, [a], b, [x, e], []);
    assert no + [a] == [a] && no + [x, e] + no == [x, e] && [x, e] + [a] == [x, e, a];
    ReducedOne(g, lits, [], a, [x, e], []);
    ReducedNothing(g, lits, [x, e, a], []);
  }

  lemma ReducedNothing(g: Graph, lits: seq<Lit>, kept: seq<Lit>, hyp: seq<Lit>)
    ensures Reduced(g, lits, [], kept, hyp) == kept
  {
  }

  lemma PathNear(lits: seq<Lit>, a: Lit, b: Lit, c: Lit, e: Lit)
    requires lits == [a, b, c, e] && a.v != b.v && a.v != c.v && a.v != e.v && b.v != c.v && b.v != e.v && c.v != e.v
    ensures NearActive(Path(), lits, [Neg(c), e, a], 0) && NearActive(Path(), lits, [Neg(c), e, a], 1)
  {
    hide Linked, PossibleOf, ActivesOf, AllLinked;
    PathSets(lits, a, b, c, e);
    PathLinked();
    assert 0 in ActivesOf(lits, [Neg(c), e, a]);
  }

  lemma PathAgain(lits: seq<Lit>, a: Lit, b: Lit, c: Lit, e: Lit)
    requires lits == [a, b, c, e] && NearActive(Path(), lits, [Neg(c), e, a], 0)
    requires NearActive(Path(), lits, [Neg(c), e, a], 1)
    ensures Again(Path(), lits, [a, b, e, Neg(c)], [Neg(c), e, a], [0, 1]) == [b, a]
  {
    hide NearActive;
    var log := [a, b, e, Neg(c)];
    assert lits[0] == a && lits[1] == b && a in log && b in log;
    var one: seq<nat>, two: seq<nat> := [0], [0, 1];
    assert two[..1] == one && one[..0] == [];
    assert Again(Path(), lits, log, [Neg(c), e, a], one) == [a];
  }

  // Nothing added to a sufficient reason is needed.
  lemma AddedNotNeeded(g: Graph, lits: seq<Lit>, log: seq<Lit>, hyp: seq<Lit>, more: seq<Lit>)
    requires Disconnected(g, lits, log + hyp)
    ensures var r := Reduced(g, lits, log, [], hyp);
            && Disconnected(g, lits, r + more + hyp)
            && (AllNeeded(g, lits, r + more, hyp) <==> more == [])
  {
    hide Disconnected, GraphOK, Reduced, NoClash, Completable;
    var r := Reduced(g, lits, log, [], hyp);
    assert log + [] + hyp == log + hyp;
    ReducedEnough(g, lits, log, [], hyp);
    ReducedIrreducible(g, lits, log, [], hyp);
    DisconnectedMore(g, lits, r + hyp, r + more + hyp);
    if more == [] {
      assert r + more == r;
    } else {
      var all, k := r + more, |r| + |more| - 1;
      assert all[..k] + all[k + 1..] == r + more[..|more| - 1];
      DisconnectedMore(g, lits, r + hyp, all[..k] + all[k + 1..] + hyp);
      assert !Needed(g, lits, all, k, hyp);
    }
  }

  lemma NoClashSome(all: seq<Lit>, some: seq<Lit>)
    requires NoClash(all) && forall l :: l in some ==> l in all
    ensures NoClash(some)
  {
  }

  lemma WithoutOne(r: seq<Lit>, k: nat)
    requires k < |r|
    ensures forall l :: l in r[..k] + r[k + 1..] ==> l in r
  {
    forall l | l in r[..k] + r[k + 1..] ensures l in r {
      assert l in r[..k] || l in r[k + 1..];
    }
  }
}
