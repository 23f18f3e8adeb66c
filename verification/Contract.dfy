// What the solver may count on from a constraint, whichever kind it is.
module Contracts {
  import opened Logic

  ghost predicate Steady(con: Constraint) {
    if con.Constraint? then Recognises(con) else QuietLocal(con)
  }

  // The constraint can explain p if it is told log; kept is what it stored.
  ghost predicate Can(con: Constraint, log: seq<Lit>, before: seq<Lit>, p: Lit, kept: seq<Lit>) {
    if con.Constraint? then Forces(con, log, p) else KeptOK(con.sat, before, p, kept)
  }

  // It objects to what it has been told, or to enqueue_failure.
  ghost predicate Objects(con: Constraint, log: seq<Lit>, trail: seq<Lit>, extra: seq<Lit>, because: seq<Lit>) {
    if con.Constraint? then
      con.blocked(log + extra) && |extra| <= 1 && forall l :: l in extra ==> l in trail
    else
      extra == [] && ObjectionOK(con, log, trail, because)
  }

  // The answer is to the contract.
  ghost predicate Granted(con: Constraint, n: nat, log: seq<Lit>, trail: seq<Lit>, pending: bool, a: Answer) {
    if con.Constraint? then AnswerOK(con, n, log, trail, pending, a)
    else KeepingAnswer(con, n, log, trail, pending, a)
  }

  // calcReason
  function ReasonFor(con: Constraint, log: seq<Lit>, before: seq<Lit>, p: Lit, kept: seq<Lit>): seq<Lit> {
    if con.Constraint? then con.explain(log, before, p) else kept
  }

  function ObjectionFor(con: Constraint, log: seq<Lit>, trail: seq<Lit>, extra: seq<Lit>, because: seq<Lit>): seq<Lit> {
    if con.Constraint? then con.refute(log, trail, extra) else because + extra
  }

  function Needs(con: Constraint): seq<Clause> {
    if con.Keeping? then con.needs else []
  }

  lemma HonestSteady(con: Constraint, n: nat)
    requires Honest(con, n)
    ensures Steady(con)
    ensures forall l :: l in con.watched ==> l.v < n
    ensures forall c :: c in Needs(con) ==> NeedOK(con, c)
  {
  }

  lemma HonestPropagate(con: Constraint, n: nat, log: seq<Lit>, trail: seq<Lit>, pending: bool)
    requires Honest(con, n) && Fed(con, log, trail) && NoClash(trail)
    requires !pending ==> FedAll(con, log, trail) && Fit(con, log)
    ensures Granted(con, n, log, trail, pending, con.propagate(log, trail, pending))
  {
    hide AnswerOK, KeepingAnswer, Recognises, QuietLocal, NoClash, Fit, NeedOK, Fed;
  }

  lemma GrantedParts(con: Constraint, n: nat, log: seq<Lit>, trail: seq<Lit>, pending: bool, a: Answer)
    requires Granted(con, n, log, trail, pending, a)
    ensures forall p :: p in a.implied ==> p.v < n && Can(con, log, trail, p, Why(a, p))
    ensures !a.accept ==> Objects(con, log, trail, [], Because(a))
    ensures a.accept && !pending && FedAll(con, log, trail) ==> Content(con, log)
  {
    hide FedAll, Content, KeptOK, ObjectionOK;
    assert log + [] == log;
  }

  // A literal that is enqueued while it is false, the literals enqueued before it
  // included, is an objection.
  lemma FalseObjects(con: Constraint, n: nat, log: seq<Lit>, trail: seq<Lit>, pending: bool, a: Answer,
                     now: seq<Lit>, p: Lit)
    requires Granted(con, n, log, trail, pending, a) && p in a.implied && Neg(p) in now
    requires forall l :: l in now ==> l in trail || l in a.implied
    ensures Objects(con, log, now, [Neg(p)], [])
  {
    hide Content, ObjectionOK, KeptOK;
  }

  lemma CanMore(con: Constraint, few: seq<Lit>, many: seq<Lit>, before: seq<Lit>, after: seq<Lit>, p: Lit,
                kept: seq<Lit>)
    requires Steady(con) && Can(con, few, before, p, kept)
    requires (forall l :: l in few ==> l in many) && forall l :: l in before ==> l in after
    ensures Can(con, many, after, p, kept)
  {
    hide Explains, Recognises, QuietLocal;
    if con.Constraint? {
      ForcesMore(con, few, many, p);
    }
  }

  lemma ObjectsMore(con: Constraint, log: seq<Lit>, trail: seq<Lit>, more: seq<Lit>, extra: seq<Lit>,
                    because: seq<Lit>)
    requires Objects(con, log, trail, extra, because) && forall l :: l in trail ==> l in more
    ensures Objects(con, log, more, extra, because)
  {
    hide Refutes;
  }

  // What can be explained follows from what came before.
  lemma CanExplains(con: Constraint, log: seq<Lit>, before: seq<Lit>, p: Lit, kept: seq<Lit>)
    requires Steady(con) && Can(con, log, before, p, kept) && forall l :: l in log ==> l in before
    ensures Explains(con.sat, before, p)
  {
    if con.Constraint? {
      ForcesMore(con, log, before, p);
      ForcesExplains(con, before, p);
    } else {
      forall a: Assignment | con.sat(a) && AllHold(a, before) ensures Holds(a, p) {
        assert AllHold(a, kept);
      }
    }
  }

  lemma ReasonGood(con: Constraint, n: nat, log: seq<Lit>, before: seq<Lit>, p: Lit, kept: seq<Lit>)
    requires Honest(con, n) && Fed(con, log, before) && NoClash(before) && p !in before && Neg(p) !in before
    requires Can(con, log, before, p, kept)
    ensures var r := ReasonFor(con, log, before, p, kept);
            (forall l :: l in r ==> l in before) && Explains(con.sat, r, p)
  {
    hide Fed, NoClash, Forces, Recognises, QuietLocal, Explains;
    if con.Constraint? {
      assert MayExplain(con, log, before, p);
      assert ExplainOK(con, log, before, p);
      ForcesExplains(con, con.explain(log, before, p), p);
    }
  }

  lemma ObjectionGood(con: Constraint, n: nat, log: seq<Lit>, trail: seq<Lit>, extra: seq<Lit>, because: seq<Lit>)
    requires Honest(con, n) && Fed(con, log, trail) && NoClash(trail) && Objects(con, log, trail, extra, because)
    ensures var r := ObjectionFor(con, log, trail, extra, because);
            (forall l :: l in r ==> l in trail) && Refutes(con.sat, r)
  {
    hide Fed, NoClash, QuietLocal, Refutes;
    if con.Constraint? {
      assert MayRefute(con, log, trail, extra);
      assert RefuteOK(con, log, trail, extra);
    } else {
      assert because + extra == because;
    }
  }

  // An objection has literals that a quiet state lacks.
  lemma ObjectionNews(con: Constraint, n: nat, log: seq<Lit>, trail: seq<Lit>, extra: seq<Lit>, because: seq<Lit>,
                      ls: seq<Lit>)
    requires Honest(con, n) && Fed(con, log, trail) && NoClash(trail) && Objects(con, log, trail, extra, because)
    requires Quiet(con, ls) && forall l :: l in ls && l in con.watched ==> l in log
    ensures exists q :: q in ObjectionFor(con, log, trail, extra, because) && q !in ls
  {
    hide Fed, NoClash, QuietLocal, Refutes;
    if con.Constraint? {
      assert MayRefute(con, log, trail, extra);
      assert RefuteOK(con, log, trail, extra);
      var r := con.refute(log, trail, extra);
      if forall q :: q in r ==> q in ls {
        BlockedMore(con, r, ls);
        assert false;
      }
    } else {
      assert because + extra == because;
    }
  }

  lemma ObjectsRefutes(con: Constraint, n: nat, log: seq<Lit>, trail: seq<Lit>, extra: seq<Lit>, because: seq<Lit>)
    requires Honest(con, n) && Fed(con, log, trail) && NoClash(trail) && Objects(con, log, trail, extra, because)
    ensures Refutes(con.sat, trail)
  {
    hide Honest, Fed, NoClash, Objects;
    ObjectionGood(con, n, log, trail, extra, because);
    var r := ObjectionFor(con, log, trail, extra, because);
    forall a: Assignment | con.sat(a) ensures !AllHold(a, trail) {
      assert AllHold(a, trail) ==> AllHold(a, r);
    }
  }

  // Literals the constraint does not watch change nothing for it.
  lemma ContentGrows(con: Constraint, ls: seq<Lit>, more: seq<Lit>)
    requires Steady(con) && Content(con, ls)
    requires forall l :: l in ls ==> l in more
    requires forall l :: l in more && l in con.watched ==> l in ls
    ensures Content(con, more)
  {
    forall a: Assignment | Matches(con, a, more) ensures con.sat(a) {
      assert Matches(con, a, ls);
    }
  }

  // An answer to the contract is one for level 0.
  lemma GrantedRoot(con: Constraint, n: nat, log: seq<Lit>, trail: seq<Lit>, pending: bool, a: Answer)
    requires Honest(con, n) && Granted(con, n, log, trail, pending, a)
    requires Fed(con, log, trail) && NoClash(trail) && (!pending ==> FedAll(con, log, trail))
    ensures RootAnswer(con, n, trail, pending, a)
  {
    hide Honest, Granted, Can, Objects, Explains, Refutes, NoClash, Content, Steady;
    HonestSteady(con, n);
    GrantedParts(con, n, log, trail, pending, a);
    forall p | p in a.implied ensures Explains(con.sat, trail, p) {
      CanExplains(con, log, trail, p, Why(a, p));
    }
    if !a.accept {
      ObjectsRefutes(con, n, log, trail, [], Because(a));
    } else if !pending {
      ContentGrows(con, log, trail);
    }
  }

  // A constraint that goes on as always may do so at level 0.
  lemma HonestAtRoot(con: Constraint, n: nat)
    requires Honest(con, n)
    ensures RootHonest(con, n, con.propagate)
  {
    hide Honest, Granted, RootAnswer, Fed, NoClash, Fit;
    forall log, trail, pending |
      Fed(con, log, trail) && NoClash(trail) && (!pending ==> FedAll(con, log, trail) && Fit(con, log))
      ensures RootAnswer(con, n, trail, pending, con.propagate(log, trail, pending))
    {
      HonestPropagate(con, n, log, trail, pending);
      GrantedRoot(con, n, log, trail, pending, con.propagate(log, trail, pending));
    }
  }

  // What initialize took in ahead of its delivery counts as delivered once it is true.
  function TakenAhead(log: seq<Lit>, early: seq<Lit>, trail: seq<Lit>): seq<Lit>
    decreases |early|
  {
    if early == [] then log
    else if early[0] in trail && early[0] !in log then TakenAhead(log + [early[0]], early[1..], trail)
    else TakenAhead(log, early[1..], trail)
  }

  lemma {:induction false} AheadFed(con: Constraint, log: seq<Lit>, early: seq<Lit>, trail: seq<Lit>)
    requires Fed(con, log, trail) && forall l :: l in early ==> l in con.watched
    ensures Fed(con, TakenAhead(log, early, trail), trail)
    ensures forall l :: l in TakenAhead(log, early, trail) <==> l in log || (l in early && l in trail)
    decreases |early|
  {
    if early != [] {
      if early[0] in trail && early[0] !in log {
        AheadFed(con, log + [early[0]], early[1..], trail);
      } else {
        AheadFed(con, log, early[1..], trail);
      }
    }
  }

  // A constraint whose state is that of a larger log at level 0 may go on as always.
  lemma AheadAtRoot(con: Constraint, n: nat, early: seq<Lit>)
    requires con.Constraint? && Honest(con, n) && forall l :: l in early ==> l in con.watched
    ensures RootHonest(con, n, (log, trail, pending) => con.propagate(TakenAhead(log, early, trail), trail, pending))
  {
    hide Honest, Granted, RootAnswer, Fed, NoClash, TakenAhead;
    forall log, trail, pending |
      Fed(con, log, trail) && NoClash(trail) && (!pending ==> FedAll(con, log, trail) && Fit(con, log))
      ensures RootAnswer(con, n, trail, pending, con.propagate(TakenAhead(log, early, trail), trail, pending))
    {
      var more := TakenAhead(log, early, trail);
      AheadFed(con, log, early, trail);
      HonestPropagate(con, n, more, trail, pending);
      GrantedRoot(con, n, more, trail, pending, con.propagate(more, trail, pending));
    }
  }

  // An answer of propagate to all that is true will do for initialize, or part of it.
  lemma AnswerStarts(con: Constraint, n: nat, log: seq<Lit>, trail: seq<Lit>, a: Answer, b: Answer)
    requires Honest(con, n) && Granted(con, n, log, trail, false, a)
    requires FedAll(con, log, trail) && NoClash(trail)
    requires (b.accept <==> a.accept) && forall x :: b.accept && x in b.implied ==> x in a.implied
    ensures StartOK(con, n, trail, b)
  {
    hide Honest, Granted, Content, Explains, Refutes, FedAll, NoClash, Awaits;
    assert Fed(con, log, trail) by { FedIs(con, log, trail); }
    GrantedRoot(con, n, log, trail, false, a);
  }

  lemma FedIs(con: Constraint, log: seq<Lit>, trail: seq<Lit>)
    requires FedAll(con, log, trail)
    ensures Fed(con, log, trail)
  {
  }

  // The constraint with its log in another order.
  ghost function Reordered(con: Constraint, order: seq<Lit> -> seq<Lit>): Constraint
    requires con.Constraint?
  {
    con.(propagate := (log, trail, pending) => con.propagate(order(log), trail, pending),
         explain := (log, trail, p) => con.explain(order(log), trail, p),
         refute := (log, trail, extra) => con.refute(order(log), trail, extra))
  }

  ghost predicate OnlyOrders(order: seq<Lit> -> seq<Lit>) {
    forall log :: NoDup(log) ==> NoDup(order(log)) && forall l :: l in order(log) <==> l in log
  }

  // The contract does not depend on the order of the log: initialize may take the true
  // literals in as it likes.
  lemma ReorderedHonest(con: Constraint, n: nat, order: seq<Lit> -> seq<Lit>)
    requires con.Constraint? && Honest(con, n) && OnlyOrders(order)
    ensures Honest(Reordered(con, order), n)
  {
    var now := Reordered(con, order);
    hide Content, NoClash, Recognises, OnlyOrders;
    assert Recognises(now) by { SameRecognises(con, now); }
    forall log, trail, pending | Fed(now, log, trail) && NoClash(trail)
      ensures AnswerOK(now, n, log, trail, pending, now.propagate(log, trail, pending))
    {
      OrderFed(con, order, log, trail);
      OrderAnswer(con, now, n, order(log), log, trail, pending, con.propagate(order(log), trail, pending));
    }
    forall log, trail, p | MayExplain(now, log, trail, p) ensures ExplainOK(now, log, trail, p) {
      OrderFed(con, order, log, trail);
      ForcesMore(con, log, order(log), p);
      assert MayExplain(con, order(log), trail, p);
      assert ExplainOK(con, order(log), trail, p);
    }
    forall log, trail, extra | MayRefute(now, log, trail, extra) ensures RefuteOK(now, log, trail, extra) {
      OrderFed(con, order, log, trail);
      BlockedMore(con, log + extra, order(log) + extra);
      assert MayRefute(con, order(log), trail, extra);
      assert RefuteOK(con, order(log), trail, extra);
    }
  }

  lemma SameRecognises(con: Constraint, now: Constraint)
    requires con.Constraint? && now.Constraint? && Recognises(con)
    requires now.sat == con.sat && now.blocked == con.blocked && now.watched == con.watched
    ensures Recognises(now)
  {
  }

  lemma OrderFed(con: Constraint, order: seq<Lit> -> seq<Lit>, log: seq<Lit>, trail: seq<Lit>)
    requires OnlyOrders(order) && Fed(con, log, trail)
    ensures Fed(con, order(log), trail) && forall l :: l in order(log) <==> l in log
  {
  }

  lemma OrderAnswer(con: Constraint, now: Constraint, n: nat, few: seq<Lit>, log: seq<Lit>, trail: seq<Lit>,
                    pending: bool, a: Answer)
    requires con.Constraint? && now.Constraint? && Recognises(con) && AnswerOK(con, n, few, trail, pending, a)
    requires now.sat == con.sat && now.blocked == con.blocked && now.watched == con.watched
    requires (forall l :: l in few <==> l in log) && Fed(con, few, trail)
    ensures AnswerOK(now, n, log, trail, pending, a)
  {
    hide Recognises, NoDup;
    forall p | p in a.implied ensures Forces(now, log, p) {
      ForcesMore(con, few, log, p);
    }
    if !a.accept {
      BlockedMore(con, few, log);
    } else if !pending && FedAll(now, log, trail) {
      ContentGrows(con, few, log);
      assert Content(now, log);
    }
  }
}
