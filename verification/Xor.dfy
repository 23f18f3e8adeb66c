// constraints/Xor.cc: the exclusive or of some literals is a given bit.
module Xors {
  import opened Logic
  import opened Contracts
  import opened Trails

  function Odd(n: nat): bool {
    n % 2 == 1
  }

  // The exclusive or of the literals, as the caller means it.
  function XorOf(a: Assignment, lits: seq<Lit>): bool {
    if lits == [] then false else XorOf(a, lits[..|lits| - 1]) != Holds(a, lits[|lits| - 1])
  }

  ghost predicate Sorted(vars: seq<Var>) {
    forall i, j :: 0 <= i < j < |vars| ==> vars[i] < vars[j]
  }

  ghost function VarSet(vars: seq<Var>): set<Var> {
    set v | v in vars
  }

  function Positives(ls: seq<Lit>): set<Var> {
    set l | l in ls && !l.sign :: l.v
  }

  // The parity the undecided variables still have to make up.
  function Left(parity: bool, log: seq<Lit>): bool {
    parity != Odd(|Positives(log)|)
  }

  // If all variables have been told, the parity is right.
  predicate FullFits(vars: seq<Var>, parity: bool, log: seq<Lit>) {
    |log| == |vars| ==> !Left(parity, log)
  }

  predicate Decided(log: seq<Lit>, v: Var) {
    Lit(v, false) in log || Lit(v, true) in log
  }

  // The variables no literal of log decides, as literals of the given sign.
  function Undecided(vars: seq<Var>, log: seq<Lit>, sign: bool): seq<Lit> {
    if vars == [] then []
    else (if Decided(log, vars[0]) then [] else [Lit(vars[0], sign)]) + Undecided(vars[1..], log, sign)
  }

  function Told(vars: seq<Var>, parity: bool, log: seq<Lit>): Answer {
    if |log| == |vars| then Answer([], !Left(parity, log))
    else if |log| + 1 == |vars| then Answer(Undecided(vars, log, !Left(parity, log)), true)
    else Answer([], true)
  }

  function Started(vars: seq<Var>, parity: bool, log: seq<Lit>): Answer {
    if log == [] && vars != [] then Answer([], true) else Told(vars, parity, log)
  }

  // calcReason: the known values, and for an enqueue that failed the literal that
  // contradicts it.
  function ReasonOf(vars: seq<Var>, log: seq<Lit>, failed: bool, sign: bool): seq<Lit> {
    if vars == [] then []
    else var v := vars[0];
         (if Lit(v, false) in log then [Lit(v, false)]
          else if Lit(v, true) in log then [Lit(v, true)]
          else if failed then [Lit(v, sign)]
          else [])
         + ReasonOf(vars[1..], log, failed, sign)
  }

  ghost predicate Satisfied(vars: seq<Var>, parity: bool, a: Assignment) {
    Odd(|VarSet(vars) * a|) == parity
  }

  // Some assignment of all the variables, with the wrong parity, is part of ls.
  ghost predicate Violates(vars: seq<Var>, parity: bool, ls: seq<Lit>) {
    exists a: Assignment :: PartOf(vars, a, ls) && Odd(|a|) != parity
  }

  // The literal of v that holds in a.
  function LitIn(a: Assignment, v: Var): Lit {
    Lit(v, v !in a)
  }

  ghost predicate PartOf(vars: seq<Var>, a: Assignment, ls: seq<Lit>) {
    a <= VarSet(vars) && forall v :: v in vars ==> LitIn(a, v) in ls
  }

  ghost function XorK(vars: seq<Var>, parity: bool): Constraint {
    Constraint(a => Satisfied(vars, parity, a),
               ls => Violates(vars, parity, ls),
               (set v | v in vars :: Lit(v, false)) + (set v | v in vars :: Lit(v, true)),
               (log, trail, pending) => Told(vars, parity, log),
               (log, trail, p) => ReasonOf(vars, log, false, false),
               (log, trail, extra) => ReasonOf(vars, log, extra != [], Left(parity, log)))
  }

  // ------------------------------------------------------------ the contract

  lemma XorRecognises(vars: seq<Var>, parity: bool)
    ensures Recognises(XorK(vars, parity))
  {
    var con := XorK(vars, parity);
    forall ls | con.blocked(ls) ensures Refutes(con.sat, ls) {
      var a: Assignment :| PartOf(vars, a, ls) && Odd(|a|) != parity;
      forall b: Assignment | AllHold(b, ls) ensures !con.sat(b) {
        forall v | v in vars ensures v in a <==> v in b {
          assert Holds(b, LitIn(a, v));
        }
        assert VarSet(vars) * b == a;
      }
    }
    forall few, more | con.blocked(few) && forall l :: l in few && l in con.watched ==> l in more
      ensures con.blocked(more)
    {
      var a: Assignment :| PartOf(vars, a, few) && Odd(|a|) != parity;
      assert PartOf(vars, a, more);
    }
  }

  // What is known about a log that has been delivered: one literal a variable.
  ghost predicate Delivered(vars: seq<Var>, log: seq<Lit>) {
    NoDup(log) && NoClash(log) && forall l :: l in log ==> l.v in vars
  }

  lemma FedDelivered(vars: seq<Var>, parity: bool, log: seq<Lit>, trail: seq<Lit>)
    requires Fed(XorK(vars, parity), log, trail) && NoClash(trail)
    ensures Delivered(vars, log)
  {
  }

  ghost function DecidedVars(log: seq<Lit>): set<Var> {
    set l | l in log :: l.v
  }

  lemma {:induction false} CountDecided(vars: seq<Var>, log: seq<Lit>)
    requires Delivered(vars, log)
    ensures |DecidedVars(log)| == |log|
    decreases |log|
  {
    if log == [] {
      assert DecidedVars(log) == {};
    } else {
      var rest := log[1..];
      assert log == [log[0]] + rest;
      assert forall l :: l in rest ==> l in log;
      CountDecided(vars, rest);
      forall l | l in rest ensures l.v != log[0].v {
        assert l == log[0] || l == Neg(log[0]) || l.v != log[0].v;
        assert Neg(log[0]) !in log;
      }
      assert DecidedVars(log) == DecidedVars(rest) + {log[0].v};
    }
  }

  lemma {:induction false} CountVars(vars: seq<Var>)
    requires Sorted(vars)
    ensures |VarSet(vars)| == |vars|
  {
    if vars == [] {
      assert VarSet(vars) == {};
    } else {
      CountVars(vars[1..]);
      assert VarSet(vars) == VarSet(vars[1..]) + {vars[0]};
      assert vars[0] !in vars[1..];
    }
  }

  lemma DecidedIs(log: seq<Lit>, v: Var)
    ensures Decided(log, v) <==> v in DecidedVars(log)
  {
    if v in DecidedVars(log) {
      var l :| l in log && l.v == v;
      assert l == Lit(v, false) || l == Lit(v, true);
    }
  }

  // n_undecided_ says how many variables are undecided.
  lemma UndecidedCount(vars: seq<Var>, log: seq<Lit>)
    requires Sorted(vars) && Delivered(vars, log)
    ensures |VarSet(vars) - DecidedVars(log)| == |vars| - |log|
  {
    CountVars(vars);
    CountDecided(vars, log);
    assert DecidedVars(log) <= VarSet(vars);
    assert VarSet(vars) == DecidedVars(log) + (VarSet(vars) - DecidedVars(log));
  }

  lemma AllDecided(vars: seq<Var>, log: seq<Lit>)
    requires Sorted(vars) && Delivered(vars, log) && |log| == |vars|
    ensures PartOf(vars, Positives(log), log)
  {
    UndecidedCount(vars, log);
    forall v | v in vars ensures LitIn(Positives(log), v) in log {
      assert v !in VarSet(vars) - DecidedVars(log);
      DecidedIs(log, v);
      if Lit(v, false) !in log {
        assert v !in Positives(log);
      }
    }
  }

  // The one variable that is left is decided by a literal of the opposite sign.
  lemma LastDecided(vars: seq<Var>, log: seq<Lit>, u: Var, sign: bool)
    requires Sorted(vars) && Delivered(vars, log) && |log| + 1 == |vars| && u in vars && !Decided(log, u)
    ensures PartOf(vars, Positives(log + [Lit(u, sign)]), log + [Lit(u, sign)])
    ensures |Positives(log + [Lit(u, sign)])| == |Positives(log)| + if sign then 0 else 1
  {
    var more := log + [Lit(u, sign)];
    DecidedIs(log, u);
    assert forall l :: l in log ==> l.v != u;
    AllDecided(vars, more);
    assert Positives(more) == Positives(log) + if sign then {} else {u};
  }

  lemma {:induction false} UndecidedMembers(vars: seq<Var>, log: seq<Lit>, sign: bool, x: Lit)
    ensures x in Undecided(vars, log, sign) <==> x.v in vars && !Decided(log, x.v) && x.sign == sign
  {
    if vars != [] {
      UndecidedMembers(vars[1..], log, sign, x);
      assert vars == [vars[0]] + vars[1..];
    }
  }

  lemma ToldForces(vars: seq<Var>, parity: bool, log: seq<Lit>, p: Lit)
    requires Sorted(vars) && Delivered(vars, log) && p in Told(vars, parity, log).implied
    ensures p.v in vars && Forces(XorK(vars, parity), log, p)
  {
    var sign := !Left(parity, log);
    UndecidedMembers(vars, log, sign, p);
    LastDecided(vars, log, p.v, !sign);
    assert Neg(p) == Lit(p.v, !sign);
    assert Violates(vars, parity, log + [Neg(p)]);
  }

  // propagate enqueues exactly what follows: the literals of undecided variables that
  // hold in every assignment in which the parity is right and the log holds.
  lemma DomainConsistent(vars: seq<Var>, parity: bool, log: seq<Lit>, x: Lit)
    requires Sorted(vars) && Delivered(vars, log) && Told(vars, parity, log).accept
    requires x.v in vars && !Decided(log, x.v)
    ensures x in Told(vars, parity, log).implied <==> Explains(XorK(vars, parity).sat, log, x)
  {
    hide Sorted, Undecided, Explains, Decided;
    var con := XorK(vars, parity);
    if x in Told(vars, parity, log).implied {
      XorRecognises(vars, parity);
      ToldForces(vars, parity, log, x);
      ForcesExplains(con, log, x);
    } else {
      Escapes(vars, parity, log, x);
    }
  }

  // The assignment in which the log holds, x does not, and the other variables are
  // false but for those of more.
  ghost function Against(log: seq<Lit>, x: Lit, more: set<Var>): Assignment {
    Positives(log) + (if x.sign then {x.v} else {}) + more
  }

  lemma AgainstHolds(vars: seq<Var>, log: seq<Lit>, x: Lit, more: set<Var>)
    requires Delivered(vars, log) && x.v in vars && !Decided(log, x.v)
    requires forall u :: u in more ==> u in vars && u != x.v && !Decided(log, u)
    ensures AllHold(Against(log, x, more), log) && !Holds(Against(log, x, more), x)
    ensures VarSet(vars) * Against(log, x, more) == Against(log, x, more)
    ensures |Against(log, x, more)| == |Positives(log)| + (if x.sign then 1 else 0) + |more|
  {
    var a := Against(log, x, more);
    DecidedIs(log, x.v);
    forall l | l in log ensures Holds(a, l) {
      DecidedIs(log, l.v);
      assert Neg(l) !in log;
      assert l.sign ==> l.v !in Positives(log);
    }
    assert x.v !in Positives(log);
    forall u | u in more ensures u !in Positives(log) {
      DecidedIs(log, u);
    }
  }

  lemma Escapes(vars: seq<Var>, parity: bool, log: seq<Lit>, x: Lit)
    requires Sorted(vars) && Delivered(vars, log) && x.v in vars && !Decided(log, x.v)
    requires x !in Told(vars, parity, log).implied
    ensures !Explains(XorK(vars, parity).sat, log, x)
  {
    hide Decided, Sorted, Delivered, Undecided, Positives, Against, Told;
    AgainstHolds(vars, log, x, {});
    if Odd(|Against(log, x, {})|) == parity {
      assert XorK(vars, parity).sat(Against(log, x, {}));
    } else if u :| u in vars && u != x.v && !Decided(log, u) {
      AgainstHolds(vars, log, x, {u});
      assert XorK(vars, parity).sat(Against(log, x, {u}));
    } else {
      LastEscapes(vars, parity, log, x);
    }
  }

  lemma LastEscapes(vars: seq<Var>, parity: bool, log: seq<Lit>, x: Lit)
    requires Sorted(vars) && Delivered(vars, log) && x.v in vars && !Decided(log, x.v)
    requires forall u :: u in vars && u != x.v ==> Decided(log, u)
    requires x !in Told(vars, parity, log).implied
    ensures Odd(|Positives(log)| + if x.sign then 1 else 0) == parity
  {
    hide Decided, Sorted, Delivered, Undecided, Positives;
    OnlyOneLeft(vars, log, x.v);
    UndecidedMembers(vars, log, !Left(parity, log), x);
  }

  lemma OnlyOneLeft(vars: seq<Var>, log: seq<Lit>, v: Var)
    requires Sorted(vars) && Delivered(vars, log) && v in vars && !Decided(log, v)
    requires forall u :: u in vars && u != v ==> Decided(log, u)
    ensures |log| + 1 == |vars|
  {
    UndecidedCount(vars, log);
    forall u | u in vars ensures u in VarSet(vars) - DecidedVars(log) <==> u == v {
      DecidedIs(log, u);
    }
    assert VarSet(vars) - DecidedVars(log) == {v};
  }

  lemma ToldRejects(vars: seq<Var>, parity: bool, log: seq<Lit>)
    requires Sorted(vars) && Delivered(vars, log) && !Told(vars, parity, log).accept
    ensures Violates(vars, parity, log)
  {
    AllDecided(vars, log);
  }

  lemma ToldOK(vars: seq<Var>, parity: bool, n: nat, log: seq<Lit>, trail: seq<Lit>, pending: bool)
    requires Sorted(vars) && (forall v :: v in vars ==> v < n)
    requires Fed(XorK(vars, parity), log, trail) && NoClash(trail)
    ensures AnswerOK(XorK(vars, parity), n, log, trail, pending, Told(vars, parity, log))
    ensures AnswerOK(XorK(vars, parity), n, log, trail, pending, Started(vars, parity, log))
  {
    hide Content, Forces, Violates, Sorted, Told;
    var con, a := XorK(vars, parity), Told(vars, parity, log);
    FedDelivered(vars, parity, log, trail);
    forall p | p in a.implied ensures p.v < n && Forces(con, log, p) {
      ToldForces(vars, parity, log, p);
    }
    if !a.accept {
      ToldRejects(vars, parity, log);
    } else {
      AcceptContent(vars, parity, log);
    }
    if vars != [] && log == [] {
      NothingKnown(vars, parity);
    }
  }

  lemma ToldFits(vars: seq<Var>, parity: bool, log: seq<Lit>)
    ensures Told(vars, parity, log).accept ==> FullFits(vars, parity, log)
  {
    hide Left;
  }

  lemma AcceptContent(vars: seq<Var>, parity: bool, log: seq<Lit>)
    requires Sorted(vars) && Delivered(vars, log) && Told(vars, parity, log).accept
    ensures Content(XorK(vars, parity), log)
  {
    var con := XorK(vars, parity);
    forall a: Assignment | Matches(con, a, log) ensures con.sat(a) {
      forall v | v in vars ensures LitIn(a, v) in log {
        assert Holds(a, LitIn(a, v));
      }
      forall v | v in vars ensures v in DecidedVars(log) {
        assert LitIn(a, v) in log;
      }
      UndecidedCount(vars, log);
      assert VarSet(vars) - DecidedVars(log) == {};
      assert VarSet(vars) * a == Positives(log);
    }
    forall a: Assignment | PartOf(vars, a, log) ensures Odd(|a|) == parity {
      forall v | v in vars ensures v in DecidedVars(log) {
        assert LitIn(a, v) in log;
      }
      UndecidedCount(vars, log);
      assert VarSet(vars) - DecidedVars(log) == {};
      AllDecided(vars, log);
      SamePart(vars, log, a, Positives(log));
    }
  }

  lemma NothingKnown(vars: seq<Var>, parity: bool)
    requires Sorted(vars) && vars != []
    ensures Content(XorK(vars, parity), [])
  {
    var con := XorK(vars, parity);
    assert vars[0] in vars;
    forall a: Assignment ensures !Matches(con, a, []) {
      assert LitIn(a, vars[0]) in con.watched && Holds(a, LitIn(a, vars[0]));
    }
  }

  lemma {:induction false} ReasonMembers(vars: seq<Var>, log: seq<Lit>, failed: bool, sign: bool, x: Lit)
    requires NoClash(log)
    ensures x in ReasonOf(vars, log, failed, sign) <==>
            x.v in vars && (x in log || (failed && !Decided(log, x.v) && x.sign == sign))
  {
    if vars != [] {
      ReasonMembers(vars[1..], log, failed, sign, x);
      assert vars == [vars[0]] + vars[1..];
      assert Neg(Lit(vars[0], false)) == Lit(vars[0], true);
      assert x.v == vars[0] ==> x == Lit(vars[0], false) || x == Lit(vars[0], true);
    }
  }

  // A failed enqueue: extra is what calcReason puts down for the last variable.
  lemma FailedExtra(vars: seq<Var>, parity: bool, log: seq<Lit>, trail: seq<Lit>, e: Lit)
    requires Sorted(vars) && Delivered(vars, log) && NoClash(trail) && e in trail
    requires (forall l :: l in log ==> l in trail) && Violates(vars, parity, log + [e])
    ensures forall v :: v in vars && !Decided(log, v) ==> Lit(v, Left(parity, log)) == e
  {
    var a: Assignment :| PartOf(vars, a, log + [e]) && Odd(|a|) != parity;
    forall v | v in vars && !Decided(log, v) ensures Lit(v, Left(parity, log)) == e {
      assert LitIn(a, v) in log + [e];
      assert e == LitIn(a, v);
      FailedSign(vars, parity, log, a, e);
    }
  }

  lemma FailedSign(vars: seq<Var>, parity: bool, log: seq<Lit>, a: Assignment, e: Lit)
    requires Sorted(vars) && Delivered(vars, log) && NoClash(log + [e]) && e.v in vars && !Decided(log, e.v)
    requires PartOf(vars, a, log + [e]) && Odd(|a|) != parity
    ensures e.sign == Left(parity, log)
  {
    OneLeft(vars, log, a, e);
    LastDecided(vars, log, e.v, e.sign);
    assert Lit(e.v, e.sign) == e;
    SamePart(vars, log + [e], a, Positives(log + [e]));
  }

  lemma OneLeft(vars: seq<Var>, log: seq<Lit>, a: Assignment, e: Lit)
    requires Sorted(vars) && Delivered(vars, log) && PartOf(vars, a, log + [e]) && e.v in vars && !Decided(log, e.v)
    ensures |log| + 1 == |vars|
  {
    UndecidedCount(vars, log);
    forall v | v in vars && v !in DecidedVars(log) ensures v == e.v {
      assert LitIn(a, v) in log + [e];
    }
    DecidedIs(log, e.v);
    assert VarSet(vars) - DecidedVars(log) == {e.v};
  }

  lemma SamePart(vars: seq<Var>, ls: seq<Lit>, a: Assignment, b: Assignment)
    requires NoClash(ls) && PartOf(vars, a, ls) && PartOf(vars, b, ls)
    ensures a == b
  {
    forall v | v in vars ensures v in a <==> v in b {
      assert LitIn(a, v) in ls && LitIn(b, v) in ls;
      assert Neg(Lit(v, true)) == Lit(v, false);
    }
  }

  // Xor keeps the contract of Constraint.  After initialize a literal is delivered that
  // it has taken in already exactly in the states Overeager describes; TakenInTwice is the
  // smallest of them, and PropagateAgain answers as the contract has it.
  lemma XorHonest(vars: seq<Var>, parity: bool, n: nat)
    requires Sorted(vars) && forall v :: v in vars ==> v < n
    ensures Honest(XorK(vars, parity), n)
  {
    hide Sorted;
    var con := XorK(vars, parity);
    XorRecognises(vars, parity);
    forall log, trail, pending | Fed(con, log, trail) && NoClash(trail)
      ensures AnswerOK(con, n, log, trail, pending, con.propagate(log, trail, pending))
    {
      ToldOK(vars, parity, n, log, trail, pending);
    }
    forall log, trail, p | MayExplain(con, log, trail, p) ensures ExplainOK(con, log, trail, p) {
      FedDelivered(vars, parity, log, trail);
      forall l ensures l in con.explain(log, trail, p) <==> l in log {
        ReasonMembers(vars, log, false, false, l);
      }
      ForcesMore(con, log, con.explain(log, trail, p), p);
    }
    forall log, trail, extra | MayRefute(con, log, trail, extra) ensures RefuteOK(con, log, trail, extra) {
      ConflictReason(vars, parity, log, trail, extra);
    }
  }

  lemma ConflictReason(vars: seq<Var>, parity: bool, log: seq<Lit>, trail: seq<Lit>, extra: seq<Lit>)
    requires Sorted(vars) && MayRefute(XorK(vars, parity), log, trail, extra)
    ensures RefuteOK(XorK(vars, parity), log, trail, extra)
  {
    var con := XorK(vars, parity);
    var r := con.refute(log, trail, extra);
    FedDelivered(vars, parity, log, trail);
    XorRecognises(vars, parity);
    if extra != [] {
      assert extra == [extra[0]];
      FailedExtra(vars, parity, log, trail, extra[0]);
    }
    forall l | l in r ensures l in trail {
      ReasonMembers(vars, log, extra != [], Left(parity, log), l);
      if l !in log {
        assert l == Lit(l.v, Left(parity, log)) && l == extra[0];
      }
    }
    forall l | l in log + extra && l in con.watched ensures l in r {
      ReasonMembers(vars, log, extra != [], Left(parity, log), l);
      if l !in log {
        assert l == extra[0] && l.v in vars;
        ExtraUndecided(vars, log, trail, l);
      }
    }
  }

  lemma ExtraUndecided(vars: seq<Var>, log: seq<Lit>, trail: seq<Lit>, l: Lit)
    requires NoClash(trail) && l in trail && l !in log && forall x :: x in log ==> x in trail
    ensures !Decided(log, l.v)
  {
    assert Neg(l) !in trail;
    assert Lit(l.v, false) == l || Lit(l.v, false) == Neg(l);
    assert Lit(l.v, true) == l || Lit(l.v, true) == Neg(l);
  }

  // A total assignment that has been delivered completely is accepted exactly if
  // it satisfies the constraint.
  lemma AcceptsExactly(vars: seq<Var>, parity: bool, a: Assignment, log: seq<Lit>)
    requires Sorted(vars) && NoDup(log) && forall l :: l in log <==> l.v in vars && Holds(a, l)
    ensures |log| == |vars|
    ensures Told(vars, parity, log).accept <==> Satisfied(vars, parity, a)
  {
    forall v | v in vars ensures v in DecidedVars(log) {
      assert LitIn(a, v) in log;
    }
    UndecidedCount(vars, log);
    assert VarSet(vars) - DecidedVars(log) == {};
    forall v ensures v in VarSet(vars) * a <==> v in Positives(log) {
      if v in vars && v in a {
        assert Lit(v, false) in log;
      }
    }
    assert VarSet(vars) * a == Positives(log);
  }

  // ------------------------------------------------------------- the class

  // value_: 1, 0 or -1.
  function ValueIn(log: seq<Lit>, v: Var): int {
    if Lit(v, false) in log then 1 else if Lit(v, true) in log then 0 else -1
  }

  lemma XorSnoc(a: Assignment, lits: seq<Lit>, i: nat)
    requires i < |lits|
    ensures XorOf(a, lits[..i + 1]) == (XorOf(a, lits[..i]) != Holds(a, lits[i]))
  {
    assert lits[..i + 1][..i] == lits[..i];
  }

  // Leaving out a variable that occurs twice, or taking one in.
  function Toggled(norm: set<Var>, v: Var): set<Var> {
    if v in norm then norm - {v} else norm + {v}
  }

  lemma ToggleOdd(norm: set<Var>, v: Var, a: Assignment)
    ensures Odd(|Toggled(norm, v) * a|) == (Odd(|norm * a|) != (v in a))
  {
    if v in a {
      assert v in norm ==> norm * a == (norm - {v}) * a + {v};
      assert v !in norm ==> (norm + {v}) * a == norm * a + {v};
    } else {
      assert (norm - {v}) * a == norm * a && (norm + {v}) * a == norm * a;
    }
  }

  // norm and parity say about a what lits and target say.
  ghost predicate Tracks(lits: seq<Lit>, target: bool, norm: set<Var>, parity: bool, a: Assignment) {
    (XorOf(a, lits) == target) == (Odd(|norm * a|) == parity)
  }

  ghost predicate Normalised(lits: seq<Lit>, target: bool, norm: set<Var>, parity: bool) {
    forall a: Assignment :: Tracks(lits, target, norm, parity, a)
  }

  lemma NormalisedNil(lits: seq<Lit>, target: bool)
    ensures Normalised(lits[..0], target, {}, target)
  {
    forall a: Assignment ensures Tracks(lits[..0], target, {}, target, a) {
      assert {} * a == {};
    }
  }

  lemma ToggleNormalised(lits: seq<Lit>, i: nat, target: bool, norm: set<Var>, parity: bool)
    requires i < |lits| && Normalised(lits[..i], target, norm, parity)
    ensures var v := lits[i].v;
            Normalised(lits[..i + 1], target, Toggled(norm, v), parity != lits[i].sign)
  {
    var v, next, more := lits[i].v, parity != lits[i].sign, lits[..i + 1];
    var now := Toggled(norm, v);
    forall a: Assignment ensures Tracks(more, target, now, next, a) {
      XorSnoc(a, lits, i);
      ToggleOdd(norm, v, a);
      assert Tracks(lits[..i], target, norm, parity, a);
    }
  }

  predicate Least(s: set<Var>, m: Var) {
    m in s && forall x :: x in s ==> m <= x
  }

  lemma {:induction false} LeastVar(s: set<Var>)
    requires s != {}
    ensures exists m :: Least(s, m)
  {
    var m :| m in s;
    if s - {m} == {} {
      assert s == {m};
      assert Least(s, m);
    } else {
      LeastVar(s - {m});
      var k :| Least(s - {m}, k);
      forall x | x in s ensures (if k < m then k else m) <= x {
        assert x == m || x in s - {m};
      }
      assert Least(s, if k < m then k else m);
    }
  }

  ghost predicate AllBelow(sorted: seq<Var>, rest: set<Var>) {
    forall i, x :: 0 <= i < |sorted| && x in rest ==> sorted[i] < x
  }

  lemma TakeLeast(sorted: seq<Var>, rest: set<Var>, m: Var)
    requires Sorted(sorted) && Least(rest, m) && AllBelow(sorted, rest)
    ensures Sorted(sorted + [m]) && VarSet(sorted + [m]) == VarSet(sorted) + {m}
    ensures AllBelow(sorted + [m], rest - {m})
  {
  }

  lemma NoneBelow(rest: set<Var>)
    ensures Sorted([]) && AllBelow([], rest)
  {
  }

  lemma LeastIn(s: set<Var>, m: Var)
    requires Least(s, m)
    ensures m in s
  {
  }

  lemma LogPushed(log: seq<Lit>, p: Lit)
    requires p !in log && Neg(p) !in log
    ensures |Positives(log + [p])| == |Positives(log)| + if p.sign then 0 else 1
    ensures forall v :: ValueIn(log + [p], v) == if v == p.v then (if p.sign then 0 else 1) else ValueIn(log, v)
  {
    var s := Positives(log + [p]);
    if p.sign {
      assert s == Positives(log);
    } else {
      assert s == Positives(log) + {p.v};
      assert forall l :: l in log && l.v == p.v ==> l == p || l == Neg(p);
    }
    assert Lit(p.v, false) == p || Lit(p.v, false) == Neg(p);
  }

  lemma ReasonFrom(vars: seq<Var>, i: nat, log: seq<Lit>, failed: bool, sign: bool, before: seq<Lit>)
    requires i <= |vars|
    ensures i == |vars| ==> before + ReasonOf(vars[i..], log, failed, sign) == before
    ensures i < |vars| ==>
              var x := ValueIn(log, vars[i]);
              before + ReasonOf(vars[i..], log, failed, sign) ==
              before
              + (if x != -1 then [Lit(vars[i], x == 0)] else if failed then [Lit(vars[i], sign)] else [])
              + ReasonOf(vars[i + 1..], log, failed, sign)
  {
    if i < |vars| {
      assert vars[i..][0] == vars[i] && vars[i..][1..] == vars[i + 1..];
    }
  }

  lemma MiddleVar(vars: seq<Var>, lo: nat, hi: nat, mid: nat, v: Var)
    requires Sorted(vars) && v in vars && lo <= mid < hi <= |vars|
    requires (forall i :: 0 <= i < lo ==> vars[i] < v) && (forall i :: hi <= i < |vars| ==> v <= vars[i])
    ensures vars[mid] < v ==> forall i :: 0 <= i < mid + 1 ==> vars[i] < v
    ensures v <= vars[mid] ==> forall i :: mid <= i < |vars| ==> v <= vars[i]
  {
  }

  // ------------------------------------------------- what initialize takes in

  function Known1(trail: seq<Lit>, v: Var): seq<Lit> {
    if Lit(v, false) in trail then [Lit(v, false)] else if Lit(v, true) in trail then [Lit(v, true)] else []
  }

  // The values of the first i variables.
  function Known(vars: seq<Var>, trail: seq<Lit>, i: nat): seq<Lit>
    requires i <= |vars|
  {
    if i == 0 then [] else Known(vars, trail, i - 1) + Known1(trail, vars[i - 1])
  }

  // All variables but the last one have a value: the last one is enqueued by the
  // loop of initialize and then found to have a value by the same loop.
  predicate Overeager(vars: seq<Var>, trail: seq<Lit>) {
    |vars| >= 2 && |Known(vars, trail, |vars| - 1)| == |vars| - 1 && Known1(trail, vars[|vars| - 1]) == []
  }

  lemma {:induction false} KnownMembers(vars: seq<Var>, trail: seq<Lit>, i: nat)
    requires Sorted(vars) && NoClash(trail) && i <= |vars|
    ensures |Known(vars, trail, i)| <= i && Delivered(vars, Known(vars, trail, i))
    ensures forall l :: l in Known(vars, trail, i) <==> l in trail && l.v in vars[..i]
  {
    hide Known, Known1, Delivered, NoClash, Sorted;
    if i == 0 {
      KnownNone(vars, trail);
    } else {
      KnownMembers(vars, trail, i - 1);
      assert vars[..i] == vars[..i - 1] + [vars[i - 1]];
      KnownGrows(vars, trail, i - 1, Known(vars, trail, i - 1));
      KnownStep(vars, trail, i - 1);
    }
  }

  lemma KnownNone(vars: seq<Var>, trail: seq<Lit>)
    ensures Known(vars, trail, 0) == [] && Delivered(vars, [])
  {
  }

  lemma KnownStep(vars: seq<Var>, trail: seq<Lit>, i: nat)
    requires i < |vars|
    ensures Known(vars, trail, i + 1) == Known(vars, trail, i) + Known1(trail, vars[i])
  {
  }

  lemma KnownGrows(vars: seq<Var>, trail: seq<Lit>, i: nat, log: seq<Lit>)
    requires Sorted(vars) && NoClash(trail) && i < |vars| && Delivered(vars, log)
    requires forall l :: l in log <==> l in trail && l.v in vars[..i]
    ensures var more := log + Known1(trail, vars[i]);
            && |more| <= |log| + 1 && Delivered(vars, more)
            && forall l :: l in more <==> l in trail && (l.v in vars[..i] || l.v == vars[i])
  {
    var v := vars[i];
    assert Neg(Lit(v, false)) == Lit(v, true) && Neg(Lit(v, true)) == Lit(v, false);
    forall l: Lit | l.v == v ensures l == Lit(v, false) || l == Lit(v, true) {
    }
    assert v !in vars[..i];
  }

  lemma {:induction false} KnownAll(vars: seq<Var>, trail: seq<Lit>, i: nat, j: nat)
    requires i <= |vars| && |Known(vars, trail, i)| == i && j < i && NoClash(trail) && Sorted(vars)
    ensures Decided(Known(vars, trail, i), vars[j])
  {
    hide NoClash, Sorted, Delivered, Known;
    KnownMembers(vars, trail, i - 1);
    KnownStep(vars, trail, i - 1);
    if j < i - 1 {
      hide Known1;
      KnownAll(vars, trail, i - 1, j);
    }
  }

  lemma {:induction false} OnlyUndecided(vars: seq<Var>, log: seq<Lit>, sign: bool, k: nat)
    requires k < |vars| && !Decided(log, vars[k]) && forall j :: 0 <= j < |vars| && j != k ==> Decided(log, vars[j])
    ensures Undecided(vars, log, sign) == [Lit(vars[k], sign)]
  {
    if k > 0 {
      OnlyUndecided(vars[1..], log, sign, k - 1);
    } else {
      NoneUndecided(vars[1..], log, sign);
    }
  }

  lemma UndecidedStep(vars: seq<Var>, log: seq<Lit>, sign: bool, i: nat, before: seq<Lit>)
    requires i <= |vars|
    ensures i == |vars| ==> before + Undecided(vars[i..], log, sign) == before
    ensures i < |vars| ==>
              before + Undecided(vars[i..], log, sign)
              == before + (if Decided(log, vars[i]) then [] else [Lit(vars[i], sign)])
                 + Undecided(vars[i + 1..], log, sign)
  {
    hide Decided;
    if i < |vars| {
      assert vars[i..][0] == vars[i] && vars[i..][1..] == vars[i + 1..];
    }
  }

  lemma {:induction false} NoneUndecided(vars: seq<Var>, log: seq<Lit>, sign: bool)
    requires forall j :: 0 <= j < |vars| ==> Decided(log, vars[j])
    ensures Undecided(vars, log, sign) == []
  {
    if vars != [] {
      NoneUndecided(vars[1..], log, sign);
    }
  }

  // Once all but one variable have been taken in, the one that is left is not on
  // the trail or is the next one to be looked at.
  lemma LastOne(vars: seq<Var>, trail: seq<Lit>, i: nat, sign: bool)
    requires Sorted(vars) && NoClash(trail) && i <= |vars| && |Known(vars, trail, i)| + 1 == |vars|
    ensures i + 1 == |vars| || i == |vars|
    ensures i + 1 == |vars| ==> Undecided(vars, Known(vars, trail, i), sign) == [Lit(vars[i], sign)]
    ensures i == |vars| ==> forall x :: x in Undecided(vars, Known(vars, trail, i), sign) ==> Value(trail, x) == Undef
    ensures |Undecided(vars, Known(vars, trail, i), sign)| == 1
  {
    var log := Known(vars, trail, i);
    KnownMembers(vars, trail, i);
    if i == |vars| {
      LastOneNowhere(vars, trail, log, sign) by {
        assert vars[..|vars|] == vars;
      }
    } else {
      hide Delivered;
      forall j | 0 <= j < i ensures Decided(log, vars[j]) {
        KnownAll(vars, trail, i, j);
      }
      assert !Decided(log, vars[i]) by {
        assert vars[i] !in vars[..i];
      }
      OnlyUndecided(vars, log, sign, i);
    }
  }

  lemma LastOneNowhere(vars: seq<Var>, trail: seq<Lit>, log: seq<Lit>, sign: bool)
    requires Sorted(vars) && Delivered(vars, log) && |log| + 1 == |vars|
    requires forall l :: l in log <==> l in trail && l.v in vars
    ensures exists u :: Undecided(vars, log, sign) == [Lit(u, sign)] && Value(trail, Lit(u, sign)) == Undef
  {
    UndecidedCount(vars, log);
    var u: Var :| u in VarSet(vars) - DecidedVars(log);
    var k :| 0 <= k < |vars| && vars[k] == u;
    forall j | 0 <= j < |vars| && j != k ensures Decided(log, vars[j]) {
      DecidedIs(log, vars[j]);
      if vars[j] !in DecidedVars(log) {
        TwoLeft(VarSet(vars) - DecidedVars(log), u, vars[j]);
      }
    }
    DecidedIs(log, u);
    OnlyUndecided(vars, log, sign, k);
    assert Lit(u, sign) !in trail && Neg(Lit(u, sign)) !in trail;
  }

  // What the loop of initialize has taken in, and enqueued, before variable i.
  function TakenIn(vars: seq<Var>, parity: bool, trail: seq<Lit>, i: nat): seq<Lit>
    requires i <= |vars|
  {
    var log := Known(vars, trail, i);
    if i == |vars| && Overeager(vars, trail) then log + [Lit(vars[i - 1], !Left(parity, log))] else log
  }

  function Ahead(vars: seq<Var>, parity: bool, trail: seq<Lit>, i: nat): seq<Lit>
    requires i <= |vars|
  {
    var log := Known(vars, trail, i);
    if log != [] && |log| + 1 == |vars| then NewOnes(Undecided(vars, log, !Left(parity, log)), trail) else []
  }

  // The literals of an answer that enqueue puts on the trail.
  function NewOnes(ls: seq<Lit>, trail: seq<Lit>): seq<Lit> {
    if ls == [] then []
    else (if Value(trail, ls[0]) == Undef then [ls[0]] else []) + NewOnes(ls[1..], trail)
  }

  lemma KnownValue(trail: seq<Lit>, v: Var)
    requires NoClash(trail)
    ensures Known1(trail, v) == [] <==> Value(trail, Lit(v, false)) == Undef
    ensures Known1(trail, v) != [] ==>
              Known1(trail, v) == [Lit(v, Value(trail, Lit(v, false)) == False)]
    ensures forall s: bool :: Value(trail, Lit(v, s)) == Undef <==> Known1(trail, v) == []
    ensures forall s: bool :: Value(trail, Lit(v, s)) == False ==> Known1(trail, v) == [Lit(v, !s)]
  {
    assert Neg(Lit(v, false)) == Lit(v, true) && Neg(Lit(v, true)) == Lit(v, false);
  }

  // A further literal changes the parity that is left if it is positive.
  lemma LeftAfter(parity: bool, log: seq<Lit>, p: Lit)
    requires p !in log && Neg(p) !in log
    ensures Left(parity, log + [p]) == (Left(parity, log) != !p.sign)
  {
    LogPushed(log, p);
  }

  lemma KnownNext(vars: seq<Var>, trail: seq<Lit>, i: nat)
    requires Sorted(vars) && NoClash(trail) && i < |vars|
    ensures Known(vars, trail, i + 1) == Known(vars, trail, i) + Known1(trail, vars[i])
    ensures |Known(vars, trail, i)| <= i && Delivered(vars, Known(vars, trail, i))
    ensures forall s: bool :: Lit(vars[i], s) !in Known(vars, trail, i)
  {
    KnownMembers(vars, trail, i);
    KnownStep(vars, trail, i);
    assert vars[i] !in vars[..i];
  }

  lemma NewOnesOf(x: Lit, trail: seq<Lit>)
    ensures NewOnes([x], trail) == if Value(trail, x) == Undef then [x] else []
    ensures NewOnes([], trail) == []
  {
    assert [x][1..] == [];
  }

  // Variable i has a value on the trail.
  lemma LookDecided(vars: seq<Var>, parity: bool, trail: seq<Lit>, i: nat)
    requires Sorted(vars) && NoClash(trail) && i < |vars| && Known1(trail, vars[i]) != []
    ensures Ahead(vars, parity, trail, i) == []
    ensures TakenIn(vars, parity, trail, i) == Known(vars, trail, i)
    ensures TakenIn(vars, parity, trail, i + 1) == Known(vars, trail, i + 1)
    ensures Known(vars, trail, i + 1) == Known(vars, trail, i) + Known1(trail, vars[i])
    ensures forall s: bool :: Lit(vars[i], s) !in Known(vars, trail, i)
  {
    hide Known, Delivered, Known1, Left, Undecided, NewOnes, Value, Sorted, NoClash;
    var log := Known(vars, trail, i);
    KnownNext(vars, trail, i);
    KnownValue(trail, vars[i]);
    if |log| + 1 == |vars| {
      LastOne(vars, trail, i, !Left(parity, log));
      NewOnesOf(Lit(vars[i], !Left(parity, log)), trail);
    }
  }

  lemma AfterTold(vars: seq<Var>, parity: bool, trail: seq<Lit>, i: nat)
    requires Sorted(vars) && NoClash(trail) && i < |vars| && Known1(trail, vars[i]) != []
    ensures var log := Known(vars, trail, i + 1);
            var a := Told(vars, parity, log);
            && (!a.accept ==> !Started(vars, parity, Known(vars, trail, |vars|)).accept)
            && (a.implied == [] ==> Ahead(vars, parity, trail, i + 1) == [])
            && (a.accept && |log| == |vars| ==> !Left(parity, log))
            && (a.implied != [] ==>
                 && Ahead(vars, parity, trail, i + 1) == NewOnes(a.implied, trail) && |a.implied| == 1
                 && (Value(trail, a.implied[0]) == False ==> !Started(vars, parity, Known(vars, trail, |vars|)).accept))
  {
    hide Known, Delivered, Known1, Left, Undecided, NewOnes, Value, Sorted, NoClash, Overeager;
    var log := Known(vars, trail, i + 1);
    KnownNext(vars, trail, i);
    if i + 1 < |vars| {
      KnownNext(vars, trail, i + 1);
    }
    if |log| + 1 == |vars| {
      var sign := !Left(parity, log);
      LastOne(vars, trail, i + 1, sign);
      var x := Undecided(vars, log, sign)[0];
      assert Undecided(vars, log, sign) == [x];
      if Value(trail, x) == False {
        FalseLast(vars, parity, trail, i + 1);
      }
    }
  }

  // The last variable has the value that makes the parity wrong.
  lemma FalseLast(vars: seq<Var>, parity: bool, trail: seq<Lit>, i: nat)
    requires Sorted(vars) && NoClash(trail) && i + 1 == |vars| && |Known(vars, trail, i)| == i
    requires Value(trail, Lit(vars[i], !Left(parity, Known(vars, trail, i)))) == False
    ensures !Started(vars, parity, Known(vars, trail, |vars|)).accept
  {
    var log := Known(vars, trail, i);
    KnownNext(vars, trail, i);
    KnownValue(trail, vars[i]);
    LeftAfter(parity, log, Lit(vars[i], Left(parity, log)));
  }

  // Variable i has no value on the trail, but may have been enqueued just now.
  lemma LookUndecided(vars: seq<Var>, parity: bool, trail: seq<Lit>, i: nat)
    requires Sorted(vars) && NoClash(trail) && i < |vars| && Known1(trail, vars[i]) == []
    ensures TakenIn(vars, parity, trail, i) == Known(vars, trail, i) == Known(vars, trail, i + 1)
    ensures Ahead(vars, parity, trail, i + 1) == Ahead(vars, parity, trail, i)
    ensures Ahead(vars, parity, trail, i) == [] ==> TakenIn(vars, parity, trail, i + 1) == Known(vars, trail, i)
    ensures Ahead(vars, parity, trail, i) != [] ==>
              var log := Known(vars, trail, i);
              var x := Lit(vars[i], !Left(parity, log));
              && i + 1 == |vars| && Overeager(vars, trail) && Ahead(vars, parity, trail, i) == [x]
              && x !in log && Neg(x) !in log && TakenIn(vars, parity, trail, i + 1) == log + [x]
              && Told(vars, parity, log + [x]) == Answer([], true)
  {
    hide Known, Delivered, Known1, Left, Value, Undecided, NewOnes, Sorted;
    var log := Known(vars, trail, i);
    KnownNext(vars, trail, i);
    KnownValue(trail, vars[i]);
    assert log + [] == log;
    if |log| + 1 == |vars| {
      LastOne(vars, trail, i, !Left(parity, log));
      NewOnesOf(Lit(vars[i], !Left(parity, log)), trail);
      LeftAfter(parity, log, Lit(vars[i], !Left(parity, log)));
      assert log == [] ==> |vars| == 1;
    }
  }

  lemma ValueAhead(trail: seq<Lit>, x: Lit)
    requires Value(trail, x) == Undef
    ensures Value(trail + [x], Lit(x.v, false)) == if x.sign then False else True
  {
    assert Neg(Lit(x.v, false)) == Lit(x.v, true) && Neg(x) !in trail;
  }

  lemma {:induction false} NewOnesAreNew(ls: seq<Lit>, trail: seq<Lit>, x: Lit)
    requires x in NewOnes(ls, trail)
    ensures Value(trail, x) == Undef
  {
    if x !in NewOnes(ls[1..], trail) {
    } else {
      NewOnesAreNew(ls[1..], trail, x);
    }
  }

  lemma AheadIs(vars: seq<Var>, parity: bool, trail: seq<Lit>, i: nat)
    requires i < |vars| && Ahead(vars, parity, trail, i) != []
    ensures Ahead(vars, parity, trail, i)
         == NewOnes(Undecided(vars, Known(vars, trail, i), !Left(parity, Known(vars, trail, i))), trail)
    ensures TakenIn(vars, parity, trail, i) == Known(vars, trail, i)
  {
  }

  lemma AtStart(vars: seq<Var>, parity: bool, trail: seq<Lit>)
    ensures TakenIn(vars, parity, trail, 0) == [] && Ahead(vars, parity, trail, 0) == []
    ensures |Known(vars, trail, 0)| == |vars| ==> vars == []
  {
  }

  lemma KnownEnd(vars: seq<Var>, parity: bool, trail: seq<Lit>)
    requires Sorted(vars) && NoClash(trail)
    requires |Known(vars, trail, |vars|)| == |vars| && vars != [] ==> !Left(parity, Known(vars, trail, |vars|))
    ensures var K := Known(vars, trail, |vars|);
            && (Started(vars, parity, K).accept <==> vars != [] || !parity)
            && Ahead(vars, parity, trail, |vars|) == NewOnes(Started(vars, parity, K).implied, trail)
            && (!Overeager(vars, trail) ==> TakenIn(vars, parity, trail, |vars|) == K)
  {
    hide Known, Delivered, Known1, Value, Undecided, NewOnes, Sorted;
    assert Positives([]) == {};
    NewOnesOf(Lit(0, false), trail);
    KnownMembers(vars, trail, |vars|);
  }

  lemma KnownEager(vars: seq<Var>, parity: bool, trail: seq<Lit>)
    requires Sorted(vars) && NoClash(trail) && Overeager(vars, trail)
    ensures |Ahead(vars, parity, trail, |vars|)| == 1
    ensures TakenIn(vars, parity, trail, |vars|) == Known(vars, trail, |vars|) + Ahead(vars, parity, trail, |vars|)
  {
    hide Known, Delivered, Known1, Left, Value, Undecided, NewOnes, Sorted;
    var i := |vars| - 1;
    var log := Known(vars, trail, i);
    LookUndecided(vars, parity, trail, i);
    KnownValue(trail, vars[i]);
    assert log != [];
    LastOne(vars, trail, i, !Left(parity, log));
    NewOnesOf(Lit(vars[i], !Left(parity, log)), trail);
  }

  // The smallest case: of two variables the first is true when initialize runs.
  // The second literal is enqueued, taken in by initialize, and then delivered
  // from the queue as well, where propagate does not expect it.
  lemma TakenInTwice(parity: bool)
    ensures var vars, trail := [0, 1], [Lit(0, false)];
            && Overeager(vars, trail) && Ahead(vars, parity, trail, 2) == [Lit(1, parity)]
            && Lit(1, parity) in TakenIn(vars, parity, trail, 2)
  {
    hide Known, Undecided, NewOnes;
    var vars: seq<Var>, trail := [0, 1], [Lit(0, false)];
    KnownNone(vars, trail);
    KnownStep(vars, trail, 0);
    KnownStep(vars, trail, 1);
    var log := [Lit(0, false)];
    assert Known(vars, trail, 1) == log && Known(vars, trail, 2) == log;
    assert Positives(log) == {0};
    OnlyUndecided(vars, log, parity, 1);
    NewOnesOf(Lit(1, parity), trail);
  }

  lemma OvereagerCount(vars: seq<Var>, trail: seq<Lit>)
    requires Overeager(vars, trail)
    ensures |Known(vars, trail, |vars|)| + 1 == |vars|
  {
    KnownStep(vars, trail, |vars| - 1);
  }

  lemma TwoLeft(s: set<Var>, u: Var, v: Var)
    requires u in s && v in s && u != v
    ensures |s| >= 2
  {
    assert |s - {u}| >= 1;
  }

  // What Initialize answers will do to begin with.
  lemma XorStarts(vars: seq<Var>, parity: bool, n: nat, trail: seq<Lit>, a: Answer)
    requires Sorted(vars) && NoClash(trail) && forall v :: v in vars ==> v < n
    requires a.accept <==> Started(vars, parity, Known(vars, trail, |vars|)).accept
    requires a.accept ==> a.implied == NewOnes(Started(vars, parity, Known(vars, trail, |vars|)).implied, trail)
    ensures StartOK(XorK(vars, parity), n, trail, a)
  {
    hide Sorted, NoClash, Known, Started, Honest, StartOK, NewOnes, AnswerOK;
    var con, log := XorK(vars, parity), Known(vars, trail, |vars|);
    KnownFed(vars, parity, trail);
    XorHonest(vars, parity, n);
    ToldOK(vars, parity, n, log, trail, false);
    NewOnesSome(Started(vars, parity, log).implied, trail);
    AnswerStarts(con, n, log, trail, Started(vars, parity, log), a);
  }

  lemma KnownFed(vars: seq<Var>, parity: bool, trail: seq<Lit>)
    requires Sorted(vars) && NoClash(trail)
    ensures FedAll(XorK(vars, parity), Known(vars, trail, |vars|), trail)
  {
    hide Sorted, NoClash;
    KnownMembers(vars, trail, |vars|);
    assert vars[..|vars|] == vars;
    var con := XorK(vars, parity);
    forall l ensures l in con.watched <==> l.v in vars {
      assert l == Lit(l.v, false) || l == Lit(l.v, true);
    }
  }

  lemma {:induction false} NewOnesSome(ls: seq<Lit>, trail: seq<Lit>)
    ensures forall x :: x in NewOnes(ls, trail) ==> x in ls
  {
    if ls != [] {
      NewOnesSome(ls[1..], trail);
    }
  }

  class Xor {
    const vars: seq<Var>
    // The parity the constraint was normalised to, and the one that is left.
    ghost const target: bool
    var parity: bool
    var value: seq<int>
    var nUndecided: int
    // The literals delivered and not yet undone.
    ghost var log: seq<Lit>

    ghost predicate Valid() reads this {
      && Sorted(vars) && Delivered(vars, log)
      && |value| == |vars| && (forall i :: 0 <= i < |vars| ==> value[i] == ValueIn(log, vars[i]))
      && parity == Left(target, log)
      && nUndecided == |vars| - |log|
    }

    // Signs go into the parity and variables that occur twice cancel out.
    constructor (lits: seq<Lit>, parity: bool)
      ensures Valid() && log == []
      ensures forall a: Assignment :: Satisfied(vars, target, a) <==> XorOf(a, lits) == parity
    {
      var norm, par := Normalise(lits, parity);
      var sorted := InOrder(norm);
      vars, this.parity, target := sorted, par, par;
      value := seq(|sorted|, i => -1);
      nUndecided, log := |sorted|, [];
      assert Positives([]) == {};
      forall a: Assignment ensures Satisfied(sorted, par, a) <==> XorOf(a, lits) == parity {
        assert Tracks(lits, parity, norm, par, a);
      }
    }

    static method Normalise(lits: seq<Lit>, parity: bool) returns (norm: set<Var>, par: bool)
      ensures Normalised(lits, parity, norm, par)
    {
      hide Normalised;
      norm, par := {}, parity;
      NormalisedNil(lits, parity);
      for i := 0 to |lits|
        invariant Normalised(lits[..i], parity, norm, par)
      {
        ToggleNormalised(lits, i, parity, norm, par);
        if lits[i].sign {
          par := !par;
        }
        if lits[i].v in norm {
          norm := norm - {lits[i].v};
        } else {
          norm := norm + {lits[i].v};
        }
      }
      assert lits[..|lits|] == lits;
    }

    // The elements of the std::set, which come in order.
    static method InOrder(norm: set<Var>) returns (sorted: seq<Var>)
      ensures Sorted(sorted) && VarSet(sorted) == norm
    {
      hide Sorted, AllBelow, Least;
      sorted := [];
      var rest := norm;
      NoneBelow(rest);
      while rest != {}
        invariant Sorted(sorted) && VarSet(sorted) + rest == norm && AllBelow(sorted, rest)
        decreases |rest|
      {
        LeastVar(rest);
        var m :| Least(rest, m);
        TakeLeast(sorted, rest, m);
        assert m in rest by { LeastIn(rest, m); }
        sorted, rest := sorted + [m], rest - {m};
      }
    }

    // std::lower_bound over vars_.
    method VarIndex(v: Var) returns (i: nat)
      requires Sorted(vars) && v in vars
      ensures i < |vars| && vars[i] == v
    {
      var lo, hi := 0, |vars|;
      while lo < hi
        invariant 0 <= lo <= hi <= |vars|
        invariant forall k :: 0 <= k < lo ==> vars[k] < v
        invariant forall k :: hi <= k < |vars| ==> v <= vars[k]
      {
        var mid := (lo + hi) / 2;
        MiddleVar(vars, lo, hi, mid, v);
        if vars[mid] < v {
          lo := mid + 1;
        } else {
          hi := mid;
        }
      }
      i := lo;
      assert i < |vars| by {
        var k :| 0 <= k < |vars| && vars[k] == v;
      }
    }

    // The literal must be new: see Overeager for the one call that breaks this.
    method Propagate(p: Lit) returns (a: Answer)
      requires Valid() && p.v in vars && p !in log && Neg(p) !in log
      modifies this`parity, this`value, this`nUndecided, this`log
      ensures Valid() && log == old(log) + [p]
      ensures a == Told(vars, target, log)
    {
      LogPushed(log, p);
      ghost var idx := Enter(p);
      assert old(value)[idx] == -1;
      log := log + [p];
      a := Respond();
    }

    // The tests of propagate on the number of undecided variables.
    method Respond() returns (a: Answer)
      requires nUndecided == 1 ==> Valid()
      ensures nUndecided == 0 ==> a == Answer([], !parity)
      ensures nUndecided == 1 ==> a == Answer(Undecided(vars, log, !parity), true)
      ensures nUndecided != 0 && nUndecided != 1 ==> a == Answer([], true)
    {
      if nUndecided == 0 {
        return Answer([], !parity);
      } else if nUndecided == 1 {
        var implied := Rest(!parity);
        return Answer(implied, true);
      }
      a := Answer([], true);
    }

    // The assignments propagate starts with.
    method Enter(p: Lit) returns (ghost i: nat)
      requires |value| == |vars| && Sorted(vars) && p.v in vars
      modifies this`parity, this`value, this`nUndecided
      ensures i < |vars| && vars[i] == p.v && value == old(value)[i := if p.sign then 0 else 1]
      ensures (parity <==> old(parity) != !p.sign) && nUndecided == old(nUndecided) - 1
    {
      var s := if p.sign then 0 else 1;
      var idx := VarIndex(p.v);
      i := idx;
      parity := parity != (s == 1);
      value := value[idx := s];
      nUndecided := nUndecided - 1;
    }

    // propagate for a literal that initialize has taken in already, in a build where
    // the assert on value_ is compiled out.  Every variable has a value at that point,
    // and keeps it; the parity may be off and the count falls below zero, so that the
    // constraint looks at nothing any more.  All of this is at level 0, where nothing
    // is undone.
    method PropagateAgain(p: Lit) returns (a: Answer)
      requires Valid() && p in log && nUndecided == 0 && !Left(target, log)
      modifies this`parity, this`value, this`nUndecided
      ensures value == old(value) && nUndecided == -1 && (parity <==> old(parity) != !p.sign)
      ensures a == Answer([], true) == Told(vars, target, log)
    {
      KnownValueOf(p);
      ghost var i := Enter(p);
      a := Respond();
    }

    lemma KnownValueOf(p: Lit)
      requires Valid() && p in log
      ensures |value| == |vars| && Sorted(vars) && p.v in vars
      ensures forall i :: 0 <= i < |vars| && vars[i] == p.v ==> value[i] == if p.sign then 0 else 1
    {
      assert Neg(Neg(p)) == p;
    }

    // initialize, without the calls of addWatch.  What the solver has to deliver
    // afterwards is what is left on the queue, a.implied; the constraint itself
    // has already taken that in exactly if Overeager holds.
    method Initialize(trail: seq<Lit>) returns (a: Answer)
      requires Valid() && log == [] && NoClash(trail)
      modifies this`parity, this`value, this`nUndecided, this`log
      ensures Valid()
      ensures a.accept <==> Started(vars, target, Known(vars, trail, |vars|)).accept
      ensures a.accept && !Overeager(vars, trail) ==> log == Known(vars, trail, |vars|)
      ensures a.accept && Overeager(vars, trail) ==> log == Known(vars, trail, |vars|) + a.implied && |a.implied| == 1
      ensures a.accept && Overeager(vars, trail) ==> nUndecided == 0 && !Left(target, log)
      ensures a.accept ==> a.implied == NewOnes(Started(vars, target, Known(vars, trail, |vars|)).implied, trail)
    {
      hide Valid, Known, Known1, Undecided, Sorted, Delivered, Told, TakenIn, Ahead, Started, Overeager, Left;
      assert Sorted(vars) by { ValidSorted(); }
      var implied := [];
      AtStart(vars, target, trail);
      for i := 0 to |vars|
        invariant Valid() && log == TakenIn(vars, target, trail, i)
        invariant log != [] ==> FullFits(vars, target, log)
        invariant implied == Ahead(vars, target, trail, i)
        invariant |Known(vars, trail, i)| == |vars| && vars != [] ==> !Left(target, Known(vars, trail, i))
      {
        var more;
        a, more := LookAt(i, trail, implied);
        if !a.accept {
          return Answer(implied, false);
        }
        implied := implied + more;
      }
      KnownEnd(vars, target, trail);
      if Overeager(vars, trail) {
        KnownEager(vars, target, trail);
        OvereagerCount(vars, trail);
        ValidParity();
      }
      ValidParity();
      if |vars| == 0 && parity {
        return Answer(implied, false);
      }
      a := Answer(implied, true);
    }

    // One turn of the loop.
    method LookAt(i: nat, trail: seq<Lit>, implied: seq<Lit>) returns (a: Answer, more: seq<Lit>)
      requires Valid() && NoClash(trail) && i < |vars| && log == TakenIn(vars, target, trail, i)
      requires implied == Ahead(vars, target, trail, i)
      requires |Known(vars, trail, i)| == |vars| ==> !Left(target, Known(vars, trail, i))
      requires log != [] ==> FullFits(vars, target, log)
      modifies this`parity, this`value, this`nUndecided, this`log
      ensures Valid()
      ensures !a.accept ==> !Started(vars, target, Known(vars, trail, |vars|)).accept
      ensures a.accept && log != [] ==> FullFits(vars, target, log)
      ensures a.accept ==> log == TakenIn(vars, target, trail, i + 1)
      ensures a.accept ==> implied + more == Ahead(vars, target, trail, i + 1)
      ensures a.accept && |Known(vars, trail, i + 1)| == |vars| ==> !Left(target, Known(vars, trail, i + 1))
    {
      hide Valid, Known, Undecided, Sorted, Delivered, Told, TakenIn, Ahead, Started, Overeager, Left, Value, Known1;
      assert Sorted(vars) by { ValidSorted(); }
      assert vars[i] in vars;
      KnownValue(trail, vars[i]);
      a, more := Answer([], true), [];
      if Known1(trail, vars[i]) != [] {
        LookDecided(vars, target, trail, i);
        AfterTold(vars, target, trail, i);
        assert trail + implied == trail;
      } else {
        LookUndecided(vars, target, trail, i);
        if implied != [] {
          NewOnesAreNew(Undecided(vars, log, !Left(target, log)), trail, implied[0]) by {
            AheadIs(vars, target, trail, i);
          }
          ValueAhead(trail, implied[0]);
        } else {
          assert trail + implied == trail;
        }
      }
      var val := Value(trail + implied, Lit(vars[i], false));
      if val != Undef {
        a := Propagate(Lit(vars[i], val == False));
        ToldFits(vars, target, log);
        if a.accept && a.implied != [] {
          var x := a.implied[0];
          if Value(trail + implied, x) == False {
            a := Answer([], false);
          } else if Value(trail + implied, x) == Undef {
            more := [x];
          }
        }
      }
    }

    lemma ValidParity()
      requires Valid()
      ensures log == [] ==> parity == target
      ensures nUndecided == |vars| - |log|
    {
      assert Positives([]) == {};
    }

    lemma ValidSorted()
      requires Valid()
      ensures Sorted(vars)
    {
    }

    // The loop over the variables that have no value.
    method Rest(sign: bool) returns (implied: seq<Lit>)
      requires Valid()
      ensures implied == Undecided(vars, log, sign)
    {
      hide Valid, Undecided, Decided;
      ValidValues();
      implied := [];
      for i := 0 to |vars|
        invariant implied + Undecided(vars[i..], log, sign) == Undecided(vars, log, sign)
      {
        UndecidedStep(vars, log, sign, i, implied);
        if value[i] == -1 {
          implied := implied + [Lit(vars[i], sign)];
        }
      }
      UndecidedStep(vars, log, sign, |vars|, implied);
    }

    lemma ValidValues()
      requires Valid()
      ensures |value| == |vars| && forall i :: 0 <= i < |vars| ==> (value[i] == -1 <==> !Decided(log, vars[i]))
    {
    }

    method Undo(p: Lit)
      requires Valid() && log != [] && log[|log| - 1] == p
      modifies this`parity, this`value, this`nUndecided, this`log
      ensures Valid() && log == old(log)[..|old(log)| - 1]
    {
      ghost var less := log[..|log| - 1];
      assert log == less + [p];
      LogPushed(less, p);
      var idx := VarIndex(p.v);
      parity := parity != (value[idx] == 1);
      value := value[idx := -1];
      nUndecided := nUndecided + 1;
      log := less;
    }

    // p and extra are empty for lit_Undef.
    method CalcReason(p: seq<Lit>, extra: seq<Lit>) returns (reason: seq<Lit>)
      requires Valid()
      ensures reason == ReasonOf(vars, log, p == [] && extra != [], Left(target, log))
    {
      hide Delivered, Sorted, Left, ReasonOf;
      reason := [];
      var failed := p == [] && extra != [];
      assert vars[0..] == vars;
      for i := 0 to |vars|
        invariant reason + ReasonOf(vars[i..], log, failed, parity) == ReasonOf(vars, log, failed, parity)
      {
        ReasonFrom(vars, i, log, failed, parity, reason);
        if value[i] != -1 {
          reason := reason + [Lit(vars[i], value[i] == 0)];
        } else if failed {
          reason := reason + [Lit(vars[i], parity)];
        }
      }
      ReasonFrom(vars, |vars|, log, failed, parity, reason);
    }
  }
}
