// constraints/AtMost.cc: at most threshold of the literals are true.
module AtMosts {
  import opened Logic
  import opened Contracts
  import opened Trails
  import opened Watching

  ghost function TrueIn(a: Assignment, lits: seq<Lit>): set<Lit> {
    set l | l in lits && Holds(a, l)
  }

  ghost function Held(lits: seq<Lit>, ls: seq<Lit>): set<Lit> {
    set l | l in lits && l in ls
  }

  // The loop that makes the undecided literals false.
  function Closing(lits: seq<Lit>, trail: seq<Lit>): seq<Lit> {
    if lits == [] then []
    else if Value(trail, lits[0]) == Undef then [Neg(lits[0])] + Closing(lits[1..], trail + [Neg(lits[0])])
    else Closing(lits[1..], trail)
  }

  function Told(lits: seq<Lit>, threshold: int, log: seq<Lit>, trail: seq<Lit>): Answer {
    if |log| > threshold then Answer([], false)
    else if |log| == threshold then Answer(Closing(lits, trail), true)
    else Answer([], true)
  }

  // calcReason's loop; p is lit_Undef or the literal to explain.
  function TrueLits(lits: seq<Lit>, trail: seq<Lit>, p: seq<Lit>): seq<Lit> {
    if lits == [] then []
    else (if lits[0] in trail && lits[0] !in p then [lits[0]] else []) + TrueLits(lits[1..], trail, p)
  }

  ghost function AtMostK(lits: seq<Lit>, threshold: int): Constraint {
    Constraint(a => |TrueIn(a, lits)| <= threshold,
               ls => |Held(lits, ls)| > threshold,
               set l | l in lits,
               (log, trail, pending) => Told(lits, threshold, log, trail),
               (log, trail, p) => TrueLits(lits, trail, [p]),
               (log, trail, extra) => extra + TrueLits(lits, trail, []))
  }

  lemma {:induction false} ClosingMembers(lits: seq<Lit>, trail: seq<Lit>, x: Lit)
    requires x in Closing(lits, trail)
    ensures Neg(x) in lits && x !in trail && Neg(x) !in trail
  {
    if Value(trail, lits[0]) == Undef {
      if x != Neg(lits[0]) {
        ClosingMembers(lits[1..], trail + [Neg(lits[0])], x);
      }
    } else {
      ClosingMembers(lits[1..], trail, x);
    }
  }

  // With distinct variables every undecided literal is made false.
  lemma {:induction false} ClosingAll(lits: seq<Lit>, trail: seq<Lit>, l: Lit)
    requires DistinctVars(lits) && l in lits && l !in trail
    ensures Neg(l) in trail + Closing(lits, trail)
  {
    if l == lits[0] {
    } else {
      assert l in lits[1..];
      if Value(trail, lits[0]) == Undef {
        assert l.v != lits[0].v;
        ClosingAll(lits[1..], trail + [Neg(lits[0])], l);
      } else {
        ClosingAll(lits[1..], trail, l);
      }
    }
  }

  lemma {:induction false} TrueLitsMembers(lits: seq<Lit>, trail: seq<Lit>, p: seq<Lit>, l: Lit)
    ensures l in TrueLits(lits, trail, p) <==> l in lits && l in trail && l !in p
  {
    if lits != [] {
      TrueLitsMembers(lits[1..], trail, p, l);
      assert lits == [lits[0]] + lits[1..];
    }
  }

  lemma {:induction false} AsSet(ls: seq<Lit>)
    requires NoDup(ls)
    ensures |set l | l in ls| == |ls|
  {
    if ls == [] {
      assert (set l | l in ls) == {};
    } else {
      AsSet(ls[1..]);
      assert (set l | l in ls) == {ls[0]} + set l | l in ls[1..];
    }
  }

  // n_true_ counts the watched literals that have been delivered.
  lemma LogHeld(lits: seq<Lit>, log: seq<Lit>)
    requires NoDup(log) && forall l :: l in log ==> l in lits
    ensures |Held(lits, log)| == |log|
  {
    AsSet(log);
    assert Held(lits, log) == set l | l in log;
  }

  lemma AtMostRecognises(lits: seq<Lit>, threshold: int)
    ensures Recognises(AtMostK(lits, threshold))
  {
    var con := AtMostK(lits, threshold);
    forall ls | con.blocked(ls) ensures Refutes(con.sat, ls) {
      forall a: Assignment | con.sat(a) ensures !AllHold(a, ls) {
        if AllHold(a, ls) {
          SubsetSize(Held(lits, ls), TrueIn(a, lits));
          assert false;
        }
      }
    }
    forall few, more | con.blocked(few) && forall l :: l in few && l in con.watched ==> l in more
      ensures con.blocked(more)
    {
      SubsetSize(Held(lits, few), Held(lits, more));
    }
  }

  lemma ToldOK(lits: seq<Lit>, threshold: int, n: nat, log: seq<Lit>, trail: seq<Lit>, pending: bool)
    requires InRange(lits, n) && Fed(AtMostK(lits, threshold), log, trail)
    ensures AnswerOK(AtMostK(lits, threshold), n, log, trail, pending, Told(lits, threshold, log, trail))
  {
    var con, a := AtMostK(lits, threshold), Told(lits, threshold, log, trail);
    LogHeld(lits, log);
    forall p | p in a.implied ensures p.v < n && Forces(con, log, p) {
      ClosingMembers(lits, trail, p);
      assert Held(lits, log + [Neg(p)]) == Held(lits, log) + {Neg(p)};
    }
    if a.accept && !pending && FedAll(con, log, trail) {
      forall b: Assignment | Matches(con, b, log) ensures con.sat(b) {
        SubsetSize(TrueIn(b, lits), Held(lits, log));
      }
    }
  }

  // With distinct variables propagate enqueues exactly what follows: the negation of an
  // undecided literal that is false in every solution in which the trail holds.
  lemma DomainConsistent(lits: seq<Lit>, threshold: int, log: seq<Lit>, trail: seq<Lit>, l: Lit)
    requires DistinctVars(lits) && FedAll(AtMostK(lits, threshold), log, trail) && NoClash(trail)
    requires Told(lits, threshold, log, trail).accept && l in lits && Value(trail, l) == Undef
    ensures l !in Told(lits, threshold, log, trail).implied
    ensures Neg(l) in Told(lits, threshold, log, trail).implied <==>
            Explains(AtMostK(lits, threshold).sat, trail, Neg(l))
  {
    hide DistinctVars, Explains, Closing, NoClash;
    var con := AtMostK(lits, threshold);
    OnePolarity(lits, l);
    if l in Closing(lits, trail) {
      ClosingMembers(lits, trail, l);
    }
    LogHeld(lits, log);
    if |log| == threshold {
      ClosingAll(lits, trail, l);
      AtMostRecognises(lits, threshold);
      assert Held(lits, trail) == Held(lits, log);
      assert Neg(Neg(l)) == l;
      assert Held(lits, trail + [l]) == Held(lits, trail) + {l};
      ForcesExplains(con, trail, Neg(l));
    } else {
      RoomLeft(lits, trail, l);
      assert Held(lits, trail) == Held(lits, log);
      Unexplained(lits, threshold, trail, l);
    }
  }

  // l holds, and of the undecided literals of the list no other.
  ghost function Least(lits: seq<Lit>, trail: seq<Lit>, l: Lit): Assignment {
    (set m | m in trail && !m.sign :: m.v)
    + (set m | m in lits && Value(trail, m) == Undef && (m.sign <==> m != l) :: m.v)
  }

  lemma RoomLeft(lits: seq<Lit>, trail: seq<Lit>, l: Lit)
    requires DistinctVars(lits) && NoClash(trail) && l in lits && Value(trail, l) == Undef
    ensures AllHold(Least(lits, trail, l), trail)
    ensures TrueIn(Least(lits, trail, l), lits) == Held(lits, trail) + {l}
  {
    var a := Least(lits, trail, l);
    forall m | m in trail ensures Holds(a, m) {
      TrailHolds(lits, trail, l, m);
    }
    forall m | m in lits ensures Holds(a, m) <==> m in trail || m == l {
      LeastHolds(lits, trail, l, m);
    }
  }

  lemma TrailHolds(lits: seq<Lit>, trail: seq<Lit>, l: Lit, m: Lit)
    requires NoClash(trail) && m in trail
    ensures Holds(Least(lits, trail, l), m)
  {
    forall x: Lit | x.v == m.v ensures x == m || x == Neg(m) {
    }
    assert Neg(m) !in trail && Neg(Neg(m)) == m;
  }

  lemma LeastHolds(lits: seq<Lit>, trail: seq<Lit>, l: Lit, m: Lit)
    requires DistinctVars(lits) && NoClash(trail) && l in lits && Value(trail, l) == Undef && m in lits
    ensures Holds(Least(lits, trail, l), m) <==> m in trail || m == l
  {
    if m in trail {
      TrailHolds(lits, trail, l, m);
    } else if Neg(m) in trail {
      TrailHolds(lits, trail, l, Neg(m));
      NegHolds(Least(lits, trail, l), m);
    } else {
      forall x | x in trail ensures x.v != m.v {
        assert x.v == m.v ==> x == m || x == Neg(m);
      }
      forall x | x in lits && x.v == m.v ensures x == m {
        SameOne(lits, x, m);
      }
    }
  }

  lemma SameOne(lits: seq<Lit>, x: Lit, m: Lit)
    requires DistinctVars(lits) && x in lits && m in lits && x.v == m.v
    ensures x == m
  {
  }

  lemma Unexplained(lits: seq<Lit>, threshold: int, trail: seq<Lit>, l: Lit)
    requires |Held(lits, trail)| < threshold && l !in trail && l in lits
    requires AllHold(Least(lits, trail, l), trail)
    requires TrueIn(Least(lits, trail, l), lits) == Held(lits, trail) + {l}
    ensures !Explains(AtMostK(lits, threshold).sat, trail, Neg(l))
  {
    var a := Least(lits, trail, l);
    assert AtMostK(lits, threshold).sat(a);
    assert l in TrueIn(a, lits);
    NegHolds(a, l);
  }

  // AtMost keeps the contract of Constraint.
  lemma AtMostHonest(lits: seq<Lit>, threshold: int, n: nat)
    requires InRange(lits, n)
    ensures Honest(AtMostK(lits, threshold), n)
  {
    var con := AtMostK(lits, threshold);
    AtMostRecognises(lits, threshold);
    forall log, trail, pending | Fed(con, log, trail) && NoClash(trail)
      ensures AnswerOK(con, n, log, trail, pending, con.propagate(log, trail, pending))
    {
      ToldOK(lits, threshold, n, log, trail, pending);
    }
    forall log, trail, p | MayExplain(con, log, trail, p) ensures ExplainOK(con, log, trail, p) {
      forall l ensures l in con.explain(log, trail, p) <==> l in lits && l in trail {
        TrueLitsMembers(lits, trail, [p], l);
      }
      ForcesMore(con, log, con.explain(log, trail, p), p);
    }
    forall log, trail, extra | MayRefute(con, log, trail, extra) ensures RefuteOK(con, log, trail, extra) {
      forall l ensures l in TrueLits(lits, trail, []) <==> l in lits && l in trail {
        TrueLitsMembers(lits, trail, [], l);
      }
      BlockedMore(con, log + extra, con.refute(log, trail, extra));
    }
  }

  // A total assignment that has been delivered completely is accepted exactly if
  // it satisfies the constraint.
  lemma AcceptsExactly(lits: seq<Lit>, threshold: int, a: Assignment, log: seq<Lit>, trail: seq<Lit>)
    requires NoDup(log) && forall l :: l in log <==> l in lits && Holds(a, l)
    ensures Told(lits, threshold, log, trail).accept <==> AtMostK(lits, threshold).sat(a)
  {
    LogHeld(lits, log);
    assert Held(lits, log) == TrueIn(a, lits);
  }

  // calcReason looks at the values of the whole trail.  With distinct variables
  // no literal becomes true after the threshold was reached, so the reason of a
  // literal enqueued then only ever names literals assigned before it.
  lemma ReasonIsOld(lits: seq<Lit>, trail: seq<Lit>, j: nat, more: seq<Lit>)
    requires DistinctVars(lits) && j < |Closing(lits, trail)| && NoClash(trail + Closing(lits, trail) + more)
    ensures TrueLits(lits, trail + Closing(lits, trail) + more, [Closing(lits, trail)[j]])
         == TrueLits(lits, trail + Closing(lits, trail)[..j], [Closing(lits, trail)[j]])
  {
    var p, all := Closing(lits, trail)[j], trail + Closing(lits, trail) + more;
    forall l | l in lits ensures l in all <==> l in trail + Closing(lits, trail)[..j] {
      if l !in trail {
        ClosingAll(lits, trail, l);
        assert Neg(l) in all && Neg(Neg(l)) == l;
        assert l !in all;
      }
    }
    SameTrueLits(lits, all, trail + Closing(lits, trail)[..j], [p]);
  }

  lemma {:induction false} SameTrueLits(lits: seq<Lit>, t: seq<Lit>, u: seq<Lit>, p: seq<Lit>)
    requires forall l :: l in lits ==> (l in t <==> l in u)
    ensures TrueLits(lits, t, p) == TrueLits(lits, u, p)
  {
    if lits != [] {
      SameTrueLits(lits[1..], t, u, p);
    }
  }

  lemma {:induction false} ClosedAlready(lits: seq<Lit>, trail: seq<Lit>)
    requires forall l :: l in lits ==> Value(trail, l) != Undef
    ensures Closing(lits, trail) == []
  {
    if lits != [] {
      ClosedAlready(lits[1..], trail);
    }
  }

  lemma {:induction false} ClosedAll(lits: seq<Lit>, trail: seq<Lit>, l: Lit)
    requires l in lits
    ensures Value(trail + Closing(lits, trail), l) != Undef
  {
    if Value(trail, lits[0]) == Undef {
      if l in lits[1..] {
        ClosedAll(lits[1..], trail + [Neg(lits[0])], l);
        assert trail + Closing(lits, trail) == trail + [Neg(lits[0])] + Closing(lits[1..], trail + [Neg(lits[0])]);
      }
    } else if l in lits[1..] {
      ClosedAll(lits[1..], trail, l);
    }
  }

  lemma ClosedOnce(lits: seq<Lit>, trail: seq<Lit>)
    ensures Closing(lits, trail + Closing(lits, trail)) == []
  {
    hide Closing;
    forall l | l in lits ensures Value(trail + Closing(lits, trail), l) != Undef {
      ClosedAll(lits, trail, l);
    }
    ClosedAlready(lits, trail + Closing(lits, trail));
  }

  // ---------------------------------------------------------------- initialize

  // What initialize lists to be enqueued.
  function Undecided(lits: seq<Lit>, trail: seq<Lit>): seq<Lit> {
    if lits == [] then []
    else (if Value(trail, lits[0]) == Undef then [Neg(lits[0])] else []) + Undecided(lits[1..], trail)
  }

  // The enqueues, until one fails; done are those made so far, and now is the trail.
  function Pushed(todo: seq<Lit>, now: seq<Lit>, done: seq<Lit>): (bool, seq<Lit>) {
    if todo == [] then (true, done)
    else
      match Value(now, todo[0])
      case False => (false, done)
      case Undef => Pushed(todo[1..], now + [todo[0]], done + [todo[0]])
      case True => Pushed(todo[1..], now, done)
  }

  // The enqueues are those of the other loop, or they meet a literal and its negation.
  lemma {:induction false} PushedClosing(lits: seq<Lit>, trail: seq<Lit>, now: seq<Lit>, done: seq<Lit>)
    requires NoClash(now) && forall l :: l in trail ==> l in now
    ensures var (ok, all) := Pushed(Undecided(lits, trail), now, done);
            && (ok ==> all == done + Closing(lits, now))
            && (ok <==> forall l :: l in lits && Value(trail, l) == Undef ==> l !in now + Closing(lits, now))
  {
    if lits != [] {
      var l := lits[0];
      assert Neg(Neg(l)) == l && Neg(l) != l;
      assert lits == [l] + lits[1..];
      if Value(trail, l) != Undef {
        PushedClosing(lits[1..], trail, now, done);
        assert Value(now, l) != Undef;
        assert Undecided(lits, trail) == Undecided(lits[1..], trail);
        assert Closing(lits, now) == Closing(lits[1..], now);
      } else if Value(now, l) == Undef {
        FreshNow(now, Neg(l));
        PushedClosing(lits[1..], trail, now + [Neg(l)], done + [Neg(l)]);
        if l in Closing(lits[1..], now + [Neg(l)]) {
          ClosingMembers(lits[1..], now + [Neg(l)], l);
        }
        assert Undecided(lits, trail)[1..] == Undecided(lits[1..], trail);
      } else {
        PushedClosing(lits[1..], trail, now, done);
        if Neg(l) in now && l in Closing(lits[1..], now) {
          ClosingMembers(lits[1..], now, l);
        }
        assert Undecided(lits, trail)[1..] == Undecided(lits[1..], trail);
      }
    }
  }

  lemma ClosesClash(lits: seq<Lit>, trail: seq<Lit>)
    requires NoClash(trail)
    ensures var (ok, all) := Pushed(Undecided(lits, trail), trail, []);
            && (ok ==> all == Closing(lits, trail))
            && (ok <==> !exists l :: l in lits && l in Closing(lits, trail))
  {
    hide Closing, Undecided, Pushed;
    PushedClosing(lits, trail, trail, []);
    forall l | l in lits
      ensures l in Closing(lits, trail) <==> Value(trail, l) == Undef && l in trail + Closing(lits, trail)
    {
      if l in Closing(lits, trail) {
        ClosingMembers(lits, trail, l);
      }
    }
  }

  lemma UndecidedStep(lits: seq<Lit>, trail: seq<Lit>, i: nat, found: seq<Lit>)
    requires i <= |lits| && found + Undecided(lits[i..], trail) == Undecided(lits, trail)
    ensures i == |lits| ==> found == Undecided(lits, trail)
    ensures i < |lits| ==>
              found + (if Value(trail, lits[i]) == Undef then [Neg(lits[i])] else []) + Undecided(lits[i + 1..], trail)
              == Undecided(lits, trail)
  {
    if i < |lits| {
      assert lits[i..][0] == lits[i] && lits[i..][1..] == lits[i + 1..];
    }
  }

  lemma PushedStep(todo: seq<Lit>, k: nat, trail: seq<Lit>, done: seq<Lit>)
    requires k <= |todo|
    ensures var now, r := trail + done, Pushed(todo[k..], trail + done, done);
            && (k == |todo| ==> r == (true, done))
            && (k < |todo| && Value(now, todo[k]) == False ==> r == (false, done))
            && (k < |todo| && Value(now, todo[k]) == True ==> r == Pushed(todo[k + 1..], now, done))
            && (k < |todo| && Value(now, todo[k]) == Undef ==>
                 r == Pushed(todo[k + 1..], trail + (done + [todo[k]]), done + [todo[k]]))
  {
    if k < |todo| {
      assert todo[k..][0] == todo[k] && todo[k..][1..] == todo[k + 1..];
      assert trail + done + [todo[k]] == trail + (done + [todo[k]]);
    }
  }

  lemma {:induction false} ClosingFits(lits: seq<Lit>, trail: seq<Lit>)
    requires NoClash(trail)
    ensures NoClash(trail + Closing(lits, trail))
  {
    hide NoClash;
    if lits == [] {
      assert trail + [] == trail;
    } else if Value(trail, lits[0]) == Undef {
      assert Neg(Neg(lits[0])) == lits[0];
      FreshNow(trail, Neg(lits[0]));
      ClosingFits(lits[1..], trail + [Neg(lits[0])]);
      assert trail + Closing(lits, trail) == trail + [Neg(lits[0])] + Closing(lits[1..], trail + [Neg(lits[0])]);
    } else {
      ClosingFits(lits[1..], trail);
    }
  }

  lemma FreshNow(now: seq<Lit>, p: Lit)
    requires NoClash(now) && p !in now && Neg(p) !in now
    ensures NoClash(now + [p])
  {
    forall l | l in now + [p] ensures Neg(l) !in now + [p] {
      assert Neg(Neg(l)) == l;
    }
  }

  // Literal x of the list is enqueued as soon as threshold literals before it are true.
  ghost predicate LateAt(lits: seq<Lit>, threshold: int, trail: seq<Lit>, x: nat)
    requires x < |lits|
  {
    lits[x] in Closing(lits, trail) && |TrueLits(lits[..x], trail, [])| == threshold
  }

  ghost predicate Late(lits: seq<Lit>, threshold: int, trail: seq<Lit>) {
    exists x :: 0 <= x < |lits| && LateAt(lits, threshold, trail, x)
  }

  // What initialize accepts.
  ghost predicate Startable(lits: seq<Lit>, threshold: int, trail: seq<Lit>) {
    var n := |TrueLits(lits, trail, [])|;
    n < threshold || (n == threshold && !Late(lits, threshold, trail))
  }

  lemma OnePolarity(lits: seq<Lit>, l: Lit)
    requires DistinctVars(lits) && l in lits
    ensures Neg(l) !in lits
  {
  }

  // Without a literal and its negation in the list initialize refuses what propagate
  // would refuse.
  lemma StartsAsTold(lits: seq<Lit>, threshold: int, trail: seq<Lit>)
    requires DistinctVars(lits)
    ensures Startable(lits, threshold, trail) <==>
            Told(lits, threshold, TrueLits(lits, trail, []), trail).accept
  {
    hide Closing, DistinctVars, TrueLits;
    forall x | 0 <= x < |lits| ensures !LateAt(lits, threshold, trail, x) {
      if lits[x] in Closing(lits, trail) {
        ClosingMembers(lits, trail, lits[x]);
        OnePolarity(lits, lits[x]);
        assert false;
      }
    }
  }

  lemma TrueLitsNone(trail: seq<Lit>)
    ensures TrueLits([], trail, []) == []
  {
  }

  lemma TrueLitsNext(lits: seq<Lit>, i: nat, trail: seq<Lit>)
    requires i < |lits|
    ensures TrueLits(lits[..i + 1], trail, []) ==
            TrueLits(lits[..i], trail, []) + if lits[i] in trail then [lits[i]] else []
  {
    assert lits[..i + 1] == lits[..i] + [lits[i]];
    TrueLitsJoin(lits[..i], lits[i], trail);
  }

  lemma {:induction false} TrueLitsJoin(front: seq<Lit>, l: Lit, trail: seq<Lit>)
    ensures TrueLits(front + [l], trail, []) == TrueLits(front, trail, []) + if l in trail then [l] else []
  {
    if front != [] {
      TrueLitsJoin(front[1..], l, trail);
      assert (front + [l])[1..] == front[1..] + [l];
    } else {
      assert (front + [l])[1..] == [];
    }
  }

  lemma {:induction false} TrueLitsFew(lits: seq<Lit>, i: nat, trail: seq<Lit>)
    requires i <= |lits|
    ensures |TrueLits(lits[..i], trail, [])| <= |TrueLits(lits, trail, [])|
    decreases |lits| - i
  {
    if i < |lits| {
      TrueLitsNext(lits, i, trail);
      TrueLitsFew(lits, i + 1, trail);
    } else {
      assert lits[..i] == lits;
    }
  }

  lemma {:induction false} TrueLitsNoDup(lits: seq<Lit>, trail: seq<Lit>)
    requires NoDup(lits)
    ensures NoDup(TrueLits(lits, trail, []))
  {
    if lits != [] {
      TrueLitsNoDup(lits[1..], trail);
      if lits[0] in TrueLits(lits[1..], trail, []) {
        TrueLitsMembers(lits[1..], trail, [], lits[0]);
      }
    }
  }

  lemma TrueAreHeld(lits: seq<Lit>, trail: seq<Lit>)
    requires NoDup(lits)
    ensures |Held(lits, trail)| == |TrueLits(lits, trail, [])|
  {
    hide TrueLits;
    TrueLitsNoDup(lits, trail);
    AsSet(TrueLits(lits, trail, []));
    forall l ensures l in Held(lits, trail) <==> l in TrueLits(lits, trail, []) {
      TrueLitsMembers(lits, trail, [], l);
    }
    assert Held(lits, trail) == set l | l in TrueLits(lits, trail, []);
  }

  // Of a literal and its negation one is true.
  lemma StartRefuses(lits: seq<Lit>, threshold: int, trail: seq<Lit>)
    requires NoDup(lits) && !Startable(lits, threshold, trail)
    ensures Refutes(AtMostK(lits, threshold).sat, trail)
  {
    hide TrueLits, Closing;
    TrueAreHeld(lits, trail);
    forall a: Assignment | AllHold(a, trail) ensures |TrueIn(a, lits)| > threshold {
      SubsetSize(Held(lits, trail), TrueIn(a, lits));
      if |TrueLits(lits, trail, [])| == threshold {
        var x :| 0 <= x < |lits| && LateAt(lits, threshold, trail, x);
        var l := lits[x];
        ClosingMembers(lits, trail, l);
        NegHolds(a, l);
        var m := if Holds(a, l) then l else Neg(l);
        assert l in lits && m in lits && m !in trail;
        SubsetSize(Held(lits, trail) + {m}, TrueIn(a, lits));
      }
    }
  }

  lemma StartRefused(lits: seq<Lit>, threshold: int, trail: seq<Lit>, i: nat)
    requires i < |lits| && |TrueLits(lits[..i], trail, [])| >= threshold
    requires lits[i] in trail || LateAt(lits, threshold, trail, i)
    ensures !Startable(lits, threshold, trail)
  {
    hide TrueLits, Closing;
    TrueLitsFew(lits, i, trail);
    if lits[i] in trail {
      TrueLitsNext(lits, i, trail);
      TrueLitsFew(lits, i + 1, trail);
    }
  }

  lemma LateAtOnce(lits: seq<Lit>, trail: seq<Lit>)
    requires TrueLits(lits, trail, []) == []
    ensures Late(lits, 0, trail) <==> exists l :: l in lits && l in Closing(lits, trail)
  {
    hide TrueLits, Closing;
    forall x | 0 <= x < |lits| ensures LateAt(lits, 0, trail, x) <==> lits[x] in Closing(lits, trail) {
      TrueLitsFew(lits, x, trail);
    }
  }

  // What Initialize answers will do to begin with.
  lemma AtMostStarts(lits: seq<Lit>, threshold: int, n: nat, trail: seq<Lit>, a: Answer)
    requires InRange(lits, n) && NoDup(lits) && NoClash(trail)
    requires a.accept ==> a == Told(lits, threshold, TrueLits(lits, trail, []), trail)
    requires !a.accept ==> Refutes(AtMostK(lits, threshold).sat, trail)
    ensures StartOK(AtMostK(lits, threshold), n, trail, a)
  {
    if a.accept {
      var con, log := AtMostK(lits, threshold), TrueLits(lits, trail, []);
      TrueLitsNoDup(lits, trail);
      forall l ensures l in log <==> l in lits && l in trail {
        TrueLitsMembers(lits, trail, [], l);
      }
      ToldOK(lits, threshold, n, log, trail, false);
      AtMostHonest(lits, threshold, n);
      hide Honest, Refutes, StartOK, AnswerOK, NoClash, Told, TrueLits;
      AnswerStarts(con, n, log, trail, a, a);
    }
  }

  class AtMost {
    const lits: seq<Lit>
    const threshold: int
    var nTrue: int
    // The literals delivered and not yet undone.
    ghost var log: seq<Lit>

    ghost predicate Valid() reads this {
      nTrue == |log|
    }

    constructor (lits: seq<Lit>, threshold: int)
      ensures Valid() && this.lits == lits && this.threshold == threshold && log == []
    {
      this.lits, this.threshold := lits, threshold;
      nTrue, log := 0, [];
    }

    // The loop that enqueues the negations of the undecided literals; now is the
    // trail as it grows.
    method Close(trail: seq<Lit>) returns (implied: seq<Lit>)
      ensures implied == Closing(lits, trail)
    {
      implied := [];
      var now := trail;
      for i := 0 to |lits|
        invariant now == trail + implied
        invariant implied + Closing(lits[i..], now) == Closing(lits, trail)
      {
        assert lits[i..][0] == lits[i] && lits[i..][1..] == lits[i + 1..];
        if Value(now, lits[i]) == Undef {
          implied, now := implied + [Neg(lits[i])], now + [Neg(lits[i])];
        }
      }
    }

    // The last loops of initialize: first the list of what to enqueue, then the
    // enqueues; one fails for a literal whose negation has just been enqueued.
    method CloseAtOnce(trail: seq<Lit>) returns (ok: bool, implied: seq<Lit>)
      requires NoClash(trail)
      ensures ok <==> !exists l :: l in lits && l in Closing(lits, trail)
      ensures ok ==> implied == Closing(lits, trail)
    {
      hide Closing, NoClash, Undecided, Pushed;
      assert lits[0..] == lits;
      var toPush := [];
      for i := 0 to |lits|
        invariant toPush + Undecided(lits[i..], trail) == Undecided(lits, trail)
      {
        UndecidedStep(lits, trail, i, toPush);
        if Value(trail, lits[i]) == Undef {
          toPush := toPush + [Neg(lits[i])];
        }
      }
      UndecidedStep(lits, trail, |lits|, toPush);
      ClosesClash(lits, trail);
      ok, implied := true, [];
      assert toPush[0..] == toPush && trail + [] == trail;
      for k := 0 to |toPush|
        invariant Pushed(toPush, trail, []) == Pushed(toPush[k..], trail + implied, implied)
      {
        PushedStep(toPush, k, trail, implied);
        if Value(trail + implied, toPush[k]) == False {
          return false, implied;
        }
        if Value(trail + implied, toPush[k]) == Undef {
          implied := implied + [toPush[k]];
        }
      }
      PushedStep(toPush, |toPush|, trail, implied);
    }

    // initialize, without the calls of addWatch.  When the list has a literal and its
    // negation it may come to a literal it has enqueued itself, and refuse.
    method Initialize(trail: seq<Lit>) returns (a: Answer)
      requires Valid() && log == [] && NoClash(trail)
      modifies this`nTrue, this`log
      ensures Valid()
      ensures a.accept <==> Startable(lits, threshold, trail)
      ensures a.accept ==> log == TrueLits(lits, trail, []) && a == Told(lits, threshold, log, trail)
      ensures !a.accept && NoDup(lits) ==> Refutes(AtMostK(lits, threshold).sat, trail)
    {
      hide Closing, TrueLits, NoClash, NoDup, Refutes;
      if NoDup(lits) && !Startable(lits, threshold, trail) {
        StartRefuses(lits, threshold, trail);
      }
      assert lits[..|lits|] == lits && lits[..0] == [];
      var implied := [];
      assert log == TrueLits(lits[..0], trail, []) by { TrueLitsNone(trail); }
      for i := 0 to |lits|
        invariant Valid() && log == TrueLits(lits[..i], trail, [])
        invariant nTrue <= threshold || log == []
        invariant implied == if log != [] && nTrue == threshold then Closing(lits, trail) else []
        invariant threshold > 0 ==> forall x :: 0 <= x < i ==> !LateAt(lits, threshold, trail, x)
      {
        TrueLitsNext(lits, i, trail);
        assert trail + [] == trail;
        if Value(trail + implied, lits[i]) == True {
          if lits[i] !in trail || nTrue >= threshold {
            StartRefused(lits, threshold, trail, i);
          }
          a := Propagate(lits[i], trail + implied);
          if !a.accept {
            return;
          }
          implied := implied + a.implied;
        }
      }
      if nTrue > threshold {
        return Answer(implied, false);
      }
      if nTrue == threshold {
        assert trail + [] == trail;
        if log != [] {
          ClosedOnce(lits, trail);
          ClosingFits(lits, trail);
        } else {
          LateAtOnce(lits, trail);
        }
        var ok, last := CloseAtOnce(trail + implied);
        if !ok {
          return Answer(implied, false);
        }
        implied := implied + last;
      }
      a := Answer(implied, true);
    }

    method Propagate(p: Lit, trail: seq<Lit>) returns (a: Answer)
      requires Valid()
      modifies this`nTrue, this`log
      ensures Valid() && log == old(log) + [p]
      ensures a == Told(lits, threshold, log, trail)
    {
      nTrue, log := nTrue + 1, log + [p];
      if nTrue > threshold {
        return Answer([], false);
      } else if nTrue == threshold {
        var implied := Close(trail);
        return Answer(implied, true);
      }
      a := Answer([], true);
    }

    method Undo(p: Lit)
      requires Valid() && log != [] && log[|log| - 1] == p
      modifies this`nTrue, this`log
      ensures Valid() && log == old(log)[..|old(log)| - 1]
    {
      nTrue, log := nTrue - 1, log[..|log| - 1];
    }

    // p and extra are empty for lit_Undef.
    method CalcReason(p: seq<Lit>, extra: seq<Lit>, trail: seq<Lit>) returns (reason: seq<Lit>)
      ensures reason == extra + TrueLits(lits, trail, p)
    {
      reason := extra;
      for i := 0 to |lits|
        invariant reason + TrueLits(lits[i..], trail, p) == extra + TrueLits(lits, trail, p)
      {
        assert lits[i..][0] == lits[i] && lits[i..][1..] == lits[i + 1..];
        if Value(trail, lits[i]) == True && lits[i] !in p {
          reason := reason + [lits[i]];
        }
      }
    }
  }
}
