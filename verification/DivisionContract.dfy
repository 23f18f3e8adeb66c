// GraphDivision as a Constraint: a propagator that answers as Initialize and
// Propagate of constraints/GraphDivision.cc do keeps the contract.
module DivisionContracts {
  import opened Logic
  import opened Divisions
  import opened DivisionRegions
  import opened DivisionSizes
  import opened DivisionViews
  import opened DivisionNews
  import opened GraphDivisions

  // initialize registers both signs of every border and size literal.
  ghost function WatchedLits(d: Division): set<Lit> {
    (set e | 0 <= e < |d.borders| :: d.borders[e])
    + (set e | 0 <= e < |d.borders| :: Neg(d.borders[e]))
    + (set u, i | 0 <= u < |d.sizes| && 0 <= i < |d.sizes[u].lits| :: d.sizes[u].lits[i])
    + (set u, i | 0 <= u < |d.sizes| && 0 <= i < |d.sizes[u].lits| :: Neg(d.sizes[u].lits[i]))
  }

  lemma WatchedIs(d: Division, l: Lit)
    ensures l in WatchedLits(d) <==> Watches(d, l)
  {
    if Watches(d, l) {
      if e :| 0 <= e < |d.borders| && l.v == d.borders[e].v {
        TwoSigns(l, d.borders[e]);
        assert Neg(Neg(l)) == l;
      } else {
        var u, i :| 0 <= u < |d.sizes| && 0 <= i < |d.sizes[u].lits| && l.v == d.sizes[u].lits[i].v;
        TwoSigns(l, d.sizes[u].lits[i]);
        assert Neg(Neg(l)) == l;
      }
    }
  }

  // A size that is at least values[i + 1] is at least values[i].
  function OrderClause(e: Encoding, i: nat): Clause
    requires 0 < i < |e.lits|
  {
    [Neg(e.lits[i]), e.lits[i - 1]]
  }

  function OrderOf(e: Encoding, k: nat): seq<Clause>
    requires k <= |e.lits|
  {
    if k <= 1 then [] else OrderOf(e, k - 1) + [OrderClause(e, k - 1)]
  }

  // The clauses that make the sizes order encodings.
  function OrderClauses(sizes: seq<Encoding>): seq<Clause> {
    if sizes == [] then []
    else
      var e := sizes[|sizes| - 1];
      OrderClauses(sizes[..|sizes| - 1]) + if Absent(e) then [] else OrderOf(e, |e.lits|)
  }

  lemma {:induction false} OrderOfHas(e: Encoding, k: nat, c: Clause)
    requires k <= |e.lits|
    ensures c in OrderOf(e, k) <==> exists i :: 0 < i < k && c == OrderClause(e, i)
  {
    if k > 1 {
      OrderOfHas(e, k - 1, c);
    }
  }

  ghost predicate OrderFrom(e: Encoding, c: Clause) {
    !Absent(e) && exists i :: 0 < i < |e.lits| && c == OrderClause(e, i)
  }

  lemma {:induction false} OrderHas(sizes: seq<Encoding>, c: Clause)
    ensures c in OrderClauses(sizes) <==> exists e :: e in sizes && OrderFrom(e, c)
  {
    hide OrderFrom, OrderOf;
    if sizes != [] {
      var front, e := sizes[..|sizes| - 1], sizes[|sizes| - 1];
      assert sizes == front + [e];
      OrderHas(front, c);
      OrderOne(e, c);
    }
  }

  lemma OrderOne(e: Encoding, c: Clause)
    ensures c in (if Absent(e) then [] else OrderOf(e, |e.lits|)) <==> OrderFrom(e, c)
  {
    OrderOfHas(e, |e.lits|, c);
  }

  // Neighbouring size literals are of different variables.
  ghost predicate OwnVars(d: Division) {
    forall u, i :: 0 <= u < |d.sizes| && 0 < i < |d.sizes[u].lits| ==> d.sizes[u].lits[i].v != d.sizes[u].lits[i - 1].v
  }

  ghost function DivisionK(d: Division, propagate: Teller): Constraint
  {
    Keeping(a => |d.edges| == |d.borders| && Divides(d, a), WatchedLits(d), propagate, OrderClauses(d.sizes),
            ls => DivisionQuiet(d, ls))
  }

  // --------------------------------------------------- propagated order clauses

  lemma NeedIs(d: Division, u: nat, i: nat)
    requires u < |d.sizes| && !Absent(d.sizes[u]) && 0 < i < |d.sizes[u].lits|
    ensures OrderClause(d.sizes[u], i) in OrderClauses(d.sizes)
  {
    OrderHas(d.sizes, OrderClause(d.sizes[u], i));
    assert d.sizes[u] in d.sizes && OrderFrom(d.sizes[u], OrderClause(d.sizes[u], i));
  }

  lemma ClosedStep(e: Encoding, i: nat, ls: seq<Lit>)
    requires 0 < i < |e.lits| && Closes(OrderClause(e, i), ls)
    ensures e.lits[i] in ls ==> e.lits[i - 1] in ls
    ensures Neg(e.lits[i - 1]) in ls ==> Neg(e.lits[i]) in ls
  {
    var c, p, q := OrderClause(e, i), Neg(e.lits[i]), e.lits[i - 1];
    assert c[0] == p && c[1] == q && Neg(p) == e.lits[i];
    assert p in c && q in c;
  }

  // Closure under the clauses of one encoding is its order.
  lemma {:induction false} ClosedOrder(e: Encoding, ls: seq<Lit>, i: nat, j: nat)
    requires forall k :: 0 < k < |e.lits| ==> Closes(OrderClause(e, k), ls)
    requires i < j < |e.lits|
    ensures e.lits[j] in ls ==> e.lits[i] in ls
    ensures Neg(e.lits[i]) in ls ==> Neg(e.lits[j]) in ls
    decreases j
  {
    hide Closes;
    ClosedStep(e, j, ls);
    if i < j - 1 {
      ClosedOrder(e, ls, i, j - 1);
    }
  }

  lemma FitOrdered(d: Division, propagate: Teller, ls: seq<Lit>)
    requires Fit(DivisionK(d, propagate), ls)
    ensures AllOrdered(d, ls)
  {
    hide Closes;
    forall u | 0 <= u < |d.sizes| && !Absent(d.sizes[u]) ensures Ordered(d.sizes[u], ls) {
      forall k | 0 < k < |d.sizes[u].lits| ensures Closes(OrderClause(d.sizes[u], k), ls) {
        NeedIs(d, u, k);
      }
      forall i, j | 0 <= i < j < |d.sizes[u].lits|
        ensures (d.sizes[u].lits[j] in ls ==> d.sizes[u].lits[i] in ls)
        ensures (Neg(d.sizes[u].lits[i]) in ls ==> Neg(d.sizes[u].lits[j]) in ls)
      {
        ClosedOrder(d.sizes[u], ls, i, j);
      }
    }
  }

  // ---------------------------------------------------- only watched literals

  ghost predicate SameWatched(d: Division, few: seq<Lit>, more: seq<Lit>) {
    forall l :: Watches(d, l) ==> (l in few <==> l in more)
  }

  lemma SameSize(d: Division, u: nat, few: seq<Lit>, more: seq<Lit>, i: nat)
    requires SameWatched(d, few, more) && u < |d.sizes| && i < |d.sizes[u].lits|
    ensures d.sizes[u].lits[i] in few <==> d.sizes[u].lits[i] in more
    ensures Neg(d.sizes[u].lits[i]) in few <==> Neg(d.sizes[u].lits[i]) in more
  {
    hide Watches;
    var l := d.sizes[u].lits[i];
    assert Neg(Neg(l)) == l;
    WatchesSize(d, u, l);
    WatchesSize(d, u, Neg(l));
  }

  lemma SameStates(d: Division, st: seq<EdgeState>, few: seq<Lit>, more: seq<Lit>)
    requires SameWatched(d, few, more) && StatesOK(d, st, few)
    ensures StatesOK(d, st, more)
  {
    hide Watches;
    forall e | 0 <= e < |st| ensures st[e] == StateOf(more, d.borders[e]) {
      WatchesBorder(d, e);
    }
  }

  lemma SameBounds(d: Division, u: nat, few: seq<Lit>, more: seq<Lit>, b: SizeBounds)
    requires SameWatched(d, few, more) && u < |d.sizes| && BoundsFit(d.sizes[u], few, b)
    ensures BoundsFit(d.sizes[u], more, b)
  {
    hide Watches, SameWatched;
    var e := d.sizes[u];
    forall i: nat | i < |e.lits|
      ensures (e.lits[i] in few <==> e.lits[i] in more) && (Neg(e.lits[i]) in few <==> Neg(e.lits[i]) in more)
    {
      SameSize(d, u, few, more, i);
    }
    var i: nat :| LowAt(e, few, b, i);
    assert LowAt(e, more, b, i);
    var j: nat :| HighAt(e, few, b, j);
    assert HighAt(e, more, b, j);
  }

  lemma SameOrder(d: Division, few: seq<Lit>, more: seq<Lit>)
    requires SameWatched(d, few, more) && AllOrdered(d, few)
    ensures AllOrdered(d, more)
  {
    hide Watches, SameWatched;
    forall u | 0 <= u < |d.sizes| && !Absent(d.sizes[u]) ensures Ordered(d.sizes[u], more) {
      assert Ordered(d.sizes[u], few);
      forall i: nat | i < |d.sizes[u].lits|
        ensures (d.sizes[u].lits[i] in few <==> d.sizes[u].lits[i] in more)
        ensures (Neg(d.sizes[u].lits[i]) in few <==> Neg(d.sizes[u].lits[i]) in more)
      {
        SameSize(d, u, few, more, i);
      }
    }
  }

  lemma SameQuiet(d: Division, few: seq<Lit>, more: seq<Lit>)
    requires SameWatched(d, few, more) && DivisionQuiet(d, few)
    ensures DivisionQuiet(d, more)
  {
    hide SameWatched, RulesFine, AdjOK, DivisionOK, PartitionOK, StatesOK, AbsentOK, AllOrdered, BoundsFit, Pairs;
    var adj, v :| Judged(d, adj, v, few) && RulesFine(d, adj, v);
    assert Judged(d, adj, v, more) by {
      SameStates(d, v.st, few, more);
      SameOrder(d, few, more);
      forall u | 0 <= u < |d.sizes| ensures BoundOK(d, more, v.bounds, u) {
        assert BoundOK(d, few, v.bounds, u);
        if !Absent(d.sizes[u]) {
          SameBounds(d, u, few, more, v.bounds[u]);
        }
      }
    }
  }

  // ---------------------------------------------------------------- the contract

  // What is watched and true has been delivered.
  lemma FedSame(d: Division, propagate: Teller,
                log: seq<Lit>, trail: seq<Lit>)
    requires FedAll(DivisionK(d, propagate), log, trail)
    ensures SameWatched(d, log, trail)
  {
    hide Watches;
    forall l | Watches(d, l) ensures l in log <==> l in trail {
      WatchedIs(d, l);
    }
  }

  // A quiet state that leaves no watched literal open is a division.
  lemma QuietDivides(d: Division, propagate: Teller, log: seq<Lit>)
    requires DivisionQuiet(d, log) && Unmixed(d) && NoClash(log)
    ensures Quiescent(DivisionK(d, propagate), log)
  {
    hide Judged, Divides, Unmixed, NoClash, NoBorder, LargeEnough, SmallEnough, EqualSizes, Roomy, Total;
    var con := DivisionK(d, propagate);
    var adj, v :| Judged(d, adj, v, log) && RulesFine(d, adj, v);
    FineDivides(d, adj, v, log);
    JudgedLengths(d, adj, v, log);
    forall a: Assignment | Matches(con, a, log) ensures con.sat(a) {
      MatchesTotal(d, propagate, a, log);
    }
  }

  lemma JudgedLengths(d: Division, adj: Adjacency, v: View, t: seq<Lit>)
    requires Judged(d, adj, v, t)
    ensures |d.edges| == |d.borders|
  {
  }

  lemma MatchesTotal(d: Division, propagate: Teller, a: Assignment, log: seq<Lit>)
    requires Matches(DivisionK(d, propagate), a, log)
    ensures Total(d, log) && AllHold(a, log)
  {
    forall l | Watches(d, l) ensures Settled(log, l) {
      var m := if Holds(a, l) then l else Neg(l);
      assert Watches(d, m);
      WatchedIs(d, m);
      NegHolds(a, l);
    }
    forall e | 0 <= e < |d.borders| ensures Settled(log, d.borders[e]) {
      WatchesBorder(d, e);
    }
    forall u, i | 0 <= u < |d.sizes| && 0 <= i < |d.sizes[u].lits| ensures Settled(log, d.sizes[u].lits[i]) {
      WatchesSize(d, u, d.sizes[u].lits[i]);
    }
  }

  ghost predicate VarsBelow(d: Division, n: nat) {
    forall l :: Watches(d, l) ==> l.v < n
  }

  lemma ReplyObjects(d: Division, propagate: Teller, log: seq<Lit>, trail: seq<Lit>,
                     because: seq<Lit>)
    requires Fed(DivisionK(d, propagate), log, trail) && ConflictOK(d, trail, because)
    ensures ObjectionOK(DivisionK(d, propagate), log, trail, because)
  {
    hide Divides, DivisionQuiet, Watches;
    var con := DivisionK(d, propagate);
    forall ls | con.quiet(ls) && (forall l :: l in ls && l in con.watched ==> l in log)
      ensures exists l :: l in because && l !in ls
    {
      forall l | l in ls && Watches(d, l) ensures l in trail {
        WatchedIs(d, l);
      }
      assert WatchedIn(d, ls, trail);
    }
  }

  // What the propagator answers is what the contract asks for.
  lemma ReplyKeeps(d: Division, propagate: Teller, n: nat, log: seq<Lit>, trail: seq<Lit>,
                   pending: bool, a: Answer)
    requires Unmixed(d) && VarsBelow(d, n) && Fed(DivisionK(d, propagate), log, trail) && NoClash(trail)
    requires !pending ==> FedAll(DivisionK(d, propagate), log, trail)
    requires Replies(d, trail, pending, a)
    ensures KeepingAnswer(DivisionK(d, propagate), n, log, trail, pending, a)
  {
    hide ConflictOK, DivisionQuiet, Divides, Unmixed, Total, Watches, SameWatched, ObjectionOK, Quiescent, AllHold;
    var con := DivisionK(d, propagate);
    forall p | p in a.implied
      ensures p.v < n && KeptOK(con.sat, trail, p, Why(a, p)) && Neg(p) !in trail && Neg(p) !in a.implied
    {
      assert Earned(d, trail, a.why, p);
    }
    if !a.accept {
      ReplyObjects(d, propagate, log, trail, a.because);
    } else if !pending {
      FedSame(d, propagate, log, trail);
      SameBack(d, log, trail);
      SameQuiet(d, trail, log);
      assert NoClash(log);
      QuietDivides(d, propagate, log);
    }
  }

  lemma SameBack(d: Division, few: seq<Lit>, more: seq<Lit>)
    requires SameWatched(d, few, more)
    ensures SameWatched(d, more, few)
  {
    hide Watches;
  }

  // When the propagator can be called: everything that is watched and true has
  // been delivered, and the order clauses have been propagated.
  ghost predicate Ready(d: Division, log: seq<Lit>, trail: seq<Lit>) {
    NoClash(trail) && AllOrdered(d, trail) && SameWatched(d, log, trail)
  }

  // GraphDivision keeps the contract of Constraint: whatever Propagate may answer
  // whenever it can be called will do as propagate.
  lemma DivisionHonest(d: Division, propagate: Teller, n: nat)
    requires DivisionOK(d) && Unmixed(d) && OwnVars(d) && VarsBelow(d, n)
    requires forall log, trail, pending :: NoClash(trail) && (!pending ==> Ready(d, log, trail)) ==>
               Replies(d, trail, pending, propagate(log, trail, pending))
    ensures Honest(DivisionK(d, propagate), n)
  {
    hide Replies, DivisionOK, Unmixed, VarsBelow, NoClash, Watches, KeepingAnswer, AllOrdered, SameWatched, NeedOK,
         DivisionQuiet, OrderClauses;
    var con := DivisionK(d, propagate);
    forall few, more | con.quiet(few) && (forall l :: l in con.watched ==> (l in few <==> l in more))
      ensures con.quiet(more)
    {
      SameFrom(d, few, more);
      SameQuiet(d, few, more);
    }
    assert QuietLocal(con);
    forall l | l in con.watched ensures l.v < n {
      WatchedIs(d, l);
      BelowAt(d, n, l);
    }
    forall c | c in con.needs ensures NeedOK(con, c) {
      NeedsOK(d, propagate, c);
    }
    forall log, trail, pending | Fed(con, log, trail) && NoClash(trail)
      && (!pending ==> FedAll(con, log, trail) && Fit(con, log))
      ensures KeepingAnswer(con, n, log, trail, pending, con.propagate(log, trail, pending))
    {
      if !pending {
        ReadyNow(d, propagate, log, trail);
      }
      ReplyKeeps(d, propagate, n, log, trail, pending, propagate(log, trail, pending));
    }
  }

  // And whatever Initialize may answer, no first value being negative, will do to begin
  // with.
  lemma DivisionStarts(d: Division, propagate: Teller, n: nat, trail: seq<Lit>, a: Answer)
    requires Unmixed(d) && VarsBelow(d, n) && NoClash(trail) && Replies(d, trail, false, a)
    ensures StartOK(DivisionK(d, propagate), n, trail, a)
  {
    hide ConflictOK, DivisionQuiet, Divides, Unmixed, Total, Watches, Quiescent, NoClash, AllHold, Awaits;
    var con := DivisionK(d, propagate);
    if a.accept {
      forall p | p in a.implied ensures p.v < n && Explains(con.sat, trail, p) {
        assert Earned(d, trail, a.why, p);
        StoredExplains(d, propagate, trail, a.why, p);
      }
      QuietDivides(d, propagate, trail);
    } else {
      ObjectedRefutes(d, propagate, trail, a.because);
    }
  }

  lemma StoredExplains(d: Division, propagate: Teller, trail: seq<Lit>, why: map<Lit, seq<Lit>>, p: Lit)
    requires |d.edges| == |d.borders| && Earned(d, trail, why, p)
    ensures Explains(DivisionK(d, propagate).sat, trail, p)
  {
    hide Divides;
    forall b: Assignment | DivisionK(d, propagate).sat(b) && AllHold(b, trail) ensures Holds(b, p) {
      assert AllHold(b, why[p]);
    }
  }

  lemma ObjectedRefutes(d: Division, propagate: Teller, trail: seq<Lit>, because: seq<Lit>)
    requires |d.edges| == |d.borders| && ConflictOK(d, trail, because)
    ensures Refutes(DivisionK(d, propagate).sat, trail)
  {
    hide Divides, DivisionQuiet, Watches;
    forall b: Assignment | DivisionK(d, propagate).sat(b) ensures !AllHold(b, trail) {
      assert AllHold(b, trail) ==> AllHold(b, because);
    }
  }

  lemma BelowAt(d: Division, n: nat, l: Lit)
    requires VarsBelow(d, n) && Watches(d, l)
    ensures l.v < n
  {
  }

  lemma SameFrom(d: Division, few: seq<Lit>, more: seq<Lit>)
    requires forall l :: l in WatchedLits(d) ==> (l in few <==> l in more)
    ensures SameWatched(d, few, more)
  {
    hide Watches, WatchedLits;
    forall l | Watches(d, l) ensures l in few <==> l in more {
      WatchedIs(d, l);
    }
  }

  lemma ReadyNow(d: Division, propagate: Teller,
                 log: seq<Lit>, trail: seq<Lit>)
    requires FedAll(DivisionK(d, propagate), log, trail) && NoClash(trail)
    requires Fit(DivisionK(d, propagate), log)
    ensures Ready(d, log, trail)
  {
    hide SameWatched, Fit, FedAll, AllOrdered;
    FedSame(d, propagate, log, trail);
    FitOrdered(d, propagate, log);
    SameOrder(d, log, trail);
  }

  lemma NeedsOK(d: Division, propagate: Teller,
                c: Clause)
    requires OwnVars(d) && c in OrderClauses(d.sizes)
    ensures NeedOK(DivisionK(d, propagate), c)
  {
    hide Watches, WatchedLits, OrderClauses;
    OrderHas(d.sizes, c);
    var e :| e in d.sizes && OrderFrom(e, c);
    var u :| 0 <= u < |d.sizes| && d.sizes[u] == e;
    var i :| 0 < i < |e.lits| && c == OrderClause(e, i);
    forall l | l in c ensures l in WatchedLits(d) && Neg(l) in WatchedLits(d) {
      assert l == Neg(d.sizes[u].lits[i]) || l == d.sizes[u].lits[i - 1];
      assert Neg(Neg(d.sizes[u].lits[i])) == d.sizes[u].lits[i];
      WatchesSize(d, u, l);
      WatchesSize(d, u, Neg(l));
      WatchedIs(d, l);
      WatchedIs(d, Neg(l));
    }
  }
}
