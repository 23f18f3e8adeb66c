// Clause minimisation on the state value: litRedundant, the loops that call it,
// and the shortening with binary clauses.
module Minimising {
  import opened Logic
  import opened Trails
  import opened Watching
  import opened Settling
  import opened Reasons
  import opened Delivery
  import opened States
  import opened Analysis

  // analyze_toclear names every marked literal.
  ghost predicate ToClear(n: nat, toclear: seq<Lit>, marked: set<Lit>) {
    InRange(toclear, n) && forall l :: l in marked ==> Neg(l) in toclear
  }

  // A literal litRedundant may look behind: implied by a clause above level 0.
  ghost predicate Expandable(s: State, l: Lit) {
    && l.v < s.n && |s.t.vardata| == s.n && IsTrue(s.t, l) && RootEnd(s.t) <= s.t.pos[l.v]
    && s.t.vardata[l.v].reason.ByClause?
  }

  // analyze_stack holds the negations of pend, each once.
  ghost predicate Pending(s: State, stack: seq<Lit>, pend: set<Lit>, marked: set<Lit>) {
    && NoDup(stack)
    && (forall y :: y in stack ==> Neg(y) in pend)
    && (forall l :: l in pend ==> l in marked && Expandable(s, l))
    && |pend| == |stack|
  }

  // What litRedundant has marked on its own: exactly toclear from top on.
  ghost predicate Extra(seen: seq<bool>, seen0: seq<bool>, toclear: seq<Lit>, top: nat) {
    && |seen| == |seen0| && top <= |toclear|
    && (forall x :: top <= x < |toclear| ==> toclear[x].v < |seen| && !seen0[toclear[x].v])
    && (forall v :: 0 <= v < |seen| ==>
          (seen[v] <==> seen0[v] || exists x :: top <= x < |toclear| && toclear[x].v == v))
  }

  // One literal is marked and pushed on both stacks.
  lemma Push(s: State, seen: seq<bool>, seen0: seq<bool>, stack: seq<Lit>, toclear: seq<Lit>, top: nat,
             pend: set<Lit>, marked: set<Lit>, kept: set<Lit>, p: Lit, l: Lit)
    requires Marks(s.t, s.n, seen, marked) && Pending(s, stack, pend, marked) && ToClear(s.n, toclear, marked)
    requires ClosedUnderReasons(s.t, s.db, marked + {p}, kept + pend)
    requires Expandable(s, l) && !seen[l.v]
    ensures Marks(s.t, s.n, seen[l.v := true], marked + {l})
    ensures Pending(s, stack + [Neg(l)], pend + {l}, marked + {l}) && ToClear(s.n, toclear + [Neg(l)], marked + {l})
    ensures ClosedUnderReasons(s.t, s.db, marked + {l} + {p}, kept + (pend + {l}))
  {
    hide Marks, Expandable, Pending, ClosedUnderReasons, ToClear, RootEnd;
    ExpandableSpot(s, l);
    NotMarked(s.t, s.n, seen, marked, l);
    MarkOne(s.t, s.n, seen, marked, l);
    PushStack(s, stack, pend, marked, l);
    PushClear(s.n, toclear, marked, l);
    CloseGrow(s.t, s.db, marked + {p}, kept + pend, l);
    assert marked + {p} + {l} == marked + {l} + {p};
    assert kept + pend + {l} == kept + (pend + {l});
  }

  lemma ExpandableSpot(s: State, l: Lit)
    requires Expandable(s, l)
    ensures l.v < s.n && IsTrue(s.t, l) && RootEnd(s.t) <= s.t.pos[l.v]
  {
  }

  lemma PushClear(n: nat, toclear: seq<Lit>, marked: set<Lit>, l: Lit)
    requires ToClear(n, toclear, marked) && l.v < n
    ensures ToClear(n, toclear + [Neg(l)], marked + {l})
  {
  }

  lemma PushStack(s: State, stack: seq<Lit>, pend: set<Lit>, marked: set<Lit>, l: Lit)
    requires Pending(s, stack, pend, marked) && Expandable(s, l) && l !in marked
    ensures Pending(s, stack + [Neg(l)], pend + {l}, marked + {l})
  {
    hide Expandable;
    assert Neg(Neg(l)) == l;
    forall x | 0 <= x < |stack| ensures stack[x] != Neg(l) {
      assert stack[x] in stack;
    }
  }

  lemma PushExtra(seen: seq<bool>, seen0: seq<bool>, toclear: seq<Lit>, top: nat, y: Lit)
    requires Extra(seen, seen0, toclear, top) && y.v < |seen| && !seen[y.v]
    ensures Extra(seen[y.v := true], seen0, toclear + [y], top)
  {
    var now, tc := seen[y.v := true], toclear + [y];
    forall v | 0 <= v < |seen|
      ensures now[v] <==> seen0[v] || exists x :: top <= x < |tc| && tc[x].v == v
    {
      if x :| top <= x < |toclear| && toclear[x].v == v {
        assert tc[x].v == v;
      }
      if v == y.v {
        assert tc[|toclear|].v == v;
      }
    }
  }

  lemma ImpliedGrows(t: Trail, db: Db, seen: set<Lit>, more: set<Lit>, l: Lit)
    requires ImpliedBySeen(t, db, seen, l) && seen <= more
    ensures ImpliedBySeen(t, db, more, l)
  {
  }

  lemma CloseGrow(t: Trail, db: Db, seen: set<Lit>, kept: set<Lit>, l: Lit)
    requires ClosedUnderReasons(t, db, seen, kept)
    ensures ClosedUnderReasons(t, db, seen + {l}, kept + {l})
  {
    hide ImpliedBySeen;
    forall x | x in seen + {l} && x !in kept + {l} ensures ImpliedBySeen(t, db, seen + {l}, x) {
      ImpliedGrows(t, db, seen, seen + {l}, x);
    }
  }

  // A pending literal whose reason has been covered is pending no more.
  lemma CloseDone(t: Trail, db: Db, seen: set<Lit>, kept: set<Lit>, less: set<Lit>, l: Lit)
    requires ClosedUnderReasons(t, db, seen, kept) && ImpliedBySeen(t, db, seen, l)
    requires forall x :: x in kept && x != l ==> x in less
    ensures ClosedUnderReasons(t, db, seen, less)
  {
    hide ImpliedBySeen;
  }

  lemma SwapImplied(t: Trail, db: Db, seen: set<Lit>, kept: set<Lit>, cr: nat)
    requires ClosedUnderReasons(t, db, seen, kept) && Live(db, cr) && |db[cr].lits| == 2
    ensures ClosedUnderReasons(t, SwapLits(db, cr, 0, 1), seen, kept)
  {
    SwappedFacts(db[cr].lits, 0, 1, 0);
    forall x | x in seen && x !in kept ensures ImpliedBySeen(t, SwapLits(db, cr, 0, 1), seen, x) {
      assert ImpliedBySeen(t, db, seen, x);
    }
  }

  // All other literals of the reason are marked or false at level 0.
  ghost predicate Covered(s: State, cr: nat, marked: set<Lit>)
    requires cr < |s.db|
  {
    forall x :: 1 <= x < |s.db[cr].lits| ==> Neg(s.db[cr].lits[x]) in marked || Root(s.t, Neg(s.db[cr].lits[x]))
  }

  lemma CoveredImplied(s: State, i: nat, cr: nat, seen: set<Lit>)
    requires i < |s.t.lits| && ClauseExplains(s, i, cr) && Expandable(s, s.t.lits[i]) && s.t.pos[s.t.lits[i].v] == i
    requires s.t.vardata[s.t.lits[i].v].reason == ByClause(cr) && Covered(s, cr, seen)
    ensures ImpliedBySeen(s.t, s.db, seen, s.t.lits[i])
  {
    var c, l := s.db[cr].lits, s.t.lits[i];
    forall q | q in c && q != l ensures TrueBefore(s.t, Neg(q), i) && (Neg(q) in seen || Root(s.t, Neg(q))) {
      var x :| 0 <= x < |c| && c[x] == q;
    }
  }

  lemma ExpandableReason(s: State, m: nat, l: Lit)
    requires Conflicted(s, m) && Expandable(s, l)
    ensures 0 <= s.t.pos[l.v] < |s.t.lits| && s.t.lits[s.t.pos[l.v]] == l && Sizes(s.t, s.n)
    ensures ReasonOK(s.t, s.db, s.f.constraints, s.t.pos[l.v])
  {
    hide Watched, AllDbEntailed, RootOK, HomeOK, Told, TrailOK;
  }

  lemma ResetExtra(seen: seq<bool>, seen0: seq<bool>, toclear: seq<Lit>, top: nat, now: seq<bool>)
    requires Extra(seen, seen0, toclear, top) && |now| == |seen|
    requires forall v :: 0 <= v < |seen| ==>
               (now[v] <==> seen[v] && !exists x :: top <= x < |toclear| && toclear[x].v == v)
    ensures now == seen0
  {
    forall v | 0 <= v < |seen| ensures now[v] == seen0[v] {
      if x :| top <= x < |toclear| && toclear[x].v == v {
        assert !seen0[v];
      }
    }
  }

  ghost function Unseen(seen: seq<bool>): set<nat> {
    set v: nat | v < |seen| && !seen[v]
  }

  lemma UnseenShrinks(seen: seq<bool>, v: nat)
    requires v < |seen| && !seen[v]
    ensures Unseen(seen[v := true]) < Unseen(seen)
  {
    assert v in Unseen(seen) && v !in Unseen(seen[v := true]);
  }

  lemma PopStack(s: State, stack: seq<Lit>, pend: set<Lit>, marked: set<Lit>)
    requires Pending(s, stack, pend, marked) && stack != []
    ensures var y := stack[|stack| - 1];
            && Neg(y) in pend && Expandable(s, Neg(y))
            && Pending(s, stack[..|stack| - 1], pend - {Neg(y)}, marked)
  {
    hide Expandable;
    var y, less := stack[|stack| - 1], stack[..|stack| - 1];
    assert stack == less + [y];
    forall z | z in less ensures Neg(z) in pend - {Neg(y)} {
      assert z in stack;
      assert z != y;
    }
  }

  // What holds while litRedundant examines one reason after another: kept are
  // the literals that need no reason, pend those on the stack.
  ghost predicate Examining(s: State, seen: seq<bool>, seen0: seq<bool>, stack: seq<Lit>, toclear: seq<Lit>, top: nat,
                            pend: set<Lit>, marked: set<Lit>, kept: set<Lit>, p: Lit) {
    && Marks(s.t, s.n, seen, marked) && Pending(s, stack, pend, marked) && ToClear(s.n, toclear, marked)
    && ClosedUnderReasons(s.t, s.db, marked + {p}, kept + pend)
    && Extra(seen, seen0, toclear, top)
  }

  lemma ExamineSizes(s: State, seen: seq<bool>, seen0: seq<bool>, stack: seq<Lit>, toclear: seq<Lit>, top: nat,
                     pend: set<Lit>, marked: set<Lit>, kept: set<Lit>, p: Lit)
    requires Examining(s, seen, seen0, stack, toclear, top, pend, marked, kept, p)
    ensures |seen| == s.n == |seen0| && Marks(s.t, s.n, seen, marked) && Extra(seen, seen0, toclear, top)
  {
    hide Marks, Pending, ToClear, ClosedUnderReasons;
    assert |seen| == s.n by { MarksSize(s.t, s.n, seen, marked); }
  }

  lemma MarksSize(t: Trail, n: nat, seen: seq<bool>, marked: set<Lit>)
    requires Marks(t, n, seen, marked)
    ensures |seen| == n
    ensures forall l :: IsTrue(t, l) && l.v < n && seen[l.v] ==> l in marked
  {
  }

  lemma Examine(s: State, seen: seq<bool>, seen0: seq<bool>, stack: seq<Lit>, toclear: seq<Lit>, top: nat,
                pend: set<Lit>, marked: set<Lit>, kept: set<Lit>, p: Lit, l: Lit)
    requires Examining(s, seen, seen0, stack, toclear, top, pend, marked, kept, p) && Expandable(s, l)
    requires |seen| == s.n && !seen[l.v]
    ensures Examining(s, seen[l.v := true], seen0, stack + [Neg(l)], toclear + [Neg(l)], top,
                      pend + {l}, marked + {l}, kept, p)
  {
    hide Marks, Pending, ToClear, ClosedUnderReasons, Extra;
    Push(s, seen, seen0, stack, toclear, top, pend, marked, kept, p, l);
    PushExtra(seen, seen0, toclear, top, Neg(l));
  }

  lemma StartExamining(s: State, seen: seq<bool>, toclear: seq<Lit>, marked: set<Lit>, kept: set<Lit>, p: Lit, q: Lit)
    requires Marks(s.t, s.n, seen, marked) && ToClear(s.n, toclear, marked) && Neg(q) in marked && Neg(q) in kept
    requires ClosedUnderReasons(s.t, s.db, marked + {p}, kept) && Expandable(s, Neg(q))
    ensures Examining(s, seen, seen, [q], toclear, |toclear|, {Neg(q)}, marked, kept - {Neg(q)}, p)
  {
    hide Marks, ToClear, ClosedUnderReasons, Expandable;
    assert Neg(Neg(q)) == q;
    assert kept - {Neg(q)} + {Neg(q)} == kept;
    assert q in [q];
  }

  // The top of the stack is taken off to have its reason examined.
  lemma TakeTop(s: State, seen: seq<bool>, seen0: seq<bool>, stack: seq<Lit>, toclear: seq<Lit>, top: nat,
                pend: set<Lit>, marked: set<Lit>, kept: set<Lit>, p: Lit)
    requires Examining(s, seen, seen0, stack, toclear, top, pend, marked, kept, p) && stack != []
    ensures var x := Neg(stack[|stack| - 1]);
            && x in pend && Expandable(s, x)
            && Examining(s, seen, seen0, stack[..|stack| - 1], toclear, top, pend - {x}, marked, kept + {x}, p)
  {
    hide Marks, ToClear, ClosedUnderReasons, Expandable, Extra;
    PopStack(s, stack, pend, marked);
    hide Pending;
    var x := Neg(stack[|stack| - 1]);
    assert kept + {x} + (pend - {x}) == kept + pend;
  }

  lemma ReasonCovered(s: State, seen: seq<bool>, seen0: seq<bool>, stack: seq<Lit>, toclear: seq<Lit>, top: nat,
                      pend: set<Lit>, marked: set<Lit>, kept: set<Lit>, p: Lit, x: Lit)
    requires Examining(s, seen, seen0, stack, toclear, top, pend, marked, kept + {x}, p)
    requires ImpliedBySeen(s.t, s.db, marked + {p}, x)
    ensures Examining(s, seen, seen0, stack, toclear, top, pend, marked, kept, p)
  {
    hide Marks, ToClear, ImpliedBySeen, Pending, Extra;
    CloseDone(s.t, s.db, marked + {p}, kept + {x} + pend, kept + pend, x);
  }

  lemma CoveredHere(s: State, cr: nat, marked: set<Lit>)
    requires cr < |s.db|
    requires forall z :: 1 <= z < |s.db[cr].lits| ==>
             Neg(s.db[cr].lits[z]) in marked || Root(s.t, Neg(s.db[cr].lits[z]))
    ensures Covered(s, cr, marked)
  {
  }

  lemma ExpandableFacts(s: State, l: Lit)
    requires Expandable(s, l)
    ensures l.v < s.n && |s.t.vardata| == s.n && s.t.vardata[l.v].reason.ByClause?
  {
  }

  lemma ExtraRange(seen: seq<bool>, seen0: seq<bool>, toclear: seq<Lit>, top: nat)
    requires Extra(seen, seen0, toclear, top)
    ensures top <= |toclear| && forall x :: top <= x < |toclear| ==> toclear[x].v < |seen|
  {
  }

  // Orienting a binary reason disturbs nothing.
  lemma OrientKeeps(s: State, u: State, cr: nat, seen: seq<bool>, seen0: seq<bool>, stack: seq<Lit>, toclear: seq<Lit>,
                    top: nat, pend: set<Lit>, marked: set<Lit>, kept: set<Lit>, p: Lit, marked0: set<Lit>,
                    kept0: set<Lit>)
    requires Examining(s, seen, seen0, stack, toclear, top, pend, marked, kept, p)
    requires ClosedUnderReasons(s.t, s.db, marked0 + {p}, kept0)
    requires u == s.(db := u.db)
    requires u.db == s.db || (Live(s.db, cr) && |s.db[cr].lits| == 2 && u.db == SwapLits(s.db, cr, 0, 1))
    ensures Examining(u, seen, seen0, stack, toclear, top, pend, marked, kept, p)
    ensures ClosedUnderReasons(u.t, u.db, marked0 + {p}, kept0)
  {
    hide Marks, ToClear, ClosedUnderReasons, Extra, IsTrue;
    forall l | l in pend ensures Expandable(u, l) {
      ExpandableFrame(s, u, l);
    }
    if u.db != s.db {
      SwapImplied(s.t, s.db, marked + {p}, kept + pend, cr);
      SwapImplied(s.t, s.db, marked0 + {p}, kept0, cr);
    }
  }

  lemma ReasonCoveredHere(s: State, seen: seq<bool>, seen0: seq<bool>, stack: seq<Lit>, toclear: seq<Lit>, top: nat,
                          pend: set<Lit>, marked: set<Lit>, kept: set<Lit>, p: Lit, i: nat, cr: nat, x: Lit)
    requires Examining(s, seen, seen0, stack, toclear, top, pend, marked, kept + {x}, p)
    requires i < |s.t.lits| && s.t.lits[i] == x && ClauseExplains(s, i, cr) && Expandable(s, x) && s.t.pos[x.v] == i
    requires s.t.vardata[x.v].reason == ByClause(cr) && cr < |s.db| && Covered(s, cr, marked)
    ensures Examining(s, seen, seen0, stack, toclear, top, pend, marked, kept, p)
  {
    hide Examining, ClauseExplains, Expandable, Root;
    CoveredMore(s, cr, marked, marked + {p});
    hide Covered;
    CoveredImplied(s, i, cr, marked + {p});
    ReasonCovered(s, seen, seen0, stack, toclear, top, pend, marked, kept, p, x);
  }

  lemma CoveredMore(s: State, cr: nat, marked: set<Lit>, more: set<Lit>)
    requires cr < |s.db| && Covered(s, cr, marked) && marked <= more
    ensures Covered(s, cr, more)
  {
  }

  lemma StackEmpty(s: State, seen: seq<bool>, seen0: seq<bool>, toclear: seq<Lit>, top: nat,
                   pend: set<Lit>, marked: set<Lit>, kept: set<Lit>, p: Lit)
    requires Examining(s, seen, seen0, [], toclear, top, pend, marked, kept, p)
    ensures Marks(s.t, s.n, seen, marked) && ToClear(s.n, toclear, marked)
    ensures ClosedUnderReasons(s.t, s.db, marked + {p}, kept)
  {
  }

  lemma ExpandableFrame(s: State, u: State, l: Lit)
    requires Expandable(s, l) && u == s.(db := u.db)
    ensures Expandable(u, l)
  {
  }

  // -------------------------------------------------------- the shorter clause

  // out is rest with some literals dropped; together with the negation of p it
  // still is an entailed clause.
  ghost predicate Shortened(s: State, p: Lit, rest: seq<Lit>, out: seq<Lit>) {
    && NoDup(out)
    && (forall q :: q in out ==> q in rest)
    && Entails(s.f, [Neg(p)] + out)
  }

  // Half-way: the first i literals of rest have been decided on, kept are the
  // literals that stay so far.
  ghost predicate Shortening(p: Lit, rest: seq<Lit>, i: nat, out: seq<Lit>, marked: set<Lit>, kept: set<Lit>) {
    && i <= |rest| && NoDup(rest) && NoDup(out)
    && (forall q :: q in out ==> q in rest[..i])
    && (forall l :: l in kept ==> l == p || Neg(l) in out || Neg(l) in rest[i..])
    && (forall x :: i <= x < |rest| ==> Neg(rest[x]) in kept && Neg(rest[x]) in marked)
  }

  lemma StartShortening(s: State, seen: seq<bool>, p: Lit, low: set<Lit>, rest: seq<Lit>)
    requires Uip(s, seen, p, low, rest) && InRange(rest, s.n) && p.v < s.n
    ensures ClosedUnderReasons(s.t, s.db, low + {p}, low + {p})
    ensures Shortening(p, rest, 0, [], low, low + {p}) && ToClear(s.n, [Neg(p)] + rest, low)
            && Marks(s.t, s.n, seen, low)
  {
    hide Marks, Refuted, Current, ImpliedBySeen, Collected, ToClear, Shortening, InRange;
    StartShort(p, low, rest);
    StartClear(s.n, p, low, rest);
  }

  lemma StartShort(p: Lit, low: set<Lit>, rest: seq<Lit>)
    requires Collected(rest, low)
    ensures Shortening(p, rest, 0, [], low, low + {p})
  {
    assert rest[0..] == rest;
    forall x | 0 <= x < |rest| ensures Neg(rest[x]) in low {
      CollectedAt(rest, low, rest[x]);
    }
  }

  lemma StartClear(n: nat, p: Lit, low: set<Lit>, rest: seq<Lit>)
    requires Collected(rest, low) && InRange(rest, n) && p.v < n
    ensures ToClear(n, [Neg(p)] + rest, low)
  {
  }

  lemma KeepNext(p: Lit, rest: seq<Lit>, i: nat, out: seq<Lit>, marked: set<Lit>, more: set<Lit>, kept: set<Lit>)
    requires Shortening(p, rest, i, out, marked, kept) && i < |rest| && marked <= more
    ensures Shortening(p, rest, i + 1, out + [rest[i]], more, kept)
  {
    assert rest[i..] == [rest[i]] + rest[i + 1..];
    assert rest[..i + 1] == rest[..i] + [rest[i]];
    forall x | 0 <= x < |out| ensures out[x] != rest[i] {
      assert out[x] in rest[..i];
    }
  }

  lemma DropNext(p: Lit, rest: seq<Lit>, i: nat, out: seq<Lit>, marked: set<Lit>, more: set<Lit>, kept: set<Lit>)
    requires Shortening(p, rest, i, out, marked, kept) && i < |rest| && marked <= more
    ensures Shortening(p, rest, i + 1, out, more, kept - {Neg(rest[i])})
  {
    assert rest[i..] == [rest[i]] + rest[i + 1..];
    assert rest[..i + 1] == rest[..i] + [rest[i]];
    assert forall l :: Neg(Neg(l)) == l;
    forall x | i + 1 <= x < |rest| ensures Neg(rest[x]) != Neg(rest[i]) {
      assert rest[x] != rest[i];
    }
  }

  lemma FinishShortening(s: State, m: nat, seen: seq<bool>, p: Lit, low: set<Lit>, rest: seq<Lit>, out: seq<Lit>,
                         marked: set<Lit>, kept: set<Lit>)
    requires Conflicted(s, m) && Marks(s.t, s.n, seen, marked) && low <= marked && IsTrue(s.t, p)
    requires Refuted(s.f, low + {p}) && Shortening(p, rest, |rest|, out, marked, kept)
    requires ClosedUnderReasons(s.t, s.db, marked + {p}, kept)
    ensures Shortened(s, p, rest, out)
  {
    hide Conflicted, Marks, Refuted, ClosedUnderReasons, RootOK, IsTrue, AllDbEntailed, Entails;
    DbEntailed(s, m);
    MarkedAreTrue(s.t, s.n, seen, marked);
    assert rest[|rest|..] == [] && rest[..|rest|] == rest;
    MinimisedRefuted(s.t, s.db, s.f, low + {p}, marked + {p}, kept);
    forall l | l in kept ensures Neg(l) in [Neg(p)] + out {
    }
    RefutedEntails(s.f, kept, [Neg(p)] + out);
  }

  lemma DbEntailed(s: State, m: nat)
    requires Conflicted(s, m)
    ensures AllDbEntailed(s.f, s.db) && RootOK(s.t, s.f)
  {
  }

  lemma MarkedAreTrue(t: Trail, n: nat, seen: seq<bool>, marked: set<Lit>)
    requires Marks(t, n, seen, marked)
    ensures forall l :: l in marked ==> l.v < n && IsTrue(t, l) && RootEnd(t) <= t.pos[l.v]
  {
  }

  lemma MarkedExpandable(s: State, seen: seq<bool>, marked: set<Lit>, l: Lit)
    requires Marks(s.t, s.n, seen, marked) && l in marked && l.v < s.n && |s.t.vardata| == s.n
    requires s.t.vardata[l.v].reason.ByClause?
    ensures Expandable(s, l)
  {
  }

  // ccmin_mode 1: a literal goes if its reason has only marked literals and
  // literals of level 0 beside it.
  lemma BasicRedundant(s: State, m: nat, seen: seq<bool>, marked: set<Lit>, p: Lit, kept: set<Lit>, l: Lit, cr: nat)
    requires Conflicted(s, m) && |s.t.lims| > 0 && Marks(s.t, s.n, seen, marked) && Expandable(s, l)
    requires s.t.vardata[l.v].reason == ByClause(cr) && Live(s.db, cr)
    requires forall k :: (if |s.db[cr].lits| == 2 then 0 else 1) <= k < |s.db[cr].lits| ==>
               s.db[cr].lits[k].v < s.n && |seen| == s.n
               && (seen[s.db[cr].lits[k].v] || s.t.vardata[s.db[cr].lits[k].v].level == 0)
    requires ClosedUnderReasons(s.t, s.db, marked + {p}, kept)
    ensures ClosedUnderReasons(s.t, s.db, marked + {p}, kept - {l})
  {
    hide Conflicted, Base, RootOK, ClauseOK, Entails, ClosedUnderReasons, TrailOK, Marks, Refuted, IsTrue, Root,
         Implies;
    ConflictedFacts(s, m);
    ExpandableReason(s, m, l);
    MarksSize(s.t, s.n, seen, marked);
    var c := s.db[cr].lits;
    assert Implies(s.t, c, l, s.t.pos[l.v]);
    hide ReasonOK;
    BasicCovers(s.t, s.n, seen, marked, p, l, c);
    CloseDone(s.t, s.db, marked + {p}, kept, kept - {l}, l);
  }

  lemma BasicCovers(t: Trail, n: nat, seen: seq<bool>, marked: set<Lit>, p: Lit, l: Lit, c: Clause)
    requires TrailOK(t, n) && |t.lims| > 0 && |t.vardata| == n && |seen| == n && l.v < |t.pos|
             && Implies(t, c, l, t.pos[l.v])
    requires forall x :: IsTrue(t, x) && x.v < n && seen[x.v] ==> x in marked
    requires forall k :: (if |c| == 2 then 0 else 1) <= k < |c| ==>
               c[k].v < n && (seen[c[k].v] || t.vardata[c[k].v].level == 0)
    ensures Covers(t, marked + {p}, c, l)
  {
    hide TrailOK, IsTrue, Root;
    forall q | q in c && q != l ensures Neg(q) in marked + {p} || Root(t, Neg(q)) {
      var k :| 0 <= k < |c| && c[k] == q;
      LevelPosition(t, n, Neg(q));
    }
  }

  // ----------------------------- minimisation with binary clauses, and the level

  ghost function Elems(ls: seq<Lit>): set<Lit> {
    set l | l in ls
  }

  lemma {:induction false} ElemsSize(ls: seq<Lit>)
    requires NoDup(ls)
    ensures |Elems(ls)| == |ls|
  {
    if ls != [] {
      var front := ls[..|ls| - 1];
      ElemsSize(front);
      assert ls == front + [ls[|ls| - 1]];
      assert Elems(ls) == Elems(front) + {ls[|ls| - 1]};
      assert ls[|ls| - 1] !in front;
    } else {
      assert Elems(ls) == {};
    }
  }

  // Distinct literals of a segment that all lie in g are no more than g has.
  lemma SegmentSize(a: seq<Lit>, i: nat, g: set<Lit>)
    requires NoDup(a) && i <= |a| && forall x :: i <= x < |a| ==> a[x] in g
    ensures |a| - i <= |g|
  {
    var tail := a[i..];
    ElemsSize(tail);
    forall l | l in Elems(tail) ensures l in g {
      var x :| 0 <= x < |tail| && tail[x] == l;
      assert a[x + i] == l;
    }
    SubsetSize(Elems(tail), g);
  }

  // If the first part avoids g and the second has exactly as many places as g,
  // the second part is g.
  lemma SegmentIs(a: seq<Lit>, i: nat, g: set<Lit>)
    requires NoDup(a) && i <= |a| && |a| - i == |g|
    requires forall l :: l in g ==> l in a
    requires forall x :: 0 <= x < i ==> a[x] !in g
    ensures forall x :: i <= x < |a| ==> a[x] in g
  {
    var tail := a[i..];
    ElemsSize(tail);
    forall l | l in g ensures l in Elems(tail) {
      var x :| 0 <= x < |a| && a[x] == l;
      assert tail[x - i] == l;
    }
    SubsetSize(g, Elems(tail));
    forall x | i <= x < |a| ensures a[x] in g {
      assert a[x] == tail[x - i];
      assert a[x] in Elems(tail);
    }
  }

  // Exchanging two places keeps the literals and keeps them distinct.
  lemma SwapKeeps(a: seq<Lit>, i: nat, j: nat)
    requires NoDup(a) && i < |a| && j < |a|
    ensures NoDup(Swapped(a, i, j)) && forall l :: l in Swapped(a, i, j) <==> l in a
  {
    SwappedFacts(a, i, j, 0);
  }

  // All literals of c are false, distinct, above level 0, and only the first is
  // of the current level.
  ghost predicate LearntShape(s: State, c: Clause) {
    && |c| >= 1 && NoDup(c) && InRange(c, s.n)
    && (forall q :: q in c ==> IsFalse(s.t, q))
    && Current(s.t, Neg(c[0]))
    && (forall x :: 1 <= x < |c| ==> 0 < Level(s.t, c[x]) < |s.t.lims|)
  }

  // What analyze promises of the learnt clause and of out_btlevel.
  ghost predicate LearntOK(s: State, c: Clause, btlevel: nat) {
    && LearntShape(s, c)
    && Entails(s.f, c)
    && (|c| == 1 ==> btlevel == 0)
    && (|c| > 1 ==> btlevel == Level(s.t, c[1]) && forall x :: 1 <= x < |c| ==> Level(s.t, c[x]) <= btlevel)
  }

  // The literals collected by analyze have the promised shape, and so has any
  // selection of them.
  lemma SelectionShape(s: State, m: nat, seen: seq<bool>, p: Lit, low: set<Lit>, rest: seq<Lit>, out: seq<Lit>)
    requires Conflicted(s, m) && |s.t.lims| > 0 && Uip(s, seen, p, low, rest) && NoDup(out)
    requires forall q :: q in out ==> q in rest
    ensures LearntShape(s, [Neg(p)] + out)
  {
    hide Conflicted, Base, RootOK, ClauseOK, Entails, Marks, Refuted, NoDup, TrailOK, IsTrue;
    ConflictedFacts(s, m);
    MarkedAreTrue(s.t, s.n, seen, low);
    assert Neg(Neg(p)) == p;
    forall q | q in out ensures q.v < s.n && IsFalse(s.t, q) && q != Neg(p) && 0 < Level(s.t, q) < |s.t.lims| {
      assert Neg(q) in low;
      LevelPosition(s.t, s.n, Neg(q));
      assert s.t.pos[Neg(q).v] < LevelStart(s.t);
    }
    LevelPosition(s.t, s.n, p);
    ConsShape(s, p, out);
  }

  lemma ConsShape(s: State, p: Lit, out: seq<Lit>)
    requires Current(s.t, p) && p.v < s.n && NoDup(out)
    requires forall q :: q in out ==> q.v < s.n && IsFalse(s.t, q) && q != Neg(p) && 0 < Level(s.t, q) < |s.t.lims|
    ensures LearntShape(s, [Neg(p)] + out)
  {
    hide NoDup;
    var c := [Neg(p)] + out;
    assert Neg(Neg(p)) == p;
    ConsNoDup(Neg(p), out);
    forall x | 1 <= x < |c| ensures 0 < Level(s.t, c[x]) < |s.t.lims| {
      assert c[x] in out;
    }
  }

  lemma ConsNoDup(l: Lit, out: seq<Lit>)
    requires NoDup(out) && l !in out
    ensures NoDup([l] + out)
  {
  }

  // Distinct false literals have distinct variables.
  lemma ShapeDistinct(s: State, c: Clause)
    requires LearntShape(s, c)
    ensures DistinctVars(c)
  {
    forall i, j | 0 <= i < j < |c| ensures c[i].v != c[j].v {
      assert c[i] in c && c[j] in c;
      assert IsFalse(s.t, c[i]) && IsFalse(s.t, c[j]);
    }
  }

  // Reordering after place 0, or dropping literals from the end.
  lemma ShapeKept(s: State, c: Clause, d: Clause)
    requires LearntShape(s, c) && |d| >= 1 && d[0] == c[0] && NoDup(d)
    requires forall q :: q in d ==> q in c
    ensures LearntShape(s, d)
  {
    hide IsTrue, Current;
    forall x | 1 <= x < |d| ensures 0 < Level(s.t, d[x]) < |s.t.lims| {
      assert d[x] in c && d[x] != d[0];
      var y :| 0 <= y < |c| && c[y] == d[x];
    }
  }

  // flagged holds the variables of the literals of tail that are not gone.
  ghost predicate Flags(tail: seq<Lit>, flagged: set<Var>, gone: set<Lit>) {
    && (forall q :: q in gone ==> q in tail && q.v !in flagged)
    && (forall q :: q in tail && q !in gone ==> q.v in flagged)
  }

  lemma FlagsStart(tail: seq<Lit>)
    ensures Flags(tail, set q | q in tail :: q.v, {})
  {
  }

  lemma FlagsDrop(tail: seq<Lit>, flagged: set<Var>, gone: set<Lit>, q: Lit)
    requires Flags(tail, flagged, gone) && q in tail && q.v in flagged
    requires forall x, y :: x in tail && y in tail && x.v == y.v ==> x == y
    ensures q !in gone && Flags(tail, flagged - {q.v}, gone + {q})
  {
  }

  // The literal behind a flagged variable whose other literal is true.
  lemma FlaggedLiteral(s: State, n: nat, c: Clause, flagged: set<Var>, imp: Lit)
    requires TrailOK(s.t, n) && LearntShape(s, c) && imp.v in flagged && IsTrue(s.t, imp)
    requires flagged <= set q | q in c[1..] :: q.v
    ensures Neg(imp) in c[1..]
  {
    var q :| q in c[1..] && q.v == imp.v;
    assert q in c && IsFalse(s.t, q);
    assert q == Neg(imp);
  }

  lemma ShapeTail(s: State, c: Clause)
    requires LearntShape(s, c)
    ensures |c| > 0 && forall q :: q in c[1..] <==> q in c && q != c[0]
  {
    assert c == [c[0]] + c[1..];
    forall x | 0 <= x < |c[1..]| ensures c[1..][x] != c[0] {
      assert c[1..][x] == c[x + 1];
    }
  }

  lemma TailDistinct(s: State, c: Clause)
    requires LearntShape(s, c)
    ensures forall x, y :: x in c[1..] && y in c[1..] && x.v == y.v ==> x == y
  {
    forall x, y | x in c[1..] && y in c[1..] && x.v == y.v ensures x == y {
      assert x in c && y in c;
      assert IsFalse(s.t, x) && IsFalse(s.t, y);
    }
  }

  // A binary watcher under the negation of literal 0 says that the blocker holds
  // unless literal 0 does.
  lemma BinaryImplies(s: State, m: nat, l: Lit, w: Watcher)
    requires Conflicted(s, m) && l.v < s.n && w in Ws(s.bins, Neg(l))
    ensures w.blocker.v < s.n && Entails(s.f, [l, w.blocker])
  {
    hide Sound, Told, TrailOK, Settled, PendingOK, UndoOK, ToldReasons, Idle, WatchMapOK, DbOK, Entails;
    assert Neg(Neg(l)) == l;
    BinaryWatcher(s, Neg(l), w);
    assert Entails(s.f, s.db[w.cref].lits) by { DbEntailed(s, m); }
    EntailsSubset(s.f, s.db[w.cref].lits, [l, w.blocker]);
  }

  // A binary clause holds both literals.
  ghost predicate Paired(db: Db, l: Lit, x: Lit) {
    exists cr: nat :: Live(db, cr) && |db[cr].lits| == 2 && l in db[cr].lits && x in db[cr].lits && x != l
  }

  lemma PairedListed(s: State, m: nat, l: Lit, x: Lit)
    requires Conflicted(s, m) && l.v < s.n
    ensures Paired(s.db, l, x) <==> exists k :: 0 <= k < |Ws(s.bins, Neg(l))| && Ws(s.bins, Neg(l))[k].blocker == x
  {
    hide Watched, DbOK, WatchMapOK, Conflicted;
    BinsWatched(s, m);
    var ws := Ws(s.bins, Neg(l));
    assert Neg(Neg(l)) == l;
    if Paired(s.db, l, x) {
      var cr: nat :| Live(s.db, cr) && |s.db[cr].lits| == 2 && l in s.db[cr].lits && x in s.db[cr].lits && x != l;
      PairWatched(s.db, s.bins, s.n, cr, l, x);
    }
    if k :| 0 <= k < |ws| && ws[k].blocker == x {
      BinaryWatcher(s, Neg(l), ws[k]);
    }
  }

  lemma BinsWatched(s: State, m: nat)
    requires Conflicted(s, m)
    ensures Watched(s) && DbOK(s.db, s.n) && WatchMapOK(s.db, s.bins, s.n, false)
  {
    hide WatchMapOK, DbOK, Sound, Told, TrailOK, PendingOK, UndoOK, ToldReasons, Idle, LevelStart;
  }

  // A binary clause is found under the negation of either literal.
  lemma PairWatched(db: Db, bins: WatchMap, n: nat, cr: nat, l: Lit, x: Lit)
    requires DbOK(db, n) && WatchMapOK(db, bins, n, false) && l.v < n
    requires Live(db, cr) && |db[cr].lits| == 2 && l in db[cr].lits && x in db[cr].lits && x != l
    ensures exists k :: 0 <= k < |Ws(bins, Neg(l))| && Ws(bins, Neg(l))[k].blocker == x
  {
    hide ClauseOK;
    var ws, c := Ws(bins, Neg(l)), db[cr].lits;
    assert Neg(Neg(l)) == l && c == [c[0], c[1]];
    assert WatchedTwice(db, bins, cr) && Listed(ws, cr);
    assert ListOK(db, Neg(l), ws, false);
    var k :| 0 <= k < |ws| && ws[k].cref == cr;
    assert WatcherOK(db, Neg(l), ws[k], false);
  }

  // The first k watchers have been worked off: gone are the literals whose negation
  // they name.
  ghost predicate Found(tail: seq<Lit>, ws: seq<Watcher>, k: nat, gone: set<Lit>) {
    forall q :: q in gone <==> q in tail && Names(ws, k, Neg(q))
  }

  ghost predicate Names(ws: seq<Watcher>, k: nat, x: Lit) {
    exists i :: 0 <= i < k && i < |ws| && ws[i].blocker == x
  }

  lemma FoundNone(tail: seq<Lit>, ws: seq<Watcher>)
    ensures Found(tail, ws, 0, {})
  {
  }

  lemma NamesNext(ws: seq<Watcher>, k: nat, x: Lit)
    requires k < |ws|
    ensures Names(ws, k + 1, x) <==> Names(ws, k, x) || ws[k].blocker == x
  {
  }

  // One watcher more.
  lemma FoundNext(tail: seq<Lit>, ws: seq<Watcher>, k: nat, gone: set<Lit>)
    requires Found(tail, ws, k, gone) && k < |ws|
    ensures Neg(ws[k].blocker) in tail ==> Found(tail, ws, k + 1, gone + {Neg(ws[k].blocker)})
    ensures Neg(ws[k].blocker) !in tail || Neg(ws[k].blocker) in gone ==> Found(tail, ws, k + 1, gone)
  {
    hide Names;
    forall q: Lit
      ensures Neg(Neg(q)) == q && (Names(ws, k + 1, Neg(q)) <==> Names(ws, k, Neg(q)) || ws[k].blocker == Neg(q))
    {
      NamesNext(ws, k, Neg(q));
    }
  }

  // The variable of the other literal is flagged exactly if it is in the clause and has
  // not been found before.
  lemma FlaggedExactly(s: State, n: nat, c: Clause, flagged: set<Var>, gone: set<Lit>, imp: Lit)
    requires TrailOK(s.t, n) && LearntShape(s, c) && Flags(c[1..], flagged, gone) && imp.v < n
    requires flagged <= set q | q in c[1..] :: q.v
    ensures imp.v in flagged && IsTrue(s.t, imp) <==> Neg(imp) in c[1..] && Neg(imp) !in gone
  {
    if imp.v in flagged && IsTrue(s.t, imp) {
      FlaggedLiteral(s, n, c, flagged, imp);
      assert Neg(imp) in c && IsFalse(s.t, Neg(imp));
    }
    if Neg(imp) in c[1..] && Neg(imp) !in gone {
      assert Neg(imp) in c && IsFalse(s.t, Neg(imp)) && Neg(Neg(imp)) == imp;
    }
  }

  lemma AllFound(s: State, m: nat, c: Clause, gone: set<Lit>)
    requires Conflicted(s, m) && |c| > 0 && c[0].v < s.n
    requires Found(c[1..], Ws(s.bins, Neg(c[0])), |Ws(s.bins, Neg(c[0]))|, gone)
    ensures forall q :: q in gone <==> q in c[1..] && Paired(s.db, c[0], Neg(q))
  {
    hide Conflicted, Paired;
    forall q ensures q in gone <==> q in c[1..] && Paired(s.db, c[0], Neg(q)) {
      PairedListed(s, m, c[0], Neg(q));
    }
  }

  // Half-way through the moving loop: the places below i are staying, those
  // above l are going.
  ghost predicate Moving(c: Clause, a: Clause, gone: set<Lit>, i: nat, l: int) {
    && |a| == |c| >= 1 && NoDup(a) && a[0] == c[0]
    && (forall q :: q in a <==> q in c)
    && 1 <= i && 0 <= l < |a|
    && (forall x :: 1 <= x < i && x < |a| ==> a[x] !in gone)
    && (forall x :: l < x < |a| ==> a[x] in gone)
    && (forall q :: q in gone ==> q in c && q != c[0])
  }

  lemma MoveOne(c: Clause, a: Clause, gone: set<Lit>, i: nat, l: int)
    requires Moving(c, a, gone, i, l) && i < |a| - |gone| && a[i] in gone
    ensures i < l && Moving(c, Swapped(a, i, l), gone, i, l - 1)
  {
    SegmentSize(a, l + 1, gone);
    if l <= i {
      forall x | i <= x < |a| ensures a[x] in gone {
      }
      SegmentSize(a, i, gone);
    }
    SwapKeeps(a, i, l);
  }

  lemma MoveDone(c: Clause, a: Clause, gone: set<Lit>, i: nat, l: int)
    requires Moving(c, a, gone, i, l) && i == |a| - |gone|
    ensures forall q :: q in c && q !in a[..i] ==> q in gone
    ensures forall q :: q in a[..i] ==> q !in gone
    ensures NoDup(a[..i]) && forall q :: q in a[..i] ==> q in c
    ensures |a[..i]| >= 1 && |c| >= 1 && a[..i][0] == c[0]
  {
    forall x | 0 <= x < i ensures a[x] !in gone {
    }
    SegmentIs(a, i, gone);
    assert a == a[..i] + a[i..];
    forall q | q in c ensures q in a[..i] || q in gone {
      var x :| 0 <= x < |a| && a[x] == q;
      if x < i {
        assert a[..i][x] == q;
      }
    }
  }

  lemma ShapeFirst(s: State, c: Clause)
    requires LearntShape(s, c)
    ensures |c| >= 1 && c[0].v < s.n && c[0] in c && NoDup(c)
  {
  }

  lemma StartMoving(c: Clause, flagged: set<Var>, gone: set<Lit>)
    requires |c| >= 1 && NoDup(c) && Flags(c[1..], flagged, gone)
    ensures Moving(c, c, gone, 1, |c| - 1) && |gone| <= |c| - 1
  {
    forall q | q in gone ensures q in c && q != c[0] {
      assert q in c[1..];
      var x :| 0 <= x < |c[1..]| && c[1..][x] == q;
      assert c[x + 1] == q;
    }
    TailSize(c, gone);
  }

  lemma TailSize(c: Clause, gone: set<Lit>)
    requires |c| >= 1 && NoDup(c) && forall q :: q in gone ==> q in c[1..]
    ensures |gone| <= |c| - 1
  {
    forall l | l in gone ensures l in Elems(c[1..]) {
    }
    ElemsSize(c[1..]);
    SubsetSize(gone, Elems(c[1..]));
  }

  lemma FlagsSay(c: Clause, a: Clause, flagged: set<Var>, gone: set<Lit>, i: nat, l: int)
    requires Moving(c, a, gone, i, l) && Flags(c[1..], flagged, gone) && i < |a|
    ensures a[i].v !in flagged <==> a[i] in gone
  {
    assert c == [c[0]] + c[1..];
    assert a[i] in c && a[i] != a[0];
    assert a[i] in c[1..];
  }

  lemma StayOne(c: Clause, a: Clause, gone: set<Lit>, i: nat, l: int)
    requires Moving(c, a, gone, i, l) && i < |a| && a[i] !in gone
    ensures Moving(c, a, gone, i + 1, l)
  {
  }

  lemma CutShape(s: State, c: Clause, d: Clause, gone: set<Lit>)
    requires LearntShape(s, c) && Entails(s.f, c) && |d| >= 1 && d[0] == c[0] && NoDup(d)
    requires forall q :: q in d ==> q in c
    requires forall q :: q in c && q !in d ==> q in gone
    requires forall q :: q in gone ==> Entails(s.f, [c[0], Neg(q)])
    ensures LearntShape(s, d) && Entails(s.f, d)
  {
    hide LearntShape, Entails;
    ShapeKept(s, c, d);
    BinaryEntails(s.f, c, d);
  }

  // place k of c has the highest level from 1 on.
  ghost predicate Highest(s: State, c: Clause, k: nat, upto: nat) {
    1 <= k < |c| && upto <= |c| && forall x :: 1 <= x < upto ==> Level(s.t, c[x]) <= Level(s.t, c[k])
  }

  lemma ShapeLevels(s: State, m: nat, c: Clause)
    requires Conflicted(s, m) && LearntShape(s, c)
    ensures |s.t.vardata| == s.n && InRange(c, s.n) && NoDup(c)
    ensures forall x :: 0 <= x < |c| ==> c[x].v < s.n && s.t.vardata[c[x].v].level == Level(s.t, c[x])
  {
    hide Conflicted, Base, RootOK, ClauseOK, Entails, TrailOK, IsTrue, Current;
    ConflictedFacts(s, m);
    forall x | 0 <= x < |c| ensures c[x].v < s.n {
      assert c[x] in c;
    }
  }

  lemma SwapHighest(s: State, c: Clause, k: nat)
    requires LearntShape(s, c) && Entails(s.f, c) && Highest(s, c, k, |c|)
    ensures LearntOK(s, Swapped(c, k, 1), Level(s.t, c[k]))
    ensures forall q :: q in Swapped(c, k, 1) <==> q in c
  {
    hide IsTrue, Current, Entails, Level;
    SwapKeeps(c, k, 1);
    ShapeKept(s, c, Swapped(c, k, 1));
    EntailsSubset(s.f, c, Swapped(c, k, 1));
  }

  lemma UnitLearnt(s: State, c: Clause)
    requires LearntShape(s, c) && Entails(s.f, c) && |c| == 1
    ensures LearntOK(s, c, 0)
  {
  }

  // Nothing is marked once the variables of analyze_toclear have been cleared.
  lemma AllCleared(t: Trail, n: nat, seen: seq<bool>, marked: set<Lit>, toclear: seq<Lit>, now: seq<bool>)
    requires TrailOK(t, n) && Marks(t, n, seen, marked) && ToClear(n, toclear, marked) && |now| == |seen|
    requires forall v :: 0 <= v < |seen| ==>
               (now[v] <==> seen[v] && !exists x :: 0 <= x < |toclear| && toclear[x].v == v)
    ensures Clear(now)
  {
    forall v | 0 <= v < |now| ensures !now[v] {
      if seen[v] {
        var l := t.lits[t.pos[v]];
        assert IsTrue(t, l) && l in marked;
        assert Neg(l) in toclear;
        var x :| 0 <= x < |toclear| && toclear[x] == Neg(l);
        assert toclear[x].v == v;
      }
    }
  }

  lemma ClearRange(n: nat, toclear: seq<Lit>, marked: set<Lit>)
    requires ToClear(n, toclear, marked)
    ensures forall x :: 0 <= x < |toclear| ==> toclear[x].v < n
  {
    forall x | 0 <= x < |toclear| ensures toclear[x].v < n {
      assert toclear[x] in toclear;
    }
  }
}
