// Which literals of the learnt clause are redundant, and what litRedundant finds out.
module Redundancy {
  import opened Logic
  import opened Trails
  import opened Watching
  import opened States
  import opened Reasons
  import opened Analysis
  import opened Minimising

  // Variable u occurs beside v in the clause that implied v.
  ghost predicate Behind(t: Trail, db: Db, v: Var, u: Var) {
    && v < |t.vardata| && t.vardata[v].reason.ByClause? && t.vardata[v].reason.cr < |db| && u != v
    && VarIn(db[t.vardata[v].reason.cr].lits, u)
  }

  ghost predicate Unmarked(t: Trail, seen: seq<bool>, v: Var) {
    v < |seen| && !seen[v] && v < |t.vardata| && t.vardata[v].level > 0
  }

  // Implied by a clause, on a level that agrees modulo 32 with one of the learnt clause.
  ghost predicate Passes(t: Trail, levels: set<nat>, v: Var) {
    v < |t.vardata| && t.vardata[v].reason.ByClause? && t.vardata[v].level % 32 in levels
  }

  // A way back through clause reasons, over variables that are not marked.
  ghost predicate Way(t: Trail, db: Db, seen: seq<bool>, w: seq<Var>) {
    && |w| > 1
    && (forall i :: 0 <= i < |w| - 1 ==> Behind(t, db, w[i], w[i + 1]))
    && forall i :: 0 < i < |w| - 1 ==> Unmarked(t, seen, w[i])
  }

  // Some way back from v meets a variable that is not marked, not of level 0, and
  // does not pass.
  ghost predicate Blocked(t: Trail, db: Db, seen: seq<bool>, levels: set<nat>, v: Var) {
    exists w :: Way(t, db, seen, w) && w[0] == v
                && Unmarked(t, seen, w[|w| - 1]) && !Passes(t, levels, w[|w| - 1])
  }

  ghost predicate SameClause(r: ClauseRec, s: ClauseRec) {
    |r.lits| == |s.lits| && r.deleted == s.deleted && forall l :: l in r.lits <==> l in s.lits
  }

  // The order of the literals in the clauses does not matter.
  ghost predicate SameClauses(db: Db, e: Db) {
    |db| == |e| && forall cr :: 0 <= cr < |db| ==> SameClause(db[cr], e[cr])
  }

  lemma SameClausesTrans(db: Db, e: Db, g: Db)
    requires SameClauses(db, e) && SameClauses(e, g)
    ensures SameClauses(db, g)
  {
    forall cr | 0 <= cr < |db| ensures SameClause(db[cr], g[cr]) {
      assert SameClause(db[cr], e[cr]) && SameClause(e[cr], g[cr]);
    }
  }

  lemma SameClausesSelf(db: Db)
    ensures SameClauses(db, db)
  {
  }

  // OrientReason exchanges the literals of a binary clause, or nothing.
  lemma SameOriented(db: Db, e: Db, g: Db, cr: nat)
    requires SameClauses(db, e)
    requires e == g || (cr < |e| && |e[cr].lits| == 2 && g == SwapLits(e, cr, 0, 1))
    ensures SameClauses(db, g)
  {
    hide SameClauses;
    if e != g {
      SwapSameClauses(e, cr);
      SameClausesTrans(db, e, g);
    }
  }

  lemma SwapSameClauses(db: Db, cr: nat)
    requires cr < |db| && |db[cr].lits| == 2
    ensures SameClauses(db, SwapLits(db, cr, 0, 1))
  {
    SwappedFacts(db[cr].lits, 0, 1, 0);
  }

  lemma BehindSame(t: Trail, db: Db, e: Db, v: Var, u: Var)
    requires SameClauses(db, e)
    ensures Behind(t, db, v, u) <==> Behind(t, e, v, u)
  {
    if v < |t.vardata| && t.vardata[v].reason.ByClause? && t.vardata[v].reason.cr < |db| {
      assert SameClause(db[t.vardata[v].reason.cr], e[t.vardata[v].reason.cr]);
    }
  }

  lemma BlockedSame(t: Trail, db: Db, e: Db, seen: seq<bool>, levels: set<nat>, v: Var)
    requires SameClauses(db, e)
    ensures Blocked(t, db, seen, levels, v) <==> Blocked(t, e, seen, levels, v)
  {
    hide Behind, Unmarked, Passes;
    forall v, u ensures Behind(t, db, v, u) <==> Behind(t, e, v, u) {
      BehindSame(t, db, e, v, u);
    }
    hide SameClauses;
    forall w ensures Way(t, db, seen, w) <==> Way(t, e, seen, w) {
    }
  }

  // ------------------------------------------------------ the walk of litRedundant

  ghost predicate Reached(t: Trail, db: Db, seen: seq<bool>, start: Var, v: Var) {
    exists w :: Way(t, db, seen, w) && w[0] == start && w[|w| - 1] == v
  }

  // The walk has met start and the variables of todo + done, and looked behind those
  // of done; seen0 are the marks it started with.
  ghost predicate Walking(t: Trail, db: Db, seen0: seq<bool>, seen: seq<bool>, levels: set<nat>, start: Var,
                          todo: set<Var>, done: set<Var>) {
    && |seen| == |seen0| && start in todo + done
    && (forall v :: v in todo + done && v != start ==> Met(t, db, seen0, levels, start, v))
    && (forall v :: 0 <= v < |seen| ==> (seen0[v] ==> seen[v]) && (seen[v] ==> seen0[v] || v in todo + done))
    && forall v, u :: v in done && Behind(t, db, v, u) ==> !Unmarked(t, seen, u)
  }

  ghost predicate Met(t: Trail, db: Db, seen0: seq<bool>, levels: set<nat>, start: Var, v: Var) {
    Unmarked(t, seen0, v) && Passes(t, levels, v) && Reached(t, db, seen0, start, v)
  }

  lemma StartWalking(t: Trail, db: Db, seen: seq<bool>, levels: set<nat>, start: Var)
    ensures Walking(t, db, seen, seen, levels, start, {start}, {})
  {
  }

  lemma ReachedNext(t: Trail, db: Db, seen: seq<bool>, start: Var, v: Var, u: Var)
    requires v == start || (Unmarked(t, seen, v) && Reached(t, db, seen, start, v))
    requires Behind(t, db, v, u)
    ensures Reached(t, db, seen, start, u)
  {
    hide Behind, Unmarked;
    if v == start {
      assert Way(t, db, seen, [start, u]);
    } else {
      var w :| Way(t, db, seen, w) && w[0] == start && w[|w| - 1] == v;
      var x := w + [u];
      assert Way(t, db, seen, x);
    }
  }

  // What the literals of clause c from place 1 to x do to the marks: found are those
  // pushed.
  ghost predicate Looking(t: Trail, c: Clause, x: nat, before: seq<bool>, after: seq<bool>, levels: set<nat>,
                          found: seq<Lit>) {
    && |after| == |before| && 1 <= x <= |c|
    && (forall y :: y in found ==> y in c[1..] && Unmarked(t, before, y.v) && Passes(t, levels, y.v))
    && (forall v :: 0 <= v < |before| ==> (after[v] <==> before[v] || VarIn(found, v)))
    && forall z :: 1 <= z < x ==> !Unmarked(t, after, c[z].v)
  }

  // A literal of the clause after the first does not pass.
  ghost predicate Stuck(t: Trail, c: Clause, seen: seq<bool>, levels: set<nat>) {
    |c| > 0 && exists l :: l in c[1..] && Unmarked(t, seen, l.v) && !Passes(t, levels, l.v)
  }

  lemma StartLooking(t: Trail, c: Clause, seen: seq<bool>, levels: set<nat>)
    requires |c| > 0
    ensures Looking(t, c, 1, seen, seen, levels, [])
  {
  }

  lemma LookPast(t: Trail, c: Clause, x: nat, before: seq<bool>, after: seq<bool>, levels: set<nat>, found: seq<Lit>)
    requires Looking(t, c, x, before, after, levels, found) && x < |c| && !Unmarked(t, after, c[x].v)
    ensures Looking(t, c, x + 1, before, after, levels, found)
  {
    hide Unmarked, Passes, VarIn;
  }

  lemma LookAt(t: Trail, c: Clause, x: nat, before: seq<bool>, after: seq<bool>, levels: set<nat>, found: seq<Lit>)
    requires Looking(t, c, x, before, after, levels, found) && 1 <= x < |c|
    requires Unmarked(t, after, c[x].v) && Passes(t, levels, c[x].v)
    ensures Looking(t, c, x + 1, before, after[c[x].v := true], levels, found + [c[x]])
  {
    hide Passes;
    var y, now := c[x], after[c[x].v := true];
    assert c[1..][x - 1] == y;
    assert !before[y.v];
    assert y in found + [y];
    forall v | 0 <= v < |before| ensures now[v] <==> before[v] || VarIn(found + [y], v) {
      if VarIn(found, v) {
        var l :| l in found && l.v == v;
        assert l in found + [y];
      }
    }
    forall z | 1 <= z < x + 1 ensures !Unmarked(t, now, c[z].v) {
      assert z < x ==> !Unmarked(t, after, c[z].v);
    }
  }

  lemma LookStuck(t: Trail, c: Clause, x: nat, before: seq<bool>, after: seq<bool>, levels: set<nat>, found: seq<Lit>)
    requires Looking(t, c, x, before, after, levels, found) && 1 <= x < |c|
    requires Unmarked(t, after, c[x].v) && !Passes(t, levels, c[x].v)
    ensures Stuck(t, c, before, levels)
  {
    assert c[1..][x - 1] == c[x];
    assert Unmarked(t, before, c[x].v);
  }

  // Clause c is the one behind v, its first literal that of v.
  ghost predicate BehindIs(t: Trail, db: Db, v: Var, c: Clause) {
    |c| >= 1 && forall u :: Behind(t, db, v, u) <==> VarIn(c[1..], u)
  }

  lemma ReasonBehind(s: State, m: nat, i: nat, cr: nat)
    requires Conflicted(s, m) && ClauseExplains(s, i, cr) && s.t.lits[i].v < |s.t.vardata|
    requires s.t.vardata[s.t.lits[i].v].reason == ByClause(cr)
    ensures BehindIs(s.t, s.db, s.t.lits[i].v, s.db[cr].lits)
  {
    hide Conflicted, ClauseOK, Base, Entails;
    ConflictedFacts(s, m);
    var c, v := s.db[cr].lits, s.t.lits[i].v;
    forall l | l in c[1..] ensures l in c && l.v != v {
      var x :| 0 <= x < |c[1..]| && c[1..][x] == l;
      assert c[x + 1] == l && TrueBefore(s.t, Neg(l), i);
    }
    forall l | l in c && l.v != v ensures l in c[1..] {
      var x :| 0 <= x < |c| && c[x] == l;
      assert c[1..][x - 1] == l;
    }
  }

  lemma BehindIsSame(t: Trail, db: Db, e: Db, v: Var, c: Clause)
    requires SameClauses(db, e) && BehindIs(t, e, v, c)
    ensures BehindIs(t, db, v, c)
  {
    hide Behind, VarIn, SameClauses;
    forall u ensures Behind(t, db, v, u) <==> Behind(t, e, v, u) {
      BehindSame(t, db, e, v, u);
    }
  }

  lemma OrientedBehind(db: Db, was: Db, s: State, m: nat, i: nat, cr: nat)
    requires Conflicted(s, m) && ClauseExplains(s, i, cr) && s.t.lits[i].v < |s.t.vardata|
    requires s.t.vardata[s.t.lits[i].v].reason == ByClause(cr) && SameClauses(db, was)
    requires was == s.db || (Live(was, cr) && |was[cr].lits| == 2 && s.db == SwapLits(was, cr, 0, 1))
    ensures SameClauses(db, s.db) && BehindIs(s.t, db, s.t.lits[i].v, s.db[cr].lits)
  {
    hide Conflicted, SameClauses, BehindIs;
    SameOriented(db, was, s.db, cr);
    ReasonBehind(s, m, i, cr);
    BehindIsSame(s.t, db, s.db, s.t.lits[i].v, s.db[cr].lits);
  }

  lemma VarsParts(a: seq<Lit>, b: seq<Lit>)
    ensures VarsOf(a + b) == VarsOf(a) + VarsOf(b)
  {
    forall v | v in VarsOf(a) ensures v in VarsOf(a + b) {
      var l :| l in a && l.v == v;
      assert l in a + b;
    }
    forall v | v in VarsOf(b) ensures v in VarsOf(a + b) {
      var l :| l in b && l.v == v;
      assert l in a + b;
    }
  }

  lemma VarsNone()
    ensures VarsOf([]) == {}
  {
  }

  lemma MarkedSeen(t: Trail, n: nat, seen: seq<bool>, marked: set<Lit>, q: Lit)
    requires Marks(t, n, seen, marked) && Neg(q) in marked
    ensures q.v < |seen| && seen[q.v]
  {
  }

  lemma VarsOne(y: Lit)
    ensures VarsOf([y]) == {y.v}
  {
    assert y in [y];
  }

  // The reason of v has been looked at to the end.
  lemma WalkOn(t: Trail, db: Db, seen0: seq<bool>, before: seq<bool>, after: seq<bool>, levels: set<nat>, start: Var,
               todo: set<Var>, done: set<Var>, v: Var, c: Clause, found: seq<Lit>)
    requires Walking(t, db, seen0, before, levels, start, todo + {v}, done) && BehindIs(t, db, v, c)
    requires Looking(t, c, |c|, before, after, levels, found)
    ensures Walking(t, db, seen0, after, levels, start, todo + VarsOf(found), done + {v})
  {
    hide Behind, Reached, Passes;
    var todo', done' := todo + VarsOf(found), done + {v};
    forall u | u in todo' + done' && u != start ensures Met(t, db, seen0, levels, start, u) {
      if u in VarsOf(found) {
        FoundMet(t, db, seen0, before, after, levels, start, todo, done, v, c, found, u);
      }
    }
    forall u | 0 <= u < |after| ensures (seen0[u] ==> after[u]) && (after[u] ==> seen0[u] || u in todo' + done') {
      assert VarIn(found, u) <==> u in VarsOf(found);
    }
    forall x, u | x in done' && Behind(t, db, x, u) ensures !Unmarked(t, after, u) {
      if x == v {
        assert VarIn(c[1..], u);
        var l :| l in c[1..] && l.v == u;
        var z :| 0 <= z < |c[1..]| && c[1..][z] == l;
        assert c[z + 1] == l;
      } else {
        assert !Unmarked(t, before, u);
      }
    }
  }

  lemma FoundMet(t: Trail, db: Db, seen0: seq<bool>, before: seq<bool>, after: seq<bool>, levels: set<nat>, start: Var,
                 todo: set<Var>, done: set<Var>, v: Var, c: Clause, found: seq<Lit>, u: Var)
    requires Walking(t, db, seen0, before, levels, start, todo + {v}, done) && BehindIs(t, db, v, c)
    requires Looking(t, c, |c|, before, after, levels, found) && u in VarsOf(found)
    ensures Met(t, db, seen0, levels, start, u)
  {
    hide Behind, Reached, Passes;
    var y :| y in found && y.v == u;
    assert VarIn(c[1..], u);
    assert v in todo + {v} + done;
    ReachedNext(t, db, seen0, start, v, u);
  }

  // A literal behind v does not pass: the start is blocked.
  lemma WalkStuck(t: Trail, db: Db, seen0: seq<bool>, before: seq<bool>, levels: set<nat>, start: Var,
                  todo: set<Var>, done: set<Var>, v: Var, c: Clause)
    requires Walking(t, db, seen0, before, levels, start, todo + {v}, done) && BehindIs(t, db, v, c)
    requires Stuck(t, c, before, levels)
    ensures Blocked(t, db, seen0, levels, start)
  {
    hide Behind, Reached, Passes, Way;
    var l :| l in c[1..] && Unmarked(t, before, l.v) && !Passes(t, levels, l.v);
    assert VarIn(c[1..], l.v);
    assert v in todo + {v} + done;
    ReachedNext(t, db, seen0, start, v, l.v);
    ReachedBlocked(t, db, seen0, levels, start, l.v);
  }

  lemma ReachedBlocked(t: Trail, db: Db, seen: seq<bool>, levels: set<nat>, start: Var, u: Var)
    requires Reached(t, db, seen, start, u) && Unmarked(t, seen, u) && !Passes(t, levels, u)
    ensures Blocked(t, db, seen, levels, start)
  {
    hide Behind, Unmarked, Passes;
    var w :| Way(t, db, seen, w) && w[0] == start && w[|w| - 1] == u;
  }

  // The same for the stack: y was on its top, and before is what was below.
  lemma StepOn(t: Trail, db: Db, seen0: seq<bool>, seen1: seq<bool>, seen2: seq<bool>, levels: set<nat>, start: Var,
               before: seq<Lit>, done: set<Var>, y: Lit, c: Clause, after: seq<Lit>)
    requires Walking(t, db, seen0, seen1, levels, start, VarsOf(before + [y]), done) && BehindIs(t, db, y.v, c)
    requires before <= after && Looking(t, c, |c|, seen1, seen2, levels, after[|before|..])
    ensures Walking(t, db, seen0, seen2, levels, start, VarsOf(after), done + {y.v})
  {
    hide Walking, BehindIs, Looking, VarsOf;
    var found := after[|before|..];
    VarsParts(before, [y]);
    VarsOne(y);
    WalkOn(t, db, seen0, seen1, seen2, levels, start, VarsOf(before), done, y.v, c, found);
    VarsParts(before, found);
    assert after == before + found;
  }

  lemma StepStuck(t: Trail, db: Db, seen0: seq<bool>, seen1: seq<bool>, levels: set<nat>, start: Var,
                  before: seq<Lit>, done: set<Var>, y: Lit, c: Clause)
    requires Walking(t, db, seen0, seen1, levels, start, VarsOf(before + [y]), done) && BehindIs(t, db, y.v, c)
    requires Stuck(t, c, seen1, levels)
    ensures Blocked(t, db, seen0, levels, start)
  {
    hide Walking, BehindIs, Stuck, VarsOf, Blocked;
    VarsParts(before, [y]);
    VarsOne(y);
    WalkStuck(t, db, seen0, seen1, levels, start, VarsOf(before), done, y.v, c);
  }

  lemma TopAgain(ls: seq<Lit>)
    requires ls != []
    ensures ls == ls[..|ls| - 1] + [ls[|ls| - 1]]
  {
  }

  // The walk stays among the variables it has looked behind.
  lemma {:induction false} WayStays(t: Trail, db: Db, seen0: seq<bool>, seen: seq<bool>, levels: set<nat>, start: Var,
                                    done: set<Var>, w: seq<Var>, i: nat)
    requires Walking(t, db, seen0, seen, levels, start, {}, done)
    requires Way(t, db, seen0, w) && w[0] in done && i < |w| && (i == |w| - 1 ==> Unmarked(t, seen0, w[i]))
    ensures w[i] in done
  {
    hide Behind, Met;
    if i > 0 {
      WayStays(t, db, seen0, seen, levels, start, done, w, i - 1);
      assert Behind(t, db, w[i - 1], w[i]);
      assert Unmarked(t, seen0, w[i]) && !Unmarked(t, seen, w[i]);
    }
  }

  // Nothing is left to look behind: no variable the walk has met is blocked.
  lemma WalkEnds(t: Trail, db: Db, seen0: seq<bool>, seen: seq<bool>, levels: set<nat>, start: Var, done: set<Var>)
    requires Walking(t, db, seen0, seen, levels, start, {}, done) && start < |seen0| && seen0[start]
    ensures !Blocked(t, db, seen0, levels, start)
    ensures Harmless(t, db, seen0, seen, levels)
  {
    hide Behind, Reached;
    forall v | v in done ensures !Blocked(t, db, seen0, levels, v) {
      forall w | Way(t, db, seen0, w) && w[0] == v && Unmarked(t, seen0, w[|w| - 1])
        ensures Passes(t, levels, w[|w| - 1])
      {
        WayStays(t, db, seen0, seen, levels, start, done, w, |w| - 1);
        assert w[|w| - 1] != start;
        assert Met(t, db, seen0, levels, start, w[|w| - 1]);
      }
    }
    assert start in done;
    forall v | 0 <= v < |seen| && seen[v] && !seen0[v]
      ensures Passes(t, levels, v) && !Blocked(t, db, seen0, levels, v)
    {
      assert v in done;
    }
  }

  // ------------------------------------------------------ marks that change nothing

  // The marks of a successful attempt stay, on variables that are not blocked.
  ghost predicate Harmless(t: Trail, db: Db, seen0: seq<bool>, seen: seq<bool>, levels: set<nat>) {
    && |seen| == |seen0|
    && (forall v :: 0 <= v < |seen| && seen0[v] ==> seen[v])
    && forall v: nat :: v < |seen| && seen[v] && !seen0[v] ==>
         Passes(t, levels, v) && !Blocked(t, db, seen0, levels, v)
  }

  lemma HarmlessSelf(t: Trail, db: Db, seen: seq<bool>, levels: set<nat>)
    ensures Harmless(t, db, seen, seen, levels)
  {
  }

  // They do not change what is blocked.
  lemma HarmlessKeeps(t: Trail, db: Db, seen0: seq<bool>, seen: seq<bool>, levels: set<nat>, v: Var)
    requires Harmless(t, db, seen0, seen, levels)
    ensures Blocked(t, db, seen, levels, v) <==> Blocked(t, db, seen0, levels, v)
  {
    hide Behind, Passes;
    if Blocked(t, db, seen, levels, v) {
      var w :| Way(t, db, seen, w) && w[0] == v && Unmarked(t, seen, w[|w| - 1]) && !Passes(t, levels, w[|w| - 1]);
      assert forall x :: Unmarked(t, seen, x) ==> Unmarked(t, seen0, x);
      assert Way(t, db, seen0, w);
    }
    if Blocked(t, db, seen0, levels, v) {
      var w :| Way(t, db, seen0, w) && w[0] == v && Unmarked(t, seen0, w[|w| - 1]) && !Passes(t, levels, w[|w| - 1]);
      WayAvoids(t, db, seen0, seen, levels, w);
    }
  }

  lemma WayTail(t: Trail, db: Db, seen: seq<bool>, w: seq<Var>, i: nat)
    requires Way(t, db, seen, w) && i < |w| - 1
    ensures Way(t, db, seen, w[i..])
  {
    hide Behind, Unmarked;
    var x := w[i..];
    forall j | 0 <= j < |x| - 1 ensures Behind(t, db, x[j], x[j + 1]) {
      assert x[j] == w[i + j] && x[j + 1] == w[(i + j) + 1];
    }
    forall j | 0 < j < |x| - 1 ensures Unmarked(t, seen, x[j]) {
      assert x[j] == w[i + j];
    }
  }

  // A way that ends badly does not lead over harmless marks.
  lemma WayAvoids(t: Trail, db: Db, seen0: seq<bool>, seen: seq<bool>, levels: set<nat>, w: seq<Var>)
    requires Harmless(t, db, seen0, seen, levels) && Way(t, db, seen0, w)
    requires Unmarked(t, seen0, w[|w| - 1]) && !Passes(t, levels, w[|w| - 1])
    ensures Way(t, db, seen, w) && Unmarked(t, seen, w[|w| - 1])
  {
    hide Behind, Passes;
    forall i | 0 < i < |w| - 1 ensures Unmarked(t, seen, w[i]) {
      var x := w[i..];
      WayTail(t, db, seen0, w, i);
      assert Blocked(t, db, seen0, levels, w[i]);
      assert Unmarked(t, seen0, w[i]);
    }
  }

  lemma HarmlessTrans(t: Trail, db: Db, seen0: seq<bool>, seen1: seq<bool>, seen2: seq<bool>, levels: set<nat>)
    requires Harmless(t, db, seen0, seen1, levels) && Harmless(t, db, seen1, seen2, levels)
    ensures Harmless(t, db, seen0, seen2, levels)
  {
    hide Blocked, Passes;
    forall v: nat | v < |seen2| && seen2[v] && !seen0[v]
      ensures Passes(t, levels, v) && !Blocked(t, db, seen0, levels, v)
    {
      HarmlessKeeps(t, db, seen0, seen1, levels, v);
    }
  }

  // ------------------------------------------------------ what minimisation leaves

  // Literal q of the learnt clause stays: ccmin_mode 2 is recursive, 1 looks at one
  // reason, and any other drops nothing.
  ghost predicate Stays(t: Trail, db: Db, seen: seq<bool>, mode: nat, levels: set<nat>, v: Var) {
    || v >= |t.vardata| || !t.vardata[v].reason.ByClause?
    || if mode == 2 then Blocked(t, db, seen, levels, v)
       else if mode == 1 then exists u :: Behind(t, db, v, u) && Unmarked(t, seen, u)
       else true
  }

  ghost function Left(t: Trail, db: Db, seen: seq<bool>, mode: nat, levels: set<nat>, rest: seq<Lit>): seq<Lit> {
    if rest == [] then []
    else
      var q := rest[|rest| - 1];
      Left(t, db, seen, mode, levels, rest[..|rest| - 1])
        + if Stays(t, db, seen, mode, levels, q.v) then [q] else []
  }

  lemma {:induction false} LeftSame(t: Trail, db: Db, e: Db, seen: seq<bool>, mode: nat, levels: set<nat>,
                                    rest: seq<Lit>)
    requires SameClauses(db, e)
    ensures Left(t, e, seen, mode, levels, rest) == Left(t, db, seen, mode, levels, rest)
  {
    hide Stays, SameClauses;
    if rest != [] {
      LeftSame(t, db, e, seen, mode, levels, rest[..|rest| - 1]);
      HarmlessSelf(t, db, seen, levels);
      StaysSame(t, db, e, seen, seen, mode, levels, rest[|rest| - 1].v);
    }
  }

  // The levels of the literals of the clause after its first, modulo 32.
  ghost predicate AreLevels(t: Trail, rest: seq<Lit>, levels: set<nat>) {
    forall d: nat :: d in levels <==> exists q :: q in rest && IsLevel(t, q, d)
  }

  ghost predicate IsLevel(t: Trail, q: Lit, d: nat) {
    q.v < |t.vardata| && t.vardata[q.v].level % 32 == d
  }

  lemma LevelAdded(t: Trail, rest: seq<Lit>, i: nat, levels: set<nat>)
    requires i < |rest| && rest[i].v < |t.vardata| && AreLevels(t, rest[..i], levels)
    ensures AreLevels(t, rest[..i + 1], levels + {t.vardata[rest[i].v].level % 32})
  {
    assert rest[..i + 1] == rest[..i] + [rest[i]];
    var d := t.vardata[rest[i].v].level % 32;
    assert IsLevel(t, rest[i], d) && rest[i] in rest[..i + 1];
    forall e: nat ensures e in levels + {d} <==> exists q :: q in rest[..i + 1] && IsLevel(t, q, e) {
      if q :| q in rest[..i + 1] && IsLevel(t, q, e) {
        assert q == rest[i] || q in rest[..i];
      }
      if e in levels {
        var q :| q in rest[..i] && IsLevel(t, q, e);
        assert q in rest[..i + 1];
      }
    }
  }

  // What stays is told alike by the marks and clauses of any stage.
  lemma StaysSame(t: Trail, db: Db, e: Db, seen0: seq<bool>, seen: seq<bool>, mode: nat, levels: set<nat>, v: Var)
    requires SameClauses(db, e) && Harmless(t, db, seen0, seen, levels) && (mode != 2 ==> seen == seen0)
    ensures Stays(t, e, seen, mode, levels, v) <==> Stays(t, db, seen0, mode, levels, v)
  {
    hide Behind, Blocked, Harmless, SameClauses;
    HarmlessKeeps(t, db, seen0, seen, levels, v);
    BlockedSame(t, db, e, seen, levels, v);
    forall u ensures Behind(t, db, v, u) <==> Behind(t, e, v, u) {
      BehindSame(t, db, e, v, u);
    }
  }

  lemma HarmlessSame(t: Trail, db: Db, e: Db, seen0: seq<bool>, seen: seq<bool>, levels: set<nat>)
    requires SameClauses(db, e) && Harmless(t, e, seen0, seen, levels)
    ensures Harmless(t, db, seen0, seen, levels)
  {
    hide Blocked, SameClauses;
    forall v: nat | v < |seen| && seen[v] && !seen0[v]
      ensures Passes(t, levels, v) && !Blocked(t, db, seen0, levels, v)
    {
      BlockedSame(t, db, e, seen0, levels, v);
    }
  }

  lemma LeftNext(t: Trail, db: Db, seen: seq<bool>, mode: nat, levels: set<nat>, rest: seq<Lit>, i: nat)
    requires i < |rest|
    ensures Left(t, db, seen, mode, levels, rest[..i + 1])
         == Left(t, db, seen, mode, levels, rest[..i])
            + if Stays(t, db, seen, mode, levels, rest[i].v) then [rest[i]] else []
  {
    hide Stays;
    assert rest[..i + 1][..i] == rest[..i];
  }

  // The literals of part have been tried: from clauses db and marks seen0 the attempts
  // have led to e and seen.
  ghost predicate Tried(t: Trail, db: Db, e: Db, seen0: seq<bool>, seen: seq<bool>, mode: nat, levels: set<nat>,
                        part: seq<Lit>, out: seq<Lit>) {
    && SameClauses(db, e) && Harmless(t, db, seen0, seen, levels) && (mode != 2 ==> seen == seen0)
    && out == Left(t, db, seen0, mode, levels, part)
  }

  lemma NoneTried(t: Trail, db: Db, seen: seq<bool>, mode: nat, levels: set<nat>, rest: seq<Lit>)
    ensures Tried(t, db, db, seen, seen, mode, levels, rest[..0], [])
  {
    SameClausesSelf(db);
    HarmlessSelf(t, db, seen, levels);
  }

  lemma TryNext(t: Trail, db: Db, e: Db, g: Db, seen0: seq<bool>, seen1: seq<bool>, seen2: seq<bool>, mode: nat,
                levels: set<nat>, rest: seq<Lit>, i: nat, out: seq<Lit>)
    requires i < |rest| && Tried(t, db, e, seen0, seen1, mode, levels, rest[..i], out)
    requires SameClauses(e, g) && Harmless(t, e, seen1, seen2, levels) && (mode != 2 ==> seen2 == seen1)
    ensures Tried(t, db, g, seen0, seen2, mode, levels, rest[..i + 1],
                  out + if Stays(t, e, seen1, mode, levels, rest[i].v) then [rest[i]] else [])
  {
    hide SameClauses, Harmless, Stays;
    StaysSame(t, db, e, seen0, seen1, mode, levels, rest[i].v);
    LeftNext(t, db, seen0, mode, levels, rest, i);
    SameClausesTrans(db, e, g);
    HarmlessSame(t, db, e, seen1, seen2, levels);
    HarmlessTrans(t, db, seen0, seen1, seen2, levels);
  }

  lemma AllTried(t: Trail, db: Db, e: Db, seen0: seq<bool>, seen: seq<bool>, mode: nat, levels: set<nat>,
                 rest: seq<Lit>, out: seq<Lit>)
    requires Tried(t, db, e, seen0, seen, mode, levels, rest[..|rest|], out)
    ensures SameClauses(db, e) && out == Left(t, db, seen0, mode, levels, rest)
  {
    assert rest[..|rest|] == rest;
  }

  // ccmin_mode 1: the loop over the reason, which leaves out its first literal unless
  // the clause is binary, finds what is behind the variable.
  lemma BasicStays(s: State, m: nat, seen: seq<bool>, l: Lit, cr: nat)
    requires Conflicted(s, m) && Expandable(s, l) && |seen| == s.n && seen[l.v]
    requires s.t.vardata[l.v].reason == ByClause(cr) && Live(s.db, cr) && InRange(s.db[cr].lits, s.n)
    ensures (forall k :: (if |s.db[cr].lits| == 2 then 0 else 1) <= k < |s.db[cr].lits| ==>
               s.db[cr].lits[k].v < s.n
               && (seen[s.db[cr].lits[k].v] || s.t.vardata[s.db[cr].lits[k].v].level == 0))
            <==> !exists u :: Behind(s.t, s.db, l.v, u) && Unmarked(s.t, seen, u)
  {
    hide Conflicted, Base, TrailOK, Implies;
    ExpandableReason(s, m, l);
    BasicBehind(s.t, s.db, s.n, seen, l, cr, s.db[cr].lits);
  }

  lemma BasicBehind(t: Trail, db: Db, n: nat, seen: seq<bool>, l: Lit, cr: nat, c: Clause)
    requires |t.vardata| == n && |seen| == n && l.v < n && l.v < |t.pos| && seen[l.v] && InRange(c, n)
    requires t.vardata[l.v].reason == ByClause(cr) && cr < |db| && db[cr].lits == c && Implies(t, c, l, t.pos[l.v])
    ensures (forall k :: (if |c| == 2 then 0 else 1) <= k < |c| ==>
               c[k].v < n && (seen[c[k].v] || t.vardata[c[k].v].level == 0))
            <==> !exists u :: Behind(t, db, l.v, u) && Unmarked(t, seen, u)
  {
    forall q | q in c && q != l ensures q.v != l.v && VarIn(c, q.v) {
      assert TrueBefore(t, Neg(q), t.pos[l.v]);
    }
    if u :| Behind(t, db, l.v, u) && Unmarked(t, seen, u) {
      var q :| q in c && q.v == u;
      var k :| 0 <= k < |c| && c[k] == q;
      assert k >= if |c| == 2 then 0 else 1;
    }
    if k :| (if |c| == 2 then 0 else 1) <= k < |c| && !seen[c[k].v] && t.vardata[c[k].v].level != 0 {
      assert c[k] in c && c[k] != l;
      assert Behind(t, db, l.v, c[k].v) && Unmarked(t, seen, c[k].v);
    }
  }
}
