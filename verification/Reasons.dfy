// Why each literal is on the trail, and what can be concluded from it:
// resolution, clause minimisation and level-0 facts.
module Reasons {
  import opened Logic
  import opened Trails
  import opened Watching

  ghost predicate AllDbEntailed(f: Formula, db: Db) {
    forall cr: nat :: Live(db, cr) ==> Entails(f, db[cr].lits)
  }

  // ------------------------------------------------------------ level 0 facts

  ghost predicate Root(t: Trail, l: Lit) {
    TrueBefore(t, l, RootEnd(t))
  }

  ghost predicate RootOK(t: Trail, f: Formula) {
    forall l :: Root(t, l) ==> Entails(f, [l])
  }

  lemma RootHolds(t: Trail, f: Formula, a: Assignment, l: Lit)
    requires RootOK(t, f) && Root(t, l) && Models(a, f)
    ensures Holds(a, l)
  {
    assert Entails(f, [l]);
    assert Satisfies(a, [l]);
  }

  // ------------------------------------------------------------------ reasons

  ghost predicate Implies(t: Trail, c: Clause, p: Lit, i: int) {
    && p in c
    && (forall q :: q in c && q != p ==> TrueBefore(t, Neg(q), i))
    && (|c| > 2 ==> c[0] == p)
  }

  ghost predicate ReasonOK(t: Trail, db: Db, cons: seq<Constraint>, i: nat)
    requires i < |t.lits|
  {
    var p := t.lits[i];
    && p.v < |t.vardata|
    && match t.vardata[p.v].reason
       case NoReason => exists j :: 0 <= j < |t.lims| && t.lims[j] == i
       case ByClause(cr) => Live(db, cr) && Implies(t, db[cr].lits, p, i)
       case ByConstraint(k, _) => k < |cons| && Explains(cons[k].sat, t.lits[..i], p)
  }

  // Level-0 literals keep no usable reason: removeClause may leave a dangling one.
  ghost predicate ReasonsOK(t: Trail, db: Db, cons: seq<Constraint>) {
    forall i :: RootEnd(t) <= i < |t.lits| ==> ReasonOK(t, db, cons, i)
  }

  ghost predicate NewReasonOK(t: Trail, db: Db, cons: seq<Constraint>, p: Lit, r: Reason) {
    match r
    case NoReason => |t.lims| > 0 && t.lims[|t.lims| - 1] == |t.lits|
    case ByClause(cr) => Live(db, cr) && Implies(t, db[cr].lits, p, |t.lits|)
    case ByConstraint(k, _) => k < |cons| && Explains(cons[k].sat, t.lits, p)
  }

  lemma EnqueueReasons(t: Trail, n: nat, db: Db, cons: seq<Constraint>, p: Lit, r: Reason)
    requires TrailOK(t, n) && p.v < n && t.pos[p.v] == -1 && ReasonsOK(t, db, cons)
    requires |t.lims| > 0 ==> NewReasonOK(t, db, cons, p, r)
    ensures ReasonsOK(Enqueued(t, p, r), db, cons)
  {
    var u := Enqueued(t, p, r);
    assert RootEnd(t) <= RootEnd(u);
    forall i | RootEnd(u) <= i < |u.lits| ensures ReasonOK(u, db, cons, i) {
      if i < |t.lits| {
        assert ReasonOK(t, db, cons, i);
        assert u.lits[i] == t.lits[i] && u.lits[..i] == t.lits[..i];
        assert t.pos[t.lits[i].v] == i;
      } else {
        assert u.lits[..i] == t.lits;
      }
    }
  }

  lemma CancelReasons(t: Trail, n: nat, db: Db, cons: seq<Constraint>, level: nat)
    requires TrailOK(t, n) && ReasonsOK(t, db, cons) && level < |t.lims|
    ensures ReasonsOK(Cancelled(t, level), db, cons)
  {
    var u := Cancelled(t, level);
    CancelledOK(t, n, level);
    forall i | RootEnd(u) <= i < |u.lits| ensures ReasonOK(u, db, cons, i) {
      assert RootEnd(t) <= i && ReasonOK(t, db, cons, i);
      assert u.lits[..i] == t.lits[..i];
      if t.vardata[t.lits[i].v].reason.NoReason? {
        var j :| 0 <= j < |t.lims| && t.lims[j] == i;
        assert j < level;
        assert u.lims[j] == i;
      }
    }
  }

  lemma NewLevelReasons(t: Trail, n: nat, db: Db, cons: seq<Constraint>)
    requires TrailOK(t, n) && ReasonsOK(t, db, cons)
    ensures ReasonsOK(NewLevel(t), db, cons)
  {
    var u := NewLevel(t);
    forall i | RootEnd(u) <= i < |u.lits| ensures ReasonOK(u, db, cons, i) {
      assert RootEnd(t) <= i && ReasonOK(t, db, cons, i);
      if t.vardata[t.lits[i].v].reason.NoReason? {
        var j :| 0 <= j < |t.lims| && t.lims[j] == i;
        assert u.lims[j] == i;
      }
    }
  }

  // Literal 0 of a clause of three or more may only move while it is false.
  lemma SwapReasons(t: Trail, n: nat, db: Db, cons: seq<Constraint>, cr: nat, i: nat, j: nat)
    requires TrailOK(t, n) && ReasonsOK(t, db, cons) && Live(db, cr)
    requires i < |db[cr].lits| && j < |db[cr].lits|
    requires |db[cr].lits| == 2 || (0 < i && 0 < j) || !IsTrue(t, db[cr].lits[0])
    ensures ReasonsOK(t, SwapLits(db, cr, i, j), cons)
  {
    SwappedFacts(db[cr].lits, i, j, n);
    forall x | RootEnd(t) <= x < |t.lits| ensures ReasonOK(t, SwapLits(db, cr, i, j), cons, x) {
      assert ReasonOK(t, db, cons, x);
      assert IsTrue(t, t.lits[x]);
    }
  }

  lemma AttachReasons(t: Trail, db: Db, cons: seq<Constraint>, r: ClauseRec)
    requires ReasonsOK(t, db, cons)
    ensures ReasonsOK(t, db + [r], cons)
  {
    forall x | RootEnd(t) <= x < |t.lits| ensures ReasonOK(t, db + [r], cons, x) {
      assert ReasonOK(t, db, cons, x);
    }
  }

  ghost predicate Locked(t: Trail, db: Db, cr: nat)
    requires cr < |db| && |db[cr].lits| > 0
  {
    var p := db[cr].lits[0];
    IsTrue(t, p) && p.v < |t.vardata| && t.vardata[p.v].reason == ByClause(cr)
  }

  // reduceDB removes unlocked clauses of three or more literals; simplify and
  // adaptSolver remove clauses at level 0.
  lemma RemoveReasons(t: Trail, n: nat, db: Db, cons: seq<Constraint>, cr: nat)
    requires TrailOK(t, n) && ReasonsOK(t, db, cons) && Live(db, cr)
    requires |t.lims| == 0 || (|db[cr].lits| > 2 && !Locked(t, db, cr))
    ensures ReasonsOK(t, Marked(db, cr), cons)
  {
    forall x | RootEnd(t) <= x < |t.lits| ensures ReasonOK(t, Marked(db, cr), cons, x) {
      assert ReasonOK(t, db, cons, x);
      assert IsTrue(t, t.lits[x]);
    }
  }

  // ------------------------------------------- level-0 enqueues and conflicts

  ghost predicate AllRoot(t: Trail) {
    |t.lims| == 0
  }

  lemma RootClauseUnit(t: Trail, f: Formula, c: Clause, p: Lit)
    requires AllRoot(t) && RootOK(t, f) && Entails(f, c)
    requires forall q :: q in c && q != p ==> IsFalse(t, q)
    ensures Entails(f, [p])
  {
    forall a: Assignment | Models(a, f) ensures Satisfies(a, [p]) {
      assert Satisfies(a, c);
      var q :| q in c && Holds(a, q);
      if q != p {
        RootHolds(t, f, a, Neg(q));
      }
      assert p in [p];
    }
  }

  lemma RootClauseConflict(t: Trail, f: Formula, c: Clause)
    requires AllRoot(t) && RootOK(t, f) && Entails(f, c)
    requires forall q :: q in c ==> IsFalse(t, q)
    ensures Unsatisfiable(f)
  {
    forall a: Assignment ensures !Models(a, f) {
      if Models(a, f) {
        var q :| q in c && Holds(a, q);
        RootHolds(t, f, a, Neg(q));
        assert false;
      }
    }
  }

  lemma RootTrailHolds(t: Trail, n: nat, f: Formula, a: Assignment)
    requires TrailOK(t, n) && AllRoot(t) && RootOK(t, f) && Models(a, f)
    ensures AllHold(a, t.lits)
  {
    forall l | l in t.lits ensures Holds(a, l) {
      var i :| 0 <= i < |t.lits| && t.lits[i] == l;
      RootHolds(t, f, a, l);
    }
  }

  lemma RootConstraintUnit(t: Trail, n: nat, f: Formula, con: Constraint, p: Lit)
    requires TrailOK(t, n) && AllRoot(t) && RootOK(t, f) && con in f.constraints
    requires Explains(con.sat, t.lits, p)
    ensures Entails(f, [p])
  {
    forall a: Assignment | Models(a, f) ensures Satisfies(a, [p]) {
      RootTrailHolds(t, n, f, a);
      assert p in [p];
    }
  }

  lemma RootConstraintConflict(t: Trail, n: nat, f: Formula, con: Constraint)
    requires TrailOK(t, n) && AllRoot(t) && RootOK(t, f) && con in f.constraints
    requires Refutes(con.sat, t.lits)
    ensures Unsatisfiable(f)
  {
    forall a: Assignment ensures !Models(a, f) {
      if Models(a, f) {
        RootTrailHolds(t, n, f, a);
        assert false;
      }
    }
  }

  lemma EnqueueRoot(t: Trail, n: nat, f: Formula, p: Lit, r: Reason)
    requires TrailOK(t, n) && p.v < n && t.pos[p.v] == -1 && RootOK(t, f)
    requires |t.lims| == 0 ==> Entails(f, [p])
    ensures RootOK(Enqueued(t, p, r), f)
    ensures forall l :: Root(t, l) ==> Root(Enqueued(t, p, r), l)
  {
    EnqueuedOK(t, n, p, r);
    var u := Enqueued(t, p, r);
    forall l | Root(u, l) ensures Entails(f, [l]) {
      assert l == p || Root(t, l);
    }
  }

  lemma CancelRoot(t: Trail, n: nat, f: Formula, level: nat)
    requires TrailOK(t, n) && RootOK(t, f) && level < |t.lims|
    ensures RootOK(Cancelled(t, level), f)
  {
    CancelledOK(t, n, level);
    forall l | Root(Cancelled(t, level), l) ensures Entails(f, [l]) {
      assert Root(t, l);
    }
  }

  // --------------------------------------------------------------- resolution

  // No model makes every literal of s true: the negations form an entailed clause.
  ghost predicate Refuted(f: Formula, s: set<Lit>) {
    forall a: Assignment :: Models(a, f) ==> exists l :: l in s && !Holds(a, l)
  }

  // Every literal of c other than p is false at level 0 or has its negation in s.
  ghost predicate Covers(t: Trail, s: set<Lit>, c: seq<Lit>, p: Lit) {
    forall q :: q in c && q != p ==> Neg(q) in s || Root(t, Neg(q))
  }

  ghost predicate CoversTrue(t: Trail, s: set<Lit>, ls: seq<Lit>) {
    forall q :: q in ls ==> q in s || Root(t, q)
  }

  lemma ConflictClause(t: Trail, f: Formula, s: set<Lit>, c: Clause)
    requires RootOK(t, f) && Entails(f, c)
    requires forall q :: q in c ==> Neg(q) in s || Root(t, Neg(q))
    ensures Refuted(f, s)
  {
    forall a: Assignment | Models(a, f) ensures exists l :: l in s && !Holds(a, l) {
      assert Satisfies(a, c);
      var q :| q in c && Holds(a, q);
      if Root(t, Neg(q)) {
        RootHolds(t, f, a, Neg(q));
      }
      assert Neg(q) in s && !Holds(a, Neg(q));
    }
  }

  lemma ConflictConstraint(t: Trail, f: Formula, s: set<Lit>, con: Constraint, ls: seq<Lit>)
    requires RootOK(t, f) && con in f.constraints && Refutes(con.sat, ls) && CoversTrue(t, s, ls)
    ensures Refuted(f, s)
  {
    forall a: Assignment | Models(a, f) ensures exists l :: l in s && !Holds(a, l) {
      assert con.sat(a) && !AllHold(a, ls);
      var q :| q in ls && !Holds(a, q);
      if Root(t, q) {
        RootHolds(t, f, a, q);
      }
      assert q in s;
    }
  }

  lemma ResolveClause(t: Trail, f: Formula, r: set<Lit>, p: Lit, s: set<Lit>, c: Clause)
    requires RootOK(t, f) && Refuted(f, r + {p}) && Entails(f, c) && p in c
    requires r <= s && Covers(t, s, c, p)
    ensures Refuted(f, s)
  {
    forall a: Assignment | Models(a, f) ensures exists l :: l in s && !Holds(a, l) {
      var l :| l in r + {p} && !Holds(a, l);
      if l !in s {
        assert Satisfies(a, c);
        var q :| q in c && Holds(a, q);
        if Root(t, Neg(q)) {
          RootHolds(t, f, a, Neg(q));
        }
        assert Neg(q) in s && !Holds(a, Neg(q));
      }
    }
  }

  lemma ResolveConstraint(t: Trail, f: Formula, r: set<Lit>, p: Lit, s: set<Lit>, con: Constraint, ls: seq<Lit>)
    requires RootOK(t, f) && Refuted(f, r + {p}) && con in f.constraints && Explains(con.sat, ls, p)
    requires r <= s && CoversTrue(t, s, ls)
    ensures Refuted(f, s)
  {
    forall a: Assignment | Models(a, f) ensures exists l :: l in s && !Holds(a, l) {
      var l :| l in r + {p} && !Holds(a, l);
      if l !in s {
        assert con.sat(a) && !Holds(a, p);
        assert !AllHold(a, ls);
        var q :| q in ls && !Holds(a, q);
        if Root(t, q) {
          RootHolds(t, f, a, q);
        }
        assert q in s;
      }
    }
  }

  // ------------------------------------------------------------- minimisation

  // seen is closed under reasons outside kept: such a literal was implied by a
  // clause whose other literals are false at level 0 or have their negation in
  // seen.
  ghost predicate ClosedUnderReasons(t: Trail, db: Db, seen: set<Lit>, kept: set<Lit>) {
    forall l :: l in seen && l !in kept ==> ImpliedBySeen(t, db, seen, l)
  }

  ghost predicate ImpliedBySeen(t: Trail, db: Db, seen: set<Lit>, l: Lit) {
    && IsTrue(t, l) && l.v < |t.vardata|
    && t.vardata[l.v].reason.ByClause?
    && var cr := t.vardata[l.v].reason.cr;
    && Live(db, cr) && Implies(t, db[cr].lits, l, t.pos[l.v])
    && Covers(t, seen, db[cr].lits, l)
  }

  lemma {:induction false} SeenHolds(t: Trail, db: Db, f: Formula, seen: set<Lit>, kept: set<Lit>, a: Assignment,
                                     l: Lit)
    requires AllDbEntailed(f, db) && RootOK(t, f) && Models(a, f)
    requires ClosedUnderReasons(t, db, seen, kept) && (forall x :: x in kept ==> Holds(a, x))
    requires l in seen && IsTrue(t, l)
    ensures Holds(a, l)
    decreases t.pos[l.v]
  {
    if l !in kept {
      assert ImpliedBySeen(t, db, seen, l);
      var c := db[t.vardata[l.v].reason.cr].lits;
      assert Entails(f, c) && Satisfies(a, c);
      var q :| q in c && Holds(a, q);
      if q != l {
        assert TrueBefore(t, Neg(q), t.pos[l.v]);
        if Root(t, Neg(q)) {
          RootHolds(t, f, a, Neg(q));
        } else {
          SeenHolds(t, db, f, seen, kept, a, Neg(q));
        }
      }
    }
  }

  // Recursive minimisation: dropping the literals that reasons imply from the
  // kept ones leaves a refuted set, so the shorter clause is still entailed.
  lemma MinimisedRefuted(t: Trail, db: Db, f: Formula, full: set<Lit>, seen: set<Lit>, kept: set<Lit>)
    requires AllDbEntailed(f, db) && RootOK(t, f) && Refuted(f, full)
    requires full <= seen && (forall l :: l in full ==> IsTrue(t, l))
    requires ClosedUnderReasons(t, db, seen, kept)
    ensures Refuted(f, kept)
  {
    forall a: Assignment | Models(a, f) ensures exists l :: l in kept && !Holds(a, l) {
      if forall x :: x in kept ==> Holds(a, x) {
        var l :| l in full && !Holds(a, l);
        SeenHolds(t, db, f, seen, kept, a, l);
        assert false;
      }
    }
  }

  // Minimisation with the binary clauses of the asserting literal d[0]: a literal
  // whose negation follows unless d[0] holds may go.
  lemma BinaryEntails(f: Formula, c: Clause, d: Clause)
    requires Entails(f, c) && |d| > 0
    requires forall q :: q in c && q !in d ==> Entails(f, [d[0], Neg(q)])
    ensures Entails(f, d)
  {
    forall a: Assignment | Models(a, f) ensures Satisfies(a, d) {
      assert Satisfies(a, c);
      var q :| q in c && Holds(a, q);
      if q !in d {
        assert Satisfies(a, [d[0], Neg(q)]);
        assert Holds(a, d[0]) && d[0] in d;
      }
    }
  }

  lemma RefutedEntails(f: Formula, s: set<Lit>, c: Clause)
    requires Refuted(f, s) && forall l :: l in s ==> Neg(l) in c
    ensures Entails(f, c)
  {
    forall a: Assignment | Models(a, f) ensures Satisfies(a, c) {
      var l :| l in s && !Holds(a, l);
      assert Neg(l) in c && Holds(a, Neg(l));
    }
  }

  // ------------------------------------------- where the problem clauses went

  ghost predicate RootSat(t: Trail, c: Clause) {
    exists l :: l in c && Root(t, l)
  }

  ghost predicate Tautology(c: Clause) {
    exists l :: l in c && Neg(l) in c
  }

  // A problem clause is either represented by a live clause made of some of its
  // literals, or satisfied at level 0, or satisfied by everything.
  ghost predicate Housed(c: Clause, h: int, db: Db, t: Trail) {
    if h >= 0 then Live(db, h) && !db[h].learnt && forall l :: l in db[h].lits ==> l in c
    else RootSat(t, c) || Tautology(c)
  }

  // A clause just being added has no home yet.
  ghost predicate HomeOK(problem: seq<Clause>, home: seq<int>, db: Db, t: Trail) {
    |home| <= |problem| && forall j :: 0 <= j < |home| ==> Housed(problem[j], home[j], db, t)
  }

  // Root facts only grow.
  lemma HomeTrail(problem: seq<Clause>, home: seq<int>, db: Db, t: Trail, u: Trail)
    requires HomeOK(problem, home, db, t)
    requires forall l :: Root(t, l) ==> Root(u, l)
    ensures HomeOK(problem, home, db, u)
  {
    forall j | 0 <= j < |home| ensures Housed(problem[j], home[j], db, u) {
      assert Housed(problem[j], home[j], db, t);
      if home[j] < 0 && RootSat(t, problem[j]) {
        var l :| l in problem[j] && Root(t, l);
        assert Root(u, l);
      }
    }
  }

  lemma HomeSwap(problem: seq<Clause>, home: seq<int>, db: Db, t: Trail, cr: nat, i: nat, j: nat)
    requires HomeOK(problem, home, db, t) && Live(db, cr) && i < |db[cr].lits| && j < |db[cr].lits|
    ensures HomeOK(problem, home, SwapLits(db, cr, i, j), t)
  {
    SwappedFacts(db[cr].lits, i, j, 0);
    forall x | 0 <= x < |home| ensures Housed(problem[x], home[x], SwapLits(db, cr, i, j), t) {
      assert Housed(problem[x], home[x], db, t);
    }
  }

  lemma HomeAttach(problem: seq<Clause>, home: seq<int>, db: Db, t: Trail, r: ClauseRec)
    requires HomeOK(problem, home, db, t)
    ensures HomeOK(problem, home, db + [r], t)
  {
    forall x | 0 <= x < |home| ensures Housed(problem[x], home[x], db + [r], t) {
      assert Housed(problem[x], home[x], db, t);
    }
  }

  function Evicted(home: seq<int>, cr: nat): seq<int> {
    seq(|home|, i requires 0 <= i < |home| => if home[i] == cr then -1 else home[i])
  }

  lemma HomeRemove(problem: seq<Clause>, home: seq<int>, db: Db, t: Trail, cr: nat)
    requires HomeOK(problem, home, db, t) && Live(db, cr)
    requires db[cr].learnt || RootSat(t, db[cr].lits)
    ensures HomeOK(problem, Evicted(home, cr), Marked(db, cr), t)
  {
    forall x | 0 <= x < |home| ensures Housed(problem[x], Evicted(home, cr)[x], Marked(db, cr), t) {
      assert Housed(problem[x], home[x], db, t);
      if home[x] == cr {
        var l :| l in db[cr].lits && Root(t, l);
        assert l in problem[x];
      }
    }
  }

  lemma EntailedSwap(f: Formula, db: Db, cr: nat, i: nat, j: nat)
    requires AllDbEntailed(f, db) && Live(db, cr) && i < |db[cr].lits| && j < |db[cr].lits|
    ensures AllDbEntailed(f, SwapLits(db, cr, i, j))
  {
    SwappedFacts(db[cr].lits, i, j, 0);
    EntailsSubset(f, db[cr].lits, Swapped(db[cr].lits, i, j));
    forall d: nat | Live(SwapLits(db, cr, i, j), d) ensures Entails(f, SwapLits(db, cr, i, j)[d].lits) {
      assert Live(db, d);
    }
  }

  lemma EntailedAttach(f: Formula, db: Db, r: ClauseRec)
    requires AllDbEntailed(f, db) && (!r.deleted ==> Entails(f, r.lits))
    ensures AllDbEntailed(f, db + [r])
  {
    forall d: nat | Live(db + [r], d) ensures Entails(f, (db + [r])[d].lits) {
      assert d < |db| ==> Live(db, d);
    }
  }
}
