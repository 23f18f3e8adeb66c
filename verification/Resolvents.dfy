// The clause that analyze resolves its way to: what the conflict says, with one literal
// of the trail after another replaced by its reason.
module Resolvents {
  import opened Logic
  import opened Trails
  import opened Watching
  import opened Reasons
  import opened Delivery
  import opened States
  import opened Contracts
  import opened Analysis
  import opened Minimising
  import opened Redundancy

  ghost function Others(c: Clause, p: Lit): set<Lit> {
    set q | q in c && q != p :: Neg(q)
  }

  // The true literals that literal i follows from: the negations of the others of its
  // clause, or what its constraint names once it has been told what came before only.
  ghost function ReasonOf(s: State, i: nat): set<Lit>
    requires i < |s.t.lits|
  {
    var p := s.t.lits[i];
    if p.v >= |s.t.vardata| then {}
    else
      match s.t.vardata[p.v].reason
      case NoReason => {}
      case ByClause(cr) => if cr < |s.db| then Others(s.db[cr].lits, p) else {}
      case ByConstraint(k, kept) =>
        if k < |s.f.constraints| && InRange(s.t.lits[..i], |s.undo|) then
          Elems(ReasonFor(s.f.constraints[k], LogOf(s.undo, s.t.lits[..i], k), s.t.lits[..i], p, kept))
        else {}
  }

  ghost function ConflictLits(s: State, confl: Conflict): set<Lit> {
    match confl
    case NoConflict => {}
    case ClauseConflict(cr) => if cr < |s.db| then set q | q in s.db[cr].lits :: Neg(q) else {}
    case ConstraintConflict(k, extra, because) =>
      if k < |s.f.constraints| && k < |s.log| then
        Elems(ObjectionFor(s.f.constraints[k], s.log[k], s.t.lits, extra, because))
      else {}
  }

  ghost function AboveRoot(t: Trail, x: set<Lit>): set<Lit> {
    set l | l in x && !Root(t, l)
  }

  // The true literals that refute the problem together, when all literals from position
  // b on that occur have been replaced by their reasons.
  ghost function Resolvent(s: State, confl: Conflict, b: nat): set<Lit>
    decreases |s.t.lits| - b
  {
    if b >= |s.t.lits| then AboveRoot(s.t, ConflictLits(s, confl))
    else
      var more := Resolvent(s, confl, b + 1);
      if s.t.lits[b] in more then more - {s.t.lits[b]} + AboveRoot(s.t, ReasonOf(s, b)) else more
  }

  ghost predicate OtherCurrent(t: Trail, x: set<Lit>, p: Lit) {
    exists q :: q in x && q != p && Current(t, q)
  }

  // Each literal from position b on that was replaced was not the only one of the
  // current level.
  ghost predicate Busy(s: State, confl: Conflict, b: nat) {
    forall i :: b <= i < |s.t.lits| && s.t.lits[i] in Resolvent(s, confl, i + 1) ==>
      OtherCurrent(s.t, Resolvent(s, confl, i + 1), s.t.lits[i])
  }

  // Position m is the first unique implication point: the only literal of the current
  // level that is left, with two or more before.
  ghost predicate FirstPoint(s: State, confl: Conflict, m: nat) {
    && m < |s.t.lits| && s.t.lits[m] in Resolvent(s, confl, m + 1) && Current(s.t, s.t.lits[m])
    && !OtherCurrent(s.t, Resolvent(s, confl, m + 1), s.t.lits[m])
    && Busy(s, confl, m + 1)
  }

  // ------------------------------------------------------------------ marking

  lemma MarkedAboveRoot(t: Trail, n: nat, seen: seq<bool>, marked: set<Lit>)
    requires Marks(t, n, seen, marked)
    ensures forall l :: l in marked ==> !Root(t, l)
  {
  }

  lemma LitNotMarked(t: Trail, n: nat, seen: seq<bool>, low: set<Lit>, cur: set<Lit>, rest: seq<Lit>, pathC: int,
                     i: nat)
    requires Analysing(t, n, seen, low, cur, rest, pathC, i + 1) && i < |t.lits| && t.lits[i].v < n
    requires |seen| == n && !seen[t.lits[i].v]
    ensures t.lits[i] !in low + cur
  {
    NotMarked(t, n, seen, low + cur, t.lits[i]);
  }

  // What a list of literals adds to the marks.
  lemma MarksAdd(t: Trail, n: nat, seen: seq<bool>, before: set<Lit>, after: set<Lit>, x: set<Lit>)
    requires Marks(t, n, seen, after) && before <= after
    requires forall l :: l in after ==> l in before || l in x
    requires forall l :: l in x ==> l in after || Root(t, l)
    ensures after == before + AboveRoot(t, x)
  {
    hide Marks, Root;
    MarkedAboveRoot(t, n, seen, after);
  }

  lemma NegOfNext(c: Clause, start: nat, j: nat)
    requires start <= j < |c|
    ensures c[start..j + 1] == c[start..j] + [c[j]] && Neg(Neg(c[j])) == c[j]
  {
  }

  lemma NegsOf(c: Clause, l: Lit)
    ensures l in (set q | q in c :: Neg(q)) <==> Neg(l) in c
  {
    assert Neg(Neg(l)) == l;
    forall q | q in c && Neg(q) == l ensures Neg(l) in c {
      assert Neg(Neg(q)) == q;
    }
  }

  lemma ClauseReasonOf(s: State, n: nat, i: nat, cr: nat, l: Lit)
    requires TrailOK(s.t, n) && ClauseExplains(s, i, cr) && s.t.lits[i].v < |s.t.vardata|
    requires s.t.vardata[s.t.lits[i].v].reason == ByClause(cr)
    ensures l in ReasonOf(s, i) <==> Neg(l) in s.db[cr].lits[1..]
  {
    var c, p := s.db[cr].lits, s.t.lits[i];
    assert Neg(Neg(l)) == l;
    if l in ReasonOf(s, i) {
      var q :| q in c && q != p && Neg(q) == l;
      assert Neg(Neg(q)) == q;
      var x :| 0 <= x < |c| && c[x] == q;
      assert c[1..][x - 1] == q;
    }
    if Neg(l) in c[1..] {
      var x :| 0 <= x < |c[1..]| && c[1..][x] == Neg(l);
      assert c[x + 1] == Neg(l) && TrueBefore(s.t, Neg(c[x + 1]), i);
      assert Neg(l) in c && Neg(l) != p;
    }
  }

  lemma ConstraintReasonOf(s: State, i: nat, k: nat, kept: seq<Lit>, r: seq<Lit>)
    requires Base(s) && i < |s.t.lits| && Idle(s.undo, s.t.lits, i) && k < |s.log| && s.t.lits[i].v < |s.t.vardata|
    requires s.t.vardata[s.t.lits[i].v].reason == ByConstraint(k, kept) && k < |s.f.constraints|
    requires r == ReasonFor(s.f.constraints[k], s.log[k], s.t.lits[..i], s.t.lits[i], kept)
    ensures ReasonOf(s, i) == Elems(r)
  {
    hide Base, LogOf, Fed, Idle;
    PrefixFed(s, i, k);
  }

  lemma ConflictClauseIs(s: State, cr: nat, seen: seq<bool>, low: set<Lit>, cur: set<Lit>, rest: seq<Lit>, pathC: int)
    requires cr < |s.db| && Analysing(s.t, s.n, seen, low, cur, rest, pathC, |s.t.lits|)
    requires forall l :: l in low + cur ==> Neg(l) in s.db[cr].lits[0..]
    requires forall x :: 0 <= x < |s.db[cr].lits| ==>
               Neg(s.db[cr].lits[x]) in low + cur || Root(s.t, Neg(s.db[cr].lits[x]))
    ensures low + cur == AboveRoot(s.t, ConflictLits(s, ClauseConflict(cr)))
  {
    hide Marks, Root, Split, Collected, AboveRoot;
    var c := s.db[cr].lits;
    assert c[0..] == c;
    var x := ConflictLits(s, ClauseConflict(cr));
    forall l ensures l in x <==> Neg(l) in c {
      NegsOf(c, l);
    }
    forall l | l in x ensures l in low + cur || Root(s.t, l) {
      var y :| 0 <= y < |c| && c[y] == Neg(l);
      assert Neg(Neg(l)) == l;
    }
    MarksAdd(s.t, s.n, seen, {}, low + cur, x);
  }

  lemma ConflictConstraintIs(s: State, confl: Conflict, r: seq<Lit>, seen: seq<bool>, low: set<Lit>, cur: set<Lit>,
                             rest: seq<Lit>, pathC: int)
    requires confl.ConstraintConflict? && confl.k < |s.f.constraints| && confl.k < |s.log|
    requires r == ObjectionFor(s.f.constraints[confl.k], s.log[confl.k], s.t.lits, confl.extra, confl.because)
    requires Analysing(s.t, s.n, seen, low, cur, rest, pathC, |s.t.lits|) && CoversTrue(s.t, low + cur, r)
    requires forall l :: l in low + cur ==> l in r
    ensures low + cur == AboveRoot(s.t, ConflictLits(s, confl))
  {
    hide Marks, Root, Split, Collected, AboveRoot;
    MarksAdd(s.t, s.n, seen, {}, low + cur, Elems(r));
  }

  lemma ClauseAdds(s: State, m: nat, i: nat, cr: nat, seen: seq<bool>, low: set<Lit>, cur: set<Lit>, low': set<Lit>,
                   cur': set<Lit>, rest: seq<Lit>, pathC: int)
    requires Conflicted(s, m) && ClauseExplains(s, i, cr) && s.t.lits[i].v < |s.t.vardata|
    requires s.t.vardata[s.t.lits[i].v].reason == ByClause(cr)
    requires Analysing(s.t, s.n, seen, low', cur', rest, pathC, m) && low <= low' && cur <= cur'
    requires forall l :: l in low' + cur' ==> l in low + cur || Neg(l) in s.db[cr].lits[1..]
    requires forall x :: 1 <= x < |s.db[cr].lits| ==>
               Neg(s.db[cr].lits[x]) in low' + cur' || Root(s.t, Neg(s.db[cr].lits[x]))
    ensures low' + cur' == low + cur + AboveRoot(s.t, ReasonOf(s, i))
  {
    hide Conflicted, ReasonOf, Marks, Root, Split, Collected, TrailOK, TrueBefore;
    hide ClauseOK, Base, RootOK, Entails, Analysing;
    ConflictedFacts(s, m);
    forall l ensures l in ReasonOf(s, i) <==> Neg(l) in s.db[cr].lits[1..] {
      ClauseReasonOf(s, s.n, i, cr, l);
    }
    RestCovered(s.t, s.db[cr].lits, low' + cur', ReasonOf(s, i));
    AnalysingMarks(s.t, s.n, seen, low', cur', rest, pathC, m);
    MarksAdd(s.t, s.n, seen, low + cur, low' + cur', ReasonOf(s, i));
  }

  lemma AnalysingMarks(t: Trail, n: nat, seen: seq<bool>, low: set<Lit>, cur: set<Lit>, rest: seq<Lit>, pathC: int,
                       m: int)
    requires Analysing(t, n, seen, low, cur, rest, pathC, m)
    ensures Marks(t, n, seen, low + cur)
  {
  }

  lemma RestCovered(t: Trail, c: Clause, marked: set<Lit>, reason: set<Lit>)
    requires |c| > 0 && forall l :: l in reason <==> Neg(l) in c[1..]
    requires forall x :: 1 <= x < |c| ==> Neg(c[x]) in marked || Root(t, Neg(c[x]))
    ensures forall l :: l in reason ==> l in marked || Root(t, l)
  {
    hide Root;
    forall l | l in reason ensures l in marked || Root(t, l) {
      var x :| 0 <= x < |c[1..]| && c[1..][x] == Neg(l);
      assert c[x + 1] == Neg(l) && Neg(Neg(l)) == l;
    }
  }

  lemma ConstraintAdds(s: State, i: nat, k: nat, kept: seq<Lit>, r: seq<Lit>, seen: seq<bool>, low: set<Lit>,
                       cur: set<Lit>, low': set<Lit>, cur': set<Lit>, rest: seq<Lit>, pathC: int)
    requires Conflicted(s, i) && i < |s.t.lits| && k < |s.log| && s.t.lits[i].v < |s.t.vardata|
    requires s.t.vardata[s.t.lits[i].v].reason == ByConstraint(k, kept) && k < |s.f.constraints|
    requires r == ReasonFor(s.f.constraints[k], s.log[k], s.t.lits[..i], s.t.lits[i], kept)
    requires Analysing(s.t, s.n, seen, low', cur', rest, pathC, i) && low <= low' && cur <= cur'
    requires CoversTrue(s.t, low' + cur', r)
    requires forall l :: l in low' + cur' ==> l in low + cur || l in r
    ensures low' + cur' == low + cur + AboveRoot(s.t, ReasonOf(s, i))
  {
    hide Base, ReasonOf, Marks, Root, Split, Collected, PendingOK, UndoOK, ToldReasons, Idle, LevelStart;
    ConstraintReasonOf(s, i, k, kept, r);
    MarksAdd(s.t, s.n, seen, low + cur, low' + cur', Elems(r));
  }

  // ------------------------------------------------------- along the resolution

  // The undo lists of the first m literals are as they were.
  ghost predicate SameUndo(s: State, u: State, m: nat) {
    && |s.undo| == |u.undo| && m <= |s.t.lits| && InRange(s.t.lits, |s.undo|)
    && forall j :: 0 <= j < m ==> u.undo[s.t.lits[j].v] == s.undo[s.t.lits[j].v]
  }

  lemma PoppedSame(s: State, u: State, m: nat)
    requires PoppedTo(s, u.undo, u.log, m) && m <= |s.t.lits|
    ensures SameUndo(s, u, m)
  {
    hide LogOK, UndoIds, NoUndo, UndoWatched, Idle;
  }

  // Clauses may have been oriented and later literals undone.
  lemma ReasonSame(s: State, u: State, i: nat)
    requires i < |s.t.lits| && u == s.(db := u.db, undo := u.undo, log := u.log)
    requires SameClauses(s.db, u.db) && SameUndo(s, u, i)
    ensures ReasonOf(s, i) == ReasonOf(u, i)
  {
    var p := s.t.lits[i];
    if p.v < |s.t.vardata| && s.t.vardata[p.v].reason.ByConstraint? {
      var k := s.t.vardata[p.v].reason.k;
      forall l | l in s.t.lits[..i] ensures l in s.t.lits && s.undo[l.v] == u.undo[l.v] {
        var j :| 0 <= j < i && s.t.lits[j] == l;
      }
      LogLocal(s.undo, u.undo, s.t.lits[..i], k);
    }
  }

  // The scan down passes over literals that do not occur.
  lemma {:induction false} ResolventSkips(s: State, confl: Conflict, i: nat, b: nat)
    requires i <= b <= |s.t.lits|
    requires forall j :: i <= j < b ==> s.t.lits[j] !in Resolvent(s, confl, b)
    ensures Resolvent(s, confl, i) == Resolvent(s, confl, b)
    ensures Busy(s, confl, b) ==> Busy(s, confl, i)
    decreases b - i
  {
    hide ReasonOf, AboveRoot, OtherCurrent, ConflictLits;
    if i < b {
      ResolventSkips(s, confl, i + 1, b);
      assert Resolvent(s, confl, i) == Resolvent(s, confl, i + 1);
    }
  }

  lemma ResolventStep(s: State, confl: Conflict, i: nat)
    requires i < |s.t.lits| && s.t.lits[i] in Resolvent(s, confl, i + 1) && Busy(s, confl, i + 1)
    requires OtherCurrent(s.t, Resolvent(s, confl, i + 1), s.t.lits[i])
    ensures Resolvent(s, confl, i) == Resolvent(s, confl, i + 1) - {s.t.lits[i]} + AboveRoot(s.t, ReasonOf(s, i))
    ensures Busy(s, confl, i)
  {
  }

  lemma ResolventStart(s: State, confl: Conflict)
    requires Conflicted(s, |s.t.lits|)
    ensures Resolvent(s, confl, |s.t.lits|) == AboveRoot(s.t, ConflictLits(s, confl))
    ensures Busy(s, confl, |s.t.lits|) && SameUndo(s, s, |s.t.lits|)
  {
    hide ConflictLits, AboveRoot, Watched, Sound, Told, TrailOK, PendingOK, UndoOK, ToldReasons, Idle;
  }

  lemma UndoTrans(s: State, t: State, u: State, m: nat)
    requires SameUndo(s, t, m) || (t.t == s.t && exists b: nat :: m <= b && SameUndo(s, t, b))
    requires (SameUndo(t, u, m) || u.undo == t.undo) && t.t == s.t
    ensures SameUndo(s, u, m)
  {
  }

  // The literals of the current level that are left besides the one taken.
  lemma StillCurrent(s: State, seen: seq<bool>, low: set<Lit>, cur: set<Lit>, rest: seq<Lit>, pathC: int, x: set<Lit>,
                     i: nat)
    requires Analysing(s.t, s.n, seen, low, cur, rest, pathC, i) && cur != {} && i < |s.t.lits|
    requires x == low + cur + {s.t.lits[i]} && s.t.lits[i] !in low + cur
    ensures OtherCurrent(s.t, x, s.t.lits[i])
  {
    var q :| q in cur;
    assert q in low + cur && IsTrue(s.t, q);
    assert Current(s.t, q);
  }

  // None is left: the first unique implication point.
  lemma LastCurrent(s: State, confl: Conflict, s0: State, seen: seq<bool>, low: set<Lit>, cur: set<Lit>, rest: seq<Lit>,
                    i: nat)
    requires Analysing(s.t, s.n, seen, low, cur, rest, 0, i) && i < |s.t.lits| && s.t == s0.t
    requires low + cur + {s.t.lits[i]} == Resolvent(s0, confl, i + 1) && Busy(s0, confl, i + 1)
    requires Current(s.t, s.t.lits[i])
    ensures FirstPoint(s0, confl, i) && low + {s.t.lits[i]} == Resolvent(s0, confl, i + 1)
  {
    hide Marks, Collected, Resolvent, Busy;
    assert cur == {};
    assert low + cur == low;
    assert s.t.lits[i] in low + {s.t.lits[i]};
    forall q | q in Resolvent(s0, confl, i + 1) && q != s.t.lits[i] ensures !Current(s0.t, q) {
      assert q in low;
    }
  }

  // ------------------------------------------------------- what analyze learns

  lemma PairedSame(db: Db, e: Db, l: Lit, x: Lit)
    requires SameClauses(db, e)
    ensures Paired(db, l, x) <==> Paired(e, l, x)
  {
    if cr: nat :| Live(db, cr) && |db[cr].lits| == 2 && l in db[cr].lits && x in db[cr].lits && x != l {
      assert SameClause(db[cr], e[cr]);
      assert Live(e, cr) && |e[cr].lits| == 2 && l in e[cr].lits && x in e[cr].lits;
    }
    if cr: nat :| Live(e, cr) && |e[cr].lits| == 2 && l in e[cr].lits && x in e[cr].lits && x != l {
      assert SameClause(db[cr], e[cr]);
      assert Live(db, cr) && |db[cr].lits| == 2 && l in db[cr].lits && x in db[cr].lits;
    }
  }

  // rest are the negations of the resolvent without the implication point, and seen
  // marks their variables.
  ghost predicate Gathered(s: State, confl: Conflict, m: nat, rest: seq<Lit>, seen: seq<bool>)
    requires m < |s.t.lits|
  {
    && NoDup(rest) && |seen| == s.n
    && (forall q :: q in rest <==> Neg(q) in Resolvent(s, confl, m + 1) && Neg(q) != s.t.lits[m])
    && forall v :: 0 <= v < s.n ==> (seen[v] <==> VarIn(rest, v))
  }

  // The clause learnt: the negation of the first unique implication point, then what
  // the minimisation leaves of the others; binary says whether those go too that the
  // point implies through a binary clause.
  ghost predicate Learned(s: State, confl: Conflict, mode: nat, binary: bool, m: nat, rest: seq<Lit>, seen: seq<bool>,
                          levels: set<nat>, learnt: Clause) {
    && FirstPoint(s, confl, m) && Gathered(s, confl, m, rest, seen) && AreLevels(s.t, rest, levels)
    && |learnt| > 0 && learnt[0] == Neg(s.t.lits[m])
    && forall q :: q in learnt <==>
         || q == Neg(s.t.lits[m])
         || (q in Left(s.t, s.db, seen, mode, levels, rest)
             && !(binary && Paired(s.db, Neg(s.t.lits[m]), Neg(q))))
  }

  lemma AllLearned(s: State, s1: State, u: State, confl: Conflict, mode: nat, binary: bool, m: nat, rest: seq<Lit>,
                   seen: seq<bool>, levels: set<nat>, out: seq<Lit>, learnt: Clause)
    requires FirstPoint(s, confl, m) && Gathered(s, confl, m, rest, seen) && AreLevels(s.t, rest, levels)
    requires SameClauses(s.db, s1.db) && SameClauses(s1.db, u.db)
    requires out == Left(s.t, s.db, seen, mode, levels, rest) && |learnt| > 0 && learnt[0] == Neg(s.t.lits[m])
    requires forall q :: q in learnt <==>
               || q == Neg(s.t.lits[m])
               || (q in out && !(binary && Paired(u.db, Neg(s.t.lits[m]), Neg(q))))
    ensures Learned(s, confl, mode, binary, m, rest, seen, levels, learnt)
  {
    hide Gathered, Resolvent, Busy, OtherCurrent, Current, AreLevels, Left, SameClauses, Paired;
    SameClausesTrans(s.db, s1.db, u.db);
    forall q ensures Paired(s.db, Neg(s.t.lits[m]), Neg(q)) <==> Paired(u.db, Neg(s.t.lits[m]), Neg(q)) {
      PairedSame(s.db, u.db, Neg(s.t.lits[m]), Neg(q));
    }
  }

  lemma UipGathers(s: State, u: State, confl: Conflict, m: nat, seen: seq<bool>, p: Lit, low: set<Lit>, rest: seq<Lit>)
    requires Uip(u, seen, p, low, rest) && u.t == s.t && u.n == s.n && FirstPoint(s, confl, m)
    requires p == s.t.lits[m] && low + {p} == Resolvent(s, confl, m + 1) && TrailOK(s.t, s.n)
    ensures Gathered(s, confl, m, rest, seen)
  {
    hide Resolvent, Busy, Refuted, TrailOK;
    assert p !in low;
    forall q ensures q in rest <==> Neg(q) in Resolvent(s, confl, m + 1) && Neg(q) != p {
      CollectedAt(rest, low, q);
      assert Neg(q) in low + {p} <==> Neg(q) in low || Neg(q) == p;
    }
    forall v | 0 <= v < s.n ensures seen[v] <==> VarIn(rest, v) {
      MarkedOccurs(u, seen, low, rest, v);
    }
  }

  lemma MarkedOccurs(u: State, seen: seq<bool>, low: set<Lit>, rest: seq<Lit>, v: Var)
    requires Marks(u.t, u.n, seen, low) && Collected(rest, low) && v < u.n && TrailOK(u.t, u.n)
    ensures seen[v] <==> VarIn(rest, v)
  {
    if seen[v] {
      var l := u.t.lits[u.t.pos[v]];
      assert IsTrue(u.t, l) && l in low;
      assert Neg(l) in rest && Neg(l).v == v;
    }
    if VarIn(rest, v) {
      var q :| q in rest && q.v == v;
      CollectedAt(rest, low, q);
    }
  }
}
