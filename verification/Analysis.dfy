// Conflict analysis on the state value: the marks of analyze, resolution along
// the trail down to the first unique implication point, and minimisation.
module Analysis {
  import opened Logic
  import opened Trails
  import opened Watching
  import opened Settling
  import opened Reasons
  import opened Delivery
  import opened States
  import opened Contracts

  // seen marks exactly the literals of marked, all of them true above level 0.
  ghost predicate Marks(t: Trail, n: nat, seen: seq<bool>, marked: set<Lit>) {
    && |seen| == n && |t.pos| == n
    && (forall l :: l in marked ==> l.v < n && IsTrue(t, l) && RootEnd(t) <= t.pos[l.v] && seen[l.v])
    && (forall l :: IsTrue(t, l) && seen[l.v] ==> l in marked)
    && (forall v :: 0 <= v < n && t.pos[v] == -1 ==> !seen[v])
  }

  ghost predicate Clear(seen: seq<bool>) {
    forall v :: 0 <= v < |seen| ==> !seen[v]
  }

  // low and cur are the marked literals below and on the current level, none at
  // position b or later.
  ghost predicate Split(t: Trail, low: set<Lit>, cur: set<Lit>, b: int) {
    && (forall l :: l in low ==> l.v < |t.pos| && t.pos[l.v] < LevelStart(t) && t.pos[l.v] < b)
    && (forall l :: l in cur ==> l.v < |t.pos| && LevelStart(t) <= t.pos[l.v] < b)
  }

  // rest, which is out_learnt after its slot 0, holds the negations of low, each
  // once.
  ghost predicate Collected(rest: seq<Lit>, low: set<Lit>) {
    (forall l: Lit :: l in low <==> Neg(l) in rest) && NoDup(rest)
  }

  lemma CollectedAt(rest: seq<Lit>, low: set<Lit>, q: Lit)
    requires Collected(rest, low)
    ensures q in rest <==> Neg(q) in low
  {
    assert Neg(Neg(q)) == q;
  }

  ghost predicate Analysing(t: Trail, n: nat, seen: seq<bool>, low: set<Lit>, cur: set<Lit>, rest: seq<Lit>,
                            pathC: int, b: int) {
    Marks(t, n, seen, low + cur) && Split(t, low, cur, b) && Collected(rest, low) && pathC == |cur|
  }

  lemma LevelPosition(t: Trail, n: nat, l: Lit)
    requires TrailOK(t, n) && IsTrue(t, l) && |t.lims| > 0
    ensures l.v < n && |t.vardata| == n
    ensures t.vardata[l.v].level > 0 <==> RootEnd(t) <= t.pos[l.v]
    ensures t.vardata[l.v].level == 0 <==> Root(t, l)
    ensures t.vardata[l.v].level >= |t.lims| <==> LevelStart(t) <= t.pos[l.v]
  {
    assert LevelOK(t.lims, t.pos[l.v], t.vardata[l.v].level);
  }

  lemma MarkCurrent(t: Trail, n: nat, seen: seq<bool>, low: set<Lit>, cur: set<Lit>, rest: seq<Lit>, pathC: int, b: int,
                    l: Lit)
    requires Analysing(t, n, seen, low, cur, rest, pathC, b) && IsTrue(t, l) && l.v < n && !seen[l.v]
    requires RootEnd(t) <= t.pos[l.v] && LevelStart(t) <= t.pos[l.v] < b
    ensures Analysing(t, n, seen[l.v := true], low, cur + {l}, rest, pathC + 1, b)
  {
    hide Collected;
    NotMarked(t, n, seen, low + cur, l);
    MarkOne(t, n, seen, low + cur, l);
    assert l !in low + cur && l !in cur;
    SplitAdd(t, low, cur, b, l);
    hide Marks, IsTrue, LevelStart, Split;
    assert low + (cur + {l}) == low + cur + {l};
  }

  lemma SplitAdd(t: Trail, low: set<Lit>, cur: set<Lit>, b: int, l: Lit)
    requires Split(t, low, cur, b) && l.v < |t.pos| && t.pos[l.v] < b
    ensures LevelStart(t) <= t.pos[l.v] ==> Split(t, low, cur + {l}, b)
    ensures t.pos[l.v] < LevelStart(t) ==> Split(t, low + {l}, cur, b)
  {
    hide LevelStart;
  }

  lemma NotMarked(t: Trail, n: nat, seen: seq<bool>, marked: set<Lit>, l: Lit)
    requires Marks(t, n, seen, marked) && l.v < n && !seen[l.v]
    ensures l !in marked
  {
  }

  lemma MarkLower(t: Trail, n: nat, seen: seq<bool>, low: set<Lit>, cur: set<Lit>, rest: seq<Lit>, pathC: int, b: int,
                  l: Lit)
    requires Analysing(t, n, seen, low, cur, rest, pathC, b) && IsTrue(t, l) && l.v < n && !seen[l.v]
    requires RootEnd(t) <= t.pos[l.v] < LevelStart(t) && t.pos[l.v] < b
    ensures Analysing(t, n, seen[l.v := true], low + {l}, cur, rest + [Neg(l)], pathC, b)
  {
    hide Collected;
    NotMarked(t, n, seen, low + cur, l);
    MarkOne(t, n, seen, low + cur, l);
    assert l !in low + cur && l !in low;
    SplitAdd(t, low, cur, b, l);
    hide Marks, IsTrue, LevelStart, Split;
    CollectOne(rest, low, l);
    assert (low + {l}) + cur == low + cur + {l};
  }

  lemma CollectOne(rest: seq<Lit>, low: set<Lit>, l: Lit)
    requires Collected(rest, low) && l !in low
    ensures Collected(rest + [Neg(l)], low + {l})
  {
    forall x | 0 <= x < |rest| ensures rest[x] != Neg(l) {
      assert rest[x] in rest;
    }
    forall x: Lit ensures x in low + {l} <==> Neg(x) in rest + [Neg(l)] {
      assert Neg(x) == Neg(l) <==> x == l;
    }
  }

  lemma MarkOne(t: Trail, n: nat, seen: seq<bool>, marked: set<Lit>, l: Lit)
    requires Marks(t, n, seen, marked) && IsTrue(t, l) && l.v < n && RootEnd(t) <= t.pos[l.v]
    ensures Marks(t, n, seen[l.v := true], marked + {l})
  {
  }

  lemma UnmarkOne(t: Trail, n: nat, seen: seq<bool>, marked: set<Lit>, l: Lit)
    requires Marks(t, n, seen, marked) && l in marked
    ensures l.v < n && Marks(t, n, seen[l.v := false], marked - {l})
  {
  }

  // The scan down the trail stops at the topmost marked literal.
  lemma TopMarked(t: Trail, n: nat, seen: seq<bool>, low: set<Lit>, cur: set<Lit>, rest: seq<Lit>, pathC: int, i: nat)
    requires TrailOK(t, n) && Analysing(t, n, seen, low, cur, rest, pathC, i + 1) && i < |t.lits|
    requires t.lits[i].v < n && seen[t.lits[i].v] && cur != {}
    ensures var p := t.lits[i];
            && p in cur && LevelStart(t) <= i && Current(t, p) && p !in low
            && Analysing(t, n, seen[p.v := false], low, cur - {p}, rest, pathC - 1, i)
  {
    hide Collected;
    var p := t.lits[i];
    AtPosition(t, n, i);
    assert p in low + cur by { hide TrailOK; }
    UnmarkOne(t, n, seen, low + cur, p);
    hide TrailOK, Marks;
    CurrentTop(t, low, cur, i);
    assert p !in low && p in cur;
    assert low + (cur - {p}) == low + cur - {p};
    SplitDown(t, low, cur - {p}, i) by {
      forall l | l in low + (cur - {p}) ensures l.v < |t.pos| && t.pos[l.v] != i {
        assert l in low + cur && l != p;
      }
    }
  }

  lemma CurrentTop(t: Trail, low: set<Lit>, cur: set<Lit>, i: nat)
    requires Split(t, low, cur, i + 1) && cur != {}
    ensures LevelStart(t) <= i && forall l :: l in low ==> l.v < |t.pos| && t.pos[l.v] < i
  {
    var m :| m in cur;
  }

  lemma SplitDown(t: Trail, low: set<Lit>, cur: set<Lit>, i: nat)
    requires forall l :: l in low ==> l.v < |t.pos| && t.pos[l.v] < LevelStart(t) && t.pos[l.v] <= i
    requires forall l :: l in cur ==> l.v < |t.pos| && LevelStart(t) <= t.pos[l.v] <= i
    requires forall l :: l in low + cur ==> l.v < |t.pos| && t.pos[l.v] != i
    ensures Split(t, low, cur, i)
  {
    hide LevelStart;
    forall l | l in low ensures t.pos[l.v] != i {
      assert l in low + cur;
    }
    forall l | l in cur ensures t.pos[l.v] != i {
      assert l in low + cur;
    }
  }

  lemma AtPosition(t: Trail, n: nat, i: nat)
    requires TrailOK(t, n) && i < |t.lits|
    ensures t.lits[i].v < n && t.pos[t.lits[i].v] == i && IsTrue(t, t.lits[i])
  {
  }

  lemma ScanPast(t: Trail, n: nat, seen: seq<bool>, low: set<Lit>, cur: set<Lit>, rest: seq<Lit>, pathC: int, i: nat)
    requires TrailOK(t, n) && Analysing(t, n, seen, low, cur, rest, pathC, i + 1) && i < |t.lits|
    requires t.lits[i].v < n && !seen[t.lits[i].v]
    ensures Analysing(t, n, seen, low, cur, rest, pathC, i)
  {
    hide Collected;
    NotMarked(t, n, seen, low + cur, t.lits[i]);
    MarkedTrue(t, n, seen, low + cur);
    hide TrailOK, Marks;
    forall l | l in low + cur ensures l.v < |t.pos| && t.pos[l.v] != i {
    }
    SplitDown(t, low, cur, i);
  }

  lemma MarkedTrue(t: Trail, n: nat, seen: seq<bool>, marked: set<Lit>)
    requires Marks(t, n, seen, marked)
    ensures forall l :: l in marked ==> l.v < |t.pos| && 0 <= t.pos[l.v] < |t.lits| && t.lits[t.pos[l.v]] == l
  {
  }

  lemma SomethingLeft(t: Trail, n: nat, seen: seq<bool>, low: set<Lit>, cur: set<Lit>, rest: seq<Lit>, pathC: int,
                      b: int)
    requires Analysing(t, n, seen, low, cur, rest, pathC, b)
    ensures pathC >= 0 && (pathC > 0 <==> cur != {})
    ensures cur != {} ==> LevelStart(t) < b
  {
    if cur != {} {
      var m :| m in cur;
    }
  }

  // ----------------------------------------------------- asking for reasons

  lemma ConflictedFacts(s: State, m: nat)
    requires Conflicted(s, m)
    ensures Base(s) && TrailOK(s.t, s.n) && Sizes(s.t, s.n) && RootOK(s.t, s.f) && s.qhead == |s.t.lits|
    ensures LevelStart(s.t) <= m <= |s.t.lits|
    ensures forall cr: nat :: Live(s.db, cr) ==> ClauseOK(s.db[cr].lits, s.n) && Entails(s.f, s.db[cr].lits)
  {
    hide WatchMapOK, ReasonsOK, HomeOK, Told, Settled, PendingOK, UndoOK, ToldReasons, Idle, TrailOK, RootOK, ClauseOK,
         Entails;
  }

  // Exchanging the literals of a binary clause during analysis.
  lemma SwapConflicted(s: State, m: nat, cr: nat)
    requires Conflicted(s, m) && Live(s.db, cr) && |s.db[cr].lits| == 2
    ensures Conflicted(Swp(s, cr, 0, 1), m)
  {
    hide WatchMapOK, Sound, Told, TrailOK, Settled, PendingOK, UndoOK, ToldReasons, Idle;
    SwapBase(s, cr);
    SwapSettled(s.t, s.db, s.n, LevelStart(s.t), NO_LIT, {}, cr);
  }

  // Only the first literal of a level is a decision.
  lemma ReasonKind(s: State, m: nat, i: nat)
    requires Conflicted(s, m) && LevelStart(s.t) < i < |s.t.lits| && |s.t.lims| > 0
    ensures s.t.lits[i].v < s.n && RootEnd(s.t) <= i && ReasonOK(s.t, s.db, s.f.constraints, i)
    ensures s.t.vardata[s.t.lits[i].v].reason != NoReason
  {
    hide Watched, AllDbEntailed, RootOK, HomeOK, Told, Settled, PendingOK, UndoOK, ToldReasons, Idle;
    assert ReasonOK(s.t, s.db, s.f.constraints, i);
    assert forall j :: 0 <= j < |s.t.lims| ==> s.t.lims[j] <= LevelStart(s.t);
  }

  lemma ConstraintReason(s: State, i: nat, k: nat, kept: seq<Lit>)
    requires Conflicted(s, i) && i < |s.t.lits| && |s.t.vardata| == s.n && s.t.lits[i].v < s.n && RootEnd(s.t) <= i
    requires s.t.vardata[s.t.lits[i].v].reason == ByConstraint(k, kept)
    ensures k < |s.f.constraints| && k < |s.log|
    ensures var r := ReasonFor(s.f.constraints[k], s.log[k], s.t.lits[..i], s.t.lits[i], kept);
            && (forall l :: l in r ==> IsTrue(s.t, l) && s.t.pos[l.v] < i)
            && Explains(s.f.constraints[k].sat, r, s.t.lits[i])
  {
    hide Watched, Sound, WatchListsOK, UndoIds, NoUndo, LevelsQuiet, Settled, PendingOK, UndoOK, Explains, LogOf, Can,
         Honest, NeedsMet;
    assert ToldReason(s.t, s.undo, s.f.constraints, i);
    LogIdle(s.undo, s.t.lits, i, k);
    PrefixFed(s, i, k);
    var con := s.f.constraints[k];
    var before := s.t.lits[..i];
    PrefixClash(s.t, s.n, i);
    HonestIsSteady(s, k);
    ReasonGood(con, s.n, s.log[k], before, s.t.lits[i], kept);
    forall l | l in before ensures IsTrue(s.t, l) && s.t.pos[l.v] < i {
      var j :| 0 <= j < i && before[j] == l;
    }
  }

  lemma PrefixClash(t: Trail, n: nat, i: nat)
    requires TrailOK(t, n) && i < |t.lits|
    ensures NoClash(t.lits[..i]) && t.lits[i] !in t.lits[..i] && Neg(t.lits[i]) !in t.lits[..i]
  {
    forall l | l in t.lits[..i] ensures l.v < n && t.pos[l.v] < i && t.lits[t.pos[l.v]] == l {
      var j :| 0 <= j < i && t.lits[j] == l;
    }
  }

  // With everything from position i on undone, the constraint has been told
  // about literals before i only.
  lemma PrefixFed(s: State, i: nat, k: nat)
    requires Base(s) && i <= |s.t.lits| && Idle(s.undo, s.t.lits, i) && k < |s.log|
    ensures InRange(s.t.lits[..i], |s.undo|) && s.log[k] == LogOf(s.undo, s.t.lits[..i], k)
    ensures k < |s.f.constraints| && Fed(s.f.constraints[k], s.log[k], s.t.lits[..i])
  {
    hide Watched, Sound, UndoIds, LevelsQuiet, TrailOK, Honest;
    LogIdle(s.undo, s.t.lits, i, k);
    LogIsFed(s, k);
    forall l | l in s.log[k] ensures l in s.t.lits[..i] {
      LogMember(s.undo, s.t.lits[..i], k, l);
    }
  }

  // The explanation of a conflict has a literal of the current level: the levels
  // below left the constraint content.
  lemma ConflictReason(s: State, k: nat, extra: seq<Lit>, because: seq<Lit>)
    requires Conflicted(s, |s.t.lits|) && ConflictOK(s, ConstraintConflict(k, extra, because)) && |s.t.lims| > 0
    ensures k < |s.f.constraints| && k < |s.log|
    ensures var r := ObjectionFor(s.f.constraints[k], s.log[k], s.t.lits, extra, because);
            && (forall l :: l in r ==> IsTrue(s.t, l))
            && Refutes(s.f.constraints[k].sat, r)
            && exists q :: q in r && Current(s.t, q)
  {
    hide Watched, Sound, WatchListsOK, LogOK, UndoIds, NoUndo, Settled, PendingOK, UndoOK, ToldReasons, Idle, Honest,
         NeedsMet, Objects, LevelsQuiet;
    LogIsFed(s, k);
    EnqueuedNoClash(s.t, s.n, NO_LIT);
    HonestIsSteady(s, k);
    var con := s.f.constraints[k];
    ObjectionGood(con, s.n, s.log[k], s.t.lits, extra, because);
    var r, below := ObjectionFor(con, s.log[k], s.t.lits, extra, because), s.t.lits[..LevelStart(s.t)];
    forall l | l in r ensures IsTrue(s.t, l) {
      var j :| 0 <= j < |s.t.lits| && s.t.lits[j] == l;
    }
    BelowIsQuiet(s, k);
    BelowIsLogged(s, k);
    ObjectionNews(con, s.n, s.log[k], s.t.lits, extra, because, below);
    var q :| q in r && q !in below;
    var j :| 0 <= j < |s.t.lits| && s.t.lits[j] == q;
    AllBelow(s.t.lits, LevelStart(s.t));
  }

  lemma AllBelow(ls: seq<Lit>, k: nat)
    requires k <= |ls|
    ensures forall j :: 0 <= j < k ==> ls[j] in ls[..k]
  {
    forall j | 0 <= j < k ensures ls[j] in ls[..k] {
      assert ls[..k][j] == ls[j];
    }
  }

  lemma BelowIsQuiet(s: State, k: nat)
    requires Base(s) && |s.t.lims| > 0 && k < |s.f.constraints|
    ensures LevelStart(s.t) <= |s.t.lits| && Quiet(s.f.constraints[k], s.t.lits[..LevelStart(s.t)])
  {
    hide Watched, Sound, WatchListsOK, LogOK, UndoIds, NoUndo, TrailOK, Honest, Refutes, NeedsMet, Quiet;
    assert QuietAt(s.f.constraints, s.t.lits[..s.t.lims[|s.t.lims| - 1]]);
    assert Content(s.f.constraints[k], s.t.lits[..LevelStart(s.t)]);
  }

  // The constraint has been told everything below the current level.
  lemma BelowIsLogged(s: State, k: nat)
    requires Base(s) && UndoOK(s.undo, s.cw, s.t.lits, LevelStart(s.t)) && k < |s.f.constraints| && k < |s.log|
    requires LevelStart(s.t) <= |s.t.lits|
    ensures forall l :: l in s.t.lits[..LevelStart(s.t)] && l in s.f.constraints[k].watched ==> l in s.log[k]
  {
    hide Watched, Sound, UndoIds, NoUndo, UndoWatched, TrailOK, Honest, NeedsMet, LevelsQuiet, LogOf, Cw, LevelStart;
    var below := s.t.lits[..LevelStart(s.t)];
    forall l | l in below && l in s.f.constraints[k].watched ensures l in s.log[k] {
      var i :| 0 <= i < |below| && below[i] == l;
      assert s.t.lits[i] == l && k in Cw(s.cw, l);
      LogMember(s.undo, s.t.lits, k, l);
    }
  }

  lemma AlreadyCurrent(t: Trail, n: nat, seen: seq<bool>, low: set<Lit>, cur: set<Lit>, b: int, l: Lit)
    requires TrailOK(t, n) && Marks(t, n, seen, low + cur) && Split(t, low, cur, b) && |t.lims| > 0
    requires Current(t, l) && l.v < n && (seen[l.v] || t.vardata[l.v].level == 0)
    ensures cur != {}
  {
    LevelPosition(t, n, l);
    assert RootEnd(t) <= LevelStart(t);
    assert l in low + cur;
  }

  // ----------------------------------------------------------- the resolvent

  // The resolvent so far is refuted, and it has a literal of the current level.
  ghost predicate Resolving(s: State, seen: seq<bool>, low: set<Lit>, cur: set<Lit>, rest: seq<Lit>, pathC: int,
                            m: nat) {
    && Conflicted(s, m) && |s.t.lims| > 0
    && Analysing(s.t, s.n, seen, low, cur, rest, pathC, m)
    && Refuted(s.f, low + cur)
    && cur != {}
  }

  // The reason of p at position i has been swapped into shape.
  ghost predicate ClauseExplains(s: State, i: nat, cr: nat) {
    && i < |s.t.lits| && Live(s.db, cr) && |s.db[cr].lits| >= 1
    && s.db[cr].lits[0] == s.t.lits[i]
    && (forall x :: 1 <= x < |s.db[cr].lits| ==> TrueBefore(s.t, Neg(s.db[cr].lits[x]), i))
  }

  lemma LongReason(s: State, m: nat, i: nat, cr: nat)
    requires Conflicted(s, m) && i < |s.t.lits| && s.t.lits[i].v < s.n && Sizes(s.t, s.n)
    requires ReasonOK(s.t, s.db, s.f.constraints, i) && s.t.vardata[s.t.lits[i].v].reason == ByClause(cr)
    ensures Live(s.db, cr) && |s.db[cr].lits| >= 2 && ClauseOK(s.db[cr].lits, s.n)
    ensures s.db[cr].lits[0].v < s.n
    ensures |s.db[cr].lits| > 2 ==> ClauseExplains(s, i, cr)
    ensures |s.db[cr].lits| == 2 && ValueOf(s.t.assigns, s.db[cr].lits[0]) != False ==> ClauseExplains(s, i, cr)
    ensures |s.db[cr].lits| == 2 && ValueOf(s.t.assigns, s.db[cr].lits[0]) == False ==>
              ClauseExplains(Swp(s, cr, 0, 1), i, cr)
  {
    hide Conflicted, Base, TrailOK, IsTrue, Entails, RootOK;
    ConflictedFacts(s, m);
    var c := s.db[cr].lits;
    AtPosition(s.t, s.n, i);
    assert Implies(s.t, c, s.t.lits[i], i);
    assert c[0] in c && c[1] in c;
    hide ReasonOK, Implies, InRange;
    ImplyShape(s.t, s.n, c, s.t.lits[i], i);
  }

  lemma ImplyShape(t: Trail, n: nat, c: Clause, p: Lit, i: nat)
    requires TrailOK(t, n) && |t.assigns| == n && ClauseOK(c, n) && c[0].v < n && Implies(t, c, p, i)
    requires IsTrue(t, p) && t.pos[p.v] == i
    ensures |c| > 2 || ValueOf(t.assigns, c[0]) != False ==>
              c[0] == p && forall x :: 1 <= x < |c| ==> TrueBefore(t, Neg(c[x]), i)
    ensures |c| == 2 && ValueOf(t.assigns, c[0]) == False ==> c[1] == p && TrueBefore(t, Neg(c[0]), i)
  {
    hide TrailOK;
    ValueIsPosition(t, n, c[0]);
    assert c[0] in c && c[1] in c;
    if c[0] == p {
      forall x | 1 <= x < |c| ensures TrueBefore(t, Neg(c[x]), i) {
        assert c[x] in c && c[x] != p;
      }
      assert Neg(p) != p && !IsFalse(t, p);
    } else {
      assert TrueBefore(t, Neg(c[0]), i);
      var x :| 0 <= x < |c| && c[x] == p;
    }
  }

  lemma ResolveWithClause(s: State, i: nat, m: nat, cr: nat, low: set<Lit>, cur: set<Lit>, low': set<Lit>,
                          cur': set<Lit>)
    requires Conflicted(s, m) && ClauseExplains(s, i, cr) && Refuted(s.f, low + cur + {s.t.lits[i]})
    requires low <= low' && cur <= cur'
    requires forall x :: 1 <= x < |s.db[cr].lits| ==>
               Neg(s.db[cr].lits[x]) in low' + cur' || Root(s.t, Neg(s.db[cr].lits[x]))
    ensures Refuted(s.f, low' + cur')
  {
    hide Conflicted, Base, TrailOK, RootOK, Entails, Refuted, ClauseOK, Root;
    ConflictedFacts(s, m);
    var c := s.db[cr].lits;
    forall q | q in c && q != s.t.lits[i] ensures Neg(q) in low' + cur' || Root(s.t, Neg(q)) {
      var x :| 0 <= x < |c| && c[x] == q;
    }
    ResolveClause(s.t, s.f, low + cur, s.t.lits[i], low' + cur', c);
  }

  lemma ExplainsBefore(s: State, i: nat, cr: nat)
    requires ClauseExplains(s, i, cr)
    ensures Live(s.db, cr) && |s.db[cr].lits| >= 1
    ensures forall x :: 1 <= x < |s.db[cr].lits| ==> TrueBefore(s.t, Neg(s.db[cr].lits[x]), i)
  {
  }

  lemma NothingMarked(t: Trail, n: nat, seen: seq<bool>)
    requires TrailOK(t, n) && |seen| == n && Clear(seen)
    ensures Analysing(t, n, seen, {}, {}, [], 0, |t.lits|)
  {
    var none: set<Lit> := {};
    assert none + none == none;
  }

  lemma FalsifiedBefore(t: Trail, n: nat, c: Clause)
    requires Falsified(t, c)
    ensures forall x :: 0 <= x < |c| ==> TrueBefore(t, Neg(c[x]), |t.lits|)
  {
    forall x | 0 <= x < |c| ensures TrueBefore(t, Neg(c[x]), |t.lits|) {
      assert c[x] in c;
    }
  }

  lemma AllBefore(t: Trail, ls: seq<Lit>)
    requires forall l :: l in ls ==> IsTrue(t, l)
    ensures forall l :: l in ls ==> TrueBefore(t, l, |t.lits|)
  {
  }

  lemma IdlePopped(s: State, m: nat)
    requires Conflicted(s, m)
    ensures PoppedTo(s, s.undo, s.log, m)
  {
    hide Watched, Sound, TrailOK, WatchListsOK, LogOK, UndoIds, NoUndo, UndoWatched, LevelsQuiet, Honest, Settled,
         PendingOK, UndoOK, ToldReasons;
  }

  // p is the only literal of the current level left in the resolvent; low are
  // the others.
  ghost predicate Uip(s: State, seen: seq<bool>, p: Lit, low: set<Lit>, rest: seq<Lit>) {
    && Current(s.t, p)
    && Marks(s.t, s.n, seen, low)
    && (forall l :: l in low ==> l.v < |s.t.pos| && s.t.pos[l.v] < LevelStart(s.t))
    && Collected(rest, low)
    && Refuted(s.f, low + {p})
  }

  lemma UipFound(s: State, seen: seq<bool>, low: set<Lit>, cur: set<Lit>, rest: seq<Lit>, i: nat, p: Lit)
    requires Analysing(s.t, s.n, seen, low, cur, rest, 0, i) && Current(s.t, p) && Refuted(s.f, low + cur + {p})
    ensures Uip(s, seen, p, low, rest)
  {
    hide Marks, Collected, Refuted, Current;
    assert cur == {};
    assert low + cur == low;
  }
}
