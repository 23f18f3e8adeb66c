// The solver state as one value, the invariants every step keeps, and the steps.
module States {
  import opened Logic
  import opened Trails
  import opened Watching
  import opened Settling
  import opened Reasons
  import opened Delivery
  import opened Contracts

  datatype State = State(n: nat, t: Trail, qhead: nat, db: Db, longs: WatchMap, bins: WatchMap,
                         f: Formula, home: seq<int>,
                         cw: ConstrWatches, undo: seq<seq<nat>>, log: seq<seq<Lit>>, pending: seq<int>,
                         tell: seq<Teller>)

  const NO_LIT := Lit(0, false)

  ghost predicate Shape(s: State) {
    && Sizes(s.t, s.n)
    && s.qhead <= |s.t.lits|
    && |s.undo| == s.n
    && |s.pending| == |s.f.constraints| == |s.log| == |s.tell|
    && InRange(s.t.lits, s.n)
    && (forall j :: 0 <= j < |s.t.lims| ==> s.t.lims[j] <= |s.t.lits|)
  }

  ghost predicate Watched(s: State) {
    DbOK(s.db, s.n) && WatchMapOK(s.db, s.longs, s.n, true) && WatchMapOK(s.db, s.bins, s.n, false)
  }

  ghost predicate Sound(s: State) {
    && AllDbEntailed(s.f, s.db)
    && RootOK(s.t, s.f)
    && ReasonsOK(s.t, s.db, s.f.constraints)
    && HomeOK(s.f.clauses, s.home, s.db, s.t)
  }

  // The clauses that constraints count on are part of the problem.
  ghost predicate NeedsMet(f: Formula, home: seq<int>) {
    && |home| <= |f.clauses|
    && forall con, c :: con in f.constraints && c in Needs(con) ==> c in f.clauses[..|home|]
  }

  // How the constraints answer at level 0; see RootHonest.
  ghost predicate TellOK(cons: seq<Constraint>, n: nat, tell: seq<Teller>) {
    |tell| == |cons| && forall k :: 0 <= k < |cons| ==> RootHonest(cons[k], n, tell[k])
  }

  ghost predicate Told(s: State) {
    && TellOK(s.f.constraints, s.n, s.tell)
    && WatchListsOK(s.cw, s.f.constraints, s.n)
    && (forall k :: 0 <= k < |s.f.constraints| ==> Honest(s.f.constraints[k], s.n))
    && NeedsMet(s.f, s.home)
    && LogOK(s.undo, s.log, s.t.lits)
    && UndoIds(s.undo, |s.log|)
    && NoUndo(s.undo, s.t) && UndoWatched(s.undo, s.cw, s.t.lits)
    && LevelsQuiet(s.f.constraints, s.t)
  }

  // Every open decision level holds its decision.
  ghost predicate TopNonEmpty(t: Trail) {
    |t.lims| > 0 ==> t.lims[|t.lims| - 1] < |t.lits|
  }

  // What holds at every point of a run.
  ghost predicate Base(s: State) {
    Shape(s) && TrailOK(s.t, s.n) && TopNonEmpty(s.t) && Watched(s) && Sound(s) && Told(s)
  }

  // In the middle of propagating, with a conflict perhaps about to be reported:
  // see Settled for ex and todo, PendingPlus for rest and UndoOK for low.
  ghost predicate Failing(s: State, ex: Lit, todo: set<nat>, rest: seq<nat>, low: nat) {
    && Base(s)
    && LevelStart(s.t) <= low <= s.qhead
    && Settled(s.t, s.db, s.n, s.qhead, ex, todo)
    && PendingPlus(s.cw, s.pending, s.t.lits[s.qhead..], rest)
    && UndoOK(s.undo, s.cw, s.t.lits, low)
    && ToldReasons(s.t, s.undo, s.f.constraints, |s.t.lits|)
  }

  // In the middle of propagating without a conflict so far; see Idle for idle.
  ghost predicate Propagating(s: State, ex: Lit, todo: set<nat>, rest: seq<nat>, low: nat, idle: nat) {
    && Failing(s, ex, todo, rest, low)
    && QuietOrPending(s.f.constraints, s.pending, s.t.lits)
    && Idle(s.undo, s.t.lits, idle)
  }

  // Between two propagation steps.
  ghost predicate Ready(s: State) {
    Propagating(s, NO_LIT, {}, [], s.qhead, s.qhead)
  }

  // After a conflict: the queue is empty and the levels below the current one
  // are as they were when they were completed.  The undo lists of the literals
  // from position m on have been worked off.
  ghost predicate Conflicted(s: State, m: int) {
    && Base(s)
    && s.qhead == |s.t.lits|
    && Settled(s.t, s.db, s.n, LevelStart(s.t), NO_LIT, {})
    && PendingOK(s.cw, s.pending, [])
    && UndoOK(s.undo, s.cw, s.t.lits, LevelStart(s.t))
    && ToldReasons(s.t, s.undo, s.f.constraints, m + 1)
    && Idle(s.undo, s.t.lits, m)
    && LevelStart(s.t) <= m <= |s.t.lits|
  }

  datatype Conflict =
    | NoConflict
    | ClauseConflict(cr: nat)
    | ConstraintConflict(k: nat, extra: seq<Lit>, because: seq<Lit>)

  ghost predicate Current(t: Trail, l: Lit) {
    IsTrue(t, l) && LevelStart(t) <= t.pos[l.v]
  }

  // Constraint k has an objection it can give reasons for, or, at level 0, any at all.
  ghost predicate Opposes(s: State, k: nat, extra: seq<Lit>, because: seq<Lit>)
    requires k < |s.f.constraints| && k < |s.log|
  {
    if |s.t.lims| > 0 then Objects(s.f.constraints[k], s.log[k], s.t.lits, extra, because)
    else Refutes(s.f.constraints[k].sat, s.t.lits)
  }

  // The literal p follows for constraint k, and above level 0 it can say why.
  ghost predicate Argues(s: State, k: nat, p: Lit, kept: seq<Lit>)
    requires k < |s.f.constraints| && k < |s.log|
  {
    if |s.t.lims| > 0 then Can(s.f.constraints[k], s.log[k], s.t.lits, p, kept)
    else Explains(s.f.constraints[k].sat, s.t.lits, p)
  }

  ghost predicate ConflictOK(s: State, c: Conflict) {
    match c
    case NoConflict => true
    case ClauseConflict(cr) =>
      && Live(s.db, cr)
      && Falsified(s.t, s.db[cr].lits)
      && exists q :: q in s.db[cr].lits && Current(s.t, Neg(q))
    case ConstraintConflict(k, extra, because) =>
      && k < |s.f.constraints| && k < |s.log|
      && Opposes(s, k, extra, because)
  }

  lemma WatchIds(s: State, q: Lit)
    requires WatchListsOK(s.cw, s.f.constraints, s.n) && |s.pending| == |s.f.constraints|
    ensures Ids(Cw(s.cw, q), |s.pending|)
  {
  }

  // ------------------------------------------------------------------ enqueue

  ghost function Enq(s: State, p: Lit, r: Reason, pending: seq<int>): State
    requires Sizes(s.t, s.n) && p.v < s.n
  {
    s.(t := Enqueued(s.t, p, r), pending := pending)
  }

  // What uncheckedEnqueue demands of its caller.
  ghost predicate MayEnqueue(s: State, p: Lit, r: Reason) {
    && p.v < s.n && |s.t.pos| == s.n
    && s.t.pos[p.v] == -1
    && (|s.t.lims| > 0 ==> NewReasonOK(s.t, s.db, s.f.constraints, p, r))
    && (|s.t.lims| == 0 ==> Entails(s.f, [p]))
  }

  lemma EnqueueBase(s: State, p: Lit, r: Reason, pending: seq<int>)
    requires Base(s) && MayEnqueue(s, p, r) && |pending| == |s.pending|
    ensures Base(Enq(s, p, r, pending))
  {
    hide WatchMapOK, DbOK, AllDbEntailed, ReasonsOK, RootOK, HomeOK, WatchListsOK, LogOK, UndoIds, UndoWatched,
         LevelsQuiet, Entails, Honest;
    EnqueuedOK(s.t, s.n, p, r);
    EnqueueRoot(s.t, s.n, s.f, p, r);
    EnqueueReasons(s.t, s.n, s.db, s.f.constraints, p, r);
    HomeTrail(s.f.clauses, s.home, s.db, s.t, Enqueued(s.t, p, r));
    EnqueueQuiet(s.f.constraints, s.t, s.n, p, r);
    EnqueueLog(s.undo, s.log, s.t, s.n, p, r);
  }

  // A literal enqueued by a constraint follows from what it has been told.
  ghost predicate TellsWhy(s: State, p: Lit, r: Reason) {
    r.ByConstraint? && |s.t.lims| > 0 ==>
      && r.k < |s.f.constraints| && r.k < |s.log|
      && Can(s.f.constraints[r.k], s.log[r.k], s.t.lits, p, r.kept)
  }

  lemma EnqueueFailing(s: State, p: Lit, r: Reason, pending: seq<int>,
                       ex: Lit, todo: set<nat>, rest: seq<nat>, low: nat)
    requires Failing(s, ex, todo, rest, low) && MayEnqueue(s, p, r) && TellsWhy(s, p, r)
    requires Bumped(s.pending, pending, Cw(s.cw, p), 1)
    ensures Failing(Enq(s, p, r, pending), ex, todo, rest, low)
    ensures QuietOrPending(s.f.constraints, s.pending, s.t.lits) ==>
              QuietOrPending(s.f.constraints, pending, s.t.lits + [p])
    ensures forall m: nat :: QuietUpTo(s.f.constraints, s.pending, s.t.lits, m) ==>
              QuietUpTo(s.f.constraints, pending, s.t.lits + [p], m)
  {
    hide WatchMapOK, DbOK, AllDbEntailed, ReasonsOK, RootOK, HomeOK, WatchListsOK, LogOK, UndoIds, LevelsQuiet,
         Entails, ToldReasons, Explains, Content, NewReasonOK;
    EnqueueBase(s, p, r, pending);
    EnqueueKeeps(s.t, s.db, s.n, s.qhead, ex, todo, p, r);
    EnqueueUndo(s.undo, s.cw, s.t, s.n, p, low, |s.t.lits|);
    EnqueueTold(s.t, s.n, s.undo, s.log, s.f.constraints, p, r);
    assert (s.t.lits + [p])[s.qhead..] == s.t.lits[s.qhead..] + [p];
    EnqueuedNoClash(s.t, s.n, p);
    EnqueuePending(s.cw, s.f.constraints, s.n, s.pending, pending, s.t.lits[s.qhead..], rest, s.t.lits, p);
  }

  lemma EnqueuedNoClash(t: Trail, n: nat, p: Lit)
    requires TrailOK(t, n)
    ensures NoClash(t.lits)
    ensures p.v < n && t.pos[p.v] == -1 ==> NoClash(t.lits + [p])
  {
  }

  lemma EnqueueStep(s: State, p: Lit, r: Reason, pending: seq<int>,
                    ex: Lit, todo: set<nat>, rest: seq<nat>, low: nat, idle: nat)
    requires Propagating(s, ex, todo, rest, low, idle) && MayEnqueue(s, p, r) && TellsWhy(s, p, r)
    requires Bumped(s.pending, pending, Cw(s.cw, p), 1)
    ensures Propagating(Enq(s, p, r, pending), ex, todo, rest, low, idle)
  {
    hide Watched, Sound, WatchListsOK, LogOK, UndoIds, LevelsQuiet, ToldReasons, Content, Settled;
    EnqueueFailing(s, p, r, pending, ex, todo, rest, low);
    EnqueueUndo(s.undo, s.cw, s.t, s.n, p, low, idle);
  }

  // Unit propagation hands uncheckedEnqueue a clause whose other literals are
  // all false.
  lemma UnitMayEnqueue(s: State, cr: nat, p: Lit)
    requires Base(s) && Live(s.db, cr) && p in s.db[cr].lits && p.v < s.n && s.t.pos[p.v] == -1
    requires forall q :: q in s.db[cr].lits && q != p ==> IsFalse(s.t, q)
    requires |s.db[cr].lits| > 2 ==> s.db[cr].lits[0] == p
    ensures MayEnqueue(s, p, ByClause(cr))
  {
    hide Watched, Told, ReasonsOK, HomeOK, TrailOK;
    if |s.t.lims| == 0 {
      RootClauseUnit(s.t, s.f, s.db[cr].lits, p);
    }
  }

  lemma ConstraintMayEnqueue(s: State, k: nat, p: Lit, kept: seq<Lit>)
    requires Base(s) && k < |s.f.constraints| && k < |s.log| && p.v < s.n && s.t.pos[p.v] == -1
    requires Argues(s, k, p, kept)
    ensures MayEnqueue(s, p, ByConstraint(k, kept)) && TellsWhy(s, p, ByConstraint(k, kept))
  {
    hide Watched, ReasonsOK, HomeOK, LogOK, UndoIds, NoUndo, UndoWatched, LevelsQuiet, Honest, Explains, Can, Steady,
         TellOK;
    HonestIsSteady(s, k);
    LogIsFed(s, k);
    if |s.t.lims| == 0 {
      RootConstraintUnit(s.t, s.n, s.f, s.f.constraints[k], p);
    } else {
      CanExplains(s.f.constraints[k], s.log[k], s.t.lits, p, kept);
    }
  }

  lemma HonestIsSteady(s: State, k: nat)
    requires Base(s) && k < |s.f.constraints|
    ensures Honest(s.f.constraints[k], s.n) && Steady(s.f.constraints[k])
  {
    hide Watched, Sound, WatchListsOK, LogOK, UndoIds, NoUndo, UndoWatched, LevelsQuiet, TrailOK, Honest, NeedsMet;
    HonestSteady(s.f.constraints[k], s.n);
  }

  // -------------------------------------------------- the steps of propagate

  // What no step of propagation touches.
  ghost predicate Later(s: State, u: State) {
    && u.n == s.n && u.f == s.f && u.cw == s.cw && u.home == s.home && u.tell == s.tell
    && u.t.lims == s.t.lims && s.t.lits <= u.t.lits
    && |u.db| == |s.db|
  }

  lemma LaterSame(s: State, u: State)
    requires u == s.(longs := u.longs)
    ensures Later(s, u)
  {
  }

  lemma LaterTrans(s: State, u: State, v: State)
    requires Later(s, u) && Later(u, v)
    ensures Later(s, v)
  {
  }

  // Fewer clauses are left to visit.
  lemma TodoStep(s: State, ex: Lit, todo: set<nat>, more: set<nat>, rest: seq<nat>, low: nat, idle: nat)
    requires Propagating(s, ex, todo, rest, low, idle) && todo <= more
    ensures Propagating(s, ex, more, rest, low, idle)
  {
    hide WatchMapOK, Sound, Told, TrailOK;
    forall cr: nat | Live(s.db, cr) ensures ClauseSettled(s.t, s.db[cr].lits, s.qhead, ex, cr in more) {
      assert ClauseSettled(s.t, s.db[cr].lits, s.qhead, ex, cr in todo);
    }
  }

  lemma WatcherInList(db: Db, wm: WatchMap, n: nat, p: Lit, w: Watcher, long: bool)
    requires ListsOK(db, wm, n, long) && p.v < n && w in Ws(wm, p)
    ensures WatcherOK(db, p, w, long)
  {
    var ws := Ws(wm, p);
    assert ListOK(db, p, ws, long);
    var i :| 0 <= i < |ws| && ws[i] == w;
  }

  // A watcher of a binary clause holds the other literal.
  lemma BinaryWatcher(s: State, p: Lit, w: Watcher)
    requires Watched(s) && p.v < s.n && w in Ws(s.bins, p)
    ensures Live(s.db, w.cref) && |s.db[w.cref].lits| == 2 && w.blocker.v < s.n
    ensures forall l :: l in s.db[w.cref].lits <==> l == w.blocker || l == Neg(p)
    ensures w.blocker != Neg(p)
  {
    hide ListsOK, TwiceOK;
    WatcherInList(s.db, s.bins, s.n, p, w, false);
    MemberOK(s.db, s.n, w.cref);
    hide DbOK;
    var c := s.db[w.cref].lits;
    assert c == [c[0], c[1]];
  }

  lemma LongWatcher(s: State, p: Lit, w: Watcher)
    requires Watched(s) && p.v < s.n && w in Ws(s.longs, p)
    ensures Live(s.db, w.cref) && ClauseOK(s.db[w.cref].lits, s.n) && |s.db[w.cref].lits| > 2
    ensures w.blocker in s.db[w.cref].lits && w.blocker.v < s.n
    ensures s.db[w.cref].lits[0] == Neg(p) || s.db[w.cref].lits[1] == Neg(p)
  {
    hide ListsOK, TwiceOK;
    WatcherInList(s.db, s.longs, s.n, p, w, true);
    MemberOK(s.db, s.n, w.cref);
  }

  // trail[qhead++].
  lemma TakeStep(s: State)
    requires Ready(s) && s.qhead < |s.t.lits|
    ensures var p := s.t.lits[s.qhead];
            Propagating(s.(qhead := s.qhead + 1), Neg(p), Crefs(Ws(s.longs, p)) + Crefs(Ws(s.bins, p)),
                        Cw(s.cw, p), s.qhead, s.qhead)
  {
    hide WatchMapOK, DbOK, AllDbEntailed, ReasonsOK, RootOK, HomeOK, WatchListsOK, LogOK, UndoIds, NoUndo,
         UndoWatched, LevelsQuiet, Entails;
    var p := s.t.lits[s.qhead];
    TakeKeeps(s.t, s.db, s.n, s.qhead, s.longs, s.bins);
    var queue := s.t.lits[s.qhead..];
    assert queue[0] == p && queue[1..] == s.t.lits[s.qhead + 1..];
  }

  lemma VisitStep(s: State, ex: Lit, todo: set<nat>, rest: seq<nat>, low: nat, idle: nat, cr: nat, b: Lit)
    requires Propagating(s, ex, todo, rest, low, idle) && Live(s.db, cr)
    requires b in s.db[cr].lits && IsTrue(s.t, b) && Current(s.t, Neg(ex))
    ensures Propagating(s, ex, todo - {cr}, rest, low, idle)
  {
    hide WatchMapOK, DbOK, AllDbEntailed, ReasonsOK, RootOK, HomeOK, WatchListsOK, LogOK, UndoIds, NoUndo,
         UndoWatched, LevelsQuiet;
    CurrentIsTop(s.t, s.n, Neg(ex), b);
    VisitKeeps(s.t, s.db, s.n, s.qhead, ex, todo, cr, b);
  }

  // A literal of the current level is assigned at least as late as any other.
  lemma CurrentIsTop(t: Trail, n: nat, l: Lit, b: Lit)
    requires TrailOK(t, n) && IsTrue(t, b)
    ensures Current(t, l) ==> Level(t, l) == |t.lims| && Level(t, b) <= Level(t, l)
  {
    if Current(t, l) {
      assert LevelOK(t.lims, t.pos[l.v], t.vardata[l.v].level);
      assert LevelOK(t.lims, t.pos[b.v], t.vardata[b.v].level);
    }
  }

  ghost function Swp(s: State, cr: nat, i: nat, j: nat): State
    requires cr < |s.db| && i < |s.db[cr].lits| && j < |s.db[cr].lits|
  {
    s.(db := SwapLits(s.db, cr, i, j))
  }

  // Exchanging the two watched literals, allowed while literal 0 is not true or
  // the clause is binary.
  lemma SwapBase(s: State, cr: nat)
    requires Base(s) && Live(s.db, cr) && |s.db[cr].lits| >= 2
    requires |s.db[cr].lits| == 2 || !IsTrue(s.t, s.db[cr].lits[0])
    ensures Base(Swp(s, cr, 0, 1))
  {
    hide WatchMapOK, DbOK, AllDbEntailed, ReasonsOK, RootOK, HomeOK, WatchListsOK, LogOK, UndoIds, NoUndo,
         UndoWatched, LevelsQuiet, TrailOK, IsTrue;
    SwapWatchedKeeps(s.db, s.longs, s.n, true, cr);
    SwapWatchedKeeps(s.db, s.bins, s.n, false, cr);
    SwapReasons(s.t, s.n, s.db, s.f.constraints, cr, 0, 1);
    HomeSwap(s.f.clauses, s.home, s.db, s.t, cr, 0, 1);
    EntailedSwap(s.f, s.db, cr, 0, 1);
  }

  lemma SwapStep(s: State, ex: Lit, todo: set<nat>, rest: seq<nat>, low: nat, idle: nat, cr: nat)
    requires Propagating(s, ex, todo, rest, low, idle) && Live(s.db, cr) && |s.db[cr].lits| >= 2
    requires |s.db[cr].lits| == 2 || !IsTrue(s.t, s.db[cr].lits[0])
    ensures Propagating(Swp(s, cr, 0, 1), ex, todo, rest, low, idle)
  {
    SwapBase(s, cr);
    SwapSettled(s.t, s.db, s.n, s.qhead, ex, todo, cr);
  }

  lemma ReblockStep(s: State, ex: Lit, todo: set<nat>, rest: seq<nat>, low: nat, idle: nat,
                    p: Lit, kept: seq<Watcher>, w: Watcher, tail: seq<Watcher>, b: Lit)
    requires Propagating(s, ex, todo, rest, low, idle)
    requires p.v < s.n && Ws(s.longs, p) == kept + [w] + tail && Live(s.db, w.cref) && b in s.db[w.cref].lits
    ensures Propagating(s.(longs := s.longs[p := kept + [Watcher(w.cref, b)] + tail]), ex, todo, rest, low, idle)
  {
    hide WatchMapOK, DbOK, AllDbEntailed, ReasonsOK, RootOK, HomeOK, WatchListsOK, LogOK, UndoIds, NoUndo,
         UndoWatched, LevelsQuiet, TrailOK, Settled;
    ReblockKeeps(s.db, s.longs, s.n, p, kept, w, tail, b);
  }

  ghost function Mov(s: State, p: Lit, kept: seq<Watcher>, w: Watcher, tail: seq<Watcher>, k: nat): State
    requires w.cref < |s.db| && 1 < k < |s.db[w.cref].lits|
  {
    s.(db := SwapLits(s.db, w.cref, 1, k), longs := Moved(s.db, s.longs, p, kept, w, tail, k))
  }

  lemma MoveBase(s: State, p: Lit, kept: seq<Watcher>, w: Watcher, tail: seq<Watcher>, k: nat)
    requires Base(s) && p.v < s.n && Ws(s.longs, p) == kept + [w] + tail
    requires Live(s.db, w.cref) && 2 <= k < |s.db[w.cref].lits| && s.db[w.cref].lits[1] == Neg(p)
    ensures Base(Mov(s, p, kept, w, tail, k))
  {
    hide WatchMapOK, DbOK, AllDbEntailed, ReasonsOK, RootOK, HomeOK, WatchListsOK, LogOK, UndoIds, NoUndo, UndoWatched,
         LevelsQuiet, TrailOK, Honest, TopNonEmpty;
    MoveKeeps(s.db, s.longs, s.n, p, kept, w, tail, k);
    SwapLongKeepsBin(s.db, s.bins, s.n, w.cref, 1, k);
    SwapReasons(s.t, s.n, s.db, s.f.constraints, w.cref, 1, k);
    HomeSwap(s.f.clauses, s.home, s.db, s.t, w.cref, 1, k);
    EntailedSwap(s.f, s.db, w.cref, 1, k);
  }

  lemma MoveStep(s: State, todo: set<nat>, rest: seq<nat>, low: nat, idle: nat,
                 p: Lit, kept: seq<Watcher>, w: Watcher, tail: seq<Watcher>, k: nat)
    requires Propagating(s, Neg(p), todo, rest, low, idle)
    requires p.v < s.n && Ws(s.longs, p) == kept + [w] + tail
    requires Live(s.db, w.cref) && 2 <= k < |s.db[w.cref].lits| && s.db[w.cref].lits[1] == Neg(p)
    requires !IsFalse(s.t, s.db[w.cref].lits[k])
    ensures Propagating(Mov(s, p, kept, w, tail, k), Neg(p), todo - {w.cref}, rest, low, idle)
  {
    MoveBase(s, p, kept, w, tail, k);
    MemberOK(s.db, s.n, w.cref);
    MoveSettled(s.t, s.db, s.n, s.qhead, Neg(p), todo, w.cref, k);
  }

  lemma DoneStep(s: State, ex: Lit, rest: seq<nat>, low: nat, idle: nat)
    requires Propagating(s, ex, {}, rest, low, idle)
    ensures Propagating(s, NO_LIT, {}, rest, low, idle)
  {
    hide WatchMapOK, AllDbEntailed, ReasonsOK, RootOK, HomeOK, WatchListsOK, LogOK, UndoIds, NoUndo, UndoWatched,
         LevelsQuiet, TrailOK;
    DoneSettled(s.t, s.db, s.n, s.qhead, ex);
  }

  // registerUndo, and the literal joins what the constraint has been told.
  ghost function Dlv(s: State, i: nat, k: nat): State
    requires i < |s.t.lits| && s.t.lits[i].v < |s.undo| && k < |s.log| && k < |s.pending|
  {
    var p := s.t.lits[i];
    s.(undo := s.undo[p.v := s.undo[p.v] + [k]], log := s.log[k := s.log[k] + [p]],
       pending := s.pending[k := s.pending[k] - 1])
  }

  lemma DeliverBase(s: State, i: nat, k: nat)
    requires Base(s) && i < |s.t.lits| && Idle(s.undo, s.t.lits, i + 1) && k < |s.log|
    requires k in Cw(s.cw, s.t.lits[i]) && s.t.lits[i].v < |s.undo| && k !in s.undo[s.t.lits[i].v]
    ensures s.t.lits[i].v < s.n && Base(Dlv(s, i, k))
  {
    hide WatchMapOK, DbOK, AllDbEntailed, ReasonsOK, RootOK, HomeOK, LogOK, LevelsQuiet, WatchListsOK, Honest;
    DeliverLog(s.undo, s.log, s.t, s.n, i, k);
  }

  // num_pending_propagation_ -= 1 and the call of propagate for constraint
  // rest[0]; its verdict comes separately.
  lemma DeliverStep(s: State, rest: seq<nat>, q: nat)
    requires Propagating(s, NO_LIT, {}, rest, q, q + 1) && s.qhead == q + 1 && rest != []
    requires rest[0] < |s.log| && rest[0] in Cw(s.cw, s.t.lits[q])
    requires s.t.lits[q].v < |s.undo| && rest[0] !in s.undo[s.t.lits[q].v]
    ensures s.t.lits[q].v < s.n
    ensures Failing(Dlv(s, q, rest[0]), NO_LIT, {}, rest[1..], q)
    ensures Idle(Dlv(s, q, rest[0]).undo, s.t.lits, q + 1)
    ensures (s.pending[rest[0]] == 1 ==> Content(s.f.constraints[rest[0]], s.t.lits)) ==>
              Propagating(Dlv(s, q, rest[0]), NO_LIT, {}, rest[1..], q, q + 1)
  {
    hide WatchMapOK, DbOK, AllDbEntailed, ReasonsOK, RootOK, HomeOK, WatchListsOK, LogOK, UndoIds, NoUndo,
         LevelsQuiet, Settled, TrailOK, Content, Honest, ToldReasons;
    var k := rest[0];
    DeliverBase(s, q, k);
    assert rest == [k] + rest[1..];
    assert multiset(rest) == multiset{k} + multiset(rest[1..]);
    DeliverUndo(s, q, k);
    forall x: nat | x < |s.f.constraints| ensures Steady(s.f.constraints[x]) {
      HonestIsSteady(s, x);
    }
    ToldGrows(s.t, s.undo, Dlv(s, q, k).undo, s.f.constraints, |s.t.lits|);
  }

  lemma DeliverUndo(s: State, q: nat, k: nat)
    requires Base(s) && q < |s.t.lits| && k < |s.log|
    requires UndoOK(s.undo, s.cw, s.t.lits, q) && Idle(s.undo, s.t.lits, q + 1)
    ensures s.t.lits[q].v < s.n
    ensures UndoOK(Dlv(s, q, k).undo, s.cw, s.t.lits, q) && Idle(Dlv(s, q, k).undo, s.t.lits, q + 1)
  {
    hide WatchMapOK, DbOK, Sound, Told;
  }

  // Everything constraint k has been told is on the trail and watched by it; if
  // nothing is pending for it, it has been told everything it watches.
  lemma LogIsFed(s: State, k: nat)
    requires Base(s) && k < |s.log|
    ensures Fed(s.f.constraints[k], s.log[k], s.t.lits)
  {
    hide Watched, Sound, UndoIds, LevelsQuiet, TrailOK, Honest;
    forall l | l in s.log[k] ensures l in s.t.lits && l in s.f.constraints[k].watched {
      LogMember(s.undo, s.t.lits, k, l);
    }
    TrailNoDup(s.t, s.n);
    forall l | l in s.t.lits ensures NoDup(s.undo[l.v]) {
    }
    LogNoDup(s.undo, s.t.lits, k);
  }

  lemma TrailNoDup(t: Trail, n: nat)
    requires TrailOK(t, n)
    ensures NoDup(t.lits)
  {
  }

  // All constraints that watch literal q have been told.
  lemma ToldStep(s: State, q: nat)
    requires Propagating(s, NO_LIT, {}, [], q, q + 1) && s.qhead == q + 1
    requires s.t.lits[q].v < |s.undo| && s.undo[s.t.lits[q].v] == Cw(s.cw, s.t.lits[q])
    ensures Ready(s)
  {
    hide Base, Settled, LevelStart, ToldReasons;
  }

  // The exits with a conflict, once the queue has been drained.
  lemma ConflictStep(s: State, ex: Lit, todo: set<nat>, rest: seq<nat>, low: nat, pending: seq<int>)
    requires Failing(s, ex, todo, rest, low)
    requires |pending| == |s.pending| && PendingOK(s.cw, pending, [])
    requires !TrueBefore(s.t, Neg(ex), LevelStart(s.t)) || todo == {}
    ensures Conflicted(s.(qhead := |s.t.lits|, pending := pending), |s.t.lits|)
  {
    hide WatchMapOK, AllDbEntailed, ReasonsOK, RootOK, HomeOK, WatchListsOK, LogOK, UndoIds, NoUndo, UndoWatched,
         LevelsQuiet, TrailOK, TrueBefore, Honest, ToldReasons;
    ToldReasonsBeyond(s.t, s.undo, s.f.constraints);
    if todo == {} {
      DoneSettled(s.t, s.db, s.n, s.qhead, ex);
      ConflictSettledAll(s.t, s.db, s.n, s.qhead, LevelStart(s.t));
    } else {
      ConflictSettled(s.t, s.db, s.n, s.qhead, LevelStart(s.t), ex, todo);
    }
  }

  // ---------------------------------------------------------------- undoing

  // Some undo lists have been worked off, from the end of the trail.
  ghost predicate PoppedTo(s: State, undo: seq<seq<nat>>, log: seq<seq<Lit>>, m: int) {
    && |undo| == |s.undo| == s.n && |log| == |s.log| && InRange(s.t.lits, s.n)
    && LogOK(undo, log, s.t.lits) && UndoIds(undo, |log|) && NoUndo(undo, s.t)
    && UndoWatched(undo, s.cw, s.t.lits)
    && Idle(undo, s.t.lits, m)
    && (forall i :: 0 <= i < |s.t.lits| && i < m ==> undo[s.t.lits[i].v] == s.undo[s.t.lits[i].v])
  }

  // In the middle of working off the undo list of literal i.
  ghost predicate PoppedMid(s: State, undo: seq<seq<nat>>, log: seq<seq<Lit>>, i: nat) {
    && |undo| == |s.undo| == s.n && |log| == |s.log| && InRange(s.t.lits, s.n)
    && LogOK(undo, log, s.t.lits) && UndoIds(undo, |log|) && NoUndo(undo, s.t)
    && UndoWatched(undo, s.cw, s.t.lits)
    && Idle(undo, s.t.lits, i + 1)
    && (forall j :: 0 <= j < |s.t.lits| && j < i ==> undo[s.t.lits[j].v] == s.undo[s.t.lits[j].v])
  }

  lemma StartPopping(s: State, undo: seq<seq<nat>>, log: seq<seq<Lit>>, i: nat)
    requires PoppedTo(s, undo, log, i + 1)
    ensures PoppedMid(s, undo, log, i)
  {
  }

  // What one turn of "undoLists[x].last()->undo(*this, p); undoLists[x].pop()"
  // does: the constraint forgets the literal it heard last, which is p.
  lemma PopOne(s: State, undo: seq<seq<nat>>, log: seq<seq<Lit>>, i: nat)
    requires Base(s) && i < |s.t.lits| && PoppedMid(s, undo, log, i) && s.t.lits[i].v < s.n && undo[s.t.lits[i].v] != []
    ensures var p := s.t.lits[i];
            var us := undo[p.v];
            var k := us[|us| - 1];
            && k < |log| && |log[k]| > 0 && log[k][|log[k]| - 1] == p
            && PoppedMid(s, undo[p.v := us[..|us| - 1]], log[k := log[k][..|log[k]| - 1]], i)
  {
    hide Watched, Sound, Told, LogOK;
    UndoLog(undo, log, s.t, s.n, i);
    var p := s.t.lits[i];
    var us := undo[p.v];
    var less: seq<nat> := us[..|us| - 1];
    assert forall x :: x in less ==> x in us;
    PopFrame(s, undo, i, less);
  }

  lemma PopFrame(s: State, undo: seq<seq<nat>>, i: nat, less: seq<nat>)
    requires TrailOK(s.t, s.n) && |undo| == |s.undo| == s.n && InRange(s.t.lits, s.n) && i < |s.t.lits|
    requires Idle(undo, s.t.lits, i + 1) && NoUndo(undo, s.t)
    requires forall j :: 0 <= j < |s.t.lits| && j < i ==> undo[s.t.lits[j].v] == s.undo[s.t.lits[j].v]
    ensures s.t.lits[i].v < s.n
    ensures Idle(undo[s.t.lits[i].v := less], s.t.lits, i + 1) && NoUndo(undo[s.t.lits[i].v := less], s.t)
    ensures forall j :: 0 <= j < |s.t.lits| && j < i ==>
              undo[s.t.lits[i].v := less][s.t.lits[j].v] == s.undo[s.t.lits[j].v]
    ensures less == [] ==> Idle(undo[s.t.lits[i].v := less], s.t.lits, i)
  {
  }

  lemma StopPopping(s: State, undo: seq<seq<nat>>, log: seq<seq<Lit>>, i: nat)
    requires PoppedMid(s, undo, log, i) && i < |s.t.lits| && s.t.lits[i].v < s.n && undo[s.t.lits[i].v] == []
    ensures PoppedTo(s, undo, log, i)
  {
  }

  lemma NothingPopped(s: State)
    requires Base(s)
    ensures PoppedTo(s, s.undo, s.log, |s.t.lits|)
  {
    hide Watched, Sound, TrailOK, WatchListsOK, LogOK, UndoIds, NoUndo, UndoWatched, LevelsQuiet, Honest;
  }

  lemma PopConflicted(s: State, undo: seq<seq<nat>>, log: seq<seq<Lit>>, m: nat, i: nat)
    requires Conflicted(s, m) && |s.undo| == s.n && PoppedTo(s, undo, log, i) && LevelStart(s.t) <= i <= m
    ensures Conflicted(s.(undo := undo, log := log), i)
  {
    hide WatchMapOK, DbOK, AllDbEntailed, ReasonsOK, RootOK, HomeOK, WatchListsOK, LogOK, UndoIds, NoUndo,
         LevelsQuiet, TrailOK, Settled, ToldReasons, Honest;
    ToldShrinks(s.t, s.n, s.undo, undo, s.f.constraints, i) by {
      ToldReasonsPrefix(s.t, s.undo, s.f.constraints, m + 1, i + 1);
    }
  }

  lemma ToldReasonsBeyond(t: Trail, undo: seq<seq<nat>>, cons: seq<Constraint>)
    requires ToldReasons(t, undo, cons, |t.lits|)
    ensures ToldReasons(t, undo, cons, |t.lits| + 1)
  {
  }

  lemma ToldReasonsPrefix(t: Trail, undo: seq<seq<nat>>, cons: seq<Constraint>, m: nat, i: nat)
    requires ToldReasons(t, undo, cons, m) && i <= m
    ensures ToldReasons(t, undo, cons, i)
  {
  }

  // When cancelUntil may be called: the queue is empty, and up to bound every
  // literal has been propagated and delivered.
  ghost predicate Cancellable(s: State, bound: nat, m: nat) {
    && Base(s) && s.qhead == |s.t.lits|
    && LevelStart(s.t) <= bound && LevelStart(s.t) <= m
    && Settled(s.t, s.db, s.n, bound, NO_LIT, {})
    && PendingOK(s.cw, s.pending, [])
    && UndoOK(s.undo, s.cw, s.t.lits, bound)
    && ToldReasons(s.t, s.undo, s.f.constraints, m)
  }

  lemma ConflictedCancellable(s: State, m: nat)
    requires Conflicted(s, m)
    ensures Cancellable(s, LevelStart(s.t), m + 1)
  {
  }

  lemma FixpointCancellable(s: State)
    requires Ready(s) && s.qhead == |s.t.lits|
    ensures Cancellable(s, |s.t.lits|, |s.t.lits|)
  {
    hide Watched, Sound, Told, TrailOK, Settled, ToldReasons, UndoOK, Idle, QuietOrPending;
    assert s.t.lits[s.qhead..] == [];
  }

  ghost function Cnc(s: State, level: nat, undo: seq<seq<nat>>, log: seq<seq<Lit>>): State
    requires level < |s.t.lims| && s.t.lims[level] <= |s.t.lits| && |s.t.pos| == |s.t.assigns|
  {
    s.(t := Cancelled(s.t, level), qhead := s.t.lims[level], undo := undo, log := log)
  }

  // cancelUntil(level): the level is as it was when it was completed, and each
  // constraint has been told exactly what the remaining trail says.
  lemma CancelStep(s: State, level: nat, bound: nat, m: nat, undo: seq<seq<nat>>, log: seq<seq<Lit>>)
    requires Cancellable(s, bound, m) && level < |s.t.lims| && s.t.lims[level] <= |s.t.lits|
    requires |s.t.pos| == |s.t.assigns| && PoppedTo(s, undo, log, s.t.lims[level])
    ensures Ready(Cnc(s, level, undo, log))
    ensures forall k: nat :: k < |log| ==> log[k] == Delivered(s.cw, s.t.lits[..s.t.lims[level]], k)
  {
    CncFields(s, level, undo, log);
    var z := Cnc(s, level, undo, log);
    hide Base, Settled, UndoOK, Idle, ToldReasons, PoppedTo, Cnc, Cancelled, PendingOK, QuietAt;
    LimsBelowStart(s, level);
    CancelBase(s, level, undo, log);
    CancelToldReasons(s, level, m, undo, log);
    CancelSettledStep(s, level, bound);
    CancelUndoOK(s, level, bound, undo, log);
    CancelQuietStep(s, level);
    forall k: nat | k < |log| ensures log[k] == Delivered(s.cw, s.t.lits[..s.t.lims[level]], k) {
      CancelDelivered(s, level, bound, undo, log, k);
    }
    assert Failing(z, NO_LIT, {}, [], z.qhead);
  }

  lemma CncFields(s: State, level: nat, undo: seq<seq<nat>>, log: seq<seq<Lit>>)
    requires level < |s.t.lims| && s.t.lims[level] <= |s.t.lits| && |s.t.pos| == |s.t.assigns|
    ensures var z := Cnc(s, level, undo, log);
            && z.t == Cancelled(s.t, level) && z.qhead == s.t.lims[level] == |z.t.lits| && z.undo == undo
            && z.log == log && z.n == s.n && z.db == s.db && z.f == s.f && z.cw == s.cw && z.pending == s.pending
            && z.home == s.home && z.t.lims == s.t.lims[..level]
            && z.t.lits == s.t.lits[..s.t.lims[level]]
            && LevelStart(z.t) == (if level == 0 then 0 else s.t.lims[level - 1])
            && z.t.lits[z.qhead..] == []
  {
  }

  lemma CancelSettledStep(s: State, level: nat, bound: nat)
    requires Base(s) && level < |s.t.lims| && s.t.lims[level] <= bound
    requires Settled(s.t, s.db, s.n, bound, NO_LIT, {})
    ensures Sizes(s.t, s.n) && Settled(Cancelled(s.t, level), s.db, s.n, s.t.lims[level], NO_LIT, {})
    ensures level > 0 ==> s.t.lims[level - 1] <= s.t.lims[level]
  {
    hide WatchMapOK, Sound, Told, Settled;
    CancelSettled(s.t, s.db, s.n, bound, level);
  }

  lemma CancelQuietStep(s: State, level: nat)
    requires Base(s) && level < |s.t.lims| && |s.pending| == |s.f.constraints|
    ensures QuietOrPending(s.f.constraints, s.pending, s.t.lits[..s.t.lims[level]])
  {
    hide Watched, Sound, WatchListsOK, LogOK, UndoIds, NoUndo, UndoWatched, TrailOK, Honest, LevelsQuiet, Content;
    CancelQuiet(s.f.constraints, s.t, s.n, level);
  }

  lemma LimsBelowStart(s: State, level: nat)
    requires Base(s) && level < |s.t.lims|
    ensures s.t.lims[level] <= LevelStart(s.t) <= |s.t.lits|
  {
    hide Watched, Sound, Told;
  }

  lemma CancelUndoOK(s: State, level: nat, bound: nat, undo: seq<seq<nat>>, log: seq<seq<Lit>>)
    requires Base(s) && level < |s.t.lims| && s.t.lims[level] <= bound
    requires UndoOK(s.undo, s.cw, s.t.lits, bound) && PoppedTo(s, undo, log, s.t.lims[level])
    ensures UndoOK(undo, s.cw, s.t.lits[..s.t.lims[level]], s.t.lims[level])
    ensures Idle(undo, s.t.lits[..s.t.lims[level]], s.t.lims[level])
  {
    hide Watched, Sound, Told, TrailOK, LogOK, UndoIds, NoUndo, UndoWatched;
    var m := s.t.lims[level];
    forall l | l in s.t.lits[..m] ensures l.v < |undo| {
      assert l in s.t.lits;
    }
  }

  lemma CancelToldReasons(s: State, level: nat, m: nat, undo: seq<seq<nat>>, log: seq<seq<Lit>>)
    requires Base(s) && level < |s.t.lims| && PoppedTo(s, undo, log, s.t.lims[level])
    requires ToldReasons(s.t, s.undo, s.f.constraints, m) && s.t.lims[level] <= m
    ensures ToldReasons(Cancelled(s.t, level), undo, s.f.constraints, s.t.lims[level])
  {
    hide Watched, Sound, Told, TrailOK, ToldReasons;
    ToldReasonsPrefix(s.t, s.undo, s.f.constraints, m, s.t.lims[level]);
    ToldShrinksBelow(s.t, s.n, s.undo, undo, s.f.constraints, s.t.lims[level]);
    CancelTold(s.t, s.n, undo, s.f.constraints, level);
  }

  lemma CancelDelivered(s: State, level: nat, bound: nat, undo: seq<seq<nat>>, log: seq<seq<Lit>>, k: nat)
    requires Base(s) && level < |s.t.lims| && s.t.lims[level] <= bound
    requires UndoOK(s.undo, s.cw, s.t.lits, bound) && PoppedTo(s, undo, log, s.t.lims[level]) && k < |log|
    ensures log[k] == Delivered(s.cw, s.t.lits[..s.t.lims[level]], k)
  {
    hide WatchMapOK, DbOK, AllDbEntailed, ReasonsOK, RootOK, HomeOK, WatchListsOK, UndoIds, NoUndo, UndoWatched,
         LevelsQuiet, TrailOK;
    var m := s.t.lims[level];
    LogIdle(undo, s.t.lits, m, k);
    forall l | l in s.t.lits[..m] ensures undo[l.v] == Cw(s.cw, l) {
      var i :| 0 <= i < m && s.t.lits[i] == l;
    }
    LogDelivered(undo, s.cw, s.t.lits[..m], k);
  }

  lemma CancelBase(s: State, level: nat, undo: seq<seq<nat>>, log: seq<seq<Lit>>)
    requires Base(s) && level < |s.t.lims| && PoppedTo(s, undo, log, s.t.lims[level])
    ensures Base(Cnc(s, level, undo, log))
  {
    hide WatchMapOK, DbOK, AllDbEntailed, ReasonsOK, RootOK, HomeOK, WatchListsOK, UndoIds, LevelsQuiet, LogOK, NoUndo,
         UndoWatched, Idle;
    CancelledOK(s.t, s.n, level);
    CancelReasons(s.t, s.n, s.db, s.f.constraints, level);
    CancelRoot(s.t, s.n, s.f, level);
    CancelQuiet(s.f.constraints, s.t, s.n, level);
    CancelHome(s, level);
    CancelUndo(s, level, undo, log);
  }

  lemma CancelHome(s: State, level: nat)
    requires Base(s) && level < |s.t.lims|
    ensures HomeOK(s.f.clauses, s.home, s.db, Cancelled(s.t, level))
  {
    hide WatchMapOK, DbOK, AllDbEntailed, ReasonsOK, RootOK, HomeOK, Told;
    CancelledOK(s.t, s.n, level);
    HomeTrail(s.f.clauses, s.home, s.db, s.t, Cancelled(s.t, level));
  }

  lemma CancelUndo(s: State, level: nat, undo: seq<seq<nat>>, log: seq<seq<Lit>>)
    requires Base(s) && level < |s.t.lims| && PoppedTo(s, undo, log, s.t.lims[level])
    ensures NoUndo(undo, Cancelled(s.t, level)) && LogOK(undo, log, s.t.lits[..s.t.lims[level]])
    ensures UndoWatched(undo, s.cw, s.t.lits[..s.t.lims[level]])
  {
    hide WatchMapOK, DbOK, AllDbEntailed, ReasonsOK, RootOK, HomeOK, WatchListsOK, UndoIds, LevelsQuiet;
    var m := s.t.lims[level];
    forall k | 0 <= k < |log| ensures log[k] == LogOf(undo, s.t.lits[..m], k) {
      LogIdle(undo, s.t.lits, m, k);
    }
  }

  // ------------------------------------------------------------ new clauses

  ghost function Att(s: State, r: ClauseRec): State
    requires |r.lits| >= 2
  {
    if |r.lits| > 2 then s.(db := s.db + [r], longs := Attached(s.longs, |s.db|, r.lits))
    else s.(db := s.db + [r], bins := Attached(s.bins, |s.db|, r.lits))
  }

  lemma AttachBase(s: State, r: ClauseRec)
    requires Base(s) && ClauseOK(r.lits, s.n) && !r.deleted && Entails(s.f, r.lits)
    ensures Base(Att(s, r))
  {
    hide WatchMapOK, DbOK, AllDbEntailed, ReasonsOK, RootOK, HomeOK, WatchListsOK, LogOK, UndoIds, NoUndo,
         LevelsQuiet, TrailOK, Entails;
    AttachedKeeps(s.db, s.longs, s.n, true, r);
    AttachedKeeps(s.db, s.bins, s.n, false, r);
    AttachReasons(s.t, s.db, s.f.constraints, r);
    HomeAttach(s.f.clauses, s.home, s.db, s.t, r);
    EntailedAttach(s.f, s.db, r);
  }

  // What analyze promises of a learnt clause once the trail has been cut back to
  // the backjump level.
  ghost predicate Asserting(s: State, c: Clause) {
    && ClauseOK(c, s.n)
    && Entails(s.f, c)
    && |s.t.pos| == s.n && s.t.pos[c[0].v] == -1
    && (forall i :: 1 <= i < |c| ==> IsFalse(s.t, c[i]))
    && Level(s.t, c[1]) == |s.t.lims|
  }

  ghost function Lrn(s: State, r: ClauseRec, pending: seq<int>): State
    requires |r.lits| >= 2 && Sizes(s.t, s.n) && r.lits[0].v < s.n
  {
    Enq(Att(s, r), r.lits[0], ByClause(|s.db|), pending)
  }

  lemma LearnStep(s: State, r: ClauseRec, pending: seq<int>)
    requires Ready(s) && s.qhead == |s.t.lits| && |s.t.lims| > 0 && Asserting(s, r.lits) && !r.deleted
    requires r.lits[0].v < s.n && Bumped(s.pending, pending, Cw(s.cw, r.lits[0]), 1)
    ensures Ready(Lrn(s, r, pending))
  {
    assert |r.lits| >= 2 && DbOK(s.db, s.n) && LogOK(s.undo, s.log, s.t.lits) && |pending| == |s.pending|;
    var p, z := r.lits[0], Lrn(s, r, pending);
    LearnFields(s, r, pending);
    hide TrailOK, Watched, Sound, Told, ClauseOK, DbOK, LogOK, Entails, Settled, ToldReasons,
         QuietOrPending, PendingPlus, UndoOK, Idle, Bumped, Lrn;
    QueueGrows(s, p, pending);
    LearnBase(s, r, pending);
    EnqueueKeeps(s.t, s.db, s.n, s.qhead, NO_LIT, {}, p, ByClause(|s.db|));
    LearntIsSettled(s, r);
    EnqueueTold(s.t, s.n, s.undo, s.log, s.f.constraints, p, ByClause(|s.db|));
    assert Failing(z, NO_LIT, {}, [], z.qhead);
  }

  lemma LearnFields(s: State, r: ClauseRec, pending: seq<int>)
    requires |r.lits| >= 2 && Sizes(s.t, s.n) && r.lits[0].v < s.n
    ensures var z := Lrn(s, r, pending);
            && z.n == s.n && z.qhead == s.qhead && z.t == Enqueued(s.t, r.lits[0], ByClause(|s.db|))
            && z.db == s.db + [r] && z.f == s.f && z.cw == s.cw && z.undo == s.undo && z.pending == pending
            && z.t.lits == s.t.lits + [r.lits[0]] && z.t.lims == s.t.lims
  {
  }

  lemma LearnBase(s: State, r: ClauseRec, pending: seq<int>)
    requires Base(s) && |s.t.lims| > 0 && Asserting(s, r.lits) && !r.deleted
    requires r.lits[0].v < s.n && |pending| == |s.pending|
    ensures Base(Lrn(s, r, pending))
  {
    assert |r.lits| >= 2;
    hide TrailOK, Watched, Sound, Told, ClauseOK, Entails, MayEnqueue;
    AttachBase(s, r);
    LearntMayEnqueue(s, r);
    EnqueueBase(Att(s, r), r.lits[0], ByClause(|s.db|), pending);
  }

  // A literal joins the empty queue.
  lemma QueueGrows(s: State, p: Lit, pending: seq<int>)
    requires Ready(s) && s.qhead == |s.t.lits| && p.v < s.n && s.t.pos[p.v] == -1
    requires Bumped(s.pending, pending, Cw(s.cw, p), 1)
    ensures PendingPlus(s.cw, pending, (s.t.lits + [p])[s.qhead..], [])
    ensures QuietOrPending(s.f.constraints, pending, s.t.lits + [p])
    ensures UndoOK(s.undo, s.cw, s.t.lits + [p], s.qhead) && Idle(s.undo, s.t.lits + [p], s.qhead)
  {
    hide Watched, Sound, WatchListsOK, LogOK, UndoIds, LevelsQuiet, TrailOK, Settled, ToldReasons, Content;
    EnqueueUndo(s.undo, s.cw, s.t, s.n, p, s.qhead, s.qhead);
    EnqueuedNoClash(s.t, s.n, p);
    assert (s.t.lits + [p])[s.qhead..] == s.t.lits[s.qhead..] + [p];
    EnqueuePending(s.cw, s.f.constraints, s.n, s.pending, pending, s.t.lits[s.qhead..], [], s.t.lits, p);
  }

  lemma LearntMayEnqueue(s: State, r: ClauseRec)
    requires Base(s) && |s.t.lims| > 0 && Asserting(s, r.lits) && !r.deleted
    ensures MayEnqueue(Att(s, r), r.lits[0], ByClause(|s.db|))
  {
    hide WatchMapOK, DbOK, Sound, Told;
    var c := r.lits;
    forall q | q in c && q != c[0] ensures TrueBefore(s.t, Neg(q), |s.t.lits|) {
      var i :| 0 <= i < |c| && c[i] == q;
    }
  }

  lemma LearntIsSettled(s: State, r: ClauseRec)
    requires Ready(s) && s.qhead == |s.t.lits| && Asserting(s, r.lits) && !r.deleted && r.lits[0].v < s.n
    requires Settled(Enqueued(s.t, r.lits[0], ByClause(|s.db|)), s.db, s.n, s.qhead, NO_LIT, {})
    ensures DbOK(s.db + [r], s.n)
    ensures Settled(Enqueued(s.t, r.lits[0], ByClause(|s.db|)), s.db + [r], s.n, s.qhead, NO_LIT, {})
  {
    hide WatchMapOK, DbOK, Sound, Told, Settled;
    var u := Enqueued(s.t, r.lits[0], ByClause(|s.db|));
    EnqueuedOK(s.t, s.n, r.lits[0], ByClause(|s.db|));
    assert r.lits[0].v != r.lits[1].v;
    LearntSettled(u, s.db, s.n, s.qhead, r);
  }

  // ---------------------------------------------------------------- deciding

  ghost function Dec(s: State, p: Lit, pending: seq<int>): State
    requires Sizes(s.t, s.n) && p.v < s.n
  {
    s.(t := Enqueued(NewLevel(s.t), p, NoReason), pending := pending)
  }

  lemma DecideBase(s: State, p: Lit, pending: seq<int>)
    requires Base(s) && p.v < s.n && s.t.pos[p.v] == -1 && |pending| == |s.pending|
    requires QuietAt(s.f.constraints, s.t.lits)
    ensures Base(Dec(s, p, pending))
  {
    hide WatchMapOK, DbOK, AllDbEntailed, ReasonsOK, RootOK, HomeOK, WatchListsOK, LogOK, UndoIds, NoUndo, UndoWatched,
         LevelsQuiet, Entails, IsTrue, Honest, QuietAt;
    var u := NewLevel(s.t);
    NewLevelOK(s.t, s.n);
    NewLevelReasons(s.t, s.n, s.db, s.f.constraints);
    NewLevelFacts(s);
    EnqueuedOK(u, s.n, p, NoReason);
    EnqueueRoot(u, s.n, s.f, p, NoReason);
    EnqueueReasons(u, s.n, s.db, s.f.constraints, p, NoReason);
    HomeTrail(s.f.clauses, s.home, s.db, u, Enqueued(u, p, NoReason));
    EnqueueQuiet(s.f.constraints, u, s.n, p, NoReason);
    EnqueueLog(s.undo, s.log, u, s.n, p, NoReason);
  }

  lemma NewLevelFacts(s: State)
    requires Base(s) && QuietAt(s.f.constraints, s.t.lits)
    ensures RootOK(NewLevel(s.t), s.f)
    ensures HomeOK(s.f.clauses, s.home, s.db, NewLevel(s.t))
    ensures LevelsQuiet(s.f.constraints, NewLevel(s.t))
    ensures NoUndo(s.undo, NewLevel(s.t))
  {
    hide WatchMapOK, DbOK, AllDbEntailed, ReasonsOK, HomeOK, WatchListsOK, LogOK, UndoIds, Entails;
    var u := NewLevel(s.t);
    forall l ensures Root(u, l) <==> Root(s.t, l) {
    }
    HomeTrail(s.f.clauses, s.home, s.db, s.t, u);
    forall j | 0 <= j < |u.lims| ensures QuietAt(s.f.constraints, u.lits[..u.lims[j]]) {
      assert j == |s.t.lims| ==> u.lits[..u.lims[j]] == u.lits;
    }
  }

  lemma DecideStep(s: State, p: Lit, pending: seq<int>)
    requires Ready(s) && s.qhead == |s.t.lits| && p.v < s.n && s.t.pos[p.v] == -1
    requires Bumped(s.pending, pending, Cw(s.cw, p), 1)
    ensures Ready(Dec(s, p, pending))
  {
    hide WatchMapOK, AllDbEntailed, ReasonsOK, RootOK, HomeOK, WatchListsOK, LogOK, UndoIds, NoUndo, UndoWatched,
         LevelsQuiet, TrailOK, Entails, Settled, Honest, Content, ToldReasons, QuietOrPending, PendingPlus, UndoOK,
         Idle;
    QueueGrows(s, p, pending);
    FixpointQuiet(s);
    DecideBase(s, p, pending);
    DecideSettled(s, p);
    DecideTold(s, p);
  }

  lemma DecideTold(s: State, p: Lit)
    requires Ready(s) && p.v < s.n && s.t.pos[p.v] == -1
    ensures ToldReasons(Enqueued(NewLevel(s.t), p, NoReason), s.undo, s.f.constraints, |s.t.lits| + 1)
  {
    hide Watched, Sound, WatchListsOK, UndoIds, LevelsQuiet, Honest, Settled, QuietOrPending, PendingPlus, UndoOK, Idle;
    NewLevelOK(s.t, s.n);
    var u := NewLevel(s.t);
    forall i | 0 <= i < |u.lits| ensures ToldReason(u, s.undo, s.f.constraints, i) {
      assert ToldReason(s.t, s.undo, s.f.constraints, i);
    }
    EnqueueTold(u, s.n, s.undo, s.log, s.f.constraints, p, NoReason);
  }

  // Nothing is pending at a fixpoint, so no constraint has anything left to say.
  lemma FixpointQuiet(s: State)
    requires Ready(s) && s.qhead == |s.t.lits|
    ensures QuietAt(s.f.constraints, s.t.lits)
  {
    hide Watched, Sound, Told, Settled, TrailOK, Content, ToldReasons;
    assert s.t.lits[s.qhead..] == [];
  }

  lemma DecideSettled(s: State, p: Lit)
    requires Ready(s) && s.qhead == |s.t.lits| && p.v < s.n && s.t.pos[p.v] == -1
    ensures Settled(Enqueued(NewLevel(s.t), p, NoReason), s.db, s.n, s.qhead, NO_LIT, {})
  {
    hide WatchMapOK, Sound, Told;
    var u := NewLevel(s.t);
    NewLevelOK(s.t, s.n);
    forall cr: nat | Live(s.db, cr) ensures ClauseSettled(u, s.db[cr].lits, s.qhead, NO_LIT, false) {
      assert ClauseSettled(s.t, s.db[cr].lits, s.qhead, NO_LIT, false);
      NewLevelSettledAt(s.t, s.db[cr].lits, s.db[cr].lits[0], s.qhead);
      NewLevelSettledAt(s.t, s.db[cr].lits, s.db[cr].lits[1], s.qhead);
    }
    EnqueueKeeps(u, s.db, s.n, s.qhead, NO_LIT, {}, p, NoReason);
  }

  lemma NewLevelSettledAt(t: Trail, c: Clause, l: Lit, bound: nat)
    ensures SettledAt(t, c, l, bound) ==> SettledAt(NewLevel(t), c, l, bound)
  {
    if SettledAt(t, c, l, bound) && TrueBefore(NewLevel(t), Neg(l), bound) {
      assert TrueBefore(t, Neg(l), bound);
      var b :| WitnessedBy(t, c, l, b);
      assert WitnessedBy(NewLevel(t), c, l, b);
    }
  }

  // --------------------------------------------------------- removing clauses

  ghost function Rmv(s: State, cr: nat): State
    requires cr < |s.db|
  {
    s.(db := Marked(s.db, cr), longs := Detached(s.longs, cr), bins := Detached(s.bins, cr),
       home := Evicted(s.home, cr))
  }

  // reduceDB and simplify: a clause may go if it is learnt and is not the reason
  // of a literal above level 0, or if level 0 satisfies it.
  ghost predicate Removable(s: State, cr: nat) {
    && Live(s.db, cr)
    && (s.db[cr].learnt || RootSat(s.t, s.db[cr].lits))
    && (|s.t.lims| == 0 || (|s.db[cr].lits| > 2 && !Locked(s.t, s.db, cr)))
  }

  lemma RemoveStep(s: State, cr: nat)
    requires Ready(s) && Removable(s, cr)
    ensures Ready(Rmv(s, cr))
  {
    hide WatchMapOK, DbOK, ReasonsOK, RootOK, HomeOK, WatchListsOK, LogOK, UndoIds, NoUndo, UndoWatched, LevelsQuiet,
         TrailOK, Entails, Settled, Content, Honest, ToldReasons;
    DetachedKeeps(s.db, s.longs, s.n, true, cr);
    DetachedKeeps(s.db, s.bins, s.n, false, cr);
    RemoveReasons(s.t, s.n, s.db, s.f.constraints, cr);
    HomeRemove(s.f.clauses, s.home, s.db, s.t, cr);
    MarkedSettled(s.t, s.db, s.n, s.qhead, cr);
    assert AllDbEntailed(s.f, Marked(s.db, cr)) by {
      forall d: nat | Live(Marked(s.db, cr), d) ensures Entails(s.f, Marked(s.db, cr)[d].lits) {
        assert Live(s.db, d);
      }
    }
  }

  // ------------------------------------------------------------- the verdicts

  // A conflict at level 0 refutes the problem.
  lemma RootConflictUnsat(s: State, c: Conflict)
    requires Conflicted(s, |s.t.lits|) && ConflictOK(s, c) && c != NoConflict && |s.t.lims| == 0
    ensures Unsatisfiable(s.f)
  {
    hide WatchMapOK, DbOK, ReasonsOK, HomeOK, Settled, LogOK, UndoIds, LevelsQuiet, Honest, ToldReasons;
    match c {
      case ClauseConflict(cr) => RootClauseConflict(s.t, s.f, s.db[cr].lits);
      case ConstraintConflict(k, extra, because) =>
        RootConstraintConflict(s.t, s.n, s.f, s.f.constraints[k]);
    }
  }

  ghost function TrueVars(lits: seq<Lit>): Assignment {
    set l | l in lits && !l.sign :: l.v
  }

  lemma TrueVarsHold(t: Trail, n: nat, l: Lit)
    requires TrailOK(t, n)
    ensures IsTrue(t, l) ==> Holds(TrueVars(t.lits), l)
    ensures l in t.lits ==> IsTrue(t, l)
    ensures IsTrue(t, l) ==> l in t.lits
  {
    forall m | m in t.lits && IsTrue(t, l) ensures m.v == l.v ==> m == l {
      var i :| 0 <= i < |t.lits| && t.lits[i] == m;
    }
  }

  // When propagation is complete and every variable is assigned, the trail is a
  // model of all clauses and all constraints.
  lemma FullTrailIsModel(s: State)
    requires |s.home| == |s.f.clauses|
    requires Ready(s) && s.qhead == |s.t.lits|
    requires forall v :: 0 <= v < s.n ==> s.t.pos[v] != -1
    ensures Models(TrueVars(s.t.lits), s.f)
  {
    hide Watched, Sound, Told, Settled, QuietOrPending, Content, PendingPlus, TrailOK;
    var a := TrueVars(s.t.lits);
    forall c | c in s.f.clauses ensures Satisfies(a, c) {
      ModelClause(s, c);
    }
    forall con | con in s.f.constraints ensures con.sat(a) {
      var k :| 0 <= k < |s.f.constraints| && s.f.constraints[k] == con;
      ModelConstraint(s, k);
    }
  }

  lemma ModelClause(s: State, c: Clause)
    requires |s.home| == |s.f.clauses|
    requires Ready(s) && s.qhead == |s.t.lits| && c in s.f.clauses
    requires forall v :: 0 <= v < s.n ==> s.t.pos[v] != -1
    ensures Satisfies(TrueVars(s.t.lits), c)
  {
    hide WatchMapOK, AllDbEntailed, ReasonsOK, RootOK, Told, Settled, QuietOrPending, PendingPlus;
    var j :| 0 <= j < |s.f.clauses| && s.f.clauses[j] == c;
    assert Housed(c, s.home[j], s.db, s.t);
    if s.home[j] >= 0 {
      var d := s.db[s.home[j]].lits;
      SettledIsUnitClosed(s.t, s.db, s.n, s.home[j]);
      assert exists l :: l in d && IsTrue(s.t, l) by {
        if x, y :| 0 <= x < y < |d| && !IsFalse(s.t, d[x]) && !IsFalse(s.t, d[y]) {
          assert d[x] in d && ClauseOK(d, s.n);
          assert IsTrue(s.t, d[x]);
        }
      }
      var l :| l in d && IsTrue(s.t, l);
      TrueVarsHold(s.t, s.n, l);
    } else if RootSat(s.t, c) {
      var l :| l in c && Root(s.t, l);
      TrueVarsHold(s.t, s.n, l);
    } else {
      var l :| l in c && Neg(l) in c;
      NegHolds(TrueVars(s.t.lits), l);
    }
  }

  lemma ModelConstraint(s: State, k: nat)
    requires Ready(s) && s.qhead == |s.t.lits| && k < |s.f.constraints|
    requires forall v :: 0 <= v < s.n ==> s.t.pos[v] != -1
    ensures s.f.constraints[k].sat(TrueVars(s.t.lits))
  {
    hide Watched, Sound, LogOK, UndoIds, NoUndo, UndoWatched, LevelsQuiet, Settled, QuietOrPending, PendingPlus;
    FixpointQuiet(s);
    var con := s.f.constraints[k];
    var a := TrueVars(s.t.lits);
    forall l | l in s.t.lits ensures Holds(a, l) {
      TrueVarsHold(s.t, s.n, l);
    }
    forall l | l in con.watched && Holds(a, l) ensures l in s.t.lits {
      assert l.v < s.n && s.t.pos[l.v] != -1;
      TrueVarsHold(s.t, s.n, Neg(l));
      TrueVarsHold(s.t, s.n, l);
      NegHolds(a, l);
      assert IsTrue(s.t, l) || IsTrue(s.t, Neg(l));
    }
    assert Content(con, s.t.lits) && Quiescent(con, s.t.lits);
    assert Matches(con, a, s.t.lits);
  }

  // -------------------------------------------------------- after backjumping

  lemma AfterBackjump(s: State, level: nat, undo: seq<seq<nat>>, log: seq<seq<Lit>>, c: Clause)
    requires Base(s) && level < |s.t.lims| && s.t.lims[level] <= |s.t.lits| && |s.t.pos| == |s.t.assigns|
    requires |c| >= 1 && InRange(c, s.n) && Entails(s.f, c) && DistinctVars(c) && Current(s.t, Neg(c[0]))
    requires forall q :: q in c ==> IsFalse(s.t, q)
    requires forall x :: 1 <= x < |c| ==> Level(s.t, c[x]) <= level
    requires |c| > 1 ==> Level(s.t, c[1]) == level
    ensures var u := Cnc(s, level, undo, log);
            && c[0].v < u.n && |u.t.pos| == u.n && u.t.pos[c[0].v] == -1
            && (|c| > 1 ==> Asserting(u, c))
  {
    hide Watched, Sound, Told, Entails;
    LimsBelowStart(s, level);
    CancelledOK(s.t, s.n, level);
    assert c[0] in c;
    hide TrailOK;
    var u := Cancelled(s.t, level);
    forall x | 1 <= x < |c| ensures IsFalse(u, c[x]) {
      assert c[x] in c && IsTrue(s.t, Neg(c[x]));
      assert Level(s.t, Neg(c[x])) == Level(s.t, c[x]);
    }
  }

  // ------------------------------------------- clauses that constraints count on

  lemma HomeOf(s: State, c: Clause) returns (h: int)
    requires HomeOK(s.f.clauses, s.home, s.db, s.t) && c in s.f.clauses[..|s.home|]
    ensures Housed(c, h, s.db, s.t)
  {
    hide Housed;
    var j :| 0 <= j < |s.home| && s.f.clauses[..|s.home|][j] == c;
    h := s.home[j];
  }

  // A clause of two literals, settled for every literal of log: if one is false in
  // log, the other one is in log.
  lemma NeedCloses(s: State, con: Constraint, c: Clause, h: int, log: seq<Lit>)
    requires TrailOK(s.t, s.n) && DbOK(s.db, s.n) && Settled(s.t, s.db, s.n, s.qhead, NO_LIT, {})
    requires Housed(c, h, s.db, s.t) && NeedOK(con, c)
    requires forall l :: l in s.t.lits && l in con.watched ==> l in log
    requires forall l :: l in log ==> TrueBefore(s.t, l, s.qhead)
    ensures Closes(c, log)
  {
    hide TrailOK, DbOK, Settled, Housed;
    forall p | p in c && (forall q :: q in c && q != p ==> Neg(q) in log) ensures p in log {
      var q := if c[0] == p then c[1] else c[0];
      assert q in c && q != p;
      OtherTrue(s, c, h, p, q);
    }
  }

  lemma OtherTrue(s: State, c: Clause, h: int, p: Lit, q: Lit)
    requires TrailOK(s.t, s.n) && DbOK(s.db, s.n) && Settled(s.t, s.db, s.n, s.qhead, NO_LIT, {})
    requires Housed(c, h, s.db, s.t) && |c| == 2 && c[0].v != c[1].v && p in c && q in c && p != q
    requires TrueBefore(s.t, Neg(q), s.qhead)
    ensures p in s.t.lits
  {
    hide TrailOK, DbOK, Settled, RootSat, Tautology;
    if h >= 0 {
      MemberOK(s.db, s.n, h);
      HomePair(s.db[h].lits, s.n, c, p, q);
      PartnerTrue(s, h, p, q);
    } else {
      RootPartner(s.t, s.n, c, p, q);
    }
  }

  // A clause of two or more literals of c is c.
  lemma HomePair(d: Clause, n: nat, c: Clause, p: Lit, q: Lit)
    requires ClauseOK(d, n) && (forall l :: l in d ==> l in c)
    requires |c| == 2 && p in c && q in c && p != q
    ensures |d| >= 2 && (d[0] == q || d[1] == q) && forall l :: l in d ==> l == p || l == q
  {
    assert d[0] in d && d[1] in d && d[0].v != d[1].v;
  }

  lemma PartnerTrue(s: State, h: nat, p: Lit, q: Lit)
    requires TrailOK(s.t, s.n) && DbOK(s.db, s.n) && Settled(s.t, s.db, s.n, s.qhead, NO_LIT, {}) && Live(s.db, h)
    requires |s.db[h].lits| >= 2 && (s.db[h].lits[0] == q || s.db[h].lits[1] == q)
    requires (forall l :: l in s.db[h].lits ==> l == p || l == q) && TrueBefore(s.t, Neg(q), s.qhead)
    ensures p in s.t.lits
  {
    hide TrailOK, DbOK;
    var d := s.db[h].lits;
    assert ClauseSettled(s.t, d, s.qhead, NO_LIT, false);
    var b :| WitnessedBy(s.t, d, q, b);
    assert b != q by {
      assert Neg(q) != q && Neg(q).v == q.v;
    }
  }

  lemma RootPartner(t: Trail, n: nat, c: Clause, p: Lit, q: Lit)
    requires TrailOK(t, n) && (RootSat(t, c) || Tautology(c)) && IsTrue(t, Neg(q))
    requires |c| == 2 && c[0].v != c[1].v && p in c && q in c && p != q
    ensures p in t.lits
  {
    hide TrailOK;
    assert !Tautology(c) by {
      forall l | l in c ensures Neg(l) !in c {
        assert Neg(l).v == l.v && Neg(l) != l;
      }
    }
    assert RootSat(t, c);
    var l: Lit :| l in c && Root(t, l);
    assert l == p || l == q;
    assert Neg(q) != q && Neg(q).v == q.v;
  }

  lemma InTrail(t: Trail, n: nat, l: Lit)
    requires TrailOK(t, n) && l in t.lits
    ensures TrueBefore(t, l, |t.lits|)
  {
    var i :| 0 <= i < |t.lits| && t.lits[i] == l;
  }

  lemma NeedsWider(f: Formula, g: Formula, home: seq<int>)
    requires NeedsMet(f, home) && f.clauses <= g.clauses && f.constraints == g.constraints
    ensures NeedsMet(g, home)
  {
    assert g.clauses[..|home|] == f.clauses[..|home|];
  }

  lemma NeedsHoused(f: Formula, home: seq<int>, more: seq<int>)
    requires NeedsMet(f, home) && home <= more && |more| <= |f.clauses|
    ensures NeedsMet(f, more)
  {
    forall con, c | con in f.constraints && c in Needs(con) ensures c in f.clauses[..|more|] {
      assert c in f.clauses[..|home|];
      assert f.clauses[..|home|] == f.clauses[..|more|][..|home|];
    }
  }
}
