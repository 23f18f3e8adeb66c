// The steps of Solver::propagate on the state value, one lemma per branch.
module Propagation {
  import opened Logic
  import opened Trails
  import opened Watching
  import opened Settling
  import opened Reasons
  import opened Delivery
  import opened States
  import opened Contracts

  // Literal p, taken from position q of the queue, is being propagated.
  ghost predicate Visiting(s: State, p: Lit, q: nat, todo: set<nat>) {
    && s.qhead == q + 1 && q < |s.t.lits| && s.t.lits[q] == p
    && Propagating(s, Neg(p), todo, Cw(s.cw, p), q, q)
  }

  lemma VisitingFacts(s: State, p: Lit, q: nat, todo: set<nat>)
    requires Visiting(s, p, q, todo)
    ensures p.v < s.n && Sizes(s.t, s.n) && TrailOK(s.t, s.n) && Base(s)
    ensures Failing(s, Neg(p), todo, Cw(s.cw, p), q) && !TrueBefore(s.t, p, LevelStart(s.t))
    ensures Current(s.t, p)
    ensures forall l: Lit :: Ids(Cw(s.cw, l), |s.pending|)
  {
    hide Watched, Sound, LogOK, UndoIds, NoUndo, UndoWatched, LevelsQuiet, Settled, PendingPlus, ToldReasons;
    assert s.t.lits[q] in s.t.lits;
    forall l: Lit ensures Ids(Cw(s.cw, l), |s.pending|) {
      WatchIds(s, l);
    }
  }

  // An implied literal is enqueued and the visit goes on.
  lemma VisitEnqueue(s: State, p: Lit, q: nat, todo: set<nat>, imp: Lit, r: Reason, pending: seq<int>)
    requires Visiting(s, p, q, todo) && MayEnqueue(s, imp, r) && TellsWhy(s, imp, r)
    requires Bumped(s.pending, pending, Cw(s.cw, imp), 1)
    ensures Sizes(s.t, s.n) && imp.v < s.n
    ensures Visiting(Enq(s, imp, r, pending), p, q, todo) && IsTrue(Enq(s, imp, r, pending).t, imp)
  {
    hide Propagating, MayEnqueue, TellsWhy, Bumped;
    EnqueueStep(s, imp, r, pending, Neg(p), todo, Cw(s.cw, p), q, q);
    VisitingFacts(s, p, q, todo);
    MayEnqueueRange(s, imp, r);
    EnqueuedOK(s.t, s.n, imp, r);
  }

  lemma MayEnqueueRange(s: State, imp: Lit, r: Reason)
    requires MayEnqueue(s, imp, r)
    ensures imp.v < s.n && |s.t.pos| == s.n && s.t.pos[imp.v] == -1
  {
  }

  // ---------------------------------------------------------- binary clauses

  lemma BinaryVisit(s: State, p: Lit, q: nat, todo: set<nat>, w: Watcher)
    requires Visiting(s, p, q, todo) && w in Ws(s.bins, p)
    ensures w.blocker.v < s.n && |s.t.assigns| == s.n
    ensures ValueOf(s.t.assigns, w.blocker) == False ==> ConflictOK(s, ClauseConflict(w.cref))
    ensures ValueOf(s.t.assigns, w.blocker) == True ==> IsTrue(s.t, w.blocker)
    ensures ValueOf(s.t.assigns, w.blocker) == Undef ==> MayEnqueue(s, w.blocker, ByClause(w.cref))
  {
    hide Base, Failing, Visiting, Watched, MayEnqueue, Current, TrailOK, ConflictOK, Ids, TrueBefore, IsTrue,
         LevelStart;
    VisitingFacts(s, p, q, todo);
    WatchedOfBase(s);
    BinaryWatcher(s, p, w);
    ValueIsPosition(s.t, s.n, w.blocker);
    CurrentIsFalse(s.t, p);
    if ValueOf(s.t.assigns, w.blocker) == False {
      FalsifiedConflict(s, w.cref, p);
    }
    if ValueOf(s.t.assigns, w.blocker) == Undef {
      UnitMayEnqueue(s, w.cref, w.blocker);
    }
  }

  lemma CurrentIsFalse(t: Trail, p: Lit)
    requires Current(t, p)
    ensures IsFalse(t, Neg(p))
  {
    assert Neg(Neg(p)) == p;
  }

  lemma FalsifiedConflict(s: State, cr: nat, p: Lit)
    requires Live(s.db, cr) && Current(s.t, p) && Neg(p) in s.db[cr].lits
    requires forall l :: l in s.db[cr].lits ==> IsFalse(s.t, l)
    ensures ConflictOK(s, ClauseConflict(cr))
  {
    assert Neg(Neg(p)) == p;
  }

  lemma WatchedOfBase(s: State)
    requires Base(s)
    ensures Watched(s)
  {
  }

  // Clause ws[k] has been visited and holds the true literal b.
  lemma Visited(s: State, p: Lit, q: nat, others: set<nat>, ws: seq<Watcher>, k: nat, b: Lit)
    requires k < |ws| && Visiting(s, p, q, others + Crefs(ws[k..])) && Live(s.db, ws[k].cref)
    requires b in s.db[ws[k].cref].lits && IsTrue(s.t, b)
    ensures Visiting(s, p, q, others + Crefs(ws[k + 1..]))
  {
    hide Base, Failing, Propagating, TrailOK, IsTrue, Crefs;
    var todo := others + Crefs(ws[k..]);
    VisitingFacts(s, p, q, todo);
    assert Neg(Neg(p)) == p;
    VisitStep(s, Neg(p), todo, Cw(s.cw, p), q, q, ws[k].cref, b);
    CrefsStep(ws, k);
    TodoStep(s, Neg(p), todo - {ws[k].cref}, others + Crefs(ws[k + 1..]), Cw(s.cw, p), q, q);
  }

  lemma BinaryVisited(s: State, p: Lit, q: nat, longs: set<nat>, wbin: seq<Watcher>, k: nat)
    requires k < |wbin| && wbin == Ws(s.bins, p) && Visiting(s, p, q, longs + Crefs(wbin[k..]))
    requires IsTrue(s.t, wbin[k].blocker)
    ensures Visiting(s, p, q, longs + Crefs(wbin[k + 1..]))
  {
    hide Base, Failing, Visiting, Watched, TrailOK, IsTrue, Crefs, Current;
    VisitingFacts(s, p, q, longs + Crefs(wbin[k..]));
    WatchedOfBase(s);
    BinaryWatcher(s, p, wbin[k]);
    Visited(s, p, q, longs, wbin, k, wbin[k].blocker);
  }

  lemma CrefsStep(ws: seq<Watcher>, k: nat)
    requires k < |ws|
    ensures Crefs(ws[k..]) == Crefs(ws[k + 1..]) + {ws[k].cref}
  {
    assert ws[k..] == [ws[k]] + ws[k + 1..];
    forall x | x in Crefs(ws[k..]) ensures x in Crefs(ws[k + 1..]) + {ws[k].cref} {
      var i :| 0 <= i < |ws[k..]| && ws[k..][i].cref == x;
      assert i > 0 ==> ws[k + 1..][i - 1].cref == x;
    }
    forall x | x in Crefs(ws[k + 1..]) ensures x in Crefs(ws[k..]) {
      var i :| 0 <= i < |ws[k + 1..]| && ws[k + 1..][i].cref == x;
      assert ws[k..][i + 1].cref == x;
    }
    assert ws[k..][0].cref == ws[k].cref;
  }

  lemma SplitList(kept: seq<Watcher>, ws: seq<Watcher>, i: nat)
    requires i < |ws|
    ensures kept + ws[i..] == kept + [ws[i]] + ws[i + 1..]
    ensures ws[i] in kept + ws[i..]
  {
    assert (kept + ws[i..])[|kept|] == ws[i];
  }

  lemma CrefsNil(ws: seq<Watcher>)
    ensures Crefs(ws[|ws|..]) == {}
  {
  }

  // ------------------------------------------------------------ long clauses

  lemma LongVisit(s: State, p: Lit, q: nat, todo: set<nat>, w: Watcher)
    requires Visiting(s, p, q, todo) && w in Ws(s.longs, p)
    ensures Live(s.db, w.cref) && ClauseOK(s.db[w.cref].lits, s.n) && |s.db[w.cref].lits| > 2
    ensures w.blocker in s.db[w.cref].lits && w.blocker.v < s.n && |s.t.assigns| == s.n
    ensures s.db[w.cref].lits[0] == Neg(p) || s.db[w.cref].lits[1] == Neg(p)
    ensures ValueOf(s.t.assigns, w.blocker) == True <==> IsTrue(s.t, w.blocker)
  {
    hide Base, Failing, Visiting, Watched, TrailOK, IsTrue, Current, ClauseOK;
    VisitingFacts(s, p, q, todo);
    WatchedOfBase(s);
    LongWatcher(s, p, w);
    ValueIsPosition(s.t, s.n, w.blocker);
  }

  // "Make sure the false literal is data[1]".
  lemma FalseSecond(s: State, p: Lit, q: nat, todo: set<nat>, cr: nat)
    requires Visiting(s, p, q, todo) && Live(s.db, cr) && |s.db[cr].lits| > 2 && s.db[cr].lits[0] == Neg(p)
    ensures Visiting(Swp(s, cr, 0, 1), p, q, todo)
  {
    hide Base, Failing, Propagating;
    VisitingFacts(s, p, q, todo);
    assert !IsTrue(s.t, Neg(p));
    SwapStep(s, Neg(p), todo, Cw(s.cw, p), q, q, cr);
  }

  lemma Reblocked(s: State, p: Lit, q: nat, todo: set<nat>, kept: seq<Watcher>, w: Watcher, rest: seq<Watcher>, b: Lit)
    requires Visiting(s, p, q, todo) && Ws(s.longs, p) == kept + [w] + rest
    requires Live(s.db, w.cref) && b in s.db[w.cref].lits
    ensures Visiting(s.(longs := s.longs[p := kept + [Watcher(w.cref, b)] + rest]), p, q, todo)
  {
    hide Base, Failing, Propagating;
    VisitingFacts(s, p, q, todo);
    ReblockStep(s, Neg(p), todo, Cw(s.cw, p), q, q, p, kept, w, rest, b);
  }

  lemma MovedOn(s: State, p: Lit, q: nat, kept: seq<Watcher>, ws: seq<Watcher>, i: nat, k: nat)
    requires i < |ws| && Visiting(s, p, q, {} + Crefs(ws[i..])) && Ws(s.longs, p) == kept + ws[i..]
    requires Live(s.db, ws[i].cref) && 2 <= k < |s.db[ws[i].cref].lits| && s.db[ws[i].cref].lits[1] == Neg(p)
    requires !IsFalse(s.t, s.db[ws[i].cref].lits[k])
    ensures Visiting(Mov(s, p, kept, ws[i], ws[i + 1..], k), p, q, {} + Crefs(ws[i + 1..]))
    ensures Ws(Mov(s, p, kept, ws[i], ws[i + 1..], k).longs, p) == kept + ws[i + 1..]
  {
    hide Base, Failing, Propagating, TrailOK, IsTrue, Crefs;
    VisitingFacts(s, p, q, {} + Crefs(ws[i..]));
    SplitList(kept, ws, i);
    MoveStep(s, {} + Crefs(ws[i..]), Cw(s.cw, p), q, q, p, kept, ws[i], ws[i + 1..], k);
    MovedAway(s, p, ws[i], k);
    CrefsStep(ws, i);
    TodoStep(Mov(s, p, kept, ws[i], ws[i + 1..], k), Neg(p), {} + Crefs(ws[i..]) - {ws[i].cref},
             {} + Crefs(ws[i + 1..]), Cw(s.cw, p), q, q);
  }

  lemma MovedAway(s: State, p: Lit, w: Watcher, k: nat)
    requires Base(s) && Live(s.db, w.cref) && 2 <= k < |s.db[w.cref].lits| && s.db[w.cref].lits[1] == Neg(p)
    ensures Neg(s.db[w.cref].lits[k]) != p
  {
    hide TrailOK, Sound, Told, WatchMapOK;
    MemberOK(s.db, s.n, w.cref);
  }

  ghost predicate AllFalseFrom2(s: State, c: Clause)
    requires |s.t.assigns| == s.n
  {
    forall x :: 2 <= x < |c| && c[x].v < s.n ==> ValueOf(s.t.assigns, c[x]) == False
  }

  // No literal from 2 on can be watched: the clause is unit or false.
  lemma NoWatch(s: State, p: Lit, q: nat, todo: set<nat>, cr: nat)
    requires Visiting(s, p, q, todo) && Live(s.db, cr) && ClauseOK(s.db[cr].lits, s.n) && s.db[cr].lits[1] == Neg(p)
    requires |s.t.assigns| == s.n && AllFalseFrom2(s, s.db[cr].lits)
    ensures s.db[cr].lits[0].v < s.n
    ensures ValueOf(s.t.assigns, s.db[cr].lits[0]) == False ==> ConflictOK(s, ClauseConflict(cr))
    ensures ValueOf(s.t.assigns, s.db[cr].lits[0]) == Undef ==> MayEnqueue(s, s.db[cr].lits[0], ByClause(cr))
  {
    hide Base, Failing, Visiting, MayEnqueue, Current, TrailOK, ConflictOK, Ids, TrueBefore, IsTrue;
    var c := s.db[cr].lits;
    VisitingFacts(s, p, q, todo);
    CurrentIsFalse(s.t, p);
    assert c[0] in c && c[1] in c;
    forall l | l in c ensures l != c[0] ==> IsFalse(s.t, l) {
      var x :| 0 <= x < |c| && c[x] == l;
      ValueIsPosition(s.t, s.n, l);
    }
    ValueIsPosition(s.t, s.n, c[0]);
    if ValueOf(s.t.assigns, c[0]) == False {
      FalsifiedConflict(s, cr, p);
    }
    if ValueOf(s.t.assigns, c[0]) == Undef {
      UnitMayEnqueue(s, cr, c[0]);
    }
  }

  // ------------------------------------------------------------- constraints

  // The first j constraints that watch p have been told about it and have not
  // objected.
  ghost predicate Telling(s: State, p: Lit, q: nat, j: nat) {
    && s.qhead == q + 1 && q < |s.t.lits| && s.t.lits[q] == p && j <= |Cw(s.cw, p)|
    && Propagating(s, NO_LIT, {}, Cw(s.cw, p)[j..], q, q + 1)
    && p.v < |s.undo| && s.undo[p.v] == Cw(s.cw, p)[..j]
  }

  lemma StartTelling(s: State, p: Lit, q: nat)
    requires Visiting(s, p, q, {})
    ensures Telling(s, p, q, 0)
  {
    hide Watched, Sound, WatchListsOK, LogOK, UndoIds, NoUndo, UndoWatched, LevelsQuiet, TrailOK, Settled,
         PendingPlus, ToldReasons, QuietOrPending;
    DoneStep(s, Neg(p), Cw(s.cw, p), q, q);
    assert s.t.lits[q] in s.t.lits;
    assert Cw(s.cw, p)[0..] == Cw(s.cw, p);
  }

  lemma AllTold(s: State, p: Lit, q: nat)
    requires Telling(s, p, q, |Cw(s.cw, p)|)
    ensures Ready(s)
  {
    hide Propagating;
    assert Cw(s.cw, p)[|Cw(s.cw, p)|..] == [];
    assert Cw(s.cw, p)[..|Cw(s.cw, p)|] == Cw(s.cw, p);
    ToldStep(s, q);
  }

  // Constraint k has just been told about literal q and is answering; so far it
  // is not known to object, or accept is false.
  ghost predicate Answering(s: State, p: Lit, q: nat, j: nat, k: nat, accept: bool) {
    && s.qhead == q + 1 && q < |s.t.lits| && s.t.lits[q] == p && j < |Cw(s.cw, p)| && k == Cw(s.cw, p)[j]
    && Failing(s, NO_LIT, {}, Cw(s.cw, p)[j + 1..], q)
    && k < |s.log| && k < |s.f.constraints|
    && Idle(s.undo, s.t.lits, q + 1)
    && p.v < |s.undo| && s.undo[p.v] == Cw(s.cw, p)[..j + 1]
    && (accept ==> QuietOrPending(s.f.constraints, s.pending, s.t.lits))
  }

  lemma TellingFacts(s: State, p: Lit, q: nat, j: nat)
    requires Telling(s, p, q, j) && j < |Cw(s.cw, p)|
    ensures var k := Cw(s.cw, p)[j];
            && k < |s.log| && k < |s.pending| && k < |s.f.constraints| && s.t.lits[q].v < |s.undo|
            && Cw(s.cw, p)[j..] == [k] + Cw(s.cw, p)[j + 1..] && k in Cw(s.cw, p)
            && Cw(s.cw, p)[..j + 1] == Cw(s.cw, p)[..j] + [k] && k !in s.undo[s.t.lits[q].v]
  {
    hide Cw, Ids, NoDup, Propagating, WatchListsOK;
    TellingSizes(s, p, q, j);
    WatchIds(s, p);
    TellOnce(s, p);
    NextOf(Cw(s.cw, p), j, |s.pending|);
  }

  lemma TellingSizes(s: State, p: Lit, q: nat, j: nat)
    requires Telling(s, p, q, j)
    ensures WatchListsOK(s.cw, s.f.constraints, s.n)
    ensures |s.pending| == |s.f.constraints| == |s.log|
  {
    hide Watched, Sound, LogOK, UndoIds, NoUndo, UndoWatched, LevelsQuiet, TrailOK, Settled, PendingPlus, ToldReasons,
         QuietOrPending, Idle, UndoOK, Honest, WatchListsOK;
  }

  lemma NextOf(ks: seq<nat>, j: nat, n: nat)
    requires Ids(ks, n) && NoDup(ks) && j < |ks|
    ensures ks[j] < n && ks[j..] == [ks[j]] + ks[j + 1..] && ks[j] in ks
    ensures ks[..j + 1] == ks[..j] + [ks[j]] && ks[j] !in ks[..j]
  {
    assert ks[j] in ks;
  }

  lemma TellOnce(s: State, p: Lit)
    requires WatchListsOK(s.cw, s.f.constraints, s.n)
    ensures NoDup(Cw(s.cw, p))
  {
  }

  // The constraint has been told; its answer is to its contract.
  lemma Tell(s: State, p: Lit, q: nat, j: nat)
    requires Telling(s, p, q, j) && j < |Cw(s.cw, p)|
    ensures var k := Cw(s.cw, p)[j];
            && k < |s.log| && k < |s.pending| && s.t.lits[q].v < |s.undo|
            && Answering(Dlv(s, q, k), p, q, j, k, false)
            && (Dlv(s, q, k).pending[k] == 0 ==> FedAll(s.f.constraints[k], Dlv(s, q, k).log[k], s.t.lits))
            && (forall accept: bool ::
                 (accept && Dlv(s, q, k).pending[k] == 0 ==>
                   Content(s.f.constraints[k], Dlv(s, q, k).log[k]) || Content(s.f.constraints[k], s.t.lits))
                 ==> Answering(Dlv(s, q, k), p, q, j, k, accept))
  {
    hide Failing, Content, FedAll, Idle, QuietOrPending;
    TellingFacts(s, p, q, j);
    var rest := Cw(s.cw, p)[j..];
    var k := rest[0];
    DeliverStep(s, rest, q);
    TellFed(s, p, q, j);
    TellContent(s, p, q, j);
    assert rest[1..] == Cw(s.cw, p)[j + 1..];
  }

  lemma TellFed(s: State, p: Lit, q: nat, j: nat)
    requires Telling(s, p, q, j) && j < |Cw(s.cw, p)|
    ensures var k := Cw(s.cw, p)[j];
            k < |s.log| && k < |s.pending| && s.t.lits[q].v < |s.undo|
            && (s.pending[k] == 1 ==> FedAll(s.f.constraints[k], Dlv(s, q, k).log[k], s.t.lits))
  {
    hide Watched, Sound, Told, TrailOK, Settled, ToldReasons, QuietOrPending, Idle, FedAll, Occ, Content, UndoOK,
         LevelStart, TopNonEmpty;
    TellingFacts(s, p, q, j);
    var rest := Cw(s.cw, p)[j..];
    var k := rest[0];
    var u := Dlv(s, q, k);
    DeliverStep(s, rest, q);
    if s.pending[k] == 1 {
      assert u.pending[k] == 0;
      FedAllAt(u, q, k);
    }
  }

  lemma WatchedHere(u: State, k: nat, l: Lit)
    requires Base(u) && k < |u.log| && l in u.f.constraints[k].watched
    ensures InRange(u.t.lits, |u.undo|) && u.log[k] == LogOf(u.undo, u.t.lits, k) && k in Cw(u.cw, l)
  {
    hide Watched, Sound, UndoIds, NoUndo, UndoWatched, LevelsQuiet, TrailOK, Honest;
  }

  // With nothing pending for it, the constraint has been told every true literal
  // that it watches.
  lemma FedAllAt(u: State, q: nat, k: nat)
    requires Base(u) && u.qhead == q + 1 && q < |u.t.lits| && k < |u.log|
    requires UndoOK(u.undo, u.cw, u.t.lits, q)
    requires u.t.lits[q].v < |u.undo| && k in u.undo[u.t.lits[q].v] && Occ(u.cw, u.t.lits[u.qhead..], k) == 0
    ensures FedAll(u.f.constraints[k], u.log[k], u.t.lits)
  {
    hide Watched, Sound, Told, TrailOK, TopNonEmpty, Cw, LogOf, Fed;
    LogIsFed(u, k);
    forall l | l in u.t.lits && l in u.f.constraints[k].watched ensures l in u.log[k] {
      WatchedHere(u, k, l);
      var i :| 0 <= i < |u.t.lits| && u.t.lits[i] == l;
      if i > q {
        assert u.t.lits[u.qhead..][i - u.qhead] == l;
        OccMember(u.cw, u.t.lits[u.qhead..], k, l);
      }
      LogMember(u.undo, u.t.lits, k, l);
    }
  }

  lemma TellContent(s: State, p: Lit, q: nat, j: nat)
    requires Telling(s, p, q, j) && j < |Cw(s.cw, p)|
    ensures var k := Cw(s.cw, p)[j];
            k < |s.log| && k < |s.pending| && s.t.lits[q].v < |s.undo|
            && (s.pending[k] == 1 && Content(s.f.constraints[k], Dlv(s, q, k).log[k]) ==>
                 Content(s.f.constraints[k], s.t.lits))
  {
    TellingFacts(s, p, q, j);
    TellFed(s, p, q, j);
    var k := Cw(s.cw, p)[j];
    assert TrailOK(s.t, s.n) && Honest(s.f.constraints[k], s.n) by { TellingBase(s, p, q, j); }
    hide Telling, Dlv, TrailOK, Content;
    EnqueuedNoClash(s.t, s.n, p);
    if s.pending[k] == 1 && Content(s.f.constraints[k], Dlv(s, q, k).log[k]) {
      ContentGrows(s.f.constraints[k], Dlv(s, q, k).log[k], s.t.lits);
    }
  }

  lemma TellingBase(s: State, p: Lit, q: nat, j: nat)
    requires Telling(s, p, q, j)
    ensures Base(s) && TrailOK(s.t, s.n) && q < |s.t.lits|
    ensures forall k :: 0 <= k < |s.f.constraints| ==> Honest(s.f.constraints[k], s.n)
  {
    hide Watched, Sound, WatchListsOK, LogOK, UndoIds, NoUndo, UndoWatched, LevelsQuiet, Settled, PendingPlus,
         ToldReasons, QuietOrPending, Idle, UndoOK, TrailOK, Honest;
  }

  // What the contract says about an answer that was given when trail was true.
  ghost predicate Answered(s: State, k: nat, trail: seq<Lit>, a: Answer)
    requires k < |s.f.constraints| && k < |s.log|
  {
    exists lazy: bool ::
      if |s.t.lims| > 0 then Granted(s.f.constraints[k], s.n, s.log[k], trail, lazy, a)
      else RootAnswer(s.f.constraints[k], s.n, trail, lazy, a)
  }

  // What the constraint is called with, and how it answers.
  function Reply(s: State, k: nat): Answer
    requires k < |s.f.constraints| && k < |s.log| && k < |s.pending| && k < |s.tell|
  {
    if |s.t.lims| == 0 then s.tell[k](s.log[k], s.t.lits, s.pending[k] > 0)
    else s.f.constraints[k].propagate(s.log[k], s.t.lits, s.pending[k] > 0)
  }

  // The call of propagate: the answer is to the contract, and if it accepts the
  // visit goes on.
  lemma Asked(s: State, p: Lit, q: nat, j: nat)
    requires Telling(s, p, q, j) && j < |Cw(s.cw, p)|
    ensures var k := Cw(s.cw, p)[j];
            && k < |s.log| && k < |s.pending| && k < |s.f.constraints| && s.t.lits[q].v < |s.undo|
            && var u := Dlv(s, q, k);
            && k < |u.tell| && Answered(u, k, u.t.lits, Reply(u, k)) && Answering(u, p, q, j, k, Reply(u, k).accept)
  {
    hide Telling, Answering, Content, FedAll, TrailOK, Base, Honest, Fed, NoClash, Cw, Granted, Fit, Can, Objects,
         RootAnswer, RootHonest;
    TellingFacts(s, p, q, j);
    Tell(s, p, q, j);
    TellingBase(s, p, q, j);
    var k := Cw(s.cw, p)[j];
    var u := Dlv(s, q, k);
    AnsweringFed(u, p, q, j, k);
    EnqueuedNoClash(s.t, s.n, p);
    PendingNonNegative(u, p, q, j, k);
    var lazy := u.pending[k] > 0;
    if !lazy {
      AnsweringFit(u, p, q, j, k);
    }
    TellsAt(s, k);
    if |s.t.lims| == 0 {
      RootReply(s.f.constraints[k], s.n, s.tell[k], u.log[k], u.t.lits, lazy);
    } else {
      HonestPropagate(s.f.constraints[k], s.n, u.log[k], u.t.lits, lazy);
      GrantedParts(s.f.constraints[k], s.n, u.log[k], u.t.lits, lazy,
                   s.f.constraints[k].propagate(u.log[k], u.t.lits, lazy));
    }
  }

  lemma TellsAt(s: State, k: nat)
    requires Base(s) && k < |s.f.constraints|
    ensures k < |s.tell| && RootHonest(s.f.constraints[k], s.n, s.tell[k])
  {
    hide Watched, Sound, WatchListsOK, LogOK, UndoIds, NoUndo, UndoWatched, LevelsQuiet, TrailOK, Honest, RootHonest,
         NeedsMet;
  }

  lemma RootReply(con: Constraint, n: nat, tell: Teller, log: seq<Lit>, trail: seq<Lit>, lazy: bool)
    requires RootHonest(con, n, tell) && Fed(con, log, trail) && NoClash(trail)
    requires !lazy ==> FedAll(con, log, trail) && Fit(con, log)
    ensures var a := tell(log, trail, lazy);
            RootAnswer(con, n, trail, lazy, a) && (a.accept && !lazy ==> Content(con, trail))
  {
    hide Fed, NoClash, Fit, Content, Explains, Refutes;
  }

  // With nothing pending, unit propagation is done with the clauses the constraint
  // counts on: they are settled for every literal it has been told.
  lemma AnsweringFit(u: State, p: Lit, q: nat, j: nat, k: nat)
    requires Answering(u, p, q, j, k, false) && FedAll(u.f.constraints[k], u.log[k], u.t.lits)
    ensures Fit(u.f.constraints[k], u.log[k])
  {
    hide Watched, Sound, WatchListsOK, NoUndo, UndoWatched, UndoIds, LevelsQuiet, TrailOK, Settled, PendingPlus,
         ToldReasons, QuietOrPending, UndoOK, Honest, NeedsMet, LogOf, Fit, Fed;
    LoggedBefore(u, k, q + 1);
    NeedsFit(u, k);
  }

  lemma NeedsFit(u: State, k: nat)
    requires Base(u) && Settled(u.t, u.db, u.n, u.qhead, NO_LIT, {}) && k < |u.f.constraints| && k < |u.log|
    requires FedAll(u.f.constraints[k], u.log[k], u.t.lits)
    requires forall l :: l in u.log[k] ==> TrueBefore(u.t, l, u.qhead)
    ensures Fit(u.f.constraints[k], u.log[k])
  {
    hide DbOK, WatchMapOK, WatchListsOK, LogOK, NoUndo, UndoWatched, UndoIds, LevelsQuiet, TrailOK, Settled, Honest,
         AllDbEntailed, RootOK, ReasonsOK, HomeOK, Closes, Fed;
    var con := u.f.constraints[k];
    HonestIsSteady(u, k);
    HonestSteady(con, u.n);
    assert con in u.f.constraints;
    forall c | c in Needs(con) ensures Closes(c, u.log[k]) {
      var h := HomeOf(u, c);
      NeedCloses(u, con, c, h, u.log[k]);
    }
  }

  lemma LoggedBefore(u: State, k: nat, m: nat)
    requires Base(u) && Idle(u.undo, u.t.lits, m) && m <= |u.t.lits| && k < |u.log|
    ensures forall l :: l in u.log[k] ==> TrueBefore(u.t, l, m)
  {
    hide Watched, Sound, WatchListsOK, UndoIds, LevelsQuiet, Honest, NeedsMet;
    PrefixLog(u, m, k);
    forall l | l in u.log[k] ensures TrueBefore(u.t, l, m) {
      LogMember(u.undo, u.t.lits[..m], k, l);
      var i :| 0 <= i < m && u.t.lits[..m][i] == l;
      assert u.t.lits[i] == l;
    }
  }

  lemma PrefixLog(u: State, m: nat, k: nat)
    requires Base(u) && Idle(u.undo, u.t.lits, m) && m <= |u.t.lits| && k < |u.log|
    ensures InRange(u.t.lits[..m], |u.undo|) && u.log[k] == LogOf(u.undo, u.t.lits[..m], k)
  {
    hide Watched, Sound, UndoIds, LevelsQuiet, TrailOK, Honest, WatchListsOK, NeedsMet;
    LogIdle(u.undo, u.t.lits, m, k);
  }

  lemma AnsweringFed(u: State, p: Lit, q: nat, j: nat, k: nat)
    requires Answering(u, p, q, j, k, false)
    ensures k < |u.log| && k < |u.f.constraints| && Fed(u.f.constraints[k], u.log[k], u.t.lits)
  {
    hide Base, Settled, PendingPlus, ToldReasons, Idle, QuietOrPending, UndoOK;
    LogIsFed(u, k);
  }

  lemma PendingNonNegative(u: State, p: Lit, q: nat, j: nat, k: nat)
    requires Answering(u, p, q, j, k, false) && k < |u.pending|
    ensures u.pending[k] >= 0
  {
    hide Base, Settled, ToldReasons, Idle, QuietOrPending, UndoOK;
  }

  lemma AnswerEnqueue(u: State, p: Lit, q: nat, j: nat, k: nat, accept: bool, x: Lit, kept: seq<Lit>,
                      pending: seq<int>)
    requires Answering(u, p, q, j, k, accept) && x.v < u.n && |u.t.pos| == u.n && u.t.pos[x.v] == -1
    requires Argues(u, k, x, kept) && Bumped(u.pending, pending, Cw(u.cw, x), 1)
    ensures Sizes(u.t, u.n) && Answering(Enq(u, x, ByConstraint(k, kept), pending), p, q, j, k, accept)
  {
    hide Base, Settled, ToldReasons, Idle, QuietOrPending, UndoOK, PendingPlus, Argues, Bumped, MayEnqueue, TellsWhy,
         TrailOK, NoUndo, LevelStart, QuietUpTo;
    AnsweringFacts(u, p, q, j, k, accept);
    ConstraintMayEnqueue(u, k, x, kept);
    EnqueueFailing(u, x, ByConstraint(k, kept), pending, NO_LIT, {}, Cw(u.cw, p)[j + 1..], q);
    EnqueueUndo(u.undo, u.cw, u.t, u.n, x, q, q + 1);
  }

  lemma AnsweringFacts(u: State, p: Lit, q: nat, j: nat, k: nat, accept: bool)
    requires Answering(u, p, q, j, k, accept)
    ensures Base(u) && TrailOK(u.t, u.n) && NoUndo(u.undo, u.t) && Sizes(u.t, u.n) && |u.undo| == u.n
    ensures forall l: Lit :: Ids(Cw(u.cw, l), |u.pending|)
    ensures Failing(u, NO_LIT, {}, Cw(u.cw, p)[j + 1..], q)
  {
    hide Watched, Sound, WatchListsOK, LogOK, UndoIds, UndoWatched, LevelsQuiet, Settled, PendingPlus, ToldReasons,
         QuietOrPending, Idle, UndoOK, Honest;
    forall l: Lit ensures Ids(Cw(u.cw, l), |u.pending|) {
      WatchIds(u, l);
    }
  }

  lemma AnswerAccepted(u: State, p: Lit, q: nat, j: nat, k: nat)
    requires Answering(u, p, q, j, k, true)
    ensures Telling(u, p, q, j + 1)
  {
    hide Failing, Idle, QuietOrPending;
  }

  lemma AnswerRejected(u: State, p: Lit, q: nat, j: nat, k: nat, accept: bool, extra: seq<Lit>, because: seq<Lit>)
    requires Answering(u, p, q, j, k, accept) && Opposes(u, k, extra, because)
    ensures ConflictOK(u, ConstraintConflict(k, extra, because))
  {
    hide Failing, Idle, QuietOrPending, Opposes;
  }

  lemma AnsweredFrame(u: State, v: State, k: nat, trail: seq<Lit>, a: Answer)
    requires k < |u.f.constraints| && k < |u.log| && Answered(u, k, trail, a)
    requires v.f == u.f && v.log == u.log && v.n == u.n && v.t.lims == u.t.lims
    ensures Answered(v, k, trail, a)
  {
    hide Granted, RootAnswer;
  }

  // What follows from less follows from more, and a literal that is false refutes.
  lemma RootNow(con: Constraint, n: nat, trail: seq<Lit>, pending: bool, a: Answer, now: seq<Lit>)
    requires RootAnswer(con, n, trail, pending, a) && forall l :: l in trail ==> l in now
    ensures forall x :: x in a.implied ==> x.v < n && Explains(con.sat, now, x)
    ensures forall x :: x in a.implied && Neg(x) in now ==> Refutes(con.sat, now)
    ensures !a.accept ==> Refutes(con.sat, now)
  {
    hide Content;
    forall b: Assignment ensures AllHold(b, now) ==> AllHold(b, trail) {
    }
    forall x | x in a.implied && Neg(x) in now ensures Refutes(con.sat, now) {
      forall b: Assignment | con.sat(b) ensures !AllHold(b, now) {
        NegHolds(b, x);
        assert AllHold(b, now) ==> Holds(b, Neg(x)) && AllHold(b, trail);
      }
    }
  }

  // What the answer allows while its literals are being enqueued.
  lemma AnsweredNow(u: State, k: nat, trail: seq<Lit>, a: Answer)
    requires k < |u.f.constraints| && k < |u.log| && Answered(u, k, trail, a) && Steady(u.f.constraints[k])
    requires (forall l :: l in trail ==> l in u.t.lits) && forall l :: l in u.t.lits ==> l in trail || l in a.implied
    ensures forall x :: x in a.implied ==> x.v < u.n && Argues(u, k, x, Why(a, x))
    ensures forall x :: x in a.implied && Neg(x) in u.t.lits ==> Opposes(u, k, [Neg(x)], [])
    ensures !a.accept ==> Opposes(u, k, [], Because(a))
  {
    hide Granted, Can, Objects, Steady, Content, FedAll, RootAnswer, Explains, Refutes;
    var con := u.f.constraints[k];
    if |u.t.lims| == 0 {
      var any: bool :| RootAnswer(con, u.n, trail, any, a);
      RootNow(con, u.n, trail, any, a, u.t.lits);
      return;
    }
    var lazy: bool :| Granted(con, u.n, u.log[k], trail, lazy, a);
    GrantedParts(con, u.n, u.log[k], trail, lazy, a);
    forall x | x in a.implied ensures Can(con, u.log[k], u.t.lits, x, Why(a, x)) {
      CanMore(con, u.log[k], u.log[k], trail, u.t.lits, x, Why(a, x));
    }
    forall x | x in a.implied && Neg(x) in u.t.lits ensures Objects(con, u.log[k], u.t.lits, [Neg(x)], []) {
      FalseObjects(con, u.n, u.log[k], trail, lazy, a, u.t.lits, x);
    }
    if !a.accept {
      ObjectsMore(con, u.log[k], trail, u.t.lits, [], Because(a));
    }
  }

  lemma TellingPosition(s: State, p: Lit, q: nat, j: nat)
    requires Telling(s, p, q, j)
    ensures q < |s.t.lits| && s.t.lits[q] == p && p.v < |s.undo|
  {
  }

  lemma TellingIds(s: State, p: Lit, q: nat, j: nat)
    requires Telling(s, p, q, j) && j < |Cw(s.cw, p)|
    ensures Ids(Cw(s.cw, p)[j + 1..], |s.f.constraints|)
    ensures |s.pending| == |s.f.constraints|
  {
    hide Watched, Sound, LogOK, UndoIds, NoUndo, UndoWatched, LevelsQuiet, TrailOK, Settled, PendingPlus, ToldReasons,
         QuietOrPending, Idle, UndoOK, Honest, WatchListsOK;
    WatchIds(s, p);
    var rest := Cw(s.cw, p)[j + 1..];
    forall k | k in rest ensures k < |s.f.constraints| {
      assert k in Cw(s.cw, p);
    }
  }

  lemma TakeVisits(s: State)
    requires Ready(s) && s.qhead < |s.t.lits|
    ensures var p := s.t.lits[s.qhead];
            Visiting(s.(qhead := s.qhead + 1), p, s.qhead, Crefs(Ws(s.longs, p)) + Crefs(Ws(s.bins, p)))
  {
    TakeStep(s);
  }

  lemma ReadyFacts(s: State)
    requires Ready(s)
    ensures Base(s) && TrailOK(s.t, s.n) && TopNonEmpty(s.t) && Sizes(s.t, s.n) && s.qhead <= |s.t.lits|
    ensures forall l: Lit :: Ids(Cw(s.cw, l), |s.pending|)
  {
    hide Watched, Sound, LogOK, UndoIds, NoUndo, UndoWatched, LevelsQuiet, TrailOK, Settled, PendingPlus, ToldReasons,
         QuietOrPending, Idle, UndoOK, Honest, WatchListsOK, LevelStart;
    forall l: Lit ensures Ids(Cw(s.cw, l), |s.pending|) {
      WatchIds(s, l);
    }
  }

  // The fixpoint of propagation: nothing is left for any clause or constraint.
  ghost predicate Fixpoint(s: State) {
    && (forall cr: nat :: Live(s.db, cr) ==> UnitClosed(s.t, s.db[cr].lits) && !Falsified(s.t, s.db[cr].lits))
    && (forall k :: 0 <= k < |s.f.constraints| ==> Content(s.f.constraints[k], s.t.lits))
  }

  lemma PropagationCloses(s: State)
    requires Ready(s) && s.qhead == |s.t.lits|
    ensures Fixpoint(s)
  {
    hide WatchMapOK, Sound, Told, TrailOK, PendingPlus, ToldReasons, QuietOrPending, Idle, UndoOK, UnitClosed,
         Falsified, Content, Settled;
    FixpointQuiet(s);
    forall cr: nat | Live(s.db, cr) ensures UnitClosed(s.t, s.db[cr].lits) && !Falsified(s.t, s.db[cr].lits) {
      SettledIsUnitClosed(s.t, s.db, s.n, cr);
    }
  }

  // Every constraint has been told exactly what it watches of the trail.
  lemma FixpointFed(s: State, k: nat)
    requires Ready(s) && s.qhead == |s.t.lits| && k < |s.log|
    ensures FedAll(s.f.constraints[k], s.log[k], s.t.lits)
  {
    hide Watched, Sound, Told, TrailOK, TopNonEmpty, Cw, LogOf, Fed, Settled, PendingPlus, ToldReasons,
         QuietOrPending, Idle;
    LogIsFed(s, k);
    forall l | l in s.t.lits && l in s.f.constraints[k].watched ensures l in s.log[k] {
      WatchedHere(s, k, l);
      LogMember(s.undo, s.t.lits, k, l);
    }
  }

  // What a constraint watches of a quiet state is quiet.
  lemma QuietPart(con: Constraint, n: nat, log: seq<Lit>, trail: seq<Lit>)
    requires Honest(con, n) && FedAll(con, log, trail) && Quiet(con, trail)
    ensures Quiet(con, log)
  {
    if con.Constraint? && con.blocked(log) {
      BlockedMore(con, log, trail);
    }
  }

  // When propagate starts after a backtrack, and when it has ended without a conflict,
  // every constraint has been told all it watches and is quiet about it; and in between
  // it asks no constraint again after one has refused.  So a constraint whose answer is
  // true only for a quiet state has accepted all that came before a delivery.
  lemma NothingRefused(s: State)
    requires Ready(s) && s.qhead == |s.t.lits|
    ensures |s.log| == |s.f.constraints|
    ensures forall k :: 0 <= k < |s.log| ==>
              FedAll(s.f.constraints[k], s.log[k], s.t.lits) && Quiet(s.f.constraints[k], s.log[k])
  {
    hide Watched, Sound, TrailOK, PendingPlus, ToldReasons, QuietOrPending, Idle, UndoOK, Settled, WatchListsOK, LogOK,
         UndoIds, NoUndo, UndoWatched, NeedsMet, LevelsQuiet, Honest, FedAll, Quiet;
    FixpointQuiet(s);
    forall k | 0 <= k < |s.log|
      ensures FedAll(s.f.constraints[k], s.log[k], s.t.lits) && Quiet(s.f.constraints[k], s.log[k])
    {
      FixpointFed(s, k);
      assert Content(s.f.constraints[k], s.t.lits);
      QuietPart(s.f.constraints[k], s.n, s.log[k], s.t.lits);
    }
  }
}
