// Building the problem at decision level 0: newVar, addClause_ and addConstraint
// of core/Solver.cc on the state value.
module Building {
  import opened Logic
  import opened Trails
  import opened Watching
  import opened Settling
  import opened Reasons
  import opened Delivery
  import opened States
  import opened Contracts
  import opened Propagation
  import opened Filtering

  // ---------------------------------------------------------- the empty solver

  function AllLits(n: nat): set<Lit> {
    (set v: nat | v < n :: Lit(v, false)) + (set v: nat | v < n :: Lit(v, true))
  }

  function NoWatchers<T>(n: nat): map<Lit, seq<T>> {
    map p | p in AllLits(n) :: []
  }

  function NoFacts(n: nat): Trail {
    Trail(seq(n, v => Undef), seq(n, v => VarData(NoReason, 0)), seq(n, v => -1), [], [])
  }

  function Initial(n: nat): State {
    State(n, NoFacts(n), 0, [], NoWatchers(n), NoWatchers(n), Formula([], []), [],
          NoWatchers(n), seq(n, v => []), [], [], [])
  }

  lemma AllLitsIn(n: nat, p: Lit)
    ensures p in AllLits(n) <==> p.v < n
  {
    if p.v < n {
      assert p == Lit(p.v, false) || p == Lit(p.v, true);
    }
  }

  lemma InitialReady(n: nat)
    ensures Ready(Initial(n))
  {
    hide Base, NoWatchers, AllLits;
    InitialBase(n);
    assert Initial(n).t.lits[Initial(n).qhead..] == [];
  }

  lemma InitialEmpty(n: nat)
    ensures var s := Initial(n);
            && s.n == n && s.t.lits == [] && s.t.lims == [] && s.qhead == 0 && s.home == [] && s.tell == []
            && s.f == Formula([], [])
  {
  }

  lemma InitialBase(n: nat)
    ensures Base(Initial(n))
  {
    hide WatchMapOK, NoWatchers, AllLits, WatchListsOK;
    var s := Initial(n);
    NothingWatched(n);
    assert Sound(s);
    assert Told(s);
  }

  lemma NothingWatched(n: nat)
    ensures DbOK([], n)
    ensures WatchMapOK([], NoWatchers(n), n, true) && WatchMapOK([], NoWatchers(n), n, false)
    ensures WatchListsOK(NoWatchers(n), [], n)
  {
    forall p: Lit | p.v < n ensures p in NoWatchers<Watcher>(n) && p in NoWatchers<nat>(n) {
      AllLitsIn(n, p);
    }
    assert forall p: Lit :: Cw(NoWatchers(n), p) == [] && Ws(NoWatchers(n), p) == [];
  }

  // ---------------------------------------------------------- a wider problem

  ghost predicate Wider(f: Formula, g: Formula) {
    && (forall c :: c in f.clauses ==> c in g.clauses)
    && (forall k :: k in f.constraints ==> k in g.constraints)
  }

  lemma WiderSound(s: State, g: Formula)
    requires Wider(s.f, g) && AllDbEntailed(s.f, s.db) && RootOK(s.t, s.f)
    ensures AllDbEntailed(g, s.db) && RootOK(s.t, g)
  {
    hide Entails;
    forall cr: nat | Live(s.db, cr) ensures Entails(g, s.db[cr].lits) {
      EntailsGrows(s.f, g, s.db[cr].lits);
    }
    forall l | Root(s.t, l) ensures Entails(g, [l]) {
      EntailsGrows(s.f, g, [l]);
    }
  }

  function WithClause(f: Formula, c: Clause): Formula {
    Formula(f.clauses + [c], f.constraints)
  }

  // A clause joins the problem; it has no home yet.
  lemma ClauseJoins(s: State, c: Clause)
    requires Ready(s)
    ensures Ready(s.(f := WithClause(s.f, c)))
  {
    hide TrailOK, DbOK, WatchMapOK, Settled, PendingPlus, QuietOrPending, UndoOK, Idle, ToldReasons, LogOK, UndoIds,
         LevelsQuiet, WatchListsOK, Honest, ReasonsOK, AllDbEntailed, RootOK, NoUndo, UndoWatched;
    var u := s.(f := WithClause(s.f, c));
    assert Wider(s.f, u.f);
    WiderSound(s, u.f);
    NeedsWider(s.f, u.f, s.home);
    assert Sound(u);
    assert Told(u);
    assert Base(u);
  }

  // Its home is found.
  lemma ClauseHoused(s: State, h: int)
    requires Ready(s) && |s.home| < |s.f.clauses| && Housed(s.f.clauses[|s.home|], h, s.db, s.t)
    ensures Ready(s.(home := s.home + [h]))
  {
    hide TrailOK, DbOK, WatchMapOK, Settled, PendingPlus, QuietOrPending, UndoOK, Idle, ToldReasons, LogOK, UndoIds,
         LevelsQuiet, WatchListsOK, Honest, ReasonsOK, AllDbEntailed, RootOK, NoUndo, UndoWatched, Housed;
    var u := s.(home := s.home + [h]);
    assert HomeOK(u.f.clauses, u.home, u.db, u.t);
    NeedsHoused(s.f, s.home, u.home);
    assert Told(u);
    assert Base(u);
  }

  // ----------------------------------------------------- simplifying a clause

  // What is left follows from c and the facts of level 0.
  lemma KeptEntailed(s: State, c: Clause, out: Clause)
    requires Base(s) && |s.t.lims| == 0 && c in s.f.clauses && Kept(s.t.lits, c, |c|, out) && InRange(c, s.n)
    ensures Entails(s.f, out)
    ensures InRange(out, s.n) && DistinctVars(out)
  {
    hide Watched, Told, TrailOK, ReasonsOK, HomeOK, AllDbEntailed;
    assert c[..|c|] == c;
    forall a: Assignment | Models(a, s.f) ensures Satisfies(a, out) {
      assert Satisfies(a, c);
      var q :| q in c && Holds(a, q);
      if q !in out {
        RootOf(s.t, s.n, Neg(q));
        RootHolds(s.t, s.f, a, Neg(q));
      }
    }
  }

  lemma KeptUnassigned(t: Trail, n: nat, c: Clause, out: Clause, l: Lit)
    requires TrailOK(t, n) && Kept(t.lits, c, |c|, out) && l in out && l.v < n
    ensures t.pos[l.v] == -1
  {
    ValueIsMembership(t, n, l);
    ValueIsPosition(t, n, l);
  }

  lemma NothingKept(f: Formula, out: Clause)
    requires Entails(f, out) && out == []
    ensures Unsatisfiable(f)
  {
    forall a: Assignment ensures !Models(a, f) {
      assert !Satisfies(a, out);
    }
  }

  // A clause whose watched literals are unassigned.
  lemma FreshSettled(t: Trail, db: Db, n: nat, bound: nat, r: ClauseRec)
    requires TrailOK(t, n) && DbOK(db, n) && Settled(t, db, n, bound, NO_LIT, {})
    requires ClauseOK(r.lits, n) && !r.deleted && r.lits[0].v < n && r.lits[1].v < n
    requires t.pos[r.lits[0].v] == -1 && t.pos[r.lits[1].v] == -1
    ensures DbOK(db + [r], n)
    ensures Settled(t, db + [r], n, bound, NO_LIT, {})
  {
    var e := db + [r];
    forall d: nat | Live(e, d) ensures ClauseSettled(t, e[d].lits, bound, NO_LIT, false) {
      if d < |db| {
        assert Live(db, d) && ClauseSettled(t, db[d].lits, bound, NO_LIT, false);
      }
    }
  }

  lemma FreshAttached(s: State, r: ClauseRec)
    requires Ready(s) && ClauseOK(r.lits, s.n) && !r.deleted && Entails(s.f, r.lits)
    requires r.lits[0].v < s.n && r.lits[1].v < s.n && |s.t.pos| == s.n
    requires s.t.pos[r.lits[0].v] == -1 && s.t.pos[r.lits[1].v] == -1
    ensures Ready(Att(s, r))
  {
    hide TrailOK, WatchMapOK, DbOK, Sound, Told, Settled, PendingPlus, QuietOrPending, UndoOK, Idle, ToldReasons,
         ClauseOK, Entails;
    AttachBase(s, r);
    FreshSettled(s.t, s.db, s.n, s.qhead, r);
  }

  lemma UnitMayJoin(s: State, c: Clause, p: Lit)
    requires Base(s) && |s.t.lims| == 0 && p.v < s.n && |s.t.pos| == s.n && s.t.pos[p.v] == -1 && Entails(s.f, [p])
    ensures MayEnqueue(s, p, NoReason) && TellsWhy(s, p, NoReason)
  {
  }

  // --------------------------------------------------- a constraint joins

  function WatchesAdded(cw: ConstrWatches, watched: set<Lit>, k: nat): ConstrWatches {
    map p | p in cw :: if p in watched then cw[p] + [k] else cw[p]
  }

  // registerUndo for every literal of the trail that is watched.
  function UndoAdded(undo: seq<seq<nat>>, lits: seq<Lit>, watched: set<Lit>, k: nat): (r: seq<seq<nat>>)
    ensures |r| == |undo|
  {
    seq(|undo|, v requires 0 <= v < |undo| =>
      if exists l :: l in lits && l.v == v && l in watched then undo[v] + [k] else undo[v])
  }

  lemma UndoAddedAt(undo: seq<seq<nat>>, t: Trail, n: nat, watched: set<Lit>, k: nat, l: Lit)
    requires TrailOK(t, n) && |undo| == n && l in t.lits
    ensures l.v < n
    ensures UndoAdded(undo, t.lits, watched, k)[l.v] == if l in watched then undo[l.v] + [k] else undo[l.v]
  {
    var i :| 0 <= i < |t.lits| && t.lits[i] == l;
    forall x | x in t.lits && x.v == l.v ensures x == l {
      var j :| 0 <= j < |t.lits| && t.lits[j] == x;
      assert t.pos[l.v] == i && t.pos[l.v] == j;
    }
  }

  // Every literal of ls that is watched owes constraint k one undo more.
  ghost predicate OwesMore(undo: seq<seq<nat>>, more: seq<seq<nat>>, ls: seq<Lit>, watched: set<Lit>, k: nat) {
    && InRange(ls, |undo|) && |more| == |undo|
    && forall l :: l in ls ==>
         k !in undo[l.v] && more[l.v] == (if l in watched then undo[l.v] + [k] else undo[l.v])
  }

  // The logs of the others stay, and the newcomer's is what it has heard.
  lemma {:induction false} OwesMoreLog(undo: seq<seq<nat>>, more: seq<seq<nat>>, ls: seq<Lit>, watched: set<Lit>,
                                       k: nat, x: nat)
    requires OwesMore(undo, more, ls, watched, k)
    ensures LogOf(more, ls, x) == if x == k then Heard(ls, watched) else LogOf(undo, ls, x)
  {
    hide Repeat, OwesMore;
    if ls != [] {
      OwesMoreLess(undo, more, ls, watched, k);
      OwesMoreLog(undo, more, ls[..|ls| - 1], watched, k, x);
      OwesMoreLast(undo, more, ls, watched, k, x);
    }
  }

  // What the last literal adds to the logs.
  lemma OwesMoreLast(undo: seq<seq<nat>>, more: seq<seq<nat>>, ls: seq<Lit>, watched: set<Lit>, k: nat, x: nat)
    requires OwesMore(undo, more, ls, watched, k) && ls != []
    ensures var p := ls[|ls| - 1];
            && p.v < |undo| == |more|
            && Repeat(p, multiset(more[p.v])[x])
               == if x == k then (if p in watched then [p] else []) else Repeat(p, multiset(undo[p.v])[x])
  {
    hide Repeat;
    var p := ls[|ls| - 1];
    assert p in ls;
    RepeatSmall(p);
    OwesOnce(undo[p.v], k, x);
  }

  lemma OwesMoreLess(undo: seq<seq<nat>>, more: seq<seq<nat>>, ls: seq<Lit>, watched: set<Lit>, k: nat)
    requires OwesMore(undo, more, ls, watched, k) && ls != []
    ensures OwesMore(undo, more, ls[..|ls| - 1], watched, k)
  {
  }

  lemma OwesOnce(us: seq<nat>, k: nat, x: nat)
    requires k !in us
    ensures multiset(us)[k] == 0 && multiset(us + [k])[x] == multiset(us)[x] + if x == k then 1 else 0
  {
  }

  function Join(s: State, con: Constraint, tell: Teller): State {
    var k := |s.f.constraints|;
    s.(tell := s.tell + [tell],
       f := Formula(s.f.clauses, s.f.constraints + [con]),
       cw := WatchesAdded(s.cw, con.watched, k),
       undo := UndoAdded(s.undo, s.t.lits, con.watched, k),
       log := s.log + [Heard(s.t.lits, con.watched)],
       pending := s.pending + [0])
  }

  // addConstraint is called at level 0, when everything has been propagated.
  ghost predicate Settling0(s: State) {
    Ready(s) && |s.t.lims| == 0 && s.qhead == |s.t.lits|
  }

  lemma JoinWatches(s: State, con: Constraint, tell: Teller)
    requires WatchListsOK(s.cw, s.f.constraints, s.n) && forall l :: l in con.watched ==> l.v < s.n
    ensures WatchListsOK(Join(s, con, tell).cw, s.f.constraints + [con], s.n)
  {
    var k := |s.f.constraints|;
    var cons := s.f.constraints + [con];
    var cw := WatchesAdded(s.cw, con.watched, k);
    assert forall p: Lit :: p in s.cw ==> Cw(s.cw, p) == s.cw[p];
    forall p: Lit, x | x in Cw(cw, p) ensures x < |cons| && p in cons[x].watched {
      assert x in Cw(s.cw, p) || (x == k && p in con.watched);
    }
    forall p: Lit ensures NoDup(Cw(cw, p)) {
      assert k !in Cw(s.cw, p) && NoDup(Cw(s.cw, p));
    }
    forall x, p | 0 <= x < |cons| && p in cons[x].watched ensures p.v < s.n && x in Cw(cw, p) {
      assert x < k ==> p.v < s.n && x in Cw(s.cw, p);
      assert p.v < s.n;
    }
  }

  lemma JoinOwes(s: State, con: Constraint, tell: Teller)
    requires Base(s)
    ensures OwesMore(s.undo, Join(s, con, tell).undo, s.t.lits, con.watched, |s.f.constraints|)
  {
    hide Watched, Sound, LevelsQuiet, Honest, WatchListsOK, LogOK, UndoAdded;
    forall l | l in s.t.lits
      ensures l.v < s.n && |s.f.constraints| !in s.undo[l.v]
      ensures Join(s, con, tell).undo[l.v]
           == if l in con.watched then s.undo[l.v] + [|s.f.constraints|] else s.undo[l.v]
    {
      UndoAddedAt(s.undo, s.t, s.n, con.watched, |s.f.constraints|, l);
    }
  }

  lemma JoinLogs(s: State, con: Constraint, tell: Teller)
    requires Base(s)
    ensures LogOK(Join(s, con, tell).undo, Join(s, con, tell).log, s.t.lits)
  {
    hide Watched, TrailOK, Sound, LevelsQuiet, Honest, WatchListsOK, UndoAdded, OwesMore, LogOf, NoUndo, UndoWatched,
         UndoIds;
    JoinOwes(s, con, tell);
    var u := Join(s, con, tell);
    forall x | 0 <= x < |u.log| ensures u.log[x] == LogOf(u.undo, s.t.lits, x) {
      OwesMoreLog(s.undo, u.undo, s.t.lits, con.watched, |s.f.constraints|, x);
    }
  }

  lemma DeliveredMore(undo: seq<seq<nat>>, more: seq<seq<nat>>, cw: ConstrWatches, lits: seq<Lit>, watched: set<Lit>,
                      k: nat)
    requires OwesMore(undo, more, lits, watched, k) && UndoOK(undo, cw, lits, |lits|)
    requires forall l :: l in lits ==> l in cw && NoDup(cw[l]) && k !in cw[l]
    ensures UndoOK(more, WatchesAdded(cw, watched, k), lits, |lits|)
    ensures UndoWatched(more, WatchesAdded(cw, watched, k), lits)
  {
    var now := WatchesAdded(cw, watched, k);
    forall i | 0 <= i < |lits| ensures more[lits[i].v] == Cw(now, lits[i]) {
      assert lits[i] in lits;
      assert undo[lits[i].v] == Cw(cw, lits[i]);
    }
    forall i | 0 <= i < |lits| ensures NoDup(more[lits[i].v]) {
      assert lits[i] in lits;
    }
  }

  lemma JoinDelivered(s: State, con: Constraint, tell: Teller)
    requires Base(s) && UndoOK(s.undo, s.cw, s.t.lits, |s.t.lits|)
    ensures UndoOK(Join(s, con, tell).undo, Join(s, con, tell).cw, s.t.lits, |s.t.lits|)
    ensures UndoWatched(Join(s, con, tell).undo, Join(s, con, tell).cw, s.t.lits)
  {
    hide Watched, TrailOK, Sound, LevelsQuiet, Honest, UndoAdded, LogOf, NoUndo, UndoWatched, UndoIds, Heard,
         WatchListsOK, OwesMore, UndoOK, WatchesAdded;
    JoinOwes(s, con, tell);
    forall l | l in s.t.lits ensures l in s.cw && NoDup(s.cw[l]) && |s.f.constraints| !in s.cw[l] {
      InDomain(s, l);
    }
    DeliveredMore(s.undo, Join(s, con, tell).undo, s.cw, s.t.lits, con.watched, |s.f.constraints|);
  }

  lemma JoinUndo(s: State, con: Constraint, tell: Teller)
    requires Base(s)
    ensures UndoIds(Join(s, con, tell).undo, |Join(s, con, tell).log|) && NoUndo(Join(s, con, tell).undo, s.t)
  {
    hide Watched, Sound, LevelsQuiet, Honest, WatchListsOK, LogOK, UndoWatched, Heard;
    var u := Join(s, con, tell);
    assert forall l :: l in s.t.lits ==> s.t.pos[l.v] != -1;
  }

  lemma InDomain(s: State, l: Lit)
    requires WatchListsOK(s.cw, s.f.constraints, s.n) && l.v < s.n
    ensures l in s.cw && NoDup(s.cw[l]) && |s.f.constraints| !in s.cw[l]
  {
    assert Cw(s.cw, l) == s.cw[l];
  }

  lemma JoinTold(s: State, con: Constraint, tell: Teller)
    requires Settling0(s)
    ensures ToldReasons(s.t, Join(s, con, tell).undo, Join(s, con, tell).f.constraints, |s.t.lits|)
  {
    hide Watched, Sound, LevelsQuiet, Honest, WatchListsOK, TrailOK, Settled, LogOK, UndoIds, NoUndo, UndoWatched,
         PendingPlus, QuietOrPending, Idle;
    var u := Join(s, con, tell);
    forall x: nat | x < |s.f.constraints| ensures Steady(s.f.constraints[x]) {
      HonestIsSteady(s, x);
    }
    ToldGrows(s.t, s.undo, u.undo, s.f.constraints, |s.t.lits|);
    hide ToldReasons;
    ToldWider(s.t, u.undo, s.f.constraints, con);
  }

  lemma ToldWider(t: Trail, undo: seq<seq<nat>>, cons: seq<Constraint>, con: Constraint)
    requires ToldReasons(t, undo, cons, |t.lits|)
    ensures ToldReasons(t, undo, cons + [con], |t.lits|)
  {
    forall i | 0 <= i < |t.lits| ensures ToldReason(t, undo, cons + [con], i) {
      assert ToldReason(t, undo, cons, i);
    }
  }

  // While the last constraint, the newcomer, is enqueueing what it answered.
  ghost predicate Joining(u: State) {
    && Failing(u, NO_LIT, {}, [], u.qhead)
    && Idle(u.undo, u.t.lits, u.qhead)
    && |u.t.lims| == 0 && |u.f.constraints| > 0
    && QuietUpTo(u.f.constraints, u.pending, u.t.lits, |u.f.constraints| - 1)
  }

  lemma JoinBase(s: State, con: Constraint, tell: Teller)
    requires Settling0(s) && Honest(con, s.n) && NeedsGiven(s, con) && RootHonest(con, s.n, tell)
    ensures Base(Join(s, con, tell))
    ensures UndoOK(Join(s, con, tell).undo, Join(s, con, tell).cw, s.t.lits, |s.t.lits|)
  {
    hide WatchMapOK, DbOK, LevelsQuiet, TrailOK, Settled, LogOK, UndoIds, NoUndo, UndoWatched, PendingPlus,
         QuietOrPending, Idle, WatchListsOK, AllDbEntailed, RootOK, HomeOK, ToldReasons, ReasonOK, UndoOK, Join;
    var u := Join(s, con, tell);
    JoinFields(s, con, tell);
    assert Wider(s.f, u.f);
    WiderSound(s, u.f);
    HonestWatches(con, s.n);
    hide Honest;
    JoinNeeds(s, con);
    JoinWatches(s, con, tell);
    JoinUndo(s, con, tell);
    JoinLogs(s, con, tell);
    JoinDelivered(s, con, tell);
    JoinTells(s, con, tell);
    assert ReasonsOK(u.t, u.db, u.f.constraints);
    assert LevelsQuiet(u.f.constraints, u.t) by { NoLevels(u.f.constraints, u.t); }
  }

  lemma JoinTells(s: State, con: Constraint, tell: Teller)
    requires TellOK(s.f.constraints, s.n, s.tell) && RootHonest(con, s.n, tell)
    ensures TellOK(s.f.constraints + [con], s.n, s.tell + [tell])
  {
    hide RootHonest;
  }

  lemma JoinNeeds(s: State, con: Constraint)
    requires NeedsMet(s.f, s.home) && NeedsGiven(s, con)
    ensures NeedsMet(Formula(s.f.clauses, s.f.constraints + [con]), s.home)
  {
  }

  lemma NoLevels(cons: seq<Constraint>, t: Trail)
    requires |t.lims| == 0
    ensures LevelsQuiet(cons, t)
  {
  }

  lemma HonestWatches(con: Constraint, n: nat)
    requires Honest(con, n)
    ensures forall l :: l in con.watched ==> l.v < n
  {
  }

  lemma JoinFields(s: State, con: Constraint, tell: Teller)
    ensures var u := Join(s, con, tell);
            && u.n == s.n && u.t == s.t && u.qhead == s.qhead && u.db == s.db && u.longs == s.longs && u.bins == s.bins
            && u.home == s.home && u.f.clauses == s.f.clauses && u.f.constraints == s.f.constraints + [con]
            && u.pending == s.pending + [0] && |u.undo| == |s.undo|
            && u.log == s.log + [Heard(s.t.lits, con.watched)] && u.tell == s.tell + [tell]
  {
  }

  lemma JoinQuiet(cons: seq<Constraint>, con: Constraint, cw: ConstrWatches, more: ConstrWatches, pending: seq<int>,
                  lits: seq<Lit>)
    requires |pending| == |cons| && PendingPlus(cw, pending, [], []) && QuietOrPending(cons, pending, lits)
    ensures PendingPlus(more, pending + [0], [], [])
    ensures QuietUpTo(cons + [con], pending + [0], lits, |cons|)
  {
  }

  lemma JoinFailing(s: State, con: Constraint, tell: Teller)
    requires Settling0(s) && Honest(con, s.n) && NeedsGiven(s, con) && RootHonest(con, s.n, tell)
    ensures Joining(Join(s, con, tell))
  {
    JoinBase(s, con, tell);
    JoinTold(s, con, tell);
    JoinFields(s, con, tell);
    var u := Join(s, con, tell);
    assert u.t.lits[u.qhead..] == [] && s.t.lits[s.qhead..] == [];
    assert |s.pending| == |s.f.constraints|;
    hide Base, TrailOK, Settled, UndoOK, ToldReasons, Content, Honest, Join, PendingPlus, QuietOrPending, QuietUpTo,
         RootHonest;
    JoinQuiet(s.f.constraints, con, s.cw, u.cw, s.pending, s.t.lits);
    assert InRange(u.t.lits, |u.undo|) by { BaseRange(u); }
  }

  lemma BaseRange(u: State)
    requires Base(u)
    ensures InRange(u.t.lits, |u.undo|) && |u.pending| == |u.f.constraints|
  {
  }

  // The clauses a new constraint counts on have been added.
  ghost predicate NeedsGiven(s: State, con: Constraint) {
    |s.home| <= |s.f.clauses| && forall c :: c in Needs(con) ==> c in s.f.clauses[..|s.home|]
  }

  // The clauses the constraint counts on have been propagated when initialize is called.
  lemma StartFit(s: State, con: Constraint)
    requires Settling0(s) && Honest(con, s.n) && NeedsGiven(s, con)
    ensures Fit(con, s.t.lits)
  {
    hide Watched, Told, TrailOK, Settled, PendingPlus, ToldReasons, QuietOrPending, UndoOK, Honest, Idle;
    HonestSteady(con, s.n);
    ReadySettled(s);
    forall l | l in s.t.lits ensures TrueBefore(s.t, l, s.qhead) {
      InTrail(s.t, s.n, l);
    }
    forall c | c in Needs(con) ensures Closes(c, s.t.lits) {
      var h := HomeOf(s, c);
      NeedCloses(s, con, c, h, s.t.lits);
    }
  }

  lemma ReadySettled(s: State)
    requires Ready(s)
    ensures Base(s) && TrailOK(s.t, s.n) && DbOK(s.db, s.n) && Settled(s.t, s.db, s.n, s.qhead, NO_LIT, {})
  {
    hide TrailOK, DbOK, WatchMapOK, Sound, Told, Settled, PendingPlus, QuietOrPending, UndoOK, Idle, ToldReasons;
  }

  lemma JoiningFacts(u: State)
    requires Joining(u)
    ensures Base(u) && TrailOK(u.t, u.n) && Sizes(u.t, u.n) && |u.log| == |u.f.constraints|
    ensures forall l: Lit :: Ids(Cw(u.cw, l), |u.pending|)
  {
    hide Watched, Sound, LogOK, UndoIds, NoUndo, UndoWatched, LevelsQuiet, Settled, PendingPlus, ToldReasons,
         QuietUpTo, Idle, UndoOK, Honest, WatchListsOK, TrailOK, TellOK;
    forall l: Lit ensures Ids(Cw(u.cw, l), |u.pending|) {
      WatchIds(u, l);
    }
  }

  lemma JoiningEnqueue(u: State, k: nat, x: Lit, kept: seq<Lit>, pending: seq<int>)
    requires Joining(u) && k < |u.f.constraints| && k < |u.log| && x.v < u.n && |u.t.pos| == u.n
    requires u.t.pos[x.v] == -1 && Explains(u.f.constraints[k].sat, u.t.lits, x)
    requires Bumped(u.pending, pending, Cw(u.cw, x), 1)
    ensures Sizes(u.t, u.n) && Joining(Enq(u, x, ByConstraint(k, kept), pending))
  {
    hide Watched, Sound, WatchListsOK, LogOK, UndoIds, LevelsQuiet, ToldReasons, Content, Settled, PendingPlus,
         QuietOrPending, QuietUpTo, Explains, Bumped, MayEnqueue, TellOK;
    JoiningFacts(u);
    ConstraintMayEnqueue(u, k, x, kept);
    EnqueueFailing(u, x, ByConstraint(k, kept), pending, NO_LIT, {}, [], u.qhead);
    EnqueueUndo(u.undo, u.cw, u.t, u.n, x, u.qhead, u.qhead);
  }

  // initialize says no, or enqueues a literal that is false.
  lemma JoiningFails(u: State, k: nat)
    requires Joining(u) && k < |u.f.constraints| && Refutes(u.f.constraints[k].sat, u.t.lits)
    ensures Unsatisfiable(u.f)
  {
    hide Watched, ReasonsOK, HomeOK, AllDbEntailed, Settled, PendingPlus, QuietUpTo, UndoOK, Idle, ToldReasons,
         UndoIds, LevelsQuiet, Honest, WatchListsOK, TrailOK, Refutes, NeedsMet, TellOK;
    RootConstraintConflict(u.t, u.n, u.f, u.f.constraints[k]);
  }

  // initialize has accepted and everything it answered is true: either it is content
  // or something is pending for it.
  lemma JoiningDone(u: State, trail: seq<Lit>, a: Answer)
    requires Joining(u) && trail == u.t.lits[..u.qhead] && a.accept
    requires StartOK(u.f.constraints[|u.f.constraints| - 1], u.n, trail, a)
    requires forall x :: x in a.implied ==> x in u.t.lits
    requires forall l :: l in u.t.lits ==> l in trail || l in a.implied
    ensures Ready(u)
  {
    hide Watched, Sound, LogOK, UndoIds, NoUndo, UndoWatched, LevelsQuiet, Settled, ToldReasons, Idle, UndoOK, Honest,
         TrailOK, TellOK, Content, WatchListsOK;
    var k := |u.f.constraints| - 1;
    var con := u.f.constraints[k];
    if u.pending[k] == 0 {
      NoneAwaited(u, k, trail, a);
      HonestIsSteady(u, k);
      ContentGrows(con, trail, u.t.lits);
    }
  }

  lemma NoneAwaited(u: State, k: nat, trail: seq<Lit>, a: Answer)
    requires Base(u) && k < |u.f.constraints| && u.qhead <= |u.t.lits| && |u.pending| == |u.f.constraints|
    requires PendingPlus(u.cw, u.pending, u.t.lits[u.qhead..], []) && u.pending[k] == 0
    requires trail == u.t.lits[..u.qhead] && forall x :: x in a.implied ==> x in u.t.lits
    requires forall l :: l in u.t.lits ==> l in trail || l in a.implied
    ensures !Awaits(u.f.constraints[k], trail, a.implied)
    ensures forall l :: l in u.t.lits && l in u.f.constraints[k].watched ==> l in trail
  {
    hide Watched, Sound, LogOK, UndoIds, NoUndo, UndoWatched, LevelsQuiet, Honest, TrailOK, TellOK, Occ;
    var con := u.f.constraints[k];
    forall l | l in u.t.lits && l in con.watched ensures l in trail {
      var i :| 0 <= i < |u.t.lits| && u.t.lits[i] == l;
      if i >= u.qhead {
        assert u.t.lits[u.qhead..][i - u.qhead] == l;
        OccMember(u.cw, u.t.lits[u.qhead..], k, l);
        assert false;
      }
      assert u.t.lits[..u.qhead][i] == l;
    }
  }

  lemma JoiningRoot(u: State)
    requires Joining(u)
    ensures |u.t.lims| == 0
  {
  }

  lemma SettlingFacts(s: State)
    requires Settling0(s)
    ensures Ready(s) && Base(s) && TrailOK(s.t, s.n) && Sizes(s.t, s.n) && |s.log| == |s.f.constraints|
    ensures s.qhead == |s.t.lits| && |s.t.lims| == 0
  {
    hide TrailOK, Watched, Sound, Told, Settled, PendingPlus, QuietOrPending, UndoOK, Idle, ToldReasons;
  }

  // -------------------------------------------------- addClause_, details

  lemma AlwaysSat(t: Trail, n: nat, ps: Clause)
    requires TrailOK(t, n) && |t.lims| == 0 && exists l :: l in ps && (l in t.lits || Neg(l) in ps)
    ensures RootSat(t, ps) || Tautology(ps)
  {
    var l :| l in ps && (l in t.lits || Neg(l) in ps);
    if l in t.lits {
      RootOf(t, n, l);
    }
  }

  lemma RootOf(t: Trail, n: nat, l: Lit)
    requires TrailOK(t, n) && |t.lims| == 0 && l in t.lits
    ensures Root(t, l)
  {
    var i :| 0 <= i < |t.lits| && t.lits[i] == l;
    assert t.pos[l.v] == i;
  }

  lemma UnitHoused(t: Trail, n: nat, u: Trail, ps: Clause, p: Lit)
    requires TrailOK(t, n) && p.v < n && t.pos[p.v] == -1 && u == Enqueued(t, p, NoReason) && |t.lims| == 0
    requires Kept(t.lits, ps, |ps|, [p])
    ensures RootSat(u, ps)
  {
    EnqueuedOK(t, n, p, NoReason);
    assert p in [p] && p in ps && Root(u, p);
  }

  lemma LongHoused(s: State, ps: Clause, out: Clause)
    requires Kept(s.t.lits, ps, |ps|, out) && |out| >= 2
    ensures var u := Att(s, ClauseRec(out, false, false));
            && Housed(ps, |s.db|, u.db, u.t) && u.home == s.home && u.f == s.f && u.t == s.t && |u.db| == |s.db| + 1
            && u.n == s.n && u.qhead == s.qhead
  {
  }
}
