// What unit propagation owes to the two-watched-literal scheme: once the
// negation of a watched literal has been processed, the clause holds a true
// literal that is assigned no later, level for level, than the watched one.
module Settling {
  import opened Logic
  import opened Trails
  import opened Watching

  ghost predicate WitnessedBy(t: Trail, c: Clause, l: Lit, b: Lit) {
    b in c && IsTrue(t, b) && Level(t, b) <= Level(t, l)
  }

  ghost predicate Witness(t: Trail, c: Clause, l: Lit) {
    exists b :: WitnessedBy(t, c, l, b)
  }

  // l is a watched literal of c, and the first bound trail literals have been
  // processed.
  ghost predicate SettledAt(t: Trail, c: Clause, l: Lit, bound: nat) {
    TrueBefore(t, Neg(l), bound) ==> Witness(t, c, l)
  }

  // ex is the watched literal that is being visited right now; clauses in todo
  // have not been visited for it yet.
  ghost predicate ClauseSettled(t: Trail, c: Clause, bound: nat, ex: Lit, exempt: bool)
    requires |c| >= 2
  {
    && ((exempt && c[0] == ex) || SettledAt(t, c, c[0], bound))
    && ((exempt && c[1] == ex) || SettledAt(t, c, c[1], bound))
  }

  ghost predicate Settled(t: Trail, db: Db, n: nat, bound: nat, ex: Lit, todo: set<nat>)
    requires DbOK(db, n)
  {
    forall cr: nat :: Live(db, cr) ==> ClauseSettled(t, db[cr].lits, bound, ex, cr in todo)
  }

  // The clause is satisfied or has two unassigned literals.
  ghost predicate UnitClosed(t: Trail, c: Clause) {
    || (exists l :: l in c && IsTrue(t, l))
    || (exists i, j :: 0 <= i < j < |c| && !IsFalse(t, c[i]) && !IsFalse(t, c[j]))
  }

  ghost predicate Falsified(t: Trail, c: Clause) {
    forall l :: l in c ==> IsFalse(t, l)
  }

  // The trail is closed under unit propagation once everything on it has been
  // processed.
  lemma SettledIsUnitClosed(t: Trail, db: Db, n: nat, cr: nat)
    requires TrailOK(t, n) && DbOK(db, n)
    requires Settled(t, db, n, |t.lits|, Lit(0, false), {})
    requires Live(db, cr)
    ensures UnitClosed(t, db[cr].lits)
    ensures !Falsified(t, db[cr].lits)
  {
    var c := db[cr].lits;
    assert ClauseSettled(t, c, |t.lits|, Lit(0, false), false);
    if IsFalse(t, c[0]) || IsFalse(t, c[1]) {
      var l := if IsFalse(t, c[0]) then c[0] else c[1];
      assert Witness(t, c, l);
      var b :| WitnessedBy(t, c, l, b);
      assert b in c && IsTrue(t, b);
      assert !IsFalse(t, b);
    } else {
      assert c[0] in c;
    }
  }

  // ------------------------------------------------ the steps of propagation

  // Taking p off the queue: the clauses that watch Neg(p) are the ones listed
  // under p.
  lemma TakeKeeps(t: Trail, db: Db, n: nat, q: nat, longs: WatchMap, bins: WatchMap)
    requires TrailOK(t, n) && DbOK(db, n) && q < |t.lits|
    requires WatchMapOK(db, longs, n, true) && WatchMapOK(db, bins, n, false)
    requires Settled(t, db, n, q, Lit(0, false), {})
    ensures Settled(t, db, n, q + 1, Neg(t.lits[q]), Crefs(Ws(longs, t.lits[q])) + Crefs(Ws(bins, t.lits[q])))
  {
    hide WatcherOK, DistinctCrefs;
    var p := t.lits[q];
    var todo := Crefs(Ws(longs, p)) + Crefs(Ws(bins, p));
    forall cr: nat | Live(db, cr) ensures ClauseSettled(t, db[cr].lits, q + 1, Neg(p), cr in todo) {
      var c := db[cr].lits;
      assert ClauseSettled(t, c, q, Lit(0, false), false);
      if c[0] == Neg(p) || c[1] == Neg(p) {
        assert WatchedTwice(db, if |c| > 2 then longs else bins, cr);
        CrefsListed(Ws(longs, p), cr);
        CrefsListed(Ws(bins, p), cr);
        assert Neg(Neg(p)) == p;
      }
      assert c[0] != Neg(p) ==> SettledAt(t, c, c[0], q + 1);
      assert c[1] != Neg(p) ==> SettledAt(t, c, c[1], q + 1);
    }
  }

  lemma EnqueueKeeps(t: Trail, db: Db, n: nat, bound: nat, ex: Lit, todo: set<nat>, p: Lit, r: Reason)
    requires TrailOK(t, n) && DbOK(db, n) && Settled(t, db, n, bound, ex, todo) && bound <= |t.lits|
    requires p.v < n && t.pos[p.v] == -1
    ensures Settled(Enqueued(t, p, r), db, n, bound, ex, todo)
  {
    var u := Enqueued(t, p, r);
    forall cr: nat | Live(db, cr) ensures ClauseSettled(u, db[cr].lits, bound, ex, cr in todo) {
      var c := db[cr].lits;
      assert ClauseSettled(t, c, bound, ex, cr in todo);
      EnqueueSettledAt(t, n, c, c[0], bound, p, r);
      EnqueueSettledAt(t, n, c, c[1], bound, p, r);
    }
  }

  lemma EnqueueSettledAt(t: Trail, n: nat, c: Clause, l: Lit, bound: nat, p: Lit, r: Reason)
    requires TrailOK(t, n) && bound <= |t.lits|
    requires p.v < n && t.pos[p.v] == -1
    ensures SettledAt(t, c, l, bound) ==> SettledAt(Enqueued(t, p, r), c, l, bound)
  {
    EnqueuedOK(t, n, p, r);
    var u := Enqueued(t, p, r);
    if SettledAt(t, c, l, bound) && TrueBefore(u, Neg(l), bound) {
      assert TrueBefore(t, Neg(l), bound);
      var b :| WitnessedBy(t, c, l, b);
      assert WitnessedBy(u, c, l, b);
    }
  }

  // A visited clause turned out to hold the true literal b.
  lemma VisitKeeps(t: Trail, db: Db, n: nat, bound: nat, ex: Lit, todo: set<nat>, cr: nat, b: Lit)
    requires DbOK(db, n) && Settled(t, db, n, bound, ex, todo) && Live(db, cr)
    requires WitnessedBy(t, db[cr].lits, ex, b)
    ensures Settled(t, db, n, bound, ex, todo - {cr})
  {
    forall d: nat | Live(db, d) ensures ClauseSettled(t, db[d].lits, bound, ex, d in todo - {cr}) {
      assert ClauseSettled(t, db[d].lits, bound, ex, d in todo);
    }
  }

  lemma SwapSettled(t: Trail, db: Db, n: nat, bound: nat, ex: Lit, todo: set<nat>, cr: nat)
    requires DbOK(db, n) && Settled(t, db, n, bound, ex, todo) && Live(db, cr)
    ensures DbOK(SwapLits(db, cr, 0, 1), n)
    ensures Settled(t, SwapLits(db, cr, 0, 1), n, bound, ex, todo)
  {
    hide TrueBefore;
    SwapDbOK(db, n, cr, 0, 1);
    SwappedFacts(db[cr].lits, 0, 1, n);
    var e := SwapLits(db, cr, 0, 1);
    forall d: nat | Live(e, d) ensures ClauseSettled(t, e[d].lits, bound, ex, d in todo) {
      assert ClauseSettled(t, db[d].lits, bound, ex, d in todo);
      if d == cr {
        SettledAtReorder(t, db[cr].lits, e[cr].lits, db[cr].lits[0], bound);
        SettledAtReorder(t, db[cr].lits, e[cr].lits, db[cr].lits[1], bound);
      }
    }
  }

  lemma SettledAtReorder(t: Trail, c: Clause, d: Clause, l: Lit, bound: nat)
    requires forall x :: x in c ==> x in d
    ensures SettledAt(t, c, l, bound) ==> SettledAt(t, d, l, bound)
  {
    if SettledAt(t, c, l, bound) && Witness(t, c, l) {
      var b :| WitnessedBy(t, c, l, b);
      assert WitnessedBy(t, d, l, b);
    }
  }

  // The watch moved to literal k, which is not false.
  lemma MoveSettled(t: Trail, db: Db, n: nat, bound: nat, ex: Lit, todo: set<nat>, cr: nat, k: nat)
    requires DbOK(db, n) && Settled(t, db, n, bound, ex, todo) && Live(db, cr)
    requires 2 <= k < |db[cr].lits| && db[cr].lits[1] == ex && db[cr].lits[0] != ex
    requires !IsFalse(t, db[cr].lits[k])
    ensures DbOK(SwapLits(db, cr, 1, k), n)
    ensures Settled(t, SwapLits(db, cr, 1, k), n, bound, ex, todo - {cr})
  {
    SwapDbOK(db, n, cr, 1, k);
    SwappedFacts(db[cr].lits, 1, k, n);
    var e := SwapLits(db, cr, 1, k);
    forall d: nat | Live(e, d) ensures ClauseSettled(t, e[d].lits, bound, ex, d in todo - {cr}) {
      assert ClauseSettled(t, db[d].lits, bound, ex, d in todo);
      if d == cr {
        SettledAtReorder(t, db[cr].lits, e[cr].lits, db[cr].lits[0], bound);
      }
    }
  }

  // Nothing left to visit for ex.
  lemma DoneSettled(t: Trail, db: Db, n: nat, bound: nat, ex: Lit)
    requires DbOK(db, n) && Settled(t, db, n, bound, ex, {})
    ensures Settled(t, db, n, bound, Lit(0, false), {})
  {
    forall d: nat | Live(db, d) ensures ClauseSettled(t, db[d].lits, bound, Lit(0, false), false) {
      assert ClauseSettled(t, db[d].lits, bound, ex, false);
    }
  }

  // After a conflict only the levels below the current one are vouched for.
  lemma ConflictSettled(t: Trail, db: Db, n: nat, bound: nat, low: nat, ex: Lit, todo: set<nat>)
    requires DbOK(db, n) && Settled(t, db, n, bound, ex, todo) && low <= bound
    requires !TrueBefore(t, Neg(ex), low)
    ensures Settled(t, db, n, low, Lit(0, false), {})
  {
    forall d: nat | Live(db, d) ensures ClauseSettled(t, db[d].lits, low, Lit(0, false), false) {
      assert ClauseSettled(t, db[d].lits, bound, ex, d in todo);
    }
  }

  lemma ConflictSettledAll(t: Trail, db: Db, n: nat, bound: nat, low: nat)
    requires DbOK(db, n) && Settled(t, db, n, bound, Lit(0, false), {}) && low <= bound
    ensures Settled(t, db, n, low, Lit(0, false), {})
  {
    forall d: nat | Live(db, d) ensures ClauseSettled(t, db[d].lits, low, Lit(0, false), false) {
      assert ClauseSettled(t, db[d].lits, bound, Lit(0, false), false);
    }
  }

  lemma CancelSettled(t: Trail, db: Db, n: nat, bound: nat, level: nat)
    requires TrailOK(t, n) && DbOK(db, n) && level < |t.lims| && t.lims[level] <= bound
    requires Settled(t, db, n, bound, Lit(0, false), {})
    ensures Settled(Cancelled(t, level), db, n, t.lims[level], Lit(0, false), {})
  {
    forall d: nat | Live(db, d)
      ensures ClauseSettled(Cancelled(t, level), db[d].lits, t.lims[level], Lit(0, false), false)
    {
      assert ClauseSettled(t, db[d].lits, bound, Lit(0, false), false);
      CancelSettledAt(t, n, db[d].lits, db[d].lits[0], bound, level);
      CancelSettledAt(t, n, db[d].lits, db[d].lits[1], bound, level);
    }
  }

  lemma CancelSettledAt(t: Trail, n: nat, c: Clause, l: Lit, bound: nat, level: nat)
    requires TrailOK(t, n) && level < |t.lims| && t.lims[level] <= bound
    requires SettledAt(t, c, l, bound)
    ensures SettledAt(Cancelled(t, level), c, l, t.lims[level])
  {
    CancelledOK(t, n, level);
    var u := Cancelled(t, level);
    if TrueBefore(u, Neg(l), t.lims[level]) {
      assert TrueBefore(t, Neg(l), bound);
      var b :| WitnessedBy(t, c, l, b);
      assert Level(t, Neg(l)) == Level(t, l);
      assert WitnessedBy(u, c, l, b);
    }
  }

  // A clause learnt after backjumping: literal 0 has just been enqueued and
  // literal 1 is false at the current level.
  lemma LearntSettled(t: Trail, db: Db, n: nat, bound: nat, r: ClauseRec)
    requires TrailOK(t, n) && DbOK(db, n) && Settled(t, db, n, bound, Lit(0, false), {})
    requires ClauseOK(r.lits, n) && !r.deleted
    requires IsTrue(t, r.lits[0]) && bound <= t.pos[r.lits[0].v]
    requires Level(t, r.lits[0]) <= Level(t, r.lits[1])
    ensures DbOK(db + [r], n)
    ensures Settled(t, db + [r], n, bound, Lit(0, false), {})
  {
    var e := db + [r];
    forall d: nat | Live(e, d) ensures ClauseSettled(t, e[d].lits, bound, Lit(0, false), false) {
      if d < |db| {
        assert Live(db, d) && ClauseSettled(t, db[d].lits, bound, Lit(0, false), false);
      } else {
        assert WitnessedBy(t, r.lits, r.lits[1], r.lits[0]);
        assert !IsFalse(t, r.lits[0]);
      }
    }
  }

  lemma MarkedSettled(t: Trail, db: Db, n: nat, bound: nat, cr: nat)
    requires DbOK(db, n) && Live(db, cr) && Settled(t, db, n, bound, Lit(0, false), {})
    ensures DbOK(Marked(db, cr), n) && Settled(t, Marked(db, cr), n, bound, Lit(0, false), {})
  {
    var e := Marked(db, cr);
    forall d: nat | Live(e, d) ensures ClauseSettled(t, e[d].lits, bound, Lit(0, false), false) {
      assert Live(db, d) && ClauseSettled(t, db[d].lits, bound, Lit(0, false), false);
    }
  }

  // A problem clause attached at level 0, none of whose literals is assigned.
  lemma FreshSettled(t: Trail, db: Db, n: nat, bound: nat, r: ClauseRec)
    requires TrailOK(t, n) && DbOK(db, n) && Settled(t, db, n, bound, Lit(0, false), {})
    requires ClauseOK(r.lits, n) && !r.deleted && !IsFalse(t, r.lits[0]) && !IsFalse(t, r.lits[1])
    ensures DbOK(db + [r], n)
    ensures Settled(t, db + [r], n, bound, Lit(0, false), {})
  {
    var e := db + [r];
    forall d: nat | Live(e, d) ensures ClauseSettled(t, e[d].lits, bound, Lit(0, false), false) {
      if d < |db| {
        assert Live(db, d) && ClauseSettled(t, db[d].lits, bound, Lit(0, false), false);
      }
    }
  }
}
