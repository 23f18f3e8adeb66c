// What initialize of a constraint does that reads the values of the solver while
// its own propagate enqueues literals: now is the trail as it grows.
module Starting {
  import opened Logic
  import opened Trails
  import opened Contracts

  ghost predicate OfWatched(con: Constraint, p: Lit) {
    p in con.watched || Neg(p) in con.watched
  }

  // Everything enqueued so far follows from the trail at the start, and what has
  // been taken in is watched and true, each literal once.
  ghost predicate Growing(con: Constraint, trail: seq<Lit>, now: seq<Lit>, log: seq<Lit>) {
    && NoClash(now) && trail <= now
    && (forall p :: p in now ==> p in trail || OfWatched(con, p))
    && (forall p :: p in now ==> Explains(con.sat, trail, p))
    && (forall i :: |trail| <= i < |now| ==> now[i] !in trail)
    && NoDup(log) && (forall l :: l in log ==> l in con.watched && l in now)
  }

  // The first i watched literals have been looked at.
  ghost predicate Looked(watchers: seq<Lit>, i: nat, trail: seq<Lit>, log: seq<Lit>)
    requires i <= |watchers|
  {
    && (forall l :: l in watchers[..i] && l in trail ==> l in log)
    && (forall l :: l in log ==> l in watchers[..i])
  }

  // watchers_set, in the order of std::set.
  ghost predicate ListsWatched(con: Constraint, watchers: seq<Lit>) {
    NoDup(watchers) && forall l :: l in watchers <==> l in con.watched
  }

  // What initialize has done in the end: what it enqueued is new and follows from
  // the trail, it refuses only a trail no assignment extends, and otherwise it has
  // taken in all true watched literals and has nothing to object to.  It may have
  // taken in literals it enqueued itself, which are delivered again later.
  ghost predicate StartSound(con: Constraint, trail: seq<Lit>, log: seq<Lit>, a: Answer) {
    && Growing(con, trail, trail + a.implied, log)
    && (!a.accept ==> Refutes(con.sat, trail))
    && (a.accept ==> (forall l :: l in trail && l in con.watched ==> l in log) && Content(con, log))
  }

  lemma Refused(con: Constraint, trail: seq<Lit>, now: seq<Lit>, log: seq<Lit>)
    requires Growing(con, trail, now, log) && Refutes(con.sat, trail)
    ensures trail <= now && StartSound(con, trail, log, Answer(now[|trail|..], false))
  {
    hide NoClash, Explains;
    assert trail + now[|trail|..] == now;
  }

  lemma GrowingStart(con: Constraint, trail: seq<Lit>, watchers: seq<Lit>)
    requires NoClash(trail)
    ensures Growing(con, trail, trail, []) && Looked(watchers, 0, trail, [])
  {
  }

  lemma LookedPast(con: Constraint, watchers: seq<Lit>, i: nat, trail: seq<Lit>, now: seq<Lit>, log: seq<Lit>)
    requires Growing(con, trail, now, log) && i < |watchers| && Looked(watchers, i, trail, log)
    requires Value(now, watchers[i]) != True
    ensures Looked(watchers, i + 1, trail, log)
  {
    hide NoClash, Explains;
    assert watchers[..i + 1] == watchers[..i] + [watchers[i]];
  }

  lemma LookedTakes(con: Constraint, watchers: seq<Lit>, i: nat, trail: seq<Lit>, now: seq<Lit>, log: seq<Lit>)
    requires Growing(con, trail, now, log) && i < |watchers| && Looked(watchers, i, trail, log)
    requires ListsWatched(con, watchers) && Value(now, watchers[i]) == True
    ensures Looked(watchers, i + 1, trail, log + [watchers[i]])
    ensures Growing(con, trail, now, log + [watchers[i]])
  {
    hide NoClash, Explains;
    var p := watchers[i];
    assert watchers[..i + 1] == watchers[..i] + [p];
    assert p in watchers;
    assert p !in log;
  }

  // What is forced by what has been taken in follows from the trail.
  lemma GrowingForces(con: Constraint, trail: seq<Lit>, now: seq<Lit>, log: seq<Lit>, p: Lit)
    requires con.Constraint? && Recognises(con) && Growing(con, trail, now, log) && Forces(con, log, p)
    ensures Explains(con.sat, trail, p)
  {
    hide Recognises, NoClash, Forces;
    ForcesExplains(con, log, p);
    forall a: Assignment | con.sat(a) && AllHold(a, trail) ensures Holds(a, p) {
      assert AllHold(a, log);
    }
  }

  lemma GrowingBlocked(con: Constraint, trail: seq<Lit>, now: seq<Lit>, log: seq<Lit>)
    requires con.Constraint? && Recognises(con) && Growing(con, trail, now, log) && con.blocked(log)
    ensures Refutes(con.sat, trail)
  {
    hide NoClash;
    assert Refutes(con.sat, log);
    forall a: Assignment | con.sat(a) ensures !AllHold(a, trail) {
      assert AllHold(a, trail) ==> AllHold(a, log);
    }
  }

  // enqueue for each of xs; it fails for a literal that is false.
  method EnqueueAll(ghost con: Constraint, ghost trail: seq<Lit>, ghost log: seq<Lit>, was: seq<Lit>, xs: seq<Lit>)
    returns (ok: bool, now: seq<Lit>)
    requires Growing(con, trail, was, log)
    requires forall x :: x in xs ==> Explains(con.sat, trail, x) && OfWatched(con, x)
    ensures Growing(con, trail, now, log) && was <= now
    ensures !ok ==> Refutes(con.sat, trail)
    ensures ok ==> forall x :: x in xs ==> x in now
  {
    hide Explains, Refutes, NoClash;
    ok, now := true, was;
    for k := 0 to |xs|
      invariant Growing(con, trail, now, log) && was <= now && forall x :: x in xs[..k] ==> x in now
    {
      assert xs[k] in xs && xs[..k + 1] == xs[..k] + [xs[k]];
      if Value(now, xs[k]) == False {
        FalseRefutes(con, trail, now, log, xs[k]);
        return false, now;
      }
      if Value(now, xs[k]) == Undef {
        GrowingEnqueue(con, trail, now, log, xs[k]);
        now := now + [xs[k]];
      }
    }
    assert xs[..|xs|] == xs;
  }

  lemma GrowingEnqueue(con: Constraint, trail: seq<Lit>, now: seq<Lit>, log: seq<Lit>, p: Lit)
    requires Growing(con, trail, now, log) && Explains(con.sat, trail, p) && p !in now && Neg(p) !in now
    requires OfWatched(con, p)
    ensures Growing(con, trail, now + [p], log)
  {
    hide Explains;
    assert Neg(Neg(p)) == p && Neg(p) != p;
    forall l | l in now + [p] ensures Neg(l) !in now + [p] {
      if l != p {
        assert l in now && Neg(l) !in now;
        assert Neg(l) == p ==> l == Neg(p);
      }
    }
  }

  lemma FalseRefutes(con: Constraint, trail: seq<Lit>, now: seq<Lit>, log: seq<Lit>, p: Lit)
    requires Growing(con, trail, now, log) && Explains(con.sat, trail, p) && Neg(p) in now
    ensures Refutes(con.sat, trail)
  {
    hide NoClash;
    assert Explains(con.sat, trail, Neg(p));
    forall a: Assignment | con.sat(a) ensures !AllHold(a, trail) {
      if AllHold(a, trail) {
        NegHolds(a, p);
        assert false;
      }
    }
  }

  // It is then for the solver to begin with, whatever has been taken in.
  lemma SoundStarts(con: Constraint, n: nat, trail: seq<Lit>, log: seq<Lit>, a: Answer)
    requires Honest(con, n) && StartSound(con, trail, log, a)
    ensures StartOK(con, n, trail, a)
  {
    hide Honest, NoClash, Explains, Refutes, Steady, Content;
    HonestSteady(con, n);
    if a.accept {
      forall p | p in a.implied ensures p.v < n && Explains(con.sat, trail, p) {
        assert p in trail + a.implied;
        EnqueuedNew(trail, a.implied, p);
        assert Neg(p).v == p.v;
      }
      if !Awaits(con, trail, a.implied) {
        forall l | l in log ensures l in trail {
          assert l in trail + a.implied;
        }
        ContentGrows(con, log, trail);
      }
    }
  }

  lemma EnqueuedNew(trail: seq<Lit>, implied: seq<Lit>, p: Lit)
    requires p in implied && forall i :: |trail| <= i < |trail + implied| ==> (trail + implied)[i] !in trail
    ensures p !in trail
  {
    var i :| 0 <= i < |implied| && implied[i] == p;
    assert (trail + implied)[|trail| + i] == p;
  }
}
