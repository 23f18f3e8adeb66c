// core/Solver.cc: propagation, conflict analysis, backjumping and search.
module Solving {
  import opened Logic
  import opened Trails
  import opened Watching
  import opened Settling
  import opened Reasons
  import opened Delivery
  import opened States
  import opened Contracts
  import opened Propagation
  import opened Analysis
  import opened Minimising
  import opened Redundancy
  import opened Resolvents
  import opened Progress
  import opened Building
  import opened Filtering
  import opened Heeding
  import Sorting

  class Solver {
    // The fields of the source's class, kept as one record so that the
    // invariants are predicates over a value.  s.t.pos, s.f.clauses and s.home
    // are specification only: no branch reads them.
    var s: State
    // Scratch marks of analyze, all clear between two calls.
    var seen: seq<bool>
    // What each constraint has answered, beside its log.
    ghost var said: seq<Said>

    // A solver with n variables and nothing known about them.
    constructor (n: nat)
      ensures s == Initial(n) && Settling0(s) && |s.home| == |s.f.clauses|
      ensures |seen| == s.n && Clear(seen) && Heeded(s, said, s.qhead)
    {
      hide Ready, Initial;
      InitialReady(n);
      InitialEmpty(n);
      s := Initial(n);
      said := [];
      seen := seq(n, v => false);
    }

    // num_pending_propagation_ of the constraints in ks, by inc each time.
    method AddPending(ks: seq<nat>, inc: int)
      requires inc == 1 || inc == -1
      requires Ids(ks, |s.pending|)
      modifies this`s
      ensures s == old(s).(pending := s.pending)
      ensures Bumped(old(s.pending), s.pending, ks, inc)
    {
      for i := 0 to |ks|
        invariant s == old(s).(pending := s.pending)
        invariant Bumped(old(s.pending), s.pending, ks[..i], inc)
      {
        assert ks[..i + 1] == ks[..i] + [ks[i]];
        assert ks[i] in ks;
        s := s.(pending := s.pending[ks[i] := s.pending[ks[i]] + inc]);
      }
      assert ks[..|ks|] == ks;
    }

    // addNumPendingPropagation(p, inc)
    method AddNumPendingPropagation(p: Lit, inc: int)
      requires inc == 1 || inc == -1
      requires Ids(Cw(s.cw, p), |s.pending|)
      modifies this`s
      ensures s == old(s).(pending := s.pending)
      ensures Bumped(old(s.pending), s.pending, Cw(s.cw, p), inc)
    {
      AddPending(Cw(s.cw, p), inc);
    }

    // uncheckedEnqueue(p, from)
    method UncheckedEnqueue(p: Lit, r: Reason)
      requires p.v < s.n && Sizes(s.t, s.n)
      requires Ids(Cw(s.cw, p), |s.pending|)
      modifies this`s
      ensures s == Enq(old(s), p, r, s.pending)
      ensures Bumped(old(s.pending), s.pending, Cw(s.cw, p), 1)
    {
      s := s.(t := s.t.(assigns := s.t.assigns[p.v := Sat(p)],
                        vardata := s.t.vardata[p.v := VarData(r, |s.t.lims|)],
                        pos := s.t.pos[p.v := |s.t.lits|],
                        lits := s.t.lits + [p]));
      AddNumPendingPropagation(p, 1);
    }

    // The rest of the queue is dropped after a conflict, and the counters with it.
    method DrainQueue()
      requires s.qhead <= |s.t.lits|
      requires WatchListsOK(s.cw, s.f.constraints, s.n) && |s.pending| == |s.f.constraints|
      requires PendingOK(s.cw, s.pending, s.t.lits[s.qhead..])
      modifies this`s
      ensures s == old(s).(qhead := |s.t.lits|, pending := s.pending)
      ensures |s.pending| == |old(s.pending)| && PendingOK(s.cw, s.pending, [])
    {
      hide WatchListsOK, Ids;
      while s.qhead < |s.t.lits|
        invariant s == old(s).(qhead := s.qhead, pending := s.pending)
        invariant s.qhead <= |s.t.lits| && |s.pending| == |old(s.pending)|
        invariant PendingOK(s.cw, s.pending, s.t.lits[s.qhead..])
      {
        var q := s.t.lits[s.qhead];
        assert s.t.lits[s.qhead..][0] == q && s.t.lits[s.qhead..][1..] == s.t.lits[s.qhead + 1..];
        s := s.(qhead := s.qhead + 1);
        WatchIds(s, q);
        AddNumPendingPropagation(q, -1);
      }
      assert s.t.lits[s.qhead..] == [];
    }

    // A clause is false: the literal being processed and the rest of the queue
    // are given up.
    method AbandonQueue(p: Lit, ghost todo: set<nat>, ghost low: nat)
      requires Failing(s, Neg(p), todo, Cw(s.cw, p), low) && !TrueBefore(s.t, p, LevelStart(s.t))
      modifies this`s
      ensures s == old(s).(qhead := |s.t.lits|, pending := s.pending)
      ensures Conflicted(s, |s.t.lits|)
    {
      ghost var s0 := s;
      assert WatchListsOK(s.cw, s.f.constraints, s.n) && Shape(s);
      hide Failing, WatchListsOK, Ids, Conflicted, TrueBefore;
      WatchIds(s, p);
      PendingOfFailing(s, Neg(p), todo, Cw(s.cw, p), low);
      AddNumPendingPropagation(p, -1);
      DrainQueue();
      assert Neg(Neg(p)) == p;
      ConflictStep(s0, Neg(p), todo, Cw(s.cw, p), low, s.pending);
    }

    // The part of propagate for binary clauses.
    method PropagateBinary(p: Lit, ghost q: nat) returns (confl: Conflict)
      requires Visiting(s, p, q, Crefs(Ws(s.longs, p)) + Crefs(Ws(s.bins, p)))
      modifies this`s
      ensures Later(old(s), s) && ConflictOK(s, confl)
      ensures confl == NoConflict ==> Visiting(s, p, q, Crefs(Ws(s.longs, p)))
      ensures confl != NoConflict ==> Conflicted(s, |s.t.lits|)
    {
      hide Visiting, Failing, Conflicted, Crefs, MayEnqueue, Base, TrailOK, Current, TrueBefore, ConflictOK;
      ghost var s0 := s;
      var wbin := Ws(s.bins, p);
      ghost var longs := Crefs(Ws(s.longs, p));
      var k := 0;
      assert wbin[0..] == wbin;
      while k < |wbin|
        invariant 0 <= k <= |wbin|
        invariant s == s0.(t := s.t, pending := s.pending) && Later(s0, s)
        invariant Visiting(s, p, q, longs + Crefs(wbin[k..]))
      {
        var w := wbin[k];
        ghost var todo := longs + Crefs(wbin[k..]);
        VisitingFacts(s, p, q, todo);
        BinaryVisit(s, p, q, todo, w);
        if ValueOf(s.t.assigns, w.blocker) == False {
          ghost var s1 := s;
          AbandonQueue(p, todo, q);
          ConflictKept(s1, s.pending, ClauseConflict(w.cref));
          return ClauseConflict(w.cref);
        }
        if ValueOf(s.t.assigns, w.blocker) == Undef {
          ghost var s1 := s;
          UncheckedEnqueue(w.blocker, ByClause(w.cref));
          VisitEnqueue(s1, p, q, todo, w.blocker, ByClause(w.cref), s.pending);
        }
        BinaryVisited(s, p, q, longs, wbin, k);
        k := k + 1;
      }
      assert longs + Crefs(wbin[k..]) == longs by { CrefsNil(wbin); }
      confl := NoConflict;
      assert ConflictOK(s, confl) by { NoConflictOK(s); }
    }

    // The search for a literal to watch instead: the first from 2 on that is not
    // false, or the size of the clause.
    method FindWatch(cr: nat) returns (k: nat)
      requires Live(s.db, cr) && ClauseOK(s.db[cr].lits, s.n) && |s.t.assigns| == s.n
      ensures 2 <= k <= |s.db[cr].lits|
      ensures k == |s.db[cr].lits| ==> AllFalseFrom2(s, s.db[cr].lits)
      ensures k < |s.db[cr].lits| ==>
                s.db[cr].lits[k].v < s.n && ValueOf(s.t.assigns, s.db[cr].lits[k]) != False
    {
      var c := s.db[cr].lits;
      k := 2;
      while k < |c|
        invariant 2 <= k <= |c|
        invariant forall x :: 2 <= x < k && c[x].v < s.n ==> ValueOf(s.t.assigns, c[x]) == False
      {
        assert c[k] in c;
        if ValueOf(s.t.assigns, c[k]) != False {
          return;
        }
        k := k + 1;
      }
    }

    // The part of propagate for the other clauses.  kept holds the watchers
    // written back so far; the watch list is kept + ws[i..] throughout.
    method PropagateLong(p: Lit, ghost q: nat) returns (confl: Conflict)
      requires Visiting(s, p, q, Crefs(Ws(s.longs, p)))
      modifies this`s
      ensures Later(old(s), s) && ConflictOK(s, confl)
      ensures confl == NoConflict ==> Visiting(s, p, q, {})
      ensures confl != NoConflict ==> Conflicted(s, |s.t.lits|)
    {
      hide Visiting, Failing, Conflicted, Crefs, MayEnqueue, Base, TrailOK, Current, TrueBefore, ConflictOK, ClauseOK,
           IsTrue;
      ghost var s0 := s;
      var ws := Ws(s.longs, p);
      var kept := [];
      var i := 0;
      assert ws[0..] == ws && {} + Crefs(ws) == Crefs(ws) && kept + ws[0..] == ws;
      while i < |ws|
        invariant 0 <= i <= |ws| && Ws(s.longs, p) == kept + ws[i..]
        invariant s == s0.(t := s.t, pending := s.pending, db := s.db, longs := s.longs) && Later(s0, s)
        invariant Visiting(s, p, q, {} + Crefs(ws[i..]))
      {
        var w := ws[i];
        kept, confl := VisitLong(p, q, kept, ws, i);
        if confl != NoConflict {
          return;
        }
        i := i + 1;
      }
      assert {} + Crefs(ws[i..]) == {} by { CrefsNil(ws); }
      confl := NoConflict;
      assert ConflictOK(s, confl) by { NoConflictOK(s); }
    }

    // One watcher of the list.
    method VisitLong(p: Lit, ghost q: nat, kept: seq<Watcher>, ws: seq<Watcher>, i: nat)
      returns (now: seq<Watcher>, confl: Conflict)
      requires i < |ws| && Visiting(s, p, q, {} + Crefs(ws[i..])) && Ws(s.longs, p) == kept + ws[i..]
      modifies this`s
      ensures s == old(s).(t := s.t, pending := s.pending, db := s.db, longs := s.longs, qhead := s.qhead)
      ensures Later(old(s), s) && ConflictOK(s, confl)
      ensures confl == NoConflict ==>
                s.qhead == old(s.qhead) && Ws(s.longs, p) == now + ws[i + 1..]
                && Visiting(s, p, q, {} + Crefs(ws[i + 1..]))
      ensures confl != NoConflict ==> Conflicted(s, |s.t.lits|)
    {
      hide Visiting, Failing, Conflicted, Crefs, MayEnqueue, Base, TrailOK, Current, TrueBefore, ConflictOK, ClauseOK,
           IsTrue;
      var w := ws[i];
      ghost var todo := {} + Crefs(ws[i..]);
      SplitList(kept, ws, i);
      LongVisit(s, p, q, todo, w);
      NoConflictOK(s);
      // Try to avoid inspecting the clause.
      if ValueOf(s.t.assigns, w.blocker) == True {
        Visited(s, p, q, {}, ws, i, w.blocker);
        return kept + [w], NoConflict;
      }
      // Make sure the false literal is literal 1.
      if s.db[w.cref].lits[0] == Neg(p) {
        ghost var s1 := s;
        s := s.(db := SwapLits(s.db, w.cref, 0, 1));
        FalseSecond(s1, p, q, todo, w.cref);
        LongVisit(s, p, q, todo, w);
      }
      now, confl := InspectLong(p, q, kept, ws, i);
    }

    // The false literal is literal 1 and the blocker was not true.
    method InspectLong(p: Lit, ghost q: nat, kept: seq<Watcher>, ws: seq<Watcher>, i: nat)
      returns (now: seq<Watcher>, confl: Conflict)
      requires i < |ws| && Visiting(s, p, q, {} + Crefs(ws[i..])) && Ws(s.longs, p) == kept + ws[i..]
      requires Live(s.db, ws[i].cref) && ClauseOK(s.db[ws[i].cref].lits, s.n) && |s.db[ws[i].cref].lits| > 2
      requires s.db[ws[i].cref].lits[1] == Neg(p) && ws[i] in Ws(s.longs, p)
      modifies this`s
      ensures s == old(s).(t := s.t, pending := s.pending, db := s.db, longs := s.longs, qhead := s.qhead)
      ensures Later(old(s), s) && ConflictOK(s, confl)
      ensures confl == NoConflict ==>
                s.qhead == old(s.qhead) && Ws(s.longs, p) == now + ws[i + 1..]
                && Visiting(s, p, q, {} + Crefs(ws[i + 1..]))
      ensures confl != NoConflict ==> Conflicted(s, |s.t.lits|)
    {
      var w := ws[i];
      var cr := w.cref;
      var first := s.db[cr].lits[0];
      assert first in s.db[cr].lits && first.v < s.n;
      hide Visiting, Failing, Conflicted, Crefs, MayEnqueue, Base, TrailOK, Current, TrueBefore, ConflictOK, ClauseOK,
           IsTrue, AllFalseFrom2;
      ghost var todo := {} + Crefs(ws[i..]);
      SplitList(kept, ws, i);
      LongVisit(s, p, q, todo, w);
      VisitingFacts(s, p, q, todo);
      // If the 0th watch is true, then the clause is already satisfied.
      if first != w.blocker && ValueOf(s.t.assigns, first) == True {
        ValueIsPosition(s.t, s.n, first);
        now := KeepWatch(p, q, kept, ws, i, first);
        Visited(s, p, q, {}, ws, i, first);
        NoConflictOK(s);
        return now, NoConflict;
      }
      var k := FindWatch(cr);
      if k < |s.db[cr].lits| {
        ValueIsPosition(s.t, s.n, s.db[cr].lits[k]);
        MoveWatch(p, q, kept, ws, i, k);
        NoConflictOK(s);
        return kept, NoConflict;
      }
      now, confl := NoOtherWatch(p, q, kept, ws, i);
    }

    // The watch stays, and the clause is unit or false.
    method NoOtherWatch(p: Lit, ghost q: nat, kept: seq<Watcher>, ws: seq<Watcher>, i: nat)
      returns (now: seq<Watcher>, confl: Conflict)
      requires i < |ws| && Visiting(s, p, q, {} + Crefs(ws[i..])) && Ws(s.longs, p) == kept + ws[i..]
      requires Live(s.db, ws[i].cref) && ClauseOK(s.db[ws[i].cref].lits, s.n) && s.db[ws[i].cref].lits[1] == Neg(p)
      requires |s.t.assigns| == s.n && AllFalseFrom2(s, s.db[ws[i].cref].lits)
      modifies this`s
      ensures s == old(s).(t := s.t, pending := s.pending, longs := s.longs, qhead := s.qhead)
      ensures Later(old(s), s) && ConflictOK(s, confl)
      ensures Ws(s.longs, p) == now + ws[i + 1..]
      ensures confl == NoConflict ==> s.qhead == old(s.qhead) && Visiting(s, p, q, {} + Crefs(ws[i + 1..]))
      ensures confl != NoConflict ==> Conflicted(s, |s.t.lits|)
    {
      hide Visiting, Conflicted, Crefs, ConflictOK, Later;
      now := KeepWatch(p, q, kept, ws, i, s.db[ws[i].cref].lits[0]);
      ghost var s1 := s;
      LaterSame(old(s), s1);
      confl := FinishLong(p, q, now, ws, i);
      LaterTrans(old(s), s1, s);
    }

    // c[1] = c[k], c[k] = false_lit, watches[~c[1]].push(w).
    method MoveWatch(p: Lit, ghost q: nat, kept: seq<Watcher>, ws: seq<Watcher>, i: nat, k: nat)
      requires i < |ws| && Visiting(s, p, q, {} + Crefs(ws[i..])) && Ws(s.longs, p) == kept + ws[i..]
      requires Live(s.db, ws[i].cref) && 2 <= k < |s.db[ws[i].cref].lits| && s.db[ws[i].cref].lits[1] == Neg(p)
      requires !IsFalse(s.t, s.db[ws[i].cref].lits[k])
      modifies this`s
      ensures s == old(s).(db := s.db, longs := s.longs) && Later(old(s), s)
      ensures Ws(s.longs, p) == kept + ws[i + 1..]
      ensures Visiting(s, p, q, {} + Crefs(ws[i + 1..]))
    {
      hide Visiting, Crefs, IsTrue;
      MovedOn(s, p, q, kept, ws, i, k);
      s := s.(db := SwapLits(s.db, ws[i].cref, 1, k),
              longs := Moved(s.db, s.longs, p, kept, ws[i], ws[i + 1..], k));
    }

    // *j++ = Watcher(cr, first).
    method KeepWatch(p: Lit, ghost q: nat, kept: seq<Watcher>, ws: seq<Watcher>, i: nat, first: Lit)
      returns (now: seq<Watcher>)
      requires i < |ws| && Visiting(s, p, q, {} + Crefs(ws[i..])) && Ws(s.longs, p) == kept + ws[i..]
      requires Live(s.db, ws[i].cref) && first in s.db[ws[i].cref].lits
      modifies this`s
      ensures s == old(s).(longs := s.longs)
      ensures Ws(s.longs, p) == now + ws[i + 1..]
      ensures Visiting(s, p, q, {} + Crefs(ws[i..]))
    {
      hide Visiting, Crefs, Live;
      SplitList(kept, ws, i);
      now := kept + [Watcher(ws[i].cref, first)];
      Reblocked(s, p, q, {} + Crefs(ws[i..]), kept, ws[i], ws[i + 1..], first);
      s := s.(longs := s.longs[p := now + ws[i + 1..]]);
    }

    // No literal from 2 on can be watched: the clause is unit or false.
    method FinishLong(p: Lit, ghost q: nat, now: seq<Watcher>, ws: seq<Watcher>, i: nat) returns (confl: Conflict)
      requires i < |ws| && Visiting(s, p, q, {} + Crefs(ws[i..])) && Ws(s.longs, p) == now + ws[i + 1..]
      requires Live(s.db, ws[i].cref) && ClauseOK(s.db[ws[i].cref].lits, s.n) && s.db[ws[i].cref].lits[1] == Neg(p)
      requires |s.t.assigns| == s.n && AllFalseFrom2(s, s.db[ws[i].cref].lits)
      modifies this`s
      ensures s == old(s).(t := s.t, pending := s.pending, qhead := s.qhead)
      ensures Later(old(s), s) && ConflictOK(s, confl)
      ensures confl == NoConflict ==> s.qhead == old(s.qhead) && Visiting(s, p, q, {} + Crefs(ws[i + 1..]))
      ensures confl != NoConflict ==> Conflicted(s, |s.t.lits|)
    {
      var cr := ws[i].cref;
      var first := s.db[cr].lits[0];
      hide Visiting, Failing, Conflicted, Crefs, MayEnqueue, Base, TrailOK, Current, TrueBefore, ConflictOK, ClauseOK,
           IsTrue, AllFalseFrom2;
      ghost var s1, todo := s, {} + Crefs(ws[i..]);
      NoWatch(s, p, q, todo, cr);
      VisitingFacts(s, p, q, todo);
      ValueIsPosition(s.t, s.n, first);
      NoConflictOK(s);
      if ValueOf(s.t.assigns, first) == False {
        AbandonQueue(p, todo, q);
        ConflictKept(s1, s.pending, ClauseConflict(cr));
        return ClauseConflict(cr);
      }
      if ValueOf(s.t.assigns, first) == Undef {
        UncheckedEnqueue(first, ByClause(cr));
        VisitEnqueue(s1, p, q, todo, first, ByClause(cr), s.pending);
      }
      Visited(s, p, q, {}, ws, i, first);
      NoConflictOK(s);
      confl := NoConflict;
    }

    // One constraint is told about p: registerUndo, and what its propagate does.
    method AskConstraint(p: Lit, ghost q: nat, j: nat) returns (confl: Conflict)
      requires Telling(s, p, q, j) && j < |Cw(s.cw, p)| && HeededBy(s, said, q, j)
      modifies this`s, this`said
      ensures Later(old(s), s) && ConflictOK(s, confl)
      ensures confl == NoConflict ==> s.qhead == old(s.qhead) && Telling(s, p, q, j + 1)
      ensures confl != NoConflict ==> Failing(s, NO_LIT, {}, Cw(s.cw, p)[j + 1..], q)
      ensures Taken(old(s), s, old(said), said, p, q, Cw(old(s).cw, p)[j], confl)
      ensures if confl == NoConflict then HeededBy(s, said, q, j + 1) else Heeded(s, said, q)
    {
      hide Telling, Failing, Answering, ConflictOK, Base, TrailOK, Explains, Refutes, IsTrue, Heeded, HeededBy, Heard,
           Call, Reply;
      ghost var s0, said0 := s, said;
      Asking(s, said, p, q, j);
      TellingFacts(s, p, q, j);
      Asked(s, p, q, j);
      var k := Cw(s.cw, p)[j];
      TellingPosition(s, p, q, j);
      s := s.(undo := s.undo[p.v := s.undo[p.v] + [k]], log := s.log[k := s.log[k] + [p]],
              pending := s.pending[k := s.pending[k] - 1]);
      var a := Reply(s, k);
      said := Noted(said, k, p, a);
      ghost var lazy := s.pending[k] > 0;
      confl := EnqueueAll(p, q, j, k, a);
      if confl == NoConflict && a.accept {
        NextHeeded(s0, s, said0, p, q, j, lazy, a);
      } else {
        FailedHeeded(s0, s, said0, p, q, j, a);
      }
      if confl == NoConflict && !a.accept {
        AnswerRejected(s, p, q, j, k, false, [], Because(a));
        AnsweringFacts(s, p, q, j, k, false);
        return ConstraintConflict(k, [], Because(a));
      }
      if confl == NoConflict {
        AnswerAccepted(s, p, q, j, k);
      }
    }

    // The literals the constraint enqueues, in order; a failing one ends it.
    method EnqueueAll(p: Lit, ghost q: nat, ghost j: nat, k: nat, a: Answer) returns (confl: Conflict)
      requires Answering(s, p, q, j, k, a.accept) && k < |s.f.constraints| && k < |s.log|
      requires Answered(s, k, s.t.lits, a)
      modifies this`s
      ensures s == old(s).(t := s.t, pending := s.pending) && Later(old(s), s) && ConflictOK(s, confl)
      ensures confl == NoConflict ==> Answering(s, p, q, j, k, a.accept)
      ensures if confl == NoConflict then forall x :: x in a.implied ==> x in s.t.lits
              else exists x :: x in a.implied && Neg(x) in s.t.lits
      ensures confl == NoConflict && !a.accept ==> Opposes(s, k, [], Because(a))
      ensures confl != NoConflict ==> Failing(s, NO_LIT, {}, Cw(s.cw, p)[j + 1..], q)
    {
      hide Failing, Answering, ConflictOK, Base, TrailOK, Explains, Refutes, IsTrue, Answered, Argues, Opposes, Steady,
           Why, Honest;
      ghost var s0 := s;
      AnsweringFacts(s, p, q, j, k, a.accept);
      HonestIsSteady(s, k);
      AnsweredNow(s, k, s0.t.lits, a);
      var i := 0;
      while i < |a.implied|
        invariant 0 <= i <= |a.implied|
        invariant s == s0.(t := s.t, pending := s.pending) && Later(s0, s)
        invariant Answering(s, p, q, j, k, a.accept) && Answered(s, k, s0.t.lits, a)
        invariant forall l :: l in s.t.lits ==> l in s0.t.lits || l in a.implied
        invariant forall y :: 0 <= y < i ==> a.implied[y] in s.t.lits
      {
        var x := a.implied[i];
        assert x in a.implied;
        AnsweringFacts(s, p, q, j, k, a.accept);
        AnsweredNow(s, k, s0.t.lits, a);
        ValueIsMembership(s.t, s.n, x);
        if ValueOf(s.t.assigns, x) == False {
          AnswerRejected(s, p, q, j, k, a.accept, [Neg(x)], []);
          return ConstraintConflict(k, [Neg(x)], []);
        }
        if ValueOf(s.t.assigns, x) == Undef {
          ghost var s1 := s;
          ValueIsPosition(s.t, s.n, x);
          UncheckedEnqueue(x, ByConstraint(k, Why(a, x)));
          AnswerEnqueue(s1, p, q, j, k, a.accept, x, Why(a, x), s.pending);
          AnsweredFrame(s1, s, k, s0.t.lits, a);
        }
        i := i + 1;
      }
      AnsweringFacts(s, p, q, j, k, a.accept);
      AnsweredNow(s, k, s0.t.lits, a);
      NoConflictOK(s);
      confl := NoConflict;
    }

    // A constraint objected: those after it, and the rest of the queue, are given up.
    method AbandonConstraints(rest: seq<nat>, ghost low: nat)
      requires Failing(s, NO_LIT, {}, rest, low) && Ids(rest, |s.pending|)
      modifies this`s
      ensures s == old(s).(qhead := |s.t.lits|, pending := s.pending)
      ensures Conflicted(s, |s.t.lits|)
    {
      ghost var s0 := s;
      assert WatchListsOK(s.cw, s.f.constraints, s.n) && Shape(s);
      hide Failing, WatchListsOK, Ids, Conflicted, TrueBefore;
      PendingOfFailing(s, NO_LIT, {}, rest, low);
      AddPending(rest, -1);
      DrainQueue();
      ConflictStep(s0, NO_LIT, {}, rest, low, s.pending);
    }

    // The part of propagate for non-clausal constraints.
    method PropagateConstraints(p: Lit, ghost q: nat) returns (confl: Conflict)
      requires Visiting(s, p, q, {}) && Heeded(s, said, q)
      modifies this`s, this`said
      ensures Later(old(s), s) && ConflictOK(s, confl)
      ensures confl == NoConflict ==> s.qhead == old(s.qhead) && Ready(s)
      ensures confl != NoConflict ==> Conflicted(s, |s.t.lits|)
      ensures Heeded(s, said, if confl == NoConflict then q + 1 else q)
    {
      hide Visiting, Telling, Failing, Conflicted, ConflictOK, Ready, Later, Heeded, HeededBy, Taken;
      ghost var s0 := s;
      StartHeeding(s, said, p, q);
      StartTelling(s, p, q);
      LaterSelf(s);
      var ncws := Cw(s.cw, p);
      var j := 0;
      while j < |ncws|
        invariant 0 <= j <= |ncws| && ncws == Cw(s.cw, p)
        invariant Later(s0, s) && s.qhead == s0.qhead
        invariant Telling(s, p, q, j) && HeededBy(s, said, q, j)
      {
        ghost var s1 := s;
        TellingIds(s, p, q, j);
        confl := AskConstraint(p, q, j);
        LaterTrans(s0, s1, s);
        LaterFields(s1, s);
        if confl != NoConflict {
          ghost var s2 := s;
          PendingOfFailing(s, NO_LIT, {}, ncws[j + 1..], q);
          AbandonConstraints(ncws[j + 1..], q);
          ConflictKept(s2, s.pending, confl);
          HeededSame(s2, s, said, q);
          LaterDrained(s0, s2, s.pending);
          return;
        }
        j := j + 1;
      }
      AllHeeded(s, said, p, q);
      AllTold(s, p, q);
      NoConflictOK(s);
      confl := NoConflict;
    }

    // propagate(): without a conflict the queue is empty and the trail is closed
    // under unit propagation and under every constraint.
    method Propagate() returns (confl: Conflict)
      requires Ready(s) && Heeded(s, said, s.qhead)
      modifies this`s, this`said
      ensures Later(old(s), s) && ConflictOK(s, confl)
      ensures confl == NoConflict ==> Ready(s) && s.qhead == |s.t.lits| && Fixpoint(s) && Heeded(s, said, |s.t.lits|)
      ensures confl != NoConflict ==> Conflicted(s, |s.t.lits|) && Heeded(s, said, LevelStart(s.t))
    {
      hide Ready, Visiting, Conflicted, ConflictOK, Later, Base, TrailOK, TopNonEmpty, Ids, Fixpoint, Crefs, Heeded,
           LevelStart;
      ghost var s0 := s;
      LaterSelf(s);
      ReadyFacts(s);
      TrailBounded(s.t, s.n);
      while s.qhead < |s.t.lits|
        invariant Ready(s) && Later(s0, s) && s.qhead <= |s.t.lits| <= s.n && Heeded(s, said, s.qhead)
        decreases s0.n - s.qhead
      {
        ghost var q, s1 := s.qhead, s;
        TakeVisits(s);
        var p := s.t.lits[s.qhead];
        s := s.(qhead := s.qhead + 1);
        LaterQhead(s0, s1, s.qhead);
        HeededSame(s1, s, said, q);
        confl := PropagateOne(p, q);
        LaterTrans(s0, s1.(qhead := q + 1), s);
        LaterFields(s0, s);
        if confl != NoConflict {
          return;
        }
        ReadyFacts(s);
        TrailBounded(s.t, s.n);
      }
      PropagationCloses(s);
      NoConflictOK(s);
      confl := NoConflict;
    }

    // Everything propagate does for one literal.
    method PropagateOne(p: Lit, ghost q: nat) returns (confl: Conflict)
      requires Visiting(s, p, q, Crefs(Ws(s.longs, p)) + Crefs(Ws(s.bins, p))) && Heeded(s, said, q)
      modifies this`s, this`said
      ensures Later(old(s), s) && ConflictOK(s, confl)
      ensures confl == NoConflict ==> s.qhead == old(s.qhead) && Ready(s) && Heeded(s, said, s.qhead)
      ensures confl != NoConflict ==> Conflicted(s, |s.t.lits|) && Heeded(s, said, LevelStart(s.t))
    {
      hide Ready, Conflicted, ConflictOK, Later, Propagating, Crefs, Heeded, LevelStart;
      ghost var s0 := s;
      VisitHeeded(s, said, p, q);
      confl := PropagateBinary(p, q);
      if confl == NoConflict {
        ghost var s1 := s;
        confl := PropagateLong(p, q);
        LaterTrans(s0, s1, s);
        if confl == NoConflict {
          ghost var s2 := s;
          HeededLater(s0, s, said, q);
          confl := PropagateConstraints(p, q);
          LaterTrans(s0, s2, s);
          HeededStart(s0, s, said, q);
          return;
        }
      }
      HeededLater(s0, s, said, q);
      HeededStart(s0, s, said, q);
    }

    // while (undoLists[x].size() > 0) { undoLists[x].last()->undo(*this, p); pop }
    // for literal i of the trail of b.
    method UndoLiteral(i: nat, ghost b: State)
      requires Base(b) && i < |b.t.lits| && s.t.lits == b.t.lits && PoppedTo(b, s.undo, s.log, i + 1)
      modifies this`s
      ensures s == old(s).(undo := s.undo, log := s.log)
      ensures PoppedTo(b, s.undo, s.log, i)
    {
      hide Base, TrailOK, PoppedTo, PoppedMid;
      ghost var s0 := s;
      var x := s.t.lits[i].v;
      StartPopping(b, s.undo, s.log, i);
      PoppedRange(b, s.undo, s.log, i);
      while s.undo[x] != []
        invariant s == s0.(undo := s.undo, log := s.log) && |s.undo| == b.n
        invariant PoppedMid(b, s.undo, s.log, i)
        decreases |s.undo[x]|
      {
        PopOne(b, s.undo, s.log, i);
        var us := s.undo[x];
        var k := us[|us| - 1];
        s := s.(undo := s.undo[x := us[..|us| - 1]], log := s.log[k := s.log[k][..|s.log[k]| - 1]]);
      }
      StopPopping(b, s.undo, s.log, i);
    }

    // One turn of cancelUntil: the variable of trail literal c is unassigned and
    // its undo list worked off.  b is the state cancelUntil started from.
    method UnassignLast(c: nat, ghost b: State)
      requires Base(b) && TrailOK(b.t, b.n) && c < |b.t.lits| && b.t.lits[c].v < |b.t.pos|
      requires s == b.(t := s.t, undo := s.undo, log := s.log) && |b.t.pos| == |b.t.assigns| == b.n
      requires s.t == b.t.(assigns := Cut(b.t, c + 1).assigns, pos := Cut(b.t, c + 1).pos)
      requires PoppedTo(b, s.undo, s.log, c + 1)
      modifies this`s
      ensures s == b.(t := s.t, undo := s.undo, log := s.log)
      ensures s.t == b.t.(assigns := Cut(b.t, c).assigns, pos := Cut(b.t, c).pos)
      ensures PoppedTo(b, s.undo, s.log, c)
    {
      hide Base, TrailOK, PoppedTo, Cut;
      var x := s.t.lits[c].v;
      CutStep(b.t, b.n, c);
      CutSizes(b.t, b.n, c + 1);
      s := s.(t := s.t.(assigns := s.t.assigns[x := Undef], pos := s.t.pos[x := -1]));
      UndoLiteral(c, b);
    }

    // cancelUntil(level).  Afterwards every constraint has been told exactly what
    // is left on the trail, whatever analyze had already undone.
    method CancelUntil(level: nat, ghost bound: nat, ghost m: nat)
      requires Cancellable(s, bound, m) && level < |s.t.lims|
      modifies this`s
      ensures level < |old(s.t.lims)| && old(s.t.lims[level]) <= |old(s.t.lits)| && |old(s.t.pos)| == |old(s.t.assigns)|
      ensures s == Cnc(old(s), level, s.undo, s.log)
      ensures Ready(s) && s.qhead == |s.t.lits|
      ensures forall k: nat :: k < |s.log| ==> s.log[k] == Delivered(s.cw, s.t.lits, k)
    {
      hide Cancellable, Base, TrailOK, PoppedTo, Ready, Cut, Delivered;
      ghost var s0 := s;
      CancellableFacts(s, bound, m);
      LimsBelowStart(s, level);
      CutNothing(s.t, s.n);
      var end := s.t.lims[level];
      var c: nat := |s.t.lits|;
      while c > end
        invariant end <= c <= |s0.t.lits|
        invariant s == s0.(t := s.t, undo := s.undo, log := s.log)
        invariant s.t == s0.t.(assigns := Cut(s0.t, c).assigns, pos := Cut(s0.t, c).pos)
        invariant PoppedTo(s0, s.undo, s.log, c)
      {
        c := c - 1;
        CutStep(s0.t, s0.n, c);
        UnassignLast(c, s0);
      }
      CancelStep(s0, level, bound, m, s.undo, s.log);
      CutCancelled(s0.t, s0.n, level);
      CncFields(s0, level, s.undo, s.log);
      s := s.(qhead := end, t := s.t.(lits := s.t.lits[..end], lims := s.t.lims[..level]));
    }

    // ------------------------------------------------------ conflict analysis

    // "if (!seen[var(q)] && level(var(q)) > 0)": a true literal joins the
    // resolvent.
    method MarkLit(l: Lit, rest: seq<Lit>, pathC: int, ghost low: set<Lit>, ghost cur: set<Lit>, ghost b: int)
      returns (rest': seq<Lit>, pathC': int, ghost low': set<Lit>, ghost cur': set<Lit>)
      requires TrailOK(s.t, s.n) && |s.t.lims| > 0 && IsTrue(s.t, l) && s.t.pos[l.v] < b
      requires Analysing(s.t, s.n, seen, low, cur, rest, pathC, b)
      modifies this`seen
      ensures Analysing(s.t, s.n, seen, low', cur', rest', pathC', b)
      ensures low <= low' && cur <= cur' && (l in low' + cur' || Root(s.t, l))
      ensures low' + cur' <= low + cur + {l}
      ensures Current(s.t, l) ==> cur' != {}
    {
      hide TrailOK, Split, Collected, IsTrue, Root;
      LevelPosition(s.t, s.n, l);
      rest', pathC', low', cur' := rest, pathC, low, cur;
      if !seen[l.v] && s.t.vardata[l.v].level > 0 {
        if s.t.vardata[l.v].level >= |s.t.lims| {
          MarkCurrent(s.t, s.n, seen, low, cur, rest, pathC, b, l);
          pathC', cur' := pathC + 1, cur + {l};
        } else {
          MarkLower(s.t, s.n, seen, low, cur, rest, pathC, b, l);
          rest', low' := rest + [Neg(l)], low + {l};
        }
        seen := seen[l.v := true];
      } else if Current(s.t, l) {
        AlreadyCurrent(s.t, s.n, seen, low, cur, b, l);
      }
    }

    // The literals of clause c from start on are false; their negations join.
    method MarkClause(c: Clause, start: nat, rest: seq<Lit>, pathC: int, ghost low: set<Lit>, ghost cur: set<Lit>,
                      ghost b: int)
      returns (rest': seq<Lit>, pathC': int, ghost low': set<Lit>, ghost cur': set<Lit>)
      requires TrailOK(s.t, s.n) && |s.t.lims| > 0 && start <= |c|
      requires forall x :: start <= x < |c| ==> TrueBefore(s.t, Neg(c[x]), b)
      requires Analysing(s.t, s.n, seen, low, cur, rest, pathC, b)
      modifies this`seen
      ensures Analysing(s.t, s.n, seen, low', cur', rest', pathC', b)
      ensures low <= low' && cur <= cur'
      ensures forall l :: l in low' + cur' ==> l in low + cur || Neg(l) in c[start..]
      ensures forall x :: start <= x < |c| ==> Neg(c[x]) in low' + cur' || Root(s.t, Neg(c[x]))
      ensures (exists x :: start <= x < |c| && Current(s.t, Neg(c[x]))) ==> cur' != {}
    {
      hide TrailOK, Analysing, IsTrue, Root, Current;
      rest', pathC', low', cur' := rest, pathC, low, cur;
      for j := start to |c|
        invariant Analysing(s.t, s.n, seen, low', cur', rest', pathC', b)
        invariant low <= low' && cur <= cur'
        invariant forall l :: l in low' + cur' ==> l in low + cur || Neg(l) in c[start..j]
        invariant forall x :: start <= x < j ==> Neg(c[x]) in low' + cur' || Root(s.t, Neg(c[x]))
        invariant (exists x :: start <= x < j && Current(s.t, Neg(c[x]))) ==> cur' != {}
      {
        rest', pathC', low', cur' := MarkLit(Neg(c[j]), rest', pathC', low', cur', b);
        NegOfNext(c, start, j);
      }
      assert c[start..|c|] == c[start..];
    }

    // The literals of a constraint's explanation are true and join.
    method MarkReason(r: seq<Lit>, rest: seq<Lit>, pathC: int, ghost low: set<Lit>, ghost cur: set<Lit>, ghost b: int)
      returns (rest': seq<Lit>, pathC': int, ghost low': set<Lit>, ghost cur': set<Lit>)
      requires TrailOK(s.t, s.n) && |s.t.lims| > 0
      requires forall l :: l in r ==> TrueBefore(s.t, l, b)
      requires Analysing(s.t, s.n, seen, low, cur, rest, pathC, b)
      modifies this`seen
      ensures Analysing(s.t, s.n, seen, low', cur', rest', pathC', b)
      ensures low <= low' && cur <= cur' && CoversTrue(s.t, low' + cur', r)
      ensures forall l :: l in low' + cur' ==> l in low + cur || l in r
      ensures (exists q :: q in r && Current(s.t, q)) ==> cur' != {}
    {
      hide TrailOK, Analysing, IsTrue, Root, Current;
      rest', pathC', low', cur' := rest, pathC, low, cur;
      for j := 0 to |r|
        invariant Analysing(s.t, s.n, seen, low', cur', rest', pathC', b)
        invariant low <= low' && cur <= cur'
        invariant forall l :: l in low' + cur' ==> l in low + cur || l in r
        invariant forall x :: 0 <= x < j ==> r[x] in low' + cur' || Root(s.t, r[x])
        invariant (exists x :: 0 <= x < j && Current(s.t, r[x])) ==> cur' != {}
      {
        assert r[j] in r;
        rest', pathC', low', cur' := MarkLit(r[j], rest', pathC', low', cur', b);
      }
    }

    // "Special case for binary clauses: the first one has to be SAT".
    method OrientReason(ghost i: nat, cr: nat, ghost m: nat)
      requires Conflicted(s, m) && i < |s.t.lits| && s.t.lits[i].v < s.n && Sizes(s.t, s.n)
      requires ReasonOK(s.t, s.db, s.f.constraints, i) && s.t.vardata[s.t.lits[i].v].reason == ByClause(cr)
      modifies this`s
      ensures s == old(s).(db := s.db) && |s.db| == |old(s.db)| && Conflicted(s, m)
      ensures ClauseExplains(s, i, cr)
      ensures s.db == old(s.db)
           || (Live(old(s.db), cr) && |old(s.db)[cr].lits| == 2 && s.db == SwapLits(old(s.db), cr, 0, 1))
    {
      hide Conflicted, ReasonOK, ClauseOK, ClauseExplains;
      LongReason(s, m, i, cr);
      if |s.db[cr].lits| == 2 && ValueOf(s.t.assigns, s.db[cr].lits[0]) == False {
        SwapConflicted(s, m, cr);
        s := s.(db := SwapLits(s.db, cr, 0, 1));
      }
    }

    // The reason of literal i, which has just left the resolvent, joins it.
    method ExplainLiteral(i: nat, rest: seq<Lit>, pathC: int, ghost low: set<Lit>, ghost cur: set<Lit>)
      returns (rest': seq<Lit>, pathC': int, ghost low': set<Lit>, ghost cur': set<Lit>)
      requires Conflicted(s, i) && |s.t.lims| > 0 && LevelStart(s.t) < i < |s.t.lits|
      requires Analysing(s.t, s.n, seen, low, cur, rest, pathC, i) && Refuted(s.f, low + cur + {s.t.lits[i]})
      requires cur != {}
      modifies this`s, this`seen
      ensures s == old(s).(db := s.db) && |s.db| == |old(s.db)| && SameClauses(old(s.db), s.db)
      ensures Resolving(s, seen, low', cur', rest', pathC', i)
      ensures low' + cur' == low + cur + AboveRoot(s.t, ReasonOf(s, i))
    {
      hide Conflicted, ReasonOK, Analysing, Refuted, ClauseExplains, TrailOK, RootOK, Base, IsTrue, Explains, Root,
           Current, SameClauses, AboveRoot, ReasonOf;
      SameClausesSelf(s.db);
      ReasonKind(s, i, i);
      ConflictedFacts(s, i);
      var p := s.t.lits[i];
      var r := s.t.vardata[p.v].reason;
      if r.ByClause? {
        OrientReason(i, r.cr, i);
        SameOriented(old(s.db), old(s.db), s.db, r.cr);
        ExplainsBefore(s, i, r.cr);
        rest', pathC', low', cur' := MarkClause(s.db[r.cr].lits, 1, rest, pathC, low, cur, i);
        ResolveWithClause(s, i, i, r.cr, low, cur, low', cur');
        ClauseAdds(s, i, i, r.cr, seen, low, cur, low', cur', rest', pathC');
      } else {
        var k := r.k;
        ConstraintReason(s, i, k, r.kept);
        var ls := ReasonFor(s.f.constraints[k], s.log[k], s.t.lits[..i], p, r.kept);
        rest', pathC', low', cur' := MarkReason(ls, rest, pathC, low, cur, i);
        ResolveConstraint(s.t, s.f, low + cur, p, low' + cur', s.f.constraints[k], ls);
        ConstraintAdds(s, i, k, r.kept, ls, seen, low, cur, low', cur', rest', pathC');
      }
    }

    // The conflict itself, before any literal has been resolved away.
    method MarkConflict(confl: Conflict)
      returns (rest: seq<Lit>, pathC: int, ghost low: set<Lit>, ghost cur: set<Lit>)
      requires Conflicted(s, |s.t.lits|) && ConflictOK(s, confl) && confl != NoConflict && |s.t.lims| > 0
      requires |seen| == s.n && Clear(seen)
      modifies this`seen
      ensures Resolving(s, seen, low, cur, rest, pathC, |s.t.lits|)
      ensures low + cur == AboveRoot(s.t, ConflictLits(s, confl))
    {
      hide Conflicted, Analysing, Refuted, TrailOK, RootOK, Base, IsTrue, Root, Refutes, Entails, ClauseOK, Clear,
           AboveRoot, ConflictLits;
      ConflictedFacts(s, |s.t.lits|);
      NothingMarked(s.t, s.n, seen);
      if confl.ClauseConflict? {
        var c := s.db[confl.cr].lits;
        FalsifiedBefore(s.t, s.n, c);
        rest, pathC, low, cur := MarkClause(c, 0, [], 0, {}, {}, |s.t.lits|);
        ConflictClause(s.t, s.f, low + cur, c);
        ConflictClauseIs(s, confl.cr, seen, low, cur, rest, pathC);
      } else {
        ConflictReason(s, confl.k, confl.extra, confl.because);
        var ls := ObjectionFor(s.f.constraints[confl.k], s.log[confl.k], s.t.lits, confl.extra, confl.because);
        AllBefore(s.t, ls);
        rest, pathC, low, cur := MarkReason(ls, [], 0, {}, {}, |s.t.lits|);
        ConflictConstraint(s.t, s.f, low + cur, s.f.constraints[confl.k], ls);
        ConflictConstraintIs(s, confl, ls, seen, low, cur, rest, pathC);
      }
    }

    // "while (!seen[var(trail[index--])]);": the topmost marked literal.
    method ScanDown(m: nat, ghost low: set<Lit>, ghost cur: set<Lit>, ghost rest: seq<Lit>, ghost pathC: int)
      returns (i: nat)
      requires TrailOK(s.t, s.n) && m <= |s.t.lits| && cur != {}
      requires Analysing(s.t, s.n, seen, low, cur, rest, pathC, m)
      ensures i < m && s.t.lits[i].v < s.n && |seen| == s.n && seen[s.t.lits[i].v]
      ensures Analysing(s.t, s.n, seen, low, cur, rest, pathC, i + 1)
      ensures forall j :: i < j < m ==> s.t.lits[j] !in low + cur
    {
      hide Split, Collected;
      assert |seen| == s.n;
      hide Analysing;
      SomethingLeft(s.t, s.n, seen, low, cur, rest, pathC, m);
      i := m - 1;
      AtPosition(s.t, s.n, i);
      while !seen[s.t.lits[i].v]
        invariant i < m && s.t.lits[i].v < s.n
        invariant Analysing(s.t, s.n, seen, low, cur, rest, pathC, i + 1)
        invariant forall j :: i < j < m ==> s.t.lits[j] !in low + cur
        decreases i
      {
        LitNotMarked(s.t, s.n, seen, low, cur, rest, pathC, i);
        ScanPast(s.t, s.n, seen, low, cur, rest, pathC, i);
        SomethingLeft(s.t, s.n, seen, low, cur, rest, pathC, i);
        i := i - 1;
        AtPosition(s.t, s.n, i);
      }
    }

    // The undo lists of the literals passed over are worked off, so that each
    // constraint is asked for a reason in the state it was in before the literal.
    method UndoRange(i: nat, m: nat)
      requires Conflicted(s, m) && LevelStart(s.t) <= i <= m
      modifies this`s
      ensures s == old(s).(undo := s.undo, log := s.log)
      ensures Conflicted(s, i) && SameUndo(old(s), s, i)
    {
      hide Conflicted, Base, PoppedTo, TrailOK, RootOK, ClauseOK, Entails;
      ghost var b := s;
      IdlePopped(s, m);
      ConflictedFacts(s, m);
      var c := m;
      while c > i
        invariant i <= c <= m
        invariant s == b.(undo := s.undo, log := s.log)
        invariant PoppedTo(b, s.undo, s.log, c)
      {
        c := c - 1;
        UndoLiteral(c, b);
      }
      ConflictedSizes(b, m);
      PoppedSame(b, s, i);
      PopConflicted(b, s.undo, s.log, m, i);
    }

    // The resolution loop of analyze: from the conflict back to the first unique
    // implication point of the current level.
    method FirstUip(confl: Conflict)
      returns (p: Lit, rest: seq<Lit>, ghost low: set<Lit>, ghost m: nat)
      requires Conflicted(s, |s.t.lits|) && ConflictOK(s, confl) && confl != NoConflict && |s.t.lims| > 0
      requires |seen| == s.n && Clear(seen)
      modifies this`s, this`seen
      ensures s == old(s).(db := s.db, undo := s.undo, log := s.log) && |s.db| == |old(s.db)|
      ensures Conflicted(s, m) && Uip(s, seen, p, low, rest)
      ensures SameClauses(old(s.db), s.db)
      ensures FirstPoint(old(s), confl, m) && p == old(s.t.lits[m]) && low + {p} == Resolvent(old(s), confl, m + 1)
    {
      hide Conflicted, ConflictOK, Base, TrailOK, RootOK, ClauseOK, Entails, Refuted, Analysing, Current, Uip,
           SameClauses, Resolvent, Busy, FirstPoint, SameUndo, ReasonOf, AboveRoot, ConflictLits, OtherCurrent;
      ghost var s0 := s;
      var pathC;
      ghost var cur;
      rest, pathC, low, cur := MarkConflict(confl);
      var end: nat := |s.t.lits|;
      ResolventStart(s, confl);
      SameClausesSelf(s.db);
      while true
        invariant s == s0.(db := s.db, undo := s.undo, log := s.log) && |s.db| == |s0.db|
        invariant end <= |s.t.lits|
        invariant Resolving(s, seen, low, cur, rest, pathC, end)
        invariant SameClauses(s0.db, s.db) && SameUndo(s0, s, end)
        invariant low + cur == Resolvent(s0, confl, end) && Busy(s0, confl, end)
        decreases end
      {
        ConflictedFacts(s, end);
        var i := ScanDown(end, low, cur, rest, pathC);
        TopMarked(s.t, s.n, seen, low, cur, rest, pathC, i);
        ResolventSkips(s0, confl, i + 1, end);
        ghost var s1, x := s, low + cur;
        UndoRange(i, end);
        UndoTrans(s0, s1, s, i);
        p := s.t.lits[i];
        seen := seen[p.v := false];
        pathC := pathC - 1;
        assert low + cur == low + (cur - {p}) + {p};
        cur := cur - {p};
        SomethingLeft(s.t, s.n, seen, low, cur, rest, pathC, i);
        if pathC <= 0 {
          UipFound(s, seen, low, cur, rest, i, p);
          LastCurrent(s, confl, s0, seen, low, cur, rest, i);
          m := i;
          return;
        }
        StillCurrent(s, seen, low, cur, rest, pathC, x, i);
        ResolventStep(s0, confl, i);
        assert x - {p} == low + cur;
        ghost var s2 := s;
        rest, pathC, low, cur := ExplainLiteral(i, rest, pathC, low, cur);
        UndoTrans(s0, s2, s, i);
        SameClausesTrans(s0.db, s2.db, s.db);
        ReasonSame(s0, s, i);
        end := i;
      }
    }

    // --------------------------------------------------- clause minimisation

    // The inner loop of litRedundant: the other literals of the reason of literal
    // i are marked, known, or end the attempt.
    method ExamineReason(ghost i: nat, cr: nat, levels: set<nat>, stack: seq<Lit>, toclear: seq<Lit>,
                         ghost m: nat, ghost seen0: seq<bool>, ghost top: nat, ghost pend: set<Lit>,
                         ghost marked: set<Lit>, ghost kept: set<Lit>, ghost p: Lit)
      returns (ok: bool, stack': seq<Lit>, toclear': seq<Lit>, ghost pend': set<Lit>, ghost marked': set<Lit>)
      requires Conflicted(s, m) && |s.t.lims| > 0 && ClauseExplains(s, i, cr)
      requires Examining(s, seen, seen0, stack, toclear, top, pend, marked, kept, p)
      modifies this`seen
      ensures marked <= marked' && toclear <= toclear'
      ensures Examining(s, seen, seen0, stack', toclear', top, pend', marked', kept, p)
      ensures ok ==> cr < |s.db| && Covered(s, cr, marked')
      ensures stack <= stack' && cr < |s.db|
      ensures if ok then Looking(s.t, s.db[cr].lits, |s.db[cr].lits|, old(seen), seen, levels, stack'[|stack|..])
              else Stuck(s.t, s.db[cr].lits, old(seen), levels)
      ensures (seen == old(seen) && stack' == stack) || Unseen(seen) < Unseen(old(seen))
    {
      hide Conflicted, Examining, Base, TrailOK, RootOK, ClauseOK, Entails, IsTrue, Root, Marks, Extra, Covered,
           Looking, Stuck;
      ConflictedFacts(s, m);
      ExplainsBefore(s, i, cr);
      stack', toclear', pend', marked' := stack, toclear, pend, marked;
      var c := s.db[cr].lits;
      ghost var found: seq<Lit> := [];
      StartLooking(s.t, c, seen, levels);
      for x := 1 to |c|
        invariant Examining(s, seen, seen0, stack', toclear', top, pend', marked', kept, p)
        invariant marked <= marked' && toclear <= toclear'
        invariant forall z :: 1 <= z < x ==> Neg(c[z]) in marked' || Root(s.t, Neg(c[z]))
        invariant stack' == stack + found && Looking(s.t, c, x, old(seen), seen, levels, found)
        invariant (seen == old(seen) && stack' == stack) || Unseen(seen) < Unseen(old(seen))
      {
        var l := Neg(c[x]);
        assert Neg(l) == c[x];
        ExamineSizes(s, seen, seen0, stack', toclear', top, pend', marked', kept, p);
        MarksSize(s.t, s.n, seen, marked');
        LevelPosition(s.t, s.n, l);
        var d := s.t.vardata[l.v];
        if !seen[l.v] && d.level > 0 {
          if !d.reason.ByClause? || d.level % 32 !in levels {
            LookStuck(s.t, c, x, old(seen), seen, levels, found);
            return false, stack', toclear', pend', marked';
          }
          Examine(s, seen, seen0, stack', toclear', top, pend', marked', kept, p, l);
          UnseenShrinks(seen, l.v);
          LookAt(s.t, c, x, old(seen), seen, levels, found);
          seen := seen[l.v := true];
          stack', toclear', pend', marked' := stack' + [c[x]], toclear' + [c[x]], pend' + {l}, marked' + {l};
          found := found + [c[x]];
        } else {
          LookPast(s.t, c, x, old(seen), seen, levels, found);
        }
      }
      ok := true;
      CoveredHere(s, cr, marked');
    }

    // "for (j = top; ...) seen[var(analyze_toclear[j])] = 0".
    method ClearMarks(toclear: seq<Lit>, top: nat)
      requires top <= |toclear| && forall x :: top <= x < |toclear| ==> toclear[x].v < |seen|
      modifies this`seen
      ensures |seen| == |old(seen)|
      ensures forall v :: 0 <= v < |seen| ==>
                (seen[v] <==> old(seen)[v] && !exists x :: top <= x < |toclear| && toclear[x].v == v)
    {
      for j := top to |toclear|
        invariant |seen| == |old(seen)|
        invariant forall v :: 0 <= v < |seen| ==>
                    (seen[v] <==> old(seen)[v] && !exists x :: top <= x < j && toclear[x].v == v)
      {
        seen := seen[toclear[j].v := false];
      }
    }

    // litRedundant(q, abstract_levels): is q implied by the other marked literals?
    method LitRedundant(q: Lit, levels: set<nat>, toclear: seq<Lit>, ghost m: nat, ghost marked: set<Lit>,
                        ghost kept: set<Lit>, ghost p: Lit)
      returns (redundant: bool, toclear': seq<Lit>, ghost marked': set<Lit>)
      requires Conflicted(s, m) && |s.t.lims| > 0 && Marks(s.t, s.n, seen, marked) && ToClear(s.n, toclear, marked)
      requires Neg(q) in marked && Neg(q) in kept && Expandable(s, Neg(q))
      requires ClosedUnderReasons(s.t, s.db, marked + {p}, kept)
      modifies this`s, this`seen
      ensures s == old(s).(db := s.db) && |s.db| == |old(s.db)| && Conflicted(s, m)
      ensures Marks(s.t, s.n, seen, marked') && ToClear(s.n, toclear', marked') && marked <= marked'
      ensures ClosedUnderReasons(s.t, s.db, marked' + {p}, if redundant then kept - {Neg(q)} else kept)
      ensures SameClauses(old(s.db), s.db)
      ensures redundant <==> !Blocked(s.t, old(s.db), old(seen), levels, q.v)
      ensures if redundant then Harmless(s.t, old(s.db), old(seen), seen, levels) else seen == old(seen)
    {
      hide Conflicted, Examining, Base, TrailOK, RootOK, ClauseOK, Entails, IsTrue, Root, Marks, Extra, Covered,
           ToClear, ClosedUnderReasons, Expandable, ClauseExplains, Pending, Walking, Looking, Stuck, Blocked, Harmless,
           SameClauses, VarsOf, BehindIs;
      ghost var s0, seen0 := s, seen;
      ghost var done: set<Var> := {};
      VarsOne(q);
      StartWalking(s.t, s.db, seen, levels, q.v);
      SameClausesSelf(s.db);
      MarkedSeen(s.t, s.n, seen, marked, q);
      var top := |toclear|;
      var stack := [q];
      toclear', marked' := toclear, marked;
      ghost var pend, base := {Neg(q)}, kept - {Neg(q)};
      StartExamining(s, seen, toclear, marked, kept, p, q);
      while stack != []
        invariant s == s0.(db := s.db) && |s.db| == |s0.db| && Conflicted(s, m)
        invariant marked <= marked' && toclear <= toclear'
        invariant Examining(s, seen, seen0, stack, toclear', top, pend, marked', base, p)
        invariant ClosedUnderReasons(s.t, s.db, marked + {p}, kept)
        invariant SameClauses(s0.db, s.db) && Walking(s0.t, s0.db, seen0, seen, levels, q.v, VarsOf(stack), done)
        decreases Unseen(seen), |stack|
      {
        var y := stack[|stack| - 1];
        TakeTop(s, seen, seen0, stack, toclear', top, pend, marked', base, p);
        TopAgain(stack);
        stack := stack[..|stack| - 1];
        pend := pend - {Neg(y)};
        ExpandableReason(s, m, Neg(y));
        ExpandableFacts(s, Neg(y));
        ghost var i := s.t.pos[y.v];
        var cr := s.t.vardata[y.v].reason.cr;
        ghost var db0 := s.db;
        OrientReason(i, cr, m);
        OrientKeeps(s0.(db := db0), s, cr, seen, seen0, stack, toclear', top, pend, marked', base + {Neg(y)}, p, marked,
                    kept);
        OrientedBehind(s0.db, db0, s, m, i, cr);
        ghost var before, seen2 := stack, seen;
        var ok;
        ok, stack, toclear', pend, marked' :=
          ExamineReason(i, cr, levels, stack, toclear', m, seen0, top, pend, marked', base + {Neg(y)}, p);
        if !ok {
          StepStuck(s.t, s0.db, seen0, seen2, levels, q.v, before, done, y, s.db[cr].lits);
          ExamineSizes(s, seen, seen0, stack, toclear', top, pend, marked', base + {Neg(y)}, p);
          ghost var seen1 := seen;
          ExtraRange(seen, seen0, toclear', top);
          ClearMarks(toclear', top);
          ResetExtra(seen1, seen0, toclear', top, seen);
          assert toclear'[..top] == toclear;
          return false, toclear'[..top], marked;
        }
        StepOn(s.t, s0.db, seen0, seen2, seen, levels, q.v, before, done, y, s.db[cr].lits, stack);
        done := done + {y.v};
        ExpandableFrame(s0.(db := db0), s, Neg(y));
        ReasonCoveredHere(s, seen, seen0, stack, toclear', top, pend, marked', base, p, i, cr, Neg(y));
      }
      redundant := true;
      VarsNone();
      WalkEnds(s.t, s0.db, seen0, seen, levels, q.v, done);
      StackEmpty(s, seen, seen0, toclear', top, pend, marked', base, p);
    }

    // abstractLevel of the variables of out_learnt after slot 0.
    method AbstractLevels(rest: seq<Lit>) returns (levels: set<nat>)
      requires InRange(rest, |s.t.vardata|)
      ensures AreLevels(s.t, rest, levels)
    {
      levels := {};
      for i := 0 to |rest|
        invariant AreLevels(s.t, rest[..i], levels)
      {
        assert rest[i] in rest;
        LevelAdded(s.t, rest, i, levels);
        levels := levels + {s.t.vardata[rest[i].v].level % 32};
      }
      assert rest[..|rest|] == rest;
    }

    // ccmin_mode 1: are all literals of the reason but the implied one marked or
    // of level 0?
    method ReasonSeen(cr: nat) returns (all: bool)
      requires Live(s.db, cr) && InRange(s.db[cr].lits, s.n) && |s.t.vardata| == s.n && |seen| == s.n
      ensures all <==> forall k :: (if |s.db[cr].lits| == 2 then 0 else 1) <= k < |s.db[cr].lits| ==>
                s.db[cr].lits[k].v < s.n
                && (seen[s.db[cr].lits[k].v] || s.t.vardata[s.db[cr].lits[k].v].level == 0)
    {
      var c := s.db[cr].lits;
      var k := if |c| == 2 then 0 else 1;
      while k < |c|
        invariant forall x :: (if |c| == 2 then 0 else 1) <= x < k && x < |c| ==>
                    c[x].v < s.n && (seen[c[x].v] || s.t.vardata[c[x].v].level == 0)
        invariant k >= 0
      {
        assert c[k] in c;
        if !seen[c[k].v] && s.t.vardata[c[k].v].level > 0 {
          return false;
        }
        k := k + 1;
      }
      all := true;
    }

    // May literal i of rest be dropped?
    method MinimiseOne(ghost p: Lit, rest: seq<Lit>, i: nat, ghost out: seq<Lit>, ccminMode: nat, levels: set<nat>,
                       toclear: seq<Lit>, ghost m: nat, ghost marked: set<Lit>, ghost kept: set<Lit>)
      returns (drop: bool, toclear': seq<Lit>, ghost marked': set<Lit>)
      requires Conflicted(s, m) && |s.t.lims| > 0 && i < |rest| && rest[i].v < s.n && |s.t.vardata| == s.n
      requires Marks(s.t, s.n, seen, marked) && ToClear(s.n, toclear, marked)
      requires Shortening(p, rest, i, out, marked, kept)
      requires ClosedUnderReasons(s.t, s.db, marked + {p}, kept)
      modifies this`s, this`seen
      ensures s == old(s).(db := s.db) && |s.db| == |old(s.db)| && Conflicted(s, m)
      ensures Marks(s.t, s.n, seen, marked') && ToClear(s.n, toclear', marked') && marked <= marked'
      ensures ClosedUnderReasons(s.t, s.db, marked' + {p}, if drop then kept - {Neg(rest[i])} else kept)
      ensures SameClauses(old(s.db), s.db) && (ccminMode != 2 ==> seen == old(seen))
      ensures drop <==> !Stays(s.t, old(s.db), old(seen), ccminMode, levels, rest[i].v)
      ensures Harmless(s.t, old(s.db), old(seen), seen, levels)
    {
      var q := rest[i];
      assert Neg(q) in marked && Neg(q) in kept;
      hide Conflicted, Marks, ToClear, Shortening, Base, TrailOK, RootOK, ClauseOK, Entails, IsTrue, ClosedUnderReasons,
           Expandable, Blocked, SameClauses, Harmless, Behind, Unmarked;
      SameClausesSelf(s.db);
      HarmlessSelf(s.t, s.db, seen, levels);
      drop, toclear', marked' := false, toclear, marked;
      var r := s.t.vardata[q.v].reason;
      if r.ByClause? && (ccminMode == 1 || ccminMode == 2) {
        MarkedExpandable(s, seen, marked, Neg(q));
        ExpandableClause(s, m, Neg(q));
        if ccminMode == 2 {
          drop, toclear', marked' := LitRedundant(q, levels, toclear, m, marked, kept, p);
        } else {
          MarksSize(s.t, s.n, seen, marked);
          MarkedSeen(s.t, s.n, seen, marked, q);
          BasicStays(s, m, seen, Neg(q), r.cr);
          drop := ReasonSeen(r.cr);
          if drop {
            BasicRedundant(s, m, seen, marked, p, kept, Neg(q), r.cr);
          }
        }
      }
    }

    // "Simplify conflict clause": ccmin_mode 2 is recursive, 1 basic, 0 none.
    method Minimise(p: Lit, rest: seq<Lit>, ccminMode: nat, ghost low: set<Lit>, ghost m: nat)
      returns (out: seq<Lit>, toclear: seq<Lit>, ghost marked: set<Lit>)
      requires Conflicted(s, m) && |s.t.lims| > 0 && Uip(s, seen, p, low, rest)
      modifies this`s, this`seen
      ensures s == old(s).(db := s.db) && |s.db| == |old(s.db)| && Conflicted(s, m)
      ensures Shortened(s, p, rest, out)
      ensures Marks(s.t, s.n, seen, marked) && ToClear(s.n, toclear, marked)
      ensures SameClauses(old(s.db), s.db)
      ensures exists levels :: AreLevels(s.t, rest, levels)
                               && out == Left(s.t, old(s.db), old(seen), ccminMode, levels, rest)
    {
      ghost var s0, seen0 := s, seen;
      assert Refuted(s.f, low + {p}) && IsTrue(s.t, p);
      UipRange(s, m, seen, p, low, rest);
      StartShortening(s, seen, p, low, rest);
      hide Conflicted, Uip, Marks, ToClear, Shortening, Refuted, Base, TrailOK, RootOK, ClauseOK, Entails, IsTrue,
           ClosedUnderReasons, SameClauses, Harmless, Stays, AreLevels, Left, Tried;
      out, toclear, marked := [], [Neg(p)] + rest, low;
      ghost var kept := low + {p};
      var levels := AbstractLevels(rest);
      var i := 0;
      NoneTried(s.t, s.db, seen, ccminMode, levels, rest);
      while i < |rest|
        invariant 0 <= i <= |rest| && low <= marked
        invariant s == s0.(db := s.db) && |s.db| == |s0.db| && Conflicted(s, m)
        invariant Marks(s.t, s.n, seen, marked) && ToClear(s.n, toclear, marked)
        invariant Shortening(p, rest, i, out, marked, kept)
        invariant ClosedUnderReasons(s.t, s.db, marked + {p}, kept)
        invariant Tried(s.t, s0.db, s.db, seen0, seen, ccminMode, levels, rest[..i], out)
      {
        assert rest[i] in rest;
        var drop;
        ghost var was, db1, seen1 := marked, s.db, seen;
        drop, toclear, marked := MinimiseOne(p, rest, i, out, ccminMode, levels, toclear, m, marked, kept);
        TryNext(s.t, s0.db, db1, s.db, seen0, seen1, seen, ccminMode, levels, rest, i, out);
        if drop {
          DropNext(p, rest, i, out, was, marked, kept);
          kept := kept - {Neg(rest[i])};
        } else {
          KeepNext(p, rest, i, out, was, marked, kept);
          out := out + [rest[i]];
        }
        i := i + 1;
      }
      AllTried(s.t, s0.db, s.db, seen0, seen, ccminMode, levels, rest, out);
      FinishShortening(s, m, seen, p, low, rest, out, marked, kept);
    }

    // The marking part of minimisationWithBinaryResolution: flagged holds the
    // variables v with permDiff[v] == MYFLAG, gone the literals whose mark was
    // taken away again.
    method FlagBinary(c: Clause, ghost m: nat) returns (flagged: set<Var>, nb: nat, ghost gone: set<Lit>)
      requires Conflicted(s, m) && LearntShape(s, c) && Sizes(s.t, s.n)
      ensures nb == |gone| && Flags(c[1..], flagged, gone)
      ensures |c| > 0 && forall q :: q in gone <==> q in c[1..] && Paired(s.db, c[0], Neg(q))
      ensures forall q :: q in gone ==> Entails(s.f, [c[0], Neg(q)])
    {
      hide Conflicted, Base, RootOK, ClauseOK, Entails, LearntShape, TrailOK, Flags, IsTrue, Found, Paired;
      ConflictedFacts(s, m);
      assert |c| >= 1 && c[0].v < s.n by { ShapeFirst(s, c); }
      TailDistinct(s, c);
      FlagsStart(c[1..]);
      flagged := set q | q in c[1..] :: q.v;
      nb, gone := 0, {};
      var wbin := Ws(s.bins, Neg(c[0]));
      var k := 0;
      FoundNone(c[1..], wbin);
      while k < |wbin|
        invariant 0 <= k <= |wbin| && nb == |gone| && Flags(c[1..], flagged, gone) && Found(c[1..], wbin, k, gone)
        invariant flagged <= set q | q in c[1..] :: q.v
        invariant forall q :: q in gone ==> Entails(s.f, [c[0], Neg(q)])
      {
        var imp := wbin[k].blocker;
        BinaryImplies(s, m, c[0], wbin[k]);
        ValueIsPosition(s.t, s.n, imp);
        FlaggedExactly(s, s.n, c, flagged, gone, imp);
        FoundNext(c[1..], wbin, k, gone);
        if imp.v in flagged && ValueOf(s.t.assigns, imp) == True {
          FlaggedLiteral(s, s.n, c, flagged, imp);
          FlagsDrop(c[1..], flagged, gone, Neg(imp));
          assert Neg(Neg(imp)) == imp;
          nb, flagged, gone := nb + 1, flagged - {imp.v}, gone + {Neg(imp)};
        }
        k := k + 1;
      }
      AllFound(s, m, c, gone);
    }

    // minimisationWithBinaryResolution(out_learnt): literals the asserting one
    // implies through binary clauses are moved to the end and cut off.
    method BinaryMinimise(c: Clause, ghost m: nat) returns (out: Clause)
      requires Conflicted(s, m) && LearntShape(s, c) && Entails(s.f, c) && Sizes(s.t, s.n)
      ensures LearntShape(s, out) && Entails(s.f, out)
      ensures |c| > 0 && |out| > 0 && out[0] == c[0]
      ensures forall q :: q in out <==> q in c && (q == c[0] || !Paired(s.db, c[0], Neg(q)))
    {
      hide Conflicted, LearntShape, Entails, Flags, Moving, NoDup, Paired;
      ShapeTail(s, c);
      var flagged, nb;
      ghost var gone;
      flagged, nb, gone := FlagBinary(c, m);
      out := c;
      if nb > 0 {
        ShapeFirst(s, c);
        StartMoving(c, flagged, gone);
        var l := |out| - 1;
        var i := 1;
        while i < |out| - nb
          invariant |out| == |c| && 1 <= i && i <= |out| - nb && 0 <= l < |out|
          invariant Moving(c, out, gone, i, l)
          decreases l - i
        {
          FlagsSay(c, out, flagged, gone, i, l);
          if out[i].v !in flagged {
            MoveOne(c, out, gone, i, l);
            out := Swapped(out, i, l);
            l := l - 1;
          } else {
            StayOne(c, out, gone, i, l);
            i := i + 1;
          }
        }
        MoveDone(c, out, gone, i, l);
        out := out[..|out| - nb];
        CutShape(s, c, out, gone);
      }
    }

    // "Find correct backtrack level": the literal of the highest level below the
    // current one goes to place 1.
    method BacktrackLevel(c: Clause, ghost m: nat) returns (learnt: Clause, btlevel: nat)
      requires Conflicted(s, m) && LearntShape(s, c) && Entails(s.f, c)
      ensures LearntOK(s, learnt, btlevel)
      ensures |c| > 0 && |learnt| == |c| && learnt[0] == c[0] && forall q :: q in learnt <==> q in c
    {
      hide Conflicted, LearntShape, LearntOK, Entails, Level, NoDup;
      ShapeFirst(s, c);
      ShapeLevels(s, m, c);
      if |c| == 1 {
        UnitLearnt(s, c);
        return c, 0;
      }
      var maxI := 1;
      for i := 2 to |c|
        invariant Highest(s, c, maxI, i)
      {
        if s.t.vardata[c[i].v].level > s.t.vardata[c[maxI].v].level {
          maxI := i;
        }
      }
      SwapHighest(s, c, maxI);
      learnt, btlevel := Swapped(c, maxI, 1), s.t.vardata[c[maxI].v].level;
    }

    // analyze(confl, ...): the clause to learn and the level to jump back to.
    // tryBinary stands for the size and lbd tests in front of
    // minimisationWithBinaryResolution.
    method Analyze(confl: Conflict, ccminMode: nat, tryBinary: bool)
      returns (learnt: Clause, btlevel: nat, ghost m: nat, ghost rest: seq<Lit>, ghost marks: seq<bool>,
               ghost levels: set<nat>)
      requires Conflicted(s, |s.t.lits|) && ConflictOK(s, confl) && confl != NoConflict && |s.t.lims| > 0
      requires |seen| == s.n && Clear(seen)
      modifies this`s, this`seen
      ensures s == old(s).(db := s.db, undo := s.undo, log := s.log) && |s.db| == |old(s.db)|
      ensures Conflicted(s, m) && LearntOK(s, learnt, btlevel)
      ensures Learned(old(s), confl, ccminMode, tryBinary, m, rest, marks, levels, learnt)
      ensures |seen| == s.n && Clear(seen)
    {
      hide Conflicted, ConflictOK, Uip, LearntShape, LearntOK, Entails, Base, TrailOK, RootOK, ClauseOK, Marks, ToClear,
           Clear, SameClauses, AreLevels, Left, Learned, FirstPoint, Gathered, Resolvent, Paired;
      var p, out, toclear, others;
      ghost var low, marked;
      p, others, low, m := FirstUip(confl);
      ghost var s1, seen1 := s, seen;
      out, toclear, marked := Minimise(p, others, ccminMode, low, m);
      levels :| AreLevels(s1.t, others, levels) && out == Left(s1.t, s1.db, seen1, ccminMode, levels, others);
      rest, marks := others, seen1;
      ShortenedShape(s1, s, m, seen1, p, low, others, out);
      learnt := [Neg(p)] + out;
      ConflictedFacts(s, m);
      if tryBinary {
        learnt := BinaryMinimise(learnt, m);
      }
      learnt, btlevel := BacktrackLevel(learnt, m);
      ConflictedFacts(s, m);
      UipGathers(old(s), s1, confl, m, seen1, p, low, others);
      LeftSame(s.t, old(s.db), s1.db, seen1, ccminMode, levels, others);
      AllLearned(old(s), s1, s, confl, ccminMode, tryBinary, m, others, seen1, levels, out, learnt);
      MarksSize(s.t, s.n, seen, marked);
      ghost var seen2 := seen;
      ClearRange(s.n, toclear, marked);
      ClearMarks(toclear, 0);
      AllCleared(s.t, s.n, seen2, marked, toclear, seen);
    }

    // ------------------------------------------------------ building the problem

    // sort(ps), then the loop that drops false and repeated literals and notices
    // a true or complementary one.
    method SortAndFilter(ps: Clause) returns (out: Clause, dropped: bool)
      requires Base(s) && TrailOK(s.t, s.n) && |s.t.lims| == 0 && InRange(ps, s.n)
      ensures dropped ==> RootSat(s.t, ps) || Tautology(ps)
      ensures !dropped ==> Kept(s.t.lits, ps, |ps|, out)
    {
      assert |s.t.assigns| == s.n;
      hide Base, TrailOK, Kept, IsTrue, RootSat, Tautology;
      var a := new Lit[|ps|](i requires 0 <= i < |ps| => ps[i]);
      assert a[..] == ps;
      LitLtOrders();
      Sorting.Sort(a, 0, a.Length, LitLt);
      var c := a[..];
      SortedMembers(ps, c);
      out := [];
      KeptNothing(s.t.lits, c);
      for i := 0 to |c|
        invariant a[..] == c && Kept(s.t.lits, c, i, out)
      {
        assert c[i] in c && c[i].v < s.n;
        ValueIsMembership(s.t, s.n, c[i]);
        if ValueOf(s.t.assigns, c[i]) == True || (out != [] && c[i] == Neg(out[|out| - 1])) {
          AlwaysTrue(s.t.lits, ps, c, i, out);
          AlwaysSat(s.t, s.n, ps);
          return out, true;
        }
        KeepOne(s.t.lits, c, i, out);
        if ValueOf(s.t.assigns, c[i]) != False && (out == [] || c[i] != out[|out| - 1]) {
          out := out + [c[i]];
        }
      }
      KeptSame(s.t.lits, ps, c, out);
      dropped := false;
    }

    // addClause_(ps): false only if the problem has become unsatisfiable.
    method AddClause(ps: Clause) returns (ok: bool)
      requires Settling0(s) && InRange(ps, s.n) && |s.home| == |s.f.clauses| && Heeded(s, said, s.qhead)
      modifies this`s, this`said
      ensures s.f == WithClause(old(s.f), ps) && s.n == old(s.n)
      ensures ok ==> Settling0(s) && |s.home| == |s.f.clauses| && Heeded(s, said, s.qhead)
      ensures !ok ==> Unsatisfiable(s.f)
    {
      hide Heeds, Ready, Base, TrailOK, Kept, Unsatisfiable, Entails, RootSat, Tautology, ClauseOK, DistinctVars,
           MayEnqueue, TellsWhy, Later, ConflictOK, Conflicted, Fixpoint, InRange;
      ClauseJoins(s, ps);
      s := s.(f := WithClause(s.f, ps));
      ReadyFacts(s);
      var out, dropped := SortAndFilter(ps);
      if dropped {
        ClauseHoused(s, -1);
        s := s.(home := s.home + [-1]);
        return true;
      }
      KeptEntailed(s, ps, out);
      if |out| == 0 {
        NothingKept(s.f, out);
        return false;
      } else if |out| == 1 {
        assert out == [out[0]];
        ok := AddUnit(ps, out[0]);
      } else {
        AddLong(ps, out);
        ok := true;
      }
    }

    // One literal is left: uncheckedEnqueue and propagate.
    method AddUnit(ghost ps: Clause, p: Lit) returns (ok: bool)
      requires Settling0(s) && |s.home| + 1 == |s.f.clauses| && s.f.clauses[|s.home|] == ps
      requires Kept(s.t.lits, ps, |ps|, [p]) && Entails(s.f, [p]) && InRange([p], s.n) && Heeded(s, said, s.qhead)
      modifies this`s, this`said
      ensures s.f == old(s.f) && s.n == old(s.n)
      ensures ok ==> Settling0(s) && |s.home| == |s.f.clauses| && Heeded(s, said, s.qhead)
      ensures !ok ==> Unsatisfiable(s.f)
    {
      hide Heeds, Ready, Base, TrailOK, Kept, Unsatisfiable, Entails, MayEnqueue, TellsWhy, Later, ConflictOK,
           Conflicted, Fixpoint, RootSat;
      assert p in [p];
      ReadyFacts(s);
      ghost var s1 := s;
      KeptUnassigned(s.t, s.n, ps, [p], p);
      UnitMayJoin(s, ps, p);
      UncheckedEnqueue(p, NoReason);
      EnqueueStep(s1, p, NoReason, s.pending, NO_LIT, {}, [], s1.qhead, s1.qhead) by { ReadyIs(s1); }
      ReadyAgain(s, s1.qhead);
      UnitHoused(s1.t, s1.n, s.t, ps, p);
      ClauseHoused(s, -1);
      s := s.(home := s.home + [-1]);
      HeededLonger(s1, s, said, s1.qhead);
      ok := PropagateRoot();
    }

    // At level 0 a conflict refutes the problem.
    method PropagateRoot() returns (ok: bool)
      requires Ready(s) && |s.t.lims| == 0 && Heeded(s, said, s.qhead)
      modifies this`s, this`said
      ensures s.f == old(s.f) && s.n == old(s.n) && s.home == old(s.home) && old(s.t.lits) <= s.t.lits
      ensures ok ==> Settling0(s) && Heeded(s, said, s.qhead)
      ensures !ok ==> Unsatisfiable(s.f)
    {
      hide Heeded, Ready, Unsatisfiable, Later, ConflictOK, Conflicted, Fixpoint;
      ghost var s0 := s;
      var confl := Propagate();
      LaterFields(s0, s);
      LaterExtends(s0, s);
      if confl != NoConflict {
        RootConflictUnsat(s, confl);
        return false;
      }
      ok := true;
    }

    method AddLong(ghost ps: Clause, out: Clause)
      requires Settling0(s) && |s.home| + 1 == |s.f.clauses| && s.f.clauses[|s.home|] == ps
      requires Kept(s.t.lits, ps, |ps|, out) && Entails(s.f, out) && InRange(out, s.n) && DistinctVars(out)
               && |out| >= 2
      modifies this`s
      ensures s.f == old(s.f) && s.n == old(s.n) && s.tell == old(s.tell) && s.t == old(s.t)
      ensures Settling0(s) && |s.home| == |s.f.clauses|
    {
      hide Ready, Base, TrailOK, Kept, Entails, DistinctVars;
      assert out[0] in out && out[1] in out;
      ReadyFacts(s);
      KeptUnassigned(s.t, s.n, ps, out, out[0]);
      KeptUnassigned(s.t, s.n, ps, out, out[1]);
      var r := ClauseRec(out, false, false);
      FreshAttached(s, r);
      LongHoused(s, ps, out);
      ghost var h := |s.db|;
      AttachClause(r);
      ClauseHoused(s, h);
      s := s.(home := s.home + [|s.db| - 1]);
    }

    // addConstraint(constr): false only if the problem has become unsatisfiable.  a is
    // what initialize answers, and tell how the constraint goes on at level 0.
    method AddConstraint(con: Constraint, a: Answer, tell: Teller) returns (ok: bool)
      requires Settling0(s) && Honest(con, s.n) && |s.home| == |s.f.clauses| && RootHonest(con, s.n, tell)
      requires forall c :: c in Needs(con) ==> c in s.f.clauses
      requires (Fit(con, s.t.lits) ==> StartOK(con, s.n, s.t.lits, a)) && Heeded(s, said, s.qhead)
      modifies this`s, this`said
      ensures s.f == Formula(old(s.f.clauses), old(s.f.constraints) + [con]) && s.n == old(s.n)
      ensures ok ==> Settling0(s) && |s.home| == |s.f.clauses| && Heeded(s, said, s.qhead)
      ensures ok ==> a.accept && forall x :: x in a.implied ==> x in s.t.lits
      ensures !ok ==> Unsatisfiable(s.f)
    {
      hide Ready, Base, TrailOK, Unsatisfiable, Explains, Refutes, Content, Honest, Joining, Settling0, Join, Failing,
           RootHonest, RootAnswer, Fit, Steady, Why, Awaits, Heeded;
      ghost var s0 := s;
      SettlingFacts(s);
      assert s.f.clauses[..|s.home|] == s.f.clauses;
      StartFit(s, con);
      JoinFailing(s, con, tell);
      JoinFields(s, con, tell);
      s := Join(s, con, tell);
      var k := |s.f.constraints| - 1;
      ghost var f0, home0, t0 := s.f, s.home, s.t.lits;
      ghost var waits := Awaits(con, t0, a.implied);
      if !a.accept {
        JoiningFails(s, k);
        return false;
      }
      var i := 0;
      while i < |a.implied|
        invariant 0 <= i <= |a.implied|
        invariant s.f == f0 && s.home == home0 && s.n == old(s.n) && s.qhead == |t0| && Joining(s)
        invariant s.tell == old(s.tell) + [tell] && s.t.lims == old(s.t.lims) && said == old(said)
        invariant t0 <= s.t.lits && forall l :: l in s.t.lits ==> l in t0 || l in a.implied
        invariant forall x :: 0 <= x < i ==> a.implied[x] in s.t.lits
      {
        var x := a.implied[i];
        assert x in a.implied;
        JoiningFacts(s);
        RootNow(con, s.n, t0, waits, a, s.t.lits);
        ValueIsMembership(s.t, s.n, x);
        if ValueOf(s.t.assigns, x) == False {
          JoiningFails(s, k);
          return false;
        }
        if ValueOf(s.t.assigns, x) == Undef {
          ghost var s1 := s;
          ValueIsPosition(s.t, s.n, x);
          UncheckedEnqueue(x, ByConstraint(k, Why(a, x)));
          JoiningEnqueue(s1, k, x, Why(a, x), s.pending);
        }
        i := i + 1;
      }
      JoiningDone(s, t0, a);
      JoiningRoot(s);
      JoinHeeded(s0, s, said, con, tell, a);
      said := said + [Said(|t0|, a, map[])];
      ok := PropagateRoot();
    }

    // ------------------------------------------------------------------ search

    // attachClause of a freshly allocated clause.
    method AttachClause(r: ClauseRec)
      requires |r.lits| >= 2
      modifies this`s
      ensures s == Att(old(s), r)
    {
      if |r.lits| > 2 {
        s := s.(db := s.db + [r], longs := Attached(s.longs, |s.db|, r.lits));
      } else {
        s := s.(db := s.db + [r], bins := Attached(s.bins, |s.db|, r.lits));
      }
    }

    // cancelUntil, then the learnt clause and its asserting literal.
    method Backjump(learnt: Clause, btlevel: nat, keep: bool, ghost m: nat)
      requires Conflicted(s, m) && LearntOK(s, learnt, btlevel) && |s.t.lims| > 0
      requires Heeded(s, said, LevelStart(s.t))
      modifies this`s
      ensures Heeded(s, said, s.qhead)
      ensures Ready(s) && s.f == old(s.f) && s.n == old(s.n) && s.home == old(s.home)
      ensures btlevel < |old(s.t.lims)| && s.t.lims == old(s.t.lims)[..btlevel]
      ensures |s.t.lits| == old(s.t.lims)[btlevel] + 1
    {
      hide Conflicted, LearntOK, LearntShape, Ready, Base, TrailOK, Asserting, Cancellable, Entails, MayEnqueue,
           TellsWhy, InRange, DistinctVars, Cnc, Level, IsFalse, Current, Heeded, Shallower;
      LearntFacts(s, m, learnt, btlevel);
      ConflictedCancellable(s, m);
      CancelUntil(btlevel, LevelStart(s.t), m + 1);
      AfterBackjump(old(s), btlevel, s.undo, s.log, learnt);
      CncFields(old(s), btlevel, s.undo, s.log);
      HeededCancelled(old(s), s, said, btlevel, LevelStart(old(s.t)));
      Learn(learnt, keep);
    }

    // The literal that was learnt is enqueued, with the clause as its reason.
    method Learn(learnt: Clause, keep: bool)
      requires Ready(s) && s.qhead == |s.t.lits| && |learnt| >= 1 && Entails(s.f, learnt)
      requires learnt[0].v < s.n && |s.t.pos| == s.n && s.t.pos[learnt[0].v] == -1
      requires |learnt| == 1 ==> |s.t.lims| == 0
      requires |learnt| > 1 ==> |s.t.lims| > 0 && Asserting(s, learnt)
      requires Heeded(s, said, s.qhead)
      modifies this`s
      ensures Heeded(s, said, s.qhead)
      ensures Ready(s) && s.f == old(s.f) && s.n == old(s.n) && s.home == old(s.home)
      ensures s.t.lims == old(s.t.lims) && |s.t.lits| == |old(s.t.lits)| + 1
    {
      hide Ready, Base, TrailOK, Asserting, Entails;
      if |learnt| == 1 {
        assert learnt == [learnt[0]];
        LearnUnit(learnt[0]);
      } else {
        ReadyFacts(s);
        ghost var s1 := s;
        var r := ClauseRec(learnt, !keep, false);
        AttachClause(r);
        UncheckedEnqueue(learnt[0], ByClause(|s.db| - 1));
        LearnStep(s1, r, s.pending);
        ReadyHeeded(s1, s, said);
      }
    }

    method LearnUnit(p: Lit)
      requires Ready(s) && s.qhead == |s.t.lits| && |s.t.lims| == 0 && Entails(s.f, [p])
      requires p.v < s.n && |s.t.pos| == s.n && s.t.pos[p.v] == -1 && Heeded(s, said, s.qhead)
      modifies this`s
      ensures Heeded(s, said, s.qhead)
      ensures Ready(s) && s.f == old(s.f) && s.n == old(s.n) && s.home == old(s.home)
      ensures s.t.lims == old(s.t.lims) && |s.t.lits| == |old(s.t.lits)| + 1
    {
      hide Ready, Base, TrailOK, Entails, MayEnqueue, TellsWhy;
      ReadyFacts(s);
      ghost var s1 := s;
      UnitMayEnqueueAtRoot(s, p);
      UncheckedEnqueue(p, NoReason);
      EnqueueStep(s1, p, NoReason, s.pending, NO_LIT, {}, [], s1.qhead, s1.qhead) by { ReadyIs(s1); }
      ReadyAgain(s, s1.qhead);
      ReadyHeeded(s1, s, said);
    }

    // Increase the decision level and enqueue the decision.
    method Decide(p: Lit)
      requires Ready(s) && s.qhead == |s.t.lits| && p.v < s.n && |s.t.pos| == s.n && s.t.pos[p.v] == -1
      requires Heeded(s, said, s.qhead)
      modifies this`s
      ensures Heeded(s, said, s.qhead)
      ensures Ready(s) && s.f == old(s.f) && s.n == old(s.n) && s.home == old(s.home)
      ensures s.t.lims == old(s.t.lims) + [|old(s.t.lits)|] && |s.t.lits| == |old(s.t.lits)| + 1
    {
      hide Ready, Base, TrailOK;
      ReadyFacts(s);
      ghost var s0 := s;
      s := s.(t := s.t.(lims := s.t.lims + [|s.t.lits|]));
      UncheckedEnqueue(p, NoReason);
      DecideStep(s0, p, s.pending);
      ReadyHeeded(s0, s, said);
    }

    // locked(c) for a clause of three or more literals.
    method IsLocked(cr: nat) returns (b: bool)
      requires cr < |s.db| && |s.db[cr].lits| > 0 && TrailOK(s.t, s.n) && s.db[cr].lits[0].v < s.n
      ensures b <==> Locked(s.t, s.db, cr)
    {
      var p := s.db[cr].lits[0];
      ValueIsPosition(s.t, s.n, p);
      b := ValueOf(s.t.assigns, p) == True && s.t.vardata[p.v].reason == ByClause(cr);
    }

    method RemoveClause(cr: nat)
      requires Ready(s) && Removable(s, cr)
      modifies this`s
      ensures Ready(s) && s == old(s).(db := s.db, longs := s.longs, bins := s.bins, home := s.home)
      ensures |s.home| == |old(s.home)|
      ensures |s.db| == |old(s.db)|
    {
      hide Ready, Removable;
      RemoveStep(s, cr);
      RemovableIndex(s, cr);
      s := s.(db := Marked(s.db, cr), longs := Detached(s.longs, cr), bins := Detached(s.bins, cr),
              home := Evicted(s.home, cr));
    }

    // reduceDB, with an arbitrary choice among the clauses it may remove: learnt,
    // of three or more literals, not locked.
    method ReduceDb()
      requires Ready(s)
      modifies this`s
      ensures Ready(s) && s == old(s).(db := s.db, longs := s.longs, bins := s.bins, home := s.home)
      ensures |s.home| == |old(s.home)|
    {
      hide Ready, Base, TrailOK, Removable, Locked;
      ghost var s0 := s;
      for cr := 0 to |s.db|
        invariant Ready(s) && |s.db| == |s0.db|
        invariant s == s0.(db := s.db, longs := s.longs, bins := s.bins, home := s.home) && |s.home| == |s0.home|
      {
        var chosen: bool := *;
        if chosen && Live(s.db, cr) && s.db[cr].learnt && |s.db[cr].lits| > 2 {
          ReadyClause(s, cr);
          var locked := IsLocked(cr);
          if !locked {
            UnlockedRemovable(s, cr);
            RemoveClause(cr);
          }
        }
      }
    }

    method Satisfied(c: Clause) returns (b: bool)
      requires TrailOK(s.t, s.n) && InRange(c, s.n)
      ensures b ==> exists l :: l in c && IsTrue(s.t, l)
    {
      for i := 0 to |c| {
        assert c[i] in c;
        ValueIsPosition(s.t, s.n, c[i]);
        if ValueOf(s.t.assigns, c[i]) == True {
          return true;
        }
      }
      b := false;
    }

    // simplify: satisfied clauses may go at level 0.
    method Simplify()
      requires Ready(s) && |s.t.lims| == 0
      modifies this`s
      ensures Ready(s) && s == old(s).(db := s.db, longs := s.longs, bins := s.bins, home := s.home)
      ensures |s.home| == |old(s.home)|
    {
      hide Ready, Base, TrailOK, Removable, IsTrue;
      ghost var s0 := s;
      for cr := 0 to |s.db|
        invariant Ready(s) && |s.db| == |s0.db|
        invariant s == s0.(db := s.db, longs := s.longs, bins := s.bins, home := s.home) && |s.home| == |s0.home|
      {
        var chosen: bool := *;
        if chosen && Live(s.db, cr) {
          ReadyClause(s, cr);
          var sat := Satisfied(s.db[cr].lits);
          if sat {
            SatisfiedRemovable(s, cr);
            RemoveClause(cr);
          }
        }
      }
    }

    // pickBranchLit: any unassigned variable with any sign, or none if all
    // variables are assigned.
    method PickBranchLit() returns (found: bool, p: Lit)
      requires TrailOK(s.t, s.n)
      ensures found ==> p.v < s.n && |s.t.pos| == s.n && s.t.pos[p.v] == -1
      ensures !found ==> forall v :: 0 <= v < s.n ==> v < |s.t.pos| && s.t.pos[v] != -1
    {
      var sign: bool := *;
      var first: int := *;
      if 0 <= first < s.n && s.t.assigns[first] == Undef {
        return true, Lit(first, sign);
      }
      for v := 0 to s.n
        invariant forall x :: 0 <= x < v ==> s.t.pos[x] != -1
      {
        if s.t.assigns[v] == Undef {
          return true, Lit(v, sign);
        }
      }
      found, p := false, NO_LIT;
    }

    // search(nof_conflicts) without assumptions.  Every heuristic choice - when to
    // restart, which clauses to drop, what to decide - is arbitrary; mayRestart is false
    // for a run in which the averages never call for a restart.
    method Search(ccminMode: nat, mayRestart: bool) returns (result: LBool)
      requires Ready(s) && |s.t.lims| == 0 && |seen| == s.n && Clear(seen) && |s.home| == |s.f.clauses|
      requires Heeded(s, said, s.qhead)
      modifies this`s, this`seen, this`said
      ensures s.f == old(s.f) && s.n == old(s.n) && |s.home| == |s.f.clauses|
      ensures result == False ==> Unsatisfiable(s.f)
      ensures result == True ==> Models(TrueVars(s.t.lits), s.f) && forall v :: 0 <= v < s.n ==>
                v < |s.t.pos| && s.t.pos[v] != -1
      ensures !mayRestart ==> (result == True <==> !Unsatisfiable(s.f)) && (result == False <==> Unsatisfiable(s.f))
      ensures result == Undef ==>
                Ready(s) && |s.t.lims| == 0 && |seen| == s.n && Clear(seen) && Heeded(s, said, s.qhead)
    {
      hide Heeded, Shallower, LevelStart, Ready, Conflicted, ConflictOK, Base, TrailOK, TopNonEmpty, Ids, LearntOK,
           Clear, Fixpoint, Unsatisfiable, Models, Measure, Extends, Later, Learned;
      ghost var f0, n0 := s.f, s.n;
      while true
        invariant Ready(s) && s.f == f0 && s.n == n0 && |seen| == s.n && Clear(seen)
        invariant |s.home| == |s.f.clauses| && Heeded(s, said, s.qhead)
        decreases Measure(s.t, n0)
      {
        ghost var s1 := s;
        ReadyFacts(s);
        var confl := Propagate();
        LaterFields(s1, s);
        LaterExtends(s1, s);
        if confl != NoConflict {
          if |s.t.lims| == 0 {
            RootConflictUnsat(s, confl);
            return False;
          }
          ghost var s2 := s;
          TopOfConflicted(s, |s.t.lits|);
          var tryBinary: bool := *;
          var keep: bool := *;
          var learnt, btlevel;
          ghost var m, rest, marks, levels;
          learnt, btlevel, m, rest, marks, levels := Analyze(confl, ccminMode, tryBinary);
          HeededSame(s2, s, said, LevelStart(s.t));
          Backjump(learnt, btlevel, keep, m);
          ReadyFacts(s);
          TopFacts(s1);
          BackjumpProgress(s1.t, s2.t, s.t, n0, btlevel);
        } else {
          ReadyFacts(s);
          ghost var s2 := s;
          var restart: bool := *;
          if mayRestart && restart {
            if |s.t.lims| > 0 {
              FixpointCancellable(s);
              CancelUntil(0, |s.t.lits|, |s.t.lits|);
              HeededCancelled(s2, s, said, 0, |s2.t.lits|);
            }
            return Undef;
          }
          if |s.t.lims| == 0 {
            Simplify();
          }
          var reduce: bool := *;
          if reduce {
            ReduceDb();
          }
          HeededSame(s2, s, said, s.qhead);
          ReadyFacts(s);
          var found, next := PickBranchLit();
          if !found {
            FullTrailIsModel(s);
            ModelSatisfies(TrueVars(s.t.lits), s.f);
            return True;
          }
          Decide(next);
          ReadyFacts(s);
          TopFacts(s1);
          DecideProgress(s1.t, s2.t, s.t, n0);
        }
      }
    }
  }

  lemma ModelSatisfies(a: Assignment, f: Formula)
    requires Models(a, f)
    ensures !Unsatisfiable(f)
  {
  }

  lemma NoConflictOK(s: State)
    ensures ConflictOK(s, NoConflict)
  {
  }

  // Draining the queue does not touch what the conflict is about.
  lemma ConflictKept(s: State, pending: seq<int>, c: Conflict)
    requires ConflictOK(s, c)
    ensures ConflictOK(s.(qhead := |s.t.lits|, pending := pending), c)
  {
  }

  lemma PendingOfFailing(s: State, ex: Lit, todo: set<nat>, rest: seq<nat>, low: nat)
    requires Failing(s, ex, todo, rest, low)
    ensures s.qhead <= |s.t.lits| && PendingPlus(s.cw, s.pending, s.t.lits[s.qhead..], rest)
    ensures |s.pending| == |s.f.constraints|
  {
  }

  lemma LaterSelf(s: State)
    ensures Later(s, s)
  {
  }

  lemma LaterFields(s: State, u: State)
    requires Later(s, u)
    ensures u.n == s.n && u.cw == s.cw && u.f == s.f && u.home == s.home && |s.t.lits| <= |u.t.lits|
  {
  }

  lemma LaterDrained(s: State, u: State, pending: seq<int>)
    requires Later(s, u)
    ensures Later(s, u.(qhead := |u.t.lits|, pending := pending))
  {
  }

  lemma LaterQhead(s: State, u: State, q: nat)
    requires Later(s, u)
    ensures Later(s, u.(qhead := q))
  {
  }

  lemma PoppedRange(s: State, undo: seq<seq<nat>>, log: seq<seq<Lit>>, i: nat)
    requires PoppedMid(s, undo, log, i) && i < |s.t.lits|
    ensures |undo| == s.n && s.t.lits[i].v < s.n
  {
    assert s.t.lits[i] in s.t.lits;
  }

  lemma CancellableFacts(s: State, bound: nat, m: nat)
    requires Cancellable(s, bound, m)
    ensures Base(s) && TrailOK(s.t, s.n) && Sizes(s.t, s.n) && PoppedTo(s, s.undo, s.log, |s.t.lits|)
  {
    hide Watched, Sound, Told, Settled, PendingOK, UndoOK, ToldReasons, TrailOK, PoppedTo;
    NothingPopped(s);
  }

  lemma CutSizes(t: Trail, n: nat, m: nat)
    requires TrailOK(t, n) && m <= |t.lits|
    ensures |Cut(t, m).assigns| == n && |Cut(t, m).pos| == n
  {
  }

  lemma CutCancelled(t: Trail, n: nat, level: nat)
    requires TrailOK(t, n) && level < |t.lims|
    ensures t.lims[level] <= |t.lits|
    ensures var m := t.lims[level];
            Cancelled(t, level) == t.(assigns := Cut(t, m).assigns, pos := Cut(t, m).pos, lits := t.lits[..m],
                                      lims := t.lims[..level])
  {
  }

  lemma ConflictedSizes(s: State, m: nat)
    requires Conflicted(s, m)
    ensures |s.undo| == s.n
  {
  }

  lemma UipRange(s: State, m: nat, seen: seq<bool>, p: Lit, low: set<Lit>, rest: seq<Lit>)
    requires Conflicted(s, m) && Uip(s, seen, p, low, rest)
    ensures |s.t.vardata| == s.n && InRange(rest, s.n) && p.v < s.n
  {
    hide Conflicted, Base, Refuted, RootOK, ClauseOK, Entails, Collected, LevelStart, TrailOK;
    ConflictedFacts(s, m);
    forall q | q in rest ensures q.v < s.n {
      CollectedAt(rest, low, q);
    }
  }

  lemma ExpandableClause(s: State, m: nat, l: Lit)
    requires Conflicted(s, m) && Expandable(s, l)
    ensures l.v < |s.t.vardata| && s.t.vardata[l.v].reason.ByClause?
    ensures Live(s.db, s.t.vardata[l.v].reason.cr) && InRange(s.db[s.t.vardata[l.v].reason.cr].lits, s.n)
  {
    hide Conflicted, Base, TrailOK, RootOK, Entails, IsTrue;
    ExpandableReason(s, m, l);
    ConflictedFacts(s, m);
  }

  lemma ShortenedShape(s1: State, s: State, m: nat, seen: seq<bool>, p: Lit, low: set<Lit>, rest: seq<Lit>,
                       out: seq<Lit>)
    requires Uip(s1, seen, p, low, rest) && s == s1.(db := s.db) && Conflicted(s, m) && |s.t.lims| > 0
    requires Shortened(s, p, rest, out)
    ensures LearntShape(s, [Neg(p)] + out) && Entails(s.f, [Neg(p)] + out)
  {
    hide Conflicted, LearntShape, Entails, Marks, Collected, Refuted, Current, NoDup;
    assert Uip(s, seen, p, low, rest);
    SelectionShape(s, m, seen, p, low, rest, out);
  }

  lemma LearntFacts(s: State, m: nat, c: Clause, level: nat)
    requires Conflicted(s, m) && LearntOK(s, c, level) && |s.t.lims| > 0
    ensures Base(s) && level < |s.t.lims| && s.t.lims[level] <= |s.t.lits| && |s.t.pos| == |s.t.assigns|
    ensures |c| >= 1 && InRange(c, s.n) && Entails(s.f, c) && DistinctVars(c) && Current(s.t, Neg(c[0]))
    ensures forall q :: q in c ==> IsFalse(s.t, q)
    ensures forall x :: 1 <= x < |c| ==> Level(s.t, c[x]) <= level
    ensures |c| > 1 ==> Level(s.t, c[1]) == level && 0 < level
    ensures |c| == 1 ==> level == 0
  {
    hide Conflicted, TrailOK, RootOK, ClauseOK, Entails, IsTrue, Watched, Sound, Told, DistinctVars;
    ConflictedFacts(s, m);
    ShapeDistinct(s, c);
  }

  lemma UnitMayEnqueueAtRoot(s: State, p: Lit)
    requires |s.t.lims| == 0 && p.v < s.n && |s.t.pos| == s.n && s.t.pos[p.v] == -1 && Entails(s.f, [p])
    ensures MayEnqueue(s, p, NoReason) && TellsWhy(s, p, NoReason)
  {
  }

  lemma ReadyIs(s: State)
    requires Ready(s)
    ensures Propagating(s, NO_LIT, {}, [], s.qhead, s.qhead)
  {
  }

  lemma ReadyAgain(s: State, q: nat)
    requires Propagating(s, NO_LIT, {}, [], q, q) && s.qhead == q
    ensures Ready(s)
  {
  }

  lemma RemovableIndex(s: State, cr: nat)
    requires Removable(s, cr)
    ensures cr < |s.db|
  {
  }

  lemma ReadyClause(s: State, cr: nat)
    requires Ready(s) && Live(s.db, cr)
    ensures TrailOK(s.t, s.n) && InRange(s.db[cr].lits, s.n) && |s.db[cr].lits| >= 2 && s.db[cr].lits[0].v < s.n
  {
    hide TrailOK, WatchMapOK, Sound, Told, Settled, PendingPlus, QuietOrPending, UndoOK, Idle, ToldReasons;
    assert ClauseOK(s.db[cr].lits, s.n);
    assert s.db[cr].lits[0] in s.db[cr].lits;
  }

  lemma UnlockedRemovable(s: State, cr: nat)
    requires Live(s.db, cr) && s.db[cr].learnt && |s.db[cr].lits| > 2 && !Locked(s.t, s.db, cr)
    ensures Removable(s, cr)
  {
  }

  lemma SatisfiedRemovable(s: State, cr: nat)
    requires Live(s.db, cr) && |s.t.lims| == 0 && exists l :: l in s.db[cr].lits && IsTrue(s.t, l)
    ensures Removable(s, cr)
  {
    var l :| l in s.db[cr].lits && IsTrue(s.t, l);
    assert Root(s.t, l);
  }

  lemma LaterExtends(s: State, u: State)
    requires Later(s, u)
    ensures Extends(s.t, u.t)
  {
  }

  lemma TopFacts(s: State)
    requires Ready(s)
    ensures |s.t.lims| > 0 ==> s.t.lims[|s.t.lims| - 1] < |s.t.lits|
  {
    hide TrailOK, Watched, Sound, Told, Settled, PendingPlus, QuietOrPending, UndoOK, Idle, ToldReasons;
  }

  lemma TopOfConflicted(s: State, m: nat)
    requires Conflicted(s, m)
    ensures forall j :: 0 <= j < |s.t.lims| ==> s.t.lims[j] <= |s.t.lits|
  {
    hide TrailOK, Watched, Sound, Told, Settled, PendingOK, UndoOK, Idle, ToldReasons;
  }
}
