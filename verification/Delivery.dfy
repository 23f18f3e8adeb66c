// How non-clausal constraints hear about the trail: constr_watches, the
// num_pending_propagation_ counters and the undo lists.  log[k] is the stack of
// literals delivered to constraint k and not yet undone, which is all its
// private state may depend on.
module Delivery {
  import opened Logic
  import opened Contracts
  import opened Trails

  type ConstrWatches = map<Lit, seq<nat>>

  function Cw(cw: ConstrWatches, p: Lit): seq<nat> {
    if p in cw then cw[p] else []
  }

  ghost predicate Ids(ks: seq<nat>, m: nat) {
    forall k :: k in ks ==> k < m
  }

  ghost predicate WatchListsOK(cw: ConstrWatches, cons: seq<Constraint>, n: nat) {
    && (forall p: Lit :: p.v < n ==> p in cw)
    && (forall p: Lit, k :: k in Cw(cw, p) ==> k < |cons|)
    && (forall p: Lit, k :: k in Cw(cw, p) && k < |cons| ==> p in cons[k].watched)
    && (forall k, p :: 0 <= k < |cons| && p in cons[k].watched ==> p.v < n && k in Cw(cw, p))
    && (forall p: Lit :: NoDup(Cw(cw, p)))
  }

  // --------------------------------------------------------- pending counters

  // How often constraint k watches a literal of the queue.
  ghost function Occ(cw: ConstrWatches, queue: seq<Lit>, k: nat): nat {
    if queue == [] then 0 else multiset(Cw(cw, queue[0]))[k] + Occ(cw, queue[1..], k)
  }

  lemma {:induction false} OccAppend(cw: ConstrWatches, queue: seq<Lit>, p: Lit, k: nat)
    ensures Occ(cw, queue + [p], k) == Occ(cw, queue, k) + multiset(Cw(cw, p))[k]
  {
    if queue == [] {
      assert queue + [p] == [p];
      assert [p][1..] == [];
    } else {
      OccAppend(cw, queue[1..], p, k);
      assert (queue + [p])[1..] == queue[1..] + [p];
    }
  }

  lemma {:induction false} OccMember(cw: ConstrWatches, queue: seq<Lit>, k: nat, l: Lit)
    requires l in queue && k in Cw(cw, l)
    ensures Occ(cw, queue, k) > 0
  {
    if queue[0] != l {
      OccMember(cw, queue[1..], k, l);
    }
  }

  ghost predicate PendingOK(cw: ConstrWatches, pending: seq<int>, queue: seq<Lit>) {
    forall k :: 0 <= k < |pending| ==> pending[k] == Occ(cw, queue, k)
  }

  // In the middle of telling the constraints of rest about a literal.
  ghost predicate PendingPlus(cw: ConstrWatches, pending: seq<int>, queue: seq<Lit>, rest: seq<nat>) {
    forall k :: 0 <= k < |pending| ==> pending[k] == Occ(cw, queue, k) + multiset(rest)[k]
  }

  // ------------------------------------------------------------- undo and log

  ghost function Repeat(p: Lit, c: nat): seq<Lit> {
    if c == 0 then [] else Repeat(p, c - 1) + [p]
  }

  // What the undo lists say constraint k has been told and not yet untold.
  ghost function LogOf(undo: seq<seq<nat>>, lits: seq<Lit>, k: nat): seq<Lit>
    requires InRange(lits, |undo|)
  {
    if lits == [] then []
    else var p := lits[|lits| - 1];
         assert p in lits;
         LogOf(undo, lits[..|lits| - 1], k) + Repeat(p, multiset(undo[p.v])[k])
  }

  // What constraint k has been told once every literal of the trail has been
  // delivered: a function of the trail alone.
  ghost function Delivered(cw: ConstrWatches, lits: seq<Lit>, k: nat): seq<Lit> {
    if lits == [] then []
    else var p := lits[|lits| - 1];
         Delivered(cw, lits[..|lits| - 1], k) + Repeat(p, multiset(Cw(cw, p))[k])
  }

  // What a constraint has heard when the literals of ls that it watches have
  // been delivered.
  function Heard(ls: seq<Lit>, watched: set<Lit>): seq<Lit> {
    if ls == [] then []
    else Heard(ls[..|ls| - 1], watched) + if ls[|ls| - 1] in watched then [ls[|ls| - 1]] else []
  }

  ghost predicate LogOK(undo: seq<seq<nat>>, log: seq<seq<Lit>>, lits: seq<Lit>) {
    && InRange(lits, |undo|)
    && (forall k :: 0 <= k < |log| ==> log[k] == LogOf(undo, lits, k))
  }

  ghost predicate UndoIds(undo: seq<seq<nat>>, m: nat) {
    forall v, x :: 0 <= v < |undo| && x in undo[v] ==> x < m
  }

  // Unassigned variables owe no undo.
  ghost predicate NoUndo(undo: seq<seq<nat>>, t: Trail) {
    |undo| == |t.pos| && forall v :: 0 <= v < |undo| && t.pos[v] == -1 ==> undo[v] == []
  }

  // Only constraints that watch a literal owe it an undo, and one each.
  ghost predicate UndoWatched(undo: seq<seq<nat>>, cw: ConstrWatches, lits: seq<Lit>) {
    && InRange(lits, |undo|)
    && (forall i, k :: 0 <= i < |lits| && k in undo[lits[i].v] ==> k in Cw(cw, lits[i]))
    && (forall i :: 0 <= i < |lits| ==> NoDup(undo[lits[i].v]))
  }

  // The first low literals have been delivered completely.
  ghost predicate UndoOK(undo: seq<seq<nat>>, cw: ConstrWatches, lits: seq<Lit>, low: nat) {
    && InRange(lits, |undo|)
    && (forall i :: 0 <= i < |lits| && i < low ==> undo[lits[i].v] == Cw(cw, lits[i]))
  }

  // No literal from position m on owes an undo.
  ghost predicate Idle(undo: seq<seq<nat>>, lits: seq<Lit>, m: int) {
    && InRange(lits, |undo|)
    && forall i :: 0 <= i < |lits| && m <= i ==> undo[lits[i].v] == []
  }

  lemma {:induction false} LogIdle(undo: seq<seq<nat>>, lits: seq<Lit>, m: nat, k: nat)
    requires InRange(lits, |undo|) && m <= |lits| && Idle(undo, lits, m)
    ensures InRange(lits[..m], |undo|)
    ensures LogOf(undo, lits, k) == LogOf(undo, lits[..m], k)
  {
    if m < |lits| {
      var front := lits[..|lits| - 1];
      LogIdle(undo, front, m, k);
      assert front[..m] == lits[..m];
    } else {
      assert lits[..m] == lits;
    }
  }

  lemma {:induction false} LogLocal(undo: seq<seq<nat>>, other: seq<seq<nat>>, lits: seq<Lit>, k: nat)
    requires |undo| == |other| && InRange(lits, |undo|)
    requires forall l :: l in lits ==> undo[l.v] == other[l.v]
    ensures LogOf(undo, lits, k) == LogOf(other, lits, k)
  {
    if lits != [] {
      assert lits[|lits| - 1] in lits;
      LogLocal(undo, other, lits[..|lits| - 1], k);
    }
  }

  lemma {:induction false} LogDelivered(undo: seq<seq<nat>>, cw: ConstrWatches, lits: seq<Lit>, k: nat)
    requires InRange(lits, |undo|)
    requires forall l :: l in lits ==> undo[l.v] == Cw(cw, l)
    ensures LogOf(undo, lits, k) == Delivered(cw, lits, k)
  {
    if lits != [] {
      assert lits[|lits| - 1] in lits;
      LogDelivered(undo, cw, lits[..|lits| - 1], k);
    }
  }

  lemma LogSplit(undo: seq<seq<nat>>, t: Trail, n: nat, i: nat, k: nat)
    requires TrailOK(t, n) && |undo| == n && i < |t.lits| && Idle(undo, t.lits, i + 1)
    ensures InRange(t.lits[..i], n)
    ensures LogOf(undo, t.lits, k) == LogOf(undo, t.lits[..i], k) + Repeat(t.lits[i], multiset(undo[t.lits[i].v])[k])
  {
    LogIdle(undo, t.lits, i + 1, k);
    assert t.lits[..i + 1][..i] == t.lits[..i];
  }

  // Changing the undo list of the last literal that may owe an undo changes the
  // logs at their ends only.
  lemma LogChange(undo: seq<seq<nat>>, us: seq<nat>, t: Trail, n: nat, i: nat, k: nat)
    requires TrailOK(t, n) && |undo| == n && i < |t.lits| && Idle(undo, t.lits, i + 1)
    ensures InRange(t.lits[..i], n)
    ensures LogOf(undo, t.lits, k) == LogOf(undo, t.lits[..i], k) + Repeat(t.lits[i], multiset(undo[t.lits[i].v])[k])
    ensures LogOf(undo[t.lits[i].v := us], t.lits, k)
         == LogOf(undo, t.lits[..i], k) + Repeat(t.lits[i], multiset(us)[k])
  {
    hide TrailOK, Idle, LogOf, Repeat, InRange;
    IdleSame(undo, us, t, n, i);
    var u := undo[t.lits[i].v := us];
    LogSplit(undo, t, n, i, k);
    LogSplit(u, t, n, i, k);
    LogLocal(undo, u, t.lits[..i], k);
  }

  lemma IdleSame(undo: seq<seq<nat>>, us: seq<nat>, t: Trail, n: nat, i: nat)
    requires TrailOK(t, n) && |undo| == n && i < |t.lits| && Idle(undo, t.lits, i + 1)
    ensures t.lits[i].v < n && Idle(undo[t.lits[i].v := us], t.lits, i + 1)
    ensures forall l :: l in t.lits[..i] ==> l.v < n && undo[l.v] == undo[t.lits[i].v := us][l.v]
  {
    forall j | 0 <= j < |t.lits| && j != i ensures t.lits[j].v != t.lits[i].v {
      assert t.pos[t.lits[j].v] == j;
    }
  }

  // registerUndo and propagate for the last literal that may owe an undo.
  lemma DeliverLog(undo: seq<seq<nat>>, log: seq<seq<Lit>>, t: Trail, n: nat, i: nat, k: nat)
    requires TrailOK(t, n) && |undo| == n && i < |t.lits| && k < |log|
    requires LogOK(undo, log, t.lits) && Idle(undo, t.lits, i + 1)
    ensures var p := t.lits[i];
            LogOK(undo[p.v := undo[p.v] + [k]], log[k := log[k] + [p]], t.lits)
  {
    hide TrailOK, Idle, LogOf;
    var p := t.lits[i];
    assert p in t.lits;
    var us: seq<nat> := undo[p.v] + [k];
    var u, g := undo[p.v := us], log[k := log[k] + [p]];
    forall x: nat | x < |g| ensures g[x] == LogOf(u, t.lits, x) {
      LogChange(undo, us, t, n, i, x);
      if x == k {
        assert Repeat(p, multiset(us)[x]) == Repeat(p, multiset(undo[p.v])[x]) + [p];
      } else {
        assert multiset(us)[x] == multiset(undo[p.v])[x];
      }
    }
  }

  // One step of undoing literal i: the constraint that was told last is untold
  // first, and the literal it forgets is the last one it heard.
  lemma UndoLog(undo: seq<seq<nat>>, log: seq<seq<Lit>>, t: Trail, n: nat, i: nat)
    requires TrailOK(t, n) && |undo| == n && i < |t.lits| && LogOK(undo, log, t.lits) && UndoIds(undo, |log|)
    requires Idle(undo, t.lits, i + 1) && t.lits[i].v < n && undo[t.lits[i].v] != []
    ensures var p := t.lits[i];
            var us: seq<nat> := undo[p.v];
            var k := us[|us| - 1];
            k < |log| && |log[k]| > 0 && log[k][|log[k]| - 1] == p
            && LogOK(undo[p.v := us[..|us| - 1]], log[k := log[k][..|log[k]| - 1]], t.lits)
  {
    hide TrailOK, Idle, LogOf;
    var p := t.lits[i];
    var us: seq<nat> := undo[p.v];
    var k := us[|us| - 1];
    var less: seq<nat> := us[..|us| - 1];
    assert k in us;
    assert us == less + [k];
    assert multiset(us) == multiset(less) + multiset{k};
    LogChange(undo, less, t, n, i, k);
    assert Repeat(p, multiset(us)[k]) == Repeat(p, multiset(less)[k]) + [p];
    var u, g := undo[p.v := less], log[k := log[k][..|log[k]| - 1]];
    forall x: nat | x < |g| ensures g[x] == LogOf(u, t.lits, x) {
      LogChange(undo, less, t, n, i, x);
      if x != k {
        assert multiset(us)[x] == multiset(less)[x];
      }
    }
  }

  lemma {:induction false} LogMember(undo: seq<seq<nat>>, lits: seq<Lit>, k: nat, l: Lit)
    requires InRange(lits, |undo|)
    ensures l in LogOf(undo, lits, k) <==> l in lits && l.v < |undo| && k in undo[l.v]
  {
    if lits != [] {
      var p := lits[|lits| - 1];
      var front := lits[..|lits| - 1];
      assert p in lits;
      assert lits == front + [p];
      LogMember(undo, front, k, l);
      RepeatMember(p, multiset(undo[p.v])[k], l);
    }
  }

  lemma {:induction false} RepeatMember(p: Lit, c: nat, l: Lit)
    ensures l in Repeat(p, c) <==> c > 0 && l == p
  {
    if c > 0 {
      RepeatMember(p, c - 1, l);
    }
  }

  lemma RepeatSmall(p: Lit)
    ensures Repeat(p, 1) == [p] && Repeat(p, 0) == []
  {
    assert Repeat(p, 1) == Repeat(p, 0) + [p];
  }

  lemma {:induction false} NoDupCount(s: seq<nat>, k: nat)
    requires NoDup(s)
    ensures multiset(s)[k] <= 1
  {
    if s != [] {
      var less := s[..|s| - 1];
      NoDupCount(less, k);
      assert s == less + [s[|s| - 1]];
      assert s[|s| - 1] !in multiset(less);
    }
  }

  // A constraint is told each literal once.
  lemma {:induction false} LogNoDup(undo: seq<seq<nat>>, lits: seq<Lit>, k: nat)
    requires InRange(lits, |undo|) && NoDup(lits) && forall l :: l in lits ==> NoDup(undo[l.v])
    ensures NoDup(LogOf(undo, lits, k))
  {
    if lits != [] {
      var p, front := lits[|lits| - 1], lits[..|lits| - 1];
      assert p in lits;
      LogNoDup(undo, front, k);
      NoDupCount(undo[p.v], k);
      LogMember(undo, front, k, p);
      assert Repeat(p, 0) == [] && Repeat(p, 1) == Repeat(p, 0) + [p];
    }
  }

  // ------------------------------------------------------ reasons and the log

  // Each of the first m literals above level 0 that a constraint implied still follows
  // from what that constraint has been told about the literals before it.
  ghost predicate ToldReasons(t: Trail, undo: seq<seq<nat>>, cons: seq<Constraint>, m: int) {
    forall i :: 0 <= i < |t.lits| && i < m ==> ToldReason(t, undo, cons, i)
  }

  ghost predicate ToldReason(t: Trail, undo: seq<seq<nat>>, cons: seq<Constraint>, i: nat)
    requires i < |t.lits|
  {
    && t.lits[i].v < |t.vardata|
    && InRange(t.lits[..i], |undo|)
    && var r := t.vardata[t.lits[i].v].reason;
    r.ByConstraint? && RootEnd(t) <= i ==>
      r.k < |cons| && Can(cons[r.k], LogOf(undo, t.lits[..i], r.k), t.lits[..i], t.lits[i], r.kept)
  }

  // Being told more keeps the reasons.
  lemma ToldGrows(t: Trail, undo: seq<seq<nat>>, more: seq<seq<nat>>, cons: seq<Constraint>, m: int)
    requires ToldReasons(t, undo, cons, m) && |undo| == |more|
    requires forall k :: 0 <= k < |cons| ==> Steady(cons[k])
    requires forall v, k :: 0 <= v < |undo| && k in undo[v] ==> k in more[v]
    ensures ToldReasons(t, more, cons, m)
  {
    forall i | 0 <= i < |t.lits| && i < m ensures ToldReason(t, more, cons, i) {
      assert ToldReason(t, undo, cons, i);
      var r := t.vardata[t.lits[i].v].reason;
      if r.ByConstraint? && RootEnd(t) <= i {
        var few, many := LogOf(undo, t.lits[..i], r.k), LogOf(more, t.lits[..i], r.k);
        forall l | l in few ensures l in many {
          LogMember(undo, t.lits[..i], r.k, l);
          LogMember(more, t.lits[..i], r.k, l);
        }
        CanMore(cons[r.k], few, many, t.lits[..i], t.lits[..i], t.lits[i], r.kept);
      }
    }
  }

  // Undoing later literals keeps the reasons of earlier ones.
  lemma ToldShrinks(t: Trail, n: nat, undo: seq<seq<nat>>, less: seq<seq<nat>>, cons: seq<Constraint>, m: int)
    requires TrailOK(t, n) && |undo| == |less| == n && ToldReasons(t, undo, cons, m + 1)
    requires forall i :: 0 <= i < |t.lits| && i < m ==> undo[t.lits[i].v] == less[t.lits[i].v]
    ensures ToldReasons(t, less, cons, m + 1)
  {
    forall i | 0 <= i < |t.lits| && i < m + 1 ensures ToldReason(t, less, cons, i) {
      assert ToldReason(t, undo, cons, i);
      var r := t.vardata[t.lits[i].v].reason;
      if r.ByConstraint? {
        forall l | l in t.lits[..i] ensures undo[l.v] == less[l.v] {
          var j :| 0 <= j < i && t.lits[j] == l;
        }
        LogLocal(undo, less, t.lits[..i], r.k);
      }
    }
  }

  lemma ToldShrinksBelow(t: Trail, n: nat, undo: seq<seq<nat>>, less: seq<seq<nat>>, cons: seq<Constraint>, m: nat)
    requires TrailOK(t, n) && |undo| == |less| == n && ToldReasons(t, undo, cons, m)
    requires forall i :: 0 <= i < |t.lits| && i < m ==> undo[t.lits[i].v] == less[t.lits[i].v]
    ensures ToldReasons(t, less, cons, m)
  {
    if m > 0 {
      ToldShrinks(t, n, undo, less, cons, m - 1);
    }
  }

  lemma EnqueueTold(t: Trail, n: nat, undo: seq<seq<nat>>, log: seq<seq<Lit>>, cons: seq<Constraint>, p: Lit, r: Reason)
    requires TrailOK(t, n) && |undo| == n && p.v < n && t.pos[p.v] == -1
    requires ToldReasons(t, undo, cons, |t.lits|) && LogOK(undo, log, t.lits)
    requires r.ByConstraint? && |t.lims| > 0 ==>
               r.k < |cons| && r.k < |log| && Can(cons[r.k], log[r.k], t.lits, p, r.kept)
    ensures ToldReasons(Enqueued(t, p, r), undo, cons, |t.lits| + 1)
  {
    var u := Enqueued(t, p, r);
    forall i | 0 <= i < |u.lits| ensures ToldReason(u, undo, cons, i) {
      assert u.lits[..i] == t.lits[..i];
      if i < |t.lits| {
        assert ToldReason(t, undo, cons, i);
        assert t.pos[t.lits[i].v] == i;
      } else {
        assert t.lits[..i] == t.lits;
      }
    }
  }

  lemma CancelTold(t: Trail, n: nat, undo: seq<seq<nat>>, cons: seq<Constraint>, level: nat)
    requires TrailOK(t, n) && level < |t.lims| && ToldReasons(t, undo, cons, t.lims[level])
    ensures ToldReasons(Cancelled(t, level), undo, cons, t.lims[level])
  {
    var u := Cancelled(t, level);
    forall i | 0 <= i < |u.lits| ensures ToldReason(u, undo, cons, i) {
      assert ToldReason(t, undo, cons, i);
      assert u.lits[..i] == t.lits[..i];
    }
  }

  // ------------------------------------------------------------ quiet levels

  ghost predicate QuietAt(cons: seq<Constraint>, lits: seq<Lit>) {
    forall k :: 0 <= k < |cons| ==> Content(cons[k], lits)
  }

  // Every completed level left all constraints with nothing to object to.
  ghost predicate LevelsQuiet(cons: seq<Constraint>, t: Trail) {
    forall j :: 0 <= j < |t.lims| && t.lims[j] <= |t.lits| ==> QuietAt(cons, t.lits[..t.lims[j]])
  }

  ghost predicate QuietOrPending(cons: seq<Constraint>, pending: seq<int>, lits: seq<Lit>)
    requires |pending| == |cons|
  {
    forall k :: 0 <= k < |cons| && pending[k] == 0 ==> Content(cons[k], lits)
  }

  // The same for the first m constraints.
  ghost predicate QuietUpTo(cons: seq<Constraint>, pending: seq<int>, lits: seq<Lit>, m: nat)
    requires |pending| == |cons|
  {
    forall k :: 0 <= k < |cons| && k < m && pending[k] == 0 ==> Content(cons[k], lits)
  }

  // addNumPendingPropagation(p, inc) with inc one of 1 and -1.
  ghost predicate Bumped(before: seq<int>, after: seq<int>, ks: seq<nat>, inc: int) {
    && |after| == |before|
    && forall k :: 0 <= k < |before| ==>
         after[k] == if inc == 1 then before[k] + multiset(ks)[k] else before[k] - multiset(ks)[k]
  }

  lemma EnqueuePending(cw: ConstrWatches, cons: seq<Constraint>, n: nat, before: seq<int>, after: seq<int>,
                       queue: seq<Lit>, rest: seq<nat>, lits: seq<Lit>, p: Lit)
    requires WatchListsOK(cw, cons, n) && |before| == |cons|
    requires PendingPlus(cw, before, queue, rest) && Bumped(before, after, Cw(cw, p), 1)
    requires forall k :: 0 <= k < |cons| ==> Steady(cons[k])
    ensures PendingPlus(cw, after, queue + [p], rest)
    ensures forall m: nat :: QuietUpTo(cons, before, lits, m) ==> QuietUpTo(cons, after, lits + [p], m)
    ensures QuietOrPending(cons, before, lits) ==> QuietOrPending(cons, after, lits + [p])
  {
    forall k: nat | k < |after| ensures after[k] == Occ(cw, queue + [p], k) + multiset(rest)[k] {
      OccAppend(cw, queue, p, k);
    }
    forall k | 0 <= k < |cons| && after[k] == 0 && before[k] == 0 && Content(cons[k], lits)
      ensures Content(cons[k], lits + [p])
    {
      assert k !in Cw(cw, p);
      ContentGrows(cons[k], lits, lits + [p]);
    }
    forall k | 0 <= k < |cons| && after[k] == 0 ensures before[k] == 0 {
      assert before[k] >= 0;
    }
  }

  // -------------------------------------------------- moving along the trail

  lemma EnqueueLog(undo: seq<seq<nat>>, log: seq<seq<Lit>>, t: Trail, n: nat, p: Lit, r: Reason)
    requires TrailOK(t, n) && p.v < n && t.pos[p.v] == -1 && NoUndo(undo, t) && LogOK(undo, log, t.lits)
    ensures NoUndo(undo, Enqueued(t, p, r)) && LogOK(undo, log, t.lits + [p])
    ensures forall cw :: UndoWatched(undo, cw, t.lits) ==> UndoWatched(undo, cw, t.lits + [p])
  {
    assert undo[p.v] == [];
    forall k | 0 <= k < |log| ensures log[k] == LogOf(undo, t.lits + [p], k) {
      assert (t.lits + [p])[..|t.lits|] == t.lits;
      assert Repeat(p, multiset(undo[p.v])[k]) == [];
    }
  }

  lemma EnqueueUndo(undo: seq<seq<nat>>, cw: ConstrWatches, t: Trail, n: nat, p: Lit, low: nat, idle: nat)
    requires TrailOK(t, n) && p.v < n && t.pos[p.v] == -1 && NoUndo(undo, t)
    requires UndoOK(undo, cw, t.lits, low) && Idle(undo, t.lits, idle) && low <= |t.lits|
    ensures UndoOK(undo, cw, t.lits + [p], low) && Idle(undo, t.lits + [p], idle)
  {
  }

  lemma EnqueueQuiet(cons: seq<Constraint>, t: Trail, n: nat, p: Lit, r: Reason)
    requires TrailOK(t, n) && p.v < n && LevelsQuiet(cons, t)
    ensures LevelsQuiet(cons, Enqueued(t, p, r))
  {
    forall j | 0 <= j < |t.lims| ensures QuietAt(cons, (t.lits + [p])[..t.lims[j]]) {
      assert (t.lits + [p])[..t.lims[j]] == t.lits[..t.lims[j]];
    }
  }

  lemma CancelQuiet(cons: seq<Constraint>, t: Trail, n: nat, level: nat)
    requires TrailOK(t, n) && LevelsQuiet(cons, t) && level < |t.lims|
    ensures LevelsQuiet(cons, Cancelled(t, level))
    ensures QuietAt(cons, Cancelled(t, level).lits)
  {
    var u := Cancelled(t, level);
    forall j | 0 <= j < level ensures QuietAt(cons, u.lits[..u.lims[j]]) {
      assert t.lims[j] < t.lims[level];
      assert u.lits[..u.lims[j]] == t.lits[..t.lims[j]];
    }
  }
}
