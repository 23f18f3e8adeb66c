// The assignment trail of core/Solver.h: assigns, vardata, trail and trail_lim.
module Trails {
  import opened Logic

  datatype Reason = NoReason | ByClause(cr: nat) | ByConstraint(k: nat, kept: seq<Lit>)
  datatype VarData = VarData(reason: Reason, level: nat)

  // pos is specification only: where on the trail a variable sits, -1 if it is
  // unassigned.
  datatype Trail = Trail(assigns: seq<LBool>, vardata: seq<VarData>, pos: seq<int>,
                         lits: seq<Lit>, lims: seq<nat>)

  // core/Solver.h value(Lit): assigns[var(p)] ^ sign(p).
  function ValueOf(assigns: seq<LBool>, l: Lit): LBool
    requires l.v < |assigns|
  {
    match assigns[l.v]
    case Undef => Undef
    case True => if l.sign then False else True
    case False => if l.sign then True else False
  }

  // value(Lit) seen from outside: what the trail says about a literal.
  function Value(lits: seq<Lit>, l: Lit): LBool {
    if l in lits then True else if Neg(l) in lits then False else Undef
  }

  function Sat(l: Lit): LBool {
    if l.sign then False else True
  }

  ghost predicate InRange(c: seq<Lit>, n: nat) {
    forall l :: l in c ==> l.v < n
  }

  ghost predicate LevelOK(lims: seq<nat>, i: nat, lev: nat) {
    && lev <= |lims|
    && (lev > 0 ==> lims[lev - 1] <= i)
    && (lev < |lims| ==> i < lims[lev])
  }

  ghost predicate Ascending(lims: seq<nat>) {
    forall i, j :: 0 <= i < j < |lims| ==> lims[i] < lims[j]
  }

  ghost predicate Sizes(t: Trail, n: nat) {
    |t.assigns| == n && |t.vardata| == n && |t.pos| == n
  }

  ghost predicate TrailOK(t: Trail, n: nat) {
    && Sizes(t, n)
    && (forall i :: 0 <= i < |t.lits| ==>
          t.lits[i].v < n && t.pos[t.lits[i].v] == i && t.assigns[t.lits[i].v] == Sat(t.lits[i]))
    && (forall v :: 0 <= v < n ==>
          || (t.pos[v] == -1 && t.assigns[v] == Undef)
          || (0 <= t.pos[v] < |t.lits| && t.lits[t.pos[v]].v == v))
    && Ascending(t.lims)
    && (forall j :: 0 <= j < |t.lims| ==> t.lims[j] <= |t.lits|)
    && (forall i :: 0 <= i < |t.lits| ==> LevelOK(t.lims, i, t.vardata[t.lits[i].v].level))
  }

  ghost predicate IsTrue(t: Trail, l: Lit) {
    l.v < |t.pos| && 0 <= t.pos[l.v] < |t.lits| && t.lits[t.pos[l.v]] == l
  }

  ghost predicate IsFalse(t: Trail, l: Lit) {
    IsTrue(t, Neg(l))
  }

  ghost predicate TrueBefore(t: Trail, l: Lit, i: int) {
    IsTrue(t, l) && t.pos[l.v] < i
  }

  ghost function Level(t: Trail, l: Lit): nat {
    if l.v < |t.vardata| then t.vardata[l.v].level else 0
  }

  // The end of the level-0 part of the trail.
  ghost function RootEnd(t: Trail): nat {
    if |t.lims| == 0 then |t.lits| else t.lims[0]
  }

  ghost function LevelStart(t: Trail): nat {
    if |t.lims| == 0 then 0 else t.lims[|t.lims| - 1]
  }

  lemma ValueIsPosition(t: Trail, n: nat, l: Lit)
    requires TrailOK(t, n) && l.v < n
    ensures ValueOf(t.assigns, l) == True <==> IsTrue(t, l)
    ensures ValueOf(t.assigns, l) == False <==> IsFalse(t, l)
    ensures ValueOf(t.assigns, l) == Undef <==> t.pos[l.v] == -1
  {
  }

  lemma ValueIsMembership(t: Trail, n: nat, l: Lit)
    requires TrailOK(t, n) && l.v < n
    ensures ValueOf(t.assigns, l) == Value(t.lits, l)
  {
    assert Neg(Neg(l)) == l;
    assert IsTrue(t, l) ==> l in t.lits;
    assert IsFalse(t, l) ==> Neg(l) in t.lits;
    assert l in t.lits ==> IsTrue(t, l);
    assert Neg(l) in t.lits ==> IsFalse(t, l);
  }

  // ------------------------------------------------------------------ enqueue

  ghost function Enqueued(t: Trail, p: Lit, r: Reason): Trail
    requires p.v < |t.assigns| && p.v < |t.vardata| && p.v < |t.pos|
  {
    Trail(t.assigns[p.v := Sat(p)], t.vardata[p.v := VarData(r, |t.lims|)], t.pos[p.v := |t.lits|],
          t.lits + [p], t.lims)
  }

  lemma EnqueuedOK(t: Trail, n: nat, p: Lit, r: Reason)
    requires TrailOK(t, n) && p.v < n && t.pos[p.v] == -1
    ensures TrailOK(Enqueued(t, p, r), n)
    ensures forall l :: IsTrue(t, l) ==> IsTrue(Enqueued(t, p, r), l)
    ensures forall l :: IsTrue(t, l) ==> Level(Enqueued(t, p, r), l) == Level(t, l)
    ensures forall l :: IsTrue(Enqueued(t, p, r), l) <==> IsTrue(t, l) || l == p
  {
    var u := Enqueued(t, p, r);
    forall i | 0 <= i < |u.lits| ensures LevelOK(u.lims, i, u.vardata[u.lits[i].v].level) {
    }
  }

  // ------------------------------------------------------- a decision level

  ghost function NewLevel(t: Trail): Trail {
    t.(lims := t.lims + [|t.lits|])
  }

  lemma NewLevelOK(t: Trail, n: nat)
    requires TrailOK(t, n) && LevelStart(t) < |t.lits| + (if |t.lims| == 0 then 1 else 0)
    ensures TrailOK(NewLevel(t), n)
  {
    var u := NewLevel(t);
    forall i | 0 <= i < |u.lits| ensures LevelOK(u.lims, i, u.vardata[u.lits[i].v].level) {
      assert LevelOK(t.lims, i, t.vardata[t.lits[i].v].level);
    }
  }

  // ------------------------------------------------------------------ cancel

  // The trail cut back to its first m literals, with the lims left alone.
  ghost function Cut(t: Trail, m: nat): Trail
    requires m <= |t.lits| && |t.pos| == |t.assigns|
  {
    t.(assigns := seq(|t.assigns|, v requires 0 <= v < |t.assigns| => if t.pos[v] < m then t.assigns[v] else Undef),
       pos := seq(|t.pos|, v requires 0 <= v < |t.pos| => if t.pos[v] < m then t.pos[v] else -1),
       lits := t.lits[..m])
  }

  ghost function Cancelled(t: Trail, level: nat): Trail
    requires level < |t.lims| && t.lims[level] <= |t.lits| && |t.pos| == |t.assigns|
  {
    Cut(t, t.lims[level]).(lims := t.lims[..level])
  }

  lemma CancelledOK(t: Trail, n: nat, level: nat)
    requires TrailOK(t, n) && level < |t.lims|
    ensures TrailOK(Cancelled(t, level), n)
    ensures forall l :: IsTrue(Cancelled(t, level), l) <==> TrueBefore(t, l, t.lims[level])
    ensures forall l :: IsTrue(t, l) ==> (Level(t, l) <= level <==> t.pos[l.v] < t.lims[level])
  {
    var u := Cancelled(t, level);
    forall i | 0 <= i < |u.lits| ensures LevelOK(u.lims, i, u.vardata[u.lits[i].v].level) {
      assert LevelOK(t.lims, i, t.vardata[t.lits[i].v].level);
    }
    forall l | IsTrue(t, l) ensures Level(t, l) <= level <==> t.pos[l.v] < t.lims[level] {
      assert LevelOK(t.lims, t.pos[l.v], t.vardata[l.v].level);
    }
  }

  // Unassigning the last literal of a cut.
  lemma CutStep(t: Trail, n: nat, c: nat)
    requires TrailOK(t, n) && c < |t.lits|
    ensures t.lits[c].v < n
    ensures Cut(t, c).assigns == Cut(t, c + 1).assigns[t.lits[c].v := Undef]
    ensures Cut(t, c).pos == Cut(t, c + 1).pos[t.lits[c].v := -1]
  {
  }

  lemma CutNothing(t: Trail, n: nat)
    requires TrailOK(t, n)
    ensures Cut(t, |t.lits|).assigns == t.assigns && Cut(t, |t.lits|).pos == t.pos
  {
  }
}
