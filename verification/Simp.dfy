// simp/SimpSolver.cc on clauses alone: backward subsumption, bounded variable
// elimination and the reconstruction of models.
module Simplifying {
  import opened Logic
  import opened Trails
  import opened Watching
  import opened Resolution
  import opened Filtering
  import opened Reconstruction
  import Progress
  import Sorting

  // cs and mark are the clauses of the solver and whether they were removed,
  // trail the level-0 facts, queue the subsumption queue with -1 for the dummy
  // unit clause, checked is bwdsub_assigns.  blocks is specification only: it
  // says what elim, which is elimclauses, encodes.
  datatype Simp = Simp(n: nat, cs: seq<Clause>, mark: seq<bool>, occurs: seq<seq<nat>>, trail: seq<Lit>,
                       queue: seq<int>, checked: nat, tmp: Lit, eliminated: seq<bool>, elim: seq<nat>,
                       blocks: seq<Block>)

  predicate Alive(s: Simp, cr: int) {
    0 <= cr < |s.cs| && cr < |s.mark| && !s.mark[cr]
  }

  // a satisfies the clauses that are left and the facts.
  ghost predicate Means(s: Simp, a: Assignment) {
    (forall cr: int :: Alive(s, cr) ==> Satisfies(a, s.cs[cr])) && AllHold(a, s.trail)
  }

  ghost predicate SameMeaning(s: Simp, t: Simp) {
    forall a: Assignment :: Means(s, a) <==> Means(t, a)
  }

  ghost predicate Contradictory(s: Simp) {
    forall a: Assignment :: !Means(s, a)
  }

  ghost predicate SizesOK(s: Simp) {
    |s.mark| == |s.cs| && |s.occurs| == |s.eliminated| == s.n && s.checked <= |s.trail|
  }

  ghost predicate FreeOf(s: Simp, c: Clause) {
    forall l :: l in c ==> l.v < |s.eliminated| && !s.eliminated[l.v]
  }

  ghost predicate ClausesOK(s: Simp) {
    forall cr: int :: Alive(s, cr) ==> ClauseOK(s.cs[cr], s.n) && FreeOf(s, s.cs[cr])
  }

  ghost predicate OccursAt(s: Simp, v: Var)
    requires v < |s.occurs|
  {
    && NoDup(s.occurs[v])
    && (forall cr :: cr in s.occurs[v] ==> cr < |s.cs| && (Alive(s, cr) ==> VarIn(s.cs[cr], v)))
    && (forall cr: int :: Alive(s, cr) && VarIn(s.cs[cr], v) ==> cr in s.occurs[v])
  }

  ghost predicate OccursOK(s: Simp) {
    forall v :: 0 <= v < |s.occurs| ==> OccursAt(s, v)
  }

  ghost predicate TrailOK(s: Simp) {
    NoDup(s.trail) && NoClash(s.trail) && InRange(s.trail, s.n)
  }

  ghost predicate QueueOK(s: Simp) {
    forall q :: q in s.queue ==> -1 <= q < |s.cs| && (q == -1 ==> s.tmp in s.trail)
  }

  ghost predicate Good(s: Simp) {
    SizesOK(s) && ClausesOK(s) && OccursOK(s) && TrailOK(s) && QueueOK(s)
  }

  // What simplification of clauses leaves alone.
  ghost predicate SameBlocks(s: Simp, t: Simp) {
    t.n == s.n && t.eliminated == s.eliminated && t.elim == s.elim && t.blocks == s.blocks && s.trail <= t.trail
  }

  // ------------------------------------------------------------------ trail

  lemma TrailBound(s: Simp)
    requires TrailOK(s)
    ensures |s.trail| <= s.n
  {
    forall i, j | 0 <= i < j < |s.trail| ensures s.trail[i].v != s.trail[j].v {
      assert s.trail[i] in s.trail && s.trail[j] in s.trail;
      assert s.trail[i].v == s.trail[j].v ==> s.trail[i] == s.trail[j] || s.trail[j] == Neg(s.trail[i]);
    }
    VarsCount(s.trail);
    Progress.BelowBounded(VarsOf(s.trail), s.n);
  }

  function Noted(s: Simp, l: Lit): Simp {
    s.(trail := s.trail + [l])
  }

  lemma NoteKeeps(s: Simp, l: Lit)
    requires Good(s) && l.v < s.n && Value(s.trail, l) == Undef
    ensures Good(Noted(s, l)) && SameBlocks(s, Noted(s, l))
    ensures forall a: Assignment :: Means(Noted(s, l), a) <==> Means(s, a) && Holds(a, l)
  {
    var t := Noted(s, l);
    assert forall cr: int :: Alive(t, cr) <==> Alive(s, cr);
    assert TrailOK(t) by {
      assert forall x :: x in t.trail <==> x in s.trail || x == l;
      assert Neg(Neg(l)) == l;
    }
    assert OccursOK(t) by {
      forall v | 0 <= v < |t.occurs| ensures OccursAt(t, v) {
        assert OccursAt(s, v);
      }
    }
    forall a: Assignment ensures Means(t, a) <==> Means(s, a) && Holds(a, l) {
      assert AllHold(a, t.trail) <==> AllHold(a, s.trail) && Holds(a, l);
    }
  }

  // A clause none of whose literals is true, and all of whose literals but
  // perhaps l are false.
  ghost predicate AllFalseBut(s: Simp, c: Clause, l: Lit) {
    forall x :: x in c && x != l ==> Neg(x) in s.trail
  }

  lemma UnitHolds(s: Simp, c: Clause, l: Lit)
    requires forall a: Assignment :: Means(s, a) ==> Satisfies(a, c)
    requires AllFalseBut(s, c, l)
    ensures forall a: Assignment :: Means(s, a) ==> Holds(a, l)
  {
    forall a: Assignment | Means(s, a) ensures Holds(a, l) {
      assert Satisfies(a, c);
      var x :| x in c && Holds(a, x);
      NegHolds(a, x);
      assert x != l ==> Holds(a, Neg(x));
    }
  }

  lemma FalseClause(s: Simp, c: Clause)
    requires forall a: Assignment :: Means(s, a) ==> Satisfies(a, c)
    requires forall x :: x in c ==> Neg(x) in s.trail
    ensures Contradictory(s)
  {
    forall a: Assignment ensures !Means(s, a) {
      if Means(s, a) {
        var x :| x in c && Holds(a, x);
        NegHolds(a, x);
        assert false;
      }
    }
  }

  // -------------------------------------------------------- removing clauses

  function Removed(s: Simp, cr: nat): Simp
    requires cr < |s.mark|
  {
    s.(mark := s.mark[cr := true])
  }

  lemma RemovedAlive(s: Simp, cr: nat)
    requires cr < |s.mark|
    ensures forall x: int :: Alive(Removed(s, cr), x) <==> Alive(s, x) && x != cr
  {
  }

  lemma RemoveGood(s: Simp, cr: nat)
    requires Good(s) && Alive(s, cr)
    ensures Good(Removed(s, cr)) && SameBlocks(s, Removed(s, cr))
    ensures forall a: Assignment :: Means(s, a) <==> Means(Removed(s, cr), a) && Satisfies(a, s.cs[cr])
  {
    var t := Removed(s, cr);
    RemovedAlive(s, cr);
    assert OccursOK(t) by {
      forall v | 0 <= v < |t.occurs| ensures OccursAt(t, v) {
        assert OccursAt(s, v);
      }
    }
  }

  // ------------------------------------------------------ strengthening clauses

  // remove(*this, p)
  function WithoutLit(c: Clause, l: Lit): Clause {
    if c == [] then [] else if c[0] == l then c[1..] else [c[0]] + WithoutLit(c[1..], l)
  }

  lemma {:induction false} WithoutLitIs(c: Clause, l: Lit)
    requires DistinctVars(c) && l in c
    ensures |WithoutLit(c, l)| == |c| - 1 && DistinctVars(WithoutLit(c, l))
    ensures forall x :: x in WithoutLit(c, l) <==> x in c && x != l
  {
    assert c == [c[0]] + c[1..];
    if c[0] == l {
      assert l !in c[1..];
    } else {
      WithoutLitIs(c[1..], l);
      forall i | 0 <= i < |WithoutLit(c[1..], l)| ensures WithoutLit(c[1..], l)[i].v != c[0].v {
        assert WithoutLit(c[1..], l)[i] in c[1..];
      }
    }
  }

  function WithoutRef(crs: seq<nat>, cr: nat): seq<nat> {
    if crs == [] then [] else if crs[0] == cr then crs[1..] else [crs[0]] + WithoutRef(crs[1..], cr)
  }

  lemma {:induction false} WithoutRefIs(crs: seq<nat>, cr: nat)
    requires NoDup(crs)
    ensures NoDup(WithoutRef(crs, cr)) && (cr in crs ==> |WithoutRef(crs, cr)| == |crs| - 1)
    ensures forall x :: x in WithoutRef(crs, cr) <==> x in crs && x != cr
  {
    if crs != [] {
      assert crs == [crs[0]] + crs[1..];
      if crs[0] == cr {
        assert cr !in crs[1..];
      } else {
        WithoutRefIs(crs[1..], cr);
        forall i | 0 <= i < |WithoutRef(crs[1..], cr)| ensures WithoutRef(crs[1..], cr)[i] != crs[0] {
          assert WithoutRef(crs[1..], cr)[i] in crs[1..];
        }
      }
    }
  }

  // The clause without l, before a unit is enqueued.
  function Shortened(s: Simp, cr: nat, l: Lit): Simp
    requires cr < |s.cs| && cr < |s.mark| && l.v < |s.occurs|
  {
    if |s.cs[cr]| == 2 then
      s.(queue := s.queue + [cr], mark := s.mark[cr := true], cs := s.cs[cr := WithoutLit(s.cs[cr], l)])
    else
      s.(queue := s.queue + [cr], cs := s.cs[cr := WithoutLit(s.cs[cr], l)],
         occurs := s.occurs[l.v := WithoutRef(s.occurs[l.v], cr)])
  }

  lemma ShortenedAlive(s: Simp, cr: nat, l: Lit)
    requires SizesOK(s) && Alive(s, cr) && l.v < s.n
    ensures var t := Shortened(s, cr, l);
            && SizesOK(t) && |t.cs| == |s.cs|
            && (forall x: int :: Alive(t, x) <==> Alive(s, x) && (x != cr || |s.cs[cr]| != 2))
            && (forall x :: 0 <= x < |s.cs| && x != cr ==> t.cs[x] == s.cs[x])
            && t.cs[cr] == WithoutLit(s.cs[cr], l)
  {
  }

  lemma ShortenedGood(s: Simp, cr: nat, l: Lit)
    requires Good(s) && Alive(s, cr) && l in s.cs[cr] && l.v < s.n
    ensures Good(Shortened(s, cr, l)) && SameBlocks(s, Shortened(s, cr, l))
    ensures Shortened(s, cr, l).trail == s.trail
  {
    var t, c := Shortened(s, cr, l), s.cs[cr];
    ShortenedAlive(s, cr, l);
    WithoutLitIs(c, l);
    forall x: int | Alive(t, x) ensures ClauseOK(t.cs[x], t.n) && FreeOf(t, t.cs[x]) {
      assert ClauseOK(s.cs[x], s.n) && FreeOf(s, s.cs[x]);
    }
    forall v | 0 <= v < |t.occurs| ensures OccursAt(t, v) {
      ShortenedOccurs(s, cr, l, v);
    }
    assert TrailOK(t) && QueueOK(t);
  }

  lemma ShortenedOccurs(s: Simp, cr: nat, l: Lit, v: Var)
    requires SizesOK(s) && ClausesOK(s) && Alive(s, cr) && l in s.cs[cr] && l.v < s.n && v < s.n && OccursAt(s, v)
    ensures OccursAt(Shortened(s, cr, l), v)
  {
    var t, c := Shortened(s, cr, l), s.cs[cr];
    ShortenedAlive(s, cr, l);
    assert ClauseOK(c, s.n);
    WithoutLitIs(c, l);
    WithoutRefIs(s.occurs[v], cr);
    assert v != l.v ==> (VarIn(t.cs[cr], v) <==> VarIn(c, v)) by {
      if VarIn(c, v) {
        var x :| x in c && x.v == v;
        assert v != l.v ==> x in t.cs[cr];
      }
    }
    forall x | x in t.cs[cr] ensures x.v != l.v {
      OneOfVar(c, x, l);
    }
  }

  lemma OneOfVar(c: Clause, x: Lit, y: Lit)
    requires DistinctVars(c) && x in c && y in c && x != y
    ensures x.v != y.v
  {
  }

  lemma ShortenedMeans(s: Simp, cr: nat, l: Lit)
    requires Good(s) && Alive(s, cr) && l in s.cs[cr] && l.v < s.n
    requires forall a: Assignment :: Means(s, a) ==> Satisfies(a, WithoutLit(s.cs[cr], l))
    ensures forall a: Assignment ::
              Means(s, a) <==> Means(Shortened(s, cr, l), a) && Satisfies(a, WithoutLit(s.cs[cr], l))
  {
    var t, c := Shortened(s, cr, l), s.cs[cr];
    ShortenedAlive(s, cr, l);
    WithoutLitIs(c, l) by { assert ClauseOK(c, s.n); }
    forall a: Assignment ensures Means(s, a) <==> Means(t, a) && Satisfies(a, WithoutLit(c, l)) {
      if Means(t, a) && Satisfies(a, WithoutLit(c, l)) {
        assert Satisfies(a, c);
        forall x: int | Alive(s, x) ensures Satisfies(a, s.cs[x]) {
          assert x != cr ==> Alive(t, x);
        }
      }
    }
  }

  // ------------------------------------------------------------ new clauses

  function OccursWith(occurs: seq<seq<nat>>, c: Clause, cr: nat): seq<seq<nat>> {
    seq(|occurs|, v requires 0 <= v < |occurs| => if VarIn(c, v) then occurs[v] + [cr] else occurs[v])
  }

  function Added(s: Simp, c: Clause): Simp {
    var cr := |s.cs|;
    s.(cs := s.cs + [c], mark := s.mark + [false], queue := s.queue + [cr],
       occurs := OccursWith(s.occurs, c, cr))
  }

  lemma ListNone(occurs: seq<seq<nat>>, c: Clause, cr: nat)
    ensures OccursWith(occurs, c[..0], cr) == occurs
  {
  }

  lemma ListOne(occurs: seq<seq<nat>>, c: Clause, i: nat, cr: nat)
    requires DistinctVars(c) && InRange(c, |occurs|) && i < |c|
    ensures var o := OccursWith(occurs, c[..i], cr);
            c[i].v < |o| && OccursWith(occurs, c[..i + 1], cr) == o[c[i].v := o[c[i].v] + [cr]]
  {
    assert c[..i + 1] == c[..i] + [c[i]];
    assert c[i] in c;
    assert !VarIn(c[..i], c[i].v);
    forall v: Var ensures VarIn(c[..i + 1], v) <==> VarIn(c[..i], v) || v == c[i].v {
      assert c[i] in c[..i + 1];
      if x :| x in c[..i] && x.v == v {
        assert x in c[..i + 1];
      }
    }
  }

  lemma AddedGood(s: Simp, c: Clause)
    requires Good(s) && ClauseOK(c, s.n) && FreeOf(s, c)
    ensures Good(Added(s, c)) && SameBlocks(s, Added(s, c)) && Added(s, c).trail == s.trail
    ensures forall x: int :: Alive(Added(s, c), x) <==> Alive(s, x) || x == |s.cs|
    ensures forall a: Assignment :: Means(Added(s, c), a) <==> Means(s, a) && Satisfies(a, c)
  {
    var t := Added(s, c);
    forall x: int ensures Alive(t, x) <==> Alive(s, x) || x == |s.cs| {
    }
    assert OccursOK(t) by {
      forall v | 0 <= v < |t.occurs| ensures OccursAt(t, v) {
        assert OccursAt(s, v);
        assert |s.cs| !in s.occurs[v];
        assert NoDup(s.occurs[v] + [|s.cs|]);
      }
    }
    assert TrailOK(t) && QueueOK(t) && ClausesOK(t);
    forall a: Assignment ensures Means(t, a) <==> Means(s, a) && Satisfies(a, c) {
      AddedMeans(s, c, a);
    }
  }

  lemma AddedMeans(s: Simp, c: Clause, a: Assignment)
    requires SizesOK(s)
    ensures Means(Added(s, c), a) <==> Means(s, a) && Satisfies(a, c)
  {
    hide Satisfies, AllHold;
    var t := Added(s, c);
    assert Alive(t, |s.cs|) && t.cs[|s.cs|] == c;
    forall x: int ensures Alive(s, x) ==> Alive(t, x) && t.cs[x] == s.cs[x] {
    }
    forall x: int ensures Alive(t, x) ==> x == |s.cs| || Alive(s, x) {
    }
  }

  // ------------------------------------------------------------- the measure

  // Literals of clauses that have not been removed.
  ghost function LiveLits(s: Simp, k: nat): nat
    requires |s.mark| == |s.cs| && k <= |s.cs|
  {
    if k == 0 then 0 else LiveLits(s, k - 1) + if s.mark[k - 1] then 0 else |s.cs[k - 1]|
  }

  lemma {:induction false} LiveSame(s: Simp, t: Simp, k: nat, cr: nat)
    requires |s.mark| == |s.cs| == |t.mark| == |t.cs| && k <= |s.cs| && cr < |s.cs| && !s.mark[cr]
    requires forall x :: 0 <= x < |s.cs| && x != cr ==> s.cs[x] == t.cs[x] && s.mark[x] == t.mark[x]
    ensures LiveLits(t, k)
         == LiveLits(s, k) - (if cr < k then |s.cs[cr]| - (if t.mark[cr] then 0 else |t.cs[cr]|) else 0)
  {
    if k > 0 {
      LiveSame(s, t, k - 1, cr);
    }
  }

  lemma StrengthenedMeasure(s: Simp, cr: nat, l: Lit)
    requires Good(s) && Alive(s, cr) && l in s.cs[cr] && l.v < s.n
    ensures var t := Shortened(s, cr, l);
            |t.mark| == |t.cs| == |s.cs| && LiveLits(t, |t.cs|) < LiveLits(s, |s.cs|)
  {
    var t := Shortened(s, cr, l);
    ShortenedAlive(s, cr, l);
    WithoutLitIs(s.cs[cr], l) by { assert ClauseOK(s.cs[cr], s.n); }
    LiveSame(s, t, |s.cs|, cr);
  }

  lemma RemovedMeasure(s: Simp, cr: nat)
    requires Good(s) && Alive(s, cr)
    ensures var t := Removed(s, cr);
            |t.mark| == |t.cs| == |s.cs| && LiveLits(t, |t.cs|) < LiveLits(s, |s.cs|)
  {
    LiveSame(s, Removed(s, cr), |s.cs|, cr);
    assert ClauseOK(s.cs[cr], s.n);
  }

  lemma {:induction false} MeasureIgnores(s: Simp, t: Simp, k: nat)
    requires |s.mark| == |s.cs| && t.mark == s.mark && t.cs == s.cs && k <= |s.cs|
    ensures LiveLits(t, k) == LiveLits(s, k)
  {
    if k > 0 {
      MeasureIgnores(s, t, k - 1);
    }
  }

  datatype Status = Nothing | Unit(l: Lit) | Falsified

  // A literal of the clause is true, or two are open.
  ghost predicate Closed(s: Simp, c: Clause) {
    || (exists l :: l in c && l in s.trail)
    || exists x, y :: x in c && y in c && x != y && Value(s.trail, x) == Undef && Value(s.trail, y) == Undef
  }

  ghost predicate StatusOK(s: Simp, c: Clause, st: Status) {
    match st
    case Nothing => Closed(s, c)
    case Unit(l) => l in c && Value(s.trail, l) == Undef && AllFalseBut(s, c, l)
    case Falsified => forall x :: x in c ==> Neg(x) in s.trail
  }

  lemma SameTrans(s: Simp, t: Simp, u: Simp)
    requires SameMeaning(s, t) && SameMeaning(t, u)
    ensures SameMeaning(s, u)
  {
  }

  lemma AliveFollows(s: Simp, cr: nat)
    requires Alive(s, cr)
    ensures forall a: Assignment :: Means(s, a) ==> Satisfies(a, s.cs[cr])
  {
  }

  lemma SameContradictory(s: Simp, t: Simp)
    requires SameMeaning(s, t) && Contradictory(t)
    ensures Contradictory(s)
  {
  }

  lemma LitsInRange(s: Simp, cr: nat)
    requires Good(s) && Alive(s, cr)
    ensures ClauseOK(s.cs[cr], s.n)
    ensures forall l :: l in s.cs[cr] ==> l.v < s.n && l.v < |s.eliminated| && !s.eliminated[l.v] && l.v < |s.occurs|
  {
    assert ClauseOK(s.cs[cr], s.n) && FreeOf(s, s.cs[cr]);
  }

  class SimpSolver {
    var s: Simp

    // What the facts say about a clause.
    method Inspect(c: Clause) returns (st: Status)
      ensures StatusOK(s, c, st)
    {
      st := Falsified;
      for i := 0 to |c|
        invariant StatusOK(s, c[..i], st) && st != Nothing
      {
        assert c[..i + 1] == c[..i] + [c[i]] && c[i] in c;
        var val := Value(s.trail, c[i]);
        if val == True {
          return Nothing;
        }
        if val == Undef && (st == Falsified || st.l != c[i]) {
          if st != Falsified {
            return Nothing;
          }
          st := Unit(c[i]);
        }
      }
      assert c[..|c|] == c;
    }

    method FindUnit() returns (st: Status, cr: nat)
      requires |s.mark| == |s.cs|
      ensures st != Nothing ==> Alive(s, cr) && StatusOK(s, s.cs[cr], st)
      ensures st == Nothing ==> forall k: int :: Alive(s, k) ==> Closed(s, s.cs[k])
    {
      for k := 0 to |s.cs|
        invariant forall x :: 0 <= x < k && Alive(s, x) ==> Closed(s, s.cs[x])
      {
        if !s.mark[k] {
          st := Inspect(s.cs[k]);
          if st != Nothing {
            return st, k;
          }
        }
      }
      st, cr := Nothing, 0;
    }

    // Unit propagation on level 0, clause by clause.  The watched-literal scheme
    // that does this is Solving.Solver.Propagate.
    method Propagate() returns (ok: bool)
      requires Good(s)
      modifies this`s
      ensures Good(s) && SameMeaning(old(s), s) && SameBlocks(old(s), s) && s == old(s).(trail := s.trail)
      ensures ok ==> forall cr: int :: Alive(s, cr) ==> Closed(s, s.cs[cr])
      ensures !ok ==> Contradictory(old(s))
    {
      hide Good, SameMeaning, Contradictory, Means, StatusOK, Closed;
      ghost var s0 := s;
      SameSelf(s);
      GoodSizes(s);
      while true
        invariant Good(s) && SameMeaning(s0, s) && SameBlocks(s0, s) && s == s0.(trail := s.trail)
        invariant |s.trail| <= s.n && |s.mark| == |s.cs|
        decreases s.n - |s.trail|
      {
        ghost var s1 := s;
        var st, cr := FindUnit();
        if st == Nothing {
          return true;
        }
        AliveFollows(s, cr);
        if st == Falsified {
          StatusFalse(s, s.cs[cr], st);
          SameContradictory(s0, s);
          return false;
        }
        StatusUnit(s, cr, st);
        s := Noted(s, st.l);
        SameTrans(s0, s1, s);
        GoodSizes(s);
      }
    }

    // enqueue(p) on level 0.
    method Enqueue(p: Lit) returns (ok: bool)
      requires Good(s) && p.v < s.n
      modifies this`s
      ensures Good(s) && SameBlocks(old(s), s) && s == old(s).(trail := s.trail)
      ensures ok ==> p in s.trail && forall a: Assignment :: Means(s, a) <==> Means(old(s), a) && Holds(a, p)
      ensures !ok ==> forall a: Assignment :: Means(old(s), a) ==> !Holds(a, p)
    {
      hide Good, Means;
      var val := Value(s.trail, p);
      if val == False {
        FalseFact(s, p);
        return false;
      }
      if val == Undef {
        NoteKeeps(s, p);
        s := Noted(s, p);
      } else {
        TrueFact(s, p);
      }
      ok := true;
    }

    method RemoveClause(cr: nat)
      requires cr < |s.mark|
      modifies this`s
      ensures s == Removed(old(s), cr)
    {
      s := s.(mark := s.mark[cr := true]);
    }

    // strengthenClause(cr, l)
    method StrengthenClause(cr: nat, l: Lit) returns (ok: bool)
      requires Good(s) && Alive(s, cr) && l in s.cs[cr]
      requires forall a: Assignment :: Means(s, a) ==> Satisfies(a, WithoutLit(s.cs[cr], l))
      modifies this`s
      ensures Good(s) && SameBlocks(old(s), s)
      ensures ok ==> SameMeaning(old(s), s)
      ensures cr < |old(s).cs| && l.v < |old(s).occurs|
      ensures s == Shortened(old(s), cr, l).(trail := s.trail)
      ensures !ok ==> Contradictory(old(s))
    {
      hide Good, SameMeaning, Contradictory, Means, ClauseOK;
      ghost var s0 := s;
      LitsInRange(s, cr);
      GoodSizes(s);
      ShortenedGood(s, cr, l);
      ShortenedMeans(s, cr, l);
      WithoutLitIs(s.cs[cr], l) by { DistinctOf(s.cs[cr], s.n); }
      var c := WithoutLit(s.cs[cr], l);
      s := s.(queue := s.queue + [cr]);
      if |s.cs[cr]| == 2 {
        RemoveClause(cr);
        s := s.(cs := s.cs[cr := c]);
      } else {
        s := s.(cs := s.cs[cr := c], occurs := s.occurs[l.v := WithoutRef(s.occurs[l.v], cr)]);
      }
      ghost var t := s;
      assert t == Shortened(s0, cr, l);
      if |c| == 1 {
        assert c[0] in c;
        ok := Enqueue(c[0]);
        UnitClause(c);
        if !ok {
          UnitFails(s0, t, c);
          return;
        }
        UnitNoted(s0, t, s, c);
        ghost var u := s;
        ok := Propagate();
        SameTrans(s0, u, s);
        if !ok {
          SameContradictory(s0, u);
        }
      } else {
        ShortenedSame(s0, cr, l);
        ok := true;
      }
    }

    // Clause::subsumes: Subsumed if d contains c, Flipped(p) if it does but for p,
    // which it contains negated.
    static method Subsumes(c: Clause, d: Clause) returns (r: Verdict)
      requires DistinctVars(c) && DistinctVars(d)
      ensures r == Subsumed <==> Contains(d, c)
      ensures forall p :: r == Flipped(p) <==> ContainsFlipped(d, c, p)
    {
      if |d| < |c| || !(Abstraction(c) <= Abstraction(d)) {
        Filtered(c, d);
        return Error;
      }
      r := Subsumed;
      for i := 0 to |c|
        invariant r != Error
        invariant r == Subsumed ==> Contains(d, c[..i])
        invariant r.Flipped? ==> ContainsFlipped(d, c[..i], r.p)
      {
        assert c[..i + 1] == c[..i] + [c[i]];
        var found := false;
        var j := 0;
        while j < |d| && !found
          invariant j <= |d| && (r == Subsumed || r.Flipped?)
          invariant !found ==>
                    (r == Subsumed ==> Contains(d, c[..i])) && (r.Flipped? ==> ContainsFlipped(d, c[..i], r.p))
          invariant !found ==> forall k :: 0 <= k < j ==> d[k] != c[i] && (r == Subsumed ==> c[i] != Neg(d[k]))
          invariant found ==>
                    (r == Subsumed ==> Contains(d, c[..i + 1])) && (r.Flipped? ==> ContainsFlipped(d, c[..i + 1], r.p))
        {
          if c[i] == d[j] {
            assert c[i] in d;
            found := true;
          } else if r == Subsumed && c[i] == Neg(d[j]) {
            assert Neg(c[i]) == d[j];
            r, found := Flipped(c[i]), true;
          }
          j := j + 1;
        }
        if !found {
          NeitherWay(c, d, i, r);
          return Error;
        }
      }
      assert c[..|c|] == c;
      VerdictUnique(c, d);
    }

    // occurs.lookup(v): clauses that were removed leave the list.
    method Lookup(v: Var)
      requires Good(s) && v < s.n
      modifies this`s
      ensures v < |old(s).occurs| && s == Cleaned(old(s), v)
      ensures Good(s) && SameMeaning(old(s), s) && SameBlocks(old(s), s)
    {
      hide Good, SameMeaning, AliveOnly;
      CleanGood(s, v);
      var kept := KeepAlive(s.occurs[v]);
      s := s.(occurs := s.occurs[v := kept]);
    }

    method KeepAlive(crs: seq<nat>) returns (kept: seq<nat>)
      ensures kept == AliveOnly(s, crs)
    {
      kept := [];
      for i := 0 to |crs|
        invariant kept + AliveOnly(s, crs[i..]) == AliveOnly(s, crs)
      {
        assert crs[i..][0] == crs[i] && crs[i..][1..] == crs[i + 1..];
        if Alive(s, crs[i]) {
          kept := kept + [crs[i]];
        }
      }
      assert crs[|crs|..] == [];
    }

    // The candidates of one clause: lim is subsumption_lim, -1 for none.
    method Scan(cr: int, c: Clause, best: Var, lim: int) returns (ok: bool)
      requires Good(s) && Stands(s, cr, c) && best < s.n && VarIn(c, best)
      modifies this`s
      ensures Good(s) && SameBlocks(old(s), s) && Shrunk(old(s), s) && Narrower(old(s), s, lim)
      ensures ok ==> SameMeaning(old(s), s) && NoneHit(s, lim, cr, c) && Stands(s, cr, c)
      ensures !ok ==> Contradictory(old(s))
    {
      hide Good, Means, SameMeaning, Contradictory, Stands, Narrower, Passed, NoneHit, Hits, LiveLits;
      ghost var s0 := s;
      SameSelf(s);
      GoodSizes(s);
      ShrunkSelf(s);
      NarrowerSelf(s, lim);
      NonePassed(s, lim, cr, c, s.occurs[best]);
      var j := 0;
      while j < |s.occurs[best]|
        invariant Good(s) && SizesOK(s) && SameMeaning(s0, s) && SameBlocks(s0, s) && Stands(s, cr, c) && Shrunk(s0, s)
        invariant Narrower(s0, s, lim) && j <= |s.occurs[best]| && Passed(s, lim, cr, c, s.occurs[best][..j])
        decreases LiveLits(s, |s.cs|), |s.occurs[best]| - j
      {
        ghost var s1 := s;
        var d := s.occurs[best][j];
        OccursIn(s, best, j);
        StillThere(s, cr, c);
        if 0 <= cr < |s.mark| && s.mark[cr] {
          assert false;
          break;
        }
        if !s.mark[d] && d != cr && (lim == -1 || |s.cs[d]| < lim) {
          StandsDistinct(s, cr, c);
          LitsInRange(s, d);
          DistinctOf(s.cs[d], s.n);
          var r := Subsumes(c, s.cs[d]);
          if r == Subsumed {
            SubsumedStep(s, cr, c, d);
            RemoveClause(d);
            SameTrans(s0, s1, s);
            ShrunkTrans(s0, s1, s);
            RemovedPasses(s0, s1, lim, cr, c, best, j);
            j := j + 1;
          } else if r.Flipped? {
            FlippedStep(s, cr, c, d, r.p);
            ok := StrengthenClause(d, Neg(r.p));
            StrengthenedShrinks(s1, s, cr, c, d, Neg(r.p));
            ShrunkTrans(s0, s1, s);
            StrengthenedPasses(s0, s1, s, lim, cr, c, best, j, r.p);
            if !ok {
              SameContradictory(s0, s1);
              return;
            }
            SameTrans(s0, s1, s);
            GoodSizes(s);
            if r.p.v != best {
              j := j + 1;
            }
          } else {
            NotHit(s.cs[d], c);
            PassedNext(s, lim, cr, c, s.occurs[best], j);
            j := j + 1;
          }
        } else {
          PassedNext(s, lim, cr, c, s.occurs[best], j);
          j := j + 1;
        }
      }
      AllPassed(s, lim, cr, c, best);
      ok := true;
    }

    // The variable of c with the shortest list of occurrences.
    method PickBest(c: Clause) returns (best: Var)
      requires |c| > 0 && |s.occurs| == s.n && InRange(c, s.n)
      ensures best < s.n && VarIn(c, best)
      ensures forall l :: l in c ==> |s.occurs[best]| <= |s.occurs[l.v]|
    {
      assert c[0] in c;
      best := c[0].v;
      for i := 1 to |c|
        invariant best < s.n && VarIn(c, best)
        invariant forall k :: 0 <= k < i ==> |s.occurs[best]| <= |s.occurs[c[k].v]|
      {
        assert c[i] in c;
        if |s.occurs[c[i].v]| < |s.occurs[best]| {
          best := c[i].v;
        }
      }
    }

    // backwardSubsumptionCheck: clauses and facts keep their meaning, and the
    // queue is worked off.
    method BackwardSubsumptionCheck(lim: int) returns (ok: bool, stopped: bool)
      requires Good(s)
      modifies this`s
      ensures Good(s) && SameBlocks(old(s), s)
      ensures ok ==> SameMeaning(old(s), s) && s.queue == [] && s.checked == |s.trail|
      ensures ok && !stopped ==> Worked(old(s), s, lim)
      ensures !ok ==> Contradictory(old(s))
    {
      hide Good, Means, SameMeaning, Contradictory, Stands, Worked, Narrower, NoneHit;
      ghost var s0 := s;
      SameSelf(s);
      GoodSizes(s);
      WorkedNone(s, lim);
      stopped := false;
      while |s.queue| > 0 || s.checked < |s.trail|
        invariant Good(s) && SizesOK(s) && SameMeaning(s0, s) && SameBlocks(s0, s) && !stopped && Worked(s0, s, lim)
        decreases LiveLits(s, |s.cs|), |s.queue| + |s.trail| - s.checked
      {
        ghost var s1 := s;
        var interrupt: bool := *;
        if interrupt {
          Interrupted(s);
          s := s.(queue := [], checked := |s.trail|);
          SameTrans(s0, s1, s);
          return true, true;
        }
        if |s.queue| == 0 && s.checked < |s.trail| {
          NextFact(s);
          s := s.(tmp := s.trail[s.checked], checked := s.checked + 1, queue := [-1]);
        }
        var cr := s.queue[0];
        ghost var s2 := s;
        Popped(s);
        s := s.(queue := s.queue[1..]);
        MeasureIgnores(s1, s, |s.cs|);
        SameTrans(s0, s1, s2);
        SameTrans(s0, s2, s);
        if !(0 <= cr && s.mark[cr]) {
          var c := if cr == -1 then [s.tmp] else s.cs[cr];
          StandsNow(s2, s, cr, c);
          var best := PickBest(c);
          ghost var s3 := s;
          Lookup(best);
          CleanKeeps(s3, best, cr, c);
          SameTrans(s0, s3, s);
          MeasureIgnores(s3, s, |s.cs|);
          ghost var s4 := s;
          ok := Scan(cr, c, best, lim);
          if !ok {
            SameContradictory(s0, s4);
            return;
          }
          SameTrans(s0, s4, s);
          GoodSizes(s);
          WorkedNext(s0, s1, s4, s, lim, cr, c);
        } else {
          WorkedSkip(s0, s1, s, lim, cr);
        }
      }
      ok := true;
    }

    // ------------------------------------------------------- adding clauses

    // sort(ps), then the loop that drops false and repeated literals and notices
    // a true or complementary one.
    method SortAndFilter(ps: Clause) returns (out: Clause, dropped: bool)
      ensures dropped ==> exists l :: l in ps && (l in s.trail || Neg(l) in ps)
      ensures !dropped ==> Kept(s.trail, ps, |ps|, out)
    {
      hide Kept;
      var a := new Lit[|ps|](i requires 0 <= i < |ps| => ps[i]);
      assert a[..] == ps;
      LitLtOrders();
      Sorting.Sort(a, 0, a.Length, LitLt);
      var c := a[..];
      SortedMembers(ps, c);
      out := [];
      KeptNothing(s.trail, c);
      for i := 0 to |c|
        invariant a[..] == c && Kept(s.trail, c, i, out)
      {
        var val := Value(s.trail, c[i]);
        if val == True || (out != [] && c[i] == Neg(out[|out| - 1])) {
          AlwaysTrue(s.trail, ps, c, i, out);
          return out, true;
        }
        KeepOne(s.trail, c, i, out);
        if val != False && (out == [] || c[i] != out[|out| - 1]) {
          out := out + [c[i]];
        }
      }
      KeptSame(s.trail, ps, c, out);
      dropped := false;
    }

    // addClause_
    method AddClause(ps: Clause) returns (ok: bool)
      requires Good(s) && InRange(ps, s.n) && FreeOf(s, ps)
      modifies this`s
      ensures Good(s) && Grown(old(s), s, ps)
      ensures ok ==> Held(s, |old(s).cs|, ps)
      ensures ok ==> forall a: Assignment :: Means(s, a) <==> Means(old(s), a) && Satisfies(a, ps)
      ensures !ok ==> forall a: Assignment :: Means(old(s), a) ==> !Satisfies(a, ps)
    {
      hide Good, Means, Kept, Satisfies, AllHold, InRange, FreeOf, Held, Grown, SameMeaning, Contradictory;
      ghost var s0 := s;
      var out, dropped := SortAndFilter(ps);
      if dropped {
        DroppedStep(s, ps);
        return true;
      }
      KeptStep(s, ps, out);
      if |out| == 0 {
        NothingLeft(s, ps, out);
        return false;
      } else if |out| == 1 {
        ok := Enqueue(out[0]);
        if !ok {
          UnitClash(s0, ps, out);
          GrownSelf(s0, s, ps);
          return;
        }
        ghost var s1 := s;
        ok := Propagate();
        UnitStep(s0, s1, s, ps, out);
        if !ok {
          UnitRefutes(s0, s1, ps, out);
        }
      } else {
        var cr := |s.cs|;
        GoodSizes(s);
        s := s.(cs := s.cs + [out], mark := s.mark + [false], queue := s.queue + [cr]);
        ListUnder(out, cr);
        LongStep(s0, ps, out);
        ok := true;
      }
    }

    // occurs[var(c[i])].push(cr)
    method ListUnder(c: Clause, cr: nat)
      requires DistinctVars(c) && InRange(c, |s.occurs|)
      modifies this`s
      ensures s == old(s).(occurs := OccursWith(old(s).occurs, c, cr))
    {
      hide InRange, VarIn;
      ghost var was := s.occurs;
      ListNone(was, c, cr);
      for i := 0 to |c|
        invariant s == old(s).(occurs := OccursWith(was, c[..i], cr))
      {
        ListOne(was, c, i, cr);
        s := s.(occurs := s.occurs[c[i].v := s.occurs[c[i].v] + [cr]]);
      }
      assert c[..|c|] == c;
    }

    // ------------------------------------------------------------- merging

    static method FindVar(c: Clause, v: Var) returns (j: nat)
      ensures j <= |c| && (j < |c| ==> c[j].v == v) && (j == |c| <==> !VarIn(c, v))
      ensures forall k :: 0 <= k < j ==> c[k].v != v
    {
      j := 0;
      while j < |c| && c[j].v != v
        invariant j <= |c| && forall k :: 0 <= k < j ==> c[k].v != v
      {
        j := j + 1;
      }
      assert j < |c| ==> c[j] in c;
    }

    // merge(_ps, _qs, v, out_clause): false if the clause is always satisfied.
    static method Merge(c: Clause, d: Clause, v: Var) returns (ok: bool, out: Clause)
      requires DistinctVars(c) && DistinctVars(d)
      ensures ok <==> !Clashes(c, d, v)
      ensures ok ==> out == Merged(c, d, v)
    {
      hide DistinctVars, Clashes, VarIn, Others, Missing;
      var ps, qs := if |c| < |d| then d else c, if |c| < |d| then c else d;
      ClashesSym(c, d, v);
      out := [];
      ok := true;
      NoClashYet(qs, ps, v);
      for i := 0 to |qs|
        invariant out + Missing(qs[i..], ps, v) == Missing(qs, ps, v) && !Clashes(qs[..i], ps, v)
      {
        MissingStep(qs, ps, v, i, out);
        if qs[i].v != v {
          var j := FindVar(ps, qs[i].v);
          FoundVar(qs, ps, v, i, j);
          if j < |ps| {
            if ps[j] == Neg(qs[i]) {
              return false, out;
            }
          } else {
            out := out + [qs[i]];
          }
        } else {
          SkipV(qs, ps, v, i);
        }
      }
      assert qs[..|qs|] == qs;
      MissingStep(qs, ps, v, |qs|, out);
      ghost var front := out;
      assert ps[0..] == ps;
      for i := 0 to |ps|
        invariant out + Others(ps[i..], v) == front + Others(ps, v)
      {
        OthersStep(ps, v, i, out);
        if ps[i].v != v {
          out := out + [ps[i]];
        }
      }
      OthersStep(ps, v, |ps|, out);
    }

    // merge(_ps, _qs, v, size)
    static method MergeSize(c: Clause, d: Clause, v: Var) returns (ok: bool, size: int)
      requires DistinctVars(c) && DistinctVars(d) && VarIn(c, v) && VarIn(d, v)
      ensures ok <==> !Clashes(c, d, v)
      ensures ok ==> size == |Merged(c, d, v)|
    {
      hide DistinctVars, Clashes, VarIn, Others, Missing;
      var ps, qs := if |c| < |d| then d else c, if |c| < |d| then c else d;
      OthersDistinct(ps, v);
      ClashesSym(c, d, v);
      size := |ps| - 1;
      ok := true;
      NoClashYet(qs, ps, v);
      ghost var out: Clause := [];
      for i := 0 to |qs|
        invariant out + Missing(qs[i..], ps, v) == Missing(qs, ps, v) && !Clashes(qs[..i], ps, v)
        invariant size == |out| + |ps| - 1
      {
        MissingStep(qs, ps, v, i, out);
        if qs[i].v != v {
          var j := FindVar(ps, qs[i].v);
          FoundVar(qs, ps, v, i, j);
          if j < |ps| {
            if ps[j] == Neg(qs[i]) {
              return false, size;
            }
          } else {
            size := size + 1;
            out := out + [qs[i]];
          }
        } else {
          SkipV(qs, ps, v, i);
        }
      }
      assert qs[..|qs|] == qs;
      MissingStep(qs, ps, v, |qs|, out);
    }

    // ------------------------------------------------------------ elimination

    // The occurrences of v by sign.
    method Split(v: Var) returns (pos: seq<nat>, neg: seq<nat>)
      requires Good(s) && v < s.n && v < |s.occurs| && AllAlive(s, s.occurs[v])
      ensures SplitOK(s, v, pos, neg) && |pos| + |neg| == |s.occurs[v]| && NoDup(pos) && NoDup(neg)
    {
      hide Good, NoDup;
      var cls := s.occurs[v];
      assert NoDup(cls) by { OccursDistinct(s, v); }
      pos, neg := [], [];
      NoDupNil<nat>();
      for i := 0 to |cls|
        invariant |pos| + |neg| == i && NoDup(pos) && NoDup(neg)
        invariant forall cr: nat :: cr in pos <==> cr in cls[..i] && cr < |s.cs| && Lit(v, false) in s.cs[cr]
        invariant forall cr: nat :: cr in neg <==> cr in cls[..i] && cr < |s.cs| && Lit(v, false) !in s.cs[cr]
      {
        assert cls[..i + 1] == cls[..i] + [cls[i]];
        assert cls[i] in cls;
        NotBefore(cls, i);
        NoDupSnoc(pos, cls[i]);
        NoDupSnoc(neg, cls[i]);
        if Lit(v, false) in s.cs[cls[i]] {
          pos := pos + [cls[i]];
        } else {
          neg := neg + [cls[i]];
        }
      }
      assert cls[..|cls|] == cls;
      SplitDone(s, v, pos, neg);
    }

    // The two loops that count the resolvents and look at their sizes.
    method TooMany(pos: seq<nat>, neg: seq<nat>, v: Var, limit: int, clauseLim: int) returns (r: bool)
      requires Touch(s, v, pos) && Touch(s, v, neg)
      ensures r <==> Exceeds(Resolvents(ClausesAt(s, pos), ClausesAt(s, neg), v), limit, clauseLim)
    {
      hide Resolvents, Row, Merged, Clashes, Exceeds, DistinctVars, VarIn;
      ghost var ps, ns := ClausesAt(s, pos), ClausesAt(s, neg);
      ghost var all := Resolvents(ps, ns, v);
      var cnt := 0;
      ghost var seen: seq<Clause> := [];
      NothingExceeds(limit, clauseLim);
      assert ps[0..] == ps;
      for i := 0 to |pos|
        invariant seen + Resolvents(ps[i..], ns, v) == all && |seen| == cnt && !Exceeds(seen, limit, clauseLim)
      {
        RowsStep(ps, ns, v, i, seen);
        ghost var rest := Resolvents(ps[i + 1..], ns, v);
        for j := 0 to |neg|
          invariant seen + Row(ps[i], ns[j..], v) + rest == all && |seen| == cnt && !Exceeds(seen, limit, clauseLim)
        {
          RowStep(ps[i], ns, v, j, seen, rest);
          var ok, size := MergeSize(s.cs[pos[i]], s.cs[neg[j]], v);
          if ok {
            cnt := cnt + 1;
            ghost var x := Merged(ps[i], ns[j], v);
            ExceedsNext(seen, x, limit, clauseLim);
            if cnt > limit || (clauseLim != -1 && size > clauseLim) {
              SeenMore(seen, x, Row(ps[i], ns[j + 1..], v), rest, all);
              ExceedsMore(seen + [x], Row(ps[i], ns[j + 1..], v) + rest, limit, clauseLim);
              return true;
            }
            seen := seen + [x];
          }
        }
        RowStep(ps[i], ns, v, |neg|, seen, rest);
      }
      RowsStep(ps, ns, v, |pos|, seen);
      r := false;
    }

    // mkElimClause(elimclauses, x)
    method MkElimUnit(x: Lit)
      modifies this`s
      ensures s == old(s).(elim := old(s).elim + Record([x]))
    {
      s := s.(elim := s.elim + [ToInt(x)]);
      s := s.(elim := s.elim + [1]);
    }

    // mkElimClause(elimclauses, v, c): the literal of v changes places with the
    // first one.
    method MkElimClause(v: Var, c: Clause)
      requires DistinctVars(c) && VarIn(c, v)
      modifies this`s
      ensures s == old(s).(elim := old(s).elim + Record(VFirst(c, v)))
    {
      ghost var e0 := s.elim;
      var first := |s.elim|;
      var vPos := -1;
      for i := 0 to |c|
        invariant s == old(s).(elim := e0 + Codes(c[..i]))
        invariant vPos == if Spot(c, v) < i then first + Spot(c, v) else -1
      {
        CodesNext(c, i);
        SpotUnique(c, v, i);
        s := s.(elim := s.elim + [ToInt(c[i])]);
        if c[i].v == v {
          vPos := i + first;
        }
      }
      assert c[..|c|] == c;
      SpotFound(c, v);
      var tmp := s.elim[vPos];
      s := s.(elim := s.elim[vPos := s.elim[first]]);
      s := s.(elim := s.elim[first := tmp]);
      CodesSwapped(e0, c, v);
      s := s.(elim := s.elim + [|c|]);
    }

    // The clauses with the literal that occurs less often are stored, and the
    // other literal as the default.
    method Store(v: Var, crs: seq<nat>, x: Lit)
      requires Touch(s, v, crs) && x.v == v
      modifies this`s
      ensures var b := Block(v, ClausesAt(old(s), crs), x.sign);
              s == old(s).(elim := old(s).elim + Flat(StoredRecs(b)), blocks := old(s).blocks + [b])
    {
      hide DistinctVars, VarIn, VFirst, Record, Flat, StoredRecs;
      ghost var e0 := s.elim;
      var b := Block(v, ClausesAt(s, crs), x.sign);
      ghost var recs := StoredRecs(b);
      StoredLength(b);
      FlatEmpty(recs);
      for i := 0 to |crs|
        invariant s == old(s).(elim := e0 + Flat(recs[..i]))
      {
        StoredAt(b, i);
        FlatNext(recs, i);
        MkElimClause(v, s.cs[crs[i]]);
      }
      FlatNext(recs, |crs|);
      assert recs[..|crs| + 1] == recs;
      MkElimUnit(x);
      s := s.(blocks := s.blocks + [b]);
    }

    // "Produce clauses in cross product".
    method AddResolvents(pos: seq<nat>, neg: seq<nat>, v: Var) returns (ok: bool)
      requires Good(s) && SplitOK(s, v, pos, neg)
      modifies this`s
      ensures Good(s) && Appended(old(s), s, v)
      ensures ok ==> SameMeaning(old(s), s)
      ensures ok ==>
                AllHeld(s, |old(s).cs|, Resolvents(ClausesAt(old(s), pos), ClausesAt(old(s), neg), v))
      ensures !ok ==> Contradictory(old(s))
    {
      hide Good, SplitOK, Appended, SameMeaning, Contradictory, AllHeld, Resolvents, Row, Merged, Clashes, Means,
           Satisfies, Grown, Held, InRange, FreeOf, DistinctVars, Alive, VarIn, ClausesAt;
      ClausesAtLength(s, pos);
      ClausesAtLength(s, neg);
      ghost var s0 := s;
      ghost var n0, ps, ns := |s.cs|, ClausesAt(s, pos), ClausesAt(s, neg);
      ghost var all := Resolvents(ps, ns, v);
      ghost var seen: seq<Clause> := [];
      AppendedSelf(s, v);
      SameSelf(s);
      NothingHeld(s, n0);
      assert ps[0..] == ps;
      for i := 0 to |pos|
        invariant Good(s) && Appended(s0, s, v) && SameMeaning(s0, s) && AllHeld(s, n0, seen)
        invariant seen + Resolvents(ps[i..], ns, v) == all
      {
        RowsStep(ps, ns, v, i, seen);
        ghost var rest := Resolvents(ps[i + 1..], ns, v);
        for j := 0 to |neg|
          invariant Good(s) && Appended(s0, s, v) && SameMeaning(s0, s) && AllHeld(s, n0, seen)
          invariant seen + Row(ps[i], ns[j..], v) + rest == all
        {
          RowStep(ps[i], ns, v, j, seen, rest);
          PairAt(s0, s, v, pos, neg, i, j);
          var use, resolvent := Merge(s.cs[pos[i]], s.cs[neg[j]], v);
          if use {
            ghost var s1 := s;
            ResolventFits(s, v, pos[i], neg[j]);
            ok := AddClause(resolvent);
            ResolventAdded(s0, s1, s, v, resolvent, n0, seen);
            if !ok {
              ResolventRefutes(s0, s1, resolvent);
              return;
            }
            ResolventSame(s0, s1, s, resolvent);
            seen := seen + [resolvent];
          }
        }
        RowStep(ps[i], ns, v, |neg|, seen, rest);
      }
      RowsStep(ps, ns, v, |pos|, seen);
      ok := true;
    }

    method RemoveAll(crs: seq<nat>)
      requires forall cr :: cr in crs ==> cr < |s.mark|
      modifies this`s
      ensures s == old(s).(mark := MarksSet(old(s).mark, crs))
    {
      ghost var was := s.mark;
      assert MarksSet(was, crs[..0]) == was;
      for i := 0 to |crs|
        invariant s == old(s).(mark := MarksSet(was, crs[..i]))
      {
        assert crs[i] in crs;
        assert crs[..i + 1] == crs[..i] + [crs[i]];
        RemoveClause(crs[i]);
        assert s.mark == MarksSet(was, crs[..i + 1]);
      }
      assert crs[..|crs|] == crs;
    }

    // eliminateVar(v): nothing happens, but for removed clauses that leave its
    // occurrences, exactly if there would be too many resolvents, or too long ones.
    method EliminateVar(v: Var, grow: int, clauseLim: int, subsumptionLim: int) returns (ok: bool)
      requires Good(s) && Restorable(s) && Eliminable(s, v)
      modifies this`s
      ensures Good(s) && (ok ==> Restorable(s) && Leads(old(s), s))
      ensures TooCostly(old(s), v, grow, clauseLim) ==> ok && v < |old(s).occurs| && s == Cleaned(old(s), v)
      ensures !TooCostly(old(s), v, grow, clauseLim) && ok ==> s.eliminated == old(s).eliminated[v := true]
      ensures !ok ==> Contradictory(old(s))
    {
      hide Good, Restorable, Leads, Contradictory, SplitOK, SameMeaning, Eliminable, Exceeds, Touch, Resolvents,
           TooCostly, NoDup;
      ghost var s0 := s;
      EliminableIs(s, v);
      Lookup(v);
      ghost var s1 := s;
      CleanedAlive(s0, v);
      CleanedKeeps(s0, v);
      var pos, neg := Split(v);
      SplitTouch(s, v, pos, neg);
      var tooMany := TooMany(pos, neg, v, |pos| + |neg| + grow, clauseLim);
      CostIs(s, v, pos, neg, grow, clauseLim);
      CleanedCost(s0, v, grow, clauseLim);
      if tooMany {
        SameLeads(s0, s);
        SameRestorable(s0, s);
        return true;
      }
      SameLeads(s0, s1);
      SameRestorable(s0, s1);
      ok := Distribute(v, pos, neg);
      if !ok {
        LeadsRefutes(s0, s1);
        return;
      }
      ghost var s4 := s;
      LeadsTrans(s0, s1, s4);
      var stopped;
      ok, stopped := BackwardSubsumptionCheck(subsumptionLim);
      if !ok {
        LeadsRefutes(s0, s4);
        return;
      }
      SameLeads(s4, s);
      LeadsTrans(s0, s4, s);
      SameRestorable(s4, s);
    }

    // The clauses of v are stored, replaced by their resolvents and removed.  The
    // flag of v is set at the end: nothing in between reads it.
    method Distribute(v: Var, pos: seq<nat>, neg: seq<nat>) returns (ok: bool)
      requires Good(s) && Restorable(s) && Eliminable(s, v) && SplitOK(s, v, pos, neg)
      modifies this`s
      ensures Good(s) && (ok ==> Restorable(s) && Leads(old(s), s))
      ensures ok ==> s.eliminated == old(s).eliminated[v := true]
      ensures !ok ==> Contradictory(old(s))
    {
      hide Good, Restorable, Leads, Contradictory, SplitOK, SameMeaning, Appended, AllHeld, Resolvents, Eliminable,
           Touch;
      ghost var s1 := s;
      EliminableIs(s, v);
      SplitTouch(s, v, pos, neg);
      if |pos| > |neg| {
        Store(v, neg, Lit(v, false));
      } else {
        Store(v, pos, Lit(v, true));
      }
      ghost var s2, b := s, MadeBlock(s1, v, pos, neg);
      assert WithBlock(s1, s2, b);
      StoreKeeps(s1, s2, v, pos, neg, b);
      ok := AddResolvents(pos, neg, v);
      if !ok {
        SameContradictory(s1, s2);
        return;
      }
      ghost var s3 := s;
      ClausesOfV(s1, s2, s3, v, b);
      RemoveAll(s.occurs[v]);
      s := s.(eliminated := s.eliminated[v := true], occurs := s.occurs[v := []]);
      assert s == Retired(s3, v);
      RetiredGood(s3, v);
      RetiredLeads(s1, s2, s3, v, b, pos, neg);
      RetiredRestorable(s1, s2, s3, v, b, pos, neg);
    }

    // The loop of eliminate: variables come in any order the heap gives them.
    method Eliminate(order: seq<Var>, grow: int, clauseLim: int, subsumptionLim: int)
      returns (ok: bool, ghost met: seq<Simp>)
      requires Good(s) && Restorable(s) && forall v :: v in order ==> v < s.n
      modifies this`s
      ensures Good(s) && (ok ==> Restorable(s) && Leads(old(s), s) && s.n == old(s).n)
      ensures ok ==> AllHandled(old(s), met, s, order, |order|, grow, clauseLim)
      ensures !ok ==> Contradictory(old(s))
    {
      hide Good, Restorable, Leads, Contradictory, Eliminable, TooCostly, AllHandled;
      met := [];
      ghost var s0 := s;
      var stopped;
      ok, stopped := BackwardSubsumptionCheck(subsumptionLim);
      if !ok {
        return;
      }
      SameLeads(s0, s);
      SameRestorable(s0, s);
      NoneHandled(s0, s, order, grow, clauseLim);
      for i := 0 to |order|
        invariant Good(s) && Restorable(s) && Leads(s0, s) && s.n == s0.n
        invariant AllHandled(s0, met, s, order, i, grow, clauseLim)
      {
        var v := order[i];
        assert v in order;
        GoodSizes(s);
        ghost var u := s;
        LeadsSelf(s);
        if !s.eliminated[v] && Value(s.trail, Lit(v, false)) == Undef {
          ghost var s1 := s;
          MayEliminate(s, v);
          ok := EliminateVar(v, grow, clauseLim, subsumptionLim);
          if !ok {
            LeadsRefutes(s0, s1);
            return;
          }
          LeadsTrans(s0, s1, s);
          LeadsSizes(s0, s);
          GoodSizes(s);
        }
        NextHandled(s0, met, u, s, order, i, grow, clauseLim);
        met := met + [u];
      }
      ok := true;
    }

    // extendModel
    method ExtendModel(model: array<LBool>)
      requires Restorable(s) && model.Length == s.n && Defined(s.blocks, model[..])
      modifies model
      ensures AsSet(model[..]) == ExtendAll(s.blocks, AsSet(old(model[..])))
    {
      hide Restorable, BlocksFit, Defined, ExtendAll, Recs, Flat, ApplyAll, AsSet, Record, Apply, AllFalse, RecordOK,
           RecordAt, InRange;
      ghost var m0, recs := model[..], Recs(s.blocks);
      RestorableIs(s);
      RecordsFit(s.blocks, s.n);
      assert recs[..|recs|] == recs;
      var i := |s.elim| - 1;
      ghost var k: nat := |recs|;
      while i > 0
        invariant k <= |recs| && i + 1 == |Flat(recs[..k])| <= |s.elim| && s.elim[..i + 1] == Flat(recs[..k])
        invariant ApplyAll(recs[..k], model[..]) == ApplyAll(recs, m0)
        decreases k
      {
        LastRecord(recs, k, s.elim, i, s.n);
        k := k - 1;
        ghost var c := recs[k];
        ghost var m1 := model[..];
        ApplyLast(recs, k, m1);
        var j := s.elim[i];
        i := i - 1;
        ghost var base := i + 1 - |c|;
        var satisfied := false;
        while j > 1 && !satisfied
          invariant 1 <= j <= |c| && i == base + j - 1 && model[..] == m1
          invariant forall t :: j <= t < |c| ==> c[t].v < |m1| && ValueOf(m1, c[t]) == False
          invariant satisfied ==> c[j - 1].v < |m1| && j > 1 && ValueOf(m1, c[j - 1]) != False
          decreases j, !satisfied
        {
          CodeAt(s.elim, base, c, j - 1, s.n);
          if ValueOf(model[..], ToLit(s.elim[i])) != False {
            satisfied := true;
          } else {
            j, i := j - 1, i - 1;
          }
        }
        ApplyIs(c, m1, j, satisfied);
        if !satisfied {
          CodeAt(s.elim, base, c, 0, s.n);
          var x := ToLit(s.elim[i]);
          model[x.v] := Sat(x);
        }
        assert model[..] == Apply(c, m1);
        i := i - j;
        assert s.elim[..i + 1] == s.elim[..base];
      }
      AllRead(recs, k, i, model[..], s.n);
      BlocksApplied(s.blocks, m0);
    }
  }

  lemma SameSelf(s: Simp)
    ensures SameMeaning(s, s) && SameBlocks(s, s)
  {
  }

  lemma GoodSizes(s: Simp)
    requires Good(s)
    ensures SizesOK(s) && |s.trail| <= s.n && TrailOK(s)
  {
    TrailBound(s);
  }

  lemma DistinctOf(c: Clause, n: nat)
    requires ClauseOK(c, n)
    ensures DistinctVars(c) && |c| >= 2
  {
  }

  lemma StatusFalse(s: Simp, c: Clause, st: Status)
    requires StatusOK(s, c, st) && st == Falsified
    requires forall a: Assignment :: Means(s, a) ==> Satisfies(a, c)
    ensures Contradictory(s)
  {
    FalseClause(s, c);
  }

  lemma StatusUnit(s: Simp, cr: nat, st: Status)
    requires Good(s) && Alive(s, cr) && StatusOK(s, s.cs[cr], st) && st.Unit?
    ensures Good(Noted(s, st.l)) && SameMeaning(s, Noted(s, st.l)) && SameBlocks(s, Noted(s, st.l))
  {
    LitsInRange(s, cr);
    AliveFollows(s, cr);
    UnitHolds(s, s.cs[cr], st.l);
    NoteKeeps(s, st.l);
  }

  lemma FalseFact(s: Simp, p: Lit)
    requires Value(s.trail, p) == False
    ensures forall a: Assignment :: Means(s, a) ==> !Holds(a, p)
  {
    forall a: Assignment | Means(s, a) ensures !Holds(a, p) {
      NegHolds(a, p);
      assert Neg(p) in s.trail;
    }
  }

  lemma TrueFact(s: Simp, p: Lit)
    requires p in s.trail
    ensures forall a: Assignment :: Means(s, a) ==> Holds(a, p)
  {
  }

  lemma UnitClause(c: Clause)
    requires |c| == 1
    ensures forall a: Assignment :: Satisfies(a, c) <==> Holds(a, c[0])
  {
    assert c == [c[0]];
    forall a: Assignment ensures Satisfies(a, c) <==> Holds(a, c[0]) {
      assert c[0] in c;
    }
  }

  lemma UnitFails(s: Simp, t: Simp, c: Clause)
    requires forall a: Assignment :: Means(s, a) <==> Means(t, a) && Satisfies(a, c)
    requires |c| == 1 && forall a: Assignment :: Satisfies(a, c) <==> Holds(a, c[0])
    requires forall a: Assignment :: Means(t, a) ==> !Holds(a, c[0])
    ensures Contradictory(s)
  {
    hide Means, Satisfies;
  }

  lemma UnitNoted(s: Simp, t: Simp, u: Simp, c: Clause)
    requires forall a: Assignment :: Means(s, a) <==> Means(t, a) && Satisfies(a, c)
    requires |c| == 1 && forall a: Assignment :: Satisfies(a, c) <==> Holds(a, c[0])
    requires forall a: Assignment :: Means(u, a) <==> Means(t, a) && Holds(a, c[0])
    ensures SameMeaning(s, u)
  {
    hide Means, Satisfies;
  }

  // A clause of three literals or more stays, so it still says what it says.
  lemma ShortenedSame(s: Simp, cr: nat, l: Lit)
    requires Good(s) && Alive(s, cr) && l in s.cs[cr] && l.v < s.n && |s.cs[cr]| != 2
    requires forall a: Assignment :: Means(s, a) <==>
             Means(Shortened(s, cr, l), a) && Satisfies(a, WithoutLit(s.cs[cr], l))
    ensures SameMeaning(s, Shortened(s, cr, l))
  {
    ShortenedAlive(s, cr, l);
    AliveFollows(Shortened(s, cr, l), cr);
  }

  lemma Filtered(c: Clause, d: Clause)
    requires DistinctVars(c) && (|d| < |c| || !(Abstraction(c) <= Abstraction(d)))
    ensures !Contains(d, c) && forall p :: !ContainsFlipped(d, c, p)
  {
    if Contains(d, c) || exists p :: ContainsFlipped(d, c, p) {
      FilterPasses(c, d);
      assert false;
    }
  }

  // At most one literal can be flipped, and then c is not contained.
  lemma VerdictUnique(c: Clause, d: Clause)
    requires DistinctVars(d)
    ensures forall p, q :: ContainsFlipped(d, c, p) && ContainsFlipped(d, c, q) ==> p == q
    ensures forall p :: ContainsFlipped(d, c, p) ==> !Contains(d, c)
  {
    forall p | ContainsFlipped(d, c, p) ensures p !in d {
      assert Neg(p) in d && Neg(p).v == p.v && Neg(p) != p;
    }
  }

  // The literal c[i] is missing in d, or a second one would have to be flipped.
  lemma NeitherWay(c: Clause, d: Clause, i: nat, r: Verdict)
    requires DistinctVars(c) && DistinctVars(d) && i < |c| && c[i] !in d
    requires r == Subsumed ==> Neg(c[i]) !in d
    requires r.Flipped? ==> ContainsFlipped(d, c[..i], r.p)
    requires r != Error
    ensures !Contains(d, c) && forall p :: !ContainsFlipped(d, c, p)
  {
    assert c[i] in c;
    forall p ensures !ContainsFlipped(d, c, p) {
      if r.Flipped? {
        assert r.p in c[..i] && Neg(r.p) in d;
        assert r.p in c && r.p != c[i];
        assert Neg(r.p).v == r.p.v;
      }
    }
  }

  // ------------------------------------------------ backward subsumption, details

  function AliveOnly(s: Simp, crs: seq<nat>): seq<nat> {
    if crs == [] then [] else (if Alive(s, crs[0]) then [crs[0]] else []) + AliveOnly(s, crs[1..])
  }

  function Cleaned(s: Simp, v: Var): Simp
    requires v < |s.occurs|
  {
    s.(occurs := s.occurs[v := AliveOnly(s, s.occurs[v])])
  }

  lemma {:induction false} AliveOnlyIs(s: Simp, crs: seq<nat>)
    requires NoDup(crs)
    ensures NoDup(AliveOnly(s, crs)) && forall x :: x in AliveOnly(s, crs) <==> x in crs && Alive(s, x)
  {
    if crs != [] {
      assert crs == [crs[0]] + crs[1..];
      AliveOnlyIs(s, crs[1..]);
      assert crs[0] !in crs[1..];
    }
  }

  lemma CleanGood(s: Simp, v: Var)
    requires Good(s) && v < s.n
    ensures v < |s.occurs|
    ensures Good(Cleaned(s, v)) && SameMeaning(s, Cleaned(s, v)) && SameBlocks(s, Cleaned(s, v))
  {
    var t := Cleaned(s, v);
    forall x: int ensures Alive(t, x) <==> Alive(s, x) {
    }
    forall w | 0 <= w < |t.occurs| ensures OccursAt(t, w) {
      assert OccursAt(s, w);
      AliveOnlyIs(s, s.occurs[w]);
    }
    assert TrailOK(t) && QueueOK(t) && ClausesOK(t);
  }

  // Clause c, of reference cr, is there and holds; -1 is the dummy unit clause.
  ghost predicate Stands(s: Simp, cr: int, c: Clause) {
    (cr == -1 && |c| == 1 && c[0] in s.trail) || (Alive(s, cr) && s.cs[cr] == c && ClauseOK(c, s.n))
  }

  lemma StandsDistinct(s: Simp, cr: int, c: Clause)
    requires Stands(s, cr, c)
    ensures DistinctVars(c) && forall a: Assignment :: Means(s, a) ==> Satisfies(a, c)
  {
    forall a: Assignment | Means(s, a) ensures Satisfies(a, c) {
      if cr == -1 {
        assert c[0] in c;
      }
    }
  }

  // Literals went, or nothing changed that has to be worked off.
  ghost predicate Shrunk(s: Simp, t: Simp) {
    && |s.mark| == |s.cs| == |t.cs| == |t.mark| && t.checked == s.checked
    && (LiveLits(t, |t.cs|) < LiveLits(s, |s.cs|)
        || (LiveLits(t, |t.cs|) == LiveLits(s, |s.cs|) && t.queue == s.queue && t.trail == s.trail))
  }

  lemma ShrunkSelf(s: Simp)
    requires SizesOK(s)
    ensures Shrunk(s, s)
  {
  }

  lemma ShrunkTrans(s: Simp, t: Simp, u: Simp)
    requires Shrunk(s, t) && Shrunk(t, u)
    ensures Shrunk(s, u)
  {
  }

  lemma OccursIn(s: Simp, v: Var, j: nat)
    requires Good(s) && v < s.n && v < |s.occurs| && j < |s.occurs[v]|
    ensures s.occurs[v][j] < |s.cs| == |s.mark|
  {
    assert OccursAt(s, v);
    assert s.occurs[v][j] in s.occurs[v];
  }

  lemma SubsumedStep(s: Simp, cr: int, c: Clause, d: nat)
    requires Good(s) && Stands(s, cr, c) && Alive(s, d) && d != cr && Contains(s.cs[d], c)
    ensures Good(Removed(s, d)) && SizesOK(Removed(s, d)) && SameMeaning(s, Removed(s, d))
            && SameBlocks(s, Removed(s, d))
    ensures Stands(Removed(s, d), cr, c) && Shrunk(s, Removed(s, d))
    ensures LiveLits(Removed(s, d), |s.cs|) < LiveLits(s, |s.cs|)
  {
    var t := Removed(s, d);
    RemoveGood(s, d);
    RemovedMeasure(s, d);
    RemovedAlive(s, d);
    assert Stands(t, cr, c);
    StandsDistinct(t, cr, c);
    forall a: Assignment ensures Means(s, a) <==> Means(t, a) {
      if Means(t, a) {
        SubsumedFollows(a, c, s.cs[d]);
      }
    }
  }

  lemma FlippedStep(s: Simp, cr: int, c: Clause, d: nat, p: Lit)
    requires Good(s) && Stands(s, cr, c) && Alive(s, d) && d != cr && ContainsFlipped(s.cs[d], c, p)
    ensures Neg(p) in s.cs[d]
    ensures forall a: Assignment :: Means(s, a) ==> Satisfies(a, WithoutLit(s.cs[d], Neg(p)))
  {
    StandsDistinct(s, cr, c);
    LitsInRange(s, d);
    AliveFollows(s, d);
    WithoutLitIs(s.cs[d], Neg(p));
    forall a: Assignment | Means(s, a) ensures Satisfies(a, WithoutLit(s.cs[d], Neg(p))) {
      StrengthenedFollows(a, c, s.cs[d], p);
      var l :| l in s.cs[d] && l != Neg(p) && Holds(a, l);
    }
  }

  lemma StrengthenedShrinks(s: Simp, t: Simp, cr: int, c: Clause, d: nat, l: Lit)
    requires Good(s) && Alive(s, d) && l in s.cs[d] && l.v < |s.occurs| && d != cr && Stands(s, cr, c)
    requires t == Shortened(s, d, l).(trail := t.trail) && s.trail <= t.trail
    ensures Shrunk(s, t) && Stands(t, cr, c) && |t.cs| == |s.cs| && |t.occurs| == |s.occurs|
    ensures LiveLits(t, |t.cs|) < LiveLits(s, |s.cs|)
  {
    LitsInRange(s, d);
    StrengthenedMeasure(s, d, l);
    ShortenedAlive(s, d, l);
    MeasureIgnores(Shortened(s, d, l), t, |t.cs|);
    if cr == -1 && |c| == 1 && c[0] in s.trail {
      assert c[0] in t.trail;
    } else {
      assert Alive(t, cr) && t.cs[cr] == c;
    }
  }

  // ------------------------------------------- what backward subsumption finds

  // d contains c, but perhaps for one literal that it has negated.
  ghost predicate Hits(d: Clause, c: Clause) {
    Contains(d, c) || exists p :: ContainsFlipped(d, c, p)
  }

  // Clause d need not go or lose a literal because of clause c, of reference cr.
  ghost predicate Spared(s: Simp, lim: int, cr: int, c: Clause, d: int) {
    Alive(s, d) && d != cr && (lim == -1 || |s.cs[d]| < lim) ==> !Hits(s.cs[d], c)
  }

  ghost predicate NoneHit(s: Simp, lim: int, cr: int, c: Clause) {
    forall d: int :: Spared(s, lim, cr, c, d)
  }

  ghost predicate Passed(s: Simp, lim: int, cr: int, c: Clause, ds: seq<nat>) {
    forall d :: d in ds ==> Spared(s, lim, cr, c, d)
  }

  // Clauses have gone or lost literals; those that lost any are in the queue.
  ghost predicate Narrower(s: Simp, t: Simp, lim: int) {
    && |t.cs| == |s.cs| && t.checked == s.checked && t.tmp == s.tmp && s.trail <= t.trail
    && (forall q :: q in s.queue ==> q in t.queue)
    && forall x: int :: Alive(t, x) ==> Alive(s, x) && NarrowerAt(s, t, lim, x)
  }

  ghost predicate NarrowerAt(s: Simp, t: Simp, lim: int, x: int)
    requires 0 <= x < |s.cs| == |t.cs|
  {
    && (forall l :: l in t.cs[x] ==> l in s.cs[x])
    && (t.cs[x] != s.cs[x] ==> x in t.queue && (lim == -1 || |s.cs[x]| < lim))
  }

  lemma NarrowerSelf(s: Simp, lim: int)
    ensures Narrower(s, s, lim)
  {
  }

  lemma NarrowerTrans(s: Simp, t: Simp, u: Simp, lim: int)
    requires Narrower(s, t, lim) && Narrower(t, u, lim)
    ensures Narrower(s, u, lim)
  {
    forall x: int | Alive(u, x) ensures Alive(s, x) && NarrowerAt(s, u, lim, x) {
      assert Alive(t, x) && NarrowerAt(s, t, lim, x) && NarrowerAt(t, u, lim, x);
    }
  }

  // A part of a clause is hit only if the clause is.
  lemma HitsLess(d: Clause, less: Clause, c: Clause)
    requires Hits(less, c) && forall l :: l in less ==> l in d
    ensures Hits(d, c)
  {
    if !Contains(less, c) {
      var p :| ContainsFlipped(less, c, p);
      assert ContainsFlipped(d, c, p);
    }
  }

  lemma SparedNarrower(s: Simp, t: Simp, lim: int, cr: int, c: Clause, d: int)
    requires Narrower(s, t, lim) && Spared(s, lim, cr, c, d)
    ensures Spared(t, lim, cr, c, d)
  {
    hide Hits;
    if Alive(t, d) && Hits(t.cs[d], c) {
      assert NarrowerAt(s, t, lim, d);
      HitsLess(s.cs[d], t.cs[d], c);
    }
  }

  lemma NoneHitNarrower(s: Simp, t: Simp, lim: int, cr: int, c: Clause)
    requires Narrower(s, t, lim) && NoneHit(s, lim, cr, c)
    ensures NoneHit(t, lim, cr, c)
  {
    hide Narrower, Spared;
    forall d: int ensures Spared(t, lim, cr, c, d) {
      SparedNarrower(s, t, lim, cr, c, d);
    }
  }

  lemma PassedNarrower(s: Simp, t: Simp, lim: int, cr: int, c: Clause, ds: seq<nat>)
    requires Narrower(s, t, lim) && Passed(s, lim, cr, c, ds)
    ensures Passed(t, lim, cr, c, ds)
  {
    hide Narrower, Spared;
    forall d | d in ds ensures Spared(t, lim, cr, c, d) {
      SparedNarrower(s, t, lim, cr, c, d);
    }
  }

  lemma NonePassed(s: Simp, lim: int, cr: int, c: Clause, ds: seq<nat>)
    ensures Passed(s, lim, cr, c, ds[..0])
  {
  }

  lemma PassedNext(s: Simp, lim: int, cr: int, c: Clause, ds: seq<nat>, j: nat)
    requires j < |ds| && Passed(s, lim, cr, c, ds[..j]) && Spared(s, lim, cr, c, ds[j])
    ensures Passed(s, lim, cr, c, ds[..j + 1])
  {
    hide Spared;
    assert ds[..j + 1] == ds[..j] + [ds[j]];
  }

  lemma StillThere(s: Simp, cr: int, c: Clause)
    requires Stands(s, cr, c)
    ensures !(0 <= cr < |s.mark| && s.mark[cr])
  {
  }

  lemma RemovedPasses(s0: Simp, s: Simp, lim: int, cr: int, c: Clause, best: Var, j: nat)
    requires Narrower(s0, s, lim) && best < |s.occurs| && j < |s.occurs[best]| && Alive(s, s.occurs[best][j])
    requires Passed(s, lim, cr, c, s.occurs[best][..j])
    ensures var t := Removed(s, s.occurs[best][j]);
            Narrower(s0, t, lim) && Passed(t, lim, cr, c, t.occurs[best][..j + 1])
  {
    hide Hits, Passed;
    var t := Removed(s, s.occurs[best][j]);
    RemovedAlive(s, s.occurs[best][j]);
    assert Narrower(s, t, lim);
    NarrowerTrans(s0, s, t, lim);
    PassedNarrower(s, t, lim, cr, c, s.occurs[best][..j]);
    PassedNext(t, lim, cr, c, t.occurs[best], j);
  }

  // A clause that has lost its flipped literal is not hit again.
  lemma StrengthenedMissed(d: Clause, c: Clause, p: Lit)
    requires DistinctVars(d) && ContainsFlipped(d, c, p)
    ensures !Hits(WithoutLit(d, Neg(p)), c)
  {
    WithoutLitIs(d, Neg(p));
    assert p !in d by {
      assert Neg(p) in d && Neg(p).v == p.v && Neg(p) != p;
    }
    forall q ensures !ContainsFlipped(WithoutLit(d, Neg(p)), c, q) {
    }
  }

  lemma StrengthenedNarrower(s: Simp, t: Simp, lim: int, d: nat, l: Lit)
    requires Good(s) && Alive(s, d) && l in s.cs[d] && l.v < |s.occurs| && (lim == -1 || |s.cs[d]| < lim)
    requires t == Shortened(s, d, l).(trail := t.trail) && s.trail <= t.trail
    ensures Narrower(s, t, lim)
  {
    LitsInRange(s, d);
    DistinctOf(s.cs[d], s.n);
    WithoutLitIs(s.cs[d], l);
    ShortenedAlive(s, d, l);
    forall x: int | Alive(t, x) ensures Alive(s, x) && NarrowerAt(s, t, lim, x) {
      assert Alive(Shortened(s, d, l), x);
    }
  }

  lemma StrengthenedPasses(s0: Simp, s: Simp, t: Simp, lim: int, cr: int, c: Clause, best: Var, j: nat, p: Lit)
    requires Good(s) && Narrower(s0, s, lim) && best < |s.occurs| && j < |s.occurs[best]|
    requires Alive(s, s.occurs[best][j]) && ContainsFlipped(s.cs[s.occurs[best][j]], c, p)
    requires (lim == -1 || |s.cs[s.occurs[best][j]]| < lim) && Neg(p).v < |s.occurs|
    requires Passed(s, lim, cr, c, s.occurs[best][..j]) && s.trail <= t.trail
    requires t == Shortened(s, s.occurs[best][j], Neg(p)).(trail := t.trail)
    ensures Narrower(s0, t, lim) && |t.occurs| == |s.occurs| && |t.occurs[best]| >= j
    ensures Passed(t, lim, cr, c, t.occurs[best][..j])
    ensures p.v != best ==> j < |t.occurs[best]| && Passed(t, lim, cr, c, t.occurs[best][..j + 1])
  {
    hide Good, Hits, Passed, Narrower, ContainsFlipped;
    var d := s.occurs[best][j];
    assert Neg(p) in s.cs[d] by { FlippedIn(s.cs[d], c, p); }
    StrengthenedNarrower(s, t, lim, d, Neg(p));
    NarrowerTrans(s0, s, t, lim);
    PassedNarrower(s, t, lim, cr, c, s.occurs[best][..j]);
    OccursDistinctly(s, best);
    WithoutTail(s.occurs[best], j);
    if p.v != best {
      LitsInRange(s, d);
      DistinctOf(s.cs[d], s.n);
      StrengthenedMissed(s.cs[d], c, p);
      assert t.cs[d] == WithoutLit(s.cs[d], Neg(p));
      PassedNext(t, lim, cr, c, t.occurs[best], j);
    }
  }

  lemma FlippedIn(d: Clause, c: Clause, p: Lit)
    requires ContainsFlipped(d, c, p)
    ensures Neg(p) in d
  {
  }

  lemma OccursDistinctly(s: Simp, v: Var)
    requires Good(s) && v < |s.occurs|
    ensures NoDup(s.occurs[v])
  {
    assert OccursAt(s, v);
  }

  // Taking an element out leaves those before it where they are.
  lemma {:induction false} WithoutTail(crs: seq<nat>, j: nat)
    requires NoDup(crs) && j < |crs|
    ensures |WithoutRef(crs, crs[j])| >= j && WithoutRef(crs, crs[j])[..j] == crs[..j]
  {
    if j > 0 {
      assert crs[1..][j - 1] == crs[j] && crs[0] != crs[j];
      WithoutTail(crs[1..], j - 1);
      var rest := WithoutRef(crs[1..], crs[j]);
      assert ([crs[0]] + rest)[..j] == [crs[0]] + rest[..j - 1];
      assert crs[..j] == [crs[0]] + crs[1..][..j - 1];
    }
  }

  // A clause that is hit has the variable that was looked up.
  lemma NotHit(d: Clause, c: Clause)
    requires !Contains(d, c) && forall p :: !ContainsFlipped(d, c, p)
    ensures !Hits(d, c)
  {
  }

  lemma HitsVar(d: Clause, c: Clause, v: Var)
    requires Hits(d, c) && VarIn(c, v)
    ensures VarIn(d, v)
  {
    var l :| l in c && l.v == v;
    if !Contains(d, c) {
      var p :| ContainsFlipped(d, c, p);
      assert Neg(p).v == p.v;
    }
  }

  lemma AllPassed(s: Simp, lim: int, cr: int, c: Clause, best: Var)
    requires Good(s) && best < |s.occurs| && VarIn(c, best) && Passed(s, lim, cr, c, s.occurs[best][..|s.occurs[best]|])
    ensures NoneHit(s, lim, cr, c)
  {
    hide Hits;
    assert OccursAt(s, best);
    assert s.occurs[best][..|s.occurs[best]|] == s.occurs[best];
    forall d: int ensures Spared(s, lim, cr, c, d) {
      if Alive(s, d) && Hits(s.cs[d], c) {
        HitsVar(s.cs[d], c, best);
        assert d in s.occurs[best];
      }
    }
  }

  // From s0 on every clause has been compared with the others that was in the queue or
  // has lost literals, unless it still waits, and every fact that has been taken up.
  ghost predicate Worked(s0: Simp, s: Simp, lim: int) {
    && |s.cs| == |s0.cs| && s0.checked <= s.checked <= |s.trail|
    && (forall x: int :: Alive(s, x) && x !in s.queue && (x in s0.queue || s.cs[x] != s0.cs[x]) ==>
          NoneHit(s, lim, x, s.cs[x]))
    && forall k :: s0.checked <= k < s.checked ==> NoneHit(s, lim, -1, [s.trail[k]])
  }

  lemma WorkedNone(s: Simp, lim: int)
    requires SizesOK(s)
    ensures Worked(s, s, lim)
  {
  }

  // Only the queue, the facts taken up and the lists of occurrences change.
  lemma SparedSame(s: Simp, t: Simp, lim: int, cr: int, c: Clause)
    requires t.cs == s.cs && t.mark == s.mark && NoneHit(s, lim, cr, c)
    ensures NoneHit(t, lim, cr, c)
  {
    hide Hits;
    forall d: int ensures Spared(t, lim, cr, c, d) {
      assert Spared(s, lim, cr, c, d);
    }
  }

  // The first of the queue, or the next fact, is taken.
  ghost predicate Taken(s: Simp, t: Simp, cr: int) {
    && t.cs == s.cs && t.mark == s.mark && t.trail == s.trail
    && if s.queue != [] then cr == s.queue[0] && t.queue == s.queue[1..] && t.checked == s.checked
       else cr == -1 && t.queue == [] && s.checked < |s.trail| && t.checked == s.checked + 1
            && t.tmp == s.trail[s.checked]
  }

  // It has been compared with the others.
  lemma WorkedNext(s0: Simp, s: Simp, t: Simp, u: Simp, lim: int, cr: int, c: Clause)
    requires Worked(s0, s, lim) && Taken(s, t, cr) && Narrower(t, u, lim) && NoneHit(u, lim, cr, c)
    requires Stands(u, cr, c) && (cr == -1 ==> c == [t.tmp])
    ensures Worked(s0, u, lim)
  {
    hide NoneHit, Narrower;
    NarrowerFrame(t, u, lim);
    forall x: int | Alive(u, x) && x !in u.queue && (x in s0.queue || u.cs[x] != s0.cs[x])
      ensures NoneHit(u, lim, x, u.cs[x])
    {
      NarrowerSame(t, u, lim, x);
      if x != cr {
        NotWaiting(s, t, cr, x);
        SparedSame(s, t, lim, x, s.cs[x]);
        NoneHitNarrower(t, u, lim, x, s.cs[x]);
      }
    }
    forall k | s0.checked <= k < u.checked ensures NoneHit(u, lim, -1, [u.trail[k]]) {
      if k < s.checked {
        SparedSame(s, t, lim, -1, [s.trail[k]]);
        NoneHitNarrower(t, u, lim, -1, [s.trail[k]]);
      }
    }
  }

  lemma NotWaiting(s: Simp, t: Simp, cr: int, x: int)
    requires Taken(s, t, cr) && x !in t.queue && x != cr
    ensures x !in s.queue
  {
  }

  lemma NarrowerFrame(s: Simp, t: Simp, lim: int)
    requires Narrower(s, t, lim)
    ensures |t.cs| == |s.cs| && t.checked == s.checked && t.tmp == s.tmp && s.trail <= t.trail
    ensures forall q :: q in s.queue ==> q in t.queue
  {
  }

  lemma NarrowerSame(s: Simp, t: Simp, lim: int, x: int)
    requires Narrower(s, t, lim) && Alive(t, x) && x !in t.queue
    ensures Alive(s, x) && t.cs[x] == s.cs[x]
  {
    assert NarrowerAt(s, t, lim, x);
  }

  // A clause that has gone needs no comparing.
  lemma WorkedSkip(s0: Simp, s: Simp, t: Simp, lim: int, cr: int)
    requires Worked(s0, s, lim) && Taken(s, t, cr) && 0 <= cr < |t.mark| && t.mark[cr]
    ensures Worked(s0, t, lim)
  {
    hide NoneHit;
    forall x: int | Alive(t, x) && x !in t.queue && (x in s0.queue || t.cs[x] != s0.cs[x])
      ensures NoneHit(t, lim, x, t.cs[x])
    {
      NotWaiting(s, t, cr, x);
      SparedSame(s, t, lim, x, s.cs[x]);
    }
    forall k | s0.checked <= k < t.checked ensures NoneHit(t, lim, -1, [t.trail[k]]) {
      SparedSame(s, t, lim, -1, [s.trail[k]]);
    }
  }

  // Once the queue is empty: no clause that was in it, or has lost literals, is part of
  // another clause, be it but for one literal that is flipped.
  lemma NothingSubsumed(s0: Simp, s: Simp, lim: int, x: int, d: int)
    requires Worked(s0, s, lim) && s.queue == [] && Alive(s, x) && (x in s0.queue || s.cs[x] != s0.cs[x])
    requires Alive(s, d) && d != x && (lim == -1 || |s.cs[d]| < lim)
    ensures !Contains(s.cs[d], s.cs[x]) && forall p :: !ContainsFlipped(s.cs[d], s.cs[x], p)
  {
    assert Spared(s, lim, x, s.cs[x], d);
  }

  // And no clause has a literal that a new fact decides.
  lemma FactsTaken(s0: Simp, s: Simp, lim: int, k: nat, d: int)
    requires Worked(s0, s, lim) && s.checked == |s.trail| && s0.checked <= k < |s.trail|
    requires Alive(s, d) && (lim == -1 || |s.cs[d]| < lim)
    ensures s.trail[k] !in s.cs[d] && Neg(s.trail[k]) !in s.cs[d]
  {
    assert Spared(s, lim, -1, [s.trail[k]], d);
    FactHits(s.cs[d], s.trail[k]);
  }

  lemma FactHits(d: Clause, l: Lit)
    ensures l in d || Neg(l) in d ==> Hits(d, [l])
  {
    if l in d {
      assert Contains(d, [l]);
    } else if Neg(l) in d {
      assert ContainsFlipped(d, [l], l);
    }
  }

  lemma Interrupted(s: Simp)
    requires Good(s)
    ensures var t := s.(queue := [], checked := |s.trail|);
            Good(t) && SizesOK(t) && SameMeaning(s, t) && SameBlocks(s, t)
  {
    QueueOnly(s, s.(queue := [], checked := |s.trail|));
  }

  lemma QueueOnly(s: Simp, t: Simp)
    requires Good(s) && t == s.(queue := t.queue, checked := t.checked, tmp := t.tmp)
    requires t.checked <= |t.trail| && QueueOK(t)
    ensures Good(t) && SizesOK(t) && SameMeaning(s, t) && SameBlocks(s, t)
  {
    forall x: int ensures Alive(t, x) <==> Alive(s, x) {
    }
    forall w | 0 <= w < |t.occurs| ensures OccursAt(t, w) {
      assert OccursAt(s, w);
    }
    assert TrailOK(t) && ClausesOK(t);
  }

  lemma NextFact(s: Simp)
    requires Good(s) && |s.queue| == 0 && s.checked < |s.trail|
    ensures var t := s.(tmp := s.trail[s.checked], checked := s.checked + 1, queue := [-1]);
            Good(t) && SizesOK(t) && SameMeaning(s, t) && SameBlocks(s, t)
  {
    QueueOnly(s, s.(tmp := s.trail[s.checked], checked := s.checked + 1, queue := [-1]));
  }

  lemma Popped(s: Simp)
    requires Good(s) && s.queue != []
    ensures -1 <= s.queue[0] < |s.cs|
    ensures var t := s.(queue := s.queue[1..]);
            Good(t) && SizesOK(t) && SameMeaning(s, t) && SameBlocks(s, t)
  {
    var t := s.(queue := s.queue[1..]);
    assert s.queue[0] in s.queue;
    assert QueueOK(t) by {
      forall q | q in t.queue ensures -1 <= q < |t.cs| && (q == -1 ==> t.tmp in t.trail) {
        assert q in s.queue;
      }
    }
    QueueOnly(s, t);
  }

  lemma StandsNow(s: Simp, t: Simp, cr: int, c: Clause)
    requires Good(s) && Good(t) && s.queue != [] && cr == s.queue[0] && t == s.(queue := s.queue[1..])
    requires -1 <= cr < |s.cs| && !(0 <= cr && t.mark[cr])
    requires c == if cr == -1 then [t.tmp] else t.cs[cr]
    ensures Stands(t, cr, c) && |c| > 0 && |t.occurs| == t.n && InRange(c, t.n)
  {
    assert s.queue[0] in s.queue;
    if cr == -1 {
      assert t.tmp in t.trail && TrailOK(t);
      assert c[0] == t.tmp;
    } else {
      LitsInRange(t, cr);
    }
  }

  lemma CleanKeeps(s: Simp, v: Var, cr: int, c: Clause)
    requires Stands(s, cr, c) && v < |s.occurs|
    ensures Stands(Cleaned(s, v), cr, c)
  {
  }

  // -------------------------------------------------- adding a clause, details

  // The clauses from n0 on and the facts.
  ghost predicate NewMeans(s: Simp, n0: nat, a: Assignment) {
    AllHold(a, s.trail) && forall cr: int :: n0 <= cr && Alive(s, cr) ==> Satisfies(a, s.cs[cr])
  }

  ghost predicate Held(s: Simp, n0: nat, c: Clause) {
    forall a: Assignment :: NewMeans(s, n0, a) ==> Satisfies(a, c)
  }

  // Clauses were added only, made of literals of ps, and facts.
  ghost predicate Grown(s: Simp, t: Simp, ps: Clause) {
    && SameBlocks(s, t) && |s.cs| <= |t.cs| && t.cs[..|s.cs|] == s.cs
    && |s.mark| == |s.cs| && |t.mark| == |t.cs| && t.mark[..|s.cs|] == s.mark
    && forall cr: int, l :: |s.cs| <= cr < |t.cs| && l in t.cs[cr] ==> l in ps
  }

  lemma GrownSelf(s: Simp, t: Simp, ps: Clause)
    requires Good(s) && SameBlocks(s, t) && t == s.(trail := t.trail)
    ensures Grown(s, t, ps)
  {
  }

  lemma DroppedStep(s: Simp, ps: Clause)
    requires Good(s) && exists l :: l in ps && (l in s.trail || Neg(l) in ps)
    ensures Grown(s, s, ps) && Held(s, |s.cs|, ps)
    ensures forall a: Assignment :: Means(s, a) <==> Means(s, a) && Satisfies(a, ps)
  {
    GrownSelf(s, s, ps);
    forall a: Assignment | AllHold(a, s.trail) ensures Satisfies(a, ps) {
      DroppedHolds(s.trail, ps, a);
    }
  }

  // With the facts, what is left says what the clause says.
  lemma KeptStep(s: Simp, ps: Clause, out: Clause)
    requires Good(s) && InRange(ps, s.n) && FreeOf(s, ps) && Kept(s.trail, ps, |ps|, out)
    ensures forall a: Assignment :: AllHold(a, s.trail) ==> (Satisfies(a, out) <==> Satisfies(a, ps))
    ensures InRange(out, s.n) && FreeOf(s, out) && DistinctVars(out)
    ensures |out| >= 1 ==> out[0].v < s.n
    ensures forall l :: l in out ==> l in ps
  {
    assert ps[..|ps|] == ps;
    assert |out| >= 1 ==> out[0] in out;
    forall a: Assignment | AllHold(a, s.trail) ensures Satisfies(a, out) <==> Satisfies(a, ps) {
      KeptHolds(s.trail, ps, out, a);
    }
  }

  lemma NothingLeft(s: Simp, ps: Clause, out: Clause)
    requires forall a: Assignment :: AllHold(a, s.trail) ==> (Satisfies(a, out) <==> Satisfies(a, ps))
    requires out == [] && Good(s)
    ensures forall a: Assignment :: Means(s, a) ==> !Satisfies(a, ps)
    ensures Grown(s, s, ps)
  {
    GrownSelf(s, s, ps);
  }

  lemma UnitClash(s: Simp, ps: Clause, out: Clause)
    requires forall a: Assignment :: AllHold(a, s.trail) ==> (Satisfies(a, out) <==> Satisfies(a, ps))
    requires |out| == 1 && forall a: Assignment :: Means(s, a) ==> !Holds(a, out[0])
    ensures forall a: Assignment :: Means(s, a) ==> !Satisfies(a, ps)
  {
    hide Holds, Satisfies;
    UnitClause(out);
  }

  lemma UnitStep(s: Simp, t: Simp, u: Simp, ps: Clause, out: Clause)
    requires forall a: Assignment :: AllHold(a, s.trail) ==> (Satisfies(a, out) <==> Satisfies(a, ps))
    requires |out| == 1 && Good(s) && SameBlocks(s, t) && t == s.(trail := t.trail) && out[0] in t.trail
    requires forall a: Assignment :: Means(t, a) <==> Means(s, a) && Holds(a, out[0])
    requires SameMeaning(t, u) && SameBlocks(t, u) && u == t.(trail := u.trail)
    ensures Grown(s, u, ps) && Held(u, |s.cs|, ps)
    ensures forall a: Assignment :: Means(u, a) <==> Means(s, a) && Satisfies(a, ps)
  {
    hide Satisfies, Holds, Good, Alive;
    UnitClause(out);
    GrownSelf(s, u, ps);
    forall a: Assignment | AllHold(a, u.trail) ensures Satisfies(a, ps) {
      TrailLess(s.trail, t.trail, u.trail, out[0], a);
    }
  }

  lemma TrailLess(x: seq<Lit>, y: seq<Lit>, z: seq<Lit>, p: Lit, a: Assignment)
    requires x <= y && y <= z && p in y && AllHold(a, z)
    ensures AllHold(a, x) && Holds(a, p)
  {
    assert p in z;
    forall l | l in x ensures l in z {
    }
  }

  lemma UnitRefutes(s: Simp, t: Simp, ps: Clause, out: Clause)
    requires forall a: Assignment :: AllHold(a, s.trail) ==> (Satisfies(a, out) <==> Satisfies(a, ps))
    requires |out| == 1 && Contradictory(t)
    requires forall a: Assignment :: Means(t, a) <==> Means(s, a) && Holds(a, out[0])
    ensures forall a: Assignment :: Means(s, a) ==> !Satisfies(a, ps)
  {
    hide Holds, Satisfies, Alive;
    UnitClause(out);
  }

  lemma LongStep(s: Simp, ps: Clause, out: Clause)
    requires forall a: Assignment :: AllHold(a, s.trail) ==> (Satisfies(a, out) <==> Satisfies(a, ps))
    requires Good(s) && |out| >= 2 && InRange(out, s.n) && DistinctVars(out) && FreeOf(s, out)
    requires forall l :: l in out ==> l in ps
    ensures var t := Added(s, out);
            && Good(t) && Grown(s, t, ps) && Held(t, |s.cs|, ps)
            && forall a: Assignment :: Means(t, a) <==> Means(s, a) && Satisfies(a, ps)
  {
    hide Good, Satisfies, AllHold, FreeOf;
    var t := Added(s, out);
    AddedGood(s, out);
    assert Grown(s, t, ps) by { GoodSizes(s); }
    assert Alive(t, |s.cs|) && t.cs[|s.cs|] == out by { GoodSizes(s); }
  }

  // ------------------------------------------------------- merging, details

  lemma NoClashYet(qs: Clause, ps: Clause, v: Var)
    ensures !Clashes(qs[..0], ps, v) && qs[0..] == qs
  {
  }

  lemma MissingStep(qs: Clause, ps: Clause, v: Var, i: nat, out: Clause)
    requires i <= |qs|
    ensures i == |qs| ==> out + Missing(qs[i..], ps, v) == out
    ensures i < |qs| ==>
              out + Missing(qs[i..], ps, v)
              == out + (if qs[i].v != v && !VarIn(ps, qs[i].v) then [qs[i]] else []) + Missing(qs[i + 1..], ps, v)
  {
    if i < |qs| {
      assert qs[i..][0] == qs[i] && qs[i..][1..] == qs[i + 1..];
    }
  }

  lemma OthersStep(ps: Clause, v: Var, i: nat, out: Clause)
    requires i <= |ps|
    ensures i == |ps| ==> out + Others(ps[i..], v) == out
    ensures i < |ps| ==>
              out + Others(ps[i..], v) == out + (if ps[i].v != v then [ps[i]] else []) + Others(ps[i + 1..], v)
  {
    if i < |ps| {
      assert ps[i..][0] == ps[i] && ps[i..][1..] == ps[i + 1..];
    }
  }

  // The first literal of the variable decides, as there is no other.
  lemma FoundVar(qs: Clause, ps: Clause, v: Var, i: nat, j: nat)
    requires DistinctVars(ps) && i < |qs| && qs[i].v != v && !Clashes(qs[..i], ps, v)
    requires j <= |ps| && (j < |ps| ==> ps[j].v == qs[i].v) && (j == |ps| <==> !VarIn(ps, qs[i].v))
    ensures j < |ps| && ps[j] == Neg(qs[i]) ==> Clashes(qs, ps, v)
    ensures !(j < |ps| && ps[j] == Neg(qs[i])) ==> !Clashes(qs[..i + 1], ps, v)
  {
    assert qs[..i + 1] == qs[..i] + [qs[i]];
    if j < |ps| && ps[j] == Neg(qs[i]) {
      assert qs[i] in qs && Neg(qs[i]) in ps;
    } else if Clashes(qs[..i + 1], ps, v) {
      var l :| l in qs[..i + 1] && l.v != v && Neg(l) in ps;
      assert l == qs[i];
      assert Neg(l).v == l.v;
      assert VarIn(ps, l.v);
      OneOfVar(ps, Neg(l), ps[j]);
    }
  }

  lemma SkipV(qs: Clause, ps: Clause, v: Var, i: nat)
    requires i < |qs| && qs[i].v == v && !Clashes(qs[..i], ps, v)
    ensures !Clashes(qs[..i + 1], ps, v)
  {
    assert qs[..i + 1] == qs[..i] + [qs[i]];
  }

  // -------------------------------------------------- eliminating, details

  ghost predicate AllAlive(s: Simp, crs: seq<nat>) {
    forall cr :: cr in crs ==> Alive(s, cr)
  }

  // pos and neg are the clauses with v and with its negation.
  ghost predicate SplitOK(s: Simp, v: Var, pos: seq<nat>, neg: seq<nat>) {
    && (forall cr: nat :: cr in pos <==> Alive(s, cr) && Lit(v, false) in s.cs[cr])
    && (forall cr: nat :: cr in neg <==> Alive(s, cr) && Lit(v, true) in s.cs[cr])
  }

  ghost predicate Touch(s: Simp, v: Var, crs: seq<nat>) {
    forall i :: 0 <= i < |crs| ==> crs[i] < |s.cs| && DistinctVars(s.cs[crs[i]]) && VarIn(s.cs[crs[i]], v)
  }

  function ClausesAt(s: Simp, crs: seq<nat>): seq<Clause> {
    seq(|crs|, i requires 0 <= i < |crs| => if crs[i] < |s.cs| then s.cs[crs[i]] else [])
  }

  lemma ClausesAtLength(s: Simp, crs: seq<nat>)
    ensures |ClausesAt(s, crs)| == |crs|
  {
  }

  // The smaller side is stored, and the default satisfies the other.
  function MadeBlock(s: Simp, v: Var, pos: seq<nat>, neg: seq<nat>): Block {
    if |pos| > |neg| then Block(v, ClausesAt(s, neg), false) else Block(v, ClausesAt(s, pos), true)
  }

  lemma OccursDistinct(s: Simp, v: Var)
    requires Good(s) && v < |s.occurs|
    ensures NoDup(s.occurs[v])
  {
    assert OccursAt(s, v);
  }

  lemma NoDupNil<T>()
    ensures NoDup<T>([])
  {
  }

  lemma NotBefore(crs: seq<nat>, i: nat)
    requires NoDup(crs) && i < |crs|
    ensures crs[i] !in crs[..i]
  {
  }

  lemma NoDupSnoc(crs: seq<nat>, x: nat)
    requires NoDup(crs)
    ensures x !in crs ==> NoDup(crs + [x])
  {
  }

  lemma SplitDone(s: Simp, v: Var, pos: seq<nat>, neg: seq<nat>)
    requires Good(s) && v < s.n && v < |s.occurs| && AllAlive(s, s.occurs[v])
    requires forall cr: nat :: cr in pos <==> cr in s.occurs[v] && cr < |s.cs| && Lit(v, false) in s.cs[cr]
    requires forall cr: nat :: cr in neg <==> cr in s.occurs[v] && cr < |s.cs| && Lit(v, false) !in s.cs[cr]
    ensures SplitOK(s, v, pos, neg)
  {
    assert OccursAt(s, v);
    forall cr: nat | Alive(s, cr) && VarIn(s.cs[cr], v)
      ensures Lit(v, true) in s.cs[cr] <==> Lit(v, false) !in s.cs[cr]
    {
      assert ClauseOK(s.cs[cr], s.n);
      var x :| x in s.cs[cr] && x.v == v;
      assert x == Lit(v, true) || x == Lit(v, false);
    }
    forall cr: nat, b: bool | Alive(s, cr) && Lit(v, b) in s.cs[cr] ensures VarIn(s.cs[cr], v) {
    }
  }

  lemma SplitTouch(s: Simp, v: Var, pos: seq<nat>, neg: seq<nat>)
    requires Good(s) && SplitOK(s, v, pos, neg)
    ensures Touch(s, v, pos) && Touch(s, v, neg)
  {
    forall i | 0 <= i < |pos|
      ensures pos[i] < |s.cs| && DistinctVars(s.cs[pos[i]]) && VarIn(s.cs[pos[i]], v)
    {
      assert pos[i] in pos;
      assert ClauseOK(s.cs[pos[i]], s.n);
      assert Lit(v, false) in s.cs[pos[i]];
    }
    forall i | 0 <= i < |neg|
      ensures neg[i] < |s.cs| && DistinctVars(s.cs[neg[i]]) && VarIn(s.cs[neg[i]], v)
    {
      assert neg[i] in neg;
      assert ClauseOK(s.cs[neg[i]], s.n);
      assert Lit(v, true) in s.cs[neg[i]];
    }
  }

  // More resolvents than limit, or a longer one than clauseLim.
  ghost predicate Exceeds(rs: seq<Clause>, limit: int, clauseLim: int) {
    (rs != [] && |rs| > limit) || (clauseLim != -1 && exists r :: r in rs && |r| > clauseLim)
  }

  // A clause with v and one without its negation that have a resolvent.
  ghost predicate Meets(s: Simp, v: Var, p: nat, q: nat) {
    && Alive(s, p) && Alive(s, q) && Lit(v, false) in s.cs[p] && Lit(v, true) in s.cs[q]
    && !Clashes(s.cs[p], s.cs[q], v)
  }

  ghost function Pairs(s: Simp, v: Var): set<(nat, nat)> {
    set p: nat, q: nat | p < |s.cs| && q < |s.cs| && Meets(s, v, p, q) :: (p, q)
  }

  ghost function ClausesOf(s: Simp, v: Var): set<nat> {
    set cr: nat | cr < |s.cs| && Alive(s, cr) && VarIn(s.cs[cr], v)
  }

  // Eliminating v would make more resolvents than the clauses of v and grow, or a
  // longer one than clauseLim.
  ghost predicate TooCostly(s: Simp, v: Var, grow: int, clauseLim: int) {
    || (Pairs(s, v) != {} && |Pairs(s, v)| > |ClausesOf(s, v)| + grow)
    || (clauseLim != -1 && exists p: nat, q: nat :: Meets(s, v, p, q) && |Merged(s.cs[p], s.cs[q], v)| > clauseLim)
  }

  ghost predicate AllThere(s: Simp, crs: seq<nat>) {
    forall i :: 0 <= i < |crs| ==> crs[i] < |s.cs|
  }

  ghost function RowPairs(s: Simp, v: Var, p: nat, neg: seq<nat>): set<(nat, nat)>
    requires p < |s.cs|
  {
    set q | q in neg && q < |s.cs| && !Clashes(s.cs[p], s.cs[q], v) :: (p, q)
  }

  lemma {:induction false} RowCount(s: Simp, v: Var, p: nat, neg: seq<nat>)
    requires NoDup(neg) && p < |s.cs| && AllThere(s, neg)
    ensures |Row(s.cs[p], ClausesAt(s, neg), v)| == |RowPairs(s, v, p, neg)|
  {
    hide Clashes, Merged;
    if neg == [] {
      assert RowPairs(s, v, p, neg) == {};
    } else {
      assert neg == [neg[0]] + neg[1..];
      assert neg[0] in neg;
      RowCount(s, v, p, neg[1..]);
      assert ClausesAt(s, neg)[1..] == ClausesAt(s, neg[1..]);
      RowPairsNext(s, v, p, neg);
    }
  }

  lemma RowPairsNext(s: Simp, v: Var, p: nat, neg: seq<nat>)
    requires neg != [] && NoDup(neg) && p < |s.cs| && AllThere(s, neg)
    ensures |RowPairs(s, v, p, neg)|
         == |RowPairs(s, v, p, neg[1..])| + if Clashes(s.cs[p], s.cs[neg[0]], v) then 0 else 1
  {
    hide Clashes;
    assert neg[0] in neg;
    assert neg == [neg[0]] + neg[1..];
    assert (p, neg[0]) !in RowPairs(s, v, p, neg[1..]);
    var rest, all := RowPairs(s, v, p, neg[1..]), RowPairs(s, v, p, neg);
    if Clashes(s.cs[p], s.cs[neg[0]], v) {
      assert all == rest;
    } else {
      assert all == rest + {(p, neg[0])};
    }
  }

  ghost function AllPairs(s: Simp, v: Var, pos: seq<nat>, neg: seq<nat>): set<(nat, nat)> {
    set p, q | p in pos && q in neg && p < |s.cs| && q < |s.cs| && !Clashes(s.cs[p], s.cs[q], v) :: (p, q)
  }

  lemma {:induction false} PairsCount(s: Simp, v: Var, pos: seq<nat>, neg: seq<nat>)
    requires NoDup(pos) && NoDup(neg) && AllThere(s, pos) && AllThere(s, neg)
    ensures |Resolvents(ClausesAt(s, pos), ClausesAt(s, neg), v)| == |AllPairs(s, v, pos, neg)|
  {
    hide Clashes, Row;
    if pos == [] {
      assert AllPairs(s, v, pos, neg) == {};
    } else {
      assert pos == [pos[0]] + pos[1..];
      assert pos[0] in pos && pos[0] !in pos[1..];
      PairsCount(s, v, pos[1..], neg);
      RowCount(s, v, pos[0], neg);
      assert ClausesAt(s, pos)[1..] == ClausesAt(s, pos[1..]);
      var row, rest := RowPairs(s, v, pos[0], neg), AllPairs(s, v, pos[1..], neg);
      assert AllPairs(s, v, pos, neg) == row + rest;
      assert row * rest == {};
    }
  }

  // Where a resolvent comes from.
  lemma {:induction false} ResolventFrom(ps: seq<Clause>, ns: seq<Clause>, v: Var, r: Clause)
    requires r in Resolvents(ps, ns, v)
    ensures exists i, j :: 0 <= i < |ps| && 0 <= j < |ns| && !Clashes(ps[i], ns[j], v) && r == Merged(ps[i], ns[j], v)
  {
    hide Clashes, Merged, Row;
    if r in Row(ps[0], ns, v) {
      RowFrom(ps[0], ns, v, r);
    } else {
      ResolventFrom(ps[1..], ns, v, r);
      var i, j :| 0 <= i < |ps[1..]| && 0 <= j < |ns| && !Clashes(ps[1..][i], ns[j], v)
                  && r == Merged(ps[1..][i], ns[j], v);
      assert ps[1..][i] == ps[i + 1];
    }
  }

  lemma {:induction false} RowFrom(c: Clause, ns: seq<Clause>, v: Var, r: Clause)
    requires r in Row(c, ns, v)
    ensures exists j :: 0 <= j < |ns| && !Clashes(c, ns[j], v) && r == Merged(c, ns[j], v)
  {
    hide Clashes, Merged;
    if r in Row(c, ns[1..], v) {
      RowFrom(c, ns[1..], v, r);
      var j :| 0 <= j < |ns[1..]| && !Clashes(c, ns[1..][j], v) && r == Merged(c, ns[1..][j], v);
      assert ns[1..][j] == ns[j + 1];
    }
  }

  lemma SplitPairs(s: Simp, v: Var, pos: seq<nat>, neg: seq<nat>)
    requires SplitOK(s, v, pos, neg) && NoDup(pos) && NoDup(neg)
    ensures |Resolvents(ClausesAt(s, pos), ClausesAt(s, neg), v)| == |Pairs(s, v)|
    ensures forall r :: r in Resolvents(ClausesAt(s, pos), ClausesAt(s, neg), v) <==>
              exists p: nat, q: nat :: Meets(s, v, p, q) && r == Merged(s.cs[p], s.cs[q], v)
  {
    hide Clashes, Resolvents, Merged;
    assert AllThere(s, pos) by {
      forall i | 0 <= i < |pos| ensures pos[i] < |s.cs| {
        assert pos[i] in pos;
      }
    }
    assert AllThere(s, neg) by {
      forall i | 0 <= i < |neg| ensures neg[i] < |s.cs| {
        assert neg[i] in neg;
      }
    }
    PairsCount(s, v, pos, neg);
    assert AllPairs(s, v, pos, neg) == Pairs(s, v);
    var ps, ns := ClausesAt(s, pos), ClausesAt(s, neg);
    forall r | r in Resolvents(ps, ns, v)
      ensures exists p: nat, q: nat :: Meets(s, v, p, q) && r == Merged(s.cs[p], s.cs[q], v)
    {
      ResolventFrom(ps, ns, v, r);
      var i, j :| 0 <= i < |ps| && 0 <= j < |ns| && !Clashes(ps[i], ns[j], v) && r == Merged(ps[i], ns[j], v);
      assert pos[i] in pos && neg[j] in neg;
      assert Meets(s, v, pos[i], neg[j]);
    }
    forall p: nat, q: nat | Meets(s, v, p, q) ensures Merged(s.cs[p], s.cs[q], v) in Resolvents(ps, ns, v) {
      assert p in pos && q in neg;
      AtMember(s, pos, p);
      AtMember(s, neg, q);
      ResolventMember(ps, ns, v, s.cs[p], s.cs[q]);
    }
  }

  lemma AtMember(s: Simp, crs: seq<nat>, cr: nat)
    requires cr in crs && cr < |s.cs|
    ensures s.cs[cr] in ClausesAt(s, crs)
  {
    var i :| 0 <= i < |crs| && crs[i] == cr;
    assert ClausesAt(s, crs)[i] == s.cs[cr];
  }

  // The occurrences that are left are the clauses of v.
  lemma SplitSize(s: Simp, v: Var)
    requires Good(s) && v < |s.occurs| && AllAlive(s, s.occurs[v])
    ensures |ClausesOf(s, v)| == |s.occurs[v]|
  {
    assert OccursAt(s, v);
    ListSize(s.occurs[v]);
    forall cr: nat ensures cr in ClausesOf(s, v) <==> cr in s.occurs[v] {
    }
    assert ClausesOf(s, v) == Elements(s.occurs[v]);
  }

  ghost function Elements(crs: seq<nat>): set<nat> {
    set x | x in crs
  }

  lemma {:induction false} ListSize(crs: seq<nat>)
    requires NoDup(crs)
    ensures |Elements(crs)| == |crs|
  {
    if crs == [] {
      assert Elements(crs) == {};
    } else {
      NoDupTail(crs);
      ListSize(crs[1..]);
      assert crs == [crs[0]] + crs[1..];
      assert Elements(crs) == Elements(crs[1..]) + {crs[0]};
    }
  }

  lemma NoDupTail(crs: seq<nat>)
    requires NoDup(crs) && crs != []
    ensures NoDup(crs[1..]) && crs[0] !in crs[1..]
  {
  }

  lemma CostIs(s: Simp, v: Var, pos: seq<nat>, neg: seq<nat>, grow: int, clauseLim: int)
    requires Good(s) && v < |s.occurs| && AllAlive(s, s.occurs[v]) && SplitOK(s, v, pos, neg)
    requires NoDup(pos) && NoDup(neg) && |pos| + |neg| == |s.occurs[v]|
    ensures Exceeds(Resolvents(ClausesAt(s, pos), ClausesAt(s, neg), v), |pos| + |neg| + grow, clauseLim)
       <==> TooCostly(s, v, grow, clauseLim)
  {
    hide Good, SplitOK, Resolvents, Clashes, NoDup, Merged;
    SplitPairs(s, v, pos, neg);
    SplitSize(s, v);
    var rs := Resolvents(ClausesAt(s, pos), ClausesAt(s, neg), v);
    assert rs != [] <==> |Pairs(s, v)| > 0;
    if clauseLim != -1 {
      if r :| r in rs && |r| > clauseLim {
        var p: nat, q: nat :| Meets(s, v, p, q) && r == Merged(s.cs[p], s.cs[q], v);
      }
      if p: nat, q: nat :| Meets(s, v, p, q) && |Merged(s.cs[p], s.cs[q], v)| > clauseLim {
        assert Merged(s.cs[p], s.cs[q], v) in rs;
      }
    }
  }

  lemma CleanedCost(s: Simp, v: Var, grow: int, clauseLim: int)
    requires v < |s.occurs|
    ensures TooCostly(Cleaned(s, v), v, grow, clauseLim) <==> TooCostly(s, v, grow, clauseLim)
  {
    hide Clashes, Merged;
    var t := Cleaned(s, v);
    forall p: nat, q: nat ensures Meets(t, v, p, q) <==> Meets(s, v, p, q) {
    }
    assert Pairs(t, v) == Pairs(s, v) && ClausesOf(t, v) == ClausesOf(s, v);
  }

  lemma NothingExceeds(limit: int, clauseLim: int)
    ensures !Exceeds([], limit, clauseLim)
  {
  }

  lemma ExceedsNext(seen: seq<Clause>, x: Clause, limit: int, clauseLim: int)
    requires !Exceeds(seen, limit, clauseLim)
    ensures Exceeds(seen + [x], limit, clauseLim) <==> |seen| + 1 > limit || (clauseLim != -1 && |x| > clauseLim)
  {
    assert x in seen + [x];
  }

  lemma ExceedsMore(few: seq<Clause>, more: seq<Clause>, limit: int, clauseLim: int)
    requires Exceeds(few, limit, clauseLim)
    ensures Exceeds(few + more, limit, clauseLim)
  {
  }

  lemma SeenMore(seen: seq<Clause>, x: Clause, row: seq<Clause>, rest: seq<Clause>, all: seq<Clause>)
    requires seen + [x] + row + rest == all
    ensures (seen + [x]) + (row + rest) == all
  {
  }

  lemma CodesNext(c: Clause, i: nat)
    requires i < |c|
    ensures Codes(c[..i + 1]) == Codes(c[..i]) + [ToInt(c[i])]
  {
  }

  lemma SpotUnique(c: Clause, v: Var, i: nat)
    requires DistinctVars(c) && i < |c|
    ensures c[i].v == v <==> i == Spot(c, v)
  {
  }

  lemma SpotFound(c: Clause, v: Var)
    requires VarIn(c, v)
    ensures Spot(c, v) < |c|
  {
    var x :| x in c && x.v == v;
    var k :| 0 <= k < |c| && c[k] == x;
  }

  lemma CodesSwapped(e0: seq<nat>, c: Clause, v: Var)
    requires Spot(c, v) < |c|
    ensures var e, at := e0 + Codes(c), |e0| + Spot(c, v);
            e[at := e[|e0|]][|e0| := e[at]] == e0 + Codes(VFirst(c, v))
  {
    var e, at := e0 + Codes(c), |e0| + Spot(c, v);
    var f, g := e[at := e[|e0|]][|e0| := e[at]], e0 + Codes(VFirst(c, v));
    forall i | 0 <= i < |f| ensures f[i] == g[i] {
    }
  }

  // Clauses without v and facts were added.
  ghost predicate Appended(s: Simp, t: Simp, v: Var) {
    && SameBlocks(s, t) && |s.cs| <= |t.cs| && t.cs[..|s.cs|] == s.cs
    && |s.mark| == |s.cs| && |t.mark| == |t.cs| && t.mark[..|s.cs|] == s.mark
    && forall cr: int :: |s.cs| <= cr < |t.cs| ==> !VarIn(t.cs[cr], v)
  }

  lemma AppendedSelf(s: Simp, v: Var)
    requires Good(s)
    ensures Appended(s, s, v)
  {
  }

  lemma AppendedTrans(s: Simp, t: Simp, u: Simp, v: Var)
    requires Appended(s, t, v) && Appended(t, u, v)
    ensures Appended(s, u, v)
  {
    forall cr: int | |s.cs| <= cr < |u.cs| ensures !VarIn(u.cs[cr], v) {
      assert cr < |t.cs| ==> u.cs[cr] == t.cs[cr];
    }
  }

  lemma AppendedAlive(s: Simp, t: Simp, v: Var)
    requires Appended(s, t, v)
    ensures forall cr: int :: Alive(s, cr) ==> Alive(t, cr) && t.cs[cr] == s.cs[cr]
    ensures forall cr: int :: Alive(t, cr) && cr < |s.cs| ==> Alive(s, cr)
  {
    hide VarIn, SameBlocks;
    forall cr: int | 0 <= cr < |s.cs| ensures t.cs[cr] == s.cs[cr] && t.mark[cr] == s.mark[cr] {
      assert t.cs[..|s.cs|][cr] == s.cs[cr];
      assert t.mark[..|s.cs|][cr] == s.mark[cr];
    }
  }

  ghost predicate AllHeld(s: Simp, n0: nat, rs: seq<Clause>) {
    forall r :: r in rs ==> Held(s, n0, r)
  }

  lemma NothingHeld(s: Simp, n0: nat)
    ensures AllHeld(s, n0, [])
  {
  }

  lemma PairAt(s0: Simp, s: Simp, v: Var, pos: seq<nat>, neg: seq<nat>, i: nat, j: nat)
    requires Good(s) && SplitOK(s0, v, pos, neg) && Appended(s0, s, v) && i < |pos| && j < |neg|
    ensures pos[i] < |s.cs| && neg[j] < |s.cs| && Alive(s, pos[i]) && Alive(s, neg[j])
    ensures s.cs[pos[i]] == ClausesAt(s0, pos)[i] && s.cs[neg[j]] == ClausesAt(s0, neg)[j]
    ensures Lit(v, false) in s.cs[pos[i]] && Lit(v, true) in s.cs[neg[j]]
    ensures DistinctVars(s.cs[pos[i]]) && DistinctVars(s.cs[neg[j]])
  {
    AppendedAlive(s0, s, v);
    assert pos[i] in pos && neg[j] in neg;
    assert ClauseOK(s.cs[pos[i]], s.n) && ClauseOK(s.cs[neg[j]], s.n);
  }

  lemma ResolventFits(s: Simp, v: Var, x: nat, y: nat)
    requires Good(s) && Alive(s, x) && Alive(s, y) && !Clashes(s.cs[x], s.cs[y], v)
    requires Lit(v, false) in s.cs[x] && Lit(v, true) in s.cs[y]
    ensures var r := Merged(s.cs[x], s.cs[y], v);
            && InRange(r, s.n) && FreeOf(s, r) && !VarIn(r, v)
            && forall a: Assignment :: Means(s, a) ==> Satisfies(a, r)
  {
    hide Good, Clashes, Merged, Means, Satisfies;
    var c, d := s.cs[x], s.cs[y];
    var r := Merged(c, d, v);
    LitsInRange(s, x);
    LitsInRange(s, y);
    forall l | l in r ensures l.v != v && l.v < s.n && l.v < |s.eliminated| && !s.eliminated[l.v] {
      MergedMembers(c, d, v, l);
    }
    AliveFollows(s, x);
    AliveFollows(s, y);
    BothSigns(c, v, Lit(v, false));
    BothSigns(d, v, Lit(v, true));
    forall a: Assignment | Means(s, a) ensures Satisfies(a, r) {
      ResolventFollows(a, c, d, v);
    }
  }

  lemma BothSigns(c: Clause, v: Var, l: Lit)
    requires DistinctVars(c) && l in c && l.v == v
    ensures Neg(l) !in c
  {
    if Neg(l) in c {
      OneOfVar(c, l, Neg(l));
      assert false;
    }
  }

  lemma GrownAppended(s: Simp, t: Simp, r: Clause, v: Var)
    requires Grown(s, t, r) && !VarIn(r, v)
    ensures Appended(s, t, v)
  {
    forall cr: int | |s.cs| <= cr < |t.cs| ensures !VarIn(t.cs[cr], v) {
      forall l | l in t.cs[cr] ensures l.v != v {
        assert l in r;
      }
    }
  }

  // What held goes on holding when clauses and facts are added.
  lemma HeldMore(s: Simp, t: Simp, n0: nat, m: nat, v: Var, c: Clause)
    requires Appended(s, t, v) && n0 <= m && Held(s, m, c)
    ensures Held(t, n0, c)
  {
    hide Satisfies, AllHold;
    AppendedAlive(s, t, v);
    forall a: Assignment | NewMeans(t, n0, a) ensures Satisfies(a, c) {
      AllHoldLess(s.trail, t.trail, a);
      assert NewMeans(s, m, a);
    }
  }

  lemma AllHoldLess(x: seq<Lit>, y: seq<Lit>, a: Assignment)
    requires x <= y && AllHold(a, y)
    ensures AllHold(a, x)
  {
    forall l | l in x ensures l in y {
    }
  }

  lemma AppendedSelfFrom(s: Simp, t: Simp, v: Var)
    requires Appended(s, t, v)
    ensures Appended(t, t, v) && |s.cs| <= |t.cs|
  {
    assert t.cs[..|t.cs|] == t.cs && t.mark[..|t.cs|] == t.mark;
  }

  lemma ResolventAdded(s0: Simp, s: Simp, t: Simp, v: Var, r: Clause, n0: nat, seen: seq<Clause>)
    requires Appended(s0, s, v) && Grown(s, t, r) && !VarIn(r, v) && n0 == |s0.cs| && AllHeld(s, n0, seen)
    ensures Appended(s0, t, v)
    ensures Held(t, |s.cs|, r) ==> AllHeld(t, n0, seen + [r])
  {
    hide Appended, Grown, Held, VarIn;
    GrownAppended(s, t, r, v);
    AppendedTrans(s0, s, t, v);
    AppendedSelfFrom(s, t, v);
    AppendedSelfFrom(s0, s, v);
    forall x | x in seen ensures Held(t, n0, x) {
      HeldMore(s, t, n0, n0, v, x);
    }
    if Held(t, |s.cs|, r) {
      HeldMore(t, t, n0, |s.cs|, v, r);
    }
  }

  lemma ResolventSame(s0: Simp, s: Simp, t: Simp, r: Clause)
    requires SameMeaning(s0, s) && forall a: Assignment :: Means(s, a) ==> Satisfies(a, r)
    requires forall a: Assignment :: Means(t, a) <==> Means(s, a) && Satisfies(a, r)
    ensures SameMeaning(s0, t)
  {
    hide Means, Satisfies;
  }

  lemma ResolventRefutes(s0: Simp, s: Simp, r: Clause)
    requires SameMeaning(s0, s) && forall a: Assignment :: Means(s, a) ==> Satisfies(a, r)
    requires forall a: Assignment :: Means(s, a) ==> !Satisfies(a, r)
    ensures Contradictory(s0)
  {
    hide Means, Satisfies;
  }

  function MarksSet(mark: seq<bool>, crs: seq<nat>): seq<bool> {
    seq(|mark|, x requires 0 <= x < |mark| => mark[x] || x in crs)
  }

  function Retired(s: Simp, v: Var): Simp
    requires v < |s.occurs| && v < |s.eliminated|
  {
    s.(mark := MarksSet(s.mark, s.occurs[v]), eliminated := s.eliminated[v := true], occurs := s.occurs[v := []])
  }

  // ------------------------------------------------------- what a run preserves

  ghost predicate Eliminable(s: Simp, v: Var) {
    v < s.n && v < |s.eliminated| && !s.eliminated[v] && forall l :: l in s.trail ==> l.v != v
  }

  // elim is the code of blocks, and blocks are the variables eliminated.
  ghost predicate Restorable(s: Simp) {
    && s.elim == Flat(Recs(s.blocks)) && BlocksFit(s.blocks, s.n)
    && forall v :: 0 <= v < |s.eliminated| ==> (s.eliminated[v] <==> Gone(s.blocks, v))
  }

  // From s to t clauses were simplified and variables eliminated: the models of s
  // are models of t, and a model of t becomes one of s by giving the variables
  // eliminated in between their values.
  ghost predicate Leads(s: Simp, t: Simp) {
    && t.n == s.n && |s.blocks| <= |t.blocks| && t.blocks[..|s.blocks|] == s.blocks
    && (forall a: Assignment :: Means(s, a) ==> Means(t, a))
    && (forall a: Assignment :: Means(t, a) ==> Means(s, ExtendAll(t.blocks[|s.blocks|..], a)))
  }

  lemma SameLeads(s: Simp, t: Simp)
    requires SameMeaning(s, t) && SameBlocks(s, t)
    ensures Leads(s, t) && t.n == s.n
  {
    hide Means;
    assert t.blocks[|s.blocks|..] == [];
  }

  lemma SameRestorable(s: Simp, t: Simp)
    requires Restorable(s) && SameBlocks(s, t)
    ensures Restorable(t)
  {
    hide BlocksFit, Gone;
  }

  lemma LeadsTrans(s: Simp, t: Simp, u: Simp)
    requires Leads(s, t) && Leads(t, u)
    ensures Leads(s, u)
  {
    hide Means, ExtendAll;
    var x, y := t.blocks[|s.blocks|..], u.blocks[|t.blocks|..];
    assert u.blocks[..|s.blocks|] == u.blocks[..|t.blocks|][..|s.blocks|];
    assert u.blocks[|s.blocks|..] == x + y;
    forall a: Assignment | Means(u, a) ensures Means(s, ExtendAll(x + y, a)) {
      ExtendJoin(x, y, a);
      assert Means(t, ExtendAll(y, a));
    }
  }

  lemma LeadsRefutes(s: Simp, t: Simp)
    requires Leads(s, t) && Contradictory(t)
    ensures Contradictory(s)
  {
    hide Means, ExtendAll;
  }

  lemma LeadsSelf(s: Simp)
    ensures Leads(s, s)
  {
    hide Means;
    assert s.blocks[|s.blocks|..] == [];
    forall a: Assignment ensures ExtendAll([], a) == a {
    }
  }

  // When variable v came up in state u, on the way from s0 to s, it went, or had a
  // value, or its elimination would have cost too much.
  ghost predicate Handled(s0: Simp, u: Simp, s: Simp, v: Var, grow: int, clauseLim: int) {
    && Good(u) && Leads(s0, u) && Leads(u, s) && v < |u.eliminated| && v < |s.eliminated|
    && (s.eliminated[v] || Value(u.trail, Lit(v, false)) != Undef || TooCostly(u, v, grow, clauseLim))
  }

  ghost predicate AllHandled(s0: Simp, met: seq<Simp>, s: Simp, order: seq<Var>, i: nat, grow: int, clauseLim: int) {
    |met| == i <= |order| && forall x :: 0 <= x < i ==> Handled(s0, met[x], s, order[x], grow, clauseLim)
  }

  lemma NoneHandled(s0: Simp, s: Simp, order: seq<Var>, grow: int, clauseLim: int)
    ensures AllHandled(s0, [], s, order, 0, grow, clauseLim)
  {
  }

  // Variable i has come up in state u; what is eliminated stays so.
  lemma NextHandled(s0: Simp, met: seq<Simp>, u: Simp, s: Simp, order: seq<Var>, i: nat, grow: int, clauseLim: int)
    requires AllHandled(s0, met, u, order, i, grow, clauseLim) && i < |order|
    requires Good(u) && Leads(s0, u) && Leads(u, s) && |u.eliminated| == |s.eliminated| && order[i] < |s.eliminated|
    requires forall v :: 0 <= v < |u.eliminated| && u.eliminated[v] ==> s.eliminated[v]
    requires s.eliminated[order[i]] || Value(u.trail, Lit(order[i], false)) != Undef
             || TooCostly(u, order[i], grow, clauseLim)
    ensures AllHandled(s0, met + [u], s, order, i + 1, grow, clauseLim)
  {
    hide Good, Leads, TooCostly;
    forall x | 0 <= x < i ensures Handled(s0, met[x], s, order[x], grow, clauseLim) {
      assert Handled(s0, met[x], u, order[x], grow, clauseLim);
      LeadsTrans(met[x], u, s);
    }
  }

  // Any number of eliminations: the clauses that are left are satisfiable if and
  // only if the original ones are, and extending a model restores the original.
  lemma EliminationRestores(s: Simp, t: Simp)
    requires Leads(s, t) && s.blocks == []
    ensures (exists a: Assignment :: Means(s, a)) <==> (exists a: Assignment :: Means(t, a))
    ensures forall a: Assignment :: Means(t, a) ==> Means(s, ExtendAll(t.blocks, a))
  {
    hide Means, ExtendAll;
    assert t.blocks[0..] == t.blocks;
    if a: Assignment :| Means(s, a) {
      assert Means(t, a);
    }
    if a: Assignment :| Means(t, a) {
      assert Means(s, ExtendAll(t.blocks, a));
    }
  }

  lemma EliminableIs(s: Simp, v: Var)
    requires Good(s) && Eliminable(s, v)
    ensures v < s.n && |s.occurs| == s.n && |s.eliminated| == s.n
  {
  }

  lemma MayEliminate(s: Simp, v: Var)
    requires Good(s) && v < s.n && v < |s.eliminated| && !s.eliminated[v] && Value(s.trail, Lit(v, false)) == Undef
    ensures Eliminable(s, v)
  {
    assert Neg(Lit(v, false)) == Lit(v, true);
    forall l | l in s.trail ensures l.v != v {
      assert l.v == v ==> l == Lit(v, false) || l == Lit(v, true);
    }
  }

  lemma CleanedAlive(s: Simp, v: Var)
    requires Good(s) && v < |s.occurs|
    ensures AllAlive(Cleaned(s, v), Cleaned(s, v).occurs[v])
  {
    assert OccursAt(s, v);
    AliveOnlyIs(s, s.occurs[v]);
    var t := Cleaned(s, v);
    forall cr | cr in t.occurs[v] ensures Alive(t, cr) {
      assert Alive(s, cr);
    }
  }

  lemma CleanedKeeps(s: Simp, v: Var)
    requires Eliminable(s, v) && v < |s.occurs| && |s.occurs| == s.n
    ensures Eliminable(Cleaned(s, v), v) && |Cleaned(s, v).occurs| == s.n && Cleaned(s, v).n == s.n
    ensures Cleaned(s, v).trail == s.trail
  {
  }

  // What Store did: blocks and elim only.
  ghost predicate WithBlock(s: Simp, t: Simp, b: Block) {
    t == s.(elim := s.elim + Flat(StoredRecs(b)), blocks := s.blocks + [b])
  }

  lemma StoreKeeps(s: Simp, t: Simp, v: Var, pos: seq<nat>, neg: seq<nat>, b: Block)
    requires Good(s) && SplitOK(s, v, pos, neg) && WithBlock(s, t, b)
    ensures Good(t) && SameMeaning(s, t) && SplitOK(t, v, pos, neg)
    ensures ClausesAt(t, pos) == ClausesAt(s, pos) && ClausesAt(t, neg) == ClausesAt(s, neg)
  {
    hide Flat, StoredRecs;
    forall x: int ensures Alive(t, x) <==> Alive(s, x) {
    }
    forall w | 0 <= w < |t.occurs| ensures OccursAt(t, w) {
      assert OccursAt(s, w);
    }
    assert TrailOK(t) && ClausesOK(t) && QueueOK(t);
  }

  lemma ClausesOfV(r: Simp, s: Simp, t: Simp, v: Var, b: Block)
    requires Good(t) && v < r.n && WithBlock(r, s, b) && Appended(s, t, v)
    ensures SameBlocks(s, t) && v < t.n == r.n && t.eliminated == r.eliminated
    ensures v < |t.occurs| && v < |t.eliminated| && forall cr :: cr in t.occurs[v] ==> cr < |t.mark|
  {
    assert OccursAt(t, v);
  }

  lemma RetiredAlive(s: Simp, v: Var)
    requires Good(s) && v < s.n
    ensures v < |s.occurs| && v < |s.eliminated|
    ensures forall cr: int :: Alive(Retired(s, v), cr) <==> Alive(s, cr) && !VarIn(s.cs[cr], v)
  {
    var t := Retired(s, v);
    assert OccursAt(s, v);
    forall cr: int ensures Alive(t, cr) <==> Alive(s, cr) && !VarIn(s.cs[cr], v) {
      if Alive(s, cr) {
        assert t.mark[cr] <==> cr in s.occurs[v];
      }
    }
  }

  lemma RetiredGood(s: Simp, v: Var)
    requires Good(s) && v < s.n
    ensures v < |s.occurs| && v < |s.eliminated| && Good(Retired(s, v))
  {
    RetiredAlive(s, v);
    var t := Retired(s, v);
    forall cr: int | Alive(t, cr) ensures ClauseOK(t.cs[cr], t.n) && FreeOf(t, t.cs[cr]) {
      assert ClauseOK(s.cs[cr], s.n) && FreeOf(s, s.cs[cr]) && !VarIn(s.cs[cr], v);
    }
    forall w | 0 <= w < |t.occurs| ensures OccursAt(t, w) {
      assert OccursAt(s, w);
    }
    assert TrailOK(t) && QueueOK(t) && ClausesOK(t);
  }

  // The block fits the clauses it was made of.
  lemma BlockMade(s: Simp, v: Var, pos: seq<nat>, neg: seq<nat>, b: Block)
    requires Good(s) && SplitOK(s, v, pos, neg) && b.v == v
    requires b == MadeBlock(s, v, pos, neg)
    ensures BlockFits(b, ClausesAt(s, pos), ClausesAt(s, neg))
  {
    hide Good;
    forall c | c in ClausesAt(s, pos) ensures Lit(v, false) in c && Lit(v, true) !in c {
      var i :| 0 <= i < |pos| && ClausesAt(s, pos)[i] == c;
      assert pos[i] in pos;
      LitsInRange(s, pos[i]);
      BothSigns(c, v, Lit(v, false));
    }
    forall c | c in ClausesAt(s, neg) ensures Lit(v, true) in c && Lit(v, false) !in c {
      var i :| 0 <= i < |neg| && ClausesAt(s, neg)[i] == c;
      assert neg[i] in neg;
      LitsInRange(s, neg[i]);
      BothSigns(c, v, Lit(v, true));
    }
  }

  // A model of what is left, with v set, satisfies what was there.
  lemma RetiredRestores(s: Simp, t: Simp, v: Var, b: Block, pos: seq<nat>, neg: seq<nat>, a: Assignment)
    requires Good(s) && Good(t) && v < t.n && Appended(s, t, v) && SplitOK(s, v, pos, neg) && b.v == v
    requires BlockFits(b, ClausesAt(s, pos), ClausesAt(s, neg))
    requires AllHeld(t, |s.cs|, Resolvents(ClausesAt(s, pos), ClausesAt(s, neg), v))
    requires forall l :: l in s.trail ==> l.v != v
    requires v < |t.occurs| && v < |t.eliminated| && Means(Retired(t, v), a)
    ensures Means(s, Extended(b, a))
  {
    hide Good, Extended, Satisfies, Resolvents, BlockFits, FreeOf, AllResolvents;
    var ps, ns := ClausesAt(s, pos), ClausesAt(s, neg);
    RetiredAlive(t, v);
    AppendedAlive(s, t, v);
    assert NewMeans(t, |s.cs|, a);
    ResolventsAll(a, ps, ns, v);
    forall l | l in s.trail ensures Holds(Extended(b, a), l) {
      assert l in t.trail;
      ExtendedSame(b, a, l);
    }
    forall cr: int | Alive(s, cr) ensures Satisfies(Extended(b, a), s.cs[cr]) {
      if VarIn(s.cs[cr], v) {
        InPosOrNeg(s, v, pos, neg, cr);
        RestoresRemoved(b, a, ps, ns, s.cs[cr]);
      } else {
        assert Alive(Retired(t, v), cr);
        ExtendedKeeps(b, a, s.cs[cr]);
      }
    }
  }

  lemma InPosOrNeg(s: Simp, v: Var, pos: seq<nat>, neg: seq<nat>, cr: nat)
    requires SplitOK(s, v, pos, neg) && Alive(s, cr) && VarIn(s.cs[cr], v)
    ensures s.cs[cr] in ClausesAt(s, pos) || s.cs[cr] in ClausesAt(s, neg)
  {
    var x :| x in s.cs[cr] && x.v == v;
    assert x == Lit(v, false) || x == Lit(v, true);
    if cr in pos {
      var i :| 0 <= i < |pos| && pos[i] == cr;
      assert ClausesAt(s, pos)[i] == s.cs[cr];
    } else {
      assert cr in neg;
      var i :| 0 <= i < |neg| && neg[i] == cr;
      assert ClausesAt(s, neg)[i] == s.cs[cr];
    }
  }

  lemma RetiredLeads(s1: Simp, s2: Simp, s3: Simp, v: Var, b: Block, pos: seq<nat>, neg: seq<nat>)
    requires Good(s1) && Eliminable(s1, v) && SplitOK(s1, v, pos, neg)
    requires WithBlock(s1, s2, b) && b.v == v && s1.n == s3.n
    requires b == MadeBlock(s1, v, pos, neg)
    requires Good(s2) && Good(s3) && Appended(s2, s3, v) && SplitOK(s2, v, pos, neg) && SameMeaning(s2, s3)
    requires SameMeaning(s1, s2)
    requires AllHeld(s3, |s2.cs|, Resolvents(ClausesAt(s2, pos), ClausesAt(s2, neg), v))
    ensures v < |s3.occurs| && v < |s3.eliminated| && Leads(s1, Retired(s3, v))
  {
    RetiredAlive(s3, v);
    var t := Retired(s3, v);
    hide Good, SplitOK, AllHeld, Resolvents, Extended, Flat, StoredRecs, ClausesAt, VarIn;
    assert ClausesAt(s2, neg) == ClausesAt(s1, neg) && ClausesAt(s2, pos) == ClausesAt(s1, pos) by {
      ClausesAtSame(s1, s2, pos);
      ClausesAtSame(s1, s2, neg);
    }
    BlockMade(s2, v, pos, neg, b);
    assert t.blocks == s1.blocks + [b];
    assert t.blocks[|s1.blocks|..] == [b];
    forall a: Assignment | Means(s1, a) ensures Means(t, a) {
      assert Means(s3, a);
    }
    forall a: Assignment | Means(t, a) ensures Means(s1, ExtendAll([b], a)) {
      RetiredRestores(s2, s3, v, b, pos, neg, a);
      ExtendOne(b, a);
    }
  }

  lemma ClausesAtSame(s: Simp, t: Simp, crs: seq<nat>)
    requires s.cs == t.cs
    ensures ClausesAt(s, crs) == ClausesAt(t, crs)
  {
  }

  lemma ExtendOne(b: Block, a: Assignment)
    ensures ExtendAll([b], a) == Extended(b, a)
  {
    assert [b][..0] == [];
  }

  lemma RetiredRestorable(s1: Simp, s2: Simp, s3: Simp, v: Var, b: Block, pos: seq<nat>, neg: seq<nat>)
    requires Good(s1) && Restorable(s1) && SplitOK(s1, v, pos, neg) && b.v == v && v < s1.n
    requires b == MadeBlock(s1, v, pos, neg)
    requires WithBlock(s1, s2, b) && SameBlocks(s2, s3) && v < |s3.occurs| && v < |s3.eliminated|
    ensures Restorable(Retired(s3, v))
  {
    hide Good, SplitOK, FreeOf, Flat, StoredRecs, BlocksFit;
    var t := Retired(s3, v);
    assert t.blocks == s1.blocks + [b] && t.elim == s1.elim + Flat(StoredRecs(b));
    assert t.blocks[..|s1.blocks|] == s1.blocks;
    FlatJoin(Recs(s1.blocks), StoredRecs(b));
    BlockFitsAfter(s1, v, pos, neg, b);
    BlocksFitMore(s1.blocks, b, s1.n);
    forall w | 0 <= w < |t.eliminated| ensures t.eliminated[w] <==> Gone(t.blocks, w) {
      GoneMore(s1.blocks, b, w);
    }
  }

  lemma GoneMore(blocks: seq<Block>, b: Block, w: Var)
    ensures Gone(blocks + [b], w) <==> Gone(blocks, w) || w == b.v
  {
    var all := blocks + [b];
    assert all[|blocks|] == b;
    if k :| 0 <= k < |blocks| && blocks[k].v == w {
      assert all[k].v == w;
    }
  }

  lemma BlocksFitMore(blocks: seq<Block>, b: Block, n: nat)
    requires BlocksFit(blocks, n) && FitsAfter(blocks, b, n)
    ensures BlocksFit(blocks + [b], n)
  {
    hide FitsAfter;
    var all := blocks + [b];
    forall k | 0 <= k < |all| ensures FitsAfter(all[..k], all[k], n) {
      if k < |blocks| {
        assert all[..k] == blocks[..k];
      } else {
        assert all[..k] == blocks;
      }
    }
  }

  lemma BlockFitsAfter(s: Simp, v: Var, pos: seq<nat>, neg: seq<nat>, b: Block)
    requires Good(s) && Restorable(s) && SplitOK(s, v, pos, neg) && b.v == v && v < s.n
    requires b == MadeBlock(s, v, pos, neg)
    ensures FitsAfter(s.blocks, b, s.n)
  {
    hide Good, BlocksFit, Gone;
    BlockMade(s, v, pos, neg, b);
    var crs := if |pos| > |neg| then neg else pos;
    forall c | c in b.stored
      ensures DistinctVars(c) && InRange(c, s.n) && Lit(b.v, !b.sign) in c && Avoids(s.blocks, c)
    {
      var i :| 0 <= i < |crs| && ClausesAt(s, crs)[i] == c;
      assert crs[i] in crs;
      LitsInRange(s, crs[i]);
      GoodSizes(s);
    }
  }

  lemma LeadsSizes(s: Simp, t: Simp)
    requires Leads(s, t)
    ensures t.n == s.n
  {
  }

  // ------------------------------------------------- reading elim back, details

  lemma RestorableIs(s: Simp)
    requires Restorable(s)
    ensures s.elim == Flat(Recs(s.blocks)) && BlocksFit(s.blocks, s.n)
  {
  }

  ghost predicate RecordOK(c: Clause, n: nat) {
    |c| > 0 && InRange(c, n)
  }

  lemma {:induction false} RecordsFit(blocks: seq<Block>, n: nat)
    requires BlocksFit(blocks, n)
    ensures forall k :: 0 <= k < |Recs(blocks)| ==> RecordOK(Recs(blocks)[k], n)
  {
    hide RecordOK, BlocksFit, StoredRecs;
    if blocks != [] {
      var front, b := blocks[..|blocks| - 1], blocks[|blocks| - 1];
      FrontFits(blocks, n);
      LastFits(blocks, n);
      RecordsFit(front, n);
      StoredFit(front, b, n);
    }
  }

  lemma LastFits(blocks: seq<Block>, n: nat)
    requires BlocksFit(blocks, n) && blocks != []
    ensures FitsAfter(blocks[..|blocks| - 1], blocks[|blocks| - 1], n)
  {
    hide FitsAfter;
  }

  lemma StoredFit(earlier: seq<Block>, b: Block, n: nat)
    requires FitsAfter(earlier, b, n)
    ensures forall k :: 0 <= k < |StoredRecs(b)| ==> RecordOK(StoredRecs(b)[k], n)
  {
    hide VFirst, Avoids, DistinctVars;
    forall k | 0 <= k < |b.stored| ensures RecordOK(VFirst(b.stored[k], b.v), n) {
      var c := b.stored[k];
      assert c in b.stored;
      assert VarIn(c, b.v);
      VFirstIs(c, b.v);
      forall l | l in VFirst(c, b.v) ensures l in c {
        assert l != VFirst(c, b.v)[0] ==> l in VFirst(c, b.v)[1..];
      }
    }
  }

  ghost predicate RecordAt(elim: seq<nat>, base: int, c: Clause) {
    0 <= base && base + |c| <= |elim| && forall j :: 0 <= j < |c| ==> elim[base + j] == ToInt(c[j])
  }

  // The record that ends at i.
  lemma LastRecord(recs: seq<Clause>, k: nat, elim: seq<nat>, i: int, n: nat)
    requires k <= |recs| && 0 < i < |elim| && i + 1 == |Flat(recs[..k])| && elim[..i + 1] == Flat(recs[..k])
    requires forall j :: 0 <= j < |recs| ==> RecordOK(recs[j], n)
    ensures k > 0
    ensures var c := recs[k - 1];
            && elim[i] == |c| > 0 && InRange(c, n) && RecordAt(elim, i - |c|, c)
            && |Flat(recs[..k - 1])| == i - |c| && elim[..i - |c|] == Flat(recs[..k - 1])
  {
    FlatEmpty(recs);
    hide Flat;
    FlatNext(recs, k - 1);
    var c, f := recs[k - 1], Flat(recs[..k - 1]);
    assert RecordOK(c, n);
    TailRecord(elim, i, f, c);
  }

  lemma TailRecord(elim: seq<nat>, i: int, f: seq<nat>, c: Clause)
    requires 0 < i < |elim| && elim[..i + 1] == f + Record(c)
    ensures i == |f| + |c| && elim[i] == |c| && elim[..i - |c|] == f && RecordAt(elim, i - |c|, c)
  {
    var e := elim[..i + 1];
    assert |e| == |f| + |c| + 1;
    assert e[i] == Record(c)[|c|];
    assert e[..i - |c|] == f && elim[..i - |c|] == e[..i - |c|];
    forall j | 0 <= j < |c| ensures elim[i - |c| + j] == ToInt(c[j]) {
      assert e[i - |c| + j] == Record(c)[j];
    }
  }

  lemma CodeAt(elim: seq<nat>, base: int, c: Clause, t: nat, n: nat)
    requires RecordAt(elim, base, c) && t < |c| && InRange(c, n)
    ensures 0 <= base + t < |elim| && ToLit(elim[base + t]) == c[t] && c[t].v < n
  {
    ToLitOf(c[t]);
    assert c[t] in c;
  }

  lemma ApplyIs(c: Clause, m: seq<LBool>, j: nat, satisfied: bool)
    requires InRange(c, |m|) && 1 <= j <= |c| && (j > 1 ==> satisfied)
    requires forall t :: j <= t < |c| ==> c[t].v < |m| && ValueOf(m, c[t]) == False
    requires satisfied ==> j > 1 && c[j - 1].v < |m| && ValueOf(m, c[j - 1]) != False
    ensures c[0].v < |m|
    ensures Apply(c, m) == if satisfied then m else m[c[0].v := Sat(c[0])]
  {
    assert c[0] in c;
  }

  lemma AllRead(recs: seq<Clause>, k: nat, i: int, m: seq<LBool>, n: nat)
    requires k <= |recs| && i <= 0 && i + 1 == |Flat(recs[..k])|
    requires forall j :: 0 <= j < |recs| ==> RecordOK(recs[j], n)
    ensures ApplyAll(recs[..k], m) == m
  {
    if k > 0 {
      FlatLong(recs, k, n);
      assert false;
    }
  }

  lemma StoredLength(b: Block)
    ensures |StoredRecs(b)| == |b.stored| + 1 && StoredRecs(b)[|b.stored|] == [Lit(b.v, b.sign)]
  {
  }

  lemma StoredAt(b: Block, i: nat)
    requires i < |b.stored|
    ensures i < |StoredRecs(b)| && StoredRecs(b)[i] == VFirst(b.stored[i], b.v)
  {
  }

  lemma FlatEmpty(recs: seq<Clause>)
    ensures Flat(recs[..0]) == []
  {
  }

  lemma FlatLong(recs: seq<Clause>, k: nat, n: nat)
    requires 0 < k <= |recs| && forall j :: 0 <= j < |recs| ==> RecordOK(recs[j], n)
    ensures |Flat(recs[..k])| >= 2
  {
    FlatNext(recs, k - 1);
    assert RecordOK(recs[k - 1], n);
  }
}
