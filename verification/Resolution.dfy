// Resolution and subsumption on clauses, and bounded variable elimination with
// the reconstruction of models: the logic of simp/SimpSolver.cc.
module Resolution {
  import opened Logic
  import opened Watching

  // -------------------------------------------------------------- merging

  // The literals of c that are not of variable v.
  function Others(c: Clause, v: Var): Clause {
    if c == [] then [] else (if c[0].v != v then [c[0]] else []) + Others(c[1..], v)
  }

  // The literals of c, not of variable v, whose variable d lacks.
  function Missing(c: Clause, d: Clause, v: Var): Clause {
    if c == [] then []
    else (if c[0].v != v && !VarIn(d, c[0].v) then [c[0]] else []) + Missing(c[1..], d, v)
  }

  // What merge puts into out_clause; d is the larger of the two clauses.
  function Merged(c: Clause, d: Clause, v: Var): Clause {
    if |c| < |d| then Missing(c, d, v) + Others(d, v) else Missing(d, c, v) + Others(c, v)
  }

  // A literal of another variable occurs with both signs.
  ghost predicate Clashes(c: Clause, d: Clause, v: Var) {
    exists l :: l in c && l.v != v && Neg(l) in d
  }

  lemma ClashesSym(c: Clause, d: Clause, v: Var)
    ensures Clashes(c, d, v) <==> Clashes(d, c, v)
  {
    if l :| l in c && l.v != v && Neg(l) in d {
      assert Neg(l) in d && Neg(Neg(l)) in c;
    }
    if l :| l in d && l.v != v && Neg(l) in c {
      assert Neg(l) in c && Neg(Neg(l)) in d;
    }
  }

  lemma {:induction false} OthersMembers(c: Clause, v: Var, l: Lit)
    ensures l in Others(c, v) <==> l in c && l.v != v
  {
    if c != [] {
      OthersMembers(c[1..], v, l);
      assert c == [c[0]] + c[1..];
    }
  }

  lemma {:induction false} MissingMembers(c: Clause, d: Clause, v: Var, l: Lit)
    ensures l in Missing(c, d, v) <==> l in c && l.v != v && !VarIn(d, l.v)
  {
    if c != [] {
      MissingMembers(c[1..], d, v, l);
      assert c == [c[0]] + c[1..];
    }
  }

  // Without a clash the literals of the resolvent are those of both clauses that
  // are not of variable v.
  lemma MergedMembers(c: Clause, d: Clause, v: Var, l: Lit)
    requires !Clashes(c, d, v)
    ensures l in Merged(c, d, v) <==> l.v != v && (l in c || l in d)
  {
    ClashesSym(c, d, v);
    OthersMembers(c, v, l);
    OthersMembers(d, v, l);
    MissingMembers(c, d, v, l);
    MissingMembers(d, c, v, l);
    if l in c && l.v != v && VarIn(d, l.v) {
      var m :| m in d && m.v == l.v;
      assert m == l || m == Neg(l);
    }
    if l in d && l.v != v && VarIn(c, l.v) {
      var m :| m in c && m.v == l.v;
      assert m == l || m == Neg(l);
    }
  }

  lemma {:induction false} OthersDistinct(c: Clause, v: Var)
    requires DistinctVars(c)
    ensures DistinctVars(Others(c, v))
    ensures |Others(c, v)| == |c| - if VarIn(c, v) then 1 else 0
  {
    if c != [] {
      assert c == [c[0]] + c[1..];
      OthersDistinct(c[1..], v);
      forall i | 0 <= i < |Others(c[1..], v)| ensures Others(c[1..], v)[i].v != c[0].v {
        OthersMembers(c[1..], v, Others(c[1..], v)[i]);
      }
      assert VarIn(c, v) <==> c[0].v == v || VarIn(c[1..], v);
      assert c[0].v == v ==> !VarIn(c[1..], v);
    }
  }

  // The resolvent follows from the two clauses.
  lemma ResolventFollows(a: Assignment, c: Clause, d: Clause, v: Var)
    requires Satisfies(a, c) && Satisfies(a, d) && !Clashes(c, d, v)
    requires Lit(v, true) !in c && Lit(v, false) !in d
    ensures Satisfies(a, Merged(c, d, v))
  {
    var l :| l in c && Holds(a, l);
    var m :| m in d && Holds(a, m);
    MergedMembers(c, d, v, l);
    MergedMembers(c, d, v, m);
    assert l.v == v ==> l == Lit(v, false);
    assert m.v == v ==> m == Lit(v, true);
  }

  // -------------------------------------------------------- eliminating v

  // Every literal of c but those of v is false.
  ghost predicate OnlyV(a: Assignment, c: Clause, v: Var) {
    forall l :: l in c && l.v != v ==> !Holds(a, l)
  }

  // What is stored for an eliminated variable: the clauses with the literal that
  // occurs in fewer clauses, and the other literal as the default.
  datatype Block = Block(v: Var, stored: seq<Clause>, sign: bool)

  // The value v gets: the default, unless a stored clause needs the other one.
  ghost function Extended(b: Block, a: Assignment): Assignment {
    var needs := exists c :: c in b.stored && OnlyV(a, c, b.v);
    if needs == b.sign then a + {b.v} else a - {b.v}
  }

  lemma ExtendedSame(b: Block, a: Assignment, l: Lit)
    ensures l.v != b.v ==> (Holds(Extended(b, a), l) <==> Holds(a, l))
    ensures l.v == b.v ==>
              (Holds(Extended(b, a), l) <==> l.sign == (b.sign != exists c :: c in b.stored && OnlyV(a, c, b.v)))
  {
  }

  // The clauses with v are pos and neg; stored is one of the two.
  ghost predicate BlockFits(b: Block, pos: seq<Clause>, neg: seq<Clause>) {
    && (forall c :: c in pos ==> Lit(b.v, false) in c && Lit(b.v, true) !in c)
    && (forall c :: c in neg ==> Lit(b.v, true) in c && Lit(b.v, false) !in c)
    && ((b.stored == neg && !b.sign) || (b.stored == pos && b.sign))
  }

  ghost predicate AllResolvents(a: Assignment, pos: seq<Clause>, neg: seq<Clause>, v: Var) {
    forall c, d :: c in pos && d in neg && !Clashes(c, d, v) ==> Satisfies(a, Merged(c, d, v))
  }

  // The resolvents leave no positive and negative clause that both need v.
  lemma NotBoth(a: Assignment, pos: seq<Clause>, neg: seq<Clause>, v: Var, c: Clause, d: Clause)
    requires AllResolvents(a, pos, neg, v) && c in pos && d in neg
    ensures !OnlyV(a, c, v) || !OnlyV(a, d, v)
  {
    if Clashes(c, d, v) {
      var l :| l in c && l.v != v && Neg(l) in d;
      NegHolds(a, l);
      assert OnlyV(a, c, v) ==> !Holds(a, l);
      assert OnlyV(a, d, v) ==> !Holds(a, Neg(l));
    } else {
      var l :| l in Merged(c, d, v) && Holds(a, l);
      MergedMembers(c, d, v, l);
    }
  }

  // A model of the resolvents, extended, satisfies the clauses that were removed.
  lemma RestoresRemoved(b: Block, a: Assignment, pos: seq<Clause>, neg: seq<Clause>, c: Clause)
    requires BlockFits(b, pos, neg) && AllResolvents(a, pos, neg, b.v) && (c in pos || c in neg)
    ensures Satisfies(Extended(b, a), c)
  {
    var e := Extended(b, a);
    if !OnlyV(a, c, b.v) {
      var l :| l in c && l.v != b.v && Holds(a, l);
      ExtendedSame(b, a, l);
      assert Holds(e, l);
    } else {
      var l := Lit(b.v, c !in pos);
      ExtendedSame(b, a, l);
      if d :| d in b.stored && OnlyV(a, d, b.v) {
        if c in pos && d in neg {
          NotBoth(a, pos, neg, b.v, c, d);
        } else if c !in pos && d in pos {
          NotBoth(a, pos, neg, b.v, d, c);
        }
      }
      assert l in c && Holds(e, l);
    }
  }

  lemma ExtendedKeeps(b: Block, a: Assignment, c: Clause)
    requires !VarIn(c, b.v)
    ensures Satisfies(Extended(b, a), c) <==> Satisfies(a, c)
  {
    forall l | l in c ensures Holds(Extended(b, a), l) <==> Holds(a, l) {
      ExtendedSame(b, a, l);
    }
  }

  // The resolvents on v of c with the clauses of ns, and of all pairs, in the
  // order in which eliminateVar meets them.
  ghost function Row(c: Clause, ns: seq<Clause>, v: Var): seq<Clause> {
    if ns == [] then []
    else (if Clashes(c, ns[0], v) then [] else [Merged(c, ns[0], v)]) + Row(c, ns[1..], v)
  }

  ghost function Resolvents(ps: seq<Clause>, ns: seq<Clause>, v: Var): seq<Clause> {
    if ps == [] then [] else Row(ps[0], ns, v) + Resolvents(ps[1..], ns, v)
  }

  lemma {:induction false} RowMember(c: Clause, ns: seq<Clause>, v: Var, d: Clause)
    requires d in ns && !Clashes(c, d, v)
    ensures Merged(c, d, v) in Row(c, ns, v)
  {
    hide Clashes, Merged;
    if d != ns[0] {
      RowMember(c, ns[1..], v, d);
    }
  }

  lemma {:induction false} ResolventMember(ps: seq<Clause>, ns: seq<Clause>, v: Var, c: Clause, d: Clause)
    requires c in ps && d in ns && !Clashes(c, d, v)
    ensures Merged(c, d, v) in Resolvents(ps, ns, v)
  {
    hide Clashes, Merged, Row;
    if c == ps[0] {
      RowMember(c, ns, v, d);
    } else {
      ResolventMember(ps[1..], ns, v, c, d);
    }
  }

  lemma ResolventsAll(a: Assignment, ps: seq<Clause>, ns: seq<Clause>, v: Var)
    requires forall r :: r in Resolvents(ps, ns, v) ==> Satisfies(a, r)
    ensures AllResolvents(a, ps, ns, v)
  {
    hide Clashes, Merged, Satisfies, Resolvents;
    forall c, d | c in ps && d in ns && !Clashes(c, d, v) ensures Satisfies(a, Merged(c, d, v)) {
      ResolventMember(ps, ns, v, c, d);
    }
  }

  // Taking up the next pair.
  lemma RowStep(c: Clause, ns: seq<Clause>, v: Var, j: nat, seen: seq<Clause>, rest: seq<Clause>)
    requires j <= |ns|
    ensures j == |ns| ==> seen + Row(c, ns[j..], v) + rest == seen + rest
    ensures j < |ns| ==>
              seen + Row(c, ns[j..], v) + rest
              == seen + (if Clashes(c, ns[j], v) then [] else [Merged(c, ns[j], v)]) + Row(c, ns[j + 1..], v) + rest
  {
    hide Clashes, Merged;
    if j < |ns| {
      assert ns[j..][0] == ns[j] && ns[j..][1..] == ns[j + 1..];
    }
  }

  lemma RowsStep(ps: seq<Clause>, ns: seq<Clause>, v: Var, i: nat, seen: seq<Clause>)
    requires i <= |ps|
    ensures i == |ps| ==> seen + Resolvents(ps[i..], ns, v) == seen
    ensures i < |ps| ==>
              seen + Resolvents(ps[i..], ns, v) == seen + Row(ps[i], ns[0..], v) + Resolvents(ps[i + 1..], ns, v)
  {
    hide Row;
    if i < |ps| {
      assert ps[i..][0] == ps[i] && ps[i..][1..] == ps[i + 1..] && ns[0..] == ns;
    }
  }

  // -------------------------------------------------------------- subsumption

  datatype Verdict = Error | Subsumed | Flipped(p: Lit)

  ghost predicate Contains(d: Clause, c: Clause) {
    forall l :: l in c ==> l in d
  }

  // c with p negated is part of d.
  ghost predicate ContainsFlipped(d: Clause, c: Clause, p: Lit) {
    p in c && Neg(p) in d && forall l :: l in c && l != p ==> l in d
  }

  // The abstraction is the set of the bits var & 31 that are set.
  function Abstraction(c: Clause): set<nat> {
    set l | l in c :: l.v % 32
  }

  // The filter of subsumes never rejects a clause that would be subsumed or
  // strengthened.
  lemma FilterPasses(c: Clause, d: Clause)
    requires DistinctVars(c)
    requires Contains(d, c) || exists p :: ContainsFlipped(d, c, p)
    ensures |c| <= |d| && Abstraction(c) <= Abstraction(d)
  {
    forall l | l in c ensures VarIn(d, l.v) {
      if !Contains(d, c) {
        var p :| ContainsFlipped(d, c, p);
        assert Neg(p) in d && (l == p || l in d);
        assert Neg(p).v == p.v;
      }
    }
    forall x | x in Abstraction(c) ensures x in Abstraction(d) {
      var l :| l in c && l.v % 32 == x;
      var m :| m in d && m.v == l.v;
      assert m.v % 32 == x;
    }
    VarsFit(c, d);
  }

  lemma {:induction false} VarsCount(c: Clause)
    ensures |VarsOf(c)| <= |c|
    ensures DistinctVars(c) ==> |VarsOf(c)| == |c|
  {
    if c == [] {
      assert VarsOf(c) == {};
    } else {
      VarsCount(c[1..]);
      assert VarsOf(c) == VarsOf(c[1..]) + {c[0].v};
      if DistinctVars(c) {
        assert DistinctVars(c[1..]);
        assert c[0].v !in VarsOf(c[1..]);
      }
    }
  }

  lemma VarsFit(c: Clause, d: Clause)
    requires DistinctVars(c) && forall l :: l in c ==> VarIn(d, l.v)
    ensures |c| <= |d|
  {
    VarsCount(c);
    VarsCount(d);
    forall v | v in VarsOf(c) ensures v in VarsOf(d) {
      var l :| l in c && l.v == v;
      assert VarIn(d, l.v);
      var m :| m in d && m.v == v;
    }
    assert VarsOf(d) == VarsOf(c) + (VarsOf(d) - VarsOf(c));
  }

  // What subsumption and self-subsuming resolution do to the models.
  lemma SubsumedFollows(a: Assignment, c: Clause, d: Clause)
    requires Satisfies(a, c) && Contains(d, c)
    ensures Satisfies(a, d)
  {
  }

  lemma StrengthenedFollows(a: Assignment, c: Clause, d: Clause, p: Lit)
    requires DistinctVars(c) && Satisfies(a, c) && Satisfies(a, d) && ContainsFlipped(d, c, p)
    ensures exists l :: l in d && l != Neg(p) && Holds(a, l)
  {
    var l :| l in c && Holds(a, l);
    var m :| m in d && Holds(a, m);
    NegHolds(a, p);
    if l == p {
      assert m != Neg(p);
    } else {
      assert l in d && l.v != p.v;
    }
  }
}
