// What addClause_ of core/Solver.cc makes of a clause: its literals sorted, those
// that are false or repeated dropped.  lits are the literals true at level 0.
module Filtering {
  import opened Logic
  import Sorting

  // What is left of c[..i]: no literal is true or meets its negation, and out
  // holds the ones that are not false, strictly ascending.
  ghost predicate Kept(lits: seq<Lit>, c: Clause, i: nat, out: Clause)
    requires i <= |c|
  {
    && (forall l :: l in out ==> l in c[..i] && Neg(l) !in lits && l !in lits)
    && (forall l :: l in c[..i] ==> l in out || Neg(l) in lits)
    && (forall x, y :: 0 <= x < y < |out| ==> out[x].v < out[y].v)
  }

  ghost predicate Ascend(c: Clause) {
    forall i, j :: 0 <= i < j < |c| ==> !LitLt(c[j], c[i])
  }

  lemma LitLtOrders()
    ensures Sorting.StrictWeakOrder(LitLt)
  {
  }

  lemma SortedMembers(ps: Clause, c: Clause)
    requires Sorting.PermutedIn(ps, c, 0, |ps|) && Sorting.Sorted(c[0..|c|], LitLt)
    ensures Ascend(c) && (forall l :: l in c <==> l in ps)
  {
    assert c[0..|c|] == c && ps[0..|ps|] == ps;
    forall l ensures l in c <==> l in ps {
      Sorting.PermutedMember(ps, c, 0, |ps|, l);
    }
  }

  lemma KeptNothing(lits: seq<Lit>, c: Clause)
    ensures Kept(lits, c, 0, [])
  {
  }

  lemma KeepOne(lits: seq<Lit>, c: Clause, i: nat, out: Clause)
    requires i < |c| && Ascend(c) && Kept(lits, c, i, out) && c[i] !in lits
    requires out == [] || c[i] != Neg(out[|out| - 1])
    ensures Neg(c[i]) in lits || (out != [] && c[i] == out[|out| - 1]) ==> Kept(lits, c, i + 1, out)
    ensures Neg(c[i]) !in lits && (out == [] || c[i] != out[|out| - 1]) ==> Kept(lits, c, i + 1, out + [c[i]])
  {
    assert c[..i + 1] == c[..i] + [c[i]];
    if out != [] {
      var p := out[|out| - 1];
      assert p in c[..i];
      var j :| 0 <= j < i && c[j] == p;
      assert !LitLt(c[i], p);
    }
  }

  lemma KeptSame(lits: seq<Lit>, ps: Clause, c: Clause, out: Clause)
    requires Kept(lits, c, |c|, out) && forall l :: l in c <==> l in ps
    ensures Kept(lits, ps, |ps|, out)
  {
    assert c[..|c|] == c && ps[..|ps|] == ps;
  }

  // Why a clause is dropped: it is true, or has a literal with both signs.
  lemma AlwaysTrue(lits: seq<Lit>, ps: Clause, c: Clause, i: nat, out: Clause)
    requires i < |c| && Kept(lits, c, i, out) && forall l :: l in c <==> l in ps
    requires c[i] in lits || (out != [] && c[i] == Neg(out[|out| - 1]))
    ensures exists l :: l in ps && (l in lits || Neg(l) in ps)
  {
    assert c[i] in c;
    if c[i] !in lits {
      var p := out[|out| - 1];
      assert p in c[..i] && p in ps && Neg(p) in ps;
    }
  }

  // In a model of the facts, what is left is as good as the clause.
  lemma KeptHolds(lits: seq<Lit>, c: Clause, out: Clause, a: Assignment)
    requires Kept(lits, c, |c|, out) && AllHold(a, lits)
    ensures Satisfies(a, out) <==> Satisfies(a, c)
  {
    assert c[..|c|] == c;
    if q :| q in c && Holds(a, q) {
      NegHolds(a, q);
      assert q in out;
    }
  }

  lemma DroppedHolds(lits: seq<Lit>, c: Clause, a: Assignment)
    requires AllHold(a, lits) && exists l :: l in c && (l in lits || Neg(l) in c)
    ensures Satisfies(a, c)
  {
    var l :| l in c && (l in lits || Neg(l) in c);
    NegHolds(a, l);
  }
}
