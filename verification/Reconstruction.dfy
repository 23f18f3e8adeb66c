// elimclauses of simp/SimpSolver.cc: how the clauses of eliminated variables are
// stored, and what extendModel makes of a model when it reads them backwards.
module Reconstruction {
  import opened Logic
  import opened Trails
  import opened Watching
  import opened Resolution

  // The last variable eliminated gets its value first.
  ghost function ExtendAll(blocks: seq<Block>, a: Assignment): Assignment {
    if blocks == [] then a
    else ExtendAll(blocks[..|blocks| - 1], Extended(blocks[|blocks| - 1], a))
  }

  lemma {:induction false} ExtendJoin(x: seq<Block>, y: seq<Block>, a: Assignment)
    ensures ExtendAll(x + y, a) == ExtendAll(x, ExtendAll(y, a))
  {
    if y == [] {
      assert x + y == x;
    } else {
      var all := x + y;
      assert all[..|all| - 1] == x + y[..|y| - 1] && all[|all| - 1] == y[|y| - 1];
      ExtendJoin(x, y[..|y| - 1], Extended(y[|y| - 1], a));
    }
  }

  // ------------------------------------------------------------- the encoding

  // The literals of a clause and then their number.
  function Record(c: Clause): seq<nat> {
    Codes(c) + [|c|]
  }

  function Flat(recs: seq<Clause>): seq<nat> {
    if recs == [] then [] else Flat(recs[..|recs| - 1]) + Record(recs[|recs| - 1])
  }

  lemma {:induction false} FlatJoin(x: seq<Clause>, y: seq<Clause>)
    ensures Flat(x + y) == Flat(x) + Flat(y)
  {
    hide Record;
    if y == [] {
      assert x + y == x;
    } else {
      var all, front, r := x + y, y[..|y| - 1], Record(y[|y| - 1]);
      assert all[..|all| - 1] == x + front && all[|all| - 1] == y[|y| - 1];
      FlatJoin(x, front);
      assert (Flat(x) + Flat(front)) + r == Flat(x) + (Flat(front) + r);
    }
  }

  lemma FlatNext(recs: seq<Clause>, k: nat)
    requires k < |recs|
    ensures Flat(recs[..k + 1]) == Flat(recs[..k]) + Record(recs[k])
  {
    assert recs[..k + 1][..k] == recs[..k];
  }

  // Where the literal of variable v stands.
  function Spot(c: Clause, v: Var): (j: nat)
    ensures j <= |c| && (j < |c| ==> c[j].v == v)
    ensures forall k :: 0 <= k < j ==> c[k].v != v
  {
    if c == [] || c[0].v == v then 0 else 1 + Spot(c[1..], v)
  }

  // The clause with the literal of v moved to the front.
  function VFirst(c: Clause, v: Var): Clause {
    var j := Spot(c, v);
    if j < |c| then Swapped(c, 0, j) else c
  }

  lemma VFirstIs(c: Clause, v: Var)
    requires DistinctVars(c) && VarIn(c, v)
    ensures |VFirst(c, v)| == |c| > 0 && VFirst(c, v)[0] in c && VFirst(c, v)[0].v == v
    ensures forall l :: l in VFirst(c, v)[1..] <==> l in c && l.v != v
  {
    var j, d := Spot(c, v), VFirst(c, v);
    var x :| x in c && x.v == v;
    var k :| 0 <= k < |c| && c[k] == x;
    assert j < |c|;
    assert d[0] == c[j];
    forall l | l in c && l.v != v ensures l in d[1..] {
      var i :| 0 <= i < |c| && c[i] == l;
      assert d[1..][(if i == 0 then j else i) - 1] == l;
    }
    forall l | l in d[1..] ensures l in c && l.v != v {
      var i :| 0 <= i < |d| - 1 && d[1..][i] == l;
      assert d[i + 1] == l && l == c[if i + 1 == j then 0 else i + 1];
    }
  }

  // The records of an eliminated variable: the stored clauses, then the default.
  function StoredRecs(b: Block): seq<Clause> {
    seq(|b.stored|, i requires 0 <= i < |b.stored| => VFirst(b.stored[i], b.v)) + [[Lit(b.v, b.sign)]]
  }

  function Recs(blocks: seq<Block>): seq<Clause> {
    if blocks == [] then [] else Recs(blocks[..|blocks| - 1]) + StoredRecs(blocks[|blocks| - 1])
  }

  // ------------------------------------------------------------ reading it back

  predicate AllFalse(m: seq<LBool>, c: Clause, lo: nat) {
    forall i :: lo <= i < |c| ==> c[i].v < |m| && ValueOf(m, c[i]) == False
  }

  // One record: unless another literal is not false, the first one is made true.
  function Apply(c: Clause, m: seq<LBool>): (r: seq<LBool>)
    ensures |r| == |m|
  {
    if |c| > 0 && c[0].v < |m| && AllFalse(m, c, 1) then m[c[0].v := Sat(c[0])] else m
  }

  function ApplyAll(recs: seq<Clause>, m: seq<LBool>): (r: seq<LBool>)
    ensures |r| == |m|
    decreases |recs|
  {
    if recs == [] then m else ApplyAll(recs[..|recs| - 1], Apply(recs[|recs| - 1], m))
  }

  lemma {:induction false} ApplyJoin(x: seq<Clause>, y: seq<Clause>, m: seq<LBool>)
    ensures ApplyAll(x + y, m) == ApplyAll(x, ApplyAll(y, m))
    decreases |y|
  {
    if y == [] {
      assert x + y == x;
    } else {
      var all := x + y;
      assert all[..|all| - 1] == x + y[..|y| - 1] && all[|all| - 1] == y[|y| - 1];
      ApplyJoin(x, y[..|y| - 1], Apply(y[|y| - 1], m));
    }
  }

  lemma ApplyLast(recs: seq<Clause>, k: nat, m: seq<LBool>)
    requires k < |recs|
    ensures ApplyAll(recs[..k + 1], m) == ApplyAll(recs[..k], Apply(recs[k], m))
  {
    assert recs[..k + 1][..k] == recs[..k];
  }

  // The variables a model makes true.
  ghost function AsSet(m: seq<LBool>): Assignment {
    set v | 0 <= v < |m| && m[v] == True
  }

  lemma AsSetHolds(m: seq<LBool>, l: Lit)
    requires l.v < |m| && m[l.v] != Undef
    ensures Holds(AsSet(m), l) <==> ValueOf(m, l) != False
  {
  }

  // ------------------------------------------------------------- one variable

  // The stored clauses have the other literal of v, and all their other
  // variables have a value.
  ghost predicate Stored(b: Block, m: seq<LBool>) {
    && b.v < |m|
    && (forall c :: c in b.stored ==> DistinctVars(c) && Lit(b.v, !b.sign) in c)
    && (forall c, l :: c in b.stored && l in c && l.v != b.v ==> l.v < |m| && m[l.v] != Undef)
  }

  ghost predicate Needs(b: Block, a: Assignment, i: nat) {
    exists k :: i <= k < |b.stored| && OnlyV(a, b.stored[k], b.v)
  }

  // The model once the default and the stored clauses from i on have been read.
  ghost function Mid(b: Block, m: seq<LBool>, i: nat): seq<LBool>
    requires b.v < |m|
  {
    m[b.v := Sat(Lit(b.v, b.sign != Needs(b, AsSet(m), i)))]
  }

  lemma RecordFalse(b: Block, m: seq<LBool>, i: nat, k: nat)
    requires Stored(b, m) && k < |b.stored|
    ensures |VFirst(b.stored[k], b.v)| > 0 && VFirst(b.stored[k], b.v)[0] == Lit(b.v, !b.sign)
    ensures AllFalse(Mid(b, m, i), VFirst(b.stored[k], b.v), 1) <==> OnlyV(AsSet(m), b.stored[k], b.v)
  {
    hide Needs, VFirst;
    var c, u := b.stored[k], Mid(b, m, i);
    assert c in b.stored;
    assert VarIn(c, b.v);
    VFirstIs(c, b.v);
    var d := VFirst(c, b.v);
    assert d[0] == Lit(b.v, !b.sign);
    forall l | l in c && l.v != b.v ensures l.v < |u| && u[l.v] == m[l.v] != Undef {
    }
    if OnlyV(AsSet(m), c, b.v) {
      forall j | 1 <= j < |d| ensures d[j].v < |u| && ValueOf(u, d[j]) == False {
        assert d[1..][j - 1] == d[j];
        AsSetHolds(m, d[j]);
      }
    }
    if AllFalse(u, d, 1) {
      forall l | l in c && l.v != b.v ensures !Holds(AsSet(m), l) {
        assert l in d[1..];
        var j :| 0 <= j < |d| - 1 && d[1..][j] == l;
        assert d[j + 1] == l;
        AsSetHolds(m, l);
      }
    }
  }

  lemma StoredVar(b: Block, m: seq<LBool>)
    requires Stored(b, m)
    ensures b.v < |m|
  {
  }

  lemma StoredStep(b: Block, m: seq<LBool>, i: nat)
    requires b.v < |m| && Stored(b, m) && i < |b.stored|
    ensures Apply(VFirst(b.stored[i], b.v), Mid(b, m, i + 1)) == Mid(b, m, i)
  {
    hide Stored, VFirst, OnlyV, AllFalse;
    RecordFalse(b, m, i + 1, i);
    assert Needs(b, AsSet(m), i) <==> OnlyV(AsSet(m), b.stored[i], b.v) || Needs(b, AsSet(m), i + 1);
    assert Mid(b, m, i + 1)[b.v := Sat(Lit(b.v, !b.sign))] == m[b.v := Sat(Lit(b.v, !b.sign))];
  }

  lemma {:induction false} StoredApplied(b: Block, m: seq<LBool>, i: nat)
    requires b.v < |m| && Stored(b, m) && i <= |b.stored|
    ensures ApplyAll(StoredRecs(b)[..i], Mid(b, m, i)) == Mid(b, m, 0)
  {
    hide Stored, Mid, Apply, VFirst;
    if i > 0 {
      StoredStep(b, m, i - 1);
      ApplyLast(StoredRecs(b), i - 1, Mid(b, m, i));
      StoredApplied(b, m, i - 1);
    }
  }

  // Reading the records of b sets its variable as Extended does, and no other.
  lemma BlockApplied(b: Block, m: seq<LBool>)
    requires Stored(b, m)
    ensures ApplyAll(StoredRecs(b), m) == Mid(b, m, 0)
    ensures AsSet(Mid(b, m, 0)) == Extended(b, AsSet(m))
  {
    var recs, k := StoredRecs(b), |b.stored|;
    assert Apply([Lit(b.v, b.sign)], m) == Mid(b, m, k);
    assert recs[..k + 1] == recs;
    ApplyLast(recs, k, m);
    StoredApplied(b, m, k);
    hide StoredRecs, Stored, OnlyV, ApplyAll;
    assert Needs(b, AsSet(m), 0) <==> exists c :: c in b.stored && OnlyV(AsSet(m), c, b.v);
    MidSet(b, m);
  }

  lemma MidSet(b: Block, m: seq<LBool>)
    requires b.v < |m|
    ensures var a := AsSet(m);
            AsSet(Mid(b, m, 0)) == if Needs(b, a, 0) == b.sign then a + {b.v} else a - {b.v}
  {
    hide Needs;
  }

  // ------------------------------------------------------------ all variables

  // A stored clause mentions no variable that was eliminated earlier.
  ghost predicate BlocksFit(blocks: seq<Block>, n: nat) {
    forall k :: 0 <= k < |blocks| ==> FitsAfter(blocks[..k], blocks[k], n)
  }

  ghost predicate FitsAfter(earlier: seq<Block>, b: Block, n: nat) {
    && b.v < n
    && (forall c :: c in b.stored ==>
          DistinctVars(c) && InRange(c, n) && Lit(b.v, !b.sign) in c && Avoids(earlier, c))
  }

  ghost predicate Avoids(earlier: seq<Block>, c: Clause) {
    forall l :: l in c ==> !Gone(earlier, l.v)
  }

  ghost predicate Gone(blocks: seq<Block>, v: Var) {
    exists k :: 0 <= k < |blocks| && blocks[k].v == v
  }

  // Every variable that was not eliminated has a value.
  ghost predicate Defined(blocks: seq<Block>, m: seq<LBool>) {
    forall v :: 0 <= v < |m| && !Gone(blocks, v) ==> m[v] != Undef
  }

  lemma FrontFits(blocks: seq<Block>, n: nat)
    requires BlocksFit(blocks, n) && blocks != []
    ensures BlocksFit(blocks[..|blocks| - 1], n)
  {
    hide FitsAfter;
    var front := blocks[..|blocks| - 1];
    forall k | 0 <= k < |front| ensures FitsAfter(front[..k], front[k], n) {
      assert front[..k] == blocks[..k];
    }
  }

  lemma FrontDefined(blocks: seq<Block>, m: seq<LBool>)
    requires Defined(blocks, m) && blocks != [] && blocks[|blocks| - 1].v < |m|
    ensures Defined(blocks[..|blocks| - 1], Mid(blocks[|blocks| - 1], m, 0))
  {
    hide Needs;
    var k, front := |blocks| - 1, blocks[..|blocks| - 1];
    var u := Mid(blocks[k], m, 0);
    forall v | 0 <= v < |u| && !Gone(front, v) ensures u[v] != Undef {
      if v != blocks[k].v {
        assert !Gone(blocks, v) by {
          forall i | 0 <= i < |blocks| ensures blocks[i].v != v {
            assert i < k ==> front[i] == blocks[i];
          }
        }
      }
    }
  }

  lemma LastStored(blocks: seq<Block>, m: seq<LBool>)
    requires BlocksFit(blocks, |m|) && Defined(blocks, m) && blocks != []
    ensures Stored(blocks[|blocks| - 1], m)
    ensures BlocksFit(blocks[..|blocks| - 1], |m|)
    ensures Defined(blocks[..|blocks| - 1], Mid(blocks[|blocks| - 1], m, 0))
  {
    hide DistinctVars, Mid;
    var k := |blocks| - 1;
    var b, front := blocks[k], blocks[..k];
    assert FitsAfter(front, b, |m|);
    FrontFits(blocks, |m|);
    FrontDefined(blocks, m);
    forall c, l | c in b.stored && l in c && l.v != b.v ensures l.v < |m| && m[l.v] != Undef {
      assert Avoids(front, c) && InRange(c, |m|);
      forall i | 0 <= i < |blocks| ensures blocks[i].v != l.v {
        assert i < k ==> front[i] == blocks[i];
      }
      assert !Gone(blocks, l.v);
    }
  }

  // extendModel computes the extension, variable by variable.
  lemma {:induction false} BlocksApplied(blocks: seq<Block>, m: seq<LBool>)
    requires BlocksFit(blocks, |m|) && Defined(blocks, m)
    ensures AsSet(ApplyAll(Recs(blocks), m)) == ExtendAll(blocks, AsSet(m))
    decreases |blocks|
  {
    hide BlocksFit, Defined, Mid, Stored, StoredRecs, AsSet, Extended;
    if blocks != [] {
      var front, b := blocks[..|blocks| - 1], blocks[|blocks| - 1];
      LastStored(blocks, m);
      StoredVar(b, m);
      BlockApplied(b, m);
      ApplyJoin(Recs(front), StoredRecs(b), m);
      BlocksApplied(front, Mid(b, m, 0));
    }
  }
}
