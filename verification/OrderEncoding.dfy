// constraints/OrderEncodingLinear.cc: a linear inequality over order-encoded
// integers.
module OrderEncodings {
  import opened Logic
  import opened Trails
  import opened Tables
  import opened Starting

  // A term of coefficient 1: literal i says that the value is at least
  // domain[i + 1].
  datatype Term = Term(lits: seq<Lit>, domain: seq<int>)

  predicate Ascending(d: seq<int>) {
    forall i, j :: 0 <= i < j < |d| ==> d[i] < d[j]
  }

  predicate TermOK(t: Term) {
    |t.domain| == |t.lits| + 1 && Ascending(t.domain)
  }

  predicate TermsOK(terms: seq<Term>) {
    forall i :: 0 <= i < |terms| ==> TermOK(terms[i])
  }

  // The number of literals before the first one that is false.  For an assignment
  // that respects the order it says which value of the domain is taken; for the
  // others it is one way to read them.
  ghost function Rank(a: Assignment, lits: seq<Lit>): (k: nat)
    ensures k <= |lits|
  {
    if lits == [] || !Holds(a, lits[0]) then 0 else 1 + Rank(a, lits[1..])
  }

  ghost function TermValue(a: Assignment, t: Term): int
    requires TermOK(t)
  {
    t.domain[Rank(a, t.lits)]
  }

  ghost function SumValue(a: Assignment, terms: seq<Term>): int
    requires TermsOK(terms)
  {
    if terms == [] then 0 else TermValue(a, terms[0]) + SumValue(a, terms[1..])
  }

  // The first literal that ls falsifies.
  ghost function Cap(ls: seq<Lit>, lits: seq<Lit>): (k: nat)
    ensures k <= |lits|
  {
    if lits == [] || Neg(lits[0]) in ls then 0 else 1 + Cap(ls, lits[1..])
  }

  ghost function SumCap(ls: seq<Lit>, terms: seq<Term>): int
    requires TermsOK(terms)
  {
    if terms == [] then 0 else terms[0].domain[Cap(ls, terms[0].lits)] + SumCap(ls, terms[1..])
  }

  // ub_index_ and total_ub_.
  datatype Bounds = Bounds(ubs: seq<nat>, total: int)

  predicate BoundsOK(terms: seq<Term>, b: Bounds) {
    |b.ubs| == |terms| && forall i :: 0 <= i < |terms| ==> b.ubs[i] < |terms[i].domain|
  }

  ghost function SumAt(terms: seq<Term>, ubs: seq<nat>): int
    requires TermsOK(terms) && |ubs| == |terms| && forall i :: 0 <= i < |terms| ==> ubs[i] < |terms[i].domain|
  {
    if terms == [] then 0 else terms[0].domain[ubs[0]] + SumAt(terms[1..], ubs[1..])
  }

  // total_ub_ equals the constant plus the current upper bounds.
  ghost predicate Exact(terms: seq<Term>, constant: int, b: Bounds) {
    TermsOK(terms) && BoundsOK(terms, b) && b.total == constant + SumAt(terms, b.ubs)
  }

  predicate PosOK(terms: seq<Term>, x: Pos) {
    x.0 < |terms| && x.1 < |terms[x.0].lits|
  }

  predicate AllPosOK(terms: seq<Term>, occ: seq<Pos>) {
    forall x :: x in occ ==> PosOK(terms, x)
  }

  // The entries of the sorted table lits_ for one literal.
  function Occurrences(terms: seq<Term>, l: Lit, i: nat): seq<Pos>
    requires i <= |terms|
    decreases |terms| - i
  {
    if i == |terms| then [] else InList(terms[i].lits, l, i, 0) + Occurrences(terms, l, i + 1)
  }

  lemma {:induction false} OccurrencesMembers(terms: seq<Term>, l: Lit, i: nat, x: Pos)
    requires i <= |terms|
    ensures x in Occurrences(terms, l, i) <==> i <= x.0 && PosOK(terms, x) && terms[x.0].lits[x.1] == l
    decreases |terms| - i
  {
    if i < |terms| {
      InListMembers(terms[i].lits, l, i, 0, x);
      OccurrencesMembers(terms, l, i + 1, x);
    }
  }

  // ------------------------------------------------------- lowering a bound

  function Lowered(terms: seq<Term>, b: Bounds, i: nat, j: nat): Bounds
    requires BoundsOK(terms, b) && i < |terms| && j < |terms[i].domain|
  {
    Bounds(b.ubs[i := j], b.total - (terms[i].domain[b.ubs[i]] - terms[i].domain[j]))
  }

  // The loop over the positions of a literal that became false; it stops as soon
  // as the sum cannot be reached any more.
  function Lower(terms: seq<Term>, b: Bounds, occ: seq<Pos>): (c: Bounds)
    requires TermsOK(terms) && BoundsOK(terms, b) && AllPosOK(terms, occ)
    ensures BoundsOK(terms, c)
    decreases |occ|
  {
    if occ == [] then b
    else
      var (i, j) := occ[0];
      assert PosOK(terms, occ[0]);
      if b.ubs[i] <= j then Lower(terms, b, occ[1..])
      else
        var c := Lowered(terms, b, i, j);
        if c.total < 0 then c else Lower(terms, c, occ[1..])
  }

  // The entries it adds to undo_list_, after the mark.
  function Changes(terms: seq<Term>, b: Bounds, occ: seq<Pos>): seq<Pos>
    requires TermsOK(terms) && BoundsOK(terms, b) && AllPosOK(terms, occ)
    decreases |occ|
  {
    if occ == [] then []
    else
      var (i, j) := occ[0];
      assert PosOK(terms, occ[0]);
      if b.ubs[i] <= j then Changes(terms, b, occ[1..])
      else
        var c := Lowered(terms, b, i, j);
        [(i, b.ubs[i])] + if c.total < 0 then [] else Changes(terms, c, occ[1..])
  }

  function Start(terms: seq<Term>, constant: int): (b: Bounds)
    requires TermsOK(terms)
    ensures BoundsOK(terms, b)
  {
    Bounds(seq(|terms|, i requires 0 <= i < |terms| => |terms[i].lits|), constant + SumLast(terms))
  }

  function SumLast(terms: seq<Term>): int
    requires TermsOK(terms)
  {
    if terms == [] then 0 else terms[0].domain[|terms[0].lits|] + SumLast(terms[1..])
  }

  // The private state as a function of the literals delivered.
  function After(terms: seq<Term>, constant: int, log: seq<Lit>): (b: Bounds)
    requires TermsOK(terms)
    ensures BoundsOK(terms, b)
  {
    if log == [] then Start(terms, constant)
    else
      var p := log[|log| - 1];
      OccurrencesOK(terms, Neg(p));
      Lower(terms, After(terms, constant, log[..|log| - 1]), Occurrences(terms, Neg(p), 0))
  }

  lemma OccurrencesOK(terms: seq<Term>, l: Lit)
    ensures AllPosOK(terms, Occurrences(terms, l, 0))
  {
    forall x | x in Occurrences(terms, l, 0) ensures PosOK(terms, x) {
      OccurrencesMembers(terms, l, 0, x);
    }
  }

  // --------------------------------------------------------- the enqueue loop

  // The index of the literal to enqueue for a term whose bound is u: the largest
  // j with total - (domain[u] - domain[j]) < 0.
  function LowerBound(d: seq<int>, x: int): (k: nat)
    ensures k <= |d|
    ensures forall i :: 0 <= i < k ==> d[i] < x
    ensures k < |d| ==> x <= d[k]
  {
    if d == [] || x <= d[0] then 0 else 1 + LowerBound(d[1..], x)
  }

  predicate Tight(t: Term, u: nat, total: int)
    requires TermOK(t) && u < |t.domain|
  {
    u != 0 && total - (t.domain[u] - t.domain[0]) < 0
  }

  function Bounding(terms: seq<Term>, b: Bounds, i: nat): seq<Lit>
    requires TermsOK(terms) && BoundsOK(terms, b) && i <= |terms| && b.total >= 0
    decreases |terms| - i
  {
    if i == |terms| then []
    else
      var t, u := terms[i], b.ubs[i];
      (if Tight(t, u, b.total) then
         var left := LowerBound(t.domain, t.domain[u] - b.total) - 1;
         LeftInRange(t, u, b.total);
         [t.lits[left]]
       else [])
      + Bounding(terms, b, i + 1)
  }

  // left is a valid index, and the literal it names is the weakest lower bound
  // that the other terms demand: the sum can be reached from domain[k] exactly if
  // k is above it.
  lemma LeftInRange(t: Term, u: nat, total: int)
    requires TermOK(t) && u < |t.domain| && total >= 0 && Tight(t, u, total)
    ensures var left := LowerBound(t.domain, t.domain[u] - total) - 1;
            && 0 <= left < u <= |t.lits|
            && forall k :: 0 <= k < |t.domain| ==> (total - t.domain[u] + t.domain[k] >= 0 <==> k > left)
  {
    var x := t.domain[u] - total;
    var k := LowerBound(t.domain, x);
    assert t.domain[0] < x <= t.domain[u];
    if k > u {
      assert false;
    }
    forall m | k <= m < |t.domain| ensures x <= t.domain[m] {
      assert m > k ==> t.domain[k] < t.domain[m];
    }
  }

  function Told(terms: seq<Term>, constant: int, log: seq<Lit>): Answer
    requires TermsOK(terms)
  {
    var b := After(terms, constant, log);
    if b.total < 0 then Answer([], false) else Answer(Bounding(terms, b, 0), true)
  }

  function ReasonOf(terms: seq<Term>, b: Bounds, i: nat): seq<Lit>
    requires TermsOK(terms) && BoundsOK(terms, b) && i <= |terms|
    decreases |terms| - i
  {
    if i == |terms| then []
    else (if b.ubs[i] < |terms[i].lits| then [Neg(terms[i].lits[b.ubs[i]])] else []) + ReasonOf(terms, b, i + 1)
  }

  ghost function LinearK(terms: seq<Term>, constant: int): Constraint
    requires TermsOK(terms)
  {
    Constraint(a => constant + SumValue(a, terms) >= 0,
               ls => constant + SumCap(ls, terms) < 0,
               Watches(terms),
               (log, trail, pending) => Told(terms, constant, log),
               (log, trail, p) => ReasonOf(terms, After(terms, constant, log), 0),
               (log, trail, extra) => ReasonOf(terms, After(terms, constant, log), 0) + extra)
  }

  ghost function Watches(terms: seq<Term>): set<Lit> {
    set i, j | 0 <= i < |terms| && 0 <= j < |terms[i].lits| :: Neg(terms[i].lits[j])
  }

  // ------------------------------------------------------------ caps and values

  lemma {:induction false} RankBelowCap(a: Assignment, ls: seq<Lit>, lits: seq<Lit>)
    requires AllHold(a, ls)
    ensures Rank(a, lits) <= Cap(ls, lits)
  {
    if lits != [] && Neg(lits[0]) !in ls {
      RankBelowCap(a, ls, lits[1..]);
    }
  }

  lemma {:induction false} RankIsCap(a: Assignment, ls: seq<Lit>, lits: seq<Lit>)
    requires AllHold(a, ls) && forall j :: 0 <= j < |lits| && Holds(a, Neg(lits[j])) ==> Neg(lits[j]) in ls
    ensures Rank(a, lits) == Cap(ls, lits)
  {
    if lits != [] {
      if Neg(lits[0]) in ls {
        assert Holds(a, Neg(lits[0]));
      } else {
        RankIsCap(a, ls, lits[1..]);
      }
    }
  }

  lemma {:induction false} CapShrinks(few: seq<Lit>, more: seq<Lit>, lits: seq<Lit>)
    requires forall j :: 0 <= j < |lits| && Neg(lits[j]) in few ==> Neg(lits[j]) in more
    ensures Cap(more, lits) <= Cap(few, lits)
  {
    if lits != [] && Neg(lits[0]) !in more {
      CapShrinks(few, more, lits[1..]);
    }
  }

  lemma DomainOrder(t: Term, i: nat, j: nat)
    requires TermOK(t) && i <= j < |t.domain|
    ensures t.domain[i] <= t.domain[j]
  {
  }

  lemma {:induction false} ValuesBelowCaps(a: Assignment, ls: seq<Lit>, terms: seq<Term>)
    requires TermsOK(terms) && AllHold(a, ls)
    ensures SumValue(a, terms) <= SumCap(ls, terms)
  {
    if terms != [] {
      RankBelowCap(a, ls, terms[0].lits);
      DomainOrder(terms[0], Rank(a, terms[0].lits), Cap(ls, terms[0].lits));
      ValuesBelowCaps(a, ls, terms[1..]);
    }
  }

  lemma {:induction false} ValuesAreCaps(a: Assignment, ls: seq<Lit>, terms: seq<Term>)
    requires TermsOK(terms) && AllHold(a, ls)
    requires forall i, j :: 0 <= i < |terms| && 0 <= j < |terms[i].lits| && Holds(a, Neg(terms[i].lits[j])) ==>
               Neg(terms[i].lits[j]) in ls
    ensures SumValue(a, terms) == SumCap(ls, terms)
  {
    if terms != [] {
      RankIsCap(a, ls, terms[0].lits);
      ValuesAreCaps(a, ls, terms[1..]);
    }
  }

  lemma {:induction false} CapsOrdered(ls: seq<Lit>, more: seq<Lit>, terms: seq<Term>)
    requires TermsOK(terms) && forall i :: 0 <= i < |terms| ==> Cap(ls, terms[i].lits) <= Cap(more, terms[i].lits)
    ensures SumCap(ls, terms) <= SumCap(more, terms)
  {
    if terms != [] {
      DomainOrder(terms[0], Cap(ls, terms[0].lits), Cap(more, terms[0].lits));
      CapsOrdered(ls, more, terms[1..]);
    }
  }

  // Cap is the first index of a literal that ls falsifies.
  lemma {:induction false} CapIsFirst(ls: seq<Lit>, lits: seq<Lit>)
    ensures var c := Cap(ls, lits);
            && (c < |lits| ==> Neg(lits[c]) in ls)
            && (forall j :: 0 <= j < |lits| && Neg(lits[j]) in ls ==> c <= j)
  {
    if lits != [] && Neg(lits[0]) !in ls {
      CapIsFirst(ls, lits[1..]);
      forall j | 0 <= j < |lits| && Neg(lits[j]) in ls ensures Cap(ls, lits) <= j {
        assert j > 0 && lits[j] == lits[1..][j - 1];
      }
    }
  }

  // Caps against bounds that are known to be no lower, or no higher.
  lemma {:induction false} CapsBelow(ls: seq<Lit>, terms: seq<Term>, ubs: seq<nat>)
    requires TermsOK(terms) && |ubs| == |terms|
    requires forall i :: 0 <= i < |terms| ==> ubs[i] < |terms[i].domain| && Cap(ls, terms[i].lits) <= ubs[i]
    ensures SumCap(ls, terms) <= SumAt(terms, ubs)
  {
    if terms != [] {
      DomainOrder(terms[0], Cap(ls, terms[0].lits), ubs[0]);
      CapsBelow(ls, terms[1..], ubs[1..]);
    }
  }

  lemma {:induction false} CapsEqual(ls: seq<Lit>, terms: seq<Term>, ubs: seq<nat>)
    requires TermsOK(terms) && |ubs| == |terms|
    requires forall i :: 0 <= i < |terms| ==> ubs[i] < |terms[i].domain| && Cap(ls, terms[i].lits) == ubs[i]
    ensures SumCap(ls, terms) == SumAt(terms, ubs)
  {
    if terms != [] {
      CapsEqual(ls, terms[1..], ubs[1..]);
    }
  }

  lemma {:induction false} SumAtUpdate(terms: seq<Term>, ubs: seq<nat>, i: nat, j: nat)
    requires TermsOK(terms) && |ubs| == |terms| && forall x :: 0 <= x < |terms| ==> ubs[x] < |terms[x].domain|
    requires i < |terms| && j < |terms[i].domain|
    ensures SumAt(terms, ubs[i := j]) == SumAt(terms, ubs) - terms[i].domain[ubs[i]] + terms[i].domain[j]
  {
    if i == 0 {
      assert ubs[i := j][1..] == ubs[1..];
    } else {
      SumAtUpdate(terms[1..], ubs[1..], i - 1, j);
      assert ubs[i := j][1..] == ubs[1..][i - 1 := j];
    }
  }

  // What lowering does: the sum stays exact, bounds only go down to positions of
  // the literal, and unless the sum has become negative to all of them.
  lemma {:induction false} LowerFacts(terms: seq<Term>, constant: int, b: Bounds, occ: seq<Pos>)
    requires Exact(terms, constant, b) && AllPosOK(terms, occ)
    ensures var c := Lower(terms, b, occ);
            && Exact(terms, constant, c) && c.total <= b.total
            && (forall i: nat :: i < |terms| ==> c.ubs[i] <= b.ubs[i] && (c.ubs[i] == b.ubs[i] || (i, c.ubs[i]) in occ))
            && (c.total >= 0 ==> forall x :: x in occ ==> c.ubs[x.0] <= x.1)
    decreases |occ|
  {
    if occ != [] {
      var (i, j) := occ[0];
      assert PosOK(terms, occ[0]);
      assert occ == [occ[0]] + occ[1..];
      if b.ubs[i] <= j {
        LowerFacts(terms, constant, b, occ[1..]);
      } else {
        SumAtUpdate(terms, b.ubs, i, j);
        DomainOrder(terms[i], j, b.ubs[i]);
        var c := Lowered(terms, b, i, j);
        if c.total >= 0 {
          LowerFacts(terms, constant, c, occ[1..]);
        }
      }
    }
  }

  lemma {:induction false} StartExact(terms: seq<Term>, constant: int)
    requires TermsOK(terms)
    ensures Exact(terms, constant, Start(terms, constant))
  {
    LastIsSum(terms, Start(terms, constant).ubs);
  }

  lemma {:induction false} LastIsSum(terms: seq<Term>, ubs: seq<nat>)
    requires TermsOK(terms) && |ubs| == |terms| && forall i :: 0 <= i < |terms| ==> ubs[i] == |terms[i].lits|
    ensures SumLast(terms) == SumAt(terms, ubs)
  {
    if terms != [] {
      LastIsSum(terms[1..], ubs[1..]);
    }
  }

  // The bounds say what the log says: no less, and unless the sum is negative
  // no more.
  ghost predicate Reflects(terms: seq<Term>, b: Bounds, log: seq<Lit>)
    requires BoundsOK(terms, b) && TermsOK(terms)
  {
    && (forall i :: 0 <= i < |terms| && b.ubs[i] < |terms[i].lits| ==> Neg(terms[i].lits[b.ubs[i]]) in log)
    && (b.total >= 0 ==>
         forall i, j :: 0 <= i < |terms| && 0 <= j < |terms[i].lits| && Neg(terms[i].lits[j]) in log ==> b.ubs[i] <= j)
  }

  lemma {:induction false} AfterReflects(terms: seq<Term>, constant: int, log: seq<Lit>)
    requires TermsOK(terms)
    ensures Exact(terms, constant, After(terms, constant, log))
    ensures Reflects(terms, After(terms, constant, log), log)
  {
    if log == [] {
      StartExact(terms, constant);
    } else {
      var p, front := log[|log| - 1], log[..|log| - 1];
      AfterReflects(terms, constant, front);
      OccurrencesOK(terms, Neg(p));
      var b, occ := After(terms, constant, front), Occurrences(terms, Neg(p), 0);
      LowerFacts(terms, constant, b, occ);
      assert log == front + [p];
      OccurrencesAre(terms, b, Lower(terms, b, occ), p);
      ReflectsMore(terms, b, Lower(terms, b, occ), front, p);
    }
  }

  // The bounds c are b lowered to positions of the negation of p, and unless the
  // sum is negative to all of them.
  ghost predicate LoweredBy(terms: seq<Term>, b: Bounds, c: Bounds, p: Lit)
    requires BoundsOK(terms, b) && BoundsOK(terms, c)
  {
    && (forall i :: 0 <= i < |terms| ==> c.ubs[i] <= b.ubs[i])
    && (forall i :: 0 <= i < |terms| && c.ubs[i] != b.ubs[i] ==>
          c.ubs[i] < |terms[i].lits| && terms[i].lits[c.ubs[i]] == Neg(p))
    && (c.total >= 0 ==>
         forall i, j :: 0 <= i < |terms| && 0 <= j < |terms[i].lits| && terms[i].lits[j] == Neg(p) ==> c.ubs[i] <= j)
    && c.total <= b.total
  }

  lemma OccurrencesAre(terms: seq<Term>, b: Bounds, c: Bounds, p: Lit)
    requires TermsOK(terms) && BoundsOK(terms, b) && BoundsOK(terms, c) && c.total <= b.total
    requires var occ := Occurrences(terms, Neg(p), 0);
             && (forall i: nat :: i < |terms| ==>
                  c.ubs[i] <= b.ubs[i] && (c.ubs[i] == b.ubs[i] || (i, c.ubs[i]) in occ))
             && (c.total >= 0 ==> forall x :: x in occ ==> x.0 < |terms| && c.ubs[x.0] <= x.1)
    ensures LoweredBy(terms, b, c, p)
  {
    forall i: nat, j: nat
      ensures (i, j) in Occurrences(terms, Neg(p), 0) <==>
              i < |terms| && j < |terms[i].lits| && terms[i].lits[j] == Neg(p)
    {
      OccurrencesMembers(terms, Neg(p), 0, (i, j));
    }
  }

  lemma ReflectsMore(terms: seq<Term>, b: Bounds, c: Bounds, log: seq<Lit>, p: Lit)
    requires TermsOK(terms) && BoundsOK(terms, b) && BoundsOK(terms, c) && Reflects(terms, b, log)
    requires LoweredBy(terms, b, c, p)
    ensures Reflects(terms, c, log + [p])
  {
    assert forall l: Lit :: Neg(l) == p ==> l == Neg(p);
  }

  // ------------------------------------------------------------ the contract

  lemma CapsOfLog(terms: seq<Term>, constant: int, log: seq<Lit>)
    requires TermsOK(terms)
    ensures var b := After(terms, constant, log);
            && (forall i :: 0 <= i < |terms| ==> Cap(log, terms[i].lits) <= b.ubs[i])
            && (b.total >= 0 ==> forall i :: 0 <= i < |terms| ==> Cap(log, terms[i].lits) == b.ubs[i])
            && (constant + SumCap(log, terms) < 0 <==> b.total < 0)
            && (b.total >= 0 ==> b.total == constant + SumCap(log, terms))
  {
    var b := After(terms, constant, log);
    AfterReflects(terms, constant, log);
    forall i | 0 <= i < |terms| ensures Cap(log, terms[i].lits) <= b.ubs[i]
      ensures b.total >= 0 ==> Cap(log, terms[i].lits) == b.ubs[i]
    {
      CapIsFirst(log, terms[i].lits);
    }
    CapsBelow(log, terms, b.ubs);
    if b.total >= 0 {
      CapsEqual(log, terms, b.ubs);
    }
  }

  lemma LinearRecognises(terms: seq<Term>, constant: int)
    requires TermsOK(terms)
    ensures Recognises(LinearK(terms, constant))
  {
    var con := LinearK(terms, constant);
    forall ls | con.blocked(ls) ensures Refutes(con.sat, ls) {
      forall a: Assignment | con.sat(a) ensures !AllHold(a, ls) {
        if AllHold(a, ls) {
          ValuesBelowCaps(a, ls, terms);
          assert false;
        }
      }
    }
    forall few, more | con.blocked(few) && forall l :: l in few && l in con.watched ==> l in more
      ensures con.blocked(more)
    {
      forall i | 0 <= i < |terms| ensures Cap(more, terms[i].lits) <= Cap(few, terms[i].lits) {
        assert forall j :: 0 <= j < |terms[i].lits| ==> Neg(terms[i].lits[j]) in con.watched;
        CapShrinks(few, more, terms[i].lits);
      }
      CapsOrdered(more, few, terms);
    }
  }

  // The literal enqueued for term i.
  function Left(t: Term, u: nat, total: int): (k: nat)
    requires TermOK(t) && u < |t.domain| && total >= 0 && Tight(t, u, total)
    ensures k < |t.lits|
  {
    LeftInRange(t, u, total);
    LowerBound(t.domain, t.domain[u] - total) - 1
  }

  lemma {:induction false} BoundingMembers(terms: seq<Term>, b: Bounds, i: nat, x: Lit)
    requires TermsOK(terms) && BoundsOK(terms, b) && i <= |terms| && b.total >= 0
    ensures x in Bounding(terms, b, i) <==>
            exists k :: i <= k < |terms| && Tight(terms[k], b.ubs[k], b.total)
                        && x == terms[k].lits[Left(terms[k], b.ubs[k], b.total)]
    decreases |terms| - i
  {
    hide TermOK, Tight, LowerBound;
    if i < |terms| {
      BoundingMembers(terms, b, i + 1, x);
      if Tight(terms[i], b.ubs[i], b.total) {
        LeftInRange(terms[i], b.ubs[i], b.total);
        assert x == terms[i].lits[Left(terms[i], b.ubs[i], b.total)] ==> x in Bounding(terms, b, i);
      }
    }
  }

  // Among the values of a term up to its upper bound, those from which the sum can
  // still be reached are the ones above Left, or all of them if it is not tight.
  lemma ReachedAbove(terms: seq<Term>, constant: int, log: seq<Lit>, i: nat, k: nat)
    requires TermsOK(terms) && After(terms, constant, log).total >= 0 && i < |terms|
    requires k <= After(terms, constant, log).ubs[i]
    ensures var b := After(terms, constant, log);
            var u := b.ubs[i];
            constant + SumAt(terms, b.ubs[i := k]) >= 0 <==>
            (Tight(terms[i], u, b.total) ==> k > Left(terms[i], u, b.total))
  {
    var b := After(terms, constant, log);
    AfterReflects(terms, constant, log);
    SumAtUpdate(terms, b.ubs, i, k);
    if Tight(terms[i], b.ubs[i], b.total) {
      LeftInRange(terms[i], b.ubs[i], b.total);
    } else if k > 0 {
      assert terms[i].domain[0] < terms[i].domain[k];
    }
  }

  // The sum when term i has its value k and the others their largest ones.
  ghost function SumWith(terms: seq<Term>, constant: int, log: seq<Lit>, i: nat, k: nat): int
    requires TermsOK(terms) && i < |terms| && k < |terms[i].domain|
  {
    constant + SumAt(terms, After(terms, constant, log).ubs[i := k])
  }

  // Literal x of term i excludes exactly the values that are too small for the sum.
  ghost predicate Excludes(terms: seq<Term>, constant: int, log: seq<Lit>, i: nat, j: nat, x: Lit)
    requires TermsOK(terms)
  {
    && i < |terms| && j < After(terms, constant, log).ubs[i] && j < |terms[i].lits| && x == terms[i].lits[j]
    && SumWith(terms, constant, log, i, j) < 0 <= SumWith(terms, constant, log, i, j + 1)
  }

  // propagate enqueues exactly the tightest lower bounds that the upper bounds of the
  // other terms imply, and no value from which the sum cannot be reached is left in
  // the range of its term.
  lemma TightestBound(terms: seq<Term>, constant: int, log: seq<Lit>)
    requires TermsOK(terms) && Told(terms, constant, log).accept
    ensures forall x :: x in Told(terms, constant, log).implied <==>
              exists i: nat, j: nat :: Excludes(terms, constant, log, i, j, x)
    ensures forall i: nat, k: nat ::
              i < |terms| && k <= After(terms, constant, log).ubs[i] && SumWith(terms, constant, log, i, k) < 0 ==>
                exists j :: k <= j < |terms[i].lits| && terms[i].lits[j] in Told(terms, constant, log).implied
  {
    hide Bounding, After, TermOK, SumAt;
    var b := After(terms, constant, log);
    forall x ensures x in Bounding(terms, b, 0) <==> exists i: nat, j: nat :: Excludes(terms, constant, log, i, j, x) {
      BoundingMembers(terms, b, 0, x);
      forall i: nat | i < |terms| && Tight(terms[i], b.ubs[i], b.total)
        ensures Excludes(terms, constant, log, i, Left(terms[i], b.ubs[i], b.total),
                         terms[i].lits[Left(terms[i], b.ubs[i], b.total)])
      {
        LeftExcludes(terms, constant, log, i);
      }
      forall i: nat, j: nat | Excludes(terms, constant, log, i, j, x)
        ensures Tight(terms[i], b.ubs[i], b.total) && j == Left(terms[i], b.ubs[i], b.total)
      {
        ExcludesLeft(terms, constant, log, i, j, x);
      }
    }
    forall i: nat, k: nat | i < |terms| && k <= b.ubs[i] && SumWith(terms, constant, log, i, k) < 0
      ensures exists j :: k <= j < |terms[i].lits| && terms[i].lits[j] in Told(terms, constant, log).implied
    {
      ReachedAbove(terms, constant, log, i, k);
      BoundingMembers(terms, b, 0, terms[i].lits[Left(terms[i], b.ubs[i], b.total)]);
    }
  }

  lemma LeftExcludes(terms: seq<Term>, constant: int, log: seq<Lit>, i: nat)
    requires TermsOK(terms) && After(terms, constant, log).total >= 0 && i < |terms|
    requires Tight(terms[i], After(terms, constant, log).ubs[i], After(terms, constant, log).total)
    ensures var b := After(terms, constant, log);
            var left := Left(terms[i], b.ubs[i], b.total);
            Excludes(terms, constant, log, i, left, terms[i].lits[left])
  {
    hide After, SumAt;
    var b := After(terms, constant, log);
    var left := Left(terms[i], b.ubs[i], b.total);
    LeftInRange(terms[i], b.ubs[i], b.total);
    ReachedAbove(terms, constant, log, i, left);
    ReachedAbove(terms, constant, log, i, left + 1);
  }

  lemma ExcludesLeft(terms: seq<Term>, constant: int, log: seq<Lit>, i: nat, j: nat, x: Lit)
    requires TermsOK(terms) && After(terms, constant, log).total >= 0 && Excludes(terms, constant, log, i, j, x)
    ensures var b := After(terms, constant, log);
            Tight(terms[i], b.ubs[i], b.total) && j == Left(terms[i], b.ubs[i], b.total)
  {
    hide After, SumAt;
    ReachedAbove(terms, constant, log, i, j);
    ReachedAbove(terms, constant, log, i, j + 1);
  }

  lemma ImpliedForced(terms: seq<Term>, constant: int, log: seq<Lit>, i: nat)
    requires TermsOK(terms) && After(terms, constant, log).total >= 0 && i < |terms|
    requires Tight(terms[i], After(terms, constant, log).ubs[i], After(terms, constant, log).total)
    ensures var b := After(terms, constant, log);
            Forces(LinearK(terms, constant), log, terms[i].lits[Left(terms[i], b.ubs[i], b.total)])
  {
    var b := After(terms, constant, log);
    var left := Left(terms[i], b.ubs[i], b.total);
    var p := terms[i].lits[left];
    var more := log + [Neg(p)];
    ReachedAbove(terms, constant, log, i, left);
    CapsOfLog(terms, constant, log);
    LeftInRange(terms[i], b.ubs[i], b.total);
    forall x | 0 <= x < |terms| ensures Cap(more, terms[x].lits) <= b.ubs[i := left][x] {
      CapIsFirst(more, terms[x].lits);
      CapIsFirst(log, terms[x].lits);
      CapShrinks(log, more, terms[x].lits);
    }
    CapsBelow(more, terms, b.ubs[i := left]);
  }

  lemma BoundingForced(terms: seq<Term>, constant: int, n: nat, log: seq<Lit>, p: Lit)
    requires TermsOK(terms) && (forall i :: 0 <= i < |terms| ==> InRange(terms[i].lits, n))
    requires After(terms, constant, log).total >= 0 && p in Bounding(terms, After(terms, constant, log), 0)
    ensures p.v < n && Forces(LinearK(terms, constant), log, p)
  {
    hide Forces, Bounding, After, TermOK;
    var b := After(terms, constant, log);
    BoundingMembers(terms, b, 0, p);
    var k :| 0 <= k < |terms| && Tight(terms[k], b.ubs[k], b.total)
             && p == terms[k].lits[Left(terms[k], b.ubs[k], b.total)];
    assert p in terms[k].lits;
    ImpliedForced(terms, constant, log, k);
  }

  lemma ToldOK(terms: seq<Term>, constant: int, n: nat, log: seq<Lit>, trail: seq<Lit>, pending: bool)
    requires TermsOK(terms) && (forall i :: 0 <= i < |terms| ==> InRange(terms[i].lits, n))
    ensures AnswerOK(LinearK(terms, constant), n, log, trail, pending, Told(terms, constant, log))
  {
    hide Content, Forces, Bounding, After, TermOK, SumCap, SumValue;
    var con, a, b := LinearK(terms, constant), Told(terms, constant, log), After(terms, constant, log);
    CapsOfLog(terms, constant, log);
    forall p | p in a.implied ensures p.v < n && Forces(con, log, p) {
      BoundingForced(terms, constant, n, log, p);
    }
    if b.total >= 0 {
      LogContent(terms, constant, log);
    }
  }

  lemma LogContent(terms: seq<Term>, constant: int, log: seq<Lit>)
    requires TermsOK(terms) && After(terms, constant, log).total >= 0
    ensures Content(LinearK(terms, constant), log)
  {
    var con := LinearK(terms, constant);
    CapsOfLog(terms, constant, log);
    forall a: Assignment | Matches(con, a, log) ensures con.sat(a) {
      forall i, j | 0 <= i < |terms| && 0 <= j < |terms[i].lits| && Holds(a, Neg(terms[i].lits[j]))
        ensures Neg(terms[i].lits[j]) in log
      {
        assert Neg(terms[i].lits[j]) in con.watched;
      }
      ValuesAreCaps(a, log, terms);
    }
  }

  lemma {:induction false} ReasonMembers(terms: seq<Term>, b: Bounds, i: nat, x: Lit)
    requires TermsOK(terms) && BoundsOK(terms, b) && i <= |terms|
    ensures x in ReasonOf(terms, b, i) <==>
            exists k :: i <= k < |terms| && b.ubs[k] < |terms[k].lits| && x == Neg(terms[k].lits[b.ubs[k]])
    decreases |terms| - i
  {
    if i < |terms| {
      ReasonMembers(terms, b, i + 1, x);
    }
  }

  // The reason is part of the log and says as much.
  lemma ReasonEnough(terms: seq<Term>, constant: int, log: seq<Lit>, extra: seq<Lit>)
    requires TermsOK(terms) && LinearK(terms, constant).blocked(log + extra)
    ensures var r := ReasonOf(terms, After(terms, constant, log), 0);
            (forall l :: l in r ==> l in log) && LinearK(terms, constant).blocked(r + extra)
  {
    var b := After(terms, constant, log);
    var r := ReasonOf(terms, b, 0);
    AfterReflects(terms, constant, log);
    forall l | l in r ensures l in log {
      ReasonMembers(terms, b, 0, l);
    }
    if b.total < 0 {
      forall i | 0 <= i < |terms| ensures Cap(r + extra, terms[i].lits) <= b.ubs[i] {
        ReasonHas(terms, b, i);
        CapIsFirst(r + extra, terms[i].lits);
      }
      CapsBelow(r + extra, terms, b.ubs);
    } else {
      forall i | 0 <= i < |terms| ensures Cap(r + extra, terms[i].lits) <= Cap(log + extra, terms[i].lits) {
        ReasonHas(terms, b, i);
        CapIsFirst(r + extra, terms[i].lits);
        CapIsFirst(log + extra, terms[i].lits);
      }
      CapsOrdered(r + extra, log + extra, terms);
    }
  }

  lemma ReasonHas(terms: seq<Term>, b: Bounds, i: nat)
    requires TermsOK(terms) && BoundsOK(terms, b) && i < |terms|
    ensures b.ubs[i] < |terms[i].lits| ==> Neg(terms[i].lits[b.ubs[i]]) in ReasonOf(terms, b, 0)
  {
    if b.ubs[i] < |terms[i].lits| {
      ReasonMembers(terms, b, 0, Neg(terms[i].lits[b.ubs[i]]));
    }
  }

  lemma LinearHonest(terms: seq<Term>, constant: int, n: nat)
    requires TermsOK(terms) && forall i :: 0 <= i < |terms| ==> InRange(terms[i].lits, n)
    ensures Honest(LinearK(terms, constant), n)
  {
    var con := LinearK(terms, constant);
    LinearRecognises(terms, constant);
    forall l | l in con.watched ensures l.v < n {
      var i, j :| 0 <= i < |terms| && 0 <= j < |terms[i].lits| && l == Neg(terms[i].lits[j]);
      assert terms[i].lits[j] in terms[i].lits;
    }
    forall log, trail, pending | Fed(con, log, trail) && NoClash(trail)
      ensures AnswerOK(con, n, log, trail, pending, con.propagate(log, trail, pending))
    {
      ToldOK(terms, constant, n, log, trail, pending);
    }
    forall log, trail, p | MayExplain(con, log, trail, p) ensures ExplainOK(con, log, trail, p) {
      ReasonEnough(terms, constant, log, [Neg(p)]);
    }
    forall log, trail, extra | MayRefute(con, log, trail, extra) ensures RefuteOK(con, log, trail, extra) {
      ReasonEnough(terms, constant, log, extra);
    }
  }

  // A total assignment that has been delivered completely is accepted exactly if
  // it satisfies the inequality.
  lemma AcceptsExactly(terms: seq<Term>, constant: int, a: Assignment, log: seq<Lit>)
    requires TermsOK(terms) && forall l :: l in log <==> l in Watches(terms) && Holds(a, l)
    ensures Told(terms, constant, log).accept <==> LinearK(terms, constant).sat(a)
  {
    CapsOfLog(terms, constant, log);
    forall i, j | 0 <= i < |terms| && 0 <= j < |terms[i].lits| && Holds(a, Neg(terms[i].lits[j]))
      ensures Neg(terms[i].lits[j]) in log
    {
      assert Neg(terms[i].lits[j]) in Watches(terms);
    }
    ValuesAreCaps(a, log, terms);
  }

  // ------------------------------------------------------------ normalisation

  function Reversed<T>(s: seq<T>): (r: seq<T>)
    ensures |r| == |s| && forall i :: 0 <= i < |s| ==> r[i] == s[|s| - 1 - i]
  {
    if s == [] then [] else Reversed(s[1..]) + [s[0]]
  }

  function Negated(lits: seq<Lit>): seq<Lit> {
    seq(|lits|, i requires 0 <= i < |lits| => Neg(lits[i]))
  }

  function Scaled(d: seq<int>, coef: int): seq<int> {
    seq(|d|, i requires 0 <= i < |d| => d[i] * coef)
  }

  function NormalTerm(lits: seq<Lit>, domain: seq<int>, coef: int): Term {
    if coef < 0 then Term(Negated(Reversed(lits)), Scaled(Reversed(domain), coef)) else Term(lits, Scaled(domain, coef))
  }

  // The order encoding: the literals that hold come first.
  ghost predicate InOrder(a: Assignment, lits: seq<Lit>) {
    forall i, j :: 0 <= i < j < |lits| && Holds(a, lits[j]) ==> Holds(a, lits[i])
  }

  lemma {:induction false} RankInOrder(a: Assignment, lits: seq<Lit>, k: nat)
    requires k <= |lits|
    requires forall i :: 0 <= i < |lits| ==> (Holds(a, lits[i]) <==> i < k)
    ensures Rank(a, lits) == k
  {
    if lits != [] && k > 0 {
      assert Holds(a, lits[0]);
      forall i | 0 <= i < |lits[1..]| ensures Holds(a, lits[1..][i]) <==> i < k - 1 {
        assert lits[1..][i] == lits[i + 1];
      }
      RankInOrder(a, lits[1..], k - 1);
    } else if lits != [] {
      assert !Holds(a, lits[0]);
    }
  }

  lemma {:induction false} RankSplits(a: Assignment, lits: seq<Lit>)
    requires InOrder(a, lits)
    ensures forall i :: 0 <= i < |lits| ==> (Holds(a, lits[i]) <==> i < Rank(a, lits))
  {
    if lits != [] && Holds(a, lits[0]) {
      RankSplits(a, lits[1..]);
      forall i | 0 <= i < |lits| ensures Holds(a, lits[i]) <==> i < Rank(a, lits) {
        assert i > 0 ==> lits[i] == lits[1..][i - 1];
      }
    }
  }

  lemma MulOrder(x: int, y: int, c: int)
    requires x < y
    ensures c > 0 ==> x * c < y * c
    ensures c < 0 ==> y * c < x * c
  {
  }

  // normalize keeps the term's value, and its domain ascending, for every
  // coefficient but 0.
  lemma NormaliseKeeps(a: Assignment, lits: seq<Lit>, domain: seq<int>, coef: int)
    requires coef != 0 && TermOK(Term(lits, domain)) && InOrder(a, lits)
    ensures var t := NormalTerm(lits, domain, coef);
            TermOK(t) && InOrder(a, t.lits) && TermValue(a, t) == coef * TermValue(a, Term(lits, domain))
  {
    var t := NormalTerm(lits, domain, coef);
    forall i, j | 0 <= i < j < |t.domain| ensures t.domain[i] < t.domain[j] {
      if coef < 0 {
        MulOrder(domain[|domain| - 1 - j], domain[|domain| - 1 - i], coef);
      } else {
        MulOrder(domain[i], domain[j], coef);
      }
    }
    var k := Rank(a, lits);
    RankSplits(a, lits);
    var m := if coef < 0 then |lits| - k else k;
    forall i | 0 <= i < |t.lits| ensures Holds(a, t.lits[i]) <==> i < m {
      if coef < 0 {
        assert t.lits[i] == Neg(lits[|lits| - 1 - i]);
      }
    }
    RankInOrder(a, t.lits, m);
  }

  class LinearTerm {
    var lits: seq<Lit>
    var domain: seq<int>
    const coef: int

    constructor (lits: seq<Lit>, domain: seq<int>, coef: int)
      ensures this.lits == lits && this.domain == domain && this.coef == coef
    {
      this.lits, this.domain, this.coef := lits, domain, coef;
    }

    method Normalize()
      modifies this
      ensures Term(lits, domain) == NormalTerm(old(lits), old(domain), coef)
    {
      ghost var lits0, domain0 := lits, domain;
      if coef < 0 {
        lits := Reversed(lits);
        for i := 0 to |lits|
          invariant |lits| == |lits0| && domain == domain0
          invariant forall x :: 0 <= x < |lits| ==>
                      lits[x] == if x < i then Neg(Reversed(lits0)[x]) else Reversed(lits0)[x]
        {
          lits := lits[i := Neg(lits[i])];
        }
        assert lits == Negated(Reversed(lits0));
        domain := Reversed(domain);
      }
      ghost var d := domain;
      for i := 0 to |domain|
        invariant |domain| == |d| && lits == if coef < 0 then Negated(Reversed(lits0)) else lits0
        invariant forall x :: 0 <= x < |d| ==> domain[x] == if x < i then d[x] * coef else d[x]
      {
        domain := domain[i := domain[i] * coef];
      }
      assert domain == Scaled(d, coef);
    }
  }

  // ------------------------------------------------------------- the undo list

  // The entries propagate adds for one literal: a mark, then the bounds it
  // lowered with their old values.
  datatype Entry = Mark | Was(i: nat, old_ub: nat)

  ghost function Entries(ch: seq<Pos>): seq<Entry> {
    seq(|ch|, k requires 0 <= k < |ch| => Was(ch[k].0, ch[k].1))
  }

  ghost function UndoList(terms: seq<Term>, constant: int, log: seq<Lit>): seq<Entry>
    requires TermsOK(terms)
  {
    if log == [] then []
    else
      var p, front := log[|log| - 1], log[..|log| - 1];
      OccurrencesOK(terms, Neg(p));
      UndoList(terms, constant, front)
      + [Mark] + Entries(Changes(terms, After(terms, constant, front), Occurrences(terms, Neg(p), 0)))
  }

  // One restored entry.
  ghost function Restored(terms: seq<Term>, b: Bounds, x: Pos): Bounds
    requires BoundsOK(terms, b) && x.0 < |terms| && x.1 < |terms[x.0].domain|
  {
    Lowered(terms, b, x.0, x.1)
  }

  // ch are the changes that led from b to c.
  ghost predicate LedTo(terms: seq<Term>, b: Bounds, ch: seq<Pos>, c: Bounds)
    requires BoundsOK(terms, b) && BoundsOK(terms, c)
    decreases |ch|
  {
    if ch == [] then b == c
    else
      var x := ch[|ch| - 1];
      x.0 < |terms| && x.1 < |terms[x.0].domain| && LedTo(terms, b, ch[..|ch| - 1], Restored(terms, c, x))
  }

  lemma {:induction false} LedToFirst(terms: seq<Term>, b: Bounds, i: nat, j: nat, ch: seq<Pos>, c: Bounds)
    requires BoundsOK(terms, b) && BoundsOK(terms, c) && i < |terms| && j < |terms[i].domain|
    requires LedTo(terms, Lowered(terms, b, i, j), ch, c)
    ensures LedTo(terms, b, [(i, b.ubs[i])] + ch, c)
    decreases |ch|
  {
    var all := [(i, b.ubs[i])] + ch;
    if ch == [] {
      assert all == [(i, b.ubs[i])];
      assert all[..0] == [];
      assert b.ubs[i := j][i := b.ubs[i]] == b.ubs;
    } else {
      var x := ch[|ch| - 1];
      assert all[|all| - 1] == x && all[..|all| - 1] == [(i, b.ubs[i])] + ch[..|ch| - 1];
      LedToFirst(terms, b, i, j, ch[..|ch| - 1], Restored(terms, c, x));
    }
  }

  lemma {:induction false} ChangesLead(terms: seq<Term>, b: Bounds, occ: seq<Pos>)
    requires TermsOK(terms) && BoundsOK(terms, b) && AllPosOK(terms, occ)
    ensures LedTo(terms, b, Changes(terms, b, occ), Lower(terms, b, occ))
    decreases |occ|
  {
    if occ != [] {
      var (i, j) := occ[0];
      assert PosOK(terms, occ[0]);
      if b.ubs[i] <= j {
        ChangesLead(terms, b, occ[1..]);
      } else {
        var c := Lowered(terms, b, i, j);
        if c.total < 0 {
          LedToFirst(terms, b, i, j, [], c);
        } else {
          ChangesLead(terms, c, occ[1..]);
          LedToFirst(terms, b, i, j, Changes(terms, c, occ[1..]), Lower(terms, c, occ[1..]));
        }
      }
    }
  }

  // A literal that is delivered a second time, because initialize enqueued and took
  // it in, changes nothing.
  lemma AgainNothing(terms: seq<Term>, constant: int, log: seq<Lit>, p: Lit)
    requires TermsOK(terms) && After(terms, constant, log).total >= 0 && p in log
    ensures After(terms, constant, log + [p]) == After(terms, constant, log)
    ensures Told(terms, constant, log + [p]) == Told(terms, constant, log)
  {
    hide Occurrences;
    var b, occ := After(terms, constant, log), Occurrences(terms, Neg(p), 0);
    OccurrencesOK(terms, Neg(p));
    AfterReflects(terms, constant, log);
    forall x | x in occ ensures b.ubs[x.0] <= x.1 {
      assert PosOK(terms, x);
      OccurrencesMembers(terms, Neg(p), 0, x);
      assert Neg(Neg(p)) == p;
      assert Neg(terms[x.0].lits[x.1]) in log;
    }
    LowerIdle(terms, b, occ);
    assert (log + [p])[..|log|] == log;
  }

  lemma {:induction false} LowerIdle(terms: seq<Term>, b: Bounds, occ: seq<Pos>)
    requires TermsOK(terms) && BoundsOK(terms, b) && AllPosOK(terms, occ)
    requires forall x :: x in occ ==> x.0 < |b.ubs| && b.ubs[x.0] <= x.1
    ensures Lower(terms, b, occ) == b
    decreases |occ|
  {
    if occ != [] {
      assert occ[0] in occ;
      LowerIdle(terms, b, occ[1..]);
    }
  }

  // Before anything is delivered each position of a literal lowers its bound.
  lemma FirstLowers(terms: seq<Term>, constant: int, p: Lit)
    requires TermsOK(terms) && p in Watches(terms)
    ensures var occ, b := Occurrences(terms, Neg(p), 0), After(terms, constant, []);
            occ != [] && PosOK(terms, occ[0]) && occ[0].1 < b.ubs[occ[0].0]
  {
    var i, j :| 0 <= i < |terms| && 0 <= j < |terms[i].lits| && p == Neg(terms[i].lits[j]);
    assert Neg(Neg(terms[i].lits[j])) == terms[i].lits[j];
    OccurrencesMembers(terms, Neg(p), 0, (i, j));
    var occ := Occurrences(terms, Neg(p), 0);
    assert occ[0] in occ;
    OccurrencesMembers(terms, Neg(p), 0, occ[0]);
  }

  // Nothing was delivered after a literal that was refused.
  ghost predicate Accepted(terms: seq<Term>, constant: int, log: seq<Lit>)
    requires TermsOK(terms)
  {
    forall k :: 0 < k < |log| ==> After(terms, constant, log[..k]).total >= 0
  }

  lemma AcceptedNext(terms: seq<Term>, constant: int, log: seq<Lit>, p: Lit)
    requires TermsOK(terms) && Accepted(terms, constant, log)
    requires log == [] || After(terms, constant, log).total >= 0
    ensures Accepted(terms, constant, log + [p])
  {
    hide After;
    forall k | 0 < k < |log + [p]| ensures After(terms, constant, (log + [p])[..k]).total >= 0 {
      if k < |log| {
        assert (log + [p])[..k] == log[..k];
      } else {
        assert (log + [p])[..k] == log;
      }
    }
  }

  lemma AcceptedBack(terms: seq<Term>, constant: int, log: seq<Lit>)
    requires TermsOK(terms) && Accepted(terms, constant, log) && log != []
    ensures Accepted(terms, constant, log[..|log| - 1])
    ensures |log| == 1 || After(terms, constant, log[..|log| - 1]).total >= 0
  {
    hide After;
    var front := log[..|log| - 1];
    forall k | 0 < k < |front| ensures After(terms, constant, front[..k]).total >= 0 {
      assert front[..k] == log[..k];
    }
  }

  class OrderEncodingLinear {
    const terms: seq<Term>
    const constant: int
    var ubIndex: seq<nat>
    var totalUb: int
    var undoList: seq<Entry>
    // The literals delivered and not yet undone.
    ghost var log: seq<Lit>

    ghost predicate Valid() reads this {
      && TermsOK(terms)
      && Bounds(ubIndex, totalUb) == After(terms, constant, log)
      && undoList == UndoList(terms, constant, log)
      && Accepted(terms, constant, log)
    }

    constructor (terms: seq<Term>, constant: int)
      requires TermsOK(terms)
      ensures Valid() && this.terms == terms && this.constant == constant && log == []
    {
      var ubs: seq<nat> := [];
      var total := constant;
      for i := 0 to |terms|
        invariant |ubs| == i && forall k :: 0 <= k < i ==> ubs[k] == |terms[k].lits|
        invariant total + SumLast(terms[i..]) == constant + SumLast(terms)
      {
        assert terms[i..][0] == terms[i] && terms[i..][1..] == terms[i + 1..];
        ubs := ubs + [|terms[i].lits|];
        total := total + terms[i].domain[|terms[i].domain| - 1];
      }
      this.terms, this.constant := terms, constant;
      ubIndex, totalUb, undoList, log := ubs, total, [], [];
      assert ubs == Start(terms, constant).ubs;
    }

    // The first loop of propagate; false as soon as the sum is out of reach.
    method LowerAll(occ: seq<Pos>) returns (ok: bool)
      requires TermsOK(terms) && BoundsOK(terms, Bounds(ubIndex, totalUb)) && AllPosOK(terms, occ)
      requires totalUb >= 0 || (occ != [] && PosOK(terms, occ[0]) && occ[0].1 < ubIndex[occ[0].0])
      modifies this`ubIndex, this`totalUb, this`undoList
      ensures Bounds(ubIndex, totalUb) == Lower(terms, old(Bounds(ubIndex, totalUb)), occ)
      ensures undoList == old(undoList) + Entries(Changes(terms, old(Bounds(ubIndex, totalUb)), occ))
      ensures ok <==> totalUb >= 0
    {
      hide TermOK, Lower, Changes, Entries;
      ghost var b0, all := Bounds(ubIndex, totalUb), Changes(terms, Bounds(ubIndex, totalUb), occ);
      ghost var done: seq<Pos> := [];
      assert occ[0..] == occ && undoList == undoList + Entries([]) by { EntriesNil(); }
      for k := 0 to |occ|
        invariant BoundsOK(terms, Bounds(ubIndex, totalUb))
        invariant totalUb >= 0 || (k == 0 && occ != [] && PosOK(terms, occ[0]) && occ[0].1 < ubIndex[occ[0].0])
        invariant Lower(terms, Bounds(ubIndex, totalUb), occ[k..]) == Lower(terms, b0, occ)
        invariant done + Changes(terms, Bounds(ubIndex, totalUb), occ[k..]) == all
        invariant undoList == old(undoList) + Entries(done)
      {
        var (i, j) := occ[k];
        LowerFrom(terms, Bounds(ubIndex, totalUb), occ, k);
        if ubIndex[i] > j {
          EntriesSnoc(done, (i, ubIndex[i]));
          done := done + [(i, ubIndex[i])];
          assert terms[i].domain[j] < terms[i].domain[ubIndex[i]] by { DomainClimbs(terms, occ[k], ubIndex[i]); }
          undoList := undoList + [Was(i, ubIndex[i])];
          totalUb := totalUb - (terms[i].domain[ubIndex[i]] - terms[i].domain[j]);
          ubIndex := ubIndex[i := j];
          if totalUb < 0 {
            assert done == all;
            return false;
          }
        }
      }
      LowerEnd(terms, Bounds(ubIndex, totalUb), occ);
      assert done == all;
      ok := true;
    }

    // The search for the literal to enqueue, std::lower_bound over the domain.
    method FindLeft(t: Term, u: nat) returns (left: nat)
      requires TermOK(t) && u < |t.domain| && totalUb >= 0 && Tight(t, u, totalUb)
      ensures left < |t.lits| && left == Left(t, u, totalUb)
    {
      LeftInRange(t, u, totalUb);
      var x := t.domain[u] - totalUb;
      var lo, hi := 0, |t.domain|;
      while lo < hi
        invariant 0 <= lo <= LowerBound(t.domain, x) <= hi <= |t.domain|
      {
        var mid := (lo + hi) / 2;
        BoundSplits(t.domain, x, mid);
        if t.domain[mid] < x {
          lo := mid + 1;
        } else {
          hi := mid;
        }
      }
      left := lo - 1;
    }

    // initialize, without the calls of addWatch.
    method Initialize(watchers: seq<Lit>, trail: seq<Lit>) returns (a: Answer)
      requires Valid() && log == [] && NoClash(trail) && ListsWatched(LinearK(terms, constant), watchers)
      modifies this`ubIndex, this`totalUb, this`undoList, this`log
      ensures Valid() && StartSound(LinearK(terms, constant), trail, log, a)
      ensures a.accept ==> totalUb >= 0
      ensures a.accept && log != [] ==>
                TermsOK(terms) && forall x :: x in Told(terms, constant, log).implied ==> x in trail + a.implied
    {
      hide Growing, Looked, ListsWatched, Recognises, Refutes, Content, Explains, NoClash, Valid, After, LinearK;
      ValidTerms();
      ghost var con := LinearK(terms, constant);
      LinearRecognises(terms, constant);
      GrowingStart(con, trail, watchers);
      var now := trail;
      for i := 0 to |watchers|
        invariant Valid() && Growing(con, trail, now, log) && Looked(watchers, i, trail, log) && trail <= now
        invariant totalUb >= 0 || log == []
        invariant log != [] ==> forall x :: x in Told(terms, constant, log).implied ==> x in now
      {
        if Value(now, watchers[i]) == True {
          WatchedAt(terms, constant, watchers, i);
          LookedTakes(con, watchers, i, trail, now, log);
          a := Propagate(watchers[i]);
          if !a.accept {
            LinearRefuses(terms, constant, trail, now, log);
            return Answer(now[|trail|..], false);
          }
          LinearImplies(terms, constant, trail, now, log);
          var ok;
          ok, now := EnqueueAll(con, trail, log, now, a.implied);
          if !ok {
            Refused(con, trail, now, log);
            return Answer(now[|trail|..], false);
          }
        } else {
          LookedPast(con, watchers, i, trail, now, log);
        }
      }
      a := Answer(now[|trail|..], totalUb >= 0);
      assert now == trail + now[|trail|..];
      ValidTerms();
      LinearEnds(terms, constant, watchers, trail, now, log);
    }

    lemma ValidTerms()
      requires Valid()
      ensures TermsOK(terms) && totalUb == After(terms, constant, log).total
    {
    }

    // What came before was accepted, or nothing came and the literal is watched.
    method Propagate(p: Lit) returns (a: Answer)
      requires Valid() && (totalUb >= 0 || (log == [] && p in Watches(terms)))
      modifies this`ubIndex, this`totalUb, this`undoList, this`log
      ensures Valid() && log == old(log) + [p]
      ensures a == Told(terms, constant, log) && (a.accept <==> totalUb >= 0)
    {
      AcceptedNext(terms, constant, log, p);
      ghost var log0 := log;
      OccurrencesOK(terms, Neg(p));
      if totalUb < 0 {
        FirstLowers(terms, constant, p);
      }
      undoList := undoList + [Mark];
      log := log + [p];
      assert log[..|log| - 1] == log0;
      var ok := LowerAll(Occurrences(terms, Neg(p), 0));
      if !ok {
        return Answer([], false);
      }
      var implied := BoundAll();
      a := Answer(implied, true);
    }

    // The second loop of propagate.
    method BoundAll() returns (implied: seq<Lit>)
      requires TermsOK(terms) && BoundsOK(terms, Bounds(ubIndex, totalUb)) && totalUb >= 0
      ensures implied == Bounding(terms, Bounds(ubIndex, totalUb), 0)
    {
      implied := [];
      ghost var b := Bounds(ubIndex, totalUb);
      for i := 0 to |terms|
        invariant implied + Bounding(terms, b, i) == Bounding(terms, b, 0)
      {
        if ubIndex[i] != 0 && totalUb - (terms[i].domain[ubIndex[i]] - terms[i].domain[0]) < 0 {
          var left := FindLeft(terms[i], ubIndex[i]);
          implied := implied + [terms[i].lits[left]];
        }
      }
    }

    // undo takes back exactly what propagate did for the last literal; when that was
    // refused, the next one can be delivered again.
    method Undo(p: Lit)
      requires Valid() && log != [] && log[|log| - 1] == p
      modifies this`ubIndex, this`totalUb, this`undoList, this`log
      ensures Valid() && log == old(log)[..|old(log)| - 1]
      ensures log != [] ==> totalUb >= 0
    {
      hide After, UndoList, Changes, Occurrences, Entries, LedTo, Accepted;
      AcceptedBack(terms, constant, log);
      ghost var front := log[..|log| - 1];
      ghost var b0, ch := LastChanges(terms, constant, log);
      ghost var base := UndoList(terms, constant, front);
      while undoList[|undoList| - 1] != Mark
        invariant BoundsOK(terms, Bounds(ubIndex, totalUb)) && LedTo(terms, b0, ch, Bounds(ubIndex, totalUb))
        invariant undoList == base + [Mark] + Entries(ch)
        decreases |ch|
      {
        EntriesNone(base, ch);
        EntriesLast(base, ch);
        LedBack(terms, b0, ch, Bounds(ubIndex, totalUb));
        var x := undoList[|undoList| - 1];
        undoList := undoList[..|undoList| - 1];
        ch := ch[..|ch| - 1];
        totalUb := totalUb + (terms[x.i].domain[x.old_ub] - terms[x.i].domain[ubIndex[x.i]]);
        ubIndex := ubIndex[x.i := x.old_ub];
      }
      if ch != [] {
        EntriesLast(base, ch);
      }
      EntriesNone(base, ch);
      LedNowhere(terms, b0, Bounds(ubIndex, totalUb));
      undoList := undoList[..|undoList| - 1];
      log := front;
    }

    // p and extra are empty for lit_Undef.
    method CalcReason(extra: seq<Lit>) returns (reason: seq<Lit>)
      requires Valid()
      ensures reason == ReasonOf(terms, After(terms, constant, log), 0) + extra
    {
      reason := [];
      ghost var b := Bounds(ubIndex, totalUb);
      for i := 0 to |terms|
        invariant reason + ReasonOf(terms, b, i) == ReasonOf(terms, b, 0)
      {
        if ubIndex[i] < |terms[i].lits| {
          reason := reason + [Neg(terms[i].lits[ubIndex[i]])];
        }
      }
      reason := reason + extra;
    }
  }

  lemma DomainClimbs(terms: seq<Term>, x: Pos, u: nat)
    requires TermsOK(terms) && PosOK(terms, x) && x.1 < u < |terms[x.0].domain|
    ensures terms[x.0].domain[x.1] < terms[x.0].domain[u]
  {
  }

  lemma WatchedAt(terms: seq<Term>, constant: int, watchers: seq<Lit>, i: nat)
    requires TermsOK(terms) && ListsWatched(LinearK(terms, constant), watchers) && i < |watchers|
    ensures watchers[i] in Watches(terms)
  {
    assert watchers[i] in watchers;
  }

  lemma LinearRefuses(terms: seq<Term>, constant: int, trail: seq<Lit>, now: seq<Lit>, log: seq<Lit>)
    requires TermsOK(terms) && Growing(LinearK(terms, constant), trail, now, log)
    requires !Told(terms, constant, log).accept
    ensures StartSound(LinearK(terms, constant), trail, log, Answer(now[|trail|..], false)) && trail <= now
  {
    hide Recognises, After;
    CapsOfLog(terms, constant, log);
    LinearRecognises(terms, constant);
    GrowingBlocked(LinearK(terms, constant), trail, now, log);
    Refused(LinearK(terms, constant), trail, now, log);
  }

  lemma LinearImplies(terms: seq<Term>, constant: int, trail: seq<Lit>, now: seq<Lit>, log: seq<Lit>)
    requires TermsOK(terms) && Growing(LinearK(terms, constant), trail, now, log)
    requires Told(terms, constant, log).accept
    ensures forall x :: x in Told(terms, constant, log).implied ==>
              Explains(LinearK(terms, constant).sat, trail, x) && OfWatched(LinearK(terms, constant), x)
  {
    hide Recognises, After, Growing, Explains, Forces, Bounding;
    LinearRecognises(terms, constant);
    var con, b := LinearK(terms, constant), After(terms, constant, log);
    forall x | x in Bounding(terms, b, 0) ensures Explains(con.sat, trail, x) && OfWatched(con, x) {
      BoundingMembers(terms, b, 0, x);
      var k :| 0 <= k < |terms| && Tight(terms[k], b.ubs[k], b.total)
               && x == terms[k].lits[Left(terms[k], b.ubs[k], b.total)];
      ImpliedForced(terms, constant, log, k);
      GrowingForces(con, trail, now, log, x);
    }
  }

  lemma LinearEnds(terms: seq<Term>, constant: int, watchers: seq<Lit>, trail: seq<Lit>, now: seq<Lit>, log: seq<Lit>)
    requires TermsOK(terms) && Growing(LinearK(terms, constant), trail, now, log)
    requires ListsWatched(LinearK(terms, constant), watchers) && Looked(watchers, |watchers|, trail, log)
    ensures trail <= now
    ensures StartSound(LinearK(terms, constant), trail, log,
                      Answer(now[|trail|..], After(terms, constant, log).total >= 0))
  {
    hide Recognises, After, NoClash, Explains;
    assert trail + now[|trail|..] == now && watchers[..|watchers|] == watchers;
    LinearRecognises(terms, constant);
    CapsOfLog(terms, constant, log);
    if After(terms, constant, log).total >= 0 {
      LogContent(terms, constant, log);
    } else {
      GrowingBlocked(LinearK(terms, constant), trail, now, log);
    }
  }

  lemma EntriesNil()
    ensures Entries([]) == []
  {
  }

  lemma EntriesSnoc(ch: seq<Pos>, x: Pos)
    ensures Entries(ch + [x]) == Entries(ch) + [Was(x.0, x.1)]
  {
  }

  lemma LowerFrom(terms: seq<Term>, b: Bounds, occ: seq<Pos>, k: nat)
    requires TermsOK(terms) && BoundsOK(terms, b) && AllPosOK(terms, occ) && k < |occ|
    ensures AllPosOK(terms, occ[k..]) && AllPosOK(terms, occ[k + 1..]) && PosOK(terms, occ[k])
    ensures var (i, j) := occ[k];
            if b.ubs[i] <= j then
              && Lower(terms, b, occ[k..]) == Lower(terms, b, occ[k + 1..])
              && Changes(terms, b, occ[k..]) == Changes(terms, b, occ[k + 1..])
            else
              var c := Lowered(terms, b, i, j);
              && BoundsOK(terms, c)
              && Lower(terms, b, occ[k..]) == (if c.total < 0 then c else Lower(terms, c, occ[k + 1..]))
              && Changes(terms, b, occ[k..])
              == [(i, b.ubs[i])] + (if c.total < 0 then [] else Changes(terms, c, occ[k + 1..]))
  {
    assert occ[k] in occ && PosOK(terms, occ[k]);
    assert occ[k..][0] == occ[k] && occ[k..][1..] == occ[k + 1..];
  }

  lemma LowerEnd(terms: seq<Term>, b: Bounds, occ: seq<Pos>)
    requires TermsOK(terms) && BoundsOK(terms, b)
    ensures Lower(terms, b, occ[|occ|..]) == b && Changes(terms, b, occ[|occ|..]) == []
  {
  }

  // What the last literal changed, and the bounds before it.
  lemma LastChanges(terms: seq<Term>, constant: int, log: seq<Lit>) returns (b: Bounds, ch: seq<Pos>)
    requires TermsOK(terms) && log != []
    ensures b == After(terms, constant, log[..|log| - 1]) && BoundsOK(terms, b)
    ensures LedTo(terms, b, ch, After(terms, constant, log))
    ensures UndoList(terms, constant, log) == UndoList(terms, constant, log[..|log| - 1]) + [Mark] + Entries(ch)
  {
    hide Changes, LedTo, Entries, Occurrences;
    var p, front := log[|log| - 1], log[..|log| - 1];
    OccurrencesOK(terms, Neg(p));
    var occ := Occurrences(terms, Neg(p), 0);
    b := After(terms, constant, front);
    ChangesLead(terms, b, occ);
    ch := Changes(terms, b, occ);
  }

  lemma LedBack(terms: seq<Term>, b: Bounds, ch: seq<Pos>, c: Bounds)
    requires BoundsOK(terms, b) && BoundsOK(terms, c) && LedTo(terms, b, ch, c) && ch != []
    ensures var x := ch[|ch| - 1];
            && x.0 < |terms| && x.1 < |terms[x.0].domain|
            && BoundsOK(terms, Restored(terms, c, x)) && LedTo(terms, b, ch[..|ch| - 1], Restored(terms, c, x))
  {
  }

  lemma LedNowhere(terms: seq<Term>, b: Bounds, c: Bounds)
    requires BoundsOK(terms, b) && BoundsOK(terms, c) && LedTo(terms, b, [], c)
    ensures b == c
  {
  }

  lemma EntriesNone(base: seq<Entry>, ch: seq<Pos>)
    ensures var u := base + [Mark] + Entries(ch);
            |u| > 0 && (ch == [] ==> u == base + [Mark] && u[|u| - 1] == Mark && u[..|u| - 1] == base)
  {
  }

  lemma EntriesLast(base: seq<Entry>, ch: seq<Pos>)
    requires ch != []
    ensures var u := base + [Mark] + Entries(ch);
            && u[|u| - 1] == Was(ch[|ch| - 1].0, ch[|ch| - 1].1)
            && u[..|u| - 1] == base + [Mark] + Entries(ch[..|ch| - 1])
  {
    assert Entries(ch) == Entries(ch[..|ch| - 1]) + [Was(ch[|ch| - 1].0, ch[|ch| - 1].1)];
  }

  lemma BoundSplits(d: seq<int>, x: int, mid: nat)
    requires Ascending(d) && mid < |d|
    ensures d[mid] < x ==> mid < LowerBound(d, x)
    ensures d[mid] >= x ==> LowerBound(d, x) <= mid
  {
    var k := LowerBound(d, x);
    assert k < mid ==> d[k] < d[mid];
  }
}
