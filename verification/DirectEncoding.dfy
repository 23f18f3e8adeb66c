// constraints/DirectEncodingExtension.cc: a table of allowed rows over variables
// with one literal a value.
module DirectEncodings {
  import opened Logic
  import opened Trails
  import opened Tables
  import opened Starting

  type Row = seq<int>

  // A row has an entry a variable: one of its values, or -1 for any.
  ghost predicate RowsOK(vars: seq<seq<Lit>>, rows: seq<Row>) {
    forall r :: 0 <= r < |rows| ==>
      |rows[r]| == |vars| && forall i :: 0 <= i < |vars| ==> -1 <= rows[r][i] < |vars[i]|
  }

  ghost predicate FitsAssignment(vars: seq<seq<Lit>>, row: Row, a: Assignment)
    requires |row| == |vars|
  {
    forall i, j :: 0 <= i < |vars| && 0 <= j < |vars[i]| && Holds(a, vars[i][j]) ==> row[i] == -1 || row[i] == j
  }

  ghost predicate Fits(vars: seq<seq<Lit>>, row: Row, ls: seq<Lit>)
    requires |row| == |vars|
  {
    forall i, j :: 0 <= i < |vars| && 0 <= j < |vars[i]| && vars[i][j] in ls ==> row[i] == -1 || row[i] == j
  }

  ghost predicate OneValueEach(vars: seq<seq<Lit>>, a: Assignment) {
    forall i, j, k :: 0 <= i < |vars| && 0 <= j < k < |vars[i]| ==>
      !Holds(a, vars[i][j]) || !Holds(a, vars[i][k])
  }

  ghost predicate Twice(vars: seq<seq<Lit>>, ls: seq<Lit>) {
    exists i, j, k :: 0 <= i < |vars| && 0 <= j < k < |vars[i]| && vars[i][j] in ls && vars[i][k] in ls
  }

  ghost predicate Allowed(vars: seq<seq<Lit>>, rows: seq<Row>, a: Assignment)
    requires RowsOK(vars, rows)
  {
    OneValueEach(vars, a) && exists r :: 0 <= r < |rows| && FitsAssignment(vars, rows[r], a)
  }

  ghost predicate Excluded(vars: seq<seq<Lit>>, rows: seq<Row>, ls: seq<Lit>)
    requires RowsOK(vars, rows)
  {
    Twice(vars, ls) || forall r :: 0 <= r < |rows| ==> !Fits(vars, rows[r], ls)
  }

  ghost predicate RowHas(vars: seq<seq<Lit>>, row: Row, tuple: seq<nat>)
    requires |row| == |vars| == |tuple|
  {
    forall i :: 0 <= i < |vars| ==> row[i] == -1 || row[i] == tuple[i]
  }

  // With exactly one literal true for each variable this is the table constraint.
  lemma AllowedIsTable(vars: seq<seq<Lit>>, rows: seq<Row>, a: Assignment, tuple: seq<nat>)
    requires RowsOK(vars, rows) && |tuple| == |vars|
    requires forall i, j :: 0 <= i < |vars| && 0 <= j < |vars[i]| ==> (Holds(a, vars[i][j]) <==> j == tuple[i])
    requires forall i :: 0 <= i < |vars| ==> tuple[i] < |vars[i]|
    ensures Allowed(vars, rows, a) <==> exists r :: 0 <= r < |rows| && RowHas(vars, rows[r], tuple)
  {
    assert OneValueEach(vars, a);
    forall r | 0 <= r < |rows| ensures FitsAssignment(vars, rows[r], a) <==> RowHas(vars, rows[r], tuple) {
      if FitsAssignment(vars, rows[r], a) {
        forall i | 0 <= i < |vars| ensures rows[r][i] == -1 || rows[r][i] == tuple[i] {
          assert Holds(a, vars[i][tuple[i]]);
        }
      }
    }
  }

  // ------------------------------------------------------------ known values

  // known_values_, and whether a variable was found to have two values.
  datatype Known = Known(vals: seq<int>, clash: bool)

  predicate KnownOK(vars: seq<seq<Lit>>, b: Known) {
    |b.vals| == |vars| && forall i :: 0 <= i < |vars| ==> -1 <= b.vals[i] < |vars[i]|
  }

  predicate AllPosOK(vars: seq<seq<Lit>>, occ: seq<Pos>) {
    forall x :: x in occ ==> x.0 < |vars| && x.1 < |vars[x.0]|
  }

  // The loop over the positions of a literal that became true.
  function Learn(vars: seq<seq<Lit>>, b: Known, occ: seq<Pos>): (c: Known)
    requires KnownOK(vars, b) && AllPosOK(vars, occ)
    ensures KnownOK(vars, c)
    decreases |occ|
  {
    if occ == [] then b
    else
      var (i, j) := occ[0];
      assert occ[0] in occ;
      if b.vals[i] == j then Learn(vars, b, occ[1..])
      else if b.vals[i] != -1 then b.(clash := true)
      else Learn(vars, b.(vals := b.vals[i := j]), occ[1..])
  }

  // The variables whose value it learns, which go to undo_list_ after a mark.
  function News(vars: seq<seq<Lit>>, b: Known, occ: seq<Pos>): seq<int>
    requires KnownOK(vars, b) && AllPosOK(vars, occ)
    decreases |occ|
  {
    if occ == [] then []
    else
      var (i, j) := occ[0];
      assert occ[0] in occ;
      if b.vals[i] == j then News(vars, b, occ[1..])
      else if b.vals[i] != -1 then []
      else [i] + News(vars, b.(vals := b.vals[i := j]), occ[1..])
  }

  lemma PositionsOK(vars: seq<seq<Lit>>, l: Lit)
    ensures AllPosOK(vars, Positions(vars, l, 0))
  {
    forall x | x in Positions(vars, l, 0) ensures x.0 < |vars| && x.1 < |vars[x.0]| {
      PositionsMembers(vars, l, 0, x);
    }
  }

  function Unknown(vars: seq<seq<Lit>>): Known {
    Known(seq(|vars|, i => -1), false)
  }

  // The private state as a function of the literals delivered.
  function After(vars: seq<seq<Lit>>, log: seq<Lit>): (b: Known)
    ensures KnownOK(vars, b)
  {
    if log == [] then Unknown(vars)
    else
      var p := log[|log| - 1];
      PositionsOK(vars, p);
      Learn(vars, After(vars, log[..|log| - 1]), Positions(vars, p, 0))
  }

  // ---------------------------------------------------------------- the answer

  predicate Compatible(row: Row, vals: seq<int>)
    requires |row| == |vals|
  {
    forall i :: 0 <= i < |vals| ==> row[i] == vals[i] || row[i] == -1 || vals[i] == -1
  }

  predicate RowsMatch(rows: seq<Row>, m: nat) {
    forall r :: 0 <= r < |rows| ==> |rows[r]| == m
  }

  // occurrence[i][x + 1]: some compatible row has entry x for variable i.
  predicate Occurs(rows: seq<Row>, vals: seq<int>, i: nat, x: int)
    requires RowsMatch(rows, |vals|) && i < |vals|
  {
    exists r :: 0 <= r < |rows| && Compatible(rows[r], vals) && rows[r][i] == x
  }

  predicate AnyMatch(rows: seq<Row>, vals: seq<int>)
    requires RowsMatch(rows, |vals|)
  {
    exists r :: 0 <= r < |rows| && Compatible(rows[r], vals)
  }

  function PrunedOf(lits: seq<Lit>, rows: seq<Row>, vals: seq<int>, i: nat, j: nat): seq<Lit>
    requires RowsMatch(rows, |vals|) && i < |vals| && j <= |lits|
    decreases |lits| - j
  {
    if j == |lits| then []
    else (if Occurs(rows, vals, i, j) then [] else [Neg(lits[j])]) + PrunedOf(lits, rows, vals, i, j + 1)
  }

  function Pruned(vars: seq<seq<Lit>>, rows: seq<Row>, vals: seq<int>, i: nat): seq<Lit>
    requires |vals| == |vars| && RowsMatch(rows, |vals|) && i <= |vars|
    decreases |vars| - i
  {
    if i == |vars| then []
    else
      (if Occurs(rows, vals, i, -1) then [] else PrunedOf(vars[i], rows, vals, i, 0))
      + Pruned(vars, rows, vals, i + 1)
  }

  function Told(vars: seq<seq<Lit>>, rows: seq<Row>, log: seq<Lit>): Answer
    requires RowsMatch(rows, |vars|)
  {
    var b := After(vars, log);
    if b.clash || !AnyMatch(rows, b.vals) then Answer([], false) else Answer(Pruned(vars, rows, b.vals, 0), true)
  }

  ghost function TableK(vars: seq<seq<Lit>>, rows: seq<Row>): Constraint
    requires RowsOK(vars, rows)
  {
    Constraint(a => Allowed(vars, rows, a),
               ls => Excluded(vars, rows, ls),
               set i, j | 0 <= i < |vars| && 0 <= j < |vars[i]| :: vars[i][j],
               (log, trail, pending) => Told(vars, rows, log),
               (log, trail, p) => log,
               (log, trail, extra) => log + extra)
  }

  // ------------------------------------------------------------ the contract

  lemma FewerFit(vars: seq<seq<Lit>>, rows: seq<Row>, few: seq<Lit>, more: seq<Lit>)
    requires RowsOK(vars, rows) && Excluded(vars, rows, few)
    requires forall i, j :: 0 <= i < |vars| && 0 <= j < |vars[i]| && vars[i][j] in few ==> vars[i][j] in more
    ensures Excluded(vars, rows, more)
  {
    if Twice(vars, few) {
      assert Twice(vars, more);
    } else {
      forall r | 0 <= r < |rows| ensures !Fits(vars, rows[r], more) {
        assert !Fits(vars, rows[r], few);
      }
    }
  }

  lemma TableRecognises(vars: seq<seq<Lit>>, rows: seq<Row>)
    requires RowsOK(vars, rows)
    ensures Recognises(TableK(vars, rows))
  {
    var con := TableK(vars, rows);
    forall ls | con.blocked(ls) ensures Refutes(con.sat, ls) {
      forall a: Assignment | AllHold(a, ls) ensures !con.sat(a) {
        if Twice(vars, ls) {
          assert !OneValueEach(vars, a);
        } else {
          forall r | 0 <= r < |rows| ensures !FitsAssignment(vars, rows[r], a) {
            assert !Fits(vars, rows[r], ls);
          }
        }
      }
    }
    forall few, more | con.blocked(few) && forall l :: l in few && l in con.watched ==> l in more
      ensures con.blocked(more)
    {
      assert forall i, j :: 0 <= i < |vars| && 0 <= j < |vars[i]| ==> vars[i][j] in con.watched;
      FewerFit(vars, rows, few, more);
    }
  }

  // The known values are what the log says.
  ghost predicate Reflects(vars: seq<seq<Lit>>, b: Known, log: seq<Lit>)
    requires KnownOK(vars, b)
  {
    && (forall i :: 0 <= i < |vars| && b.vals[i] != -1 ==> vars[i][b.vals[i]] in log)
    && (b.clash ==> Twice(vars, log))
    && (!b.clash ==> forall i, j :: 0 <= i < |vars| && 0 <= j < |vars[i]| && vars[i][j] in log ==> b.vals[i] == j)
  }

  // The value b has is kept, and what is new is one of the positions occ.
  ghost predicate LearnedBy(vars: seq<seq<Lit>>, b: Known, c: Known, occ: seq<Pos>)
    requires KnownOK(vars, b) && KnownOK(vars, c)
  {
    && (b.clash ==> c.clash)
    && (forall i: nat :: i < |vars| ==>
         c.vals[i] == b.vals[i] || (b.vals[i] == -1 && c.vals[i] >= 0 && (i, c.vals[i] as nat) in occ))
    && (!c.clash ==> forall x :: x in occ && x.0 < |vars| ==> c.vals[x.0] == x.1)
    && (c.clash && !b.clash ==>
         exists x :: x in occ && x.0 < |vars| && x.1 < |vars[x.0]| && c.vals[x.0] != -1 && c.vals[x.0] != x.1)
  }

  lemma {:induction false} LearnFacts(vars: seq<seq<Lit>>, b: Known, occ: seq<Pos>)
    requires KnownOK(vars, b) && AllPosOK(vars, occ)
    ensures LearnedBy(vars, b, Learn(vars, b, occ), occ)
    decreases |occ|
  {
    if occ != [] {
      var (i, j) := occ[0];
      assert occ[0] in occ && occ == [occ[0]] + occ[1..];
      if b.vals[i] == j {
        LearnFacts(vars, b, occ[1..]);
      } else if b.vals[i] == -1 {
        LearnFacts(vars, b.(vals := b.vals[i := j]), occ[1..]);
      }
    }
  }

  lemma LearnReflects(vars: seq<seq<Lit>>, b: Known, c: Known, log: seq<Lit>, p: Lit)
    requires KnownOK(vars, b) && KnownOK(vars, c) && Reflects(vars, b, log)
    requires LearnedBy(vars, b, c, Positions(vars, p, 0))
    ensures Reflects(vars, c, log + [p])
  {
    var occ := Positions(vars, p, 0);
    forall i: nat, j: nat ensures (i, j) in occ <==> i < |vars| && j < |vars[i]| && vars[i][j] == p {
      PositionsMembers(vars, p, 0, (i, j));
    }
    if c.clash {
      assert Twice(vars, log + [p]) by {
        if b.clash {
          var i, j, k :| 0 <= i < |vars| && 0 <= j < k < |vars[i]| && vars[i][j] in log && vars[i][k] in log;
          assert vars[i][j] in log + [p] && vars[i][k] in log + [p];
        } else {
          var x :| x in occ && x.0 < |vars| && x.1 < |vars[x.0]| && c.vals[x.0] != -1 && c.vals[x.0] != x.1;
          var i, j, k := x.0, x.1, c.vals[x.0];
          assert vars[i][j] in log + [p] && vars[i][k] in log + [p];
        }
      }
    }
  }

  lemma {:induction false} AfterReflects(vars: seq<seq<Lit>>, log: seq<Lit>)
    ensures Reflects(vars, After(vars, log), log)
  {
    if log != [] {
      var p, front := log[|log| - 1], log[..|log| - 1];
      AfterReflects(vars, front);
      PositionsOK(vars, p);
      LearnFacts(vars, After(vars, front), Positions(vars, p, 0));
      LearnReflects(vars, After(vars, front), After(vars, log), front, p);
      assert log == front + [p];
    }
  }

  lemma CompatibleFits(vars: seq<seq<Lit>>, row: Row, log: seq<Lit>)
    requires |row| == |vars| && !After(vars, log).clash
    ensures Compatible(row, After(vars, log).vals) <==> Fits(vars, row, log)
  {
    AfterReflects(vars, log);
    var b := After(vars, log);
    if Fits(vars, row, log) {
      forall i | 0 <= i < |vars| ensures row[i] == b.vals[i] || row[i] == -1 || b.vals[i] == -1 {
        assert b.vals[i] != -1 ==> vars[i][b.vals[i]] in log;
      }
    }
  }

  lemma KnownSays(vars: seq<seq<Lit>>, rows: seq<Row>, log: seq<Lit>)
    requires RowsOK(vars, rows)
    ensures RowsMatch(rows, |vars|)
    ensures After(vars, log).clash <==> Twice(vars, log)
    ensures Told(vars, rows, log).accept <==> !Excluded(vars, rows, log)
  {
    AfterReflects(vars, log);
    if !After(vars, log).clash {
      forall r | 0 <= r < |rows|
        ensures Compatible(rows[r], After(vars, log).vals) <==> Fits(vars, rows[r], log)
      {
        CompatibleFits(vars, rows[r], log);
      }
    }
  }

  // Literal k of variable i names x and no compatible row has it.
  ghost predicate Drops(lits: seq<Lit>, rows: seq<Row>, vals: seq<int>, i: nat, k: nat, x: Lit)
    requires RowsMatch(rows, |vals|) && i < |vals|
  {
    k < |lits| && x == Neg(lits[k]) && !Occurs(rows, vals, i, k)
  }

  lemma {:induction false} PrunedOfHas(lits: seq<Lit>, rows: seq<Row>, vals: seq<int>, i: nat, j: nat, k: nat, x: Lit)
    requires RowsMatch(rows, |vals|) && i < |vals| && j <= k && Drops(lits, rows, vals, i, k, x)
    ensures x in PrunedOf(lits, rows, vals, i, j)
    decreases k - j
  {
    hide Occurs, RowsMatch;
    if j < k {
      PrunedOfHas(lits, rows, vals, i, j + 1, k, x);
    }
  }

  lemma {:induction false} PrunedOfFrom(lits: seq<Lit>, rows: seq<Row>, vals: seq<int>, i: nat, j: nat, x: Lit)
    returns (k: nat)
    requires RowsMatch(rows, |vals|) && i < |vals| && j <= |lits| && x in PrunedOf(lits, rows, vals, i, j)
    ensures j <= k && Drops(lits, rows, vals, i, k, x)
    decreases |lits| - j
  {
    hide Occurs, RowsMatch;
    if !Occurs(rows, vals, i, j) && x == Neg(lits[j]) {
      k := j;
    } else {
      k := PrunedOfFrom(lits, rows, vals, i, j + 1, x);
    }
  }

  lemma {:induction false} PrunedHas(vars: seq<seq<Lit>>, rows: seq<Row>, vals: seq<int>, i: nat, m: nat, k: nat,
                                     x: Lit)
    requires |vals| == |vars| && RowsMatch(rows, |vals|) && i <= m < |vars|
    requires Drops(vars[m], rows, vals, m, k, x) && !Occurs(rows, vals, m, -1)
    ensures x in Pruned(vars, rows, vals, i)
    decreases m - i
  {
    hide Occurs, RowsMatch, PrunedOf;
    if i < m {
      PrunedHas(vars, rows, vals, i + 1, m, k, x);
    } else {
      PrunedOfHas(vars[i], rows, vals, i, 0, k, x);
    }
  }

  lemma {:induction false} PrunedFrom(vars: seq<seq<Lit>>, rows: seq<Row>, vals: seq<int>, i: nat, x: Lit)
    returns (m: nat, k: nat)
    requires |vals| == |vars| && RowsMatch(rows, |vals|) && i <= |vars| && x in Pruned(vars, rows, vals, i)
    ensures i <= m < |vars| && Drops(vars[m], rows, vals, m, k, x) && !Occurs(rows, vals, m, -1)
    decreases |vars| - i
  {
    hide Occurs, RowsMatch, PrunedOf;
    if !Occurs(rows, vals, i, -1) && x in PrunedOf(vars[i], rows, vals, i, 0) {
      m := i;
      k := PrunedOfFrom(vars[i], rows, vals, i, 0, x);
    } else {
      m, k := PrunedFrom(vars, rows, vals, i + 1, x);
    }
  }

  lemma PrunedMembers(vars: seq<seq<Lit>>, rows: seq<Row>, vals: seq<int>, x: Lit)
    requires |vals| == |vars| && RowsMatch(rows, |vals|)
    ensures x in Pruned(vars, rows, vals, 0) <==>
            exists m: nat, k: nat :: m < |vars| && k < |vars[m]| && x == Neg(vars[m][k])
              && !Occurs(rows, vals, m, -1) && !Occurs(rows, vals, m, k)
  {
    hide Occurs, RowsMatch, Pruned;
    if x in Pruned(vars, rows, vals, 0) {
      var m, k := PrunedFrom(vars, rows, vals, 0, x);
      assert x == Neg(vars[m][k]);
    }
    forall m: nat, k: nat | m < |vars| && k < |vars[m]| && x == Neg(vars[m][k]) && !Occurs(rows, vals, m, -1)
      ensures !Occurs(rows, vals, m, k) ==> x in Pruned(vars, rows, vals, 0)
    {
      if !Occurs(rows, vals, m, k) {
        PrunedHas(vars, rows, vals, 0, m, k, x);
      }
    }
  }

  // A value no compatible row has may be excluded.
  lemma PrunedForced(vars: seq<seq<Lit>>, rows: seq<Row>, log: seq<Lit>, m: nat, k: nat)
    requires RowsOK(vars, rows) && RowsMatch(rows, |vars|) && !After(vars, log).clash
    requires m < |vars| && k < |vars[m]|
    requires !Occurs(rows, After(vars, log).vals, m, -1) && !Occurs(rows, After(vars, log).vals, m, k)
    ensures Forces(TableK(vars, rows), log, Neg(vars[m][k]))
  {
    var more := log + [Neg(Neg(vars[m][k]))];
    assert vars[m][k] in more;
    forall r | 0 <= r < |rows| ensures !Fits(vars, rows[r], more) {
      CompatibleFits(vars, rows[r], log);
      if Fits(vars, rows[r], log) {
        assert rows[r][m] != -1 && rows[r][m] != k;
      } else {
        assert forall l :: l in log ==> l in more;
      }
    }
  }

  // Value k of variable m is in no row that the log leaves.
  ghost predicate Unsupported(vars: seq<seq<Lit>>, rows: seq<Row>, log: seq<Lit>, m: nat, k: nat)
    requires RowsOK(vars, rows) && m < |vars|
  {
    forall r :: 0 <= r < |rows| && Fits(vars, rows[r], log) ==> rows[r][m] != -1 && rows[r][m] != k
  }

  // propagate excludes exactly the values without support.
  lemma PrunesExactly(vars: seq<seq<Lit>>, rows: seq<Row>, log: seq<Lit>)
    requires RowsOK(vars, rows)
    ensures RowsMatch(rows, |vars|)
    ensures Told(vars, rows, log).accept ==> forall x :: x in Told(vars, rows, log).implied <==>
              exists m: nat, k: nat :: m < |vars| && k < |vars[m]| && x == Neg(vars[m][k])
                && Unsupported(vars, rows, log, m, k)
  {
    assert RowsMatch(rows, |vars|);
    hide Pruned, After, Occurs, RowsMatch, Unsupported, Fits, RowsOK;
    if Told(vars, rows, log).accept {
      var vals := After(vars, log).vals;
      forall m: nat, k: nat | m < |vars| && k < |vars[m]|
        ensures Unsupported(vars, rows, log, m, k) <==> !Occurs(rows, vals, m, -1) && !Occurs(rows, vals, m, k)
      {
        OccursFits(vars, rows, log, m, k);
      }
      forall x ensures x in Pruned(vars, rows, vals, 0) <==>
        exists m: nat, k: nat :: m < |vars| && k < |vars[m]| && x == Neg(vars[m][k])
          && Unsupported(vars, rows, log, m, k)
      {
        PrunedMembers(vars, rows, vals, x);
      }
    }
  }

  lemma OccursFits(vars: seq<seq<Lit>>, rows: seq<Row>, log: seq<Lit>, m: nat, k: nat)
    requires RowsOK(vars, rows) && RowsMatch(rows, |vars|) && !After(vars, log).clash && m < |vars| && k < |vars[m]|
    ensures Unsupported(vars, rows, log, m, k) <==>
            !Occurs(rows, After(vars, log).vals, m, -1) && !Occurs(rows, After(vars, log).vals, m, k)
  {
    forall r | 0 <= r < |rows|
      ensures Compatible(rows[r], After(vars, log).vals) <==> Fits(vars, rows[r], log)
    {
      CompatibleFits(vars, rows[r], log);
    }
  }

  lemma LogContent(vars: seq<seq<Lit>>, rows: seq<Row>, log: seq<Lit>)
    requires RowsOK(vars, rows) && !Excluded(vars, rows, log)
    ensures Content(TableK(vars, rows), log)
  {
    var con := TableK(vars, rows);
    forall a: Assignment | Matches(con, a, log) ensures con.sat(a) {
      forall i, j | 0 <= i < |vars| && 0 <= j < |vars[i]| && Holds(a, vars[i][j]) ensures vars[i][j] in log {
        assert vars[i][j] in con.watched;
      }
      var r :| 0 <= r < |rows| && Fits(vars, rows[r], log);
      assert FitsAssignment(vars, rows[r], a);
    }
  }

  lemma ToldOK(vars: seq<seq<Lit>>, rows: seq<Row>, n: nat, log: seq<Lit>, trail: seq<Lit>, pending: bool)
    requires RowsOK(vars, rows) && (forall i :: 0 <= i < |vars| ==> InRange(vars[i], n))
    ensures RowsMatch(rows, |vars|)
    ensures AnswerOK(TableK(vars, rows), n, log, trail, pending, Told(vars, rows, log))
  {
    KnownSays(vars, rows, log);
    var con, a := TableK(vars, rows), Told(vars, rows, log);
    forall p | p in a.implied ensures p.v < n && Forces(con, log, p) {
      PrunedMembers(vars, rows, After(vars, log).vals, p);
      var m: nat, k: nat :| m < |vars| && k < |vars[m]| && p == Neg(vars[m][k])
        && !Occurs(rows, After(vars, log).vals, m, -1) && !Occurs(rows, After(vars, log).vals, m, k);
      assert vars[m][k] in vars[m];
      PrunedForced(vars, rows, log, m, k);
    }
    if a.accept {
      LogContent(vars, rows, log);
    }
  }

  // The table constraint keeps the contract of Constraint.
  lemma TableHonest(vars: seq<seq<Lit>>, rows: seq<Row>, n: nat)
    requires RowsOK(vars, rows) && forall i :: 0 <= i < |vars| ==> InRange(vars[i], n)
    ensures Honest(TableK(vars, rows), n)
  {
    var con := TableK(vars, rows);
    TableRecognises(vars, rows);
    forall l | l in con.watched ensures l.v < n {
      var i, j :| 0 <= i < |vars| && 0 <= j < |vars[i]| && l == vars[i][j];
      assert vars[i][j] in vars[i];
    }
    forall log, trail, pending | Fed(con, log, trail) && NoClash(trail)
      ensures AnswerOK(con, n, log, trail, pending, con.propagate(log, trail, pending))
    {
      ToldOK(vars, rows, n, log, trail, pending);
    }
  }

  // What Initialize answers will do to begin with, except for the empty table over no
  // variables.
  lemma TableStarts(vars: seq<seq<Lit>>, rows: seq<Row>, n: nat, trail: seq<Lit>, log: seq<Lit>, a: Answer)
    requires RowsOK(vars, rows) && forall i :: 0 <= i < |vars| ==> InRange(vars[i], n)
    requires vars != [] || rows != [] ==> StartSound(TableK(vars, rows), trail, log, a)
    requires vars == [] && rows == [] ==> a == Answer([], true)
    ensures StartOK(TableK(vars, rows), n, trail, a) <==> vars != [] || rows != []
  {
    hide StartSound, StartOK, Honest, RowsOK;
    if vars != [] || rows != [] {
      TableHonest(vars, rows, n);
      SoundStarts(TableK(vars, rows), n, trail, log, a);
    } else {
      NothingStarts(vars, rows, n, trail);
    }
  }

  lemma NothingStarts(vars: seq<seq<Lit>>, rows: seq<Row>, n: nat, trail: seq<Lit>)
    requires RowsOK(vars, rows) && vars == [] && rows == []
    ensures !StartOK(TableK(vars, rows), n, trail, Answer([], true))
  {
    assert Excluded(vars, rows, trail);
  }

  // A total assignment that has been delivered completely is accepted exactly if
  // it is allowed.
  lemma AcceptsExactly(vars: seq<seq<Lit>>, rows: seq<Row>, a: Assignment, log: seq<Lit>)
    requires RowsOK(vars, rows)
    requires forall l :: l in log <==>
               Holds(a, l) && exists i, j :: 0 <= i < |vars| && 0 <= j < |vars[i]| && vars[i][j] == l
    ensures RowsMatch(rows, |vars|)
    ensures Told(vars, rows, log).accept <==> Allowed(vars, rows, a)
  {
    KnownSays(vars, rows, log);
    forall i, j | 0 <= i < |vars| && 0 <= j < |vars[i]| ensures vars[i][j] in log <==> Holds(a, vars[i][j]) {
    }
    forall r | 0 <= r < |rows| ensures Fits(vars, rows[r], log) <==> FitsAssignment(vars, rows[r], a) {
    }
  }

  // ------------------------------------------------------------- the class

  lemma {:induction false} NewsKeep(vars: seq<seq<Lit>>, b: Known, occ: seq<Pos>)
    requires KnownOK(vars, b) && AllPosOK(vars, occ)
    ensures forall x :: x in News(vars, b, occ) ==> 0 <= x < |vars| && b.vals[x] == -1
    ensures forall x :: 0 <= x < |vars| && x !in News(vars, b, occ) ==> Learn(vars, b, occ).vals[x] == b.vals[x]
    decreases |occ|
  {
    if occ != [] {
      var (i, j) := occ[0];
      assert occ[0] in occ;
      if b.vals[i] == j {
        NewsKeep(vars, b, occ[1..]);
      } else if b.vals[i] == -1 {
        NewsKeep(vars, b.(vals := b.vals[i := j]), occ[1..]);
      }
    }
  }

  lemma LearnFrom(vars: seq<seq<Lit>>, b: Known, occ: seq<Pos>, k: nat)
    requires KnownOK(vars, b) && AllPosOK(vars, occ) && k < |occ|
    ensures occ[k].0 < |vars| && occ[k].1 < |vars[occ[k].0]|
    ensures AllPosOK(vars, occ[k..]) && AllPosOK(vars, occ[k + 1..])
    ensures var (i, j) := occ[k];
            if b.vals[i] == j then
              && Learn(vars, b, occ[k..]) == Learn(vars, b, occ[k + 1..])
              && News(vars, b, occ[k..]) == News(vars, b, occ[k + 1..])
            else if b.vals[i] != -1 then
              Learn(vars, b, occ[k..]) == b.(clash := true) && News(vars, b, occ[k..]) == []
            else
              var c := b.(vals := b.vals[i := j]);
              && Learn(vars, b, occ[k..]) == Learn(vars, c, occ[k + 1..])
              && News(vars, b, occ[k..]) == [i] + News(vars, c, occ[k + 1..])
  {
    assert occ[k] in occ;
    assert occ[k..][0] == occ[k] && occ[k..][1..] == occ[k + 1..];
  }

  ghost function UndoList(vars: seq<seq<Lit>>, log: seq<Lit>): seq<int> {
    if log == [] then []
    else
      var p, front := log[|log| - 1], log[..|log| - 1];
      PositionsOK(vars, p);
      UndoList(vars, front) + [-1] + News(vars, After(vars, front), Positions(vars, p, 0))
  }

  // Setting the variables of news back to -1 turns vals into vals0.
  ghost predicate Reverts(vals0: seq<int>, vals: seq<int>, news: seq<int>) {
    && |vals0| == |vals| && (forall k :: 0 <= k < |news| ==> 0 <= news[k] < |vals|)
    && forall x :: 0 <= x < |vals| ==> vals0[x] == if x in news then -1 else vals[x]
  }

  lemma RevertsOne(vals0: seq<int>, vals: seq<int>, undo: seq<int>, base: seq<int>, news: seq<int>)
    requires undo == base + [-1] + news && undo[|undo| - 1] != -1 && Reverts(vals0, vals, news)
    ensures news != [] && 0 <= undo[|undo| - 1] < |vals|
    ensures undo[..|undo| - 1] == base + [-1] + news[..|news| - 1]
    ensures Reverts(vals0, vals[undo[|undo| - 1] := -1], news[..|news| - 1])
  {
    var i, rest := undo[|undo| - 1], news[..|news| - 1];
    assert i == news[|news| - 1];
    assert news == rest + [i];
  }

  lemma RevertsAll(vals0: seq<int>, vals: seq<int>, undo: seq<int>, base: seq<int>, news: seq<int>)
    requires undo == base + [-1] + news && undo[|undo| - 1] == -1 && Reverts(vals0, vals, news)
    ensures vals == vals0 && undo[..|undo| - 1] == base
  {
    assert |news| == 0;
  }

  // What the last literal added to undo_list_.
  lemma LastNews(vars: seq<seq<Lit>>, log: seq<Lit>) returns (base: seq<int>, news: seq<int>)
    requires log != []
    ensures base == UndoList(vars, log[..|log| - 1]) && UndoList(vars, log) == base + [-1] + news
    ensures |After(vars, log).vals| == |vars|
    ensures Reverts(After(vars, log[..|log| - 1]).vals, After(vars, log).vals, news)
  {
    var p, front := log[|log| - 1], log[..|log| - 1];
    PositionsOK(vars, p);
    base, news := UndoList(vars, front), News(vars, After(vars, front), Positions(vars, p, 0));
    NewsKeep(vars, After(vars, front), Positions(vars, p, 0));
    assert KnownOK(vars, After(vars, front)) && KnownOK(vars, After(vars, log));
    assert forall k :: 0 <= k < |news| ==> news[k] in news;
  }

  // A literal that is delivered a second time, because initialize enqueued and took
  // it in, changes nothing but active_lits_.
  lemma AgainNothing(vars: seq<seq<Lit>>, rows: seq<Row>, log: seq<Lit>, p: Lit)
    requires RowsOK(vars, rows) && RowsMatch(rows, |vars|) && !After(vars, log).clash && p in log
    ensures After(vars, log + [p]) == After(vars, log)
    ensures Told(vars, rows, log + [p]) == Told(vars, rows, log)
  {
    hide Positions, Pruned;
    var b, occ := After(vars, log), Positions(vars, p, 0);
    PositionsOK(vars, p);
    AfterReflects(vars, log);
    forall x | x in occ ensures b.vals[x.0] == x.1 {
      PositionsMembers(vars, p, 0, x);
    }
    LearnIdle(vars, b, occ);
    assert (log + [p])[..|log|] == log;
  }

  lemma {:induction false} LearnIdle(vars: seq<seq<Lit>>, b: Known, occ: seq<Pos>)
    requires KnownOK(vars, b) && AllPosOK(vars, occ) && !b.clash
    requires forall x :: x in occ ==> x.0 < |b.vals| && b.vals[x.0] == x.1
    ensures Learn(vars, b, occ) == b
    decreases |occ|
  {
    if occ != [] {
      assert occ[0] in occ;
      LearnIdle(vars, b, occ[1..]);
    }
  }

  lemma TableRefuses(vars: seq<seq<Lit>>, rows: seq<Row>, trail: seq<Lit>, now: seq<Lit>, log: seq<Lit>)
    requires RowsOK(vars, rows) && RowsMatch(rows, |vars|) && Growing(TableK(vars, rows), trail, now, log)
    requires !Told(vars, rows, log).accept
    ensures StartSound(TableK(vars, rows), trail, log, Answer(now[|trail|..], false)) && trail <= now
  {
    hide Recognises, After, Growing;
    KnownSays(vars, rows, log);
    TableRecognises(vars, rows);
    GrowingBlocked(TableK(vars, rows), trail, now, log);
    Refused(TableK(vars, rows), trail, now, log);
  }

  lemma TableImplies(vars: seq<seq<Lit>>, rows: seq<Row>, trail: seq<Lit>, now: seq<Lit>, log: seq<Lit>)
    requires RowsOK(vars, rows) && RowsMatch(rows, |vars|) && Growing(TableK(vars, rows), trail, now, log)
    requires Told(vars, rows, log).accept
    ensures forall x :: x in Told(vars, rows, log).implied ==>
              Explains(TableK(vars, rows).sat, trail, x) && OfWatched(TableK(vars, rows), x)
  {
    hide Recognises, After, Growing, Explains, Forces, Pruned, Occurs;
    TableRecognises(vars, rows);
    var con, vals := TableK(vars, rows), After(vars, log).vals;
    forall x | x in Pruned(vars, rows, vals, 0) ensures Explains(con.sat, trail, x) && OfWatched(con, x) {
      PrunedMembers(vars, rows, vals, x);
      var m: nat, k: nat :| m < |vars| && k < |vars[m]| && x == Neg(vars[m][k])
        && !Occurs(rows, vals, m, -1) && !Occurs(rows, vals, m, k);
      PrunedForced(vars, rows, log, m, k);
      GrowingForces(con, trail, now, log, x);
    }
  }

  lemma TableEnds(vars: seq<seq<Lit>>, rows: seq<Row>, watchers: seq<Lit>, trail: seq<Lit>, now: seq<Lit>,
                  log: seq<Lit>)
    requires RowsOK(vars, rows) && RowsMatch(rows, |vars|) && Growing(TableK(vars, rows), trail, now, log)
    requires ListsWatched(TableK(vars, rows), watchers) && Looked(watchers, |watchers|, trail, log)
    requires (log != [] ==> Told(vars, rows, log).accept) && (vars != [] || rows != [])
    ensures trail <= now
    ensures StartSound(TableK(vars, rows), trail, log, Answer(now[|trail|..], rows != [] || vars == []))
  {
    hide Recognises, After, NoClash, Explains, Fits;
    assert trail + now[|trail|..] == now && watchers[..|watchers|] == watchers;
    TableRecognises(vars, rows);
    KnownSays(vars, rows, log);
    if rows == [] {
      GrowingBlocked(TableK(vars, rows), trail, now, log);
    } else {
      if log == [] {
        NothingFits(vars, rows);
      }
      LogContent(vars, rows, log);
    }
  }

  lemma NothingFits(vars: seq<seq<Lit>>, rows: seq<Row>)
    requires RowsOK(vars, rows) && rows != []
    ensures !Excluded(vars, rows, [])
  {
    assert Fits(vars, rows[0], []);
  }

  // Nothing was delivered after a clash.
  ghost predicate Clean(vars: seq<seq<Lit>>, log: seq<Lit>) {
    forall k :: 0 <= k < |log| ==> !After(vars, log[..k]).clash
  }

  lemma CleanNext(vars: seq<seq<Lit>>, log: seq<Lit>, p: Lit)
    requires Clean(vars, log) && !After(vars, log).clash
    ensures Clean(vars, log + [p])
  {
    hide After;
    forall k | 0 <= k < |log + [p]| ensures !After(vars, (log + [p])[..k]).clash {
      if k < |log| {
        assert (log + [p])[..k] == log[..k];
      } else {
        assert (log + [p])[..k] == log;
      }
    }
  }

  lemma CleanBack(vars: seq<seq<Lit>>, log: seq<Lit>)
    requires Clean(vars, log) && log != []
    ensures Clean(vars, log[..|log| - 1]) && !After(vars, log[..|log| - 1]).clash
  {
    hide After;
    var front := log[..|log| - 1];
    forall k | 0 <= k < |front| ensures !After(vars, front[..k]).clash {
      assert front[..k] == log[..k];
    }
  }

  class DirectEncodingExtensionSupports {
    const vars: seq<seq<Lit>>
    const supports: seq<Row>
    var knownValues: seq<int>
    var activeLits: seq<Lit>
    var undoList: seq<int>

    // activeLits are the literals delivered and not yet undone, so the state is a
    // function of it.
    ghost predicate Valid() reads this {
      && RowsOK(vars, supports)
      && knownValues == After(vars, activeLits).vals
      && undoList == UndoList(vars, activeLits)
      && Clean(vars, activeLits)
    }

    constructor (vars: seq<seq<Lit>>, supports: seq<Row>)
      requires RowsOK(vars, supports)
      ensures Valid() && activeLits == [] && this.vars == vars && this.supports == supports
    {
      this.vars, this.supports := vars, supports;
      knownValues := seq(|vars|, i => -1);
      activeLits, undoList := [], [];
    }

    // The loop over the positions of p; false if a variable gets a second value.
    method LearnAll(occ: seq<Pos>) returns (ok: bool)
      requires KnownOK(vars, Known(knownValues, false)) && AllPosOK(vars, occ)
      modifies this`knownValues, this`undoList
      ensures Known(knownValues, !ok) == Learn(vars, old(Known(knownValues, false)), occ)
      ensures undoList == old(undoList) + News(vars, old(Known(knownValues, false)), occ)
    {
      hide Learn, News;
      ghost var b0 := Known(knownValues, false);
      assert occ[0..] == occ;
      for k := 0 to |occ|
        invariant KnownOK(vars, Known(knownValues, false))
        invariant Learn(vars, Known(knownValues, false), occ[k..]) == Learn(vars, b0, occ)
        invariant undoList + News(vars, Known(knownValues, false), occ[k..]) == old(undoList) + News(vars, b0, occ)
      {
        var (i, j) := occ[k];
        LearnFrom(vars, Known(knownValues, false), occ, k);
        if knownValues[i] != -1 {
          if knownValues[i] != j {
            return false;
          }
        } else {
          undoList := undoList + [i];
          knownValues := knownValues[i := j];
        }
      }
      LearnEnd(vars, Known(knownValues, false), occ);
      ok := true;
    }

    // The loop over the rows: which values occur in a compatible row.
    method MarkRows() returns (found: bool, occurrence: seq<seq<bool>>)
      requires Valid()
      ensures RowsMatch(supports, |knownValues|) && |knownValues| == |vars|
      ensures found <==> AnyMatch(supports, knownValues)
      ensures |occurrence| == |vars| && forall i :: 0 <= i < |vars| ==> |occurrence[i]| == |vars[i]| + 1
      ensures forall i, x :: 0 <= i < |vars| && -1 <= x < |vars[i]| ==>
                (occurrence[i][x + 1] <==> Occurs(supports, knownValues, i, x))
    {
      assert KnownOK(vars, After(vars, activeLits));
      occurrence := seq(|vars|, i requires 0 <= i < |vars| => seq(|vars[i]| + 1, x => false));
      found := false;
      for r := 0 to |supports|
        invariant |occurrence| == |vars| && forall i :: 0 <= i < |vars| ==> |occurrence[i]| == |vars[i]| + 1
        invariant found <==> AnyMatch(supports[..r], knownValues)
        invariant Marked(vars, supports[..r], knownValues, occurrence)
      {
        MarkStep(vars, supports, knownValues, r);
        var row := supports[r];
        if Compatible(row, knownValues) {
          found := true;
          ghost var was := occurrence;
          for j := 0 to |vars|
            invariant |occurrence| == |vars| && forall i :: 0 <= i < |vars| ==> |occurrence[i]| == |vars[i]| + 1
            invariant forall i, x :: 0 <= i < |vars| && 0 <= x <= |vars[i]| ==>
                        (occurrence[i][x] <==> was[i][x] || (i < j && x == row[i] + 1))
          {
            occurrence := occurrence[j := occurrence[j][row[j] + 1 := true]];
          }
        }
      }
      assert supports[..|supports|] == supports;
    }

    // The loop that enqueues the negations of the values no compatible row has.
    method Prune(occurrence: seq<seq<bool>>) returns (implied: seq<Lit>)
      requires RowsMatch(supports, |knownValues|) && |knownValues| == |vars|
      requires |occurrence| == |vars| && forall i :: 0 <= i < |vars| ==> |occurrence[i]| == |vars[i]| + 1
      requires forall i, x :: 0 <= i < |vars| && -1 <= x < |vars[i]| ==>
                 (occurrence[i][x + 1] <==> Occurs(supports, knownValues, i, x))
      ensures implied == Pruned(vars, supports, knownValues, 0)
    {
      hide Occurs, RowsMatch, PrunedOf;
      implied := [];
      for i := 0 to |vars|
        invariant implied + Pruned(vars, supports, knownValues, i) == Pruned(vars, supports, knownValues, 0)
      {
        assert occurrence[i][-1 + 1] <==> Occurs(supports, knownValues, i, -1);
        if !occurrence[i][0] {
          var some := PruneOne(i, occurrence[i]);
          implied := implied + some;
        }
      }
    }

    method PruneOne(i: nat, occurs: seq<bool>) returns (implied: seq<Lit>)
      requires RowsMatch(supports, |knownValues|) && |knownValues| == |vars| && i < |vars|
      requires |occurs| == |vars[i]| + 1
      requires forall x :: -1 <= x < |vars[i]| ==> (occurs[x + 1] <==> Occurs(supports, knownValues, i, x))
      ensures implied == PrunedOf(vars[i], supports, knownValues, i, 0)
    {
      hide Occurs;
      implied := [];
      for j := 0 to |vars[i]|
        invariant implied + PrunedOf(vars[i], supports, knownValues, i, j)
               == PrunedOf(vars[i], supports, knownValues, i, 0)
      {
        if !occurs[j + 1] {
          implied := implied + [Neg(vars[i][j])];
        }
      }
    }

    // initialize, without the calls of addWatch.  The empty table over no variables
    // it accepts, though nothing satisfies it.
    method Initialize(watchers: seq<Lit>, trail: seq<Lit>) returns (a: Answer)
      requires Valid() && activeLits == [] && NoClash(trail) && ListsWatched(TableK(vars, supports), watchers)
      modifies this`knownValues, this`undoList, this`activeLits
      ensures Valid()
      ensures vars != [] || supports != [] ==> StartSound(TableK(vars, supports), trail, activeLits, a)
      ensures vars == [] && supports == [] ==> a == Answer([], true)
      ensures a.accept && activeLits != [] ==>
                RowsMatch(supports, |vars|)
                && forall x :: x in Told(vars, supports, activeLits).implied ==> x in trail + a.implied
    {
      hide Growing, Looked, ListsWatched, Refutes, Content, Explains, NoClash, Valid, After, TableK, RowsMatch, RowsOK;
      ValidRows();
      ghost var con := TableK(vars, supports);
      GrowingStart(con, trail, watchers);
      var now := trail;
      for i := 0 to |watchers|
        invariant Valid() && Growing(con, trail, now, activeLits) && Looked(watchers, i, trail, activeLits)
        invariant trail <= now && (activeLits != [] ==> Told(vars, supports, activeLits).accept)
        invariant vars == [] && supports == [] ==> now == trail
        invariant activeLits != [] ==> forall x :: x in Told(vars, supports, activeLits).implied ==> x in now
      {
        if Value(now, watchers[i]) == True {
          LookedTakes(con, watchers, i, trail, now, activeLits);
          NotClashing(vars, supports, activeLits);
          a := Propagate(watchers[i]);
          if !a.accept {
            TableWatches(vars, supports, watchers, i);
            TableRefuses(vars, supports, trail, now, activeLits);
            return Answer(now[|trail|..], false);
          }
          TableImplies(vars, supports, trail, now, activeLits);
          var ok;
          ok, now := EnqueueAll(con, trail, activeLits, now, a.implied);
          TableWatches(vars, supports, watchers, i);
          if !ok {
            Refused(con, trail, now, activeLits);
            return Answer(now[|trail|..], false);
          }
        } else {
          LookedPast(con, watchers, i, trail, now, activeLits);
        }
      }
      a := Answer(now[|trail|..], supports != [] || vars == []);
      assert now == trail + now[|trail|..];
      if vars != [] || supports != [] {
        TableEnds(vars, supports, watchers, trail, now, activeLits);
      }
    }

    lemma ValidRows()
      requires Valid()
      ensures RowsOK(vars, supports) && RowsMatch(supports, |vars|)
    {
    }

    // What came before was accepted.
    method Propagate(p: Lit) returns (a: Answer)
      requires Valid() && !After(vars, activeLits).clash
      modifies this`knownValues, this`undoList, this`activeLits
      ensures Valid() && activeLits == old(activeLits) + [p]
      ensures RowsMatch(supports, |vars|) && a == Told(vars, supports, activeLits)
    {
      CleanNext(vars, activeLits, p);
      ghost var log0 := activeLits;
      PositionsOK(vars, p);
      activeLits := activeLits + [p];
      undoList := undoList + [-1];
      assert activeLits[..|activeLits| - 1] == log0;
      var ok := LearnAll(Positions(vars, p, 0));
      if !ok {
        return Answer([], false);
      }
      var found, occurrence := MarkRows();
      if !found {
        return Answer([], false);
      }
      var implied := Prune(occurrence);
      a := Answer(implied, true);
    }

    // undo takes back exactly what propagate did for the last literal.
    method Undo(p: Lit)
      requires Valid() && activeLits != [] && activeLits[|activeLits| - 1] == p
      modifies this`knownValues, this`undoList, this`activeLits
      ensures Valid() && activeLits == old(activeLits)[..|old(activeLits)| - 1]
      ensures !After(vars, activeLits).clash
    {
      hide RowsOK, KnownOK, After, UndoList, Clean, Reverts;
      CleanBack(vars, activeLits);
      ghost var front := activeLits[..|activeLits| - 1];
      ghost var base, news := LastNews(vars, activeLits);
      ghost var vals0 := After(vars, front).vals;
      while undoList[|undoList| - 1] != -1
        invariant undoList == base + [-1] + news && |knownValues| == |vars| && activeLits == old(activeLits)
        invariant Reverts(vals0, knownValues, news)
        decreases |news|
      {
        RevertsOne(vals0, knownValues, undoList, base, news);
        var i := undoList[|undoList| - 1];
        undoList := undoList[..|undoList| - 1];
        news := news[..|news| - 1];
        knownValues := knownValues[i := -1];
      }
      RevertsAll(vals0, knownValues, undoList, base, news);
      undoList := undoList[..|undoList| - 1];
      activeLits := activeLits[..|activeLits| - 1];
    }

    // extra is empty for lit_Undef.
    method CalcReason(extra: seq<Lit>) returns (reason: seq<Lit>)
      ensures reason == activeLits + extra
    {
      reason := activeLits + extra;
    }
  }

  lemma NotClashing(vars: seq<seq<Lit>>, rows: seq<Row>, log: seq<Lit>)
    requires RowsMatch(rows, |vars|) && (log != [] ==> Told(vars, rows, log).accept)
    ensures !After(vars, log).clash
  {
  }

  lemma TableWatches(vars: seq<seq<Lit>>, rows: seq<Row>, watchers: seq<Lit>, i: nat)
    requires RowsOK(vars, rows) && ListsWatched(TableK(vars, rows), watchers) && i < |watchers|
    ensures vars != []
  {
    assert watchers[i] in watchers;
  }

  lemma LearnEnd(vars: seq<seq<Lit>>, b: Known, occ: seq<Pos>)
    requires KnownOK(vars, b)
    ensures Learn(vars, b, occ[|occ|..]) == b && News(vars, b, occ[|occ|..]) == []
  {
  }

  ghost predicate Marked(vars: seq<seq<Lit>>, rows: seq<Row>, vals: seq<int>, occurrence: seq<seq<bool>>)
    requires RowsMatch(rows, |vals|) && |vals| == |vars| == |occurrence|
    requires forall i :: 0 <= i < |vars| ==> |occurrence[i]| == |vars[i]| + 1
  {
    forall i, x :: 0 <= i < |vars| && 0 <= x <= |vars[i]| ==> (occurrence[i][x] <==> Occurs(rows, vals, i, x - 1))
  }

  lemma MarkStep(vars: seq<seq<Lit>>, rows: seq<Row>, vals: seq<int>, r: nat)
    requires RowsOK(vars, rows) && |vals| == |vars| && r < |rows|
    ensures RowsMatch(rows, |vals|) && RowsMatch(rows[..r], |vals|) && RowsMatch(rows[..r + 1], |vals|)
    ensures AnyMatch(rows[..r + 1], vals) <==> AnyMatch(rows[..r], vals) || Compatible(rows[r], vals)
    ensures forall i, x :: 0 <= i < |vars| ==>
              (Occurs(rows[..r + 1], vals, i, x) <==>
               Occurs(rows[..r], vals, i, x) || (Compatible(rows[r], vals) && rows[r][i] == x))
  {
    assert rows[..r + 1] == rows[..r] + [rows[r]];
    forall i, x | 0 <= i < |vars|
      ensures Occurs(rows[..r + 1], vals, i, x) <==>
              Occurs(rows[..r], vals, i, x) || (Compatible(rows[r], vals) && rows[r][i] == x)
    {
      MarkOne(rows, vals, r, i, x);
    }
  }

  lemma MarkOne(rows: seq<Row>, vals: seq<int>, r: nat, i: nat, x: int)
    requires RowsMatch(rows, |vals|) && r < |rows| && i < |vals|
    requires RowsMatch(rows[..r], |vals|) && RowsMatch(rows[..r + 1], |vals|)
    ensures Occurs(rows[..r + 1], vals, i, x) <==>
            Occurs(rows[..r], vals, i, x) || (Compatible(rows[r], vals) && rows[r][i] == x)
  {
    hide Compatible;
    var more, few := rows[..r + 1], rows[..r];
    if Occurs(more, vals, i, x) {
      var q :| 0 <= q < |more| && Compatible(more[q], vals) && more[q][i] == x;
      assert q < r ==> few[q] == more[q];
    }
    if Occurs(few, vals, i, x) {
      var q :| 0 <= q < |few| && Compatible(few[q], vals) && few[q][i] == x;
      assert more[q] == few[q];
    }
    assert more[r] == rows[r];
  }
}
