// Why search terminates between two restarts: the vector of trail literals per
// decision level grows lexicographically with every step, and it is bounded by
// the number of variables.
module Progress {
  import opened Trails

  function Pow(b: nat, e: nat): nat {
    if e == 0 then 1 else b * Pow(b, e - 1)
  }

  // Literals on level j; levels that are not open have none.
  ghost function LevelSize(t: Trail, j: nat): int {
    if j > |t.lims| then 0
    else (if j == |t.lims| then |t.lits| else t.lims[j]) - (if j == 0 then 0 else t.lims[j - 1])
  }

  // Levels j to n read as the digits of a number in base n + 1.
  ghost function Digits(t: Trail, n: nat, j: nat): int
    decreases n + 1 - j
  {
    if j > n then 0 else LevelSize(t, j) * Pow(n + 1, n - j) + Digits(t, n, j + 1)
  }

  ghost function Measure(t: Trail, n: nat): int {
    Pow(n + 1, n + 1) - Digits(t, n, 0)
  }

  // u agrees with t below level j and has more literals on level j.
  ghost predicate LexLess(t: Trail, u: Trail, j: nat) {
    (forall i: nat :: i < j ==> LevelSize(t, i) == LevelSize(u, i)) && LevelSize(t, j) < LevelSize(u, j)
  }

  lemma {:induction false} TrailBounded(t: Trail, n: nat)
    requires TrailOK(t, n)
    ensures |t.lits| <= n && |t.lims| <= |t.lits| + 1
  {
    var vs := set i | 0 <= i < |t.lits| :: t.lits[i].v;
    BelowBounded(vs, n);
    CountDistinct(t, n, |t.lits|);
    assert vs == set i | 0 <= i < |t.lits| && i < |t.lits| :: t.lits[i].v;
    LimsBounded(t, n, |t.lims|);
  }

  lemma {:induction false} LimsBounded(t: Trail, n: nat, j: nat)
    requires TrailOK(t, n) && j <= |t.lims|
    ensures j > 0 ==> j - 1 <= t.lims[j - 1]
  {
    if j > 1 {
      LimsBounded(t, n, j - 1);
    }
  }

  lemma {:induction false} CountDistinct(t: Trail, n: nat, m: nat)
    requires TrailOK(t, n) && m <= |t.lits|
    ensures |set i | 0 <= i < |t.lits| && i < m :: t.lits[i].v| == m
  {
    hide TrailOK;
    var s := set i | 0 <= i < |t.lits| && i < m :: t.lits[i].v;
    if m == 0 {
      assert s == {};
    } else {
      CountDistinct(t, n, m - 1);
      var less := set i | 0 <= i < |t.lits| && i < m - 1 :: t.lits[i].v;
      NotEarlier(t, n, m - 1);
      assert s == less + {t.lits[m - 1].v};
    }
  }

  lemma NotEarlier(t: Trail, n: nat, m: nat)
    requires TrailOK(t, n) && m < |t.lits|
    ensures forall i :: 0 <= i < m ==> t.lits[i].v != t.lits[m].v
  {
    forall i | 0 <= i < m ensures t.lits[i].v != t.lits[m].v {
      assert t.pos[t.lits[i].v] == i && t.pos[t.lits[m].v] == m;
    }
  }

  lemma {:induction false} BelowBounded(s: set<nat>, n: nat)
    requires forall x :: x in s ==> x < n
    ensures |s| <= n
  {
    if n == 0 {
      assert s == {};
    } else {
      BelowBounded(s - {n - 1}, n - 1);
    }
  }

  lemma LevelSizeBounds(t: Trail, n: nat, j: nat)
    requires TrailOK(t, n)
    ensures 0 <= LevelSize(t, j) <= n
  {
    TrailBounded(t, n);
  }

  lemma {:induction false} DigitsBounded(t: Trail, n: nat, j: nat)
    requires TrailOK(t, n) && j <= n + 1
    ensures 0 <= Digits(t, n, j) < Pow(n + 1, n + 1 - j)
    decreases n + 1 - j
  {
    hide TrailOK, LevelSize;
    if j <= n {
      LevelSizeBounds(t, n, j);
      DigitsBounded(t, n, j + 1);
      var d, p := LevelSize(t, j), Pow(n + 1, n - j);
      MulMonotone(d, n, p);
      OneMore(n, p);
    }
  }

  lemma OneMore(n: int, p: int)
    ensures (n + 1) * p == n * p + p
  {
  }

  lemma MulMonotone(a: int, b: int, p: nat)
    requires 0 <= a <= b
    ensures 0 <= a * p <= b * p
  {
  }

  // The vector order is the order of the numbers.
  lemma {:induction false} LexDigits(t: Trail, u: Trail, n: nat, j: nat, i: nat)
    requires TrailOK(t, n) && TrailOK(u, n) && LexLess(t, u, j) && i <= j <= n
    ensures Digits(t, n, i) < Digits(u, n, i)
    decreases j - i
  {
    hide TrailOK, LevelSize, Pow;
    if i < j {
      LexDigits(t, u, n, j, i + 1);
    } else {
      DigitsBounded(t, n, j + 1);
      DigitsBounded(u, n, j + 1);
      LevelSizeBounds(t, n, j);
      TopDigit(LevelSize(t, j), LevelSize(u, j), Pow(n + 1, n - j), Digits(t, n, j + 1), Digits(u, n, j + 1));
    }
  }

  lemma TopDigit(a: int, b: int, p: nat, x: int, y: int)
    requires 0 <= a < b && x < p && 0 <= y
    ensures a * p + x < b * p + y
  {
    MulMonotone(a + 1, b, p);
    assert (a + 1) * p == a * p + p;
  }

  lemma LexMeasure(t: Trail, u: Trail, n: nat, j: nat)
    requires TrailOK(t, n) && TrailOK(u, n) && LexLess(t, u, j) && j <= n
    ensures 0 <= Measure(u, n) < Measure(t, n)
  {
    LexDigits(t, u, n, j, 0);
    DigitsBounded(u, n, 0);
  }

  // u has everything below the top level of t, and at least as much on it.
  ghost predicate Extends(t: Trail, u: Trail) {
    u.lims == t.lims && t.lits <= u.lits
  }

  // Propagating and then deciding.
  lemma DecideProgress(t: Trail, u: Trail, d: Trail, n: nat)
    requires TrailOK(t, n) && TrailOK(d, n) && Extends(t, u)
    requires d.lims == u.lims + [|u.lits|] && |d.lits| == |u.lits| + 1
    requires |t.lims| > 0 ==> t.lims[|t.lims| - 1] < |t.lits|
    ensures 0 <= Measure(d, n) < Measure(t, n)
  {
    TrailBounded(t, n);
    TrailBounded(d, n);
    var l := |t.lims|;
    LimsBounded(t, n, l);
    if |u.lits| == |t.lits| {
      assert forall i: nat :: i < l + 1 ==> LevelSize(t, i) == LevelSize(d, i);
      assert LexLess(t, d, l + 1);
      LexMeasure(t, d, n, l + 1);
    } else {
      assert LexLess(t, d, l);
      LexMeasure(t, d, n, l);
    }
  }

  // Propagating into a conflict, jumping back to level b and enqueueing there.
  lemma BackjumpProgress(t: Trail, u: Trail, d: Trail, n: nat, b: nat)
    requires TrailOK(t, n) && TrailOK(d, n) && Extends(t, u) && b < |t.lims|
    requires d.lims == u.lims[..b] && |d.lits| == u.lims[b] + 1
    requires t.lims[|t.lims| - 1] < |t.lits|
    ensures 0 <= Measure(d, n) < Measure(t, n)
  {
    TrailBounded(t, n);
    LimsBounded(t, n, b + 1);
    assert LexLess(t, d, b);
    LexMeasure(t, d, n, b);
  }
}
