// The union-find of constraints/Graph.cc: union by size without path compression,
// a sum for each class, the number of classes with a positive sum, and a log that
// takes everything back to the last commit.
module UnionFinds {
  // parent_ holds the parent of an element, or the negated size of the class at
  // its root.
  datatype Forest = Forest(parent: seq<int>, nActive: seq<int>, clusters: int)

  // What the forest stands for: the root of each element, the size of the subtree
  // below it, the count it was given, and the pairs that were merged.
  datatype Meaning = Meaning(rep: seq<nat>, size: seq<nat>, act: seq<int>, edges: set<(nat, nat)>)

  ghost function Class(rep: seq<nat>, r: nat): set<nat> {
    set i | 0 <= i < |rep| && rep[i] == r
  }

  // The sum of the counts of a class, up to element k.
  ghost function Sum(rep: seq<nat>, act: seq<int>, r: nat, k: nat): int
    requires |rep| == |act| && k <= |rep|
  {
    if k == 0 then 0 else Sum(rep, act, r, k - 1) + if rep[k - 1] == r then act[k - 1] else 0
  }

  ghost function Positive(f: Forest): set<nat>
    requires |f.nActive| == |f.parent|
  {
    set r | 0 <= r < |f.parent| && f.parent[r] < 0 && f.nActive[r] > 0
  }

  ghost predicate Sizes(f: Forest, m: Meaning) {
    |f.parent| == |f.nActive| == |m.rep| == |m.size| == |m.act|
  }

  // Union by size: a parent has at least twice the weight of its child.
  ghost predicate NodeOK(f: Forest, m: Meaning, i: nat)
    requires Sizes(f, m) && i < |f.parent|
  {
    && 1 <= m.size[i] <= |f.parent| && m.rep[i] < |f.parent|
    && if f.parent[i] >= 0 then
         && f.parent[i] < |f.parent| && m.size[f.parent[i]] >= 2 * m.size[i]
         && m.rep[i] == m.rep[f.parent[i]] != i && f.nActive[i] == 0
       else
         && m.rep[i] == i && m.size[i] == -f.parent[i] == |Class(m.rep, i)|
         && f.nActive[i] == Sum(m.rep, m.act, i, |m.rep|)
  }

  ghost predicate TreesOK(f: Forest, m: Meaning) {
    && Sizes(f, m)
    && (forall i :: 0 <= i < |f.parent| ==> NodeOK(f, m, i))
    && (forall i :: 0 <= i < |f.parent| ==> m.rep[i] < |f.parent| && f.parent[m.rep[i]] < 0)
  }

  // x and y are joined by merged pairs: no set closed under the pairs tells them
  // apart.
  ghost predicate Respects(edges: set<(nat, nat)>, x: set<nat>) {
    forall e :: e in edges ==> (e.0 in x <==> e.1 in x)
  }

  ghost predicate Joined(edges: set<(nat, nat)>, u: nat, w: nat) {
    forall x: set<nat> :: Respects(edges, x) && u in x ==> w in x
  }

  // The classes are the partition that the merges generate.
  ghost predicate Generated(rep: seq<nat>, edges: set<(nat, nat)>) {
    && (forall e :: e in edges ==> e.0 < |rep| && e.1 < |rep|)
    && forall u, w :: 0 <= u < |rep| && 0 <= w < |rep| ==> (rep[u] == rep[w] <==> Joined(edges, u, w))
  }

  ghost predicate ForestOK(f: Forest, m: Meaning) {
    TreesOK(f, m) && f.clusters == |Positive(f)| && Generated(m.rep, m.edges)
  }

  function Pow2(k: nat): nat {
    if k == 0 then 1 else 2 * Pow2(k - 1)
  }

  // ------------------------------------------------------------------ merging

  // Class q joins class p; both are roots.
  ghost function MergedRep(rep: seq<nat>, p: nat, q: nat): seq<nat> {
    seq(|rep|, i requires 0 <= i < |rep| => if rep[i] == q then p else rep[i])
  }

  lemma {:induction false} SumMerged(rep: seq<nat>, act: seq<int>, p: nat, q: nat, r: nat, k: nat)
    requires |rep| == |act| && k <= |rep| && p != q
    ensures Sum(MergedRep(rep, p, q), act, r, k)
         == if r == p then Sum(rep, act, p, k) + Sum(rep, act, q, k) else if r == q then 0 else Sum(rep, act, r, k)
  {
    if k > 0 {
      SumMerged(rep, act, p, q, r, k - 1);
    }
  }

  lemma ClassMerged(rep: seq<nat>, p: nat, q: nat, r: nat)
    requires p != q
    ensures r == p ==> |Class(MergedRep(rep, p, q), r)| == |Class(rep, p)| + |Class(rep, q)|
    ensures r != p && r != q ==> Class(MergedRep(rep, p, q), r) == Class(rep, r)
  {
    if r == p {
      assert Class(MergedRep(rep, p, q), p) == Class(rep, p) + Class(rep, q);
      assert Class(rep, p) !! Class(rep, q);
    }
  }

  lemma {:induction false} ClassBound(rep: seq<nat>, r: nat)
    ensures |Class(rep, r)| <= |rep|
  {
    if rep == [] {
      assert Class(rep, r) == {};
    } else {
      var less := rep[..|rep| - 1];
      ClassBound(less, r);
      assert Class(rep, r) <= Class(less, r) + {|rep| - 1};
      var all := Class(less, r) + {|rep| - 1};
      assert all == Class(rep, r) + (all - Class(rep, r));
    }
  }

  // Merge, once the roots are known and p is the larger class.
  ghost function MergedForest(f: Forest, p: nat, q: nat): Forest
    requires p < |f.parent| && q < |f.parent| && |f.nActive| == |f.parent|
  {
    var sum := f.nActive[p] + f.nActive[q];
    Forest(f.parent[p := f.parent[p] + f.parent[q]][q := p], f.nActive[p := sum][q := 0],
           f.clusters - (if f.nActive[p] > 0 then 1 else 0) - (if f.nActive[q] > 0 then 1 else 0)
           + (if sum > 0 then 1 else 0))
  }

  ghost function MergedMeaning(m: Meaning, p: nat, q: nat, u: nat, w: nat): Meaning
    requires p < |m.size| && q < |m.size|
  {
    Meaning(MergedRep(m.rep, p, q), m.size[p := m.size[p] + m.size[q]], m.act, m.edges + {(u, w)})
  }

  lemma TreesSizes(f: Forest, m: Meaning)
    requires TreesOK(f, m)
    ensures Sizes(f, m)
    ensures forall i :: 0 <= i < |f.parent| ==> m.rep[i] < |f.parent| && f.parent[m.rep[i]] < 0
  {
    hide NodeOK;
  }

  lemma MergeTrees(f: Forest, m: Meaning, p: nat, q: nat, u: nat, w: nat)
    requires TreesOK(f, m) && p < |f.parent| && q < |f.parent| && p != q
    requires f.parent[p] < 0 && f.parent[q] < 0 && f.parent[p] <= f.parent[q]
    ensures TreesOK(MergedForest(f, p, q), MergedMeaning(m, p, q, u, w))
  {
    hide Sum, Class;
    var g, k := MergedForest(f, p, q), MergedMeaning(m, p, q, u, w);
    assert NodeOK(f, m, p) && NodeOK(f, m, q);
    ClassMerged(m.rep, p, q, p);
    ClassBound(MergedRep(m.rep, p, q), p);
    SumMerged(m.rep, m.act, p, q, p, |m.rep|);
    forall i | 0 <= i < |g.parent| ensures NodeOK(g, k, i) {
      assert NodeOK(f, m, i);
      if i != p && i != q {
        MergeNode(f, m, p, q, u, w, i);
      }
    }
  }

  lemma MergeNode(f: Forest, m: Meaning, p: nat, q: nat, u: nat, w: nat, i: nat)
    requires TreesOK(f, m) && p < |f.parent| && q < |f.parent| && p != q && i < |f.parent| && i != p && i != q
    requires f.parent[p] < 0 && f.parent[q] < 0
    ensures NodeOK(MergedForest(f, p, q), MergedMeaning(m, p, q, u, w), i)
  {
    hide Sum, Class;
    assert NodeOK(f, m, i) && NodeOK(f, m, p) && NodeOK(f, m, q);
    ClassMerged(m.rep, p, q, i);
    SumMerged(m.rep, m.act, p, q, i, |m.rep|);
  }

  lemma MergePositive(f: Forest, p: nat, q: nat)
    requires |f.nActive| == |f.parent| && p < |f.parent| && q < |f.parent| && p != q
    requires f.parent[p] < 0 && f.parent[q] < 0 && f.clusters == |Positive(f)|
    ensures MergedForest(f, p, q).clusters == |Positive(MergedForest(f, p, q))|
  {
    hide Positive;
    var g := MergedForest(f, p, q);
    PositiveMember(f, p);
    PositiveMember(f, q);
    PositiveMember(g, p);
    MergeOthers(f, p, q);
    Exchange(Positive(f), Positive(g), p, q);
  }

  lemma PositiveMember(f: Forest, r: nat)
    requires |f.nActive| == |f.parent| && r < |f.parent| && f.parent[r] < 0
    ensures r in Positive(f) <==> f.nActive[r] > 0
  {
  }

  lemma MergeOthers(f: Forest, p: nat, q: nat)
    requires |f.nActive| == |f.parent| && p < |f.parent| && q < |f.parent| && p != q
    requires f.parent[p] < 0 && f.parent[q] < 0
    ensures MergedForest(f, p, q).parent[p] < 0
    ensures Positive(MergedForest(f, p, q)) - {p} == Positive(f) - {p} - {q}
  {
  }

  lemma Exchange(s: set<nat>, t: set<nat>, p: nat, q: nat)
    requires p != q && t - {p} == s - {p} - {q}
    ensures |t| == |s| - (if p in s then 1 else 0) - (if q in s then 1 else 0) + (if p in t then 1 else 0)
  {
    Without(s, p);
    Without(s - {p}, q);
    Without(t, p);
  }

  lemma Without(s: set<nat>, x: nat)
    ensures |s - {x}| == |s| - if x in s then 1 else 0
  {
    assert x in s ==> s == (s - {x}) + {x};
    assert x !in s ==> s - {x} == s;
  }

  lemma MergeGenerated(rep: seq<nat>, edges: set<(nat, nat)>, u: nat, w: nat, p: nat, q: nat)
    requires Generated(rep, edges) && u < |rep| && w < |rep| && p < |rep| && q < |rep|
    requires rep[u] != rep[w] && ((p == rep[u] && q == rep[w]) || (p == rep[w] && q == rep[u]))
    ensures Generated(MergedRep(rep, p, q), edges + {(u, w)})
  {
    var now, all := MergedRep(rep, p, q), edges + {(u, w)};
    forall e | e in edges ensures rep[e.0] == rep[e.1] {
      assert Joined(edges, e.0, e.1);
    }
    forall x, y | 0 <= x < |rep| && 0 <= y < |rep| && now[x] == now[y] ensures Joined(all, x, y) {
      JoinMore(rep, edges, u, w, x, y);
    }
    forall x, y | 0 <= x < |rep| && 0 <= y < |rep| && Joined(all, x, y) ensures now[x] == now[y] {
      var same := set z | 0 <= z < |rep| && now[z] == now[x];
      assert Respects(all, same);
    }
  }

  lemma JoinMore(rep: seq<nat>, edges: set<(nat, nat)>, u: nat, w: nat, x: nat, y: nat)
    requires Generated(rep, edges) && u < |rep| && w < |rep| && x < |rep| && y < |rep|
    requires rep[x] == rep[y] || (rep[x] == rep[u] && rep[y] == rep[w]) || (rep[x] == rep[w] && rep[y] == rep[u])
    ensures Joined(edges + {(u, w)}, x, y)
  {
    var all := edges + {(u, w)};
    forall s: set<nat> | Respects(all, s) && x in s ensures y in s {
      assert Respects(edges, s);
      assert (u, w) in all;
      assert u in s <==> w in s;
      if rep[x] == rep[y] {
        assert Joined(edges, x, y);
      } else if rep[x] == rep[u] {
        assert Joined(edges, x, u) && Joined(edges, w, y);
      } else {
        assert Joined(edges, x, w) && Joined(edges, u, y);
      }
    }
  }

  // A pair that is in one class already changes nothing.
  lemma MergeNothing(rep: seq<nat>, edges: set<(nat, nat)>, u: nat, w: nat)
    requires Generated(rep, edges) && u < |rep| && w < |rep| && rep[u] == rep[w]
    ensures Generated(rep, edges + {(u, w)})
  {
    var all := edges + {(u, w)};
    forall e | e in edges ensures rep[e.0] == rep[e.1] {
      assert Joined(edges, e.0, e.1);
    }
    forall x, y | 0 <= x < |rep| && 0 <= y < |rep| ensures rep[x] == rep[y] <==> Joined(all, x, y) {
      if rep[x] == rep[y] {
        JoinMore(rep, edges, u, w, x, y);
      }
      if Joined(all, x, y) {
        assert Respects(all, set z | 0 <= z < |rep| && rep[z] == rep[x]);
      }
    }
  }

  // ------------------------------------------------------------------- counts

  ghost function AddedForest(f: Forest, r: nat, d: int): Forest
    requires r < |f.nActive|
  {
    Forest(f.parent, f.nActive[r := f.nActive[r] + d],
           f.clusters - (if f.nActive[r] > 0 then 1 else 0) + (if f.nActive[r] + d > 0 then 1 else 0))
  }

  lemma {:induction false} SumAdded(rep: seq<nat>, act: seq<int>, p: nat, d: int, r: nat, k: nat)
    requires |rep| == |act| && k <= |rep| && p < |rep|
    ensures Sum(rep, act[p := act[p] + d], r, k) == Sum(rep, act, r, k) + if p < k && rep[p] == r then d else 0
  {
    if k > 0 {
      SumAdded(rep, act, p, d, r, k - 1);
    }
  }

  lemma AddOK(f: Forest, m: Meaning, p: nat, d: int)
    requires ForestOK(f, m) && p < |m.rep|
    ensures m.rep[p] < |f.nActive|
    ensures ForestOK(AddedForest(f, m.rep[p], d), m.(act := m.act[p := m.act[p] + d]))
  {
    hide Generated;
    assert NodeOK(f, m, p);
    var r := m.rep[p];
    var g, k := AddedForest(f, r, d), m.(act := m.act[p := m.act[p] + d]);
    AddPositive(f, r, d);
    hide Sum, Class, Positive;
    forall i | 0 <= i < |g.parent| ensures NodeOK(g, k, i) {
      assert NodeOK(f, m, i);
      SumAdded(m.rep, m.act, p, d, i, |m.rep|);
    }
  }

  lemma AddPositive(f: Forest, r: nat, d: int)
    requires |f.nActive| == |f.parent| && r < |f.parent| && f.parent[r] < 0 && f.clusters == |Positive(f)|
    ensures AddedForest(f, r, d).clusters == |Positive(AddedForest(f, r, d))|
  {
    hide Positive;
    var g := AddedForest(f, r, d);
    PositiveMember(f, r);
    PositiveMember(g, r);
    AddOthers(f, r, d);
    Without(Positive(f), r);
    Without(Positive(g), r);
  }

  lemma AddOthers(f: Forest, r: nat, d: int)
    requires |f.nActive| == |f.parent| && r < |f.parent|
    ensures Positive(AddedForest(f, r, d)) - {r} == Positive(f) - {r}
  {
  }

  // ------------------------------------------------------------- the redo log

  type Log = seq<(int, int)>

  ghost predicate EntryOK(n: nat, loc: int) {
    -1 <= loc < 2 * n
  }

  function Restored(f: Forest, loc: int, val: int): Forest
    requires |f.nActive| == |f.parent| && EntryOK(|f.parent|, loc)
  {
    if loc == -1 then f.(clusters := val)
    else if loc % 2 == 0 then f.(parent := f.parent[loc / 2 := val])
    else f.(nActive := f.nActive[loc / 2 := val])
  }

  ghost predicate LogOK(n: nat, log: Log) {
    forall x :: x in log ==> EntryOK(n, x.0)
  }

  // Taking the entries back from the end.
  ghost function Undone(f: Forest, log: Log): Forest
    requires |f.nActive| == |f.parent| && LogOK(|f.parent|, log)
    decreases |log|
  {
    if log == [] then f
    else
      var x := log[|log| - 1];
      assert x in log;
      Undone(Restored(f, x.0, x.1), log[..|log| - 1])
  }

  // An update is logged with the old value.
  lemma UndoneStep(f: Forest, g: Forest, log: Log, loc: int, val: int)
    requires |f.nActive| == |f.parent| == |g.parent| == |g.nActive| && LogOK(|f.parent|, log)
    requires EntryOK(|f.parent|, loc) && Restored(g, loc, val) == f
    ensures LogOK(|f.parent|, log + [(loc, val)])
    ensures Undone(g, log + [(loc, val)]) == Undone(f, log)
  {
    assert (log + [(loc, val)])[..|log|] == log;
  }

  // ----------------------------------------------------------- the clusters

  lemma {:induction false} SumSign(rep: seq<nat>, act: seq<int>, r: nat, k: nat)
    requires |rep| == |act| && k <= |rep| && forall i :: 0 <= i < |act| ==> act[i] >= 0
    ensures Sum(rep, act, r, k) >= 0
    ensures Sum(rep, act, r, k) > 0 <==> exists i :: 0 <= i < k && rep[i] == r && act[i] > 0
  {
    if k > 0 {
      SumSign(rep, act, r, k - 1);
      if i :| 0 <= i < k && rep[i] == r && act[i] > 0 {
        assert i < k - 1 || i == k - 1;
      }
    }
  }

  // A positive sum has a positive term.
  lemma {:induction false} SumHas(rep: seq<nat>, act: seq<int>, r: nat, k: nat)
    requires |rep| == |act| && k <= |rep| && Sum(rep, act, r, k) > 0
    ensures exists i :: 0 <= i < k && rep[i] == r && act[i] > 0
  {
    if k > 0 && !(rep[k - 1] == r && act[k - 1] > 0) {
      SumHas(rep, act, r, k - 1);
    }
  }

  // One element of the class counts.
  lemma {:induction false} SumOnly(rep: seq<nat>, act: seq<int>, r: nat, k: nat, u: nat)
    requires |rep| == |act| && k <= |rep| && u < |rep| && rep[u] == r
    requires forall i :: 0 <= i < k && rep[i] == r && i != u ==> act[i] == 0
    ensures Sum(rep, act, r, k) == if u < k then act[u] else 0
  {
    if k > 0 {
      SumOnly(rep, act, r, k - 1, u);
    }
  }

  lemma PositiveSum(f: Forest, m: Meaning, r: nat)
    requires ForestOK(f, m) && r < |m.rep| && |m.rep| == |m.act|
    ensures |f.nActive| == |f.parent|
    ensures r in Positive(f) <==> m.rep[r] == r && Sum(m.rep, m.act, r, |m.rep|) > 0
  {
    assert NodeOK(f, m, r);
  }

  // Counts may be negative: with two positive classes there are two clusters, and
  // without there are not.
  lemma ClustersBySums(f: Forest, m: Meaning)
    requires ForestOK(f, m) && |m.rep| == |m.act|
    ensures f.clusters >= 2 <==>
            exists u, w :: 0 <= u < |m.rep| && 0 <= w < |m.rep| && m.rep[u] != m.rep[w]
                           && Sum(m.rep, m.act, m.rep[u], |m.rep|) > 0 && Sum(m.rep, m.act, m.rep[w], |m.rep|) > 0
  {
    hide Sum, Generated;
    TwoElements(Positive(f));
    if a, b :| a in Positive(f) && b in Positive(f) && a != b {
      PositiveSum(f, m, a);
      PositiveSum(f, m, b);
      assert m.rep[a] == a && m.rep[b] == b;
    }
    if u, w :| 0 <= u < |m.rep| && 0 <= w < |m.rep| && m.rep[u] != m.rep[w]
               && Sum(m.rep, m.act, m.rep[u], |m.rep|) > 0 && Sum(m.rep, m.act, m.rep[w], |m.rep|) > 0 {
      assert NodeOK(f, m, u) && NodeOK(f, m, w) && NodeOK(f, m, m.rep[u]) && NodeOK(f, m, m.rep[w]);
      PositiveSum(f, m, m.rep[u]);
      PositiveSum(f, m, m.rep[w]);
    }
  }

  lemma {:induction false} TwoElements(s: set<nat>)
    ensures |s| >= 2 <==> exists a, b :: a in s && b in s && a != b
  {
    if a, b :| a in s && b in s && a != b {
      assert |s - {a}| >= 1;
    }
    if |s| >= 2 {
      var a :| a in s;
      var rest := s - {a};
      assert |rest| >= 1;
      var b :| b in rest;
    }
  }

  // With counts that are not negative there are two clusters exactly if two
  // elements with a positive count are in different classes.
  lemma TwoClusters(f: Forest, m: Meaning)
    requires ForestOK(f, m) && forall i :: 0 <= i < |m.act| ==> m.act[i] >= 0
    ensures f.clusters >= 2 <==>
            exists u, w :: 0 <= u < |m.rep| && 0 <= w < |m.rep| && m.act[u] > 0 && m.act[w] > 0 && m.rep[u] != m.rep[w]
  {
    hide Generated;
    TwoElements(Positive(f));
    if a, b :| a in Positive(f) && b in Positive(f) && a != b {
      assert NodeOK(f, m, a) && NodeOK(f, m, b);
      SumSign(m.rep, m.act, a, |m.rep|);
      SumSign(m.rep, m.act, b, |m.rep|);
      var u :| 0 <= u < |m.rep| && m.rep[u] == a && m.act[u] > 0;
      var w :| 0 <= w < |m.rep| && m.rep[w] == b && m.act[w] > 0;
    }
    if u, w :| 0 <= u < |m.rep| && 0 <= w < |m.rep| && m.act[u] > 0 && m.act[w] > 0 && m.rep[u] != m.rep[w] {
      assert NodeOK(f, m, u) && NodeOK(f, m, w) && NodeOK(f, m, m.rep[u]) && NodeOK(f, m, m.rep[w]);
      SumSign(m.rep, m.act, m.rep[u], |m.rep|);
      SumSign(m.rep, m.act, m.rep[w], |m.rep|);
      assert m.rep[u] in Positive(f) && m.rep[w] in Positive(f);
    }
  }

  class UnionFind {
    var f: Forest
    var redo: Log
    ghost var m: Meaning
    // The state at the last commit.
    ghost var savedF: Forest
    ghost var savedM: Meaning

    ghost predicate Valid() reads this {
      && ForestOK(f, m) && ForestOK(savedF, savedM)
      && |savedF.parent| == |f.parent|
      && LogOK(|f.parent|, redo) && Undone(f, redo) == savedF
    }

    constructor (n: nat)
      ensures Valid() && m.rep == seq(n, i => i) && m.act == seq(n, i => 0) && m.edges == {} && savedM == m
    {
      f := Forest(seq(n, i => -1), seq(n, i => 0), 0);
      redo := [];
      m := Meaning(seq(n, i => i), seq(n, i => 1), seq(n, i => 0), {});
      savedF, savedM := f, m;
      new;
      Singletons(n);
    }

    // Root: each step at least doubles the weight, so it takes at most log2 of the
    // class size steps.
    method Root(p0: nat) returns (p: nat, ghost steps: nat)
      requires TreesOK(f, m) && p0 < |f.parent|
      ensures p == m.rep[p0] && p < |f.parent| && f.parent[p] < 0
      ensures Pow2(steps) <= |Class(m.rep, p)|
    {
      hide Class, Sum;
      p, steps := p0, 0;
      while f.parent[p] >= 0
        invariant p < |f.parent| && m.rep[p] == m.rep[p0] && m.size[p] >= Pow2(steps) * m.size[p0]
        decreases |f.parent| - m.size[p]
      {
        assert NodeOK(f, m, p) && NodeOK(f, m, f.parent[p]);
        DoubleStep(Pow2(steps), m.size[p0], m.size[p], m.size[f.parent[p]]);
        p, steps := f.parent[p], steps + 1;
      }
      assert NodeOK(f, m, p) && NodeOK(f, m, p0);
      DoubleStep(Pow2(steps), m.size[p0], m.size[p], 2 * m.size[p]);
    }

    method NumActiveClusters() returns (k: int)
      requires Valid()
      ensures k == f.clusters == |Positive(f)|
    {
      k := f.clusters;
    }

    method UpdateParent(p: nat, v: int)
      requires |f.nActive| == |f.parent| == |savedF.parent| && p < |f.parent|
      requires LogOK(|f.parent|, redo) && Undone(f, redo) == savedF
      modifies this`f, this`redo
      ensures f == old(f).(parent := old(f.parent)[p := v])
      ensures LogOK(|f.parent|, redo) && Undone(f, redo) == savedF
    {
      if f.parent[p] == v {
        assert f.parent[p := v] == f.parent;
        return;
      }
      ghost var was := f;
      redo := redo + [(p * 2, f.parent[p])];
      f := f.(parent := f.parent[p := v]);
      assert f.parent[p := was.parent[p]] == was.parent;
      UndoneStep(was, f, old(redo), p * 2, was.parent[p]);
    }

    method UpdateNActive(p: nat, v: int)
      requires |f.nActive| == |f.parent| == |savedF.parent| && p < |f.parent|
      requires LogOK(|f.parent|, redo) && Undone(f, redo) == savedF
      modifies this`f, this`redo
      ensures f == old(f).(nActive := old(f.nActive)[p := v])
      ensures LogOK(|f.parent|, redo) && Undone(f, redo) == savedF
    {
      if f.nActive[p] == v {
        assert f.nActive[p := v] == f.nActive;
        return;
      }
      ghost var was := f;
      redo := redo + [(p * 2 + 1, f.nActive[p])];
      f := f.(nActive := f.nActive[p := v]);
      assert f.nActive[p := was.nActive[p]] == was.nActive;
      UndoneStep(was, f, old(redo), p * 2 + 1, was.nActive[p]);
    }

    method UpdateNActiveClusters(v: int)
      requires |f.nActive| == |f.parent| == |savedF.parent|
      requires LogOK(|f.parent|, redo) && Undone(f, redo) == savedF
      modifies this`f, this`redo
      ensures f == old(f).(clusters := v)
      ensures LogOK(|f.parent|, redo) && Undone(f, redo) == savedF
    {
      if f.clusters == v {
        return;
      }
      ghost var was := f;
      redo := redo + [(-1, f.clusters)];
      f := f.(clusters := v);
      UndoneStep(was, f, old(redo), -1, was.clusters);
    }

    method Merge(u: nat, w: nat)
      requires Valid() && u < |m.rep| && w < |m.rep|
      modifies this`f, this`redo, this`m
      ensures Valid()
      ensures |m.rep| == |old(m.rep)| && m.act == old(m.act) && m.edges == old(m.edges) + {(u, w)}
    {
      hide Undone, Generated, NodeOK, LogOK, TreesOK, Positive;
      TreesSizes(f, m);
      var p, q;
      ghost var steps;
      p, steps := Root(u);
      q, steps := Root(w);
      if p == q {
        MergeNothing(m.rep, m.edges, u, w);
        TreesSame(f, m, m.edges + {(u, w)});
        m := m.(edges := m.edges + {(u, w)});
        return;
      }
      if f.parent[p] > f.parent[q] {
        p, q := q, p;
      }
      MergeTrees(f, m, p, q, u, w);
      MergePositive(f, p, q);
      MergeGenerated(m.rep, m.edges, u, w, p, q);
      ghost var f0, m1 := f, MergedMeaning(m, p, q, u, w);
      UpdateParent(p, f.parent[p] + f.parent[q]);
      UpdateParent(q, p);
      var nac := f.clusters;
      nac := nac - (if f.nActive[p] > 0 then 1 else 0);
      nac := nac - (if f.nActive[q] > 0 then 1 else 0);
      nac := nac + (if f.nActive[p] + f.nActive[q] > 0 then 1 else 0);
      UpdateNActive(p, f.nActive[p] + f.nActive[q]);
      UpdateNActive(q, 0);
      UpdateNActiveClusters(nac);
      m := m1;
    }

    method AddActiveCount(p: nat, d: int)
      requires Valid() && p < |m.rep|
      modifies this`f, this`redo, this`m
      ensures Valid() && m == old(m).(act := old(m.act)[p := old(m.act)[p] + d])
    {
      hide Undone, Generated, NodeOK, LogOK;
      var r;
      ghost var steps;
      r, steps := Root(p);
      AddOK(f, m, p, d);
      var nac := f.clusters - (if f.nActive[r] > 0 then 1 else 0);
      UpdateNActive(r, f.nActive[r] + d);
      nac := nac + (if f.nActive[r] > 0 then 1 else 0);
      UpdateNActiveClusters(nac);
      m := m.(act := m.act[p := m.act[p] + d]);
    }

    method Commit()
      requires Valid()
      modifies this`redo, this`savedF, this`savedM
      ensures Valid() && savedF == f && savedM == m
    {
      redo := [];
      savedF, savedM := f, m;
    }

    // Everything is as it was at the last commit.
    method Redo()
      requires Valid()
      modifies this`f, this`redo, this`m
      ensures Valid() && f == savedF && m == savedM && redo == []
    {
      assert |f.nActive| == |f.parent|;
      hide ForestOK;
      while redo != []
        invariant |f.nActive| == |f.parent| == |savedF.parent| && LogOK(|f.parent|, redo) && Undone(f, redo) == savedF
        decreases |redo|
      {
        var x := redo[|redo| - 1];
        assert x in redo;
        redo := redo[..|redo| - 1];
        f := Restored(f, x.0, x.1);
      }
      m := savedM;
    }
  }

  lemma TreesSame(f: Forest, m: Meaning, edges: set<(nat, nat)>)
    requires TreesOK(f, m)
    ensures TreesOK(f, m.(edges := edges))
  {
    forall i | 0 <= i < |f.parent| ensures NodeOK(f, m.(edges := edges), i) {
      assert NodeOK(f, m, i);
    }
  }

  lemma DoubleStep(k: nat, s0: nat, s: nat, t: nat)
    requires s >= k * s0 && t >= 2 * s
    ensures t >= 2 * k * s0
    ensures s0 >= 1 ==> s >= k
  {
    assert s0 >= 1 ==> k * s0 >= k;
  }

  lemma Singletons(n: nat)
    ensures ForestOK(Forest(seq(n, i => -1), seq(n, i => 0), 0),
                     Meaning(seq(n, i => i), seq(n, i => 1), seq(n, i => 0), {}))
  {
    var f, m := Forest(seq(n, i => -1), seq(n, i => 0), 0), Meaning(seq(n, i => i), seq(n, i => 1), seq(n, i => 0), {});
    forall i | 0 <= i < n ensures NodeOK(f, m, i) {
      assert Class(m.rep, i) == {i};
      ZeroSum(m.rep, m.act, i, n);
    }
    assert Positive(f) == {};
    forall u, w | 0 <= u < n && 0 <= w < n ensures m.rep[u] == m.rep[w] <==> Joined({}, u, w) {
      assert Respects({}, {u});
    }
  }

  lemma {:induction false} ZeroSum(rep: seq<nat>, act: seq<int>, r: nat, k: nat)
    requires |rep| == |act| && k <= |rep| && forall i :: 0 <= i < |act| ==> act[i] == 0
    ensures Sum(rep, act, r, k) == 0
  {
    if k > 0 {
      ZeroSum(rep, act, r, k - 1);
    }
  }
}
