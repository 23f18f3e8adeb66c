// What run_check of constraints/GraphDivision.cc works out, what it may enqueue and
// return, and when its rules have nothing to object to.
module DivisionViews {
  import opened Logic
  import opened Divisions
  import opened DivisionRegions
  import opened DivisionSizes
  import UF = UnionFinds

  // What run_check has worked out: edge_state_, the size bounds, and the regions.
  datatype View = View(st: seq<EdgeState>, bounds: seq<SizeBounds>, dec: Partition, pot: Partition)

  datatype Outcome = Fine | Conflict(reason: seq<Lit>)

  // No border literal is the negation of another one.
  ghost predicate Unmixed(d: Division) {
    forall e, f :: 0 <= e < |d.borders| && 0 <= f < |d.borders| ==> d.borders[e] != Neg(d.borders[f])
  }

  ghost predicate AbsentOK(d: Division, bounds: seq<SizeBounds>)
    requires |bounds| == |d.sizes|
  {
    forall u :: 0 <= u < |d.sizes| && Absent(d.sizes[u]) ==> bounds[u] == SizeBounds(-1, -1, [], [])
  }

  ghost predicate BoundOK(d: Division, t: seq<Lit>, bounds: seq<SizeBounds>, u: nat)
    requires |bounds| == |d.sizes| && u < |bounds|
  {
    !Absent(d.sizes[u]) ==> BoundsFit(d.sizes[u], t, bounds[u])
  }

  ghost predicate BoundsOK(d: Division, t: seq<Lit>, bounds: seq<SizeBounds>)
    requires |bounds| == |d.sizes|
  {
    forall u :: 0 <= u < |d.sizes| ==> BoundOK(d, t, bounds, u)
  }

  ghost predicate AllOrdered(d: Division, t: seq<Lit>) {
    forall u :: 0 <= u < |d.sizes| && !Absent(d.sizes[u]) ==> Ordered(d.sizes[u], t)
  }

  // v is what run_check works out when t is true.
  ghost predicate Judged(d: Division, adj: Adjacency, v: View, t: seq<Lit>) {
    && DivisionOK(d) && AdjOK(d, adj)
    && StatesOK(d, v.st, t)
    && |v.bounds| == |d.sizes| && AbsentOK(d, v.bounds) && BoundsOK(d, t, v.bounds) && AllOrdered(d, t)
    && PartitionOK(|d.sizes|, Pairs(d, v.st, false), v.dec) && PartitionOK(|d.sizes|, Pairs(d, v.st, true), v.pot)
  }

  ghost predicate Prepared(d: Division, adj: Adjacency, v: View, t: seq<Lit>) {
    Judged(d, adj, v, t) && Unmixed(d) && NoClash(t)
  }

  lemma PreparedFacts(d: Division, adj: Adjacency, v: View, t: seq<Lit>)
    requires Prepared(d, adj, v, t)
    ensures DivisionOK(d) && AdjOK(d, adj) && StatesOK(d, v.st, t) && |d.borders| == |d.edges| == |v.st|
    ensures |v.bounds| == |d.sizes| == |adj| && |v.dec.ids| == |d.sizes| == |v.pot.ids|
    ensures PartitionOK(|d.sizes|, Pairs(d, v.st, false), v.dec) && PartitionOK(|d.sizes|, Pairs(d, v.st, true), v.pot)
    ensures Unmixed(d) && NoClash(t)
  {
    hide AbsentOK, BoundsOK, AllOrdered, Pairs, UF.Joined, Unmixed, NoClash;
  }

  lemma PreparedAt(d: Division, adj: Adjacency, v: View, t: seq<Lit>, u: nat)
    requires Prepared(d, adj, v, t) && u < |d.sizes| && !Absent(d.sizes[u])
    ensures |v.bounds| == |d.sizes| && BoundsFit(d.sizes[u], t, v.bounds[u]) && Ordered(d.sizes[u], t)
    ensures EncodingOK(d.sizes[u], |d.sizes|) && |d.sizes[u].values| == |d.sizes[u].lits| + 1
    ensures v.bounds[u].lb <= v.bounds[u].ub && v.bounds[u].lb <= |d.sizes|
  {
    hide AdjOK, StatesOK, PartitionOK, Pairs, Unmixed, Ordered, BoundsFit, NoClash;
    assert BoundOK(d, t, v.bounds, u);
    assert EncodingOK(d.sizes[u], |d.sizes|);
    BoundsMeet(d.sizes[u], |d.sizes|, t, v.bounds[u]);
    LeastPossible(d.sizes[u], |d.sizes|, t, v.bounds[u], 0);
  }

  ghost predicate PropsOK(d: Division, props: map<Lit, seq<Lit>>)
    requires |d.edges| == |d.borders|
  {
    forall p :: p in props ==> Implied(d, props[p], p)
  }

  // The reason of p was true before the run.
  ghost predicate StoredFor(t: seq<Lit>, props: map<Lit, seq<Lit>>, p: Lit) {
    p in props && forall l :: l in props[p] ==> l in t
  }

  // From trail t literals were enqueued, each with a reason made of t that implies
  // it; the reasons of the literals of t were left alone.
  ghost predicate Grew(d: Division, t: seq<Lit>, props: map<Lit, seq<Lit>>, now: seq<Lit>,
                       nowProps: map<Lit, seq<Lit>>)
  {
    && |d.edges| == |d.borders| && t <= now && NoClash(now) && PropsOK(d, nowProps)
    && (forall p :: p in now && p !in t ==> StoredFor(t, nowProps, p) && Watches(d, p))
    && (forall i :: |t| <= i < |now| ==> now[i] !in t)
    && (forall p :: p in t ==> (p in nowProps <==> p in props) && (p in props ==> nowProps[p] == props[p]))
  }

  lemma GrewSelf(d: Division, t: seq<Lit>, props: map<Lit, seq<Lit>>)
    requires |d.edges| == |d.borders| && NoClash(t) && PropsOK(d, props)
    ensures Grew(d, t, props, t, props) && BordersOnly(d, t, t)
  {
  }

  lemma GrewValid(d: Division, t: seq<Lit>, props: map<Lit, seq<Lit>>, now: seq<Lit>, nowProps: map<Lit, seq<Lit>>)
    requires Grew(d, t, props, now, nowProps)
    ensures NoClash(now) && |d.edges| == |d.borders| && PropsOK(d, nowProps)
  {
    hide PropsOK, NoClash;
  }

  lemma GrewPrefix(d: Division, t: seq<Lit>, props: map<Lit, seq<Lit>>, now: seq<Lit>, nowProps: map<Lit, seq<Lit>>)
    requires Grew(d, t, props, now, nowProps)
    ensures forall l :: l in t ==> l in now
  {
    hide PropsOK, NoClash, StoredFor;
  }

  lemma ForceGrew(d: Division, t: seq<Lit>, props: map<Lit, seq<Lit>>, now: seq<Lit>, nowProps: map<Lit, seq<Lit>>,
                  p: Lit, reason: seq<Lit>)
    requires Grew(d, t, props, now, nowProps) && |d.edges| == |d.borders| && Implied(d, reason, p)
    requires (forall l :: l in reason ==> l in t) && p !in t && Neg(p) !in now && Watches(d, p)
    ensures p in now ==> Grew(d, t, props, now, nowProps[p := reason])
    ensures p !in now ==> Grew(d, t, props, now + [p], nowProps[p := reason])
  {
    hide Implied, Watches;
    var more := nowProps[p := reason];
    assert PropsOK(d, more);
    forall q | (q in now || q == p) && q !in t ensures StoredFor(t, more, q) {
      if q != p {
        assert StoredFor(t, nowProps, q);
      }
    }
    if p !in now {
      NoClashPush(now, p);
    }
  }

  lemma NoClashPush(now: seq<Lit>, p: Lit)
    requires NoClash(now) && Neg(p) !in now
    ensures NoClash(now + [p])
  {
    assert Neg(Neg(p)) == p && Neg(p) != p;
    forall l | l in now + [p] ensures Neg(l) !in now + [p] {
      if l != p {
        assert l in now && Neg(l) !in now;
        assert Neg(l) == p ==> l == Neg(p);
      }
    }
  }

  // Rule 1 comes first: what has been enqueued are negated borders.
  ghost predicate BordersOnly(d: Division, t: seq<Lit>, now: seq<Lit>) {
    forall l :: l in now ==> l in t || exists e :: 0 <= e < |d.borders| && l == Neg(d.borders[e])
  }

  lemma BorderFree(d: Division, st: seq<EdgeState>, t: seq<Lit>, now: seq<Lit>, e: nat)
    requires Unmixed(d) && StatesOK(d, st, t) && BordersOnly(d, t, now) && e < |st| && st[e] == Undecided
    ensures Neg(d.borders[e]) !in t && Neg(Neg(d.borders[e])) !in now
  {
    assert Neg(Neg(d.borders[e])) == d.borders[e];
  }

  lemma BordersMore(d: Division, t: seq<Lit>, now: seq<Lit>, e: nat)
    requires BordersOnly(d, t, now) && e < |d.borders|
    ensures BordersOnly(d, t, now + [Neg(d.borders[e])])
  {
    forall l | l in now + [Neg(d.borders[e])]
      ensures l in t || exists e :: 0 <= e < |d.borders| && l == Neg(d.borders[e])
    {
      if l !in now {
        assert l == Neg(d.borders[e]);
      }
    }
  }

  // The reason is made of true literals, no division meets it, and it is news.
  ghost predicate ConflictOK(d: Division, t: seq<Lit>, r: seq<Lit>) {
    |d.edges| == |d.borders| && Refuted(d, r) && (forall l :: l in r ==> l in t) && Forbids(d, t, r)
  }

  lemma ConflictFails(d: Division, t: seq<Lit>, r: seq<Lit>)
    requires ConflictOK(d, t, r)
    ensures forall a: Assignment :: AllHold(a, t) ==> !Divides(d, a)
  {
    hide Divides, Forbids;
    forall a: Assignment | AllHold(a, t) ensures !Divides(d, a) {
      assert AllHold(a, r);
    }
  }

  // No border among the first k edges of u within a decided region.
  ghost predicate NoBorder(adj: Adjacency, ids: seq<int>, st: seq<EdgeState>, u: nat, k: nat) {
    u < |adj| && forall x :: 0 <= x < k && x < |adj[u]| ==> NoBorderAt(ids, st, u, adj[u][x])
  }

  ghost predicate NoBorderAt(ids: seq<int>, st: seq<EdgeState>, u: nat, x: (nat, nat)) {
    u < |ids| && x.0 < |ids| && x.1 < |st| && (ids[u] == ids[x.0] ==> st[x.1] != Disconnected)
  }

  ghost predicate LargeEnough(d: Division, bounds: seq<SizeBounds>, region: seq<nat>, size: nat) {
    forall p :: p in region ==> LargeAt(d, bounds, p, size)
  }

  ghost predicate LargeAt(d: Division, bounds: seq<SizeBounds>, p: nat, size: nat) {
    p < |d.sizes| && p < |bounds| && (!Absent(d.sizes[p]) ==> bounds[p].ub >= size)
  }

  ghost predicate SmallEnough(d: Division, bounds: seq<SizeBounds>, region: seq<nat>, size: nat) {
    forall p :: p in region ==> SmallAt(d, bounds, p, size)
  }

  ghost predicate SmallAt(d: Division, bounds: seq<SizeBounds>, p: nat, size: nat) {
    p < |d.sizes| && p < |bounds| && (!Absent(d.sizes[p]) ==> bounds[p].lb <= size)
  }

  // The cells chosen are those of the vertices taken.
  ghost predicate Chosen(bounds: seq<SizeBounds>, chain: seq<nat>, chosen: seq<Cell>) {
    && |chosen| == |chain|
    && forall k :: 0 <= k < |chain| ==> ChosenAt(bounds, chain[k], chosen[k])
  }

  ghost predicate ChosenAt(bounds: seq<SizeBounds>, p: nat, c: Cell) {
    p < |bounds| && c == Cell(p, bounds[p].lb, bounds[p].ub, bounds[p].lbWhy + bounds[p].ubWhy)
  }

  ghost predicate CellsOK(d: Division, t: seq<Lit>, x: set<nat>, cells: seq<Cell>) {
    && (forall k :: 0 <= k < |cells| ==> CellOK(d, x, cells[k]))
    && forall l :: l in CellLits(cells) ==> l in t
  }

  lemma ValidSizes(d: Division, adj: Adjacency, st: seq<EdgeState>, bounds: seq<SizeBounds>)
    requires DivisionOK(d) && AdjOK(d, adj) && |st| == |d.edges|
    ensures |adj| == |d.sizes| && |d.borders| == |d.edges|
  {
    SizesOf(d, adj);
  }

  lemma PreparedNow(d: Division, adj: Adjacency, v: View, t: seq<Lit>)
    requires DivisionOK(d) && AdjOK(d, adj) && Unmixed(d) && NoClash(t) && StatesOK(d, v.st, t)
    requires |v.bounds| == |d.sizes| && AbsentOK(d, v.bounds) && BoundsOK(d, t, v.bounds) && AllOrdered(d, t)
    requires PartitionOK(|d.sizes|, Pairs(d, v.st, false), v.dec)
    requires PartitionOK(|d.sizes|, Pairs(d, v.st, true), v.pot)
    ensures Prepared(d, adj, v, t)
  {
  }

  // Every edge and every size is decided.
  ghost predicate Total(d: Division, t: seq<Lit>) {
    && (forall e :: 0 <= e < |d.borders| ==> Settled(t, d.borders[e]))
    && (forall u, i :: 0 <= u < |d.sizes| && 0 <= i < |d.sizes[u].lits| ==> Settled(t, d.sizes[u].lits[i]))
  }

  // With everything decided, both kinds of regions are the regions of a.
  lemma TotalOpen(d: Division, st: seq<EdgeState>, t: seq<Lit>, a: Assignment, potential: bool)
    requires StatesOK(d, st, t) && (forall e :: 0 <= e < |d.borders| ==> Settled(t, d.borders[e])) && AllHold(a, t)
    ensures |st| == |d.edges| == |d.borders| && Pairs(d, st, potential) == Open(d, a)
    ensures forall e :: 0 <= e < |st| && Holds(a, d.borders[e]) ==> st[e] == Disconnected
  {
    forall e | 0 <= e < |st| ensures Counts(st[e], potential) <==> !Holds(a, d.borders[e]) {
      assert Settled(t, d.borders[e]);
      NegHolds(a, d.borders[e]);
    }
    forall e | 0 <= e < |st| && Holds(a, d.borders[e]) ensures st[e] == Disconnected {
      assert Settled(t, d.borders[e]);
      NegHolds(a, d.borders[e]);
    }
  }

  // If no rule objects to a total trail, the division is valid.
  lemma FineDivides(d: Division, adj: Adjacency, v: View, t: seq<Lit>)
    requires Prepared(d, adj, v, t)
    requires forall u :: 0 <= u < |adj| ==> NoBorder(adj, v.dec.ids, v.st, u, |adj[u]|)
    requires forall r :: 0 <= r < |v.dec.regions| ==> LargeEnough(d, v.bounds, v.dec.regions[r], |v.dec.regions[r]|)
    requires forall r :: 0 <= r < |v.pot.regions| ==> SmallEnough(d, v.bounds, v.pot.regions[r], |v.pot.regions[r]|)
    ensures Total(d, t) ==> |d.edges| == |d.borders| && forall a: Assignment :: AllHold(a, t) ==> Divides(d, a)
  {
    hide Prepared, NoBorder, LargeEnough, SmallEnough, Apart, SizeFits, AllHold;
    PreparedFacts(d, adj, v, t);
    if Total(d, t) {
      forall a: Assignment | AllHold(a, t) ensures Divides(d, a) {
        forall e | 0 <= e < |d.edges| && Holds(a, d.borders[e]) ensures Apart(d, a, e) {
          FineApart(d, adj, v, t, a, e);
        }
        forall u | 0 <= u < |d.sizes| && !Absent(d.sizes[u]) ensures SizeFits(d, a, u) {
          FineSize(d, adj, v, t, a, u);
        }
      }
    }
  }

  lemma FineApart(d: Division, adj: Adjacency, v: View, t: seq<Lit>, a: Assignment, e: nat)
    requires Prepared(d, adj, v, t) && Total(d, t) && AllHold(a, t) && e < |d.edges| == |d.borders|
    requires forall u :: 0 <= u < |adj| ==> NoBorder(adj, v.dec.ids, v.st, u, |adj[u]|)
    requires Holds(a, d.borders[e])
    ensures Apart(d, a, e)
  {
    hide Prepared, PartitionOK, StatesOK, AdjOK, AllHold, UF.Joined, Open, Pairs;
    PreparedFacts(d, adj, v, t);
    TotalOpen(d, v.st, t, a, false);
    var (u, w) := d.edges[e];
    AdjEdge(d, adj, e);
    assert NoBorder(adj, v.dec.ids, v.st, u, |adj[u]|);
    var x :| 0 <= x < |adj[u]| && adj[u][x] == (w, e);
    assert NoBorderAt(v.dec.ids, v.st, u, adj[u][x]);
    JoinedIds(|d.sizes|, Pairs(d, v.st, false), v.dec, u, w);
  }

  lemma AdjEdge(d: Division, adj: Adjacency, e: nat)
    requires DivisionOK(d) && AdjOK(d, adj) && e < |d.edges|
    ensures var (u, w) := d.edges[e]; u < |adj| && w < |d.sizes| && (w, e) in adj[u]
  {
    var (u, w) := d.edges[e];
    assert Between(d, e, u, w);
  }

  lemma FineSize(d: Division, adj: Adjacency, v: View, t: seq<Lit>, a: Assignment, u: nat)
    requires Prepared(d, adj, v, t) && Total(d, t) && AllHold(a, t) && u < |d.sizes| && !Absent(d.sizes[u])
    requires forall r :: 0 <= r < |v.dec.regions| ==> LargeEnough(d, v.bounds, v.dec.regions[r], |v.dec.regions[r]|)
    requires forall r :: 0 <= r < |v.pot.regions| ==> SmallEnough(d, v.bounds, v.pot.regions[r], |v.pot.regions[r]|)
    ensures |d.edges| == |d.borders| && SizeFits(d, a, u)
  {
    hide Prepared, PartitionOK, StatesOK, AdjOK, AllHold, UF.Joined, Open, Pairs, EncodingOK, BoundsFit, Ordered,
         HasSize, RegionOf;
    var n := |d.sizes|;
    PreparedFacts(d, adj, v, t);
    PreparedAt(d, adj, v, t, u);
    TotalOpen(d, v.st, t, a, false);
    TotalOpen(d, v.st, t, a, true);
    TotalSize(d.sizes[u], n, t, v.bounds[u], a);
    RegionSize(n, Pairs(d, v.st, false), v.dec, u);
    RegionSize(n, Pairs(d, v.st, true), v.pot, u);
    InOwnRegion(n, Pairs(d, v.st, false), v.dec, u);
    InOwnRegion(n, Pairs(d, v.st, true), v.pot, u);
    var r, q := v.dec.ids[u], v.pot.ids[u];
    assert LargeEnough(d, v.bounds, v.dec.regions[r], |v.dec.regions[r]|);
    assert SmallEnough(d, v.bounds, v.pot.regions[q], |v.pot.regions[q]|);
    assert LargeAt(d, v.bounds, u, |v.dec.regions[r]|);
    assert SmallAt(d, v.bounds, u, |v.pot.regions[q]|);
  }

  ghost predicate KeyLe(bounds: seq<SizeBounds>, p: nat, q: nat)
    requires p < |bounds| && q < |bounds|
  {
    || bounds[p].ub < bounds[q].ub
    || (bounds[p].ub == bounds[q].ub
        && (bounds[p].lb > bounds[q].lb || (bounds[p].lb == bounds[q].lb && p <= q)))
  }

  // The upper bound of the last vertex taken.
  ghost function Reached(bounds: seq<SizeBounds>, chain: seq<nat>, k: nat): int {
    if 0 < k <= |chain| && chain[k - 1] < |bounds| then bounds[chain[k - 1]].ub else 0
  }

  ghost predicate Picked(bounds: seq<SizeBounds>, region: seq<nat>, chain: seq<nat>, k: nat)
    requires k < |chain|
  {
    && chain[k] in region && chain[k] < |bounds|
    && Reached(bounds, chain, k) < bounds[chain[k]].lb <= bounds[chain[k]].ub
    && forall x :: x in region && x < |bounds| && bounds[x].lb > Reached(bounds, chain, k) ==>
       KeyLe(bounds, chain[k], x)
  }

  // The intervals rule 3a picks: always the first one that starts above the last.
  ghost predicate Swept(bounds: seq<SizeBounds>, region: seq<nat>, chain: seq<nat>) {
    && (forall k :: 0 <= k < |chain| ==> Picked(bounds, region, chain, k))
    && (forall x :: x in region && x < |bounds| ==> bounds[x].lb <= Reached(bounds, chain, |chain|))
  }

  ghost function SumLb(bounds: seq<SizeBounds>, chain: seq<nat>): int {
    if chain == [] then 0
    else
      SumLb(bounds, chain[..|chain| - 1])
      + if chain[|chain| - 1] < |bounds| then bounds[chain[|chain| - 1]].lb else 0
  }

  ghost predicate Roomy(bounds: seq<SizeBounds>, region: seq<nat>) {
    exists chain :: Swept(bounds, region, chain) && SumLb(bounds, chain) <= |region|
  }

  // No lower bound within the region exceeds an upper bound.
  ghost predicate EqualSizes(d: Division, bounds: seq<SizeBounds>, region: seq<nat>) {
    forall p, q :: p in region && q in region && Sized(d, bounds, p) && Sized(d, bounds, q) ==>
      bounds[p].lb <= bounds[q].ub
  }

  ghost predicate Sized(d: Division, bounds: seq<SizeBounds>, p: nat) {
    p < |d.sizes| && p < |bounds| && !Absent(d.sizes[p])
  }

  // No rule objects.
  ghost predicate RulesFine(d: Division, adj: Adjacency, v: View) {
    && (forall u :: 0 <= u < |adj| ==> NoBorder(adj, v.dec.ids, v.st, u, |adj[u]|))
    && (forall r :: 0 <= r < |v.dec.regions| ==> LargeEnough(d, v.bounds, v.dec.regions[r], |v.dec.regions[r]|))
    && (forall r :: 0 <= r < |v.dec.regions| ==> EqualSizes(d, v.bounds, v.dec.regions[r]))
    && (forall r :: 0 <= r < |v.pot.regions| ==> SmallEnough(d, v.bounds, v.pot.regions[r], |v.pot.regions[r]|))
    && (forall r :: 0 <= r < |v.pot.regions| ==> Roomy(v.bounds, v.pot.regions[r]))
  }

  // run_check has nothing to object to when ls is true.
  ghost predicate DivisionQuiet(d: Division, ls: seq<Lit>) {
    exists adj, v :: Judged(d, adj, v, ls) && RulesFine(d, adj, v)
  }

  // The literals the constraint watches.
  ghost predicate Watches(d: Division, l: Lit) {
    || (exists e :: 0 <= e < |d.borders| && l.v == d.borders[e].v)
    || (exists u, i :: 0 <= u < |d.sizes| && 0 <= i < |d.sizes[u].lits| && l.v == d.sizes[u].lits[i].v)
  }

  ghost predicate WatchedIn(d: Division, ls: seq<Lit>, t: seq<Lit>) {
    forall l :: l in ls && Watches(d, l) ==> l in t
  }

  // A state in which r is true, part of the present one, does not pass the rules.
  ghost predicate Forbids(d: Division, t: seq<Lit>, r: seq<Lit>) {
    forall ls :: DivisionQuiet(d, ls) && WatchedIn(d, ls, t) ==> exists l :: l in r && l !in ls
  }

  ghost predicate AllWatched(d: Division, r: seq<Lit>) {
    forall l :: l in r ==> Watches(d, l)
  }

  lemma FineQuiet(d: Division, adj: Adjacency, v: View, t: seq<Lit>)
    requires Prepared(d, adj, v, t) && RulesFine(d, adj, v)
    ensures DivisionQuiet(d, t)
  {
    hide Judged, RulesFine;
  }
}
