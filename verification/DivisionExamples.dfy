// Rule 3a of run_check in constraints/GraphDivision.cc at work on five vertices.
module DivisionExamples {
  import opened Logic
  import opened Divisions
  import opened DivisionRegions
  import opened DivisionSizes
  import opened DivisionViews
  import opened DivisionNews
  import opened DivisionForced
  import UF = UnionFinds
  import OE = OrderEncodings

  function Plain(v: Var): Lit {
    Lit(v, false)
  }

  // The path 0 - 1 - 2 and two vertices on their own.  The sizes of the path are 1,
  // 3 or 4, and 2, 3 or 5; literal 4 says that the last one is 5.
  function Five(): Division {
    Division([Encoding([], [1]), Encoding([Plain(2)], [3, 4]), Encoding([Plain(3), Plain(4)], [2, 3, 5]),
              Encoding([], []), Encoding([], [])],
             [(0, 1), (1, 2)], [Plain(0), Plain(1)])
  }

  function FiveAdj(): Adjacency {
    [[(1, 0)], [(0, 0), (2, 1)], [(1, 1)], [], []]
  }

  // The trails before and after the largest size of vertex 2 is ruled out.
  function Trail5(ruled: bool): seq<Lit> {
    if ruled then [Neg(Plain(4))] else []
  }

  function Bounds5(ruled: bool): (bs: seq<SizeBounds>)
    ensures |bs| == 5
  {
    var none := SizeBounds(-1, -1, [], []);
    [SizeBounds(1, 1, [], []), SizeBounds(3, 4, [], []),
     if ruled then SizeBounds(2, 3, [], [Neg(Plain(4))]) else SizeBounds(2, 5, [], []), none, none]
  }

  function View5(ruled: bool): View {
    View([Undecided, Undecided], Bounds5(ruled), Partition([0, 1, 2, 3, 4], [[0], [1], [2], [3], [4]]),
         Partition([0, 0, 0, 1, 2], [[0, 1, 2], [3], [4]]))
  }

  // Rule 3a is not monotone: it takes intervals in the order of their upper bounds,
  // so a smaller upper bound can change which ones it takes, and what it objected to
  // it may accept once more literals are true.  With nothing true it takes the sizes
  // 1 and 3 to 4 and finds too little room; with 5 ruled out it takes 1 and 2 to 3.
  // This is why objections are compared with parts of the present state only.
  lemma TighterFits()
    ensures DivisionOK(Five()) && Unmixed(Five()) && NoClash([Neg(Plain(4))])
    ensures exists adj, v :: Judged(Five(), adj, v, [])
    ensures !DivisionQuiet(Five(), []) && DivisionQuiet(Five(), [Neg(Plain(4))])
  {
    hide Judged, RulesFine;
    FiveOK();
    FiveJudged(false);
    FiveJudged(true);
    FiveFine();
    forall adj, v | Judged(Five(), adj, v, []) ensures !RulesFine(Five(), adj, v) {
      FiveRefused(adj, v);
    }
  }

  lemma FiveOK()
    ensures DivisionOK(Five()) && Unmixed(Five()) && NoClash([Neg(Plain(4))])
    ensures AdjOK(Five(), FiveAdj())
  {
    forall u: nat, w: nat, e: nat | u < 5 && Between(Five(), e, u, w) ensures (w, e) in FiveAdj()[u] {
      assert e == 0 || e == 1;
    }
  }

  lemma FiveJudged(ruled: bool)
    ensures Judged(Five(), FiveAdj(), View5(ruled), Trail5(ruled))
  {
    hide PartitionOK, DivisionOK, AdjOK;
    FiveOK();
    FiveParts(ruled);
    forall u | 0 <= u < 5 ensures BoundOK(Five(), Trail5(ruled), Bounds5(ruled), u) {
      FiveBound(ruled, u);
    }
  }

  lemma FiveBound(ruled: bool, u: nat)
    requires u < 5
    ensures BoundOK(Five(), Trail5(ruled), Bounds5(ruled), u)
  {
    var e, t, b := Five().sizes[u], Trail5(ruled), Bounds5(ruled)[u];
    if u == 0 {
      assert LowAt(e, t, b, 0) && HighAt(e, t, b, 0);
    } else if u == 1 {
      assert LowAt(e, t, b, 0) && HighAt(e, t, b, 1);
    } else if u == 2 {
      assert LowAt(e, t, b, 0) && HighAt(e, t, b, if ruled then 1 else 2);
    }
  }

  lemma FivePairs(ruled: bool)
    ensures |View5(ruled).st| == |Five().edges|
    ensures Pairs(Five(), View5(ruled).st, false) == {}
    ensures Pairs(Five(), View5(ruled).st, true) == {(0, 1), (1, 2)}
  {
    var d, st := Five(), View5(ruled).st;
    assert d.edges[0] == (0, 1) && d.edges[1] == (1, 2);
    assert Counts(st[0], true) && Counts(st[1], true);
  }

  lemma PathJoined(u: nat, w: nat)
    requires u < 5 && w < 5
    ensures UF.Joined({}, u, w) <==> u == w
    ensures UF.Joined({(0, 1), (1, 2)}, u, w) <==> u == w || (u < 3 && w < 3)
  {
    var pairs: set<(nat, nat)> := {(0, 1), (1, 2)};
    assert UF.Respects({}, {u});
    if u < 3 {
      assert UF.Respects(pairs, {0, 1, 2});
      forall x: set<nat> | UF.Respects(pairs, x) && u in x ensures 0 in x && 1 in x && 2 in x {
        assert ((0, 1) in pairs) && (1, 2) in pairs;
      }
    } else {
      assert UF.Respects(pairs, {u});
    }
  }

  lemma FiveParts(ruled: bool)
    ensures |View5(ruled).st| == |Five().edges|
    ensures PartitionOK(5, Pairs(Five(), View5(ruled).st, false), View5(ruled).dec)
    ensures PartitionOK(5, Pairs(Five(), View5(ruled).st, true), View5(ruled).pot)
  {
    hide PartitionOK, Pairs;
    FivePairs(ruled);
    PartsOK({}, View5(ruled).dec);
    PartsOK({(0, 1), (1, 2)}, View5(ruled).pot);
  }

  lemma PartsOK(pairs: set<(nat, nat)>, p: Partition)
    requires p in {View5(true).dec, View5(true).pot}
    requires p == View5(true).dec ==> pairs == {}
    requires p == View5(true).pot ==> pairs == {(0, 1), (1, 2)}
    ensures PartitionOK(5, pairs, p)
  {
    hide UF.Joined, RegionOK;
    forall u: nat, w: nat | u < 5 && w < 5 ensures p.ids[u] == p.ids[w] <==> UF.Joined(pairs, u, w) {
      PathJoined(u, w);
    }
    forall r | 0 <= r < |p.regions| ensures RegionOK(5, p.ids, p.regions[r], r) {
      PartOK(p, r);
    }
  }

  lemma PartOK(p: Partition, r: nat)
    requires p in {View5(true).dec, View5(true).pot} && r < |p.regions|
    ensures |p.ids| == 5 && RegionOK(5, p.ids, p.regions[r], r)
  {
  }

  lemma FiveFine()
    ensures RulesFine(Five(), FiveAdj(), View5(true))
  {
    hide Roomy, LargeEnough, SmallEnough, EqualSizes, NoBorder;
    var v := View5(true);
    forall u | 0 <= u < 5 ensures NoBorder(FiveAdj(), v.dec.ids, v.st, u, |FiveAdj()[u]|) {
      FiveNoBorder(u);
    }
    forall r | 0 <= r < 5
      ensures LargeEnough(Five(), v.bounds, v.dec.regions[r], 1) && EqualSizes(Five(), v.bounds, v.dec.regions[r])
    {
      FiveDecided(r);
    }
    FivePotential();
    PathRoomy();
    NothingTaken(v.bounds, 3);
    NothingTaken(v.bounds, 4);
  }

  lemma FiveNoBorder(u: nat)
    requires u < 5
    ensures NoBorder(FiveAdj(), View5(true).dec.ids, View5(true).st, u, |FiveAdj()[u]|)
  {
  }

  lemma FiveDecided(r: nat)
    requires r < 5
    ensures LargeEnough(Five(), Bounds5(true), [r], 1) && EqualSizes(Five(), Bounds5(true), [r])
  {
  }

  lemma FivePotential()
    ensures SmallEnough(Five(), Bounds5(true), [0, 1, 2], 3)
    ensures SmallEnough(Five(), Bounds5(true), [3], 1) && SmallEnough(Five(), Bounds5(true), [4], 1)
  {
  }

  lemma PathRoomy()
    ensures Roomy(Bounds5(true), [0, 1, 2])
  {
    hide Swept, SumLb;
    SweptTwo(Bounds5(true), [0, 1, 2], 0, 2);
  }

  lemma NothingTaken(bounds: seq<SizeBounds>, u: nat)
    requires u < |bounds| && bounds[u].lb <= 0
    ensures Roomy(bounds, [u])
  {
    assert Swept(bounds, [u], []) && SumLb(bounds, []) == 0;
  }

  // Whatever run_check works out with nothing true, rule 3a objects.
  lemma FiveRefused(adj: Adjacency, v: View)
    requires Judged(Five(), adj, v, [])
    ensures !RulesFine(Five(), adj, v)
  {
    hide Roomy, SumLb, Swept, LargeEnough, SmallEnough, EqualSizes, NoBorder;
    FiveBounds(adj, v);
    var r := PathRegion(adj, v);
    var region := v.pot.regions[r];
    hide Judged;
    SweptTwo(v.bounds, region, 0, 1);
    NotRoomy(v.bounds, v.bounds, region, region, [0, 1]);
  }

  lemma FiveBounds(adj: Adjacency, v: View)
    requires Judged(Five(), adj, v, [])
    ensures |v.bounds| == 5 && v.bounds[0].lb == v.bounds[0].ub == 1
    ensures v.bounds[1].lb == 3 && v.bounds[1].ub == 4 && v.bounds[2].lb == 2 && v.bounds[2].ub == 5
  {
    hide PartitionOK, AdjOK, StatesOK;
    assert BoundOK(Five(), [], v.bounds, 0) && BoundOK(Five(), [], v.bounds, 1) && BoundOK(Five(), [], v.bounds, 2);
  }

  lemma PathRegion(adj: Adjacency, v: View) returns (r: nat)
    requires Judged(Five(), adj, v, [])
    ensures r < |v.pot.regions| && |v.pot.regions[r]| == 3 && forall u: nat :: u in v.pot.regions[r] <==> u < 3
  {
    hide BoundsOK, AbsentOK, AdjOK, AllOrdered, Pairs, UF.Joined;
    assert v.st == [Undecided, Undecided];
    FivePairs(false);
    r := v.pot.ids[0];
    forall u: nat | u < 5 ensures v.pot.ids[u] == r <==> u < 3 {
      PathJoined(0, u);
      JoinedIds(5, Pairs(Five(), v.st, true), v.pot, 0, u);
    }
    var region := v.pot.regions[r];
    assert RegionOK(5, v.pot.ids, region, r);
    NoDupCount(region);
    assert SetOf(region) == {0, 1, 2};
  }

  // Two intervals, p first, leave none that starts above them.
  lemma SweptTwo(bounds: seq<SizeBounds>, region: seq<nat>, p: nat, q: nat)
    requires p in region && q in region && p < |bounds| && q < |bounds|
    requires 0 < bounds[p].lb <= bounds[p].ub < bounds[q].lb <= bounds[q].ub
    requires forall x :: x in region && x < |bounds| && bounds[x].lb > 0 ==> KeyLe(bounds, p, x)
    requires forall x :: x in region && x < |bounds| && bounds[x].lb > bounds[p].ub ==> KeyLe(bounds, q, x)
    requires forall x :: x in region && x < |bounds| ==> bounds[x].lb <= bounds[q].ub
    ensures Swept(bounds, region, [p, q]) && SumLb(bounds, [p, q]) == bounds[p].lb + bounds[q].lb
  {
    var chain := [p, q];
    assert Picked(bounds, region, chain, 0) && Picked(bounds, region, chain, 1);
    assert chain[..1] == [p] && chain[..1][..0] == [];
    assert SumLb(bounds, [p]) == bounds[p].lb;
  }

  // An edge that is connected and a third vertex.  The size of vertex 0 is 1 or 3, and
  // literal 1 says that it is 3.
  function Three(): Division {
    Division([Encoding([Plain(1)], [1, 3]), Encoding([], []), Encoding([], [])], [(0, 1)], [Plain(0)])
  }

  function ThreeAdj(): (a: Adjacency)
    ensures |a| == 3
  {
    [[(1, 0)], [(0, 0)], []]
  }

  function View3(): View {
    var none := SizeBounds(-1, -1, [], []);
    var p := Partition([0, 0, 1], [[0, 1], [2]]);
    View([Connected], [SizeBounds(1, 3, [], []), none, none], p, p)
  }

  // The region of vertex 0 has two vertices, whatever happens: that its size is at least
  // two means 3, and at most two means 1.  No rule objects, one literal is wanted
  // together with its negation, and run_check enqueues only the one it comes to first.
  lemma OpposedFine()
    ensures DivisionOK(Three()) && Unmixed(Three()) && NoClash([Neg(Plain(0))])
    ensures DivisionQuiet(Three(), [Neg(Plain(0))])
    ensures Wanted(Three(), [Neg(Plain(0))], Plain(1)) && Wanted(Three(), [Neg(Plain(0))], Neg(Plain(1)))
    ensures !NoneOpposed(Three(), [Neg(Plain(0))])
  {
    hide Judged, RulesFine, Wanted;
    ThreeJudged();
    ThreeFine();
    ThreeWanted();
  }

  lemma ThreeJoined(u: nat, w: nat)
    requires u < 3 && w < 3
    ensures UF.Joined({(0, 1)}, u, w) <==> u == w || (u < 2 && w < 2)
  {
    var pairs: set<(nat, nat)> := {(0, 1)};
    if u < 2 {
      assert UF.Respects(pairs, {0, 1});
      forall x: set<nat> | UF.Respects(pairs, x) && u in x ensures 0 in x && 1 in x {
        assert (0, 1) in pairs;
      }
    } else {
      assert UF.Respects(pairs, {u});
    }
  }

  lemma ThreeParts()
    ensures PartitionOK(3, {(0, 1)}, View3().dec)
  {
    hide UF.Joined, RegionOK;
    var p := View3().dec;
    forall u: nat, w: nat | u < 3 && w < 3 ensures p.ids[u] == p.ids[w] <==> UF.Joined({(0, 1)}, u, w) {
      ThreeJoined(u, w);
    }
    forall r | 0 <= r < 2 ensures RegionOK(3, p.ids, p.regions[r], r) {
      ThreePart(r);
    }
  }

  lemma ThreePart(r: nat)
    requires r < 2
    ensures RegionOK(3, View3().dec.ids, View3().dec.regions[r], r)
  {
  }

  lemma ThreePairs(open: bool)
    ensures |View3().st| == |Three().edges| && Pairs(Three(), View3().st, open) == {(0, 1)}
    ensures Present(Three(), [Neg(Plain(0))], open) == {(0, 1)}
  {
    assert Three().edges[0] == (0, 1) && Counts(View3().st[0], open);
    assert Neg(Plain(0)) in [Neg(Plain(0))] && Plain(0) !in [Neg(Plain(0))];
  }

  lemma ThreeJudged()
    ensures DivisionOK(Three()) && Unmixed(Three()) && NoClash([Neg(Plain(0))])
    ensures Judged(Three(), ThreeAdj(), View3(), [Neg(Plain(0))])
  {
    hide PartitionOK;
    ThreePairs(false);
    ThreePairs(true);
    ThreeParts();
    forall u: nat, w: nat, e: nat | u < 3 && Between(Three(), e, u, w) ensures (w, e) in ThreeAdj()[u] {
      assert e == 0;
    }
    assert LowAt(Three().sizes[0], [Neg(Plain(0))], View3().bounds[0], 0);
    assert HighAt(Three().sizes[0], [Neg(Plain(0))], View3().bounds[0], 1);
  }

  lemma ThreeFine()
    ensures RulesFine(Three(), ThreeAdj(), View3())
  {
    hide Roomy, NoBorder, LargeEnough, SmallEnough, EqualSizes;
    var v := View3();
    forall u | 0 <= u < 3 ensures NoBorder(ThreeAdj(), v.dec.ids, v.st, u, |ThreeAdj()[u]|) {
      ThreeNoBorder(u);
    }
    forall r | 0 <= r < 2
      ensures LargeEnough(Three(), v.bounds, v.dec.regions[r], |v.dec.regions[r]|)
      ensures SmallEnough(Three(), v.bounds, v.pot.regions[r], |v.pot.regions[r]|)
      ensures EqualSizes(Three(), v.bounds, v.dec.regions[r])
    {
      ThreeRegion(r);
    }
    NothingTaken(v.bounds, 2);
    RoomyPair();
  }

  lemma ThreeRegion(r: nat)
    requires r < 2
    ensures var v, region := View3(), View3().dec.regions[r];
            && LargeEnough(Three(), v.bounds, region, |region|) && SmallEnough(Three(), v.bounds, region, |region|)
            && EqualSizes(Three(), v.bounds, region)
  {
  }

  lemma ThreeNoBorder(u: nat)
    requires u < 3
    ensures NoBorder(ThreeAdj(), View3().dec.ids, View3().st, u, |ThreeAdj()[u]|)
  {
  }

  lemma RoomyPair()
    ensures Roomy(View3().bounds, [0, 1])
  {
    assert Picked(View3().bounds, [0, 1], [0], 0);
    assert Swept(View3().bounds, [0, 1], [0]);
    assert SumLb(View3().bounds, [0]) == 1;
  }

  lemma ThreeWanted()
    ensures Wanted(Three(), [Neg(Plain(0))], Plain(1)) && Wanted(Three(), [Neg(Plain(0))], Neg(Plain(1)))
  {
    hide UF.Joined;
    var d, t := Three(), [Neg(Plain(0))];
    ThreePairs(false);
    ThreePairs(true);
    forall w: nat | w < 3 ensures UF.Joined({(0, 1)}, 0, w) <==> w < 2 {
      ThreeJoined(0, w);
    }
    assert RegionOf(3, {(0, 1)}, 0) == {0, 1};
    ThreeBounds();
    assert SaysSize(d, t, 0, Plain(1)) && SaysSize(d, t, 0, Neg(Plain(1)));
  }

  lemma ThreeBounds()
    ensures AtLeast(Three().sizes[0], 2) == Is(Plain(1)) && AtMost(Three().sizes[0], 2) == Is(Neg(Plain(1)))
  {
    var e := Three().sizes[0];
    assert OE.LowerBound([1, 3], 2) == 1 && OE.LowerBound([1, 3], 3) == 1;
  }
}
