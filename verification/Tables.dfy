// Where a literal occurs in lists of literals.  The constraints keep this as a
// vector of (literal, i, j) that is sorted once and searched with
// std::lower_bound, so the positions of a literal come in ascending order.
module Tables {
  import opened Logic

  type Pos = (nat, nat)

  function InList(lits: seq<Lit>, l: Lit, i: nat, j: nat): seq<Pos>
    requires j <= |lits|
    decreases |lits| - j
  {
    if j == |lits| then [] else (if lits[j] == l then [(i, j)] else []) + InList(lits, l, i, j + 1)
  }

  function Positions(lists: seq<seq<Lit>>, l: Lit, i: nat): seq<Pos>
    requires i <= |lists|
    decreases |lists| - i
  {
    if i == |lists| then [] else InList(lists[i], l, i, 0) + Positions(lists, l, i + 1)
  }

  lemma {:induction false} InListMembers(lits: seq<Lit>, l: Lit, i: nat, j: nat, x: Pos)
    requires j <= |lits|
    ensures x in InList(lits, l, i, j) <==> x.0 == i && j <= x.1 < |lits| && lits[x.1] == l
    decreases |lits| - j
  {
    if j < |lits| {
      InListMembers(lits, l, i, j + 1, x);
    }
  }

  lemma {:induction false} PositionsMembers(lists: seq<seq<Lit>>, l: Lit, i: nat, x: Pos)
    requires i <= |lists|
    ensures x in Positions(lists, l, i) <==> i <= x.0 < |lists| && x.1 < |lists[x.0]| && lists[x.0][x.1] == l
    decreases |lists| - i
  {
    if i < |lists| {
      InListMembers(lists[i], l, i, 0, x);
      PositionsMembers(lists, l, i + 1, x);
    }
  }
}
