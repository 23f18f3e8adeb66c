// Connectivity of the active vertices of an undirected graph, and what it says
// about the vertices that are still undecided.
module Connectivity {
  import opened Logic

  // The neighbours of each vertex.
  type Graph = seq<seq<nat>>

  // Parallel edges list a neighbour more than once.
  ghost predicate GraphOK(g: Graph) {
    && (forall u, i :: 0 <= u < |g| && 0 <= i < |g[u]| ==> g[u][i] < |g|)
    && (forall u, w :: 0 <= u < |g| && 0 <= w < |g| && w in g[u] ==> u in g[w])
  }

  ghost predicate Simple(g: Graph) {
    forall u :: 0 <= u < |g| ==> NoDup(g[u])
  }

  // Edges within s do not leave x.
  ghost predicate Closed(g: Graph, s: set<nat>, x: set<nat>) {
    forall u, w :: u in x && u in s && w in s && u < |g| && w in g[u] ==> w in x
  }

  // u and w are joined by a path within s: no closed set tells them apart.
  ghost predicate Linked(g: Graph, s: set<nat>, u: nat, w: nat) {
    u in s && w in s && forall x: set<nat> :: u in x && Closed(g, s, x) ==> w in x
  }

  ghost predicate AllLinked(g: Graph, s: set<nat>, act: set<nat>) {
    forall u, w :: u in act && w in act ==> Linked(g, s, u, w)
  }

  // The induced subgraph is connected.
  ghost predicate Connected(g: Graph, a: set<nat>) {
    AllLinked(g, a, a)
  }

  lemma LinkedSelf(g: Graph, s: set<nat>, u: nat)
    requires u in s
    ensures Linked(g, s, u, u)
  {
  }

  lemma LinkedTrans(g: Graph, s: set<nat>, u: nat, v: nat, w: nat)
    requires Linked(g, s, u, v) && Linked(g, s, v, w)
    ensures Linked(g, s, u, w)
  {
  }

  lemma LinkedEdge(g: Graph, s: set<nat>, u: nat, w: nat)
    requires u in s && w in s && u < |g| && w in g[u]
    ensures Linked(g, s, u, w)
  {
  }

  lemma LinkedSym(g: Graph, s: set<nat>, u: nat, w: nat)
    requires GraphOK(g) && Linked(g, s, u, w) && forall v :: v in s ==> v < |g|
    ensures Linked(g, s, w, u)
  {
    forall x: set<nat> | w in x && Closed(g, s, x) ensures u in x {
      var rest := s - x;
      assert Closed(g, s, rest);
      assert u in rest ==> w in rest;
    }
  }

  lemma LinkedWider(g: Graph, s: set<nat>, t: set<nat>, u: nat, w: nat)
    requires Linked(g, s, u, w) && s <= t
    ensures Linked(g, t, u, w)
  {
    forall x: set<nat> | u in x && Closed(g, t, x) ensures w in x {
      assert Closed(g, s, x);
    }
  }

  // A closed set that separates them.
  lemma Separated(g: Graph, s: set<nat>, x: set<nat>, u: nat, w: nat)
    requires Closed(g, s, x) && u in x && w !in x
    ensures !Linked(g, s, u, w)
  {
  }

  ghost function Component(g: Graph, s: set<nat>, u: nat): set<nat> {
    set w | w in s && Linked(g, s, u, w)
  }

  lemma ComponentClosed(g: Graph, s: set<nat>, u: nat)
    requires u in s
    ensures u in Component(g, s, u) && Closed(g, s, Component(g, s, u))
  {
    LinkedSelf(g, s, u);
    forall v, w | v in Component(g, s, u) && v in s && w in s && v < |g| && w in g[v]
      ensures w in Component(g, s, u)
    {
      LinkedEdge(g, s, v, w);
      LinkedTrans(g, s, u, v, w);
    }
  }

  lemma ComponentConnected(g: Graph, s: set<nat>, a: nat)
    requires GraphOK(g) && a in s && forall v :: v in s ==> v < |g|
    ensures Connected(g, Component(g, s, a))
  {
    var c := Component(g, s, a);
    ComponentClosed(g, s, a);
    forall u, w | u in c && w in c ensures Linked(g, c, u, w) {
      forall x: set<nat> | u in x && Closed(g, c, x) ensures w in x {
        assert Closed(g, s, x * c);
        LinkedSym(g, s, a, u);
        LinkedTrans(g, s, u, a, w);
      }
    }
  }

  // a is a choice of active vertices between act and possible that is connected.
  ghost predicate Completes(g: Graph, possible: set<nat>, act: set<nat>, a: set<nat>) {
    act <= a && a <= possible && Connected(g, a)
  }

  // There is a connected completion exactly if the active vertices are linked
  // through vertices that may still become active.
  lemma CompletionExists(g: Graph, possible: set<nat>, act: set<nat>)
    requires GraphOK(g) && act <= possible && forall v :: v in possible ==> v < |g|
    ensures (exists a :: Completes(g, possible, act, a)) <==> AllLinked(g, possible, act)
  {
    if a :| Completes(g, possible, act, a) {
      forall u, w | u in act && w in act ensures Linked(g, possible, u, w) {
        LinkedWider(g, a, possible, u, w);
      }
    }
    if AllLinked(g, possible, act) {
      if act == {} {
        assert Completes(g, possible, act, {});
      } else {
        var a :| a in act;
        ComponentConnected(g, possible, a);
        assert Completes(g, possible, act, Component(g, possible, a));
      }
    }
  }

  // An undecided vertex is in every connected completion exactly if the active
  // vertices fall apart without it.
  lemma InEveryCompletion(g: Graph, possible: set<nat>, act: set<nat>, v: nat)
    requires GraphOK(g) && act <= possible && v in possible && v !in act && forall x :: x in possible ==> x < |g|
    ensures (forall a :: Completes(g, possible, act, a) ==> v in a) <==> !AllLinked(g, possible - {v}, act)
  {
    CompletionExists(g, possible - {v}, act);
    forall a ensures Completes(g, possible - {v}, act, a) <==> Completes(g, possible, act, a) && v !in a {
    }
  }

  // It is in none exactly if it is cut off from an active vertex, or no
  // completion exists.
  lemma InNoCompletion(g: Graph, possible: set<nat>, act: set<nat>, v: nat)
    requires GraphOK(g) && act <= possible && v in possible && forall x :: x in possible ==> x < |g|
    ensures (forall a :: Completes(g, possible, act, a) ==> v !in a) <==> !AllLinked(g, possible, act + {v})
  {
    CompletionExists(g, possible, act + {v});
    forall a ensures Completes(g, possible, act + {v}, a) <==> Completes(g, possible, act, a) && v in a {
    }
  }

  // More possible vertices and fewer active ones are easier to link.
  lemma AllLinkedEasier(g: Graph, s: set<nat>, t: set<nat>, many: set<nat>, few: set<nat>)
    requires AllLinked(g, s, many) && s <= t && few <= many
    ensures AllLinked(g, t, few)
  {
    forall u, w | u in few && w in few ensures Linked(g, t, u, w) {
      LinkedWider(g, s, t, u, w);
    }
  }
}
