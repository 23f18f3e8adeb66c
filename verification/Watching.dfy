// The clause database of core/Solver.cc and its two-watched-literal scheme:
// a clause is registered under the negations of its literals 0 and 1, in
// watchesBin if it has two literals and in watches otherwise.
module Watching {
  import opened Logic
  import opened Trails

  datatype ClauseRec = ClauseRec(lits: Clause, learnt: bool, deleted: bool)
  type Db = seq<ClauseRec>

  datatype Watcher = Watcher(cref: nat, blocker: Lit)
  type WatchMap = map<Lit, seq<Watcher>>

  ghost predicate DistinctVars(c: Clause) {
    forall i, j :: 0 <= i < j < |c| ==> c[i].v != c[j].v
  }

  ghost predicate ClauseOK(c: Clause, n: nat) {
    |c| >= 2 && InRange(c, n) && DistinctVars(c)
  }

  predicate Live(db: Db, cr: nat) {
    cr < |db| && !db[cr].deleted
  }

  ghost predicate DbOK(db: Db, n: nat) {
    forall cr: nat :: Live(db, cr) ==> ClauseOK(db[cr].lits, n)
  }

  // ----------------------------------------------------------- watch lists

  function Ws(wm: WatchMap, p: Lit): seq<Watcher> {
    if p in wm then wm[p] else []
  }

  // long tells the two maps apart: watches (true) and watchesBin (false).
  ghost predicate WatcherOK(db: Db, p: Lit, w: Watcher, long: bool) {
    && Live(db, w.cref)
    && var c := db[w.cref].lits;
    && |c| >= 2
    && (c[0] == Neg(p) || c[1] == Neg(p))
    && w.blocker in c
    && (long <==> |c| > 2)
    && (!long ==> w.blocker != Neg(p))
  }

  ghost predicate ListOK(db: Db, p: Lit, ws: seq<Watcher>, long: bool) {
    && (forall i :: 0 <= i < |ws| ==> WatcherOK(db, p, ws[i], long))
    && DistinctCrefs(ws)
  }

  ghost predicate Listed(ws: seq<Watcher>, cr: nat) {
    exists i :: 0 <= i < |ws| && ws[i].cref == cr
  }

  ghost predicate WatchedTwice(db: Db, wm: WatchMap, cr: nat)
    requires cr < |db| && |db[cr].lits| >= 2
  {
    Listed(Ws(wm, Neg(db[cr].lits[0])), cr) && Listed(Ws(wm, Neg(db[cr].lits[1])), cr)
  }

  ghost predicate ListsOK(db: Db, wm: WatchMap, n: nat, long: bool) {
    forall p: Lit :: p.v < n ==> p in wm && ListOK(db, p, Ws(wm, p), long)
  }

  ghost predicate TwiceOK(db: Db, wm: WatchMap, n: nat, long: bool)
    requires DbOK(db, n)
  {
    forall cr: nat :: Live(db, cr) && (long <==> |db[cr].lits| > 2) ==> WatchedTwice(db, wm, cr)
  }

  ghost predicate WatchMapOK(db: Db, wm: WatchMap, n: nat, long: bool)
    requires DbOK(db, n)
  {
    ListsOK(db, wm, n, long) && TwiceOK(db, wm, n, long)
  }

  ghost function Crefs(ws: seq<Watcher>): set<nat> {
    set i | 0 <= i < |ws| :: ws[i].cref
  }

  lemma CrefsListed(ws: seq<Watcher>, cr: nat)
    ensures cr in Crefs(ws) <==> Listed(ws, cr)
  {
  }

  lemma ListedParts(a: seq<Watcher>, b: seq<Watcher>, cr: nat)
    ensures Listed(a + b, cr) <==> Listed(a, cr) || Listed(b, cr)
  {
    if Listed(a, cr) {
      var i :| 0 <= i < |a| && a[i].cref == cr;
      assert (a + b)[i].cref == cr;
    }
    if Listed(b, cr) {
      var i :| 0 <= i < |b| && b[i].cref == cr;
      assert (a + b)[|a| + i].cref == cr;
    }
  }

  // ------------------------------------------------------ reordering a clause

  function Swapped(c: Clause, i: nat, j: nat): Clause
    requires i < |c| && j < |c|
  {
    c[i := c[j]][j := c[i]]
  }

  function SwapLits(db: Db, cr: nat, i: nat, j: nat): Db
    requires cr < |db| && i < |db[cr].lits| && j < |db[cr].lits|
  {
    db[cr := db[cr].(lits := Swapped(db[cr].lits, i, j))]
  }

  lemma SwappedFacts(c: Clause, i: nat, j: nat, n: nat)
    requires i < |c| && j < |c|
    ensures forall l :: l in Swapped(c, i, j) <==> l in c
    ensures ClauseOK(c, n) ==> ClauseOK(Swapped(c, i, j), n)
  {
    var d := Swapped(c, i, j);
    assert c == Swapped(d, i, j);
    forall l | l in c ensures l in d {
      var x :| 0 <= x < |c| && c[x] == l;
      assert d[if x == i then j else if x == j then i else x] == l;
    }
  }

  lemma SwapDbOK(db: Db, n: nat, cr: nat, i: nat, j: nat)
    requires DbOK(db, n) && Live(db, cr) && i < |db[cr].lits| && j < |db[cr].lits|
    ensures DbOK(SwapLits(db, cr, i, j), n)
  {
    SwappedFacts(db[cr].lits, i, j, n);
  }

  // A reordering that keeps the watched pair, or touches only a clause that is
  // not in the list, keeps the list in order.
  lemma SwapListKeeps(db: Db, p: Lit, ws: seq<Watcher>, long: bool, cr: nat, i: nat, j: nat)
    requires ListOK(db, p, ws, long) && Live(db, cr) && i < |db[cr].lits| && j < |db[cr].lits|
    requires (i == 0 && j == 1) || forall x :: 0 <= x < |ws| ==> ws[x].cref != cr
    ensures ListOK(SwapLits(db, cr, i, j), p, ws, long)
  {
    SwappedFacts(db[cr].lits, i, j, 0);
    forall x | 0 <= x < |ws| ensures WatcherOK(SwapLits(db, cr, i, j), p, ws[x], long) {
      assert WatcherOK(db, p, ws[x], long);
    }
  }

  // Exchanging literals 0 and 1 leaves the set of watched literals alone.
  lemma SwapWatchedKeeps(db: Db, wm: WatchMap, n: nat, long: bool, cr: nat)
    requires DbOK(db, n) && WatchMapOK(db, wm, n, long) && Live(db, cr)
    ensures DbOK(SwapLits(db, cr, 0, 1), n)
    ensures WatchMapOK(SwapLits(db, cr, 0, 1), wm, n, long)
  {
    hide ListOK, Listed;
    SwapDbOK(db, n, cr, 0, 1);
    forall p: Lit | p.v < n ensures ListOK(SwapLits(db, cr, 0, 1), p, Ws(wm, p), long) {
      SwapListKeeps(db, p, Ws(wm, p), long, cr, 0, 1);
    }
  }

  // Reordering a long clause leaves watchesBin alone.
  lemma SwapLongKeepsBin(db: Db, wm: WatchMap, n: nat, cr: nat, i: nat, j: nat)
    requires DbOK(db, n) && WatchMapOK(db, wm, n, false)
    requires Live(db, cr) && |db[cr].lits| > 2 && i < |db[cr].lits| && j < |db[cr].lits|
    ensures DbOK(SwapLits(db, cr, i, j), n)
    ensures WatchMapOK(SwapLits(db, cr, i, j), wm, n, false)
  {
    hide ListOK, Listed;
    SwapDbOK(db, n, cr, i, j);
    forall p: Lit | p.v < n ensures ListOK(SwapLits(db, cr, i, j), p, Ws(wm, p), false) {
      ShortListLacks(db, p, Ws(wm, p), cr);
      SwapListKeeps(db, p, Ws(wm, p), false, cr, i, j);
    }
  }

  lemma ShortListLacks(db: Db, p: Lit, ws: seq<Watcher>, cr: nat)
    requires ListOK(db, p, ws, false) && Live(db, cr) && |db[cr].lits| > 2
    ensures forall x :: 0 <= x < |ws| ==> ws[x].cref != cr
  {
    forall x | 0 <= x < |ws| ensures ws[x].cref != cr {
      assert WatcherOK(db, p, ws[x], false);
    }
  }

  // *j++ = Watcher(cr, first): only the blocker changes.
  lemma ReblockKeeps(db: Db, wm: WatchMap, n: nat, p: Lit, kept: seq<Watcher>, w: Watcher, rest: seq<Watcher>, b: Lit)
    requires DbOK(db, n) && WatchMapOK(db, wm, n, true)
    requires p.v < n && Ws(wm, p) == kept + [w] + rest && Live(db, w.cref) && b in db[w.cref].lits
    ensures WatchMapOK(db, wm[p := kept + [Watcher(w.cref, b)] + rest], n, true)
  {
    hide ListOK, Listed, DbOK;
    ReblockListKeeps(db, p, kept, w, rest, b);
    forall c: nat | Live(db, c) && |db[c].lits| > 2
      ensures WatchedTwice(db, wm[p := kept + [Watcher(w.cref, b)] + rest], c)
    {
      assert WatchedTwice(db, wm, c);
      forall o: Lit | Listed(Ws(wm, o), c)
        ensures Listed(Ws(wm[p := kept + [Watcher(w.cref, b)] + rest], o), c)
      {
        if o == p {
          ListedReblocked(kept, w, rest, b, c);
        }
      }
    }
  }

  lemma ReblockListKeeps(db: Db, p: Lit, kept: seq<Watcher>, w: Watcher, rest: seq<Watcher>, b: Lit)
    requires ListOK(db, p, kept + [w] + rest, true) && Live(db, w.cref) && b in db[w.cref].lits
    ensures ListOK(db, p, kept + [Watcher(w.cref, b)] + rest, true)
  {
    var was := kept + [w] + rest;
    var now := kept + [Watcher(w.cref, b)] + rest;
    assert WatcherOK(db, p, was[|kept|], true);
    forall i | 0 <= i < |now| ensures WatcherOK(db, p, now[i], true) && now[i].cref == was[i].cref {
      assert WatcherOK(db, p, was[i], true);
    }
  }

  lemma ListedReblocked(kept: seq<Watcher>, w: Watcher, rest: seq<Watcher>, b: Lit, c: nat)
    requires Listed(kept + [w] + rest, c)
    ensures Listed(kept + [Watcher(w.cref, b)] + rest, c)
  {
    var i :| 0 <= i < |kept + [w] + rest| && (kept + [w] + rest)[i].cref == c;
    assert (kept + [Watcher(w.cref, b)] + rest)[i].cref == c;
  }

  // The watch maps after the watch of clause w.cref moved from literal 1 to
  // literal k.
  function Moved(db: Db, wm: WatchMap, p: Lit, kept: seq<Watcher>, w: Watcher, rest: seq<Watcher>, k: nat): WatchMap
    requires w.cref < |db| && k < |db[w.cref].lits|
  {
    var q := Neg(db[w.cref].lits[k]);
    wm[p := kept + rest][q := Ws(wm, q) + [Watcher(w.cref, db[w.cref].lits[0])]]
  }

  ghost predicate MayMove(db: Db, n: nat, p: Lit, w: Watcher, k: nat) {
    && DbOK(db, n) && p.v < n && Live(db, w.cref)
    && 2 <= k < |db[w.cref].lits| && db[w.cref].lits[1] == Neg(p)
  }

  lemma MoveKeeps(db: Db, wm: WatchMap, n: nat, p: Lit, kept: seq<Watcher>, w: Watcher, rest: seq<Watcher>, k: nat)
    requires MayMove(db, n, p, w, k) && WatchMapOK(db, wm, n, true) && Ws(wm, p) == kept + [w] + rest
    ensures DbOK(SwapLits(db, w.cref, 1, k), n)
    ensures WatchMapOK(SwapLits(db, w.cref, 1, k), Moved(db, wm, p, kept, w, rest, k), n, true)
  {
    SwapDbOK(db, n, w.cref, 1, k);
    MoveLists(db, wm, n, p, kept, w, rest, k);
    MoveTwices(db, wm, n, p, kept, w, rest, k);
  }

  lemma MoveLists(db: Db, wm: WatchMap, n: nat, p: Lit, kept: seq<Watcher>, w: Watcher, rest: seq<Watcher>, k: nat)
    requires MayMove(db, n, p, w, k) && ListsOK(db, wm, n, true) && Ws(wm, p) == kept + [w] + rest
    ensures ListsOK(SwapLits(db, w.cref, 1, k), Moved(db, wm, p, kept, w, rest, k), n, true)
  {
    hide ListOK, ClauseOK;
    MoveWatched(db, n, p, w, k);
    var m := Moved(db, wm, p, kept, w, rest, k);
    forall o: Lit | o.v < n ensures o in m && ListOK(SwapLits(db, w.cref, 1, k), o, Ws(m, o), true) {
      MoveList(db, n, o, Ws(wm, o), p, kept, w, rest, k);
    }
  }

  lemma MoveTwices(db: Db, wm: WatchMap, n: nat, p: Lit, kept: seq<Watcher>, w: Watcher, rest: seq<Watcher>, k: nat)
    requires MayMove(db, n, p, w, k) && TwiceOK(db, wm, n, true) && Ws(wm, p) == kept + [w] + rest
    requires DbOK(SwapLits(db, w.cref, 1, k), n)
    ensures TwiceOK(SwapLits(db, w.cref, 1, k), Moved(db, wm, p, kept, w, rest, k), n, true)
  {
    hide WatchedTwice, ClauseOK;
    MoveWatched(db, n, p, w, k);
    var e := SwapLits(db, w.cref, 1, k);
    var m := Moved(db, wm, p, kept, w, rest, k);
    forall d: nat | Live(e, d) && |e[d].lits| > 2 ensures WatchedTwice(e, m, d) {
      assert Live(db, d) && |db[d].lits| > 2;
      MoveTwice(db, wm, p, kept, w, rest, k, d);
    }
  }

  // The new watched literal and literal 0 differ from the one given up.
  lemma MoveWatched(db: Db, n: nat, p: Lit, w: Watcher, k: nat)
    requires MayMove(db, n, p, w, k)
    ensures var c := db[w.cref].lits; c[k].v < n && c[k].v != p.v && c[0].v != p.v && c[0] != c[k]
  {
    MemberOK(db, n, w.cref);
    assert db[w.cref].lits[k] in db[w.cref].lits;
  }

  lemma MoveTwice(db: Db, wm: WatchMap, p: Lit, kept: seq<Watcher>, w: Watcher, rest: seq<Watcher>, k: nat, d: nat)
    requires Live(db, d) && |db[d].lits| > 2 && WatchedTwice(db, wm, d) && Ws(wm, p) == kept + [w] + rest
    requires Live(db, w.cref) && 2 <= k < |db[w.cref].lits|
    requires db[w.cref].lits[0] != Neg(p) && db[w.cref].lits[k] != Neg(p)
    ensures |SwapLits(db, w.cref, 1, k)[d].lits| > 2
    ensures WatchedTwice(SwapLits(db, w.cref, 1, k), Moved(db, wm, p, kept, w, rest, k), d)
  {
    hide Listed;
    var c := db[w.cref].lits;
    var q := Neg(c[k]);
    MoveListed(kept, w, rest, d);
    ListedParts(Ws(wm, q), [Watcher(w.cref, c[0])], d);
    if d == w.cref {
      ListedLast(Ws(wm, q), Watcher(w.cref, c[0]));
    }
  }

  lemma ListedLast(ws: seq<Watcher>, w: Watcher)
    ensures Listed(ws + [w], w.cref)
  {
    assert (ws + [w])[|ws|] == w;
  }

  lemma MoveListed(kept: seq<Watcher>, w: Watcher, rest: seq<Watcher>, d: nat)
    ensures d != w.cref && Listed(kept + [w] + rest, d) ==> Listed(kept + rest, d)
  {
    ListedParts(kept + [w], rest, d);
    ListedParts(kept, [w], d);
    ListedParts(kept, rest, d);
  }

  // A watcher of clause cr under o says that the negation of o is watched.
  lemma ListLacks(db: Db, o: Lit, ws: seq<Watcher>, cr: nat)
    requires ListOK(db, o, ws, true) && Live(db, cr) && |db[cr].lits| >= 2
    requires db[cr].lits[0] != Neg(o) && db[cr].lits[1] != Neg(o)
    ensures forall i :: 0 <= i < |ws| ==> ws[i].cref != cr
  {
    forall i | 0 <= i < |ws| ensures ws[i].cref != cr {
      assert WatcherOK(db, o, ws[i], true);
    }
  }

  lemma DropList(db: Db, p: Lit, kept: seq<Watcher>, w: Watcher, rest: seq<Watcher>)
    requires ListOK(db, p, kept + [w] + rest, true)
    ensures ListOK(db, p, kept + rest, true)
    ensures forall i :: 0 <= i < |kept + rest| ==> (kept + rest)[i].cref != w.cref
  {
    var was := kept + [w] + rest;
    assert was[|kept|] == w;
    assert forall i :: 0 <= i < |kept + rest| ==> (kept + rest)[i] == was[if i < |kept| then i else i + 1];
  }

  lemma ListGrows(db: Db, o: Lit, ws: seq<Watcher>, w: Watcher)
    requires ListOK(db, o, ws, true) && WatcherOK(db, o, w, true)
    requires forall i :: 0 <= i < |ws| ==> ws[i].cref != w.cref
    ensures ListOK(db, o, ws + [w], true)
  {
    hide WatcherOK;
  }

  // The clause is in the list for its literal 0, which stays where it is.
  lemma MoveOther(db: Db, n: nat, o: Lit, ws: seq<Watcher>, cr: nat, k: nat)
    requires DbOK(db, n) && ListOK(db, o, ws, true) && Live(db, cr) && 2 <= k < |db[cr].lits|
    requires o == Neg(db[cr].lits[0])
    ensures ListOK(SwapLits(db, cr, 1, k), o, ws, true)
  {
    hide DbOK;
    MemberOK(db, n, cr);
    SwappedFacts(db[cr].lits, 1, k, n);
    forall i | 0 <= i < |ws| ensures WatcherOK(SwapLits(db, cr, 1, k), o, ws[i], true) {
      assert WatcherOK(db, o, ws[i], true);
    }
  }

  lemma MoveList(db: Db, n: nat, o: Lit, ws: seq<Watcher>, p: Lit, kept: seq<Watcher>, w: Watcher,
                 rest: seq<Watcher>, k: nat)
    requires DbOK(db, n) && ListOK(db, o, ws, true)
    requires o == p ==> ws == kept + [w] + rest
    requires Live(db, w.cref) && 2 <= k < |db[w.cref].lits| && db[w.cref].lits[1] == Neg(p)
    ensures ListOK(SwapLits(db, w.cref, 1, k), o,
                   if o == p then kept + rest
                   else if o == Neg(db[w.cref].lits[k]) then ws + [Watcher(w.cref, db[w.cref].lits[0])]
                   else ws, true)
  {
    hide DbOK, ListOK;
    var cr := w.cref;
    var c := db[cr].lits;
    var e := SwapLits(db, cr, 1, k);
    MemberOK(db, n, cr);
    SwappedFacts(c, 1, k, n);
    assert c[1] != c[k] && c[0] != c[k];
    if o == p {
      DropList(db, p, kept, w, rest);
      SwapListKeeps(db, p, kept + rest, true, cr, 1, k);
    } else if o == Neg(c[k]) {
      ListLacks(db, o, ws, cr);
      SwapListKeeps(db, o, ws, true, cr, 1, k);
      assert WatcherOK(e, o, Watcher(cr, c[0]), true);
      ListGrows(e, o, ws, Watcher(cr, c[0]));
    } else if o == Neg(c[0]) {
      MoveOther(db, n, o, ws, cr, k);
    } else {
      ListLacks(db, o, ws, cr);
      SwapListKeeps(db, o, ws, true, cr, 1, k);
    }
  }

  lemma MemberOK(db: Db, n: nat, cr: nat)
    requires DbOK(db, n) && Live(db, cr)
    ensures ClauseOK(db[cr].lits, n)
  {
  }

  // attachClause.
  function Attached(wm: WatchMap, cr: nat, c: Clause): WatchMap
    requires |c| >= 2
  {
    var m := wm[Neg(c[0]) := Ws(wm, Neg(c[0])) + [Watcher(cr, c[1])]];
    m[Neg(c[1]) := Ws(m, Neg(c[1])) + [Watcher(cr, c[0])]]
  }

  lemma AttachedKeeps(db: Db, wm: WatchMap, n: nat, long: bool, r: ClauseRec)
    requires DbOK(db, n) && WatchMapOK(db, wm, n, long)
    requires ClauseOK(r.lits, n) && !r.deleted
    ensures DbOK(db + [r], n)
    ensures WatchMapOK(db + [r], if long <==> |r.lits| > 2 then Attached(wm, |db|, r.lits) else wm, n, long)
  {
    hide ListOK, Listed;
    var e := db + [r];
    var c := r.lits;
    var m := if long <==> |c| > 2 then Attached(wm, |db|, c) else wm;
    assert c[0] in c && c[1] in c && c[0].v != c[1].v;
    forall p: Lit | p.v < n ensures ListOK(e, p, Ws(m, p), long) {
      AttachList(db, p, Ws(wm, p), long, r);
    }
    forall d: nat | Live(e, d) && (long <==> |e[d].lits| > 2) ensures WatchedTwice(e, m, d) {
      if d < |db| {
        assert Live(db, d) && WatchedTwice(db, wm, d);
        forall o: Lit | Listed(Ws(wm, o), d) ensures Listed(Ws(m, o), d) {
          ListedParts(Ws(wm, o), [Watcher(|db|, c[1])], d);
          ListedParts(Ws(wm, o), [Watcher(|db|, c[0])], d);
        }
      } else {
        ListedLast(Ws(wm, Neg(c[0])), Watcher(|db|, c[1]));
        ListedLast(Ws(wm, Neg(c[1])), Watcher(|db|, c[0]));
      }
    }
  }

  lemma AttachList(db: Db, p: Lit, ws: seq<Watcher>, long: bool, r: ClauseRec)
    requires ListOK(db, p, ws, long) && |r.lits| >= 2 && !r.deleted && r.lits[0].v != r.lits[1].v
    ensures ListOK(db + [r], p, ws, long)
    ensures (long <==> |r.lits| > 2) && p == Neg(r.lits[0]) ==>
              ListOK(db + [r], p, ws + [Watcher(|db|, r.lits[1])], long)
    ensures (long <==> |r.lits| > 2) && p == Neg(r.lits[1]) ==>
              ListOK(db + [r], p, ws + [Watcher(|db|, r.lits[0])], long)
  {
    forall i | 0 <= i < |ws| ensures WatcherOK(db + [r], p, ws[i], long) && ws[i].cref < |db| {
      assert WatcherOK(db, p, ws[i], long);
    }
  }

  // removeClause: the clause is marked and its watchers leave the lists.  The
  // source removes them lazily, at the start of the next propagate.
  function Without(ws: seq<Watcher>, cr: nat): seq<Watcher> {
    if ws == [] then []
    else (if ws[0].cref == cr then [] else [ws[0]]) + Without(ws[1..], cr)
  }

  ghost predicate DistinctCrefs(ws: seq<Watcher>) {
    forall i, j :: 0 <= i < j < |ws| ==> ws[i].cref != ws[j].cref
  }

  lemma {:induction false} WithoutMembers(ws: seq<Watcher>, cr: nat)
    ensures forall x :: x in Without(ws, cr) <==> x in ws && x.cref != cr
  {
    if ws != [] {
      WithoutMembers(ws[1..], cr);
      assert ws == [ws[0]] + ws[1..];
    }
  }

  lemma {:induction false} WithoutDistinct(ws: seq<Watcher>, cr: nat)
    requires DistinctCrefs(ws)
    ensures DistinctCrefs(Without(ws, cr))
  {
    if ws != [] {
      var r := Without(ws[1..], cr);
      WithoutDistinct(ws[1..], cr);
      WithoutMembers(ws[1..], cr);
      forall i | 0 <= i < |r| ensures r[i].cref != ws[0].cref {
        assert r[i] in ws[1..];
      }
    }
  }

  function Detached(wm: WatchMap, cr: nat): WatchMap {
    map p | p in wm :: Without(wm[p], cr)
  }

  function Marked(db: Db, cr: nat): Db
    requires cr < |db|
  {
    db[cr := db[cr].(deleted := true)]
  }

  lemma DetachedKeeps(db: Db, wm: WatchMap, n: nat, long: bool, cr: nat)
    requires DbOK(db, n) && WatchMapOK(db, wm, n, long) && Live(db, cr)
    ensures DbOK(Marked(db, cr), n)
    ensures WatchMapOK(Marked(db, cr), Detached(wm, cr), n, long)
  {
    hide ListOK, Listed;
    var m := Detached(wm, cr);
    forall p: Lit | p.v < n ensures ListOK(Marked(db, cr), p, Ws(m, p), long) {
      DetachList(db, p, Ws(wm, p), long, cr);
    }
    forall d: nat | Live(Marked(db, cr), d) && (long <==> |Marked(db, cr)[d].lits| > 2)
      ensures WatchedTwice(Marked(db, cr), m, d)
    {
      assert Live(db, d) && WatchedTwice(db, wm, d);
      forall o: Lit | Listed(Ws(wm, o), d) ensures Listed(Ws(m, o), d) {
        ListedWithout(Ws(wm, o), cr, d);
        ListedWithout([], cr, d);
      }
    }
  }

  lemma DetachList(db: Db, p: Lit, ws: seq<Watcher>, long: bool, cr: nat)
    requires ListOK(db, p, ws, long) && Live(db, cr)
    ensures ListOK(Marked(db, cr), p, Without(ws, cr), long)
  {
    WithoutMembers(ws, cr);
    WithoutDistinct(ws, cr);
    var us := Without(ws, cr);
    forall i | 0 <= i < |us| ensures WatcherOK(Marked(db, cr), p, us[i], long) {
      assert us[i] in ws;
      var j :| 0 <= j < |ws| && ws[j] == us[i];
      assert WatcherOK(db, p, ws[j], long);
    }
  }

  lemma ListedWithout(ws: seq<Watcher>, cr: nat, d: nat)
    ensures Listed(ws, d) && d != cr ==> Listed(Without(ws, cr), d)
  {
    WithoutMembers(ws, cr);
    if Listed(ws, d) && d != cr {
      var i :| 0 <= i < |ws| && ws[i].cref == d;
      assert ws[i] in Without(ws, cr);
      var j :| 0 <= j < |Without(ws, cr)| && Without(ws, cr)[j] == ws[i];
    }
  }
}
