// What constraints have answered, and that the answers are heeded: a literal that a
// constraint enqueued when it was told another stays true for as long as that one.
module Heeding {
  import opened Logic
  import opened Trails
  import opened Settling
  import opened Delivery
  import opened States
  import opened Propagation

  // The answers of one constraint, specification only: that of initialize, when the
  // trail had joined literals, and the one it gave when it was last told a literal.
  datatype Said = Said(joined: nat, start: Answer, since: map<Lit, Answer>)

  // Literal x is true, and no cancelUntil that keeps the first m literals unassigns it.
  ghost predicate Lasts(t: Trail, m: nat, x: Lit) {
    && x in t.lits
    && forall j :: 0 <= j < |t.lims| && m <= t.lims[j] <= |t.lits| ==> x in t.lits[..t.lims[j]]
  }

  // The trail had m literals when literal i, of the then current level, was delivered.
  ghost predicate Within(t: Trail, i: nat, m: nat) {
    i < m <= |t.lits| && forall j :: 0 <= j < |t.lims| && i < t.lims[j] ==> m <= t.lims[j]
  }

  // The call of propagate for literal i: the constraint has been told what it watches
  // of the trail up to there.
  function Call(con: Constraint, tell: Teller, t: Trail, i: nat, m: nat, lazy: bool): Answer
    requires i < m <= |t.lits|
  {
    var log := Heard(t.lits[..i + 1], con.watched);
    if |t.lims| == 0 || i < t.lims[0] then tell(log, t.lits[..m], lazy)
    else con.propagate(log, t.lits[..m], lazy)
  }

  ghost predicate Gave(con: Constraint, tell: Teller, t: Trail, i: nat, a: Answer) {
    exists m: nat, lazy: bool :: Within(t, i, m) && a == Call(con, tell, t, i, m, lazy)
  }

  ghost predicate HeedsAt(con: Constraint, tell: Teller, t: Trail, said: Said, i: nat)
    requires i < |t.lits|
  {
    && t.lits[i] in said.since
    && var a := said.since[t.lits[i]];
       a.accept && Gave(con, tell, t, i, a) && forall x :: x in a.implied ==> Lasts(t, i + 1, x)
  }

  // The same for the first b literals, and for initialize.
  ghost predicate Heeds(con: Constraint, tell: Teller, t: Trail, said: Said, b: nat) {
    && said.joined <= |t.lits| && (|t.lims| > 0 ==> said.joined <= t.lims[0])
    && said.start.accept && (forall x :: x in said.start.implied ==> Lasts(t, said.joined, x))
    && forall i :: said.joined <= i < b && i < |t.lits| && t.lits[i] in con.watched ==>
         HeedsAt(con, tell, t, said, i)
  }

  ghost predicate Heeded(s: State, said: seq<Said>, b: nat) {
    && |said| == |s.f.constraints| == |s.tell|
    && forall k :: 0 <= k < |said| ==> Heeds(s.f.constraints[k], s.tell[k], s.t, said[k], b)
  }

  // While literal q is being delivered, the first j constraints that watch it have it
  // behind them.
  ghost predicate HeededBy(s: State, said: seq<Said>, q: nat, j: nat) {
    && q < |s.t.lits|
    && Heeded(s, said, q)
    && forall x, k :: 0 <= x < j && x < |Cw(s.cw, s.t.lits[q])| && k == Cw(s.cw, s.t.lits[q])[x] && k < |said| ==>
         HeedsAt(s.f.constraints[k], s.tell[k], s.t, said[k], q)
  }

  // -------------------------------------------------------- along the trail

  // The trail may grow.
  ghost predicate Longer(t: Trail, u: Trail) {
    t.lits <= u.lits && u.lims == t.lims
  }

  // A level may be opened.
  ghost predicate Deeper(t: Trail, u: Trail) {
    t.lits <= u.lits && u.lims == t.lims + [|t.lits|]
  }

  lemma SamePart(xs: seq<Lit>, ys: seq<Lit>, m: nat)
    requires xs <= ys && m <= |xs|
    ensures xs[..m] == ys[..m]
  {
  }

  lemma LastsLonger(t: Trail, u: Trail, m: nat, x: Lit)
    requires Lasts(t, m, x) && (Longer(t, u) || Deeper(t, u))
    requires forall j :: 0 <= j < |t.lims| ==> t.lims[j] <= |t.lits|
    ensures Lasts(u, m, x)
  {
    forall j | 0 <= j < |u.lims| && m <= u.lims[j] <= |u.lits| ensures x in u.lits[..u.lims[j]] {
      SamePart(t.lits, u.lits, u.lims[j]);
      assert t.lits[..|t.lits|] == t.lits;
      assert j < |t.lims| ==> u.lims[j] == t.lims[j];
    }
  }

  lemma GaveLonger(con: Constraint, tell: Teller, t: Trail, u: Trail, i: nat, a: Answer)
    requires Gave(con, tell, t, i, a) && i < |t.lits| && (Longer(t, u) || Deeper(t, u))
    ensures Gave(con, tell, u, i, a)
  {
    var m: nat, lazy: bool :| Within(t, i, m) && a == Call(con, tell, t, i, m, lazy);
    SamePart(t.lits, u.lits, m);
    SamePart(t.lits, u.lits, i + 1);
    assert Within(u, i, m);
    assert a == Call(con, tell, u, i, m, lazy);
  }

  lemma HeedsAtLonger(con: Constraint, tell: Teller, t: Trail, u: Trail, said: Said, i: nat)
    requires i < |t.lits| && HeedsAt(con, tell, t, said, i) && (Longer(t, u) || Deeper(t, u))
    requires forall j :: 0 <= j < |t.lims| ==> t.lims[j] <= |t.lits|
    ensures i < |u.lits| && HeedsAt(con, tell, u, said, i)
  {
    hide Gave, Lasts;
    assert u.lits[i] == t.lits[i];
    var a := said.since[t.lits[i]];
    GaveLonger(con, tell, t, u, i, a);
    forall x | x in a.implied ensures Lasts(u, i + 1, x) {
      LastsLonger(t, u, i + 1, x);
    }
  }

  lemma HeedsLonger(con: Constraint, tell: Teller, t: Trail, u: Trail, said: Said, b: nat)
    requires Heeds(con, tell, t, said, b) && b <= |t.lits| && (Longer(t, u) || Deeper(t, u))
    requires forall j :: 0 <= j < |t.lims| ==> t.lims[j] <= |t.lits|
    ensures Heeds(con, tell, u, said, b)
  {
    hide HeedsAt, Lasts;
    forall x | x in said.start.implied ensures Lasts(u, said.joined, x) {
      LastsLonger(t, u, said.joined, x);
    }
    forall i | said.joined <= i < b && i < |u.lits| && u.lits[i] in con.watched ensures HeedsAt(con, tell, u, said, i) {
      assert u.lits[i] == t.lits[i];
      HeedsAtLonger(con, tell, t, u, said, i);
    }
  }

  // Enqueueing and deciding keep the answers.
  lemma HeededLonger(s: State, u: State, said: seq<Said>, b: nat)
    requires Heeded(s, said, b) && b <= |s.t.lits| && (Longer(s.t, u.t) || Deeper(s.t, u.t))
    requires forall j :: 0 <= j < |s.t.lims| ==> s.t.lims[j] <= |s.t.lits|
    requires u.f == s.f && u.tell == s.tell
    ensures Heeded(u, said, b)
  {
    hide Heeds;
    forall k | 0 <= k < |said| ensures Heeds(u.f.constraints[k], u.tell[k], u.t, said[k], b) {
      HeedsLonger(s.f.constraints[k], s.tell[k], s.t, u.t, said[k], b);
    }
  }

  lemma HeededFewer(s: State, said: seq<Said>, b: nat, c: nat)
    requires Heeded(s, said, b) && c <= b
    ensures Heeded(s, said, c)
  {
    hide HeedsAt, Lasts;
    forall k | 0 <= k < |said| ensures Heeds(s.f.constraints[k], s.tell[k], s.t, said[k], c) {
      assert Heeds(s.f.constraints[k], s.tell[k], s.t, said[k], b);
    }
  }

  // The trail is cut back to the start of a level.
  ghost predicate Shallower(t: Trail, u: Trail, level: nat) {
    && level < |t.lims| && t.lims[level] <= |t.lits|
    && u.lits == t.lits[..t.lims[level]] && u.lims == t.lims[..level]
    && Ascending(t.lims)
  }

  lemma LastsShallower(t: Trail, u: Trail, level: nat, m: nat, x: Lit)
    requires Lasts(t, m, x) && Shallower(t, u, level) && m <= t.lims[level]
    ensures Lasts(u, m, x)
  {
    forall j | 0 <= j < |u.lims| && m <= u.lims[j] <= |u.lits| ensures x in u.lits[..u.lims[j]] {
      assert u.lits[..u.lims[j]] == t.lits[..t.lims[j]];
    }
  }

  lemma GaveShallower(con: Constraint, tell: Teller, t: Trail, u: Trail, level: nat, i: nat, a: Answer)
    requires Gave(con, tell, t, i, a) && Shallower(t, u, level) && i < t.lims[level]
    ensures Gave(con, tell, u, i, a)
  {
    var m: nat, lazy: bool :| Within(t, i, m) && a == Call(con, tell, t, i, m, lazy);
    assert Within(u, i, m);
    assert u.lits[..m] == t.lits[..m] && u.lits[..i + 1] == t.lits[..i + 1];
    assert level > 0 ==> u.lims[0] == t.lims[0];
    assert a == Call(con, tell, u, i, m, lazy);
  }

  lemma HeedsShallower(con: Constraint, tell: Teller, t: Trail, u: Trail, level: nat, said: Said, b: nat)
    requires Heeds(con, tell, t, said, b) && Shallower(t, u, level) && t.lims[level] <= b
    ensures Heeds(con, tell, u, said, t.lims[level])
  {
    hide Gave, Lasts;
    assert t.lims[0] <= t.lims[level];
    forall x | x in said.start.implied ensures Lasts(u, said.joined, x) {
      LastsShallower(t, u, level, said.joined, x);
    }
    forall i | said.joined <= i < t.lims[level] && i < |u.lits| && u.lits[i] in con.watched
      ensures HeedsAt(con, tell, u, said, i)
    {
      assert u.lits[i] == t.lits[i];
      assert HeedsAt(con, tell, t, said, i);
      var a := said.since[t.lits[i]];
      GaveShallower(con, tell, t, u, level, i, a);
      forall x | x in a.implied ensures Lasts(u, i + 1, x) {
        LastsShallower(t, u, level, i + 1, x);
      }
    }
  }

  // cancelUntil keeps what was answered to the literals that stay.
  lemma HeededShallower(s: State, u: State, said: seq<Said>, level: nat, b: nat)
    requires Heeded(s, said, b) && Shallower(s.t, u.t, level) && s.t.lims[level] <= b
    requires u.f == s.f && u.tell == s.tell
    ensures Heeded(u, said, s.t.lims[level])
  {
    hide Heeds;
    forall k | 0 <= k < |said|
      ensures Heeds(u.f.constraints[k], u.tell[k], u.t, said[k], s.t.lims[level])
    {
      HeedsShallower(s.f.constraints[k], s.tell[k], s.t, u.t, level, said[k], b);
    }
  }

  // CancelUntil as a whole.
  lemma HeededCancelled(s: State, u: State, said: seq<Said>, level: nat, b: nat)
    requires Base(s) && level < |s.t.lims| && s.t.lims[level] <= |s.t.lits| && |s.t.pos| == |s.t.assigns|
    requires LevelStart(s.t) <= b && Heeded(s, said, b) && u == Cnc(s, level, u.undo, u.log)
    ensures Heeded(u, said, u.qhead)
  {
    hide Heeded, LevelOK, Sizes, LevelStart, Watched, Sound, Told, Shape;
    LimsBelowStart(s, level);
    HeededShallower(s, u, said, level, b);
  }

  // A literal is enqueued between two steps of propagation, or a decision made.
  lemma ReadyHeeded(s: State, u: State, said: seq<Said>)
    requires Ready(s) && Heeded(s, said, s.qhead) && (Longer(s.t, u.t) || Deeper(s.t, u.t))
    requires u.f == s.f && u.tell == s.tell && u.qhead == s.qhead
    ensures Heeded(u, said, u.qhead)
  {
    hide Heeded, Watched, Sound, Told, TrailOK, Settled, PendingPlus, ToldReasons, QuietOrPending, UndoOK, Idle;
    HeededLonger(s, u, said, s.qhead);
  }

  // ------------------------------------------------------------- delivering

  // Constraint k has answered a to literal p.
  ghost function Noted(said: seq<Said>, k: nat, p: Lit, a: Answer): seq<Said>
    requires k < |said|
  {
    said[k := said[k].(since := said[k].since[p := a])]
  }

  // Nothing that was answered to earlier literals is forgotten.
  lemma HeedsNoted(con: Constraint, tell: Teller, t: Trail, said: Said, p: Lit, a: Answer, q: nat)
    requires Heeds(con, tell, t, said, q) && q <= |t.lits| && forall i :: 0 <= i < q ==> t.lits[i] != p
    ensures Heeds(con, tell, t, said.(since := said.since[p := a]), q)
  {
    hide Lasts, Gave;
    forall i | said.joined <= i < q && t.lits[i] in con.watched
      ensures HeedsAt(con, tell, t, said.(since := said.since[p := a]), i)
    {
      assert HeedsAt(con, tell, t, said, i);
    }
  }

  lemma HeededNoted(s: State, said: seq<Said>, k: nat, p: Lit, a: Answer, q: nat)
    requires Heeded(s, said, q) && k < |said| && q <= |s.t.lits| && forall i :: 0 <= i < q ==> s.t.lits[i] != p
    ensures Heeded(s, Noted(said, k, p, a), q)
  {
    hide Heeds;
    HeedsNoted(s.f.constraints[k], s.tell[k], s.t, said[k], p, a, q);
  }

  // The trail s.t was answered to at the current level, and all of the answer is true.
  lemma AnswerHeeded(s: State, u: State, q: nat, k: nat, said: Said, lazy: bool)
    requires Longer(s.t, u.t) && q < |s.t.lits| && LevelStart(s.t) <= q && k < |s.f.constraints|
    requires u.f == s.f && u.tell == s.tell && |s.tell| == |s.f.constraints|
    requires Ascending(s.t.lims) && forall j :: 0 <= j < |s.t.lims| ==> s.t.lims[j] <= |s.t.lits|
    requires s.t.lits[q] in said.since
    requires said.since[s.t.lits[q]] == Call(s.f.constraints[k], s.tell[k], s.t, q, |s.t.lits|, lazy)
    requires said.since[s.t.lits[q]].accept
    requires forall x :: x in said.since[s.t.lits[q]].implied ==> x in u.t.lits
    ensures HeedsAt(u.f.constraints[k], u.tell[k], u.t, said, q)
  {
    hide Call;
    var a := said.since[s.t.lits[q]];
    LimsPassed(s.t, q);
    assert Within(s.t, q, |s.t.lits|);
    assert Gave(s.f.constraints[k], s.tell[k], s.t, q, a);
    GaveLonger(s.f.constraints[k], s.tell[k], s.t, u.t, q, a);
    assert forall x :: x in a.implied ==> Lasts(u.t, q + 1, x);
  }

  lemma LimsPassed(t: Trail, q: nat)
    requires Ascending(t.lims) && LevelStart(t) <= q
    ensures forall j :: 0 <= j < |t.lims| ==> t.lims[j] <= q
  {
    forall j | 0 <= j < |t.lims| ensures t.lims[j] <= q {
      assert j < |t.lims| - 1 ==> t.lims[j] < t.lims[|t.lims| - 1];
    }
  }

  // ----------------------------------------------- what has been delivered

  // A fully delivered log is what the constraint watches of the trail.
  lemma {:induction false} DeliveredHeard(cw: ConstrWatches, cons: seq<Constraint>, n: nat, lits: seq<Lit>, k: nat)
    requires WatchListsOK(cw, cons, n) && k < |cons|
    ensures Delivered(cw, lits, k) == Heard(lits, cons[k].watched)
  {
    hide WatchListsOK, Repeat;
    if lits != [] {
      var p := lits[|lits| - 1];
      DeliveredHeard(cw, cons, n, lits[..|lits| - 1], k);
      WatchedOnce(cw, cons, n, p, k);
      RepeatSmall(p);
    }
  }

  lemma WatchedOnce(cw: ConstrWatches, cons: seq<Constraint>, n: nat, p: Lit, k: nat)
    requires WatchListsOK(cw, cons, n) && k < |cons|
    ensures multiset(Cw(cw, p))[k] == if p in cons[k].watched then 1 else 0
  {
    NoDupCount(Cw(cw, p), k);
    assert k in Cw(cw, p) <==> p in cons[k].watched;
  }

  // What a constraint is about to be called with.
  lemma TellingHeard(s: State, p: Lit, q: nat, j: nat)
    requires Telling(s, p, q, j) && j < |Cw(s.cw, p)|
    ensures var k := Cw(s.cw, p)[j];
            k < |s.log| && k < |s.f.constraints| && q < |s.t.lits|
            && p in s.f.constraints[k].watched
            && s.log[k] + [p] == Heard(s.t.lits[..q + 1], s.f.constraints[k].watched)
  {
    hide Telling, Cw, Heard, LogOK, UndoOK, Idle, TrailOK, WatchListsOK, Delivered, LogOf, NoDup, Ids;
    TellingFacts(s, p, q, j);
    TellingLists(s, p, q, j);
    var k := Cw(s.cw, p)[j];
    WatchesOf(s, p, k);
    NotYetTold(s, q, k);
    DeliveredHeard(s.cw, s.f.constraints, s.n, s.t.lits[..q], k);
    HeardOneMore(s.t.lits, s.f.constraints[k].watched, q);
  }

  lemma HeardOneMore(lits: seq<Lit>, watched: set<Lit>, q: nat)
    requires q < |lits| && lits[q] in watched
    ensures Heard(lits[..q + 1], watched) == Heard(lits[..q], watched) + [lits[q]]
  {
    assert lits[..q + 1][..q] == lits[..q];
  }

  lemma TellingLists(s: State, p: Lit, q: nat, j: nat)
    requires Telling(s, p, q, j)
    ensures WatchListsOK(s.cw, s.f.constraints, s.n) && LogOK(s.undo, s.log, s.t.lits) && TrailOK(s.t, s.n)
    ensures UndoOK(s.undo, s.cw, s.t.lits, q) && Idle(s.undo, s.t.lits, q + 1) && |s.undo| == s.n
    ensures q < |s.t.lits| && s.t.lits[q] == p
  {
    hide Watched, Sound, UndoIds, NoUndo, LevelsQuiet, TrailOK, Settled, PendingPlus, ToldReasons, QuietOrPending,
         Honest, TellOK, NeedsMet, WatchListsOK, UndoWatched, LogOK, UndoOK, Idle;
  }

  // Constraint k has been told about the literals before position q only.
  lemma NotYetTold(s: State, q: nat, k: nat)
    requires LogOK(s.undo, s.log, s.t.lits) && TrailOK(s.t, s.n) && |s.undo| == s.n && q < |s.t.lits| && k < |s.log|
    requires UndoOK(s.undo, s.cw, s.t.lits, q) && Idle(s.undo, s.t.lits, q + 1)
    requires s.t.lits[q].v < s.n && k !in s.undo[s.t.lits[q].v]
    ensures s.log[k] == Delivered(s.cw, s.t.lits[..q], k)
  {
    hide TrailOK, Idle, LogOf, Delivered;
    var p := s.t.lits[q];
    LogSplit(s.undo, s.t, s.n, q, k);
    assert multiset(s.undo[p.v])[k] == 0;
    forall l | l in s.t.lits[..q] ensures s.undo[l.v] == Cw(s.cw, l) {
      var i :| 0 <= i < q && s.t.lits[i] == l;
    }
    LogDelivered(s.undo, s.cw, s.t.lits[..q], k);
  }

  lemma WatchesOf(s: State, p: Lit, k: nat)
    requires WatchListsOK(s.cw, s.f.constraints, s.n) && k in Cw(s.cw, p)
    ensures k < |s.f.constraints| && p in s.f.constraints[k].watched
  {
  }

  lemma HeededSame(s: State, u: State, said: seq<Said>, b: nat)
    requires Heeded(s, said, b) && u.f == s.f && u.tell == s.tell && u.t == s.t
    ensures Heeded(u, said, b)
  {
  }

  ghost predicate CanDeliver(s: State, q: nat, k: nat) {
    && k < |s.f.constraints| && k < |s.log| && k < |s.pending| && k < |s.tell|
    && q < |s.t.lits| && s.t.lits[q].v < |s.undo|
  }

  // The position of the literal being visited, for the answers.
  lemma VisitHeeded(s: State, said: seq<Said>, p: Lit, q: nat)
    requires exists todo :: Visiting(s, p, q, todo)
    ensures s.qhead == q + 1 && LevelStart(s.t) <= q <= |s.t.lits|
    ensures forall j :: 0 <= j < |s.t.lims| ==> s.t.lims[j] <= |s.t.lits|
  {
    hide Watched, Sound, Told, Settled, PendingPlus, ToldReasons, QuietOrPending, UndoOK, Idle, TrailOK;
  }

  lemma HeededLater(s: State, u: State, said: seq<Said>, b: nat)
    requires Later(s, u) && Heeded(s, said, b) && b <= |s.t.lits|
    requires forall j :: 0 <= j < |s.t.lims| ==> s.t.lims[j] <= |s.t.lits|
    ensures Heeded(u, said, b)
  {
    hide Heeded;
    HeededLonger(s, u, said, b);
  }

  lemma HeededStart(s: State, u: State, said: seq<Said>, q: nat)
    requires Later(s, u) && LevelStart(s.t) <= q
    ensures Heeded(u, said, q) ==> Heeded(u, said, LevelStart(u.t))
  {
    hide Heeds;
    if Heeded(u, said, q) {
      HeededFewer(u, said, q, LevelStart(u.t));
    }
  }

  lemma StartHeeding(s: State, said: seq<Said>, p: Lit, q: nat)
    requires Heeded(s, said, q) && Visiting(s, p, q, {})
    ensures HeededBy(s, said, q, 0)
  {
    hide Propagating, Heeded;
  }

  // Constraint j of the list has answered, the literals are enqueued, and those before
  // it are not disturbed.
  lemma NextHeeded(s: State, u: State, said: seq<Said>, p: Lit, q: nat, j: nat, lazy: bool, a: Answer)
    requires Telling(s, p, q, j) && j < |Cw(s.cw, p)| && HeededBy(s, said, q, j) && q < |s.t.lits|
    requires u.f == s.f && u.tell == s.tell && u.cw == s.cw && Longer(s.t, u.t) && Cw(s.cw, p)[j] < |said|
    requires |said| == |s.f.constraints| == |s.tell|
    requires a == Call(s.f.constraints[Cw(s.cw, p)[j]], s.tell[Cw(s.cw, p)[j]], s.t, q, |s.t.lits|, lazy)
    requires a.accept && forall x :: x in a.implied ==> x in u.t.lits
    ensures HeededBy(u, Noted(said, Cw(s.cw, p)[j], p, a), q, j + 1)
  {
    hide Telling, Heeded, Call, HeedsAt, Cw;
    var ks := Cw(s.cw, p);
    var k := ks[j];
    var now := Noted(said, k, p, a);
    TellingTrail(s, p, q, j);
    HeededNoted(s, said, k, p, a, q);
    HeededLonger(s, u, now, q);
    AnswerHeeded(s, u, q, k, now[k], lazy);
    forall x, y | 0 <= x < j + 1 && x < |ks| && y == ks[x] && y < |now|
      ensures y < |u.f.constraints| == |u.tell| && HeedsAt(u.f.constraints[y], u.tell[y], u.t, now[y], q)
    {
      if x < j {
        assert y != k;
        HeedsAtLonger(s.f.constraints[y], s.tell[y], s.t, u.t, said[y], q);
      }
    }
  }

  lemma TellingTrail(s: State, p: Lit, q: nat, j: nat)
    requires Telling(s, p, q, j) && j < |Cw(s.cw, p)|
    ensures q < |s.t.lits| && s.t.lits[q] == p && LevelStart(s.t) <= q && Ascending(s.t.lims)
    ensures forall i :: 0 <= i < q ==> s.t.lits[i] != p
    ensures forall i :: 0 <= i < |s.t.lims| ==> s.t.lims[i] <= |s.t.lits|
    ensures NoDup(Cw(s.cw, p))
  {
    hide Watched, Sound, UndoIds, NoUndo, LevelsQuiet, Settled, PendingPlus, ToldReasons, QuietOrPending, LogOK,
         Honest, TellOK, NeedsMet, UndoWatched;
    TellOnce(s, p);
    assert s.t.pos[p.v] == q;
  }

  // The answer of constraint k to literal q is noted; without a conflict it has been
  // carried out in full, and otherwise it cannot be.
  ghost predicate Taken(s: State, u: State, before: seq<Said>, after: seq<Said>, p: Lit, q: nat, k: nat,
                        confl: Conflict) {
    && k < |before| && CanDeliver(s, q, k)
    && var a := Reply(Dlv(s, q, k), k);
    && after == Noted(before, k, p, a)
    && if confl == NoConflict then a.accept && forall x :: x in a.implied ==> x in u.t.lits
       else !a.accept || exists x :: x in a.implied && Neg(x) in u.t.lits
  }

  lemma Asking(s: State, said: seq<Said>, p: Lit, q: nat, j: nat)
    requires Telling(s, p, q, j) && j < |Cw(s.cw, p)| && HeededBy(s, said, q, j)
    ensures var k := Cw(s.cw, p)[j];
            && k < |said| == |s.f.constraints| == |s.tell| && CanDeliver(s, q, k)
            && var u := Dlv(s, q, k);
               Reply(u, k) == Call(s.f.constraints[k], s.tell[k], s.t, q, |s.t.lits|, u.pending[k] > 0)
  {
    hide Telling, Cw, HeedsAt, Heard, LevelStart;
    TellingFacts(s, p, q, j);
    TellingHeard(s, p, q, j);
    TellingTrail(s, p, q, j);
    LimsPassed(s.t, q);
    assert s.t.lits[..|s.t.lits|] == s.t.lits;
  }

  // It has refused, or a literal it enqueued is false.
  lemma FailedHeeded(s: State, u: State, said: seq<Said>, p: Lit, q: nat, j: nat, a: Answer)
    requires Telling(s, p, q, j) && j < |Cw(s.cw, p)| && HeededBy(s, said, q, j) && Cw(s.cw, p)[j] < |said|
    requires u.f == s.f && u.tell == s.tell && Longer(s.t, u.t)
    ensures Heeded(u, Noted(said, Cw(s.cw, p)[j], p, a), q)
  {
    hide Telling, Heeded, HeedsAt, Cw;
    TellingTrail(s, p, q, j);
    HeededNoted(s, said, Cw(s.cw, p)[j], p, a, q);
    HeededLonger(s, u, Noted(said, Cw(s.cw, p)[j], p, a), q);
  }

  // All constraints that watch literal q have answered.
  lemma AllHeeded(s: State, said: seq<Said>, p: Lit, q: nat)
    requires Telling(s, p, q, |Cw(s.cw, p)|) && HeededBy(s, said, q, |Cw(s.cw, p)|)
    ensures Heeded(s, said, q + 1)
  {
    hide Propagating, Cw, HeedsAt, Lasts;
    TellingSizes(s, p, q, |Cw(s.cw, p)|);
    forall k | 0 <= k < |said| ensures Heeds(s.f.constraints[k], s.tell[k], s.t, said[k], q + 1) {
      assert Heeds(s.f.constraints[k], s.tell[k], s.t, said[k], q);
      if p in s.f.constraints[k].watched {
        WatchIndex(s, p, k);
        var x :| 0 <= x < |Cw(s.cw, p)| && Cw(s.cw, p)[x] == k;
        assert HeedsAt(s.f.constraints[k], s.tell[k], s.t, said[k], q);
      }
    }
  }

  lemma WatchIndex(s: State, p: Lit, k: nat)
    requires WatchListsOK(s.cw, s.f.constraints, s.n) && k < |s.f.constraints| && p in s.f.constraints[k].watched
    ensures exists x :: 0 <= x < |Cw(s.cw, p)| && Cw(s.cw, p)[x] == k
  {
    assert k in Cw(s.cw, p);
  }

  // A constraint has joined at level 0, and what initialize answered is true.
  lemma JoinHeeded(s: State, u: State, said: seq<Said>, con: Constraint, tell: Teller, a: Answer)
    requires Heeded(s, said, |s.t.lits|) && |s.t.lims| == 0 && Longer(s.t, u.t)
    requires u.f.constraints == s.f.constraints + [con] && u.tell == s.tell + [tell]
    requires a.accept && forall x :: x in a.implied ==> x in u.t.lits
    ensures Heeded(u, said + [Said(|s.t.lits|, a, map[])], |s.t.lits|)
  {
    var now := said + [Said(|s.t.lits|, a, map[])];
    hide HeedsAt;
    forall k | 0 <= k < |now| ensures Heeds(u.f.constraints[k], u.tell[k], u.t, now[k], |s.t.lits|) {
      if k < |said| {
        assert Heeds(s.f.constraints[k], s.tell[k], s.t, said[k], |s.t.lits|);
        HeedsLonger(s.f.constraints[k], s.tell[k], s.t, u.t, said[k], |s.t.lits|);
      }
    }
  }

  lemma LateInTrail(lits: seq<Lit>, m: nat, i: nat)
    requires m <= |lits| && i < |lits|
    ensures lits[i] !in lits[..m] ==> m <= i
  {
    if i < m {
      assert lits[..m][i] == lits[i];
    }
  }

  lemma HeedsTrue(con: Constraint, tell: Teller, t: Trail, said: Said)
    requires Heeds(con, tell, t, said, |t.lits|)
    ensures said.start.accept && said.joined <= |t.lits| && forall x :: x in said.start.implied ==> x in t.lits
    ensures forall p :: p in con.watched && p in t.lits && p !in t.lits[..said.joined] ==>
              && p in said.since && said.since[p].accept
              && forall x :: x in said.since[p].implied ==> x in t.lits
  {
    hide Gave;
    forall p | p in con.watched && p in t.lits && p !in t.lits[..said.joined]
      ensures p in said.since && said.since[p].accept && forall x :: x in said.since[p].implied ==> x in t.lits
    {
      var i :| 0 <= i < |t.lits| && t.lits[i] == p;
      LateInTrail(t.lits, said.joined, i);
      assert HeedsAt(con, tell, t, said, i);
    }
  }

  lemma BaseLogs(s: State)
    requires Base(s)
    ensures |s.log| == |s.f.constraints|
  {
  }

  // When propagate has ended without a conflict, every literal that a constraint has
  // enqueued in answer to a literal that is still true is itself true, and so are
  // those that initialize enqueued.
  lemma NothingDropped(s: State, said: seq<Said>)
    requires Ready(s) && s.qhead == |s.t.lits| && Heeded(s, said, s.qhead)
    ensures |said| == |s.f.constraints| == |s.log| == |s.tell|
    ensures forall k :: 0 <= k < |said| ==>
              said[k].start.accept && forall x :: x in said[k].start.implied ==> x in s.t.lits
    ensures forall k, p :: 0 <= k < |said| && p in s.log[k] && p !in s.t.lits[..said[k].joined] ==>
              && p in said[k].since && said[k].since[p].accept
              && forall x :: x in said[k].since[p].implied ==> x in s.t.lits
  {
    hide Propagating, Heeds, HeedsAt, Gave, Call;
    ReadyFacts(s);
    BaseLogs(s);
    forall k | 0 <= k < |said|
      ensures said[k].start.accept && said[k].joined <= |s.t.lits|
      ensures forall x :: x in said[k].start.implied ==> x in s.t.lits
      ensures forall p :: p in s.log[k] && p !in s.t.lits[..said[k].joined] ==>
                && p in said[k].since && said[k].since[p].accept
                && forall x :: x in said[k].since[p].implied ==> x in s.t.lits
    {
      assert Heeds(s.f.constraints[k], s.tell[k], s.t, said[k], |s.t.lits|);
      FixpointFed(s, k);
      HeedsTrue(s.f.constraints[k], s.tell[k], s.t, said[k]);
    }
  }
}
