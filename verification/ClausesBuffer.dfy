// parallel/ClausesBuffer.cc: the ring buffer through which threads exchange
// clauses, with more than one thread and with old clauses never pushed out.  Each
// call is one step, as SharedCompanion holds a lock around it.
module Buffers {
  import opened Logic

  // ------------------------------------------------------------------ the ring

  // addIndex(i, a)
  function AddIndex(i: nat, a: nat, m: nat): nat {
    if i + a >= m then i + a - m else i + a
  }

  // Behind place last the ring holds q.
  ghost predicate RingHolds(elems: seq<nat>, last: nat, q: seq<nat>) {
    && last < |elems| && |q| < |elems|
    && forall d :: 0 <= d < |q| ==> Slot(elems, last, d) == q[d]
  }

  ghost function Slot(elems: seq<nat>, last: nat, d: nat): nat
    requires last < |elems| && d < |elems|
  {
    elems[AddIndex(last, d + 1, |elems|)]
  }

  lemma AddTwice(i: nat, a: nat, b: nat, m: nat)
    requires i < m && a + b <= m && a < m
    ensures AddIndex(i, a, m) < m && AddIndex(AddIndex(i, a, m), b, m) == AddIndex(i, a + b, m)
  {
  }

  lemma IndexInjective(i: nat, a: nat, b: nat, m: nat)
    requires i < m && a <= m && b <= m && a < b + m && b < a + m
    ensures AddIndex(i, a, m) == AddIndex(i, b, m) <==> a == b
  {
  }

  lemma RingPush(elems: seq<nat>, last: nat, q: seq<nat>, x: nat)
    requires RingHolds(elems, last, q) && |q| + 1 < |elems|
    ensures var first := AddIndex(last, |q| + 1, |elems|);
            && first < |elems| && RingHolds(elems[first := x], last, q + [x])
            && AddIndex(first, 1, |elems|) == AddIndex(last, |q| + 2, |elems|)
  {
    var m := |elems|;
    var first := AddIndex(last, |q| + 1, m);
    var now := elems[first := x];
    forall d | 0 <= d < |q| + 1 ensures Slot(now, last, d) == (q + [x])[d] {
      IndexInjective(last, d + 1, |q| + 1, m);
      assert d < |q| ==> Slot(elems, last, d) == q[d];
    }
  }

  lemma RingSet(elems: seq<nat>, last: nat, q: seq<nat>, d: nat, x: nat)
    requires RingHolds(elems, last, q) && d < |q|
    ensures var at := AddIndex(last, d + 1, |elems|);
            at < |elems| && RingHolds(elems[at := x], last, q[d := x])
  {
    var m := |elems|;
    var now := elems[AddIndex(last, d + 1, m) := x];
    forall e | 0 <= e < |q| ensures Slot(now, last, e) == q[d := x][e] {
      IndexInjective(last, e + 1, d + 1, m);
      assert Slot(elems, last, e) == q[e];
    }
  }

  lemma RingDrop(elems: seq<nat>, last: nat, q: seq<nat>, n: nat)
    requires RingHolds(elems, last, q) && n <= |q|
    ensures RingHolds(elems, AddIndex(last, n, |elems|), q[n..])
  {
    var m := |elems|;
    var less := q[n..];
    forall d | 0 <= d < |less| ensures Slot(elems, AddIndex(last, n, m), d) == less[d] {
      AddTwice(last, n, d + 1, m);
      assert Slot(elems, last, n + d) == q[n + d];
    }
  }

  lemma RingGet(elems: seq<nat>, last: nat, q: seq<nat>, at: nat, off: nat, a: nat)
    requires RingHolds(elems, last, q) && 1 <= a && off + a <= |q| && at == AddIndex(last, off, |elems|)
    ensures AddIndex(at, a, |elems|) == AddIndex(last, off + a, |elems|) < |elems|
    ensures elems[AddIndex(at, a, |elems|)] == q[off + a - 1]
  {
    AddTwice(last, off, a, |elems|);
    assert Slot(elems, last, off + a - 1) == q[off + a - 1];
  }

  // --------------------------------------------------------------- the records

  datatype Msg = Msg(origin: nat, lits: Clause)

  function Size(msg: Msg): nat {
    3 + |msg.lits|
  }

  // The threads, other than the origin, that have not come past record k.
  ghost function Waiting(at: seq<nat>, origin: nat, k: nat): set<nat> {
    set t | 0 <= t < |at| && t != origin && at[t] <= k
  }

  ghost function Record(msg: Msg, nseen: nat): seq<nat> {
    [|msg.lits|, nseen, msg.origin] + Codes(msg.lits)
  }

  // Where record k starts, counted from record r.
  ghost function Off(log: seq<Msg>, r: nat, k: nat): nat
    requires k <= |log|
  {
    if k <= r then 0 else Off(log, r, k - 1) + Size(log[k - 1])
  }

  // What the ring holds: the records from r to k.
  ghost function Image(log: seq<Msg>, at: seq<nat>, r: nat, k: nat): (q: seq<nat>)
    requires k <= |log|
    ensures |q| == Off(log, r, k)
  {
    if k <= r then []
    else Image(log, at, r, k - 1) + Record(log[k - 1], |Waiting(at, log[k - 1].origin, k - 1)|)
  }

  lemma {:induction false} OffGrows(log: seq<Msg>, r: nat, k: nat, j: nat)
    requires r <= k <= j <= |log|
    ensures Off(log, r, k) + 3 * (j - k) <= Off(log, r, j)
  {
    if k < j {
      OffGrows(log, r, k, j - 1);
    }
  }

  lemma {:induction false} OffLater(log: seq<Msg>, r: nat, k: nat)
    requires r < k <= |log|
    ensures Off(log, r, k) == Size(log[r]) + Off(log, r + 1, k)
  {
    if k > r + 1 {
      OffLater(log, r, k - 1);
    }
  }

  lemma OffStart(log: seq<Msg>, r: nat, k: nat)
    requires r <= k <= |log|
    ensures Off(log, r, k) == 0 <==> k == r
  {
    OffGrows(log, r, r, k);
  }

  lemma OffInside(log: seq<Msg>, r: nat, k: nat, j: nat)
    requires r <= k < j <= |log|
    ensures Off(log, r, k) + Size(log[k]) <= Off(log, r, j)
  {
    OffGrows(log, r, k + 1, j);
  }

  // Record k stands where Off says.
  lemma {:induction false} ImageAt(log: seq<Msg>, at: seq<nat>, r: nat, k: nat, j: nat)
    requires r <= k < j <= |log|
    ensures var q, o := Image(log, at, r, j), Off(log, r, k);
            && o + Size(log[k]) <= |q|
            && q[o] == |log[k].lits| && q[o + 1] == |Waiting(at, log[k].origin, k)| && q[o + 2] == log[k].origin
            && forall i :: 0 <= i < |log[k].lits| ==> q[o + 3 + i] == ToInt(log[k].lits[i])
  {
    hide Waiting;
    if k < j - 1 {
      ImageAt(log, at, r, k, j - 1);
    } else {
      var rec := Record(log[k], |Waiting(at, log[k].origin, k)|);
      forall i | 0 <= i < |log[k].lits| ensures rec[3 + i] == ToInt(log[k].lits[i]) {
        assert rec[3 + i] == Codes(log[k].lits)[i];
      }
    }
  }

  // Cursors that wait for the same records leave the same image.
  lemma {:induction false} ImageSame(log: seq<Msg>, at: seq<nat>, now: seq<nat>, r: nat, k: nat)
    requires k <= |log|
    requires forall j :: r <= j < k ==> Waiting(at, log[j].origin, j) == Waiting(now, log[j].origin, j)
    ensures Image(log, at, r, k) == Image(log, now, r, k)
  {
    hide Waiting, Record;
    if k > r {
      ImageSame(log, at, now, r, k - 1);
    }
  }

  // The first record goes.
  lemma {:induction false} ImageDrop(log: seq<Msg>, at: seq<nat>, r: nat, k: nat)
    requires r < k <= |log|
    ensures Size(log[r]) <= |Image(log, at, r, k)| && Image(log, at, r, k)[Size(log[r])..] == Image(log, at, r + 1, k)
  {
    hide Waiting, Record, Size, Off;
    var rec := Record(log[k - 1], |Waiting(at, log[k - 1].origin, k - 1)|);
    if k == r + 1 {
      RecordSize(log[r], |Waiting(at, log[r].origin, r)|);
      assert Image(log, at, r, r) == [] && Image(log, at, r + 1, k) == [];
      assert Image(log, at, r, k) == rec;
    } else {
      ImageDrop(log, at, r, k - 1);
      DropJoin(Image(log, at, r, k - 1), rec, Size(log[r]));
    }
  }

  lemma DropJoin(x: seq<nat>, y: seq<nat>, n: nat)
    requires n <= |x|
    ensures (x + y)[n..] == x[n..] + y
  {
  }

  // Thread t comes past record k, which is another's: one thread less waits.
  lemma {:induction false} ImageRead(log: seq<Msg>, at: seq<nat>, r: nat, k: nat, j: nat, t: nat)
    requires r <= k < j <= |log| && t < |at| && at[t] == k && log[k].origin != t
    ensures var o := Off(log, r, k);
            && o + 1 < |Image(log, at, r, j)| && |Waiting(at, log[k].origin, k)| > 0
            && Image(log, at[t := k + 1], r, j)
               == Image(log, at, r, j)[o + 1 := |Waiting(at, log[k].origin, k)| - 1]
  {
    hide Waiting, Record, Off, Image;
    if k < j - 1 {
      ImageRead(log, at, r, k, j - 1, t);
      RecordAfter(log, at, r, k, j, t);
    } else {
      LastRead(log, at, r, k, t);
    }
  }

  lemma ImageLast(log: seq<Msg>, at: seq<nat>, r: nat, j: nat)
    requires r < j <= |log|
    ensures Image(log, at, r, j)
         == Image(log, at, r, j - 1) + Record(log[j - 1], |Waiting(at, log[j - 1].origin, j - 1)|)
  {
    hide Waiting, Record, Off;
  }

  lemma RecordAfter(log: seq<Msg>, at: seq<nat>, r: nat, k: nat, j: nat, t: nat)
    requires r <= k < j - 1 && j <= |log| && t < |at| && at[t] == k
    requires var o := Off(log, r, k);
             && o + 1 < |Image(log, at, r, j - 1)| && |Waiting(at, log[k].origin, k)| > 0
             && Image(log, at[t := k + 1], r, j - 1)
                == Image(log, at, r, j - 1)[o + 1 := |Waiting(at, log[k].origin, k)| - 1]
    ensures var o := Off(log, r, k);
            && o + 1 < |Image(log, at, r, j)|
            && Image(log, at[t := k + 1], r, j)
               == Image(log, at, r, j)[o + 1 := |Waiting(at, log[k].origin, k)| - 1]
  {
    hide Waiting, Record, Off, Image;
    var w := |Waiting(at, log[k].origin, k)|;
    ImageLast(log, at, r, j);
    ImageLast(log, at[t := k + 1], r, j);
    WaitingSame(at, log[j - 1].origin, k, j - 1, t);
    SetFront(Image(log, at, r, j - 1), Record(log[j - 1], |Waiting(at, log[j - 1].origin, j - 1)|),
             Off(log, r, k) + 1, w - 1);
  }

  lemma LastRead(log: seq<Msg>, at: seq<nat>, r: nat, k: nat, t: nat)
    requires r <= k < |log| && t < |at| && at[t] == k && log[k].origin != t
    ensures var o := Off(log, r, k);
            && o + 1 < |Image(log, at, r, k + 1)| && |Waiting(at, log[k].origin, k)| > 0
            && Image(log, at[t := k + 1], r, k + 1)
               == Image(log, at, r, k + 1)[o + 1 := |Waiting(at, log[k].origin, k)| - 1]
  {
    hide Waiting, Record, Off;
    var w := |Waiting(at, log[k].origin, k)|;
    WaitingLess(at, log[k].origin, k, t);
    RecordSet(log[k], w);
    SetBack(Image(log, at, r, k), Record(log[k], w), 1, w - 1);
    forall i | r <= i < k ensures Waiting(at, log[i].origin, i) == Waiting(at[t := k + 1], log[i].origin, i) {
      WaitingSame(at, log[i].origin, k, i, t);
    }
    ImageSame(log, at, at[t := k + 1], r, k);
  }

  lemma SetFront(x: seq<nat>, y: seq<nat>, i: nat, v: nat)
    requires i < |x|
    ensures x[i := v] + y == (x + y)[i := v]
  {
  }

  lemma SetBack(x: seq<nat>, y: seq<nat>, i: nat, v: nat)
    requires i < |y|
    ensures x + y[i := v] == (x + y)[|x| + i := v]
  {
  }

  lemma RecordSet(msg: Msg, w: nat)
    requires w > 0
    ensures |Record(msg, w)| > 1 && Record(msg, w)[1 := w - 1] == Record(msg, w - 1)
  {
  }

  lemma WaitingLess(at: seq<nat>, origin: nat, k: nat, t: nat)
    requires t < |at| && at[t] == k && origin != t
    ensures |Waiting(at, origin, k)| > 0
    ensures |Waiting(at[t := k + 1], origin, k)| == |Waiting(at, origin, k)| - 1
  {
    var w := Waiting(at, origin, k);
    assert t in w;
    assert Waiting(at[t := k + 1], origin, k) == w - {t};
  }

  // Coming past record k matters to record k only, and not if it is one's own.
  lemma WaitingSame(at: seq<nat>, origin: nat, k: nat, j: nat, t: nat)
    requires t < |at| && at[t] == k && (j != k || origin == t)
    ensures Waiting(at[t := k + 1], origin, j) == Waiting(at, origin, j)
  {
  }

  lemma WaitingAll(at: seq<nat>, origin: nat, k: nat)
    requires origin < |at| && forall t :: 0 <= t < |at| ==> at[t] <= k
    ensures |Waiting(at, origin, k)| == |at| - 1
  {
    assert Waiting(at, origin, k) == UpTo(|at|) - {origin};
  }

  ghost function UpTo(n: nat): (s: set<nat>)
    ensures |s| == n && forall t: nat :: t in s <==> t < n
  {
    if n == 0 then {} else UpTo(n - 1) + {n - 1}
  }

  // ------------------------------------------------------------- the messages

  // The messages of the other threads, in order.
  ghost function Others(log: seq<Msg>, t: nat): seq<Msg> {
    if log == [] then []
    else Others(log[..|log| - 1], t) + if log[|log| - 1].origin == t then [] else [log[|log| - 1]]
  }

  lemma OthersStep(log: seq<Msg>, t: nat, k: nat)
    requires k < |log|
    ensures Others(log[..k + 1], t) == Others(log[..k], t) + if log[k].origin == t then [] else [log[k]]
  {
    assert log[..k + 1][..k] == log[..k];
  }

  lemma {:induction false} OthersPrefix(log: seq<Msg>, t: nat, k: nat)
    requires k <= |log|
    ensures Others(log[..k], t) <= Others(log, t)
    decreases |log| - k
  {
    if k < |log| {
      OthersPrefix(log, t, k + 1);
      OthersStep(log, t, k);
    } else {
      assert log[..k] == log;
    }
  }

  // ------------------------------------------------------------- the history

  // What has happened so far: the clauses accepted, how far each thread has come
  // in them, how many records are gone from the ring, and what each thread got.
  datatype Hist = Hist(log: seq<Msg>, at: seq<nat>, gone: nat, got: seq<seq<Msg>>)

  ghost predicate HistOK(h: Hist, nb: nat) {
    && |h.at| == |h.got| == nb && h.gone <= |h.log|
    && (forall k :: 0 <= k < |h.log| ==> h.log[k].origin < nb)
    && (forall t :: 0 <= t < nb ==> ThreadOK(h, t))
  }

  // Thread t got the clauses of the others up to where it is, in order.
  ghost predicate ThreadOK(h: Hist, t: nat)
    requires t < |h.at| && t < |h.got|
  {
    h.gone <= h.at[t] <= |h.log| && h.got[t] == Others(h.log[..h.at[t]], t)
  }

  ghost function Queue(h: Hist): seq<nat>
    requires h.gone <= |h.log|
  {
    Image(h.log, h.at, h.gone, |h.log|)
  }

  // The nseen field of record k.
  ghost function Unseen(h: Hist, k: nat): nat
    requires k < |h.log|
  {
    |Waiting(h.at, h.log[k].origin, k)|
  }

  // Some thread still has to read the first record.
  ghost predicate HeadWaits(h: Hist) {
    h.gone < |h.log| ==> Unseen(h, h.gone) > 0
  }

  ghost predicate RingOK(elems: seq<nat>, first: nat, last: nat, queuesize: nat, h: Hist) {
    && h.gone <= |h.log| && RingHolds(elems, last, Queue(h))
    && queuesize == |Queue(h)| && first == AddIndex(last, queuesize + 1, |elems|)
  }

  // The cursor of each thread, other than skip, stands at its next record.
  ghost predicate CursorsOK(cursors: seq<nat>, last: nat, m: nat, h: Hist, skip: int) {
    |cursors| == |h.at| && forall t :: 0 <= t < |cursors| && t != skip ==> CursorOK(cursors[t], last, m, h, t)
  }

  ghost predicate CursorOK(cursor: nat, last: nat, m: nat, h: Hist, t: nat)
    requires t < |h.at|
  {
    h.at[t] <= |h.log| && cursor == AddIndex(last, Off(h.log, h.gone, h.at[t]), m)
  }

  // ------------------------------------------------------------------- push

  ghost function Pushed(h: Hist, msg: Msg): Hist {
    h.(log := h.log + [msg])
  }

  lemma {:induction false} OffSame(log: seq<Msg>, more: seq<Msg>, r: nat, k: nat)
    requires k <= |log| && log <= more
    ensures Off(more, r, k) == Off(log, r, k)
  {
    if k > r {
      OffSame(log, more, r, k - 1);
    }
  }

  lemma {:induction false} ImageMore(log: seq<Msg>, more: seq<Msg>, at: seq<nat>, r: nat, k: nat)
    requires k <= |log| && log <= more
    ensures Image(more, at, r, k) == Image(log, at, r, k)
  {
    hide Waiting, Record;
    if k > r {
      ImageMore(log, more, at, r, k - 1);
    }
  }

  lemma PushedOK(h: Hist, msg: Msg, nb: nat)
    requires HistOK(h, nb) && msg.origin < nb && nb > 1
    ensures HistOK(Pushed(h, msg), nb)
    ensures Queue(Pushed(h, msg)) == Queue(h) + Record(msg, nb - 1)
    ensures HeadWaits(h) ==> HeadWaits(Pushed(h, msg))
    ensures forall t :: 0 <= t < nb && h.at[t] <= |h.log| ==>
              Off(h.log + [msg], h.gone, h.at[t]) == Off(h.log, h.gone, h.at[t])
  {
    hide Others, Waiting, Record;
    var g, n := Pushed(h, msg), |h.log|;
    ImageMore(h.log, g.log, h.at, h.gone, n);
    forall t | 0 <= t < nb
      ensures ThreadOK(g, t) && h.at[t] <= n && Off(g.log, h.gone, h.at[t]) == Off(h.log, h.gone, h.at[t])
    {
      assert ThreadOK(h, t);
      assert g.log[..h.at[t]] == h.log[..h.at[t]];
      OffSame(h.log, g.log, h.gone, h.at[t]);
    }
    WaitingAll(h.at, msg.origin, n);
  }

  // -------------------------------------------------------------------- drop

  ghost function Dropped(h: Hist): Hist {
    h.(gone := h.gone + 1,
       at := seq(|h.at|, i requires 0 <= i < |h.at| => if h.at[i] == h.gone then h.gone + 1 else h.at[i]))
  }

  lemma DroppedOK(h: Hist, nb: nat)
    requires HistOK(h, nb) && h.gone < |h.log| && Unseen(h, h.gone) == 0
    ensures HistOK(Dropped(h), nb)
  {
    hide Others;
    var g := Dropped(h);
    forall t | 0 <= t < nb ensures ThreadOK(g, t) {
      assert ThreadOK(h, t);
      if h.at[t] == h.gone {
        OwnHead(h, t);
        OthersStep(h.log, t, h.gone);
      }
    }
  }

  // Whoever has not come past a record that nobody waits for pushed it.
  lemma OwnHead(h: Hist, t: nat)
    requires h.gone < |h.log| && Unseen(h, h.gone) == 0 && t < |h.at| && h.at[t] == h.gone
    ensures h.log[h.gone].origin == t
  {
    var w := Waiting(h.at, h.log[h.gone].origin, h.gone);
    assert w == {};
    assert t in w || h.log[h.gone].origin == t;
  }

  lemma DroppedQueue(h: Hist, nb: nat)
    requires HistOK(h, nb) && h.gone < |h.log| && Unseen(h, h.gone) == 0
    ensures Size(h.log[h.gone]) <= |Queue(h)| && Queue(Dropped(h)) == Queue(h)[Size(h.log[h.gone])..]
  {
    var g := Dropped(h);
    forall j | h.gone + 1 <= j < |h.log|
      ensures Waiting(h.at, h.log[j].origin, j) == Waiting(g.at, h.log[j].origin, j)
    {
      DroppedWaiting(h, j);
    }
    hide Waiting;
    ImageDrop(h.log, h.at, h.gone, |h.log|);
    ImageSame(h.log, h.at, g.at, h.gone + 1, |h.log|);
  }

  lemma DroppedWaiting(h: Hist, j: nat)
    requires h.gone < j < |h.log|
    ensures Waiting(h.at, h.log[j].origin, j) == Waiting(Dropped(h).at, h.log[j].origin, j)
  {
  }

  lemma DroppedCursor(h: Hist, nb: nat, cursor: nat, last: nat, m: nat, t: nat)
    requires HistOK(h, nb) && h.gone < |h.log| && t < nb && last < m && |Queue(h)| < m
    requires CursorOK(cursor, last, m, h, t)
    ensures var n := Size(h.log[h.gone]);
            && n <= |Queue(h)|
            && CursorOK(if cursor == last then AddIndex(last, n, m) else cursor, AddIndex(last, n, m), m, Dropped(h), t)
  {
    assert ThreadOK(h, t);
    var k, n := h.at[t], Size(h.log[h.gone]);
    OffGrows(h.log, h.gone, k, |h.log|);
    OffLater(h.log, h.gone, |h.log|);
    IndexInjective(last, Off(h.log, h.gone, k), 0, m);
    if k > h.gone {
      OffLater(h.log, h.gone, k);
      AddTwice(last, n, Off(h.log, h.gone + 1, k), m);
    }
  }

  // -------------------------------------------------------------------- read

  // Thread t skips its own records up to k.
  ghost function Skipped(h: Hist, t: nat, k: nat): Hist
    requires t < |h.at|
  {
    h.(at := h.at[t := k])
  }

  lemma SkipOne(h: Hist, nb: nat, t: nat)
    requires HistOK(h, nb) && t < nb && h.at[t] < |h.log| && h.log[h.at[t]].origin == t
    ensures HistOK(Skipped(h, t, h.at[t] + 1), nb) && Queue(Skipped(h, t, h.at[t] + 1)) == Queue(h)
    ensures HeadWaits(h) ==> HeadWaits(Skipped(h, t, h.at[t] + 1))
  {
    hide Others, Image;
    assert ThreadOK(h, t);
    var k := h.at[t];
    var g := Skipped(h, t, k + 1);
    OthersStep(h.log, t, k);
    forall x | 0 <= x < nb ensures ThreadOK(g, x) {
      assert ThreadOK(h, x);
    }
    forall j | h.gone <= j < |h.log| ensures Waiting(h.at, h.log[j].origin, j) == Waiting(g.at, h.log[j].origin, j) {
      WaitingSame(h.at, h.log[j].origin, k, j, t);
    }
    ImageSame(h.log, h.at, g.at, h.gone, |h.log|);
  }

  // Thread t reads record at[t].
  ghost function Read(h: Hist, t: nat): Hist
    requires t < |h.at| && t < |h.got| && h.at[t] < |h.log|
  {
    h.(at := h.at[t := h.at[t] + 1], got := h.got[t := h.got[t] + [h.log[h.at[t]]]])
  }

  lemma ReadOK(h: Hist, nb: nat, t: nat)
    requires HistOK(h, nb) && t < nb && h.at[t] < |h.log| && h.log[h.at[t]].origin != t
    ensures HistOK(Read(h, t), nb) && Unseen(h, h.at[t]) > 0 && Unseen(Read(h, t), h.at[t]) == Unseen(h, h.at[t]) - 1
    ensures var o := Off(h.log, h.gone, h.at[t]);
            o + 1 < |Queue(h)| && Queue(Read(h, t)) == Queue(h)[o + 1 := Unseen(h, h.at[t]) - 1]
    ensures h.gone < h.at[t] && HeadWaits(h) ==> HeadWaits(Read(h, t))
  {
    hide Others, Image, Off;
    assert ThreadOK(h, t);
    var k := h.at[t];
    var g := Read(h, t);
    OthersStep(h.log, t, k);
    forall x | 0 <= x < nb ensures ThreadOK(g, x) {
      assert ThreadOK(h, x);
    }
    WaitingLess(h.at, h.log[k].origin, k, t);
    ImageRead(h.log, h.at, h.gone, k, |h.log|, t);
    if h.gone < k {
      WaitingSame(h.at, h.log[h.gone].origin, k, h.gone, t);
    }
  }

  // The thread has got everything from the others once it is at the end.
  lemma CaughtUp(h: Hist, nb: nat, t: nat)
    requires HistOK(h, nb) && t < nb
    ensures h.got[t] <= Others(h.log, t)
    ensures h.at[t] == |h.log| ==> h.got[t] == Others(h.log, t)
    ensures h.at[t] < |h.log| && h.log[h.at[t]].origin != t ==>
              |h.got[t]| < |Others(h.log, t)| && Others(h.log, t)[|h.got[t]|] == h.log[h.at[t]]
  {
    assert ThreadOK(h, t);
    var k := h.at[t];
    assert h.log[..|h.log|] == h.log;
    OthersPrefix(h.log, t, k);
    if k < |h.log| {
      OthersPrefix(h.log, t, k + 1);
      OthersStep(h.log, t, k);
    }
  }

  // Whether a cursor is taken for one that fell behind.
  predicate LooksStale(cursor: nat, last: nat, first: nat) {
    (cursor < last && last < first) || (first < cursor && cursor < last) || (last < first && first < cursor)
  }

  // Cursors never do.
  lemma NeverStale(elems: seq<nat>, first: nat, last: nat, queuesize: nat, h: Hist, nb: nat, cursor: nat, t: nat)
    requires HistOK(h, nb) && RingOK(elems, first, last, queuesize, h) && t < nb
    requires CursorOK(cursor, last, |elems|, h, t)
    ensures !LooksStale(cursor, last, first)
    ensures cursor < |elems| && first < |elems|
    ensures AddIndex(cursor, 1, |elems|) == first <==> h.at[t] == |h.log|
  {
    assert ThreadOK(h, t);
    OffGrows(h.log, h.gone, h.at[t], |h.log|);
    AddTwice(last, Off(h.log, h.gone, h.at[t]), 1, |elems|);
    IndexInjective(last, Off(h.log, h.gone, h.at[t]) + 1, queuesize + 1, |elems|);
  }

  lemma Started(nb: nat, m: nat)
    requires m > 0
    ensures var h := Hist([], seq(nb, t => 0), 0, seq(nb, t => []));
            && HistOK(h, nb) && HeadWaits(h) && Queue(h) == []
            && CursorsOK(seq(nb, t => m - 1), m - 1, m, h, -1)
  {
    var h := Hist([], seq(nb, t => 0), 0, seq(nb, t => []));
    forall t | 0 <= t < nb ensures ThreadOK(h, t) {
    }
  }

  // The state once a whole record has been written behind the others.
  lemma PushDone(elems: seq<nat>, first: nat, last: nat, queuesize: nat, cursors: seq<nat>, h: Hist, nb: nat, msg: Msg)
    requires HistOK(h, nb) && CursorsOK(cursors, last, |elems|, h, -1) && HeadWaits(h) && nb > 1 && msg.origin < nb
    requires RingHolds(elems, last, Queue(h) + Record(msg, nb - 1))
    requires queuesize == |Queue(h)| && first == AddIndex(last, queuesize + Size(msg) + 1, |elems|)
    ensures var g := Pushed(h, msg);
            && HistOK(g, nb) && RingOK(elems, first, last, queuesize + Size(msg), g) && HeadWaits(g)
            && CursorsOK(cursors, last, |elems|, g, -1)
  {
    hide HistOK, RingHolds, Image, Record, Off, HeadWaits;
    HistSizes(h, nb);
    PushedOK(h, msg, nb);
    RecordSize(msg, nb - 1);
    forall t | 0 <= t < |cursors| ensures CursorOK(cursors[t], last, |elems|, Pushed(h, msg), t) {
      assert CursorOK(cursors[t], last, |elems|, h, t);
    }
  }

  lemma RecordSize(msg: Msg, nseen: nat)
    ensures |Record(msg, nseen)| == Size(msg)
  {
  }

  lemma HistSizes(h: Hist, nb: nat)
    requires HistOK(h, nb)
    ensures |h.at| == |h.got| == nb && h.gone <= |h.log|
    ensures forall t :: 0 <= t < nb ==> h.gone <= h.at[t] <= |h.log|
  {
    forall t | 0 <= t < nb ensures h.gone <= h.at[t] <= |h.log| {
      assert ThreadOK(h, t);
    }
  }

  // The head of the ring.
  lemma HeadFields(elems: seq<nat>, first: nat, last: nat, queuesize: nat, h: Hist)
    requires RingOK(elems, first, last, queuesize, h) && h.gone < |h.log|
    ensures queuesize >= Size(h.log[h.gone]) && last < |elems| && queuesize < |elems|
    ensures AddIndex(last, 1, |elems|) < |elems| && elems[AddIndex(last, 1, |elems|)] == |h.log[h.gone].lits|
    ensures AddIndex(last, 2, |elems|) < |elems| && elems[AddIndex(last, 2, |elems|)] == Unseen(h, h.gone)
  {
    hide RingHolds;
    ImageAt(h.log, h.at, h.gone, h.gone, |h.log|);
    RingBounds(elems, last, Queue(h));
    RingGet(elems, last, Queue(h), last, 0, 1);
    RingGet(elems, last, Queue(h), last, 0, 2);
  }

  lemma RingBounds(elems: seq<nat>, last: nat, q: seq<nat>)
    requires RingHolds(elems, last, q)
    ensures last < |elems| && |q| < |elems| && AddIndex(last, 0, |elems|) == last
  {
  }

  // The ring is empty exactly when every record is gone.
  lemma EmptyRing(elems: seq<nat>, first: nat, last: nat, queuesize: nat, h: Hist)
    requires RingOK(elems, first, last, queuesize, h)
    ensures queuesize == 0 <==> h.gone == |h.log|
  {
    OffGrows(h.log, h.gone, h.gone, |h.log|);
    OffGrows(h.log, h.gone, |h.log|, |h.log|);
    if h.gone < |h.log| {
      OffInside(h.log, h.gone, h.gone, |h.log|);
    }
  }

  ghost predicate Moved(cursors: seq<nat>, now: seq<nat>, last: nat, next: nat) {
    |now| == |cursors| && forall i :: 0 <= i < |now| ==> now[i] == if cursors[i] == last then next else cursors[i]
  }

  lemma DropDone(elems: seq<nat>, first: nat, last: nat, queuesize: nat, cursors: seq<nat>, now: seq<nat>, h: Hist,
                 nb: nat, skip: int)
    requires HistOK(h, nb) && RingOK(elems, first, last, queuesize, h) && CursorsOK(cursors, last, |elems|, h, skip)
    requires h.gone < |h.log| && Unseen(h, h.gone) == 0
    requires Moved(cursors, now, last, AddIndex(last, Size(h.log[h.gone]), |elems|))
    ensures var n := Size(h.log[h.gone]);
            && n <= queuesize && HistOK(Dropped(h), nb)
            && RingOK(elems, first, AddIndex(last, n, |elems|), queuesize - n, Dropped(h))
            && CursorsOK(now, AddIndex(last, n, |elems|), |elems|, Dropped(h), skip)
  {
    hide HistOK, Image, Unseen, CursorOK, RingHolds;
    var n, m := Size(h.log[h.gone]), |elems|;
    RingBounds(elems, last, Queue(h));
    HistSizes(h, nb);
    DroppedOK(h, nb);
    DroppedQueue(h, nb);
    RingDrop(elems, last, Queue(h), n);
    AddTwice(last, n, queuesize - n + 1, m);
    forall t | 0 <= t < |now| && t != skip ensures CursorOK(now[t], AddIndex(last, n, m), m, Dropped(h), t) {
      DroppedCursor(h, nb, cursors[t], last, m, t);
    }
  }

  // The fields of record k, seen from a cursor in front of it.
  lemma RecordFields(elems: seq<nat>, first: nat, last: nat, queuesize: nat, h: Hist, cursor: nat, k: nat)
    requires RingOK(elems, first, last, queuesize, h) && h.gone <= k < |h.log|
    requires cursor == AddIndex(last, Off(h.log, h.gone, k), |elems|)
    ensures var m, msg := |elems|, h.log[k];
            && cursor < m && AddIndex(cursor, 1, m) < m && AddIndex(cursor, 2, m) < m && AddIndex(cursor, 3, m) < m
            && elems[AddIndex(cursor, 1, m)] == |msg.lits| && elems[AddIndex(cursor, 2, m)] == Unseen(h, k)
            && elems[AddIndex(cursor, 3, m)] == msg.origin
            && Size(msg) < m
            && (forall i :: 0 <= i < |msg.lits| ==> LitAt(elems, cursor, i, msg.lits))
            && AddIndex(cursor, Size(msg), m) == AddIndex(last, Off(h.log, h.gone, k + 1), m)
  {
    hide RingHolds;
    var q, o := Queue(h), Off(h.log, h.gone, k);
    OffInside(h.log, h.gone, k, |h.log|);
    RingBounds(elems, last, q);
    ImageAt(h.log, h.at, h.gone, k, |h.log|);
    hide Image, Unseen;
    AddTwice(last, o, Size(h.log[k]), |elems|);
    RingGet(elems, last, q, cursor, o, 1);
    RingGet(elems, last, q, cursor, o, 2);
    RingGet(elems, last, q, cursor, o, 3);
    forall i | 0 <= i < |h.log[k].lits| ensures LitAt(elems, cursor, i, h.log[k].lits) {
      RingGet(elems, last, q, cursor, o, 4 + i);
    }
  }

  ghost predicate LitAt(elems: seq<nat>, cursor: nat, i: nat, lits: Clause) {
    var x := AddIndex(cursor, 4 + i, |elems|);
    i < |lits| && x < |elems| && elems[x] == ToInt(lits[i])
  }

  lemma SkipDone(elems: seq<nat>, first: nat, last: nat, queuesize: nat, h: Hist, nb: nat, cursor: nat, t: nat)
    requires HistOK(h, nb) && RingOK(elems, first, last, queuesize, h) && t < nb && HeadWaits(h)
    requires CursorOK(cursor, last, |elems|, h, t) && h.at[t] < |h.log| && h.log[h.at[t]].origin == t
    ensures var g := Skipped(h, t, h.at[t] + 1);
            && HistOK(g, nb) && RingOK(elems, first, last, queuesize, g) && HeadWaits(g)
            && CursorOK(AddIndex(cursor, Size(h.log[h.at[t]]), |elems|), last, |elems|, g, t)
  {
    hide HistOK, RingHolds, Image, HeadWaits, Off;
    HistSizes(h, nb);
    RecordFields(elems, first, last, queuesize, h, cursor, h.at[t]);
    SkipOne(h, nb, t);
  }

  // Taking one from the nseen field of the record that is read.
  lemma ReadDone(elems: seq<nat>, first: nat, last: nat, queuesize: nat, h: Hist, nb: nat, cursor: nat, t: nat)
    requires HistOK(h, nb) && RingOK(elems, first, last, queuesize, h) && t < nb
    requires CursorOK(cursor, last, |elems|, h, t) && h.at[t] < |h.log| && h.log[h.at[t]].origin != t
    ensures var x := AddIndex(cursor, 2, |elems|);
            && x < |elems| && elems[x] == Unseen(h, h.at[t]) > 0
            && HistOK(Read(h, t), nb) && RingOK(elems[x := elems[x] - 1], first, last, queuesize, Read(h, t))
            && Unseen(Read(h, t), h.at[t]) == elems[x] - 1
            && CursorOK(AddIndex(cursor, Size(h.log[h.at[t]]), |elems|), last, |elems|, Read(h, t), t)
            && (h.gone < h.at[t] && HeadWaits(h) ==> HeadWaits(Read(h, t)))
            && (cursor == last <==> h.at[t] == h.gone)
  {
    hide HistOK, Image, HeadWaits, Off, Unseen, RingHolds;
    HistSizes(h, nb);
    RecordFields(elems, first, last, queuesize, h, cursor, h.at[t]);
    var k, o := h.at[t], Off(h.log, h.gone, h.at[t]);
    OffInside(h.log, h.gone, k, |h.log|);
    OffStart(h.log, h.gone, k);
    RingBounds(elems, last, Queue(h));
    IndexInjective(last, o, 0, |elems|);
    AddTwice(last, o, 2, |elems|);
    ReadOK(h, nb, t);
    RingSet(elems, last, Queue(h), o + 1, elems[AddIndex(cursor, 2, |elems|)] - 1);
  }

  datatype Call = Push(t: nat, c: Clause) | Get(t: nat)

  class ClausesBuffer {
    const elems: array<nat>
    const maxsize: nat
    const nbThreads: nat
    var first: nat
    var last: nat
    var queuesize: nat
    var lastOfThread: seq<nat>
    ghost var h: Hist

    ghost predicate Valid() reads this, elems {
      && elems.Length == maxsize && nbThreads > 1
      && HistOK(h, nbThreads) && RingOK(elems[..], first, last, queuesize, h) && HeadWaits(h)
      && CursorsOK(lastOfThread, last, maxsize, h, -1)
    }

    constructor (nbThreads: nat, maxsize: nat)
      requires nbThreads > 1 && maxsize > 0
      ensures Valid() && fresh(elems) && this.nbThreads == nbThreads && this.maxsize == maxsize
      ensures h.log == [] && forall t :: 0 <= t < nbThreads ==> h.got[t] == []
    {
      elems := new nat[maxsize](i => 0);
      this.nbThreads, this.maxsize := nbThreads, maxsize;
      first, last, queuesize := 0, maxsize - 1, 0;
      lastOfThread := seq(nbThreads, t => maxsize - 1);
      h := Hist([], seq(nbThreads, t => 0), 0, seq(nbThreads, t => []));
      new;
      Started(nbThreads, maxsize);
    }

    function NextIndex(i: nat): nat {
      if i + 1 == maxsize then 0 else i + 1
    }

    method NoCheckPush(x: nat, ghost q: seq<nat>)
      requires elems.Length == maxsize && RingHolds(elems[..], last, q) && |q| + 1 < maxsize
      requires first == AddIndex(last, |q| + 1, maxsize)
      modifies this`first, elems
      ensures RingHolds(elems[..], last, q + [x]) && first == AddIndex(last, |q + [x]| + 1, maxsize)
    {
      RingPush(elems[..], last, q, x);
      ghost var e := elems[..];
      ghost var f := first;
      elems[first] := x;
      first := NextIndex(first);
      assert elems[..] == e[f := x];
    }

    // pushClause, with whenFullRemoveOlder off: refused if there is no room.
    method PushClause(threadId: nat, c: Clause) returns (ok: bool)
      requires Valid() && threadId < nbThreads
      modifies this`first, this`queuesize, this`h, elems
      ensures Valid()
      ensures ok <==> old(queuesize) + |c| + 3 < maxsize
      ensures ok ==> h.log == old(h.log) + [Msg(threadId, c)] && h.got == old(h.got)
      ensures !ok ==> h == old(h)
    {
      hide HistOK, RingHolds, Image, HeadWaits, CursorsOK, Record, Off;
      if queuesize + |c| + 3 >= maxsize {
        return false;
      }
      ghost var q, msg := Queue(h), Msg(threadId, c);
      NoCheckPush(|c|, q);
      NoCheckPush(if nbThreads > 1 then nbThreads - 1 else 1, q + [|c|]);
      NoCheckPush(threadId, q + [|c|] + [nbThreads - 1]);
      ghost var front := q + [|c|] + [nbThreads - 1] + [threadId];
      assert front + Codes(c[..0]) == front;
      for i := 0 to |c|
        invariant RingHolds(elems[..], last, front + Codes(c[..i]))
        invariant first == AddIndex(last, |front + Codes(c[..i])| + 1, maxsize)
        invariant h == old(h) && queuesize == old(queuesize)
      {
        assert front + Codes(c[..i]) + [ToInt(c[i])] == front + Codes(c[..i + 1]);
        NoCheckPush(ToInt(c[i]), front + Codes(c[..i]));
      }
      RecordWritten(q, msg, nbThreads - 1);
      RecordSize(msg, nbThreads - 1);
      PushDone(elems[..], first, last, queuesize, lastOfThread, h, nbThreads, msg);
      queuesize := queuesize + |c| + 3;
      h := Pushed(h, msg);
      ok := true;
    }

    // removeLastClause: records that nobody waits for leave the ring.  The cursor
    // of thread t is about to be set by the caller.
    method RemoveLastClause(ghost t: nat)
      requires elems.Length == maxsize && HistOK(h, nbThreads) && RingOK(elems[..], first, last, queuesize, h)
      requires CursorsOK(lastOfThread, last, maxsize, h, t) && h.gone < |h.log| && Unseen(h, h.gone) == 0
      requires t < nbThreads && h.at[t] == h.gone + 1
      modifies this`last, this`queuesize, this`lastOfThread, this`h
      ensures HistOK(h, nbThreads) && RingOK(elems[..], first, last, queuesize, h) && HeadWaits(h)
      ensures CursorsOK(lastOfThread, last, maxsize, h, t)
      ensures h.log == old(h.log) && h.got == old(h.got) && h.at[t] == h.gone
    {
      hide HistOK, RingOK, CursorsOK, Unseen, Size;
      HistSizes(h, nbThreads);
      while true
        invariant HistOK(h, nbThreads) && RingOK(elems[..], first, last, queuesize, h)
        invariant CursorsOK(lastOfThread, last, maxsize, h, t) && h.gone < |h.log| && Unseen(h, h.gone) == 0
        invariant t < nbThreads == |h.at| && (h.at[t] == h.gone + 1 || h.at[t] == h.gone)
        invariant h.log == old(h.log) && h.got == old(h.got)
        decreases |h.log| - h.gone
      {
        ghost var h0, cursors, last0, qs := h, lastOfThread, last, queuesize;
        ghost var n := Size(h.log[h.gone]);
        HeadFields(elems[..], first, last, queuesize, h);
        SizeIs(h.log[h.gone]);
        var size := elems[NextIndex(last)];
        var nextlast := AddIndex(last, size + 3, maxsize);
        MoveCursors(nextlast);
        ghost var moved := lastOfThread;
        for i := 0 to size + 3
          invariant last == AddIndex(last0, i, maxsize) && queuesize == qs - i
          invariant h == h0 && lastOfThread == moved
        {
          last := NextIndex(last);
          queuesize := queuesize - 1;
        }
        DropDone(elems[..], first, last0, qs, cursors, lastOfThread, h, nbThreads, t);
        h := Dropped(h);
        HistSizes(h, nbThreads);
        EmptyRing(elems[..], first, last, queuesize, h);
        if queuesize == 0 {
          break;
        }
        HeadFields(elems[..], first, last, queuesize, h);
        if elems[AddIndex(last, 2, maxsize)] != 0 {
          break;
        }
      }
    }

    // getClause: the next clause of another thread, if there is one.
    method GetClause(threadId: nat) returns (ok: bool, threadOrigin: nat, resultClause: Clause)
      requires Valid() && threadId < nbThreads
      modifies this`last, this`queuesize, this`lastOfThread, this`h, elems
      ensures Valid() && h.log == old(h.log)
      ensures threadId < |old(h.got)|
      ensures ok <==> |old(h.got)[threadId]| < |Others(h.log, threadId)|
      ensures ok ==> var msg := Msg(threadOrigin, resultClause);
                     && msg == Others(h.log, threadId)[|old(h.got)[threadId]|]
                     && h.got == old(h.got)[threadId := old(h.got)[threadId] + [msg]]
      ensures !ok ==> h.got == old(h.got)
    {
      hide HistOK, RingOK, HeadWaits, CursorsOK, CursorOK, LooksStale, Others;
      HistSizes(h, nbThreads);
      ok, threadOrigin, resultClause := false, 0, [];
      CursorAt(lastOfThread, last, maxsize, h, threadId);
      var thislast := lastOfThread[threadId];
      NeverStale(elems[..], first, last, queuesize, h, nbThreads, thislast, threadId);
      CaughtUp(h, nbThreads, threadId);
      if NextIndex(thislast) == first {
        return;
      }
      if LooksStale(thislast, last, first) {
        thislast := last;
      }
      thislast := SkipOwn(threadId, thislast);
      CaughtUp(h, nbThreads, threadId);
      NeverStale(elems[..], first, last, queuesize, h, nbThreads, thislast, threadId);
      if NextIndex(thislast) == first {
        CursorsPut(lastOfThread, last, maxsize, h, threadId, thislast);
        lastOfThread := lastOfThread[threadId := thislast];
        return;
      }
      ok := true;
      threadOrigin, resultClause := ReadRecord(threadId, thislast);
    }

    // Any interleaving of calls: each thread has got a first part of what the
    // others pushed, once and in order, and a thread that is told there is nothing
    // has got it all.
    method Run(calls: seq<Call>) returns (told: set<nat>)
      requires Valid() && forall x :: x in calls ==> x.t < nbThreads
      modifies this`first, this`last, this`queuesize, this`lastOfThread, this`h, elems
      ensures Valid() && old(h.log) <= h.log
      ensures |h.got| == nbThreads && forall t :: 0 <= t < nbThreads ==> h.got[t] <= Others(h.log, t)
      ensures forall t :: t in told ==> t < nbThreads && h.got[t] == Others(h.log, t)
    {
      hide Valid, Others;
      told := {};
      GotPrefixes();
      for i := 0 to |calls|
        invariant Valid() && old(h.log) <= h.log
        invariant |h.got| == nbThreads && forall t :: 0 <= t < nbThreads ==> h.got[t] <= Others(h.log, t)
        invariant forall t :: t in told ==> t < nbThreads && h.got[t] == Others(h.log, t)
      {
        assert calls[i] in calls;
        ghost var log0 := h.log;
        match calls[i] {
          case Push(t, c) =>
            var ok := PushClause(t, c);
            told := if ok then {} else told;
          case Get(t) =>
            var ok, origin, lits := GetClause(t);
            told := if ok then told else told + {t};
        }
        GotPrefixes();
        assert log0 <= h.log;
      }
    }

    lemma GotPrefixes()
      requires Valid()
      ensures |h.got| == nbThreads && forall t :: 0 <= t < nbThreads ==> h.got[t] <= Others(h.log, t)
    {
      hide HistOK, RingOK, HeadWaits, CursorsOK, Others;
      HistSizes(h, nbThreads);
      forall t | 0 <= t < nbThreads ensures h.got[t] <= Others(h.log, t) {
        CaughtUp(h, nbThreads, t);
      }
    }

    // "Go to next clause for this thread id".
    method SkipOwn(threadId: nat, cursor: nat) returns (thislast: nat)
      requires elems.Length == maxsize && HistOK(h, nbThreads) && RingOK(elems[..], first, last, queuesize, h)
      requires HeadWaits(h) && threadId < nbThreads == |h.at| && CursorOK(cursor, last, maxsize, h, threadId)
      requires CursorsOK(lastOfThread, last, maxsize, h, threadId)
      modifies this`h
      ensures HistOK(h, nbThreads) && RingOK(elems[..], first, last, queuesize, h) && HeadWaits(h)
      ensures |h.at| == nbThreads && CursorOK(thislast, last, maxsize, h, threadId)
      ensures CursorsOK(lastOfThread, last, maxsize, h, threadId)
      ensures h.log == old(h.log) && h.got == old(h.got) && h.gone == old(h.gone)
      ensures h.at[threadId] <= |h.log|
      ensures h.at[threadId] < |h.log| ==> h.log[h.at[threadId]].origin != threadId
    {
      hide HistOK, RingOK, HeadWaits, CursorsOK, CursorOK, Unseen, Size, LitAt;
      thislast := cursor;
      while true
        invariant HistOK(h, nbThreads) && RingOK(elems[..], first, last, queuesize, h) && HeadWaits(h)
        invariant |h.at| == nbThreads && CursorOK(thislast, last, maxsize, h, threadId)
        invariant CursorsOK(lastOfThread, last, maxsize, h, threadId)
        invariant h.log == old(h.log) && h.got == old(h.got) && h.gone == old(h.gone)
        decreases |h.log| - h.at[threadId]
      {
        ghost var h0 := h;
        HistSizes(h, nbThreads);
        NeverStale(elems[..], first, last, queuesize, h, nbThreads, thislast, threadId);
        if NextIndex(thislast) == first {
          return;
        }
        CursorIs(thislast, last, maxsize, h, threadId);
        RecordFields(elems[..], first, last, queuesize, h, thislast, h.at[threadId]);
        if elems[AddIndex(thislast, 3, maxsize)] != threadId {
          return;
        }
        SkipDone(elems[..], first, last, queuesize, h, nbThreads, thislast, threadId);
        SizeIs(h.log[h.at[threadId]]);
        thislast := AddIndex(thislast, elems[NextIndex(thislast)] + 3, maxsize);
        h := Skipped(h, threadId, h.at[threadId] + 1);
        CursorsElse(lastOfThread, last, maxsize, h0, h, threadId);
      }
    }

    // The record behind the cursor is read, and removed if nobody else waits for
    // it and it is the first one.
    method ReadRecord(threadId: nat, cursor: nat) returns (threadOrigin: nat, resultClause: Clause)
      requires elems.Length == maxsize && HistOK(h, nbThreads) && RingOK(elems[..], first, last, queuesize, h)
      requires HeadWaits(h) && threadId < nbThreads == |h.at| == |h.got| && CursorOK(cursor, last, maxsize, h, threadId)
      requires CursorsOK(lastOfThread, last, maxsize, h, threadId)
      requires h.at[threadId] < |h.log| && h.log[h.at[threadId]].origin != threadId && nbThreads > 1
      modifies this`last, this`queuesize, this`lastOfThread, this`h, elems
      ensures Valid() && h.log == old(h.log)
      ensures Msg(threadOrigin, resultClause) == h.log[old(h.at)[threadId]]
      ensures h.got == old(h.got)[threadId := old(h.got)[threadId] + [Msg(threadOrigin, resultClause)]]
    {
      hide HistOK, RingOK, HeadWaits, CursorsOK, CursorOK, Unseen, Size, LitAt, Read;
      ghost var h0, e0, msg := h, elems[..], h.log[h.at[threadId]];
      HistSizes(h, nbThreads);
      CursorIs(cursor, last, maxsize, h, threadId);
      RecordFields(elems[..], first, last, queuesize, h, cursor, h.at[threadId]);
      ReadDone(elems[..], first, last, queuesize, h, nbThreads, cursor, threadId);
      ReadIs(h, threadId);
      SizeIs(msg);
      var previouslast := cursor;
      var thislast := NextIndex(cursor);
      var csize := elems[thislast];
      NextTwice(cursor, maxsize);
      var seenAt := AddIndex(thislast, 1, maxsize);
      elems[seenAt] := elems[seenAt] - 1;
      assert elems[..] == e0[seenAt := e0[seenAt] - 1];
      var removeAfter := elems[seenAt] == 0;
      h := Read(h, threadId);
      RecordFields(elems[..], first, last, queuesize, h, cursor, h0.at[threadId]);
      thislast := NextIndex(thislast);
      thislast := NextIndex(thislast);
      threadOrigin := elems[thislast];
      resultClause, thislast := PopLits(thislast, csize, cursor, msg.lits);
      CursorsElse(lastOfThread, last, maxsize, h0, h, threadId);
      Advance(threadId, thislast, last == previouslast && removeAfter, h0);
    }

    // The first record goes if remove says so, and the cursor moves on.
    method Advance(threadId: nat, cursor: nat, remove: bool, ghost was: Hist)
      requires elems.Length == maxsize && HistOK(h, nbThreads) && RingOK(elems[..], first, last, queuesize, h)
      requires threadId < nbThreads == |h.at| && CursorOK(cursor, last, maxsize, h, threadId) && nbThreads > 1
      requires CursorsOK(lastOfThread, last, maxsize, h, threadId)
      requires HistOK(was, nbThreads) && |was.at| == |was.got| == nbThreads && HeadWaits(was)
      requires was.at[threadId] < |was.log| && h == Read(was, threadId)
      requires was.gone < was.at[threadId] ==> HeadWaits(h)
      requires remove <==> was.at[threadId] == was.gone && Unseen(h, was.at[threadId]) == 0
      modifies this`last, this`queuesize, this`lastOfThread, this`h
      ensures Valid() && h.log == old(h.log) && h.got == old(h.got)
    {
      hide HistOK, RingOK, HeadWaits, CursorsOK, CursorOK, Unseen, Read;
      ReadIs(was, threadId);
      var thislast := cursor;
      if remove {
        RemoveLastClause(threadId);
        thislast := last;
        HistSizes(h, nbThreads);
        RingLast(elems[..], first, last, queuesize, h);
        CursorAtHead(last, maxsize, h, threadId);
      } else {
        WaitsStill(was, h, threadId, nbThreads);
      }
      CursorsPut(lastOfThread, last, maxsize, h, threadId, thislast);
      lastOfThread := lastOfThread[threadId := thislast];
    }

    method PopLits(start: nat, csize: nat, ghost cursor: nat, ghost lits: Clause)
      returns (resultClause: Clause, thislast: nat)
      requires elems.Length == maxsize > 3 && cursor < maxsize && csize == |lits|
      requires csize + 3 < maxsize && start == AddIndex(cursor, 3, maxsize)
      requires forall i :: 0 <= i < csize ==> LitAt(elems[..], cursor, i, lits)
      ensures resultClause == lits && thislast == AddIndex(cursor, 3 + csize, maxsize)
    {
      hide LitAt;
      resultClause, thislast := [], start;
      for i := 0 to csize
        invariant thislast == AddIndex(cursor, 3 + i, maxsize) && resultClause == lits[..i]
      {
        thislast := NextIndex(thislast);
        LitIs(elems[..], cursor, i, lits);
        resultClause := resultClause + [ToLit(elems[thislast])];
      }
    }

    method MoveCursors(nextlast: nat)
      modifies this`lastOfThread
      ensures Moved(old(lastOfThread), lastOfThread, last, nextlast)
    {
      for i := 0 to |lastOfThread|
        invariant |lastOfThread| == |old(lastOfThread)|
        invariant Moved(old(lastOfThread)[..i], lastOfThread[..i], last, nextlast)
        invariant lastOfThread[i..] == old(lastOfThread)[i..]
      {
        assert lastOfThread[i] == lastOfThread[i..][0] == old(lastOfThread)[i];
        if lastOfThread[i] == last {
          lastOfThread := lastOfThread[i := nextlast];
        }
      }
      assert lastOfThread[..|lastOfThread|] == lastOfThread;
      assert old(lastOfThread)[..|lastOfThread|] == old(lastOfThread);
    }
  }

  lemma SizeIs(msg: Msg)
    ensures Size(msg) == 3 + |msg.lits|
  {
  }

  lemma RecordWritten(q: seq<nat>, msg: Msg, nseen: nat)
    ensures q + [|msg.lits|] + [nseen] + [msg.origin] + Codes(msg.lits[..|msg.lits|]) == q + Record(msg, nseen)
  {
    assert msg.lits[..|msg.lits|] == msg.lits;
  }

  lemma CursorAt(cursors: seq<nat>, last: nat, m: nat, h: Hist, t: nat)
    requires CursorsOK(cursors, last, m, h, -1) && t < |h.at|
    ensures t < |cursors| && CursorOK(cursors[t], last, m, h, t) && CursorsOK(cursors, last, m, h, t)
  {
  }

  lemma CursorIs(cursor: nat, last: nat, m: nat, h: Hist, t: nat)
    requires t < |h.at| && CursorOK(cursor, last, m, h, t)
    ensures h.at[t] <= |h.log| && cursor == AddIndex(last, Off(h.log, h.gone, h.at[t]), m)
  {
  }

  lemma RingLast(elems: seq<nat>, first: nat, last: nat, queuesize: nat, h: Hist)
    requires RingOK(elems, first, last, queuesize, h)
    ensures last < |elems|
  {
  }

  lemma CursorAtHead(last: nat, m: nat, h: Hist, t: nat)
    requires t < |h.at| && h.at[t] == h.gone <= |h.log| && last < m
    ensures CursorOK(last, last, m, h, t)
  {
  }

  lemma CursorsPut(cursors: seq<nat>, last: nat, m: nat, h: Hist, t: nat, cursor: nat)
    requires CursorsOK(cursors, last, m, h, t) && t < |h.at| && CursorOK(cursor, last, m, h, t)
    ensures t < |cursors| && CursorsOK(cursors[t := cursor], last, m, h, -1)
  {
  }

  // The other cursors do not mind where thread t is.
  lemma CursorsElse(cursors: seq<nat>, last: nat, m: nat, h: Hist, g: Hist, t: nat)
    requires CursorsOK(cursors, last, m, h, t) && g.log == h.log && g.gone == h.gone && |g.at| == |h.at|
    requires forall x :: 0 <= x < |h.at| && x != t ==> g.at[x] == h.at[x]
    ensures CursorsOK(cursors, last, m, g, t)
  {
    forall x | 0 <= x < |cursors| && x != t ensures CursorOK(cursors[x], last, m, g, x) {
      assert CursorOK(cursors[x], last, m, h, x);
    }
  }

  lemma ReadIs(h: Hist, t: nat)
    requires t < |h.at| && t < |h.got| && h.at[t] < |h.log|
    ensures var g := Read(h, t);
            && g.log == h.log && g.gone == h.gone && |g.at| == |h.at| && g.at == h.at[t := h.at[t] + 1]
            && g.got == h.got[t := h.got[t] + [h.log[h.at[t]]]]
  {
  }

  lemma NextTwice(cursor: nat, m: nat)
    requires cursor < m && 3 < m
    ensures AddIndex(AddIndex(cursor, 1, m), 1, m) == AddIndex(cursor, 2, m)
  {
  }

  lemma LitIs(elems: seq<nat>, cursor: nat, i: nat, lits: Clause)
    requires LitAt(elems, cursor, i, lits) && i < |lits|
    ensures var x := AddIndex(cursor, 4 + i, |elems|);
            x < |elems| && ToLit(elems[x]) == lits[i] && lits[..i] + [lits[i]] == lits[..i + 1]
  {
    ToLitOf(lits[i]);
  }

  // Either the record that was read is not the first one, or somebody else still
  // waits for it.
  lemma WaitsStill(h: Hist, g: Hist, t: nat, nb: nat)
    requires HistOK(h, nb) && t < nb == |h.at| == |h.got| && h.at[t] < |h.log| && g == Read(h, t)
    requires h.gone < h.at[t] && HeadWaits(h) ==> HeadWaits(g)
    requires HeadWaits(h) && (h.at[t] == h.gone ==> Unseen(g, h.gone) > 0)
    ensures HeadWaits(g)
  {
    HistSizes(h, nb);
  }
}
