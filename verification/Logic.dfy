// Literals, clauses, non-clausal constraints and what they mean.
//
// An assignment is the finite set of variables that are true, so every
// assignment is total and two assignments that agree are equal.
module Logic {
  type Var = nat

  // core/SolverTypes.h keeps a literal as the integer 2 * var + sign.
  datatype Lit = Lit(v: Var, sign: bool)

  function Neg(l: Lit): Lit {
    Lit(l.v, !l.sign)
  }

  function ToInt(l: Lit): nat {
    2 * l.v + if l.sign then 1 else 0
  }

  function ToLit(code: nat): Lit {
    Lit(code / 2, code % 2 == 1)
  }

  lemma ToLitOf(l: Lit)
    ensures ToLit(ToInt(l)) == l
  {
  }

  predicate VarIn(c: Clause, v: Var) {
    exists l :: l in c && l.v == v
  }

  ghost function VarsOf(c: Clause): set<Var> {
    set l | l in c :: l.v
  }

  function Codes(c: Clause): seq<nat> {
    seq(|c|, i requires 0 <= i < |c| => ToInt(c[i]))
  }

  predicate LitLt(p: Lit, q: Lit) {
    ToInt(p) < ToInt(q)
  }

  datatype LBool = True | False | Undef

  type Assignment = set<Var>
  type Clause = seq<Lit>

  predicate Holds(a: Assignment, l: Lit) {
    (l.v in a) != l.sign
  }

  ghost predicate AllHold(a: Assignment, ls: seq<Lit>) {
    forall l :: l in ls ==> Holds(a, l)
  }

  ghost predicate Satisfies(a: Assignment, c: Clause) {
    exists l :: l in c && Holds(a, l)
  }

  // What initialize and propagate do: the literals enqueued, and the return value.
  // A constraint that keeps its reasons has also stored, under each literal, why it
  // enqueued it, and why it objects if it does.
  datatype Answer =
    | Answer(implied: seq<Lit>, accept: bool)
    | Argued(implied: seq<Lit>, accept: bool, why: map<Lit, seq<Lit>>, because: seq<Lit>)

  function Why(a: Answer, p: Lit): seq<Lit> {
    if a.Argued? && p in a.why then a.why[p] else []
  }

  function Because(a: Answer): seq<Lit> {
    if a.Argued? then a.because else []
  }

  // What is told to a constraint is the log, the literals that are true, and whether
  // more is pending for it.
  type Teller = (seq<Lit>, seq<Lit>, bool) -> Answer

  // core/Constraint.h.  sat says which assignments the constraint accepts, and watched
  // holds the literals it registered with addWatch.  log is always the sequence of
  // literals it has been told and not yet untold, and trail the literals that are
  // true in the solver.
  //   propagate(log, trail, pending)  what propagate does
  // The private state of a Constraint is a function of log.
  //   blocked(ls)                     it recognises ls as a violation
  //   explain(log, trail, p)          calcReason for p, trail being what precedes p
  //   refute(log, trail, extra)       calcReason for a conflict; extra holds
  //                                   enqueue_failure, if there is one
  // One that is Keeping gives as reasons what it stored when it answered.
  //   needs                           clauses it counts on having been propagated
  //   quiet(ls)                       it has nothing to object to when ls is true
  datatype Constraint =
    | Constraint(
        sat: Assignment -> bool,
        blocked: seq<Lit> -> bool,
        watched: set<Lit>,
        propagate: Teller,
        explain: (seq<Lit>, seq<Lit>, Lit) -> seq<Lit>,
        refute: (seq<Lit>, seq<Lit>, seq<Lit>) -> seq<Lit>)
    | Keeping(
        sat: Assignment -> bool,
        watched: set<Lit>,
        propagate: Teller,
        needs: seq<Clause>,
        quiet: seq<Lit> -> bool)

  // What calcReason owes for an enqueued literal p, and for a conflict.
  ghost predicate Explains(sat: Assignment -> bool, reason: seq<Lit>, p: Lit) {
    forall a: Assignment :: sat(a) && AllHold(a, reason) ==> Holds(a, p)
  }

  ghost predicate Refutes(sat: Assignment -> bool, reason: seq<Lit>) {
    forall a: Assignment :: sat(a) ==> !AllHold(a, reason)
  }

  // What is recognised as a violation is one, and stays recognised when further
  // literals become true or literals that are not watched are forgotten.
  ghost predicate Recognises(con: Constraint)
    requires con.Constraint?
  {
    && (forall ls :: con.blocked(ls) ==> Refutes(con.sat, ls))
    && (forall few, more ::
          con.blocked(few) && (forall l :: l in few && l in con.watched ==> l in more) ==> con.blocked(more))
  }

  // The constraint may enqueue p: with p false there would be a violation.
  ghost predicate Forces(con: Constraint, log: seq<Lit>, p: Lit)
    requires con.Constraint?
  {
    con.blocked(log + [Neg(p)])
  }

  // The literals of ls hold and no other literal that is watched does.
  ghost predicate Matches(con: Constraint, a: Assignment, ls: seq<Lit>) {
    AllHold(a, ls) && forall l :: l in con.watched && Holds(a, l) ==> l in ls
  }

  // Nothing is left for the constraint to object to.
  ghost predicate Quiescent(con: Constraint, ls: seq<Lit>) {
    forall a: Assignment :: Matches(con, a, ls) ==> con.sat(a)
  }

  ghost predicate Quiet(con: Constraint, ls: seq<Lit>) {
    match con
    case Constraint(_, blocked, _, _, _, _) => !blocked(ls)
    case Keeping(_, _, _, _, quiet) => quiet(ls)
  }

  ghost predicate Content(con: Constraint, ls: seq<Lit>) {
    Quiescent(con, ls) && Quiet(con, ls)
  }

  ghost predicate NoDup<T>(s: seq<T>) {
    forall x, y :: 0 <= x < y < |s| ==> s[x] != s[y]
  }

  ghost predicate Fed(con: Constraint, log: seq<Lit>, trail: seq<Lit>) {
    NoDup(log) && forall l :: l in log ==> l in trail && l in con.watched
  }

  ghost predicate FedAll(con: Constraint, log: seq<Lit>, trail: seq<Lit>) {
    Fed(con, log, trail) && forall l :: l in trail && l in con.watched ==> l in log
  }

  ghost predicate NoClash(ls: seq<Lit>) {
    forall l :: l in ls ==> Neg(l) !in ls
  }

  ghost predicate AnswerOK(con: Constraint, n: nat, log: seq<Lit>, trail: seq<Lit>, pending: bool, a: Answer)
    requires con.Constraint?
  {
    && (forall p :: p in a.implied ==> p.v < n && Forces(con, log, p))
    && (!a.accept ==> con.blocked(log))
    && (a.accept && !pending && FedAll(con, log, trail) ==> Content(con, log))
  }

  ghost predicate ExplainOK(con: Constraint, log: seq<Lit>, trail: seq<Lit>, p: Lit)
    requires con.Constraint?
  {
    var r := con.explain(log, trail, p);
    (forall l :: l in r ==> l in trail) && Forces(con, r, p)
  }

  ghost predicate RefuteOK(con: Constraint, log: seq<Lit>, trail: seq<Lit>, extra: seq<Lit>)
    requires con.Constraint?
  {
    var r := con.refute(log, trail, extra);
    (forall l :: l in r ==> l in trail) && con.blocked(r)
  }

  // When the solver may ask for a reason, and for the reason of a conflict.
  ghost predicate MayExplain(con: Constraint, log: seq<Lit>, trail: seq<Lit>, p: Lit)
    requires con.Constraint?
  {
    Fed(con, log, trail) && NoClash(trail) && p !in trail && Neg(p) !in trail && Forces(con, log, p)
  }

  ghost predicate MayRefute(con: Constraint, log: seq<Lit>, trail: seq<Lit>, extra: seq<Lit>)
    requires con.Constraint?
  {
    && Fed(con, log, trail) && NoClash(trail) && |extra| <= 1
    && (forall l :: l in extra ==> l in trail) && con.blocked(log + extra)
  }

  // The reason kept for p is one: it was true before p and implies it.
  ghost predicate KeptOK(sat: Assignment -> bool, before: seq<Lit>, p: Lit, kept: seq<Lit>) {
    (forall l :: l in kept ==> l in before) && Explains(sat, kept, p)
  }

  // The objection is made of true literals, and some of them are news in every
  // state that the constraint found nothing wrong with.
  ghost predicate ObjectionOK(con: Constraint, log: seq<Lit>, trail: seq<Lit>, because: seq<Lit>)
    requires con.Keeping?
  {
    && (forall l :: l in because ==> l in trail) && Refutes(con.sat, because)
    && (forall ls :: con.quiet(ls) && (forall l :: l in ls && l in con.watched ==> l in log) ==>
          exists l :: l in because && l !in ls)
  }

  ghost predicate KeepingAnswer(con: Constraint, n: nat, log: seq<Lit>, trail: seq<Lit>, pending: bool, a: Answer)
    requires con.Keeping?
  {
    && (forall p :: p in a.implied ==>
          p.v < n && KeptOK(con.sat, trail, p, Why(a, p)) && Neg(p) !in trail && Neg(p) !in a.implied)
    && (!a.accept ==> ObjectionOK(con, log, trail, Because(a)))
    && (a.accept && !pending ==> Content(con, log))
  }

  // Unit propagation has nothing left to do for c when ls is true.
  ghost predicate Closes(c: Clause, ls: seq<Lit>) {
    forall p :: p in c && (forall q :: q in c && q != p ==> Neg(q) in ls) ==> p in ls
  }

  ghost predicate Fit(con: Constraint, ls: seq<Lit>) {
    con.Keeping? ==> forall c :: c in con.needs ==> Closes(c, ls)
  }

  ghost predicate NeedOK(con: Constraint, c: Clause) {
    |c| == 2 && c[0].v != c[1].v && forall l :: l in c ==> l in con.watched && Neg(l) in con.watched
  }

  // Only watched literals matter to quiet.
  ghost predicate QuietLocal(con: Constraint)
    requires con.Keeping?
  {
    forall few, more ::
      con.quiet(few) && (forall l :: l in con.watched ==> (l in few <==> l in more)) ==> con.quiet(more)
  }

  ghost predicate KeepingHonest(con: Constraint, n: nat)
    requires con.Keeping?
  {
    && QuietLocal(con)
    && (forall l :: l in con.watched ==> l.v < n)
    && (forall c :: c in con.needs ==> NeedOK(con, c))
    && (forall log, trail, pending ::
          Fed(con, log, trail) && NoClash(trail) && (!pending ==> FedAll(con, log, trail) && Fit(con, log)) ==>
            KeepingAnswer(con, n, log, trail, pending, con.propagate(log, trail, pending)))
  }

  ghost predicate PlainHonest(con: Constraint, n: nat)
    requires con.Constraint?
  {
    && Recognises(con)
    && (forall l :: l in con.watched ==> l.v < n)
    && (forall log, trail, pending :: Fed(con, log, trail) && NoClash(trail) ==>
          AnswerOK(con, n, log, trail, pending, con.propagate(log, trail, pending)))
    && (forall log, trail, p :: MayExplain(con, log, trail, p) ==> ExplainOK(con, log, trail, p))
    && (forall log, trail, extra :: MayRefute(con, log, trail, extra) ==> RefuteOK(con, log, trail, extra))
  }

  // The contract of core/Constraint.h.
  ghost predicate Honest(con: Constraint, n: nat) {
    if con.Constraint? then PlainHonest(con, n) else KeepingHonest(con, n)
  }

  // What an answer must be at level 0, where nobody asks for reasons.
  ghost predicate RootAnswer(con: Constraint, n: nat, trail: seq<Lit>, pending: bool, a: Answer) {
    && (forall p :: p in a.implied ==> p.v < n && Explains(con.sat, trail, p))
    && (!a.accept ==> Refutes(con.sat, trail))
    && (a.accept && !pending ==> Content(con, trail))
  }

  // One of ps is new and watched.
  ghost predicate Awaits(con: Constraint, trail: seq<Lit>, ps: seq<Lit>) {
    exists p :: p in ps && p in con.watched && p !in trail
  }

  // What initialize may answer when trail is true.  It may leave things to be found
  // out only if it enqueued something that it watches.
  ghost predicate StartOK(con: Constraint, n: nat, trail: seq<Lit>, a: Answer) {
    if a.accept then RootAnswer(con, n, trail, Awaits(con, trail, a.implied), a) else Refutes(con.sat, trail)
  }

  // How the constraint answers while the solver is at level 0.  This may differ from
  // propagate, since initialize may have taken in literals that are delivered again.
  ghost predicate RootHonest(con: Constraint, n: nat, tell: Teller) {
    forall log, trail, pending ::
      Fed(con, log, trail) && NoClash(trail) && (!pending ==> FedAll(con, log, trail) && Fit(con, log)) ==>
        RootAnswer(con, n, trail, pending, tell(log, trail, pending))
  }

  datatype Formula = Formula(clauses: seq<Clause>, constraints: seq<Constraint>)

  ghost predicate Models(a: Assignment, f: Formula) {
    && (forall c :: c in f.clauses ==> Satisfies(a, c))
    && (forall con :: con in f.constraints ==> con.sat(a))
  }

  ghost predicate Entails(f: Formula, c: Clause) {
    forall a: Assignment :: Models(a, f) ==> Satisfies(a, c)
  }

  ghost predicate Unsatisfiable(f: Formula) {
    forall a: Assignment :: !Models(a, f)
  }

  lemma SubsetSize<T>(a: set<T>, b: set<T>)
    requires a <= b
    ensures |a| <= |b| && (|a| == |b| ==> a == b)
  {
    assert b == a + (b - a);
  }

  lemma NegHolds(a: Assignment, l: Lit)
    ensures Holds(a, Neg(l)) <==> !Holds(a, l)
  {
  }

  lemma EntailsSubset(f: Formula, c: Clause, d: Clause)
    requires Entails(f, c)
    requires forall l :: l in c ==> l in d
    ensures Entails(f, d)
  {
    forall a: Assignment | Models(a, f) ensures Satisfies(a, d) {
      assert Satisfies(a, c);
      var l :| l in c && Holds(a, l);
      assert l in d;
    }
  }

  lemma EntailsGrows(f: Formula, g: Formula, c: Clause)
    requires Entails(f, c)
    requires forall x :: x in f.clauses ==> x in g.clauses
    requires forall k :: k in f.constraints ==> k in g.constraints
    ensures Entails(g, c)
  {
    forall a: Assignment | Models(a, g) ensures Satisfies(a, c) {
      assert Models(a, f);
    }
  }

  lemma BlockedMore(con: Constraint, few: seq<Lit>, many: seq<Lit>)
    requires con.Constraint? && Recognises(con) && con.blocked(few) && forall l :: l in few ==> l in many
    ensures con.blocked(many)
  {
  }

  lemma ForcesMore(con: Constraint, few: seq<Lit>, many: seq<Lit>, p: Lit)
    requires con.Constraint? && Recognises(con) && Forces(con, few, p) && forall l :: l in few ==> l in many
    ensures Forces(con, many, p)
  {
    BlockedMore(con, few + [Neg(p)], many + [Neg(p)]);
  }

  // With a violation recognised if p were false, p follows.
  lemma ForcesExplains(con: Constraint, reason: seq<Lit>, p: Lit)
    requires con.Constraint? && Recognises(con) && Forces(con, reason, p)
    ensures Explains(con.sat, reason, p)
  {
    assert Refutes(con.sat, reason + [Neg(p)]);
    forall a: Assignment | con.sat(a) && AllHold(a, reason) ensures Holds(a, p) {
      assert !AllHold(a, reason + [Neg(p)]);
      assert Holds(a, Neg(p)) ==> AllHold(a, reason + [Neg(p)]);
    }
  }
}
