# A verified model of a CDCL solver with constraint propagators

The repository is a clause-learning SAT solver (Glucose) to which constraint
propagators were added: cardinality, parity, linear inequalities over order-encoded
integers, tables, connectivity of the active vertices of a graph, and division of a graph
into regions of given sizes. This project models

- the engine (`core/Solver.cc`): watched literals, the queue, conflict analysis with both
  minimisations, backjumping, learning, deletion of clauses, and search, over any
  constraints that keep the contract of `core/Constraint.h`;
- that contract itself (`Logic.dfy`, `Contract.dfy`), and all six propagators as instances
  of it, each a class whose methods are proved against a specification;
- the preprocessor (`simp/SimpSolver.cc`): subsumption, self-subsuming resolution,
  elimination of variables, and the reconstruction of models;
- the clause queue that threads share (`parallel/ClausesBuffer.cc`);
- the sort, the binary heap and the union-find with undo they rest on.

An assignment is the finite set of variables that are true. A state of the solver is one
value, `State`, that the class `Solver` holds in a field and its methods replace piece by
piece. What the engine may rely on is collected in three predicates: `Ready` between two
steps of propagation, `Conflicted` after a conflict, and `Base` at every point. Choices
that heuristics make (which variable to decide, which learnt clause to delete, when to
restart, which clauses to try to shorten) are arbitrary in the model, so what is proved
holds for all of them. The literals a constraint was told and not yet untold form its log.
Two kinds of constraints share the contract: those whose private state is a function of
the log, and those that keep the reasons they gave (`GraphDivision`). At level 0, where no
reasons are asked for, a constraint may know more than it has been told: initialize reads
values while it enqueues, and what it takes in so is delivered again.

| file | what it models |
|---|---|
| `Logic`, `Contract`, `Trails` | literals, clauses, formulas; the contract of a constraint; the trail |
| `Watching`, `Settling`, `Reasons`, `Delivery` | watch lists, the fixpoint invariant, reasons, what constraints are told |
| `States`, `Propagation`, `Building`, `Filtering`, `Progress` | lemmas on steps of the engine |
| `Heeding` | the answers of constraints, and that they are carried out |
| `Analysis`, `Minimising`, `Redundancy`, `Resolvents` | lemmas on conflict analysis; which literals are redundant; the clause that is learnt |
| `Solver` | the engine as a class |
| `Starting`, `Tables` | initialize of a propagator; positions of literals |
| `AtMost`, `Xor`, `OrderEncoding`, `DirectEncoding` | the arithmetic and table propagators |
| `Connectivity`, `DepthFirst`, `Articulation`, `UnionFind` | connectivity, depth-first search and its cut vertices, union-find with undo |
| `Graph`, `GraphState`, `GraphClusters`, `GraphMerges`, `GraphReasons`, `GraphPropagator` | connectivity of active vertices: what is specified, lemmas on propagate and calcReason, the class |
| `Division`, `DivisionRegions`, `DivisionSizes`, `DivisionReasons`, `DivisionViews`, `DivisionNews`, `DivisionRules`, `DivisionForced`, `GraphDivision`, `DivisionContract`, `DivisionExamples` | division of a graph |
| `Resolution`, `Reconstruction`, `Simp` | the preprocessor |
| `ClausesBuffer`, `Sorting`, `Heap` | the shared queue, the sort, the order heap |

## Model
| member | source | states |
|---|---|---|
| Solving.Solver.Search | core/Solver.cc:1637-1837 | Search terminates, whatever the heuristics choose: False only if no assignment satisfies clauses and constraints together, True only with every variable assigned and a trail that satisfies all of them, and otherwise, at a restart, the solver is back at level 0 with all invariants. A run without a restart answers True exactly if the problem is satisfiable, and False exactly if it is not. |
| Solving.Solver.Propagate | core/Solver.cc:1168-1320 | From any state between two steps: without a conflict the queue is empty, no live clause is unit or false, every constraint is content with the trail, and every literal that a constraint enqueued in answer to a literal that is true is true itself (Heeded); with a conflict the levels below are intact and the conflict is a false clause with a literal of this level or an objection of a constraint. |
| Heeding.NothingDropped | core/Solver.cc:1290-1305 | At the fixpoint, for every literal a constraint has been told: it accepted, and every literal of its answer is on the trail; so is every literal that initialize answered. The answers are kept beside the log, each that of a call with what is watched of the trail up to that literal. |
| Heeding.HeededCancelled | core/Solver.cc:708-727 | cancelUntil keeps this: what was enqueued in answer to a literal stays for as long as the literal. |
| Solving.Solver.Analyze | core/Solver.cc:790-1037 | The learnt clause is exactly the negation of the first unique implication point and, of the rest of the resolvent at that point, the literals that ccmin_mode leaves and, if the clause is shortened with binary clauses, that the point does not imply through one (Learned). It follows from clauses and constraints, is false on the trail, has exactly its first literal on the current level, and out_btlevel is the highest level of the rest. |
| Solving.Solver.FirstUip | core/Solver.cc:800-930 | Resolving backwards, with the reasons of clauses and of constraints and with the undo lists worked off on the way, ends at the first unique implication point: one literal of the current level is left, and at every later one that was replaced by its reason two or more were (FirstPoint). What was collected is exactly the resolvent at that point, without literals of level 0, and refutes the formula. |
| Solving.Solver.LitRedundant | core/Solver.cc:1043-1079 | It answers yes exactly if every way back from the literal through clause reasons, over variables that are not marked, meets only marked ones, ones of level 0, and ones implied by a clause whose level modulo 32 is in abstract_levels (Blocked). A literal that is dropped leaves the marked literals closed under reasons, and a failed attempt leaves no mark behind. |
| Solving.Solver.AbstractLevels | core/Solver.cc:946-948 | abstract_levels holds exactly the levels modulo 32 of the literals after the first. |
| Solving.Solver.ReasonSeen | core/Solver.cc:963-967 | The inner loop of ccmin_mode 1 answers yes exactly if all literals it looks at are marked or of level 0. |
| Redundancy.HarmlessKeeps | core/Solver.cc:1043-1079 | The marks that successful attempts leave do not change which variables are blocked, so the order in which literals are tried does not matter. |
| Solving.Solver.Minimise | core/Solver.cc:937-972 | What is left are, in order, exactly the literals without a clausal reason and, by the marks at the start, with ccmin_mode 2 those that are blocked, with 1 those with an unmarked literal above level 0 in their reason, and otherwise all. |
| Reasons.MinimisedRefuted | core/Solver.cc:937-980 | A set of literals closed under reasons refutes the formula already by those of them that are kept. |
| Solving.Solver.BinaryMinimise | core/Solver.cc:664-703 | Shortening with binary clauses drops exactly the literals after the first whose negation is in a live binary clause with it; the shape of the clause stays, and that it follows from the formula. |
| Solving.Solver.UndoRange | core/Solver.cc:916-926 | Analysis may untell constraints the literals it has passed; the state stays one that a backjump can start from. |
| Solving.Solver.CancelUntil | core/Solver.cc:708-727 | Afterwards the trail is what it was when the level ended, every constraint has been told exactly the watched literals on it, whatever analysis had untold before, and the fixpoint invariants hold again. |
| Delivery.LogDelivered | core/Solver.cc:708-727 | What a constraint has been told is a function of the trail alone once every watched literal has been delivered. |
| Solving.Solver.AddNumPendingPropagation | core/Solver.cc:1323-1328 | The counters of the constraints watching a literal change by the number of times they watch it. |
| Solving.Solver.AskConstraint | core/Solver.cc:1290-1305 | The answer of a constraint to a literal is noted and carried out: without a conflict it was accepted and every literal of it is true; with one it was refused, or one of its literals is false (Taken). The invariant is kept, and the conflict is an objection the constraint can give reasons for. |
| Propagation.NothingRefused | core/Solver.cc:1168-1320 | After a backtrack and at a fixpoint every constraint, of either kind, has been told exactly what it watches of the trail and is quiet about it, so a constraint is told a further literal only when it has accepted the ones before. |
| Solving.Solver.Learn | core/Solver.cc:1730-1757 | A learnt clause that asserts its first literal is attached and the literal enqueued, with all invariants. |
| Solving.Solver.Decide | core/Solver.cc:1831-1834 | A decision opens a level above a fixpoint and keeps all invariants. |
| Progress.DecideProgress | core/Solver.cc:1647-1836 | A decision increases the vector of literals per level lexicographically, so the measure falls. |
| Progress.BackjumpProgress | core/Solver.cc:1647-1836 | So does a backjump with the learnt literal on the lower level. |
| Solving.Solver.ReduceDb | core/Solver.cc:1425-1456 | Deleting any learnt clauses that are not locked keeps all invariants and every clause of the problem. |
| Solving.Solver.AddClause | core/Solver.cc:412-478 | The clause joins the formula, sorted and without false and repeated literals in the solver; false is returned only if the formula has become unsatisfiable. |
| Solving.Solver.AddConstraint | core/Solver.cc:480-500 | A constraint that keeps the contract joins the formula, with whatever initialize answers that is sound (StartOK) and whatever way to go on at level 0 is (RootHonest). If true is returned it was accepted and every literal of the answer is true; false is returned only if the formula has become unsatisfiable. |
| Starting.SoundStarts | constraints/OrderEncodingLinear.cc:41-57 | What initialize of the linear and the table constraint answers is sound in that sense, whatever it has taken in itself. |
| Contracts.AheadAtRoot | core/Solver.cc:480-500 | A constraint that has taken in literals ahead of their delivery may go on as always. |
| Contracts.ReorderedHonest | core/Constraint.h:10-26 | The contract does not depend on the order in which literals were told, so initialize may take them in as it likes. |
| Contracts.ObjectionNews | core/Constraint.h:10-26 | An objection has a literal that no state the constraint was content with has: this is what makes the conflict one of the current level. |
| AtMosts.AtMostHonest | constraints/AtMost.cc:8-76 | AtMost keeps the contract: what it enqueues and refuses follows from the true literals, its reasons are made of earlier true literals and imply the literal, and when everything is delivered and accepted the constraint holds. |
| AtMosts.AcceptsExactly | constraints/AtMost.cc:43-61 | A total assignment that has been delivered is accepted exactly if at most threshold literals are true. |
| AtMosts.DomainConsistent | constraints/AtMost.cc:43-61 | For distinct variables, everything delivered and an answer that accepts: the negation of an undecided literal is enqueued exactly if it follows. |
| AtMosts.ReasonIsOld | constraints/AtMost.cc:63-72 | With distinct variables the reason computed from the full trail is the one computed from what preceded the literal. |
| AtMosts.AtMost.Initialize | constraints/AtMost.cc:15-41 | For every list: initialize accepts exactly if fewer than threshold literals are true, or threshold are and it comes to no literal it has enqueued itself (Startable); then it has taken in the true ones and answers as propagate would. If no literal is repeated, as the constructor asserts, it refuses only a trail no solution extends. |
| AtMosts.StartsAsTold | constraints/AtMost.cc:15-41 | For a list without a literal and its negation that is exactly when propagate would accept. |
| AtMosts.AtMostStarts | constraints/AtMost.cc:15-41 | What initialize answers may be given to addConstraint. |
| Xors.XorHonest | constraints/Xor.cc:43-88 | Xor keeps the contract. |
| Xors.XorStarts | constraints/Xor.cc:23-41 | What initialize answers may be given to addConstraint, also when it has taken a literal in twice. |
| Xors.AcceptsExactly | constraints/Xor.cc:43-68 | A total assignment that has been delivered is accepted exactly if the parity is right. |
| Xors.DomainConsistent | constraints/Xor.cc:43-68 | When propagate accepts, a literal of an undecided variable is enqueued exactly if it follows from what has been told. |
| Xors.Xor.constructor | constraints/Xor.cc:8-21 | Signs go into the parity and a variable that occurs an even number of times drops out, without changing which assignments satisfy the constraint. |
| Xors.Xor.Initialize | constraints/Xor.cc:23-41 | What initialize takes in and enqueues, for every trail; it takes a literal in twice exactly if Overeager holds. |
| Xors.Xor.PropagateAgain | constraints/Xor.cc:43-68 | What the branches of propagate do at a second delivery: no value changes, the parity is flipped by a positive literal and the count becomes -1, and the answer is the one the contract asks for. |
| Xors.TakenInTwice | constraints/Xor.cc:23-41 | Two variables of which the first is true: the smallest case of a literal taken in twice. |
| OrderEncodings.LinearHonest | constraints/OrderEncodingLinear.cc:59-112 | OrderEncodingLinear keeps the contract. |
| OrderEncodings.TightestBound | constraints/OrderEncodingLinear.cc:75-89 | When propagate accepts, what it enqueues are exactly the weakest lower bounds the upper bounds of the other terms imply, and every value that leaves the sum below 0 is excluded by one of the literals. |
| OrderEncodings.AfterReflects | constraints/OrderEncodingLinear.cc:59-73 | total_ub_ is always the constant plus the values at the upper bounds, and the bounds are the first positions that were told to be false. |
| OrderEncodings.AcceptsExactly | constraints/OrderEncodingLinear.cc:59-92 | A total assignment that has been delivered is accepted exactly if the sum is not negative. |
| OrderEncodings.NormaliseKeeps | constraints/OrderEncodingLinear.cc:8-16 | For any coefficient but 0 the normalised term is ascending, ordered where the original is, and has coefficient times its value. |
| OrderEncodings.LinearTerm.Normalize | constraints/OrderEncodingLinear.cc:8-16 | normalize computes that term in place. |
| OrderEncodings.OrderEncodingLinear.Propagate | constraints/OrderEncodingLinear.cc:59-92 | propagate leaves the state the log determines and answers Told, the subject of TightestBound; it accepts exactly if the sum can still be reached. |
| OrderEncodings.OrderEncodingLinear.Undo | constraints/OrderEncodingLinear.cc:101-112 | undo takes back exactly the last propagate, after which the next literal can be delivered. |
| OrderEncodings.OrderEncodingLinear.Initialize | constraints/OrderEncodingLinear.cc:41-57 | initialize refuses only a trail no solution extends, enqueues only what follows from the trail, and when it accepts it has taken in all true watched literals, the sum can be reached, and all that propagate would enqueue is true. |
| OrderEncodings.AgainNothing | constraints/OrderEncodingLinear.cc:59-92 | A literal that initialize enqueued and took in changes nothing when it is delivered again. |
| DirectEncodings.TableHonest | constraints/DirectEncodingExtension.cc:35-111 | The table constraint keeps the contract. |
| DirectEncodings.TableStarts | constraints/DirectEncodingExtension.cc:17-33 | What its initialize answers may be given to addConstraint exactly if there is a variable or a row. |
| DirectEncodings.AllowedIsTable | constraints/DirectEncodingExtension.cc:60-92 | For an encoding with one true literal a variable the constraint says that the tuple of values is a row, -1 matching any value. |
| DirectEncodings.AcceptsExactly | constraints/DirectEncodingExtension.cc:35-93 | A total assignment that has been delivered is accepted exactly if the table allows it. |
| DirectEncodings.PrunesExactly | constraints/DirectEncodingExtension.cc:60-92 | When propagate accepts, the negation of a value is enqueued exactly if the value is not ruled out and no row that fits what is known has it. |
| DirectEncodings.DirectEncodingExtensionSupports.Propagate | constraints/DirectEncodingExtension.cc:35-93 | propagate leaves the state the log determines, and enqueues the negation of exactly the values that no compatible row allows. |
| DirectEncodings.DirectEncodingExtensionSupports.Undo | constraints/DirectEncodingExtension.cc:102-111 | undo takes back exactly the last propagate. |
| DirectEncodings.DirectEncodingExtensionSupports.Initialize | constraints/DirectEncodingExtension.cc:17-33 | As for the linear constraint, except that the empty table over no variables is accepted. |
| DirectEncodings.AgainNothing | constraints/DirectEncodingExtension.cc:35-93 | A literal delivered a second time changes nothing that is known. |
| Graphs.DomainConsistent | constraints/Graph.cc:128-223 | propagate refuses exactly if no completion of the active vertices is connected, and otherwise enqueues exactly the literals that make some undecided vertex what it is in every connected completion; for a vertex that shares its variable with no other undecided one this decides both its literals. |
| Graphs.SharedMisses | constraints/Graph.cc:128-223 | With a variable shared by two vertices it can miss a consequence: the cycle of four vertices, on which Propagate answers as stated here. |
| Graphs.ConnectedHonest | constraints/Graph.cc:128-304 | ActiveVerticesConnected keeps the contract, shared variables included, as far as its answers are the specified ones. |
| Graphs.ConnectedStarts | constraints/Graph.cc:98-126 | And what its initialize answers on a simple graph may be given to addConstraint. |
| GraphPropagators.ActiveVerticesConnected.Propagate | constraints/Graph.cc:128-223 | Shared variables included: the verdict is as specified, and so is what is enqueued on graphs without parallel edges; on others it is what is specified and, with two active vertices, the literals of the vertices with a cut-off child that is listed twice, and nothing else. |
| GraphPropagators.ActiveVerticesConnected.Undo | constraints/Graph.cc:306-312 | undo clears all vertices of the variable, and state_, decision_order_ and the count are again those of the literals before it. |
| GraphPropagators.ActiveVerticesConnected.IsCut | constraints/Graph.cc:195-214 | The test for a cut vertex answers yes exactly if the active vertices fall apart without the vertex, or a child that is cut off with active vertices below it is listed more than once. |
| Articulation.ParallelForces | constraints/Graph.cc:195-214 | Three vertices and a doubled edge: a vertex is taken for a cut vertex although the active ones are connected without it. |
| GraphPropagators.ActiveVerticesConnected.BuildTree | constraints/Graph.cc:225-245 | buildTree numbers the tree below a vertex, with the parent, cluster, count of active vertices and lowlink of each vertex as a depth-first search defines them. |
| Articulation.ClusterIsComponent | constraints/Graph.cc:165-180 | Two vertices are in one cluster exactly if they are connected by vertices that are not inactive. |
| Articulation.LowTest | constraints/Graph.cc:199-210 | The lowlink of a child is below the rank of its parent exactly if an edge leads from its subtree to a vertex visited before the parent. |
| Articulation.CutTest | constraints/Graph.cc:195-214 | Two pieces with active vertices are found exactly if removing the vertex disconnects active vertices. |
| GraphPropagators.ActiveVerticesConnected.Initialize | constraints/Graph.cc:98-126 | initialize reads all values first, listing the vertices that have one, and delivers afterwards: it refuses exactly a disconnected graph, and on simple graphs enqueues what a single check of all true literals enqueues, on others at least that. |
| GraphPropagators.ActiveVerticesConnected.CalcReason | constraints/Graph.cc:247-304 | For all literals the answer is made of delivered ones and with the hypothesis no completion is connected; with distinct variables it is exactly the deletion-based reduction of the decisions, followed by the literals Again gives for the vertices assigned before initialize, which decision_order_ lists twice; the abort for fewer than two clusters is never reached. |
| GraphMerges.EnqueuedExplained | constraints/Graph.cc:180-219 | Whatever propagate enqueues meets what calcReason asks for, for the literal as for the conflict if it is false. |
| Graphs.ReasonIsTight | constraints/Graph.cc:247-304 | The reduction is sufficient, no completion is connected, and irreducible: without any one of its literals there is one. |
| Graphs.TightExactly | constraints/Graph.cc:98-126 | The answer with what is added for vertices listed twice stays sufficient. It is irreducible exactly if nothing is added, and that is so exactly if every such vertex is Apart: no literal of its is in the reduction, and if it is active it is connected to no active vertex of the reduction. |
| Graphs.PathAddsAgain | constraints/Graph.cc:98-126 | A path of four vertices, two of them active before initialize: the reduction has three literals, and two more are added, one of which is not in it. |
| UnionFinds.UnionFind.Merge | constraints/Graph.cc:22-38 | Roots represent the partition the merges generate, sums are per class, and the number of classes with a positive sum is right. |
| UnionFinds.UnionFind.Root | constraints/Graph.cc:15-18 | Root takes at most log2 of the class size steps. |
| UnionFinds.UnionFind.Redo | constraints/Graph.cc:48-57 | Redo restores parents, sums and the number of clusters of the last Commit, whatever was done since. |
| UnionFinds.TwoClusters | constraints/Graph.cc:19-21 | At least two clusters are active exactly if two vertices with a positive count are in different classes. |
| Divisions.AtLeastMeans | constraints/GraphDivision.cc:10-18 | at_least(x) is true exactly if the value is at least x, absent and impossible answers included. |
| Divisions.AtMostMeans | constraints/GraphDivision.cc:20-28 | at_most(x) is true exactly if the value is at most x. |
| Divisions.TooTight | constraints/GraphDivision.cc:322-357 | Vertices of one potential region whose size intervals do not overlap are in different regions, so the potential region needs the sum of their lower bounds. |
| GraphDivisions.GraphDivision.ComputeRegions | constraints/GraphDivision.cc:362-391 | The regions are the connected components under the connected edges, or under those and the undecided ones, each vertex in exactly one. |
| GraphDivisions.GraphDivision.ReasonPath | constraints/GraphDivision.cc:393-432 | The breadth-first search ends at the destination, and the true literals of the path force both ends into one region. |
| GraphDivisions.GraphDivision.ReasonDecided | constraints/GraphDivision.cc:434-449 | The true literals returned force the vertices of a decided region into one region. |
| GraphDivisions.GraphDivision.ReasonPotential | constraints/GraphDivision.cc:451-464 | With the true literals returned no region of a vertex of the potential region goes beyond it. |
| GraphDivisions.GraphDivision.BoundsOf | constraints/GraphDivision.cc:151-186 | The two binary searches find bounds whose neighbouring literals are as they should be, on any trail. |
| GraphDivisions.GraphDivision.RegionIntervals | constraints/GraphDivision.cc:322-357 | The sweep of rule 3a takes, in the order of upper bounds, always the first interval above the last one, and objects exactly with true literals that refute the constraint. |
| GraphDivisions.GraphDivision.RunCheck | constraints/GraphDivision.cc:133-360 | A reason that is returned is made of true literals, no division satisfies it, and no quiet state within the present one contains it. Every literal enqueued has a stored reason that was true before and implies it, and is wanted: an undecided border within a component under the connected edges, or that a size is at least that of such a component, or at most that of one under connected and undecided edges. If no reason is returned every wanted literal has a value. On a total trail none is returned exactly if the trail is a division. |
| GraphDivisions.GraphDivision.Propagate | constraints/GraphDivision.cc:85-107 | While literals are pending nothing is checked; otherwise propagate answers as run_check does (Replies), stores the sorted reason, and leaves the reasons of literals that are already true alone. |
| GraphDivisions.ForcedExactly | constraints/GraphDivision.cc:191-318 | When run_check has no objection it has enqueued every wanted literal exactly if no two of them are opposite, and then nothing else. |
| DivisionExamples.OpposedFine | constraints/GraphDivision.cc:239-318 | A region of two vertices and a size of 1 or 3: the literal for 3 and its negation are both wanted and run_check has no objection. |
| GraphDivisions.GraphDivision.CalcReason | constraints/GraphDivision.cc:109-126 | The reason of a conflict is the last one stored, and that of a literal implies it. |
| GraphDivisions.GraphDivision.Undo | constraints/GraphDivision.cc:128-131 | undo drops the reason of the last literal. |
| GraphDivisions.GraphDivision.Initialize | constraints/GraphDivision.cc:52-83 | If no first value is negative initialize answers as run_check does; otherwise it refuses. |
| GraphDivisions.NegativeRefused | constraints/GraphDivision.cc:70-76 | A graph that has a division and is refused because a first value is negative. |
| DivisionExamples.TighterFits | constraints/GraphDivision.cc:322-357 | Rule 3a is not monotone: on a path of three vertices and two more, run_check objects when nothing is true, and not any more when a literal that lowers one upper bound is. |
| DivisionContracts.DivisionHonest | constraints/GraphDivision.cc:85-131 | A constraint that answers as Propagate may keeps the contract, given that the order clauses have been propagated. |
| DivisionContracts.DivisionStarts | constraints/GraphDivision.cc:52-83 | And what Initialize answers, no first value being negative, may be given to addConstraint. |
| Simplifying.SimpSolver.AddClause | simp/SimpSolver.cc:208-259 | The clause joins the meaning of clauses and facts, and its occurrences and the queue are kept up. |
| Simplifying.SimpSolver.Subsumes | core/SolverTypes.h:477-506 | For clauses without repeated variables the answer is subsumed exactly if the clause is contained, and a literal exactly if only that literal is flipped. |
| Resolution.FilterPasses | core/SolverTypes.h:211-216 | The size and the 32-bit abstraction never reject a clause that is contained, flipped in one literal or not. |
| Simplifying.SimpSolver.StrengthenClause | simp/SimpSolver.cc:277-329 | Removing a literal that the other clauses make superfluous keeps the meaning, and a clause that becomes a fact is removed. |
| Simplifying.SimpSolver.BackwardSubsumptionCheck | simp/SimpSolver.cc:442-506 | It terminates, clauses and facts keep their meaning, and in the end queue and facts have been worked off; unless it was interrupted, every clause that was in the queue or has lost literals, and every fact, has been compared with the others (Worked); false only if they are contradictory. |
| Simplifying.NothingSubsumed | simp/SimpSolver.cc:442-506 | Then no live clause that was in the queue, or has lost literals, is contained in another live one within subsumption_lim, be it but for one literal that is flipped. |
| Simplifying.FactsTaken | simp/SimpSolver.cc:459-505 | And no live clause within subsumption_lim has a literal that a fact taken up has decided. |
| Simplifying.SimpSolver.Merge | simp/SimpSolver.cc:333-360 | merge succeeds exactly if the clauses clash in no other variable, and gives the resolvent. |
| Simplifying.SimpSolver.MergeSize | simp/SimpSolver.cc:364-391 | The second merge gives its size. |
| Resolution.RestoresRemoved | simp/SimpSolver.cc:611-624 | If all resolvents hold, giving the eliminated variable the value that the stored clauses of one sign demand satisfies every clause of either sign. |
| Simplifying.SimpSolver.EliminateVar | simp/SimpSolver.cc:586-645 | The variable is kept, and the clauses with it, exactly if its clauses have resolvents without a clash and more of them than occurrences and grow, or one longer than clause_lim unless that is -1 (TooCostly); otherwise it is eliminated, or the clauses are contradictory. Models stay models, and a model of the result becomes one of the original by giving the variable its value. |
| Simplifying.SimpSolver.Eliminate | simp/SimpSolver.cc:701-780 | The same for any sequence of eliminations with subsumption in between; each variable of the sequence is eliminated, or had a value or was too costly when it came up. |
| Simplifying.SimpSolver.ExtendModel | simp/SimpSolver.cc:682-698 | Reading elimclauses backwards gives every eliminated variable its value, the last eliminated first. |
| Simplifying.EliminationRestores | simp/SimpSolver.cc:586-698 | The result is satisfiable exactly if the original is, and extendModel turns every model of it into one of the original. |
| Buffers.ClausesBuffer.PushClause | parallel/ClausesBuffer.cc:166-182 | A clause is accepted exactly if it fits, and then joins the history with its origin; otherwise nothing changes. |
| Buffers.ClausesBuffer.GetClause | parallel/ClausesBuffer.cc:184-231 | A thread gets the next clause of another thread with the right origin, exactly if there is one it has not got. |
| Buffers.ClausesBuffer.RemoveLastClause | parallel/ClausesBuffer.cc:124-149 | A record all other threads have read is dropped, cursors on it move to the record before. |
| Buffers.ClausesBuffer.Run | parallel/ClausesBuffer.cc:110-231 | Over every interleaving of calls each thread has got, in order and once each, a prefix of the accepted clauses of other threads, and all of them when it is told there is nothing left. |
| Buffers.NeverStale | parallel/ClausesBuffer.cc:190-197 | The branch for a cursor that was overtaken is never taken, and a cursor at the end means that everything was read. |
| Sorting.Sort | mtl/Sort.h:57-80 | For any strict weak order the range ends up sorted and permuted, and nothing else changes. |
| Sorting.Partition | mtl/Sort.h:63-76 | The unguarded scans stay within the range, and both parts that are left are shorter. |
| Heaps.Heap.PercolateUp | mtl/Heap.h:45-58 | If only one element may be out of order, moving it up leaves at most its children out of order, and none if they were fine. |
| Heaps.Heap.Decrease | mtl/Heap.h:85-85 | Heap order is restored when one key has moved forward. |
| Heaps.Heap.Update | mtl/Heap.h:91-97 | Heap order is restored whichever way one key has changed, and a new element is added. |
| Heaps.Heap.RemoveMin | mtl/Heap.h:112-121 | The element taken off comes before all others, and the rest stays ordered with exact positions. |
| Heaps.Heap.Build | mtl/Heap.h:125-136 | Any list without repetitions becomes a heap of exactly its elements. |

## Findings
Where the code does not do what its contract asks, the model follows the code. Each item
has a lemma with an input, and the exact condition.

- `Xor::initialize` (`constraints/Xor.cc:23-41`) reads values while its own `propagate`
  enqueues. If all variables but the last are assigned (`Overeager`, and only then) it takes
  the last literal in and the queue delivers it again, which breaks the assertion in
  `propagate`. `TakenInTwice` is the smallest case; `Xor.Initialize` states the condition,
  and `PropagateAgain` that without assertions only parity and count are off, at level 0,
  where every answer is still right.
- The empty table over no variables is accepted by `initialize`
  (`constraints/DirectEncodingExtension.cc:31`) though nothing satisfies it. `TableStarts`
  is an equivalence: initialize answers to the contract exactly if there is a variable or a
  row.
- Parallel edges (`constraints/Graph.cc:199-210`): a child that is listed twice counts twice,
  so a vertex can be forced active that need not be. `IsCut` states when, for every graph,
  and `ParallelForces` is the smallest case. Without parallel edges `Propagate` is as
  specified.
- Vertices assigned before `initialize` are listed twice in `decision_order_`
  (`constraints/Graph.cc:101` and `:146`), and `calcReason` comes to them a second time.
  Then it can add literals the reduction does not need, in `PathAddsAgain` two, one of them
  for the first time. `TightExactly` says when: nothing is added, and the answer is
  irreducible, exactly if every such vertex is `Apart` from the reduction. What is added is
  of level 0, which analysis skips.
- Vertices that share a variable: `propagate` tests one vertex at a time. `DomainConsistent`
  says what it finds for every list of literals, and `SharedMisses` is an input on which both
  vertices together are needed and it misses that.
- `GraphDivision::initialize` compares the first value with the number of vertices as
  unsigned numbers (`constraints/GraphDivision.cc:73`), so a negative first value counts as too
  large and the problem is refused. `GraphDivision.Initialize` says that it answers to the
  contract if no first value is negative and refuses if one is; in `NegativeRefused` the
  problem has a solution.
- Rule 3a of `run_check` is not monotone (`TighterFits`): an objection can vanish when more
  literals become true. It is still one whenever it is made, and `ObjectionOK` compares it
  with states within the present one only.
- `run_check` enqueues the literal of a bound only while it has no value
  (`constraints/GraphDivision.cc:246` and `:311`). When the two bounds of a size leave no
  value between them, at_least and at_most call for a literal and its negation: the first is
  enqueued and the second is not, and nothing is objected to until the next call.
  `OpposedFine` is an input; `ForcedExactly` says that everything that is called for is
  enqueued exactly if no two such literals are opposite (`NoneOpposed`).
- A list with a literal and its negation passes the assertion of `AtMost::AtMost`;
  `initialize` then may refuse what `propagate` would not (`Startable`, and `StartsAsTold`
  for the lists on which they agree). It is right to: no solution is left.

## Left out
- Solving.Solver.Search: without assumptions, so neither the levels they open (core/Solver.cc:1802-1815) nor the final conflict over them; analyzeFinal reads only clausal reasons, so over constraints it would list too little.
- Graphs.ConnectedHonest: of the specified answers, which are those of the class on graphs without parallel edges.
- Graphs.DomainConsistent: of the specified answer; what the code adds to it with parallel edges is stated by ActiveVerticesConnected.Propagate.
- Graphs.ReasonIsTight: of the reduction proper; what decision_order_ lists twice is the subject of TightExactly.
- Graphs.TightExactly: for distinct variables; with shared ones calcReason drops vertices and not literals, and CalcReason states only that its answer is enough.
- GraphPropagators.ActiveVerticesConnected.Undo: not for a variable that had a value before initialize, which is never undone.
- GraphDivisions.GraphDivision.RunCheck: for sizes whose values ascend and do not exceed the number of vertices (a larger value that is already reached trips the assertion at line 259), borders of which none is the negation of another (the second enqueue of rule 1 would fail its assertion), and order clauses that have been propagated; enqueue is taken to run although it stands inside assert.
- DivisionContracts.DivisionHonest: the answers are whatever Propagate may give, not one function; neighbouring size literals have different variables. That the test of the first value against the number of vertices can fail for a value that is not negative is ruled out with the values above.
- GraphDivisions.GraphDivision.Propagate: std::sort is the sort of mtl/Sort.h.
- Simplifying.SimpSolver.AddClause: OccLists are kept exact instead of cleaned lazily.
- Simplifying.SimpSolver.Eliminate: clauses only, no learnt clauses; gatherTouchedClauses, asymm, implied, substitute and the interrupt are not modelled, and the order of variables is arbitrary. propagate is a plain unit propagation over the clauses.
- Buffers.ClausesBuffer.Run: each call is one step, as under the mutex of SharedCompanion; for more than one thread; without whenFullRemoveOlder, which drops unread clauses.
- Solving.Solver.ReduceDb: reasons of removed level-0 clauses are left dangling rather than cleared, since nothing reads them.
- Activity, LBD, polarity, restarts and the choice of clauses to delete are arbitrary; floating point is not modelled.
- newVar and variables that are not decided on; clause relocation and memory; DRAT output; purgatory and the incremental mode.
- The widths of integers: sums in OrderEncodingLinear and counters are unbounded.
- The tables of literals that constraints sort once are modelled by the positions they list, not by the search in them.
- DIMACS, options, statistics, signals and the parallel build around ClausesBuffer.
