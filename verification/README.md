# Riss: simplification with model reconstruction, proof checking and the implication graph

This project models the parts of Riss whose correctness is a theorem about satisfiability,
and proves these theorems.

* **Coprocessor, the CNF simplifier.** Bounded variable elimination with gate definitions,
  blocked clause elimination, blocked clause minimisation, covered literal elimination and
  addition, and clause elimination by asymmetric and covered literals rewrite a formula and
  push repair clauses on the undo stack. Any schedule of these techniques keeps
  satisfiability, and `extendModel` turns every model of what is left into a model of the
  loaded formula, also if its variables were shuffled first or the stack went through a file
  (`Preprocessor`, which builds on all modules from `Undo` to `EliminationRun`). Which
  variables keep their values on the way is said exactly (`FrozenVariables`).
* **The online proof checker** with two watched literals. `propagate` answers exactly the
  question of naive unit propagation, `addClause` accepts exactly the RUP and RAT clauses,
  and an accepted empty clause refutes the parsed formula (`ReverseUnitPropagation`,
  `OnlineChecker`, `ProofChecker`).
* **The binary implication graph** with packed adjacency lists and start/stop stamps from an
  iterative depth first search, and the gates that are extracted with its help
  (`ImplicationGraph`, `ImplicationAnswers`, `Circuit`).
* **The proof master**, the counting hash table through which the threads of a portfolio
  write one proof (`ProofMaster`).
* **Sorting the clause list, shuffling the variables, and the undo file** (`ClauseSort`,
  `Shuffler`, `UndoFile`).

`Sat` holds literals, clauses, total assignments and satisfaction; `Steps` says once what
all simplification techniques have to do: `Step(F, G, e)` holds if every model of `G`,
after replaying the repair clauses `e`, is a model of `F`, and `G` is satisfiable if `F`
is. The class `CoprocessorData` carries its input formula as a ghost field, and
`Sound()` says that the input, the current formula and the whole undo stack form such a
step. Every technique is an imperative method that keeps `Sound()`.

Conventions: a clause of the simplifier is sorted by literal code and has neither duplicate
nor complementary literals, as `sortClauses` and the loader leave it; compression is the
identity, so that `exportLit` does nothing; the variable and clause orders of heaps, the
random numbers and the step limits are parameters or sequences of arbitrary values, so
that the theorems hold for all of them.

## Model

| member | source | states |
|---|---|---|
| Undo.ExtendModel | coprocessor/CoprocessorTypes.h:1665-1764 | The backward walk over the flat stack leaves no variable free and computes, up to variables beyond the vector, the fold of "if the repair clause is false, make its first literal true" from the newest clause to the oldest |
| Undo.ExtendConcat | coprocessor/CoprocessorTypes.h:1657-1764 | Replaying a stack with a piece on top is replaying the piece and then the stack |
| Undo.SegsConcat | coprocessor/CoprocessorTypes.h:1657-1663 | Appending a prepared piece of stack appends its repair clauses |
| Steps.StepCompose | coprocessor/CoprocessorTypes.h:1614-1764 | Sound steps compose, their repair clauses in the order of the steps |
| Steps.BlockedStep | coprocessor/techniques/BCE.cc:398-430 | A blocked clause can be dropped; flipping the literal it is blocked on repairs every model |
| Steps.CoveredAdditionStep | coprocessor/techniques/BCE.cc:84-205 | A clause can be replaced by itself and covered literals; the old clause with its pivot repairs every model |
| Steps.ShrinkStep | coprocessor/techniques/BCE.cc:430-535 | The dual: a clause may lose literals that the shorter clause covers, satisfiability is kept and no repair clause is needed |
| Steps.EliminationStep | coprocessor/techniques/BVE.cc:576-587 | If every model of the rest satisfies all bodies on one side, the clauses on a variable can go; the unit followed by the clauses of the other side repair every model |
| Formula.CoprocessorData.Enqueue | coprocessor/CoprocessorTypes.h:767-782 | A literal is appended unless it has a value; a false one makes the formula fail |
| Formula.CoprocessorData.AddClause | coprocessor/CoprocessorTypes.h:812-833 | The clause is stored and entered once under each of its literals, all other lists stay |
| Formula.CoprocessorData.RemoveClauseFrom | coprocessor/CoprocessorTypes.h:867-878 | The first entry with the reference leaves the list of the literal and the last entry takes its place; the result says whether there was one; without duplicates nothing else changes |
| Formula.CoprocessorData.AddToExtension | coprocessor/CoprocessorTypes.h:1614-1639 | Appends one repair clause with the pivot first, once |
| Formula.CoprocessorData.AddExtensionToExtension | coprocessor/CoprocessorTypes.h:1657-1663 | Appends the repair clauses of a prepared piece of stack |
| Formula.FormulaReplace | coprocessor/CoprocessorTypes.h:812-888 | What replacing one stored clause means for the formula |
| Formula.FrozenKeep | coprocessor/CoprocessorTypes.h:1665-1764 | Replaying repair clauses whose pivots are on other variables keeps the value of a variable |
| Propagation.Process | coprocessor/techniques/Propagation.cc:31-137 | Unit propagation on the database reaches a fixpoint or fails; the formula stays equivalent, every clause is only dropped when satisfied or loses false literals |
| Resolvents.TautologicResolvent | coprocessor/techniques/BCE.cc:633-653 | The loop over both clauses finds a clashing literal if and only if there is one, and then the least |
| Resolvents.Resolve | coprocessor/techniques/BVE.h:208-246 | Merge resolution reports a tautology if and only if the clauses clash elsewhere; otherwise it yields the sorted, duplicate-free set resolvent |
| Resolvents.TryResolve | coprocessor/techniques/BVE.h:248-299 | Returns -1 for a tautology and otherwise exactly the size of the set resolvent |
| Resolvents.TakeFirst | coprocessor/techniques/BVE.h:301-313 | If the last merged literal is compared with the next one, either it is a complement and the clauses clash beside the pivot, or the merged literals stay sorted, duplicate-free and exactly those of both consumed parts |
| Resolvents.SameStep | coprocessor/techniques/BVE.h:301-327 | Remembering only the last literal and counting reports the same tautologies, the same last literal and the same size as storing the resolvent |
| BlockedClauses.Analyse | coprocessor/techniques/BCE.cc:292-396 | The scan over the other side says whether the clause is blocked, records for BCM exactly the least clash with each partner, and for CLE exactly the literals that survive all partners |
| BlockedClauses.RemoveBlocked | coprocessor/techniques/BCE.cc:398-430 | BCE drops exactly the clause and pushes exactly the repair clause that starts with the blocking literal |
| BlockedClauses.MinimisedCovered | coprocessor/techniques/BCE.cc:430-496 | The minimised clause covers the literals it lost: it is still blocked, now by the recorded reasons alone |
| BlockedClauses.Minimise | coprocessor/techniques/BCE.cc:430-496 | BCM loses exactly the literals that are neither the pivot nor a reason (the first of them if a proof is written), enqueues a remaining unit, keeps the formula sound and pushes nothing |
| BlockedClauses.CleCovered | coprocessor/techniques/BCE.cc:364-396 | The intersection of the non-tautological partners is covered by what is left of the clause |
| BlockedClauses.EliminateCovered | coprocessor/techniques/BCE.cc:500-570 | CLE loses exactly the collected literals (the first of them if a proof is written), enqueues a remaining unit, which is never false, keeps the formula sound and pushes nothing |
| BlockedClauses.ProcessClause | coprocessor/techniques/BCE.cc:292-570 | For every configuration, exactly what becomes of the clause: a blocked one is removed and pushed, or minimised; any other one loses its covered literals if some partner does not clash; the rest of the state stays |
| BlockedClauses.ProcessLiteral | coprocessor/techniques/BCE.cc:255-590 | One literal: as long as no unit is found, every clause with it has the outcome that the clauses before determine, in every configuration; frozen and assigned literals change nothing |
| BlockedClauses.TryLiteral | coprocessor/techniques/BCE.cc:270-285 | One literal leaves the heap; the complement of every literal that a clause has lost is queued, and with plain BCE every literal on which a clause is now blocked |
| BlockedClauses.BlockedClauseElimination | coprocessor/techniques/BCE.cc:223-597 | The rounds over the queued literals, for every order in the heap, are a trace of such steps; without a limit they come to an end, every literal of a live clause has been tried, and every literal whose complement a clause lost is tried afterwards; plain BCE then leaves no live clause that a literal of an unfrozen variable blocks, except binary ones if the option excludes them |
| CoveredClauses.Intersect | coprocessor/techniques/BCE.cc:98-133 | Collects exactly the literals that occur in all non-tautological partners |
| CoveredClauses.AdditionCovered | coprocessor/techniques/BCE.cc:84-205 | These literals are covered |
| CoveredClauses.AdditionSound | coprocessor/techniques/BCE.cc:135-190 | Replacing the clause by the longer one, and pushing the old clause with its pivot, is a sound step |
| CoveredClauses.ExtendClause | coprocessor/techniques/BCE.cc:98-205 | The clause is extended by all literals that its partners share, if and only if there is such a literal; the longer clause is listed once under each of its literals and the old one goes to the stack, nothing else changes |
| CoveredClauses.TryExtend | coprocessor/techniques/BCE.cc:84-205 | This happens to a clause of the list if and only if it is still there and the pivot is among its least frequent literals |
| CoveredClauses.ExtendClausesOf | coprocessor/techniques/BCE.cc:84-205 | All clauses that were listed under the literal at the start are tried, one after the other; a frozen literal is left alone |
| CoveredClauses.AllFates | coprocessor/techniques/BCE.cc:84-205 | What has become of each of them: it is replaced if and only if it is alive, the literal is then among its least frequent ones, and its partners share a literal at the start; the longer clause has exactly what they share then |
| CoveredClauses.CoveredLiteralAddition | coprocessor/techniques/BCE.cc:29-221 | The loop tries every literal of the order, one after the other, and keeps the formula sound |
| ClauseElimination.AddAsymmetric | coprocessor/techniques/ClauseElimination.cc:113-170 | Marking the complement of the one unmarked literal of a clause changes nothing about what the virtual clause stands for |
| ClauseElimination.AddCovered | coprocessor/techniques/ClauseElimination.cc:172-285 | Adding literals that all partners share is undone by the recorded repair clause, which holds only the real literals of the virtual clause |
| ClauseElimination.OnlyRealLiteralsCover | coprocessor/techniques/ClauseElimination.cc:172-285 | A literal that came from asymmetric addition never contributes covered literals |
| ClauseElimination.BlockedVirtual | coprocessor/techniques/ClauseElimination.cc:286-306 | If all partners of a real literal have a marked complement, the clause can go with the recorded repair clauses and one more |
| ClauseElimination.FindCovered | coprocessor/techniques/ClauseElimination.cc:188-245 | The scan over the partners, with its early exits, yields the literals that they share one after the other; all of them are new |
| ClauseElimination.CoveredExact | coprocessor/techniques/ClauseElimination.cc:188-245 | These are exactly the unmarked literals that all live partners contain which are no tautology with the marks, if there is such a partner |
| ClauseElimination.MarkedBce | coprocessor/techniques/ClauseElimination.cc:321-335 | True if and only if the variable is not frozen and every clause listed under the complement, deleted or not, has another literal whose complement is marked |
| ClauseElimination.AlaClause | coprocessor/techniques/ClauseElimination.cc:117-145 | One comparison, exactly: too large clauses are skipped, a clause of marked literals justifies the removal, the complement of the only missing literal is marked and queued unless it is frozen, and nothing else happens |
| ClauseElimination.AlaLiteral | coprocessor/techniques/ClauseElimination.cc:113-170 | A removal is justified by a clause that subsumes the virtual clause; every listed clause of which one literal was missing has contributed its mark, and a listed subset of the clause is never missed |
| ClauseElimination.AlaPass | coprocessor/techniques/ClauseElimination.cc:111-150 | Asymmetric addition is unit propagation: with the marked literals false, the other clauses have a conflict if the pass finds a removal; and if they have one, it does, provided that all marks are queued, no live clause is a unit and none mentions a frozen variable |
| ClauseElimination.SubsumedRefutes | coprocessor/techniques/ClauseElimination.cc:117-145 | Every mark is a propagated literal, so that a clause of marked literals is a conflict |
| ClauseElimination.CrowdedNotRefuted | coprocessor/techniques/ClauseElimination.cc:117-145 | When no clause can contribute any more, there is no conflict in any order of propagation |
| ClauseElimination.Decide | coprocessor/techniques/ClauseElimination.cc:87-306 | Any interleaving of the additions and the final test removes the clause only if the recorded repair clauses make that sound; it always removes a clause that a clause over its free literals subsumes or that is plainly blocked, and, on a database without units and frozen variables, every clause whose complement unit propagation refutes |
| ClauseElimination.Eliminate | coprocessor/techniques/ClauseElimination.cc:87-319 | Either nothing changes, or exactly this clause is dropped and exactly the recorded repair clauses are appended; the formula stays sound; at level 1 a dropped clause is refuted by unit propagation on the other clauses from its complement, and on a database without units and frozen variables a refuted clause is dropped, at every level; a pivot is on a frozen variable only if a covered literal is, never below level 2, and never if all frozen variables of live clauses are in this clause |
| ClauseElimination.FreeUnlessCovered | coprocessor/techniques/ClauseElimination.cc:243-257 | If no covered literal that was found has a frozen variable, no pivot has one |
| ClauseElimination.NoneCovered | coprocessor/techniques/ClauseElimination.cc:172-285 | If all frozen variables of live clauses are in the clause, which can be read off the clauses before the call, no literal that covered addition finds is on a frozen variable |
| ClauseElimination.SizeLimit | coprocessor/techniques/ClauseElimination.cc:56-67 | The share of the size of the largest live clause, and at least three |
| ClauseElimination.FrozenPivot | coprocessor/techniques/ClauseElimination.cc:243-257 | Three clauses on which the elimination at level 3 pushes a repair clause whose pivot is on a frozen variable |
| ClauseElimination.ClauseEliminationRun | coprocessor/techniques/ClauseElimination.cc:35-85 | All clauses of the list that are larger than the limit are tried, one after the other; the run only deletes clauses and stays sound; below level 2 it pushes nothing; if no live clause mentions a frozen variable, none is ever met; on a database without units and frozen variables no large clause of the list is left that unit propagation on the others refutes |
| Definitions.GateDefines | coprocessor/techniques/BVE.cc:1143-1267 | The binary clauses and the long clause of an AND gate define the variable, on both sides |
| Definitions.PlaceBinaries | coprocessor/techniques/BVE.cc:1205-1250 | The swaps move one binary clause per literal of the gate clause to the front of the list |
| Definitions.FindGateFor | coprocessor/techniques/BVE.cc:1143-1267 | A gate is found if and only if there is one for this output, and then its clauses are in front |
| Definitions.FindGates | coprocessor/techniques/BVE.cc:1143-1267 | The lists of the variable are only rearranged; found if and only if a gate worth using exists; the limits then delimit a definition |
| VariableElimination.AnticipateElimination | coprocessor/techniques/BVE.cc:695-890 | The count is the number of tested productive gate/non-gate pairs; with early abort it exceeds the limit; without unit or empty resolvents nothing changes and a full count is exact |
| VariableElimination.QuietCountsAll | coprocessor/techniques/BVE.cc:738-874 | As long as no clause was shortened, every productive pair has been counted |
| VariableElimination.EarlyAbortDecidesTheSame | coprocessor/techniques/BVE.cc:527-554 | Two runs on the same job without unit or empty resolvents, with early abort and without, change nothing and take the same decision with the same new total, the one on the number of all productive pairs |
| VariableElimination.TryEliminate | coprocessor/techniques/BVE.cc:489-628 | Anticipation, decision and elimination of one variable: sound; accepted exactly under the condition of DecisionIs on the count, which is that of all productive pairs if no resolvent is a unit; if it is not accepted, exactly the clauses without a productive pair go, if asked to; if the variable is still free, every considered pair has its resolvent; the number of clauses changes by at most the resolvents minus the clauses on the variable, or by the resolvents alone if a unit has decided it; a first pair that yields such a unit leads to a count of zero |
| VariableElimination.Decision | coprocessor/techniques/BVE.cc:527-554 | The running total of added clauses never exceeds its bound, changes only when the elimination is accepted, and then by resolvents minus clauses |
| VariableElimination.DecisionIs | coprocessor/techniques/BVE.cc:527-554 | Accepted if and only if the total is within its bound and so is the new total, or, without a bound of its own for the total, the growth by this variable is within its bound |
| VariableElimination.BlockedRemoval | coprocessor/techniques/BVE.cc:1053-1116 | A clause whose statistics say that no gate/non-gate resolvent is left can be dropped with itself as repair clause, although only these pairs were counted |
| VariableElimination.RemoveBlockedClauses | coprocessor/techniques/BVE.cc:1053-1116 | Drops exactly the clauses with statistics zero and pushes exactly these |
| VariableElimination.BothGone | coprocessor/techniques/BVE.cc:515-526 | Removing by the counters removes exactly the clauses of both sides without a productive pair |
| VariableElimination.ResolveSet | coprocessor/techniques/BVE.cc:892-1046 | Adds at most the anticipated number of resolvents; afterwards every gate/non-gate pair is settled, by its resolvent, by a clash or by a unit, or the variable has got a value |
| VariableElimination.EliminationSound | coprocessor/techniques/BVE.cc:576-587 | Replacing all clauses on the variable by the gate/non-gate resolvents alone, and pushing the negative clauses and then the unit, is a sound step |
| VariableElimination.RemoveClauses | coprocessor/techniques/BVE.cc:644-693 | Deletes exactly the live clauses of the list and pushes them, pivot first, if asked to |
| VariableElimination.DropVariable | coprocessor/techniques/BVE.cc:576-591 | The exact effect of the last part of an elimination, for a free variable and for one that has got a value meanwhile; the variable is gone |
| EliminationRun.EliminateVariable | coprocessor/techniques/BVE.cc:411-628 | One round of the worker: exactly which variables are tried, with which clauses, in which order of the lists, and with which definition |
| EliminationRun.BveWorker | coprocessor/techniques/BVE.cc:388-637 | A run over any choice of variables is sound and fails only on unsatisfiable formulas; the number of clauses grows by no more than the total of the code says plus the clauses on the chosen variables that a unit decided; if no literal outside the trail follows from the formula, there are none and the growth stays within the bound |
| EliminationRun.RoundGrowth | coprocessor/techniques/BVE.cc:543-591 | In one round the number of live clauses exceeds what the total accounts for by at most the clauses on the variable, and only if a unit clause decides it |
| EliminationRun.DecidedOnce | coprocessor/techniques/BVE.cc:388-637 | No variable contributes twice to this surplus |
| EliminationRun.MixedHidesNothing | coprocessor/techniques/BVE.cc:388-637 | A condition on the clauses alone: if every clause has a positive and a negative literal, no literal outside the trail follows |
| EliminationRun.BoundExceeded | coprocessor/techniques/BVE.cc:543-545 | A run of the worker that exceeds the bound: with one more clause allowed in total, eleven clauses become at least thirteen |
| Preprocessor.InitializePreprocessor | coprocessor/Coprocessor.cc:1246-1330 | Loading splits the input into clauses and units without changing what it means |
| Preprocessor.RunTechnique | coprocessor/Coprocessor.cc:153-560 | Each technique starts from the propagated formula and runs on all it is asked to work on: the rounds of variable elimination, the trace of blocked clause elimination, the runs of covered literal addition and the steps of clause elimination lead from there to the end |
| Preprocessor.Preprocess | coprocessor/Coprocessor.cc:153-560 | Any schedule of the modelled techniques ends in a sound state in which everything is propagated, by a history of all techniques of the schedule; frozen variables are never met if clause elimination runs below level 2 |
| Preprocessor.SatisfiabilityKept | coprocessor/Coprocessor.cc:153-560 | What is left is satisfiable if and only if the input is; a failed run refutes the input |
| Preprocessor.ExtendToInput | coprocessor/Coprocessor.cc:1215-1235 | From any model of what is left, extendModel and the cut to the formula's variables yield a total model of the input; unless covered clause elimination has met a frozen variable, frozen variables keep the values of that model |
| Preprocessor.SortLits | coprocessor/Coprocessor.cc:1447-1479 | Insertion sort of a clause: the same literals in the order of their codes |
| Preprocessor.RenamedProper | coprocessor/Coprocessor.cc:1447-1479 | A renamed and sorted clause again has neither duplicate nor complementary literals |
| Preprocessor.PreprocessShuffled | coprocessor/Coprocessor.cc:105-121 | Shuffling, loading, sorting and any schedule of techniques: the techniques work on the sorted renamed clauses with the flags that variables had before; an assignment satisfies their input if and only if its unshuffled form satisfies the original formula |
| Preprocessor.ExtendToUnshuffled | coprocessor/Coprocessor.cc:1215-1240 | From any model of what is left, extendModel with its final unshuffling yields a model of the formula as it was before it was shuffled; unless covered clause elimination has met a frozen variable, every variable whose new name is frozen has the value that the model gives to the new name |
| Preprocessor.ShuffledSatisfiabilityKept | coprocessor/Coprocessor.cc:105-560 | Over the whole path what is left is satisfiable if and only if the unshuffled input is |
| Preprocessor.FileRepairs | coprocessor/OutputFormula.cc:247-347 | For every reachable state the undo file can be read back, and the stack that comes back repairs any model of what is left to a model of the input |
| Preprocessor.ExtendFromFile | coprocessor/OutputFormula.cc:247-347 | The same as a run: writing the file, reading it and extending a model succeeds and yields a total model of the input |
| FrozenVariables.AlwaysKeptExactly | coprocessor/Coprocessor.cc:1414-1429 | Over all inputs, remainders and undo stacks of sound runs that flip no frozen variable: extending a model keeps the value of the new name of a variable if and only if the new name is frozen |
| FrozenVariables.KeptExactly | coprocessor/Coprocessor.cc:1144-1148 | A run of the whole path for all random numbers, variables and frozen sets, on two clauses that force a variable without a unit: for a model of what is left, extending and unshuffling give the variable the value of its new name if and only if the new name is frozen, whether or not the variable itself was |
| FrozenVariables.FrozenLost | coprocessor/Coprocessor.cc:1429 | One input: variable 0 is frozen, the random numbers exchange it with variable 1, and in the model at the end it has another value than its new name had |
| ReverseUnitPropagation.ClosedNoConflict | proofcheck/OnlineProofChecker.h:190-295 | A closed, consistent trail shows that naive unit propagation finds no conflict in any order |
| ReverseUnitPropagation.ConflictRefutes | proofcheck/OnlineProofChecker.h:555-600 | If unit propagation finds a conflict, every model falsifies one of the assumed literals |
| ReverseUnitPropagation.RupFollows | proofcheck/OnlineProofChecker.h:555-600 | A RUP clause follows |
| ReverseUnitPropagation.RatKeepsModel | proofcheck/OnlineProofChecker.h:587-654 | A RAT clause with respect to all clauses keeps a satisfiable set satisfiable |
| ReverseUnitPropagation.RepeatsOnlyHide | proofcheck/OnlineProofChecker.h:190-295 | Repeated literals only hide units: a conflict of propagation on multisets is one of propagation on sets |
| ReverseUnitPropagation.NoRepeatsNoDifference | proofcheck/OnlineProofChecker.h:190-295 | If no clause repeats a literal, both are the same |
| ReverseUnitPropagation.RepeatsHideConflict | proofcheck/OnlineProofChecker.h:190-295 | For the clauses x x and not-x not-x they differ: no unit is seen, although there is no model |
| OnlineChecker.OnlineProofChecker.Propagate | proofcheck/OnlineProofChecker.h:190-295 | A conflict is reported if and only if unit propagation on the stored clauses, as multisets of literals, and units has one; otherwise the trail is closed; watches stay on the first two positions, clauses are only reordered |
| OnlineChecker.OnlineProofChecker.InspectClause | proofcheck/OnlineProofChecker.h:226-289 | One watched clause: a true literal, a new watch, a unit or a conflict |
| OnlineChecker.OnlineProofChecker.CancelUntil | proofcheck/OnlineProofChecker.h:177-182 | No variable has a value any more |
| OnlineChecker.OnlineProofChecker.AttachClause | proofcheck/OnlineProofChecker.h:120-134 | Adds one watch for each of the first two positions, in one list if these hold the same literal |
| OnlineChecker.OnlineProofChecker.DetachClause | proofcheck/OnlineProofChecker.h:136-143 | Without the clause the watches are right again |
| OnlineChecker.OnlineProofChecker.AddParsedClause | proofcheck/OnlineProofChecker.h:492-516 | The stored formula grows by exactly this clause; an empty one ends the check |
| OnlineChecker.OnlineProofChecker.CheckRup | proofcheck/OnlineProofChecker.h:555-590 | The first part of addClause: true if and only if the clause is RUP |
| OnlineChecker.OnlineProofChecker.CheckRat | proofcheck/OnlineProofChecker.h:587-654 | The resolvent loop: true if and only if every resolvent with a stored long clause on the first literal clashes or is RUP |
| OnlineChecker.OnlineProofChecker.AddClause | proofcheck/OnlineProofChecker.h:554-685 | For every clause, with repeated literals or without: accepts exactly RUP clauses, and RAT clauses in DRAT mode, with respect to this propagation; stores exactly the accepted clause |
| OnlineChecker.RepeatedRejected | proofcheck/OnlineProofChecker.h:554-685 | A run of the checker on these two clauses rejects the empty clause |
| OnlineChecker.OnlineProofChecker.RemoveClause | proofcheck/OnlineProofChecker.h:391-490 | Removes one copy if and only if there is one, whatever the order of literals, and nothing else |
| OnlineChecker.OnlineProofChecker.FindClause | proofcheck/OnlineProofChecker.h:419-456 | Finds a clause if and only if a live one with the chosen literal has as many literals as asked for and only marked ones; clauses may repeat literals; the literal is chosen by a comparison that takes an index for a literal |
| OnlineChecker.MatchRemoved | proofcheck/OnlineProofChecker.h:424-486 | What removing the clause that was found takes from the multiset of stored clauses, also with repeated literals: one copy of a clause of that size over those literals; for a clause without repetitions it is another clause if and only if the one that was found repeats a literal |
| OnlineChecker.NoRepeatsRemovable | proofcheck/OnlineProofChecker.h:424-486 | If no stored clause repeats a literal, size and marks find the clause itself, and the references to it leave all lists, as the code asserts |
| OnlineChecker.RepeatedNotRemovable | proofcheck/OnlineProofChecker.h:424-486 | With a repeated literal they can find another clause |
| OnlineChecker.DrupRunSound | proofcheck/OnlineProofChecker.h:390-685 | After any interleaving of calls in DRUP mode, an accepted empty clause refutes the parsed formula |
| OnlineChecker.CleanRunSound | proofcheck/OnlineProofChecker.h:587-682 | The same in DRAT mode for clean runs: no RAT clause was accepted whose first literal has its complement as a unit, and no formula clause was parsed after a RAT clause; deletions never matter |
| OnlineChecker.RatAcceptedKeepsModel | proofcheck/OnlineProofChecker.h:587-682 | An accepted RAT clause keeps the stored formula satisfiable if the complement of its first literal is no stored unit |
| OnlineChecker.RatIgnoresUnits | proofcheck/OnlineProofChecker.h:554-685 | Without that condition it fails: a run that parses the unit clause not-x accepts x and then the empty clause, although the formula has a model |
| OnlineChecker.RatExact | proofcheck/OnlineProofChecker.h:587-682 | For every clause that passes the RAT test, exactly: the stored clauses with it have a model if and only if the stored clauses have one, or, if the complement of its first literal is a stored unit, the stored clauses with the rest of the clause have one |
| ProofChecker.ProofChecker.AddClause | proofcheck/ProofChecker.cc:98-131 | Formula clauses are stored; a proof clause is fine if and only if the online checker accepts it, and a deletion if and only if the clause is stored; an empty clause of any kind is remembered |
| ProofChecker.VerifiedProof | proofcheck/ProofChecker.cc:93-173 | A proof that was read to the end and derives the empty clause is verified and refutes the parsed formula, whatever else it deletes |
| ProofChecker.VerifiedWithoutEmptyClause | proofcheck/ProofChecker.cc:98-173 | A verified DRUP proof either derives the empty clause and refutes the formula, or it only deletes the empty clause, and then a satisfiable formula has stayed satisfiable |
| ProofChecker.EmptyDeletionVerifies | proofcheck/ProofChecker.cc:98-173 | For every formula, satisfiable or not, and both formats, the run that deletes the empty clause verifies |
| ImplicationGraph.BIG.Create | coprocessor/CoprocessorTypes.h:1896-1933 | The packed lists hold exactly the binary clauses read as implications |
| ImplicationGraph.BIG.CreateFromBoth | coprocessor/CoprocessorTypes.h:1935-1980 | The same for two lists, the clauses and the learnt clauses, one after the other |
| ImplicationGraph.EdgeSetIs | coprocessor/CoprocessorTypes.h:1896-1933 | There is an edge from a to b if and only if a clause of the list that is still there consists of b and the complement of a |
| ImplicationGraph.EdgesSkew | coprocessor/CoprocessorTypes.h:1896-1933 | The edges are skew symmetric |
| ImplicationGraph.BIG.RemoveDuplicateEdges | coprocessor/CoprocessorTypes.h:2074-2090 | The set of edges stays, every list is strictly sorted |
| ImplicationGraph.BIG.Shuffle | coprocessor/CoprocessorTypes.h:2348-2356 | The list is exchanged as the random numbers say, and keeps its elements; the other lists stay |
| ImplicationGraph.Parentheses | coprocessor/CoprocessorTypes.h:2358-2402 | Intervals of stamped literals are nested or disjoint |
| ImplicationGraph.BIG.StampLiteral | coprocessor/CoprocessorTypes.h:2358-2402 | The iterative search terminates and keeps the invariants of the stamps: what is open or closed reaches what was started later inside its interval, everything a closed literal implies was started before it was closed, and every literal but the starts was found by an edge |
| ImplicationGraph.BIG.GenerateImplied | coprocessor/CoprocessorTypes.h:2144-2206 | Roots first, then the rest: every literal is stamped, the stamps are those of a finished search, which was started only with roots and with literals that no root reaches; the argument covers the variables of the graph, because the search writes a stamp for every literal it reaches |
| ImplicationGraph.BIG.Implies | coprocessor/CoprocessorTypes.h:2404-2409 | Yes if and only if the interval of the second literal lies in that of the first, or the one of the complement of the first in that of the complement of the second; only if the second is reachable |
| ImplicationGraph.ImpliesReaches | coprocessor/CoprocessorTypes.h:2404-2409 | Both disjuncts of implies mean reachability; the second one by skew symmetry |
| ImplicationGraph.ImpliesSound | coprocessor/CoprocessorTypes.h:2404-2409 | What implies answers holds in every model of the clauses |
| ImplicationAnswers.InsideExactly | coprocessor/CoprocessorTypes.h:2358-2402 | For every graph: an interval lies inside that of a literal if and only if a path of literals leads there that had no stamp when this literal got its own |
| ImplicationAnswers.SaysExactly | coprocessor/CoprocessorTypes.h:2358-2409 | For every graph, exactly when the answer is yes, in terms of such paths |
| ImplicationAnswers.FoundSays | coprocessor/CoprocessorTypes.h:2144-2206 | Every literal that the search was not started with has a predecessor for which the answer is yes; the others are roots or reached by no root |
| ImplicationAnswers.OneWaySays | coprocessor/CoprocessorTypes.h:2144-2409 | For all random numbers: along a path from a literal that a root reaches, on which no later literal has another predecessor, the answer is yes |
| ImplicationAnswers.TreeSays | coprocessor/CoprocessorTypes.h:2144-2409 | Without cycles, the answer is exactly reachability if what the first literal reaches is a tree, or what the complement of the second one reaches |
| ImplicationAnswers.ForestSays | coprocessor/CoprocessorTypes.h:2144-2409 | The same for all pairs if no literal has two predecessors |
| ImplicationAnswers.CircleMisses | coprocessor/CoprocessorTypes.h:2144-2409 | Three literals that imply each other in a circle: whatever the random numbers are, one of three answers is no although the literal is reachable |
| ImplicationGraph.BIG.IsChild | coprocessor/CoprocessorTypes.h:2411-2421 | True if and only if there is an edge |
| Circuit.AndEntailed | coprocessor/Circuit.cc:96-190 | A clause whose other literals are falsified by the output, directly or by reachability, gives an entailed AND gate |
| Circuit.MarkChildren | coprocessor/Circuit.cc:106-126 | Marks exactly the direct implications, each once; a contradiction is reported if and only if there is one, and the enqueued unit is entailed |
| Circuit.GeneralAnds | coprocessor/Circuit.cc:140-165 | All clauses of the list that fit yield their gate, in the order of the list, and no others |
| Circuit.AndFound | coprocessor/Circuit.cc:96-165 | A stored clause with the binary clauses of its output yields the gate with exactly the complements of the other literals as inputs |
| Circuit.CheckXor | coprocessor/Circuit.cc:694-840 | The result for one candidate clause, exactly, in terms of the ternary clauses, the edges and the stamps; a reported XOR gate is entailed |
| Circuit.XorGatesOf | coprocessor/Circuit.cc:694-840 | The gates of the candidates up to the first one that ends the search, and no others |
| Circuit.XorFound | coprocessor/Circuit.cc:694-840 | If the four clauses of a parity constraint are stored and the stamps know the edges inside the ternary clauses, the list of the least literal yields the gate |
| Circuit.NoBinariesInside | coprocessor/Circuit.cc:727-745 | This condition holds if no binary clause lies inside such a ternary clause |
| Circuit.ForestUndisturbed | coprocessor/Circuit.cc:727-745 | It holds, too, if the graph has no cycle and no literal with two predecessors |
| Circuit.SumSat | coprocessor/Circuit.cc:372-478 | The eight clauses together are the parity constraint |
| Circuit.TableRight | coprocessor/Circuit.cc:399-430 | Each line of the table of implications covers the clauses it claims to cover |
| Circuit.TableComplete | coprocessor/Circuit.cc:399-430 | No line is missing: every binary clause inside one of the seven clauses is a line that covers it |
| Circuit.CheckSum | coprocessor/Circuit.cc:385-478 | A full adder sum is reported if and only if all eight clauses are found by an edge, a stamp, a ternary or a quaternary clause; then it is entailed |
| Circuit.SumFound | coprocessor/Circuit.cc:372-478 | If the eight clauses are stored, the gate is found |
| Circuit.OppositeGatesFail | coprocessor/Circuit.cc:515-540 | Two gates over the same variables with opposite parity: no model, setFailed is right |
| Circuit.RemoveRedundant | coprocessor/Circuit.cc:515-540 | What is left says the same as before, contains no two gates over the same variables and a form of every gate; it fails if and only if two gates over the same variables have opposite parity, and then there is no model |
| Circuit.ListClauses | coprocessor/Circuit.cc:49-72 | Every clause with three or four literals is found under each of its literals; every entry is entailed, and every ternary one is a clause |
| Circuit.ExtractGates | coprocessor/Circuit.cc:24-94 | All reported gates and units are entailed by the formula, and a failure means that it has no model; nothing is missed: every stored AND gate with its binary clauses, every contradiction, every stored parity constraint over three variables whose edges the stamps know, and over four variables; a parity constraint that is stored in both forms leads to a failure |
| ProofMaster.SameSetSameBucket | proofcheck/ProofMaster.h:669-696 | The hash depends on the set of literals only, with wrap-around modulo 2^64 |
| ProofMaster.Master.Find | proofcheck/ProofMaster.h:243-275 | The look-up returns the first entry with the same literals, and none if and only if the table holds none |
| ProofMaster.MatchIsSame | proofcheck/ProofMaster.h:260-272 | Equal size and all literals marked mean the same set of literals if and only if the entry repeats no literal |
| ProofMaster.RepeatedMatches | proofcheck/ProofMaster.h:260-272 | An entry with a repeated literal passes the test for another clause |
| ProofMaster.Master.AddClause | proofcheck/ProofMaster.h:234-310 | The line is written only if the clause is not in the proof; every call keeps counters and copies equal modulo 2^20, and equal if and only if the counter did not leave the 20 bits of its field |
| ProofMaster.Master.RemoveClause | proofcheck/ProofMaster.h:312-397 | A deletion is written if and only if the counter found is one; the invariants survive if and only if the thread was entitled to delete the clause, whoever else holds it |
| ProofMaster.Master.RemoveCounted | proofcheck/ProofMaster.h:357-388 | With one line for n copies, the deletion of one copy takes the clause out of the proof if and only if n is 1 modulo 2^20 |
| ProofMaster.Master.AddUnit | proofcheck/ProofMaster.h:189-233 | The same for units |
| ProofMaster.Master.RemoveUnit | proofcheck/ProofMaster.h:567-643 | The same for deleting units |
| ProofMaster.Master.AddInput | proofcheck/ProofMaster.h:488-564 | A number of copies, distributed among the threads in any way, known or new; afterwards some clause has two lines if and only if one was said to be new although it was in the proof |
| ProofMaster.Master.LiveIffHeld | proofcheck/ProofMaster.h:189-397 | A clause is in the emitted proof if and only if some thread holds a copy, so that no thread's deletion removes what another one holds |
| ProofMaster.AddOftenRemoveOnce | proofcheck/ProofMaster.h:234-397 | For every number of calls: n additions of a clause and one deletion leave n - 1 copies held, and the clause is in the emitted proof if and only if n is not 1 modulo 2^20; with 2^20 + 1 additions 2^20 copies are held of a clause that the proof has lost |
| ProofMaster.Master.CounterIsTotal | proofcheck/ProofMaster.h:488-564 | The counter that a call finds is the number of copies if and only if the clause has no second line; with one line it is the number of copies modulo 2^20 in every state |
| ProofMaster.Master.CounterExact | proofcheck/ProofMaster.h:488-564 | With fewer than 1048576 copies and one line the counter is the number of copies, and with 1048576 copies it is zero |
| ClauseSort.Less | riss/core/SolverTypes.h:541-557 | operator< is the lexicographic order of deleted flag, size, variables and literals |
| ClauseSort.LexTransitive | riss/core/SolverTypes.h:541-557 | This order is transitive, so that sorting is meaningful |
| ClauseSort.Merge | coprocessor/CoprocessorTypes.h:1102-1120 | Two sorted fields become one sorted field with the same elements, nothing else changes |
| ClauseSort.Pass | coprocessor/CoprocessorTypes.h:1090-1122 | Right-aligned runs of length s become runs of length 2s, with the clipped field at the left |
| ClauseSort.SortClauseList | coprocessor/CoprocessorTypes.h:1074-1130 | Terminates with a sorted permutation, for every length |
| Shuffler.VarShuffler.SetupShuffling | coprocessor/Shuffler.cc:36-80 | A signed permutation for every stream of random numbers, determined by it and chosen once |
| Shuffler.VarShuffler.Process | coprocessor/Shuffler.cc:19-33 | Clauses, learnt clauses and trail are renamed, and reordered as the random numbers say if asked to, once |
| Shuffler.VarShuffler.Unshuffle | coprocessor/Shuffler.cc:140-168 | Every variable gets the truth value of its new name, for the number of variables that was shuffled, as the caller asserts (coprocessor/Coprocessor.cc:1441-1445) |
| Shuffler.UnshuffledModel | coprocessor/Shuffler.cc:82-168 | The unshuffled assignment satisfies the original clauses and trail if and only if the assignment satisfies the shuffled ones |
| Shuffler.ShuffledSatisfiable | coprocessor/Shuffler.cc:36-138 | Shuffling keeps satisfiability in both directions |
| Shuffler.Onto | coprocessor/Shuffler.cc:36-80 | Every variable is the new name of one |
| UndoFile.ParseClause | coprocessor/OutputFormula.cc:120-154 | Appends the literals of a line up to the first zero |
| UndoFile.SignedNumber | coprocessor/OutputFormula.cc:125-150 | A number n in digits is the literal of variable n - 1, and negative exactly with a minus sign in front of it |
| UndoFile.TwoLiterals | coprocessor/OutputFormula.cc:120-154 | One line with two literals, as it is printed and as it is read |
| UndoFile.LineRoundTrip | coprocessor/OutputFormula.cc:120-154 | The parser undoes the decimal literal printer |
| UndoFile.WriteUndoInfo | coprocessor/OutputFormula.cc:300-347 | Header, one line for each repair clause, one for each unit |
| UndoFile.ParseUndoInfo | coprocessor/OutputFormula.cc:247-297 | Reads the lines onto the stack; succeeds if and only if there is a header, the counts agree and no line is without literals |
| UndoFile.RoundTrip | coprocessor/OutputFormula.cc:247-347 | Reading what was written succeeds if and only if the stack has no empty segment; the repair clauses come back, followed by the units |
| UndoFile.RoundTripExtends | coprocessor/OutputFormula.cc:247-347 | A model is extended first by the units and then exactly as by the original stack; no segment that comes back is empty |

## Where the code does less than its documentation says

* `proofcheck/OnlineProofChecker.h:673-682` keeps unit clauses out of the occurrence lists,
  so the RAT check does not see them (`OnlineChecker.RatIgnoresUnits`,
  `OnlineChecker.RatExact`).
* `proofcheck/ProofChecker.cc:98-131` remembers an empty clause even if it is deleted, so a
  proof that deletes it counts as verified (`ProofChecker.EmptyDeletionVerifies`,
  `ProofChecker.VerifiedWithoutEmptyClause`).
* The copies of a clause are counted in a field of 20 bits (`riss/core/SolverTypes.h:187`;
  19 bits in the PCASSO build, line 207, which is not part of this model); at 2^20 copies the counter wraps, and a deletion removes a clause that others hold
  (`ProofMaster.Master.RemoveCounted`, `ProofMaster.AddOftenRemoveOnce`). The assertion of
  the code that a counter is positive fails exactly at multiples of 2^20; the model goes
  on as without assertions.
* `proofcheck/ProofMaster.h:489-564`: `addInputToProof` is documented as not writing to the
  file; the code writes, and so does the model. A clause that is passed as new twice gets
  two entries and two lines, which the invariant allows.
* `coprocessor/OutputFormula.cc:311-345`: the header counts separators, an empty segment at
  the end of the stack is not written, and one in the middle is read back with an access
  behind the end of a vector; hence the condition of `UndoFile.RoundTrip`.
* `coprocessor/techniques/ClauseElimination.cc:243-257`: covered literals are queued
  without asking whether their variables are frozen, other literals are not. A repair may
  then change a frozen variable (`ClauseElimination.FrozenPivot`). It does not if no covered
  literal has a frozen variable, or below level 2 (`ClauseElimination.FreeUnlessCovered`,
  `ClauseElimination.Eliminate`); whole runs for which this holds leave frozen variables
  alone (`Preprocessor.ExtendToInput`). Nor does it if all frozen variables of live clauses
  are in the clause itself (`ClauseElimination.NoneCovered`,
  `ClauseElimination.ClauseEliminationRun`).
* `coprocessor/techniques/BVE.cc:543-545`: if a unit decides the variable while its
  resolvents are tested, clauses on it are counted as removed although they stay in the
  formula in shortened form. The number of clauses can then exceed the bound on the growth
  (`EliminationRun.BoundExceeded`); the clauses on variables that a unit decides are the only
  reason (`EliminationRun.BveWorker`, `EliminationRun.DecidedOnce`), and formulas of which no
  new unit follows never exceed it.
* `coprocessor/Coprocessor.cc:1429`: shuffling renames clauses but not the flags of
  variables, so a variable that was frozen before (`coprocessor/Coprocessor.cc:1144-1148`)
  can be flipped afterwards (`FrozenVariables.FrozenLost`). A variable is protected if and
  only if its new name is frozen (`FrozenVariables.AlwaysKeptExactly`,
  `FrozenVariables.KeptExactly`, `Preprocessor.ExtendToUnshuffled`).
* `coprocessor/CoprocessorTypes.h:2404-2409`: `implies` never says yes wrongly, but it may say
  no although the literal is reachable, and around a circle of three literals it always does
  somewhere (`ImplicationAnswers.CircleMisses`). It is exact where the graph is a tree in one
  of the two directions (`ImplicationAnswers.TreeSays`); for all graphs the answer is
  characterised by the order of the stamps (`ImplicationAnswers.SaysExactly`).
* `coprocessor/Circuit.cc:727-745`: a direct edge that the stamps do not know ends the search
  for XOR gates with this literal, so that gates can be missed. They are not if the stamps know
  the edges inside the ternary clauses (`Circuit.ExtractGates`, `Circuit.NoBinariesInside`,
  `Circuit.ForestUndisturbed`).
* The checker says that clauses with repeated literals can be handled
  (`proofcheck/OnlineProofChecker.h:618`). Both watches of such a clause may be the same
  literal, which then never becomes a unit: the check is sound, but it is propagation on
  multisets (`OnlineChecker.OnlineProofChecker.Propagate`,
  `ReverseUnitPropagation.RepeatsHideConflict`, `OnlineChecker.RepeatedRejected`).

## Left out

- Learnt clauses in the simplifier: they are implied and never go on the undo stack; the model has no learnt flag.
- Subsumption and strengthening after an elimination, dense mode, equivalence elimination, unhiding, probing and vivification: techniques of their own.
- Proof output of the simplifier (DRUP lines, comments) and the backward checker.
- The clause allocator, garbage collection and relocation: clause references are indices.
- Threads, locks and the parallel variants; each call of the proof master is one atomic step.
- Step limits and heap orders: the order of literals, variables and clauses is a parameter, and stopping early is a shorter one.
- Options, statistics, timers and messages; 32-bit overflow, except in the hash and the counters of the proof master.
- Compression of variable names: exportLit is the identity.
- ITE gates, exactly-one gates and all blocked gates of the circuit extraction; the circuit keeps its tables as values.
- ImplicationGraph.BIG.RemoveDuplicateEdges: sorts with the selection sort that short lists use; merge sort and quick sort for longer lists are not modelled.
- ImplicationGraph.BIG.Create: a binary clause with two equal literals is not considered.
- ImplicationGraph.BIG.GenerateImplied: a graph with more variables than the argument is excluded; the search would then write behind the end of its stamps.
- ClauseElimination.AlaPass: with units or frozen variables in the database a conflict may be missed, because frozen marks are not queued and clauses are only reached over queued literals.
- EliminationRun.BveWorker: the force mode, which resolves without counting first; its callers leave it off (coprocessor/techniques/BVE.cc:243, coprocessor/techniques/BVEParallel.cc:1125).
- Preprocessor.Preprocess: the techniques of the schedule are those listed above; the other ones that the code calls are not modelled.
- Preprocessor.ExtendToInput: dense mode, which renames variables before the model is extended.
- Preprocessor.PreprocessShuffled: units that the solver has already put on its trail; in the model they are clauses of the input.
- Propagation.Process: in the model the heap of variables and the sorting option do not exist.
- OnlineChecker.OnlineProofChecker.AddClause: an empty clause that is no RUP clause is rejected in DRAT mode, where the code reaches an assertion.
- OnlineChecker.OnlineProofChecker.RemoveClause: a match by size and marks that is another clause is excluded, as by the assertion of the code that the clause leaves all lists; which clause is found then, and what taking it removes, is said by `OnlineChecker.OnlineProofChecker.FindClause` and `OnlineChecker.MatchRemoved`.
- ProofChecker.ProofChecker.AddClause: the same for deletions that are read; the backward checker is not modelled.
- ProofMaster.Master.Find: clauses without repeated literals only, as the solver stores them; `ProofMaster.MatchIsSame` says what the look-up does otherwise.
- ProofMaster.Master.RemoveClause: clauses without repeated literals only, as for the look-up.
- ProofMaster.Master.AddInput: clauses without repeated literals only, as for the look-up.
- ProofMaster.Master.AddClause: clauses without repeated literals only, as for the look-up; the online checker that may watch the proof master and the local buffers, which no caller uses, are not modelled.
- UndoFile.ParseUndoInfo: plus signs and tabulators in the header, the compression map and characters other than those of a clause line are not modelled.
