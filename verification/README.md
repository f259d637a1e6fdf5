# SMTPlan, collision geometry and RRT*: a verified model

This project models, in Dafny, the parts of the repository that compile, search and compute:

* the PDDL+ to SMT compiler of SMTPlan: the happening encoder, the sparse fluent encoder, the algebra that builds the
  flows of continuously changing functions, the option parser and the iterative-deepening loop;
* the exact collision tests over reals: segments against polygons, ray casting;
* the RRT* tree builder.

Formulas are a deep embedding (`Smt`): terms and formulas over named boolean and real variables, with an evaluation in
a model. The solver is an oracle: only which models satisfy a list of formulas matters. A grounded planning problem is
a datatype (`Pddl`). `Semantics` says what a legal run of a problem is without mentioning formulas: happenings made of
cascade layers, events, processes, durative actions that carry the time they are due, timed literals, continuous
change. `HappeningSpec` and `FluentSpec` list the constraints of the two encodings as functions; the classes
`EncoderHappening` and `EncoderFluent` are the visitors with their mode fields, stacks, effect lists and variable
vectors, proved to append exactly those lists; soundness, completeness and refinement are proved about the lists.

How to read the modules, in order: `Smt`, `Pddl`, `HappeningSpec`, `Semantics`; `Decoding` and the `...Meaning`
modules (what each block of constraints amounts to); `Soundness`, `Completeness`, `Vocabulary`; `EncoderState`,
`HappeningEncoder` (the class); `Lifecycle`, `Incremental`, `Deepening`, `CommandLine`, `SmtPlan`; `Algebra`, `Evaluation`, `Nonzero` (polynomials
and what they are worth); `FlowPartition`, `Resolution`, `Coverage`, `Algebraist`; `RateEquation`, `Tangle`,
`Listing`, `Continuous`, `EncodedChange`; `ZeroCrossing`, `VisitorLimits`; `FluentSpec`, `FluentMeaning`,
`FluentRefinement`, `FluentExpressiveness`, `FluentWitness`, `FluentEncoder`; `Segments`, `RayCasting`, `RrtStar`.

What the proofs assume of a problem: every number refers to something (`WellFormed`); for soundness and completeness
the conditions are those whose visit loses nothing (`FaithfulProblem`: conjunctions of possibly repeatedly negated
literals and of comparisons, no subtraction); the cascade bound is at least 2, which the option parser guarantees.

Where the code and the paper it implements, or its comments, disagree, the code is followed. Noteworthy:

* Mutual exclusion of simultaneous starts is complete only from the second call on; in the first call the effect lists
  are still filling (`Soundness.Separated` says exactly what is excluded).
* Over-all conditions are checked in the last but one layer only, and read the remaining duration, not the duration;
  at the end of an action `?duration` reads 0.
* A subtraction reaches the solver with its operands reversed, negation passes into a conjunction as it is and does not
  reach comparisons at all, disjunctions and implications are taken for true; all are stated with the exact condition
  under which that is harmless, and a failing input (`VisitorLimits`).
* A timed literal strictly between 0 and 1/10 makes every longer encoding unsatisfiable.
* A comparison whose sides are equal at the start of an interval satisfies the no-crossing constraint whatever it does
  then (`ZeroCrossing.AtomConstantIff`, with a failing input in `BalancedMovesOffUnseen`).
* Two interfering actions can start together in the first call (`Completeness.ThreatInFirstCall`).
* Dependencies are substituted in the order of their numbers, so the flow of a smaller one sees the larger ones moved
  already when it mentions them. Then the encoded value need not solve its rate equation: `Tangle.RightExactlyIf` says
  exactly when the smaller of two dependencies is right, `Tangle.FollowerIsWrong` is a failing input. Where no dependency
  mentions a larger one, every model of the encoding solves the rate equation (`EncodedChange.ModelSolves`).
* The flow for an idle dependency keeps none of the operators that must not run, and is only made when the dependency
  shares no operator with the flow. So two resolved flows can be satisfied at once, or none; `Coverage` counts them
  exactly, with a failing input for each (`Coverage.TwoAtOnce`, `Coverage.NoneAtAll`).
* The fluent encoder uses three slots for every literal whatever the horizon, and a condition, effect or goal on a
  literal needs a slot exactly at that happening. `FluentExpressiveness` says exactly what that can express,
  `FluentWitness` gives a plan it cannot. With more than two layers it cannot delete a true literal
  (`FluentRefinement.NothingTrueIsDeleted`).
* A word of the command line that is used as a value is compared with the rest of the table and can be taken for a flag
  as well (`CommandLine.TwoWords`, `CommandLine.ValueTakenAsFlag`).
* When no node near the goal has been found but the placeholder best node at the origin lies near the goal, the route
  writer walks from a node without parent and then reads a list that was never assigned
  (`RrtStar.RouteOfPlaceholder` is such an input).

## Model

| member | source | states |
|---|---|---|
| `Soundness.EncodingSound` | Planners/KCL-Planning-SMTPlan-edda8a8/SMTPlan/src/EncoderHappening.cpp:93-157 | every assignment that satisfies the constraints of one call decodes to a legal run of the reference semantics (timed literals, cascades, events, processes, durative actions, continuous change); if it also satisfies the goal list, the run reaches the goal with no durative action running; and no start threatens a start condition of an operator with a larger number |
| `Completeness.EncodingComplete` | Planners/KCL-Planning-SMTPlan-edda8a8/SMTPlan/src/EncoderHappening.cpp:93-157 | every legal run with such separated starts lifts to an assignment satisfying all constraints, which decodes to exactly that run; a run that reaches the goal satisfies the goal list too |
| `Completeness.SatisfiableIffPlan` | Planners/KCL-Planning-SMTPlan-edda8a8/SMTPlan/src/EncoderHappening.cpp:93-157 | H happenings with the goals are satisfiable if and only if there is a plan of H happenings |
| `Completeness.LiftEncodes` | Planners/KCL-Planning-SMTPlan-edda8a8/SMTPlan/src/EncoderHappening.cpp:93-157 | a legal run satisfies what any single call over happenings lo to hi asserts, also a later call with all mutex clauses |
| `Soundness.WithinSound` | Planners/KCL-Planning-SMTPlan-edda8a8/SMTPlan/src/EncoderHappening.cpp:385-810 | the decoded happening obeys every rule inside a happening: each layer is the one before plus adds minus deletes of what fires, events fire iff enabled, conditions hold in the last but one layer |
| `Soundness.BetweenSound` | Planners/KCL-Planning-SMTPlan-edda8a8/SMTPlan/src/EncoderHappening.cpp:236-247 | two decoded happenings obey every rule between happenings: time moves on by a tenth or more and passes no stamp, literals change only by timed literals, values by flows, running actions end exactly when due |
| `Soundness.InitialSound` | Planners/KCL-Planning-SMTPlan-edda8a8/SMTPlan/src/EncoderHappening.cpp:274-315 | the first decoded layer is the initial state, updated consistently by timed literals at time zero |
| `Soundness.SeparatedSound` | Planners/KCL-Planning-SMTPlan-edda8a8/SMTPlan/src/EncoderHappening.cpp:979-1024 | which simultaneous starts the mutex clauses really exclude: all threats in later calls, in the first call only those by operators with smaller numbers |
| `Vocabulary.AssignedMeans` | Planners/KCL-Planning-SMTPlan-edda8a8/SMTPlan/src/EncoderHappening.cpp:816-850 | a function may change inside a happening by a durative action that starts there and assigns it at its start, by an instantaneous action that does, or by a durative action that ends there and assigns it at its end, and by nothing else |
| `Vocabulary.AddedMeans` | Planners/KCL-Planning-SMTPlan-edda8a8/SMTPlan/src/EncoderHappening.cpp:717-810 | a literal is added in a layer by an event that fires there, and in the last step also by an action with that start or instantaneous effect that starts, or with that end effect that ends |
| `Vocabulary.DeletedMeans` | Planners/KCL-Planning-SMTPlan-edda8a8/SMTPlan/src/EncoderHappening.cpp:717-810 | the same for deletions |
| `Vocabulary.TilAffectsMeans` | Planners/KCL-Planning-SMTPlan-edda8a8/SMTPlan/src/EncoderHappening.cpp:342-375 | a timed literal adds, deletes and assigns what its effects say, at its stamp |
| `Vocabulary.ThreatensMeans` | Planners/KCL-Planning-SMTPlan-edda8a8/SMTPlan/src/EncoderHappening.cpp:979-1024 | an action threatens conditions iff its effects at the start delete a literal that is asked for or add one that is excluded |
| `Vocabulary.MatchesMeans` | Planners/KCL-Planning-SMTPlan-edda8a8/SMTPlan/src/EncoderHappening.cpp:881-912 | a flow matches iff operator o - 1 runs for each of its keys o above zero and operator -o - 1 does not for each below; it is idle iff none of them runs |
| `Completeness.LiftDecodes` | Planners/KCL-Planning-SMTPlan-edda8a8/SMTPlan/src/EncoderHappening.cpp:163-226 | lifting a well-shaped happening to variables and decoding it again gives it back |
| `EncodeMeaning.BodiesAreClauses` | Planners/KCL-Planning-SMTPlan-edda8a8/SMTPlan/src/EncoderHappening.cpp:93-157 | satisfying all loop bodies at a happening is equivalent to the semantic clauses of that happening, loop by loop |
| `BlockMeaning.RunVarsMean` | Planners/KCL-Planning-SMTPlan-edda8a8/SMTPlan/src/EncoderHappening.cpp:415-440 | the start/run/end/remaining-duration constraints are equivalent to: running iff time remains, start iff running begins, end iff running stops, countdown by the gap |
| `BlockMeaning.ThreatMeans` | Planners/KCL-Planning-SMTPlan-edda8a8/SMTPlan/src/EncoderHappening.cpp:979-1024 | the mutex clauses hold iff no operator seen so far with an opposite start effect starts together |
| `LayerMeaning.DurativeBodyMeans` | Planners/KCL-Planning-SMTPlan-edda8a8/SMTPlan/src/EncoderHappening.cpp:445-463 | the body of a durative action is equivalent to its start, end and over-all obligations |
| `EventMeaning.MustPairsMean` | Planners/KCL-Planning-SMTPlan-edda8a8/SMTPlan/src/EncoderHappening.cpp:557-586 | popping both stacks of lhs-rhs terms pairs the same comparison of the two visits, and the products hold iff no comparison changes strict sign |
| `EventMeaning.EventLayerMeans` | Planners/KCL-Planning-SMTPlan-edda8a8/SMTPlan/src/EncoderHappening.cpp:534-593 | the constraints of an event in one layer are equivalent to: fires iff its condition holds there, its effects show in the next layer, no comparison crossed zero since the last happening |
| `EventMeaning.ProcessBodyMeans` | Planners/KCL-Planning-SMTPlan-edda8a8/SMTPlan/src/EncoderHappening.cpp:640-707 | a process runs iff enabled in the last layer; while it ran, none of its comparisons crossed zero |
| `FrameMeaning.LitAtMeans` | Planners/KCL-Planning-SMTPlan-edda8a8/SMTPlan/src/EncoderHappening.cpp:717-810 | both directions of the frame axioms of a literal are equivalent to: every change has a cause |
| `FrameMeaning.TilBodyMeans` | Planners/KCL-Planning-SMTPlan-edda8a8/SMTPlan/src/EncoderHappening.cpp:342-375 | the constraints of a timed literal are equivalent to: its variable is true iff the happening is at its stamp, the stamp is not skipped, its effects show in layer 0 |
| `FlowMeaning.FlowAtMeans` | Planners/KCL-Planning-SMTPlan-edda8a8/SMTPlan/src/EncoderHappening.cpp:854-921 | the flow constraints are equivalent to the value given by the flow that matches what runs, unless a timed literal assigns the function |
| `FlowMeaning.PolyTermMeans` | Planners/KCL-Planning-SMTPlan-edda8a8/SMTPlan/include/SMTPlan/EncoderHappening.h:128-171 | the term printed for a polynomial evaluates to the polynomial, with #t the gap after the happening |
| `FlowMeaning.GoalOutputMeans` | Planners/KCL-Planning-SMTPlan-edda8a8/SMTPlan/src/EncoderHappening.cpp:326-336 | constraints and goal list together imply the goal; and equal it when the comparison flags are set like their comparisons |
| `HappeningEncoder.EncoderHappening.constructor` | Planners/KCL-Planning-SMTPlan-edda8a8/SMTPlan/include/SMTPlan/EncoderHappening.h:175-209 | nothing asserted, no happening encoded, all vectors empty |
| `HappeningEncoder.EncoderHappening.Encode` | Planners/KCL-Planning-SMTPlan-edda8a8/SMTPlan/src/EncoderHappening.cpp:93-157 | a call appends exactly the constraints of the new happenings (and on the first call the known states), replaces the goal list by that of the new last happening, and leaves every variable vector with one entry for each happening |
| `HappeningEncoder.EncoderHappening.EncodeHeader` | Planners/KCL-Planning-SMTPlan-edda8a8/SMTPlan/src/EncoderHappening.cpp:163-226 | all vectors of times, gaps, literals and functions reach length H and keep their old entries |
| `HappeningEncoder.EncoderHappening.EncodeTimings` | Planners/KCL-Planning-SMTPlan-edda8a8/SMTPlan/src/EncoderHappening.cpp:236-247 | appends the timing block of the new happenings |
| `HappeningEncoder.EncoderHappening.EncodeKnownState` | Planners/KCL-Planning-SMTPlan-edda8a8/SMTPlan/src/EncoderHappening.cpp:274-315 | appends init literals, negated absent literals and initial values |
| `HappeningEncoder.EncoderHappening.EncodeGoalState` | Planners/KCL-Planning-SMTPlan-edda8a8/SMTPlan/src/EncoderHappening.cpp:326-336 | the goal list is that of the last layer of the last happening; only guarded comparisons go to the solver |
| `HappeningEncoder.EncoderHappening.VisitTimedInitialLiteral` | Planners/KCL-Planning-SMTPlan-edda8a8/SMTPlan/src/EncoderHappening.cpp:342-375 | appends the block of the literal for the new happenings, adds its variables, and records its effects on the first happening only |
| `HappeningEncoder.EncoderHappening.VisitDurativeAction` | Planners/KCL-Planning-SMTPlan-edda8a8/SMTPlan/src/EncoderHappening.cpp:385-465 | appends the action's layers; the effect lists then hold one operator more; the goal list gains that it does not run at the end |
| `HappeningEncoder.EncoderHappening.VisitAction` | Planners/KCL-Planning-SMTPlan-edda8a8/SMTPlan/src/EncoderHappening.cpp:467-512 | the same for instantaneous actions |
| `HappeningEncoder.EncoderHappening.VisitEvent` | Planners/KCL-Planning-SMTPlan-edda8a8/SMTPlan/src/EncoderHappening.cpp:518-593 | the same for events, layer by layer of the cascade |
| `HappeningEncoder.EncoderHappening.VisitProcess` | Planners/KCL-Planning-SMTPlan-edda8a8/SMTPlan/src/EncoderHappening.cpp:599-707 | the same for processes |
| `HappeningEncoder.EncoderHappening.MakeOpVars` | Planners/KCL-Planning-SMTPlan-edda8a8/SMTPlan/src/EncoderHappening.cpp:399-440 | new entries in the vectors of one operator and the constraints tying them |
| `HappeningEncoder.EncoderHappening.VisitGoal` | Planners/KCL-Planning-SMTPlan-edda8a8/SMTPlan/src/EncoderHappening.cpp:927-1048 | a visit with any polarity writes exactly what the flattened list of atoms calls for, to solver, goal list or stacks, and restores the polarity field; what the list means, also for negated comparisons and disjunctions, is `VisitorLimits.VisitAmountsTo` |
| `HappeningEncoder.EncoderHappening.VisitSimpleGoal` | Planners/KCL-Planning-SMTPlan-edda8a8/SMTPlan/src/EncoderHappening.cpp:942-1048 | one literal condition in each visitor state, with the mutex clauses of the effect lists as they are then |
| `HappeningEncoder.EncoderHappening.VisitComparison` | Planners/KCL-Planning-SMTPlan-edda8a8/SMTPlan/src/EncoderHappening.cpp:1050-1117 | one comparison in each visitor state |
| `HappeningEncoder.EncoderHappening.VisitExpression` | Planners/KCL-Planning-SMTPlan-edda8a8/SMTPlan/src/EncoderHappening.cpp:1350-1500 | pushes one term and leaves the rest of the stack alone |
| `HappeningEncoder.EncoderHappening.VisitEffects` | Planners/KCL-Planning-SMTPlan-edda8a8/SMTPlan/src/EncoderHappening.cpp:1127-1146 | asserts the effects under their trigger, and records them in the effect lists exactly on the first happening (and first layer) |
| `HappeningEncoder.EncoderHappening.VisitAssignment` | Planners/KCL-Planning-SMTPlan-edda8a8/SMTPlan/src/EncoderHappening.cpp:1233-1337 | the assignment formula over the right layers |
| `HappeningEncoder.EncoderHappening.PairMusts` | Planners/KCL-Planning-SMTPlan-edda8a8/SMTPlan/src/EncoderHappening.cpp:570-586 | pops two stacks of equal length together into the product constraints |
| `HappeningEncoder.EncoderHappening.MkExpr` | Planners/KCL-Planning-SMTPlan-edda8a8/SMTPlan/include/SMTPlan/EncoderHappening.h:128-171 | the term of a polynomial over the variables of a layer |
| `HappeningEncoder.EncoderHappening.EncodeLiteralVariableSupport` | Planners/KCL-Planning-SMTPlan-edda8a8/SMTPlan/src/EncoderHappening.cpp:717-810 | appends the frame axioms of a literal for the new happenings |
| `HappeningEncoder.EncoderHappening.EncodeFunctionVariableSupport` | Planners/KCL-Planning-SMTPlan-edda8a8/SMTPlan/src/EncoderHappening.cpp:816-850 | appends the frame axioms of a function for the new happenings |
| `HappeningEncoder.EncoderHappening.EncodeFunctionFlows` | Planners/KCL-Planning-SMTPlan-edda8a8/SMTPlan/src/EncoderHappening.cpp:854-921 | appends the flow constraints of a function for the new happenings |
| `HappeningEncoder.EncoderHappening.AddGoal` | Planners/KCL-Planning-SMTPlan-edda8a8/SMTPlan/include/SMTPlan/EncoderHappening.h:218-222 | moves the goal list among the constraints |
| `Lifecycle.DurativeLifecycle` | Planners/KCL-Planning-SMTPlan-edda8a8/SMTPlan/src/EncoderHappening.cpp:399-440 | in every model with the goals true: each start has a unique later matching end, the action runs exactly in between, the remaining duration at j is the duration minus the time since the start, end time minus start time is the duration, starts and ends are in bijection and executions do not overlap |
| `Lifecycle.TilFiresOnce` | Planners/KCL-Planning-SMTPlan-edda8a8/SMTPlan/src/EncoderHappening.cpp:342-375 | a timed literal with stamp v >= 0 is true at exactly one happening if v is not after the last one, and at none otherwise |
| `Lifecycle.EarlyStampUnsatisfiable` | Planners/KCL-Planning-SMTPlan-edda8a8/SMTPlan/src/EncoderHappening.cpp:236-247 | a stamp strictly between 0 and 1/10 makes every encoding of two or more happenings unsatisfiable |
| `Incremental.IncrementalIsOneShot` | Planners/KCL-Planning-SMTPlan-edda8a8/SMTPlan/src/EncoderHappening.cpp:93-157 | encoding in several calls asserts everything one call asserts; whatever it asserts besides is an action mutex clause or a guarded goal comparison |
| `Incremental.FirstCallMutex` | Planners/KCL-Planning-SMTPlan-edda8a8/SMTPlan/src/EncoderHappening.cpp:979-996 | a mutex clause against an operator is there iff the operator had been seen when the condition was visited |
| `Incremental.LayerGrows` | Planners/KCL-Planning-SMTPlan-edda8a8/SMTPlan/src/EncoderHappening.cpp:93-157 | a layer encoded by a later call contains the layer of a first call and otherwise only mutex clauses |
| `Deepening.BatchSatisfiable` | Planners/KCL-Planning-SMTPlan-edda8a8/SMTPlan/src/SMTPlan.cpp:219-250 | after any sequence of calls the solver contents with the current goals are satisfiable iff there is a plan of the last bound's length, separated as the calls demand |
| `Deepening.IdleExtends` | Planners/KCL-Planning-SMTPlan-edda8a8/SMTPlan/src/SMTPlan.cpp:219-250 | without events, processes and timed literals a plan stays a plan with one more idle happening |
| `Deepening.DeeperSatisfiable` | Planners/KCL-Planning-SMTPlan-edda8a8/SMTPlan/src/SMTPlan.cpp:219-250 | then satisfiable contents stay satisfiable after one more call |
| `Deepening.PlanIsReached` | Planners/KCL-Planning-SMTPlan-edda8a8/SMTPlan/src/SMTPlan.cpp:219-250 | a plan without interfering starts is found at every bound from its length on, whatever calls came before |
| `CommandLine.ParseArguments` | Planners/KCL-Planning-SMTPlan-edda8a8/SMTPlan/src/SMTPlan.cpp:55-119 | when no value is itself a flag later in the table, a line is refused just if it asks for help, lacks a value or has something else where a flag is due, and otherwise lower, upper, step and encoder are the number after the last -l, -u, -s, -e (1, -1, 1 and 0 without one), the cascade is the number after the last -c raised to two if smaller (2 without one), and solve, verbose and debug say whether there is no -n, a -v, a -d, each whatever the other flags are; in general the nested loops compute what scanning each word against the whole table gives, and the cascade is two or more |
| `CommandLine.ParsedPlainly` | Planners/KCL-Planning-SMTPlan-edda8a8/SMTPlan/src/SMTPlan.cpp:72-116 | for all command lines: if, read plainly, no value word is a flag that stands later in the table than the flag it belongs to, the loops compute the plain reading |
| `CommandLine.ParsedAsGiven` | Planners/KCL-Planning-SMTPlan-edda8a8/SMTPlan/src/SMTPlan.cpp:63-115 | the same of the reading itself, for every such command line: which lines are refused, and what each option is set to by the last of its flags |
| `CommandLine.NumbersArePlain` | Planners/KCL-Planning-SMTPlan-edda8a8/SMTPlan/src/SMTPlan.cpp:76-90 | a line in which no word in the place of a value is a flag is such a line |
| `CommandLine.TwoWords` | Planners/KCL-Planning-SMTPlan-edda8a8/SMTPlan/src/SMTPlan.cpp:72-116 | for every flag with a value and every word after it the condition is exact: the loops read the two as a flag and its value if and only if the word is none of the flags behind that flag in the table, which are listed |
| `CommandLine.CascadeAtLeastTwo` | Planners/KCL-Planning-SMTPlan-edda8a8/SMTPlan/src/SMTPlan.cpp:97-99 | every accepted command line leaves a cascade bound of two or more |
| `CommandLine.ValueTakenAsFlag` | Planners/KCL-Planning-SMTPlan-edda8a8/SMTPlan/src/SMTPlan.cpp:76-107 | witness: -l -u 5 is accepted with lower bound 0 and upper bound 5, although it is no command line when read plainly |
| `SmtPlan.Search` | Planners/KCL-Planning-SMTPlan-edda8a8/SMTPlan/src/SMTPlan.cpp:219-250 | the solver said no exactly n times, at lower, lower + step and so on, after just the calls up to then; the loop then ends at lower + n * step: because the solver says yes there, and then that is at most the upper bound if there is one; or without a plan because that is more than the upper bound; or it is no longer watched after exactly that many rounds; without solving, it prints the first encoding with its goals if the lower bound is within the upper one |
| `SmtPlan.BoundsAsked` | Planners/KCL-Planning-SMTPlan-edda8a8/SMTPlan/src/SMTPlan.cpp:219 | every bound asked, lower + k * step for k below n, is at most the upper bound if there is one, and nothing is asked without solving |
| `SmtPlan.BoundsKept` | Planners/KCL-Planning-SMTPlan-edda8a8/SMTPlan/src/SMTPlan.cpp:219-250 | with an upper bound, a bound found, printed for or looked at next is at most that bound, and no plan is reported only when lower + n * step is more |
| `SmtPlan.NoPlanUpTo` | Planners/KCL-Planning-SMTPlan-edda8a8/SMTPlan/src/SMTPlan.cpp:219-250 | with an exact solver and no plan reported there is no plan of any of the lengths lower, lower + step, ... up to the upper bound, separated as the calls so far demand; for every faithful problem |
| `SmtPlan.NoShorterPlan` | Planners/KCL-Planning-SMTPlan-edda8a8/SMTPlan/src/SMTPlan.cpp:219-250 | without events, processes and timed literals there is then no plan without interfering starts of any length up to the last bound asked |
| `SmtPlan.FoundPlan` | Planners/KCL-Planning-SMTPlan-edda8a8/SMTPlan/src/SMTPlan.cpp:219-250 | with an exact solver a reported bound has a legal run of that length that reaches the goal |
| `SmtPlan.PrintedPlan` | Planners/KCL-Planning-SMTPlan-edda8a8/SMTPlan/src/SMTPlan.cpp:227-234 | what is printed without solving is satisfiable if and only if there is a plan of just the lower bound's length |
| `SmtPlan.AnsweredFromThereOn` | Planners/KCL-Planning-SMTPlan-edda8a8/SMTPlan/src/SMTPlan.cpp:219-250 | from the first answerable bound on every reached bound is answerable, without events, processes and timed literals |
| `Algebraist.FunctionFlow.AddExpression` | Planners/KCL-Planning-SMTPlan-edda8a8/SMTPlan/src/Algebraist.cpp:10-45 | the loop that changes flows in place computes the old flows without the operator, the old flows with it, and the operator alone |
| `FlowPartition.FlowsPartition` | Planners/KCL-Planning-SMTPlan-edda8a8/SMTPlan/src/Algebraist.cpp:10-45 | after n effects of different operators there are 2^n - 1 flows; with none of the operators running no flow is satisfied, otherwise exactly one, whose polynomial is the sum of the running effects and whose dependencies are the union of theirs |
| `FlowPartition.PlaceOfFlow` | Planners/KCL-Planning-SMTPlan-edda8a8/SMTPlan/src/Algebraist.cpp:10-45 | flows and nonempty sets of operators are in bijection |
| `Algebraist.FunctionFlow.CreateChildren` | Planners/KCL-Planning-SMTPlan-edda8a8/SMTPlan/src/Algebraist.cpp:47-120 | the work list terminates on any flows and leaves exactly the flows that come of the first ones by replacing one dependency after the other, the smallest first and the last flow first, with no new operators; it overflows only if a flow of one of the dependencies has more than ten operators |
| `Algebraist.FunctionFlow.PushChildren` | Planners/KCL-Planning-SMTPlan-edda8a8/SMTPlan/src/Algebraist.cpp:61-116 | one dependency replaced: overflows if and only if some flow of the dependency has more than ten operators that the current flow lacks; otherwise pushes its children, at most one more than the dependency has flows |
| `Resolution.ResolvedFree` | Planners/KCL-Planning-SMTPlan-edda8a8/SMTPlan/src/Algebraist.cpp:55-58 | nothing that comes of any flows has a dependency |
| `Resolution.ResolvedSame` | Planners/KCL-Planning-SMTPlan-edda8a8/SMTPlan/src/Algebraist.cpp:61-62 | what comes of flows depends on the flows of the dependencies only, so functions finished later do not matter |
| `Resolution.Lighter` | Planners/KCL-Planning-SMTPlan-edda8a8/SMTPlan/src/Algebraist.cpp:47-120 | the measure: replacing a flow by at most K+1 flows with one dependency less lowers the sum of (K+2)^|dependencies| |
| `Resolution.OneChildIff` | Planners/KCL-Planning-SMTPlan-edda8a8/SMTPlan/src/Algebraist.cpp:72-116 | of the children of a satisfied flow for one dependency exactly one is satisfied if and only if the flows of the dependency share no operator with it just when none of them is satisfied |
| `Coverage.CountIsWays` | Planners/KCL-Planning-SMTPlan-edda8a8/SMTPlan/src/Algebraist.cpp:47-120 | the number of resolved flows satisfied at once that come of a satisfied flow, exactly, if no dependency has two satisfied flows: each moving dependency can be taken with its operators, and left out if its flows share no operator with those asked for so far; one that does not move only the latter |
| `Coverage.ResolvedOnce` | Planners/KCL-Planning-SMTPlan-edda8a8/SMTPlan/src/Algebraist.cpp:113-116 | if no idle dependency shares an operator with what is asked for before it, then out of one satisfied flow comes exactly one if and only if every moving dependency does share one |
| `Coverage.TwoAtOnce` | Planners/KCL-Planning-SMTPlan-edda8a8/SMTPlan/src/Algebraist.cpp:115-116 | witness: a function moved by one operator depends on one moved by another; while both run, two of its flows are satisfied |
| `Coverage.NoneAtAll` | Planners/KCL-Planning-SMTPlan-edda8a8/SMTPlan/src/Algebraist.cpp:109-116 | witness: the dependency is idle but shares an operator that must not run; the function moves and none of its flows is satisfied |
| `Coverage.ResolvedCovers` | Planners/KCL-Planning-SMTPlan-edda8a8/SMTPlan/src/Algebraist.cpp:47-120 | a satisfied flow has a satisfied resolved flow whose polynomial is its own with the polynomial of every moving dependency substituted, idle and constant dependencies left as they are |
| `Coverage.ChildLeads` | Planners/KCL-Planning-SMTPlan-edda8a8/SMTPlan/src/Algebraist.cpp:60-112 | the inner loop over the flows of one dependency keeps that coverage, although subsumed flows change the current flow in place |
| `RateEquation.SubstitutionIs` | Planners/KCL-Planning-SMTPlan-edda8a8/SMTPlan/src/Algebraist.cpp:83-103 | exactly one operation on polynomials evaluates as substituting a polynomial for a symbol |
| `RateEquation.PutAtOnce` | Planners/KCL-Planning-SMTPlan-edda8a8/SMTPlan/src/Algebraist.cpp:61-63 | if no flow of a dependency mentions a moving dependency with a larger number, substituting one after the other is worth what putting in the values of all at once is |
| `RateEquation.FinishedSolves` | Planners/KCL-Planning-SMTPlan-edda8a8/SMTPlan/src/Algebraist.cpp:47-140 | then the satisfied flow at the end is, as a function of time, differentiable everywhere, starts at the value of the function, and moves at the rate of the flow the function began with, its dependencies at each moment where their own flows take them |
| `Tangle.RightExactlyIf` | Planners/KCL-Planning-SMTPlan-edda8a8/SMTPlan/src/Algebraist.cpp:61-63 | of two integrated dependencies the smaller one is given the right value for all starting values and all later times if and only if its rate does not mention the larger one or that one does not move |
| `Tangle.FollowerIsWrong` | Planners/KCL-Planning-SMTPlan-edda8a8/SMTPlan/src/Algebraist.cpp:57-103 | witness: function 2 moves at rate one, 1 at the value of 2, a third at the sum of both, all with one operator; after one unit of time from zero its rate is three halves and is encoded as five halves |
| `Algebraist.Substitute` | Planners/KCL-Planning-SMTPlan-edda8a8/SMTPlan/src/Algebraist.cpp:72-116 | overflows if and only if some flow of the dependency has more than ten operators that the current flow lacks; otherwise the in-place loop computes the children |
| `Algebraist.FunctionFlow.Integrate` | Planners/KCL-Planning-SMTPlan-edda8a8/SMTPlan/src/Algebraist.cpp:122-140 | each flow notes all derivatives of its rate down to the last nonzero one and becomes the integral started at the function's own symbol |
| `Algebra.Derivatives` | Planners/KCL-Planning-SMTPlan-edda8a8/SMTPlan/src/Algebraist.cpp:127-132 | the loop terminates by degree and lists exactly the successive derivatives, the last one nonzero with derivative zero (for rate zero: just itself) |
| `Algebra.FlowingMeans` | Planners/KCL-Planning-SMTPlan-edda8a8/SMTPlan/src/Algebraist.cpp:134-137 | the integrated polynomial has the rate as derivative in #t and is the function's own symbol at #t = 0 |
| `Evaluation.FlowingSolves` | Planners/KCL-Planning-SMTPlan-edda8a8/SMTPlan/src/Algebraist.cpp:134-137 | evaluated with any values, the integrated polynomial starts at the value of the function and has the rate as its derivative in the sense of analysis, with an error at most quadratic in the time passed |
| `Algebraist.FunctionFlow.DependenciesResolved` | Planners/KCL-Planning-SMTPlan-edda8a8/SMTPlan/src/Algebraist.cpp:142-153 | true iff every function some flow depends on is integrated |
| `Algebraist.Functions.ProcessDomain` | Planners/KCL-Planning-SMTPlan-edda8a8/SMTPlan/src/Algebraist.cpp:208-231 | on every acyclic dependency graph and for any order of the functions the passes terminate; if no function, together with those it depends on directly or not, uses more than ten signed operators, it does not overflow; then every function not integrated before has exactly the flows that come of its first ones, resolved against the final flows of the functions it depends on and integrated, and the others are as before |
| `Algebraist.FewInAll` | Planners/KCL-Planning-SMTPlan-edda8a8/SMTPlan/src/Algebraist.cpp:76-80 | ten signed operators in all flows together are few enough |
| `Algebraist.Functions.Pass` | Planners/KCL-Planning-SMTPlan-edda8a8/SMTPlan/src/Algebraist.cpp:212-230 | one pass finishes everything or leaves strictly fewer functions open; what is finished has the flows that come of its first ones against the final flows of its dependencies, what is open is untouched; it overflows only if the operator bounds of some function exceed ten |
| `Algebraist.LowestIsReady` | Planners/KCL-Planning-SMTPlan-edda8a8/SMTPlan/src/Algebraist.cpp:208-231 | why a pass makes progress: a function of lowest rank among those open waits for nothing |
| `Listing.ListedWorth` | Planners/KCL-Planning-SMTPlan-edda8a8/SMTPlan/include/SMTPlan/EncoderHappening.h:128-171 | a list of monomials that names each term of a polynomial once is worth what the polynomial is |
| `EncodedChange.EncodedSolves` | Planners/KCL-Planning-SMTPlan-edda8a8/SMTPlan/src/EncoderHappening.cpp:854-921 | from one happening to the next the flow constraints take a function with dependencies where the solution of its rate equation goes from the values at the first, if no timed literal assigns it |
| `EncodedChange.ModelSolves` | Planners/KCL-Planning-SMTPlan-edda8a8/SMTPlan/src/EncoderHappening.cpp:854-921 | so every model of the encoding gives the function the value of that solution |
| `Continuous.ValueDetermined` | Planners/KCL-Planning-SMTPlan-edda8a8/SMTPlan/src/EncoderHappening.cpp:854-921 | for constant rates the flow constraints over one interval hold iff the value moves by the length of the interval times the rates of what runs |
| `Continuous.SomeRuns` | Planners/KCL-Planning-SMTPlan-edda8a8/SMTPlan/src/EncoderHappening.cpp:897-918 | while an operator with an effect on the function runs, exactly one of its flows matches, and its polynomial is the function plus the sum of the running rates times #t |
| `Continuous.ValueOverRun` | Planners/KCL-Planning-SMTPlan-edda8a8/SMTPlan/src/EncoderHappening.cpp:854-921 | without assignments, the value at any layer of happening h is the first value plus the sum of the increments of the intervals before h |
| `EncodedChange.ValueInModel` | Planners/KCL-Planning-SMTPlan-edda8a8/SMTPlan/src/EncoderHappening.cpp:854-921 | so every model of the encoding gives the function that value |
| `ZeroCrossing.NeverOpposite` | Planners/KCL-Planning-SMTPlan-edda8a8/SMTPlan/src/EncoderHappening.cpp:570-586 | the product of the end values of a line is not negative iff the line never has strictly opposite signs at two times of the interval |
| `ZeroCrossing.AtomConstantIff` | Planners/KCL-Planning-SMTPlan-edda8a8/SMTPlan/src/EncoderHappening.cpp:557-586 | a comparison of affine sides that differ at the start keeps its truth value until the end iff the endpoint constraint holds; with equal sides the constraint always holds, and the truth value is kept iff it is the same at both ends |
| `ZeroCrossing.RunSeesAll` | Planners/KCL-Planning-SMTPlan-edda8a8/SMTPlan/src/EncoderHappening.cpp:673-702 | in a legal run with constant rates no numeric condition of an event, or of a process running in between, changes unseen between two happenings, unless one of its comparisons starts balanced or a timed literal assigns a function there |
| `ZeroCrossing.BalancedMovesOffUnseen` | Planners/KCL-Planning-SMTPlan-edda8a8/SMTPlan/src/EncoderHappening.cpp:570-586 | witness: x > 0 with x = 0 growing at rate 1 satisfies the endpoint constraint, is false at the start and true at every later time |
| `VisitorLimits.MinusCompared` | Planners/KCL-Planning-SMTPlan-edda8a8/SMTPlan/src/EncoderHappening.cpp:1362-1372 | operands of a subtraction are reversed: a difference compared with anything free of subtractions is encoded correctly iff the other side lies beyond both the difference and its negative on the proper side (for an equation: the difference is zero or of another magnitude than the other side) |
| `VisitorLimits.OneMinusZero` | Planners/KCL-Planning-SMTPlan-edda8a8/SMTPlan/src/EncoderHappening.cpp:1362-1372 | witness: 1 - 0 > 0 is true, and false as encoded |
| `VisitorLimits.NegatedConjunction` | Planners/KCL-Planning-SMTPlan-edda8a8/SMTPlan/src/EncoderHappening.cpp:936-940 | a negated conjunction is visited correctly iff it has parts and they are all true or all false |
| `VisitorLimits.OneTrueOneFalse` | Planners/KCL-Planning-SMTPlan-edda8a8/SMTPlan/src/EncoderHappening.cpp:936-940 | witness: not (p and q) with p true and q false is true, and what is visited is false |
| `VisitorLimits.VisitAmountsTo` | Planners/KCL-Planning-SMTPlan-edda8a8/SMTPlan/src/EncoderHappening.cpp:927-1121 | for every goal and polarity the visited atoms hold iff literals hold with the polarity reached, comparisons as they are written, all parts of conjunctions, and disjunctions and implications in any case |
| `VisitorLimits.NegatedComparison` | Planners/KCL-Planning-SMTPlan-edda8a8/SMTPlan/src/EncoderHappening.cpp:1050-1117 | a comparison under a negation is written, in every visitor state and by both encoders, as the comparison itself: under its trigger, as the goal with its flag, or as the trigger of an event or process |
| `VisitorLimits.NegatedComparisonIsWrong` | Planners/KCL-Planning-SMTPlan-edda8a8/SMTPlan/src/EncoderHappening.cpp:936-940 | so for an action it is right exactly when the trigger is off, for an event or process never, and what is reached for a goal is its opposite |
| `VisitorLimits.NotMoreThanThree` | Planners/KCL-Planning-SMTPlan-edda8a8/SMTPlan/src/EncoderHappening.cpp:1050-1117 | witness: not (fuel > 3) at the start of an action admits five and excludes one |
| `VisitorLimits.DisjunctionIsTrue` | Planners/KCL-Planning-SMTPlan-edda8a8/SMTPlan/src/EncoderHappening.cpp:1120-1121 | a disjunction or implication, negated or not, leaves nothing with either encoder, so it is taken for true, which is right exactly where it holds |
| `VisitorLimits.NeitherOfTwo` | Planners/KCL-Planning-SMTPlan-edda8a8/SMTPlan/src/EncoderHappening.cpp:1120-1121 | witness: an action that asks for one of two literals may start without either |
| `Completeness.ThreatInFirstCall` | Planners/KCL-Planning-SMTPlan-edda8a8/SMTPlan/src/EncoderHappening.cpp:1006-1024 | witness: an action that needs p and a later one that deletes p start together in a model of the first call, goals included |
| `Completeness.EndEffectCounts` | Planners/KCL-Planning-SMTPlan-edda8a8/SMTPlan/src/EncoderHappening.cpp:816-850 | witness: an action without start assignments that takes five from a function at its end has a plan of two happenings, and the encoding of two has a model, goals included, in which the function falls from ten to five as the action ends |
| `FluentEncoder.EncoderFluent.Encode` | Planners/KCL-Planning-SMTPlan-edda8a8/SMTPlan/src/EncoderFluent.cpp:78-144 | the first call appends exactly the constraints of the fluent encoding and leaves exactly its goal list |
| `FluentEncoder.EncoderFluent.ReadLiteral` | Planners/KCL-Planning-SMTPlan-edda8a8/SMTPlan/src/EncoderFluent.cpp:1042-1060 | the loop over the slots builds the nested choice whose last slot at the time of the happening decides |
| `FluentEncoder.EncoderFluent.ActionAtSlot` | Planners/KCL-Planning-SMTPlan-edda8a8/SMTPlan/src/EncoderFluent.cpp:766-769 | the downward loop over happenings builds the nested choice over the times of the happenings |
| `FluentEncoder.EncoderFluent.VisitGoal` | Planners/KCL-Planning-SMTPlan-edda8a8/SMTPlan/src/EncoderFluent.cpp:979-1144 | a visit with any polarity writes exactly what the flattened list of atoms calls for; what the list means is `VisitorLimits.VisitAmountsTo`, and what is written for a negated comparison `VisitorLimits.NegatedComparison` |
| `FluentEncoder.EncoderFluent.VisitSimpleGoal` | Planners/KCL-Planning-SMTPlan-edda8a8/SMTPlan/src/EncoderFluent.cpp:994-1144 | one literal condition in each visitor state |
| `FluentEncoder.EncoderFluent.VisitEffects` | Planners/KCL-Planning-SMTPlan-edda8a8/SMTPlan/src/EncoderFluent.cpp:1224-1373 | asserts the effects on the slots at the time of the trigger and records them on the first happening only |
| `FluentEncoder.EncoderFluent.VisitOperator` | Planners/KCL-Planning-SMTPlan-edda8a8/SMTPlan/src/EncoderFluent.cpp:443-515 | the layers of an action, the effect lists with one operator more, the goal that it does not run at the end |
| `FluentEncoder.EncoderFluent.EncodeLiteralVariableSupport` | Planners/KCL-Planning-SMTPlan-edda8a8/SMTPlan/src/EncoderFluent.cpp:725-863 | order and places of the slot times, explained changes within a slot, equality with the slot before |
| `FluentEncoder.EncoderFluent.EncodeInitialState` | Planners/KCL-Planning-SMTPlan-edda8a8/SMTPlan/src/EncoderFluent.cpp:259-288 | the first slot of every literal is at time zero with its initial value |
| `FluentMeaning.SlotIteMeans` | Planners/KCL-Planning-SMTPlan-edda8a8/SMTPlan/src/EncoderFluent.cpp:1042-1060 | the nested choice is true iff a slot at the time of the happening has the literal with this polarity; without such a slot it is false for both polarities |
| `FluentMeaning.HappeningIteMeans` | Planners/KCL-Planning-SMTPlan-edda8a8/SMTPlan/src/EncoderFluent.cpp:766-769 | the nested choice is true iff the action starts, or ends, at a happening with the time of the slot |
| `FluentMeaning.ReadIsValue` | Planners/KCL-Planning-SMTPlan-edda8a8/SMTPlan/src/EncoderFluent.cpp:994-1144 | whatever a condition or effect reads from the slots is the value of the literal at that happening |
| `FluentMeaning.ValueOpens` | Planners/KCL-Planning-SMTPlan-edda8a8/SMTPlan/src/EncoderFluent.cpp:825-832 | read happening by happening, no literal changes between two happenings |
| `FluentMeaning.ValueChanges` | Planners/KCL-Planning-SMTPlan-edda8a8/SMTPlan/src/EncoderFluent.cpp:743-823 | read happening by happening, a literal changes within a happening only by an action with that effect then |
| `FluentRefinement.SparseRefinesDense` | Planners/KCL-Planning-SMTPlan-edda8a8/SMTPlan/src/EncoderFluent.cpp:78-144 | for propositional problems and every length of the cascade, every model of the fluent encoding, its literals read from the slots, is a model of the happening encoding, goals included |
| `FluentRefinement.SparseFindsPlans` | Planners/KCL-Planning-SMTPlan-edda8a8/SMTPlan/src/EncoderFluent.cpp:78-144 | so whatever the fluent encoder finds decodes to a legal run that reaches the goal |
| `FluentExpressiveness.SparseIffFewNeeded` | Planners/KCL-Planning-SMTPlan-edda8a8/SMTPlan/src/EncoderFluent.cpp:78-144 | with two layers the fluent encoding and its goals are satisfiable if and only if the happening encoding has a model, goals included, in which every literal is needed (initially, by an acting operator or by the goal) at three happenings at most |
| `FluentExpressiveness.SparseNeedsFew` | Planners/KCL-Planning-SMTPlan-edda8a8/SMTPlan/src/EncoderFluent.cpp:80-84 | in every model of the fluent encoding with its goals each literal has a slot at every happening where it is needed, so it is needed at three at most |
| `FluentExpressiveness.DenseIsSparse` | Planners/KCL-Planning-SMTPlan-edda8a8/SMTPlan/src/EncoderFluent.cpp:78-144 | a model of the happening encoding with at most three such happenings for each literal gives a model of the fluent one, its spare slots placed after the last happening |
| `FluentWitness.ChainIsNotExpressible` | Planners/KCL-Planning-SMTPlan-edda8a8/SMTPlan/src/EncoderFluent.cpp:80-84 | witness: a chain of four or more actions that all need one literal has a plan, which the happening encoding finds, and the fluent encoding is unsatisfiable for every number of happenings |
| `FluentRefinement.NothingTrueIsDeleted` | Planners/KCL-Planning-SMTPlan-edda8a8/SMTPlan/src/EncoderFluent.cpp:801-822 | with more than two layers deletions, at a start or at an end, are asserted in layer 1 but explained only in the last layer: no action starts or ends where a literal it deletes then is true |
| `Segments.IntersectIffMeet` | Planners/packages/naboo/utils.py:121-167 | the test is true iff the closed segments share a point, for all end points, collinear, touching and degenerate ones included |
| `Segments.SegmentInPolygon` | Planners/packages/naboo/utils.py:108-118 | true iff the segment shares a point with some edge of the closed vertex list |
| `Segments.PairwiseCircleIs` | Planners/packages/naboo/utils.py:13-17 | two iterators over the vertices, the second moved on by one and filled with its first element, zipped to the longer: exactly each vertex with the next and the last with the first; nothing for no vertices |
| `RayCasting.NotColides` | Planners/RRT/rrt_star.py:189-205 | the flag at the end is even parity of the half-open edge crossings, counted independently of the loop; it is the same for every starting vertex and for the reversed list, and true outside the bounding box |
| `RayCasting.TogglesIffCrosses` | Planners/RRT/rrt_star.py:197-203 | the nested comparisons with the quotient toggle the flag iff the horizontal ray to the right crosses the edge |
| `RayCasting.AnyStartKeepsCrossings` | Planners/RRT/rrt_star.py:189-205 | starting the vertex list at any vertex does not change the count |
| `RayCasting.ReversalKeepsCrossings` | Planners/RRT/rrt_star.py:189-205 | reversing the vertex list does not change the count |
| `RayCasting.OutsideIsEven` | Planners/RRT/rrt_star.py:189-205 | outside the bounding box of any polygon, crossing itself or not, the parity is even, so the point is reported free |
| `RrtStar.Plan` | Planners/RRT/rrt_star.py:93-155 | for every sequence of samples and clock readings: the node list is a tree grown from its root at (0, 0) by just the samples up to the first late one; a route written is that of the first cheapest node, cheaper than 9999999, less than 10 from the goal, and ends at that node; without one, every node cheaper than that is 10 or more away, and the planner says so if the origin is too, or else follows the placeholder best node |
| `RrtStar.RouteOfPlaceholder` | Planners/RRT/rrt_star.py:123-146 | witness: one sample inside an obstacle, late, and the goal at the origin; whatever the metric, the route of the placeholder is asked for |
| `RrtStar.Grow` | Planners/RRT/rrt_star.py:101-122 | a free node is appended below the parent chosen for it, a blocked step changes nothing, and the best node is the first cheapest near the goal |
| `RrtStar.NewNode` | Planners/RRT/rrt_star.py:102-112 | the new node hangs below a node that minimises cost plus distance over the nearest node and all nodes less than 10 away, with that cost |
| `RrtStar.CostIsChainLength` | Planners/RRT/rrt_star.py:32-57 | every node's cost is the length of its parent chain |
| `RrtStar.CostAtLeastDistance` | Planners/RRT/rrt_star.py:32-57 | for a metric, every cost is at least the distance from the root |
| `RrtStar.TreeGrows` | Planners/RRT/rrt_star.py:117-118 | appending a node below an earlier one keeps the tree |
| `RrtStar.WriteRoute` | Planners/RRT/rrt_star.py:128-146 | the walk back terminates and writes the chain of the node in root-to-goal order, without the root and without the goal line |
| `RrtStar.IsFree` | Planners/RRT/rrt_star.py:113-117 | free iff outside every obstacle by the parity test |

## Left out

- Printing: `printModel`, help text, timers, names of variables as strings (variables are a datatype), and the grounding of domain and problem files.
- The solver and the polynomial system: the first is an oracle, the second a normal-form datatype in `#t` and function symbols with natural exponents.
- Division, scale-down, assignments to continuous functions inside events, numeric effects of events, conditional and universally quantified effects, quantified goals, preferences, derivation rules: not in the problem datatype.
- Static predicates and functions: every literal and function is treated as changing.
- Numeric conditions on instantaneous actions: they would read a time specifier left by an earlier visit; `WellFormed` excludes them.
- Literals or functions that the store does not know: every number refers to something.
- HappeningEncoder.EncoderHappening.VisitGoal: the formulas of one visit are appended together where the source appends one at a time; their order is kept.
- HappeningEncoder.EncoderHappening.Encode: visitor fields are grouped into one record and variable vectors into another; the fields and what they hold are kept.
- SmtPlan.Search: needs a lower bound of at least one and a step that is not negative, which the option parser does not check (with a bound below one the goal would be read at an index below zero); with no upper bound the loop need not end, so it is watched for a given number of rounds, and what is proved holds for every number.
- Algebraist.FunctionFlow.CreateChildren: more than ten operators in a difference are reported instead of written past the end of the buffer.
- Algebraist.Functions.ProcessDomain: for dependency graphs without cycles; with one the loop of the source does not end.
- RateEquation.FinishedSolves: for a satisfied flow whose idle dependencies share no operator with what is asked for before them, and whose dependencies mention no larger one that moves; outside these the source is wrong, as the rows on `Coverage` and `Tangle` say. The substitution of the algebra system is any operation that evaluates as one.
- Tangle.RightExactlyIf: the condition is exact for two dependencies; for more, `RateEquation.PutAtOnce` gives a sufficient one.
- Continuous.ValueDetermined: constant rates without dependencies; `EncodedChange` has the others.
- FluentEncoder.EncoderFluent.Encode: first call, propositional problems; variables are used by their names instead of through vectors, expressions are turned into terms without the stack, and the count of literal slots already encoded, which the source never initialises, is taken to be zero.
- FluentExpressiveness.SparseIffFewNeeded: for a cascade of two layers; with more the sparse side also excludes deletions.
- Events, processes, timed literals and numeric effects in the fluent encoder: their timed-literal effects are not asserted by the source.
- RayCasting.NotColides: needs a vertex, as the source reads the first one before the loop.
- RrtStar.Plan: distance, sampling, the step towards a sample and the clock are parameters; conversion to geographic coordinates and the text of the file are not modelled.
- `point_in_polygon`, which moves its query point, and all probability and angle computations.
- Near copies of the modelled geometry and tree code, the genetic and square planners, and all glue to robots, files and plots.
