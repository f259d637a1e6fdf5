/** The planner's loop of deeper and deeper encodings. */
module SmtPlan {
  import opened CommandLine
  import opened Smt
  import opened Pddl
  import opened HappeningSpec
  import opened Semantics
  import opened LayerMeaning
  import opened Soundness
  import opened Completeness
  import opened EncoderState
  import opened HappeningEncoder
  import opened Incremental
  import opened Deepening

  // ----- The loop -----

  datatype Answer = Sat | Unsat | Unknown

  /** The solver: asked with its constraints and the goal assumptions. */
  type Solver = (seq<Formula>, seq<Formula>) -> Answer

  /** It answers, and rightly. */
  ghost predicate Exact(solver: Solver) {
    forall fs, goals :: solver(fs, goals) == Sat <==> exists m :: Holds(m, fs) && Holds(m, goals)
  }

  datatype Outcome =
    | Printed(constraints: seq<Formula>)
    | Found(bound: nat)
    | NoPlan
    | Deeper(next: nat)                // not finished after the rounds that were watched

  /** The bounds of the first n rounds. */
  function Reached(l: nat, s: nat, n: nat): (bounds: seq<nat>)
    ensures |bounds| == n
  {
    if n == 0 then []
    else if n == 1 then [l]
    else Reached(l, s, n - 1) + [Reached(l, s, n - 1)[n - 2] + s]
  }

  lemma {:induction false} ReachedBounds(l: nat, s: nat, n: nat)
    requires l > 0 && n > 0
    ensures Bounds(Reached(l, s, n)) && Reached(l, s, n)[0] == l
  {
    if n > 1 {
      ReachedBounds(l, s, n - 1);
      var before := Reached(l, s, n - 1);
      assert forall k | 0 < k < n - 1 :: before[k - 1] <= before[k];
    }
  }

  /** True of all bounds; keeps what is asked about others closed, as Opened does. */
  predicate Asked(bounds: seq<nat>) {
    true
  }

  /** The question of the last of these rounds has an answer. */
  ghost predicate Answered(P: Problem, C: Cascade, bounds: seq<nat>) {
    forall b {:trigger Asked(b)} | Asked(b) && b == bounds :: Bounds(b) && Last(b) > 0 && Satisfiable(P, C, b)
  }

  lemma AnsweredMeans(P: Problem, C: Cascade, bounds: seq<nat>)
    ensures Answered(P, C, bounds) <==> Bounds(bounds) && Last(bounds) > 0 && Satisfiable(P, C, bounds)
  {
    assert Asked(bounds);
  }

  lemma OneMoreCall(P: Problem, C: Cascade, bounds: seq<nat>, next: nat)
    requires Bounds(bounds) && 0 < Last(bounds) <= next
    ensures Bounds(bounds + [next])
    ensures Contents(P, C, bounds + [next]) == Contents(P, C, bounds) + EncodeSpec(P, C, Last(bounds), next)
  {
    var more := bounds + [next];
    assert more[..|more| - 1] == bounds;
  }

  /** The encoder has made these calls and no other. */
  ghost predicate Holding(encoder: EncoderHappening, bounds: seq<nat>)
    requires bounds != [] ==> Bounds(bounds)
    reads encoder
  {
    forall key {:trigger Opened(key)} | Opened(key) && key == CallsKey ::
      encoder.Valid() &&
      if bounds == [] then encoder.nextLayer == 0 && encoder.solver == []
      else
        && encoder.nextLayer == Last(bounds)
        && encoder.solver == Contents(encoder.P, encoder.C, bounds)
  }

  method Deepen(encoder: EncoderHappening, i: nat, ghost bounds: seq<nat>)
    requires i > 0 && (bounds != [] ==> Bounds(bounds) && 0 < Last(bounds) <= i) && Holding(encoder, bounds)
    modifies encoder
    ensures Bounds(bounds + [i]) && Holding(encoder, bounds + [i])
    ensures encoder.goalExpression == GoalSpec(encoder.P, encoder.C, i)
  {
    assert Opened(CallsKey);
    if bounds != [] {
      OneMoreCall(encoder.P, encoder.C, bounds, i);
    }
    encoder.Encode(i);
    assert bounds + [i] == if bounds == [] then [i] else bounds + [i];
  }

  /** What the solver says when these calls have been made. */
  ghost predicate SaysYes(P: Problem, C: Cascade, solver: Solver, bounds: seq<nat>) {
    forall b {:trigger Asked(b)} | Asked(b) && b == bounds ::
      Bounds(b) && Last(b) > 0 && solver(Contents(P, C, b), GoalSpec(P, C, Last(b))) == Sat
  }

  lemma SaysAnswer(P: Problem, C: Cascade, solver: Solver, bounds: seq<nat>, fs: seq<Formula>, goals: seq<Formula>, answer: Answer)
    requires Bounds(bounds) && Last(bounds) > 0
    requires fs == Contents(P, C, bounds) && goals == GoalSpec(P, C, Last(bounds)) && answer == solver(fs, goals)
    ensures answer == Sat <==> SaysYes(P, C, solver, bounds)
  {
    assert Asked(bounds);
  }

  /** One round: encode what is new and ask. */
  method Round(encoder: EncoderHappening, solver: Solver, i: nat, ghost bounds: seq<nat>) returns (answer: Answer)
    requires i > 0 && (bounds != [] ==> Bounds(bounds) && 0 < Last(bounds) <= i) && Holding(encoder, bounds)
    modifies encoder
    ensures Bounds(bounds + [i]) && Holding(encoder, bounds + [i])
    ensures answer == Sat <==> SaysYes(encoder.P, encoder.C, solver, bounds + [i])
  {
    Deepen(encoder, i, bounds);
    answer := solver(encoder.solver, encoder.goalExpression);
    ghost var calls := bounds + [i];
    assert encoder.solver == Contents(encoder.P, encoder.C, calls) by {
      assert Opened(CallsKey);
    }
    SaysAnswer(encoder.P, encoder.C, solver, calls, encoder.solver, encoder.goalExpression, answer);
  }

  /** The constraints of one call with the goal among them. */
  ghost predicate IsPrinted(P: Problem, C: Cascade, H: nat, constraints: seq<Formula>) {
    forall key {:trigger Opened(key)} | Opened(key) && key == CallsKey ::
      H > 0 && constraints == EncodeSpec(P, C, 0, H) + GoalSpec(P, C, H)
  }

  /** Without solving: one call, the goal among the constraints. */
  method PrintOnly(encoder: EncoderHappening, i: nat) returns (constraints: seq<Formula>)
    requires i > 0 && Holding(encoder, [])
    modifies encoder
    ensures IsPrinted(encoder.P, encoder.C, i, constraints)
  {
    Deepen(encoder, i, []);
    assert Opened(CallsKey);
    encoder.AddGoal();
    constraints := encoder.solver;
  }

  /** An exact solver says yes exactly to the questions that have an answer. */
  lemma AskedRightly(P: Problem, C: Cascade, solver: Solver, bounds: seq<nat>)
    requires Exact(solver)
    ensures SaysYes(P, C, solver, bounds) <==> Answered(P, C, bounds)
  {
    AnsweredMeans(P, C, bounds);
    assert Asked(bounds);
    if Bounds(bounds) && Last(bounds) > 0 {
      var fs, goals := Contents(P, C, bounds), GoalSpec(P, C, Last(bounds));
      assert forall m :: BatchModel(P, C, bounds, m) <==> Holds(m, fs) && Holds(m, goals);
      assert solver(fs, goals) == Sat <==> exists m :: Holds(m, fs) && Holds(m, goals);
    }
  }

  /** The solver has been asked in each of the first n rounds and has not said yes. */
  ghost predicate Refused(P: Problem, C: Cascade, solver: Solver, l: nat, s: nat, n: nat) {
    forall k | 0 < k <= n :: !SaysYes(P, C, solver, Reached(l, s, k))
  }

  /** The bound of the round after the first n. */
  function NextBound(l: nat, s: nat, n: nat): nat {
    if n == 0 then l else Reached(l, s, n)[n - 1] + s
  }

  /** Still within the upper bound, if there is one. */
  predicate Within(options: Options, bound: nat) {
    options.upper < 0 || bound <= options.upper
  }

  /** What the outcome says, n being the number of rounds asked without success: the solver said no
      n times, at the lower bound and each step further; then it said yes, or the next bound is
      beyond the upper one, or the loop is not watched any longer. */
  ghost predicate Concluded(P: Problem, C: Cascade, solver: Solver, options: Options, rounds: nat, n: nat, result: Outcome)
    requires options.lower >= 1 && options.step >= 0
  {
    var l: nat, s: nat := options.lower, options.step;
    && Refused(P, C, solver, l, s, n) && (n > 0 ==> options.solve && Within(options, Reached(l, s, n)[n - 1]))
    && match result
       case Found(bound) =>
         options.solve && bound == NextBound(l, s, n) && Within(options, bound) && SaysYes(P, C, solver, Reached(l, s, n + 1))
       case NoPlan => !Within(options, NextBound(l, s, n))
       case Deeper(next) => n == rounds && next == NextBound(l, s, n) && Within(options, next)
       case Printed(constraints) => !options.solve && Within(options, l) && IsPrinted(P, C, l, constraints)
  }

  /** The loop after n rounds without success, about to look at bound i. */
  ghost predicate Underway(P: Problem, C: Cascade, solver: Solver, options: Options, n: nat, i: nat) {
    forall key {:trigger Opened(key)} | Opened(key) && key == CallsKey ::
      && options.lower >= 1 && options.step >= 0
      && Refused(P, C, solver, options.lower, options.step, n)
      && (n > 0 ==> options.solve && Within(options, Reached(options.lower, options.step, n)[n - 1]))
      && i == NextBound(options.lower, options.step, n)
  }

  lemma UnderwayFirst(P: Problem, C: Cascade, solver: Solver, options: Options)
    requires options.lower >= 1 && options.step >= 0
    ensures Underway(P, C, solver, options, 0, options.lower)
  {
  }

  lemma ReachedNext(l: nat, s: nat, n: nat)
    requires l > 0
    ensures Reached(l, s, n + 1) == Reached(l, s, n) + [NextBound(l, s, n)]
    ensures Bounds(Reached(l, s, n + 1))
  {
    ReachedBounds(l, s, n + 1);
  }

  lemma UnderwayNext(P: Problem, C: Cascade, solver: Solver, options: Options, n: nat, i: nat)
    requires Underway(P, C, solver, options, n, i) && Within(options, i) && options.solve
    requires options.lower >= 1 && options.step >= 0 && !SaysYes(P, C, solver, Reached(options.lower, options.step, n + 1))
    ensures Underway(P, C, solver, options, n + 1, i + options.step)
  {
    assert Opened(CallsKey);
    ReachedNext(options.lower, options.step, n);
  }

  lemma Concludes(P: Problem, C: Cascade, solver: Solver, options: Options, rounds: nat, n: nat, i: nat, result: Outcome)
    requires Underway(P, C, solver, options, n, i) && options.lower >= 1 && options.step >= 0
    requires
      match result
      case Found(bound) =>
        bound == i && Within(options, i) && options.solve && SaysYes(P, C, solver, Reached(options.lower, options.step, n + 1))
      case NoPlan => !Within(options, i)
      case Deeper(next) => next == i && n == rounds && Within(options, i)
      case Printed(constraints) => n == 0 && !options.solve && Within(options, i) && IsPrinted(P, C, i, constraints)
    ensures Concluded(P, C, solver, options, rounds, n, result)
  {
    assert Opened(CallsKey);
  }

  /** All the calls of the loop so far, and where it stands. */
  lemma WhereItStands(l: nat, s: nat, n: nat, P: Problem, C: Cascade, solver: Solver, options: Options, i: nat)
    requires Underway(P, C, solver, options, n, i) && l == options.lower && s == options.step && l > 0
    ensures i > 0 && Reached(l, s, n + 1) == Reached(l, s, n) + [i]
    ensures n > 0 ==> options.solve && Bounds(Reached(l, s, n)) && 0 < Last(Reached(l, s, n)) <= i
  {
    assert Opened(CallsKey);
    ReachedNext(l, s, n);
    if n > 0 {
      ReachedBounds(l, s, n);
      BoundsGrow(Reached(l, s, n), 0);
    }
  }

  lemma {:induction false} BoundOfRound(l: nat, s: nat, k: nat)
    ensures NextBound(l, s, k) == l + k * s
  {
    if k > 1 {
      BoundOfRound(l, s, k - 1);
      assert Reached(l, s, k)[k - 1] == NextBound(l, s, k - 1);
      assert l + (k - 1) * s + s == l + k * s;
    } else if k == 1 {
      assert Reached(l, s, 1) == [l];
    }
  }

  lemma MoreTimes(a: nat, b: nat, s: nat)
    requires a <= b
    ensures a * s <= b * s
  {
    assert b * s == a * s + (b - a) * s;
  }

  lemma LastBound(l: nat, s: nat, k: nat, n: nat)
    requires l > 0 && k < n
    ensures Reached(l, s, n)[n - 1] >= l + k * s
  {
    var last: nat := n - 1;
    ReachedNext(l, s, last);
    BoundOfRound(l, s, last);
    MoreTimes(k, last, s);
  }

  /** Every bound asked is within the upper one. */
  lemma BoundsAsked(P: Problem, C: Cascade, solver: Solver, options: Options, rounds: nat, n: nat, result: Outcome, k: nat)
    requires options.lower >= 1 && options.step >= 0
    requires Concluded(P, C, solver, options, rounds, n, result) && k < n
    ensures options.solve && (options.upper >= 0 ==> options.lower + k * options.step <= options.upper)
  {
    LastBound(options.lower, options.step, k, n);
  }

  /** So is a bound found, printed for, or looked at next; without a plan the next one is beyond it. */
  lemma BoundsKept(P: Problem, C: Cascade, solver: Solver, options: Options, rounds: nat, n: nat, result: Outcome)
    requires options.lower >= 1 && options.step >= 0
    requires Concluded(P, C, solver, options, rounds, n, result)
    ensures
      var next := options.lower + n * options.step;
      match result
      case Found(bound) => options.solve && bound == next && (options.upper >= 0 ==> bound <= options.upper)
      case NoPlan => 0 <= options.upper < next
      case Deeper(bound) => n == rounds && bound == next && (options.upper >= 0 ==> bound <= options.upper)
      case Printed(_) => !options.solve && n == 0 && (options.upper >= 0 ==> options.lower <= options.upper)
  {
    BoundOfRound(options.lower, options.step, n);
  }

  /** Deepen from the lower bound in steps; each round encodes what is new and asks the solver.
      rounds is how long the loop is watched, since it need not end without an upper bound. */
  method Search(encoder: EncoderHappening, options: Options, solver: Solver, rounds: nat)
    returns (result: Outcome, ghost n: nat)
    requires Holding(encoder, []) && options.lower >= 1 && options.step >= 0
    modifies encoder
    ensures Concluded(encoder.P, encoder.C, solver, options, rounds, n, result)
    ensures
      var next := options.lower + n * options.step;
      match result
      case Found(bound) => options.solve && bound == next && (options.upper >= 0 ==> bound <= options.upper)
      case NoPlan => 0 <= options.upper < next
      case Deeper(bound) => n == rounds && bound == next && (options.upper >= 0 ==> bound <= options.upper)
      case Printed(_) => !options.solve && n == 0 && (options.upper >= 0 ==> options.lower <= options.upper)
  {
    ghost var l, s := options.lower, options.step;
    var i: nat := options.lower;
    var round := 0;
    n := 0;
    UnderwayFirst(encoder.P, encoder.C, solver, options);
    while (options.upper < 0 || i <= options.upper) && round < rounds
      invariant n == round && round <= rounds && (n > 0 ==> Bounds(Reached(l, s, n)))
      invariant Underway(encoder.P, encoder.C, solver, options, n, i) && Holding(encoder, Reached(l, s, n))
    {
      WhereItStands(l, s, n, encoder.P, encoder.C, solver, options, i);
      if !options.solve {
        var constraints := PrintOnly(encoder, i);
        result := Printed(constraints);
        Concludes(encoder.P, encoder.C, solver, options, rounds, n, i, result);
        BoundsKept(encoder.P, encoder.C, solver, options, rounds, n, result);
        return;
      }
      var answer := Round(encoder, solver, i, Reached(l, s, n));
      if answer == Sat {
        result := Found(i);
        Concludes(encoder.P, encoder.C, solver, options, rounds, n, i, result);
        BoundsKept(encoder.P, encoder.C, solver, options, rounds, n, result);
        return;
      }
      UnderwayNext(encoder.P, encoder.C, solver, options, n, i);
      n := n + 1;
      i := i + options.step;
      round := round + 1;
    }
    result := if options.upper >= 0 && i > options.upper then NoPlan else Deeper(i);
    Concludes(encoder.P, encoder.C, solver, options, rounds, n, i, result);
    BoundsKept(encoder.P, encoder.C, solver, options, rounds, n, result);
  }

  /** A loop that has found something has found a plan. */
  lemma FoundIsPlan(P: Problem, C: Cascade, bounds: seq<nat>)
    requires FaithfulProblem(P) && bounds != [] && Answered(P, C, bounds)
    ensures exists run :: BatchPlan(P, C, bounds, run)
  {
    AnsweredMeans(P, C, bounds);
    BatchSatisfiable(P, C, bounds);
  }

  /** A loop that has not found anything has missed no plan as long as its last bound, unless the
      plan needs starts that later calls exclude. */
  lemma NothingMissed(P: Problem, C: Cascade, l: nat, s: nat, n: nat, run: Run)
    requires FaithfulProblem(P) && Calm(P) && l > 0 && n > 0
    requires !Answered(P, C, Reached(l, s, n))
    requires Legal(P, C, run) && Reaches(P, C, run)
    requires forall h | 0 <= h < |run| :: Separated(P, run[h], false)
    ensures |run| > Last(Reached(l, s, n))
  {
    ReachedBounds(l, s, n);
    if |run| <= Last(Reached(l, s, n)) {
      PlanIsReached(P, C, run, Reached(l, s, n));
      AnsweredMeans(P, C, Reached(l, s, n));
    }
  }

  lemma AnsweredBounds(P: Problem, C: Cascade, bounds: seq<nat>)
    requires Answered(P, C, bounds)
    ensures Bounds(bounds) && Last(bounds) > 0
  {
    AnsweredMeans(P, C, bounds);
  }

  lemma DeeperAnswered(P: Problem, C: Cascade, bounds: seq<nat>, next: nat)
    requires FaithfulProblem(P) && Calm(P) && Answered(P, C, bounds) && |bounds| > 0 && Last(bounds) <= next
    ensures Answered(P, C, bounds + [next])
  {
    AnsweredMeans(P, C, bounds);
    DeeperSatisfiable(P, C, bounds, next);
    AnsweredMeans(P, C, bounds + [next]);
  }

  lemma NextAnswered(P: Problem, C: Cascade, l: nat, s: nat, n: nat)
    requires FaithfulProblem(P) && Calm(P) && l > 0 && n > 0 && Answered(P, C, Reached(l, s, n))
    ensures Answered(P, C, Reached(l, s, n + 1))
  {
    var bounds := Reached(l, s, n);
    AnsweredBounds(P, C, bounds);
    DeeperAnswered(P, C, bounds, Last(bounds) + s);
    ReachedNext(l, s, n);
  }

  /** After the first round that can be answered, every later one can. */
  lemma {:induction false} AnsweredFromThereOn(P: Problem, C: Cascade, l: nat, s: nat, k: nat, n: nat)
    requires FaithfulProblem(P) && Calm(P) && l > 0 && 0 < k <= n
    requires Answered(P, C, Reached(l, s, k))
    ensures Answered(P, C, Reached(l, s, n))
  {
    if k < n {
      AnsweredFromThereOn(P, C, l, s, k, n - 1);
      NextAnswered(P, C, l, s, n - 1);
    }
  }

  // ----- What the outcomes mean -----

  /** An exact solver and a found bound: there is a plan of that length. */
  lemma FoundPlan(P: Problem, C: Cascade, solver: Solver, options: Options, rounds: nat, n: nat, bound: nat)
    requires FaithfulProblem(P) && Exact(solver) && options.lower >= 1 && options.step >= 0
    requires Concluded(P, C, solver, options, rounds, n, Found(bound))
    ensures exists run :: |run| == bound && Legal(P, C, run) && Reaches(P, C, run)
  {
    var l: nat, s: nat := options.lower, options.step;
    AskedRightly(P, C, solver, Reached(l, s, n + 1));
    ReachedNext(l, s, n);
    FoundIsPlan(P, C, Reached(l, s, n + 1));
    var run :| BatchPlan(P, C, Reached(l, s, n + 1), run);
  }

  lemma PrintedSolves(P: Problem, C: Cascade, H: nat, constraints: seq<Formula>, m: Model)
    requires H > 0 && IsPrinted(P, C, H, constraints)
    ensures Holds(m, constraints) <==> Solves(P, C, H, m)
  {
    assert Opened(CallsKey);
    HoldsConcat(m, EncodeSpec(P, C, 0, H), GoalSpec(P, C, H));
  }

  lemma PrintedIffPlan(P: Problem, C: Cascade, H: nat, constraints: seq<Formula>)
    requires FaithfulProblem(P) && H > 0 && IsPrinted(P, C, H, constraints)
    ensures (exists m :: Holds(m, constraints)) <==> exists run :: IsPlan(P, C, H, run)
  {
    if m :| Holds(m, constraints) {
      PrintedSolves(P, C, H, constraints, m);
      SatisfiableIffPlan(P, C, H);
    }
    if run :| IsPlan(P, C, H, run) {
      SatisfiableIffPlan(P, C, H);
      var m :| Solves(P, C, H, m);
      PrintedSolves(P, C, H, constraints, m);
    }
  }

  /** What is printed without solving can be satisfied exactly when there is a plan of just that length. */
  lemma PrintedPlan(P: Problem, C: Cascade, solver: Solver, options: Options, rounds: nat, n: nat, constraints: seq<Formula>)
    requires FaithfulProblem(P) && options.lower >= 1 && options.step >= 0
    requires Concluded(P, C, solver, options, rounds, n, Printed(constraints))
    ensures (exists m :: Holds(m, constraints)) <==> exists run :: IsPlan(P, C, options.lower, run)
  {
    PrintedIffPlan(P, C, options.lower, constraints);
  }

  lemma RoundsAsked(l: nat, s: nat, n: nat, k: nat)
    requires l + k * s < l + n * s
    ensures k < n
  {
    if n <= k {
      MoreTimes(n, k, s);
    }
  }

  /** An exact solver and no plan: no round up to the upper bound could be answered, that is,
      there is no plan of any of the lengths lower, lower + step, ... up to upper, separated as the
      calls up to that length demand. */
  lemma NoPlanUpTo(P: Problem, C: Cascade, solver: Solver, options: Options, rounds: nat, n: nat, k: nat)
    requires FaithfulProblem(P) && Exact(solver) && options.lower >= 1 && options.step >= 0
    requires Concluded(P, C, solver, options, rounds, n, NoPlan) && options.solve
    requires options.lower + k * options.step <= options.upper
    ensures
      var bounds := Reached(options.lower, options.step, k + 1);
      bounds[k] == options.lower + k * options.step && !exists run :: BatchPlan(P, C, bounds, run)
  {
    var l: nat, s: nat := options.lower, options.step;
    BoundOfRound(l, s, n);
    BoundOfRound(l, s, k);
    RoundsAsked(l, s, n, k);
    ReachedNext(l, s, k);
    var bounds := Reached(l, s, k + 1);
    AskedRightly(P, C, solver, bounds);
    AnsweredMeans(P, C, bounds);
    BatchSatisfiable(P, C, bounds);
  }

  /** Without events, processes and timed literals no shorter plan has been missed either: any
      plan without interfering simultaneous starts is longer than every bound asked. */
  lemma NoShorterPlan(P: Problem, C: Cascade, solver: Solver, options: Options, rounds: nat, n: nat, k: nat, run: Run)
    requires FaithfulProblem(P) && Calm(P) && Exact(solver) && options.lower >= 1 && options.step >= 0
    requires Concluded(P, C, solver, options, rounds, n, NoPlan) && options.solve
    requires options.lower + k * options.step <= options.upper
    requires Legal(P, C, run) && Reaches(P, C, run)
    requires forall h | 0 <= h < |run| :: Separated(P, run[h], false)
    ensures |run| > options.lower + k * options.step
  {
    var l: nat, s: nat := options.lower, options.step;
    BoundOfRound(l, s, n);
    BoundOfRound(l, s, k);
    RoundsAsked(l, s, n, k);
    ReachedNext(l, s, k);
    AskedRightly(P, C, solver, Reached(l, s, k + 1));
    NothingMissed(P, C, l, s, k + 1, run);
  }
}
