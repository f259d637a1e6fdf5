/** Deepening: several calls together are satisfiable exactly when there is a plan, and in calm
    problems a plan never gets lost by adding happenings. */
module Deepening {
  import opened Smt
  import opened Pddl
  import opened HappeningSpec
  import opened Semantics
  import opened Decoding
  import opened LayerMeaning
  import opened EncodeMeaning
  import opened Soundness
  import opened Completeness
  import opened Incremental

  // ----- Several calls and the runs they describe -----

  /** The layers below cut were encoded by the first call. */
  ghost predicate LayerHolds(P: Problem, C: Cascade, m: Model, h: nat, cut: nat) {
    BodiesHold(P, C, m, h, h < cut)
  }

  ghost predicate LayersHold(P: Problem, C: Cascade, m: Model, H: nat, cut: nat) {
    forall h | 0 <= h < H :: LayerHolds(P, C, m, h, cut)
  }

  lemma {:induction false} ContentsHold(P: Problem, C: Cascade, m: Model, bounds: seq<nat>)
    requires Bounds(bounds) && Holds(m, Contents(P, C, bounds))
    ensures LayersHold(P, C, m, Last(bounds), bounds[0]) && Holds(m, InitSpec(P))
    ensures Last(bounds) > 0 && Holds(m, GoalOutput(P, C, Last(bounds)).asserted)
  {
    var n := |bounds|;
    if n == 1 {
      EncodeHolds(P, C, m, 0, bounds[0], true);
      forall h | 0 <= h < bounds[0]
        ensures LayerHolds(P, C, m, h, bounds[0])
      {
        assert BodiesHold(P, C, m, h, true);
      }
    } else {
      var rest := bounds[..n - 1];
      assert Bounds(rest) && rest[0] == bounds[0] && Last(rest) == bounds[n - 2];
      BoundsGrow(bounds, n - 1);
      BoundsGrow(rest, n - 2);
      HoldsConcat(m, Contents(P, C, rest), EncodeSpec(P, C, bounds[n - 2], bounds[n - 1]));
      ContentsHold(P, C, m, rest);
      EncodeHolds(P, C, m, bounds[n - 2], bounds[n - 1], false);
      forall h | 0 <= h < bounds[n - 1]
        ensures LayerHolds(P, C, m, h, bounds[0])
      {
        if h >= bounds[n - 2] {
          assert BodiesHold(P, C, m, h, false);
        }
      }
    }
  }

  /** Later calls exclude more starts, so their clauses imply those of a first call. */
  lemma LaterClauses(P: Problem, C: Cascade, m: Model, h: nat)
    requires P.fns == |P.flows| && Clauses(P, C, m, h, false)
    ensures Clauses(P, C, m, h, true)
  {
    forall loop: Loop | InProblem(P, loop)
      ensures Clause(P, C, m, loop, h, true)
    {
      assert Clause(P, C, m, loop, h, false);
    }
  }

  /** A plan whose starts are separated as far as the batches of calls ask. */
  ghost predicate BatchPlan(P: Problem, C: Cascade, bounds: seq<nat>, run: Run)
    requires |bounds| > 0
  {
    && |run| == Last(bounds) && Legal(P, C, run) && Reaches(P, C, run)
    && forall h | 0 <= h < |run| :: Separated(P, run[h], h < bounds[0])
  }

  ghost predicate BatchModel(P: Problem, C: Cascade, bounds: seq<nat>, m: Model)
    requires Bounds(bounds) && Last(bounds) > 0
  {
    Holds(m, Contents(P, C, bounds)) && Holds(m, GoalSpec(P, C, Last(bounds)))
  }

  lemma LayerSeparates(P: Problem, C: Cascade, m: Model, h: nat, first: bool)
    requires FaithfulProblem(P) && BodiesHold(P, C, m, h, first)
    ensures Clauses(P, C, m, h, true) && Separated(P, HappeningAt(P, C, m, h), first)
  {
    BodiesAreClauses(P, C, m, h, first);
    SeparatedSound(P, C, m, h, first);
    if !first {
      LaterClauses(P, C, m, h);
    }
  }

  lemma BatchSound(P: Problem, C: Cascade, bounds: seq<nat>, m: Model)
    requires FaithfulProblem(P) && Bounds(bounds) && Last(bounds) > 0 && BatchModel(P, C, bounds, m)
    ensures BatchPlan(P, C, bounds, Decode(P, C, m, Last(bounds)))
  {
    var H := Last(bounds);
    ContentsHold(P, C, m, bounds);
    forall h | 0 <= h < H
      ensures Clauses(P, C, m, h, true) && Separated(P, HappeningAt(P, C, m, h), h < bounds[0])
    {
      assert LayerHolds(P, C, m, h, bounds[0]);
      LayerSeparates(P, C, m, h, h < bounds[0]);
    }
    assert Legal(P, C, Decode(P, C, m, H)) by {
      RunSound(P, C, m, H, true);
    }
    GoalSound(P, C, m, H);
  }

  lemma {:induction false} BatchLifts(P: Problem, C: Cascade, bounds: seq<nat>, run: Run)
    requires FaithfulProblem(P) && Bounds(bounds) && Legal(P, C, run) && Last(bounds) <= |run|
    requires forall h | 0 <= h < Last(bounds) :: Separated(P, run[h], h < bounds[0])
    ensures Holds(Lift(P, run), Contents(P, C, bounds))
  {
    var n := |bounds|;
    if n == 1 {
      LiftEncodes(P, C, run, 0, bounds[0]);
    } else {
      var rest := bounds[..n - 1];
      assert Bounds(rest) && rest[0] == bounds[0] && Last(rest) == bounds[n - 2];
      BoundsGrow(bounds, n - 1);
      BoundsGrow(rest, n - 2);
      BatchLifts(P, C, rest, run);
      LiftEncodes(P, C, run, bounds[n - 2], bounds[n - 1]);
      HoldsConcat(Lift(P, run), Contents(P, C, rest), EncodeSpec(P, C, bounds[n - 2], bounds[n - 1]));
    }
  }

  /** What the solver is asked after these calls has an answer. */
  ghost predicate Satisfiable(P: Problem, C: Cascade, bounds: seq<nat>)
    requires Bounds(bounds) && Last(bounds) > 0
  {
    exists m :: BatchModel(P, C, bounds, m)
  }

  /** After any number of calls, the solver contents with the current goals are satisfiable
      exactly when a plan of that length exists, separated as the batches ask. */
  lemma BatchSatisfiable(P: Problem, C: Cascade, bounds: seq<nat>)
    requires FaithfulProblem(P) && Bounds(bounds) && Last(bounds) > 0
    ensures Satisfiable(P, C, bounds) <==> exists run :: BatchPlan(P, C, bounds, run)
  {
    if m :| BatchModel(P, C, bounds, m) {
      BatchSound(P, C, bounds, m);
    }
    if run :| BatchPlan(P, C, bounds, run) {
      BatchLifts(P, C, bounds, run);
      LiftReaches(P, C, run);
      assert BatchModel(P, C, bounds, Lift(P, run));
    }
  }

  // ----- Idle happenings -----

  /** No events, processes or timed literals, and every flow needs somebody to run. */
  predicate Calm(P: Problem) {
    && P.tils == []
    && (forall o | o in P.ops :: o.Durative? || o.Instant?)
    && (forall k | 0 <= k < |P.flows| :: forall f | f in P.flows[k] :: exists o | o in f.operators :: o > 0)
  }

  /** A happening at which nothing happens, a while after x. */
  function IdleAfter(C: Cascade, x: Happening): Happening
    requires |x.layers| == C
  {
    Happening(x.time + 1.0, seq(C, _ => x.layers[C - 1]), seq(C - 1, _ => {}), {}, {}, map[], {})
  }

  lemma IdleWithin(P: Problem, C: Cascade, x: Happening)
    requires Calm(P) && WellShaped(P, C, x)
    ensures Within(P, C, IdleAfter(C, x)) && Separated(P, IdleAfter(C, x), false)
  {
    var y := IdleAfter(C, x);
    assert x.layers[C - 1] in x.layers;
    assert forall s | s in y.layers :: s == x.layers[C - 1];
    forall i | 0 <= i < |P.ops|
      ensures !P.ops[i].Event? && !P.ops[i].Process?
    {
      assert P.ops[i] in P.ops;
    }
    forall b | 0 <= b < C - 1
      ensures LayerStep(P, C, y, b)
    {
    }
  }

  lemma NoProcesses(P: Problem, C: Cascade, x: Happening)
    requires Calm(P) && WellShaped(P, C, x)
    ensures x.processes == {}
  {
    forall i | 0 <= i < |P.ops|
      ensures !P.ops[i].Process?
    {
      assert P.ops[i] in P.ops;
    }
    assert forall i :: i !in x.processes;
  }

  lemma IdleFlow(P: Problem, C: Cascade, x: Happening, fn: nat)
    requires Calm(P) && WellShaped(P, C, x) && x.due == map[] && fn < P.fns == |P.flows|
    requires WellShaped(P, C, IdleAfter(C, x))
    ensures FlowStep(P, C, x, IdleAfter(C, x), fn)
  {
    var flows := P.flows[fn];
    forall k | 0 <= k < |flows|
      ensures FlowApplies(P, C, x, IdleAfter(C, x), fn, flows[k])
    {
      assert flows[k] in flows;
      var o :| o in flows[k].operators && o > 0;
      assert !RunsAfter(x, OpOf(o)) by {
        NoProcesses(P, C, x);
      }
    }
  }

  lemma IdleBetween(P: Problem, C: Cascade, x: Happening)
    requires Calm(P) && WellShaped(P, C, x) && x.due == map[] && P.fns == |P.flows|
    requires WellShaped(P, C, IdleAfter(C, x))
    ensures Between(P, C, x, IdleAfter(C, x))
  {
    var y := IdleAfter(C, x);
    forall fn | 0 <= fn < P.fns
      ensures FlowStep(P, C, x, y, fn)
    {
      IdleFlow(P, C, x, fn);
    }
    forall i | 0 <= i < |P.ops|
      ensures !P.ops[i].Event? && !P.ops[i].Process?
    {
      assert P.ops[i] in P.ops;
    }
    assert LitsOpen(P, C, x, y);
    assert TilAssignsHold(P, y);
    assert forall i: nat :: DueStepFor(P, x.due, y, i);
  }

  /** One more idle happening keeps a plan a plan. */
  lemma IdleExtends(P: Problem, C: Cascade, run: Run)
    requires Calm(P) && Legal(P, C, run) && Reaches(P, C, run)
    ensures
      var longer := run + [IdleAfter(C, run[|run| - 1])];
      && Legal(P, C, longer) && Reaches(P, C, longer)
      && Separated(P, longer[|run|], false)
  {
    var n := |run|;
    var x := run[n - 1];
    var longer := run + [IdleAfter(C, x)];
    assert LegalAt(P, C, run, n - 1);
    IdleWithin(P, C, x);
    IdleBetween(P, C, x);
    forall h | 0 <= h < n + 1
      ensures LegalAt(P, C, longer, h)
    {
      if h < n {
        assert LegalAt(P, C, run, h);
      }
    }
  }

  lemma {:induction false} IdleExtendsTo(P: Problem, C: Cascade, run: Run, H: nat) returns (longer: Run)
    requires Calm(P) && Legal(P, C, run) && Reaches(P, C, run) && |run| <= H
    ensures |longer| == H && Legal(P, C, longer) && Reaches(P, C, longer)
    ensures longer[..|run|] == run
    ensures forall h | |run| <= h < H :: Separated(P, longer[h], false)
    decreases H - |run|
  {
    if |run| == H {
      longer := run;
      assert longer[..|run|] == run;
    } else {
      var next := run + [IdleAfter(C, run[|run| - 1])];
      IdleExtends(P, C, run);
      longer := IdleExtendsTo(P, C, next, H);
      assert longer[..|run|] == longer[..|run| + 1][..|run|] == run;
      assert longer[|run|] == next[|run|];
    }
  }

  lemma SeparatedMore(P: Problem, x: Happening, first: bool)
    requires Separated(P, x, false)
    ensures Separated(P, x, first)
  {
  }

  lemma BatchPlanDeepens(P: Problem, C: Cascade, bounds: seq<nat>, next: nat, run: Run) returns (longer: Run)
    requires Calm(P) && Bounds(bounds) && Last(bounds) <= next && BatchPlan(P, C, bounds, run)
    ensures Bounds(bounds + [next]) && BatchPlan(P, C, bounds + [next], longer)
  {
    longer := IdleExtendsTo(P, C, run, next);
    forall h | 0 <= h < next
      ensures Separated(P, longer[h], h < bounds[0])
    {
      if h < |run| {
        assert longer[h] == longer[..|run|][h] == run[h];
      } else {
        SeparatedMore(P, longer[h], h < bounds[0]);
      }
    }
  }

  /** Deepening loses no plan: satisfiable contents stay satisfiable after one more call. */
  lemma DeeperSatisfiable(P: Problem, C: Cascade, bounds: seq<nat>, next: nat)
    requires FaithfulProblem(P) && Calm(P) && Bounds(bounds) && 0 < Last(bounds) <= next
    requires Satisfiable(P, C, bounds)
    ensures Bounds(bounds + [next]) && Satisfiable(P, C, bounds + [next])
  {
    BatchSatisfiable(P, C, bounds);
    var run :| BatchPlan(P, C, bounds, run);
    var longer := BatchPlanDeepens(P, C, bounds, next, run);
    BatchSatisfiable(P, C, bounds + [next]);
  }

  /** A plan without any interfering simultaneous starts is found at every bound from its own
      length on, whatever the calls before. */
  lemma PlanIsReached(P: Problem, C: Cascade, run: Run, bounds: seq<nat>)
    requires FaithfulProblem(P) && Calm(P) && Legal(P, C, run) && Reaches(P, C, run)
    requires forall h | 0 <= h < |run| :: Separated(P, run[h], false)
    requires Bounds(bounds) && |run| <= Last(bounds)
    ensures Last(bounds) > 0 && Satisfiable(P, C, bounds)
  {
    var longer := IdleExtendsTo(P, C, run, Last(bounds));
    forall h | 0 <= h < Last(bounds)
      ensures Separated(P, longer[h], h < bounds[0])
    {
      if h < |run| {
        assert longer[h] == longer[..|run|][h] == run[h];
      }
      SeparatedMore(P, longer[h], h < bounds[0]);
    }
    assert BatchPlan(P, C, bounds, longer);
    BatchSatisfiable(P, C, bounds);
  }
}
