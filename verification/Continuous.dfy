/** Change at constant rates: who runs and for how long determines every value. */
module Continuous {
  import opened Numbers
  import opened Smt
  import opened Pddl
  import opened HappeningSpec
  import opened Semantics
  import opened Decoding
  import opened LayerMeaning
  import opened Algebra
  import opened Evaluation
  import opened Listing
  import opened FlowPartition

  /** An operator that changes the function at a constant rate while it runs. */
  datatype Rate = Rate(op: int, rate: real)

  function Constant(c: real): Poly {
    Single(c, Mono(0, multiset{}))
  }

  function EffectsOf(rates: seq<Rate>): (effects: seq<Effect>)
    ensures |effects| == |rates| && forall k | 0 <= k < |rates| :: effects[k] == Effect(rates[k].op, {}, Constant(rates[k].rate))
  {
    seq(|rates|, k requires 0 <= k < |rates| => Effect(rates[k].op, {}, Constant(rates[k].rate)))
  }

  /** The rates of the running operators together. */
  function RateOf(rates: seq<Rate>, running: set<int>): real {
    if rates == [] then 0.0
    else
      var last := rates[|rates| - 1];
      RateOf(rates[..|rates| - 1], running) + (if last.op in running then last.rate else 0.0)
  }

  // ----- The polynomial of a flow -----

  lemma ConstantAt(c: real, m: Mono)
    ensures Coefficient(Constant(c), m) == if m == Mono(0, multiset{}) then c else 0.0
  {
  }

  lemma ConstantsAdd(a: real, b: real)
    ensures Add(Constant(a), Constant(b)) == Constant(a + b)
  {
    forall m
      ensures Coefficient(Add(Constant(a), Constant(b)), m) == Coefficient(Constant(a + b), m)
    {
      AddAt(Constant(a), Constant(b), m);
      ConstantAt(a, m);
      ConstantAt(b, m);
      ConstantAt(a + b, m);
    }
    SameCoefficients(Add(Constant(a), Constant(b)), Constant(a + b));
  }

  lemma {:induction false} SumOfConstants(rates: seq<Rate>, running: set<int>)
    ensures SumOf(EffectsOf(rates), running) == Constant(RateOf(rates, running))
  {
    if rates != [] {
      var n := |rates| - 1;
      assert EffectsOf(rates)[..n] == EffectsOf(rates[..n]);
      SumOfConstants(rates[..n], running);
      ConstantsAdd(RateOf(rates[..n], running), rates[n].rate);
    }
  }

  /** Operators that are not among the effects do not matter. */
  lemma {:induction false} OthersDoNotMatter(rates: seq<Rate>, running: set<int>, active: set<int>)
    requires forall k | 0 <= k < |rates| :: rates[k].op in running <==> rates[k].op in active
    ensures RateOf(rates, running) == RateOf(rates, active)
  {
    if rates != [] {
      OthersDoNotMatter(rates[..|rates| - 1], running, active);
    }
  }

  /** From one value to another at a constant rate. */
  predicate Moves(before: real, after: real, rate: real, elapsed: real) {
    after == before + Mul(rate, elapsed)
  }

  /** The list of a constant rate, integrated. */
  ghost predicate IsLine(poly: seq<Monomial>, fn: nat, rate: real) {
    Lists(poly, Flowing(Constant(rate), fn))
  }

  lemma OverOne(x: real)
    ensures Over(x, 1) == x && Over(0.0, 1) == 0.0
  {
    assert Algebra.Times(1, Over(x, 1)) == Over(x, 1);
  }

  lemma IntegralOfConstant(rate: real, m: Mono)
    ensures Coefficient(Integral(Constant(rate)), m) == if m == Mono(1, multiset{}) then rate else 0.0
  {
    IntegralAt(Constant(rate), m);
    if m.t > 0 {
      ConstantAt(rate, Lower(m));
      assert Lower(m) == Mono(0, multiset{}) <==> m == Mono(1, multiset{});
      OverOne(rate);
    }
  }

  lemma LineWorth(fn: nat, rate: real, at: Moment)
    ensures Moves(at.v(fn), Worth(Flowing(Constant(rate), fn), at), rate, at.t)
  {
    WorthFlowing(Constant(rate), fn, at);
    forall k
      ensures Coefficient(Integral(Constant(rate)), k) == Coefficient(Single(rate, Mono(1, multiset{})), k)
    {
      IntegralOfConstant(rate, k);
    }
    SameCoefficients(Integral(Constant(rate)), Single(rate, Mono(1, multiset{})));
    WorthTime(rate, at);
  }

  lemma LineValue(poly: seq<Monomial>, fn: nat, rate: real, vals: seq<real>, elapsed: real)
    requires IsLine(poly, fn, rate) && fn < |vals|
    ensures Moves(vals[fn], PolyValue(poly, vals, elapsed), rate, elapsed)
  {
    var at := Moment(elapsed, ValuesIn(vals));
    LineWorth(fn, rate, at);
    ListedWorth(poly, Flowing(Constant(rate), fn), vals, at);
  }

  // ----- The flows of the function in a problem -----

  function Integrated(f: SingleFlow, fn: nat): SingleFlow {
    f.(polynomial := Flowing(f.polynomial, fn))
  }

  /** The flows of the function are those of these effects, each once, in some order. */
  ghost predicate FlowsFor(P: Problem, fn: nat, rates: seq<Rate>, order: seq<nat>) {
    var all := FlowsOf(EffectsOf(rates));
    && fn < |P.flows| && |P.flows[fn]| == |order| == |all|
    && (forall k | 0 <= k < |order| :: order[k] < |all| && Represents(P.flows[fn][k], Integrated(all[order[k]], fn)))
    && (forall j | 0 <= j < |all| :: j in order)
    && (forall j, k | 0 <= j < k < |order| :: order[j] != order[k])
  }

  lemma IdleIs(flow: Flow, ops: set<int>, wanted: set<int>, p: Happening)
    requires forall o | o in ops :: o > 0
    requires forall o :: o in flow.operators <==> o in KeyOf(ops, wanted)
    ensures Idle(flow.operators, p) <==> RunningIds(p) * ops == {}
  {
    if Idle(flow.operators, p) {
      forall o | o in ops
        ensures o !in RunningIds(p)
      {
        RunningId(p, o);
        var q := if o in wanted then o else -o;
        assert q in KeyOf(ops, wanted);
        assert q in flow.operators && OpOf(q) == OpOf(o);
      }
    }
    if RunningIds(p) * ops == {} {
      forall q | q in flow.operators
        ensures !RunsAfter(p, OpOf(q))
      {
        var o :| o in ops && q == if o in wanted then o else -o;
        RunningId(p, o);
        assert o !in RunningIds(p) * ops;
        assert OpOf(q) == OpOf(o);
      }
    }
  }

  lemma OpsPositive(effects: seq<Effect>)
    requires Distinct(effects)
    ensures forall o | o in Ops(effects) :: o > 0
  {
  }

  /** How the k-th flow of the encoder reads what runs after the happening. */
  lemma FlowReads(P: Problem, fn: nat, rates: seq<Rate>, order: seq<nat>, p: Happening, k: nat)
    requires FlowsFor(P, fn, rates, order) && Distinct(EffectsOf(rates)) && k < |order|
    ensures Matches(P.flows[fn][k].operators, p) <==>
            Satisfies(RunningIds(p), FlowsOf(EffectsOf(rates))[order[k]].operators)
    ensures Idle(P.flows[fn][k].operators, p) <==> RunningIds(p) * Ops(EffectsOf(rates)) == {}
  {
    var effects := EffectsOf(rates);
    var f := FlowsOf(effects)[order[k]];
    FlowsDescribe(effects);
    assert DescribesSome(f, effects);
    OpsPositive(effects);
    assert Represents(P.flows[fn][k], Integrated(f, fn));
    KeyMember(Ops(effects), FlowPartition.Running(f), 0);
    MatchesIs(P.flows[fn][k], f.operators, p);
    IdleIs(P.flows[fn][k], Ops(effects), FlowPartition.Running(f), p);
  }

  /** The k-th flow of the function describes what runs after the happening, and no other does. */
  ghost predicate OnlyOneMatches(P: Problem, fn: nat, p: Happening, k: nat)
    requires fn < |P.flows|
  {
    && k < |P.flows[fn]| && Matches(P.flows[fn][k].operators, p)
    && forall j | 0 <= j < |P.flows[fn]| && Matches(P.flows[fn][j].operators, p) :: j == k
  }

  lemma WhereOf(order: seq<nat>, place: nat) returns (k: nat)
    requires place in order
    ensures k < |order| && order[k] == place
  {
    k :| 0 <= k < |order| && order[k] == place;
  }

  lemma ActiveRates(rates: seq<Rate>, running: set<int>)
    ensures RateOf(rates, running * Ops(EffectsOf(rates))) == RateOf(rates, running)
  {
    var effects := EffectsOf(rates);
    forall k | 0 <= k < |rates|
      ensures rates[k].op in Ops(effects)
    {
      assert effects[k].op in Ops(effects);
    }
    OthersDoNotMatter(rates, running, running * Ops(effects));
  }

  /** While some operator with an effect on the function runs, exactly one flow matches, and it
      is the line with the rates of the running ones together. */
  lemma SomeRuns(P: Problem, fn: nat, rates: seq<Rate>, order: seq<nat>, p: Happening) returns (k: nat)
    requires FlowsFor(P, fn, rates, order) && Distinct(EffectsOf(rates))
    requires RunningIds(p) * Ops(EffectsOf(rates)) != {}
    ensures OnlyOneMatches(P, fn, p, k)
    ensures IsLine(P.flows[fn][k].poly, fn, RateOf(rates, RunningIds(p)))
  {
    var effects := EffectsOf(rates);
    var all, active := FlowsOf(effects), RunningIds(p) * Ops(effects);
    FlowsPartition(effects, RunningIds(p));
    var place := Place(effects, active);
    assert Describes(all[place], effects, active);
    k := WhereOf(order, place);
    FlowReads(P, fn, rates, order, p, k);
    forall j | 0 <= j < |P.flows[fn]| && Matches(P.flows[fn][j].operators, p)
      ensures j == k
    {
      FlowReads(P, fn, rates, order, p, j);
      assert order[j] == place;
    }
    SumOfConstants(rates, active);
    ActiveRates(rates, RunningIds(p));
    assert Represents(P.flows[fn][k], Integrated(all[place], fn));
  }

  lemma {:induction false} NoRate(rates: seq<Rate>)
    ensures RateOf(rates, {}) == 0.0
  {
    if rates != [] {
      NoRate(rates[..|rates| - 1]);
    }
  }

  lemma NoneRun(P: Problem, fn: nat, rates: seq<Rate>, order: seq<nat>, p: Happening)
    requires FlowsFor(P, fn, rates, order) && Distinct(EffectsOf(rates))
    requires RunningIds(p) * Ops(EffectsOf(rates)) == {}
    ensures forall k | 0 <= k < |P.flows[fn]| :: !Matches(P.flows[fn][k].operators, p) && Idle(P.flows[fn][k].operators, p)
    ensures RateOf(rates, RunningIds(p)) == 0.0
  {
    FlowsPartition(EffectsOf(rates), RunningIds(p));
    forall k | 0 <= k < |P.flows[fn]|
      ensures !Matches(P.flows[fn][k].operators, p) && Idle(P.flows[fn][k].operators, p)
    {
      FlowReads(P, fn, rates, order, p, k);
    }
    ActiveRates(rates, RunningIds(p));
    NoRate(rates);
  }

  lemma NothingMatches(P: Problem, C: Cascade, p: Happening, x: Happening, fn: nat)
    requires WellShaped(P, C, p) && WellShaped(P, C, x) && fn < P.fns == |P.flows|
    requires !TilAffects(P, x.time, TilAssign, fn)
    requires forall k | 0 <= k < |P.flows[fn]| :: !Matches(P.flows[fn][k].operators, p) && Idle(P.flows[fn][k].operators, p)
    ensures FlowStep(P, C, p, x, fn) <==> Unchanged(P, C, p, x, fn)
  {
  }

  lemma OneMatches(P: Problem, C: Cascade, p: Happening, x: Happening, fn: nat, k: nat)
    requires WellShaped(P, C, p) && WellShaped(P, C, x) && fn < P.fns == |P.flows|
    requires !TilAffects(P, x.time, TilAssign, fn)
    requires OnlyOneMatches(P, fn, p, k) && !Idle(P.flows[fn][0].operators, p)
    ensures FlowStep(P, C, p, x, fn) <==> FlowApplies(P, C, p, x, fn, P.flows[fn][k])
  {
    var flows := P.flows[fn];
    assert FlowsApply(P, C, p, x, fn, |flows|) <==> FlowApplies(P, C, p, x, fn, flows[k]) by {
      forall j | 0 <= j < |flows| && j != k
        ensures FlowApplies(P, C, p, x, fn, flows[j])
      {
        assert !Matches(flows[j].operators, p);
      }
    }
  }

  lemma MovesOnce(before: real, after: real, other: real, rate: real, elapsed: real)
    requires Moves(before, after, rate, elapsed)
    ensures Moves(before, other, rate, elapsed) <==> other == after
  {
  }

  lemma LineMoves(poly: seq<Monomial>, fn: nat, rate: real, vals: seq<real>, elapsed: real, value: real, after: real)
    requires IsLine(poly, fn, rate) && fn < |vals| && value == PolyValue(poly, vals, elapsed)
    ensures Moves(vals[fn], after, rate, elapsed) <==> after == value
  {
    LineValue(poly, fn, rate, vals, elapsed);
    MovesOnce(vals[fn], value, after, rate, elapsed);
  }

  lemma LineApplies(P: Problem, C: Cascade, p: Happening, x: Happening, fn: nat, f: Flow, rate: real)
    requires WellShaped(P, C, p) && WellShaped(P, C, x) && fn < P.fns
    requires Matches(f.operators, p) && IsLine(f.poly, fn, rate)
    ensures FlowApplies(P, C, p, x, fn, f) <==>
            Moves(p.layers[C - 1].vals[fn], x.layers[0].vals[fn], rate, Elapsed(p, x))
  {
    var vals := p.layers[C - 1].vals;
    FlowGives(P, C, p, x, fn, f);
    LineMoves(f.poly, fn, rate, vals, Elapsed(p, x), PolyValue(f.poly, vals, Elapsed(p, x)), x.layers[0].vals[fn]);
  }

  lemma NoRateNoChange(before: real, after: real, rate: real, elapsed: real)
    requires rate == 0.0
    ensures Moves(before, after, rate, elapsed) <==> after == before
  {
  }

  /** Over one interval the value moves by its length times the rates of what runs: no other
      value satisfies the flow constraints, and this one does. */
  lemma ValueDetermined(P: Problem, C: Cascade, p: Happening, x: Happening, fn: nat, rates: seq<Rate>, order: seq<nat>)
    requires WellShaped(P, C, p) && WellShaped(P, C, x) && fn < P.fns == |P.flows|
    requires FlowsFor(P, fn, rates, order) && Distinct(EffectsOf(rates))
    requires !TilAffects(P, x.time, TilAssign, fn)
    ensures FlowStep(P, C, p, x, fn) <==>
            Moves(p.layers[C - 1].vals[fn], x.layers[0].vals[fn], RateOf(rates, RunningIds(p)), Elapsed(p, x))
  {
    var before, after, rate := p.layers[C - 1].vals[fn], x.layers[0].vals[fn], RateOf(rates, RunningIds(p));
    if RunningIds(p) * Ops(EffectsOf(rates)) == {} {
      NoneRun(P, fn, rates, order, p);
      NothingMatches(P, C, p, x, fn);
      NoRateNoChange(before, after, rate, Elapsed(p, x));
    } else {
      var k := SomeRuns(P, fn, rates, order, p);
      FlowReads(P, fn, rates, order, p, 0);
      OneMatches(P, C, p, x, fn, k);
      LineApplies(P, C, p, x, fn, P.flows[fn][k], rate);
    }
  }

  // ----- A whole run -----

  /** Nothing but its continuous effects changes the function from happening 0 to h. */
  ghost predicate OnlyFlows(P: Problem, run: Run, fn: nat, h: nat)
    requires h < |run|
  {
    && (forall j | 0 <= j <= h :: !Assigned(P, run[j], fn))
    && (forall j | 0 < j <= h :: !TilAffects(P, run[j].time, TilAssign, fn))
  }

  /** The increments of the first n intervals. */
  ghost function Increments(run: Run, rates: seq<Rate>, n: nat): real
    requires n < |run|
  {
    if n == 0 then 0.0
    else
      Increments(run, rates, n - 1) + Mul(RateOf(rates, RunningIds(run[n - 1])), Elapsed(run[n - 1], run[n]))
  }

  lemma {:induction false} SameInHappening(P: Problem, C: Cascade, x: Happening, fn: nat, b: nat)
    requires Within(P, C, x) && fn < P.fns && b < C && !Assigned(P, x, fn)
    ensures x.layers[b].vals[fn] == x.layers[0].vals[fn]
  {
    if b > 0 {
      assert LayerStep(P, C, x, b - 1);
      SameInHappening(P, C, x, fn, b - 1);
    }
  }

  lemma StepInRun(P: Problem, C: Cascade, run: Run, fn: nat, h: nat)
    requires Legal(P, C, run) && 0 < h < |run| && fn < P.fns
    ensures Within(P, C, run[h - 1]) && Within(P, C, run[h]) && FlowStep(P, C, run[h - 1], run[h], fn)
  {
    assert LegalAt(P, C, run, h) && LegalAt(P, C, run, h - 1);
    assert Between(P, C, run[h - 1], run[h]);
  }

  ghost predicate MovesTo(C: Cascade, p: Happening, x: Happening, fn: nat, rates: seq<Rate>)
  {
    && |p.layers| == C && |x.layers| == C && fn < |p.layers[C - 1].vals| && fn < |x.layers[0].vals|
    && Moves(p.layers[C - 1].vals[fn], x.layers[0].vals[fn], RateOf(rates, RunningIds(p)), Elapsed(p, x))
  }

  /** In every interval up to h the function moves with the rates of what runs. */
  ghost predicate MovesUpTo(C: Cascade, run: Run, fn: nat, rates: seq<Rate>, h: nat) {
    h < |run| && forall j | 0 < j <= h :: MovesTo(C, run[j - 1], run[j], fn, rates)
  }

  lemma MovesInStep(P: Problem, C: Cascade, p: Happening, x: Happening, fn: nat, rates: seq<Rate>, order: seq<nat>)
    requires WellShaped(P, C, p) && WellShaped(P, C, x) && fn < P.fns == |P.flows|
    requires FlowsFor(P, fn, rates, order) && Distinct(EffectsOf(rates))
    requires !TilAffects(P, x.time, TilAssign, fn) && FlowStep(P, C, p, x, fn)
    ensures MovesTo(C, p, x, fn, rates)
  {
    ValueDetermined(P, C, p, x, fn, rates, order);
  }

  lemma OneMoreIncrement(C: Cascade, run: Run, fn: nat, rates: seq<Rate>, h: nat, first: real)
    requires 0 < h < |run| && MovesTo(C, run[h - 1], run[h], fn, rates)
    requires run[h - 1].layers[C - 1].vals[fn] == first + Increments(run, rates, h - 1)
    ensures run[h].layers[0].vals[fn] == first + Increments(run, rates, h)
  {
  }

  lemma AlwaysMoves(P: Problem, C: Cascade, run: Run, fn: nat, rates: seq<Rate>, order: seq<nat>, h: nat)
    requires Legal(P, C, run) && h < |run| && fn < P.fns && OnlyFlows(P, run, fn, h)
    requires FlowsFor(P, fn, rates, order) && Distinct(EffectsOf(rates))
    ensures MovesUpTo(C, run, fn, rates, h)
  {
    forall j | 0 < j <= h
      ensures MovesTo(C, run[j - 1], run[j], fn, rates)
    {
      StepInRun(P, C, run, fn, j);
      MovesInStep(P, C, run[j - 1], run[j], fn, rates, order);
    }
  }

  /** The function has one value in the happening. */
  ghost predicate Flat(C: Cascade, x: Happening, fn: nat) {
    && |x.layers| == C && fn < |x.layers[0].vals|
    && forall b | 0 <= b < C :: fn < |x.layers[b].vals| && x.layers[b].vals[fn] == x.layers[0].vals[fn]
  }

  lemma SameIsFlat(P: Problem, C: Cascade, x: Happening, fn: nat)
    requires Within(P, C, x) && fn < P.fns && !Assigned(P, x, fn)
    ensures Flat(C, x, fn)
  {
    forall b | 0 <= b < C
      ensures x.layers[b].vals[fn] == x.layers[0].vals[fn]
    {
      SameInHappening(P, C, x, fn, b);
    }
  }

  lemma {:induction false} SumUpTo(C: Cascade, run: Run, fn: nat, rates: seq<Rate>, h: nat)
    requires MovesUpTo(C, run, fn, rates, h) && forall j | 0 <= j <= h :: Flat(C, run[j], fn)
    ensures Flat(C, run[0], fn) && Flat(C, run[h], fn)
    ensures run[h].layers[0].vals[fn] == run[0].layers[0].vals[fn] + Increments(run, rates, h)
    decreases h
  {
    if h > 0 {
      assert MovesTo(C, run[h - 1], run[h], fn, rates) && Flat(C, run[h - 1], fn);
      SumUpTo(C, run, fn, rates, h - 1);
      OneMoreIncrement(C, run, fn, rates, h, run[0].layers[0].vals[fn]);
    }
  }

  /** In a legal run a function without assignments has its first value plus all increments. */
  lemma ValueOverRun(P: Problem, C: Cascade, run: Run, fn: nat, rates: seq<Rate>, order: seq<nat>, h: nat, b: nat)
    requires Legal(P, C, run) && h < |run| && b < C && fn < P.fns && OnlyFlows(P, run, fn, h)
    requires FlowsFor(P, fn, rates, order) && Distinct(EffectsOf(rates))
    ensures Within(P, C, run[0]) && Within(P, C, run[h])
    ensures run[h].layers[b].vals[fn] == run[0].layers[0].vals[fn] + Increments(run, rates, h)
  {
    forall j | 0 <= j <= h
      ensures Within(P, C, run[j]) && Flat(C, run[j], fn)
    {
      assert LegalAt(P, C, run, j);
      SameIsFlat(P, C, run[j], fn);
    }
    AlwaysMoves(P, C, run, fn, rates, order, h);
    SumUpTo(C, run, fn, rates, h);
    assert Flat(C, run[h], fn);
  }
}
