/** What a model of the encoding says of a function that depends on others: its value moves as the
    rate equation demands. */
module EncodedChange {
  import opened Smt
  import opened Pddl
  import opened HappeningSpec
  import opened Semantics
  import opened Decoding
  import opened LayerMeaning
  import opened Soundness
  import opened Algebra
  import opened FlowPartition
  import opened Evaluation
  import opened Listing
  import opened Resolution
  import opened Coverage
  import opened RateEquation
  import opened Continuous

  /** The flows of the function in the problem are the finished ones. Operators have numbers from
      one. */
  ghost predicate EncodesFlows(P: Problem, fn: nat, final: seq<SingleFlow>) {
    && fn < |P.flows| && |P.flows[fn]| == |final|
    && forall k | 0 <= k < |final| :: Represents(P.flows[fn][k], final[k]) && 0 !in final[k].operators
  }

  /** The value after the interval is where the satisfied flow leads from the values before it. */
  ghost predicate Arrives(C: Cascade, p: Happening, x: Happening, fn: nat, g: SingleFlow)
    requires |p.layers| == C && |x.layers| == C && fn < |x.layers[0].vals|
  {
    x.layers[0].vals[fn] == Path(g.polynomial, ValuesIn(p.layers[C - 1].vals))(Elapsed(p, x))
  }

  lemma PathIs(poly: seq<Monomial>, g: Poly, vals: seq<real>, t: real)
    requires Lists(poly, g)
    ensures PolyValue(poly, vals, t) == Path(g, ValuesIn(vals))(t)
  {
    ListedWorth(poly, g, vals, Moment(t, ValuesIn(vals)));
  }

  /** The flow of the encoder that says so. */
  lemma FlowSays(P: Problem, C: Cascade, p: Happening, x: Happening, fn: nat, flow: Flow)
    requires WellShaped(P, C, p) && WellShaped(P, C, x) && fn < P.fns == |P.flows| && flow in P.flows[fn]
    requires !TilAffects(P, x.time, TilAssign, fn) && FlowStep(P, C, p, x, fn) && Matches(flow.operators, p)
    ensures x.layers[0].vals[fn] == PolyValue(flow.poly, p.layers[C - 1].vals, Elapsed(p, x))
  {
    var k :| 0 <= k < |P.flows[fn]| && P.flows[fn][k] == flow;
    assert FlowApplies(P, C, p, x, fn, P.flows[fn][k]);
  }

  lemma FlowArrives(P: Problem, C: Cascade, p: Happening, x: Happening, fn: nat, final: seq<SingleFlow>, k: nat)
    requires WellShaped(P, C, p) && WellShaped(P, C, x) && fn < P.fns == |P.flows|
    requires !TilAffects(P, x.time, TilAssign, fn) && FlowStep(P, C, p, x, fn)
    requires EncodesFlows(P, fn, final) && k < |final| && Satisfies(RunningIds(p), final[k].operators)
    ensures Arrives(C, p, x, fn, final[k])
  {
    var flow := P.flows[fn][k];
    FlowSays(P, C, p, x, fn, flow) by {
      MatchesIs(flow, final[k].operators, p);
    }
    PathIs(flow.poly, final[k].polynomial, p.layers[C - 1].vals, Elapsed(p, x));
  }

  /** From one happening to the next the function goes where the solution of its rate equation goes,
      started at the values it and its dependencies had. */
  lemma EncodedSolves(P: Problem, C: Cascade, p: Happening, x: Happening, fn: nat, subs: Substitution, table: Table,
                      first: seq<SingleFlow>, final: seq<SingleFlow>, f: SingleFlow) returns (k: nat)
    requires WellShaped(P, C, p) && WellShaped(P, C, x) && fn < P.fns == |P.flows|
    requires !TilAffects(P, x.time, TilAssign, fn) && FlowStep(P, C, p, x, fn)
    requires Substitutes(subs) && Finished(subs, table, fn, first, final) && EncodesFlows(P, fn, final)
    requires f in first && Satisfies(RunningIds(p), f.operators)
    requires Passable(table, RunningIds(p), f.operators, f.dependencies) && Untangled(RunningIds(p), table, f.dependencies)
    ensures k < |final| && Arrives(C, p, x, fn, final[k])
    ensures Solves(RunningIds(p), table, fn, f, final[k], ValuesIn(p.layers[C - 1].vals))
  {
    k := FinishedSolves(subs, table, RunningIds(p), fn, first, final, f, ValuesIn(p.layers[C - 1].vals));
    FlowArrives(P, C, p, x, fn, final, k);
  }

  lemma StepFlows(P: Problem, C: Cascade, run: Run, fn: nat, h: nat)
    requires Legal(P, C, run) && 0 < h < |run| && fn < P.fns
    ensures WellShaped(P, C, run[h - 1]) && WellShaped(P, C, run[h]) && fn < |P.flows| == P.fns
    ensures FlowStep(P, C, run[h - 1], run[h], fn)
  {
    assert LegalAt(P, C, run, h) && LegalAt(P, C, run, h - 1);
    assert Between(P, C, run[h - 1], run[h]);
  }

  /** So it is in every model of the encoding. */
  lemma ModelSolves(P: Problem, C: Cascade, m: Model, H: nat, h: nat, fn: nat, subs: Substitution, table: Table,
                    first: seq<SingleFlow>, final: seq<SingleFlow>, f: SingleFlow) returns (k: nat)
    requires FaithfulProblem(P) && 0 < h < H && Holds(m, EncodeSpec(P, C, 0, H)) && fn < P.fns
    requires !TilAffects(P, m.r(Time(h)), TilAssign, fn)
    requires Substitutes(subs) && Finished(subs, table, fn, first, final) && EncodesFlows(P, fn, final)
    requires
      var running := RunningIds(HappeningAt(P, C, m, h - 1));
      && f in first && Satisfies(running, f.operators)
      && Passable(table, running, f.operators, f.dependencies) && Untangled(running, table, f.dependencies)
    ensures
      var p := HappeningAt(P, C, m, h - 1);
      && k < |final| && Arrives(C, p, HappeningAt(P, C, m, h), fn, final[k])
      && Solves(RunningIds(p), table, fn, f, final[k], ValuesIn(p.layers[C - 1].vals))
  {
    var run := Decode(P, C, m, H);
    EncodingSound(P, C, m, H);
    StepFlows(P, C, run, fn, h);
    assert run[h - 1] == HappeningAt(P, C, m, h - 1) && run[h] == HappeningAt(P, C, m, h);
    k := EncodedSolves(P, C, HappeningAt(P, C, m, h - 1), HappeningAt(P, C, m, h), fn, subs, table, first, final, f);
  }

  // ----- Constant rates -----

  /** Every model of the encoding gives the function that value, at every layer of every
      happening. */
  lemma ValueInModel(P: Problem, C: Cascade, m: Model, H: nat, fn: nat, rates: seq<Rate>, order: seq<nat>, h: nat, b: nat)
    requires FaithfulProblem(P) && H > 0 && Holds(m, EncodeSpec(P, C, 0, H))
    requires h < H && b < C && fn < P.fns && OnlyFlows(P, Decode(P, C, m, H), fn, h)
    requires FlowsFor(P, fn, rates, order) && Distinct(EffectsOf(rates))
    ensures m.r(Value(fn, h, b)) == m.r(Value(fn, 0, 0)) + Increments(Decode(P, C, m, H), rates, h)
  {
    var run := Decode(P, C, m, H);
    EncodingSound(P, C, m, H);
    ValueOverRun(P, C, run, fn, rates, order, h, b);
    assert run[h].layers[b] == StateAt(P, m, h, b) && run[0].layers[0] == StateAt(P, m, 0, 0);
  }
}
