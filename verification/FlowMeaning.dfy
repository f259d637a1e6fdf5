/** Numeric frame axioms, continuous change, the initial state and the goal. */
module FlowMeaning {
  import opened Numbers
  import opened Smt
  import opened Pddl
  import opened HappeningSpec
  import opened Semantics
  import opened Decoding
  import opened BlockMeaning
  import opened LayerMeaning
  import opened FrameMeaning

  // ----- Functions inside a happening -----

  ghost predicate FnExplained(P: Problem, C: Cascade, m: Model, fn: nat, h: nat, b: nat)
    requires 0 < b < C
  {
    (b == C - 1 && Assigned(P, HappeningAt(P, C, m, h), fn)) || m.r(Value(fn, h, b - 1)) == m.r(Value(fn, h, b))
  }

  lemma AnyOrSame(m: Model, ts: seq<Formula>, a: RealVar, b: RealVar)
    ensures Some(m, ts + [Eq(Var(a), Var(b))]) <==> Some(m, ts) || m.r(a) == m.r(b)
  {
    AnyConcat(m, ts, [Eq(Var(a), Var(b))]);
    AnyOne(m, Eq(Var(a), Var(b)));
  }

  lemma SameOrAny(m: Model, ts: seq<Formula>, a: RealVar, b: RealVar)
    ensures Some(m, [Eq(Var(a), Var(b))] + ts) <==> Some(m, ts) || m.r(a) == m.r(b)
  {
    AnyConcat(m, [Eq(Var(a), Var(b))], ts);
    AnyOne(m, Eq(Var(a), Var(b)));
  }

  lemma FnSupportSplits(P: Problem, C: Cascade, m: Model, fn: nat, h: nat, b: nat, actions: bool)
    requires 0 < b < C
    requires actions <==>
             Some(m, Triggers(Users(P, StartAssign, fn), Starts(h)) + Triggers(Users(P, EndAssign, fn), Ends(h)))
    ensures Some(m, FnSupport(P, C, fn, h, b)) <==>
            (b == C - 1 && actions) || m.r(Value(fn, h, b - 1)) == m.r(Value(fn, h, b))
  {
    var ts := if b == C - 1
              then Triggers(Users(P, StartAssign, fn), Starts(h)) + Triggers(Users(P, EndAssign, fn), Ends(h))
              else [];
    AnyOrSame(m, ts, Value(fn, h, b - 1), Value(fn, h, b));
  }

  lemma FnLayerMeans(P: Problem, C: Cascade, m: Model, fn: nat, h: nat, b: nat)
    requires 0 < b < C
    ensures Holds(m, FnLayer(P, C, fn, h, b)) <==> FnExplained(P, C, m, fn, h, b)
  {
    HoldsOne(m, Or(FnSupport(P, C, fn, h, b)));
    FnSupportSplits(P, C, m, fn, h, b, Assigned(P, HappeningAt(P, C, m, h), fn)) by {
      ActionSupport(P, C, m, StartAssign, EndAssign, fn, h);
    }
  }

  lemma FnLayersMean(P: Problem, C: Cascade, m: Model, fn: nat, h: nat)
    ensures Holds(m, Block(FnLayerOf(P, C, fn, h), 1, C)) <==> forall b | 0 < b < C :: FnExplained(P, C, m, fn, h, b)
  {
    BlockHolds(m, FnLayerOf(P, C, fn, h), 1, C);
    forall b | 0 < b < C
      ensures Holds(m, FnLayerOf(P, C, fn, h)(b)) <==> FnExplained(P, C, m, fn, h, b)
    {
      FnLayerMeans(P, C, m, fn, h, b);
    }
  }

  // ----- Polynomials -----

  predicate WfFactors(P: Problem, factors: seq<Factor>) {
    forall a | a in factors :: a.sym.Function? ==> a.sym.fn < P.fns
  }

  lemma FactorMeans(P: Problem, m: Model, rest: Term, factor: Factor, h: nat, b: nat)
    requires factor.sym.Function? ==> factor.sym.fn < P.fns
    ensures
      var sym := SymbolTerm(factor.sym, h, b);
      var t := if factor.power == 0 then rest else Prod(rest, if factor.power == 1 then sym else Pow(sym, factor.power));
      ValueOf(t, m) ==
      ValueOf(rest, m) * Power(SymbolValue(factor.sym, StateAt(P, m, h, b).vals, m.r(Gap(h))), factor.power)
  {
    var x := SymbolValue(factor.sym, StateAt(P, m, h, b).vals, m.r(Gap(h)));
    var sym := SymbolTerm(factor.sym, h, b);
    assert ValueOf(sym, m) == x;
    assert Power(x, 0) == 1.0 && Power(x, 1) == x * Power(x, 0) == x;
    if factor.power > 1 {
      var pow := Pow(sym, factor.power);
      assert ValueOf(pow, m) == Power(x, factor.power);
      assert ValueOf(Prod(rest, pow), m) == ValueOf(rest, m) * ValueOf(pow, m);
    }
  }

  lemma {:induction false} MonomialTermMeans(P: Problem, m: Model, cf: real, factors: seq<Factor>, h: nat, b: nat)
    requires WfFactors(P, factors)
    ensures ValueOf(MonomialTerm(cf, factors, h, b), m) ==
            MonomialValue(cf, factors, StateAt(P, m, h, b).vals, m.r(Gap(h)))
  {
    if factors != [] {
      var rest := factors[..|factors| - 1];
      assert factors[|factors| - 1] in factors;
      MonomialTermMeans(P, m, cf, rest, h, b);
      FactorMeans(P, m, MonomialTerm(cf, rest, h, b), factors[|factors| - 1], h, b);
    }
  }

  lemma {:induction false} PolyTermMeans(P: Problem, m: Model, poly: seq<Monomial>, h: nat, b: nat)
    requires forall a | a in poly :: WfFactors(P, a.factors)
    ensures ValueOf(PolyTerm(poly, h, b), m) == PolyValue(poly, StateAt(P, m, h, b).vals, m.r(Gap(h)))
  {
    if poly != [] {
      var last := poly[|poly| - 1];
      var rest := poly[..|poly| - 1];
      PolyTermMeans(P, m, rest, h, b);
      assert last in poly;
      MonomialTermMeans(P, m, last.cf, last.factors, h, b);
      assert ValueOf(PolyTerm(poly, h, b), m) ==
             ValueOf(PolyTerm(rest, h, b), m) + ValueOf(MonomialTerm(last.cf, last.factors, h, b), m);
    }
  }

  // ----- Flows -----

  lemma RunningMeans(P: Problem, C: Cascade, m: Model, o: int, h: nat)
    requires Runs(P, OpOf(o))
    ensures RunsAfter(HappeningAt(P, C, m, h), OpOf(o)) <==> m.b(Running(OpOf(o), h))
  {
  }

  lemma {:induction false} OperatorConjunctsMean(P: Problem, C: Cascade, m: Model, operators: seq<int>, h: nat)
    requires forall o | o in operators :: o != 0 && Runs(P, OpOf(o))
    ensures Holds(m, OperatorConjuncts(operators, h)) <==> Matches(operators, HappeningAt(P, C, m, h))
    ensures Holds(m, NoOperatorRuns(operators, h)) <==> Idle(operators, HappeningAt(P, C, m, h))
  {
    if operators != [] {
      var o := operators[|operators| - 1];
      var rest := operators[..|operators| - 1];
      assert forall q :: q in operators <==> q in rest || q == o;
      OperatorConjunctsMean(P, C, m, rest, h);
      RunningMeans(P, C, m, o, h);
      var run := Bool(Running(OpOf(o), h));
      EvalLiteral(m, Running(OpOf(o), h));
      HoldsConcat(m, OperatorConjuncts(rest, h), [if o < 0 then Not(run) else run]);
      HoldsOne(m, if o < 0 then Not(run) else run);
      HoldsConcat(m, NoOperatorRuns(rest, h), [Not(run)]);
      HoldsOne(m, Not(run));
    }
  }

  lemma QuietMeans(P: Problem, m: Model, fn: nat, h: nat)
    requires TilsRead(P, m, h)
    ensures Eval(Quiet(P, fn, h), m) <==> !TilAffects(P, m.r(Time(h)), TilAssign, fn)
  {
    var users := Users(P, TilAssign, fn);
    var ts := NegatedTriggers(users, TilFires(h));
    assert Eval(Quiet(P, fn, h), m) <==> Holds(m, [Truth(true)] + ts);
    HoldsConcat(m, [Truth(true)], ts);
    HoldsOne(m, Truth(true));
    NoTrigger(m, users, TilFires(h));
    TilSupport(P, m, TilAssign, fn, h);
    AnyTrigger(m, users, TilFires(h));
  }

  lemma GuardedMeans(m: Model, fs: seq<Formula>, quiet: Formula, f: Formula)
    ensures Holds(m, [Implies(And([And(fs), quiet]), f)]) <==> (Holds(m, fs) && Eval(quiet, m) ==> Eval(f, m))
  {
    HoldsOne(m, Implies(And([And(fs), quiet]), f));
    HoldsTwo(m, And(fs), quiet);
    assert Eval(And([And(fs), quiet]), m) <==> Holds(m, [And(fs), quiet]);
    assert Eval(And(fs), m) <==> Holds(m, fs);
  }

  lemma FlowFits(P: Problem, fn: nat, f: Flow)
    requires WellFormed(P) && fn < P.fns && f in P.flows[fn]
    ensures WfFlow(P, f)
  {
  }

  /** Which operators the flow asks for, and whether they all are idle. */
  lemma FlowOperatorsMean(P: Problem, C: Cascade, m: Model, f: Flow, h: nat)
    requires WfFlow(P, f)
    ensures Holds(m, OperatorConjuncts(f.operators, h)) <==> Matches(f.operators, HappeningAt(P, C, m, h))
    ensures Holds(m, NoOperatorRuns(f.operators, h)) <==> Idle(f.operators, HappeningAt(P, C, m, h))
  {
    OperatorConjunctsMean(P, C, m, f.operators, h);
  }

  lemma OpeningValues(P: Problem, C: Cascade, m: Model, fn: nat, h: nat)
    requires fn < P.fns && h > 0
    ensures HappeningAt(P, C, m, h).layers[0].vals[fn] == m.r(Value(fn, h, 0))
    ensures HappeningAt(P, C, m, h - 1).layers[C - 1].vals == StateAt(P, m, h - 1, C - 1).vals
    ensures HappeningAt(P, C, m, h - 1).layers[C - 1].vals[fn] == m.r(Value(fn, h - 1, C - 1))
    ensures HappeningAt(P, C, m, h).time == m.r(Time(h)) && HappeningAt(P, C, m, h - 1).time == m.r(Time(h - 1))
  {
  }

  lemma SameElapsed(poly: seq<Monomial>, vals: seq<real>, a: real, b: real)
    requires a == b
    ensures PolyValue(poly, vals, a) == PolyValue(poly, vals, b)
  {
  }

  lemma ChangeValueMeans(P: Problem, C: Cascade, m: Model, fn: nat, h: nat, f: Flow, vals: seq<real>, elapsed: real)
    requires WfFlow(P, f) && h > 0 && vals == StateAt(P, m, h - 1, C - 1).vals && elapsed == m.r(Gap(h - 1))
    ensures Eval(Eq(Var(Value(fn, h, 0)), PolyTerm(f.poly, h - 1, C - 1)), m) <==>
            m.r(Value(fn, h, 0)) == PolyValue(f.poly, vals, elapsed)
  {
    assert forall a | a in f.poly :: WfFactors(P, a.factors);
    PolyTermMeans(P, m, f.poly, h - 1, C - 1);
    SameElapsed(f.poly, vals, m.r(Gap(h - 1)), elapsed);
  }

  lemma QuietGuardMeans(P: Problem, m: Model, fn: nat, h: nat, fs: seq<Formula>, f: Formula, applies: bool, gives: bool)
    requires TilsRead(P, m, h)
    requires (Holds(m, fs) <==> applies) && (Eval(f, m) <==> gives)
    ensures Holds(m, [Implies(And([And(fs), Quiet(P, fn, h)]), f)]) <==>
            (!TilAffects(P, m.r(Time(h)), TilAssign, fn) && applies ==> gives)
  {
    GuardedMeans(m, fs, Quiet(P, fn, h), f);
    QuietMeans(P, m, fn, h);
  }

  lemma ChangeReads(P: Problem, C: Cascade, m: Model, fn: nat, h: nat, f: Flow, applies: bool, gives: bool)
    requires h > 0 && TilsRead(P, m, h)
    requires Holds(m, OperatorConjuncts(f.operators, h - 1)) <==> applies
    requires Eval(Eq(Var(Value(fn, h, 0)), PolyTerm(f.poly, h - 1, C - 1)), m) <==> gives
    ensures Holds(m, [ChangeFormula(P, C, fn, h, f)]) <==>
            (!TilAffects(P, m.r(Time(h)), TilAssign, fn) && applies ==> gives)
  {
    QuietGuardMeans(P, m, fn, h, OperatorConjuncts(f.operators, h - 1), Eq(Var(Value(fn, h, 0)), PolyTerm(f.poly, h - 1, C - 1)),
                    applies, gives);
  }

  lemma ChangeMeans(P: Problem, C: Cascade, m: Model, fn: nat, h: nat, f: Flow, vals: seq<real>, elapsed: real, applies: bool)
    requires WfFlow(P, f) && h > 0 && TilsRead(P, m, h)
    requires vals == StateAt(P, m, h - 1, C - 1).vals && elapsed == m.r(Gap(h - 1))
    requires Holds(m, OperatorConjuncts(f.operators, h - 1)) <==> applies
    ensures Holds(m, [ChangeFormula(P, C, fn, h, f)]) <==>
            (!TilAffects(P, m.r(Time(h)), TilAssign, fn) && applies ==> m.r(Value(fn, h, 0)) == PolyValue(f.poly, vals, elapsed))
  {
    ChangeReads(P, C, m, fn, h, f, applies, m.r(Value(fn, h, 0)) == PolyValue(f.poly, vals, elapsed)) by {
      ChangeValueMeans(P, C, m, fn, h, f, vals, elapsed);
    }
  }

  lemma IdleReads(P: Problem, C: Cascade, m: Model, fn: nat, h: nat, f: Flow, applies: bool)
    requires h > 0 && TilsRead(P, m, h)
    requires Holds(m, NoOperatorRuns(f.operators, h - 1)) <==> applies
    ensures Holds(m, [IdleFormula(P, C, fn, h, f)]) <==>
            (!TilAffects(P, m.r(Time(h)), TilAssign, fn) && applies ==> m.r(Value(fn, h, 0)) == m.r(Value(fn, h - 1, C - 1)))
  {
    var same := Eq(Var(Value(fn, h, 0)), Var(Value(fn, h - 1, C - 1)));
    assert Eval(same, m) <==> m.r(Value(fn, h, 0)) == m.r(Value(fn, h - 1, C - 1));
    QuietGuardMeans(P, m, fn, h, NoOperatorRuns(f.operators, h - 1), same, applies,
                    m.r(Value(fn, h, 0)) == m.r(Value(fn, h - 1, C - 1)));
  }

  lemma UnchangedMeans(P: Problem, C: Cascade, m: Model, fn: nat, h: nat)
    requires fn < P.fns && h > 0
    ensures Unchanged(P, C, HappeningAt(P, C, m, h - 1), HappeningAt(P, C, m, h), fn) <==>
            m.r(Value(fn, h, 0)) == m.r(Value(fn, h - 1, C - 1))
  {
    OpeningValues(P, C, m, fn, h);
  }

  lemma IdleAtMeans(P: Problem, C: Cascade, m: Model, fn: nat, h: nat, f: Flow, applies: bool)
    requires fn < P.fns && h > 0 && TilsRead(P, m, h)
    requires Holds(m, NoOperatorRuns(f.operators, h - 1)) <==> applies
    ensures Holds(m, [IdleFormula(P, C, fn, h, f)]) <==>
            (!TilAffects(P, m.r(Time(h)), TilAssign, fn) && applies ==>
               Unchanged(P, C, HappeningAt(P, C, m, h - 1), HappeningAt(P, C, m, h), fn))
  {
    UnchangedMeans(P, C, m, fn, h);
    IdleReads(P, C, m, fn, h, f, applies);
  }

  lemma FlowAppliesAt(P: Problem, C: Cascade, m: Model, fn: nat, h: nat, f: Flow)
    requires fn < P.fns && h > 0
    ensures
      var p, x := HappeningAt(P, C, m, h - 1), HappeningAt(P, C, m, h);
      FlowApplies(P, C, p, x, fn, f) <==>
      (Matches(f.operators, p) ==> m.r(Value(fn, h, 0)) == PolyValue(f.poly, p.layers[C - 1].vals, x.time - p.time))
  {
    OpeningValues(P, C, m, fn, h);
  }

  lemma ChangeAtMeans(P: Problem, C: Cascade, m: Model, fn: nat, h: nat, f: Flow)
    requires WfFlow(P, f) && fn < P.fns && h > 0 && TilsRead(P, m, h)
    requires m.r(Time(h)) - m.r(Time(h - 1)) == m.r(Gap(h - 1))
    ensures
      var p, x := HappeningAt(P, C, m, h - 1), HappeningAt(P, C, m, h);
      Holds(m, [ChangeFormula(P, C, fn, h, f)]) <==>
      (!TilAffects(P, m.r(Time(h)), TilAssign, fn) && Matches(f.operators, p) ==>
         m.r(Value(fn, h, 0)) == PolyValue(f.poly, p.layers[C - 1].vals, x.time - p.time))
  {
    var p, x := HappeningAt(P, C, m, h - 1), HappeningAt(P, C, m, h);
    ChangeMeans(P, C, m, fn, h, f, p.layers[C - 1].vals, x.time - p.time, Matches(f.operators, p)) by {
      OpeningValues(P, C, m, fn, h);
      FlowOperatorsMean(P, C, m, f, h - 1);
    }
  }

  lemma ChangeOfMeans(P: Problem, C: Cascade, m: Model, fn: nat, h: nat, k: nat)
    requires WellFormed(P) && fn < P.fns && k < |P.flows[fn]| && h > 0 && TilsRead(P, m, h)
    requires m.r(Time(h)) - m.r(Time(h - 1)) == m.r(Gap(h - 1))
    ensures Holds(m, ChangeOf(P, C, fn, h)(k)) <==>
            (!TilAffects(P, m.r(Time(h)), TilAssign, fn) ==>
               FlowApplies(P, C, HappeningAt(P, C, m, h - 1), HappeningAt(P, C, m, h), fn, P.flows[fn][k]))
  {
    FlowFits(P, fn, P.flows[fn][k]);
    ChangeAtMeans(P, C, m, fn, h, P.flows[fn][k]);
    FlowAppliesAt(P, C, m, fn, h, P.flows[fn][k]);
  }

  lemma ChangesMean(P: Problem, C: Cascade, m: Model, fn: nat, h: nat)
    requires WellFormed(P) && fn < P.fns && h > 0 && TilsRead(P, m, h)
    requires m.r(Time(h)) - m.r(Time(h - 1)) == m.r(Gap(h - 1))
    ensures Holds(m, Block(ChangeOf(P, C, fn, h), 0, |P.flows[fn]|)) <==>
            (!TilAffects(P, m.r(Time(h)), TilAssign, fn) ==>
               FlowsApply(P, C, HappeningAt(P, C, m, h - 1), HappeningAt(P, C, m, h), fn, |P.flows[fn]|))
  {
    BlockHolds(m, ChangeOf(P, C, fn, h), 0, |P.flows[fn]|);
    var quiet := !TilAffects(P, m.r(Time(h)), TilAssign, fn);
    forall k | 0 <= k < |P.flows[fn]|
      ensures Holds(m, ChangeOf(P, C, fn, h)(k)) <==>
              (quiet ==> FlowApplies(P, C, HappeningAt(P, C, m, h - 1), HappeningAt(P, C, m, h), fn, P.flows[fn][k]))
    {
      ChangeOfMeans(P, C, m, fn, h, k);
    }
  }

  lemma FlowlessSplits(P: Problem, C: Cascade, m: Model, fn: nat, h: nat)
    requires fn < |P.flows| && P.flows[fn] == [] && h > 0
    ensures Holds(m, FlowAt(P, C, fn, h)) <==>
            Some(m, Triggers(Users(P, TilAssign, fn), TilFires(h))) ||
            m.r(Value(fn, h, 0)) == m.r(Value(fn, h - 1, C - 1))
  {
    var same := Eq(Var(Value(fn, h, 0)), Var(Value(fn, h - 1, C - 1)));
    var ts := Triggers(Users(P, TilAssign, fn), TilFires(h));
    HoldsOne(m, Or([same] + ts));
    SameOrAny(m, ts, Value(fn, h, 0), Value(fn, h - 1, C - 1));
  }

  lemma FlowlessMeans(P: Problem, C: Cascade, m: Model, fn: nat, h: nat)
    requires WellFormed(P) && fn < P.fns && P.flows[fn] == [] && h > 0 && TilsRead(P, m, h)
    ensures Holds(m, FlowAt(P, C, fn, h)) <==>
            TilAffects(P, m.r(Time(h)), TilAssign, fn) ||
            Unchanged(P, C, HappeningAt(P, C, m, h - 1), HappeningAt(P, C, m, h), fn)
  {
    FlowlessSplits(P, C, m, fn, h);
    TilSupport(P, m, TilAssign, fn, h);
    UnchangedMeans(P, C, m, fn, h);
  }

  lemma HoldsBoth(m: Model, a: seq<Formula>, b: seq<Formula>, x: bool, y: bool)
    requires (Holds(m, a) <==> x) && (Holds(m, b) <==> y)
    ensures Holds(m, a + b) <==> x && y
  {
    HoldsConcat(m, a, b);
  }

  lemma IdleFirstMeans(P: Problem, C: Cascade, m: Model, fn: nat, h: nat)
    requires WellFormed(P) && fn < P.fns && P.flows[fn] != [] && h > 0 && TilsRead(P, m, h)
    ensures Holds(m, [IdleFormula(P, C, fn, h, P.flows[fn][0])]) <==>
            (!TilAffects(P, m.r(Time(h)), TilAssign, fn) && Idle(P.flows[fn][0].operators, HappeningAt(P, C, m, h - 1)) ==>
               Unchanged(P, C, HappeningAt(P, C, m, h - 1), HappeningAt(P, C, m, h), fn))
  {
    IdleAtMeans(P, C, m, fn, h, P.flows[fn][0], Idle(P.flows[fn][0].operators, HappeningAt(P, C, m, h - 1))) by {
      FlowFits(P, fn, P.flows[fn][0]);
      FlowOperatorsMean(P, C, m, P.flows[fn][0], h - 1);
    }
  }

  /** The constraints for a function with flows. */
  lemma FlowsMean(P: Problem, C: Cascade, m: Model, fn: nat, h: nat)
    requires WellFormed(P) && fn < P.fns && P.flows[fn] != [] && h > 0 && TilsRead(P, m, h)
    requires m.r(Time(h)) - m.r(Time(h - 1)) == m.r(Gap(h - 1))
    ensures
      var flows, p, x := P.flows[fn], HappeningAt(P, C, m, h - 1), HappeningAt(P, C, m, h);
      Holds(m, FlowAt(P, C, fn, h)) <==>
      && (!TilAffects(P, m.r(Time(h)), TilAssign, fn) && Idle(flows[0].operators, p) ==> Unchanged(P, C, p, x, fn))
      && (!TilAffects(P, m.r(Time(h)), TilAssign, fn) ==> FlowsApply(P, C, p, x, fn, |flows|))
  {
    var flows, p, x := P.flows[fn], HappeningAt(P, C, m, h - 1), HappeningAt(P, C, m, h);
    var affected := TilAffects(P, m.r(Time(h)), TilAssign, fn);
    HoldsBoth(m, [IdleFormula(P, C, fn, h, flows[0])], Block(ChangeOf(P, C, fn, h), 0, |flows|),
              !affected && Idle(flows[0].operators, p) ==> Unchanged(P, C, p, x, fn),
              !affected ==> FlowsApply(P, C, p, x, fn, |flows|)) by {
      IdleFirstMeans(P, C, m, fn, h);
      ChangesMean(P, C, m, fn, h);
    }
  }

  lemma FlowAtMeans(P: Problem, C: Cascade, m: Model, fn: nat, h: nat)
    requires WellFormed(P) && fn < P.fns && TilsRead(P, m, h)
    requires h > 0 ==> m.r(Time(h)) - m.r(Time(h - 1)) == m.r(Gap(h - 1))
    ensures Holds(m, FlowAt(P, C, fn, h)) <==>
            (h > 0 ==> FlowStep(P, C, HappeningAt(P, C, m, h - 1), HappeningAt(P, C, m, h), fn))
  {
    if h > 0 {
      assert HappeningAt(P, C, m, h).time == m.r(Time(h));
      if P.flows[fn] == [] {
        FlowlessMeans(P, C, m, fn, h);
      } else {
        FlowsMean(P, C, m, fn, h);
      }
    }
  }

  // ----- The initial state -----

  lemma AddedInitMeans(m: Model, init: seq<nat>)
    ensures Holds(m, AddedInit(init)) <==> forall l | l in init :: m.b(Lit(l, 0, 0))
  {
    if init != [] {
      var last := init[|init| - 1];
      var rest := init[..|init| - 1];
      AddedInitMeans(m, rest);
      HoldsConcat(m, AddedInit(rest), [Bool(Lit(last, 0, 0))]);
      HoldsOne(m, Bool(Lit(last, 0, 0)));
      EvalLiteral(m, Lit(last, 0, 0));
      assert forall l :: l in init <==> l in rest || l == last;
    }
  }

  lemma AbsentInitMeans(P: Problem, m: Model, n: nat)
    ensures Holds(m, AbsentInit(P, n)) <==> forall l | 0 <= l < n && l !in P.init :: !m.b(Lit(l, 0, 0))
  {
    if n > 0 {
      AbsentInitMeans(P, m, n - 1);
      if n - 1 !in P.init {
        HoldsConcat(m, AbsentInit(P, n - 1), [Not(Bool(Lit(n - 1, 0, 0)))]);
        HoldsOne(m, Not(Bool(Lit(n - 1, 0, 0))));
        EvalLiteral(m, Lit(n - 1, 0, 0));
      } else {
        assert AbsentInit(P, n) == AbsentInit(P, n - 1);
      }
    }
  }

  lemma ValueInitMeans(m: Model, vals: seq<(nat, real)>)
    ensures Holds(m, ValueInit(vals)) <==> forall v | v in vals :: m.r(Value(v.0, 0, 0)) == v.1
  {
    if vals != [] {
      var last := vals[|vals| - 1];
      var rest := vals[..|vals| - 1];
      ValueInitMeans(m, rest);
      var f := Eq(Var(Value(last.0, 0, 0)), Const(last.1));
      HoldsConcat(m, ValueInit(rest), [f]);
      HoldsOne(m, f);
      assert Eval(f, m) <==> m.r(Value(last.0, 0, 0)) == last.1;
      assert forall v :: v in vals <==> v in rest || v == last;
    }
  }

  lemma InitMeans(P: Problem, m: Model)
    requires WellFormed(P)
    ensures Holds(m, InitSpec(P)) <==>
            && (forall l | 0 <= l < P.lits :: m.b(Lit(l, 0, 0)) <==> l in P.init)
            && (forall v | v in P.initVals :: m.r(Value(v.0, 0, 0)) == v.1)
  {
    HoldsConcat(m, AddedInit(P.init) + AbsentInit(P, P.lits), ValueInit(P.initVals));
    HoldsConcat(m, AddedInit(P.init), AbsentInit(P, P.lits));
    AddedInitMeans(m, P.init);
    AbsentInitMeans(P, m, P.lits);
    ValueInitMeans(m, P.initVals);
  }

  // ----- The goal -----

  lemma NothingRunsMeans(P: Problem, m: Model, n: nat, H: nat)
    requires n <= |P.ops| && H > 0
    ensures Holds(m, NothingRuns(P, n, H)) <==> forall i | 0 <= i < n && P.ops[i].Durative? :: !m.b(Running(i, H - 1))
  {
    if n > 0 {
      NothingRunsMeans(P, m, n - 1, H);
      if P.ops[n - 1].Durative? {
        HoldsConcat(m, NothingRuns(P, n - 1, H), [Not(Bool(Running(n - 1, H - 1)))]);
        HoldsOne(m, Not(Bool(Running(n - 1, H - 1))));
        EvalLiteral(m, Running(n - 1, H - 1));
      } else {
        assert NothingRuns(P, n, H) == NothingRuns(P, n - 1, H);
      }
    }
  }

  /** The flag of a comparison only implies it, so the goal list is retractable; when every
      flag is as true as its comparison, the list is the goal. */
  ghost predicate FlagsTrue(m: Model) {
    forall op, l, r :: m.b(GoalFlag(CompareTerms(op, l, r))) <==> Eval(CompareTerms(op, l, r), m)
  }

  lemma GoalAtomMeans(P: Problem, C: Cascade, m: Model, H: nat, a: Atom)
    requires H > 0
    ensures
      var out := Emit(P, C, Context(GoalMode, 0, H - 1, C - 1, AtStart, 0), a);
      var f := AtomFormula(a, 0, H - 1, C - 1);
      && (Holds(m, out.asserted) && Holds(m, out.goals) ==> Eval(f, m))
      && (FlagsTrue(m) ==> Holds(m, out.asserted) && (Holds(m, out.goals) <==> Eval(f, m)))
  {
    var f := AtomFormula(a, 0, H - 1, C - 1);
    if a.LitAtom? {
      HoldsOne(m, f);
    } else {
      HoldsOne(m, Implies(Bool(GoalFlag(f)), f));
      HoldsOne(m, Bool(GoalFlag(f)));
      EvalLiteral(m, GoalFlag(f));
    }
  }

  lemma GoalOutputMeans(P: Problem, C: Cascade, m: Model, H: nat)
    requires FaithfulProblem(P) && H > 0
    ensures
      var out := GoalOutput(P, C, H);
      && (Holds(m, out.asserted) && Holds(m, out.goals) ==> Sat(P.goal, StateAt(P, m, H - 1, C - 1), 0.0))
      && (FlagsTrue(m) ==>
            Holds(m, out.asserted) && (Holds(m, out.goals) <==> Sat(P.goal, StateAt(P, m, H - 1, C - 1), 0.0)))
  {
    var ctx := Context(GoalMode, 0, H - 1, C - 1, AtStart, 0);
    EmitAllHolds(P, C, m, ctx, Atoms(P.goal));
    forall a | a in Atoms(P.goal) {
      GoalAtomMeans(P, C, m, H, a);
    }
    GoalMeans(P, m, P.goal, 0, H - 1, C - 1, false, true);
    SatWithoutDuration(P, P.goal, true, StateAt(P, m, H - 1, C - 1), m.r(Remaining(0, H - 1)));
  }

  // ----- Timings -----

  lemma TimingMeans(m: Model, h: nat)
    ensures Holds(m, TimingAt(h)) <==>
            && m.r(Gap(h)) >= 0.1
            && (if h == 0 then m.r(Time(0)) == 0.0
                else m.r(Time(h)) == m.r(Time(h - 1)) + m.r(Gap(h - 1)) && m.r(Time(h)) > m.r(Time(h - 1)))
  {
    var gap := Le(Const(0.1), Var(Gap(h)));
    HoldsOne(m, gap);
    assert Eval(gap, m) <==> m.r(Gap(h)) >= 0.1;
    if h == 0 {
      HoldsConcat(m, [Eq(Var(Time(0)), Const(0.0))], [gap]);
      HoldsOne(m, Eq(Var(Time(0)), Const(0.0)));
    } else {
      var next := Sum(Var(Time(h - 1)), Var(Gap(h - 1)));
      HoldsConcat(m, [Eq(Var(Time(h)), next), Lt(Var(Time(h - 1)), Var(Time(h)))], [gap]);
      HoldsTwo(m, Eq(Var(Time(h)), next), Lt(Var(Time(h - 1)), Var(Time(h))));
      assert ValueOf(next, m) == m.r(Time(h - 1)) + m.r(Gap(h - 1));
    }
  }
}
