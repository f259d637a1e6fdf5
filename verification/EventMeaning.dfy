/** Events and processes: triggers, effects, and the constraints against skipped changes. */
module EventMeaning {
  import opened Numbers
  import opened Smt
  import opened Pddl
  import opened HappeningSpec
  import opened Semantics
  import opened Decoding
  import opened BlockMeaning
  import opened LayerMeaning

  // ----- The two stacks of lhs - rhs terms -----

  function Comps(atoms: seq<Atom>): (r: seq<Atom>)
    ensures forall a :: a in r <==> a in atoms && a.CompAtom?
  {
    if atoms == [] then []
    else (if atoms[0].CompAtom? then [atoms[0]] else []) + Comps(atoms[1..])
  }

  function DiffTerm(a: Atom, i: nat, h: nat, b: nat): Term
    requires a.CompAtom?
  {
    Diff(TermOf(a.lhs, i, h, b), TermOf(a.rhs, i, h, b))
  }

  /** Both visits push one term per comparison, in the order of the condition. */
  lemma {:induction false} MustTerms(P: Problem, C: Cascade, i: nat, h: nat, b: nat, atoms: seq<Atom>)
    ensures
      var musts := EmitAll(P, C, Context(TriggerMode, i, h, b, AtStart, 0), atoms).musts;
      && |musts| == |Comps(atoms)|
      && forall k | 0 <= k < |musts| :: musts[k] == DiffTerm(Comps(atoms)[k], i, h, b)
  {
    if atoms != [] {
      MustTerms(P, C, i, h, b, atoms[1..]);
      var ctx := Context(TriggerMode, i, h, b, AtStart, 0);
      var head := Emit(P, C, ctx, atoms[0]).musts;
      assert EmitAll(P, C, ctx, atoms).musts == head + EmitAll(P, C, ctx, atoms[1..]).musts;
      assert |head| == if atoms[0].CompAtom? then 1 else 0;
    }
  }

  lemma DiffTermMeans(P: Problem, m: Model, a: Atom, i: nat, h: nat, b: nat)
    requires a.CompAtom? && WfAtom(P, a, false, true) && FaithfulAtom(a)
    ensures ValueOf(DiffTerm(a, i, h, b), m) == Difference(a, StateAt(P, m, h, b).vals)
  {
    TermMeans(P, m, a.lhs, i, h, b, false);
    TermMeans(P, m, a.rhs, i, h, b, false);
    var vals, d := StateAt(P, m, h, b).vals, m.r(Remaining(i, h));
    DurationUnused(P, a.lhs, vals, d, 0.0);
    DurationUnused(P, a.rhs, vals, d, 0.0);
    assert ValueOf(DiffTerm(a, i, h, b), m) == ValueOf(TermOf(a.lhs, i, h, b), m) - ValueOf(TermOf(a.rhs, i, h, b), m);
  }

  lemma MustPairMeans(P: Problem, C: Cascade, m: Model, a: Atom, i: nat, h: nat)
    requires h > 0 && a.CompAtom? && WfAtom(P, a, false, true) && FaithfulAtom(a)
    ensures Eval(Le(Const(0.0), Prod(DiffTerm(a, i, h, 0), DiffTerm(a, i, h - 1, C - 1))), m) <==>
            Keeps(a, StateAt(P, m, h - 1, C - 1).vals, StateAt(P, m, h, 0).vals)
  {
    var now, before := DiffTerm(a, i, h, 0), DiffTerm(a, i, h - 1, C - 1);
    DiffTermMeans(P, m, a, i, h, 0);
    DiffTermMeans(P, m, a, i, h - 1, C - 1);
    ProductSign(ValueOf(now, m), ValueOf(before, m));
    assert ValueOf(Prod(now, before), m) == ValueOf(now, m) * ValueOf(before, m);
  }

  /** The stacks hold the terms of the same comparisons, so popping both pairs each with itself. */
  lemma {:induction false} MustPairsMean(P: Problem, C: Cascade, m: Model, cs: seq<Atom>, i: nat, h: nat, current: seq<Term>, previous: seq<Term>)
    requires h > 0
    requires forall a | a in cs :: a.CompAtom? && WfAtom(P, a, false, true) && FaithfulAtom(a)
    requires |cs| == |current| == |previous|
    requires forall k | 0 <= k < |cs| :: current[k] == DiffTerm(cs[k], i, h, 0)
    requires forall k | 0 <= k < |cs| :: previous[k] == DiffTerm(cs[k], i, h - 1, C - 1)
    ensures Holds(m, MustConstraints(current, previous)) <==>
            forall a | a in cs :: Keeps(a, StateAt(P, m, h - 1, C - 1).vals, StateAt(P, m, h, 0).vals)
  {
    if cs != [] {
      var n := |cs| - 1;
      var pair := Le(Const(0.0), Prod(current[n], previous[n]));
      MustPairsMean(P, C, m, cs[..n], i, h, current[..n], previous[..n]);
      assert cs[n] in cs;
      MustPairMeans(P, C, m, cs[n], i, h);
      HoldsConcat(m, [pair], MustConstraints(current[..n], previous[..n]));
      HoldsOne(m, pair);
      assert forall a :: a in cs <==> a in cs[..n] || a == cs[n];
    }
  }

  lemma CompsFaithful(P: Problem, g: Goal)
    requires WfGoal(P, g, false, true) && Faithful(g, false)
    ensures forall a | a in Comps(Atoms(g)) :: a.CompAtom? && WfAtom(P, a, false, true) && FaithfulAtom(a)
  {
    FlattenWellFormed(P, g, false, false, true);
    FlattenMeans(g, false, State({}, []), 0.0);
  }

  lemma MustStack(P: Problem, C: Cascade, g: Goal, i: nat, h: nat, b: nat)
    ensures
      var musts := TriggerOutput(P, C, g, i, h, b).musts;
      && |musts| == |Comps(Atoms(g))|
      && forall k | 0 <= k < |musts| :: musts[k] == DiffTerm(Comps(Atoms(g))[k], i, h, b)
  {
    MustTerms(P, C, i, h, b, Atoms(g));
  }

  lemma MustsPaired(P: Problem, C: Cascade, m: Model, g: Goal, i: nat, h: nat)
    requires h > 0 && WfGoal(P, g, false, true) && Faithful(g, false)
    ensures Holds(m, Musts(P, C, g, i, h)) <==>
            forall a | a in Comps(Atoms(g)) :: Keeps(a, StateAt(P, m, h - 1, C - 1).vals, StateAt(P, m, h, 0).vals)
  {
    var current, previous := TriggerOutput(P, C, g, i, h, 0).musts, TriggerOutput(P, C, g, i, h - 1, C - 1).musts;
    MustPairsMean(P, C, m, Comps(Atoms(g)), i, h, current, previous) by {
      CompsFaithful(P, g);
      MustStack(P, C, g, i, h, 0);
      MustStack(P, C, g, i, h - 1, C - 1);
    }
  }

  lemma NoCrossingIs(C: Cascade, g: Goal, p: Happening, x: Happening, before: seq<real>, after: seq<real>)
    requires |p.layers| == |x.layers| == C && p.layers[C - 1].vals == before && x.layers[0].vals == after
    ensures NoCrossing(C, g, p, x) <==> forall a | a in Comps(Atoms(g)) :: Keeps(a, before, after)
  {
    if forall a | a in Comps(Atoms(g)) :: Keeps(a, before, after) {
      forall a | a in Atoms(g) && a.CompAtom?
        ensures Keeps(a, before, after)
      {
        assert a in Comps(Atoms(g));
      }
    }
  }

  lemma MustsMean(P: Problem, C: Cascade, m: Model, g: Goal, i: nat, h: nat)
    requires h > 0 && WfGoal(P, g, false, true) && Faithful(g, false)
    ensures Holds(m, Musts(P, C, g, i, h)) <==>
            NoCrossing(C, g, HappeningAt(P, C, m, h - 1), HappeningAt(P, C, m, h))
  {
    MustsPaired(P, C, m, g, i, h);
    NoCrossingIs(C, g, HappeningAt(P, C, m, h - 1), HappeningAt(P, C, m, h),
                 StateAt(P, m, h - 1, C - 1).vals, StateAt(P, m, h, 0).vals);
  }

  lemma GuardMeans(m: Model, guard: BoolVar, fs: seq<Formula>)
    ensures Holds(m, GuardFromBack(Bool(guard), fs)) <==> (m.b(guard) ==> Holds(m, fs))
  {
    if fs != [] {
      var last := fs[|fs| - 1];
      var rest := fs[..|fs| - 1];
      GuardMeans(m, guard, rest);
      HoldsConcat(m, [Implies(Bool(guard), last)], GuardFromBack(Bool(guard), rest));
      HoldsOne(m, Implies(Bool(guard), last));
      EvalLiteral(m, guard);
      HoldsConcat(m, rest, [last]);
      HoldsOne(m, last);
      assert fs == rest + [last];
    }
  }

  // ----- Events -----

  ghost predicate EventClause(P: Problem, C: Cascade, m: Model, i: nat, h: nat, b: nat)
    requires i < |P.ops| && P.ops[i].Event?
  {
    && (m.b(Fired(i, h, b)) ==> EffectsShow(P.ops[i].eff, StateAt(P, m, h, b + 1)))
    && (m.b(Fired(i, h, b)) <==> Sat(P.ops[i].pre, StateAt(P, m, h, b), 0.0))
    && (b == 0 && h > 0 ==>
          NoCrossing(C, P.ops[i].pre, HappeningAt(P, C, m, h - 1), HappeningAt(P, C, m, h)))
  }

  lemma TriggerSat(P: Problem, C: Cascade, m: Model, g: Goal, i: nat, h: nat, b: nat)
    requires WfGoal(P, g, false, true) && Faithful(g, false)
    ensures Eval(And(TriggerOutput(P, C, g, i, h, b).conds), m) <==> Sat(g, StateAt(P, m, h, b), 0.0)
  {
    TriggerMeans(P, C, m, g, i, h, b);
    GoalMeans(P, m, g, i, h, b, false, true);
    SatWithoutDuration(P, g, true, StateAt(P, m, h, b), m.r(Remaining(i, h)));
  }

  lemma EventTriggerMeans(P: Problem, C: Cascade, m: Model, i: nat, h: nat, b: nat)
    requires FaithfulProblem(P) && i < |P.ops| && P.ops[i].Event?
    ensures Holds(m, [Iff(Bool(Fired(i, h, b)), And(TriggerOutput(P, C, P.ops[i].pre, i, h, b).conds))]) <==>
            (m.b(Fired(i, h, b)) <==> Sat(P.ops[i].pre, StateAt(P, m, h, b), 0.0))
  {
    assert WfOp(P, P.ops[i]) && FaithfulOp(P.ops[i]);
    HoldsOne(m, Iff(Bool(Fired(i, h, b)), And(TriggerOutput(P, C, P.ops[i].pre, i, h, b).conds)));
    EvalLiteral(m, Fired(i, h, b));
    TriggerSat(P, C, m, P.ops[i].pre, i, h, b);
  }

  lemma EventMustsMean(P: Problem, C: Cascade, m: Model, i: nat, h: nat)
    requires FaithfulProblem(P) && i < |P.ops| && P.ops[i].Event? && h > 0
    ensures Holds(m, [And(Musts(P, C, P.ops[i].pre, i, h))]) <==>
            NoCrossing(C, P.ops[i].pre, HappeningAt(P, C, m, h - 1), HappeningAt(P, C, m, h))
  {
    assert WfOp(P, P.ops[i]) && FaithfulOp(P.ops[i]);
    var fs := Musts(P, C, P.ops[i].pre, i, h);
    HoldsOne(m, And(fs));
    assert Eval(And(fs), m) <==> Holds(m, fs);
    MustsMean(P, C, m, P.ops[i].pre, i, h);
  }

  lemma EventLayerMeans(P: Problem, C: Cascade, m: Model, i: nat, h: nat, b: nat)
    requires FaithfulProblem(P) && i < |P.ops| && P.ops[i].Event?
    ensures Holds(m, EventLayer(P, C, i, h, b)) <==> EventClause(P, C, m, i, h, b)
  {
    var eff, pre := P.ops[i].eff, P.ops[i].pre;
    assert WfOp(P, P.ops[i]);
    var adds := LitEffects(eff.adds, false, Bool(Fired(i, h, b)), h, b + 1);
    var dels := LitEffects(eff.dels, true, Bool(Fired(i, h, b)), h, b + 1);
    var trigger := [Iff(Bool(Fired(i, h, b)), And(TriggerOutput(P, C, pre, i, h, b).conds))];
    var musts := if b == 0 && h > 0 then [And(Musts(P, C, pre, i, h))] else [];
    assert EventLayer(P, C, i, h, b) == adds + dels + trigger + musts;
    HoldsConcat4(m, adds, dels, trigger, musts);
    assert Holds(m, adds) && Holds(m, dels) <==>
           (m.b(Fired(i, h, b)) ==> EffectsShow(eff, StateAt(P, m, h, b + 1))) by {
      LitEffectsShow(P, m, eff, Fired(i, h, b), h, b + 1, false);
    }
    assert Holds(m, trigger) <==> (m.b(Fired(i, h, b)) <==> Sat(pre, StateAt(P, m, h, b), 0.0)) by {
      EventTriggerMeans(P, C, m, i, h, b);
    }
    if b == 0 && h > 0 {
      EventMustsMean(P, C, m, i, h);
    }
  }

  lemma EventLayerOfMeans(P: Problem, C: Cascade, m: Model, i: nat, h: nat, b: nat)
    requires FaithfulProblem(P) && i < |P.ops| && P.ops[i].Event?
    ensures Holds(m, EventLayerOf(P, C, i, h)(b)) <==> EventClause(P, C, m, i, h, b)
  {
    EventLayerMeans(P, C, m, i, h, b);
  }

  lemma BlockMeans(m: Model, body: nat -> seq<Formula>, hi: nat, clause: nat -> bool)
    requires forall b: nat | b < hi :: Holds(m, body(b)) <==> clause(b)
    ensures Holds(m, Block(body, 0, hi)) <==> forall b: nat | b < hi :: clause(b)
  {
    BlockHolds(m, body, 0, hi);
  }

  ghost function EventClauseOf(P: Problem, C: Cascade, m: Model, i: nat, h: nat): nat -> bool
    requires i < |P.ops| && P.ops[i].Event?
  {
    (b: nat) => EventClause(P, C, m, i, h, b)
  }

  lemma EventLayersMean(P: Problem, C: Cascade, m: Model, i: nat, h: nat)
    requires FaithfulProblem(P) && i < |P.ops| && P.ops[i].Event?
    ensures Holds(m, Block(EventLayerOf(P, C, i, h), 0, C - 1)) <==>
            forall b | 0 <= b < C - 1 :: EventClause(P, C, m, i, h, b)
  {
    BlockMeans(m, EventLayerOf(P, C, i, h), C - 1, EventClauseOf(P, C, m, i, h)) by {
      forall b | 0 <= b < C - 1
        ensures Holds(m, EventLayerOf(P, C, i, h)(b)) <==> EventClauseOf(P, C, m, i, h)(b)
      {
        EventLayerOfMeans(P, C, m, i, h, b);
      }
    }
    assert forall b: nat | b < C - 1 :: EventClauseOf(P, C, m, i, h)(b) <==> EventClause(P, C, m, i, h, b);
  }

  // ----- Processes -----

  ghost predicate ProcessClause(P: Problem, C: Cascade, m: Model, i: nat, h: nat)
    requires i < |P.ops| && P.ops[i].Process?
  {
    && (m.b(Running(i, h)) <==> Sat(P.ops[i].pre, StateAt(P, m, h, C - 1), 0.0))
    && (h > 0 && m.b(Running(i, h - 1)) ==>
          NoCrossing(C, P.ops[i].pre, HappeningAt(P, C, m, h - 1), HappeningAt(P, C, m, h)))
  }

  lemma ProcessMustsMean(P: Problem, C: Cascade, m: Model, i: nat, h: nat)
    requires FaithfulProblem(P) && i < |P.ops| && P.ops[i].Process? && h > 0
    ensures Holds(m, GuardFromBack(Bool(Running(i, h - 1)), Musts(P, C, P.ops[i].pre, i, h))) <==>
            (m.b(Running(i, h - 1)) ==>
               NoCrossing(C, P.ops[i].pre, HappeningAt(P, C, m, h - 1), HappeningAt(P, C, m, h)))
  {
    assert WfOp(P, P.ops[i]) && FaithfulOp(P.ops[i]);
    GuardMeans(m, Running(i, h - 1), Musts(P, C, P.ops[i].pre, i, h));
    MustsMean(P, C, m, P.ops[i].pre, i, h);
  }

  lemma ProcessTriggerMeans(P: Problem, C: Cascade, m: Model, i: nat, h: nat)
    requires FaithfulProblem(P) && i < |P.ops| && P.ops[i].Process?
    ensures Holds(m, [Iff(Bool(Running(i, h)), And(TriggerOutput(P, C, P.ops[i].pre, i, h, C - 1).conds))]) <==>
            (m.b(Running(i, h)) <==> Sat(P.ops[i].pre, StateAt(P, m, h, C - 1), 0.0))
  {
    assert WfOp(P, P.ops[i]) && FaithfulOp(P.ops[i]);
    HoldsOne(m, Iff(Bool(Running(i, h)), And(TriggerOutput(P, C, P.ops[i].pre, i, h, C - 1).conds)));
    EvalLiteral(m, Running(i, h));
    TriggerSat(P, C, m, P.ops[i].pre, i, h, C - 1);
  }

  lemma ProcessBodyMeans(P: Problem, C: Cascade, m: Model, i: nat, h: nat)
    requires FaithfulProblem(P) && i < |P.ops| && P.ops[i].Process?
    ensures Holds(m, ProcessBody(P, C, i, h)) <==> ProcessClause(P, C, m, i, h)
  {
    var g := P.ops[i].pre;
    var trigger := [Iff(Bool(Running(i, h)), And(TriggerOutput(P, C, g, i, h, C - 1).conds))];
    var musts := if h > 0 then GuardFromBack(Bool(Running(i, h - 1)), Musts(P, C, g, i, h)) else [];
    HoldsConcat(m, trigger, musts);
    ProcessTriggerMeans(P, C, m, i, h);
    if h > 0 {
      ProcessMustsMean(P, C, m, i, h);
    }
  }
}
