/** Where the visitors of the happening encoder do not say what the problem says, and exactly when
    that makes no difference. */
module VisitorLimits {
  import opened Smt
  import opened Pddl
  import opened HappeningSpec
  import opened Semantics
  import opened Decoding
  import opened BlockMeaning
  import opened FlowMeaning
  import opened FluentSpec

  /** The operands of a subtraction leave the stack in reverse order. */
  lemma MinusIsReversed(P: Problem, m: Model, l: Expr, r: Expr, i: nat, h: nat, b: nat, durationOk: bool)
    requires WfExpr(P, Minus(l, r), durationOk) && NoMinus(l) && NoMinus(r)
    ensures ValueOf(TermOf(Minus(l, r), i, h, b), m) == -Evaluate(Minus(l, r), StateAt(P, m, h, b).vals, m.r(Remaining(i, h)))
  {
    TermMeans(P, m, l, i, h, b, durationOk);
    TermMeans(P, m, r, i, h, b, durationOk);
  }

  function Magnitude(x: real): real {
    if x < 0.0 then -x else x
  }

  /** Comparing d or its negative with e comes to the same: e is beyond both, on the proper side. */
  predicate Symmetric(op: CompOp, d: real, e: real) {
    match op
    case Greater => e < -Magnitude(d) || Magnitude(d) <= e
    case GreatEq => e <= -Magnitude(d) || Magnitude(d) < e
    case Less => e <= -Magnitude(d) || Magnitude(d) < e
    case LessEq => e < -Magnitude(d) || Magnitude(d) <= e
    case Equals => d == 0.0 || Magnitude(d) != Magnitude(e)
  }

  lemma ReversedCompares(op: CompOp, d: real, e: real)
    ensures (Compares(op, -d, e) <==> Compares(op, d, e)) <==> Symmetric(op, d, e)
  {
  }

  /** So a difference compared with anything free of subtractions is encoded correctly exactly when
      it is zero or the other side lies beyond both the difference and its negative. */
  lemma MinusCompared(P: Problem, m: Model, op: CompOp, l: Expr, r: Expr, e: Expr, i: nat, h: nat, b: nat, durationOk: bool)
    requires WfExpr(P, Minus(l, r), durationOk) && NoMinus(l) && NoMinus(r) && WfExpr(P, e, durationOk) && NoMinus(e)
    ensures
      var vals, d := StateAt(P, m, h, b).vals, m.r(Remaining(i, h));
      (Eval(AtomFormula(CompAtom(op, Minus(l, r), e), i, h, b), m) <==>
       AtomSat(CompAtom(op, Minus(l, r), e), StateAt(P, m, h, b), d)) <==>
      Symmetric(op, Evaluate(Minus(l, r), vals, d), Evaluate(e, vals, d))
  {
    MinusIsReversed(P, m, l, r, i, h, b, durationOk);
    TermMeans(P, m, e, i, h, b, durationOk);
    CompareTermsMeans(m, op, TermOf(Minus(l, r), i, h, b), TermOf(e, i, h, b));
    var vals, d := StateAt(P, m, h, b).vals, m.r(Remaining(i, h));
    ReversedCompares(op, Evaluate(Minus(l, r), vals, d), Evaluate(e, vals, d));
  }

  /** Witness: 1 - 0 > 0 is true, and false as encoded. */
  lemma OneMinusZero(P: Problem, m: Model, i: nat, h: nat, b: nat)
    ensures
      var a := CompAtom(Greater, Minus(Num(1.0), Num(0.0)), Num(0.0));
      AtomSat(a, StateAt(P, m, h, b), 0.0) && !Eval(AtomFormula(a, i, h, b), m)
  {
    MinusIsReversed(P, m, Num(1.0), Num(0.0), i, h, b, false);
    CompareTermsMeans(m, Greater, TermOf(Minus(Num(1.0), Num(0.0)), i, h, b), TermOf(Num(0.0), i, h, b));
  }

  /** Negation is carried into a conjunction without turning it into a disjunction. */
  lemma {:induction false} NegatedAtoms(gs: seq<Goal>, s: State, d: real)
    requires forall g | g in gs :: Faithful(g, true)
    ensures (forall a | a in FlattenAll(gs, true) :: AtomSat(a, s, d)) <==> forall g | g in gs :: !Sat(g, s, d)
  {
    if gs != [] {
      FlattenMeans(gs[0], true, s, d);
      NegatedAtoms(gs[1..], s, d);
      assert forall a :: a in FlattenAll(gs, true) <==> a in Flatten(gs[0], true) || a in FlattenAll(gs[1..], true);
      assert forall g :: g in gs <==> g == gs[0] || g in gs[1..];
    }
  }

  /** What is visited under a negated conjunction is what the conjunction means exactly when its
      parts are all true or all false, and there are any. */
  lemma NegatedConjunction(gs: seq<Goal>, s: State, d: real)
    requires forall g | g in gs :: Faithful(g, true)
    ensures ((forall a | a in Atoms(Neg(Conj(gs))) :: AtomSat(a, s, d)) <==> Sat(Neg(Conj(gs)), s, d)) <==>
            gs != [] && ((forall g | g in gs :: Sat(g, s, d)) || (forall g | g in gs :: !Sat(g, s, d)))
  {
    NegatedAtoms(gs, s, d);
    var g := Conj(gs);
    assert Atoms(Neg(g)) == Flatten(g, true) == FlattenAll(gs, true);
    assert Sat(Neg(Conj(gs)), s, d) <==> !Sat(Conj(gs), s, d);
    if gs != [] {
      assert gs[0] in gs;
    }
  }

  /** Witness: not (p and q) with p true and q false is true, but the atoms visited are not. */
  lemma OneTrueOneFalse()
    ensures
      var g, s := Neg(Conj([Simple(0), Simple(1)])), State({0}, []);
      Sat(g, s, 0.0) && !forall a | a in Atoms(g) :: AtomSat(a, s, 0.0)
  {
    var gs, s := [Simple(0), Simple(1)], State({0}, []);
    assert gs[0] in gs && gs[1] in gs;
    assert Sat(gs[0], s, 0.0) && !Sat(gs[1], s, 0.0);
    assert !Sat(Conj(gs), s, 0.0);
    NegatedConjunction(gs, s, 0.0);
  }

  // ----- What any visit amounts to -----

  /** Polarity reaches the literals only; a negated conjunction stays a conjunction, and
      disjunctions and implications are true. */
  ghost predicate AsVisited(g: Goal, negated: bool, s: State, d: real) {
    match g
    case Simple(lit) => (lit in s.lits) != negated
    case Compare(op, l, r) => Compares(op, Evaluate(l, s.vals, d), Evaluate(r, s.vals, d))
    case Neg(g1) => AsVisited(g1, !negated, s, d)
    case Conj(gs) => forall g1 | g1 in gs :: AsVisited(g1, negated, s, d)
    case Disj(_) => true
    case Imply(_, _) => true
  }

  /** For every goal and polarity. */
  lemma {:induction false} VisitAmountsTo(g: Goal, negated: bool, s: State, d: real)
    ensures (forall a | a in Flatten(g, negated) :: AtomSat(a, s, d)) <==> AsVisited(g, negated, s, d)
  {
    match g
    case Simple(lit) =>
      var a := LitAtom(negated, lit);
      assert Flatten(g, negated) == [a] && a in Flatten(g, negated);
      assert AtomSat(a, s, d) <==> AsVisited(g, negated, s, d);
    case Compare(op, l, r) =>
      var a := CompAtom(op, l, r);
      assert Flatten(g, negated) == [a] && a in Flatten(g, negated);
      assert AtomSat(a, s, d) <==> AsVisited(g, negated, s, d);
    case Neg(g1) => VisitAmountsTo(g1, !negated, s, d);
    case Conj(gs) => VisitAllAmountsTo(gs, negated, s, d);
    case Disj(_) =>
    case Imply(_, _) =>
  }

  lemma {:induction false} VisitAllAmountsTo(gs: seq<Goal>, negated: bool, s: State, d: real)
    ensures (forall a | a in FlattenAll(gs, negated) :: AtomSat(a, s, d)) <==> forall g | g in gs :: AsVisited(g, negated, s, d)
  {
    if gs != [] {
      VisitAmountsTo(gs[0], negated, s, d);
      VisitAllAmountsTo(gs[1..], negated, s, d);
      assert gs == [gs[0]] + gs[1..];
    }
  }

  // ----- A comparison under a negation -----

  /** The condition is asked for here. */
  predicate Triggered(m: Model, ctx: Context) {
    var sta, run, end := m.b(Start(ctx.op, ctx.h)), m.b(Running(ctx.op, ctx.h)), m.b(End(ctx.op, ctx.h));
    if ctx.mode == DurationMode || ctx.time == AtStart then sta else if ctx.time == AtEnd then end else run || end
  }

  /** What a visit writes means this: under its trigger, as the goal, or as a trigger itself. */
  ghost predicate Requires(m: Model, ctx: Context, out: Output, condition: bool) {
    match ctx.mode
    case TriggerMode => Holds(m, out.conds) <==> condition
    case GoalMode =>
      && (Holds(m, out.asserted) && Holds(m, out.goals) ==> condition)
      && (FlagsTrue(m) ==> Holds(m, out.asserted) && (Holds(m, out.goals) <==> condition))
    case _ => Holds(m, out.asserted) <==> (Triggered(m, ctx) ==> condition)
  }

  lemma TimedMeans(m: Model, ctx: Context, com: Formula)
    requires ctx.mode != DurationMode
    ensures Holds(m, EmitTimed(ctx, com).asserted) <==> (Triggered(m, ctx) ==> Eval(com, m))
  {
    EvalLiteral(m, Start(ctx.op, ctx.h));
    EvalLiteral(m, End(ctx.op, ctx.h));
    EvalLiteral(m, Running(ctx.op, ctx.h));
    HoldsOne(m, Implies(Bool(Start(ctx.op, ctx.h)), com));
    HoldsOne(m, Implies(Bool(End(ctx.op, ctx.h)), com));
    HoldsTwo(m, Implies(Bool(Running(ctx.op, ctx.h)), com), Implies(Bool(End(ctx.op, ctx.h)), com));
  }

  lemma ImpliesMeans(m: Model, b: BoolVar, com: Formula)
    ensures Holds(m, [Implies(Bool(b), com)]) <==> (m.b(b) ==> Eval(com, m))
  {
    HoldsOne(m, Implies(Bool(b), com));
    EvalLiteral(m, b);
  }

  lemma FlaggedMeans(m: Model, com: Formula)
    ensures
      var asserted, goals := Holds(m, [Implies(Bool(GoalFlag(com)), com)]), Holds(m, [Bool(GoalFlag(com))]);
      && (asserted && goals ==> Eval(com, m))
      && ((m.b(GoalFlag(com)) <==> Eval(com, m)) ==> asserted && (goals <==> Eval(com, m)))
  {
    ImpliesMeans(m, GoalFlag(com), com);
    HoldsOne(m, Bool(GoalFlag(com)));
    EvalLiteral(m, GoalFlag(com));
  }

  lemma ComparisonRequires(m: Model, ctx: Context, com: Formula, l: Term, r: Term, condition: bool)
    requires Eval(com, m) <==> condition
    requires FlagsTrue(m) ==> (m.b(GoalFlag(com)) <==> Eval(com, m))
    ensures Requires(m, ctx, CompareOutput(ctx, com, l, r), condition)
  {
    match ctx.mode
    case TriggerMode => HoldsOne(m, com);
    case GoalMode => FlaggedMeans(m, com);
    case DurationMode => ImpliesMeans(m, Start(ctx.op, ctx.h), com);
    case _ => TimedMeans(m, ctx, com);
  }

  /** What is written for a negated comparison means the comparison itself, in either encoder. */
  lemma NegatedComparison(P: Problem, C: Cascade, m: Model, ctx: Context, op: CompOp, l: Expr, r: Expr, durationOk: bool)
    requires ctx.seen <= |P.ops|
    requires WfExpr(P, l, durationOk) && WfExpr(P, r, durationOk) && NoMinus(l) && NoMinus(r)
    ensures
      var g, s, d := Neg(Compare(op, l, r)), StateAt(P, m, ctx.h, ctx.b), m.r(Remaining(ctx.op, ctx.h));
      && Requires(m, ctx, EmitAll(P, C, ctx, Atoms(g)), Compares(op, Evaluate(l, s.vals, d), Evaluate(r, s.vals, d)))
      && EmitAllSlots(P, C, ctx, Atoms(g)) == EmitAll(P, C, ctx, Atoms(g))
  {
    var a := CompAtom(op, l, r);
    var rest: seq<Atom> := [];
    assert Flatten(Compare(op, l, r), true) == [a] && [a][1..] == rest;
    var out := EmitComparison(ctx, op, l, r);
    assert Join(out, Nothing) == out;
    assert EmitAll(P, C, ctx, [a]) == Join(Emit(P, C, ctx, a), EmitAll(P, C, ctx, rest)) == out;
    assert EmitAllSlots(P, C, ctx, [a]) == Join(EmitSlots(P, C, ctx, a), EmitAllSlots(P, C, ctx, rest)) == out;
    var s, d := StateAt(P, m, ctx.h, ctx.b), m.r(Remaining(ctx.op, ctx.h));
    var left, right := TermOf(l, ctx.op, ctx.h, ctx.b), TermOf(r, ctx.op, ctx.h, ctx.b);
    TermMeans(P, m, l, ctx.op, ctx.h, ctx.b, durationOk);
    TermMeans(P, m, r, ctx.op, ctx.h, ctx.b, durationOk);
    CompareTermsMeans(m, op, left, right);
    ComparisonRequires(m, ctx, CompareTerms(op, left, right), left, right, Compares(op, Evaluate(l, s.vals, d), Evaluate(r, s.vals, d)));
  }

  /** So the condition of an action is encoded correctly exactly when it is not asked for, that of an
      event or process never, and what is reached for a goal is its opposite. */
  lemma NegatedComparisonIsWrong(P: Problem, C: Cascade, m: Model, ctx: Context, op: CompOp, l: Expr, r: Expr, durationOk: bool)
    requires ctx.seen <= |P.ops|
    requires WfExpr(P, l, durationOk) && WfExpr(P, r, durationOk) && NoMinus(l) && NoMinus(r)
    ensures
      var g := Neg(Compare(op, l, r));
      var out, right := EmitAll(P, C, ctx, Atoms(g)), Sat(g, StateAt(P, m, ctx.h, ctx.b), m.r(Remaining(ctx.op, ctx.h)));
      if ctx.mode == TriggerMode then !(Holds(m, out.conds) <==> right)
      else if ctx.mode == GoalMode then
        (Holds(m, out.asserted) && Holds(m, out.goals) ==> !right) && (FlagsTrue(m) ==> !(Holds(m, out.goals) <==> right))
      else (Holds(m, out.asserted) <==> (Triggered(m, ctx) ==> right)) <==> !Triggered(m, ctx)
  {
    NegatedComparison(P, C, m, ctx, op, l, r, durationOk);
    var g, s, d := Neg(Compare(op, l, r)), StateAt(P, m, ctx.h, ctx.b), m.r(Remaining(ctx.op, ctx.h));
    assert Sat(g, s, d) <==> !Compares(op, Evaluate(l, s.vals, d), Evaluate(r, s.vals, d));
  }

  /** Witness: an action that asks at its start for a fuel of not more than three starts with five
      as far as its condition goes, and does not start with one. */
  lemma NotMoreThanThree(P: Problem, C: Cascade, m: Model, i: nat, h: nat, seen: nat)
    requires P.fns > 0 && seen <= |P.ops| && m.b(Start(i, h))
    ensures
      var g, ctx := Neg(Compare(Greater, Fluent(0), Num(3.0))), Context(ConditionMode, i, h, C - 2, AtStart, seen);
      var asked, right := Holds(m, EmitAll(P, C, ctx, Atoms(g)).asserted), Sat(g, StateAt(P, m, h, C - 2), 0.0);
      && (m.r(Value(0, h, C - 2)) == 5.0 ==> asked && !right)
      && (m.r(Value(0, h, C - 2)) == 1.0 ==> !asked && right)
  {
    var ctx := Context(ConditionMode, i, h, C - 2, AtStart, seen);
    NegatedComparison(P, C, m, ctx, Greater, Fluent(0), Num(3.0), false);
    var g, s := Neg(Compare(Greater, Fluent(0), Num(3.0))), StateAt(P, m, h, C - 2);
    assert s.vals[0] == m.r(Value(0, h, C - 2));
    assert Sat(g, s, 0.0) <==> !Sat(Compare(Greater, Fluent(0), Num(3.0)), s, 0.0);
  }

  // ----- Disjunctions and implications -----

  /** A disjunction or an implication, negated or not, is visited without a trace, in either encoder: so
      it is taken for true, and that is right exactly where it holds. */
  lemma DisjunctionIsTrue(P: Problem, C: Cascade, ctx: Context, g: Goal, s: State, d: real)
    requires ctx.seen <= |P.ops| && (g.Disj? || g.Imply?)
    ensures EmitAll(P, C, ctx, Atoms(g)) == EmitAll(P, C, ctx, Atoms(Neg(g))) == Nothing
    ensures EmitAllSlots(P, C, ctx, Atoms(g)) == EmitAllSlots(P, C, ctx, Atoms(Neg(g))) == Nothing
    ensures ((forall a | a in Atoms(g) :: AtomSat(a, s, d)) <==> Sat(g, s, d)) <==> Sat(g, s, d)
    ensures ((forall a | a in Atoms(Neg(g)) :: AtomSat(a, s, d)) <==> Sat(Neg(g), s, d)) <==> !Sat(g, s, d)
  {
    assert Flatten(g, true) == [] == Flatten(g, false);
    assert Sat(Neg(g), s, d) <==> !Sat(g, s, d);
  }

  /** Witness: an action that asks at its start for one of two literals may start without either. */
  lemma NeitherOfTwo(P: Problem, C: Cascade, m: Model, i: nat, h: nat, seen: nat)
    requires seen <= |P.ops| && !m.b(Lit(0, h, C - 2)) && !m.b(Lit(1, h, C - 2))
    ensures
      var g, ctx := Disj([Simple(0), Simple(1)]), Context(ConditionMode, i, h, C - 2, AtStart, seen);
      Holds(m, EmitAll(P, C, ctx, Atoms(g)).asserted) && !Sat(g, StateAt(P, m, h, C - 2), 0.0)
  {
    var gs, s := [Simple(0), Simple(1)], StateAt(P, m, h, C - 2);
    DisjunctionIsTrue(P, C, Context(ConditionMode, i, h, C - 2, AtStart, seen), Disj(gs), s, 0.0);
    assert forall g | g in gs :: g == gs[0] || g == gs[1];
    assert !Sat(gs[0], s, 0.0) && !Sat(gs[1], s, 0.0);
  }
}
