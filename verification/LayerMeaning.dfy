/** The equivalences of BlockMeaning, lifted to the reference semantics. */
module LayerMeaning {
  import opened Smt
  import opened Pddl
  import opened HappeningSpec
  import opened Semantics
  import opened Decoding
  import opened BlockMeaning

  // ----- Problems whose conditions and expressions the visitors keep intact -----

  predicate FaithfulAssigns(assigns: seq<Assignment>) {
    forall a | a in assigns :: NoMinus(a.rhs)
  }

  predicate FaithfulOp(o: Op) {
    match o
    case Durative(duration, atStart, overAll, atEnd, start, end) =>
      && Faithful(duration, false) && (forall a | a in Atoms(duration) :: a.CompAtom?)
      && Faithful(atStart, false) && Faithful(overAll, false) && Faithful(atEnd, false)
      && FaithfulAssigns(start.assigns) && FaithfulAssigns(end.assigns)
    case Instant(pre, eff) => Faithful(pre, false) && FaithfulAssigns(eff.assigns)
    case Event(pre, _) => Faithful(pre, false)
    case Process(pre) => Faithful(pre, false)
  }

  predicate FaithfulProblem(P: Problem) {
    var faithful :=
      && (forall o | o in P.ops :: FaithfulOp(o))
      && (forall t | t in P.tils :: FaithfulAssigns(t.eff.assigns))
      && Faithful(P.goal, false);
    WellFormed(P) && faithful
  }

  lemma GoalMeans(P: Problem, m: Model, g: Goal, i: nat, h: nat, b: nat, durationOk: bool, numericOk: bool)
    requires WfGoal(P, g, durationOk, numericOk) && Faithful(g, false)
    ensures (forall a | a in Atoms(g) :: Eval(AtomFormula(a, i, h, b), m)) <==>
            Sat(g, StateAt(P, m, h, b), m.r(Remaining(i, h)))
  {
    var s, d := StateAt(P, m, h, b), m.r(Remaining(i, h));
    FlattenWellFormed(P, g, false, durationOk, numericOk);
    FlattenMeans(g, false, s, d);
    forall a | a in Atoms(g)
      ensures Eval(AtomFormula(a, i, h, b), m) <==> AtomSat(a, s, d)
    {
      AtomMeans(P, m, a, i, h, b, durationOk);
    }
  }

  lemma SatWithoutDuration(P: Problem, g: Goal, numericOk: bool, s: State, d: real)
    requires WfGoal(P, g, false, numericOk)
    ensures Sat(g, s, d) <==> Sat(g, s, 0.0)
  {
    match g
    case Compare(_, lhs, rhs) =>
      DurationUnused(P, lhs, s.vals, d, 0.0);
      DurationUnused(P, rhs, s.vals, d, 0.0);
    case _ =>
  }

  // ----- Effects -----

  predicate EffectsShow(e: Effects, s: State) {
    (forall l | l in e.adds :: l in s.lits) && (forall l | l in e.dels :: l !in s.lits)
  }

  lemma LitEffectsShow(P: Problem, m: Model, e: Effects, trigger: BoolVar, h: nat, b: nat, durationOk: bool)
    requires WfEffects(P, e, durationOk)
    ensures Holds(m, LitEffects(e.adds, false, Bool(trigger), h, b)) && Holds(m, LitEffects(e.dels, true, Bool(trigger), h, b)) <==>
            (m.b(trigger) ==> EffectsShow(e, StateAt(P, m, h, b)))
  {
    LitEffectsHold(m, e.adds, false, Bool(trigger), h, b);
    LitEffectsHold(m, e.dels, true, Bool(trigger), h, b);
    EvalLiteral(m, trigger);
    var s := StateAt(P, m, h, b);
    assert forall l | l in e.adds :: l in s.lits <==> m.b(Lit(l, h, b));
    assert forall l | l in e.dels :: l in s.lits <==> m.b(Lit(l, h, b));
  }

  lemma AssignEffectMeans(P: Problem, C: Cascade, m: Model, a: Assignment, trigger: BoolVar, op: nat, h: nat, durationOk: bool)
    requires a.fn < P.fns && WfExpr(P, a.rhs, durationOk) && NoMinus(a.rhs)
    ensures Eval(AssignEffect(C, a, Bool(trigger), op, h), m) <==>
            (m.b(trigger) ==>
               AssignHolds(a, StateAt(P, m, h, C - 2).vals, StateAt(P, m, h, C - 1).vals, m.r(Remaining(op, h))))
  {
    EvalLiteral(m, trigger);
    TermMeans(P, m, a.rhs, op, h, C - 2, durationOk);
    var e := TermOf(a.rhs, op, h, C - 2);
    var after, before := Var(Value(a.fn, h, C - 1)), Var(Value(a.fn, h, C - 2));
    assert ValueOf(after, m) == StateAt(P, m, h, C - 1).vals[a.fn];
    assert ValueOf(before, m) == StateAt(P, m, h, C - 2).vals[a.fn];
    assert ValueOf(Sum(e, before), m) == ValueOf(e, m) + ValueOf(before, m);
    assert ValueOf(Diff(before, e), m) == ValueOf(before, m) - ValueOf(e, m);
    assert ValueOf(Prod(e, before), m) == ValueOf(e, m) * ValueOf(before, m);
  }

  lemma {:induction false} AssignEffectsMean(P: Problem, C: Cascade, m: Model, assigns: seq<Assignment>, trigger: BoolVar, op: nat, h: nat, durationOk: bool)
    requires forall a | a in assigns :: a.fn < P.fns && WfExpr(P, a.rhs, durationOk) && NoMinus(a.rhs)
    ensures Holds(m, AssignEffects(C, assigns, Bool(trigger), op, h)) <==>
            (m.b(trigger) ==>
               AssignsHold(assigns, StateAt(P, m, h, C - 2).vals, StateAt(P, m, h, C - 1).vals, m.r(Remaining(op, h))))
  {
    if assigns != [] {
      var last := assigns[|assigns| - 1];
      var rest := assigns[..|assigns| - 1];
      AssignEffectsMean(P, C, m, rest, trigger, op, h, durationOk);
      AssignEffectMeans(P, C, m, last, trigger, op, h, durationOk);
      HoldsConcat(m, AssignEffects(C, rest, Bool(trigger), op, h), [AssignEffect(C, last, Bool(trigger), op, h)]);
      HoldsOne(m, AssignEffect(C, last, Bool(trigger), op, h));
      assert forall a :: a in assigns <==> a in rest || a == last;
    }
  }

  lemma ActionEffectsMean(P: Problem, C: Cascade, m: Model, e: Effects, trigger: BoolVar, op: nat, h: nat, durationOk: bool)
    requires WfEffects(P, e, durationOk) && FaithfulAssigns(e.assigns)
    ensures Holds(m, ActionEffects(C, e, trigger, op, h)) <==>
            (m.b(trigger) ==>
               && EffectsShow(e, StateAt(P, m, h, C - 1))
               && AssignsHold(e.assigns, StateAt(P, m, h, C - 2).vals, StateAt(P, m, h, C - 1).vals, m.r(Remaining(op, h))))
  {
    var adds := LitEffects(e.adds, false, Bool(trigger), h, C - 1);
    var dels := LitEffects(e.dels, true, Bool(trigger), h, C - 1);
    HoldsConcat(m, adds + dels, AssignEffects(C, e.assigns, Bool(trigger), op, h));
    HoldsConcat(m, adds, dels);
    LitEffectsShow(P, m, e, trigger, h, C - 1, durationOk);
    AssignEffectsMean(P, C, m, e.assigns, trigger, op, h, durationOk);
  }

  // ----- Actions -----

  /** None of the first seen operators that threaten i's start conditions starts with it. */
  ghost predicate Unthreatened(P: Problem, m: Model, i: nat, h: nat, seen: nat, atoms: seq<Atom>) {
    forall j | 0 <= j < seen && j != i && Threatens(P, j, atoms) :: !m.b(Start(j, h))
  }

  ghost predicate DurativeStart(P: Problem, C: Cascade, m: Model, i: nat, h: nat, seen: nat)
    requires IsDurative(P, i)
  {
    var o, d := P.ops[i], m.r(Remaining(i, h));
    var s, t := StateAt(P, m, h, C - 2), StateAt(P, m, h, C - 1);
    && Sat(o.duration, s, d) && Sat(o.atStart, s, d)
    && EffectsShow(o.start, t) && AssignsHold(o.start.assigns, s.vals, t.vals, d)
    && Unthreatened(P, m, i, h, seen, Atoms(o.atStart))
  }

  ghost predicate DurativeEnd(P: Problem, C: Cascade, m: Model, i: nat, h: nat)
    requires IsDurative(P, i)
  {
    var o, d := P.ops[i], m.r(Remaining(i, h));
    var s, t := StateAt(P, m, h, C - 2), StateAt(P, m, h, C - 1);
    && Sat(o.atEnd, s, d)
    && EffectsShow(o.end, t) && AssignsHold(o.end.assigns, s.vals, t.vals, d)
    && forall a | a in Atoms(o.overAll) && a.CompAtom? :: AtomSat(a, s, d)
  }

  ghost predicate DurativeClause(P: Problem, C: Cascade, m: Model, i: nat, h: nat, seen: nat)
    requires IsDurative(P, i)
  {
    && (m.b(Start(i, h)) ==> DurativeStart(P, C, m, i, h, seen))
    && (m.b(End(i, h)) ==> DurativeEnd(P, C, m, i, h))
    && (m.b(Running(i, h)) ==> Sat(P.ops[i].overAll, StateAt(P, m, h, C - 2), m.r(Remaining(i, h))))
  }

  lemma OverAllComparisons(P: Problem, C: Cascade, m: Model, i: nat, h: nat)
    requires FaithfulProblem(P) && IsDurative(P, i)
    ensures
      var atoms := Atoms(P.ops[i].overAll);
      (forall a | a in atoms && a.CompAtom? :: Eval(AtomFormula(a, i, h, C - 2), m)) <==>
      (forall a | a in atoms && a.CompAtom? :: AtomSat(a, StateAt(P, m, h, C - 2), m.r(Remaining(i, h))))
  {
    var g := P.ops[i].overAll;
    assert FaithfulOp(P.ops[i]) && WfOp(P, P.ops[i]);
    FlattenWellFormed(P, g, false, true, true);
    FlattenMeans(g, false, StateAt(P, m, h, C - 2), m.r(Remaining(i, h)));
    forall a | a in Atoms(g) && a.CompAtom?
      ensures Eval(AtomFormula(a, i, h, C - 2), m) <==> AtomSat(a, StateAt(P, m, h, C - 2), m.r(Remaining(i, h)))
    {
      AtomMeans(P, m, a, i, h, C - 2, true);
    }
  }

  /** The conditions of a durative action, as the three visits and the duration visit assert them. */
  lemma DurativeConditionsMean(P: Problem, C: Cascade, m: Model, i: nat, h: nat, seen: nat)
    requires FaithfulProblem(P) && IsDurative(P, i) && seen <= |P.ops|
    ensures
      var o, s, d := P.ops[i], StateAt(P, m, h, C - 2), m.r(Remaining(i, h));
      var ctx := Context(ConditionMode, i, h, C - 2, AtStart, seen);
      && (Holds(m, EmitAll(P, C, ctx.(mode := DurationMode), Atoms(o.duration)).asserted) <==>
          (m.b(Start(i, h)) ==> Sat(o.duration, s, d)))
      && (Holds(m, EmitAll(P, C, ctx, Atoms(o.atStart)).asserted) <==>
          (m.b(Start(i, h)) ==> Sat(o.atStart, s, d) && Unthreatened(P, m, i, h, seen, Atoms(o.atStart))))
      && (Holds(m, EmitAll(P, C, ctx.(time := OverAll), Atoms(o.overAll)).asserted) <==>
          && (m.b(Running(i, h)) ==> Sat(o.overAll, s, d))
          && (m.b(End(i, h)) ==> forall a | a in Atoms(o.overAll) && a.CompAtom? :: AtomSat(a, s, d)))
      && (Holds(m, EmitAll(P, C, ctx.(time := AtEnd), Atoms(o.atEnd)).asserted) <==>
          (m.b(End(i, h)) ==> Sat(o.atEnd, s, d)))
  {
    var o := P.ops[i];
    var ctx := Context(ConditionMode, i, h, C - 2, AtStart, seen);
    assert FaithfulOp(o) && WfOp(P, o);
    DurationMeans(P, C, m, ctx.(mode := DurationMode), Atoms(o.duration));
    GoalMeans(P, m, o.duration, i, h, C - 2, true, true);
    StartConditionsMean(P, C, m, ctx, Atoms(o.atStart));
    GoalMeans(P, m, o.atStart, i, h, C - 2, true, true);
    OverAllMean(P, C, m, ctx.(time := OverAll), Atoms(o.overAll));
    GoalMeans(P, m, o.overAll, i, h, C - 2, true, true);
    OverAllComparisons(P, C, m, i, h);
    EndConditionsMean(P, C, m, ctx.(time := AtEnd), Atoms(o.atEnd));
    GoalMeans(P, m, o.atEnd, i, h, C - 2, true, true);
  }

  lemma DurativeBodyMeans(P: Problem, C: Cascade, m: Model, i: nat, h: nat, seen: nat)
    requires FaithfulProblem(P) && IsDurative(P, i) && seen <= |P.ops|
    ensures Holds(m, DurativeBody(P, C, i, h, seen)) <==> DurativeClause(P, C, m, i, h, seen)
  {
    var o := P.ops[i];
    var ctx := Context(ConditionMode, i, h, C - 2, AtStart, seen);
    var c1 := EmitAll(P, C, ctx.(mode := DurationMode), Atoms(o.duration)).asserted;
    var c2 := ActionEffects(C, o.start, Start(i, h), i, h);
    var c3 := ActionEffects(C, o.end, End(i, h), i, h);
    var c4 := EmitAll(P, C, ctx, Atoms(o.atStart)).asserted;
    var c5 := EmitAll(P, C, ctx.(time := OverAll), Atoms(o.overAll)).asserted;
    var c6 := EmitAll(P, C, ctx.(time := AtEnd), Atoms(o.atEnd)).asserted;
    assert DurativeBody(P, C, i, h, seen) == c1 + c2 + c3 + c4 + c5 + c6;
    HoldsConcat(m, c1 + c2 + c3 + c4 + c5, c6);
    HoldsConcat(m, c1 + c2 + c3 + c4, c5);
    HoldsConcat(m, c1 + c2 + c3, c4);
    HoldsConcat(m, c1 + c2, c3);
    HoldsConcat(m, c1, c2);
    DurativeConditionsMean(P, C, m, i, h, seen);
    assert FaithfulOp(o) && WfOp(P, o);
    ActionEffectsMean(P, C, m, o.start, Start(i, h), i, h, true);
    ActionEffectsMean(P, C, m, o.end, End(i, h), i, h, true);
  }

  ghost predicate InstantStart(P: Problem, C: Cascade, m: Model, i: nat, h: nat, seen: nat)
    requires i < |P.ops| && P.ops[i].Instant?
  {
    var o, d := P.ops[i], m.r(Remaining(i, h));
    var s, t := StateAt(P, m, h, C - 2), StateAt(P, m, h, C - 1);
    && Sat(o.pre, s, d)
    && EffectsShow(o.eff, t) && AssignsHold(o.eff.assigns, s.vals, t.vals, d)
    && Unthreatened(P, m, i, h, seen, Atoms(o.pre))
  }

  lemma InstantConditionsMean(P: Problem, C: Cascade, m: Model, i: nat, h: nat, seen: nat)
    requires FaithfulProblem(P) && i < |P.ops| && P.ops[i].Instant? && seen <= |P.ops|
    ensures
      var ctx := Context(InstantConditionMode, i, h, C - 2, AtStart, seen);
      Holds(m, EmitAll(P, C, ctx, Atoms(P.ops[i].pre)).asserted) <==>
      (m.b(Start(i, h)) ==>
         && Sat(P.ops[i].pre, StateAt(P, m, h, C - 2), m.r(Remaining(i, h)))
         && Unthreatened(P, m, i, h, seen, Atoms(P.ops[i].pre)))
  {
    var o := P.ops[i];
    var ctx := Context(InstantConditionMode, i, h, C - 2, AtStart, seen);
    assert FaithfulOp(o) && WfOp(P, o);
    StartConditionsMean(P, C, m, ctx, Atoms(o.pre));
    GoalMeans(P, m, o.pre, i, h, C - 2, false, false);
  }

  lemma InstantBodyMeans(P: Problem, C: Cascade, m: Model, i: nat, h: nat, seen: nat)
    requires FaithfulProblem(P) && i < |P.ops| && P.ops[i].Instant? && seen <= |P.ops|
    ensures Holds(m, InstantBody(P, C, i, h, seen)) <==> (m.b(Start(i, h)) ==> InstantStart(P, C, m, i, h, seen))
  {
    var eff := P.ops[i].eff;
    var ctx := Context(InstantConditionMode, i, h, C - 2, AtStart, seen);
    assert FaithfulOp(P.ops[i]) && WfOp(P, P.ops[i]);
    HoldsConcat(m, ActionEffects(C, eff, Start(i, h), i, h), EmitAll(P, C, ctx, Atoms(P.ops[i].pre)).asserted);
    ActionEffectsMean(P, C, m, eff, Start(i, h), i, h, false);
    InstantConditionsMean(P, C, m, i, h, seen);
  }
}
