/** The sparse encoding refines the dense one: what satisfies the constraints of the fluent
    encoder, read happening by happening, satisfies those of the happening encoder. */
module FluentRefinement {
  import opened Smt
  import opened Pddl
  import opened HappeningSpec
  import opened Semantics
  import opened Decoding
  import opened BlockMeaning
  import opened LayerMeaning
  import opened FrameMeaning
  import opened FlowMeaning
  import opened EncodeMeaning
  import opened Soundness
  import opened FluentSpec
  import opened FluentMeaning

  /** The same model, with every literal at every happening read from the slots: as a slot opens
      it, and in the last layer as actions leave it. */
  ghost function Timeline(C: Cascade, m: Model): (d: Model)
    ensures d.r == m.r
    ensures forall l: nat, h: nat, b: nat :: d.b(Lit(l, h, b)) <==> ValueAt(m, l, h, if b < C - 1 then 0 else 1)
    ensures forall v: BoolVar | !v.Lit? :: d.b(v) == m.b(v)
  {
    Model((v: BoolVar) => if v.Lit? then ValueAt(m, v.lit, v.h, if v.b < C - 1 then 0 else 1) else m.b(v), m.r)
  }

  /** The last layer of every slot is layer 1. */
  ghost predicate Settled(C: Cascade, m: Model, lit: nat) {
    forall k | 0 <= k < LiteralBound :: m.b(SlotLit(lit, k, C - 1)) <==> m.b(SlotLit(lit, k, 1))
  }

  ghost predicate AllRead(P: Problem, C: Cascade, m: Model, H: nat)
    requires H > 0
  {
    && TimesOrdered(m, H) && TimeOf(m, 0) == 0.0
    && forall l | 0 <= l < P.lits :: SlotsRead(P, m, l, H) && SlotAt(m, l, 0) == 0.0 && Settled(C, m, l)
  }

  // ----- Formulas about other variables -----

  lemma SameValue(t: Term, C: Cascade, m: Model)
    ensures ValueOf(t, Timeline(C, m)) == ValueOf(t, m)
  {
  }

  ghost predicate Unaffected(C: Cascade, m: Model, f: Formula) {
    Eval(f, m) <==> Eval(f, Timeline(C, m))
  }

  lemma ComparisonUnaffected(C: Cascade, m: Model, x: BoolVar, op: CompOp, l: Term, r: Term)
    requires !x.Lit?
    ensures Unaffected(C, m, Implies(Bool(x), CompareTerms(op, l, r)))
    ensures Unaffected(C, m, Bool(x))
  {
    CompareTermsMeans(m, op, l, r);
    CompareTermsMeans(Timeline(C, m), op, l, r);
    SameValue(l, C, m);
    SameValue(r, C, m);
    EvalLiteral(m, x);
    EvalLiteral(Timeline(C, m), x);
  }

  lemma AllUnaffected(C: Cascade, m: Model, fs: seq<Formula>)
    requires forall f | f in fs :: Unaffected(C, m, f)
    ensures Holds(m, fs) <==> Holds(Timeline(C, m), fs)
  {
  }

  lemma {:induction false} MutexUnaffected(C: Cascade, m: Model, users: seq<nat>, op: nat, h: nat)
    ensures Holds(m, MutexClauses(users, op, h)) <==> Holds(Timeline(C, m), MutexClauses(users, op, h))
  {
    MutexClausesHold(m, users, op, h);
    MutexClausesHold(Timeline(C, m), users, op, h);
  }

  /** Without functions the layer of an expression does not matter. */
  lemma TermWithoutFluent(P: Problem, e: Expr, i: nat, h: nat, b: nat, b': nat)
    requires P.fns == 0 && WfExpr(P, e, true)
    ensures TermOf(e, i, h, b) == TermOf(e, i, h, b')
  {
  }

  // ----- Conditions -----

  lemma {:induction false} EmitAllSlotsHolds(P: Problem, C: Cascade, m: Model, ctx: Context, atoms: seq<Atom>)
    requires ctx.seen <= |P.ops|
    ensures Holds(m, EmitAllSlots(P, C, ctx, atoms).asserted) <==>
            forall a | a in atoms :: Holds(m, EmitSlots(P, C, ctx, a).asserted)
    ensures Holds(m, EmitAllSlots(P, C, ctx, atoms).goals) <==>
            forall a | a in atoms :: Holds(m, EmitSlots(P, C, ctx, a).goals)
  {
    if atoms != [] {
      var x, y := EmitSlots(P, C, ctx, atoms[0]), EmitAllSlots(P, C, ctx, atoms[1..]);
      EmitAllSlotsHolds(P, C, m, ctx, atoms[1..]);
      HoldsConcat(m, x.asserted, y.asserted);
      HoldsConcat(m, x.goals, y.goals);
      assert forall a :: a in atoms <==> a == atoms[0] || a in atoms[1..];
      assert EmitAllSlots(P, C, ctx, atoms) == Join(x, y);
    }
  }

  /** A guarded reading of the slots gives the guarded literal: layer 0 in the last layer but one,
      layer 1 in the last. */
  lemma GuardedRead(P: Problem, C: Cascade, m: Model, H: nat, guard: BoolVar, lit: nat, h: nat, b: nat, negated: bool)
    requires H > 0 && AllRead(P, C, m, H) && lit < P.lits && !guard.Lit? && b <= 1
    requires Eval(Implies(Bool(guard), ReadSlots(lit, h, b, negated)), m)
    ensures Eval(Implies(Bool(guard), Signed(negated, Lit(lit, h, C - 2 + b))), Timeline(C, m))
  {
    EvalLiteral(m, guard);
    EvalLiteral(Timeline(C, m), guard);
    EvalLiteral(Timeline(C, m), Lit(lit, h, C - 2 + b));
    if m.b(guard) {
      ReadIsValue(P, m, lit, H, h, b, negated);
    }
  }

  lemma GuardedReadHolds(P: Problem, C: Cascade, m: Model, H: nat, guard: BoolVar, lit: nat, h: nat, b: nat, negated: bool)
    requires H > 0 && AllRead(P, C, m, H) && lit < P.lits && !guard.Lit? && b <= 1
    requires Holds(m, [Implies(Bool(guard), ReadSlots(lit, h, b, negated))])
    ensures Holds(Timeline(C, m), [Implies(Bool(guard), Signed(negated, Lit(lit, h, C - 2 + b)))])
  {
    HoldsOne(m, Implies(Bool(guard), ReadSlots(lit, h, b, negated)));
    GuardedRead(P, C, m, H, guard, lit, h, b, negated);
    HoldsOne(Timeline(C, m), Implies(Bool(guard), Signed(negated, Lit(lit, h, C - 2 + b))));
  }

  lemma StartConditionRefines(P: Problem, C: Cascade, m: Model, H: nat, ctx: Context, negated: bool, lit: nat)
    requires H > 0 && AllRead(P, C, m, H) && lit < P.lits && ctx.seen <= |P.ops|
    requires Holds(m, SlotCondition(P, ctx, negated, lit))
    ensures Holds(Timeline(C, m), StartCondition(P, C, ctx, negated, lit))
  {
    var users := OpUsers(P, if negated then StartAdd else StartDel, lit, ctx.seen);
    HoldsConcat(m, [Implies(Bool(Start(ctx.op, ctx.h)), ReadSlots(lit, ctx.h, 0, negated))], MutexClauses(users, ctx.op, ctx.h));
    GuardedReadHolds(P, C, m, H, Start(ctx.op, ctx.h), lit, ctx.h, 0, negated);
    MutexUnaffected(C, m, users, ctx.op, ctx.h);
    HoldsConcat(Timeline(C, m), [Implies(Bool(Start(ctx.op, ctx.h)), Signed(negated, Lit(lit, ctx.h, C - 2)))],
                MutexClauses(users, ctx.op, ctx.h));
  }

  predicate ActionMode(mode: Mode) {
    mode == ConditionMode || mode == InstantConditionMode || mode == DurationMode
  }

  lemma LitAtomRefines(P: Problem, C: Cascade, m: Model, H: nat, ctx: Context, negated: bool, lit: nat)
    requires H > 0 && AllRead(P, C, m, H) && lit < P.lits && ctx.seen <= |P.ops| && ActionMode(ctx.mode)
    requires Holds(m, EmitSlotLit(P, C, ctx, negated, lit).asserted)
    ensures Holds(Timeline(C, m), EmitLit(P, C, ctx, negated, lit).asserted)
  {
    if ctx.mode == InstantConditionMode || (ctx.mode == ConditionMode && ctx.time == AtStart) {
      StartConditionRefines(P, C, m, H, ctx, negated, lit);
    } else if ctx.mode == ConditionMode {
      GuardedReadHolds(P, C, m, H, if ctx.time == AtEnd then End(ctx.op, ctx.h) else Running(ctx.op, ctx.h), lit, ctx.h, 0, negated);
    }
  }

  lemma SameComparison(P: Problem, ctx: Context, op: CompOp, lhs: Expr, rhs: Expr, b: nat)
    requires P.fns == 0 && WfExpr(P, lhs, true) && WfExpr(P, rhs, true)
    ensures EmitComparison(ctx, op, lhs, rhs) == EmitComparison(ctx.(b := b), op, lhs, rhs)
  {
    TermWithoutFluent(P, lhs, ctx.op, ctx.h, ctx.b, b);
    TermWithoutFluent(P, rhs, ctx.op, ctx.h, ctx.b, b);
  }

  lemma CompareUnaffected(C: Cascade, m: Model, ctx: Context, op: CompOp, l: Term, r: Term)
    requires ctx.mode != TriggerMode
    ensures
      var out := CompareOutput(ctx, CompareTerms(op, l, r), l, r);
      && (Holds(m, out.asserted) <==> Holds(Timeline(C, m), out.asserted))
      && (Holds(m, out.goals) <==> Holds(Timeline(C, m), out.goals))
  {
    ComparisonUnaffected(C, m, GoalFlag(CompareTerms(op, l, r)), op, l, r);
    ComparisonUnaffected(C, m, Start(ctx.op, ctx.h), op, l, r);
    ComparisonUnaffected(C, m, End(ctx.op, ctx.h), op, l, r);
    ComparisonUnaffected(C, m, Running(ctx.op, ctx.h), op, l, r);
    var out := CompareOutput(ctx, CompareTerms(op, l, r), l, r);
    AllUnaffected(C, m, out.asserted);
    AllUnaffected(C, m, out.goals);
  }

  lemma CompAtomRefines(P: Problem, C: Cascade, m: Model, ctx: Context, op: CompOp, lhs: Expr, rhs: Expr, b: nat)
    requires P.fns == 0 && WfExpr(P, lhs, true) && WfExpr(P, rhs, true) && ctx.mode != TriggerMode
    ensures EmitComparison(ctx, op, lhs, rhs) == EmitComparison(ctx.(b := b), op, lhs, rhs)
    ensures Holds(m, EmitComparison(ctx, op, lhs, rhs).asserted) <==> Holds(Timeline(C, m), EmitComparison(ctx, op, lhs, rhs).asserted)
    ensures Holds(m, EmitComparison(ctx, op, lhs, rhs).goals) <==> Holds(Timeline(C, m), EmitComparison(ctx, op, lhs, rhs).goals)
  {
    SameComparison(P, ctx, op, lhs, rhs, b);
    CompareUnaffected(C, m, ctx, op, TermOf(lhs, ctx.op, ctx.h, ctx.b), TermOf(rhs, ctx.op, ctx.h, ctx.b));
  }

  lemma WithDuration(P: Problem, e: Expr, durationOk: bool)
    requires WfExpr(P, e, durationOk)
    ensures WfExpr(P, e, true)
  {
  }

  lemma AtomRefines(P: Problem, C: Cascade, m: Model, H: nat, ctx: Context, a: Atom, durationOk: bool, numericOk: bool)
    requires H > 0 && AllRead(P, C, m, H) && P.fns == 0 && ctx.seen <= |P.ops| && ActionMode(ctx.mode)
    requires WfAtom(P, a, durationOk, numericOk) && Holds(m, EmitSlots(P, C, ctx.(b := 1), a).asserted)
    ensures Holds(Timeline(C, m), Emit(P, C, ctx.(b := C - 2), a).asserted)
  {
    match a
    case LitAtom(negated, lit) => LitAtomRefines(P, C, m, H, ctx.(b := 1), negated, lit);
    case CompAtom(op, lhs, rhs) =>
      WithDuration(P, lhs, durationOk);
      WithDuration(P, rhs, durationOk);
      CompAtomRefines(P, C, m, ctx.(b := 1), op, lhs, rhs, C - 2);
  }

  /** The conditions of an action: the fluent encoder visits them with layer 1, the other with
      the last but one; only comparisons look at it. */
  lemma ConditionsRefine(P: Problem, C: Cascade, m: Model, H: nat, ctx: Context, g: Goal, durationOk: bool, numericOk: bool)
    requires H > 0 && AllRead(P, C, m, H) && P.fns == 0 && ctx.seen <= |P.ops| && ActionMode(ctx.mode)
    requires WfGoal(P, g, durationOk, numericOk)
    requires Holds(m, EmitAllSlots(P, C, ctx.(b := 1), Atoms(g)).asserted)
    ensures Holds(Timeline(C, m), EmitAll(P, C, ctx.(b := C - 2), Atoms(g)).asserted)
  {
    var sparse, dense := ctx.(b := 1), ctx.(b := C - 2);
    FlattenWellFormed(P, g, false, durationOk, numericOk);
    EmitAllSlotsHolds(P, C, m, sparse, Atoms(g));
    forall a | a in Atoms(g)
      ensures Holds(Timeline(C, m), Emit(P, C, dense, a).asserted)
    {
      AtomRefines(P, C, m, H, ctx, a, durationOk, numericOk);
    }
    EmitAllHolds(P, C, Timeline(C, m), dense, Atoms(g));
  }

  // ----- Effects -----

  lemma {:induction false} EffectsRefine(P: Problem, C: Cascade, m: Model, H: nat, ids: seq<nat>, negated: bool, trigger: BoolVar, h: nat)
    requires H > 0 && AllRead(P, C, m, H) && !trigger.Lit? && forall l | l in ids :: l < P.lits
    requires Holds(m, SlotEffects(ids, negated, trigger, h))
    ensures Holds(Timeline(C, m), LitEffects(ids, negated, Bool(trigger), h, C - 1))
  {
    if ids != [] {
      var n := |ids| - 1;
      assert ids[n] in ids && forall l | l in ids[..n] :: l in ids;
      HoldsConcat(m, SlotEffects(ids[..n], negated, trigger, h), [Implies(Bool(trigger), ReadSlots(ids[n], h, 1, negated))]);
      EffectsRefine(P, C, m, H, ids[..n], negated, trigger, h);
      GuardedReadHolds(P, C, m, H, trigger, ids[n], h, 1, negated);
      HoldsConcat(Timeline(C, m), LitEffects(ids[..n], negated, Bool(trigger), h, C - 1),
                  [Implies(Bool(trigger), Signed(negated, Lit(ids[n], h, C - 1)))]);
    }
  }

  lemma FirstIsIn(assigns: seq<Assignment>)
    requires assigns != []
    ensures assigns[0] in assigns
  {
  }

  lemma NoAssignments(P: Problem, e: Effects, durationOk: bool)
    requires P.fns == 0 && WfEffects(P, e, durationOk)
    ensures e.assigns == []
  {
    if e.assigns != [] {
      FirstIsIn(e.assigns);
    }
  }

  lemma ActionEffectsRefine(P: Problem, C: Cascade, m: Model, H: nat, e: Effects, trigger: BoolVar, op: nat, h: nat, durationOk: bool)
    requires H > 0 && AllRead(P, C, m, H) && !trigger.Lit? && P.fns == 0 && WfEffects(P, e, durationOk)
    requires Holds(m, SlotActionEffects(e, trigger, h))
    ensures Holds(Timeline(C, m), ActionEffects(C, e, trigger, op, h))
  {
    NoAssignments(P, e, durationOk);
    HoldsConcat(m, SlotEffects(e.adds, false, trigger, h), SlotEffects(e.dels, true, trigger, h));
    EffectsRefine(P, C, m, H, e.adds, false, trigger, h);
    EffectsRefine(P, C, m, H, e.dels, true, trigger, h);
    var adds, dels := LitEffects(e.adds, false, Bool(trigger), h, C - 1), LitEffects(e.dels, true, Bool(trigger), h, C - 1);
    HoldsConcat(Timeline(C, m), adds, dels);
    assert ActionEffects(C, e, trigger, op, h) == adds + dels + [];
    assert adds + dels + [] == adds + dels;
  }

  // ----- Operators -----

  lemma HoldsSix(m: Model, a: seq<Formula>, b: seq<Formula>, c: seq<Formula>, d: seq<Formula>, e: seq<Formula>, f: seq<Formula>)
    ensures Holds(m, a + b + c + d + e + f) <==>
            Holds(m, a) && Holds(m, b) && Holds(m, c) && Holds(m, d) && Holds(m, e) && Holds(m, f)
  {
    HoldsConcat(m, a + b + c + d + e, f);
    HoldsConcat(m, a + b + c + d, e);
    HoldsConcat4(m, a, b, c, d);
  }

  /** One condition of an action, as its body asserts it. */
  lemma ActionCondition(P: Problem, C: Cascade, m: Model, H: nat, i: nat, h: nat, mode: Mode, time: TimeSpec, g: Goal, numericOk: bool)
    requires H > 0 && AllRead(P, C, m, H) && P.fns == 0 && i < |P.ops| && ActionMode(mode)
    requires WfGoal(P, g, numericOk, numericOk)
    requires Holds(m, EmitAllSlots(P, C, Context(mode, i, h, 1, time, i + 1), Atoms(g)).asserted)
    ensures Holds(Timeline(C, m), EmitAll(P, C, Context(mode, i, h, C - 2, time, i + 1), Atoms(g)).asserted)
  {
    ConditionsRefine(P, C, m, H, Context(mode, i, h, 1, time, i + 1), g, numericOk, numericOk);
  }

  /** The six parts of a durative action's body. */
  ghost predicate SlotDurativeParts(P: Problem, C: Cascade, m: Model, i: nat, h: nat)
    requires IsDurative(P, i)
  {
    var o := P.ops[i];
    && Holds(m, EmitAllSlots(P, C, Context(DurationMode, i, h, 1, AtStart, i + 1), Atoms(o.duration)).asserted)
    && Holds(m, SlotActionEffects(o.start, Start(i, h), h)) && Holds(m, SlotActionEffects(o.end, End(i, h), h))
    && Holds(m, EmitAllSlots(P, C, Context(ConditionMode, i, h, 1, AtStart, i + 1), Atoms(o.atStart)).asserted)
    && Holds(m, EmitAllSlots(P, C, Context(ConditionMode, i, h, 1, OverAll, i + 1), Atoms(o.overAll)).asserted)
    && Holds(m, EmitAllSlots(P, C, Context(ConditionMode, i, h, 1, AtEnd, i + 1), Atoms(o.atEnd)).asserted)
  }

  lemma SlotDurativeSplits(P: Problem, C: Cascade, m: Model, i: nat, h: nat)
    requires IsDurative(P, i)
    ensures Holds(m, SlotDurative(P, C, i, h)) <==> SlotDurativeParts(P, C, m, i, h)
  {
    var o := P.ops[i];
    HoldsSix(m, EmitAllSlots(P, C, Context(DurationMode, i, h, 1, AtStart, i + 1), Atoms(o.duration)).asserted,
             SlotActionEffects(o.start, Start(i, h), h), SlotActionEffects(o.end, End(i, h), h),
             EmitAllSlots(P, C, Context(ConditionMode, i, h, 1, AtStart, i + 1), Atoms(o.atStart)).asserted,
             EmitAllSlots(P, C, Context(ConditionMode, i, h, 1, OverAll, i + 1), Atoms(o.overAll)).asserted,
             EmitAllSlots(P, C, Context(ConditionMode, i, h, 1, AtEnd, i + 1), Atoms(o.atEnd)).asserted);
  }

  ghost predicate DurativeParts(P: Problem, C: Cascade, d: Model, i: nat, h: nat)
    requires IsDurative(P, i)
  {
    var o := P.ops[i];
    && Holds(d, EmitAll(P, C, Context(DurationMode, i, h, C - 2, AtStart, i + 1), Atoms(o.duration)).asserted)
    && Holds(d, ActionEffects(C, o.start, Start(i, h), i, h)) && Holds(d, ActionEffects(C, o.end, End(i, h), i, h))
    && Holds(d, EmitAll(P, C, Context(ConditionMode, i, h, C - 2, AtStart, i + 1), Atoms(o.atStart)).asserted)
    && Holds(d, EmitAll(P, C, Context(ConditionMode, i, h, C - 2, OverAll, i + 1), Atoms(o.overAll)).asserted)
    && Holds(d, EmitAll(P, C, Context(ConditionMode, i, h, C - 2, AtEnd, i + 1), Atoms(o.atEnd)).asserted)
  }

  lemma DurativeSplits(P: Problem, C: Cascade, d: Model, i: nat, h: nat)
    requires IsDurative(P, i)
    ensures Holds(d, DurativeBody(P, C, i, h, i + 1)) <==> DurativeParts(P, C, d, i, h)
  {
    var o := P.ops[i];
    var layer: nat := C - 2;
    HoldsSix(d, EmitAll(P, C, Context(DurationMode, i, h, layer, AtStart, i + 1), Atoms(o.duration)).asserted,
             ActionEffects(C, o.start, Start(i, h), i, h), ActionEffects(C, o.end, End(i, h), i, h),
             EmitAll(P, C, Context(ConditionMode, i, h, layer, AtStart, i + 1), Atoms(o.atStart)).asserted,
             EmitAll(P, C, Context(ConditionMode, i, h, layer, OverAll, i + 1), Atoms(o.overAll)).asserted,
             EmitAll(P, C, Context(ConditionMode, i, h, layer, AtEnd, i + 1), Atoms(o.atEnd)).asserted);
  }

  lemma DurativeRefines(P: Problem, C: Cascade, m: Model, H: nat, i: nat, h: nat)
    requires H > 0 && AllRead(P, C, m, H) && WellFormed(P) && P.fns == 0 && IsDurative(P, i)
    requires Holds(m, SlotDurative(P, C, i, h))
    ensures Holds(Timeline(C, m), DurativeBody(P, C, i, h, i + 1))
  {
    var o := P.ops[i];
    assert WfOp(P, o);
    SlotDurativeSplits(P, C, m, i, h);
    ActionCondition(P, C, m, H, i, h, DurationMode, AtStart, o.duration, true);
    ActionEffectsRefine(P, C, m, H, o.start, Start(i, h), i, h, true);
    ActionEffectsRefine(P, C, m, H, o.end, End(i, h), i, h, true);
    ActionCondition(P, C, m, H, i, h, ConditionMode, AtStart, o.atStart, true);
    ActionCondition(P, C, m, H, i, h, ConditionMode, OverAll, o.overAll, true);
    ActionCondition(P, C, m, H, i, h, ConditionMode, AtEnd, o.atEnd, true);
    DurativeSplits(P, C, Timeline(C, m), i, h);
  }

  lemma InstantRefines(P: Problem, C: Cascade, m: Model, H: nat, i: nat, h: nat)
    requires H > 0 && AllRead(P, C, m, H) && WellFormed(P) && P.fns == 0 && i < |P.ops| && P.ops[i].Instant?
    requires Holds(m, SlotInstant(P, C, i, h))
    ensures Holds(Timeline(C, m), InstantBody(P, C, i, h, i + 1))
  {
    var o := P.ops[i];
    assert WfOp(P, o);
    var ctx := Context(InstantConditionMode, i, h, 1, AtStart, i + 1);
    HoldsConcat(m, SlotActionEffects(o.eff, Start(i, h), h), EmitAllSlots(P, C, ctx, Atoms(o.pre)).asserted);
    ActionEffectsRefine(P, C, m, H, o.eff, Start(i, h), i, h, false);
    ActionCondition(P, C, m, H, i, h, InstantConditionMode, AtStart, o.pre, false);
    HoldsConcat(Timeline(C, m), ActionEffects(C, o.eff, Start(i, h), i, h), EmitAll(P, C, ctx.(b := C - 2), Atoms(o.pre)).asserted);
  }

  lemma VariablesRefine(P: Problem, C: Cascade, m: Model, i: nat, h: nat)
    requires i < |P.ops| && Holds(m, OpVarsAt(P, i, h))
    ensures Holds(Timeline(C, m), OpVarsAt(P, i, h))
  {
    OpVarsMean(P, m, i, h);
    OpVarsMean(P, Timeline(C, m), i, h);
  }

  lemma TimingRefines(C: Cascade, m: Model, h: nat)
    requires Holds(m, TimingAt(h))
    ensures Holds(Timeline(C, m), TimingAt(h))
  {
    TimingMeans(m, h);
    TimingMeans(Timeline(C, m), h);
  }

  // ----- Literals -----

  lemma ActsThenTriggers(P: Problem, C: Cascade, m: Model, lit: nat, start: Role, end: Role, h: nat)
    requires ActsThen(P, m, lit, start, end, h)
    ensures Some(Timeline(C, m), Triggers(Users(P, start, lit), Starts(h)) + Triggers(Users(P, end, lit), Ends(h)))
  {
    var d := Timeline(C, m);
    AnyTrigger(d, Users(P, start, lit), Starts(h));
    AnyTrigger(d, Users(P, end, lit), Ends(h));
    AnyConcat(d, Triggers(Users(P, start, lit), Starts(h)), Triggers(Users(P, end, lit), Ends(h)));
    if i :| i in Users(P, start, lit) && m.b(Start(i, h)) {
      assert d.b(TriggerVar(Starts(h), i));
    } else {
      var i :| i in Users(P, end, lit) && m.b(End(i, h));
      assert d.b(TriggerVar(Ends(h), i));
    }
  }

  /** Someone in the effect lists acts at the happening. */
  ghost predicate Triggered(P: Problem, d: Model, lit: nat, start: Role, end: Role, h: nat) {
    Some(d, Triggers(Users(P, start, lit), Starts(h)) + Triggers(Users(P, end, lit), Ends(h)))
  }

  lemma ChangesTriggered(P: Problem, C: Cascade, m: Model, H: nat, l: nat, h: nat)
    requires h < H && AllRead(P, C, m, H) && l < P.lits
    ensures ValueAt(m, l, h, 1) ==> ValueAt(m, l, h, 0) || Triggered(P, Timeline(C, m), l, StartAdd, EndAdd, h)
    ensures !ValueAt(m, l, h, 1) ==> !ValueAt(m, l, h, 0) || Triggered(P, Timeline(C, m), l, StartDel, EndDel, h)
  {
    ValueChanges(P, m, l, H, h);
    if ActsThen(P, m, l, StartAdd, EndAdd, h) {
      ActsThenTriggers(P, C, m, l, StartAdd, EndAdd, h);
    }
    if ActsThen(P, m, l, StartDel, EndDel, h) {
      ActsThenTriggers(P, C, m, l, StartDel, EndDel, h);
    }
  }

  lemma AddsExplained(P: Problem, C: Cascade, d: Model, l: nat, h: nat, b: nat)
    requires 0 < b < C && (d.b(Lit(l, h, b - 1)) || (b == C - 1 && Triggered(P, d, l, StartAdd, EndAdd, h)))
    ensures Some(d, AddSupport(P, C, l, h, b))
  {
    var events := Some(d, Triggers(Users(P, EventAdd, l), Fires(h, b - 1)));
    var actions := Triggered(P, d, l, StartAdd, EndAdd, h);
    assert Some(d, AddSupport(P, C, l, h, b)) <==> d.b(Lit(l, h, b - 1)) || events || (b == C - 1 && actions) by {
      AddSupportSplits(P, C, d, l, h, b, events, actions);
    }
  }

  lemma DelsExplained(P: Problem, C: Cascade, d: Model, l: nat, h: nat, b: nat)
    requires 0 < b < C && (!d.b(Lit(l, h, b - 1)) || (b == C - 1 && Triggered(P, d, l, StartDel, EndDel, h)))
    ensures Some(d, DelSupport(P, C, l, h, b))
  {
    var events := Some(d, Triggers(Users(P, EventDel, l), Fires(h, b - 1)));
    var actions := Triggered(P, d, l, StartDel, EndDel, h);
    assert Some(d, DelSupport(P, C, l, h, b)) <==> !d.b(Lit(l, h, b - 1)) || events || (b == C - 1 && actions) by {
      DelSupportSplits(P, C, d, l, h, b, events, actions);
    }
  }

  lemma LayerRefines(P: Problem, C: Cascade, m: Model, H: nat, l: nat, h: nat, b: nat)
    requires h < H && AllRead(P, C, m, H) && l < P.lits && 0 < b < C
    ensures Holds(Timeline(C, m), LitLayer(P, C, l, h, b))
  {
    var d := Timeline(C, m);
    ChangesTriggered(P, C, m, H, l, h);
    if d.b(Lit(l, h, b)) {
      AddsExplained(P, C, d, l, h, b);
    } else {
      DelsExplained(P, C, d, l, h, b);
    }
    SupportPairMeans(d, Lit(l, h, b), AddSupport(P, C, l, h, b), DelSupport(P, C, l, h, b));
  }

  lemma BetweenRefines(P: Problem, C: Cascade, m: Model, H: nat, l: nat, h: nat)
    requires 0 < h < H && AllRead(P, C, m, H) && l < P.lits
    ensures Holds(Timeline(C, m), LitBetween(P, C, l, h))
  {
    var d, before := Timeline(C, m), Lit(l, h - 1, C - 1);
    ValueOpens(P, m, l, H, h);
    var adds, dels := Triggers(Users(P, TilAdd, l), TilFires(h)), Triggers(Users(P, TilDel, l), TilFires(h));
    SupportPairMeans(d, Lit(l, h, 0), [Bool(before)] + adds, [Not(Bool(before))] + dels);
    AnyConcat(d, [Bool(before)], adds);
    AnyConcat(d, [Not(Bool(before))], dels);
    AnyOne(d, Bool(before));
    AnyOne(d, Not(Bool(before)));
    EvalLiteral(d, before);
  }

  lemma LayersHold(P: Problem, C: Cascade, d: Model, l: nat, h: nat)
    requires forall b | 0 < b < C :: Holds(d, LitLayerOf(P, C, l, h)(b))
    requires h > 0 ==> Holds(d, LitBetween(P, C, l, h))
    ensures Holds(d, LitAt(P, C, l, h))
  {
    var layers := Block(LitLayerOf(P, C, l, h), 1, C);
    BlockHolds(d, LitLayerOf(P, C, l, h), 1, C);
    assert LitAt(P, C, l, h) == layers + (if h == 0 then [] else LitBetween(P, C, l, h));
    HoldsConcat(d, layers, if h == 0 then [] else LitBetween(P, C, l, h));
  }

  lemma LiteralRefines(P: Problem, C: Cascade, m: Model, H: nat, l: nat, h: nat)
    requires h < H && AllRead(P, C, m, H) && l < P.lits
    ensures Holds(Timeline(C, m), LitAt(P, C, l, h))
  {
    forall b | 0 < b < C
      ensures Holds(Timeline(C, m), LitLayerOf(P, C, l, h)(b))
    {
      LayerRefines(P, C, m, H, l, h, b);
    }
    if h > 0 {
      BetweenRefines(P, C, m, H, l, h);
    }
    LayersHold(P, C, Timeline(C, m), l, h);
  }

  // ----- Known states -----

  lemma InitialSlot(m: Model, l: nat, f: Formula)
    ensures Holds(m, [f, Eq(Var(SlotTime(l, 0)), Const(0.0))]) <==> Eval(f, m) && SlotAt(m, l, 0) == 0.0
  {
    HoldsTwo(m, f, Eq(Var(SlotTime(l, 0)), Const(0.0)));
  }

  lemma {:induction false} SlotAddedInitMeans(m: Model, init: seq<nat>)
    ensures Holds(m, SlotAddedInit(init)) <==> forall l | l in init :: m.b(SlotLit(l, 0, 0)) && SlotAt(m, l, 0) == 0.0
  {
    if init != [] {
      var last, rest := init[|init| - 1], init[..|init| - 1];
      SlotAddedInitMeans(m, rest);
      InitialSlot(m, last, Bool(SlotLit(last, 0, 0)));
      HoldsConcat(m, SlotAddedInit(rest), [Bool(SlotLit(last, 0, 0)), Eq(Var(SlotTime(last, 0)), Const(0.0))]);
      EvalLiteral(m, SlotLit(last, 0, 0));
      assert forall l :: l in init <==> l in rest || l == last;
    }
  }

  lemma {:induction false} SlotAbsentInitMeans(P: Problem, m: Model, n: nat)
    ensures Holds(m, SlotAbsentInit(P, n)) <==>
            forall l | 0 <= l < n && l !in P.init :: !m.b(SlotLit(l, 0, 0)) && SlotAt(m, l, 0) == 0.0
  {
    if n > 0 {
      var last := n - 1;
      SlotAbsentInitMeans(P, m, last);
      InitialSlot(m, last, Not(Bool(SlotLit(last, 0, 0))));
      EvalLiteral(m, SlotLit(last, 0, 0));
      var fs := if last in P.init then [] else [Not(Bool(SlotLit(last, 0, 0))), Eq(Var(SlotTime(last, 0)), Const(0.0))];
      HoldsConcat(m, SlotAbsentInit(P, last), fs);
    }
  }

  lemma SlotInitMeans(P: Problem, m: Model)
    requires Holds(m, SlotInit(P))
    ensures forall l | 0 <= l < P.lits :: SlotAt(m, l, 0) == 0.0 && (m.b(SlotLit(l, 0, 0)) <==> l in P.init)
  {
    HoldsConcat(m, SlotAddedInit(P.init), SlotAbsentInit(P, P.lits));
    SlotAddedInitMeans(m, P.init);
    SlotAbsentInitMeans(P, m, P.lits);
  }

  lemma InitRefines(P: Problem, C: Cascade, m: Model, H: nat)
    requires H > 0 && AllRead(P, C, m, H) && WellFormed(P) && P.initVals == [] && Holds(m, SlotInit(P))
    ensures Holds(Timeline(C, m), InitSpec(P))
  {
    var d := Timeline(C, m);
    SlotInitMeans(P, m);
    forall l | 0 <= l < P.lits
      ensures d.b(Lit(l, 0, 0)) <==> l in P.init
    {
      ValueAtStart(P, m, l, H);
    }
    InitMeans(P, d);
  }

  /** The last layer reads as layer 1. */
  lemma LastLayerReads(C: Cascade, m: Model, lit: nat, h: nat, negated: bool)
    requires SlotsOrdered(m, lit, LiteralBound) && Settled(C, m, lit)
    ensures Eval(ReadSlots(lit, h, C - 1, negated), m) <==> Eval(ReadSlots(lit, h, 1, negated), m)
  {
    var last: nat := C - 1;
    SlotIteMeans(m, lit, h, last, negated, LiteralBound);
    SlotIteMeans(m, lit, h, 1, negated, LiteralBound);
    if k: nat :| k < LiteralBound && SlotReads(m, lit, h, last, negated, k) {
      assert SlotReads(m, lit, h, 1, negated, k);
    }
    if k: nat :| k < LiteralBound && SlotReads(m, lit, h, 1, negated, k) {
      assert SlotReads(m, lit, h, last, negated, k);
    }
  }

  lemma GoalAtomRefines(P: Problem, C: Cascade, m: Model, H: nat, a: Atom)
    requires H > 0 && AllRead(P, C, m, H) && P.fns == 0 && WfAtom(P, a, false, true)
    ensures
      var ctx := Context(GoalMode, 0, H - 1, C - 1, AtStart, 0);
      && (Holds(m, EmitSlots(P, C, ctx, a).asserted) ==> Holds(Timeline(C, m), Emit(P, C, ctx, a).asserted))
      && (Holds(m, EmitSlots(P, C, ctx, a).goals) ==> Holds(Timeline(C, m), Emit(P, C, ctx, a).goals))
  {
    var ctx := Context(GoalMode, 0, H - 1, C - 1, AtStart, 0);
    match a
    case LitAtom(negated, lit) =>
      HoldsOne(m, ReadSlots(lit, H - 1, C - 1, negated));
      HoldsOne(Timeline(C, m), Signed(negated, Lit(lit, H - 1, C - 1)));
      EvalLiteral(Timeline(C, m), Lit(lit, H - 1, C - 1));
      LastLayerReads(C, m, lit, H - 1, negated);
      if Eval(ReadSlots(lit, H - 1, 1, negated), m) {
        ReadIsValue(P, m, lit, H, H - 1, 1, negated);
      }
    case CompAtom(op, lhs, rhs) =>
      WithDuration(P, lhs, false);
      WithDuration(P, rhs, false);
      CompAtomRefines(P, C, m, ctx, op, lhs, rhs, C - 1);
  }

  lemma GoalRefines(P: Problem, C: Cascade, m: Model, H: nat)
    requires H > 0 && AllRead(P, C, m, H) && WellFormed(P) && P.fns == 0
    ensures Holds(m, SlotGoal(P, C, H).asserted) ==> Holds(Timeline(C, m), GoalOutput(P, C, H).asserted)
    ensures Holds(m, SlotGoal(P, C, H).goals) ==> Holds(Timeline(C, m), GoalOutput(P, C, H).goals)
  {
    var ctx := Context(GoalMode, 0, H - 1, C - 1, AtStart, 0);
    FlattenWellFormed(P, P.goal, false, false, true);
    EmitAllSlotsHolds(P, C, m, ctx, Atoms(P.goal));
    EmitAllHolds(P, C, Timeline(C, m), ctx, Atoms(P.goal));
    forall a | a in Atoms(P.goal) {
      GoalAtomRefines(P, C, m, H, a);
    }
  }

  lemma NothingRunsRefines(P: Problem, C: Cascade, m: Model, H: nat)
    requires H > 0 && Holds(m, NothingRuns(P, |P.ops|, H))
    ensures Holds(Timeline(C, m), NothingRuns(P, |P.ops|, H))
  {
    NothingRunsMeans(P, m, |P.ops|, H);
    NothingRunsMeans(P, Timeline(C, m), |P.ops|, H);
  }

  // ----- The whole encoding -----

  /** The parts of the sparse encoding. */
  ghost predicate SparseParts(P: Problem, C: Cascade, m: Model, H: nat)
    requires H > 0
  {
    && (forall h | 0 <= h < H :: Holds(m, TimingAt(h)))
    && Holds(m, SlotInit(P)) && Holds(m, SlotGoal(P, C, H).asserted)
    && (forall i | 0 <= i < |P.ops| :: Holds(m, OpVarsLoop(P, H)(i)))
    && (forall i | 0 <= i < |P.ops| :: Holds(m, OpLoop(P, C, H)(i)))
    && (forall l | 0 <= l < P.lits :: Holds(m, LiteralLoop(P, C, H)(l)))
  }

  lemma FluentEncodingParts(P: Problem, C: Cascade, m: Model, H: nat)
    requires H > 0 && Holds(m, FluentEncoding(P, C, H))
    ensures SparseParts(P, C, m, H)
  {
    HoldsSix(m, Block(Timing(), 0, H), SlotInit(P), SlotGoal(P, C, H).asserted, Block(OpVarsLoop(P, H), 0, |P.ops|),
             Block(OpLoop(P, C, H), 0, |P.ops|), Block(LiteralLoop(P, C, H), 0, P.lits));
    BlockHolds(m, Timing(), 0, H);
    forall h | 0 <= h < H
      ensures Holds(m, TimingAt(h))
    {
      assert Holds(m, Timing()(h));
    }
    BlockHolds(m, OpVarsLoop(P, H), 0, |P.ops|);
    BlockHolds(m, OpLoop(P, C, H), 0, |P.ops|);
    BlockHolds(m, LiteralLoop(P, C, H), 0, P.lits);
  }

  lemma {:induction false} EffectIsRead(m: Model, ids: seq<nat>, negated: bool, trigger: BoolVar, h: nat, lit: nat)
    requires Holds(m, SlotEffects(ids, negated, trigger, h)) && m.b(trigger) && lit in ids
    ensures Eval(ReadSlots(lit, h, 1, negated), m)
  {
    var n := |ids| - 1;
    var last := Implies(Bool(trigger), ReadSlots(ids[n], h, 1, negated));
    HoldsConcat(m, SlotEffects(ids[..n], negated, trigger, h), [last]);
    HoldsOne(m, last);
    EvalLiteral(m, trigger);
    if ids[n] != lit {
      EffectIsRead(m, ids[..n], negated, trigger, h, lit);
    }
  }

  lemma ActionDeletionIsRead(m: Model, e: Effects, trigger: BoolVar, h: nat, lit: nat)
    requires Holds(m, SlotActionEffects(e, trigger, h)) && m.b(trigger) && lit in e.dels
    ensures Eval(ReadSlots(lit, h, 1, true), m)
  {
    HoldsConcat(m, SlotEffects(e.adds, false, trigger, h), SlotEffects(e.dels, true, trigger, h));
    EffectIsRead(m, e.dels, true, trigger, h, lit);
  }

  /** A deletion, at a start or at an end, is read in layer 1. */
  lemma DeletionIsRead(P: Problem, C: Cascade, m: Model, i: nat, h: nat, lit: nat, end: bool)
    requires i < |P.ops| && Holds(m, SlotOp(P, C, i)(h)) && m.b(StartOrEnd(end, i, h))
    requires (P.ops[i].Durative? || P.ops[i].Instant?) && lit in RoleOfOp(P.ops[i], if end then EndDel else StartDel)
    ensures Eval(ReadSlots(lit, h, 1, true), m)
  {
    match P.ops[i]
    case Durative(duration, atStart, overAll, atEnd, starting, ending) =>
      var ctx := Context(ConditionMode, i, h, 1, AtStart, i + 1);
      HoldsSix(m, EmitAllSlots(P, C, ctx.(mode := DurationMode), Atoms(duration)).asserted,
               SlotActionEffects(starting, Start(i, h), h), SlotActionEffects(ending, End(i, h), h),
               EmitAllSlots(P, C, ctx, Atoms(atStart)).asserted,
               EmitAllSlots(P, C, ctx.(time := OverAll), Atoms(overAll)).asserted,
               EmitAllSlots(P, C, ctx.(time := AtEnd), Atoms(atEnd)).asserted);
      ActionDeletionIsRead(m, if end then ending else starting, StartOrEnd(end, i, h), h, lit);
    case Instant(pre, eff) =>
      HoldsConcat(m, SlotActionEffects(eff, Start(i, h), h),
                  EmitAllSlots(P, C, Context(InstantConditionMode, i, h, 1, AtStart, i + 1), Atoms(pre)).asserted);
      ActionDeletionIsRead(m, eff, Start(i, h), h, lit);
  }

  lemma OneSlotAt(m: Model, lit: nat, j: nat, k: nat)
    requires SlotsOrdered(m, lit, LiteralBound) && j < LiteralBound && k < LiteralBound
    requires SlotAt(m, lit, j) == SlotAt(m, lit, k)
    ensures j == k
  {
  }

  lemma EnabledDeletionShows(P: Problem, C: Cascade, m: Model, H: nat, lit: nat, slot: nat, end: bool)
    requires H > 0 && SparseParts(P, C, m, H) && Propositional(P) && SlotsOrdered(m, lit, LiteralBound) && slot < LiteralBound
    requires Enabled(m, lit, slot, end, Users(P, if end then EndDel else StartDel, lit), H)
    ensures !m.b(SlotLit(lit, slot, 1))
  {
    var role := if end then EndDel else StartDel;
    var who, g: nat :| who in Users(P, role, lit) && g < H && ActsAt(m, lit, slot, end, who, g);
    OpUsersMember(P, role, lit, |P.ops|, who);
    assert P.ops[who] in P.ops && Holds(m, OpLoop(P, C, H)(who));
    BlockHolds(m, SlotOp(P, C, who), 0, H);
    assert Holds(m, SlotOp(P, C, who)(g));
    DeletionIsRead(P, C, m, who, g, lit, end);
    SlotIteMeans(m, lit, g, 1, true, LiteralBound);
    var k: nat :| k < LiteralBound && SlotReads(m, lit, g, 1, true, k);
    OneSlotAt(m, lit, k, slot);
  }

  lemma DeletionsAreShown(P: Problem, C: Cascade, m: Model, H: nat, lit: nat)
    requires H > 0 && SparseParts(P, C, m, H) && Propositional(P) && SlotsOrdered(m, lit, LiteralBound)
    ensures DeletionsShow(P, m, lit, H)
  {
    forall k | 0 <= k < LiteralBound && Acted(P, m, lit, k, StartDel, EndDel, H)
      ensures !m.b(SlotLit(lit, k, 1))
    {
      EnabledDeletionShows(P, C, m, H, lit, k, !Enabled(m, lit, k, false, Users(P, StartDel, lit), H));
    }
  }

  lemma PartsOrderTimes(P: Problem, C: Cascade, m: Model, H: nat)
    requires H > 0 && SparseParts(P, C, m, H)
    ensures TimesOrdered(m, H) && TimeOf(m, 0) == 0.0
  {
    TimingMeans(m, 0);
    forall h | 0 < h < H
      ensures TimeOf(m, h - 1) < TimeOf(m, h)
    {
      TimingMeans(m, h);
    }
    TimesAreOrdered(m, H);
  }

  lemma PartsRead(P: Problem, C: Cascade, m: Model, H: nat)
    requires H > 0 && SparseParts(P, C, m, H) && Propositional(P)
    ensures AllRead(P, C, m, H)
  {
    PartsOrderTimes(P, C, m, H);
    SlotInitMeans(P, m);
    forall l | 0 <= l < P.lits
      ensures SlotsRead(P, m, l, H) && Settled(C, m, l)
    {
      assert Holds(m, LiteralLoop(P, C, H)(l));
      LiteralSlotsMean(P, C, m, l, H);
      SlotsHoldOrdered(P, C, m, l, H);
      DeletionsAreShown(P, C, m, H, l);
      SlotsAreRead(P, C, m, l, H);
    }
  }

  lemma OpRefines(P: Problem, C: Cascade, m: Model, H: nat, i: nat, h: nat)
    requires h < H && AllRead(P, C, m, H) && WellFormed(P) && Propositional(P) && i < |P.ops|
    requires Holds(m, OpLoop(P, C, H)(i))
    ensures Holds(Timeline(C, m), OpBodyAt(P, C, i, h, true))
  {
    assert P.ops[i] in P.ops;
    BlockHolds(m, SlotOp(P, C, i), 0, H);
    assert Holds(m, SlotOp(P, C, i)(h));
    if P.ops[i].Durative? {
      DurativeRefines(P, C, m, H, i, h);
    } else {
      InstantRefines(P, C, m, H, i, h);
    }
  }

  lemma BodiesRefine(P: Problem, C: Cascade, m: Model, H: nat, h: nat)
    requires h < H && SparseParts(P, C, m, H) && AllRead(P, C, m, H) && WellFormed(P) && Propositional(P)
    ensures BodiesHold(P, C, Timeline(C, m), h, true)
  {
    forall loop: Loop | InProblem(P, loop)
      ensures Holds(Timeline(C, m), BodyOf(P, C, loop, true)(h))
    {
      match loop
      case Timings => TimingRefines(C, m, h);
      case OpVars(i) =>
        assert Holds(m, OpVarsLoop(P, H)(i));
        BlockHolds(m, OpVariables(P, i), 0, H);
        assert Holds(m, OpVariables(P, i)(h));
        VariablesRefine(P, C, m, i, h);
      case OpBody(i) => OpRefines(P, C, m, H, i, h);
      case LitSupport(l) => LiteralRefines(P, C, m, H, l, h);
      case _ => assert false;
    }
  }

  /** Sparse refines dense: a model of the fluent encoding, with its literals read from the slots,
      is a model of the happening encoding, goals included. */
  lemma SparseRefinesDense(P: Problem, C: Cascade, m: Model, H: nat)
    requires WellFormed(P) && Propositional(P) && H > 0
    requires Holds(m, FluentEncoding(P, C, H))
    ensures Holds(Timeline(C, m), EncodeSpec(P, C, 0, H))
    ensures Holds(m, FluentGoal(P, C, H)) ==> Holds(Timeline(C, m), GoalSpec(P, C, H))
  {
    var d := Timeline(C, m);
    FluentEncodingParts(P, C, m, H);
    PartsRead(P, C, m, H);
    forall h | 0 <= h < H
      ensures BodiesHold(P, C, d, h, true)
    {
      BodiesRefine(P, C, m, H, h);
    }
    InitRefines(P, C, m, H);
    GoalRefines(P, C, m, H);
    EncodeHolds(P, C, d, 0, H, true);
    HoldsConcat(m, SlotGoal(P, C, H).goals, NothingRuns(P, |P.ops|, H));
    HoldsConcat(d, GoalOutput(P, C, H).goals, NothingRuns(P, |P.ops|, H));
    if Holds(m, NothingRuns(P, |P.ops|, H)) {
      NothingRunsRefines(P, C, m, H);
    }
  }

  /** So whatever the fluent encoder finds is a plan. */
  lemma SparseFindsPlans(P: Problem, C: Cascade, m: Model, H: nat)
    requires FaithfulProblem(P) && Propositional(P) && H > 0
    requires Holds(m, FluentEncoding(P, C, H)) && Holds(m, FluentGoal(P, C, H))
    ensures Legal(P, C, Decode(P, C, Timeline(C, m), H)) && Reaches(P, C, Decode(P, C, Timeline(C, m), H))
  {
    SparseRefinesDense(P, C, m, H);
    EncodingSound(P, C, Timeline(C, m), H);
  }

  // ----- Longer cascades -----

  lemma KeptReads(m: Model, lit: nat, h: nat)
    requires SlotsOrdered(m, lit, LiteralBound)
    requires forall k | 0 <= k < LiteralBound :: m.b(SlotLit(lit, k, 0)) ==> m.b(SlotLit(lit, k, 1))
    requires Eval(ReadSlots(lit, h, 1, true), m)
    ensures !Eval(ReadSlots(lit, h, 0, false), m)
  {
    SlotIteMeans(m, lit, h, 1, true, LiteralBound);
    SlotIteMeans(m, lit, h, 0, false, LiteralBound);
    var k: nat :| k < LiteralBound && SlotReads(m, lit, h, 1, true, k);
    forall j: nat | j < LiteralBound && SlotAt(m, lit, j) == TimeOf(m, h)
      ensures j == k
    {
    }
  }

  lemma LaterDeletionIsRead(P: Problem, C: Cascade, m: Model, H: nat, i: nat, h: nat, lit: nat, end: bool)
    requires H > 0 && SparseParts(P, C, m, H) && i < |P.ops| && (P.ops[i].Durative? || P.ops[i].Instant?) && h < H
    requires m.b(StartOrEnd(end, i, h)) && lit in RoleOfOp(P.ops[i], if end then EndDel else StartDel)
    ensures Eval(ReadSlots(lit, h, 1, true), m)
  {
    assert Holds(m, OpLoop(P, C, H)(i));
    BlockHolds(m, SlotOp(P, C, i), 0, H);
    assert Holds(m, SlotOp(P, C, i)(h));
    DeletionIsRead(P, C, m, i, h, lit, end);
  }

  lemma SlotsKeep(P: Problem, C: Cascade, m: Model, lit: nat, H: nat)
    requires C > 2 && H > 0 && SlotsHold(P, C, m, lit, H)
    ensures SlotsOrdered(m, lit, LiteralBound)
    ensures forall k | 0 <= k < LiteralBound :: m.b(SlotLit(lit, k, 0)) ==> m.b(SlotLit(lit, k, 1))
  {
    SlotsHoldOrdered(P, C, m, lit, H);
    forall k | 0 <= k < LiteralBound
      ensures m.b(SlotLit(lit, k, 0)) ==> m.b(SlotLit(lit, k, 1))
    {
      assert SlotHolds(P, C, m, lit, k, H) && LayerExplained(P, C, m, lit, k, H, 1);
    }
  }

  /** With more than two layers no action starts, or ends, where a literal it deletes then is true. */
  lemma NothingTrueIsDeleted(P: Problem, C: Cascade, m: Model, H: nat, i: nat, h: nat, lit: nat, end: bool)
    requires WellFormed(P) && C > 2 && H > 0 && Holds(m, FluentEncoding(P, C, H))
    requires i < |P.ops| && (P.ops[i].Durative? || P.ops[i].Instant?) && h < H && lit < P.lits
    requires m.b(StartOrEnd(end, i, h)) && lit in RoleOfOp(P.ops[i], if end then EndDel else StartDel)
    ensures !Eval(ReadSlots(lit, h, 0, false), m)
  {
    FluentEncodingParts(P, C, m, H);
    PartsOrderTimes(P, C, m, H);
    LaterDeletionIsRead(P, C, m, H, i, h, lit, end);
    assert Holds(m, LiteralLoop(P, C, H)(lit));
    LiteralSlotsMean(P, C, m, lit, H);
    SlotsKeep(P, C, m, lit, H);
    KeptReads(m, lit, h);
  }
}
