/** The constraints of the fluent-based encoding: a literal has a few slots, each with its own
    time, and its value at a happening is read from the slot with the time of the happening. */
module FluentSpec {
  import opened Smt
  import opened Pddl
  import opened HappeningSpec

  /** The number of slots of each literal. */
  const LiteralBound: nat := 3

  /** No functions, timed literals, events or processes. */
  predicate Propositional(P: Problem) {
    && P.fns == 0 && P.tils == [] && P.flows == [] && P.initVals == []
    && forall o | o in P.ops :: o.Durative? || o.Instant?
  }

  // ----- Reading slots -----

  function SameTime(lit: nat, slot: nat, h: nat): Formula {
    Eq(Var(SlotTime(lit, slot)), Var(Time(h)))
  }

  /** The literal in layer b of the first n slots: the last slot at the time of the happening
      decides, and with none the formula is false, for either polarity. */
  function SlotIte(lit: nat, h: nat, b: nat, negated: bool, n: nat): Formula {
    if n == 0 then Truth(false)
    else Ite(SameTime(lit, n - 1, h), Signed(negated, SlotLit(lit, n - 1, b)), SlotIte(lit, h, b, negated, n - 1))
  }

  function ReadSlots(lit: nat, h: nat, b: nat, negated: bool): Formula {
    SlotIte(lit, h, b, negated, LiteralBound)
  }

  function StartOrEnd(end: bool, who: nat, h: nat): BoolVar {
    if end then End(who, h) else Start(who, h)
  }

  /** The action starts, or ends, at the happening from h on that has the time of the slot. */
  function HappeningIte(lit: nat, slot: nat, end: bool, who: nat, h: nat, H: nat): Formula
    decreases H - h
  {
    if h >= H then Truth(false)
    else Ite(SameTime(lit, slot, h), Bool(StartOrEnd(end, who, h)), HappeningIte(lit, slot, end, who, h + 1, H))
  }

  function Enablers(lit: nat, slot: nat, end: bool, users: seq<nat>, H: nat): seq<Formula> {
    if users == [] then []
    else
      var last := |users| - 1;
      Enablers(lit, slot, end, users[..last], H) + [HappeningIte(lit, slot, end, users[last], 0, H)]
  }

  // ----- Conditions and effects -----

  function SlotCondition(P: Problem, ctx: Context, negated: bool, lit: nat): seq<Formula>
    requires ctx.seen <= |P.ops|
  {
    [Implies(Bool(Start(ctx.op, ctx.h)), ReadSlots(lit, ctx.h, 0, negated))] +
    MutexClauses(OpUsers(P, if negated then StartAdd else StartDel, lit, ctx.seen), ctx.op, ctx.h)
  }

  function EmitSlotLit(P: Problem, C: Cascade, ctx: Context, negated: bool, lit: nat): Output
    requires ctx.seen <= |P.ops|
  {
    match ctx.mode
    case GoalMode => Nothing.(goals := [ReadSlots(lit, ctx.h, C - 1, negated)])
    case InstantConditionMode => Nothing.(asserted := SlotCondition(P, ctx, negated, lit))
    case ConditionMode =>
      (match ctx.time
       case AtStart => Nothing.(asserted := SlotCondition(P, ctx, negated, lit))
       case AtEnd => Nothing.(asserted := [Implies(Bool(End(ctx.op, ctx.h)), ReadSlots(lit, ctx.h, 0, negated))])
       case OverAll => Nothing.(asserted := [Implies(Bool(Running(ctx.op, ctx.h)), ReadSlots(lit, ctx.h, 0, negated))]))
    case _ => Nothing
  }

  function EmitSlots(P: Problem, C: Cascade, ctx: Context, a: Atom): Output
    requires ctx.seen <= |P.ops|
  {
    match a
    case LitAtom(negated, lit) => EmitSlotLit(P, C, ctx, negated, lit)
    case CompAtom(op, lhs, rhs) => EmitComparison(ctx, op, lhs, rhs)
  }

  function EmitAllSlots(P: Problem, C: Cascade, ctx: Context, atoms: seq<Atom>): Output
    requires ctx.seen <= |P.ops|
  {
    if atoms == [] then Nothing
    else Join(EmitSlots(P, C, ctx, atoms[0]), EmitAllSlots(P, C, ctx, atoms[1..]))
  }

  lemma {:induction false} EmitAllSlotsConcat(P: Problem, C: Cascade, ctx: Context, a: seq<Atom>, b: seq<Atom>)
    requires ctx.seen <= |P.ops|
    ensures EmitAllSlots(P, C, ctx, a + b) == Join(EmitAllSlots(P, C, ctx, a), EmitAllSlots(P, C, ctx, b))
  {
    if a == [] {
      assert a + b == b;
    } else {
      assert (a + b)[1..] == a[1..] + b && (a + b)[0] == a[0];
      EmitAllSlotsConcat(P, C, ctx, a[1..], b);
      JoinAssociative(EmitSlots(P, C, ctx, a[0]), EmitAllSlots(P, C, ctx, a[1..]), EmitAllSlots(P, C, ctx, b));
    }
  }

  /** Effects always reach layer 1. */
  function SlotEffects(ids: seq<nat>, negated: bool, trigger: BoolVar, h: nat): seq<Formula> {
    if ids == [] then []
    else
      var last := |ids| - 1;
      SlotEffects(ids[..last], negated, trigger, h) + [Implies(Bool(trigger), ReadSlots(ids[last], h, 1, negated))]
  }

  function SlotActionEffects(e: Effects, trigger: BoolVar, h: nat): seq<Formula> {
    SlotEffects(e.adds, false, trigger, h) + SlotEffects(e.dels, true, trigger, h)
  }

  // ----- Operators -----

  function SlotDurative(P: Problem, C: Cascade, i: nat, h: nat): seq<Formula>
    requires i < |P.ops| && P.ops[i].Durative?
  {
    var o := P.ops[i];
    var ctx := Context(ConditionMode, i, h, 1, AtStart, i + 1);
    EmitAllSlots(P, C, ctx.(mode := DurationMode), Atoms(o.duration)).asserted +
    SlotActionEffects(o.start, Start(i, h), h) +
    SlotActionEffects(o.end, End(i, h), h) +
    EmitAllSlots(P, C, ctx, Atoms(o.atStart)).asserted +
    EmitAllSlots(P, C, ctx.(time := OverAll), Atoms(o.overAll)).asserted +
    EmitAllSlots(P, C, ctx.(time := AtEnd), Atoms(o.atEnd)).asserted
  }

  function SlotInstant(P: Problem, C: Cascade, i: nat, h: nat): seq<Formula>
    requires i < |P.ops| && P.ops[i].Instant?
  {
    SlotActionEffects(P.ops[i].eff, Start(i, h), h) +
    EmitAllSlots(P, C, Context(InstantConditionMode, i, h, 1, AtStart, i + 1), Atoms(P.ops[i].pre)).asserted
  }

  function SlotOp(P: Problem, C: Cascade, i: nat): nat -> seq<Formula>
    requires i < |P.ops|
  {
    (h: nat) =>
      match P.ops[i]
      case Durative(_, _, _, _, _, _) => SlotDurative(P, C, i, h)
      case Instant(_, _) => SlotInstant(P, C, i, h)
      case _ => []
  }

  function OpVariables(P: Problem, i: nat): nat -> seq<Formula>
    requires i < |P.ops|
  {
    (h: nat) => OpVarsAt(P, i, h)
  }

  // ----- Literals -----

  /** The slot has the time of some happening, or lies after the last one. */
  function Coincides(lit: nat, slot: nat, n: nat): seq<Formula> {
    if n == 0 then [] else Coincides(lit, slot, n - 1) + [SameTime(lit, slot, n - 1)]
  }

  function SlotTimes(lit: nat, slot: nat, H: nat): seq<Formula>
    requires H > 0
  {
    (if slot > 0 then [Lt(Var(SlotTime(lit, slot - 1)), Var(SlotTime(lit, slot)))] else []) +
    [Or(Coincides(lit, slot, H) + [Lt(Var(Time(H - 1)), Var(SlotTime(lit, slot)))])]
  }

  /** Adding actions are asked in layer 1, deleting ones in the last layer. */
  function SlotLayer(P: Problem, C: Cascade, lit: nat, slot: nat, H: nat, b: nat): seq<Formula> {
    if b == 0 then []
    else
      var before, after := Bool(SlotLit(lit, slot, b - 1)), Bool(SlotLit(lit, slot, b));
      var adds := if b == 1 then Enablers(lit, slot, false, Users(P, StartAdd, lit), H) +
                                 Enablers(lit, slot, true, Users(P, EndAdd, lit), H)
                  else [];
      var dels := if b == C - 1 then Enablers(lit, slot, false, Users(P, StartDel, lit), H) +
                                     Enablers(lit, slot, true, Users(P, EndDel, lit), H)
                  else [];
      [Implies(after, Or([before] + adds)), Implies(Not(after), Or([Not(before)] + dels))]
  }

  function SlotLayerOf(P: Problem, C: Cascade, lit: nat, slot: nat, H: nat): nat -> seq<Formula> {
    (b: nat) => SlotLayer(P, C, lit, slot, H, b)
  }

  /** A slot opens as the one before it closed. */
  function SlotOpens(C: Cascade, lit: nat, slot: nat): seq<Formula> {
    if slot == 0 then []
    else
      var opening, closing := Bool(SlotLit(lit, slot, 0)), Bool(SlotLit(lit, slot - 1, C - 1));
      [Implies(opening, closing), Implies(Not(opening), Not(closing))]
  }

  function SlotOf(P: Problem, C: Cascade, lit: nat, H: nat): nat -> seq<Formula>
    requires H > 0
  {
    (slot: nat) =>
      SlotTimes(lit, slot, H) + Block(SlotLayerOf(P, C, lit, slot, H), 1, C) + SlotOpens(C, lit, slot)
  }

  function LiteralSlots(P: Problem, C: Cascade, lit: nat, H: nat): seq<Formula>
    requires H > 0
  {
    Block(SlotOf(P, C, lit, H), 0, LiteralBound)
  }

  // ----- Known states -----

  function SlotAddedInit(init: seq<nat>): seq<Formula> {
    if init == [] then []
    else
      var last := init[|init| - 1];
      SlotAddedInit(init[..|init| - 1]) + [Bool(SlotLit(last, 0, 0)), Eq(Var(SlotTime(last, 0)), Const(0.0))]
  }

  function SlotAbsentInit(P: Problem, n: nat): seq<Formula> {
    if n == 0 then []
    else
      SlotAbsentInit(P, n - 1) +
      (if n - 1 in P.init then [] else [Not(Bool(SlotLit(n - 1, 0, 0))), Eq(Var(SlotTime(n - 1, 0)), Const(0.0))])
  }

  function SlotInit(P: Problem): seq<Formula> {
    SlotAddedInit(P.init) + SlotAbsentInit(P, P.lits)
  }

  function SlotGoal(P: Problem, C: Cascade, H: nat): Output
    requires H > 0
  {
    EmitAllSlots(P, C, Context(GoalMode, 0, H - 1, C - 1, AtStart, 0), Atoms(P.goal))
  }

  // ----- The whole encoding -----

  /** The variables of operator i. */
  function OpVarsLoop(P: Problem, H: nat): nat -> seq<Formula> {
    (i: nat) => if i < |P.ops| then Block(OpVariables(P, i), 0, H) else []
  }

  /** The conditions and effects of operator i. */
  function OpLoop(P: Problem, C: Cascade, H: nat): nat -> seq<Formula> {
    (i: nat) => if i < |P.ops| then Block(SlotOp(P, C, i), 0, H) else []
  }

  function LiteralLoop(P: Problem, C: Cascade, H: nat): nat -> seq<Formula>
    requires H > 0
  {
    (lit: nat) => LiteralSlots(P, C, lit, H)
  }

  function Timing(): nat -> seq<Formula> {
    (h: nat) => TimingAt(h)
  }

  /** What the first call of the encoder asserts. */
  function FluentEncoding(P: Problem, C: Cascade, H: nat): seq<Formula>
    requires H > 0
  {
    Block(Timing(), 0, H) + SlotInit(P) + SlotGoal(P, C, H).asserted +
    Block(OpVarsLoop(P, H), 0, |P.ops|) + Block(OpLoop(P, C, H), 0, |P.ops|) + Block(LiteralLoop(P, C, H), 0, P.lits)
  }

  function FluentGoal(P: Problem, C: Cascade, H: nat): seq<Formula>
    requires H > 0
  {
    SlotGoal(P, C, H).goals + NothingRuns(P, |P.ops|, H)
  }
}
