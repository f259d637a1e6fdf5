/** The constraints of the happening-based encoding, as lists of formulas: one function for
    each loop body of the encoder, indexed by what the loop ranges over. */
module HappeningSpec {
  import opened Smt
  import opened Pddl

  datatype TimeSpec = AtStart | AtEnd | OverAll

  /** The formulas of the iterations lo <= k < hi of a loop, in order. */
  function Block(body: nat -> seq<Formula>, lo: nat, hi: nat): seq<Formula> {
    if hi <= lo then [] else Block(body, lo, hi - 1) + body(hi - 1)
  }

  // ----- Effect lists: who affects what -----

  /** who, once for each occurrence of id. */
  function Mentions(ids: seq<nat>, id: nat, who: nat): (r: seq<nat>) {
    if ids == [] then []
    else
      var last := |ids| - 1;
      Mentions(ids[..last], id, who) + (if ids[last] == id then [who] else [])
  }

  /** The effect list for id after the first n operators have been visited. */
  function OpUsers(P: Problem, role: Role, id: nat, n: nat): seq<nat>
    requires n <= |P.ops|
  {
    if n == 0 then []
    else OpUsers(P, role, id, n - 1) + Mentions(RoleOfOp(P.ops[n - 1], role), id, n - 1)
  }

  function TilUsers(P: Problem, role: Role, id: nat, n: nat): seq<nat>
    requires n <= |P.tils|
  {
    if n == 0 then []
    else TilUsers(P, role, id, n - 1) + Mentions(RoleOfTil(P.tils[n - 1], role), id, n - 1)
  }

  function Users(P: Problem, role: Role, id: nat): seq<nat> {
    if role.TilAdd? || role.TilDel? || role.TilAssign?
    then TilUsers(P, role, id, |P.tils|)
    else OpUsers(P, role, id, |P.ops|)
  }

  /** A variable family at a fixed place, to be applied to the members of an effect list. */
  datatype Trigger = Starts(h: nat) | Ends(h: nat) | Fires(h: nat, b: nat) | TilFires(h: nat)

  function TriggerVar(t: Trigger, who: nat): BoolVar {
    match t
    case Starts(h) => Start(who, h)
    case Ends(h) => End(who, h)
    case Fires(h, b) => Fired(who, h, b)
    case TilFires(h) => TilAt(who, h)
  }

  function Triggers(users: seq<nat>, t: Trigger): seq<Formula> {
    if users == [] then []
    else Triggers(users[..|users| - 1], t) + [Bool(TriggerVar(t, users[|users| - 1]))]
  }

  function NegatedTriggers(users: seq<nat>, t: Trigger): seq<Formula> {
    if users == [] then []
    else NegatedTriggers(users[..|users| - 1], t) + [Not(Bool(TriggerVar(t, users[|users| - 1])))]
  }

  // ----- Expressions -----

  /** The operands leave the stack in the order rhs, lhs; for minus that reverses them. */
  function TermOf(e: Expr, op: nat, h: nat, b: nat): Term {
    match e
    case Num(v) => Const(v)
    case Fluent(fn) => Var(Value(fn, h, b))
    case Duration => Var(Remaining(op, h))
    case Plus(l, r) => Sum(TermOf(r, op, h, b), TermOf(l, op, h, b))
    case Minus(l, r) => Diff(TermOf(r, op, h, b), TermOf(l, op, h, b))
    case Times(l, r) => Prod(TermOf(r, op, h, b), TermOf(l, op, h, b))
    case UMinus(e1) => Negative(TermOf(e1, op, h, b))
  }

  function CompareTerms(op: CompOp, lhs: Term, rhs: Term): Formula {
    match op
    case Greater => Lt(rhs, lhs)
    case GreatEq => Le(rhs, lhs)
    case Less => Lt(lhs, rhs)
    case LessEq => Le(lhs, rhs)
    case Equals => And([Le(lhs, rhs), Le(rhs, lhs)])
  }

  // ----- Conditions -----

  datatype Mode = GoalMode | DurationMode | ConditionMode | InstantConditionMode | TriggerMode

  /** The visitor fields a condition visit reads. seen is the number of operators whose
      effects the effect lists hold at that moment. */
  datatype Context = Context(mode: Mode, op: nat, h: nat, b: nat, time: TimeSpec, seen: nat)

  /** Where a condition visit writes: the solver, the goal list, and the two stacks that
      events and processes use. */
  datatype Output = Output(asserted: seq<Formula>, goals: seq<Formula>, conds: seq<Formula>, musts: seq<Term>)

  const Nothing := Output([], [], [], [])

  function Join(x: Output, y: Output): Output {
    Output(x.asserted + y.asserted, x.goals + y.goals, x.conds + y.conds, x.musts + y.musts)
  }

  /** One clause for each other operator in the effect list. */
  function MutexClauses(users: seq<nat>, op: nat, h: nat): seq<Formula> {
    if users == [] then []
    else
      var last := |users| - 1;
      MutexClauses(users[..last], op, h) +
      (if users[last] == op then [] else [Or([Not(Bool(Start(op, h))), Not(Bool(Start(users[last], h)))])])
  }

  function StartCondition(P: Problem, C: Cascade, ctx: Context, negated: bool, lit: nat): seq<Formula>
    requires ctx.seen <= |P.ops|
  {
    [Implies(Bool(Start(ctx.op, ctx.h)), Signed(negated, Lit(lit, ctx.h, C - 2)))] +
    MutexClauses(OpUsers(P, if negated then StartAdd else StartDel, lit, ctx.seen), ctx.op, ctx.h)
  }

  function EmitLit(P: Problem, C: Cascade, ctx: Context, negated: bool, lit: nat): Output
    requires ctx.seen <= |P.ops|
  {
    match ctx.mode
    case GoalMode => Nothing.(goals := [Signed(negated, Lit(lit, ctx.h, C - 1))])
    case TriggerMode => Nothing.(conds := [Signed(negated, Lit(lit, ctx.h, ctx.b))])
    case InstantConditionMode => Nothing.(asserted := StartCondition(P, C, ctx, negated, lit))
    case ConditionMode =>
      (match ctx.time
       case AtStart => Nothing.(asserted := StartCondition(P, C, ctx, negated, lit))
       case AtEnd => Nothing.(asserted := [Implies(Bool(End(ctx.op, ctx.h)), Signed(negated, Lit(lit, ctx.h, C - 2)))])
       case OverAll => Nothing.(asserted := [Implies(Bool(Running(ctx.op, ctx.h)), Signed(negated, Lit(lit, ctx.h, C - 2)))]))
    case DurationMode => Nothing
  }

  /** Where a comparison goes once its two sides are terms. */
  function CompareOutput(ctx: Context, com: Formula, l: Term, r: Term): Output {
    match ctx.mode
    case GoalMode => Nothing.(asserted := [Implies(Bool(GoalFlag(com)), com)], goals := [Bool(GoalFlag(com))])
    case TriggerMode => Nothing.(conds := [com], musts := [Diff(l, r)])
    case ConditionMode => EmitTimed(ctx, com)
    case InstantConditionMode => EmitTimed(ctx, com)
    case DurationMode => Nothing.(asserted := [Implies(Bool(Start(ctx.op, ctx.h)), com)])
  }

  function EmitComparison(ctx: Context, op: CompOp, lhs: Expr, rhs: Expr): Output {
    var l := TermOf(lhs, ctx.op, ctx.h, ctx.b);
    var r := TermOf(rhs, ctx.op, ctx.h, ctx.b);
    CompareOutput(ctx, CompareTerms(op, l, r), l, r)
  }

  function EmitTimed(ctx: Context, com: Formula): Output {
    match ctx.time
    case AtStart => Nothing.(asserted := [Implies(Bool(Start(ctx.op, ctx.h)), com)])
    case AtEnd => Nothing.(asserted := [Implies(Bool(End(ctx.op, ctx.h)), com)])
    case OverAll => Nothing.(asserted := [Implies(Bool(Running(ctx.op, ctx.h)), com), Implies(Bool(End(ctx.op, ctx.h)), com)])
  }

  function Emit(P: Problem, C: Cascade, ctx: Context, a: Atom): Output
    requires ctx.seen <= |P.ops|
  {
    match a
    case LitAtom(negated, lit) => EmitLit(P, C, ctx, negated, lit)
    case CompAtom(op, lhs, rhs) => EmitComparison(ctx, op, lhs, rhs)
  }

  function EmitAll(P: Problem, C: Cascade, ctx: Context, atoms: seq<Atom>): Output
    requires ctx.seen <= |P.ops|
  {
    if atoms == [] then Nothing
    else Join(Emit(P, C, ctx, atoms[0]), EmitAll(P, C, ctx, atoms[1..]))
  }

  lemma JoinAssociative(x: Output, y: Output, z: Output)
    ensures Join(Join(x, y), z) == Join(x, Join(y, z))
  {
  }

  lemma {:induction false} EmitAllConcat(P: Problem, C: Cascade, ctx: Context, a: seq<Atom>, b: seq<Atom>)
    requires ctx.seen <= |P.ops|
    ensures EmitAll(P, C, ctx, a + b) == Join(EmitAll(P, C, ctx, a), EmitAll(P, C, ctx, b))
  {
    if a == [] {
      assert a + b == b;
    } else {
      assert (a + b)[1..] == a[1..] + b && (a + b)[0] == a[0];
      EmitAllConcat(P, C, ctx, a[1..], b);
      JoinAssociative(Emit(P, C, ctx, a[0]), EmitAll(P, C, ctx, a[1..]), EmitAll(P, C, ctx, b));
    }
  }

  // ----- Effects -----

  /** Asserted for each literal of an effect list: the trigger forces it in the given layer. */
  function LitEffects(ids: seq<nat>, negated: bool, trigger: Formula, h: nat, b: nat): seq<Formula> {
    if ids == [] then []
    else
      var last := |ids| - 1;
      LitEffects(ids[..last], negated, trigger, h, b) + [Implies(trigger, Signed(negated, Lit(ids[last], h, b)))]
  }

  function Assigning(op: AssignOp, trigger: Formula, after: Term, before: Term, e: Term): Formula {
    match op
    case Assign => Implies(trigger, Eq(after, e))
    case Increase => Implies(trigger, Eq(after, Sum(e, before)))
    case Decrease => Implies(trigger, Eq(after, Diff(before, e)))
    case ScaleUp => Implies(trigger, Eq(after, Prod(e, before)))
  }

  function AssignEffect(C: Cascade, a: Assignment, trigger: Formula, op: nat, h: nat): Formula {
    Assigning(a.op, trigger, Var(Value(a.fn, h, C - 1)), Var(Value(a.fn, h, C - 2)), TermOf(a.rhs, op, h, C - 2))
  }

  function AssignEffects(C: Cascade, assigns: seq<Assignment>, trigger: Formula, op: nat, h: nat): seq<Formula> {
    if assigns == [] then []
    else
      var last := |assigns| - 1;
      AssignEffects(C, assigns[..last], trigger, op, h) + [AssignEffect(C, assigns[last], trigger, op, h)]
  }

  function TilAssignEffects(assigns: seq<Assignment>, k: nat, h: nat): seq<Formula> {
    if assigns == [] then []
    else
      var last := |assigns| - 1;
      TilAssignEffects(assigns[..last], k, h) +
      [Implies(Bool(TilAt(k, h)), Eq(Var(Value(assigns[last].fn, h, 0)), TermOf(assigns[last].rhs, k, h, 0)))]
  }

  /** The effects of an action at its start or end; they reach the last layer. */
  function ActionEffects(C: Cascade, e: Effects, trigger: BoolVar, op: nat, h: nat): seq<Formula> {
    LitEffects(e.adds, false, Bool(trigger), h, C - 1) +
    LitEffects(e.dels, true, Bool(trigger), h, C - 1) +
    AssignEffects(C, e.assigns, Bool(trigger), op, h)
  }

  // ----- Loop bodies -----

  function TimingAt(h: nat): seq<Formula> {
    (if h == 0
     then [Eq(Var(Time(0)), Const(0.0))]
     else [Eq(Var(Time(h)), Sum(Var(Time(h - 1)), Var(Gap(h - 1)))), Lt(Var(Time(h - 1)), Var(Time(h)))]) +
    [Le(Const(0.1), Var(Gap(h)))]
  }

  /** True iff at its time, and not skipped. */
  function TilTimes(P: Problem, k: nat, h: nat): seq<Formula>
    requires k < |P.tils|
  {
    var v := Const(P.tils[k].stamp);
    [Iff(And([Le(Var(Time(h)), v), Le(v, Var(Time(h)))]), Bool(TilAt(k, h)))] +
    (if h > 0 then [Le(Const(0.0), Prod(Diff(Var(Time(h)), v), Diff(Var(Time(h - 1)), v)))] else [])
  }

  function TilEffects(P: Problem, k: nat, h: nat): seq<Formula>
    requires k < |P.tils|
  {
    var eff := P.tils[k].eff;
    LitEffects(eff.adds, false, Bool(TilAt(k, h)), h, 0) +
    LitEffects(eff.dels, true, Bool(TilAt(k, h)), h, 0) +
    TilAssignEffects(eff.assigns, k, h)
  }

  function TilBody(P: Problem, k: nat, h: nat): seq<Formula>
    requires k < |P.tils|
  {
    TilTimes(P, k, h) + TilEffects(P, k, h)
  }

  /** Running iff some duration remains. */
  function RunSigns(i: nat, h: nat): seq<Formula> {
    [Iff(Bool(Running(i, h)), Lt(Const(0.0), Var(Remaining(i, h)))),
     Iff(Not(Bool(Running(i, h))), Eq(Var(Remaining(i, h)), Const(0.0)))]
  }

  function RunCountdown(i: nat, h: nat): seq<Formula> {
    if h == 0 then []
    else
      [Implies(Bool(Running(i, h - 1)),
               Eq(Var(Remaining(i, h)), Diff(Var(Remaining(i, h - 1)), Var(Gap(h - 1)))))]
  }

  function RunBounds(i: nat, h: nat): seq<Formula> {
    [Implies(Bool(Start(i, h)), Bool(Running(i, h))),
     Implies(Bool(End(i, h)), Eq(Var(Remaining(i, h)), Const(0.0)))]
  }

  /** Start, then run, then end. A process repeats one implication. */
  function RunTransition(i: nat, h: nat, process: bool): seq<Formula> {
    var sta, run, end := Bool(Start(i, h)), Bool(Running(i, h)), Bool(End(i, h));
    var again := if process then [Implies(sta, run)] else [];
    if h == 0 then
      [Not(end), Implies(run, sta)] + again + [Implies(Not(run), Not(sta))]
    else
      var before := Bool(Running(i, h - 1));
      [Implies(end, before)] + again +
      [Implies(sta, Not(before)), Implies(run, Or([before, sta]))] +
      [Implies(Not(run), Or([Not(before), end]))]
  }

  /** Variables of a durative action or process at one happening. */
  function RunVarsAt(i: nat, h: nat, process: bool): seq<Formula> {
    RunSigns(i, h) + RunCountdown(i, h) + RunBounds(i, h) + RunTransition(i, h, process)
  }

  function OpVarsAt(P: Problem, i: nat, h: nat): seq<Formula>
    requires i < |P.ops|
  {
    match P.ops[i]
    case Durative(_, _, _, _, _, _) => RunVarsAt(i, h, false)
    case Instant(_, _) => [Eq(Var(Remaining(i, h)), Const(0.0))]
    case Event(_, _) => []
    case Process(_) => RunVarsAt(i, h, true)
  }

  function DurativeBody(P: Problem, C: Cascade, i: nat, h: nat, seen: nat): seq<Formula>
    requires i < |P.ops| && P.ops[i].Durative? && seen <= |P.ops|
  {
    var o := P.ops[i];
    var ctx := Context(ConditionMode, i, h, C - 2, AtStart, seen);
    EmitAll(P, C, ctx.(mode := DurationMode), Atoms(o.duration)).asserted +
    ActionEffects(C, o.start, Start(i, h), i, h) +
    ActionEffects(C, o.end, End(i, h), i, h) +
    EmitAll(P, C, ctx, Atoms(o.atStart)).asserted +
    EmitAll(P, C, ctx.(time := OverAll), Atoms(o.overAll)).asserted +
    EmitAll(P, C, ctx.(time := AtEnd), Atoms(o.atEnd)).asserted
  }

  function InstantBody(P: Problem, C: Cascade, i: nat, h: nat, seen: nat): seq<Formula>
    requires i < |P.ops| && P.ops[i].Instant? && seen <= |P.ops|
  {
    ActionEffects(C, P.ops[i].eff, Start(i, h), i, h) +
    EmitAll(P, C, Context(InstantConditionMode, i, h, C - 2, AtStart, seen), Atoms(P.ops[i].pre)).asserted
  }

  /** Triggers of an event or process in layer b of happening h, and their lhs - rhs terms. */
  function TriggerOutput(P: Problem, C: Cascade, g: Goal, i: nat, h: nat, b: nat): Output {
    EmitAll(P, C, Context(TriggerMode, i, h, b, AtStart, 0), Atoms(g))
  }

  /** Each comparison must not change strict sign between the two ends of an interval. The
      two stacks are popped together, so the last comparison comes first. */
  function MustConstraints(current: seq<Term>, previous: seq<Term>): seq<Formula> {
    if current == [] || previous == [] then []
    else
      [Le(Const(0.0), Prod(current[|current| - 1], previous[|previous| - 1]))] +
      MustConstraints(current[..|current| - 1], previous[..|previous| - 1])
  }

  function GuardFromBack(guard: Formula, fs: seq<Formula>): seq<Formula> {
    if fs == [] then []
    else [Implies(guard, fs[|fs| - 1])] + GuardFromBack(guard, fs[..|fs| - 1])
  }

  function Musts(P: Problem, C: Cascade, g: Goal, i: nat, h: nat): seq<Formula>
    requires h > 0
  {
    MustConstraints(TriggerOutput(P, C, g, i, h, 0).musts, TriggerOutput(P, C, g, i, h - 1, C - 1).musts)
  }

  function EventLayer(P: Problem, C: Cascade, i: nat, h: nat, b: nat): seq<Formula>
    requires i < |P.ops| && P.ops[i].Event?
  {
    var fired := Bool(Fired(i, h, b));
    LitEffects(P.ops[i].eff.adds, false, fired, h, b + 1) +
    LitEffects(P.ops[i].eff.dels, true, fired, h, b + 1) +
    [Iff(fired, And(TriggerOutput(P, C, P.ops[i].pre, i, h, b).conds))] +
    (if b == 0 && h > 0 then [And(Musts(P, C, P.ops[i].pre, i, h))] else [])
  }

  function EventLayerOf(P: Problem, C: Cascade, i: nat, h: nat): nat -> seq<Formula>
    requires i < |P.ops| && P.ops[i].Event?
  {
    (b: nat) => EventLayer(P, C, i, h, b)
  }

  function ProcessBody(P: Problem, C: Cascade, i: nat, h: nat): seq<Formula>
    requires i < |P.ops| && P.ops[i].Process?
  {
    [Iff(Bool(Running(i, h)), And(TriggerOutput(P, C, P.ops[i].pre, i, h, C - 1).conds))] +
    (if h > 0
     then GuardFromBack(Bool(Running(i, h - 1)), Musts(P, C, P.ops[i].pre, i, h))
     else [])
  }

  /** first: the layer belongs to the first call of the encoder, when the effect lists are
      still being filled in operator order. */
  function OpBodyAt(P: Problem, C: Cascade, i: nat, h: nat, first: bool): seq<Formula>
    requires i < |P.ops|
  {
    var seen := if first then i + 1 else |P.ops|;
    match P.ops[i]
    case Durative(_, _, _, _, _, _) => DurativeBody(P, C, i, h, seen)
    case Instant(_, _) => InstantBody(P, C, i, h, seen)
    case Event(_, _) => Block(EventLayerOf(P, C, i, h), 0, C - 1)
    case Process(_) => ProcessBody(P, C, i, h)
  }

  // ----- Explanatory frame axioms -----

  function AddSupport(P: Problem, C: Cascade, l: nat, h: nat, b: nat): seq<Formula>
    requires b > 0
  {
    [Bool(Lit(l, h, b - 1))] +
    Triggers(Users(P, EventAdd, l), Fires(h, b - 1)) +
    (if b == C - 1
     then Triggers(Users(P, StartAdd, l), Starts(h)) + Triggers(Users(P, EndAdd, l), Ends(h))
     else [])
  }

  function DelSupport(P: Problem, C: Cascade, l: nat, h: nat, b: nat): seq<Formula>
    requires b > 0
  {
    [Not(Bool(Lit(l, h, b - 1)))] +
    Triggers(Users(P, EventDel, l), Fires(h, b - 1)) +
    (if b == C - 1
     then Triggers(Users(P, StartDel, l), Starts(h)) + Triggers(Users(P, EndDel, l), Ends(h))
     else [])
  }

  function LitLayer(P: Problem, C: Cascade, l: nat, h: nat, b: nat): seq<Formula> {
    if b == 0 then []
    else
      [Implies(Bool(Lit(l, h, b)), Or(AddSupport(P, C, l, h, b))),
       Implies(Not(Bool(Lit(l, h, b))), Or(DelSupport(P, C, l, h, b)))]
  }

  function LitLayerOf(P: Problem, C: Cascade, l: nat, h: nat): nat -> seq<Formula> {
    (b: nat) => LitLayer(P, C, l, h, b)
  }

  function LitBetween(P: Problem, C: Cascade, l: nat, h: nat): seq<Formula>
    requires h > 0
  {
    [Implies(Bool(Lit(l, h, 0)), Or([Bool(Lit(l, h - 1, C - 1))] + Triggers(Users(P, TilAdd, l), TilFires(h)))),
     Implies(Not(Bool(Lit(l, h, 0))), Or([Not(Bool(Lit(l, h - 1, C - 1)))] + Triggers(Users(P, TilDel, l), TilFires(h))))]
  }

  function LitAt(P: Problem, C: Cascade, l: nat, h: nat): seq<Formula> {
    Block(LitLayerOf(P, C, l, h), 1, C) + (if h == 0 then [] else LitBetween(P, C, l, h))
  }

  function FnSupport(P: Problem, C: Cascade, fn: nat, h: nat, b: nat): seq<Formula>
    requires b > 0
  {
    (if b == C - 1
     then Triggers(Users(P, StartAssign, fn), Starts(h)) + Triggers(Users(P, EndAssign, fn), Ends(h))
     else []) +
    [Eq(Var(Value(fn, h, b - 1)), Var(Value(fn, h, b)))]
  }

  function FnLayer(P: Problem, C: Cascade, fn: nat, h: nat, b: nat): seq<Formula> {
    if b == 0 then [] else [Or(FnSupport(P, C, fn, h, b))]
  }

  function FnLayerOf(P: Problem, C: Cascade, fn: nat, h: nat): nat -> seq<Formula> {
    (b: nat) => FnLayer(P, C, fn, h, b)
  }

  // ----- Continuous change -----

  function SymbolTerm(s: Symbol, h: nat, b: nat): Term {
    match s
    case HashT => Var(Gap(h))
    case Function(fn) => Var(Value(fn, h, b))
  }

  /** The coefficient times its factors; exponent zero is skipped, one is not written. */
  function MonomialTerm(cf: real, factors: seq<Factor>, h: nat, b: nat): Term {
    if factors == [] then Const(cf)
    else
      var last := factors[|factors| - 1];
      var rest := MonomialTerm(cf, factors[..|factors| - 1], h, b);
      var sym := SymbolTerm(last.sym, h, b);
      if last.power == 0 then rest
      else Prod(rest, if last.power == 1 then sym else Pow(sym, last.power))
  }

  function PolyTerm(poly: seq<Monomial>, h: nat, b: nat): Term {
    if poly == [] then Const(0.0)
    else
      var last := poly[|poly| - 1];
      Sum(PolyTerm(poly[..|poly| - 1], h, b), MonomialTerm(last.cf, last.factors, h, b))
  }

  function OperatorConjuncts(operators: seq<int>, h: nat): seq<Formula> {
    if operators == [] then []
    else
      var last := operators[|operators| - 1];
      OperatorConjuncts(operators[..|operators| - 1], h) +
      [if last < 0 then Not(Bool(Running(OpOf(last), h))) else Bool(Running(OpOf(last), h))]
  }

  function NoOperatorRuns(operators: seq<int>, h: nat): seq<Formula> {
    if operators == [] then []
    else
      NoOperatorRuns(operators[..|operators| - 1], h) + [Not(Bool(Running(OpOf(operators[|operators| - 1]), h)))]
  }

  /** No timed initial literal assigns the function at this happening. */
  function Quiet(P: Problem, fn: nat, h: nat): Formula {
    And([Truth(true)] + NegatedTriggers(Users(P, TilAssign, fn), TilFires(h)))
  }

  function IdleFormula(P: Problem, C: Cascade, fn: nat, h: nat, flow: Flow): Formula
    requires h > 0
  {
    Implies(And([And(NoOperatorRuns(flow.operators, h - 1)), Quiet(P, fn, h)]),
            Eq(Var(Value(fn, h, 0)), Var(Value(fn, h - 1, C - 1))))
  }

  function ChangeFormula(P: Problem, C: Cascade, fn: nat, h: nat, flow: Flow): Formula
    requires h > 0
  {
    Implies(And([And(OperatorConjuncts(flow.operators, h - 1)), Quiet(P, fn, h)]),
            Eq(Var(Value(fn, h, 0)), PolyTerm(flow.poly, h - 1, C - 1)))
  }

  /** What the k-th flow of a function asserts. */
  function ChangeOf(P: Problem, C: Cascade, fn: nat, h: nat): nat -> seq<Formula>
    requires fn < |P.flows| && h > 0
  {
    (k: nat) => if k < |P.flows[fn]| then [ChangeFormula(P, C, fn, h, P.flows[fn][k])] else []
  }

  function FlowAt(P: Problem, C: Cascade, fn: nat, h: nat): seq<Formula>
    requires fn < |P.flows|
  {
    if h == 0 then []
    else if P.flows[fn] == [] then
      [Or([Eq(Var(Value(fn, h, 0)), Var(Value(fn, h - 1, C - 1)))] + Triggers(Users(P, TilAssign, fn), TilFires(h)))]
    else
      [IdleFormula(P, C, fn, h, P.flows[fn][0])] + Block(ChangeOf(P, C, fn, h), 0, |P.flows[fn]|)
  }

  // ----- Known states -----

  function AddedInit(init: seq<nat>): seq<Formula> {
    if init == [] then []
    else AddedInit(init[..|init| - 1]) + [Bool(Lit(init[|init| - 1], 0, 0))]
  }

  function AbsentInit(P: Problem, n: nat): seq<Formula> {
    if n == 0 then []
    else AbsentInit(P, n - 1) + (if n - 1 in P.init then [] else [Not(Bool(Lit(n - 1, 0, 0)))])
  }

  function ValueInit(vals: seq<(nat, real)>): seq<Formula> {
    if vals == [] then []
    else
      var last := vals[|vals| - 1];
      ValueInit(vals[..|vals| - 1]) + [Eq(Var(Value(last.0, 0, 0)), Const(last.1))]
  }

  function InitSpec(P: Problem): seq<Formula> {
    AddedInit(P.init) + AbsentInit(P, P.lits) + ValueInit(P.initVals)
  }

  function GoalOutput(P: Problem, C: Cascade, H: nat): Output
    requires H > 0
  {
    EmitAll(P, C, Context(GoalMode, 0, H - 1, C - 1, AtStart, 0), Atoms(P.goal))
  }

  /** The negated running variables of the durative actions among the first n operators. */
  function NothingRuns(P: Problem, n: nat, H: nat): seq<Formula>
    requires n <= |P.ops| && H > 0
  {
    if n == 0 then []
    else NothingRuns(P, n - 1, H) + (if P.ops[n - 1].Durative? then [Not(Bool(Running(n - 1, H - 1)))] else [])
  }

  function GoalSpec(P: Problem, C: Cascade, H: nat): seq<Formula>
    requires H > 0
  {
    GoalOutput(P, C, H).goals + NothingRuns(P, |P.ops|, H)
  }

  // ----- The whole encoding -----

  /** A loop of the encoder that runs over the happenings of a call. */
  datatype Loop =
    | Timings
    | TilLoop(k: nat)
    | OpVars(i: nat)
    | OpBody(i: nat)
    | LitSupport(l: nat)
    | FnSupports(fn: nat)
    | FnFlows(fn: nat)

  predicate InProblem(P: Problem, loop: Loop) {
    match loop
    case Timings => true
    case TilLoop(k) => k < |P.tils|
    case OpVars(i) => i < |P.ops|
    case OpBody(i) => i < |P.ops|
    case LitSupport(l) => l < P.lits
    case FnSupports(fn) => fn < |P.flows|
    case FnFlows(fn) => fn < |P.flows|
  }

  function At(P: Problem, C: Cascade, loop: Loop, h: nat, first: bool): seq<Formula>
    requires InProblem(P, loop)
  {
    match loop
    case Timings => TimingAt(h)
    case TilLoop(k) => TilBody(P, k, h)
    case OpVars(i) => OpVarsAt(P, i, h)
    case OpBody(i) => OpBodyAt(P, C, i, h, first)
    case LitSupport(l) => LitAt(P, C, l, h)
    case FnSupports(fn) => Block(FnLayerOf(P, C, fn, h), 1, C)
    case FnFlows(fn) => FlowAt(P, C, fn, h)
  }

  /** The body of a loop as a function of the happening. */
  function BodyOf(P: Problem, C: Cascade, loop: Loop, first: bool): nat -> seq<Formula>
    requires InProblem(P, loop)
  {
    (h: nat) => At(P, C, loop, h, first)
  }

  /** The families of loops, in the order the main method visits them. */
  datatype Family = TilFamily | OpVarsFamily | OpBodyFamily | LitFamily | FnFamily

  function SizeOf(P: Problem, family: Family): nat {
    match family
    case TilFamily => |P.tils|
    case OpVarsFamily => |P.ops|
    case OpBodyFamily => |P.ops|
    case LitFamily => P.lits
    case FnFamily => |P.flows|
  }

  function LoopsOf(family: Family, k: nat): seq<Loop> {
    match family
    case TilFamily => [TilLoop(k)]
    case OpVarsFamily => [OpVars(k)]
    case OpBodyFamily => [OpBody(k)]
    case LitFamily => [LitSupport(k)]
    case FnFamily => [FnSupports(k), FnFlows(k)]
  }

  /** The loops of the first n members of a family. */
  function LoopsUpTo(family: Family, n: nat): seq<Loop> {
    if n == 0 then [] else LoopsUpTo(family, n - 1) + LoopsOf(family, n - 1)
  }

  function AllLoops(P: Problem, family: Family): seq<Loop> {
    LoopsUpTo(family, SizeOf(P, family))
  }

  predicate AllInProblem(P: Problem, loops: seq<Loop>) {
    forall loop | loop in loops :: InProblem(P, loop)
  }

  lemma LoopsInProblem(P: Problem, family: Family, n: nat)
    requires n <= SizeOf(P, family)
    ensures AllInProblem(P, LoopsUpTo(family, n))
  {
  }

  /** The blocks of a list of loops, one after the other. */
  function Blocks(P: Problem, C: Cascade, loops: seq<Loop>, lo: nat, hi: nat, first: bool): seq<Formula>
    requires AllInProblem(P, loops)
  {
    if loops == [] then []
    else Blocks(P, C, loops[..|loops| - 1], lo, hi, first) + Block(BodyOf(P, C, loops[|loops| - 1], first), lo, hi)
  }

  function FamilyBlocks(P: Problem, C: Cascade, family: Family, lo: nat, hi: nat, first: bool): seq<Formula> {
    LoopsInProblem(P, family, SizeOf(P, family));
    Blocks(P, C, AllLoops(P, family), lo, hi, first)
  }

  /** What one call of the main method asserts when lo happenings are already encoded. */
  function EncodeSpec(P: Problem, C: Cascade, lo: nat, hi: nat): seq<Formula>
    requires hi > 0
  {
    var first := lo == 0;
    Block(BodyOf(P, C, Timings, first), lo, hi) +
    FamilyBlocks(P, C, TilFamily, lo, hi, first) +
    (if first then InitSpec(P) else []) +
    GoalOutput(P, C, hi).asserted +
    FamilyBlocks(P, C, OpVarsFamily, lo, hi, first) +
    FamilyBlocks(P, C, OpBodyFamily, lo, hi, first) +
    FamilyBlocks(P, C, LitFamily, lo, hi, first) +
    FamilyBlocks(P, C, FnFamily, lo, hi, first)
  }
}
