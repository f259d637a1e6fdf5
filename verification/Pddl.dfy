/** A grounded planning problem. Literals, functions, operators and timed initial
    literals are numbered from zero, as the instantiated stores number them. */
module Pddl {

  datatype Expr =
    | Num(v: real)
    | Fluent(fn: nat)
    | Duration
    | Plus(l: Expr, r: Expr)
    | Minus(l: Expr, r: Expr)
    | Times(l: Expr, r: Expr)
    | UMinus(e: Expr)

  datatype CompOp = Greater | GreatEq | Less | LessEq | Equals

  datatype Goal =
    | Simple(lit: nat)
    | Compare(op: CompOp, lhs: Expr, rhs: Expr)
    | Neg(g: Goal)
    | Conj(gs: seq<Goal>)
    | Disj(gs: seq<Goal>)
    | Imply(p: Goal, q: Goal)

  datatype AssignOp = Assign | Increase | Decrease | ScaleUp

  datatype Assignment = Assignment(fn: nat, op: AssignOp, rhs: Expr)

  /** Continuous assignments are not listed here: they reach the encoder as flows. */
  datatype Effects = Effects(adds: seq<nat>, dels: seq<nat>, assigns: seq<Assignment>)

  datatype Op =
    | Durative(duration: Goal, atStart: Goal, overAll: Goal, atEnd: Goal, start: Effects, end: Effects)
    | Instant(pre: Goal, eff: Effects)
    | Event(pre: Goal, eff: Effects)
    | Process(pre: Goal)

  datatype Til = Til(stamp: real, eff: Effects)

  datatype Symbol = HashT | Function(fn: nat)
  datatype Factor = Factor(sym: Symbol, power: nat)
  datatype Monomial = Monomial(cf: real, factors: seq<Factor>)

  /** One combination of running operators (+id+1 running, -id-1 not running, in
      ascending order) and the polynomial that then describes the function. */
  datatype Flow = Flow(operators: seq<int>, poly: seq<Monomial>)

  datatype Problem = Problem(
    lits: nat,
    fns: nat,
    init: seq<nat>,
    initVals: seq<(nat, real)>,
    tils: seq<Til>,
    ops: seq<Op>,
    goal: Goal,
    flows: seq<seq<Flow>>)

  /** The length of the cascade inside one happening; the option parser keeps it at 2 or more. */
  type Cascade = c: nat | c >= 2 witness 2

  // ----- What affects what -----

  datatype Role =
    | StartAdd | StartDel | EndAdd | EndDel | EventAdd | EventDel | TilAdd | TilDel
    | StartAssign | EndAssign | TilAssign

  function AssignedFns(assigns: seq<Assignment>): (fns: seq<nat>)
    ensures |fns| == |assigns| && forall k | 0 <= k < |fns| :: fns[k] == assigns[k].fn
  {
    seq(|assigns|, k requires 0 <= k < |assigns| => assigns[k].fn)
  }

  function RoleOfOp(o: Op, role: Role): seq<nat> {
    match o
    case Durative(_, _, _, _, start, end) =>
      (match role
       case StartAdd => start.adds
       case StartDel => start.dels
       case EndAdd => end.adds
       case EndDel => end.dels
       case StartAssign => AssignedFns(start.assigns)
       case EndAssign => AssignedFns(end.assigns)
       case _ => [])
    case Instant(_, eff) =>
      (match role
       case StartAdd => eff.adds
       case StartDel => eff.dels
       case StartAssign => AssignedFns(eff.assigns)
       case _ => [])
    case Event(_, eff) =>
      (match role
       case EventAdd => eff.adds
       case EventDel => eff.dels
       case _ => [])
    case Process(_) => []
  }

  function RoleOfTil(t: Til, role: Role): seq<nat> {
    match role
    case TilAdd => t.eff.adds
    case TilDel => t.eff.dels
    case TilAssign => AssignedFns(t.eff.assigns)
    case _ => []
  }

  // ----- Well-formedness: every number refers to something -----

  predicate WfExpr(P: Problem, e: Expr, durationOk: bool) {
    match e
    case Num(_) => true
    case Fluent(fn) => fn < P.fns
    case Duration => durationOk
    case Plus(l, r) => WfExpr(P, l, durationOk) && WfExpr(P, r, durationOk)
    case Minus(l, r) => WfExpr(P, l, durationOk) && WfExpr(P, r, durationOk)
    case Times(l, r) => WfExpr(P, l, durationOk) && WfExpr(P, r, durationOk)
    case UMinus(e1) => WfExpr(P, e1, durationOk)
  }

  /** numericOk is false where the source reads a stale time specifier for comparisons. */
  predicate WfGoal(P: Problem, g: Goal, durationOk: bool, numericOk: bool) {
    match g
    case Simple(lit) => lit < P.lits
    case Compare(_, lhs, rhs) => numericOk && WfExpr(P, lhs, durationOk) && WfExpr(P, rhs, durationOk)
    case Neg(g1) => WfGoal(P, g1, durationOk, numericOk)
    case Conj(gs) => forall g1 | g1 in gs :: WfGoal(P, g1, durationOk, numericOk)
    case Disj(gs) => forall g1 | g1 in gs :: WfGoal(P, g1, durationOk, numericOk)
    case Imply(p, q) => WfGoal(P, p, durationOk, numericOk) && WfGoal(P, q, durationOk, numericOk)
  }

  predicate WfEffects(P: Problem, e: Effects, durationOk: bool) {
    && (forall l | l in e.adds :: l < P.lits)
    && (forall l | l in e.dels :: l < P.lits)
    && (forall a | a in e.assigns :: a.fn < P.fns && WfExpr(P, a.rhs, durationOk))
  }

  predicate WfOp(P: Problem, o: Op) {
    match o
    case Durative(duration, atStart, overAll, atEnd, start, end) =>
      && WfGoal(P, duration, true, true)
      && WfGoal(P, atStart, true, true) && WfGoal(P, overAll, true, true) && WfGoal(P, atEnd, true, true)
      && WfEffects(P, start, true) && WfEffects(P, end, true)
    case Instant(pre, eff) => WfGoal(P, pre, false, false) && WfEffects(P, eff, false)
    case Event(pre, eff) => WfGoal(P, pre, false, true) && WfEffects(P, eff, false) && eff.assigns == []
    case Process(pre) => WfGoal(P, pre, false, true)
  }

  predicate WfTil(P: Problem, t: Til) {
    && WfEffects(P, t.eff, false)
    && forall a | a in t.eff.assigns :: a.op == Assign
  }

  /** The operator behind a signed flow key. */
  function OpOf(o: int): nat {
    if o < 0 then -o - 1 else if o > 0 then o - 1 else 0
  }

  /** Has running variables: a durative action or a process. */
  predicate Runs(P: Problem, i: nat) {
    i < |P.ops| && (P.ops[i].Durative? || P.ops[i].Process?)
  }

  predicate WfFlow(P: Problem, f: Flow) {
    && (forall o | o in f.operators :: o != 0 && Runs(P, OpOf(o)))
    && (forall m | m in f.poly :: forall a | a in m.factors :: a.sym.Function? ==> a.sym.fn < P.fns)
  }

  predicate WellFormed(P: Problem) {
    var inRange :=
      && (forall l | l in P.init :: l < P.lits)
      && (forall v | v in P.initVals :: v.0 < P.fns)
      && (forall t | t in P.tils :: WfTil(P, t))
      && (forall o | o in P.ops :: WfOp(P, o))
      && WfGoal(P, P.goal, false, true)
      && (forall k | 0 <= k < |P.flows| :: forall f | f in P.flows[k] :: WfFlow(P, f));
    |P.flows| == P.fns && inRange
  }

  // ----- Goals as conjunctions of atoms -----

  /** What the goal visitors deliver one at a time. A comparison carries no polarity. */
  datatype Atom =
    | LitAtom(negated: bool, lit: nat)
    | CompAtom(op: CompOp, lhs: Expr, rhs: Expr)

  /** The atoms visited under a goal: negation flips the polarity below it, disjunctions
      and implications are visited by empty bodies. */
  function Flatten(g: Goal, negated: bool): seq<Atom> {
    match g
    case Simple(lit) => [LitAtom(negated, lit)]
    case Compare(op, lhs, rhs) => [CompAtom(op, lhs, rhs)]
    case Neg(g1) => Flatten(g1, !negated)
    case Conj(gs) => FlattenAll(gs, negated)
    case Disj(_) => []
    case Imply(_, _) => []
  }

  function FlattenAll(gs: seq<Goal>, negated: bool): seq<Atom> {
    if gs == [] then [] else Flatten(gs[0], negated) + FlattenAll(gs[1..], negated)
  }

  function Atoms(g: Goal): seq<Atom> {
    Flatten(g, false)
  }

  predicate WfAtom(P: Problem, a: Atom, durationOk: bool, numericOk: bool) {
    match a
    case LitAtom(_, lit) => lit < P.lits
    case CompAtom(_, lhs, rhs) => numericOk && WfExpr(P, lhs, durationOk) && WfExpr(P, rhs, durationOk)
  }

  lemma FlattenWellFormed(P: Problem, g: Goal, negated: bool, durationOk: bool, numericOk: bool)
    requires WfGoal(P, g, durationOk, numericOk)
    ensures forall a | a in Flatten(g, negated) :: WfAtom(P, a, durationOk, numericOk)
  {
    match g
    case Conj(gs) => FlattenAllWellFormed(P, gs, negated, durationOk, numericOk);
    case _ =>
  }

  lemma FlattenAllWellFormed(P: Problem, gs: seq<Goal>, negated: bool, durationOk: bool, numericOk: bool)
    requires forall g | g in gs :: WfGoal(P, g, durationOk, numericOk)
    ensures forall a | a in FlattenAll(gs, negated) :: WfAtom(P, a, durationOk, numericOk)
  {
    if gs != [] {
      FlattenWellFormed(P, gs[0], negated, durationOk, numericOk);
      FlattenAllWellFormed(P, gs[1..], negated, durationOk, numericOk);
    }
  }
}
