/** The reference semantics: what a run of a grounded problem is, told without formulas.
    A happening is a chain of layers; running durative actions carry the absolute time at
    which they are due to end. */
module Semantics {
  import opened Numbers
  import opened Pddl

  datatype State = State(lits: set<nat>, vals: seq<real>)

  datatype Happening = Happening(
    time: real,
    layers: seq<State>,
    events: seq<set<nat>>,        // fired in each layer but the last
    starts: set<nat>,             // durative and instantaneous actions
    ends: set<nat>,               // durative actions
    due: map<nat, real>,          // durative actions running afterwards, with their end times
    processes: set<nat>)          // processes running afterwards

  type Run = seq<Happening>

  // ----- Meaning of expressions and conditions -----

  function Evaluate(e: Expr, vals: seq<real>, duration: real): real {
    match e
    case Num(v) => v
    case Fluent(fn) => if fn < |vals| then vals[fn] else 0.0
    case Duration => duration
    case Plus(l, r) => Evaluate(l, vals, duration) + Evaluate(r, vals, duration)
    case Minus(l, r) => Evaluate(l, vals, duration) - Evaluate(r, vals, duration)
    case Times(l, r) => Evaluate(l, vals, duration) * Evaluate(r, vals, duration)
    case UMinus(e1) => -Evaluate(e1, vals, duration)
  }

  predicate Compares(op: CompOp, l: real, r: real) {
    match op
    case Greater => l > r
    case GreatEq => l >= r
    case Less => l < r
    case LessEq => l <= r
    case Equals => l == r
  }

  ghost predicate Sat(g: Goal, s: State, duration: real) {
    match g
    case Simple(lit) => lit in s.lits
    case Compare(op, lhs, rhs) => Compares(op, Evaluate(lhs, s.vals, duration), Evaluate(rhs, s.vals, duration))
    case Neg(g1) => !Sat(g1, s, duration)
    case Conj(gs) => forall g1 | g1 in gs :: Sat(g1, s, duration)
    case Disj(gs) => exists g1 | g1 in gs :: Sat(g1, s, duration)
    case Imply(p, q) => Sat(p, s, duration) ==> Sat(q, s, duration)
  }

  predicate AtomSat(a: Atom, s: State, duration: real) {
    match a
    case LitAtom(negated, lit) => (lit in s.lits) != negated
    case CompAtom(op, lhs, rhs) => Compares(op, Evaluate(lhs, s.vals, duration), Evaluate(rhs, s.vals, duration))
  }

  // ----- Inside one happening -----

  ghost predicate Affects(P: Problem, who: set<nat>, role: Role, id: nat) {
    exists i | i in who :: i < |P.ops| && id in RoleOfOp(P.ops[i], role)
  }

  /** Something that fires in layer b adds l to layer b+1. Actions act on the last layer. */
  ghost predicate Added(P: Problem, C: Cascade, x: Happening, b: nat, l: nat)
    requires b < |x.events|
  {
    || Affects(P, x.events[b], EventAdd, l)
    || (b == C - 2 && (Affects(P, x.starts, StartAdd, l) || Affects(P, x.ends, EndAdd, l)))
  }

  ghost predicate Deleted(P: Problem, C: Cascade, x: Happening, b: nat, l: nat)
    requires b < |x.events|
  {
    || Affects(P, x.events[b], EventDel, l)
    || (b == C - 2 && (Affects(P, x.starts, StartDel, l) || Affects(P, x.ends, EndDel, l)))
  }

  ghost predicate Assigned(P: Problem, x: Happening, fn: nat) {
    Affects(P, x.starts, StartAssign, fn) || Affects(P, x.ends, EndAssign, fn)
  }

  /** The new truth value is the old one plus adds minus deletes, and they do not clash. */
  ghost predicate Updates(before: bool, after: bool, added: bool, deleted: bool) {
    !(added && deleted) && (after <==> added || (before && !deleted))
  }

  ghost predicate WellShaped(P: Problem, C: Cascade, x: Happening) {
    var numbered :=
      && (forall s | s in x.layers :: |s.vals| == P.fns && forall l | l in s.lits :: l < P.lits)
      && (forall e | e in x.events :: forall i | i in e :: i < |P.ops| && P.ops[i].Event?)
      && (forall i | i in x.starts :: i < |P.ops| && (P.ops[i].Durative? || P.ops[i].Instant?))
      && (forall i | i in x.ends :: i < |P.ops| && P.ops[i].Durative?)
      && (forall i | i in x.due :: i < |P.ops| && P.ops[i].Durative?)
      && (forall i | i in x.processes :: i < |P.ops| && P.ops[i].Process?);
    |x.layers| == C && |x.events| == C - 1 && numbered
  }

  ghost predicate LayerStep(P: Problem, C: Cascade, x: Happening, b: nat)
    requires WellShaped(P, C, x) && b < C - 1
  {
    && (forall l | 0 <= l < P.lits ::
          Updates(l in x.layers[b].lits, l in x.layers[b + 1].lits, Added(P, C, x, b, l), Deleted(P, C, x, b, l)))
    && (forall fn | 0 <= fn < P.fns ::
          (b == C - 2 && Assigned(P, x, fn)) || x.layers[b].vals[fn] == x.layers[b + 1].vals[fn])
  }

  predicate AssignHolds(a: Assignment, before: seq<real>, after: seq<real>, duration: real)
    requires a.fn < |before| && a.fn < |after|
  {
    var e := Evaluate(a.rhs, before, duration);
    match a.op
    case Assign => after[a.fn] == e
    case Increase => after[a.fn] == before[a.fn] + e
    case Decrease => after[a.fn] == before[a.fn] - e
    case ScaleUp => after[a.fn] == before[a.fn] * e
  }

  ghost predicate AssignsHold(assigns: seq<Assignment>, before: seq<real>, after: seq<real>, duration: real) {
    forall a | a in assigns :: a.fn < |before| && a.fn < |after| && AssignHolds(a, before, after, duration)
  }

  function DurationAt(x: Happening, i: nat): real {
    if i in x.due then x.due[i] - x.time else 0.0
  }

  /** Events fire exactly when enabled, in every layer but the last. */
  ghost predicate EventsFire(P: Problem, C: Cascade, x: Happening)
    requires WellShaped(P, C, x)
  {
    forall b, i | 0 <= b < C - 1 && 0 <= i < |P.ops| && P.ops[i].Event? ::
      i in x.events[b] <==> Sat(P.ops[i].pre, x.layers[b], 0.0)
  }

  /** Processes run afterwards exactly when enabled in the last layer. */
  ghost predicate ProcessesRun(P: Problem, C: Cascade, x: Happening)
    requires WellShaped(P, C, x)
  {
    forall i | 0 <= i < |P.ops| && P.ops[i].Process? ::
      i in x.processes <==> Sat(P.ops[i].pre, x.layers[C - 1], 0.0)
  }

  ghost predicate StartAllowed(P: Problem, C: Cascade, x: Happening, i: nat)
    requires WellShaped(P, C, x) && i in x.starts
  {
    var s, t, d := x.layers[C - 2], x.layers[C - 1], DurationAt(x, i);
    match P.ops[i]
    case Durative(duration, atStart, _, _, start, _) =>
      i in x.due && Sat(duration, s, d) && Sat(atStart, s, d) && AssignsHold(start.assigns, s.vals, t.vals, d)
    case Instant(pre, eff) => Sat(pre, s, 0.0) && AssignsHold(eff.assigns, s.vals, t.vals, 0.0)
    case _ => false
  }

  ghost predicate EndAllowed(P: Problem, C: Cascade, x: Happening, i: nat)
    requires WellShaped(P, C, x) && i in x.ends
  {
    var s, t := x.layers[C - 2], x.layers[C - 1];
    && Sat(P.ops[i].atEnd, s, 0.0)
    && AssignsHold(P.ops[i].end.assigns, s.vals, t.vals, 0.0)
    && forall a | a in Atoms(P.ops[i].overAll) && a.CompAtom? :: AtomSat(a, s, 0.0)
  }

  ghost predicate ActionsAllowed(P: Problem, C: Cascade, x: Happening)
    requires WellShaped(P, C, x)
  {
    && (forall i | i in x.starts :: StartAllowed(P, C, x, i))
    && (forall i | i in x.ends :: EndAllowed(P, C, x, i))
    && (forall i | i in x.due :: x.due[i] > x.time && Sat(P.ops[i].overAll, x.layers[C - 2], DurationAt(x, i)))
  }

  ghost predicate Within(P: Problem, C: Cascade, x: Happening) {
    && WellShaped(P, C, x)
    && EventsFire(P, C, x)
    && ProcessesRun(P, C, x)
    && ActionsAllowed(P, C, x)
    && forall b | 0 <= b < C - 1 :: LayerStep(P, C, x, b)
  }

  // ----- Between two happenings -----

  ghost predicate TilAffects(P: Problem, time: real, role: Role, id: nat) {
    exists k | 0 <= k < |P.tils| :: P.tils[k].stamp == time && id in RoleOfTil(P.tils[k], role)
  }

  ghost predicate TilAssignsHold(P: Problem, x: Happening)
    requires |x.layers| > 0
  {
    forall k | 0 <= k < |P.tils| && P.tils[k].stamp == x.time ::
      AssignsHold(P.tils[k].eff.assigns, x.layers[0].vals, x.layers[0].vals, 0.0)
  }

  predicate RunsAfter(x: Happening, i: nat) {
    i in x.due || i in x.processes
  }

  function SymbolValue(s: Symbol, vals: seq<real>, elapsed: real): real {
    match s
    case HashT => elapsed
    case Function(fn) => if fn < |vals| then vals[fn] else 0.0
  }

  function MonomialValue(cf: real, factors: seq<Factor>, vals: seq<real>, elapsed: real): real {
    if factors == [] then cf
    else
      var last := factors[|factors| - 1];
      MonomialValue(cf, factors[..|factors| - 1], vals, elapsed) * Power(SymbolValue(last.sym, vals, elapsed), last.power)
  }

  function PolyValue(poly: seq<Monomial>, vals: seq<real>, elapsed: real): real {
    if poly == [] then 0.0
    else
      var last := poly[|poly| - 1];
      PolyValue(poly[..|poly| - 1], vals, elapsed) + MonomialValue(last.cf, last.factors, vals, elapsed)
  }

  /** The running operators are exactly as the flow asks. */
  predicate Matches(operators: seq<int>, x: Happening) {
    forall o | o in operators :: RunsAfter(x, OpOf(o)) <==> o > 0
  }

  predicate Idle(operators: seq<int>, x: Happening) {
    forall o | o in operators :: !RunsAfter(x, OpOf(o))
  }

  /** If the flow describes what runs after p, it gives the value at the opening of x. */
  ghost predicate FlowApplies(P: Problem, C: Cascade, p: Happening, x: Happening, fn: nat, f: Flow)
    requires WellShaped(P, C, p) && WellShaped(P, C, x) && fn < P.fns
  {
    Matches(f.operators, p) ==>
      x.layers[0].vals[fn] == PolyValue(f.poly, p.layers[C - 1].vals, x.time - p.time)
  }

  /** The first n flows of the function do. */
  ghost predicate FlowsApply(P: Problem, C: Cascade, p: Happening, x: Happening, fn: nat, n: nat)
    requires WellShaped(P, C, p) && WellShaped(P, C, x) && fn < P.fns == |P.flows| && n <= |P.flows[fn]|
  {
    forall k | 0 <= k < n :: FlowApplies(P, C, p, x, fn, P.flows[fn][k])
  }

  ghost predicate Unchanged(P: Problem, C: Cascade, p: Happening, x: Happening, fn: nat)
    requires WellShaped(P, C, p) && WellShaped(P, C, x) && fn < P.fns
  {
    x.layers[0].vals[fn] == p.layers[C - 1].vals[fn]
  }

  /** The value of a function when the next happening opens. */
  ghost predicate FlowStep(P: Problem, C: Cascade, p: Happening, x: Happening, fn: nat)
    requires WellShaped(P, C, p) && WellShaped(P, C, x) && fn < P.fns == |P.flows|
  {
    var flows := P.flows[fn];
    || TilAffects(P, x.time, TilAssign, fn)
    || (flows == [] && Unchanged(P, C, p, x, fn))
    || (flows != []
        && (Idle(flows[0].operators, p) ==> Unchanged(P, C, p, x, fn))
        && FlowsApply(P, C, p, x, fn, |flows|))
  }

  function Difference(a: Atom, vals: seq<real>): real
    requires a.CompAtom?
  {
    Evaluate(a.lhs, vals, 0.0) - Evaluate(a.rhs, vals, 0.0)
  }

  /** lhs - rhs does not change strict sign from one valuation to the other. */
  predicate Keeps(a: Atom, before: seq<real>, after: seq<real>)
    requires a.CompAtom?
  {
    SameSide(Difference(a, before), Difference(a, after))
  }

  /** No comparison of the condition changes strict sign from the end of p to the opening of x. */
  ghost predicate NoCrossing(C: Cascade, g: Goal, p: Happening, x: Happening)
    requires |p.layers| == |x.layers| == C
  {
    forall a | a in Atoms(g) && a.CompAtom? :: Keeps(a, p.layers[C - 1].vals, x.layers[0].vals)
  }

  predicate IsDurative(P: Problem, i: nat) {
    i < |P.ops| && P.ops[i].Durative?
  }

  /** One operator from the running actions p to the happening x. */
  ghost predicate DueStepFor(P: Problem, p: map<nat, real>, x: Happening, i: nat) {
    && (i in p ==> p[i] >= x.time)
    && (i in x.ends <==> i in p && p[i] == x.time)
    && (i in x.starts && IsDurative(P, i) ==> i !in p)
    && (i in x.due <==> (i in p && i !in x.ends) || (i in x.starts && IsDurative(P, i)))
    && (i in p && i in x.due ==> x.due[i] == p[i])
  }

  /** Who runs: actions due now end, others go on, started ones join; none is overdue. */
  ghost predicate DueStep(P: Problem, p: map<nat, real>, x: Happening) {
    forall i: nat :: DueStepFor(P, p, x, i)
  }

  /** Time moves on by a tenth or more and passes no stamp. */
  ghost predicate TimePasses(P: Problem, p: Happening, x: Happening) {
    && x.time >= p.time + 0.1
    && forall k | 0 <= k < |P.tils| :: !(p.time < P.tils[k].stamp < x.time)
  }

  /** Layer 0 is the last layer before, updated by the timed literals of the instant. */
  ghost predicate LitsOpen(P: Problem, C: Cascade, p: Happening, x: Happening)
    requires WellShaped(P, C, p) && WellShaped(P, C, x)
  {
    forall l | 0 <= l < P.lits ::
      Updates(l in p.layers[C - 1].lits, l in x.layers[0].lits,
              TilAffects(P, x.time, TilAdd, l), TilAffects(P, x.time, TilDel, l))
  }

  ghost predicate FnsOpen(P: Problem, C: Cascade, p: Happening, x: Happening)
    requires WellShaped(P, C, p) && WellShaped(P, C, x) && P.fns == |P.flows|
  {
    forall fn | 0 <= fn < P.fns :: FlowStep(P, C, p, x, fn)
  }

  /** No event condition, and no condition of a process running in between, crosses zero unseen. */
  ghost predicate NoneCrossed(P: Problem, C: Cascade, p: Happening, x: Happening)
    requires WellShaped(P, C, p) && WellShaped(P, C, x)
  {
    forall i | 0 <= i < |P.ops| && (P.ops[i].Event? || (P.ops[i].Process? && i in p.processes)) ::
      NoCrossing(C, P.ops[i].pre, p, x)
  }

  ghost predicate Between(P: Problem, C: Cascade, p: Happening, x: Happening)
    requires WellShaped(P, C, p) && WellShaped(P, C, x) && P.fns == |P.flows|
  {
    && TimePasses(P, p, x)
    && LitsOpen(P, C, p, x)
    && TilAssignsHold(P, x)
    && FnsOpen(P, C, p, x)
    && DueStep(P, p.due, x)
    && NoneCrossed(P, C, p, x)
  }

  ghost predicate Initial(P: Problem, C: Cascade, x: Happening)
    requires WellShaped(P, C, x)
  {
    && x.time == 0.0
    && (forall l | 0 <= l < P.lits ::
          && (l in x.layers[0].lits <==> l in P.init)
          && (TilAffects(P, x.time, TilAdd, l) ==> l in P.init)
          && (TilAffects(P, x.time, TilDel, l) ==> l !in P.init))
    && TilAssignsHold(P, x)
    && (forall v | v in P.initVals :: v.0 < P.fns && x.layers[0].vals[v.0] == v.1)
    && DueStep(P, map[], x)
  }

  /** Happening h is legal in itself and after the one before it. */
  ghost predicate LegalAt(P: Problem, C: Cascade, run: Run, h: nat)
    requires P.fns == |P.flows| && h < |run|
  {
    && Within(P, C, run[h])
    && (h == 0 ==> Initial(P, C, run[0]))
    && (h > 0 ==> WellShaped(P, C, run[h - 1]) && Between(P, C, run[h - 1], run[h]))
  }

  ghost predicate Legal(P: Problem, C: Cascade, run: Run) {
    && P.fns == |P.flows|
    && |run| > 0
    && forall h | 0 <= h < |run| :: LegalAt(P, C, run, h)
  }

  /** The goal holds in the last layer and no durative action is left running. */
  ghost predicate Reaches(P: Problem, C: Cascade, run: Run) {
    |run| > 0 &&
    var x := run[|run| - 1];
    |x.layers| == C && Sat(P.goal, x.layers[C - 1], 0.0) && x.due == map[]
  }
}
