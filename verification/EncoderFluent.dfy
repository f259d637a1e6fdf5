/** The fluent encoder as it works, on its first call and for propositional problems. Conditions,
    effects and goals are nested choices over the slots of a literal, rebuilt each time; the
    effect lists are filled while operators are visited. */
module FluentEncoder {
  import opened Smt
  import opened Pddl
  import opened HappeningSpec
  import opened EncoderState
  import opened FluentSpec

  // ----- Lists of formulas -----

  lemma SlotsJoinConcat(P: Problem, C: Cascade, ctx: Context, before: Output, a: seq<Atom>, b: seq<Atom>)
    requires ctx.seen <= |P.ops|
    ensures Join(Join(before, EmitAllSlots(P, C, ctx, a)), EmitAllSlots(P, C, ctx, b)) ==
            Join(before, EmitAllSlots(P, C, ctx, a + b))
  {
    EmitAllSlotsConcat(P, C, ctx, a, b);
    JoinAssociative(before, EmitAllSlots(P, C, ctx, a), EmitAllSlots(P, C, ctx, b));
  }

  lemma EmitAllSlotsOne(P: Problem, C: Cascade, ctx: Context, a: Atom)
    requires ctx.seen <= |P.ops|
    ensures EmitAllSlots(P, C, ctx, [a]) == EmitSlots(P, C, ctx, a)
  {
    assert [a][1..] == [];
    assert EmitAllSlots(P, C, ctx, [a]) == Join(EmitSlots(P, C, ctx, a), EmitAllSlots(P, C, ctx, []));
  }

  lemma SlotEffectsSnoc(ids: seq<nat>, last: nat, negated: bool, trigger: BoolVar, h: nat)
    ensures SlotEffects(ids + [last], negated, trigger, h) ==
            SlotEffects(ids, negated, trigger, h) + [Implies(Bool(trigger), ReadSlots(last, h, 1, negated))]
  {
    assert (ids + [last])[..|ids|] == ids;
  }

  lemma EnablersSnoc(lit: nat, slot: nat, end: bool, users: seq<nat>, last: nat, H: nat)
    ensures Enablers(lit, slot, end, users + [last], H) ==
            Enablers(lit, slot, end, users, H) + [HappeningIte(lit, slot, end, last, 0, H)]
  {
    assert (users + [last])[..|users|] == users;
  }

  lemma AppendSnoc(s: seq<Formula>, body: nat -> seq<Formula>, lo: nat, n: nat, before: seq<Formula>, after: seq<Formula>)
    requires lo <= n && before == s + Block(body, lo, n) && after == before + body(n)
    ensures after == s + Block(body, lo, n + 1)
  {
    assert Block(body, lo, n + 1) == Block(body, lo, n) + body(n);
  }

  lemma AppendParts(s: seq<Formula>, a: seq<Formula>, b: seq<Formula>, c: seq<Formula>, d: seq<Formula>, e: seq<Formula>,
                  f: seq<Formula>)
    ensures s + a + b + c + d + e + f == s + (a + b + c + d + e + f)
  {
  }

  // ----- What a visit appends to the solver -----

  datatype SlotPart =
    | ConditionOf(mode: Mode, time: TimeSpec, i: nat, h: nat, g: Goal)
    | EffectsOf(e: Effects, end: bool, i: nat, h: nat)
    | LayerOfOp(i: nat, h: nat)
    | LayersOfOp(i: nat, n: nat)
    | FirstOps(n: nat, H: nat)

  predicate SlotPartInProblem(P: Problem, part: SlotPart) {
    match part
    case ConditionOf(_, _, i, _, _) => i < |P.ops|
    case EffectsOf(_, _, _, _) => true
    case LayerOfOp(i, _) => i < |P.ops|
    case LayersOfOp(i, _) => i < |P.ops|
    case FirstOps(_, _) => true
  }

  function SlotPartFormulas(P: Problem, C: Cascade, part: SlotPart): seq<Formula>
    requires SlotPartInProblem(P, part)
  {
    match part
    case ConditionOf(mode, time, i, h, g) => EmitAllSlots(P, C, Context(mode, i, h, 1, time, i + 1), Atoms(g)).asserted
    case EffectsOf(e, end, i, h) => SlotActionEffects(e, StartOrEnd(end, i, h), h)
    case LayerOfOp(i, h) => SlotOp(P, C, i)(h)
    case LayersOfOp(i, n) => Block(SlotOp(P, C, i), 0, n)
    case FirstOps(n, H) => Block(OpLoop(P, C, H), 0, n)
  }

  /** Whether exactly the formulas of the part have been appended; see Relation. */
  type SlotRelation = (SlotPart, seq<Formula>, seq<Formula>) -> bool

  ghost function SlotAppends(P: Problem, C: Cascade): SlotRelation {
    (part: SlotPart, before: seq<Formula>, after: seq<Formula>) =>
      SlotPartInProblem(P, part) && after == before + SlotPartFormulas(P, C, part)
  }

  ghost predicate IsSlotAppends(P: Problem, C: Cascade, made: SlotRelation) {
    forall key {:trigger Opened(key)} | Opened(key) && key == PartKey :: made == SlotAppends(P, C)
  }

  lemma SlotsMade(P: Problem, C: Cascade, made: SlotRelation, part: SlotPart, before: seq<Formula>, after: seq<Formula>)
    requires IsSlotAppends(P, C, made) && made(part, before, after)
    ensures SlotPartInProblem(P, part) && after == before + SlotPartFormulas(P, C, part)
  {
    assert Opened(PartKey);
  }

  lemma SlotsMake(P: Problem, C: Cascade, made: SlotRelation, part: SlotPart, before: seq<Formula>, after: seq<Formula>)
    requires IsSlotAppends(P, C, made) && SlotPartInProblem(P, part) && after == before + SlotPartFormulas(P, C, part)
    ensures made(part, before, after)
  {
    assert Opened(PartKey);
  }

  /** Outside goals nothing is assumed retractably. */
  lemma {:induction false} NoGoals(P: Problem, C: Cascade, ctx: Context, atoms: seq<Atom>)
    requires ctx.seen <= |P.ops| && ctx.mode != GoalMode && ctx.mode != TriggerMode
    ensures EmitAllSlots(P, C, ctx, atoms).goals == []
  {
    if atoms != [] {
      NoGoals(P, C, ctx, atoms[1..]);
    }
  }

  /** A visit of the condition has written just what it calls for. */
  ghost predicate Wrote(P: Problem, C: Cascade, ctx: Context, g: Goal, before: Output, after: Output) {
    forall key {:trigger Opened(key)} | Opened(key) && key == PartKey ::
      ctx.seen <= |P.ops| && after == Join(before, EmitAllSlots(P, C, ctx, Atoms(g)))
  }

  predicate ConditionState(state: EncState, mode: Mode) {
    (state.ActionDuration? || state.ActionCondition? || state.SimpleActionCondition?) && mode == ModeOf(state)
  }

  lemma ContextIs(e: Visit, mode: Mode, time: TimeSpec)
    requires ConditionState(e.state, mode) && e.b == 1 && (e.state != ActionCondition ==> time == AtStart)
    requires e.condTime == time
    ensures ContextOf(e, e.opID + 1) == Context(mode, e.opID, e.h, 1, time, e.opID + 1)
    ensures mode != GoalMode && mode != TriggerMode
  {
  }

  lemma ConditionAppended(P: Problem, C: Cascade, made: SlotRelation, e: Visit, mode: Mode, time: TimeSpec, g: Goal,
                          before: Output, after: Output)
    requires IsSlotAppends(P, C, made) && e.opID < |P.ops| && e.b == 1 && ConditionState(e.state, mode)
    requires e.condTime == time && (e.state != ActionCondition ==> time == AtStart)
    requires Wrote(P, C, ContextOf(e, e.opID + 1), g, before, after)
    ensures made(ConditionOf(mode, time, e.opID, e.h, g), before.asserted, after.asserted)
    ensures after.goals == before.goals
  {
    ConditionWrites(P, C, e, mode, time, g, before, after);
    SlotsMake(P, C, made, ConditionOf(mode, time, e.opID, e.h, g), before.asserted, after.asserted) by {
      assert Opened(PartKey);
    }
  }

  /** Conditions only assert. */
  lemma ConditionWrites(P: Problem, C: Cascade, e: Visit, mode: Mode, time: TimeSpec, g: Goal, before: Output, after: Output)
    requires e.opID < |P.ops| && e.b == 1 && ConditionState(e.state, mode)
    requires e.condTime == time && (e.state != ActionCondition ==> time == AtStart)
    requires Wrote(P, C, ContextOf(e, e.opID + 1), g, before, after)
    ensures after.asserted ==
            before.asserted + EmitAllSlots(P, C, Context(mode, e.opID, e.h, 1, time, e.opID + 1), Atoms(g)).asserted
    ensures after.goals == before.goals
  {
    assert Opened(PartKey);
    ContextIs(e, mode, time);
    NoGoals(P, C, Context(mode, e.opID, e.h, 1, time, e.opID + 1), Atoms(g));
  }

  lemma DurativeMade(P: Problem, C: Cascade, made: SlotRelation, i: nat, h: nat, s0: seq<Formula>, s1: seq<Formula>,
                     s2: seq<Formula>, s3: seq<Formula>, s4: seq<Formula>, s5: seq<Formula>, s6: seq<Formula>)
    requires IsSlotAppends(P, C, made) && IsDurative(P, i)
    requires made(ConditionOf(DurationMode, AtStart, i, h, P.ops[i].duration), s0, s1)
    requires made(EffectsOf(P.ops[i].start, false, i, h), s1, s2)
    requires made(EffectsOf(P.ops[i].end, true, i, h), s2, s3)
    requires made(ConditionOf(ConditionMode, AtStart, i, h, P.ops[i].atStart), s3, s4)
    requires made(ConditionOf(ConditionMode, OverAll, i, h, P.ops[i].overAll), s4, s5)
    requires made(ConditionOf(ConditionMode, AtEnd, i, h, P.ops[i].atEnd), s5, s6)
    ensures made(LayerOfOp(i, h), s0, s6)
  {
    var o := P.ops[i];
    var p1 := ConditionOf(DurationMode, AtStart, i, h, o.duration);
    var p2, p3 := EffectsOf(o.start, false, i, h), EffectsOf(o.end, true, i, h);
    var p4, p5 := ConditionOf(ConditionMode, AtStart, i, h, o.atStart), ConditionOf(ConditionMode, OverAll, i, h, o.overAll);
    var p6 := ConditionOf(ConditionMode, AtEnd, i, h, o.atEnd);
    SlotsMade(P, C, made, p1, s0, s1);
    SlotsMade(P, C, made, p2, s1, s2);
    SlotsMade(P, C, made, p3, s2, s3);
    SlotsMade(P, C, made, p4, s3, s4);
    SlotsMade(P, C, made, p5, s4, s5);
    SlotsMade(P, C, made, p6, s5, s6);
    AppendParts(s0, SlotPartFormulas(P, C, p1), SlotPartFormulas(P, C, p2), SlotPartFormulas(P, C, p3),
                SlotPartFormulas(P, C, p4), SlotPartFormulas(P, C, p5), SlotPartFormulas(P, C, p6));
    SlotsMake(P, C, made, LayerOfOp(i, h), s0, s6);
  }

  lemma InstantMade(P: Problem, C: Cascade, made: SlotRelation, i: nat, h: nat, s0: seq<Formula>, s1: seq<Formula>, s2: seq<Formula>)
    requires IsSlotAppends(P, C, made) && i < |P.ops| && P.ops[i].Instant?
    requires made(EffectsOf(P.ops[i].eff, false, i, h), s0, s1)
    requires made(ConditionOf(InstantConditionMode, AtStart, i, h, P.ops[i].pre), s1, s2)
    ensures made(LayerOfOp(i, h), s0, s2)
  {
    var p1, p2 := EffectsOf(P.ops[i].eff, false, i, h), ConditionOf(InstantConditionMode, AtStart, i, h, P.ops[i].pre);
    SlotsMade(P, C, made, p1, s0, s1);
    SlotsMade(P, C, made, p2, s1, s2);
    AppendTwice(s0, s1, s2, SlotPartFormulas(P, C, p1), SlotPartFormulas(P, C, p2));
    SlotsMake(P, C, made, LayerOfOp(i, h), s0, s2);
  }

  lemma NoLayerYet(P: Problem, C: Cascade, made: SlotRelation, i: nat, s: seq<Formula>)
    requires IsSlotAppends(P, C, made) && i < |P.ops|
    ensures made(LayersOfOp(i, 0), s, s)
  {
    SlotsMake(P, C, made, LayersOfOp(i, 0), s, s);
  }

  lemma OneMoreLayer(P: Problem, C: Cascade, made: SlotRelation, i: nat, h: nat, s0: seq<Formula>, s1: seq<Formula>, s2: seq<Formula>)
    requires IsSlotAppends(P, C, made) && made(LayersOfOp(i, h), s0, s1) && made(LayerOfOp(i, h), s1, s2)
    ensures made(LayersOfOp(i, h + 1), s0, s2)
  {
    SlotsMade(P, C, made, LayersOfOp(i, h), s0, s1);
    SlotsMade(P, C, made, LayerOfOp(i, h), s1, s2);
    AppendSnoc(s0, SlotOp(P, C, i), 0, h, s1, s2);
    SlotsMake(P, C, made, LayersOfOp(i, h + 1), s0, s2);
  }

  lemma NoOpYet(P: Problem, C: Cascade, made: SlotRelation, H: nat, s: seq<Formula>)
    requires IsSlotAppends(P, C, made)
    ensures made(FirstOps(0, H), s, s)
  {
    SlotsMake(P, C, made, FirstOps(0, H), s, s);
  }

  lemma OneMoreOperator(P: Problem, C: Cascade, made: SlotRelation, i: nat, H: nat, s0: seq<Formula>, s1: seq<Formula>, s2: seq<Formula>)
    requires IsSlotAppends(P, C, made) && made(FirstOps(i, H), s0, s1) && made(LayersOfOp(i, H), s1, s2)
    ensures made(FirstOps(i + 1, H), s0, s2)
  {
    SlotsMade(P, C, made, FirstOps(i, H), s0, s1);
    SlotsMade(P, C, made, LayersOfOp(i, H), s1, s2);
    AppendSnoc(s0, OpLoop(P, C, H), 0, i, s1, s2);
    SlotsMake(P, C, made, FirstOps(i + 1, H), s0, s2);
  }

  /** The lists the support constraints read are complete. */
  lemma ActionUsers(P: Problem, lists: map<(Role, nat), seq<nat>>, role: Role, lit: nat)
    requires ListsHold(P, lists, |P.ops|, |P.tils|) && role in {StartAdd, StartDel, EndAdd, EndDel}
    ensures ListOf(lists, role, lit) == Users(P, role, lit)
  {
    assert Opened(ListsKey);
  }

  lemma NoneListed(P: Problem)
    ensures ListsHold(P, map[], 0, 0)
  {
  }

  lemma NothingGrown(before: map<(Role, nat), seq<nat>>, after: map<(Role, nat), seq<nat>>, role: Role, who: nat)
    requires GrownBy(before, after, role, [], who)
    ensures Same(before, after)
  {
    forall r, id
      ensures ListOf(after, r, id) == ListOf(before, r, id)
    {
      assert Opened(GrownKey);
      assert Mentions([], id, who) == [];
    }
  }

  lemma SameTwice(x: map<(Role, nat), seq<nat>>, y: map<(Role, nat), seq<nat>>, z: map<(Role, nat), seq<nat>>)
    requires Same(x, y) && Same(y, z)
    ensures Same(x, z)
  {
    forall r, id
      ensures ListOf(z, r, id) == ListOf(x, r, id)
    {
      assert Opened(GrownKey);
    }
  }

  lemma ListsGrown(l0: map<(Role, nat), seq<nat>>, l1: map<(Role, nat), seq<nat>>, l2: map<(Role, nat), seq<nat>>,
                   e: Effects, kind: Kind, who: nat, recorded: bool)
    requires e.assigns == []
    requires GrownBy(l0, l1, LitRole(kind, false), if recorded then e.adds else [], who)
    requires GrownBy(l1, l2, LitRole(kind, true), if recorded then e.dels else [], who)
    ensures if recorded then Grown(l0, l2, e, kind, who) else Same(l0, l2)
  {
    if recorded {
      NoneRecorded(l2, FnRole(kind), who);
      assert AssignedFns(e.assigns) == [];
      GrownParts(l0, l1, l2, l2, e, kind, who);
    } else {
      NothingGrown(l0, l1, LitRole(kind, false), who);
      NothingGrown(l1, l2, LitRole(kind, true), who);
      SameTwice(l0, l1, l2);
    }
  }

  lemma FirstAssignment(e: Effects)
    requires e.assigns != []
    ensures e.assigns[0] in e.assigns
  {
  }

  lemma NoAssigns(P: Problem, e: Effects, durationOk: bool)
    requires P.fns == 0 && EffectsFit(P, e, durationOk)
    ensures e.assigns == []
  {
    assert Opened(ProblemKey);
    if e.assigns != [] {
      FirstAssignment(e);
    }
  }

  lemma DurativeEffectsFit(P: Problem, i: nat)
    requires ProblemFits(P) && IsDurative(P, i)
    ensures EffectsFit(P, P.ops[i].start, true) && EffectsFit(P, P.ops[i].end, true)
  {
    OpParts(P, i);
  }

  /** The effects have been added to the lists, or nothing has. */
  ghost predicate Recorded(before: map<(Role, nat), seq<nat>>, after: map<(Role, nat), seq<nat>>, e: Effects, kind: Kind,
                           who: nat, recorded: bool) {
    if recorded then Grown(before, after, e, kind, who) else Same(before, after)
  }

  lemma DurativeRecorded(P: Problem, before: map<(Role, nat), seq<nat>>, middle: map<(Role, nat), seq<nat>>,
                         after: map<(Role, nat), seq<nat>>, i: nat, recorded: bool)
    requires IsDurative(P, i) && ListsHold(P, before, if recorded then i else i + 1, |P.tils|)
    requires Recorded(before, middle, P.ops[i].start, StartKind, i, recorded)
    requires Recorded(middle, after, P.ops[i].end, EndKind, i, recorded)
    ensures ListsHold(P, after, i + 1, |P.tils|)
  {
    DurativeListsAfter(P, before, middle, after, i, i + 1, recorded);
  }

  lemma InstantRecorded(P: Problem, before: map<(Role, nat), seq<nat>>, after: map<(Role, nat), seq<nat>>, i: nat, recorded: bool)
    requires i < |P.ops| && P.ops[i].Instant? && ListsHold(P, before, if recorded then i else i + 1, |P.tils|)
    requires Recorded(before, after, P.ops[i].eff, StartKind, i, recorded)
    ensures ListsHold(P, after, i + 1, |P.tils|)
  {
    InstantListsAfter(P, before, after, i, i + 1, recorded);
  }

  class EncoderFluent {
    const P: Problem
    const C: Cascade

    var solver: seq<Formula>
    var goalExpression: seq<Formula>

    var nextLayer: nat
    var upperBound: nat
    var literalBound: nat
    var enc: Visit
    var affecting: map<(Role, nat), seq<nat>>
    ghost const made: SlotRelation

    /** Before the first call. */
    ghost predicate Fresh()
      reads this
    {
      && WellFormed(P) && Propositional(P) && IsSlotAppends(P, C, made) && nextLayer == 0 && !enc.condNeg && !enc.effNeg
      && ListsHold(P, affecting, 0, 0)
    }

    constructor (P: Problem, C: Cascade)
      requires WellFormed(P) && Propositional(P)
      ensures this.P == P && this.C == C && Fresh() && solver == [] && goalExpression == []
    {
      this.P, this.C := P, C;
      made := SlotAppends(P, C);
      solver, goalExpression, nextLayer, upperBound, literalBound := [], [], 0, 0, 0;
      enc := Visit(NoState, 0, 0, 0, 0, false, false, AtStart, AtStart, [], [], []);
      affecting := map[];
      NoneListed(P);
    }

    // ----- Reading slots -----

    method ReadLiteral(lit: nat, h: nat, b: nat, negated: bool) returns (ife: Formula)
      requires literalBound == LiteralBound
      ensures ife == ReadSlots(lit, h, b, negated)
    {
      ife := Truth(false);
      for l := 0 to literalBound
        invariant ife == SlotIte(lit, h, b, negated, l)
      {
        var v := Bool(SlotLit(lit, l, b));
        ife := Ite(Eq(Var(SlotTime(lit, l)), Var(Time(h))), if negated then Not(v) else v, ife);
      }
    }

    method ActionAtSlot(lit: nat, slot: nat, end: bool, who: nat) returns (ife: Formula)
      ensures ife == HappeningIte(lit, slot, end, who, 0, upperBound)
    {
      ife := Truth(false);
      for h := upperBound downto 0
        invariant ife == HappeningIte(lit, slot, end, who, h, upperBound)
      {
        var v := if end then Bool(End(who, h)) else Bool(Start(who, h));
        ife := Ite(Eq(Var(SlotTime(lit, slot)), Var(Time(h))), v, ife);
      }
    }

    // ----- Conditions -----

    ghost function Written(): Output
      reads `solver, `goalExpression
    {
      Output(solver, goalExpression, [], [])
    }

    ghost predicate CanVisit(numericOk: bool, seen: nat)
      reads `enc, `affecting, `literalBound
    {
      && literalBound == LiteralBound && seen <= |P.ops|
      && enc.state in {GoalState, ActionDuration, ActionCondition, SimpleActionCondition}
      && (enc.state == GoalState ==> enc.b == C - 1)
      && (enc.state == SimpleActionCondition ==> !numericOk)
      && (enc.state == ActionCondition || enc.state == SimpleActionCondition ==> ListsHold(P, affecting, seen, |P.tils|))
    }

    method VisitGoal(g: Goal, ghost durationOk: bool, ghost numericOk: bool, ghost seen: nat)
      requires CanVisit(numericOk, seen) && WfGoal(P, g, durationOk, numericOk)
      modifies `solver, `goalExpression, `enc
      ensures enc == old(enc)
      ensures Written() == Join(old(Written()), EmitAllSlots(P, C, ContextOf(enc, seen), Flatten(g, enc.condNeg)))
      decreases g
    {
      match g
      case Simple(lit) =>
        EmitAllSlotsOne(P, C, ContextOf(enc, seen), LitAtom(enc.condNeg, lit));
        VisitSimpleGoal(lit, numericOk, seen);
      case Compare(op, lhs, rhs) =>
        EmitAllSlotsOne(P, C, ContextOf(enc, seen), CompAtom(op, lhs, rhs));
        VisitComparison(op, lhs, rhs, seen);
      case Neg(g1) =>
        enc := enc.(condNeg := !enc.condNeg);
        VisitGoal(g1, durationOk, numericOk, seen);
        enc := enc.(condNeg := !enc.condNeg);
      case Conj(gs) => VisitGoals(gs, durationOk, numericOk, seen);
      case Disj(_) =>
      case Imply(_, _) =>
    }

    method VisitGoals(gs: seq<Goal>, ghost durationOk: bool, ghost numericOk: bool, ghost seen: nat)
      requires CanVisit(numericOk, seen) && forall g | g in gs :: WfGoal(P, g, durationOk, numericOk)
      modifies `solver, `goalExpression, `enc
      ensures enc == old(enc)
      ensures Written() == Join(old(Written()), EmitAllSlots(P, C, ContextOf(enc, seen), FlattenAll(gs, enc.condNeg)))
      decreases gs
    {
      ghost var before := Written();
      if gs == [] {
        JoinParts(before, [], [], [], []);
      } else {
        VisitGoal(gs[0], durationOk, numericOk, seen);
        VisitGoals(gs[1..], durationOk, numericOk, seen);
        SlotsJoinConcat(P, C, ContextOf(enc, seen), before, Flatten(gs[0], enc.condNeg), FlattenAll(gs[1..], enc.condNeg));
      }
    }

    method VisitSimpleGoal(lit: nat, ghost numericOk: bool, ghost seen: nat)
      requires CanVisit(numericOk, seen)
      modifies `solver, `goalExpression
      ensures Written() == Join(old(Written()), EmitSlotLit(P, C, ContextOf(enc, seen), enc.condNeg, lit))
    {
      ghost var out := EmitSlotLit(P, C, ContextOf(enc, seen), enc.condNeg, lit);
      JoinParts(Written(), out.asserted, out.goals, [], []);
      match enc.state {
        case GoalState =>
          var required := ReadLiteral(lit, enc.h, C - 1, enc.condNeg);
          goalExpression := goalExpression + [required];
        case SimpleActionCondition => RequireAtStart(lit, seen);
        case ActionCondition =>
          match enc.condTime {
            case AtStart => RequireAtStart(lit, seen);
            case AtEnd => Require(Bool(End(enc.opID, enc.h)), lit);
            case OverAll => Require(Bool(Running(enc.opID, enc.h)), lit);
          }
        case _ =>
      }
    }

    method Require(trigger: Formula, lit: nat)
      requires literalBound == LiteralBound
      modifies `solver
      ensures solver == old(solver) + [Implies(trigger, ReadSlots(lit, enc.h, 0, enc.condNeg))]
    {
      var required := ReadLiteral(lit, enc.h, 0, enc.condNeg);
      solver := solver + [Implies(trigger, required)];
    }

    method RequireAtStart(lit: nat, ghost seen: nat)
      requires literalBound == LiteralBound && ListsHold(P, affecting, seen, |P.tils|)
      modifies `solver
      ensures solver == old(solver) +
                        SlotCondition(P, Context(ConditionMode, enc.opID, enc.h, 0, AtStart, seen), enc.condNeg, lit)
    {
      Require(Bool(Start(enc.opID, enc.h)), lit);
      var role := if enc.condNeg then StartAdd else StartDel;
      StartUsers(P, affecting, role, lit, seen);
      var clauses := MutexWith(ListOf(affecting, role, lit));
      solver := solver + clauses;
    }

    /** A clause against each other start in the list. */
    method MutexWith(users: seq<nat>) returns (clauses: seq<Formula>)
      ensures clauses == MutexClauses(users, enc.opID, enc.h)
    {
      clauses := [];
      for k := 0 to |users|
        invariant clauses == MutexClauses(users[..k], enc.opID, enc.h)
      {
        assert users[..k + 1][..k] == users[..k] && users[..k + 1][k] == users[k];
        if users[k] != enc.opID {
          clauses := clauses + [Or([Not(Bool(Start(enc.opID, enc.h))), Not(Bool(Start(users[k], enc.h)))])];
        }
      }
      assert users[..|users|] == users;
    }

    method VisitComparison(op: CompOp, lhs: Expr, rhs: Expr, ghost seen: nat)
      requires CanVisit(true, seen)
      modifies `solver, `goalExpression
      ensures Written() == Join(old(Written()), EmitComparison(ContextOf(enc, seen), op, lhs, rhs))
    {
      var who := if enc.state == GoalState then 0 else enc.opID;
      var com := CompareTerms(op, TermOf(lhs, who, enc.h, enc.b), TermOf(rhs, who, enc.h, enc.b));
      ghost var out := EmitComparison(ContextOf(enc, seen), op, lhs, rhs);
      JoinParts(Written(), out.asserted, out.goals, [], []);
      match enc.state {
        case GoalState =>
          var g := Bool(GoalFlag(com));
          solver := solver + [Implies(g, com)];
          goalExpression := goalExpression + [g];
        case ActionCondition =>
          match enc.condTime {
            case AtStart => solver := solver + [Implies(Bool(Start(enc.opID, enc.h)), com)];
            case AtEnd => solver := solver + [Implies(Bool(End(enc.opID, enc.h)), com)];
            case OverAll =>
              solver := solver + [Implies(Bool(Running(enc.opID, enc.h)), com), Implies(Bool(End(enc.opID, enc.h)), com)];
          }
        case ActionDuration => solver := solver + [Implies(Bool(Start(enc.opID, enc.h)), com)];
        case _ =>
      }
    }

    // ----- Effects -----

    method VisitEffects(e: Effects)
      requires literalBound == LiteralBound && !enc.effNeg && e.assigns == []
      requires enc.state == SimpleActionEffect || (enc.state == ActionEffect && enc.effTime != OverAll)
      modifies `solver, `affecting, `enc
      ensures enc == old(enc)
      ensures solver == old(solver) + SlotActionEffects(e, TriggerOf(EffectKind(enc), enc.opID, enc.h, 0), enc.h)
      ensures if enc.h == 0 then Grown(old(affecting), affecting, e, EffectKind(enc), enc.opID) else Same(old(affecting), affecting)
    {
      ghost var l0 := affecting;
      VisitSimpleEffects(e.adds);
      ghost var l1 := affecting;
      enc := enc.(effNeg := true);
      VisitSimpleEffects(e.dels);
      enc := enc.(effNeg := false);
      ListsGrown(l0, l1, affecting, e, EffectKind(enc), enc.opID, enc.h == 0);
    }

    method VisitSimpleEffects(ids: seq<nat>)
      requires literalBound == LiteralBound
      requires enc.state == SimpleActionEffect || (enc.state == ActionEffect && enc.effTime != OverAll)
      modifies `solver, `affecting
      ensures solver == old(solver) + SlotEffects(ids, enc.effNeg, TriggerOf(EffectKind(enc), enc.opID, enc.h, 0), enc.h)
      ensures GrownBy(old(affecting), affecting, LitRole(EffectKind(enc), enc.effNeg), if enc.h == 0 then ids else [], enc.opID)
    {
      var trigger := TriggerOf(EffectKind(enc), enc.opID, enc.h, 0);
      var role := LitRole(EffectKind(enc), enc.effNeg);
      ghost var lists, s0 := affecting, solver;
      NoneRecorded(affecting, role, enc.opID);
      for k := 0 to |ids|
        invariant solver == s0 + SlotEffects(ids[..k], enc.effNeg, trigger, enc.h)
        invariant GrownBy(lists, affecting, role, if enc.h == 0 then ids[..k] else [], enc.opID)
      {
        ghost var middle := affecting;
        var effect := ReadLiteral(ids[k], enc.h, 1, enc.effNeg);
        solver := solver + [Implies(Bool(trigger), effect)];
        assert ids[..k + 1] == ids[..k] + [ids[k]];
        SlotEffectsSnoc(ids[..k], ids[k], enc.effNeg, trigger, enc.h);
        if enc.h == 0 {
          affecting := affecting[(role, ids[k]) := ListOf(affecting, role, ids[k]) + [enc.opID]];
          OneRecorded(middle, role, ids[k], enc.opID);
          GrownTwice(lists, middle, affecting, role, ids[..k], [ids[k]], enc.opID);
        }
      }
      assert ids[..|ids|] == ids;
    }

    // ----- Operators -----

    /** Variables of a durative action or an instantaneous one at one happening. */
    method OperatorConstraints(i: nat, h: nat) returns (fs: seq<Formula>)
      requires i < |P.ops| && (P.ops[i].Durative? || P.ops[i].Instant?)
      ensures fs == OpVarsAt(P, i, h)
    {
      var sta, end, run, dur := Bool(Start(i, h)), Bool(End(i, h)), Bool(Running(i, h)), Var(Remaining(i, h));
      if P.ops[i].Instant? {
        return [Eq(dur, Const(0.0))];
      }
      var signs := [Iff(run, Lt(Const(0.0), dur)), Iff(Not(run), Eq(dur, Const(0.0)))];
      var bounds := [Implies(sta, run), Implies(end, Eq(dur, Const(0.0)))];
      var countdown, transition := [], [Not(end), Implies(run, sta), Implies(Not(run), Not(sta))];
      if h > 0 {
        var before := Bool(Running(i, h - 1));
        countdown := [Implies(before, Eq(dur, Diff(Var(Remaining(i, h - 1)), Var(Gap(h - 1)))))];
        transition := [Implies(end, before), Implies(sta, Not(before)), Implies(run, Or([before, sta])),
                       Implies(Not(run), Or([Not(before), end]))];
      }
      fs := signs + countdown + bounds + transition;
      assert transition == RunTransition(i, h, false);
    }

    method MakeOpVars(i: nat)
      requires i < |P.ops| && (P.ops[i].Durative? || P.ops[i].Instant?)
      modifies `solver
      ensures solver == old(solver) + OpVarsLoop(P, upperBound)(i)
    {
      ghost var s0 := solver;
      for h := 0 to upperBound
        invariant solver == s0 + Block(OpVariables(P, i), 0, h)
      {
        ghost var before := solver;
        var fs := OperatorConstraints(i, h);
        solver := solver + fs;
        AppendSnoc(s0, OpVariables(P, i), 0, h, before, solver);
      }
    }

    /** Nothing is being negated, and i operators are in the effect lists. */
    ghost predicate Between(i: nat)
      reads `enc, `affecting, `literalBound
    {
      && literalBound == LiteralBound && !enc.condNeg && !enc.effNeg && ListsHold(P, affecting, i, |P.tils|)
    }

    method VisitFitting(g: Goal, ghost durationOk: bool, ghost seen: nat)
      requires CanVisit(durationOk, seen) && GoalFits(P, g, durationOk, durationOk) && !enc.condNeg
      modifies `solver, `goalExpression, `enc
      ensures enc == old(enc)
      ensures Wrote(P, C, ContextOf(enc, seen), g, old(Written()), Written())
    {
      assert Opened(ProblemKey);
      VisitGoal(g, durationOk, durationOk, seen);
    }

    /** The condition is visited in the state that the fields say. */
    method VisitEntered(g: Goal, ghost mode: Mode, ghost time: TimeSpec, ghost durationOk: bool)
      requires CanVisit(durationOk, enc.opID + 1) && GoalFits(P, g, durationOk, durationOk) && !enc.condNeg
      requires IsSlotAppends(P, C, made) && ConditionState(enc.state, mode) && enc.b == 1 && enc.condTime == time
      requires enc.state != ActionCondition ==> time == AtStart
      modifies `solver, `goalExpression, `enc
      ensures enc == old(enc) && goalExpression == old(goalExpression)
      ensures made(ConditionOf(mode, time, enc.opID, enc.h, g), old(solver), solver)
    {
      ghost var before := Written();
      VisitFitting(g, durationOk, enc.opID + 1);
      ConditionAppended(P, C, made, enc, mode, time, g, before, Written());
    }

    method VisitCondition(state: EncState, time: TimeSpec, g: Goal, ghost mode: Mode, ghost durationOk: bool)
      requires literalBound == LiteralBound && !enc.condNeg && enc.b == 1 && enc.opID < |P.ops| && IsSlotAppends(P, C, made)
      requires ConditionState(state, mode)
      requires state != ActionCondition ==> time == AtStart
      requires durationOk <==> state != SimpleActionCondition
      requires state != ActionDuration ==> ListsHold(P, affecting, enc.opID + 1, |P.tils|)
      requires GoalFits(P, g, durationOk, durationOk)
      modifies `solver, `goalExpression, `enc
      ensures enc == old(enc).(state := state, condTime := time) && goalExpression == old(goalExpression)
      ensures made(ConditionOf(mode, time, enc.opID, enc.h, g), old(solver), solver)
    {
      enc := enc.(state := state, condTime := time);
      VisitEntered(g, mode, time, durationOk);
    }

    method VisitTimedEffects(state: EncState, time: TimeSpec, e: Effects, ghost durationOk: bool)
      requires literalBound == LiteralBound && !enc.effNeg && P.fns == 0 && EffectsFit(P, e, durationOk) && time != OverAll
      requires state == ActionEffect || (state == SimpleActionEffect && time == AtStart)
      requires IsSlotAppends(P, C, made)
      modifies `solver, `affecting, `enc
      ensures enc == old(enc).(state := state, effTime := time)
      ensures made(EffectsOf(e, time == AtEnd, enc.opID, enc.h), old(solver), solver)
      ensures Recorded(old(affecting), affecting, e, KindOf(ActionEffect, time), enc.opID, enc.h == 0)
    {
      enc := enc.(state := state, effTime := time);
      NoAssigns(P, e, durationOk);
      VisitEffects(e);
      SlotsMake(P, C, made, EffectsOf(e, time == AtEnd, enc.opID, enc.h), old(solver), solver);
    }

    /** An operator is being visited. */
    ghost predicate Visiting(i: nat)
      reads `enc, `literalBound
    {
      && ProblemFits(P) && P.fns == 0 && IsSlotAppends(P, C, made)
      && literalBound == LiteralBound && !enc.condNeg && !enc.effNeg && enc.b == 1 && enc.opID == i < |P.ops|
    }

    /** Sets up the effect lists. */
    method StartAndEndEffects(i: nat) returns (ghost s1: seq<Formula>)
      requires Visiting(i) && IsDurative(P, i) && ListsHold(P, affecting, if enc.h == 0 then i else i + 1, |P.tils|)
      modifies `solver, `affecting, `enc
      ensures Visiting(i) && ListsHold(P, affecting, i + 1, |P.tils|) && enc.h == old(enc.h)
      ensures made(EffectsOf(P.ops[i].start, false, i, enc.h), old(solver), s1)
      ensures made(EffectsOf(P.ops[i].end, true, i, enc.h), s1, solver)
    {
      DurativeEffectsFit(P, i);
      ghost var l0 := affecting;
      VisitTimedEffects(ActionEffect, AtStart, P.ops[i].start, true);
      s1 := solver;
      ghost var l1 := affecting;
      VisitTimedEffects(ActionEffect, AtEnd, P.ops[i].end, true);
      DurativeRecorded(P, l0, l1, affecting, i, enc.h == 0);
    }

    method DurationAndEffects(i: nat) returns (ghost s1: seq<Formula>, ghost s2: seq<Formula>)
      requires Visiting(i) && IsDurative(P, i) && ListsHold(P, affecting, if enc.h == 0 then i else i + 1, |P.tils|)
      modifies `solver, `goalExpression, `affecting, `enc
      ensures Visiting(i) && ListsHold(P, affecting, i + 1, |P.tils|) && goalExpression == old(goalExpression) && enc.h == old(enc.h)
      ensures made(ConditionOf(DurationMode, AtStart, i, enc.h, P.ops[i].duration), old(solver), s1)
      ensures made(EffectsOf(P.ops[i].start, false, i, enc.h), s1, s2)
      ensures made(EffectsOf(P.ops[i].end, true, i, enc.h), s2, solver)
    {
      OpParts(P, i);
      VisitCondition(ActionDuration, AtStart, P.ops[i].duration, DurationMode, true);
      s1 := solver;
      s2 := StartAndEndEffects(i);
    }

    method TimedConditions(i: nat) returns (ghost s1: seq<Formula>, ghost s2: seq<Formula>)
      requires Visiting(i) && IsDurative(P, i) && ListsHold(P, affecting, i + 1, |P.tils|)
      modifies `solver, `goalExpression, `enc
      ensures Visiting(i) && goalExpression == old(goalExpression)
      ensures made(ConditionOf(ConditionMode, AtStart, i, old(enc.h), P.ops[i].atStart), old(solver), s1)
      ensures made(ConditionOf(ConditionMode, OverAll, i, old(enc.h), P.ops[i].overAll), s1, s2)
      ensures made(ConditionOf(ConditionMode, AtEnd, i, old(enc.h), P.ops[i].atEnd), s2, solver)
    {
      OpParts(P, i);
      VisitCondition(ActionCondition, AtStart, P.ops[i].atStart, ConditionMode, true);
      s1 := solver;
      VisitCondition(ActionCondition, OverAll, P.ops[i].overAll, ConditionMode, true);
      s2 := solver;
      VisitCondition(ActionCondition, AtEnd, P.ops[i].atEnd, ConditionMode, true);
      enc := enc.(state := NoState);
    }

    /** One happening of a durative action. */
    method DurativeLayer(i: nat, h: nat)
      requires Visiting(i) && IsDurative(P, i) && ListsHold(P, affecting, if h == 0 then i else i + 1, |P.tils|)
      modifies `solver, `goalExpression, `affecting, `enc
      ensures Visiting(i) && ListsHold(P, affecting, i + 1, |P.tils|) && goalExpression == old(goalExpression)
      ensures made(LayerOfOp(i, h), old(solver), solver)
    {
      enc := enc.(h := h);
      ghost var s0 := solver;
      ghost var s1, s2 := DurationAndEffects(i);
      ghost var s3 := solver;
      ghost var s4, s5 := TimedConditions(i);
      DurativeMade(P, C, made, i, h, s0, s1, s2, s3, s4, s5, solver);
    }

    method InstantLayer(i: nat, h: nat)
      requires Visiting(i) && P.ops[i].Instant? && ListsHold(P, affecting, if h == 0 then i else i + 1, |P.tils|)
      modifies `solver, `goalExpression, `affecting, `enc
      ensures Visiting(i) && ListsHold(P, affecting, i + 1, |P.tils|) && goalExpression == old(goalExpression)
      ensures made(LayerOfOp(i, h), old(solver), solver)
    {
      var o := P.ops[i];
      OpParts(P, i);
      enc := enc.(h := h);
      ghost var s0, l0 := solver, affecting;
      VisitTimedEffects(SimpleActionEffect, AtStart, o.eff, false);
      ghost var s1 := solver;
      InstantRecorded(P, l0, affecting, i, h == 0);
      VisitCondition(SimpleActionCondition, AtStart, o.pre, InstantConditionMode, false);
      enc := enc.(state := NoState);
      InstantMade(P, C, made, i, h, s0, s1, solver);
    }

    /** The second visit of an operator: its layers, and for a durative action the goal that it
        does not run at the end. */
    method VisitOperator(i: nat)
      requires Between(i) && i < |P.ops| && (P.ops[i].Durative? || P.ops[i].Instant?)
      requires ProblemFits(P) && P.fns == 0 && IsSlotAppends(P, C, made) && upperBound > 0
      modifies `solver, `goalExpression, `affecting, `enc
      ensures Between(i + 1) && made(LayersOfOp(i, upperBound), old(solver), solver)
      ensures goalExpression == old(goalExpression) + if P.ops[i].Durative? then [Not(Bool(Running(i, upperBound - 1)))] else []
    {
      ghost var s0 := solver;
      enc := enc.(opID := i, b := 1);
      NoLayerYet(P, C, made, i, solver);
      for h := 0 to upperBound
        invariant Visiting(i) && ListsHold(P, affecting, if h == 0 then i else i + 1, |P.tils|)
        invariant goalExpression == old(goalExpression)
        invariant made(LayersOfOp(i, h), s0, solver)
      {
        ghost var before := solver;
        if P.ops[i].Durative? {
          DurativeLayer(i, h);
        } else {
          InstantLayer(i, h);
        }
        OneMoreLayer(P, C, made, i, h, s0, before, solver);
      }
      if P.ops[i].Durative? {
        goalExpression := goalExpression + [Not(Bool(Running(i, upperBound - 1)))];
      }
    }

    // ----- Literals -----

    method EnablersOf(lit: nat, slot: nat, start: Role, end: Role) returns (fs: seq<Formula>)
      requires ListsHold(P, affecting, |P.ops|, |P.tils|)
      requires (start == StartAdd && end == EndAdd) || (start == StartDel && end == EndDel)
      ensures fs == Enablers(lit, slot, false, Users(P, start, lit), upperBound) +
                    Enablers(lit, slot, true, Users(P, end, lit), upperBound)
    {
      ActionUsers(P, affecting, start, lit);
      ActionUsers(P, affecting, end, lit);
      var starts := EnablersIn(lit, slot, false, ListOf(affecting, start, lit));
      var ends := EnablersIn(lit, slot, true, ListOf(affecting, end, lit));
      fs := starts + ends;
    }

    method EnablersIn(lit: nat, slot: nat, end: bool, users: seq<nat>) returns (fs: seq<Formula>)
      ensures fs == Enablers(lit, slot, end, users, upperBound)
    {
      fs := [];
      for k := 0 to |users|
        invariant fs == Enablers(lit, slot, end, users[..k], upperBound)
      {
        var ife := ActionAtSlot(lit, slot, end, users[k]);
        fs := fs + [ife];
        assert users[..k + 1] == users[..k] + [users[k]];
        EnablersSnoc(lit, slot, end, users[..k], users[k], upperBound);
      }
      assert users[..|users|] == users;
    }

    method SlotLayers(lit: nat, slot: nat) returns (fs: seq<Formula>)
      requires ListsHold(P, affecting, |P.ops|, |P.tils|)
      ensures fs == Block(SlotLayerOf(P, C, lit, slot, upperBound), 1, C)
    {
      fs := [];
      for b := 1 to C
        invariant fs == Block(SlotLayerOf(P, C, lit, slot, upperBound), 1, b)
      {
        var before, after := Bool(SlotLit(lit, slot, b - 1)), Bool(SlotLit(lit, slot, b));
        var adds, dels := [], [];
        if b == 1 {
          adds := EnablersOf(lit, slot, StartAdd, EndAdd);
        }
        if b == C - 1 {
          dels := EnablersOf(lit, slot, StartDel, EndDel);
        }
        fs := fs + [Implies(after, Or([before] + adds)), Implies(Not(after), Or([Not(before)] + dels))];
      }
    }

    method SlotTiming(lit: nat, slot: nat) returns (fs: seq<Formula>)
      requires upperBound > 0
      ensures fs == SlotTimes(lit, slot, upperBound)
    {
      var timeargs := [];
      for h := 0 to upperBound
        invariant timeargs == Coincides(lit, slot, h)
      {
        timeargs := timeargs + [Eq(Var(SlotTime(lit, slot)), Var(Time(h)))];
      }
      fs := if slot > 0 then [Lt(Var(SlotTime(lit, slot - 1)), Var(SlotTime(lit, slot)))] else [];
      fs := fs + [Or(timeargs + [Lt(Var(Time(upperBound - 1)), Var(SlotTime(lit, slot)))])];
    }

    method EncodeLiteralVariableSupport(lit: nat)
      requires upperBound > 0 && literalBound == LiteralBound && ListsHold(P, affecting, |P.ops|, |P.tils|)
      modifies `solver
      ensures solver == old(solver) + LiteralLoop(P, C, upperBound)(lit)
    {
      ghost var s0 := solver;
      for slot := 0 to literalBound
        invariant solver == s0 + Block(SlotOf(P, C, lit, upperBound), 0, slot)
      {
        ghost var before := solver;
        var times := SlotTiming(lit, slot);
        var layers := SlotLayers(lit, slot);
        var opens := [];
        if slot > 0 {
          var opening, closing := Bool(SlotLit(lit, slot, 0)), Bool(SlotLit(lit, slot - 1, C - 1));
          opens := [Implies(opening, closing), Implies(Not(opening), Not(closing))];
        }
        solver := solver + (times + layers + opens);
        AppendSnoc(s0, SlotOf(P, C, lit, upperBound), 0, slot, before, solver);
      }
    }

    // ----- Known states and the main method -----

    method EncodeTimings(H: nat)
      modifies `solver
      ensures solver == old(solver) + Block(Timing(), 0, H)
    {
      ghost var s0 := solver;
      for h := 0 to H
        invariant solver == s0 + Block(Timing(), 0, h)
      {
        ghost var before := solver;
        var fs := [Eq(Var(Time(h)), Const(0.0))];
        if h > 0 {
          fs := [Eq(Var(Time(h)), Sum(Var(Time(h - 1)), Var(Gap(h - 1)))), Lt(Var(Time(h - 1)), Var(Time(h)))];
        }
        solver := solver + (fs + [Le(Const(0.1), Var(Gap(h)))]);
        AppendSnoc(s0, Timing(), 0, h, before, solver);
      }
    }

    method EncodeInitialState()
      requires WellFormed(P)
      modifies `solver
      ensures solver == old(solver) + SlotInit(P)
    {
      var initialState := seq(P.lits, _ => false);
      var adds := [];
      for k := 0 to |P.init|
        invariant |initialState| == P.lits && forall l | 0 <= l < P.lits :: initialState[l] <==> l in P.init[..k]
        invariant adds == SlotAddedInit(P.init[..k])
      {
        assert P.init[k] in P.init;
        assert P.init[..k + 1] == P.init[..k] + [P.init[k]];
        adds := adds + [Bool(SlotLit(P.init[k], 0, 0)), Eq(Var(SlotTime(P.init[k], 0)), Const(0.0))];
        initialState := initialState[P.init[k] := true];
      }
      assert P.init[..|P.init|] == P.init;
      var absent := [];
      for l := 0 to P.lits
        invariant absent == SlotAbsentInit(P, l)
      {
        if !initialState[l] {
          absent := absent + [Not(Bool(SlotLit(l, 0, 0))), Eq(Var(SlotTime(l, 0)), Const(0.0))];
        }
      }
      solver := solver + (adds + absent);
    }

    method EncodeGoalState()
      requires WellFormed(P) && upperBound > 0 && literalBound == LiteralBound && !enc.condNeg
      modifies `solver, `goalExpression, `enc
      ensures enc == old(enc).(state := NoState, h := upperBound - 1, b := C - 1)
      ensures solver == old(solver) + SlotGoal(P, C, upperBound).asserted
      ensures goalExpression == SlotGoal(P, C, upperBound).goals
    {
      enc := enc.(state := GoalState, h := upperBound - 1, b := C - 1);
      goalExpression := [];
      VisitGoal(P.goal, false, true, 0);
      enc := enc.(state := NoState);
    }

    method MakeAllOpVars()
      requires Propositional(P)
      modifies `solver
      ensures solver == old(solver) + Block(OpVarsLoop(P, upperBound), 0, |P.ops|)
    {
      ghost var s0 := solver;
      for i := 0 to |P.ops|
        invariant solver == s0 + Block(OpVarsLoop(P, upperBound), 0, i)
      {
        assert P.ops[i] in P.ops;
        ghost var before := solver;
        MakeOpVars(i);
        AppendSnoc(s0, OpVarsLoop(P, upperBound), 0, i, before, solver);
      }
    }

    method VisitOperators()
      requires ProblemFits(P) && Propositional(P) && IsSlotAppends(P, C, made) && upperBound > 0 && Between(0)
      modifies `solver, `goalExpression, `affecting, `enc
      ensures Between(|P.ops|)
      ensures made(FirstOps(|P.ops|, upperBound), old(solver), solver)
      ensures goalExpression == old(goalExpression) + NothingRuns(P, |P.ops|, upperBound)
    {
      ghost var s0, goals := solver, goalExpression;
      NoOpYet(P, C, made, upperBound, solver);
      for i := 0 to |P.ops|
        invariant Between(i) && goalExpression == goals + NothingRuns(P, i, upperBound)
        invariant made(FirstOps(i, upperBound), s0, solver)
      {
        assert P.ops[i] in P.ops;
        ghost var before, goalsBefore := solver, goalExpression;
        VisitOperator(i);
        NothingRunsStep(P, i, upperBound, goals, goalsBefore, goalExpression);
        OneMoreOperator(P, C, made, i, upperBound, s0, before, solver);
      }
    }

    method EncodeLiterals()
      requires upperBound > 0 && literalBound == LiteralBound && ListsHold(P, affecting, |P.ops|, |P.tils|)
      modifies `solver
      ensures solver == old(solver) + Block(LiteralLoop(P, C, upperBound), 0, P.lits)
    {
      ghost var s0 := solver;
      for lit := 0 to P.lits
        invariant solver == s0 + Block(LiteralLoop(P, C, upperBound), 0, lit)
      {
        ghost var before := solver;
        EncodeLiteralVariableSupport(lit);
        AppendSnoc(s0, LiteralLoop(P, C, upperBound), 0, lit, before, solver);
      }
    }

    method EncodeKnown(H: nat)
      requires WellFormed(P) && upperBound == H > 0 && literalBound == LiteralBound && !enc.condNeg && !enc.effNeg
      modifies `solver, `goalExpression, `enc
      ensures !enc.condNeg && !enc.effNeg && goalExpression == SlotGoal(P, C, H).goals
      ensures solver == old(solver) + Block(Timing(), 0, H) + SlotInit(P) + SlotGoal(P, C, H).asserted
    {
      EncodeTimings(H);
      EncodeInitialState();
      EncodeGoalState();
    }

    method EncodeOperators()
      requires WellFormed(P) && Propositional(P) && IsSlotAppends(P, C, made) && upperBound > 0 && Between(0)
      modifies `solver, `goalExpression, `affecting, `enc
      ensures Between(|P.ops|) && goalExpression == old(goalExpression) + NothingRuns(P, |P.ops|, upperBound)
      ensures solver == old(solver) + Block(OpVarsLoop(P, upperBound), 0, |P.ops|) + Block(OpLoop(P, C, upperBound), 0, |P.ops|)
    {
      MakeAllOpVars();
      ghost var s1 := solver;
      VisitOperators();
      SlotsMade(P, C, made, FirstOps(|P.ops|, upperBound), s1, solver);
    }

    /** The first call: the solver gets exactly the constraints of the fluent encoding, the goal
        list exactly its goals. */
    method Encode(H: nat)
      requires Fresh() && H > 0
      modifies this
      ensures solver == old(solver) + FluentEncoding(P, C, H)
      ensures goalExpression == FluentGoal(P, C, H)
      ensures nextLayer == H && upperBound == H
    {
      ghost var s0 := solver;
      upperBound := H;
      literalBound := LiteralBound;
      EncodeKnown(H);
      EncodeOperators();
      EncodeLiterals();
      AppendParts(s0, Block(Timing(), 0, H), SlotInit(P), SlotGoal(P, C, H).asserted, Block(OpVarsLoop(P, H), 0, |P.ops|),
                  Block(OpLoop(P, C, H), 0, |P.ops|), Block(LiteralLoop(P, C, H), 0, P.lits));
      nextLayer := upperBound;
    }
  }
}
