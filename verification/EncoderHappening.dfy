/** The happening encoder as it works: visitors communicate through fields, the variable
    vectors grow by one entry for each new happening, and the effect lists are filled while
    operators are visited. Every method is tied to the lists of HappeningSpec. */
module HappeningEncoder {
  import opened Smt
  import opened Pddl
  import opened HappeningSpec
  import opened EncoderState

  class EncoderHappening {
    const P: Problem
    const C: Cascade

    // given to the solver, and the retractable goal assumptions
    var solver: seq<Formula>
    var goalExpression: seq<Formula>

    var nextLayer: nat
    var upperBound: nat
    var enc: Visit
    var affecting: map<(Role, nat), seq<nat>>
    var vars: Vectors
    ghost const made: Relation

    /** Between calls. */
    ghost predicate Valid()
      reads this
    {
      && WellFormed(P) && IsAppends(P, C, made)
      && ValuesReady(P, C, vars, nextLayer)
      && OpsReady(P, C, vars, 0, |P.ops|, nextLayer)
      && TilsReady(vars, 0, |P.tils|, nextLayer)
      && ListsHold(P, affecting, if nextLayer == 0 then 0 else |P.ops|, if nextLayer == 0 then 0 else |P.tils|)
      && !enc.condNeg
    }

    constructor (P: Problem, C: Cascade)
      requires WellFormed(P)
      ensures this.P == P && this.C == C
      ensures Valid() && nextLayer == 0 && solver == [] && goalExpression == []
    {
      this.P, this.C := P, C;
      made := Appends(P, C);
      solver, goalExpression, nextLayer, upperBound := [], [], 0, 0;
      enc := Visit(NoState, 0, 0, 0, 0, false, false, AtStart, AtStart, [], [], []);
      affecting := map[];
      vars := Vectors([], [], seq(P.lits, _ => []), seq(P.fns, _ => []), map[], map[], map[], map[], map[], map[]);
    }

    // ----- Header: one more entry for each happening -----

    method EncodeHeader(H: nat)
      requires ValuesReady(P, C, vars, nextLayer) && nextLayer <= H
      modifies `vars
      ensures ValuesReady(P, C, vars, H)
      ensures vars == old(vars).(time := vars.time, gap := vars.gap, literal := vars.literal, value := vars.value)
    {
      assert Opened(ValuesKey);
      for h := nextLayer to H
        invariant TimesReady(vars, h) && vars == old(vars).(time := vars.time, gap := vars.gap)
      {
        vars := vars.(time := vars.time + [Var(Time(h))], gap := vars.gap + [Var(Gap(h))]);
      }
      for l := 0 to P.lits
        invariant vars == old(vars).(time := vars.time, gap := vars.gap, literal := vars.literal)
        invariant TimesReady(vars, H) && |vars.literal| == P.lits
        invariant forall k | 0 <= k < l :: LitVec(C, vars.literal[k], k, H)
        invariant forall k | l <= k < P.lits :: LitVec(C, vars.literal[k], k, nextLayer)
      {
        var row := vars.literal[l];
        for h := nextLayer to H
          invariant LitVec(C, row, l, h)
        {
          var layers := seq(C, b requires 0 <= b < C => Bool(Lit(l, h, b)));
          assert LitLayers(layers, l, h, C);
          row := row + [layers];
        }
        vars := vars.(literal := vars.literal[l := row]);
      }
      for fn := 0 to P.fns
        invariant vars == old(vars).(time := vars.time, gap := vars.gap, literal := vars.literal, value := vars.value)
        invariant TimesReady(vars, H) && LiteralsReady(P, C, vars, H) && |vars.value| == P.fns
        invariant forall k | 0 <= k < fn :: FnVec(C, vars.value[k], k, H)
        invariant forall k | fn <= k < P.fns :: FnVec(C, vars.value[k], k, nextLayer)
      {
        var row := vars.value[fn];
        for h := nextLayer to H
          invariant FnVec(C, row, fn, h)
        {
          var layers := seq(C, b requires 0 <= b < C => Var(Value(fn, h, b)));
          assert FnLayers(layers, fn, h, C);
          row := row + [layers];
        }
        vars := vars.(value := vars.value[fn := row]);
      }
    }

    // ----- Expressions -----

    method Push(t: Term)
      modifies `enc
      ensures enc == old(enc).(expressions := old(enc.expressions) + [t])
    {
      enc := enc.(expressions := enc.expressions + [t]);
    }

    method Pop() returns (t: Term)
      requires |enc.expressions| > 0
      modifies `enc
      ensures enc == old(enc).(expressions := old(enc.expressions)[..|old(enc.expressions)| - 1])
      ensures t == old(enc.expressions)[|old(enc.expressions)| - 1]
    {
      t := enc.expressions[|enc.expressions| - 1];
      enc := enc.(expressions := enc.expressions[..|enc.expressions| - 1]);
    }

    method VisitExpression(e: Expr, ghost durationOk: bool)
      requires ValuesReady(P, C, vars, upperBound) && enc.h < upperBound && enc.b < C
      requires enc.state == GoalState ==> enc.b == C - 1
      requires durationOk ==> IsDurative(P, enc.opID) && OpReady(P, C, vars, enc.opID, upperBound)
      requires WfExpr(P, e, durationOk)
      modifies `enc
      ensures enc == old(enc).(expressions := old(enc.expressions) + [TermOf(e, enc.opID, enc.h, enc.b)])
      decreases e
    {
      match e
      case Num(v) => Push(Const(v));
      case Fluent(fn) =>
        var b := if enc.state == GoalState then C - 1 else enc.b;
        Push(FnVar(P, C, vars, upperBound, fn, enc.h, b));
      case Duration => Push(DurVar(P, C, vars, upperBound, enc.opID, enc.h));
      case Plus(l, r) =>
        VisitExpression(l, durationOk);
        VisitExpression(r, durationOk);
        var lhs := Pop();
        var rhs := Pop();
        Push(Sum(lhs, rhs));
      case Minus(l, r) =>
        VisitExpression(l, durationOk);
        VisitExpression(r, durationOk);
        var lhs := Pop();
        var rhs := Pop();
        Push(Diff(lhs, rhs));
      case Times(l, r) =>
        VisitExpression(l, durationOk);
        VisitExpression(r, durationOk);
        var lhs := Pop();
        var rhs := Pop();
        Push(Prod(lhs, rhs));
      case UMinus(e1) =>
        VisitExpression(e1, durationOk);
        var exp := Pop();
        Push(Negative(exp));
    }

    // ----- Conditions -----

    /** Everything a condition visit may append to. */
    ghost function Written(): Output
      reads `solver, `goalExpression, `enc
    {
      Output(solver, goalExpression, enc.conditions, enc.musts)
    }

    ghost predicate CanVisit(durationOk: bool, numericOk: bool, seen: nat)
      reads `vars, `upperBound, `affecting, `enc
    {
      VisitReady(P, C, vars, upperBound, affecting, enc, durationOk, numericOk, seen)
    }

    /** Only the stacks may have changed. */
    predicate OnlyStacks(before: Visit)
      reads `enc
    {
      enc == before.(expressions := enc.expressions, conditions := enc.conditions, musts := enc.musts)
    }

    method VisitGoal(g: Goal, ghost durationOk: bool, ghost numericOk: bool, ghost seen: nat)
      requires CanVisit(durationOk, numericOk, seen) && GoalFits(P, g, durationOk, numericOk)
      modifies `solver, `goalExpression, `enc
      ensures OnlyStacks(old(enc))
      ensures Written() == Join(old(Written()), EmitAll(P, C, ContextOf(old(enc), seen), Flatten(g, enc.condNeg)))
      decreases g
    {
      assert Opened(ProblemKey);
      match g
      case Simple(lit) =>
        EmitAllOne(P, C, ContextOf(enc, seen), LitAtom(enc.condNeg, lit));
        VisitSimpleGoal(lit, durationOk, numericOk, seen);
      case Compare(op, lhs, rhs) =>
        EmitAllOne(P, C, ContextOf(enc, seen), CompAtom(op, lhs, rhs));
        VisitComparison(op, lhs, rhs, durationOk, seen);
      case Neg(g1) =>
        enc := enc.(condNeg := !enc.condNeg);
        VisitGoal(g1, durationOk, numericOk, seen);
        enc := enc.(condNeg := !enc.condNeg);
      case Conj(gs) => VisitGoals(gs, durationOk, numericOk, seen);
      case Disj(_) =>
      case Imply(_, _) =>
    }

    method VisitGoals(gs: seq<Goal>, ghost durationOk: bool, ghost numericOk: bool, ghost seen: nat)
      requires CanVisit(durationOk, numericOk, seen) && forall g | g in gs :: GoalFits(P, g, durationOk, numericOk)
      modifies `solver, `goalExpression, `enc
      ensures OnlyStacks(old(enc))
      ensures Written() == Join(old(Written()), EmitAll(P, C, ContextOf(old(enc), seen), FlattenAll(gs, enc.condNeg)))
      decreases gs
    {
      ghost var before, negated := Written(), enc.condNeg;
      if gs == [] {
        JoinParts(before, [], [], [], []);
      } else {
        VisitGoal(gs[0], durationOk, numericOk, seen);
        VisitGoals(gs[1..], durationOk, numericOk, seen);
        JoinConcat(P, C, ContextOf(old(enc), seen), before, Flatten(gs[0], negated), FlattenAll(gs[1..], negated));
      }
    }

    method VisitSimpleGoal(lit: nat, ghost durationOk: bool, ghost numericOk: bool, ghost seen: nat)
      requires CanVisit(durationOk, numericOk, seen) && lit < P.lits
      modifies `solver, `goalExpression, `enc
      ensures OnlyStacks(old(enc))
      ensures Written() == Join(old(Written()), EmitLit(P, C, ContextOf(old(enc), seen), enc.condNeg, lit))
    {
      match enc.state {
        case GoalState => PushGoal(lit, seen);
        case EventCondition => PushCondition(lit, seen);
        case ProcessCondition => PushCondition(lit, seen);
        case SimpleActionCondition => RequirePrecondition(lit, seen);
        case ActionCondition => RequireTimed(lit, seen);
        case ActionDuration => NoLiteral(lit, seen);
      }
    }

    method NoLiteral(lit: nat, ghost seen: nat)
      requires enc.state == ActionDuration && seen <= |P.ops|
      ensures Written() == Join(Written(), EmitLit(P, C, ContextOf(enc, seen), enc.condNeg, lit))
    {
      JoinParts(Written(), [], [], [], []);
    }

    method PushGoal(lit: nat, ghost seen: nat)
      requires ValuesReady(P, C, vars, upperBound) && enc.h < upperBound && lit < P.lits && seen <= |P.ops|
      requires enc.state == GoalState && enc.h == upperBound - 1
      modifies `goalExpression
      ensures Written() == Join(old(Written()), EmitLit(P, C, ContextOf(enc, seen), enc.condNeg, lit))
    {
      var v := LitVar(P, C, vars, upperBound, lit, upperBound - 1, C - 1);
      var required := if enc.condNeg then Not(v) else v;
      JoinParts(Written(), [], [required], [], []);
      goalExpression := goalExpression + [required];
    }

    method PushCondition(lit: nat, ghost seen: nat)
      requires ValuesReady(P, C, vars, upperBound) && enc.h < upperBound && enc.b < C && lit < P.lits && seen <= |P.ops|
      requires enc.state == EventCondition || enc.state == ProcessCondition
      modifies `enc
      ensures OnlyStacks(old(enc))
      ensures Written() == Join(old(Written()), EmitLit(P, C, ContextOf(old(enc), seen), enc.condNeg, lit))
    {
      var v := LitVar(P, C, vars, upperBound, lit, enc.h, enc.b);
      var required := if enc.condNeg then Not(v) else v;
      JoinParts(Written(), [], [], [required], []);
      enc := enc.(conditions := enc.conditions + [required]);
    }

    method RequirePrecondition(lit: nat, ghost seen: nat)
      requires CanVisit(false, false, seen) && lit < P.lits && enc.state == SimpleActionCondition
      modifies `solver
      ensures Written() == Join(old(Written()), EmitLit(P, C, ContextOf(enc, seen), enc.condNeg, lit))
    {
      JoinParts(Written(), StartCondition(P, C, ContextOf(enc, seen), enc.condNeg, lit), [], [], []);
      RequireAtStart(lit, ContextOf(enc, seen));
    }

    method RequireTimed(lit: nat, ghost seen: nat)
      requires CanVisit(true, true, seen) && lit < P.lits && enc.state == ActionCondition
      modifies `solver
      ensures Written() == Join(old(Written()), EmitLit(P, C, ContextOf(enc, seen), enc.condNeg, lit))
    {
      JoinParts(Written(), EmitLit(P, C, ContextOf(enc, seen), enc.condNeg, lit).asserted, [], [], []);
      match enc.condTime {
        case AtStart => RequireAtStart(lit, ContextOf(enc, seen));
        case AtEnd => RequireLiteral(EndVar(P, C, vars, upperBound, enc.opID, enc.h), lit);
        case OverAll => RequireLiteral(RunVar(P, C, vars, upperBound, enc.opID, enc.h), lit);
      }
    }

    method RequireLiteral(trigger: Formula, lit: nat)
      requires ValuesReady(P, C, vars, upperBound) && enc.h < upperBound && lit < P.lits
      modifies `solver
      ensures solver == old(solver) + [Implies(trigger, Signed(enc.condNeg, Lit(lit, enc.h, C - 2)))]
    {
      var v := LitVar(P, C, vars, upperBound, lit, enc.h, C - 2);
      solver := solver + [Implies(trigger, if enc.condNeg then Not(v) else v)];
    }

    /** A literal needed at the start, and the starts it excludes. */
    method RequireAtStart(lit: nat, ghost ctx: Context)
      requires ValuesReady(P, C, vars, upperBound) && OpsReady(P, C, vars, 0, |P.ops|, upperBound)
      requires enc.h < upperBound && lit < P.lits && enc.opID < |P.ops| && !P.ops[enc.opID].Event?
      requires ListsHold(P, affecting, ctx.seen, |P.tils|) && ctx.op == enc.opID && ctx.h == enc.h
      modifies `solver
      ensures solver == old(solver) + StartCondition(P, C, ctx, enc.condNeg, lit)
    {
      var fs := StartClauses(lit, ctx);
      solver := solver + fs;
    }

    method StartClauses(lit: nat, ghost ctx: Context) returns (fs: seq<Formula>)
      requires ValuesReady(P, C, vars, upperBound) && OpsReady(P, C, vars, 0, |P.ops|, upperBound)
      requires enc.h < upperBound && lit < P.lits && enc.opID < |P.ops| && !P.ops[enc.opID].Event?
      requires ListsHold(P, affecting, ctx.seen, |P.tils|) && ctx.op == enc.opID && ctx.h == enc.h
      ensures fs == StartCondition(P, C, ctx, enc.condNeg, lit)
    {
      var required := StartLiteral(lit);
      var role := if enc.condNeg then StartAdd else StartDel;
      var clauses := MutexFor(role, lit, ctx.seen);
      fs := [required] + clauses;
      StartConditionIs(P, C, ctx, enc.condNeg, lit, required, clauses, fs);
    }

    method StartLiteral(lit: nat) returns (required: Formula)
      requires ValuesReady(P, C, vars, upperBound) && OpsReady(P, C, vars, 0, |P.ops|, upperBound)
      requires enc.h < upperBound && lit < P.lits && enc.opID < |P.ops| && !P.ops[enc.opID].Event?
      ensures required == Implies(Bool(Start(enc.opID, enc.h)), Signed(enc.condNeg, Lit(lit, enc.h, C - 2)))
    {
      var sta, v := StaVar(P, C, vars, upperBound, enc.opID, enc.h), LitVar(P, C, vars, upperBound, lit, enc.h, C - 2);
      required := Implies(sta, if enc.condNeg then Not(v) else v);
    }

    method MutexFor(role: Role, lit: nat, ghost seen: nat) returns (clauses: seq<Formula>)
      requires OpsReady(P, C, vars, 0, |P.ops|, upperBound) && enc.h < upperBound
      requires enc.opID < |P.ops| && !P.ops[enc.opID].Event?
      requires ListsHold(P, affecting, seen, |P.tils|) && (role == StartAdd || role == StartDel)
      ensures clauses == MutexClauses(OpUsers(P, role, lit, seen), enc.opID, enc.h)
    {
      StartUsers(P, affecting, role, lit, seen);
      clauses := MutexWith(ListOf(affecting, role, lit));
    }

    /** A clause against each other start in the list. */
    method MutexWith(users: seq<nat>) returns (clauses: seq<Formula>)
      requires OpsReady(P, C, vars, 0, |P.ops|, upperBound) && enc.h < upperBound
      requires enc.opID < |P.ops| && !P.ops[enc.opID].Event?
      requires forall j | j in users :: j < |P.ops| && !P.ops[j].Event?
      ensures clauses == MutexClauses(users, enc.opID, enc.h)
    {
      clauses := [];
      for k := 0 to |users|
        invariant clauses == MutexClauses(users[..k], enc.opID, enc.h)
      {
        assert users[..k + 1][..k] == users[..k];
        if users[k] != enc.opID {
          assert users[k] in users;
          var own, other := StaVar(P, C, vars, upperBound, enc.opID, enc.h), StaVar(P, C, vars, upperBound, users[k], enc.h);
          clauses := clauses + [Or([Not(own), Not(other)])];
        }
      }
      assert users[..|users|] == users;
    }

    method VisitComparison(op: CompOp, lhs: Expr, rhs: Expr, ghost durationOk: bool, ghost seen: nat)
      requires CanVisit(durationOk, true, seen)
      requires WfExpr(P, lhs, durationOk) && WfExpr(P, rhs, durationOk)
      modifies `solver, `goalExpression, `enc
      ensures OnlyStacks(old(enc))
      ensures Written() == Join(old(Written()), EmitComparison(ContextOf(old(enc), seen), op, lhs, rhs))
    {
      var l, r := ReadSides(lhs, rhs, durationOk, seen);
      SidesOf(P, enc, lhs, rhs, durationOk);
      ComparisonIs(ContextOf(enc, seen), op, lhs, rhs, l, r);
      RecordComparison(CompareTerms(op, l, r), l, r, durationOk, seen);
    }

    method ReadSides(lhs: Expr, rhs: Expr, ghost durationOk: bool, ghost seen: nat) returns (l: Term, r: Term)
      requires CanVisit(durationOk, true, seen) && WfExpr(P, lhs, durationOk) && WfExpr(P, rhs, durationOk)
      modifies `enc
      ensures enc == old(enc).(expressions := [])
      ensures l == TermOf(lhs, enc.opID, enc.h, enc.b) && r == TermOf(rhs, enc.opID, enc.h, enc.b)
    {
      OwnVectors(P, C, vars, upperBound, affecting, enc, durationOk, seen);
      l, r := VisitSides(lhs, rhs, durationOk);
    }

    method VisitSides(lhs: Expr, rhs: Expr, ghost durationOk: bool) returns (l: Term, r: Term)
      requires ValuesReady(P, C, vars, upperBound) && enc.h < upperBound && enc.b < C
      requires enc.state == GoalState ==> enc.b == C - 1
      requires durationOk ==> IsDurative(P, enc.opID) && OpReady(P, C, vars, enc.opID, upperBound)
      requires WfExpr(P, lhs, durationOk) && WfExpr(P, rhs, durationOk)
      modifies `enc
      ensures enc == old(enc).(expressions := [])
      ensures l == TermOf(lhs, enc.opID, enc.h, enc.b) && r == TermOf(rhs, enc.opID, enc.h, enc.b)
    {
      enc := enc.(expressions := []);
      VisitExpression(lhs, durationOk);
      VisitExpression(rhs, durationOk);
      r := Pop();
      l := Pop();
    }

    /** com compares l with r. */
    method RecordComparison(com: Formula, l: Term, r: Term, ghost durationOk: bool, ghost seen: nat)
      requires CanVisit(durationOk, true, seen)
      modifies `solver, `goalExpression, `enc
      ensures OnlyStacks(old(enc))
      ensures Written() == Join(old(Written()), CompareOutput(ContextOf(old(enc), seen), com, l, r))
    {
      ghost var before, out := Written(), CompareOutput(ContextOf(enc, seen), com, l, r);
      JoinParts(before, out.asserted, out.goals, out.conds, out.musts);
      match enc.state {
        case GoalState =>
          var g := Bool(GoalFlag(com));
          solver := solver + [Implies(g, com)];
          goalExpression := goalExpression + [g];
        case EventCondition =>
          enc := enc.(conditions := enc.conditions + [com], musts := enc.musts + [Diff(l, r)]);
        case ProcessCondition =>
          enc := enc.(conditions := enc.conditions + [com], musts := enc.musts + [Diff(l, r)]);
        case ActionCondition => RequireComparison(com);
        case ActionDuration =>
          solver := solver + [Implies(StaVar(P, C, vars, upperBound, enc.opID, enc.h), com)];
        case _ =>
      }
    }

    method RequireComparison(com: Formula)
      requires IsDurative(P, enc.opID) && OpReady(P, C, vars, enc.opID, upperBound) && enc.h < upperBound
      modifies `solver
      ensures solver == old(solver) +
                        EmitTimed(Context(ConditionMode, enc.opID, enc.h, enc.b, enc.condTime, 0), com).asserted
    {
      match enc.condTime {
        case AtStart => solver := solver + [Implies(StaVar(P, C, vars, upperBound, enc.opID, enc.h), com)];
        case AtEnd => solver := solver + [Implies(EndVar(P, C, vars, upperBound, enc.opID, enc.h), com)];
        case OverAll =>
          var run, end := RunVar(P, C, vars, upperBound, enc.opID, enc.h), EndVar(P, C, vars, upperBound, enc.opID, enc.h);
          solver := solver + [Implies(run, com), Implies(end, com)];
      }
    }

    // ----- Effects -----

    ghost predicate CanAffect(durationOk: bool)
      reads `vars, `upperBound, `enc
    {
      EffectReady(P, C, vars, upperBound, enc, durationOk)
    }

    method Trigger() returns (t: Formula)
      requires CanAffect(false)
      ensures t == Bool(TriggerOf(EffectKind(enc), Who(enc), enc.h, enc.b))
    {
      match EffectKind(enc) {
        case EventKind => t := EventVar(P, C, vars, upperBound, enc.opID, enc.h, enc.b);
        case TilKind => t := TilVar(vars, enc.h + 1, enc.tilID, enc.h);
        case StartKind => t := StaVar(P, C, vars, upperBound, enc.opID, enc.h);
        case EndKind => t := EndVar(P, C, vars, upperBound, enc.opID, enc.h);
      }
    }

    method VisitEffects(e: Effects, ghost durationOk: bool)
      requires CanAffect(durationOk) && EffectsFit(P, e, durationOk)
      requires enc.state == EventEffect ==> e.assigns == []
      requires enc.state == TilEffect ==> forall a | a in e.assigns :: a.op == Assign
      modifies `solver, `affecting, `enc
      ensures enc == old(enc).(expressions := enc.expressions, effNeg := false)
      ensures solver == old(solver) + EffectFormulas(C, e, EffectKind(enc), Who(enc), enc.opID, enc.h, enc.b)
      ensures if Recording(enc) then Grown(old(affecting), affecting, e, EffectKind(enc), Who(enc)) else Same(old(affecting), affecting)
    {
      var fs := AssertEffects(e, durationOk);
      solver := solver + fs;
      if Recording(enc) {
        RecordEffects(e);
      } else {
        SameLists(old(affecting), affecting);
      }
    }

    method AssertEffects(e: Effects, ghost durationOk: bool) returns (fs: seq<Formula>)
      requires CanAffect(durationOk) && EffectsFit(P, e, durationOk)
      requires enc.state == EventEffect ==> e.assigns == []
      requires enc.state == TilEffect ==> forall a | a in e.assigns :: a.op == Assign
      modifies `enc
      ensures enc == old(enc).(expressions := enc.expressions, effNeg := false)
      ensures fs == EffectFormulas(C, e, EffectKind(enc), Who(enc), enc.opID, enc.h, enc.b)
    {
      EffectsInRange(P, e, durationOk);
      enc := enc.(effNeg := false);
      var adds := AssertSimpleEffects(e.adds);
      enc := enc.(effNeg := true);
      var dels := AssertSimpleEffects(e.dels);
      enc := enc.(effNeg := false);
      var changes := AssertAssignments(e.assigns, durationOk);
      fs := adds + dels + changes;
    }

    method AssertSimpleEffects(ids: seq<nat>) returns (fs: seq<Formula>)
      requires CanAffect(false) && forall l | l in ids :: l < P.lits
      ensures fs == LitEffects(ids, enc.effNeg, Bool(TriggerOf(EffectKind(enc), Who(enc), enc.h, enc.b)), enc.h,
                               LayerOf(C, EffectKind(enc), enc.b))
    {
      var t := Trigger();
      var b := LayerOf(C, EffectKind(enc), enc.b);
      fs := [];
      for k := 0 to |ids|
        invariant fs == LitEffects(ids[..k], enc.effNeg, t, enc.h, b)
      {
        assert ids[k] in ids;
        var v := LitVar(P, C, vars, upperBound, ids[k], enc.h, b);
        fs := fs + [Implies(t, if enc.effNeg then Not(v) else v)];
        assert ids[..k + 1] == ids[..k] + [ids[k]];
        LitEffectsSnoc(ids[..k], ids[k], enc.effNeg, t, enc.h, b);
      }
      assert ids[..|ids|] == ids;
    }

    method AssertAssignments(assigns: seq<Assignment>, ghost durationOk: bool) returns (fs: seq<Formula>)
      requires CanAffect(durationOk) && (enc.state == EventEffect ==> assigns == [])
      requires forall a | a in assigns :: a.fn < P.fns && WfExpr(P, a.rhs, durationOk) && (enc.state == TilEffect ==> a.op == Assign)
      modifies `enc
      ensures enc == old(enc).(expressions := enc.expressions)
      ensures fs == AssignFormulas(C, assigns, EffectKind(enc), Who(enc), enc.opID, enc.h)
    {
      fs := [];
      for k := 0 to |assigns|
        invariant enc == old(enc).(expressions := enc.expressions)
        invariant fs == AssignFormulas(C, assigns[..k], EffectKind(enc), Who(enc), enc.opID, enc.h)
      {
        var f := VisitAssignment(assigns[k], durationOk);
        fs := fs + [f];
        assert assigns[..k + 1] == assigns[..k] + [assigns[k]];
        AssignFormulasSnoc(C, assigns[..k], assigns[k], EffectKind(enc), Who(enc), enc.opID, enc.h);
      }
      assert assigns[..|assigns|] == assigns;
    }

    method VisitAssignment(a: Assignment, ghost durationOk: bool) returns (f: Formula)
      requires CanAffect(durationOk) && enc.state != EventEffect
      requires a.fn < P.fns && WfExpr(P, a.rhs, durationOk) && (enc.state == TilEffect ==> a.op == Assign)
      modifies `enc
      ensures enc == old(enc).(expressions := enc.expressions)
      ensures f == AssignFormula(C, a, EffectKind(enc), Who(enc), enc.opID, enc.h)
    {
      var e := VisitValue(a.rhs, durationOk);
      var t := Trigger();
      var after := FnVar(P, C, vars, upperBound, a.fn, enc.h, if enc.state == TilEffect then 0 else C - 1);
      var before := FnVar(P, C, vars, upperBound, a.fn, enc.h, C - 2);
      f := Assigning(a.op, t, after, before, e);
    }

    method VisitValue(e: Expr, ghost durationOk: bool) returns (t: Term)
      requires CanAffect(durationOk) && WfExpr(P, e, durationOk)
      modifies `enc
      ensures enc == old(enc) && t == TermOf(e, enc.opID, enc.h, enc.b)
    {
      VisitExpression(e, durationOk);
      t := Pop();
    }

    /** Save the effects for literal and function support later. */
    method RecordEffects(e: Effects)
      requires enc.state == EventEffect ==> e.assigns == []
      modifies `affecting
      ensures Grown(old(affecting), affecting, e, EffectKind(enc), Who(enc))
    {
      ghost var l0 := affecting;
      RecordAll(LitRole(EffectKind(enc), false), e.adds);
      ghost var l1 := affecting;
      RecordAll(LitRole(EffectKind(enc), true), e.dels);
      ghost var l2 := affecting;
      RecordAll(FnRole(EffectKind(enc)), AssignedFns(e.assigns));
      GrownParts(l0, l1, l2, affecting, e, EffectKind(enc), Who(enc));
    }

    method RecordAll(role: Role, ids: seq<nat>)
      modifies `affecting
      ensures GrownBy(old(affecting), affecting, role, ids, Who(enc))
    {
      NoneRecorded(affecting, role, Who(enc));
      for k := 0 to |ids|
        invariant GrownBy(old(affecting), affecting, role, ids[..k], Who(enc))
      {
        ghost var middle := affecting;
        affecting := affecting[(role, ids[k]) := ListOf(affecting, role, ids[k]) + [Who(enc)]];
        OneRecorded(middle, role, ids[k], Who(enc));
        assert ids[..k + 1] == ids[..k] + [ids[k]];
        GrownTwice(old(affecting), middle, affecting, role, ids[..k], [ids[k]], Who(enc));
      }
      assert ids[..|ids|] == ids;
    }

    // ----- Known states -----

    method EncodeTimings(H: nat, ghost first: bool)
      requires IsAppends(P, C, made)
      requires ValuesReady(P, C, vars, H) && nextLayer <= H
      modifies `solver
      ensures made(LoopPart(Timings, nextLayer, H, first), old(solver), solver)
    {
      ghost var lo := nextLayer;
      NoLayers(P, C, made, Timings, lo, first, solver);
      for h := nextLayer to H
        invariant made(LoopPart(Timings, lo, h, first), old(solver), solver)
      {
        ghost var before := solver;
        TimingLayer(H, h, first);
        OneLayer(P, C, made, Timings, lo, h, first, old(solver), before, solver);
      }
    }

    method TimingLayer(H: nat, h: nat, ghost first: bool)
      requires IsAppends(P, C, made)
      requires ValuesReady(P, C, vars, H) && h < H
      modifies `solver
      ensures made(LayerPart(Timings, h, first), old(solver), solver)
    {
      TimesOfValues(P, C, vars, H);
      if h == 0 {
        solver := solver + [Eq(vars.time[h], Const(0.0))];
      } else {
        solver := solver + [Eq(vars.time[h], Sum(vars.time[h - 1], vars.gap[h - 1])), Lt(vars.time[h - 1], vars.time[h])];
      }
      solver := solver + [Le(Const(0.1), vars.gap[h])];
      Make(P, C, made, LayerPart(Timings, h, first), old(solver), solver, TimingAt(h));
    }

    method EncodeKnownState()
      requires ValuesReady(P, C, vars, upperBound) && upperBound > 0 && WellFormed(P)
      modifies `solver
      ensures solver == old(solver) + InitSpec(P)
    {
      var initialState := seq(P.lits, _ => false);
      var adds := [];
      for k := 0 to |P.init|
        invariant |initialState| == P.lits && forall l | 0 <= l < P.lits :: initialState[l] <==> l in P.init[..k]
        invariant adds == AddedInit(P.init[..k])
      {
        assert P.init[k] in P.init;
        assert P.init[..k + 1] == P.init[..k] + [P.init[k]];
        adds := adds + [LitVar(P, C, vars, upperBound, P.init[k], 0, 0)];
        initialState := initialState[P.init[k] := true];
      }
      assert P.init[..|P.init|] == P.init;
      var absent := [];
      for l := 0 to P.lits
        invariant absent == AbsentInit(P, l)
      {
        if !initialState[l] {
          absent := absent + [Not(LitVar(P, C, vars, upperBound, l, 0, 0))];
        }
      }
      var values := KnownValues();
      solver := solver + (adds + absent + values);
    }

    method KnownValues() returns (values: seq<Formula>)
      requires ValuesReady(P, C, vars, upperBound) && upperBound > 0 && WellFormed(P)
      ensures values == ValueInit(P.initVals)
    {
      values := [];
      for k := 0 to |P.initVals|
        invariant values == ValueInit(P.initVals[..k])
      {
        assert P.initVals[k] in P.initVals;
        assert P.initVals[..k + 1] == P.initVals[..k] + [P.initVals[k]];
        values := values + [Eq(FnVar(P, C, vars, upperBound, P.initVals[k].0, 0, 0), Const(P.initVals[k].1))];
      }
      assert P.initVals[..|P.initVals|] == P.initVals;
    }

    method EncodeGoalState()
      requires ValuesReady(P, C, vars, upperBound) && upperBound > 0 && ProblemFits(P) && !enc.condNeg
      modifies `solver, `goalExpression, `enc
      ensures !enc.condNeg
      ensures solver == old(solver) + GoalOutput(P, C, upperBound).asserted
      ensures goalExpression == GoalOutput(P, C, upperBound).goals
    {
      GoalOfProblem(P);
      enc := enc.(state := GoalState, b := C - 1, h := upperBound - 1);
      goalExpression := [];
      VisitGoal(P.goal, false, true, 0);
      enc := enc.(state := NoState);
    }

    // ----- Timed initial literals -----

    /** n operators and k timed literals are in the effect lists; on later calls all are. */
    method VisitTimedInitialLiteral(k: nat, ghost n: nat, ghost first: bool)
      requires IsAppends(P, C, made)
      requires ProblemFits(P) && ValuesReady(P, C, vars, upperBound) && nextLayer <= upperBound && 0 < upperBound
      requires k < |P.tils| && enc.tilID == k && TilReady(vars, k, nextLayer) && (first <==> nextLayer == 0)
      requires ListsHold(P, affecting, n, if first then k else |P.tils|)
      modifies `vars, `solver, `affecting, `enc
      ensures enc.condNeg == old(enc.condNeg) && ValuesReady(P, C, vars, upperBound)
      ensures OnlyTil(old(vars), vars, k) && TilReady(vars, k, upperBound)
      ensures ListsHold(P, affecting, n, if first then k + 1 else |P.tils|)
      ensures made(LoopPart(TilLoop(k), nextLayer, upperBound, first), old(solver), solver)
    {
      ghost var full, lo := if first then k + 1 else |P.tils|, nextLayer;
      NoLayers(P, C, made, TilLoop(k), lo, first, solver);
      SameTil(vars, k);
      for h := nextLayer to upperBound
        invariant enc.condNeg == old(enc.condNeg) && enc.tilID == k && ValuesReady(P, C, vars, upperBound)
        invariant OnlyTil(old(vars), vars, k) && TilReady(vars, k, h)
        invariant ListsHold(P, affecting, n, if h == 0 then k else full)
        invariant made(LoopPart(TilLoop(k), lo, h, first), old(solver), solver)
      {
        TilStep(k, h, n, full, first, lo, old(vars), old(solver));
      }
    }

    method TilStep(k: nat, h: nat, ghost n: nat, ghost full: nat, ghost first: bool, ghost lo: nat, ghost vars0: Vectors,
                   ghost solver0: seq<Formula>)
      requires IsAppends(P, C, made)
      requires ProblemFits(P) && ValuesReady(P, C, vars, upperBound) && h < upperBound && lo <= h
      requires k < |P.tils| && enc.tilID == k && TilReady(vars, k, h) && OnlyTil(vars0, vars, k)
      requires ListsHold(P, affecting, n, if h == 0 then k else full) && (h == 0 ==> full == k + 1)
      requires made(LoopPart(TilLoop(k), lo, h, first), solver0, solver)
      modifies `vars, `solver, `affecting, `enc
      ensures enc.tilID == k && enc.condNeg == old(enc.condNeg) && ValuesReady(P, C, vars, upperBound)
      ensures TilReady(vars, k, h + 1) && OnlyTil(vars0, vars, k)
      ensures ListsHold(P, affecting, n, full)
      ensures made(LoopPart(TilLoop(k), lo, h + 1, first), solver0, solver)
    {
      ghost var before := solver;
      MakeTilVar(k, h, vars0);
      TilLayer(k, h, n, full, first);
      OneLayer(P, C, made, TilLoop(k), lo, h, first, solver0, before, solver);
    }

    method MakeTilVar(k: nat, h: nat, ghost before: Vectors)
      requires TilReady(vars, k, h) && ValuesReady(P, C, vars, upperBound) && OnlyTil(before, vars, k)
      modifies `vars
      ensures OnlyTil(before, vars, k) && TilReady(vars, k, h + 1) && ValuesReady(P, C, vars, upperBound)
    {
      var row := Vec(vars.til, k) + [Bool(TilAt(k, h))];
      NewTilRow(P, C, before, vars, k, h, upperBound, row);
      vars := vars.(til := vars.til[k := row]);
    }

    method TilLayer(k: nat, h: nat, ghost n: nat, ghost full: nat, ghost first: bool)
      requires IsAppends(P, C, made)
      requires ProblemFits(P) && ValuesReady(P, C, vars, upperBound) && h < upperBound
      requires k < |P.tils| && enc.tilID == k && TilReady(vars, k, h + 1)
      requires ListsHold(P, affecting, n, if h == 0 then k else full) && (h == 0 ==> full == k + 1)
      modifies `solver, `affecting, `enc
      ensures enc.tilID == k && enc.condNeg == old(enc.condNeg)
      ensures ListsHold(P, affecting, n, full)
      ensures made(LayerPart(TilLoop(k), h, first), old(solver), solver)
    {
      TilLayerTimes(k, h);
      ghost var middle := solver;
      TilLayerEffects(k, h, n, full);
      TilMakes(P, C, made, k, h, first, old(solver), middle, solver);
    }

    method TilLayerTimes(k: nat, h: nat)
      requires IsAppends(P, C, made)
      requires ValuesReady(P, C, vars, upperBound) && h < upperBound && k < |P.tils| && TilReady(vars, k, h + 1)
      modifies `solver
      ensures made(TilTimesPart(k, h), old(solver), solver)
    {
      TimesOfValues(P, C, vars, upperBound);
      var v := Const(P.tils[k].stamp);
      var fires := [Iff(And([Le(vars.time[h], v), Le(v, vars.time[h])]), TilVar(vars, h + 1, k, h))];
      var passes := if h > 0 then [Le(Const(0.0), Prod(Diff(vars.time[h], v), Diff(vars.time[h - 1], v)))] else [];
      solver := solver + (fires + passes);
      Make(P, C, made, TilTimesPart(k, h), old(solver), solver, fires + passes);
    }

    method TilLayerEffects(k: nat, h: nat, ghost n: nat, ghost full: nat)
      requires IsAppends(P, C, made)
      requires ProblemFits(P) && ValuesReady(P, C, vars, upperBound) && h < upperBound
      requires k < |P.tils| && enc.tilID == k && TilReady(vars, k, h + 1)
      requires ListsHold(P, affecting, n, if h == 0 then k else full) && (h == 0 ==> full == k + 1)
      modifies `solver, `affecting, `enc
      ensures enc.tilID == k && enc.condNeg == old(enc.condNeg)
      ensures ListsHold(P, affecting, n, full)
      ensures made(TilEffectsPart(k, h), old(solver), solver)
    {
      TilParts(P, k);
      enc := enc.(state := TilEffect, b := 0, h := h);
      VisitEffects(P.tils[k].eff, false);
      TilFormulas(P, C, made, k, enc, old(solver), solver);
      TilListsAfter(P, old(affecting), affecting, n, k, full, h == 0);
      enc := enc.(state := NoState);
    }

    // ----- Variables of operators -----

    method MakeOpVars(i: nat, ghost first: bool)
      requires IsAppends(P, C, made) && i < |P.ops| && ValuesReady(P, C, vars, upperBound)
      requires OpReady(P, C, vars, i, nextLayer) && nextLayer <= upperBound
      modifies `vars, `solver
      ensures OnlyOp(old(vars), vars, i) && OpReady(P, C, vars, i, upperBound) && ValuesReady(P, C, vars, upperBound)
      ensures made(LoopPart(OpVars(i), nextLayer, upperBound, first), old(solver), solver)
    {
      ghost var lo := nextLayer;
      NoLayers(P, C, made, OpVars(i), lo, first, solver);
      SameOps(vars, i);
      for h := nextLayer to upperBound
        invariant OnlyOp(old(vars), vars, i) && OpReady(P, C, vars, i, h) && ValuesReady(P, C, vars, upperBound)
        invariant made(LoopPart(OpVars(i), lo, h, first), old(solver), solver)
      {
        ghost var before := solver;
        OpVarsLayer(i, h, first, old(vars));
        OneLayer(P, C, made, OpVars(i), lo, h, first, old(solver), before, solver);
      }
    }

    /** One more entry in the vectors of the operator, and the constraints on it. */
    method OpVarsLayer(i: nat, h: nat, ghost first: bool, ghost vars0: Vectors)
      requires IsAppends(P, C, made) && i < |P.ops| && ValuesReady(P, C, vars, upperBound) && h < upperBound
      requires OpReady(P, C, vars, i, h) && OnlyOp(vars0, vars, i)
      modifies `vars, `solver
      ensures OnlyOp(vars0, vars, i) && OpReady(P, C, vars, i, h + 1) && ValuesReady(P, C, vars, upperBound)
      ensures made(LayerPart(OpVars(i), h, first), old(solver), solver)
    {
      match P.ops[i] {
        case Durative(_, _, _, _, _, _) => RunningLayer(i, h, false, first, vars0);
        case Process(_) => RunningLayer(i, h, true, first, vars0);
        case Instant(_, _) =>
          AddInstantVars(i, h, vars0);
          var fs := [Eq(DurVar(P, C, vars, h + 1, i, h), Const(0.0))];
          solver := solver + fs;
          Make(P, C, made, LayerPart(OpVars(i), h, first), old(solver), solver, fs);
        case Event(_, _) =>
          AddEventVars(i, h, vars0);
          Make(P, C, made, LayerPart(OpVars(i), h, first), old(solver), solver, []);
      }
    }

    method RunningLayer(i: nat, h: nat, process: bool, ghost first: bool, ghost vars0: Vectors)
      requires IsAppends(P, C, made) && Runs(P, i) && (process <==> P.ops[i].Process?)
      requires ValuesReady(P, C, vars, upperBound) && h < upperBound && OpReady(P, C, vars, i, h) && OnlyOp(vars0, vars, i)
      modifies `vars, `solver
      ensures OnlyOp(vars0, vars, i) && OpReady(P, C, vars, i, h + 1) && ValuesReady(P, C, vars, upperBound)
      ensures made(LayerPart(OpVars(i), h, first), old(solver), solver)
    {
      AddRunningVars(i, h, vars0);
      var fs := RunningConstraints(i, h, process);
      solver := solver + fs;
      Make(P, C, made, LayerPart(OpVars(i), h, first), old(solver), solver, fs);
    }

    method AddRunningVars(i: nat, h: nat, ghost vars0: Vectors)
      requires Runs(P, i) && OpReady(P, C, vars, i, h) && OnlyOp(vars0, vars, i) && ValuesReady(P, C, vars, upperBound)
      modifies `vars
      ensures OnlyOp(vars0, vars, i) && OpReady(P, C, vars, i, h + 1) && ValuesReady(P, C, vars, upperBound)
    {
      ghost var before := vars;
      vars := vars.(sta := vars.sta[i := Vec(vars.sta, i) + [Bool(Start(i, h))]],
                    end := vars.end[i := Vec(vars.end, i) + [Bool(End(i, h))]],
                    run := vars.run[i := Vec(vars.run, i) + [Bool(Running(i, h))]],
                    dur := vars.dur[i := Vec(vars.dur, i) + [Var(Remaining(i, h))]]);
      NewOpRow(P, C, vars0, before, vars, i, h, upperBound);
    }

    method AddInstantVars(i: nat, h: nat, ghost vars0: Vectors)
      requires i < |P.ops| && P.ops[i].Instant? && OpReady(P, C, vars, i, h)
      requires OnlyOp(vars0, vars, i) && ValuesReady(P, C, vars, upperBound)
      modifies `vars
      ensures OnlyOp(vars0, vars, i) && OpReady(P, C, vars, i, h + 1) && ValuesReady(P, C, vars, upperBound)
    {
      ghost var before := vars;
      vars := vars.(sta := vars.sta[i := Vec(vars.sta, i) + [Bool(Start(i, h))]],
                    dur := vars.dur[i := Vec(vars.dur, i) + [Var(Remaining(i, h))]]);
      NewOpRow(P, C, vars0, before, vars, i, h, upperBound);
    }

    method AddEventVars(i: nat, h: nat, ghost vars0: Vectors)
      requires i < |P.ops| && P.ops[i].Event? && OpReady(P, C, vars, i, h)
      requires OnlyOp(vars0, vars, i) && ValuesReady(P, C, vars, upperBound)
      modifies `vars
      ensures OnlyOp(vars0, vars, i) && OpReady(P, C, vars, i, h + 1) && ValuesReady(P, C, vars, upperBound)
    {
      ghost var before := vars;
      var layers := seq(C - 1, b requires 0 <= b < C - 1 => Bool(Fired(i, h, b)));
      vars := vars.(event := vars.event[i := Vec(vars.event, i) + [layers]]);
      NewEventRow(P, C, vars0, before, vars, i, h, upperBound, layers);
    }

    /** A process repeats one implication. */
    method RunningConstraints(i: nat, h: nat, process: bool) returns (fs: seq<Formula>)
      requires Runs(P, i) && OpReady(P, C, vars, i, h + 1) && h < upperBound && ValuesReady(P, C, vars, upperBound)
      ensures fs == RunVarsAt(i, h, process)
    {
      var sta, end := StaVar(P, C, vars, h + 1, i, h), EndVar(P, C, vars, h + 1, i, h);
      var run, dur := RunVar(P, C, vars, h + 1, i, h), DurVar(P, C, vars, h + 1, i, h);
      var signs := [Iff(run, Lt(Const(0.0), dur)), Iff(Not(run), Eq(dur, Const(0.0)))];
      var bounds := [Implies(sta, run), Implies(end, Eq(dur, Const(0.0)))];
      var countdown := [];
      var again := if process then [Implies(sta, run)] else [];
      var transition;
      if h > 0 {
        var before, durBefore := RunVar(P, C, vars, h + 1, i, h - 1), DurVar(P, C, vars, h + 1, i, h - 1);
        countdown := [Implies(before, Eq(dur, Diff(durBefore, GapVar(P, C, vars, upperBound, h - 1))))];
        transition := [Implies(end, before)] + again + [Implies(sta, Not(before)), Implies(run, Or([before, sta]))] +
        [Implies(Not(run), Or([Not(before), end]))];
      } else {
        transition := [Not(end), Implies(run, sta)] + again + [Implies(Not(run), Not(sta))];
      }
      fs := signs + countdown + bounds + transition;
    }

    // ----- Bodies of operators -----

    /** Everything an operator body reads is in place. */
    ghost predicate CanEncode()
      reads `vars, `upperBound, `enc
    {
      BodyReady(P, C, vars, upperBound) && !enc.condNeg && IsAppends(P, C, made)
    }

    method VisitDuration(g: Goal, ghost seen: nat)
      requires CanEncode() && GoalFits(P, g, true, true) && IsDurative(P, enc.opID) && enc.h < upperBound && enc.b == C - 2
      requires seen <= |P.ops|
      modifies `solver, `goalExpression, `enc
      ensures OnlyScratch(old(enc), enc) && goalExpression == old(goalExpression)
      ensures made(ConditionPart(ActionContext(DurationMode, enc.opID, enc.h, C, AtStart, seen), g), old(solver), solver)
    {
      enc := enc.(state := ActionDuration);
      ghost var ctx := ContextOf(enc, seen);
      VisitGoal(g, true, true, seen);
      ConditionMade(P, C, made, ctx, g, old(solver), solver, old(goalExpression), goalExpression);
    }

    method VisitPrecondition(g: Goal, ghost seen: nat)
      requires CanEncode() && GoalFits(P, g, false, false) && enc.opID < |P.ops| && P.ops[enc.opID].Instant?
      requires enc.h < upperBound && enc.b == C - 2 && ListsHold(P, affecting, seen, |P.tils|)
      modifies `solver, `goalExpression, `enc
      ensures OnlyScratch(old(enc), enc) && goalExpression == old(goalExpression)
      ensures made(ConditionPart(ActionContext(InstantConditionMode, enc.opID, enc.h, C, AtStart, seen), g), old(solver), solver)
    {
      enc := enc.(state := SimpleActionCondition);
      ghost var ctx := ContextOf(enc, seen);
      VisitGoal(g, false, false, seen);
      ConditionMade(P, C, made, ctx, g, old(solver), solver, old(goalExpression), goalExpression);
    }

    method VisitTimedGoal(time: TimeSpec, g: Goal, ghost seen: nat)
      requires CanEncode() && GoalFits(P, g, true, true) && IsDurative(P, enc.opID)
      requires enc.h < upperBound && enc.b == C - 2 && ListsHold(P, affecting, seen, |P.tils|)
      modifies `solver, `goalExpression, `enc
      ensures OnlyScratch(old(enc), enc) && goalExpression == old(goalExpression)
      ensures made(ConditionPart(ActionContext(ConditionMode, enc.opID, enc.h, C, time, seen), g), old(solver), solver)
    {
      enc := enc.(state := ActionCondition, condTime := time);
      ghost var ctx := ContextOf(enc, seen);
      VisitGoal(g, true, true, seen);
      ConditionMade(P, C, made, ctx, g, old(solver), solver, old(goalExpression), goalExpression);
    }

    method VisitActionEffects(e: Effects, time: TimeSpec, instant: bool)
      requires CanEncode() && EffectsFit(P, e, !instant) && enc.opID < |P.ops| && time != OverAll
      requires if instant then P.ops[enc.opID].Instant? && time == AtStart else P.ops[enc.opID].Durative?
      requires enc.h < upperBound && enc.b == C - 2
      modifies `solver, `affecting, `enc
      ensures OnlyScratch(old(enc), enc)
      ensures made(EffectsPart(e, TriggerOf(KindOf(ActionEffect, time), enc.opID, enc.h, 0), enc.opID, enc.h), old(solver), solver)
      ensures if enc.h == 0 then Grown(old(affecting), affecting, e, KindOf(ActionEffect, time), enc.opID)
              else Same(old(affecting), affecting)
    {
      enc := enc.(state := if instant then SimpleActionEffect else ActionEffect, effTime := time);
      VisitEffects(e, !instant);
      EffectsMade(P, C, made, e, enc, old(solver), solver);
    }

    /** Both effect structures of a durative action; the lists gain it on the first happening. */
    method VisitDurativeEffects(i: nat, ghost seen: nat) returns (ghost middle: seq<Formula>)
      requires ProblemFits(P) && CanEncode() && IsDurative(P, i) && enc.opID == i && enc.h < upperBound && enc.b == C - 2
      requires ListsHold(P, affecting, if enc.h == 0 then i else seen, |P.tils|) && (enc.h == 0 ==> seen == i + 1)
      modifies `solver, `affecting, `enc
      ensures OnlyScratch(old(enc), enc)
      ensures ListsHold(P, affecting, seen, |P.tils|)
      ensures made(EffectsPart(P.ops[i].start, Start(i, enc.h), i, enc.h), old(solver), middle)
      ensures made(EffectsPart(P.ops[i].end, End(i, enc.h), i, enc.h), middle, solver)
    {
      OpParts(P, i);
      VisitActionEffects(P.ops[i].start, AtStart, false);
      middle := solver;
      ghost var lists := affecting;
      VisitActionEffects(P.ops[i].end, AtEnd, false);
      DurativeListsAfter(P, old(affecting), lists, affecting, i, seen, enc.h == 0);
    }

    method DurativeLayer(i: nat, h: nat, ghost seen: nat, ghost first: bool)
      requires ProblemFits(P) && CanEncode() && IsDurative(P, i) && enc.opID == i && h < upperBound && enc.b == C - 2
      requires seen == SeenAt(P, i, first) && (h == 0 ==> first)
      requires ListsHold(P, affecting, if h == 0 then i else seen, |P.tils|)
      modifies `solver, `goalExpression, `enc, `affecting
      ensures OnlyScratch(old(enc).(h := h), enc) && goalExpression == old(goalExpression)
      ensures ListsHold(P, affecting, seen, |P.tils|)
      ensures made(LayerPart(OpBody(i), h, first), old(solver), solver)
    {
      OpParts(P, i);
      enc := enc.(h := h);
      VisitDuration(P.ops[i].duration, seen);
      ghost var s1 := solver;
      ghost var s2 := VisitDurativeEffects(i, seen);
      ghost var s3 := solver;
      VisitTimedGoal(AtStart, P.ops[i].atStart, seen);
      ghost var s4 := solver;
      VisitTimedGoal(OverAll, P.ops[i].overAll, seen);
      ghost var s5 := solver;
      VisitTimedGoal(AtEnd, P.ops[i].atEnd, seen);
      DurativeMakes(P, C, made, i, h, first, old(solver), s1, s2, s3, s4, s5, solver);
    }

    method VisitDurativeAction(i: nat, ghost seen: nat, ghost first: bool)
      requires ProblemFits(P) && CanEncode() && IsDurative(P, i) && enc.opID == i && nextLayer <= upperBound && 0 < upperBound
      requires seen == SeenAt(P, i, first) && (first <==> nextLayer == 0)
      requires ListsHold(P, affecting, if first then i else seen, |P.tils|)
      modifies `solver, `goalExpression, `enc, `affecting
      ensures CanEncode()
      ensures goalExpression == old(goalExpression) + [Not(Bool(Running(i, upperBound - 1)))]
      ensures ListsHold(P, affecting, seen, |P.tils|)
      ensures made(LoopPart(OpBody(i), nextLayer, upperBound, first), old(solver), solver)
    {
      ghost var lo := nextLayer;
      enc := enc.(b := C - 2);
      NoLayers(P, C, made, OpBody(i), lo, first, solver);
      for h := nextLayer to upperBound
        invariant CanEncode() && enc.opID == i && enc.b == C - 2 && goalExpression == old(goalExpression)
        invariant ListsHold(P, affecting, if h == 0 then i else seen, |P.tils|)
        invariant made(LoopPart(OpBody(i), lo, h, first), old(solver), solver)
      {
        ghost var before := solver;
        DurativeLayer(i, h, seen, first);
        OneLayer(P, C, made, OpBody(i), lo, h, first, old(solver), before, solver);
      }
      goalExpression := goalExpression + [Not(RunVar(P, C, vars, upperBound, i, upperBound - 1))];
    }

    method InstantLayer(i: nat, h: nat, ghost seen: nat, ghost first: bool)
      requires ProblemFits(P) && CanEncode() && i < |P.ops| && P.ops[i].Instant? && enc.opID == i
      requires h < upperBound && enc.b == C - 2 && seen == SeenAt(P, i, first) && (h == 0 ==> first)
      requires ListsHold(P, affecting, if h == 0 then i else seen, |P.tils|)
      modifies `solver, `goalExpression, `enc, `affecting
      ensures OnlyScratch(old(enc).(h := h), enc) && goalExpression == old(goalExpression)
      ensures ListsHold(P, affecting, seen, |P.tils|)
      ensures made(LayerPart(OpBody(i), h, first), old(solver), solver)
    {
      OpParts(P, i);
      enc := enc.(h := h);
      VisitActionEffects(P.ops[i].eff, AtStart, true);
      InstantListsAfter(P, old(affecting), affecting, i, seen, h == 0);
      ghost var middle := solver;
      VisitPrecondition(P.ops[i].pre, seen);
      InstantMakes(P, C, made, i, h, first, old(solver), middle, solver);
    }

    method VisitAction(i: nat, ghost seen: nat, ghost first: bool)
      requires ProblemFits(P) && CanEncode() && i < |P.ops| && P.ops[i].Instant? && enc.opID == i
      requires nextLayer <= upperBound && 0 < upperBound && seen == SeenAt(P, i, first) && (first <==> nextLayer == 0)
      requires ListsHold(P, affecting, if first then i else seen, |P.tils|)
      modifies `solver, `goalExpression, `enc, `affecting
      ensures CanEncode() && goalExpression == old(goalExpression)
      ensures ListsHold(P, affecting, seen, |P.tils|)
      ensures made(LoopPart(OpBody(i), nextLayer, upperBound, first), old(solver), solver)
    {
      ghost var lo := nextLayer;
      enc := enc.(b := C - 2);
      NoLayers(P, C, made, OpBody(i), lo, first, solver);
      for h := nextLayer to upperBound
        invariant CanEncode() && enc.opID == i && enc.b == C - 2 && goalExpression == old(goalExpression)
        invariant ListsHold(P, affecting, if h == 0 then i else seen, |P.tils|)
        invariant made(LoopPart(OpBody(i), lo, h, first), old(solver), solver)
      {
        ghost var before := solver;
        InstantLayer(i, h, seen, first);
        OneLayer(P, C, made, OpBody(i), lo, h, first, old(solver), before, solver);
      }
    }

    // ----- Events and processes -----

    /** Triggers of the current layer on the condition stack, lhs - rhs terms on the other. */
    method VisitTrigger(g: Goal)
      requires CanEncode() && GoalFits(P, g, false, true) && enc.opID < |P.ops| && enc.h < upperBound && enc.b < C
      requires enc.state == EventCondition || enc.state == ProcessCondition
      modifies `solver, `goalExpression, `enc
      ensures OnlyScratch(old(enc), enc) && enc.state == old(enc.state)
      ensures solver == old(solver) && goalExpression == old(goalExpression)
      ensures enc.conditions == TriggerOutput(P, C, g, enc.opID, enc.h, enc.b).conds
      ensures enc.musts == TriggerOutput(P, C, g, enc.opID, enc.h, enc.b).musts
    {
      enc := enc.(conditions := [], musts := []);
      ghost var ctx := ContextOf(enc, 0);
      VisitGoal(g, false, true, 0);
      TriggerVisited(P, C, ctx, g, enc.opID, old(solver), old(goalExpression), Written());
    }

    /** Pop both stacks together: each comparison keeps its sign from one end to the other. */
    method PairMusts(current: seq<Term>) returns (fs: seq<Formula>)
      requires |current| == |enc.musts|
      modifies `enc
      ensures OnlyStacks(old(enc))
      ensures fs == MustConstraints(current, old(enc.musts))
    {
      var rest := current;
      fs := [];
      while |enc.musts| > 0
        invariant |rest| == |enc.musts| && OnlyStacks(old(enc))
        invariant fs + MustConstraints(rest, enc.musts) == MustConstraints(current, old(enc.musts))
      {
        var last := |rest| - 1;
        MustStep(rest, enc.musts, fs);
        fs := fs + [Le(Const(0.0), Prod(rest[last], enc.musts[last]))];
        enc := enc.(musts := enc.musts[..last]);
        rest := rest[..last];
      }
    }

    /** The comparisons of the condition, at the end of the last happening and at the start of this one. */
    method MustsOf(g: Goal) returns (fs: seq<Formula>)
      requires CanEncode() && GoalFits(P, g, false, true) && enc.opID < |P.ops| && 0 < enc.h < upperBound
      requires enc.state == EventCondition || enc.state == ProcessCondition
      requires enc.musts == TriggerOutput(P, C, g, enc.opID, enc.h, 0).musts
      modifies `solver, `goalExpression, `enc
      ensures OnlyScratch(old(enc), enc)
      ensures solver == old(solver) && goalExpression == old(goalExpression)
      ensures fs == Musts(P, C, g, enc.opID, enc.h)
    {
      var current, b := enc.musts, enc.b;
      enc := enc.(h := enc.h - 1, b := C - 1);
      VisitTrigger(g);
      enc := enc.(h := enc.h + 1, b := b);
      SameMusts(P, C, g, enc.opID, enc.h, 0, enc.h - 1, C - 1);
      fs := PairMusts(current);
    }

    method EventEffects(i: nat, h: nat, b: nat, ghost seen: nat) returns (fs: seq<Formula>)
      requires ProblemFits(P) && CanEncode() && i < |P.ops| && P.ops[i].Event? && enc.opID == i && h < upperBound && b < C - 1
      requires ListsHold(P, affecting, if h == 0 && b == 0 then i else seen, |P.tils|) && (h == 0 ==> seen == i + 1)
      modifies `affecting, `enc
      ensures OnlyScratch(old(enc).(h := h, b := b), enc)
      ensures ListsHold(P, affecting, seen, |P.tils|)
      ensures fs == EventEffectsAt(P.ops[i].eff, i, h, b)
    {
      OpParts(P, i);
      fs := AssertEvent(i, h, b);
      if h == 0 && b == 0 {
        RecordEffects(P.ops[i].eff);
      }
      EventListsAfter(P, old(affecting), affecting, i, seen, h == 0 && b == 0);
    }

    method AssertEvent(i: nat, h: nat, b: nat) returns (fs: seq<Formula>)
      requires CanEncode() && i < |P.ops| && P.ops[i].Event? && enc.opID == i && h < upperBound && b < C - 1
      requires EffectsFit(P, P.ops[i].eff, false) && P.ops[i].eff.assigns == []
      modifies `enc
      ensures OnlyScratch(old(enc).(h := h, b := b), enc) && enc.state == EventEffect
      ensures fs == EventEffectsAt(P.ops[i].eff, i, h, b)
    {
      enc := enc.(state := EventEffect, effTime := AtStart, h := h, b := b);
      fs := AssertEffects(P.ops[i].eff, false);
      EventFormulas(C, P.ops[i].eff, i, h, b);
    }

    method EventLayerClauses(i: nat, h: nat, b: nat, ghost seen: nat) returns (fs: seq<Formula>)
      requires ProblemFits(P) && CanEncode() && i < |P.ops| && P.ops[i].Event? && enc.opID == i && h < upperBound && b < C - 1
      requires ListsHold(P, affecting, if h == 0 && b == 0 then i else seen, |P.tils|) && (h == 0 ==> seen == i + 1)
      modifies `solver, `goalExpression, `affecting, `enc
      ensures OnlyScratch(old(enc).(h := h, b := b), enc)
      ensures solver == old(solver) && goalExpression == old(goalExpression)
      ensures ListsHold(P, affecting, seen, |P.tils|)
      ensures fs == EventLayer(P, C, i, h, b)
    {
      OpParts(P, i);
      var effects := EventEffects(i, h, b, seen);
      enc := enc.(state := EventCondition);
      VisitTrigger(P.ops[i].pre);
      var fires := [Iff(EventVar(P, C, vars, upperBound, i, h, b), And(enc.conditions))];
      var musts := [];
      if b == 0 && h > 0 {
        var constraints := MustsOf(P.ops[i].pre);
        musts := [And(constraints)];
      }
      fs := effects + fires + musts;
    }

    method EventBody(i: nat, h: nat, ghost seen: nat) returns (fs: seq<Formula>)
      requires ProblemFits(P) && CanEncode() && i < |P.ops| && P.ops[i].Event? && enc.opID == i && h < upperBound
      requires ListsHold(P, affecting, if h == 0 then i else seen, |P.tils|) && (h == 0 ==> seen == i + 1)
      modifies `solver, `goalExpression, `affecting, `enc
      ensures enc.opID == i && !enc.condNeg && enc.tilID == old(enc.tilID)
      ensures solver == old(solver) && goalExpression == old(goalExpression)
      ensures ListsHold(P, affecting, seen, |P.tils|)
      ensures fs == Block(EventLayerOf(P, C, i, h), 0, C - 1)
    {
      fs := [];
      for b := 0 to C - 1
        invariant enc.opID == i && !enc.condNeg && enc.tilID == old(enc.tilID)
        invariant solver == old(solver) && goalExpression == old(goalExpression)
        invariant ListsHold(P, affecting, if h == 0 && b == 0 then i else seen, |P.tils|)
        invariant fs == Block(EventLayerOf(P, C, i, h), 0, b)
      {
        var layer := EventLayerClauses(i, h, b, seen);
        BlockStep(EventLayerOf(P, C, i, h), 0, b);
        fs := fs + layer;
      }
    }

    method ProcessBodyClauses(i: nat, h: nat) returns (fs: seq<Formula>)
      requires ProblemFits(P) && CanEncode() && i < |P.ops| && P.ops[i].Process? && enc.opID == i && h < upperBound
      modifies `solver, `goalExpression, `enc
      ensures enc.opID == i && !enc.condNeg && enc.tilID == old(enc.tilID)
      ensures solver == old(solver) && goalExpression == old(goalExpression)
      ensures fs == ProcessBody(P, C, i, h)
    {
      OpParts(P, i);
      enc := enc.(state := ProcessCondition, h := h, b := C - 1);
      VisitTrigger(P.ops[i].pre);
      fs := [Iff(RunVar(P, C, vars, upperBound, i, h), And(enc.conditions))];
      if h > 0 {
        var guarded := ProcessMusts(i, h);
        fs := fs + guarded;
      }
    }

    /** While it runs, nothing may have changed sides since the happening before. */
    method ProcessMusts(i: nat, h: nat) returns (guarded: seq<Formula>)
      requires ProblemFits(P) && CanEncode() && i < |P.ops| && P.ops[i].Process? && enc.opID == i && 0 < h < upperBound
      requires enc.h == h && enc.state == ProcessCondition && !enc.condNeg
      modifies `solver, `goalExpression, `enc
      ensures enc.opID == i && !enc.condNeg && enc.tilID == old(enc.tilID)
      ensures solver == old(solver) && goalExpression == old(goalExpression)
      ensures guarded == GuardFromBack(Bool(Running(i, h - 1)), Musts(P, C, P.ops[i].pre, i, h))
    {
      OpParts(P, i);
      enc := enc.(b := 0);
      VisitTrigger(P.ops[i].pre);
      var constraints := MustsOf(P.ops[i].pre);
      guarded := GuardAll(RunVar(P, C, vars, upperBound, i, h - 1), constraints);
    }

    method GuardAll(guard: Formula, constraints: seq<Formula>) returns (fs: seq<Formula>)
      ensures fs == GuardFromBack(guard, constraints)
    {
      var rest := constraints;
      fs := [];
      while |rest| > 0
        invariant fs + GuardFromBack(guard, rest) == GuardFromBack(guard, constraints)
      {
        var last := |rest| - 1;
        fs := fs + [Implies(guard, rest[last])];
        rest := rest[..last];
      }
    }

    method AddEventLayer(i: nat, h: nat, ghost seen: nat, ghost first: bool)
      requires ProblemFits(P) && CanEncode() && i < |P.ops| && P.ops[i].Event? && enc.opID == i && h < upperBound
      requires ListsHold(P, affecting, if h == 0 then i else seen, |P.tils|) && (h == 0 ==> seen == i + 1)
      modifies `solver, `goalExpression, `affecting, `enc
      ensures enc.opID == i && !enc.condNeg && goalExpression == old(goalExpression)
      ensures ListsHold(P, affecting, seen, |P.tils|)
      ensures made(LayerPart(OpBody(i), h, first), old(solver), solver)
    {
      var fs := EventBody(i, h, seen);
      solver := solver + fs;
      LayerMakes(P, C, made, OpBody(i), h, first, old(solver), solver, fs);
    }

    method AddProcessLayer(i: nat, h: nat, ghost first: bool)
      requires ProblemFits(P) && CanEncode() && i < |P.ops| && P.ops[i].Process? && enc.opID == i && h < upperBound
      modifies `solver, `goalExpression, `enc
      ensures enc.opID == i && !enc.condNeg && goalExpression == old(goalExpression)
      ensures made(LayerPart(OpBody(i), h, first), old(solver), solver)
    {
      var fs := ProcessBodyClauses(i, h);
      solver := solver + fs;
      LayerMakes(P, C, made, OpBody(i), h, first, old(solver), solver, fs);
    }

    method VisitEvent(i: nat, ghost seen: nat, ghost first: bool)
      requires ProblemFits(P) && CanEncode() && i < |P.ops| && P.ops[i].Event? && enc.opID == i
      requires nextLayer <= upperBound && 0 < upperBound && seen == SeenAt(P, i, first) && (first <==> nextLayer == 0)
      requires ListsHold(P, affecting, if first then i else seen, |P.tils|)
      modifies `solver, `goalExpression, `enc, `affecting
      ensures CanEncode() && goalExpression == old(goalExpression)
      ensures ListsHold(P, affecting, seen, |P.tils|)
      ensures made(LoopPart(OpBody(i), nextLayer, upperBound, first), old(solver), solver)
    {
      ghost var lo := nextLayer;
      NoLayers(P, C, made, OpBody(i), lo, first, solver);
      for h := nextLayer to upperBound
        invariant CanEncode() && enc.opID == i && goalExpression == old(goalExpression)
        invariant ListsHold(P, affecting, if h == 0 then i else seen, |P.tils|)
        invariant made(LoopPart(OpBody(i), lo, h, first), old(solver), solver)
      {
        ghost var before := solver;
        AddEventLayer(i, h, seen, first);
        OneLayer(P, C, made, OpBody(i), lo, h, first, old(solver), before, solver);
      }
    }

    method VisitProcess(i: nat, ghost seen: nat, ghost first: bool)
      requires ProblemFits(P) && CanEncode() && i < |P.ops| && P.ops[i].Process? && enc.opID == i
      requires nextLayer <= upperBound && 0 < upperBound && seen == SeenAt(P, i, first)
      requires ListsHold(P, affecting, if first then i else seen, |P.tils|)
      modifies `solver, `goalExpression, `enc
      ensures CanEncode() && goalExpression == old(goalExpression)
      ensures ListsHold(P, affecting, seen, |P.tils|)
      ensures made(LoopPart(OpBody(i), nextLayer, upperBound, first), old(solver), solver)
    {
      ghost var lo := nextLayer;
      NoLayers(P, C, made, OpBody(i), lo, first, solver);
      for h := nextLayer to upperBound
        invariant CanEncode() && enc.opID == i && goalExpression == old(goalExpression)
        invariant made(LoopPart(OpBody(i), lo, h, first), old(solver), solver)
      {
        ghost var before := solver;
        AddProcessLayer(i, h, first);
        OneLayer(P, C, made, OpBody(i), lo, h, first, old(solver), before, solver);
      }
      ProcessListsAfter(P, affecting, i, seen, first);
    }

    // ----- Explanatory frame axioms -----

    /** The variables of everyone in an effect list, in a place. */
    method Enablers(role: Role, id: nat, t: Trigger) returns (fs: seq<Formula>)
      requires CanFrame() && TriggerFits(C, role, t, upperBound)
      ensures fs == Triggers(Users(P, role, id), t)
    {
      var users := ListOf(affecting, role, id);
      UsersFit(P, affecting, role, id);
      fs := [];
      for k := 0 to |users|
        invariant fs == Triggers(users[..k], t)
      {
        var v := TriggerVarOf(role, t, users[k]);
        assert users[..k + 1] == users[..k] + [users[k]];
        fs := fs + [v];
      }
      assert users[..|users|] == users;
    }

    method TriggerVarOf(role: Role, t: Trigger, who: nat) returns (v: Formula)
      requires CanFrame() && TriggerFits(C, role, t, upperBound) && UserFits(P, role, who)
      ensures v == Bool(TriggerVar(t, who))
    {
      match t {
        case Starts(h) => v := StaVar(P, C, vars, upperBound, who, h);
        case Ends(h) => v := EndVar(P, C, vars, upperBound, who, h);
        case Fires(h, b) => v := EventVar(P, C, vars, upperBound, who, h, b);
        case TilFires(h) => v := TilVar(vars, upperBound, who, h);
      }
    }

    /** All variables exist and all effect lists are complete. */
    ghost predicate CanFrame()
      reads `vars, `upperBound, `affecting
    {
      BodyReady(P, C, vars, upperBound) && TilsReady(vars, 0, |P.tils|, upperBound) &&
      ListsHold(P, affecting, |P.ops|, |P.tils|)
    }

    method AddArguments(l: nat, h: nat, b: nat) returns (fs: seq<Formula>)
      requires CanFrame() && l < P.lits && h < upperBound && 0 < b < C
      ensures fs == AddSupport(P, C, l, h, b)
    {
      var events := Enablers(EventAdd, l, Fires(h, b - 1));
      var actions := [];
      if b == C - 1 {
        var starts := Enablers(StartAdd, l, Starts(h));
        var ends := Enablers(EndAdd, l, Ends(h));
        actions := starts + ends;
      }
      fs := [LitVar(P, C, vars, upperBound, l, h, b - 1)] + events + actions;
    }

    method DelArguments(l: nat, h: nat, b: nat) returns (fs: seq<Formula>)
      requires CanFrame() && l < P.lits && h < upperBound && 0 < b < C
      ensures fs == DelSupport(P, C, l, h, b)
    {
      var events := Enablers(EventDel, l, Fires(h, b - 1));
      var actions := [];
      if b == C - 1 {
        var starts := Enablers(StartDel, l, Starts(h));
        var ends := Enablers(EndDel, l, Ends(h));
        actions := starts + ends;
      }
      fs := [Not(LitVar(P, C, vars, upperBound, l, h, b - 1))] + events + actions;
    }

    method LiteralLayers(l: nat, h: nat) returns (fs: seq<Formula>)
      requires CanFrame() && l < P.lits && h < upperBound
      ensures fs == Block(LitLayerOf(P, C, l, h), 1, C)
    {
      fs := [];
      for b := 1 to C
        invariant fs == Block(LitLayerOf(P, C, l, h), 1, b)
      {
        var adds := AddArguments(l, h, b);
        var dels := DelArguments(l, h, b);
        var v := LitVar(P, C, vars, upperBound, l, h, b);
        BlockStep(LitLayerOf(P, C, l, h), 1, b);
        fs := fs + [Implies(v, Or(adds)), Implies(Not(v), Or(dels))];
      }
    }

    method LiteralBetween(l: nat, h: nat) returns (fs: seq<Formula>)
      requires CanFrame() && l < P.lits && 0 < h < upperBound
      ensures fs == LitBetween(P, C, l, h)
    {
      var now, before := LitVar(P, C, vars, upperBound, l, h, 0), LitVar(P, C, vars, upperBound, l, h - 1, C - 1);
      var adds := Enablers(TilAdd, l, TilFires(h));
      var dels := Enablers(TilDel, l, TilFires(h));
      fs := [Implies(now, Or([before] + adds)), Implies(Not(now), Or([Not(before)] + dels))];
    }

    method LiteralLayer(l: nat, h: nat) returns (fs: seq<Formula>)
      requires CanFrame() && l < P.lits && h < upperBound
      ensures fs == LitAt(P, C, l, h)
    {
      fs := LiteralLayers(l, h);
      if h > 0 {
        var between := LiteralBetween(l, h);
        fs := fs + between;
      }
    }

    method AddLiteralLayer(l: nat, h: nat, ghost first: bool)
      requires CanFrame() && l < P.lits && h < upperBound && IsAppends(P, C, made)
      modifies `solver
      ensures made(LayerPart(LitSupport(l), h, first), old(solver), solver)
    {
      var fs := LiteralLayer(l, h);
      solver := solver + fs;
      LayerMakes(P, C, made, LitSupport(l), h, first, old(solver), solver, fs) by {
        LiteralLayerIs(P, C, l, h, first);
      }
    }

    method EncodeLiteralVariableSupport(l: nat, ghost first: bool)
      requires CanFrame() && l < P.lits && nextLayer <= upperBound && IsAppends(P, C, made)
      modifies `solver
      ensures made(LoopPart(LitSupport(l), nextLayer, upperBound, first), old(solver), solver)
    {
      ghost var lo := nextLayer;
      NoLayers(P, C, made, LitSupport(l), lo, first, solver);
      for h := nextLayer to upperBound
        invariant made(LoopPart(LitSupport(l), lo, h, first), old(solver), solver)
      {
        ghost var before := solver;
        AddLiteralLayer(l, h, first);
        OneLayer(P, C, made, LitSupport(l), lo, h, first, old(solver), before, solver);
      }
    }

    method FunctionLayers(fn: nat, h: nat) returns (fs: seq<Formula>)
      requires CanFrame() && fn < P.fns && h < upperBound
      ensures fs == Block(FnLayerOf(P, C, fn, h), 1, C)
    {
      fs := [];
      for b := 1 to C
        invariant fs == Block(FnLayerOf(P, C, fn, h), 1, b)
      {
        var arguments := FunctionArguments(fn, h, b);
        BlockStep(FnLayerOf(P, C, fn, h), 1, b);
        fs := fs + [Or(arguments)];
      }
    }

    method FunctionArguments(fn: nat, h: nat, b: nat) returns (fs: seq<Formula>)
      requires CanFrame() && fn < P.fns && h < upperBound && 0 < b < C
      ensures fs == FnSupport(P, C, fn, h, b)
    {
      var actions := [];
      if b == C - 1 {
        var starts := Enablers(StartAssign, fn, Starts(h));
        var ends := Enablers(EndAssign, fn, Ends(h));
        actions := starts + ends;
      }
      fs := actions + [Eq(FnVar(P, C, vars, upperBound, fn, h, b - 1), FnVar(P, C, vars, upperBound, fn, h, b))];
    }

    method AddFunctionLayers(fn: nat, h: nat, ghost first: bool)
      requires CanFrame() && fn < P.fns == |P.flows| && h < upperBound && IsAppends(P, C, made)
      modifies `solver
      ensures made(LayerPart(FnSupports(fn), h, first), old(solver), solver)
    {
      var fs := FunctionLayers(fn, h);
      solver := solver + fs;
      LayerMakes(P, C, made, FnSupports(fn), h, first, old(solver), solver, fs);
    }

    method EncodeFunctionVariableSupport(fn: nat, ghost first: bool)
      requires CanFrame() && fn < P.fns == |P.flows| && nextLayer <= upperBound && IsAppends(P, C, made)
      modifies `solver
      ensures made(LoopPart(FnSupports(fn), nextLayer, upperBound, first), old(solver), solver)
    {
      ghost var lo := nextLayer;
      NoLayers(P, C, made, FnSupports(fn), lo, first, solver);
      for h := nextLayer to upperBound
        invariant made(LoopPart(FnSupports(fn), lo, h, first), old(solver), solver)
      {
        ghost var before := solver;
        AddFunctionLayers(fn, h, first);
        OneLayer(P, C, made, FnSupports(fn), lo, h, first, old(solver), before, solver);
      }
    }

    // ----- Continuous change -----

    /** The polynomial of a flow over the variables of a layer. */
    method MkExpr(poly: seq<Monomial>, h: nat, b: nat) returns (flow: Term)
      requires ValuesReady(P, C, vars, upperBound) && h < upperBound && b < C
      requires forall m | m in poly :: FactorsFit(P, m.factors)
      ensures flow == PolyTerm(poly, h, b)
    {
      flow := Const(0.0);
      for k := 0 to |poly|
        invariant flow == PolyTerm(poly[..k], h, b)
      {
        var coeff := MkMonomial(poly[k], h, b);
        assert poly[..k + 1] == poly[..k] + [poly[k]];
        flow := Sum(flow, coeff);
      }
      assert poly[..|poly|] == poly;
    }

    method MkMonomial(m: Monomial, h: nat, b: nat) returns (coeff: Term)
      requires ValuesReady(P, C, vars, upperBound) && h < upperBound && b < C
      requires FactorsFit(P, m.factors)
      ensures coeff == MonomialTerm(m.cf, m.factors, h, b)
    {
      coeff := Const(m.cf);
      for k := 0 to |m.factors|
        invariant coeff == MonomialTerm(m.cf, m.factors[..k], h, b)
      {
        var factor := m.factors[k];
        assert m.factors[..k + 1] == m.factors[..k] + [factor];
        if factor.power != 0 {
          var sym := GapVar(P, C, vars, upperBound, h);
          if factor.sym.Function? {
            sym := FnVar(P, C, vars, upperBound, factor.sym.fn, h, b);
          }
          if factor.power != 1 {
            sym := Pow(sym, factor.power);
          }
          coeff := Prod(coeff, sym);
        }
      }
      assert m.factors[..|m.factors|] == m.factors;
    }

    method OperatorsOf(operators: seq<int>, h: nat) returns (chargs: seq<Formula>, nchargs: seq<Formula>)
      requires BodyReady(P, C, vars, upperBound) && h < upperBound
      requires forall o | o in operators :: o != 0 && Runs(P, OpOf(o))
      ensures chargs == OperatorConjuncts(operators, h) && nchargs == NoOperatorRuns(operators, h)
    {
      chargs, nchargs := [], [];
      for k := 0 to |operators|
        invariant chargs == OperatorConjuncts(operators[..k], h) && nchargs == NoOperatorRuns(operators[..k], h)
      {
        var o := operators[k];
        assert o in operators;
        var run := RunVar(P, C, vars, upperBound, OpOf(o), h);
        assert operators[..k + 1] == operators[..k] + [o];
        chargs := chargs + [if o < 0 then Not(run) else run];
        nchargs := nchargs + [Not(run)];
      }
      assert operators[..|operators|] == operators;
    }

    method QuietTils(fn: nat, h: nat) returns (quiet: Formula)
      requires CanFrame() && h < upperBound
      ensures quiet == Quiet(P, fn, h)
    {
      var users := ListOf(affecting, TilAssign, fn);
      UsersFit(P, affecting, TilAssign, fn);
      var fs := [];
      for k := 0 to |users|
        invariant fs == NegatedTriggers(users[..k], TilFires(h))
      {
        assert users[..k + 1] == users[..k] + [users[k]];
        var v := TriggerVarOf(TilAssign, TilFires(h), users[k]);
        fs := fs + [Not(v)];
      }
      assert users[..|users|] == users;
      quiet := And([Truth(true)] + fs);
    }

    method IdleClause(fn: nat, h: nat, flow: Flow) returns (idle: Formula)
      requires CanFrame() && fn < P.fns && 0 < h < upperBound && FlowFits(P, flow)
      ensures idle == IdleFormula(P, C, fn, h, flow)
    {
      var quiet := QuietTils(fn, h);
      var chargs, nchargs := OperatorsOf(flow.operators, h - 1);
      var now, before := FnVar(P, C, vars, upperBound, fn, h, 0), FnVar(P, C, vars, upperBound, fn, h - 1, C - 1);
      idle := Implies(And([And(nchargs), quiet]), Eq(now, before));
    }

    method ChangeClause(fn: nat, h: nat, flow: Flow) returns (change: Formula)
      requires CanFrame() && fn < P.fns && 0 < h < upperBound && FlowFits(P, flow)
      ensures change == ChangeFormula(P, C, fn, h, flow)
    {
      var quiet := QuietTils(fn, h);
      var chargs, nchargs := OperatorsOf(flow.operators, h - 1);
      var expr := MkExpr(flow.poly, h - 1, C - 1);
      change := Implies(And([And(chargs), quiet]), Eq(FnVar(P, C, vars, upperBound, fn, h, 0), expr));
    }

    /** Only the first flow asserts what happens when none of the operators runs. */
    method FlowsBetween(fn: nat, h: nat) returns (fs: seq<Formula>)
      requires CanFrame() && ProblemFits(P) && fn < P.fns == |P.flows| && 0 < h < upperBound && P.flows[fn] != []
      ensures fs == FlowAt(P, C, fn, h)
    {
      var flows := P.flows[fn];
      FlowsFit(P, fn);
      var idle := IdleClause(fn, h, flows[0]);
      fs := [];
      for k := 0 to |flows|
        invariant fs == Block(ChangeOf(P, C, fn, h), 0, k)
      {
        var change := ChangeClause(fn, h, flows[k]);
        BlockStep(ChangeOf(P, C, fn, h), 0, k);
        fs := fs + [change];
      }
      fs := [idle] + fs;
    }

    method FlowLayer(fn: nat, h: nat) returns (fs: seq<Formula>)
      requires CanFrame() && ProblemFits(P) && fn < P.fns == |P.flows| && h < upperBound
      ensures fs == FlowAt(P, C, fn, h)
    {
      if h == 0 {
        fs := [];
      } else if P.flows[fn] == [] {
        var same := Eq(FnVar(P, C, vars, upperBound, fn, h, 0), FnVar(P, C, vars, upperBound, fn, h - 1, C - 1));
        var tils := Enablers(TilAssign, fn, TilFires(h));
        fs := [Or([same] + tils)];
      } else {
        fs := FlowsBetween(fn, h);
      }
    }

    method AddFlowLayer(fn: nat, h: nat, ghost first: bool)
      requires CanFrame() && ProblemFits(P) && fn < P.fns == |P.flows| && h < upperBound && IsAppends(P, C, made)
      modifies `solver
      ensures made(LayerPart(FnFlows(fn), h, first), old(solver), solver)
    {
      var fs := FlowLayer(fn, h);
      solver := solver + fs;
      LayerMakes(P, C, made, FnFlows(fn), h, first, old(solver), solver, fs);
    }

    method EncodeFunctionFlows(fn: nat, ghost first: bool)
      requires CanFrame() && ProblemFits(P) && fn < P.fns == |P.flows| && nextLayer <= upperBound && IsAppends(P, C, made)
      modifies `solver
      ensures made(LoopPart(FnFlows(fn), nextLayer, upperBound, first), old(solver), solver)
    {
      ghost var lo := nextLayer;
      NoLayers(P, C, made, FnFlows(fn), lo, first, solver);
      for h := nextLayer to upperBound
        invariant made(LoopPart(FnFlows(fn), lo, h, first), old(solver), solver)
      {
        ghost var before := solver;
        AddFlowLayer(fn, h, first);
        OneLayer(P, C, made, FnFlows(fn), lo, h, first, old(solver), before, solver);
      }
    }

    // ----- The main method -----

    method VisitTils(ghost n: nat, ghost first: bool)
      requires IsAppends(P, C, made) && ProblemFits(P) && ValuesReady(P, C, vars, upperBound)
      requires nextLayer <= upperBound && 0 < upperBound && (first <==> nextLayer == 0)
      requires TilsReady(vars, 0, |P.tils|, nextLayer) && ListsHold(P, affecting, n, if first then 0 else |P.tils|)
      modifies `vars, `solver, `affecting, `enc
      ensures enc.condNeg == old(enc.condNeg) && ValuesReady(P, C, vars, upperBound)
      ensures TilsReady(vars, 0, |P.tils|, upperBound) && SameOpVars(old(vars), vars)
      ensures ListsHold(P, affecting, n, |P.tils|)
      ensures made(FamilyPart(TilFamily, |P.tils|, nextLayer, upperBound, first), old(solver), solver)
    {
      ghost var lo, hi := nextLayer, upperBound;
      NoFamily(P, C, made, TilFamily, lo, hi, first, solver);
      for k := 0 to |P.tils|
        invariant enc.condNeg == old(enc.condNeg) && ValuesReady(P, C, vars, upperBound)
        invariant TilsReady(vars, 0, k, hi) && TilsReady(vars, k, |P.tils|, lo) && SameOpVars(old(vars), vars)
        invariant ListsHold(P, affecting, n, if first then k else |P.tils|)
        invariant made(FamilyPart(TilFamily, k, lo, hi, first), old(solver), solver)
      {
        ghost var before, varsBefore := solver, vars;
        enc := enc.(tilID := k);
        VisitTimedInitialLiteral(k, n, first);
        OneMoreTil(P, varsBefore, vars, k, lo, hi);
        OneMember(P, C, made, TilFamily, TilLoop(k), k, lo, hi, first, old(solver), before, solver);
      }
    }

    method MakeAllOpVars(ghost first: bool)
      requires IsAppends(P, C, made) && ValuesReady(P, C, vars, upperBound) && nextLayer <= upperBound
      requires OpsReady(P, C, vars, 0, |P.ops|, nextLayer)
      modifies `vars, `solver
      ensures ValuesReady(P, C, vars, upperBound) && OpsReady(P, C, vars, 0, |P.ops|, upperBound) && vars.til == old(vars).til
      ensures made(FamilyPart(OpVarsFamily, |P.ops|, nextLayer, upperBound, first), old(solver), solver)
    {
      ghost var lo, hi := nextLayer, upperBound;
      NoFamily(P, C, made, OpVarsFamily, lo, hi, first, solver);
      for i := 0 to |P.ops|
        invariant ValuesReady(P, C, vars, upperBound) && vars.til == old(vars).til
        invariant OpsReady(P, C, vars, 0, i, hi) && OpsReady(P, C, vars, i, |P.ops|, lo)
        invariant made(FamilyPart(OpVarsFamily, i, lo, hi, first), old(solver), solver)
      {
        ghost var before, varsBefore := solver, vars;
        MakeOpVars(i, first);
        OneMoreOp(P, C, varsBefore, vars, i, lo, hi);
        OneMember(P, C, made, OpVarsFamily, OpVars(i), i, lo, hi, first, old(solver), before, solver);
      }
    }

    method VisitOp(i: nat, ghost first: bool)
      requires ProblemFits(P) && CanEncode() && i < |P.ops|
      requires nextLayer <= upperBound && 0 < upperBound && (first <==> nextLayer == 0)
      requires ListsHold(P, affecting, if first then i else |P.ops|, |P.tils|)
      modifies `solver, `goalExpression, `enc, `affecting
      ensures CanEncode()
      ensures goalExpression == old(goalExpression) +
                                (if P.ops[i].Durative? then [Not(Bool(Running(i, upperBound - 1)))] else [])
      ensures ListsHold(P, affecting, SeenAt(P, i, first), |P.tils|)
      ensures made(LoopPart(OpBody(i), nextLayer, upperBound, first), old(solver), solver)
    {
      enc := enc.(opID := i);
      match P.ops[i] {
        case Durative(_, _, _, _, _, _) => VisitDurativeAction(i, SeenAt(P, i, first), first);
        case Instant(_, _) => VisitAction(i, SeenAt(P, i, first), first);
        case Event(_, _) => VisitEvent(i, SeenAt(P, i, first), first);
        case Process(_) => VisitProcess(i, SeenAt(P, i, first), first);
      }
    }

    method VisitOps(ghost first: bool)
      requires ProblemFits(P) && CanEncode()
      requires nextLayer <= upperBound && 0 < upperBound && (first <==> nextLayer == 0)
      requires ListsHold(P, affecting, if first then 0 else |P.ops|, |P.tils|)
      modifies `solver, `goalExpression, `enc, `affecting
      ensures CanEncode() && ListsHold(P, affecting, |P.ops|, |P.tils|)
      ensures goalExpression == old(goalExpression) + NothingRuns(P, |P.ops|, upperBound)
      ensures made(FamilyPart(OpBodyFamily, |P.ops|, nextLayer, upperBound, first), old(solver), solver)
    {
      ghost var lo, hi := nextLayer, upperBound;
      NoFamily(P, C, made, OpBodyFamily, lo, hi, first, solver);
      for i := 0 to |P.ops|
        invariant CanEncode() && ListsHold(P, affecting, if first then i else |P.ops|, |P.tils|)
        invariant goalExpression == old(goalExpression) + NothingRuns(P, i, upperBound)
        invariant made(FamilyPart(OpBodyFamily, i, lo, hi, first), old(solver), solver)
      {
        ghost var before, goals := solver, goalExpression;
        VisitOp(i, first);
        NothingRunsStep(P, i, upperBound, old(goalExpression), goals, goalExpression);
        OneMember(P, C, made, OpBodyFamily, OpBody(i), i, lo, hi, first, old(solver), before, solver);
      }
    }

    method EncodeLiterals(ghost first: bool)
      requires CanFrame() && nextLayer <= upperBound && IsAppends(P, C, made)
      modifies `solver
      ensures made(FamilyPart(LitFamily, P.lits, nextLayer, upperBound, first), old(solver), solver)
    {
      ghost var lo, hi := nextLayer, upperBound;
      NoFamily(P, C, made, LitFamily, lo, hi, first, solver);
      for l := 0 to P.lits
        invariant made(FamilyPart(LitFamily, l, lo, hi, first), old(solver), solver)
      {
        ghost var before := solver;
        EncodeLiteralVariableSupport(l, first);
        OneMember(P, C, made, LitFamily, LitSupport(l), l, lo, hi, first, old(solver), before, solver);
      }
    }

    method EncodeFunctions(ghost first: bool)
      requires CanFrame() && ProblemFits(P) && P.fns == |P.flows| && nextLayer <= upperBound && IsAppends(P, C, made)
      modifies `solver
      ensures made(FamilyPart(FnFamily, |P.flows|, nextLayer, upperBound, first), old(solver), solver)
    {
      ghost var lo, hi := nextLayer, upperBound;
      NoFamily(P, C, made, FnFamily, lo, hi, first, solver);
      for fn := 0 to P.fns
        invariant made(FamilyPart(FnFamily, fn, lo, hi, first), old(solver), solver)
      {
        ghost var before := solver;
        EncodeFunctionVariableSupport(fn, first);
        ghost var middle := solver;
        EncodeFunctionFlows(fn, first);
        OneFunction(P, C, made, fn, lo, hi, first, old(solver), before, middle, solver);
      }
    }

    method EncodeInitialState(ghost first: bool)
      requires ValuesReady(P, C, vars, upperBound) && upperBound > 0 && WellFormed(P) && IsAppends(P, C, made)
      requires first <==> nextLayer == 0
      modifies `solver
      ensures made(InitPart(first), old(solver), solver)
    {
      if nextLayer == 0 {
        EncodeKnownState();
        Make(P, C, made, InitPart(first), old(solver), solver, InitSpec(P));
      } else {
        Make(P, C, made, InitPart(first), old(solver), solver, []);
      }
    }

    method EncodeGoals()
      requires ValuesReady(P, C, vars, upperBound) && upperBound > 0 && ProblemFits(P) && !enc.condNeg && IsAppends(P, C, made)
      modifies `solver, `goalExpression, `enc
      ensures !enc.condNeg && goalExpression == GoalOutput(P, C, upperBound).goals
      ensures made(GoalPart(upperBound), old(solver), solver)
    {
      EncodeGoalState();
      Make(P, C, made, GoalPart(upperBound), old(solver), solver, GoalOutput(P, C, upperBound).asserted);
    }

    /** Timings, timed literals, known states and the goal: everything before the operators. */
    method EncodeKnown(H: nat, ghost lo: nat, ghost n: nat)
      requires IsAppends(P, C, made) && WellFormed(P) && upperBound == H && 0 < H && lo == nextLayer <= H
      requires ValuesReady(P, C, vars, H) && TilsReady(vars, 0, |P.tils|, lo) && OpsReady(P, C, vars, 0, |P.ops|, lo)
      requires ListsHold(P, affecting, n, if lo == 0 then 0 else |P.tils|) && !enc.condNeg
      modifies `vars, `solver, `affecting, `enc, `goalExpression
      ensures !enc.condNeg && ValuesReady(P, C, vars, H)
      ensures TilsReady(vars, 0, |P.tils|, H) && OpsReady(P, C, vars, 0, |P.ops|, lo)
      ensures ListsHold(P, affecting, n, |P.tils|)
      ensures goalExpression == GoalOutput(P, C, H).goals
      ensures solver == old(solver) + KnownFormulas(P, C, lo, H)
    {
      SealProblem(P);
      ghost var first := lo == 0;
      EncodeTimings(H, first);
      ghost var s1 := solver;
      VisitTils(n, first);
      ghost var s2 := solver;
      OpsKept(P, C, old(vars), vars, lo);
      EncodeInitialState(first);
      ghost var s3 := solver;
      EncodeGoals();
      KnownMakes(P, C, made, lo, H, old(solver), s1, s2, s3, solver);
    }

    /** The operators, twice, and the frame axioms. */
    method EncodeOperators(H: nat, ghost lo: nat)
      requires IsAppends(P, C, made) && WellFormed(P) && upperBound == H && 0 < H && lo == nextLayer <= H
      requires ValuesReady(P, C, vars, H) && OpsReady(P, C, vars, 0, |P.ops|, lo) && TilsReady(vars, 0, |P.tils|, H)
      requires ListsHold(P, affecting, if lo == 0 then 0 else |P.ops|, |P.tils|) && !enc.condNeg
      modifies `vars, `solver, `affecting, `enc, `goalExpression
      ensures CanFrame() && !enc.condNeg
      ensures goalExpression == old(goalExpression) + NothingRuns(P, |P.ops|, H)
      ensures solver == old(solver) + OpFormulas(P, C, lo, H)
    {
      SealProblem(P);
      ghost var first := lo == 0;
      MakeAllOpVars(first);
      TilsKept(P, old(vars), vars, H);
      ghost var s1 := solver;
      VisitOps(first);
      ghost var s2 := solver;
      EncodeLiterals(first);
      ghost var s3 := solver;
      EncodeFunctions(first);
      OpsMake(P, C, made, lo, H, old(solver), s1, s2, s3, solver);
    }

    /** One call appends exactly the formulas of the happenings that are new, the known states on
        the first call, and the guarded goal comparisons; the goal list is rebuilt. */
    method Encode(H: nat)
      requires Valid() && nextLayer <= H && 0 < H
      modifies this
      ensures Valid() && nextLayer == upperBound == H
      ensures solver == old(solver) + EncodeSpec(P, C, old(nextLayer), H)
      ensures goalExpression == GoalSpec(P, C, H)
    {
      ghost var lo, first := nextLayer, nextLayer == 0;
      upperBound := H;
      SealProblem(P);
      EncodeHeader(H);
      HeaderKept(P, C, old(vars), vars, lo);
      EncodeKnown(H, lo, if first then 0 else |P.ops|);
      ghost var middle := solver;
      EncodeOperators(H, lo);
      EncodeMakes(P, C, lo, H, old(solver), middle, solver);
      nextLayer := upperBound;
    }

    /** Put the goal assumptions among the constraints, for printing only. */
    method AddGoal()
      modifies `solver
      ensures solver == old(solver) + goalExpression
    {
      for k := 0 to |goalExpression|
        invariant solver == old(solver) + goalExpression[..k]
      {
        assert goalExpression[..k + 1] == goalExpression[..k] + [goalExpression[k]];
        solver := solver + [goalExpression[k]];
      }
      assert goalExpression[..|goalExpression|] == goalExpression;
    }
  }
}
