/** What satisfying each block of constraints amounts to. Every lemma is an equivalence, so
    that soundness and completeness both rest on it. */
module BlockMeaning {
  import opened Smt
  import opened Pddl
  import opened HappeningSpec
  import opened Semantics
  import opened Decoding

  // ----- Start, running, end, remaining duration -----

  ghost predicate RunClause(m: Model, i: nat, h: nat) {
    var rem := m.r(Remaining(i, h));
    var sta, run, end := m.b(Start(i, h)), m.b(Running(i, h)), m.b(End(i, h));
    && (run <==> rem > 0.0) && (!run <==> rem == 0.0)
    && (end ==> rem == 0.0)
    && if h > 0 then
         var before := m.b(Running(i, h - 1));
         && (before ==> rem == m.r(Remaining(i, h - 1)) - m.r(Gap(h - 1)))
         && (sta <==> run && !before)
         && (end <==> !run && before)
       else
         !end && (sta <==> run)
  }

  lemma RunSignsMean(m: Model, i: nat, h: nat)
    ensures Holds(m, RunSigns(i, h)) <==>
            (m.b(Running(i, h)) <==> m.r(Remaining(i, h)) > 0.0) && (!m.b(Running(i, h)) <==> m.r(Remaining(i, h)) == 0.0)
  {
    var positive, zero := Lt(Const(0.0), Var(Remaining(i, h))), Eq(Var(Remaining(i, h)), Const(0.0));
    var run := Bool(Running(i, h));
    HoldsTwo(m, Iff(run, positive), Iff(Not(run), zero));
    EvalLiteral(m, Running(i, h));
    assert Eval(positive, m) <==> m.r(Remaining(i, h)) > 0.0;
    assert Eval(zero, m) <==> m.r(Remaining(i, h)) == 0.0;
    assert Eval(Iff(run, positive), m) <==> (Eval(run, m) <==> Eval(positive, m));
    assert Eval(Iff(Not(run), zero), m) <==> (Eval(Not(run), m) <==> Eval(zero, m));
  }

  lemma RunCountdownMeans(m: Model, i: nat, h: nat)
    ensures Holds(m, RunCountdown(i, h)) <==>
            (h > 0 && m.b(Running(i, h - 1)) ==> m.r(Remaining(i, h)) == m.r(Remaining(i, h - 1)) - m.r(Gap(h - 1)))
  {
    if h > 0 {
      HoldsOne(m, RunCountdown(i, h)[0]);
      EvalLiteral(m, Running(i, h - 1));
      var rest := Diff(Var(Remaining(i, h - 1)), Var(Gap(h - 1)));
      assert ValueOf(rest, m) == m.r(Remaining(i, h - 1)) - m.r(Gap(h - 1));
      assert Eval(Eq(Var(Remaining(i, h)), rest), m) <==> m.r(Remaining(i, h)) == ValueOf(rest, m);
    }
  }

  lemma RunBoundsMean(m: Model, i: nat, h: nat)
    ensures Holds(m, RunBounds(i, h)) <==>
            (m.b(Start(i, h)) ==> m.b(Running(i, h))) && (m.b(End(i, h)) ==> m.r(Remaining(i, h)) == 0.0)
  {
    var zero := Eq(Var(Remaining(i, h)), Const(0.0));
    HoldsTwo(m, Implies(Bool(Start(i, h)), Bool(Running(i, h))), Implies(Bool(End(i, h)), zero));
    EvalLiteral(m, Running(i, h));
    EvalLiteral(m, Start(i, h));
    EvalLiteral(m, End(i, h));
    assert Eval(zero, m) <==> m.r(Remaining(i, h)) == 0.0;
  }

  lemma RunTransitionFirst(m: Model, i: nat, process: bool)
    ensures Holds(m, RunTransition(i, 0, process)) <==>
            !m.b(End(i, 0)) && (m.b(Running(i, 0)) <==> m.b(Start(i, 0)))
  {
    var sta, run, end := Bool(Start(i, 0)), Bool(Running(i, 0)), Bool(End(i, 0));
    var again := if process then [Implies(sta, run)] else [];
    HoldsConcat(m, [Not(end), Implies(run, sta)] + again, [Implies(Not(run), Not(sta))]);
    HoldsConcat(m, [Not(end), Implies(run, sta)], again);
    HoldsTwo(m, Not(end), Implies(run, sta));
    HoldsOne(m, Implies(sta, run));
    HoldsOne(m, Implies(Not(run), Not(sta)));
    EvalLiteral(m, Running(i, 0));
    EvalLiteral(m, Start(i, 0));
    EvalLiteral(m, End(i, 0));
  }

  lemma RunChangeMeans(m: Model, i: nat, h: nat)
    requires h > 0
    ensures
      var before := Bool(Running(i, h - 1));
      Holds(m, [Implies(Bool(Start(i, h)), Not(before)), Implies(Bool(Running(i, h)), Or([before, Bool(Start(i, h))]))]) <==>
      && (m.b(Start(i, h)) ==> !m.b(Running(i, h - 1)))
      && (m.b(Running(i, h)) ==> m.b(Running(i, h - 1)) || m.b(Start(i, h)))
  {
    var sta, run, before := Bool(Start(i, h)), Bool(Running(i, h)), Bool(Running(i, h - 1));
    HoldsTwo(m, Implies(sta, Not(before)), Implies(run, Or([before, sta])));
    AnyTwo(m, before, sta);
    EvalLiteral(m, Running(i, h));
    EvalLiteral(m, Running(i, h - 1));
    EvalLiteral(m, Start(i, h));
  }

  lemma RunStopMeans(m: Model, i: nat, h: nat)
    requires h > 0
    ensures
      Holds(m, [Implies(Not(Bool(Running(i, h))), Or([Not(Bool(Running(i, h - 1))), Bool(End(i, h))]))]) <==>
      (!m.b(Running(i, h)) ==> !m.b(Running(i, h - 1)) || m.b(End(i, h)))
  {
    var run, end, before := Bool(Running(i, h)), Bool(End(i, h)), Bool(Running(i, h - 1));
    HoldsOne(m, Implies(Not(run), Or([Not(before), end])));
    AnyTwo(m, Not(before), end);
    EvalLiteral(m, Running(i, h));
    EvalLiteral(m, Running(i, h - 1));
    EvalLiteral(m, End(i, h));
  }

  lemma ImplicationMeans(m: Model, p: BoolVar, q: BoolVar)
    ensures Holds(m, [Implies(Bool(p), Bool(q))]) <==> (m.b(p) ==> m.b(q))
  {
    HoldsOne(m, Implies(Bool(p), Bool(q)));
    EvalLiteral(m, p);
    EvalLiteral(m, q);
  }

  lemma RunTransitionLater(m: Model, i: nat, h: nat, process: bool)
    requires h > 0
    ensures
      var before := m.b(Running(i, h - 1));
      Holds(m, RunTransition(i, h, process)) <==>
      && (m.b(End(i, h)) ==> before)
      && (process && m.b(Start(i, h)) ==> m.b(Running(i, h)))
      && (m.b(Start(i, h)) ==> !before)
      && (m.b(Running(i, h)) ==> before || m.b(Start(i, h)))
      && (!m.b(Running(i, h)) ==> !before || m.b(End(i, h)))
  {
    var before := Bool(Running(i, h - 1));
    var first := [Implies(Bool(End(i, h)), before)];
    var again := if process then [Implies(Bool(Start(i, h)), Bool(Running(i, h)))] else [];
    var middle := [Implies(Bool(Start(i, h)), Not(before)), Implies(Bool(Running(i, h)), Or([before, Bool(Start(i, h))]))];
    var last := [Implies(Not(Bool(Running(i, h))), Or([Not(before), Bool(End(i, h))]))];
    assert RunTransition(i, h, process) == first + again + middle + last;
    HoldsConcat(m, first + again + middle, last);
    HoldsConcat(m, first + again, middle);
    HoldsConcat(m, first, again);
    ImplicationMeans(m, End(i, h), Running(i, h - 1));
    ImplicationMeans(m, Start(i, h), Running(i, h));
    RunChangeMeans(m, i, h);
    RunStopMeans(m, i, h);
  }

  lemma RunVarsMean(m: Model, i: nat, h: nat, process: bool)
    ensures Holds(m, RunVarsAt(i, h, process)) <==> RunClause(m, i, h)
  {
    HoldsConcat(m, RunSigns(i, h) + RunCountdown(i, h) + RunBounds(i, h), RunTransition(i, h, process));
    HoldsConcat(m, RunSigns(i, h) + RunCountdown(i, h), RunBounds(i, h));
    HoldsConcat(m, RunSigns(i, h), RunCountdown(i, h));
    RunSignsMean(m, i, h);
    RunCountdownMeans(m, i, h);
    RunBoundsMean(m, i, h);
    if h == 0 {
      RunTransitionFirst(m, i, process);
    } else {
      RunTransitionLater(m, i, h, process);
    }
  }

  // ----- Conditions -----

  lemma {:induction false} EmitAllHolds(P: Problem, C: Cascade, m: Model, ctx: Context, atoms: seq<Atom>)
    requires ctx.seen <= |P.ops|
    ensures Holds(m, EmitAll(P, C, ctx, atoms).asserted) <==> forall a | a in atoms :: Holds(m, Emit(P, C, ctx, a).asserted)
    ensures Holds(m, EmitAll(P, C, ctx, atoms).goals) <==> forall a | a in atoms :: Holds(m, Emit(P, C, ctx, a).goals)
    ensures Holds(m, EmitAll(P, C, ctx, atoms).conds) <==> forall a | a in atoms :: Holds(m, Emit(P, C, ctx, a).conds)
  {
    if atoms != [] {
      var x, y := Emit(P, C, ctx, atoms[0]), EmitAll(P, C, ctx, atoms[1..]);
      EmitAllHolds(P, C, m, ctx, atoms[1..]);
      HoldsConcat(m, x.asserted, y.asserted);
      HoldsConcat(m, x.goals, y.goals);
      HoldsConcat(m, x.conds, y.conds);
      assert forall a :: a in atoms <==> a == atoms[0] || a in atoms[1..];
      assert EmitAll(P, C, ctx, atoms) == Join(x, y);
    }
  }

  lemma MutexClausesHold(m: Model, users: seq<nat>, op: nat, h: nat)
    ensures Holds(m, MutexClauses(users, op, h)) <==>
            forall j | j in users && j != op :: !(m.b(Start(op, h)) && m.b(Start(j, h)))
  {
    if users != [] {
      var last := users[|users| - 1];
      var rest := users[..|users| - 1];
      MutexClausesHold(m, rest, op, h);
      assert forall j :: j in users <==> j in rest || j == last;
      if last != op {
        var clause := Or([Not(Bool(Start(op, h))), Not(Bool(Start(last, h)))]);
        HoldsConcat(m, MutexClauses(rest, op, h), [clause]);
        HoldsOne(m, clause);
        AnyTwo(m, Not(Bool(Start(op, h))), Not(Bool(Start(last, h))));
        EvalLiteral(m, Start(op, h));
        EvalLiteral(m, Start(last, h));
      } else {
        assert MutexClauses(users, op, h) == MutexClauses(rest, op, h);
      }
    }
  }

  /** The effect role that a start condition on the atom excludes. */
  function Threat(a: Atom): Role {
    if a.LitAtom? && a.negated then StartAdd else StartDel
  }

  /** Operator j, not i, has a start effect against a start condition of i. */
  predicate Threatens(P: Problem, j: nat, atoms: seq<Atom>) {
    j < |P.ops| && exists a | a in atoms :: a.LitAtom? && a.lit in RoleOfOp(P.ops[j], Threat(a))
  }

  lemma ThreatMeans(P: Problem, m: Model, a: Atom, seen: nat, op: nat, h: nat)
    requires seen <= |P.ops| && a.LitAtom?
    ensures Holds(m, MutexClauses(OpUsers(P, Threat(a), a.lit, seen), op, h)) <==>
            (m.b(Start(op, h)) ==>
               forall j | 0 <= j < seen && j != op && a.lit in RoleOfOp(P.ops[j], Threat(a)) :: !m.b(Start(j, h)))
  {
    var users := OpUsers(P, Threat(a), a.lit, seen);
    MutexClausesHold(m, users, op, h);
    forall j: nat
      ensures j in users <==> j < seen && a.lit in RoleOfOp(P.ops[j], Threat(a))
    {
      OpUsersMember(P, Threat(a), a.lit, seen, j);
    }
  }

  lemma StartAtomMeans(P: Problem, C: Cascade, m: Model, ctx: Context, a: Atom)
    requires ctx.seen <= |P.ops| && ctx.b == C - 2 && ctx.time == AtStart
    requires ctx.mode == ConditionMode || ctx.mode == InstantConditionMode
    ensures Holds(m, Emit(P, C, ctx, a).asserted) <==>
            && (m.b(Start(ctx.op, ctx.h)) ==> Eval(AtomFormula(a, ctx.op, ctx.h, C - 2), m))
            && (m.b(Start(ctx.op, ctx.h)) ==>
                  forall j | 0 <= j < ctx.seen && j != ctx.op && a.LitAtom? && a.lit in RoleOfOp(P.ops[j], Threat(a)) ::
                    !m.b(Start(j, ctx.h)))
  {
    var clause := Implies(Bool(Start(ctx.op, ctx.h)), AtomFormula(a, ctx.op, ctx.h, C - 2));
    EvalLiteral(m, Start(ctx.op, ctx.h));
    HoldsOne(m, clause);
    if a.LitAtom? {
      HoldsConcat(m, [clause], MutexClauses(OpUsers(P, Threat(a), a.lit, ctx.seen), ctx.op, ctx.h));
      ThreatMeans(P, m, a, ctx.seen, ctx.op, ctx.h);
    }
  }

  lemma StartConditionsMean(P: Problem, C: Cascade, m: Model, ctx: Context, atoms: seq<Atom>)
    requires ctx.seen <= |P.ops| && ctx.b == C - 2 && ctx.time == AtStart
    requires ctx.mode == ConditionMode || ctx.mode == InstantConditionMode
    ensures Holds(m, EmitAll(P, C, ctx, atoms).asserted) <==>
            && (m.b(Start(ctx.op, ctx.h)) ==> forall a | a in atoms :: Eval(AtomFormula(a, ctx.op, ctx.h, C - 2), m))
            && (m.b(Start(ctx.op, ctx.h)) ==>
                  forall j | 0 <= j < ctx.seen && j != ctx.op && Threatens(P, j, atoms) :: !m.b(Start(j, ctx.h)))
  {
    EmitAllHolds(P, C, m, ctx, atoms);
    forall a | a in atoms {
      StartAtomMeans(P, C, m, ctx, a);
    }
  }

  lemma EndConditionsMean(P: Problem, C: Cascade, m: Model, ctx: Context, atoms: seq<Atom>)
    requires ctx.seen <= |P.ops| && ctx.b == C - 2 && ctx.time == AtEnd && ctx.mode == ConditionMode
    ensures Holds(m, EmitAll(P, C, ctx, atoms).asserted) <==>
            (m.b(End(ctx.op, ctx.h)) ==> forall a | a in atoms :: Eval(AtomFormula(a, ctx.op, ctx.h, C - 2), m))
  {
    EmitAllHolds(P, C, m, ctx, atoms);
    EvalLiteral(m, End(ctx.op, ctx.h));
    forall a | a in atoms
      ensures Holds(m, Emit(P, C, ctx, a).asserted) <==>
        (m.b(End(ctx.op, ctx.h)) ==> Eval(AtomFormula(a, ctx.op, ctx.h, C - 2), m))
    {
      HoldsOne(m, Implies(Bool(End(ctx.op, ctx.h)), AtomFormula(a, ctx.op, ctx.h, C - 2)));
    }
  }

  lemma OverAllAtomMeans(P: Problem, C: Cascade, m: Model, ctx: Context, a: Atom)
    requires ctx.seen <= |P.ops| && ctx.b == C - 2 && ctx.time == OverAll && ctx.mode == ConditionMode
    ensures
      var holds := Eval(AtomFormula(a, ctx.op, ctx.h, C - 2), m);
      Holds(m, Emit(P, C, ctx, a).asserted) <==>
      && (m.b(Running(ctx.op, ctx.h)) ==> holds)
      && (a.CompAtom? && m.b(End(ctx.op, ctx.h)) ==> holds)
  {
    var f := AtomFormula(a, ctx.op, ctx.h, C - 2);
    EvalLiteral(m, End(ctx.op, ctx.h));
    EvalLiteral(m, Running(ctx.op, ctx.h));
    if a.LitAtom? {
      HoldsOne(m, Implies(Bool(Running(ctx.op, ctx.h)), f));
    } else {
      HoldsTwo(m, Implies(Bool(Running(ctx.op, ctx.h)), f), Implies(Bool(End(ctx.op, ctx.h)), f));
    }
  }

  lemma OverAllMean(P: Problem, C: Cascade, m: Model, ctx: Context, atoms: seq<Atom>)
    requires ctx.seen <= |P.ops| && ctx.b == C - 2 && ctx.time == OverAll && ctx.mode == ConditionMode
    ensures Holds(m, EmitAll(P, C, ctx, atoms).asserted) <==>
            && (m.b(Running(ctx.op, ctx.h)) ==> forall a | a in atoms :: Eval(AtomFormula(a, ctx.op, ctx.h, C - 2), m))
            && (m.b(End(ctx.op, ctx.h)) ==>
                  forall a | a in atoms && a.CompAtom? :: Eval(AtomFormula(a, ctx.op, ctx.h, C - 2), m))
  {
    EmitAllHolds(P, C, m, ctx, atoms);
    forall a | a in atoms {
      OverAllAtomMeans(P, C, m, ctx, a);
    }
  }

  /** Duration constraints are comparisons; other atoms of theirs are not encoded. */
  lemma DurationMeans(P: Problem, C: Cascade, m: Model, ctx: Context, atoms: seq<Atom>)
    requires ctx.seen <= |P.ops| && ctx.b == C - 2 && ctx.mode == DurationMode
    ensures Holds(m, EmitAll(P, C, ctx, atoms).asserted) <==>
            (m.b(Start(ctx.op, ctx.h)) ==>
               forall a | a in atoms && a.CompAtom? :: Eval(AtomFormula(a, ctx.op, ctx.h, C - 2), m))
  {
    EmitAllHolds(P, C, m, ctx, atoms);
    EvalLiteral(m, Start(ctx.op, ctx.h));
    forall a | a in atoms
      ensures Holds(m, Emit(P, C, ctx, a).asserted) <==>
        (a.CompAtom? && m.b(Start(ctx.op, ctx.h)) ==> Eval(AtomFormula(a, ctx.op, ctx.h, C - 2), m))
    {
      HoldsOne(m, Implies(Bool(Start(ctx.op, ctx.h)), AtomFormula(a, ctx.op, ctx.h, C - 2)));
    }
  }

  lemma TriggerMeans(P: Problem, C: Cascade, m: Model, g: Goal, i: nat, h: nat, b: nat)
    ensures Eval(And(TriggerOutput(P, C, g, i, h, b).conds), m) <==>
            forall a | a in Atoms(g) :: Eval(AtomFormula(a, i, h, b), m)
  {
    var ctx := Context(TriggerMode, i, h, b, AtStart, 0);
    EmitAllHolds(P, C, m, ctx, Atoms(g));
    forall a | a in Atoms(g)
      ensures Holds(m, Emit(P, C, ctx, a).conds) <==> Eval(AtomFormula(a, i, h, b), m)
    {
      HoldsOne(m, AtomFormula(a, i, h, b));
    }
    assert Eval(And(TriggerOutput(P, C, g, i, h, b).conds), m) <==> Holds(m, TriggerOutput(P, C, g, i, h, b).conds);
  }
}
