/** Frame axioms, timed initial literals, continuous change, and the known states. */
module FrameMeaning {
  import opened Numbers
  import opened Smt
  import opened Pddl
  import opened HappeningSpec
  import opened Semantics
  import opened Decoding
  import opened LayerMeaning

  // ----- Literals inside a happening -----

  /** Some member of the effect list triggers at that place: what a support clause offers. */
  lemma EventSupport(P: Problem, C: Cascade, m: Model, role: Role, id: nat, h: nat, b: nat)
    requires role == EventAdd || role == EventDel
    requires b < C - 1
    ensures Some(m, Triggers(Users(P, role, id), Fires(h, b))) <==>
            Affects(P, HappeningAt(P, C, m, h).events[b], role, id)
  {
    AnyTrigger(m, Users(P, role, id), Fires(h, b));
    forall i: nat
      ensures i in Users(P, role, id) && m.b(Fired(i, h, b)) <==>
              i in HappeningAt(P, C, m, h).events[b] && i < |P.ops| && id in RoleOfOp(P.ops[i], role)
    {
      OpUsersMember(P, role, id, |P.ops|, i);
    }
  }

  lemma StartSupport(P: Problem, C: Cascade, m: Model, role: Role, id: nat, h: nat)
    requires role == StartAdd || role == StartDel || role == StartAssign
    ensures Some(m, Triggers(Users(P, role, id), Starts(h))) <==>
            Affects(P, HappeningAt(P, C, m, h).starts, role, id)
  {
    AnyTrigger(m, Users(P, role, id), Starts(h));
    forall i: nat
      ensures i in Users(P, role, id) && m.b(Start(i, h)) <==>
              i in HappeningAt(P, C, m, h).starts && i < |P.ops| && id in RoleOfOp(P.ops[i], role)
    {
      OpUsersMember(P, role, id, |P.ops|, i);
    }
  }

  lemma EndSupport(P: Problem, C: Cascade, m: Model, role: Role, id: nat, h: nat)
    requires role == EndAdd || role == EndDel || role == EndAssign
    ensures Some(m, Triggers(Users(P, role, id), Ends(h))) <==>
            Affects(P, HappeningAt(P, C, m, h).ends, role, id)
  {
    AnyTrigger(m, Users(P, role, id), Ends(h));
    forall i: nat
      ensures i in Users(P, role, id) && m.b(End(i, h)) <==>
              i in HappeningAt(P, C, m, h).ends && i < |P.ops| && id in RoleOfOp(P.ops[i], role)
    {
      OpUsersMember(P, role, id, |P.ops|, i);
    }
  }

  lemma ActionSupport(P: Problem, C: Cascade, m: Model, start: Role, end: Role, id: nat, h: nat)
    requires start == StartAdd || start == StartDel || start == StartAssign
    requires end == EndAdd || end == EndDel || end == EndAssign
    ensures
      var x := HappeningAt(P, C, m, h);
      Some(m, Triggers(Users(P, start, id), Starts(h)) + Triggers(Users(P, end, id), Ends(h))) <==>
      Affects(P, x.starts, start, id) || Affects(P, x.ends, end, id)
  {
    AnyConcat(m, Triggers(Users(P, start, id), Starts(h)), Triggers(Users(P, end, id), Ends(h)));
    StartSupport(P, C, m, start, id, h);
    EndSupport(P, C, m, end, id, h);
  }

  lemma SupportParts(m: Model, first: Formula, events: seq<Formula>, actions: seq<Formula>)
    ensures Eval(Or([first] + events + actions), m) <==>
            Eval(first, m) || Some(m, events) || Some(m, actions)
  {
    AnyConcat(m, [first] + events, actions);
    AnyConcat(m, [first], events);
    AnyOne(m, first);
  }

  /** Support in a clause of layer b: persistence, events, actions. */
  lemma AddSupportSplits(P: Problem, C: Cascade, m: Model, l: nat, h: nat, b: nat, events: bool, actions: bool)
    requires 0 < b < C
    requires events <==> Some(m, Triggers(Users(P, EventAdd, l), Fires(h, b - 1)))
    requires actions <==> Some(m, Triggers(Users(P, StartAdd, l), Starts(h)) + Triggers(Users(P, EndAdd, l), Ends(h)))
    ensures Some(m, AddSupport(P, C, l, h, b)) <==> m.b(Lit(l, h, b - 1)) || events || (b == C - 1 && actions)
  {
    EvalLiteral(m, Lit(l, h, b - 1));
    SupportParts(m, Bool(Lit(l, h, b - 1)), Triggers(Users(P, EventAdd, l), Fires(h, b - 1)),
      if b == C - 1 then Triggers(Users(P, StartAdd, l), Starts(h)) + Triggers(Users(P, EndAdd, l), Ends(h)) else []);
  }

  lemma AddSupportMeans(P: Problem, C: Cascade, m: Model, l: nat, h: nat, b: nat)
    requires 0 < b < C
    ensures Some(m, AddSupport(P, C, l, h, b)) <==>
            m.b(Lit(l, h, b - 1)) || Added(P, C, HappeningAt(P, C, m, h), b - 1, l)
  {
    var x := HappeningAt(P, C, m, h);
    var events := Affects(P, x.events[b - 1], EventAdd, l);
    var actions := Affects(P, x.starts, StartAdd, l) || Affects(P, x.ends, EndAdd, l);
    AddSupportSplits(P, C, m, l, h, b, events, actions) by {
      EventSupport(P, C, m, EventAdd, l, h, b - 1);
      ActionSupport(P, C, m, StartAdd, EndAdd, l, h);
    }
  }

  /** Support in a clause of layer b: persistence, events, actions. */
  lemma DelSupportSplits(P: Problem, C: Cascade, m: Model, l: nat, h: nat, b: nat, events: bool, actions: bool)
    requires 0 < b < C
    requires events <==> Some(m, Triggers(Users(P, EventDel, l), Fires(h, b - 1)))
    requires actions <==> Some(m, Triggers(Users(P, StartDel, l), Starts(h)) + Triggers(Users(P, EndDel, l), Ends(h)))
    ensures Some(m, DelSupport(P, C, l, h, b)) <==> !m.b(Lit(l, h, b - 1)) || events || (b == C - 1 && actions)
  {
    EvalLiteral(m, Lit(l, h, b - 1));
    SupportParts(m, Not(Bool(Lit(l, h, b - 1))), Triggers(Users(P, EventDel, l), Fires(h, b - 1)),
      if b == C - 1 then Triggers(Users(P, StartDel, l), Starts(h)) + Triggers(Users(P, EndDel, l), Ends(h)) else []);
  }

  lemma DelSupportMeans(P: Problem, C: Cascade, m: Model, l: nat, h: nat, b: nat)
    requires 0 < b < C
    ensures Some(m, DelSupport(P, C, l, h, b)) <==>
            !m.b(Lit(l, h, b - 1)) || Deleted(P, C, HappeningAt(P, C, m, h), b - 1, l)
  {
    var x := HappeningAt(P, C, m, h);
    var events := Affects(P, x.events[b - 1], EventDel, l);
    var actions := Affects(P, x.starts, StartDel, l) || Affects(P, x.ends, EndDel, l);
    DelSupportSplits(P, C, m, l, h, b, events, actions) by {
      EventSupport(P, C, m, EventDel, l, h, b - 1);
      ActionSupport(P, C, m, StartDel, EndDel, l, h);
    }
  }

  /** A change has a cause: half of Updates, the other half comes from the effects. */
  predicate Explained(before: bool, after: bool, added: bool, deleted: bool) {
    (after ==> before || added) && (!after ==> !before || deleted)
  }

  ghost predicate LitExplained(P: Problem, C: Cascade, m: Model, l: nat, h: nat, b: nat)
    requires 0 < b < C
  {
    var x := HappeningAt(P, C, m, h);
    Explained(m.b(Lit(l, h, b - 1)), m.b(Lit(l, h, b)), Added(P, C, x, b - 1, l), Deleted(P, C, x, b - 1, l))
  }

  lemma SupportPairMeans(m: Model, x: BoolVar, adds: seq<Formula>, dels: seq<Formula>)
    ensures Holds(m, [Implies(Bool(x), Or(adds)), Implies(Not(Bool(x)), Or(dels))]) <==>
            (m.b(x) ==> Some(m, adds)) && (!m.b(x) ==> Some(m, dels))
  {
    HoldsTwo(m, Implies(Bool(x), Or(adds)), Implies(Not(Bool(x)), Or(dels)));
    EvalLiteral(m, x);
  }

  lemma LitLayerMeans(P: Problem, C: Cascade, m: Model, l: nat, h: nat, b: nat)
    requires 0 < b < C
    ensures Holds(m, LitLayer(P, C, l, h, b)) <==> LitExplained(P, C, m, l, h, b)
  {
    SupportPairMeans(m, Lit(l, h, b), AddSupport(P, C, l, h, b), DelSupport(P, C, l, h, b));
    AddSupportMeans(P, C, m, l, h, b);
    DelSupportMeans(P, C, m, l, h, b);
  }

  lemma LitLayersMean(P: Problem, C: Cascade, m: Model, l: nat, h: nat)
    ensures Holds(m, Block(LitLayerOf(P, C, l, h), 1, C)) <==> forall b | 0 < b < C :: LitExplained(P, C, m, l, h, b)
  {
    BlockHolds(m, LitLayerOf(P, C, l, h), 1, C);
    forall b | 0 < b < C
      ensures Holds(m, LitLayerOf(P, C, l, h)(b)) <==> LitExplained(P, C, m, l, h, b)
    {
      LitLayerMeans(P, C, m, l, h, b);
    }
  }

  // ----- Literals between happenings -----

  /** The til variables say which stamps fall on the happening. */
  ghost predicate TilsRead(P: Problem, m: Model, h: nat) {
    forall k | 0 <= k < |P.tils| :: m.b(TilAt(k, h)) <==> P.tils[k].stamp == m.r(Time(h))
  }

  lemma TilSupport(P: Problem, m: Model, role: Role, id: nat, h: nat)
    requires role == TilAdd || role == TilDel || role == TilAssign
    requires TilsRead(P, m, h)
    ensures Some(m, Triggers(Users(P, role, id), TilFires(h))) <==> TilAffects(P, m.r(Time(h)), role, id)
  {
    AnyTrigger(m, Users(P, role, id), TilFires(h));
    forall k: nat
      ensures k in Users(P, role, id) && m.b(TilAt(k, h)) <==>
              k < |P.tils| && P.tils[k].stamp == m.r(Time(h)) && id in RoleOfTil(P.tils[k], role)
    {
      TilUsersMember(P, role, id, |P.tils|, k);
    }
  }

  ghost predicate OpeningExplained(P: Problem, C: Cascade, m: Model, l: nat, h: nat)
    requires h > 0
  {
    Explained(m.b(Lit(l, h - 1, C - 1)), m.b(Lit(l, h, 0)),
              TilAffects(P, m.r(Time(h)), TilAdd, l), TilAffects(P, m.r(Time(h)), TilDel, l))
  }

  lemma OpeningMeans(P: Problem, C: Cascade, m: Model, l: nat, h: nat)
    requires h > 0 && TilsRead(P, m, h)
    ensures Holds(m, LitBetween(P, C, l, h)) <==> OpeningExplained(P, C, m, l, h)
  {
    var before := Lit(l, h - 1, C - 1);
    var adds := Triggers(Users(P, TilAdd, l), TilFires(h));
    var dels := Triggers(Users(P, TilDel, l), TilFires(h));
    SupportPairMeans(m, Lit(l, h, 0), [Bool(before)] + adds, [Not(Bool(before))] + dels);
    AnyConcat(m, [Bool(before)], adds);
    AnyConcat(m, [Not(Bool(before))], dels);
    AnyOne(m, Bool(before));
    AnyOne(m, Not(Bool(before)));
    EvalLiteral(m, before);
    TilSupport(P, m, TilAdd, l, h);
    TilSupport(P, m, TilDel, l, h);
  }

  lemma LitAtMeans(P: Problem, C: Cascade, m: Model, l: nat, h: nat)
    requires TilsRead(P, m, h)
    ensures Holds(m, LitAt(P, C, l, h)) <==>
            && (forall b | 0 < b < C :: LitExplained(P, C, m, l, h, b))
            && (h > 0 ==> OpeningExplained(P, C, m, l, h))
  {
    LitLayersMean(P, C, m, l, h);
    if h > 0 {
      HoldsConcat(m, Block(LitLayerOf(P, C, l, h), 1, C), LitBetween(P, C, l, h));
      OpeningMeans(P, C, m, l, h);
    } else {
      assert LitAt(P, C, l, h) == Block(LitLayerOf(P, C, l, h), 1, C);
    }
  }

  // ----- Timed initial literals -----

  ghost predicate TilClause(P: Problem, m: Model, k: nat, h: nat)
    requires k < |P.tils|
  {
    var v, s := P.tils[k].stamp, StateAt(P, m, h, 0);
    && (m.b(TilAt(k, h)) <==> v == m.r(Time(h)))
    && (h > 0 ==> SameSide(m.r(Time(h)) - v, m.r(Time(h - 1)) - v))
    && (m.b(TilAt(k, h)) ==> EffectsShow(P.tils[k].eff, s) && AssignsHold(P.tils[k].eff.assigns, s.vals, s.vals, 0.0))
  }

  lemma TilTimeMeans(m: Model, k: nat, h: nat, v: real)
    ensures Holds(m, [Iff(And([Le(Var(Time(h)), Const(v)), Le(Const(v), Var(Time(h)))]), Bool(TilAt(k, h)))]) <==>
            (m.b(TilAt(k, h)) <==> v == m.r(Time(h)))
  {
    var both := [Le(Var(Time(h)), Const(v)), Le(Const(v), Var(Time(h)))];
    HoldsOne(m, Iff(And(both), Bool(TilAt(k, h))));
    HoldsTwo(m, both[0], both[1]);
    EvalLiteral(m, TilAt(k, h));
    assert Eval(And(both), m) <==> Holds(m, both);
    assert Eval(both[0], m) <==> m.r(Time(h)) <= v;
    assert Eval(both[1], m) <==> v <= m.r(Time(h));
  }

  lemma TilSkipMeans(m: Model, h: nat, v: real)
    requires h > 0
    ensures Holds(m, [Le(Const(0.0), Prod(Diff(Var(Time(h)), Const(v)), Diff(Var(Time(h - 1)), Const(v))))]) <==>
            SameSide(m.r(Time(h)) - v, m.r(Time(h - 1)) - v)
  {
    var x, y := Diff(Var(Time(h)), Const(v)), Diff(Var(Time(h - 1)), Const(v));
    HoldsOne(m, Le(Const(0.0), Prod(x, y)));
    assert ValueOf(x, m) == m.r(Time(h)) - v;
    assert ValueOf(y, m) == m.r(Time(h - 1)) - v;
    assert ValueOf(Prod(x, y), m) == ValueOf(x, m) * ValueOf(y, m);
    ProductSign(ValueOf(x, m), ValueOf(y, m));
  }

  lemma {:induction false} TilAssignsMean(P: Problem, m: Model, assigns: seq<Assignment>, k: nat, h: nat)
    requires forall a | a in assigns :: a.op == Assign && a.fn < P.fns && WfExpr(P, a.rhs, false) && NoMinus(a.rhs)
    ensures Holds(m, TilAssignEffects(assigns, k, h)) <==>
            (m.b(TilAt(k, h)) ==> AssignsHold(assigns, StateAt(P, m, h, 0).vals, StateAt(P, m, h, 0).vals, 0.0))
  {
    if assigns != [] {
      var last := assigns[|assigns| - 1];
      var rest := assigns[..|assigns| - 1];
      TilAssignsMean(P, m, rest, k, h);
      var vals := StateAt(P, m, h, 0).vals;
      var f := Implies(Bool(TilAt(k, h)), Eq(Var(Value(last.fn, h, 0)), TermOf(last.rhs, k, h, 0)));
      assert Eval(f, m) <==> (m.b(TilAt(k, h)) ==> AssignHolds(last, vals, vals, 0.0)) by {
        EvalLiteral(m, TilAt(k, h));
        TermMeans(P, m, last.rhs, k, h, 0, false);
        DurationUnused(P, last.rhs, vals, m.r(Remaining(k, h)), 0.0);
      }
      HoldsConcat(m, TilAssignEffects(rest, k, h), [f]);
      HoldsOne(m, f);
      assert forall a :: a in assigns <==> a in rest || a == last;
    }
  }

  lemma TilBodyMeans(P: Problem, m: Model, k: nat, h: nat)
    requires FaithfulProblem(P) && k < |P.tils|
    ensures Holds(m, TilBody(P, k, h)) <==> TilClause(P, m, k, h)
  {
    var til := P.tils[k];
    assert WfTil(P, til);
    var v := Const(til.stamp);
    var when := [Iff(And([Le(Var(Time(h)), v), Le(v, Var(Time(h)))]), Bool(TilAt(k, h)))];
    var skip := if h > 0 then [Le(Const(0.0), Prod(Diff(Var(Time(h)), v), Diff(Var(Time(h - 1)), v)))] else [];
    var adds := LitEffects(til.eff.adds, false, Bool(TilAt(k, h)), h, 0);
    var dels := LitEffects(til.eff.dels, true, Bool(TilAt(k, h)), h, 0);
    var assigns := TilAssignEffects(til.eff.assigns, k, h);
    assert TilBody(P, k, h) == when + skip + (adds + dels + assigns);
    HoldsConcat(m, when + skip, adds + dels + assigns);
    HoldsConcat(m, when, skip);
    HoldsConcat(m, adds + dels, assigns);
    HoldsConcat(m, adds, dels);
    TilTimeMeans(m, k, h, til.stamp);
    if h > 0 {
      TilSkipMeans(m, h, til.stamp);
    }
    assert Holds(m, adds) && Holds(m, dels) <==> (m.b(TilAt(k, h)) ==> EffectsShow(til.eff, StateAt(P, m, h, 0))) by {
      LitEffectsShow(P, m, til.eff, TilAt(k, h), h, 0, false);
    }
    TilAssignsMean(P, m, til.eff.assigns, k, h);
  }
}
