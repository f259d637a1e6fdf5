/** Reading a run out of a model, and what each list of formulas says about it. */
module Decoding {
  import opened Smt
  import opened Pddl
  import opened HappeningSpec
  import opened Semantics

  ghost function StateAt(P: Problem, m: Model, h: nat, b: nat): (s: State)
    ensures |s.vals| == P.fns
  {
    State(set l | 0 <= l < P.lits && m.b(Lit(l, h, b)),
          seq(P.fns, fn requires 0 <= fn < P.fns => m.r(Value(fn, h, b))))
  }

  ghost function FiredAt(P: Problem, m: Model, h: nat, b: nat): set<nat> {
    set i | 0 <= i < |P.ops| && P.ops[i].Event? && m.b(Fired(i, h, b))
  }

  ghost function HappeningAt(P: Problem, C: Cascade, m: Model, h: nat): (x: Happening)
    ensures WellShaped(P, C, x)
    ensures forall b | 0 <= b < C :: x.layers[b] == StateAt(P, m, h, b)
  {
    Happening(
      m.r(Time(h)),
      seq(C, b requires 0 <= b < C => StateAt(P, m, h, b)),
      seq(C - 1, b requires 0 <= b < C - 1 => FiredAt(P, m, h, b)),
      set i | 0 <= i < |P.ops| && (P.ops[i].Durative? || P.ops[i].Instant?) && m.b(Start(i, h)),
      set i | 0 <= i < |P.ops| && P.ops[i].Durative? && m.b(End(i, h)),
      map i | 0 <= i < |P.ops| && P.ops[i].Durative? && m.b(Running(i, h)) :: m.r(Time(h)) + m.r(Remaining(i, h)),
      set i | 0 <= i < |P.ops| && P.ops[i].Process? && m.b(Running(i, h)))
  }

  ghost function Decode(P: Problem, C: Cascade, m: Model, H: nat): (run: Run)
    ensures |run| == H && forall h | 0 <= h < H :: run[h] == HappeningAt(P, C, m, h)
  {
    seq(H, h requires 0 <= h < H => HappeningAt(P, C, m, h))
  }

  // ----- Lists -----

  lemma {:induction false} BlockHolds(m: Model, body: nat -> seq<Formula>, lo: nat, hi: nat)
    ensures Holds(m, Block(body, lo, hi)) <==> forall h | lo <= h < hi :: Holds(m, body(h))
  {
    if lo < hi {
      BlockHolds(m, body, lo, hi - 1);
      HoldsConcat(m, Block(body, lo, hi - 1), body(hi - 1));
    }
  }

  lemma MentionsMember(ids: seq<nat>, id: nat, who: nat, i: nat)
    ensures i in Mentions(ids, id, who) <==> i == who && id in ids
  {
    if ids != [] {
      var last := |ids| - 1;
      MentionsMember(ids[..last], id, who, i);
      assert ids == ids[..last] + [ids[last]];
    }
  }

  lemma OpUsersMember(P: Problem, role: Role, id: nat, n: nat, i: nat)
    requires n <= |P.ops|
    ensures i in OpUsers(P, role, id, n) <==> i < n && id in RoleOfOp(P.ops[i], role)
  {
    if n > 0 {
      OpUsersMember(P, role, id, n - 1, i);
      MentionsMember(RoleOfOp(P.ops[n - 1], role), id, n - 1, i);
    }
  }

  lemma TilUsersMember(P: Problem, role: Role, id: nat, n: nat, k: nat)
    requires n <= |P.tils|
    ensures k in TilUsers(P, role, id, n) <==> k < n && id in RoleOfTil(P.tils[k], role)
  {
    if n > 0 {
      TilUsersMember(P, role, id, n - 1, k);
      MentionsMember(RoleOfTil(P.tils[n - 1], role), id, n - 1, k);
    }
  }

  lemma {:induction false} AnyTrigger(m: Model, users: seq<nat>, t: Trigger)
    ensures Some(m, Triggers(users, t)) <==> exists i | i in users :: m.b(TriggerVar(t, i))
  {
    if users != [] {
      var rest, last := users[..|users| - 1], users[|users| - 1];
      AnyTrigger(m, rest, t);
      AnyConcat(m, Triggers(rest, t), [Bool(TriggerVar(t, last))]);
      AnyOne(m, Bool(TriggerVar(t, last)));
      EvalLiteral(m, TriggerVar(t, last));
      assert forall i :: i in users <==> i in rest || i == last;
    }
  }

  lemma {:induction false} NoTrigger(m: Model, users: seq<nat>, t: Trigger)
    ensures Holds(m, NegatedTriggers(users, t)) <==> !exists i | i in users :: m.b(TriggerVar(t, i))
  {
    if users != [] {
      var rest, last := users[..|users| - 1], users[|users| - 1];
      NoTrigger(m, rest, t);
      HoldsConcat(m, NegatedTriggers(rest, t), [Not(Bool(TriggerVar(t, last)))]);
      HoldsOne(m, Not(Bool(TriggerVar(t, last))));
      EvalLiteral(m, TriggerVar(t, last));
      assert forall i :: i in users <==> i in rest || i == last;
    }
  }

  lemma LitEffectsHold(m: Model, ids: seq<nat>, negated: bool, trigger: Formula, h: nat, b: nat)
    ensures Holds(m, LitEffects(ids, negated, trigger, h, b)) <==>
            (Eval(trigger, m) ==> forall l | l in ids :: m.b(Lit(l, h, b)) != negated)
  {
    if ids != [] {
      var last := |ids| - 1;
      LitEffectsHold(m, ids[..last], negated, trigger, h, b);
      var added := Implies(trigger, Signed(negated, Lit(ids[last], h, b)));
      HoldsConcat(m, LitEffects(ids[..last], negated, trigger, h, b), [added]);
      EvalLiteral(m, Lit(ids[last], h, b));
      HoldsOne(m, added);
      assert forall l :: l in ids <==> l in ids[..last] || l == ids[last];
    }
  }

  // ----- Expressions and atoms -----

  predicate NoMinus(e: Expr) {
    match e
    case Minus(_, _) => false
    case Plus(l, r) => NoMinus(l) && NoMinus(r)
    case Times(l, r) => NoMinus(l) && NoMinus(r)
    case UMinus(e1) => NoMinus(e1)
    case _ => true
  }

  lemma TermMeans(P: Problem, m: Model, e: Expr, i: nat, h: nat, b: nat, durationOk: bool)
    requires WfExpr(P, e, durationOk) && NoMinus(e)
    ensures ValueOf(TermOf(e, i, h, b), m) == Evaluate(e, StateAt(P, m, h, b).vals, m.r(Remaining(i, h)))
  {
  }

  lemma DurationUnused(P: Problem, e: Expr, vals: seq<real>, d: real, d': real)
    requires WfExpr(P, e, false)
    ensures Evaluate(e, vals, d) == Evaluate(e, vals, d')
  {
  }

  function AtomFormula(a: Atom, i: nat, h: nat, b: nat): Formula {
    match a
    case LitAtom(negated, lit) => Signed(negated, Lit(lit, h, b))
    case CompAtom(op, lhs, rhs) => CompareTerms(op, TermOf(lhs, i, h, b), TermOf(rhs, i, h, b))
  }

  predicate FaithfulAtom(a: Atom) {
    a.CompAtom? ==> NoMinus(a.lhs) && NoMinus(a.rhs)
  }

  lemma CompareTermsMeans(m: Model, op: CompOp, l: Term, r: Term)
    ensures Eval(CompareTerms(op, l, r), m) <==> Compares(op, ValueOf(l, m), ValueOf(r, m))
  {
    if op == Equals {
      HoldsTwo(m, Le(l, r), Le(r, l));
    }
  }

  lemma AtomMeans(P: Problem, m: Model, a: Atom, i: nat, h: nat, b: nat, durationOk: bool)
    requires WfAtom(P, a, durationOk, true) && FaithfulAtom(a)
    ensures Eval(AtomFormula(a, i, h, b), m) <==> AtomSat(a, StateAt(P, m, h, b), m.r(Remaining(i, h)))
  {
    if a.CompAtom? {
      TermMeans(P, m, a.lhs, i, h, b, durationOk);
      TermMeans(P, m, a.rhs, i, h, b, durationOk);
      CompareTermsMeans(m, a.op, TermOf(a.lhs, i, h, b), TermOf(a.rhs, i, h, b));
    }
  }

  // ----- Goals -----

  /** The goals whose visit loses nothing: conjunctions are not negated (unless of one goal),
      comparisons are not negated, and there is no disjunction or implication. */
  predicate Faithful(g: Goal, negated: bool) {
    match g
    case Simple(_) => true
    case Compare(_, lhs, rhs) => !negated && NoMinus(lhs) && NoMinus(rhs)
    case Neg(g1) => Faithful(g1, !negated)
    case Conj(gs) => (!negated || |gs| == 1) && forall g1 | g1 in gs :: Faithful(g1, negated)
    case Disj(_) => false
    case Imply(_, _) => false
  }

  lemma {:induction false} FlattenMeans(g: Goal, negated: bool, s: State, d: real)
    requires Faithful(g, negated)
    ensures forall a | a in Flatten(g, negated) :: FaithfulAtom(a)
    ensures (Sat(g, s, d) != negated) <==> forall a | a in Flatten(g, negated) :: AtomSat(a, s, d)
  {
    match g
    case Simple(lit) =>
      var a := LitAtom(negated, lit);
      assert Flatten(g, negated) == [a];
      assert a in Flatten(g, negated);
      assert (Sat(g, s, d) != negated) <==> AtomSat(a, s, d);
    case Compare(op, lhs, rhs) =>
      var a := CompAtom(op, lhs, rhs);
      assert Flatten(g, negated) == [a];
      assert a in Flatten(g, negated);
      assert Sat(g, s, d) <==> AtomSat(a, s, d);
    case Neg(g1) => FlattenMeans(g1, !negated, s, d);
    case Conj(gs) =>
      FlattenAllMeans(gs, negated, s, d);
      if negated {
        assert forall g1 :: g1 in gs <==> g1 == gs[0];
        assert Sat(g, s, d) <==> Sat(gs[0], s, d);
      } else {
        assert Sat(g, s, d) <==> forall g1 | g1 in gs :: Sat(g1, s, d);
      }
  }

  lemma {:induction false} FlattenAllMeans(gs: seq<Goal>, negated: bool, s: State, d: real)
    requires forall g | g in gs :: Faithful(g, negated)
    ensures forall a | a in FlattenAll(gs, negated) :: FaithfulAtom(a)
    ensures (forall g | g in gs :: Sat(g, s, d) != negated) <==> forall a | a in FlattenAll(gs, negated) :: AtomSat(a, s, d)
  {
    if gs != [] {
      FlattenMeans(gs[0], negated, s, d);
      FlattenAllMeans(gs[1..], negated, s, d);
      assert gs == [gs[0]] + gs[1..];
    }
  }
}
