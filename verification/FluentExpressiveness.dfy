/** What the three slots of a literal can express: the fluent encoding has a model exactly if the
    happening encoding has one in which every literal is needed at three happenings at most. */
module FluentExpressiveness {
  import opened Smt
  import opened Pddl
  import opened HappeningSpec
  import opened Semantics
  import opened Decoding
  import opened BlockMeaning
  import opened LayerMeaning
  import opened FrameMeaning
  import opened FlowMeaning
  import opened EncodeMeaning
  import opened FluentSpec
  import opened FluentMeaning
  import opened FluentRefinement

  // ----- Where a literal is needed -----

  predicate On(atoms: seq<Atom>, l: nat) {
    exists a | a in atoms :: a.LitAtom? && a.lit == l
  }

  predicate Touches(e: Effects, l: nat) {
    l in e.adds || l in e.dels
  }

  /** The operator reads or affects the literal at the happening. */
  predicate NeededBy(P: Problem, m: Model, i: nat, l: nat, h: nat)
    requires i < |P.ops|
  {
    match P.ops[i]
    case Durative(_, atStart, overAll, atEnd, start, end) =>
      || (m.b(Start(i, h)) && (On(Atoms(atStart), l) || Touches(start, l)))
      || (m.b(End(i, h)) && (On(Atoms(atEnd), l) || Touches(end, l)))
      || (m.b(Running(i, h)) && On(Atoms(overAll), l))
    case Instant(pre, eff) => m.b(Start(i, h)) && (On(Atoms(pre), l) || Touches(eff, l))
    case _ => false
  }

  /** The initial state, an operator or the goal needs it. */
  ghost predicate Needed(P: Problem, m: Model, H: nat, l: nat, h: nat) {
    || h == 0
    || (exists i: nat :: i < |P.ops| && NeededBy(P, m, i, l, h))
    || (h + 1 == H && On(Atoms(P.goal), l))
  }

  ghost function NeededAt(P: Problem, m: Model, H: nat, l: nat): set<nat> {
    set h: nat | 0 <= h < H && Needed(P, m, H, l, h)
  }

  /** As many as a literal has slots. */
  ghost predicate FewNeeded(P: Problem, m: Model, H: nat) {
    forall l | 0 <= l < P.lits :: |NeededAt(P, m, H, l)| <= 3
  }

  // ----- A sparse model needs few -----

  /** One of the first n slots has the time of the happening. */
  ghost predicate SlotAmong(m: Model, l: nat, h: nat, n: nat) {
    exists k: nat :: k < n && SlotAt(m, l, k) == TimeOf(m, h)
  }

  lemma NoneAmong(m: Model, l: nat, h: nat)
    ensures !SlotAmong(m, l, h, 0)
  {
  }

  lemma OnlyOneThere(m: Model, l: nat, H: nat, k: nat, g: nat, h: nat)
    requires TimesOrdered(m, H) && g < H && h < H && g != h && SlotAt(m, l, k) == TimeOf(m, g)
    ensures SlotAt(m, l, k) != TimeOf(m, h)
  {
    if TimeOf(m, g) == TimeOf(m, h) {
      SameHappening(m, H, g, h);
    }
  }

  lemma EarlierSlot(m: Model, l: nat, h: nat, n: nat)
    requires n > 0 && SlotAmong(m, l, h, n) && SlotAt(m, l, n - 1) != TimeOf(m, h)
    ensures SlotAmong(m, l, h, n - 1)
  {
    var k: nat :| k < n && SlotAt(m, l, k) == TimeOf(m, h);
    assert k < n - 1;
  }

  /** Happenings with a slot among the first n are at most n. */
  lemma {:induction false} AtMostSlots(m: Model, l: nat, H: nat, hs: set<nat>, n: nat)
    requires TimesOrdered(m, H) && forall h | h in hs :: h < H && SlotAmong(m, l, h, n)
    ensures |hs| <= n
  {
    if n == 0 {
      if h :| h in hs {
        NoneAmong(m, l, h);
      }
    } else if g :| g in hs && SlotAt(m, l, n - 1) == TimeOf(m, g) {
      forall h | h in hs - {g}
        ensures SlotAmong(m, l, h, n - 1)
      {
        OnlyOneThere(m, l, H, n - 1, g, h);
        EarlierSlot(m, l, h, n);
      }
      AtMostSlots(m, l, H, hs - {g}, n - 1);
    } else {
      forall h | h in hs
        ensures SlotAmong(m, l, h, n - 1)
      {
        EarlierSlot(m, l, h, n);
      }
      AtMostSlots(m, l, H, hs, n - 1);
    }
  }

  ghost predicate HasSlot(m: Model, l: nat, h: nat) {
    SlotAmong(m, l, h, LiteralBound)
  }

  lemma ReadHasSlot(m: Model, l: nat, h: nat, b: nat, negated: bool)
    requires SlotsOrdered(m, l, LiteralBound) && Eval(ReadSlots(l, h, b, negated), m)
    ensures HasSlot(m, l, h)
  {
    SlotIteMeans(m, l, h, b, negated, LiteralBound);
    var k: nat :| k < LiteralBound && SlotReads(m, l, h, b, negated, k);
  }

  lemma GuardedHasSlot(m: Model, guard: BoolVar, l: nat, h: nat, b: nat, negated: bool)
    requires SlotsOrdered(m, l, LiteralBound) && m.b(guard)
    requires Eval(Implies(Bool(guard), ReadSlots(l, h, b, negated)), m)
    ensures HasSlot(m, l, h)
  {
    EvalLiteral(m, guard);
    ReadHasSlot(m, l, h, b, negated);
  }

  /** A condition on the literal, asserted under a trigger that is true. */
  lemma ConditionHasSlot(P: Problem, m: Model, ctx: Context, atoms: seq<Atom>, l: nat, guard: BoolVar)
    requires SlotsOrdered(m, l, LiteralBound) && ctx.seen <= |P.ops| && On(atoms, l) && m.b(guard)
    requires ctx.mode == ConditionMode || (ctx.mode == InstantConditionMode && ctx.time == AtStart)
    requires guard == match ctx.time case AtStart => Start(ctx.op, ctx.h) case AtEnd => End(ctx.op, ctx.h)
                                     case OverAll => Running(ctx.op, ctx.h)
    requires Holds(m, EmitAllSlots(P, 2, ctx, atoms).asserted)
    ensures HasSlot(m, l, ctx.h)
  {
    EmitAllSlotsHolds(P, 2, m, ctx, atoms);
    var a :| a in atoms && a.LitAtom? && a.lit == l;
    var read := Implies(Bool(guard), ReadSlots(l, ctx.h, 0, a.negated));
    assert Holds(m, EmitSlots(P, 2, ctx, a).asserted);
    if ctx.time == AtStart {
      HoldsConcat(m, [read], MutexClauses(OpUsers(P, if a.negated then StartAdd else StartDel, l, ctx.seen), ctx.op, ctx.h));
    }
    HoldsOne(m, read);
    GuardedHasSlot(m, guard, l, ctx.h, 0, a.negated);
  }

  lemma EffectHasSlot(m: Model, e: Effects, trigger: BoolVar, h: nat, l: nat)
    requires SlotsOrdered(m, l, LiteralBound) && m.b(trigger) && Touches(e, l)
    requires Holds(m, SlotActionEffects(e, trigger, h))
    ensures HasSlot(m, l, h)
  {
    HoldsConcat(m, SlotEffects(e.adds, false, trigger, h), SlotEffects(e.dels, true, trigger, h));
    if l in e.adds {
      EffectIsRead(m, e.adds, false, trigger, h, l);
      ReadHasSlot(m, l, h, 1, false);
    } else {
      EffectIsRead(m, e.dels, true, trigger, h, l);
      ReadHasSlot(m, l, h, 1, true);
    }
  }

  lemma OperatorHasSlot(P: Problem, m: Model, i: nat, l: nat, h: nat)
    requires i < |P.ops| && SlotsOrdered(m, l, LiteralBound) && NeededBy(P, m, i, l, h) && Holds(m, SlotOp(P, 2, i)(h))
    ensures HasSlot(m, l, h)
  {
    match P.ops[i]
    case Durative(_, atStart, overAll, atEnd, start, end) =>
      SlotDurativeSplits(P, 2, m, i, h);
      var ctx := Context(ConditionMode, i, h, 1, AtStart, i + 1);
      if m.b(Start(i, h)) && On(Atoms(atStart), l) {
        ConditionHasSlot(P, m, ctx, Atoms(atStart), l, Start(i, h));
      } else if m.b(Start(i, h)) && Touches(start, l) {
        EffectHasSlot(m, start, Start(i, h), h, l);
      } else if m.b(End(i, h)) && On(Atoms(atEnd), l) {
        ConditionHasSlot(P, m, ctx.(time := AtEnd), Atoms(atEnd), l, End(i, h));
      } else if m.b(End(i, h)) && Touches(end, l) {
        EffectHasSlot(m, end, End(i, h), h, l);
      } else {
        ConditionHasSlot(P, m, ctx.(time := OverAll), Atoms(overAll), l, Running(i, h));
      }
    case Instant(pre, eff) =>
      var ctx := Context(InstantConditionMode, i, h, 1, AtStart, i + 1);
      HoldsConcat(m, SlotActionEffects(eff, Start(i, h), h), EmitAllSlots(P, 2, ctx, Atoms(pre)).asserted);
      if On(Atoms(pre), l) {
        ConditionHasSlot(P, m, ctx, Atoms(pre), l, Start(i, h));
      } else {
        EffectHasSlot(m, eff, Start(i, h), h, l);
      }
    case _ =>
  }

  lemma GoalHasSlot(P: Problem, m: Model, H: nat, l: nat)
    requires H > 0 && SlotsOrdered(m, l, LiteralBound) && On(Atoms(P.goal), l) && Holds(m, SlotGoal(P, 2, H).goals)
    ensures HasSlot(m, l, H - 1)
  {
    var ctx := Context(GoalMode, 0, H - 1, 1, AtStart, 0);
    EmitAllSlotsHolds(P, 2, m, ctx, Atoms(P.goal));
    var a :| a in Atoms(P.goal) && a.LitAtom? && a.lit == l;
    assert Holds(m, EmitSlots(P, 2, ctx, a).goals);
    HoldsOne(m, ReadSlots(l, H - 1, 1, a.negated));
    ReadHasSlot(m, l, H - 1, 1, a.negated);
  }

  lemma SomeoneHasSlot(P: Problem, m: Model, H: nat, l: nat, h: nat, i: nat)
    requires h < H && SparseParts(P, 2, m, H) && SlotsOrdered(m, l, LiteralBound)
    requires i < |P.ops| && NeededBy(P, m, i, l, h)
    ensures HasSlot(m, l, h)
  {
    assert Holds(m, OpLoop(P, 2, H)(i));
    BlockHolds(m, SlotOp(P, 2, i), 0, H);
    assert Holds(m, SlotOp(P, 2, i)(h));
    OperatorHasSlot(P, m, i, l, h);
  }

  /** A slot exactly at every happening where the literal is needed. */
  lemma NeededHasSlot(P: Problem, m: Model, H: nat, l: nat, h: nat)
    requires h < H && SparseParts(P, 2, m, H) && Holds(m, SlotGoal(P, 2, H).goals)
    requires SlotsOrdered(m, l, LiteralBound) && SlotAt(m, l, 0) == TimeOf(m, 0)
    requires Needed(P, m, H, l, h)
    ensures HasSlot(m, l, h)
  {
    if h != 0 {
      if i: nat :| i < |P.ops| && NeededBy(P, m, i, l, h) {
        SomeoneHasSlot(P, m, H, l, h, i);
      } else {
        GoalHasSlot(P, m, H, l);
      }
    }
  }

  lemma LiteralNeedsFew(P: Problem, m: Model, H: nat, l: nat)
    requires H > 0 && SparseParts(P, 2, m, H) && Holds(m, SlotGoal(P, 2, H).goals) && TimesOrdered(m, H)
    requires SlotsOrdered(m, l, LiteralBound) && SlotAt(m, l, 0) == TimeOf(m, 0)
    ensures |NeededAt(P, m, H, l)| <= 3
  {
    forall h | h in NeededAt(P, m, H, l)
      ensures SlotAmong(m, l, h, LiteralBound)
    {
      NeededHasSlot(P, m, H, l, h);
    }
    AtMostSlots(m, l, H, NeededAt(P, m, H, l), LiteralBound);
  }

  /** In every model of the fluent encoding with its goals each literal has a slot at every happening
      where it is needed, so it is needed at three at most, the first one counted. */
  lemma SparseNeedsFew(P: Problem, m: Model, H: nat)
    requires WellFormed(P) && Propositional(P) && H > 0
    requires Holds(m, FluentEncoding(P, 2, H)) && Holds(m, FluentGoal(P, 2, H))
    ensures FewNeeded(P, m, H)
    ensures forall l: nat, h: nat | l < P.lits && h < H && Needed(P, m, H, l, h) :: HasSlot(m, l, h)
  {
    FluentEncodingParts(P, 2, m, H);
    PartsRead(P, 2, m, H);
    HoldsConcat(m, SlotGoal(P, 2, H).goals, NothingRuns(P, |P.ops|, H));
    forall l | 0 <= l < P.lits
      ensures |NeededAt(P, m, H, l)| <= 3
    {
      assert SlotsRead(P, m, l, H) && SlotAt(m, l, 0) == TimeOf(m, 0);
      LiteralNeedsFew(P, m, H, l);
    }
    forall l: nat, h: nat | l < P.lits && h < H && Needed(P, m, H, l, h)
      ensures HasSlot(m, l, h)
    {
      assert SlotsRead(P, m, l, H) && SlotAt(m, l, 0) == TimeOf(m, 0);
      NeededHasSlot(P, m, H, l, h);
    }
  }

  // ----- A dense model that needs few has a sparse one -----

  /** The happenings given to the slots of a literal: in order, the first one and all where the
      literal is needed among them. */
  ghost predicate SlotsFit(P: Problem, d: Model, H: nat, l: nat, hs: seq<nat>) {
    && 0 < |hs| <= LiteralBound && hs[0] == 0
    && (forall k | 0 <= k < |hs| :: hs[k] < H) && (forall j, k | 0 <= j < k < |hs| :: hs[j] < hs[k])
    && forall h | 0 <= h < H && Needed(P, d, H, l, h) :: h in hs
  }

  lemma {:induction false} Largest(s: set<nat>) returns (x: nat)
    requires s != {}
    ensures x in s && forall y | y in s :: y <= x
    decreases |s|
  {
    var first :| first in s;
    var rest := s - {first};
    x := first;
    if rest != {} {
      var y := Largest(rest);
      if y > x {
        x := y;
      }
    }
    forall z | z in s
      ensures z <= x
    {
      assert z == first || z in rest;
    }
  }

  lemma {:induction false} InOrder(s: set<nat>) returns (q: seq<nat>)
    ensures |q| == |s| && (forall x :: x in q <==> x in s) && forall j, k | 0 <= j < k < |q| :: q[j] < q[k]
    decreases |s|
  {
    if s == {} {
      q := [];
    } else {
      var x := Largest(s);
      var rest := InOrder(s - {x});
      q := rest + [x];
      forall j, k | 0 <= j < k < |q|
        ensures q[j] < q[k]
      {
        if k == |rest| {
          assert rest[j] in rest;
        }
      }
    }
  }

  lemma ZeroFirst(hs: seq<nat>)
    requires 0 in hs && forall j, k | 0 <= j < k < |hs| :: hs[j] < hs[k]
    ensures hs[0] == 0
  {
    var k :| 0 <= k < |hs| && hs[k] == 0;
    assert hs[0] <= hs[k];
  }

  lemma FewFit(P: Problem, d: Model, H: nat, l: nat) returns (hs: seq<nat>)
    requires H > 0 && |NeededAt(P, d, H, l)| <= LiteralBound
    ensures SlotsFit(P, d, H, l, hs)
  {
    var needed := NeededAt(P, d, H, l);
    hs := InOrder(needed);
    assert 0 in needed && 0 in hs;
    ZeroFirst(hs);
    forall k | 0 <= k < |hs|
      ensures hs[k] < H
    {
      assert hs[k] in hs && hs[k] in needed;
    }
  }

  function LastOf(hs: seq<nat>): nat {
    if hs == [] then 0 else hs[|hs| - 1]
  }

  function TimeOfSlot(d: Model, H: nat, hs: seq<nat>, k: nat): real {
    if k < |hs| then TimeOf(d, hs[k]) else (if H > 0 then TimeOf(d, H - 1) else 0.0) + k as real + 1.0
  }

  predicate ValueOfSlot(d: Model, l: nat, hs: seq<nat>, k: nat, b: nat) {
    if k < |hs| then d.b(Lit(l, hs[k], if b == 0 then 0 else 1)) else d.b(Lit(l, LastOf(hs), 1))
  }

  /** The slots read off a dense model; those not used lie after the last happening. */
  ghost function Sparse(d: Model, H: nat, slots: nat -> seq<nat>): (m: Model)
    ensures forall l: nat, k: nat :: m.r(SlotTime(l, k)) == TimeOfSlot(d, H, slots(l), k)
    ensures forall x: RealVar | !x.SlotTime? :: m.r(x) == d.r(x)
    ensures forall l: nat, k: nat, b: nat :: m.b(SlotLit(l, k, b)) <==> ValueOfSlot(d, l, slots(l), k, b)
    ensures forall v: BoolVar | !v.SlotLit? :: m.b(v) == d.b(v)
  {
    Model((v: BoolVar) => if v.SlotLit? then ValueOfSlot(d, v.lit, slots(v.lit), v.slot, v.b) else d.b(v),
          (x: RealVar) => if x.SlotTime? then TimeOfSlot(d, H, slots(x.lit), x.slot) else d.r(x))
  }

  datatype Key = ChosenKey

  predicate Opened(key: Key) {
    true
  }

  /** What the dense model and the chosen slots provide; kept closed, to be opened piece by piece. */
  ghost predicate Chosen(P: Problem, d: Model, H: nat, slots: nat -> seq<nat>) {
    forall key {:trigger Opened(key)} | Opened(key) && key == ChosenKey ::
      && (forall l | 0 <= l < P.lits :: SlotsFit(P, d, H, l, slots(l)))
      && TimesOrdered(d, H) && TimeOf(d, 0) == 0.0 && Propositional(P)
  }

  /** The dense model satisfies all loop bodies. */
  ghost predicate DenseHolds(P: Problem, d: Model, H: nat) {
    forall key {:trigger Opened(key)} | Opened(key) && key == ChosenKey ::
      forall h | 0 <= h < H :: BodiesHold(P, 2, d, h, true)
  }

  lemma FitAt(P: Problem, d: Model, H: nat, slots: nat -> seq<nat>, l: nat)
    requires Chosen(P, d, H, slots) && l < P.lits
    ensures SlotsFit(P, d, H, l, slots(l))
  {
    assert Opened(ChosenKey);
  }

  lemma DenseAt(P: Problem, d: Model, H: nat, h: nat)
    requires DenseHolds(P, d, H) && h < H
    ensures BodiesHold(P, 2, d, h, true)
  {
    assert Opened(ChosenKey);
  }

  lemma ChosenTimes(P: Problem, d: Model, H: nat, slots: nat -> seq<nat>)
    requires Chosen(P, d, H, slots)
    ensures TimesOrdered(d, H) && TimeOf(d, 0) == 0.0 && Propositional(P)
  {
    assert Opened(ChosenKey);
  }

  // ----- The slots -----

  lemma SparseOrdered(P: Problem, d: Model, H: nat, slots: nat -> seq<nat>, l: nat)
    requires H > 0 && Chosen(P, d, H, slots) && l < P.lits
    ensures SlotsOrdered(Sparse(d, H, slots), l, LiteralBound) && TimesOrdered(Sparse(d, H, slots), H)
  {
    ChosenTimes(P, d, H, slots);
    var m, hs := Sparse(d, H, slots), slots(l);
    FitAt(P, d, H, slots, l);
    forall j, k | 0 <= j < k < LiteralBound
      ensures SlotAt(m, l, j) < SlotAt(m, l, k)
    {
      if j < |hs| <= k {
        assert hs[j] == H - 1 || TimeOf(d, hs[j]) < TimeOf(d, H - 1);
      }
    }
    assert forall h :: 0 <= h ==> TimeOf(m, h) == TimeOf(d, h);
  }

  /** At a happening with a slot the literal reads as in the dense model. */
  lemma SparseReads(P: Problem, d: Model, H: nat, slots: nat -> seq<nat>, l: nat, h: nat, b: nat, negated: bool)
    requires H > 0 && Chosen(P, d, H, slots) && l < P.lits && h in slots(l) && b <= 1
    ensures d.b(Lit(l, h, b)) != negated ==> Eval(ReadSlots(l, h, b, negated), Sparse(d, H, slots))
  {
    var m, hs := Sparse(d, H, slots), slots(l);
    SparseOrdered(P, d, H, slots, l);
    SlotIteMeans(m, l, h, b, negated, LiteralBound);
    FitAt(P, d, H, slots, l);
    var k: nat :| k < |hs| && hs[k] == h;
    if d.b(Lit(l, h, b)) != negated {
      assert SlotReads(m, l, h, b, negated, k);
    }
  }

  lemma StartIsNeeded(P: Problem, d: Model, H: nat, l: nat, h: nat, role: Role)
    requires role == StartAdd || role == StartDel
    requires Propositional(P) && Affects(P, HappeningAt(P, 2, d, h).starts, role, l)
    ensures Needed(P, d, H, l, h) && exists i :: i in Users(P, role, l) && d.b(Start(i, h))
  {
    var i :| i in HappeningAt(P, 2, d, h).starts && i < |P.ops| && l in RoleOfOp(P.ops[i], role);
    assert NeededBy(P, d, i, l, h);
    OpUsersMember(P, role, l, |P.ops|, i);
    assert i in Users(P, role, l) && d.b(Start(i, h));
  }

  lemma EndIsNeeded(P: Problem, d: Model, H: nat, l: nat, h: nat, role: Role)
    requires role == EndAdd || role == EndDel
    requires Propositional(P) && Affects(P, HappeningAt(P, 2, d, h).ends, role, l)
    ensures Needed(P, d, H, l, h) && exists i :: i in Users(P, role, l) && d.b(End(i, h))
  {
    var i :| i in HappeningAt(P, 2, d, h).ends && i < |P.ops| && l in RoleOfOp(P.ops[i], role);
    assert NeededBy(P, d, i, l, h);
    OpUsersMember(P, role, l, |P.ops|, i);
    assert i in Users(P, role, l) && d.b(End(i, h));
  }

  lemma AffectedIsNeeded(P: Problem, d: Model, H: nat, l: nat, h: nat, start: Role, end: Role)
    requires (start == StartAdd && end == EndAdd) || (start == StartDel && end == EndDel)
    requires Propositional(P)
    requires var x := HappeningAt(P, 2, d, h); Affects(P, x.starts, start, l) || Affects(P, x.ends, end, l)
    ensures Needed(P, d, H, l, h) && ActsThen(P, d, l, start, end, h)
  {
    if Affects(P, HappeningAt(P, 2, d, h).starts, start, l) {
      StartIsNeeded(P, d, H, l, h, start);
    } else {
      EndIsNeeded(P, d, H, l, h, end);
    }
  }

  lemma NoEventAffects(P: Problem, d: Model, h: nat, role: Role, l: nat)
    requires Propositional(P)
    ensures !Affects(P, HappeningAt(P, 2, d, h).events[0], role, l)
  {
    forall i | 0 <= i < |P.ops|
      ensures !P.ops[i].Event?
    {
      assert P.ops[i] in P.ops;
    }
  }

  lemma NoTilAffects(P: Problem, time: real, role: Role, l: nat)
    requires P.tils == []
    ensures !TilAffects(P, time, role, l)
  {
  }

  lemma DenseLiteral(P: Problem, d: Model, H: nat, slots: nat -> seq<nat>, l: nat, h: nat)
    requires H > 0 && Chosen(P, d, H, slots) && DenseHolds(P, d, H) && l < P.lits && h < H
    ensures LitExplained(P, 2, d, l, h, 1) && (h > 0 ==> (d.b(Lit(l, h, 0)) <==> d.b(Lit(l, h - 1, 1))))
  {
    ChosenTimes(P, d, H, slots);
    DenseAt(P, d, H, h);
    assert InProblem(P, LitSupport(l)) && Holds(d, BodyOf(P, 2, LitSupport(l), true)(h));
    LitAtMeans(P, 2, d, l, h);
    if h > 0 {
      assert OpeningExplained(P, 2, d, l, h);
      NoTilAffects(P, d.r(Time(h)), TilAdd, l);
      NoTilAffects(P, d.r(Time(h)), TilDel, l);
    }
  }

  /** Within a happening a literal changes only by an action then. */
  lemma DenseChange(P: Problem, d: Model, H: nat, slots: nat -> seq<nat>, l: nat, h: nat)
    requires H > 0 && Chosen(P, d, H, slots) && DenseHolds(P, d, H) && l < P.lits && h < H
    ensures d.b(Lit(l, h, 1)) ==> d.b(Lit(l, h, 0)) || (ActsThen(P, d, l, StartAdd, EndAdd, h) && Needed(P, d, H, l, h))
    ensures !d.b(Lit(l, h, 1)) ==> !d.b(Lit(l, h, 0)) || (ActsThen(P, d, l, StartDel, EndDel, h) && Needed(P, d, H, l, h))
  {
    ChosenTimes(P, d, H, slots);
    var x := HappeningAt(P, 2, d, h);
    DenseLiteral(P, d, H, slots, l, h);
    NoEventAffects(P, d, h, EventAdd, l);
    NoEventAffects(P, d, h, EventDel, l);
    if Affects(P, x.starts, StartAdd, l) || Affects(P, x.ends, EndAdd, l) {
      AffectedIsNeeded(P, d, H, l, h, StartAdd, EndAdd);
    }
    if Affects(P, x.starts, StartDel, l) || Affects(P, x.ends, EndDel, l) {
      AffectedIsNeeded(P, d, H, l, h, StartDel, EndDel);
    }
  }

  /** A literal does not change while it is not needed. */
  lemma {:induction false} DenseStays(P: Problem, d: Model, H: nat, slots: nat -> seq<nat>, l: nat, g: nat, h: nat)
    requires H > 0 && Chosen(P, d, H, slots) && DenseHolds(P, d, H) && l < P.lits && g < h < H
    requires forall e | g < e < h :: !Needed(P, d, H, l, e)
    ensures d.b(Lit(l, h, 0)) <==> d.b(Lit(l, g, 1))
    decreases h - g
  {
    DenseLiteral(P, d, H, slots, l, h);
    if g < h - 1 {
      DenseChange(P, d, H, slots, l, h - 1);
      DenseStays(P, d, H, slots, l, g, h - 1);
    }
  }

  lemma ActsWhere(m: Model, l: nat, k: nat, end: bool, i: nat, h: nat, users: seq<nat>, H: nat)
    requires i in users && h < H && SlotAt(m, l, k) == TimeOf(m, h) && m.b(StartOrEnd(end, i, h))
    ensures Enabled(m, l, k, end, users, H)
  {
    assert ActsAt(m, l, k, end, i, h);
  }

  /** What the actions do at a happening with a slot, they do at the time of the slot. */
  lemma ActsInSlot(P: Problem, d: Model, H: nat, slots: nat -> seq<nat>, l: nat, k: nat, start: Role, end: Role)
    requires H > 0 && Chosen(P, d, H, slots) && l < P.lits && k < |slots(l)| && ActsThen(P, d, l, start, end, slots(l)[k])
    ensures Acted(P, Sparse(d, H, slots), l, k, start, end, H)
  {
    FitAt(P, d, H, slots, l);
    var m, h := Sparse(d, H, slots), slots(l)[k];
    assert h < H && SlotAt(m, l, k) == TimeOf(m, h);
    if i :| i in Users(P, start, l) && d.b(Start(i, h)) {
      ActsWhere(m, l, k, false, i, h, Users(P, start, l), H);
    } else {
      var i :| i in Users(P, end, l) && d.b(End(i, h));
      ActsWhere(m, l, k, true, i, h, Users(P, end, l), H);
    }
  }

  lemma SparseLayer(P: Problem, d: Model, H: nat, slots: nat -> seq<nat>, l: nat, k: nat)
    requires H > 0 && Chosen(P, d, H, slots) && DenseHolds(P, d, H) && l < P.lits
    ensures LayerExplained(P, 2, Sparse(d, H, slots), l, k, H, 1)
  {
    var hs := slots(l);
    FitAt(P, d, H, slots, l);
    if k < |hs| {
      DenseChange(P, d, H, slots, l, hs[k]);
      if ActsThen(P, d, l, StartAdd, EndAdd, hs[k]) {
        ActsInSlot(P, d, H, slots, l, k, StartAdd, EndAdd);
      }
      if ActsThen(P, d, l, StartDel, EndDel, hs[k]) {
        ActsInSlot(P, d, H, slots, l, k, StartDel, EndDel);
      }
    }
  }

  lemma NotBetween(hs: seq<nat>, k: nat, e: nat)
    requires 0 < k < |hs| && (forall i, j | 0 <= i < j < |hs| :: hs[i] < hs[j]) && hs[k - 1] < e < hs[k]
    ensures e !in hs
  {
    forall j | 0 <= j < |hs|
      ensures hs[j] != e
    {
      assert j < k - 1 ==> hs[j] < hs[k - 1];
      assert j > k ==> hs[k] < hs[j];
    }
  }

  /** A slot opens as the one before closed. */
  lemma SparseOpens(P: Problem, d: Model, H: nat, slots: nat -> seq<nat>, l: nat, k: nat)
    requires H > 0 && Chosen(P, d, H, slots) && DenseHolds(P, d, H) && l < P.lits && 0 < k < LiteralBound
    ensures
      var m := Sparse(d, H, slots);
      m.b(SlotLit(l, k, 0)) <==> m.b(SlotLit(l, k - 1, 1))
  {
    var hs := slots(l);
    FitAt(P, d, H, slots, l);
    if k < |hs| {
      var g, h := hs[k - 1], hs[k];
      forall e | g < e < h
        ensures !Needed(P, d, H, l, e)
      {
        NotBetween(hs, k, e);
      }
      DenseStays(P, d, H, slots, l, g, h);
    }
  }

  lemma SparseSlot(P: Problem, d: Model, H: nat, slots: nat -> seq<nat>, l: nat, k: nat)
    requires H > 0 && Chosen(P, d, H, slots) && DenseHolds(P, d, H) && l < P.lits && k < LiteralBound
    ensures SlotHolds(P, 2, Sparse(d, H, slots), l, k, H)
  {
    var m, hs := Sparse(d, H, slots), slots(l);
    SparseOrdered(P, d, H, slots, l);
    FitAt(P, d, H, slots, l);
    if k < |hs| {
      assert SlotAt(m, l, k) == TimeOf(m, hs[k]);
    } else {
      assert TimeOf(m, H - 1) < SlotAt(m, l, k);
    }
    if k > 0 {
      SparseOpens(P, d, H, slots, l, k);
    }
    SparseLayer(P, d, H, slots, l, k);
  }

  lemma SparseLiteral(P: Problem, d: Model, H: nat, slots: nat -> seq<nat>, l: nat)
    requires H > 0 && Chosen(P, d, H, slots) && DenseHolds(P, d, H) && l < P.lits
    ensures Holds(Sparse(d, H, slots), LiteralSlots(P, 2, l, H))
  {
    var m := Sparse(d, H, slots);
    SparseOrdered(P, d, H, slots, l);
    forall k | 0 <= k < LiteralBound
      ensures SlotHolds(P, 2, m, l, k, H)
    {
      SparseSlot(P, d, H, slots, l, k);
    }
    LiteralSlotsMean(P, 2, m, l, H);
  }

  // ----- Formulas about other variables -----

  /** Happening variables are those of the dense model. */
  ghost predicate Extends(m: Model, d: Model) {
    (forall x: RealVar | !x.SlotTime? :: m.r(x) == d.r(x)) && (forall v: BoolVar | !v.SlotLit? :: m.b(v) == d.b(v))
  }

  lemma {:induction false} SameTerm(e: Expr, i: nat, h: nat, b: nat, m: Model, d: Model)
    requires Extends(m, d)
    ensures ValueOf(TermOf(e, i, h, b), m) == ValueOf(TermOf(e, i, h, b), d)
  {
    match e
    case Plus(l, r) =>
      SameTerm(l, i, h, b, m, d);
      SameTerm(r, i, h, b, m, d);
    case Minus(l, r) =>
      SameTerm(l, i, h, b, m, d);
      SameTerm(r, i, h, b, m, d);
    case Times(l, r) =>
      SameTerm(l, i, h, b, m, d);
      SameTerm(r, i, h, b, m, d);
    case UMinus(e1) => SameTerm(e1, i, h, b, m, d);
    case _ =>
  }

  ghost predicate Same(m: Model, d: Model, f: Formula) {
    Eval(f, m) <==> Eval(f, d)
  }

  lemma SameGuarded(x: BoolVar, op: CompOp, lhs: Expr, rhs: Expr, i: nat, h: nat, b: nat, m: Model, d: Model)
    requires Extends(m, d) && !x.SlotLit?
    ensures Same(m, d, Implies(Bool(x), CompareTerms(op, TermOf(lhs, i, h, b), TermOf(rhs, i, h, b)))) && Same(m, d, Bool(x))
  {
    var l, r := TermOf(lhs, i, h, b), TermOf(rhs, i, h, b);
    CompareTermsMeans(m, op, l, r);
    CompareTermsMeans(d, op, l, r);
    SameTerm(lhs, i, h, b, m, d);
    SameTerm(rhs, i, h, b, m, d);
    EvalLiteral(m, x);
    EvalLiteral(d, x);
  }

  lemma SameAll(m: Model, d: Model, fs: seq<Formula>)
    requires forall f | f in fs :: Same(m, d, f)
    ensures Holds(m, fs) <==> Holds(d, fs)
  {
  }

  lemma SameComparisonOutput(ctx: Context, op: CompOp, lhs: Expr, rhs: Expr, m: Model, d: Model)
    requires Extends(m, d) && ctx.mode != TriggerMode
    ensures
      var out := EmitComparison(ctx, op, lhs, rhs);
      (Holds(m, out.asserted) <==> Holds(d, out.asserted)) && (Holds(m, out.goals) <==> Holds(d, out.goals))
  {
    var out := EmitComparison(ctx, op, lhs, rhs);
    var com := CompareTerms(op, TermOf(lhs, ctx.op, ctx.h, ctx.b), TermOf(rhs, ctx.op, ctx.h, ctx.b));
    SameGuarded(GoalFlag(com), op, lhs, rhs, ctx.op, ctx.h, ctx.b, m, d);
    SameGuarded(Start(ctx.op, ctx.h), op, lhs, rhs, ctx.op, ctx.h, ctx.b, m, d);
    SameGuarded(End(ctx.op, ctx.h), op, lhs, rhs, ctx.op, ctx.h, ctx.b, m, d);
    SameGuarded(Running(ctx.op, ctx.h), op, lhs, rhs, ctx.op, ctx.h, ctx.b, m, d);
    SameAll(m, d, out.asserted);
    SameAll(m, d, out.goals);
  }

  // ----- Conditions and effects -----

  lemma GuardGives(P: Problem, d: Model, H: nat, slots: nat -> seq<nat>, guard: BoolVar, l: nat, h: nat, b: nat, negated: bool)
    requires H > 0 && Chosen(P, d, H, slots) && l < P.lits && b <= 1 && !guard.SlotLit?
    requires d.b(guard) ==> h in slots(l)
    requires Holds(d, [Implies(Bool(guard), Signed(negated, Lit(l, h, b)))])
    ensures Holds(Sparse(d, H, slots), [Implies(Bool(guard), ReadSlots(l, h, b, negated))])
  {
    var m := Sparse(d, H, slots);
    HoldsOne(d, Implies(Bool(guard), Signed(negated, Lit(l, h, b))));
    HoldsOne(m, Implies(Bool(guard), ReadSlots(l, h, b, negated)));
    EvalLiteral(d, guard);
    EvalLiteral(m, guard);
    EvalLiteral(d, Lit(l, h, b));
    if d.b(guard) {
      SparseReads(P, d, H, slots, l, h, b, negated);
    }
  }

  function GuardOf(ctx: Context): BoolVar {
    match ctx.time
    case AtStart => Start(ctx.op, ctx.h)
    case AtEnd => End(ctx.op, ctx.h)
    case OverAll => Running(ctx.op, ctx.h)
  }

  lemma LitAtomGiven(P: Problem, d: Model, H: nat, slots: nat -> seq<nat>, ctx: Context, negated: bool, l: nat)
    requires H > 0 && Chosen(P, d, H, slots) && l < P.lits && ctx.seen <= |P.ops| && ActionMode(ctx.mode)
    requires ctx.mode != ConditionMode ==> ctx.time == AtStart
    requires ctx.mode != DurationMode && d.b(GuardOf(ctx)) ==> ctx.h in slots(l)
    requires Holds(d, EmitLit(P, 2, ctx, negated, l).asserted)
    ensures Holds(Sparse(d, H, slots), EmitSlotLit(P, 2, ctx, negated, l).asserted)
  {
    var m := Sparse(d, H, slots);
    if ctx.mode != DurationMode {
      if ctx.time == AtStart {
        var users := OpUsers(P, if negated then StartAdd else StartDel, l, ctx.seen);
        var mutex := MutexClauses(users, ctx.op, ctx.h);
        HoldsConcat(d, [Implies(Bool(Start(ctx.op, ctx.h)), Signed(negated, Lit(l, ctx.h, 0)))], mutex);
        HoldsConcat(m, [Implies(Bool(Start(ctx.op, ctx.h)), ReadSlots(l, ctx.h, 0, negated))], mutex);
        MutexClausesHold(d, users, ctx.op, ctx.h);
        MutexClausesHold(m, users, ctx.op, ctx.h);
      }
      GuardGives(P, d, H, slots, GuardOf(ctx), l, ctx.h, 0, negated);
    }
  }

  lemma AtomGiven(P: Problem, d: Model, H: nat, slots: nat -> seq<nat>, ctx: Context, a: Atom, durationOk: bool, numericOk: bool)
    requires H > 0 && Chosen(P, d, H, slots) && ctx.seen <= |P.ops| && ActionMode(ctx.mode)
    requires ctx.mode != ConditionMode ==> ctx.time == AtStart
    requires WfAtom(P, a, durationOk, numericOk)
    requires ctx.mode != DurationMode && a.LitAtom? && d.b(GuardOf(ctx)) ==> ctx.h in slots(a.lit)
    requires Holds(d, Emit(P, 2, ctx.(b := 0), a).asserted)
    ensures Holds(Sparse(d, H, slots), EmitSlots(P, 2, ctx.(b := 1), a).asserted)
  {
    ChosenTimes(P, d, H, slots);
    match a
    case LitAtom(negated, lit) => LitAtomGiven(P, d, H, slots, ctx.(b := 0), negated, lit);
    case CompAtom(op, lhs, rhs) =>
      WithDuration(P, lhs, durationOk);
      WithDuration(P, rhs, durationOk);
      SameComparison(P, ctx.(b := 0), op, lhs, rhs, 1);
      SameComparisonOutput(ctx.(b := 0), op, lhs, rhs, Sparse(d, H, slots), d);
  }

  /** A condition that the dense model satisfies, where its literals have slots when it counts. */
  lemma ConditionGiven(P: Problem, d: Model, H: nat, slots: nat -> seq<nat>, ctx: Context, g: Goal, numericOk: bool)
    requires H > 0 && Chosen(P, d, H, slots) && ctx.seen <= |P.ops| && ActionMode(ctx.mode)
    requires ctx.mode != ConditionMode ==> ctx.time == AtStart
    requires WfGoal(P, g, numericOk, numericOk)
    requires ctx.mode != DurationMode && d.b(GuardOf(ctx)) ==> forall l | 0 <= l < P.lits && On(Atoms(g), l) :: ctx.h in slots(l)
    requires Holds(d, EmitAll(P, 2, ctx.(b := 0), Atoms(g)).asserted)
    ensures Holds(Sparse(d, H, slots), EmitAllSlots(P, 2, ctx.(b := 1), Atoms(g)).asserted)
  {
    FlattenWellFormed(P, g, false, numericOk, numericOk);
    EmitAllHolds(P, 2, d, ctx.(b := 0), Atoms(g));
    EmitAllSlotsHolds(P, 2, Sparse(d, H, slots), ctx.(b := 1), Atoms(g));
    forall a | a in Atoms(g)
      ensures Holds(Sparse(d, H, slots), EmitSlots(P, 2, ctx.(b := 1), a).asserted)
    {
      assert a.LitAtom? ==> On(Atoms(g), a.lit);
      AtomGiven(P, d, H, slots, ctx, a, numericOk, numericOk);
    }
  }

  lemma {:induction false} EffectsGiven(P: Problem, d: Model, H: nat, slots: nat -> seq<nat>, ids: seq<nat>, negated: bool,
                                        trigger: BoolVar, h: nat)
    requires H > 0 && Chosen(P, d, H, slots) && !trigger.SlotLit? && forall l | l in ids :: l < P.lits
    requires d.b(trigger) ==> forall l | l in ids :: h in slots(l)
    requires Holds(d, LitEffects(ids, negated, Bool(trigger), h, 1))
    ensures Holds(Sparse(d, H, slots), SlotEffects(ids, negated, trigger, h))
  {
    if ids != [] {
      var n := |ids| - 1;
      assert ids[n] in ids && forall l | l in ids[..n] :: l in ids;
      HoldsConcat(d, LitEffects(ids[..n], negated, Bool(trigger), h, 1), [Implies(Bool(trigger), Signed(negated, Lit(ids[n], h, 1)))]);
      EffectsGiven(P, d, H, slots, ids[..n], negated, trigger, h);
      GuardGives(P, d, H, slots, trigger, ids[n], h, 1, negated);
      HoldsConcat(Sparse(d, H, slots), SlotEffects(ids[..n], negated, trigger, h),
                  [Implies(Bool(trigger), ReadSlots(ids[n], h, 1, negated))]);
    }
  }

  lemma ActionEffectsGiven(P: Problem, d: Model, H: nat, slots: nat -> seq<nat>, e: Effects, trigger: BoolVar, op: nat, h: nat,
                           durationOk: bool)
    requires H > 0 && Chosen(P, d, H, slots) && !trigger.SlotLit? && WfEffects(P, e, durationOk)
    requires d.b(trigger) ==> forall l | 0 <= l < P.lits && Touches(e, l) :: h in slots(l)
    requires Holds(d, ActionEffects(2, e, trigger, op, h))
    ensures Holds(Sparse(d, H, slots), SlotActionEffects(e, trigger, h))
  {
    var adds, dels := LitEffects(e.adds, false, Bool(trigger), h, 1), LitEffects(e.dels, true, Bool(trigger), h, 1);
    HoldsConcat(d, adds + dels, AssignEffects(2, e.assigns, Bool(trigger), op, h));
    HoldsConcat(d, adds, dels);
    EffectsGiven(P, d, H, slots, e.adds, false, trigger, h);
    EffectsGiven(P, d, H, slots, e.dels, true, trigger, h);
    HoldsConcat(Sparse(d, H, slots), SlotEffects(e.adds, false, trigger, h), SlotEffects(e.dels, true, trigger, h));
  }

  // ----- Operators -----

  lemma NeededIsChosen(P: Problem, d: Model, H: nat, slots: nat -> seq<nat>, i: nat, l: nat, h: nat)
    requires H > 0 && Chosen(P, d, H, slots) && l < P.lits && h < H && i < |P.ops| && NeededBy(P, d, i, l, h)
    ensures h in slots(l)
  {
    FitAt(P, d, H, slots, l);
    assert Needed(P, d, H, l, h);
  }

  /** Where a durative action acts, what it reads or affects has a slot. */
  lemma DurativeHasSlots(P: Problem, d: Model, H: nat, slots: nat -> seq<nat>, i: nat, h: nat)
    requires H > 0 && Chosen(P, d, H, slots) && h < H && IsDurative(P, i)
    ensures
      var o := P.ops[i];
      && (d.b(Start(i, h)) ==> forall l | 0 <= l < P.lits && (On(Atoms(o.atStart), l) || Touches(o.start, l)) :: h in slots(l))
      && (d.b(End(i, h)) ==> forall l | 0 <= l < P.lits && (On(Atoms(o.atEnd), l) || Touches(o.end, l)) :: h in slots(l))
      && (d.b(Running(i, h)) ==> forall l | 0 <= l < P.lits && On(Atoms(o.overAll), l) :: h in slots(l))
  {
    forall l | 0 <= l < P.lits && NeededBy(P, d, i, l, h)
      ensures h in slots(l)
    {
      NeededIsChosen(P, d, H, slots, i, l, h);
    }
  }

  lemma StartGiven(P: Problem, d: Model, H: nat, slots: nat -> seq<nat>, i: nat, h: nat)
    requires H > 0 && Chosen(P, d, H, slots) && h < H && IsDurative(P, i) && WellFormed(P) && DurativeParts(P, 2, d, i, h)
    ensures
      var o, m := P.ops[i], Sparse(d, H, slots);
      && Holds(m, EmitAllSlots(P, 2, Context(DurationMode, i, h, 1, AtStart, i + 1), Atoms(o.duration)).asserted)
      && Holds(m, SlotActionEffects(o.start, Start(i, h), h))
      && Holds(m, EmitAllSlots(P, 2, Context(ConditionMode, i, h, 1, AtStart, i + 1), Atoms(o.atStart)).asserted)
  {
    var o := P.ops[i];
    assert WfOp(P, o);
    DurativeHasSlots(P, d, H, slots, i, h);
    ConditionGiven(P, d, H, slots, Context(DurationMode, i, h, 1, AtStart, i + 1), o.duration, true);
    ActionEffectsGiven(P, d, H, slots, o.start, Start(i, h), i, h, true);
    ConditionGiven(P, d, H, slots, Context(ConditionMode, i, h, 1, AtStart, i + 1), o.atStart, true);
  }

  lemma EndGiven(P: Problem, d: Model, H: nat, slots: nat -> seq<nat>, i: nat, h: nat)
    requires H > 0 && Chosen(P, d, H, slots) && h < H && IsDurative(P, i) && WellFormed(P) && DurativeParts(P, 2, d, i, h)
    ensures
      var o, m := P.ops[i], Sparse(d, H, slots);
      && Holds(m, SlotActionEffects(o.end, End(i, h), h))
      && Holds(m, EmitAllSlots(P, 2, Context(ConditionMode, i, h, 1, OverAll, i + 1), Atoms(o.overAll)).asserted)
      && Holds(m, EmitAllSlots(P, 2, Context(ConditionMode, i, h, 1, AtEnd, i + 1), Atoms(o.atEnd)).asserted)
  {
    var o := P.ops[i];
    assert WfOp(P, o);
    DurativeHasSlots(P, d, H, slots, i, h);
    ActionEffectsGiven(P, d, H, slots, o.end, End(i, h), i, h, true);
    ConditionGiven(P, d, H, slots, Context(ConditionMode, i, h, 1, OverAll, i + 1), o.overAll, true);
    ConditionGiven(P, d, H, slots, Context(ConditionMode, i, h, 1, AtEnd, i + 1), o.atEnd, true);
  }

  lemma DurativeGiven(P: Problem, d: Model, H: nat, slots: nat -> seq<nat>, i: nat, h: nat)
    requires H > 0 && Chosen(P, d, H, slots) && h < H && IsDurative(P, i) && WellFormed(P)
    requires Holds(d, DurativeBody(P, 2, i, h, i + 1))
    ensures Holds(Sparse(d, H, slots), SlotDurative(P, 2, i, h))
  {
    var m := Sparse(d, H, slots);
    assert DurativeParts(P, 2, d, i, h) by {
      DurativeSplits(P, 2, d, i, h);
    }
    assert SlotDurativeParts(P, 2, m, i, h) by {
      StartGiven(P, d, H, slots, i, h);
      EndGiven(P, d, H, slots, i, h);
    }
    SlotDurativeSplits(P, 2, m, i, h);
  }

  lemma InstantGiven(P: Problem, d: Model, H: nat, slots: nat -> seq<nat>, i: nat, h: nat)
    requires H > 0 && Chosen(P, d, H, slots) && h < H && i < |P.ops| && P.ops[i].Instant? && WellFormed(P)
    requires Holds(d, InstantBody(P, 2, i, h, i + 1))
    ensures Holds(Sparse(d, H, slots), SlotInstant(P, 2, i, h))
  {
    var o := P.ops[i];
    assert WfOp(P, o);
    var ctx := Context(InstantConditionMode, i, h, 1, AtStart, i + 1);
    HoldsConcat(d, ActionEffects(2, o.eff, Start(i, h), i, h), EmitAll(P, 2, ctx.(b := 0), Atoms(o.pre)).asserted);
    forall l | 0 <= l < P.lits && NeededBy(P, d, i, l, h)
      ensures h in slots(l)
    {
      NeededIsChosen(P, d, H, slots, i, l, h);
    }
    ActionEffectsGiven(P, d, H, slots, o.eff, Start(i, h), i, h, false);
    ConditionGiven(P, d, H, slots, ctx, o.pre, false);
    HoldsConcat(Sparse(d, H, slots), SlotActionEffects(o.eff, Start(i, h), h), EmitAllSlots(P, 2, ctx, Atoms(o.pre)).asserted);
  }

  lemma LayerGiven(P: Problem, d: Model, H: nat, slots: nat -> seq<nat>, i: nat, h: nat)
    requires H > 0 && Chosen(P, d, H, slots) && DenseHolds(P, d, H) && i < |P.ops| && WellFormed(P) && h < H
    ensures Holds(Sparse(d, H, slots), SlotOp(P, 2, i)(h))
  {
    ChosenTimes(P, d, H, slots);
    assert P.ops[i] in P.ops;
    DenseAt(P, d, H, h);
    assert InProblem(P, OpBody(i)) && Holds(d, BodyOf(P, 2, OpBody(i), true)(h));
    if P.ops[i].Durative? {
      DurativeGiven(P, d, H, slots, i, h);
    } else {
      InstantGiven(P, d, H, slots, i, h);
    }
  }

  lemma VariablesGiven(P: Problem, d: Model, H: nat, slots: nat -> seq<nat>, i: nat, h: nat)
    requires H > 0 && Chosen(P, d, H, slots) && DenseHolds(P, d, H) && i < |P.ops| && h < H
    ensures Holds(Sparse(d, H, slots), OpVariables(P, i)(h))
  {
    DenseAt(P, d, H, h);
    assert InProblem(P, OpVars(i)) && Holds(d, BodyOf(P, 2, OpVars(i), true)(h));
    OpVarsMean(P, d, i, h);
    OpVarsMean(P, Sparse(d, H, slots), i, h);
  }

  lemma OperatorGiven(P: Problem, d: Model, H: nat, slots: nat -> seq<nat>, i: nat)
    requires H > 0 && Chosen(P, d, H, slots) && DenseHolds(P, d, H) && i < |P.ops| && WellFormed(P)
    ensures Holds(Sparse(d, H, slots), OpLoop(P, 2, H)(i)) && Holds(Sparse(d, H, slots), OpVarsLoop(P, H)(i))
  {
    var m := Sparse(d, H, slots);
    forall h | 0 <= h < H
      ensures Holds(m, SlotOp(P, 2, i)(h)) && Holds(m, OpVariables(P, i)(h))
    {
      LayerGiven(P, d, H, slots, i, h);
      VariablesGiven(P, d, H, slots, i, h);
    }
    BlockHolds(m, SlotOp(P, 2, i), 0, H);
    BlockHolds(m, OpVariables(P, i), 0, H);
  }

  // ----- The whole -----

  lemma InitGiven(P: Problem, d: Model, H: nat, slots: nat -> seq<nat>)
    requires H > 0 && Chosen(P, d, H, slots) && WellFormed(P) && Holds(d, InitSpec(P))
    ensures Holds(Sparse(d, H, slots), SlotInit(P))
  {
    ChosenTimes(P, d, H, slots);
    var m := Sparse(d, H, slots);
    InitMeans(P, d);
    forall l | 0 <= l < P.lits
      ensures SlotAt(m, l, 0) == 0.0 && (m.b(SlotLit(l, 0, 0)) <==> l in P.init)
    {
      FitAt(P, d, H, slots, l);
    }
    SlotAddedInitMeans(m, P.init);
    SlotAbsentInitMeans(P, m, P.lits);
    HoldsConcat(m, SlotAddedInit(P.init), SlotAbsentInit(P, P.lits));
  }

  lemma GoalLitGiven(P: Problem, d: Model, H: nat, slots: nat -> seq<nat>, negated: bool, l: nat)
    requires H > 0 && Chosen(P, d, H, slots) && LitAtom(negated, l) in Atoms(P.goal) && l < P.lits
    ensures Holds(d, [Signed(negated, Lit(l, H - 1, 1))]) ==> Holds(Sparse(d, H, slots), [ReadSlots(l, H - 1, 1, negated)])
  {
    var m := Sparse(d, H, slots);
    assert On(Atoms(P.goal), l) && Needed(P, d, H, l, H - 1);
    FitAt(P, d, H, slots, l);
    HoldsOne(d, Signed(negated, Lit(l, H - 1, 1)));
    HoldsOne(m, ReadSlots(l, H - 1, 1, negated));
    EvalLiteral(d, Lit(l, H - 1, 1));
    SparseReads(P, d, H, slots, l, H - 1, 1, negated);
  }

  lemma GoalAtomGiven(P: Problem, d: Model, H: nat, slots: nat -> seq<nat>, a: Atom)
    requires H > 0 && Chosen(P, d, H, slots) && a in Atoms(P.goal) && WfAtom(P, a, false, true)
    ensures
      var m, ctx := Sparse(d, H, slots), Context(GoalMode, 0, H - 1, 1, AtStart, 0);
      && (Holds(d, Emit(P, 2, ctx, a).asserted) ==> Holds(m, EmitSlots(P, 2, ctx, a).asserted))
      && (Holds(d, Emit(P, 2, ctx, a).goals) ==> Holds(m, EmitSlots(P, 2, ctx, a).goals))
  {
    var m, ctx := Sparse(d, H, slots), Context(GoalMode, 0, H - 1, 1, AtStart, 0);
    match a
    case LitAtom(negated, l) => GoalLitGiven(P, d, H, slots, negated, l);
    case CompAtom(op, lhs, rhs) => SameComparisonOutput(ctx, op, lhs, rhs, m, d);
  }

  lemma GoalGiven(P: Problem, d: Model, H: nat, slots: nat -> seq<nat>)
    requires H > 0 && Chosen(P, d, H, slots) && WellFormed(P)
    ensures Holds(d, GoalOutput(P, 2, H).asserted) ==> Holds(Sparse(d, H, slots), SlotGoal(P, 2, H).asserted)
    ensures Holds(d, GoalOutput(P, 2, H).goals) ==> Holds(Sparse(d, H, slots), SlotGoal(P, 2, H).goals)
  {
    var m, ctx := Sparse(d, H, slots), Context(GoalMode, 0, H - 1, 1, AtStart, 0);
    FlattenWellFormed(P, P.goal, false, false, true);
    EmitAllHolds(P, 2, d, ctx, Atoms(P.goal));
    EmitAllSlotsHolds(P, 2, m, ctx, Atoms(P.goal));
    forall a | a in Atoms(P.goal)
      ensures Holds(d, Emit(P, 2, ctx, a).asserted) ==> Holds(m, EmitSlots(P, 2, ctx, a).asserted)
      ensures Holds(d, Emit(P, 2, ctx, a).goals) ==> Holds(m, EmitSlots(P, 2, ctx, a).goals)
    {
      GoalAtomGiven(P, d, H, slots, a);
    }
  }

  lemma GoalsGiven(P: Problem, d: Model, H: nat, slots: nat -> seq<nat>)
    requires WellFormed(P) && H > 0 && Chosen(P, d, H, slots) && Holds(d, GoalSpec(P, 2, H))
    ensures Holds(Sparse(d, H, slots), FluentGoal(P, 2, H))
  {
    var m := Sparse(d, H, slots);
    HoldsConcat(d, GoalOutput(P, 2, H).goals, NothingRuns(P, |P.ops|, H));
    GoalGiven(P, d, H, slots);
    NothingRunsMeans(P, d, |P.ops|, H);
    NothingRunsMeans(P, m, |P.ops|, H);
    HoldsConcat(m, SlotGoal(P, 2, H).goals, NothingRuns(P, |P.ops|, H));
  }

  lemma PartsTogether(P: Problem, m: Model, H: nat)
    requires H > 0 && Holds(m, Block(Timing(), 0, H)) && Holds(m, SlotInit(P)) && Holds(m, SlotGoal(P, 2, H).asserted)
    requires Holds(m, Block(OpVarsLoop(P, H), 0, |P.ops|)) && Holds(m, Block(OpLoop(P, 2, H), 0, |P.ops|))
    requires Holds(m, Block(LiteralLoop(P, 2, H), 0, P.lits))
    ensures Holds(m, FluentEncoding(P, 2, H))
  {
    HoldsSix(m, Block(Timing(), 0, H), SlotInit(P), SlotGoal(P, 2, H).asserted, Block(OpVarsLoop(P, H), 0, |P.ops|),
             Block(OpLoop(P, 2, H), 0, |P.ops|), Block(LiteralLoop(P, 2, H), 0, P.lits));
  }

  lemma TimingGiven(P: Problem, d: Model, H: nat, slots: nat -> seq<nat>)
    requires H > 0 && Chosen(P, d, H, slots) && DenseHolds(P, d, H)
    ensures Holds(Sparse(d, H, slots), Block(Timing(), 0, H))
  {
    var m := Sparse(d, H, slots);
    forall h | 0 <= h < H
      ensures Holds(m, Timing()(h))
    {
      DenseAt(P, d, H, h);
      assert InProblem(P, Timings) && Holds(d, BodyOf(P, 2, Timings, true)(h));
      TimingMeans(d, h);
      TimingMeans(m, h);
    }
    BlockHolds(m, Timing(), 0, H);
  }

  lemma OperatorsGiven(P: Problem, d: Model, H: nat, slots: nat -> seq<nat>)
    requires WellFormed(P) && H > 0 && Chosen(P, d, H, slots) && DenseHolds(P, d, H)
    ensures
      var m := Sparse(d, H, slots);
      Holds(m, Block(OpVarsLoop(P, H), 0, |P.ops|)) && Holds(m, Block(OpLoop(P, 2, H), 0, |P.ops|))
  {
    var m := Sparse(d, H, slots);
    forall i | 0 <= i < |P.ops|
      ensures Holds(m, OpLoop(P, 2, H)(i)) && Holds(m, OpVarsLoop(P, H)(i))
    {
      OperatorGiven(P, d, H, slots, i);
    }
    BlockHolds(m, OpLoop(P, 2, H), 0, |P.ops|);
    BlockHolds(m, OpVarsLoop(P, H), 0, |P.ops|);
  }

  lemma LiteralGiven(P: Problem, d: Model, H: nat, slots: nat -> seq<nat>, l: nat)
    requires H > 0 && Chosen(P, d, H, slots) && DenseHolds(P, d, H) && l < P.lits
    ensures Holds(Sparse(d, H, slots), LiteralLoop(P, 2, H)(l))
  {
    SparseLiteral(P, d, H, slots, l);
  }

  lemma AllGiven(m: Model, body: nat -> seq<Formula>, n: nat)
    requires forall l | 0 <= l < n :: Holds(m, body(l))
    ensures Holds(m, Block(body, 0, n))
  {
    BlockHolds(m, body, 0, n);
  }

  lemma LiteralsGiven(P: Problem, d: Model, H: nat, slots: nat -> seq<nat>)
    requires H > 0 && Chosen(P, d, H, slots) && DenseHolds(P, d, H)
    ensures Holds(Sparse(d, H, slots), Block(LiteralLoop(P, 2, H), 0, P.lits))
  {
    var m, body := Sparse(d, H, slots), LiteralLoop(P, 2, H);
    forall l | 0 <= l < P.lits
      ensures Holds(m, body(l))
    {
      LiteralGiven(P, d, H, slots, l);
    }
    AllGiven(m, body, P.lits);
  }

  /** A dense model, with slots chosen for every literal where it is needed, is a sparse one. */
  lemma DenseIsSparse(P: Problem, d: Model, H: nat, slots: nat -> seq<nat>)
    requires WellFormed(P) && H > 0 && Chosen(P, d, H, slots) && DenseHolds(P, d, H)
    requires Holds(d, InitSpec(P)) && Holds(d, GoalOutput(P, 2, H).asserted)
    ensures Holds(Sparse(d, H, slots), FluentEncoding(P, 2, H))
  {
    GoalGiven(P, d, H, slots);
    InitGiven(P, d, H, slots);
    TimingGiven(P, d, H, slots);
    OperatorsGiven(P, d, H, slots);
    LiteralsGiven(P, d, H, slots);
    PartsTogether(P, Sparse(d, H, slots), H);
  }

  ghost function SlotsFor(P: Problem, d: Model, H: nat): nat -> seq<nat> {
    l => if hs :| SlotsFit(P, d, H, l, hs) then hs else []
  }

  lemma DenseTiming(P: Problem, d: Model, h: nat)
    requires BodiesHold(P, 2, d, h, true)
    ensures h == 0 ==> TimeOf(d, 0) == 0.0
    ensures h > 0 ==> TimeOf(d, h - 1) < TimeOf(d, h)
  {
    assert InProblem(P, Timings) && Holds(d, BodyOf(P, 2, Timings, true)(h));
    TimingMeans(d, h);
  }

  lemma DenseIsChosen(P: Problem, d: Model, H: nat) returns (slots: nat -> seq<nat>)
    requires WellFormed(P) && Propositional(P) && H > 0 && Holds(d, EncodeSpec(P, 2, 0, H)) && FewNeeded(P, d, H)
    ensures Chosen(P, d, H, slots) && DenseHolds(P, d, H)
  {
    EncodeHolds(P, 2, d, 0, H, true);
    slots := SlotsFor(P, d, H);
    forall l | 0 <= l < P.lits
      ensures SlotsFit(P, d, H, l, slots(l))
    {
      var hs := FewFit(P, d, H, l);
    }
    DenseTiming(P, d, 0);
    forall h | 0 < h < H
      ensures TimeOf(d, h - 1) < TimeOf(d, h)
    {
      assert BodiesHold(P, 2, d, h, true);
      DenseTiming(P, d, h);
    }
    TimesAreOrdered(d, H);
  }

  ghost predicate SparseSolves(P: Problem, H: nat, m: Model)
    requires H > 0
  {
    Holds(m, FluentEncoding(P, 2, H)) && Holds(m, FluentGoal(P, 2, H))
  }

  ghost predicate DenseSolves(P: Problem, H: nat, d: Model)
    requires H > 0
  {
    Holds(d, EncodeSpec(P, 2, 0, H)) && Holds(d, GoalSpec(P, 2, H)) && FewNeeded(P, d, H)
  }

  lemma SameNeeds(P: Problem, m: Model, H: nat)
    requires FewNeeded(P, m, H)
    ensures FewNeeded(P, Timeline(2, m), H)
  {
    var d := Timeline(2, m);
    forall l | 0 <= l < P.lits
      ensures NeededAt(P, d, H, l) == NeededAt(P, m, H, l)
    {
      forall h: nat
        ensures Needed(P, d, H, l, h) <==> Needed(P, m, H, l, h)
      {
        assert forall i: nat | i < |P.ops| :: NeededBy(P, d, i, l, h) <==> NeededBy(P, m, i, l, h);
      }
    }
  }

  /** The fluent encoding with its goals is satisfiable exactly if the happening encoding is, by a
      model in which each literal is needed at three happenings at most, the first one counted. */
  lemma SparseIffFewNeeded(P: Problem, H: nat)
    requires WellFormed(P) && Propositional(P) && H > 0
    ensures (exists m :: SparseSolves(P, H, m)) <==> (exists d :: DenseSolves(P, H, d))
  {
    if m :| SparseSolves(P, H, m) {
      SparseRefinesDense(P, 2, m, H);
      SparseNeedsFew(P, m, H);
      SameNeeds(P, m, H);
      assert DenseSolves(P, H, Timeline(2, m));
    }
    if d :| DenseSolves(P, H, d) {
      EncodeHolds(P, 2, d, 0, H, true);
      var slots := DenseIsChosen(P, d, H);
      DenseIsSparse(P, d, H, slots);
      GoalsGiven(P, d, H, slots);
      assert SparseSolves(P, H, Sparse(d, H, slots));
    }
  }
}
