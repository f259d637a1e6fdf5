/** Encoding in several calls against encoding in one: which formulas the solver holds. */
module Incremental {
  import opened Smt
  import opened Pddl
  import opened HappeningSpec
  import opened Decoding
  import opened EncodeMeaning

  /** The bounds of the calls made so far: at least one, positive, never smaller than the one before. */
  predicate Bounds(bounds: seq<nat>) {
    |bounds| > 0 && bounds[0] > 0 && forall k | 0 < k < |bounds| :: bounds[k - 1] <= bounds[k]
  }

  function Last(bounds: seq<nat>): nat
    requires |bounds| > 0
  {
    bounds[|bounds| - 1]
  }

  lemma {:induction false} BoundsGrow(bounds: seq<nat>, k: nat)
    requires Bounds(bounds) && k < |bounds|
    ensures bounds[0] <= bounds[k] <= Last(bounds)
  {
    if k + 1 < |bounds| {
      assert Bounds(bounds[..|bounds| - 1]);
      BoundsGrow(bounds[..|bounds| - 1], k);
    } else if k > 0 {
      assert Bounds(bounds[..k]);
      BoundsGrow(bounds[..k], k - 1);
    }
  }

  /** What the solver holds after these calls. */
  function Contents(P: Problem, C: Cascade, bounds: seq<nat>): seq<Formula>
    requires Bounds(bounds)
  {
    var n := |bounds|;
    if n == 1 then EncodeSpec(P, C, 0, bounds[0])
    else
      BoundsGrow(bounds, n - 1);
      Contents(P, C, bounds[..n - 1]) + EncodeSpec(P, C, bounds[n - 2], bounds[n - 1])
  }

  // ----- Membership -----

  lemma {:induction false} BlockMember(body: nat -> seq<Formula>, lo: nat, hi: nat, f: Formula)
    ensures f in Block(body, lo, hi) <==> exists h | lo <= h < hi :: f in body(h)
  {
    if lo < hi {
      BlockMember(body, lo, hi - 1, f);
    }
  }

  lemma {:induction false} BlocksMember(P: Problem, C: Cascade, loops: seq<Loop>, lo: nat, hi: nat, first: bool, f: Formula)
    requires AllInProblem(P, loops)
    ensures f in Blocks(P, C, loops, lo, hi, first) <==>
            exists loop | loop in loops :: f in Block(BodyOf(P, C, loop, first), lo, hi)
  {
    if loops != [] {
      var last, rest := loops[|loops| - 1], loops[..|loops| - 1];
      BlocksMember(P, C, rest, lo, hi, first, f);
      assert forall loop :: loop in loops <==> loop in rest || loop == last;
    }
  }

  /** The loop body asserts f at happening h. */
  predicate Asserts(P: Problem, C: Cascade, loop: Loop, h: nat, first: bool, f: Formula) {
    InProblem(P, loop) && f in At(P, C, loop, h, first)
  }

  ghost predicate AssertedBetween(P: Problem, C: Cascade, lo: nat, hi: nat, first: bool, f: Formula) {
    exists loop, h: nat | lo <= h < hi :: Asserts(P, C, loop, h, first, f)
  }

  lemma LoopMember(P: Problem, C: Cascade, loop: Loop, lo: nat, hi: nat, first: bool, f: Formula)
    requires InProblem(P, loop)
    ensures f in Block(BodyOf(P, C, loop, first), lo, hi) <==> exists h: nat | lo <= h < hi :: Asserts(P, C, loop, h, first, f)
  {
    var body := BodyOf(P, C, loop, first);
    BlockMember(body, lo, hi, f);
    forall h: nat
      ensures f in body(h) <==> Asserts(P, C, loop, h, first, f)
    {
    }
  }

  ghost predicate FromFamily(P: Problem, C: Cascade, family: Family, lo: nat, hi: nat, first: bool, f: Formula) {
    exists loop | InFamily(loop, family) && InProblem(P, loop) :: f in Block(BodyOf(P, C, loop, first), lo, hi)
  }

  lemma FamilyMember(P: Problem, C: Cascade, family: Family, lo: nat, hi: nat, first: bool, f: Formula)
    ensures f in FamilyBlocks(P, C, family, lo, hi, first) <==> FromFamily(P, C, family, lo, hi, first, f)
  {
    var loops := AllLoops(P, family);
    LoopsInProblem(P, family, SizeOf(P, family));
    BlocksMember(P, C, loops, lo, hi, first, f);
    forall loop: Loop
      ensures loop in loops <==> InProblem(P, loop) && InFamily(loop, family)
    {
      AllLoopsMember(P, family, loop);
    }
  }

  ghost predicate FromLoop(P: Problem, C: Cascade, lo: nat, hi: nat, first: bool, f: Formula) {
    || f in Block(BodyOf(P, C, Timings, first), lo, hi)
    || exists family :: FromFamily(P, C, family, lo, hi, first, f)
  }

  lemma FromLoopIsAsserted(P: Problem, C: Cascade, lo: nat, hi: nat, first: bool, f: Formula)
    ensures FromLoop(P, C, lo, hi, first, f) <==> AssertedBetween(P, C, lo, hi, first, f)
  {
    if f in Block(BodyOf(P, C, Timings, first), lo, hi) {
      LoopMember(P, C, Timings, lo, hi, first, f);
    } else if family :| FromFamily(P, C, family, lo, hi, first, f) {
      var loop :| InFamily(loop, family) && InProblem(P, loop) && f in Block(BodyOf(P, C, loop, first), lo, hi);
      LoopMember(P, C, loop, lo, hi, first, f);
    }
    if AssertedBetween(P, C, lo, hi, first, f) {
      var loop, h: nat :| lo <= h < hi && Asserts(P, C, loop, h, first, f);
      LoopMember(P, C, loop, lo, hi, first, f);
      if !loop.Timings? {
        assert FromFamily(P, C, FamilyOf(loop), lo, hi, first, f);
      }
    }
  }

  lemma FamiliesMember(P: Problem, C: Cascade, lo: nat, hi: nat, first: bool, f: Formula)
    ensures (exists family :: FromFamily(P, C, family, lo, hi, first, f)) <==>
            || f in FamilyBlocks(P, C, TilFamily, lo, hi, first)
            || f in FamilyBlocks(P, C, OpVarsFamily, lo, hi, first)
            || f in FamilyBlocks(P, C, OpBodyFamily, lo, hi, first)
            || f in FamilyBlocks(P, C, LitFamily, lo, hi, first)
            || f in FamilyBlocks(P, C, FnFamily, lo, hi, first)
  {
    FamilyMember(P, C, TilFamily, lo, hi, first, f);
    FamilyMember(P, C, OpVarsFamily, lo, hi, first, f);
    FamilyMember(P, C, OpBodyFamily, lo, hi, first, f);
    FamilyMember(P, C, LitFamily, lo, hi, first, f);
    FamilyMember(P, C, FnFamily, lo, hi, first, f);
  }

  /** The members of one call: loop bodies, known states, guarded goal comparisons. */
  lemma EncodeMember(P: Problem, C: Cascade, lo: nat, hi: nat, f: Formula)
    requires hi > 0
    ensures f in EncodeSpec(P, C, lo, hi) <==>
            || AssertedBetween(P, C, lo, hi, lo == 0, f)
            || (lo == 0 && f in InitSpec(P))
            || f in GoalOutput(P, C, hi).asserted
  {
    FromLoopIsAsserted(P, C, lo, hi, lo == 0, f);
    FamiliesMember(P, C, lo, hi, lo == 0, f);
  }

  // ----- What the first call leaves out -----

  function MutexClause(i: nat, j: nat, h: nat): Formula {
    Or([Not(Bool(Start(i, h))), Not(Bool(Start(j, h)))])
  }

  ghost predicate IsMutex(f: Formula) {
    exists i: nat, j: nat, h: nat :: f == MutexClause(i, j, h)
  }

  predicate IsGoalGuard(f: Formula) {
    f.Implies? && f.p.Bool? && f.p.b == GoalFlag(f.q)
  }

  lemma OpUsersPrefix(P: Problem, role: Role, id: nat, n: nat, k: nat)
    requires n <= k <= |P.ops|
    ensures forall i | i in OpUsers(P, role, id, n) :: i in OpUsers(P, role, id, k)
  {
    if n < k {
      OpUsersPrefix(P, role, id, n, k - 1);
    }
  }

  lemma {:induction false} MutexMember(users: seq<nat>, op: nat, h: nat, f: Formula)
    ensures f in MutexClauses(users, op, h) <==> exists j | j in users && j != op :: f == MutexClause(op, j, h)
  {
    if users != [] {
      var last := |users| - 1;
      MutexMember(users[..last], op, h, f);
      assert MutexClauses(users, op, h) ==
             MutexClauses(users[..last], op, h) + (if users[last] == op then [] else [MutexClause(op, users[last], h)]);
      assert forall j :: j in users <==> j in users[..last] || j == users[last];
    }
  }

  /** The larger set holds what the smaller does and otherwise only mutex clauses. */
  ghost predicate OnlyMutexMore(small: seq<Formula>, large: seq<Formula>) {
    && (forall f | f in small :: f in large)
    && (forall f | f in large && f !in small :: IsMutex(f))
  }

  lemma OnlyMutexConcat(a: seq<Formula>, b: seq<Formula>, a': seq<Formula>, b': seq<Formula>)
    requires OnlyMutexMore(a, a') && OnlyMutexMore(b, b')
    ensures OnlyMutexMore(a + b, a' + b')
  {
    assert forall f :: f in a + b <==> f in a || f in b;
    assert forall f :: f in a' + b' <==> f in a' || f in b';
    forall f | f in a' + b' && f !in a + b
      ensures IsMutex(f)
    {
      assert (f in a' && f !in a) || (f in b' && f !in b);
    }
  }

  lemma StartConditionGrows(P: Problem, C: Cascade, ctx: Context, seen: nat, negated: bool, lit: nat)
    requires ctx.seen <= seen <= |P.ops|
    ensures OnlyMutexMore(StartCondition(P, C, ctx, negated, lit), StartCondition(P, C, ctx.(seen := seen), negated, lit))
  {
    var role := if negated then StartAdd else StartDel;
    var small, large := OpUsers(P, role, lit, ctx.seen), OpUsers(P, role, lit, seen);
    OpUsersPrefix(P, role, lit, ctx.seen, seen);
    forall f
      ensures f in MutexClauses(small, ctx.op, ctx.h) ==> f in MutexClauses(large, ctx.op, ctx.h)
      ensures f in MutexClauses(large, ctx.op, ctx.h) ==> IsMutex(f)
    {
      MutexMember(small, ctx.op, ctx.h, f);
      MutexMember(large, ctx.op, ctx.h, f);
    }
  }

  lemma EmitGrows(P: Problem, C: Cascade, ctx: Context, seen: nat, a: Atom)
    requires ctx.seen <= seen <= |P.ops|
    ensures OnlyMutexMore(Emit(P, C, ctx, a).asserted, Emit(P, C, ctx.(seen := seen), a).asserted)
  {
    if a.LitAtom? && (ctx.mode == InstantConditionMode || (ctx.mode == ConditionMode && ctx.time == AtStart)) {
      StartConditionGrows(P, C, ctx, seen, a.negated, a.lit);
    } else {
      assert Emit(P, C, ctx, a) == Emit(P, C, ctx.(seen := seen), a);
    }
  }

  lemma {:induction false} EmitAllGrows(P: Problem, C: Cascade, ctx: Context, seen: nat, atoms: seq<Atom>)
    requires ctx.seen <= seen <= |P.ops|
    ensures OnlyMutexMore(EmitAll(P, C, ctx, atoms).asserted, EmitAll(P, C, ctx.(seen := seen), atoms).asserted)
  {
    if atoms != [] {
      EmitGrows(P, C, ctx, seen, atoms[0]);
      EmitAllGrows(P, C, ctx, seen, atoms[1..]);
      OnlyMutexConcat(Emit(P, C, ctx, atoms[0]).asserted, EmitAll(P, C, ctx, atoms[1..]).asserted,
                      Emit(P, C, ctx.(seen := seen), atoms[0]).asserted, EmitAll(P, C, ctx.(seen := seen), atoms[1..]).asserted);
    }
  }

  function Precondition(P: Problem, C: Cascade, i: nat, h: nat, seen: nat): seq<Formula>
    requires i < |P.ops| && P.ops[i].Instant? && seen <= |P.ops|
  {
    EmitAll(P, C, Context(InstantConditionMode, i, h, C - 2, AtStart, seen), Atoms(P.ops[i].pre)).asserted
  }

  lemma PreconditionGrows(P: Problem, C: Cascade, i: nat, h: nat)
    requires i < |P.ops| && P.ops[i].Instant?
    ensures OnlyMutexMore(Precondition(P, C, i, h, i + 1), Precondition(P, C, i, h, |P.ops|))
  {
    EmitAllGrows(P, C, Context(InstantConditionMode, i, h, C - 2, AtStart, i + 1), |P.ops|, Atoms(P.ops[i].pre));
  }

  lemma InstantSplits(P: Problem, C: Cascade, i: nat, h: nat, seen: nat)
    requires i < |P.ops| && P.ops[i].Instant? && seen <= |P.ops|
    ensures InstantBody(P, C, i, h, seen) ==
            ActionEffects(C, P.ops[i].eff, Start(i, h), i, h) + Precondition(P, C, i, h, seen)
  {
  }

  lemma InstantGrows(P: Problem, C: Cascade, i: nat, h: nat)
    requires i < |P.ops| && P.ops[i].Instant?
    ensures OnlyMutexMore(InstantBody(P, C, i, h, i + 1), InstantBody(P, C, i, h, |P.ops|))
  {
    var effects := ActionEffects(C, P.ops[i].eff, Start(i, h), i, h);
    InstantSplits(P, C, i, h, i + 1);
    InstantSplits(P, C, i, h, |P.ops|);
    OnlyMutexConcat(effects, Precondition(P, C, i, h, i + 1), effects, Precondition(P, C, i, h, |P.ops|)) by {
      PreconditionGrows(P, C, i, h);
    }
  }

  /** The condition lists of a durative action after the effects. */
  function Conditions(P: Problem, C: Cascade, i: nat, h: nat, seen: nat, time: TimeSpec): seq<Formula>
    requires i < |P.ops| && P.ops[i].Durative? && seen <= |P.ops|
  {
    var o, ctx := P.ops[i], Context(ConditionMode, i, h, C - 2, time, seen);
    EmitAll(P, C, ctx, Atoms(match time case AtStart => o.atStart case OverAll => o.overAll case AtEnd => o.atEnd)).asserted
  }

  function BeforeConditions(P: Problem, C: Cascade, i: nat, h: nat, seen: nat): seq<Formula>
    requires i < |P.ops| && P.ops[i].Durative? && seen <= |P.ops|
  {
    EmitAll(P, C, Context(DurationMode, i, h, C - 2, AtStart, seen), Atoms(P.ops[i].duration)).asserted +
    ActionEffects(C, P.ops[i].start, Start(i, h), i, h) + ActionEffects(C, P.ops[i].end, End(i, h), i, h)
  }

  lemma DurativeSplits(P: Problem, C: Cascade, i: nat, h: nat, seen: nat)
    requires i < |P.ops| && P.ops[i].Durative? && seen <= |P.ops|
    ensures DurativeBody(P, C, i, h, seen) ==
            BeforeConditions(P, C, i, h, seen) + Conditions(P, C, i, h, seen, AtStart) +
            Conditions(P, C, i, h, seen, OverAll) + Conditions(P, C, i, h, seen, AtEnd)
  {
  }

  lemma ConditionsGrow(P: Problem, C: Cascade, i: nat, h: nat, time: TimeSpec)
    requires i < |P.ops| && P.ops[i].Durative?
    ensures OnlyMutexMore(Conditions(P, C, i, h, i + 1, time), Conditions(P, C, i, h, |P.ops|, time))
  {
    var o, ctx := P.ops[i], Context(ConditionMode, i, h, C - 2, time, i + 1);
    EmitAllGrows(P, C, ctx, |P.ops|, Atoms(match time case AtStart => o.atStart case OverAll => o.overAll case AtEnd => o.atEnd));
  }

  lemma BeforeConditionsGrow(P: Problem, C: Cascade, i: nat, h: nat)
    requires i < |P.ops| && P.ops[i].Durative?
    ensures OnlyMutexMore(BeforeConditions(P, C, i, h, i + 1), BeforeConditions(P, C, i, h, |P.ops|))
  {
    var ctx := Context(DurationMode, i, h, C - 2, AtStart, i + 1);
    var small := EmitAll(P, C, ctx, Atoms(P.ops[i].duration)).asserted;
    var large := EmitAll(P, C, ctx.(seen := |P.ops|), Atoms(P.ops[i].duration)).asserted;
    var start, end := ActionEffects(C, P.ops[i].start, Start(i, h), i, h), ActionEffects(C, P.ops[i].end, End(i, h), i, h);
    EmitAllGrows(P, C, ctx, |P.ops|, Atoms(P.ops[i].duration));
    OnlyMutexConcat(small, start, large, start);
    OnlyMutexConcat(small + start, end, large + start, end);
  }

  lemma OnlyMutexConcat4(a: seq<Formula>, b: seq<Formula>, c: seq<Formula>, d: seq<Formula>,
                         a': seq<Formula>, b': seq<Formula>, c': seq<Formula>, d': seq<Formula>)
    requires OnlyMutexMore(a, a') && OnlyMutexMore(b, b') && OnlyMutexMore(c, c') && OnlyMutexMore(d, d')
    ensures OnlyMutexMore(a + b + c + d, a' + b' + c' + d')
  {
    OnlyMutexConcat(a, b, a', b');
    OnlyMutexConcat(a + b, c, a' + b', c');
    OnlyMutexConcat(a + b + c, d, a' + b' + c', d');
  }

  lemma DurativeGrows(P: Problem, C: Cascade, i: nat, h: nat)
    requires i < |P.ops| && P.ops[i].Durative?
    ensures OnlyMutexMore(DurativeBody(P, C, i, h, i + 1), DurativeBody(P, C, i, h, |P.ops|))
  {
    var n := |P.ops|;
    DurativeSplits(P, C, i, h, i + 1);
    DurativeSplits(P, C, i, h, n);
    BeforeConditionsGrow(P, C, i, h);
    ConditionsGrow(P, C, i, h, AtStart);
    ConditionsGrow(P, C, i, h, OverAll);
    ConditionsGrow(P, C, i, h, AtEnd);
    OnlyMutexConcat4(BeforeConditions(P, C, i, h, i + 1), Conditions(P, C, i, h, i + 1, AtStart),
                     Conditions(P, C, i, h, i + 1, OverAll), Conditions(P, C, i, h, i + 1, AtEnd),
                     BeforeConditions(P, C, i, h, n), Conditions(P, C, i, h, n, AtStart),
                     Conditions(P, C, i, h, n, OverAll), Conditions(P, C, i, h, n, AtEnd));
  }

  /** A later call asserts what the first would, and otherwise only mutex clauses. */
  lemma LayerGrows(P: Problem, C: Cascade, loop: Loop, h: nat)
    requires InProblem(P, loop)
    ensures OnlyMutexMore(At(P, C, loop, h, true), At(P, C, loop, h, false))
  {
    if loop.OpBody? && P.ops[loop.i].Durative? {
      DurativeGrows(P, C, loop.i, h);
    } else if loop.OpBody? && P.ops[loop.i].Instant? {
      InstantGrows(P, C, loop.i, h);
    } else {
      assert At(P, C, loop, h, true) == At(P, C, loop, h, false);
    }
  }

  lemma {:induction false} GoalsAreGuarded(P: Problem, C: Cascade, ctx: Context, atoms: seq<Atom>)
    requires ctx.mode == GoalMode && ctx.seen <= |P.ops|
    ensures forall f | f in EmitAll(P, C, ctx, atoms).asserted :: IsGoalGuard(f)
  {
    if atoms != [] {
      GoalsAreGuarded(P, C, ctx, atoms[1..]);
    }
  }

  // ----- Several calls against one -----

  ghost predicate GuardsGoalOf(P: Problem, C: Cascade, bounds: seq<nat>, k: nat, f: Formula) {
    k < |bounds| && bounds[k] > 0 && f in GoalOutput(P, C, bounds[k]).asserted
  }

  lemma GuardsGoal(P: Problem, C: Cascade, bounds: seq<nat>, k: nat, f: Formula)
    requires GuardsGoalOf(P, C, bounds, k, f)
    ensures IsGoalGuard(f)
  {
    GoalsAreGuarded(P, C, Context(GoalMode, 0, bounds[k] - 1, C - 1, AtStart, 0), Atoms(P.goal));
  }

  lemma BetweenJoins(P: Problem, C: Cascade, lo: nat, mid: nat, hi: nat, first: bool, f: Formula)
    requires lo <= mid <= hi
    ensures AssertedBetween(P, C, lo, hi, first, f) <==>
            AssertedBetween(P, C, lo, mid, first, f) || AssertedBetween(P, C, mid, hi, first, f)
  {
    if AssertedBetween(P, C, lo, hi, first, f) {
      var loop, h: nat :| lo <= h < hi && Asserts(P, C, loop, h, first, f);
    }
  }

  lemma GuardsSplit(P: Problem, C: Cascade, bounds: seq<nat>, f: Formula)
    requires Bounds(bounds) && |bounds| > 1 && Last(bounds) > 0
    ensures
      var rest := bounds[..|bounds| - 1];
      (exists k: nat :: GuardsGoalOf(P, C, bounds, k, f)) <==>
      (exists k: nat :: GuardsGoalOf(P, C, rest, k, f)) || f in GoalOutput(P, C, Last(bounds)).asserted
  {
    var rest := bounds[..|bounds| - 1];
    if k: nat :| GuardsGoalOf(P, C, rest, k, f) {
      assert GuardsGoalOf(P, C, bounds, k, f);
    }
    if k: nat :| GuardsGoalOf(P, C, bounds, k, f) {
      assert k < |rest| ==> GuardsGoalOf(P, C, rest, k, f);
    }
    if f in GoalOutput(P, C, Last(bounds)).asserted {
      assert GuardsGoalOf(P, C, bounds, |bounds| - 1, f);
    }
  }

  /** f comes from a layer below H, from the known states, or guards a goal comparison. */
  lemma {:induction false} ContentsMember(P: Problem, C: Cascade, bounds: seq<nat>, f: Formula)
    requires Bounds(bounds)
    ensures f in Contents(P, C, bounds) <==>
            || AssertedBetween(P, C, 0, bounds[0], true, f)
            || AssertedBetween(P, C, bounds[0], Last(bounds), false, f)
            || f in InitSpec(P)
            || exists k: nat :: GuardsGoalOf(P, C, bounds, k, f)
  {
    var n := |bounds|;
    if n == 1 {
      EncodeMember(P, C, 0, bounds[0], f);
      assert GuardsGoalOf(P, C, bounds, 0, f) <==> f in GoalOutput(P, C, bounds[0]).asserted;
    } else {
      var rest := bounds[..n - 1];
      assert Bounds(rest) && rest[0] == bounds[0] && Last(rest) == bounds[n - 2];
      BoundsGrow(rest, n - 2);
      ContentsMember(P, C, rest, f);
      EncodeMember(P, C, bounds[n - 2], bounds[n - 1], f);
      BetweenJoins(P, C, bounds[0], bounds[n - 2], bounds[n - 1], false, f);
      GuardsSplit(P, C, bounds, f);
    }
  }

  lemma BetweenGrows(P: Problem, C: Cascade, lo: nat, hi: nat, f: Formula)
    ensures AssertedBetween(P, C, lo, hi, true, f) ==> AssertedBetween(P, C, lo, hi, false, f)
    ensures AssertedBetween(P, C, lo, hi, false, f) && !IsMutex(f) ==> AssertedBetween(P, C, lo, hi, true, f)
  {
    if AssertedBetween(P, C, lo, hi, true, f) {
      var loop, h: nat :| lo <= h < hi && Asserts(P, C, loop, h, true, f);
      LayerGrows(P, C, loop, h);
      assert Asserts(P, C, loop, h, false, f);
    }
    if AssertedBetween(P, C, lo, hi, false, f) && !IsMutex(f) {
      var loop, h: nat :| lo <= h < hi && Asserts(P, C, loop, h, false, f);
      LayerGrows(P, C, loop, h);
      assert Asserts(P, C, loop, h, true, f);
    }
  }

  /** Encoding in several calls asserts everything that one call to the last bound asserts; all
      it asserts besides are action mutex clauses and guarded goal comparisons. */
  lemma IncrementalIsOneShot(P: Problem, C: Cascade, bounds: seq<nat>, f: Formula)
    requires Bounds(bounds) && Last(bounds) > 0
    ensures f in EncodeSpec(P, C, 0, Last(bounds)) ==> f in Contents(P, C, bounds)
    ensures f in Contents(P, C, bounds) && f !in EncodeSpec(P, C, 0, Last(bounds)) ==> IsMutex(f) || IsGoalGuard(f)
  {
    var H := Last(bounds);
    BoundsGrow(bounds, 0);
    ContentsMember(P, C, bounds, f);
    EncodeMember(P, C, 0, H, f);
    BetweenJoins(P, C, 0, bounds[0], H, true, f);
    BetweenGrows(P, C, bounds[0], H, f);
    if f in GoalOutput(P, C, H).asserted {
      assert GuardsGoalOf(P, C, bounds, |bounds| - 1, f);
    }
    if k: nat :| GuardsGoalOf(P, C, bounds, k, f) {
      GuardsGoal(P, C, bounds, k, f);
    }
  }

  /** When the calls differ from one call: a pair of actions in one happening is excluded by the
      first call only if the threatened one comes later in the operator order. */
  lemma FirstCallMutex(P: Problem, C: Cascade, ctx: Context, negated: bool, lit: nat, j: nat)
    requires ctx.seen <= |P.ops| && j < |P.ops| && j != ctx.op
    requires lit in RoleOfOp(P.ops[j], if negated then StartAdd else StartDel)
    ensures MutexClause(ctx.op, j, ctx.h) in StartCondition(P, C, ctx, negated, lit) <==> j < ctx.seen
  {
    var role := if negated then StartAdd else StartDel;
    var users := OpUsers(P, role, lit, ctx.seen);
    MutexMember(users, ctx.op, ctx.h, MutexClause(ctx.op, j, ctx.h));
    OpUsersMember(P, role, lit, ctx.seen, j);
    assert forall k: nat :: MutexClause(ctx.op, j, ctx.h) == MutexClause(ctx.op, k, ctx.h) ==> j == k by {
      forall k: nat | MutexClause(ctx.op, j, ctx.h) == MutexClause(ctx.op, k, ctx.h)
        ensures j == k
      {
        assert [Not(Bool(Start(ctx.op, ctx.h))), Not(Bool(Start(j, ctx.h)))][1] ==
               [Not(Bool(Start(ctx.op, ctx.h))), Not(Bool(Start(k, ctx.h)))][1];
      }
    }
  }
}
