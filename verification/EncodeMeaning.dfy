/** From the whole encoding to its clauses, happening by happening. */
module EncodeMeaning {
  import opened Smt
  import opened Pddl
  import opened HappeningSpec
  import opened Semantics
  import opened Decoding
  import opened BlockMeaning
  import opened LayerMeaning
  import opened EventMeaning
  import opened FrameMeaning
  import opened FlowMeaning

  lemma {:induction false} BlocksHold(P: Problem, C: Cascade, m: Model, loops: seq<Loop>, lo: nat, hi: nat, first: bool)
    requires AllInProblem(P, loops)
    ensures Holds(m, Blocks(P, C, loops, lo, hi, first)) <==>
            forall loop | loop in loops :: Holds(m, Block(BodyOf(P, C, loop, first), lo, hi))
  {
    if loops != [] {
      var last, rest := loops[|loops| - 1], loops[..|loops| - 1];
      BlocksHold(P, C, m, rest, lo, hi, first);
      HoldsConcat(m, Blocks(P, C, rest, lo, hi, first), Block(BodyOf(P, C, last, first), lo, hi));
      assert forall loop :: loop in loops <==> loop in rest || loop == last;
    }
  }

  predicate InFamily(loop: Loop, family: Family) {
    match family
    case TilFamily => loop.TilLoop?
    case OpVarsFamily => loop.OpVars?
    case OpBodyFamily => loop.OpBody?
    case LitFamily => loop.LitSupport?
    case FnFamily => loop.FnSupports? || loop.FnFlows?
  }

  function MemberOf(loop: Loop): nat {
    match loop
    case Timings => 0
    case TilLoop(k) => k
    case OpVars(i) => i
    case OpBody(i) => i
    case LitSupport(l) => l
    case FnSupports(fn) => fn
    case FnFlows(fn) => fn
  }

  lemma LoopsUpToMember(family: Family, n: nat, loop: Loop)
    ensures loop in LoopsUpTo(family, n) <==> InFamily(loop, family) && MemberOf(loop) < n
  {
    if n > 0 {
      LoopsUpToMember(family, n - 1, loop);
      assert loop in LoopsOf(family, n - 1) <==> InFamily(loop, family) && MemberOf(loop) == n - 1;
    }
  }

  lemma AllLoopsMember(P: Problem, family: Family, loop: Loop)
    ensures loop in AllLoops(P, family) <==> InProblem(P, loop) && InFamily(loop, family)
  {
    LoopsUpToMember(family, SizeOf(P, family), loop);
  }

  lemma FamilyHolds(P: Problem, C: Cascade, m: Model, family: Family, lo: nat, hi: nat, first: bool)
    ensures Holds(m, FamilyBlocks(P, C, family, lo, hi, first)) <==>
            forall loop | InProblem(P, loop) && InFamily(loop, family) :: Holds(m, Block(BodyOf(P, C, loop, first), lo, hi))
  {
    var loops := AllLoops(P, family);
    LoopsInProblem(P, family, SizeOf(P, family));
    BlocksHold(P, C, m, loops, lo, hi, first);
    forall loop: Loop
      ensures loop in loops <==> InProblem(P, loop) && InFamily(loop, family)
    {
      AllLoopsMember(P, family, loop);
    }
  }

  /** Every loop body of the call holds at happening h. */
  ghost predicate BodiesHold(P: Problem, C: Cascade, m: Model, h: nat, first: bool) {
    forall loop: Loop | InProblem(P, loop) :: Holds(m, BodyOf(P, C, loop, first)(h))
  }

  ghost predicate BlocksAllHold(P: Problem, C: Cascade, m: Model, lo: nat, hi: nat, first: bool) {
    forall loop: Loop | InProblem(P, loop) :: Holds(m, Block(BodyOf(P, C, loop, first), lo, hi))
  }

  lemma BlocksAreBodies(P: Problem, C: Cascade, m: Model, lo: nat, hi: nat, first: bool)
    ensures BlocksAllHold(P, C, m, lo, hi, first) <==> forall h | lo <= h < hi :: BodiesHold(P, C, m, h, first)
  {
    if BlocksAllHold(P, C, m, lo, hi, first) {
      forall h, loop: Loop | lo <= h < hi && InProblem(P, loop)
        ensures Holds(m, BodyOf(P, C, loop, first)(h))
      {
        BlockHolds(m, BodyOf(P, C, loop, first), lo, hi);
      }
    }
    if forall h | lo <= h < hi :: BodiesHold(P, C, m, h, first) {
      forall loop: Loop | InProblem(P, loop)
        ensures Holds(m, Block(BodyOf(P, C, loop, first), lo, hi))
      {
        var body := BodyOf(P, C, loop, first);
        forall h | lo <= h < hi
          ensures Holds(m, body(h))
        {
          assert BodiesHold(P, C, m, h, first);
        }
        BlockHolds(m, body, lo, hi);
      }
    }
  }

  function FamilyOf(loop: Loop): Family
    requires !loop.Timings?
    ensures InFamily(loop, FamilyOf(loop))
  {
    match loop
    case TilLoop(_) => TilFamily
    case OpVars(_) => OpVarsFamily
    case OpBody(_) => OpBodyFamily
    case LitSupport(_) => LitFamily
    case _ => FnFamily
  }

  lemma FamiliesHold(P: Problem, C: Cascade, m: Model, lo: nat, hi: nat, first: bool)
    ensures BlocksAllHold(P, C, m, lo, hi, first) <==>
            && Holds(m, Block(BodyOf(P, C, Timings, first), lo, hi))
            && forall family :: Holds(m, FamilyBlocks(P, C, family, lo, hi, first))
  {
    if BlocksAllHold(P, C, m, lo, hi, first) {
      assert Holds(m, Block(BodyOf(P, C, Timings, first), lo, hi));
      forall family
        ensures Holds(m, FamilyBlocks(P, C, family, lo, hi, first))
      {
        FamilyHolds(P, C, m, family, lo, hi, first);
      }
    }
    if Holds(m, Block(BodyOf(P, C, Timings, first), lo, hi)) && forall family :: Holds(m, FamilyBlocks(P, C, family, lo, hi, first)) {
      forall loop: Loop | InProblem(P, loop)
        ensures Holds(m, Block(BodyOf(P, C, loop, first), lo, hi))
      {
        if !loop.Timings? {
          FamilyHolds(P, C, m, FamilyOf(loop), lo, hi, first);
        }
      }
    }
  }

  lemma HoldsEight(m: Model, a: seq<Formula>, b: seq<Formula>, c: seq<Formula>, d: seq<Formula>,
                   e: seq<Formula>, f: seq<Formula>, g: seq<Formula>, h: seq<Formula>)
    ensures Holds(m, a + b + c + d + e + f + g + h) <==>
            && Holds(m, a) && Holds(m, b) && Holds(m, c) && Holds(m, d)
            && Holds(m, e) && Holds(m, f) && Holds(m, g) && Holds(m, h)
  {
    HoldsConcat4(m, a + b + c + d + e, f, g, h);
    HoldsConcat(m, a + b + c + d, e);
    HoldsConcat4(m, a, b, c, d);
  }

  lemma EncodeParts(P: Problem, C: Cascade, m: Model, lo: nat, hi: nat, first: bool)
    requires hi > 0 && first == (lo == 0)
    ensures Holds(m, EncodeSpec(P, C, lo, hi)) <==>
            && Holds(m, Block(BodyOf(P, C, Timings, first), lo, hi))
            && Holds(m, FamilyBlocks(P, C, TilFamily, lo, hi, first))
            && Holds(m, FamilyBlocks(P, C, OpVarsFamily, lo, hi, first))
            && Holds(m, FamilyBlocks(P, C, OpBodyFamily, lo, hi, first))
            && Holds(m, FamilyBlocks(P, C, LitFamily, lo, hi, first))
            && Holds(m, FamilyBlocks(P, C, FnFamily, lo, hi, first))
            && (first ==> Holds(m, InitSpec(P)))
            && Holds(m, GoalOutput(P, C, hi).asserted)
  {
    var timing := Block(BodyOf(P, C, Timings, first), lo, hi);
    var tils := FamilyBlocks(P, C, TilFamily, lo, hi, first);
    var init := if first then InitSpec(P) else [];
    var goal := GoalOutput(P, C, hi).asserted;
    var vars := FamilyBlocks(P, C, OpVarsFamily, lo, hi, first);
    var bodies := FamilyBlocks(P, C, OpBodyFamily, lo, hi, first);
    var lits := FamilyBlocks(P, C, LitFamily, lo, hi, first);
    var fns := FamilyBlocks(P, C, FnFamily, lo, hi, first);
    assert EncodeSpec(P, C, lo, hi) == timing + tils + init + goal + vars + bodies + lits + fns;
    HoldsEight(m, timing, tils, init, goal, vars, bodies, lits, fns);
  }

  lemma EncodeHolds(P: Problem, C: Cascade, m: Model, lo: nat, hi: nat, first: bool)
    requires hi > 0 && first == (lo == 0)
    ensures Holds(m, EncodeSpec(P, C, lo, hi)) <==>
            && (forall h | lo <= h < hi :: BodiesHold(P, C, m, h, first))
            && (first ==> Holds(m, InitSpec(P)))
            && Holds(m, GoalOutput(P, C, hi).asserted)
  {
    EncodeParts(P, C, m, lo, hi, first);
    FamiliesHold(P, C, m, lo, hi, first);
    BlocksAreBodies(P, C, m, lo, hi, first);
    if Holds(m, EncodeSpec(P, C, lo, hi)) {
      forall family
        ensures Holds(m, FamilyBlocks(P, C, family, lo, hi, first))
      {
        match family
        case TilFamily =>
        case OpVarsFamily =>
        case OpBodyFamily =>
        case LitFamily =>
        case FnFamily =>
      }
    }
  }

  // ----- The clauses of one happening -----

  ghost predicate TimingClause(m: Model, h: nat) {
    && m.r(Gap(h)) >= 0.1
    && (if h == 0 then m.r(Time(0)) == 0.0
        else m.r(Time(h)) == m.r(Time(h - 1)) + m.r(Gap(h - 1)) && m.r(Time(h)) > m.r(Time(h - 1)))
  }

  ghost predicate OpVarsClause(P: Problem, m: Model, i: nat, h: nat)
    requires i < |P.ops|
  {
    match P.ops[i]
    case Durative(_, _, _, _, _, _) => RunClause(m, i, h)
    case Instant(_, _) => m.r(Remaining(i, h)) == 0.0
    case Event(_, _) => true
    case Process(_) => RunClause(m, i, h)
  }

  ghost predicate OpBodyClause(P: Problem, C: Cascade, m: Model, i: nat, h: nat, first: bool)
    requires i < |P.ops|
  {
    var seen := if first then i + 1 else |P.ops|;
    match P.ops[i]
    case Durative(_, _, _, _, _, _) => DurativeClause(P, C, m, i, h, seen)
    case Instant(_, _) => m.b(Start(i, h)) ==> InstantStart(P, C, m, i, h, seen)
    case Event(_, _) => forall b | 0 <= b < C - 1 :: EventClause(P, C, m, i, h, b)
    case Process(_) => ProcessClause(P, C, m, i, h)
  }

  ghost predicate LitClause(P: Problem, C: Cascade, m: Model, l: nat, h: nat) {
    && (forall b | 0 < b < C :: LitExplained(P, C, m, l, h, b))
    && (h > 0 ==> OpeningExplained(P, C, m, l, h))
  }

  ghost predicate FnClause(P: Problem, C: Cascade, m: Model, fn: nat, h: nat) {
    forall b | 0 < b < C :: FnExplained(P, C, m, fn, h, b)
  }

  ghost predicate FlowClause(P: Problem, C: Cascade, m: Model, fn: nat, h: nat)
    requires fn < P.fns == |P.flows|
  {
    h > 0 ==> FlowStep(P, C, HappeningAt(P, C, m, h - 1), HappeningAt(P, C, m, h), fn)
  }

  ghost predicate Clause(P: Problem, C: Cascade, m: Model, loop: Loop, h: nat, first: bool)
    requires P.fns == |P.flows| && InProblem(P, loop)
  {
    match loop
    case Timings => TimingClause(m, h)
    case TilLoop(k) => TilClause(P, m, k, h)
    case OpVars(i) => OpVarsClause(P, m, i, h)
    case OpBody(i) => OpBodyClause(P, C, m, i, h, first)
    case LitSupport(l) => LitClause(P, C, m, l, h)
    case FnSupports(fn) => FnClause(P, C, m, fn, h)
    case FnFlows(fn) => FlowClause(P, C, m, fn, h)
  }

  ghost predicate Clauses(P: Problem, C: Cascade, m: Model, h: nat, first: bool)
    requires P.fns == |P.flows|
  {
    forall loop: Loop | InProblem(P, loop) :: Clause(P, C, m, loop, h, first)
  }

  lemma OpVarsMean(P: Problem, m: Model, i: nat, h: nat)
    requires i < |P.ops|
    ensures Holds(m, OpVarsAt(P, i, h)) <==> OpVarsClause(P, m, i, h)
  {
    match P.ops[i]
    case Durative(_, _, _, _, _, _) => RunVarsMean(m, i, h, false);
    case Instant(_, _) =>
      HoldsOne(m, Eq(Var(Remaining(i, h)), Const(0.0)));
    case Event(_, _) =>
    case Process(_) => RunVarsMean(m, i, h, true);
  }

  lemma OpBodyMeans(P: Problem, C: Cascade, m: Model, i: nat, h: nat, first: bool)
    requires FaithfulProblem(P) && i < |P.ops|
    ensures Holds(m, OpBodyAt(P, C, i, h, first)) <==> OpBodyClause(P, C, m, i, h, first)
  {
    var seen := if first then i + 1 else |P.ops|;
    match P.ops[i]
    case Durative(_, _, _, _, _, _) => DurativeBodyMeans(P, C, m, i, h, seen);
    case Instant(_, _) => InstantBodyMeans(P, C, m, i, h, seen);
    case Event(_, _) => EventLayersMean(P, C, m, i, h);
    case Process(_) => ProcessBodyMeans(P, C, m, i, h);
  }

  /** Timing and til clauses need nothing else. */
  lemma FirstLoopsMean(P: Problem, C: Cascade, m: Model, loop: Loop, h: nat, first: bool)
    requires FaithfulProblem(P) && InProblem(P, loop) && (loop.Timings? || loop.TilLoop?)
    ensures Holds(m, BodyOf(P, C, loop, first)(h)) <==> Clause(P, C, m, loop, h, first)
  {
    match loop
    case Timings => TimingMeans(m, h);
    case TilLoop(k) => TilBodyMeans(P, m, k, h);
  }

  lemma OpLoopsMean(P: Problem, C: Cascade, m: Model, loop: Loop, h: nat, first: bool)
    requires FaithfulProblem(P) && InProblem(P, loop) && (loop.OpVars? || loop.OpBody?)
    ensures Holds(m, BodyOf(P, C, loop, first)(h)) <==> Clause(P, C, m, loop, h, first)
  {
    match loop
    case OpVars(i) => OpVarsMean(P, m, i, h);
    case OpBody(i) => OpBodyMeans(P, C, m, i, h, first);
  }

  lemma FrameLoopsMean(P: Problem, C: Cascade, m: Model, loop: Loop, h: nat, first: bool)
    requires FaithfulProblem(P) && InProblem(P, loop) && (loop.LitSupport? || loop.FnSupports? || loop.FnFlows?)
    requires TilsRead(P, m, h) && TimingClause(m, h)
    ensures Holds(m, BodyOf(P, C, loop, first)(h)) <==> Clause(P, C, m, loop, h, first)
  {
    match loop
    case LitSupport(l) => LitAtMeans(P, C, m, l, h);
    case FnSupports(fn) => FnLayersMean(P, C, m, fn, h);
    case FnFlows(fn) => FlowAtMeans(P, C, m, fn, h);
  }

  lemma TilClausesRead(P: Problem, C: Cascade, m: Model, h: nat, first: bool)
    requires P.fns == |P.flows|
    requires forall k | 0 <= k < |P.tils| :: Clause(P, C, m, TilLoop(k), h, first)
    ensures TilsRead(P, m, h)
  {
    forall k | 0 <= k < |P.tils|
      ensures m.b(TilAt(k, h)) <==> P.tils[k].stamp == m.r(Time(h))
    {
      assert Clause(P, C, m, TilLoop(k), h, first);
    }
  }

  /** Satisfying every loop body at a happening is satisfying its clauses. */
  lemma BodiesAreClauses(P: Problem, C: Cascade, m: Model, h: nat, first: bool)
    requires FaithfulProblem(P)
    ensures BodiesHold(P, C, m, h, first) <==> Clauses(P, C, m, h, first)
  {
    forall loop: Loop | InProblem(P, loop) && (loop.Timings? || loop.TilLoop?)
      ensures Holds(m, BodyOf(P, C, loop, first)(h)) <==> Clause(P, C, m, loop, h, first)
    {
      FirstLoopsMean(P, C, m, loop, h, first);
    }
    if BodiesHold(P, C, m, h, first) || Clauses(P, C, m, h, first) {
      forall k | 0 <= k < |P.tils|
        ensures Clause(P, C, m, TilLoop(k), h, first)
      {
        assert InProblem(P, TilLoop(k));
      }
      TilClausesRead(P, C, m, h, first);
      assert InProblem(P, Timings) && Clause(P, C, m, Timings, h, first);
      forall loop: Loop | InProblem(P, loop) && !loop.Timings? && !loop.TilLoop?
        ensures Holds(m, BodyOf(P, C, loop, first)(h)) <==> Clause(P, C, m, loop, h, first)
      {
        if loop.OpVars? || loop.OpBody? {
          OpLoopsMean(P, C, m, loop, h, first);
        } else {
          FrameLoopsMean(P, C, m, loop, h, first);
        }
      }
    }
  }
}
