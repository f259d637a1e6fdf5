/** Plans the fluent encoding cannot express, however many happenings it is given: a chain of actions
    each of which needs the same literal. */
module FluentWitness {
  import opened Smt
  import opened Pddl
  import opened HappeningSpec
  import opened Semantics
  import opened Decoding
  import opened BlockMeaning
  import opened LayerMeaning
  import opened FrameMeaning
  import opened FlowMeaning
  import opened EncodeMeaning
  import opened Soundness
  import opened Completeness
  import opened FluentSpec
  import opened FluentMeaning
  import opened FluentRefinement
  import opened FluentExpressiveness

  /** Link k needs literal 0 and literal k, and adds literal k + 1. */
  function Link(k: nat): Op {
    Instant(Conj([Simple(0), Simple(k)]), Effects([k + 1], [], []))
  }

  function Links(n: nat): (ops: seq<Op>)
    ensures |ops| == n && forall k | 0 <= k < n :: ops[k] == Link(k)
  {
    seq(n, k requires 0 <= k < n => Link(k))
  }

  /** Literal 0 is given, literal n is wanted. */
  function Chain(n: nat): Problem {
    Problem(n + 1, 0, [0], [], [], Links(n), Simple(n), [])
  }

  lemma LinkIsFaithful(n: nat, k: nat)
    requires k < n
    ensures WfOp(Chain(n), Link(k)) && FaithfulOp(Link(k))
  {
    var gs := [Simple(0), Simple(k)];
    assert forall g | g in gs :: g == Simple(0) || g == Simple(k);
  }

  lemma ChainIsFaithful(n: nat)
    ensures FaithfulProblem(Chain(n)) && Propositional(Chain(n))
  {
    forall o | o in Links(n)
      ensures WfOp(Chain(n), o) && FaithfulOp(o) && o.Instant?
    {
      var k :| 0 <= k < n && Links(n)[k] == o;
      LinkIsFaithful(n, k);
    }
  }

  // ----- A plan of n happenings -----

  function UpTo(h: nat): (s: set<nat>)
    ensures forall l: nat :: l in s <==> l <= h
  {
    if h == 0 then {0} else UpTo(h - 1) + {h}
  }

  /** Link h acts at happening h. */
  function Step(h: nat): Happening {
    Happening(h as real, [State(UpTo(h), []), State(UpTo(h + 1), [])], [{}], {h}, {}, map[], {})
  }

  function ChainRun(n: nat): (run: Run)
    ensures |run| == n && forall h | 0 <= h < n :: run[h] == Step(h)
  {
    seq(n, h requires 0 <= h < n => Step(h))
  }

  lemma StepIsShaped(n: nat, h: nat)
    requires h < n
    ensures WellShaped(Chain(n), 2, Step(h))
  {
  }

  lemma StepAffects(n: nat, h: nat, role: Role, l: nat)
    requires h < n
    ensures Affects(Chain(n), Step(h).starts, role, l) <==> role == StartAdd && l == h + 1
    ensures !Affects(Chain(n), Step(h).ends, role, l) && !Affects(Chain(n), Step(h).events[0], role, l)
  {
    assert h in Step(h).starts && Chain(n).ops[h] == Link(h);
  }

  lemma StepLayers(n: nat, h: nat)
    requires h < n
    ensures WellShaped(Chain(n), 2, Step(h)) && LayerStep(Chain(n), 2, Step(h), 0)
  {
    StepIsShaped(n, h);
    forall l | 0 <= l < n + 1
      ensures Updates(l in UpTo(h), l in UpTo(h + 1), Added(Chain(n), 2, Step(h), 0, l), Deleted(Chain(n), 2, Step(h), 0, l))
    {
      StepAffects(n, h, EventAdd, l);
      StepAffects(n, h, EventDel, l);
      StepAffects(n, h, StartAdd, l);
      StepAffects(n, h, StartDel, l);
      StepAffects(n, h, EndAdd, l);
      StepAffects(n, h, EndDel, l);
    }
  }

  lemma StepIsWithin(n: nat, h: nat)
    requires h < n
    ensures Within(Chain(n), 2, Step(h))
  {
    StepLayers(n, h);
    var P, x := Chain(n), Step(h);
    var gs := [Simple(0), Simple(h)];
    assert forall g | g in gs :: g == Simple(0) || g == Simple(h);
    assert StartAllowed(P, 2, x, h) by {
      assert P.ops[h] == Link(h);
      assert Sat(Simple(0), x.layers[0], 0.0) && Sat(Simple(h), x.layers[0], 0.0);
      assert Sat(Conj(gs), x.layers[0], 0.0);
    }
    forall i | 0 <= i < |P.ops|
      ensures !P.ops[i].Event? && !P.ops[i].Process?
    {
      assert P.ops[i] == Link(i);
    }
  }

  lemma NoTil(n: nat, time: real, role: Role, l: nat)
    ensures !TilAffects(Chain(n), time, role, l)
  {
  }

  lemma StepsFollow(n: nat, h: nat)
    requires 0 < h < n
    ensures WellShaped(Chain(n), 2, Step(h - 1)) && WellShaped(Chain(n), 2, Step(h))
    ensures Between(Chain(n), 2, Step(h - 1), Step(h))
  {
    var P, p, x := Chain(n), Step(h - 1), Step(h);
    StepIsShaped(n, h - 1);
    StepIsShaped(n, h);
    assert x.time - p.time == 1.0;
    forall l | 0 <= l < P.lits
      ensures Updates(l in p.layers[1].lits, l in x.layers[0].lits, TilAffects(P, x.time, TilAdd, l), TilAffects(P, x.time, TilDel, l))
    {
      NoTil(n, x.time, TilAdd, l);
      NoTil(n, x.time, TilDel, l);
    }
    assert LitsOpen(P, 2, p, x);
    forall i: nat
      ensures DueStepFor(P, p.due, x, i)
    {
      assert i < n ==> P.ops[i] == Link(i);
    }
    forall i | 0 <= i < |P.ops|
      ensures P.ops[i].Instant?
    {
      assert P.ops[i] == Link(i);
    }
    assert NoneCrossed(P, 2, p, x);
  }

  lemma FirstIsInitial(n: nat)
    requires n > 0
    ensures WellShaped(Chain(n), 2, Step(0)) && Initial(Chain(n), 2, Step(0))
  {
    var P, x := Chain(n), Step(0);
    StepIsShaped(n, 0);
    forall l | 0 <= l < P.lits
      ensures !TilAffects(P, x.time, TilAdd, l) && !TilAffects(P, x.time, TilDel, l)
    {
      NoTil(n, x.time, TilAdd, l);
      NoTil(n, x.time, TilDel, l);
    }
    forall i: nat
      ensures DueStepFor(P, map[], x, i)
    {
      assert i < n ==> P.ops[i] == Link(i);
    }
  }

  lemma ChainIsPlan(n: nat)
    requires n > 0
    ensures Legal(Chain(n), 2, ChainRun(n)) && Reaches(Chain(n), 2, ChainRun(n))
    ensures forall h | 0 <= h < n :: Separated(Chain(n), ChainRun(n)[h], true)
  {
    var P, run := Chain(n), ChainRun(n);
    forall h | 0 <= h < n
      ensures LegalAt(P, 2, run, h)
    {
      StepIsWithin(n, h);
      if h == 0 {
        FirstIsInitial(n);
      } else {
        StepsFollow(n, h);
      }
    }
    StepIsShaped(n, n - 1);
    assert Sat(Simple(n), Step(n - 1).layers[1], 0.0);
  }

  // ----- Every plan needs literal 0 at n happenings -----

  lemma BodyHolds(P: Problem, d: Model, H: nat, loop: Loop, h: nat)
    requires h < H && InProblem(P, loop) && Holds(d, EncodeSpec(P, 2, 0, H))
    ensures Holds(d, At(P, 2, loop, h, true))
  {
    EncodeHolds(P, 2, d, 0, H, true);
    assert BodiesHold(P, 2, d, h, true);
    assert Holds(d, BodyOf(P, 2, loop, true)(h));
  }

  lemma ChainLiteral(n: nat, d: Model, H: nat, l: nat, h: nat)
    requires H > 0 && l <= n && h < H && Holds(d, EncodeSpec(Chain(n), 2, 0, H))
    ensures LitExplained(Chain(n), 2, d, l, h, 1) && (h > 0 ==> (d.b(Lit(l, h, 0)) <==> d.b(Lit(l, h - 1, 1))))
  {
    var P := Chain(n);
    BodyHolds(P, d, H, LitSupport(l), h);
    LitAtMeans(P, 2, d, l, h);
    if h > 0 {
      assert OpeningExplained(P, 2, d, l, h);
      NoTil(n, d.r(Time(h)), TilAdd, l);
      NoTil(n, d.r(Time(h)), TilDel, l);
    }
  }

  lemma OnlyLinkAdds(n: nat, d: Model, k: nat, h: nat)
    requires k < n && !d.b(Start(k, h))
    ensures
      var x := HappeningAt(Chain(n), 2, d, h);
      && !Affects(Chain(n), x.starts, StartAdd, k + 1) && !Affects(Chain(n), x.ends, EndAdd, k + 1)
      && !Affects(Chain(n), x.events[0], EventAdd, k + 1)
  {
    var P := Chain(n);
    forall i | 0 <= i < |P.ops|
      ensures P.ops[i] == Link(i)
    {
    }
  }

  lemma NotAddedHere(n: nat, d: Model, H: nat, k: nat, h: nat)
    requires H > 0 && k < n && h < H && Holds(d, EncodeSpec(Chain(n), 2, 0, H)) && d.b(Lit(k + 1, h, 1)) && !d.b(Start(k, h))
    ensures d.b(Lit(k + 1, h, 0)) && (h > 0 ==> d.b(Lit(k + 1, h - 1, 1)))
  {
    ChainLiteral(n, d, H, k + 1, h);
    OnlyLinkAdds(n, d, k, h);
  }

  lemma NotInitially(n: nat, d: Model, H: nat, k: nat)
    requires H > 0 && k < n && Holds(d, EncodeSpec(Chain(n), 2, 0, H))
    ensures !d.b(Lit(k + 1, 0, 0))
  {
    ChainIsFaithful(n);
    EncodeHolds(Chain(n), 2, d, 0, H, true);
    InitMeans(Chain(n), d);
  }

  /** A link acts where its literal is true already. */
  lemma LinkNeeds(n: nat, d: Model, H: nat, k: nat, h: nat)
    requires H > 0 && k < n && h < H && Holds(d, EncodeSpec(Chain(n), 2, 0, H)) && d.b(Start(k, h))
    ensures d.b(Lit(k, h, 0)) && Needed(Chain(n), d, H, 0, h)
  {
    var P := Chain(n);
    ChainIsFaithful(n);
    BodyHolds(P, d, H, OpBody(k), h);
    OpBodyMeans(P, 2, d, k, h, true);
    var gs := [Simple(0), Simple(k)];
    assert P.ops[k] == Link(k) && gs[1] in gs;
    assert Sat(Conj(gs), StateAt(P, d, h, 0), d.r(Remaining(k, h)));
    assert Sat(gs[1], StateAt(P, d, h, 0), d.r(Remaining(k, h)));
    assert FlattenAll(gs, false) == [LitAtom(false, 0)] + FlattenAll(gs[1..], false);
    assert LitAtom(false, 0) in Atoms(Conj(gs));
    assert NeededBy(P, d, k, 0, h);
  }

  /** What the encoding says of link k at happening h. */
  ghost predicate LinkFacts(n: nat, d: Model, H: nat, k: nat, h: nat) {
    && (d.b(Start(k, h)) ==> d.b(Lit(k, h, 0)) && Needed(Chain(n), d, H, 0, h))
    && (d.b(Lit(k + 1, h, 1)) ==> d.b(Start(k, h)) || (h > 0 && d.b(Lit(k + 1, h - 1, 1))))
    && (d.b(Lit(k + 1, h, 0)) ==> h > 0 && d.b(Lit(k + 1, h - 1, 1)))
  }

  ghost predicate ChainFacts(n: nat, d: Model, H: nat) {
    forall k, h | 0 <= k < n && 0 <= h < H :: LinkFacts(n, d, H, k, h)
  }

  lemma WhenLinkActs(n: nat, d: Model, H: nat, k: nat, h: nat)
    requires H > 0 && k < n && h < H && Holds(d, EncodeSpec(Chain(n), 2, 0, H))
    ensures d.b(Start(k, h)) ==> d.b(Lit(k, h, 0)) && Needed(Chain(n), d, H, 0, h)
  {
    if d.b(Start(k, h)) {
      LinkNeeds(n, d, H, k, h);
    }
  }

  lemma WhenOpen(n: nat, d: Model, H: nat, k: nat, h: nat)
    requires H > 0 && k < n && h < H && Holds(d, EncodeSpec(Chain(n), 2, 0, H))
    ensures d.b(Lit(k + 1, h, 0)) ==> h > 0 && d.b(Lit(k + 1, h - 1, 1))
  {
    if h == 0 {
      NotInitially(n, d, H, k);
    } else {
      ChainLiteral(n, d, H, k + 1, h);
    }
  }

  lemma WhenAdded(n: nat, d: Model, H: nat, k: nat, h: nat)
    requires H > 0 && k < n && h < H && Holds(d, EncodeSpec(Chain(n), 2, 0, H))
    ensures d.b(Lit(k + 1, h, 1)) ==> d.b(Start(k, h)) || d.b(Lit(k + 1, h, 0))
  {
    if d.b(Lit(k + 1, h, 1)) && !d.b(Start(k, h)) {
      NotAddedHere(n, d, H, k, h);
    }
  }

  lemma Facts(n: nat, d: Model, H: nat, k: nat, h: nat)
    requires d.b(Start(k, h)) ==> d.b(Lit(k, h, 0)) && Needed(Chain(n), d, H, 0, h)
    requires d.b(Lit(k + 1, h, 0)) ==> h > 0 && d.b(Lit(k + 1, h - 1, 1))
    requires d.b(Lit(k + 1, h, 1)) ==> d.b(Start(k, h)) || d.b(Lit(k + 1, h, 0))
    ensures LinkFacts(n, d, H, k, h)
  {
  }

  lemma LinkHolds(n: nat, d: Model, H: nat, k: nat, h: nat)
    requires H > 0 && k < n && h < H && Holds(d, EncodeSpec(Chain(n), 2, 0, H))
    ensures LinkFacts(n, d, H, k, h)
  {
    WhenLinkActs(n, d, H, k, h);
    WhenOpen(n, d, H, k, h);
    WhenAdded(n, d, H, k, h);
    Facts(n, d, H, k, h);
  }

  /** A literal of the chain that is true has been added by its link. */
  lemma {:induction false} AddedBefore(n: nat, d: Model, H: nat, k: nat, h: nat) returns (g: nat)
    requires ChainFacts(n, d, H) && k < n && h < H && d.b(Lit(k + 1, h, 1))
    ensures g <= h && d.b(Start(k, g))
    decreases h
  {
    assert LinkFacts(n, d, H, k, h);
    if d.b(Start(k, h)) {
      g := h;
    } else {
      g := AddedBefore(n, d, H, k, h - 1);
    }
  }

  /** Happenings up to h where the first k + 1 links act, as many as there are links. */
  lemma {:induction false} NeededOften(n: nat, d: Model, H: nat, k: nat, h: nat) returns (hs: set<nat>)
    requires ChainFacts(n, d, H) && k < n && h < H && d.b(Lit(k + 1, h, 1))
    ensures |hs| == k + 1 && forall g | g in hs :: g <= h && Needed(Chain(n), d, H, 0, g)
    decreases k
  {
    var g := AddedBefore(n, d, H, k, h);
    assert LinkFacts(n, d, H, k, g);
    if k == 0 {
      hs := {g};
    } else {
      assert LinkFacts(n, d, H, k - 1, g);
      var earlier := NeededOften(n, d, H, k - 1, g - 1);
      hs := earlier + {g};
    }
  }

  lemma SubsetSize(a: set<nat>, b: set<nat>)
    requires a <= b
    ensures |a| <= |b|
  {
    assert b == a + (b - a);
  }

  lemma GoalInModel(P: Problem, C: Cascade, d: Model, H: nat)
    requires FaithfulProblem(P) && H > 0 && Holds(d, EncodeSpec(P, C, 0, H)) && Holds(d, GoalSpec(P, C, H))
    ensures Sat(P.goal, StateAt(P, d, H - 1, C - 1), 0.0)
  {
    EncodeHolds(P, C, d, 0, H, true);
    HoldsConcat(d, GoalOutput(P, C, H).goals, NothingRuns(P, |P.ops|, H));
    GoalOutputMeans(P, C, d, H);
  }

  lemma GoalIsAdded(n: nat, d: Model, H: nat)
    requires H > 0 && Holds(d, EncodeSpec(Chain(n), 2, 0, H)) && Holds(d, GoalSpec(Chain(n), 2, H))
    ensures d.b(Lit(n, H - 1, 1))
  {
    ChainIsFaithful(n);
    GoalInModel(Chain(n), 2, d, H);
    assert Sat(Simple(n), StateAt(Chain(n), d, H - 1, 1), 0.0);
  }

  lemma ChainHolds(n: nat, d: Model, H: nat)
    requires H > 0 && Holds(d, EncodeSpec(Chain(n), 2, 0, H))
    ensures ChainFacts(n, d, H)
  {
    forall k, h | 0 <= k < n && 0 <= h < H
      ensures LinkFacts(n, d, H, k, h)
    {
      LinkHolds(n, d, H, k, h);
    }
  }

  lemma ChainNeedsMany(n: nat, d: Model, H: nat)
    requires n > 0 && H > 0 && ChainFacts(n, d, H) && d.b(Lit(n, H - 1, 1))
    ensures |NeededAt(Chain(n), d, H, 0)| >= n
  {
    var hs := NeededOften(n, d, H, n - 1, H - 1);
    forall g | g in hs
      ensures g in NeededAt(Chain(n), d, H, 0)
    {
    }
    SubsetSize(hs, NeededAt(Chain(n), d, H, 0));
  }

  /** Witness: with four links or more there is a plan, which the happening encoding finds, and the
      fluent encoding is unsatisfiable with its goals for every number of happenings. */
  lemma ChainIsNotExpressible(n: nat, H: nat)
    requires n > LiteralBound && H > 0
    ensures exists d :: Holds(d, EncodeSpec(Chain(n), 2, 0, n)) && Holds(d, GoalSpec(Chain(n), 2, n))
    ensures !exists m :: SparseSolves(Chain(n), H, m)
  {
    ChainIsFaithful(n);
    ChainIsPlan(n);
    EncodingComplete(Chain(n), 2, ChainRun(n));
    var d := Lift(Chain(n), ChainRun(n));
    assert Holds(d, EncodeSpec(Chain(n), 2, 0, n)) && Holds(d, GoalSpec(Chain(n), 2, n));
    SparseIffFewNeeded(Chain(n), H);
    if e :| DenseSolves(Chain(n), H, e) {
      ChainHolds(n, e, H);
      GoalIsAdded(n, e, H);
      ChainNeedsMany(n, e, H);
    }
  }
}
