/** Every model of the encoding is a legal run. */
module Soundness {
  import opened Smt
  import opened Pddl
  import opened HappeningSpec
  import opened Semantics
  import opened Decoding
  import opened BlockMeaning
  import opened LayerMeaning
  import opened EventMeaning
  import opened FrameMeaning
  import opened FlowMeaning
  import opened EncodeMeaning

  // ----- Inside a happening -----

  lemma EventEffect(P: Problem, C: Cascade, m: Model, h: nat, first: bool, b: nat, l: nat)
    requires P.fns == |P.flows| && Clauses(P, C, m, h, first) && b < C - 1
    ensures
      var x := HappeningAt(P, C, m, h);
      && (Affects(P, x.events[b], EventAdd, l) ==> l in StateAt(P, m, h, b + 1).lits)
      && (Affects(P, x.events[b], EventDel, l) ==> l !in StateAt(P, m, h, b + 1).lits)
  {
    var x := HappeningAt(P, C, m, h);
    forall i | i in x.events[b]
      ensures EffectsShow(P.ops[i].eff, StateAt(P, m, h, b + 1))
    {
      assert Clause(P, C, m, OpBody(i), h, first);
      assert EventClause(P, C, m, i, h, b);
    }
  }

  lemma StartEffect(P: Problem, C: Cascade, m: Model, h: nat, first: bool, l: nat)
    requires P.fns == |P.flows| && Clauses(P, C, m, h, first)
    ensures
      var x := HappeningAt(P, C, m, h);
      && (Affects(P, x.starts, StartAdd, l) ==> l in StateAt(P, m, h, C - 1).lits)
      && (Affects(P, x.starts, StartDel, l) ==> l !in StateAt(P, m, h, C - 1).lits)
  {
    var x := HappeningAt(P, C, m, h);
    forall i | i in x.starts
      ensures EffectsShow(if P.ops[i].Durative? then P.ops[i].start else P.ops[i].eff, StateAt(P, m, h, C - 1))
    {
      assert Clause(P, C, m, OpBody(i), h, first);
    }
  }

  lemma EndEffect(P: Problem, C: Cascade, m: Model, h: nat, first: bool, l: nat)
    requires P.fns == |P.flows| && Clauses(P, C, m, h, first)
    ensures
      var x := HappeningAt(P, C, m, h);
      && (Affects(P, x.ends, EndAdd, l) ==> l in StateAt(P, m, h, C - 1).lits)
      && (Affects(P, x.ends, EndDel, l) ==> l !in StateAt(P, m, h, C - 1).lits)
  {
    var x := HappeningAt(P, C, m, h);
    forall i | i in x.ends
      ensures EffectsShow(P.ops[i].end, StateAt(P, m, h, C - 1))
    {
      assert Clause(P, C, m, OpBody(i), h, first);
    }
  }

  lemma LayerLitStep(P: Problem, C: Cascade, m: Model, h: nat, first: bool, b: nat, l: nat)
    requires P.fns == |P.flows| && Clauses(P, C, m, h, first) && b < C - 1 && l < P.lits
    ensures
      var x := HappeningAt(P, C, m, h);
      Updates(l in x.layers[b].lits, l in x.layers[b + 1].lits, Added(P, C, x, b, l), Deleted(P, C, x, b, l))
  {
    EventEffect(P, C, m, h, first, b, l);
    StartEffect(P, C, m, h, first, l);
    EndEffect(P, C, m, h, first, l);
    assert Clause(P, C, m, LitSupport(l), h, first);
    assert LitExplained(P, C, m, l, h, b + 1);
    assert l in StateAt(P, m, h, b).lits <==> m.b(Lit(l, h, b));
    assert l in StateAt(P, m, h, b + 1).lits <==> m.b(Lit(l, h, b + 1));
  }

  lemma LayerSound(P: Problem, C: Cascade, m: Model, h: nat, first: bool, b: nat)
    requires P.fns == |P.flows| && Clauses(P, C, m, h, first) && b < C - 1
    ensures LayerStep(P, C, HappeningAt(P, C, m, h), b)
  {
    var x := HappeningAt(P, C, m, h);
    forall l | 0 <= l < P.lits
      ensures Updates(l in x.layers[b].lits, l in x.layers[b + 1].lits, Added(P, C, x, b, l), Deleted(P, C, x, b, l))
    {
      LayerLitStep(P, C, m, h, first, b, l);
    }
    forall fn | 0 <= fn < P.fns
      ensures (b == C - 2 && Assigned(P, x, fn)) || x.layers[b].vals[fn] == x.layers[b + 1].vals[fn]
    {
      assert Clause(P, C, m, FnSupports(fn), h, first);
      assert FnExplained(P, C, m, fn, h, b + 1);
    }
  }

  lemma EventsSound(P: Problem, C: Cascade, m: Model, h: nat, first: bool)
    requires P.fns == |P.flows| && Clauses(P, C, m, h, first)
    ensures EventsFire(P, C, HappeningAt(P, C, m, h))
  {
    var x := HappeningAt(P, C, m, h);
    forall b, i | 0 <= b < C - 1 && 0 <= i < |P.ops| && P.ops[i].Event?
      ensures i in x.events[b] <==> Sat(P.ops[i].pre, x.layers[b], 0.0)
    {
      assert Clause(P, C, m, OpBody(i), h, first);
      assert EventClause(P, C, m, i, h, b);
    }
  }

  lemma ProcessesSound(P: Problem, C: Cascade, m: Model, h: nat, first: bool)
    requires P.fns == |P.flows| && Clauses(P, C, m, h, first)
    ensures ProcessesRun(P, C, HappeningAt(P, C, m, h))
  {
    var x := HappeningAt(P, C, m, h);
    forall i | 0 <= i < |P.ops| && P.ops[i].Process?
      ensures i in x.processes <==> Sat(P.ops[i].pre, x.layers[C - 1], 0.0)
    {
      assert Clause(P, C, m, OpBody(i), h, first);
    }
  }

  /** For durative actions: remaining time, running and due agree. */
  lemma DueReads(P: Problem, C: Cascade, m: Model, h: nat, first: bool, i: nat)
    requires P.fns == |P.flows| && Clauses(P, C, m, h, first) && IsDurative(P, i)
    ensures
      var x := HappeningAt(P, C, m, h);
      && RunClause(m, i, h)
      && (i in x.due <==> m.b(Running(i, h)))
      && (i in x.starts <==> m.b(Start(i, h)))
      && (i in x.ends <==> m.b(End(i, h)))
      && (i in x.due ==> x.due[i] == x.time + m.r(Remaining(i, h)))
      && DurationAt(x, i) == m.r(Remaining(i, h))
  {
    assert Clause(P, C, m, OpVars(i), h, first);
  }

  lemma StartSound(P: Problem, C: Cascade, m: Model, h: nat, first: bool, i: nat)
    requires P.fns == |P.flows| && Clauses(P, C, m, h, first)
    requires i in HappeningAt(P, C, m, h).starts
    ensures StartAllowed(P, C, HappeningAt(P, C, m, h), i)
  {
    assert Clause(P, C, m, OpBody(i), h, first);
    if P.ops[i].Durative? {
      DueReads(P, C, m, h, first, i);
    } else {
      assert Clause(P, C, m, OpVars(i), h, first);
    }
  }

  lemma EndSound(P: Problem, C: Cascade, m: Model, h: nat, first: bool, i: nat)
    requires P.fns == |P.flows| && Clauses(P, C, m, h, first)
    requires i in HappeningAt(P, C, m, h).ends
    ensures EndAllowed(P, C, HappeningAt(P, C, m, h), i)
  {
    assert Clause(P, C, m, OpBody(i), h, first);
    DueReads(P, C, m, h, first, i);
    assert m.r(Remaining(i, h)) == 0.0;
  }

  lemma RunningSound(P: Problem, C: Cascade, m: Model, h: nat, first: bool, i: nat)
    requires P.fns == |P.flows| && Clauses(P, C, m, h, first)
    requires i in HappeningAt(P, C, m, h).due
    ensures
      var x := HappeningAt(P, C, m, h);
      x.due[i] > x.time && Sat(P.ops[i].overAll, x.layers[C - 2], DurationAt(x, i))
  {
    DueReads(P, C, m, h, first, i);
    assert Clause(P, C, m, OpBody(i), h, first);
  }

  lemma ActionsSound(P: Problem, C: Cascade, m: Model, h: nat, first: bool)
    requires P.fns == |P.flows| && Clauses(P, C, m, h, first)
    ensures ActionsAllowed(P, C, HappeningAt(P, C, m, h))
  {
    var x := HappeningAt(P, C, m, h);
    forall i | i in x.starts
      ensures StartAllowed(P, C, x, i)
    {
      StartSound(P, C, m, h, first, i);
    }
    forall i | i in x.ends
      ensures EndAllowed(P, C, x, i)
    {
      EndSound(P, C, m, h, first, i);
    }
    forall i | i in x.due
      ensures x.due[i] > x.time && Sat(P.ops[i].overAll, x.layers[C - 2], DurationAt(x, i))
    {
      RunningSound(P, C, m, h, first, i);
    }
  }

  lemma WithinSound(P: Problem, C: Cascade, m: Model, h: nat, first: bool)
    requires P.fns == |P.flows| && Clauses(P, C, m, h, first)
    ensures Within(P, C, HappeningAt(P, C, m, h))
  {
    EventsSound(P, C, m, h, first);
    ProcessesSound(P, C, m, h, first);
    ActionsSound(P, C, m, h, first);
    forall b | 0 <= b < C - 1
      ensures LayerStep(P, C, HappeningAt(P, C, m, h), b)
    {
      LayerSound(P, C, m, h, first, b);
    }
  }

  // ----- Between happenings -----

  lemma TilReads(P: Problem, C: Cascade, m: Model, h: nat, first: bool, k: nat)
    requires P.fns == |P.flows| && Clauses(P, C, m, h, first) && k < |P.tils|
    ensures TilClause(P, m, k, h)
  {
    assert Clause(P, C, m, TilLoop(k), h, first);
  }

  /** Timed literals of the instant are true in layer 0, deleted ones false. */
  lemma TilEffect(P: Problem, C: Cascade, m: Model, h: nat, first: bool, l: nat)
    requires P.fns == |P.flows| && Clauses(P, C, m, h, first)
    ensures TilAffects(P, m.r(Time(h)), TilAdd, l) ==> l in StateAt(P, m, h, 0).lits
    ensures TilAffects(P, m.r(Time(h)), TilDel, l) ==> l !in StateAt(P, m, h, 0).lits
  {
    forall k | 0 <= k < |P.tils| && P.tils[k].stamp == m.r(Time(h))
      ensures EffectsShow(P.tils[k].eff, StateAt(P, m, h, 0))
    {
      TilReads(P, C, m, h, first, k);
    }
  }

  lemma TilAssignsSound(P: Problem, C: Cascade, m: Model, h: nat, first: bool)
    requires P.fns == |P.flows| && Clauses(P, C, m, h, first)
    ensures TilAssignsHold(P, HappeningAt(P, C, m, h))
  {
    var x := HappeningAt(P, C, m, h);
    forall k | 0 <= k < |P.tils| && P.tils[k].stamp == x.time
      ensures AssignsHold(P.tils[k].eff.assigns, x.layers[0].vals, x.layers[0].vals, 0.0)
    {
      TilReads(P, C, m, h, first, k);
    }
  }

  lemma OpeningSound(P: Problem, C: Cascade, m: Model, h: nat, first: bool, l: nat)
    requires P.fns == |P.flows| && Clauses(P, C, m, h, first) && h > 0 && l < P.lits
    ensures Updates(l in StateAt(P, m, h - 1, C - 1).lits, l in StateAt(P, m, h, 0).lits,
                    TilAffects(P, m.r(Time(h)), TilAdd, l), TilAffects(P, m.r(Time(h)), TilDel, l))
  {
    TilEffect(P, C, m, h, first, l);
    assert Clause(P, C, m, LitSupport(l), h, first);
    assert OpeningExplained(P, C, m, l, h);
  }

  lemma DueSoundFor(P: Problem, C: Cascade, m: Model, h: nat, first: bool, i: nat)
    requires P.fns == |P.flows| && h > 0 && Clauses(P, C, m, h - 1, first) && Clauses(P, C, m, h, first)
    ensures DueStepFor(P, HappeningAt(P, C, m, h - 1).due, HappeningAt(P, C, m, h), i)
  {
    if IsDurative(P, i) {
      DueReads(P, C, m, h - 1, first, i);
      DueReads(P, C, m, h, first, i);
      assert m.r(Time(h)) == m.r(Time(h - 1)) + m.r(Gap(h - 1)) by {
        assert Clause(P, C, m, Timings, h, first);
      }
    }
  }

  lemma DueSound(P: Problem, C: Cascade, m: Model, h: nat, first: bool)
    requires P.fns == |P.flows| && h > 0 && Clauses(P, C, m, h - 1, first) && Clauses(P, C, m, h, first)
    ensures DueStep(P, HappeningAt(P, C, m, h - 1).due, HappeningAt(P, C, m, h))
  {
    var p, x := HappeningAt(P, C, m, h - 1), HappeningAt(P, C, m, h);
    forall i: nat
      ensures DueStepFor(P, p.due, x, i)
    {
      DueSoundFor(P, C, m, h, first, i);
    }
  }

  lemma CrossingSound(P: Problem, C: Cascade, m: Model, h: nat, first: bool, i: nat)
    requires P.fns == |P.flows| && Clauses(P, C, m, h, first) && h > 0 && i < |P.ops|
    requires P.ops[i].Event? || (P.ops[i].Process? && i in HappeningAt(P, C, m, h - 1).processes)
    ensures NoCrossing(C, P.ops[i].pre, HappeningAt(P, C, m, h - 1), HappeningAt(P, C, m, h))
  {
    assert Clause(P, C, m, OpBody(i), h, first);
    if P.ops[i].Event? {
      assert EventClause(P, C, m, i, h, 0);
    }
  }

  lemma TimeSound(P: Problem, C: Cascade, m: Model, h: nat, first: bool)
    requires P.fns == |P.flows| && h > 0 && Clauses(P, C, m, h - 1, first) && Clauses(P, C, m, h, first)
    ensures TimePasses(P, HappeningAt(P, C, m, h - 1), HappeningAt(P, C, m, h))
  {
    assert Clause(P, C, m, Timings, h - 1, first) && Clause(P, C, m, Timings, h, first);
    forall k | 0 <= k < |P.tils|
      ensures !(m.r(Time(h - 1)) < P.tils[k].stamp < m.r(Time(h)))
    {
      TilReads(P, C, m, h, first, k);
    }
  }

  lemma BetweenSound(P: Problem, C: Cascade, m: Model, h: nat, first: bool)
    requires P.fns == |P.flows| && h > 0 && Clauses(P, C, m, h - 1, first) && Clauses(P, C, m, h, first)
    ensures Between(P, C, HappeningAt(P, C, m, h - 1), HappeningAt(P, C, m, h))
  {
    var p, x := HappeningAt(P, C, m, h - 1), HappeningAt(P, C, m, h);
    TimeSound(P, C, m, h, first);
    assert LitsOpen(P, C, p, x) by {
      forall l | 0 <= l < P.lits
        ensures Updates(l in p.layers[C - 1].lits, l in x.layers[0].lits,
                        TilAffects(P, x.time, TilAdd, l), TilAffects(P, x.time, TilDel, l))
      {
        OpeningSound(P, C, m, h, first, l);
      }
    }
    TilAssignsSound(P, C, m, h, first);
    assert FnsOpen(P, C, p, x) by {
      forall fn | 0 <= fn < P.fns
        ensures FlowStep(P, C, p, x, fn)
      {
        assert Clause(P, C, m, FnFlows(fn), h, first);
      }
    }
    DueSound(P, C, m, h, first);
    assert NoneCrossed(P, C, p, x) by {
      forall i | 0 <= i < |P.ops| && (P.ops[i].Event? || (P.ops[i].Process? && i in p.processes))
        ensures NoCrossing(C, P.ops[i].pre, p, x)
      {
        CrossingSound(P, C, m, h, first, i);
      }
    }
  }

  lemma InitialSound(P: Problem, C: Cascade, m: Model, first: bool)
    requires FaithfulProblem(P) && Clauses(P, C, m, 0, first) && Holds(m, InitSpec(P))
    ensures Initial(P, C, HappeningAt(P, C, m, 0))
  {
    var x := HappeningAt(P, C, m, 0);
    InitMeans(P, m);
    assert Clause(P, C, m, Timings, 0, first);
    forall l | 0 <= l < P.lits
      ensures (l in x.layers[0].lits <==> l in P.init)
      ensures TilAffects(P, x.time, TilAdd, l) ==> l in P.init
      ensures TilAffects(P, x.time, TilDel, l) ==> l !in P.init
    {
      TilEffect(P, C, m, 0, first, l);
    }
    TilAssignsSound(P, C, m, 0, first);
    forall i: nat
      ensures DueStepFor(P, map[], x, i)
    {
      if IsDurative(P, i) {
        DueReads(P, C, m, 0, first, i);
      }
    }
  }

  // ----- The run -----

  /** The start condition of i is free of start effects of j. */
  function StartAtoms(o: Op): seq<Atom> {
    match o
    case Durative(_, atStart, _, _, _, _) => Atoms(atStart)
    case Instant(pre, _) => Atoms(pre)
    case _ => []
  }

  /** What the mutex clauses amount to: in the first call only threats by operators with
      smaller numbers are excluded, afterwards all threats are. */
  ghost predicate Separated(P: Problem, x: Happening, first: bool) {
    forall i, j | i in x.starts && j in x.starts && i < |P.ops| && i != j && (first ==> j < i) ::
      !Threatens(P, j, StartAtoms(P.ops[i]))
  }

  lemma SeparatedSound(P: Problem, C: Cascade, m: Model, h: nat, first: bool)
    requires P.fns == |P.flows| && Clauses(P, C, m, h, first)
    ensures Separated(P, HappeningAt(P, C, m, h), first)
  {
    var x := HappeningAt(P, C, m, h);
    forall i, j | i in x.starts && j in x.starts && i < |P.ops| && i != j && (first ==> j < i)
      ensures !Threatens(P, j, StartAtoms(P.ops[i]))
    {
      assert Clause(P, C, m, OpBody(i), h, first);
      assert m.b(Start(j, h));
    }
  }

  lemma RunSound(P: Problem, C: Cascade, m: Model, H: nat, first: bool)
    requires FaithfulProblem(P) && H > 0
    requires forall h | 0 <= h < H :: Clauses(P, C, m, h, first)
    requires Holds(m, InitSpec(P))
    ensures Legal(P, C, Decode(P, C, m, H))
    ensures forall h | 0 <= h < H :: Separated(P, HappeningAt(P, C, m, h), first)
  {
    var run := Decode(P, C, m, H);
    forall h | 0 <= h < H
      ensures LegalAt(P, C, run, h)
    {
      assert Clauses(P, C, m, h, first);
      WithinSound(P, C, m, h, first);
      if h > 0 {
        assert Clauses(P, C, m, h - 1, first);
        BetweenSound(P, C, m, h, first);
      } else {
        InitialSound(P, C, m, first);
      }
    }
    forall h | 0 <= h < H
      ensures Separated(P, HappeningAt(P, C, m, h), first)
    {
      assert Clauses(P, C, m, h, first);
      SeparatedSound(P, C, m, h, first);
    }
  }

  lemma GoalListSplits(P: Problem, C: Cascade, m: Model, H: nat)
    requires H > 0
    ensures Holds(m, GoalSpec(P, C, H)) <==> Holds(m, GoalOutput(P, C, H).goals) && Holds(m, NothingRuns(P, |P.ops|, H))
  {
    HoldsConcat(m, GoalOutput(P, C, H).goals, NothingRuns(P, |P.ops|, H));
  }

  lemma GoalHolds(P: Problem, C: Cascade, m: Model, H: nat)
    requires FaithfulProblem(P) && H > 0
    requires Holds(m, GoalOutput(P, C, H).asserted) && Holds(m, GoalOutput(P, C, H).goals)
    ensures Sat(P.goal, StateAt(P, m, H - 1, C - 1), 0.0)
  {
    GoalOutputMeans(P, C, m, H);
  }

  lemma IdleEndSound(P: Problem, C: Cascade, m: Model, H: nat)
    requires H > 0 && Holds(m, NothingRuns(P, |P.ops|, H))
    ensures HappeningAt(P, C, m, H - 1).due == map[]
  {
    NothingRunsMeans(P, m, |P.ops|, H);
  }

  lemma GoalSound(P: Problem, C: Cascade, m: Model, H: nat)
    requires FaithfulProblem(P) && H > 0
    requires Holds(m, GoalOutput(P, C, H).asserted) && Holds(m, GoalSpec(P, C, H))
    ensures Reaches(P, C, Decode(P, C, m, H))
  {
    GoalListSplits(P, C, m, H);
    GoalHolds(P, C, m, H);
    IdleEndSound(P, C, m, H);
  }

  /** Soundness of the happening encoding: whatever satisfies the constraints of one call,
      decoded, is a legal run; if it satisfies the goal list too, the run reaches the goal. */
  lemma EncodingSound(P: Problem, C: Cascade, m: Model, H: nat)
    requires FaithfulProblem(P) && H > 0
    requires Holds(m, EncodeSpec(P, C, 0, H))
    ensures Legal(P, C, Decode(P, C, m, H))
    ensures forall h | 0 <= h < H :: Separated(P, Decode(P, C, m, H)[h], true)
    ensures Holds(m, GoalSpec(P, C, H)) ==> Reaches(P, C, Decode(P, C, m, H))
  {
    EncodeHolds(P, C, m, 0, H, true);
    forall h | 0 <= h < H
      ensures Clauses(P, C, m, h, true)
    {
      BodiesAreClauses(P, C, m, h, true);
    }
    RunSound(P, C, m, H, true);
    if Holds(m, GoalSpec(P, C, H)) {
      GoalSound(P, C, m, H);
    }
  }
}
