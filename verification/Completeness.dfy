/** Every legal run whose simultaneous starts the mutex clauses allow is a model. */
module Completeness {
  import opened Smt
  import opened Pddl
  import opened HappeningSpec
  import opened Semantics
  import opened Decoding
  import opened BlockMeaning
  import opened LayerMeaning
  import opened EventMeaning
  import opened FrameMeaning
  import opened FlowMeaning
  import opened EncodeMeaning
  import opened Soundness

  // ----- Lifting a run to a model -----

  /** When a process that runs after happening h stops; past the end if it does not. */
  function StopTime(run: Run, i: nat, h: nat): real
    requires h < |run|
    decreases |run| - h
  {
    if h == |run| - 1 then run[h].time + 1.0
    else if i in run[h + 1].processes then StopTime(run, i, h + 1)
    else run[h + 1].time
  }

  function RemainingAt(run: Run, i: nat, h: nat): real
    requires h < |run|
  {
    if i in run[h].due then run[h].due[i] - run[h].time
    else if i in run[h].processes then StopTime(run, i, h) - run[h].time
    else 0.0
  }

  ghost function LiftReal(run: Run, v: RealVar): real {
    match v
    case Time(h) => if h < |run| then run[h].time else 0.0
    case Gap(h) => if h + 1 < |run| then run[h + 1].time - run[h].time else 0.1
    case Remaining(i, h) => if h < |run| then RemainingAt(run, i, h) else 0.0
    case Value(fn, h, b) =>
      if h < |run| && b < |run[h].layers| && fn < |run[h].layers[b].vals| then run[h].layers[b].vals[fn] else 0.0
    case SlotTime(_, _) => 0.0
  }

  ghost function Reals(run: Run): RealVar -> real {
    v => LiftReal(run, v)
  }

  ghost predicate RunsAt(run: Run, i: nat, h: nat) {
    h < |run| && RunsAfter(run[h], i)
  }

  predicate ProcessRuns(P: Problem, run: Run, i: nat, h: nat) {
    i < |P.ops| && P.ops[i].Process? && h < |run| && i in run[h].processes
  }

  /** Start and end of a process are read off its running; those of actions are recorded. */
  ghost predicate LiftBool(P: Problem, run: Run, v: BoolVar) {
    match v
    case Lit(l, h, b) => h < |run| && b < |run[h].layers| && l in run[h].layers[b].lits
    case Start(i, h) =>
      h < |run| && (i in run[h].starts || (ProcessRuns(P, run, i, h) && !(h > 0 && ProcessRuns(P, run, i, h - 1))))
    case End(i, h) =>
      h < |run| && (i in run[h].ends || (!ProcessRuns(P, run, i, h) && h > 0 && ProcessRuns(P, run, i, h - 1)))
    case Running(i, h) => RunsAt(run, i, h)
    case Fired(i, h, b) => h < |run| && b < |run[h].events| && i in run[h].events[b]
    case TilAt(k, h) => h < |run| && k < |P.tils| && P.tils[k].stamp == run[h].time
    case GoalFlag(com) => Eval(com, Model(_ => false, Reals(run)))
    case SlotLit(_, _, _) => false
  }

  ghost function Lift(P: Problem, run: Run): Model {
    Model(v => LiftBool(P, run, v), Reals(run))
  }

  lemma ValueOfReals(t: Term, m: Model, m': Model)
    requires m.r == m'.r
    ensures ValueOf(t, m) == ValueOf(t, m')
  {
  }

  lemma LiftFlags(P: Problem, run: Run)
    ensures FlagsTrue(Lift(P, run))
  {
    var m, m' := Lift(P, run), Model(_ => false, Reals(run));
    forall op, l, r
      ensures m.b(GoalFlag(CompareTerms(op, l, r))) <==> Eval(CompareTerms(op, l, r), m)
    {
      CompareTermsMeans(m, op, l, r);
      CompareTermsMeans(m', op, l, r);
      ValueOfReals(l, m, m');
      ValueOfReals(r, m, m');
    }
  }

  lemma LiftState(P: Problem, C: Cascade, run: Run, h: nat, b: nat)
    requires h < |run| && WellShaped(P, C, run[h]) && b < C
    ensures StateAt(P, Lift(P, run), h, b) == run[h].layers[b]
  {
    var s, t := StateAt(P, Lift(P, run), h, b), run[h].layers[b];
    assert t in run[h].layers;
    assert s.lits == t.lits;
    assert s.vals == t.vals;
  }

  lemma LiftEvents(P: Problem, C: Cascade, run: Run, h: nat)
    requires h < |run| && WellShaped(P, C, run[h])
    ensures HappeningAt(P, C, Lift(P, run), h).events == run[h].events
  {
    var x := HappeningAt(P, C, Lift(P, run), h);
    forall b | 0 <= b < C - 1
      ensures x.events[b] == run[h].events[b]
    {
      assert run[h].events[b] in run[h].events;
    }
  }

  lemma LiftDecodes(P: Problem, C: Cascade, run: Run, h: nat)
    requires h < |run| && WellShaped(P, C, run[h])
    ensures HappeningAt(P, C, Lift(P, run), h) == run[h]
  {
    var x, y := HappeningAt(P, C, Lift(P, run), h), run[h];
    forall b | 0 <= b < C
      ensures x.layers[b] == y.layers[b]
    {
      LiftState(P, C, run, h, b);
    }
    assert x.layers == y.layers;
    LiftEvents(P, C, run, h);
    assert x.starts == y.starts;
    assert x.ends == y.ends;
    assert x.processes == y.processes;
    assert x.due.Keys == y.due.Keys;
    assert x.due == y.due;
  }

  // ----- The clauses of a lifted run -----

  lemma LiftTiming(P: Problem, C: Cascade, run: Run, h: nat)
    requires Legal(P, C, run) && h < |run|
    ensures TimingClause(Lift(P, run), h)
  {
    assert LegalAt(P, C, run, h);
    if h > 0 {
      assert LegalAt(P, C, run, h);
    }
    if h + 1 < |run| {
      assert LegalAt(P, C, run, h + 1);
    }
  }

  lemma StopLater(P: Problem, C: Cascade, run: Run, i: nat, h: nat)
    requires Legal(P, C, run) && h < |run|
    ensures StopTime(run, i, h) > run[h].time
    decreases |run| - h
  {
    if h + 1 < |run| {
      assert LegalAt(P, C, run, h + 1);
      StopLater(P, C, run, i, h + 1);
    }
  }

  lemma LiftProcessVars(P: Problem, C: Cascade, run: Run, i: nat, h: nat)
    requires Legal(P, C, run) && h < |run| && i < |P.ops| && P.ops[i].Process?
    ensures RunClause(Lift(P, run), i, h)
  {
    assert LegalAt(P, C, run, h);
    StopLater(P, C, run, i, h);
    if h > 0 {
      assert LegalAt(P, C, run, h - 1);
    }
  }

  lemma LiftDurativeVars(P: Problem, C: Cascade, run: Run, i: nat, h: nat)
    requires Legal(P, C, run) && h < |run| && IsDurative(P, i)
    ensures RunClause(Lift(P, run), i, h)
  {
    assert LegalAt(P, C, run, h);
    if h > 0 {
      assert LegalAt(P, C, run, h);
      assert DueStepFor(P, run[h - 1].due, run[h], i);
    } else {
      assert DueStepFor(P, map[], run[0], i);
    }
  }

  lemma LiftOpVars(P: Problem, C: Cascade, run: Run, i: nat, h: nat)
    requires Legal(P, C, run) && h < |run| && i < |P.ops|
    ensures OpVarsClause(P, Lift(P, run), i, h)
  {
    assert LegalAt(P, C, run, h);
    match P.ops[i]
    case Durative(_, _, _, _, _, _) => LiftDurativeVars(P, C, run, i, h);
    case Instant(_, _) =>
    case Event(_, _) =>
    case Process(_) => LiftProcessVars(P, C, run, i, h);
  }

  lemma UpdateShows(P: Problem, C: Cascade, x: Happening, b: nat, l: nat)
    requires Within(P, C, x) && b < C - 1 && l < P.lits
    ensures Added(P, C, x, b, l) ==> l in x.layers[b + 1].lits
    ensures Deleted(P, C, x, b, l) ==> l !in x.layers[b + 1].lits
  {
    assert LayerStep(P, C, x, b);
    assert Updates(l in x.layers[b].lits, l in x.layers[b + 1].lits, Added(P, C, x, b, l), Deleted(P, C, x, b, l));
  }

  /** An operator that fires shows its effects, since updates do not clash. */
  lemma FiredShows(P: Problem, C: Cascade, x: Happening, b: nat, i: nat)
    requires WellFormed(P) && Within(P, C, x) && b < C - 1
    requires i in x.events[b] && i < |P.ops| && P.ops[i].Event?
    ensures EffectsShow(P.ops[i].eff, x.layers[b + 1])
  {
    assert WfOp(P, P.ops[i]);
    forall l | l in P.ops[i].eff.adds
      ensures l in x.layers[b + 1].lits
    {
      assert l in RoleOfOp(P.ops[i], EventAdd);
      assert Affects(P, x.events[b], EventAdd, l);
      UpdateShows(P, C, x, b, l);
    }
    forall l | l in P.ops[i].eff.dels
      ensures l !in x.layers[b + 1].lits
    {
      assert l in RoleOfOp(P.ops[i], EventDel);
      assert Affects(P, x.events[b], EventDel, l);
      UpdateShows(P, C, x, b, l);
    }
  }

  function StartEffects(o: Op): Effects
    requires o.Durative? || o.Instant?
  {
    if o.Durative? then o.start else o.eff
  }

  lemma StartShows(P: Problem, C: Cascade, x: Happening, i: nat)
    requires WellFormed(P) && Within(P, C, x) && i in x.starts
    ensures EffectsShow(StartEffects(P.ops[i]), x.layers[C - 1])
  {
    assert WfOp(P, P.ops[i]);
    forall l | l in StartEffects(P.ops[i]).adds
      ensures l in x.layers[C - 1].lits
    {
      assert l in RoleOfOp(P.ops[i], StartAdd);
      assert Affects(P, x.starts, StartAdd, l);
      UpdateShows(P, C, x, C - 2, l);
    }
    forall l | l in StartEffects(P.ops[i]).dels
      ensures l !in x.layers[C - 1].lits
    {
      assert l in RoleOfOp(P.ops[i], StartDel);
      assert Affects(P, x.starts, StartDel, l);
      UpdateShows(P, C, x, C - 2, l);
    }
  }

  lemma EndShows(P: Problem, C: Cascade, x: Happening, i: nat)
    requires WellFormed(P) && Within(P, C, x) && i in x.ends
    ensures EffectsShow(P.ops[i].end, x.layers[C - 1])
  {
    assert WfOp(P, P.ops[i]);
    forall l | l in P.ops[i].end.adds
      ensures l in x.layers[C - 1].lits
    {
      assert l in RoleOfOp(P.ops[i], EndAdd);
      assert Affects(P, x.ends, EndAdd, l);
      UpdateShows(P, C, x, C - 2, l);
    }
    forall l | l in P.ops[i].end.dels
      ensures l !in x.layers[C - 1].lits
    {
      assert l in RoleOfOp(P.ops[i], EndDel);
      assert Affects(P, x.ends, EndDel, l);
      UpdateShows(P, C, x, C - 2, l);
    }
  }

  lemma LiftUnthreatened(P: Problem, C: Cascade, run: Run, h: nat, i: nat, first: bool)
    requires WellFormed(P) && Legal(P, C, run) && h < |run| && i in run[h].starts && i < |P.ops|
    requires Separated(P, run[h], first)
    ensures Unthreatened(P, Lift(P, run), i, h, if first then i + 1 else |P.ops|, StartAtoms(P.ops[i]))
  {
    var x, m := run[h], Lift(P, run);
    forall j | 0 <= j < (if first then i + 1 else |P.ops|) && j != i && m.b(Start(j, h))
      ensures !Threatens(P, j, StartAtoms(P.ops[i]))
    {
      if j !in x.starts {
        assert P.ops[j].Process?;
      }
    }
  }

  lemma LiftDurativeReads(P: Problem, C: Cascade, run: Run, h: nat, i: nat)
    requires Legal(P, C, run) && h < |run| && IsDurative(P, i)
    ensures
      var x, m := run[h], Lift(P, run);
      && (m.b(Start(i, h)) <==> i in x.starts)
      && (m.b(End(i, h)) <==> i in x.ends)
      && (m.b(Running(i, h)) <==> i in x.due)
      && m.r(Remaining(i, h)) == DurationAt(x, i)
  {
    assert LegalAt(P, C, run, h);
  }

  lemma LiftDurativeStart(P: Problem, C: Cascade, run: Run, h: nat, i: nat, first: bool)
    requires WellFormed(P) && Legal(P, C, run) && h < |run| && IsDurative(P, i)
    requires Separated(P, run[h], first) && i in run[h].starts
    ensures DurativeStart(P, C, Lift(P, run), i, h, if first then i + 1 else |P.ops|)
  {
    var x := run[h];
    assert LegalAt(P, C, run, h);
    LiftState(P, C, run, h, C - 2);
    LiftState(P, C, run, h, C - 1);
    LiftDurativeReads(P, C, run, h, i);
    assert StartAllowed(P, C, x, i);
    StartShows(P, C, x, i);
    LiftUnthreatened(P, C, run, h, i, first);
  }

  lemma LiftDurativeEnd(P: Problem, C: Cascade, run: Run, h: nat, i: nat)
    requires WellFormed(P) && Legal(P, C, run) && h < |run| && IsDurative(P, i) && i in run[h].ends
    ensures DurativeEnd(P, C, Lift(P, run), i, h)
  {
    var x := run[h];
    assert LegalAt(P, C, run, h);
    LiftState(P, C, run, h, C - 2);
    LiftState(P, C, run, h, C - 1);
    LiftDurativeVars(P, C, run, i, h);
    LiftDurativeReads(P, C, run, h, i);
    assert EndAllowed(P, C, x, i);
    EndShows(P, C, x, i);
  }

  lemma LiftDurative(P: Problem, C: Cascade, run: Run, h: nat, i: nat, first: bool)
    requires WellFormed(P) && Legal(P, C, run) && h < |run| && IsDurative(P, i)
    requires Separated(P, run[h], first)
    ensures DurativeClause(P, C, Lift(P, run), i, h, if first then i + 1 else |P.ops|)
  {
    LiftDurativeReads(P, C, run, h, i);
    if i in run[h].starts {
      LiftDurativeStart(P, C, run, h, i, first);
    }
    if i in run[h].ends {
      LiftDurativeEnd(P, C, run, h, i);
    }
    assert LegalAt(P, C, run, h);
    LiftState(P, C, run, h, C - 2);
  }

  lemma LiftInstant(P: Problem, C: Cascade, run: Run, h: nat, i: nat, first: bool)
    requires WellFormed(P) && Legal(P, C, run) && h < |run| && i < |P.ops| && P.ops[i].Instant?
    requires Separated(P, run[h], first)
    ensures
      var m := Lift(P, run);
      m.b(Start(i, h)) ==> InstantStart(P, C, m, i, h, if first then i + 1 else |P.ops|)
  {
    var x, m := run[h], Lift(P, run);
    assert LegalAt(P, C, run, h);
    LiftState(P, C, run, h, C - 2);
    LiftState(P, C, run, h, C - 1);
    assert m.b(Start(i, h)) <==> i in x.starts;
    assert m.r(Remaining(i, h)) == 0.0;
    if i in x.starts {
      assert StartAllowed(P, C, x, i);
      StartShows(P, C, x, i);
      LiftUnthreatened(P, C, run, h, i, first);
    }
  }

  lemma LegalNoCrossing(P: Problem, C: Cascade, run: Run, h: nat, i: nat)
    requires Legal(P, C, run) && 0 < h < |run| && i < |P.ops|
    requires P.ops[i].Event? || (P.ops[i].Process? && i in run[h - 1].processes)
    ensures WellShaped(P, C, run[h - 1]) && WellShaped(P, C, run[h])
    ensures NoCrossing(C, P.ops[i].pre, run[h - 1], run[h])
  {
    assert LegalAt(P, C, run, h);
  }

  lemma LiftNoCrossing(P: Problem, C: Cascade, run: Run, h: nat, i: nat)
    requires Legal(P, C, run) && 0 < h < |run| && i < |P.ops|
    requires P.ops[i].Event? || (P.ops[i].Process? && i in run[h - 1].processes)
    ensures
      var m := Lift(P, run);
      NoCrossing(C, P.ops[i].pre, HappeningAt(P, C, m, h - 1), HappeningAt(P, C, m, h))
  {
    LegalNoCrossing(P, C, run, h, i);
    assert HappeningAt(P, C, Lift(P, run), h - 1) == run[h - 1] by {
      LiftDecodes(P, C, run, h - 1);
    }
    assert HappeningAt(P, C, Lift(P, run), h) == run[h] by {
      LiftDecodes(P, C, run, h);
    }
  }

  lemma LiftEventFires(P: Problem, C: Cascade, run: Run, h: nat, i: nat, b: nat)
    requires WellFormed(P) && Legal(P, C, run) && h < |run| && i < |P.ops| && P.ops[i].Event? && b < C - 1
    ensures
      var m := Lift(P, run);
      && (m.b(Fired(i, h, b)) ==> EffectsShow(P.ops[i].eff, StateAt(P, m, h, b + 1)))
      && (m.b(Fired(i, h, b)) <==> Sat(P.ops[i].pre, StateAt(P, m, h, b), 0.0))
  {
    var x := run[h];
    assert LegalAt(P, C, run, h);
    LiftState(P, C, run, h, b);
    LiftState(P, C, run, h, b + 1);
    assert i in x.events[b] <==> Sat(P.ops[i].pre, x.layers[b], 0.0);
    if i in x.events[b] {
      FiredShows(P, C, x, b, i);
    }
  }

  lemma LiftEvent(P: Problem, C: Cascade, run: Run, h: nat, i: nat, b: nat)
    requires WellFormed(P) && Legal(P, C, run) && h < |run| && i < |P.ops| && P.ops[i].Event? && b < C - 1
    ensures EventClause(P, C, Lift(P, run), i, h, b)
  {
    LiftEventFires(P, C, run, h, i, b);
    if h > 0 {
      LiftNoCrossing(P, C, run, h, i);
    }
  }

  lemma LiftProcessRuns(P: Problem, C: Cascade, run: Run, h: nat, i: nat)
    requires Legal(P, C, run) && h < |run| && i < |P.ops| && P.ops[i].Process?
    ensures
      var m := Lift(P, run);
      && (m.b(Running(i, h)) <==> i in run[h].processes)
      && (m.b(Running(i, h)) <==> Sat(P.ops[i].pre, StateAt(P, m, h, C - 1), 0.0))
  {
    assert LegalAt(P, C, run, h);
    LiftState(P, C, run, h, C - 1);
  }

  lemma LiftProcess(P: Problem, C: Cascade, run: Run, h: nat, i: nat)
    requires Legal(P, C, run) && h < |run| && i < |P.ops| && P.ops[i].Process?
    ensures ProcessClause(P, C, Lift(P, run), i, h)
  {
    LiftProcessRuns(P, C, run, h, i);
    if h > 0 && Lift(P, run).b(Running(i, h - 1)) {
      assert i in run[h - 1].processes by {
        LiftProcessRuns(P, C, run, h - 1, i);
      }
      LiftNoCrossing(P, C, run, h, i);
    }
  }

  lemma LiftOpBody(P: Problem, C: Cascade, run: Run, h: nat, i: nat, first: bool)
    requires WellFormed(P) && Legal(P, C, run) && h < |run| && i < |P.ops|
    requires Separated(P, run[h], first)
    ensures OpBodyClause(P, C, Lift(P, run), i, h, first)
  {
    match P.ops[i]
    case Durative(_, _, _, _, _, _) => LiftDurative(P, C, run, h, i, first);
    case Instant(_, _) => LiftInstant(P, C, run, h, i, first);
    case Event(_, _) =>
      forall b | 0 <= b < C - 1
        ensures EventClause(P, C, Lift(P, run), i, h, b)
      {
        LiftEvent(P, C, run, h, i, b);
      }
    case Process(_) => LiftProcess(P, C, run, h, i);
  }

  lemma LiftTil(P: Problem, C: Cascade, run: Run, h: nat, k: nat)
    requires WellFormed(P) && Legal(P, C, run) && h < |run| && k < |P.tils|
    ensures TilClause(P, Lift(P, run), k, h)
  {
    var x := run[h];
    assert LegalAt(P, C, run, h);
    LiftState(P, C, run, h, 0);
    var eff := P.tils[k].eff;
    assert WfTil(P, P.tils[k]);
    if h > 0 {
      assert LegalAt(P, C, run, h);
    }
    if P.tils[k].stamp == x.time {
      forall l | l in eff.adds
        ensures l in x.layers[0].lits
      {
        assert TilAffects(P, x.time, TilAdd, l);
      }
      forall l | l in eff.dels
        ensures l !in x.layers[0].lits
      {
        assert TilAffects(P, x.time, TilDel, l);
      }
    }
  }

  lemma LiftLit(P: Problem, C: Cascade, run: Run, h: nat, l: nat)
    requires Legal(P, C, run) && h < |run| && l < P.lits
    ensures LitClause(P, C, Lift(P, run), l, h)
  {
    var x := run[h];
    assert LegalAt(P, C, run, h);
    LiftDecodes(P, C, run, h);
    forall b | 0 < b < C
      ensures LitExplained(P, C, Lift(P, run), l, h, b)
    {
      assert LayerStep(P, C, x, b - 1);
    }
    if h > 0 {
      assert LegalAt(P, C, run, h);
    }
  }

  lemma LiftFn(P: Problem, C: Cascade, run: Run, h: nat, fn: nat)
    requires Legal(P, C, run) && h < |run| && fn < P.fns
    ensures FnClause(P, C, Lift(P, run), fn, h)
  {
    var x, m := run[h], Lift(P, run);
    assert LegalAt(P, C, run, h);
    forall b | 0 < b < C
      ensures FnExplained(P, C, m, fn, h, b)
    {
      assert LayerStep(P, C, x, b - 1);
      LiftDecodes(P, C, run, h);
      LiftState(P, C, run, h, b - 1);
      LiftState(P, C, run, h, b);
      assert StateAt(P, m, h, b).vals[fn] == m.r(Value(fn, h, b));
      assert StateAt(P, m, h, b - 1).vals[fn] == m.r(Value(fn, h, b - 1));
    }
  }

  lemma LiftFlow(P: Problem, C: Cascade, run: Run, h: nat, fn: nat)
    requires Legal(P, C, run) && h < |run| && fn < P.fns
    ensures FlowClause(P, C, Lift(P, run), fn, h)
  {
    if h > 0 {
      assert LegalAt(P, C, run, h);
      LiftDecodes(P, C, run, h - 1);
      LiftDecodes(P, C, run, h);
    }
  }

  lemma LiftClauses(P: Problem, C: Cascade, run: Run, h: nat, first: bool)
    requires WellFormed(P) && Legal(P, C, run) && h < |run| && Separated(P, run[h], first)
    ensures Clauses(P, C, Lift(P, run), h, first)
  {
    forall loop: Loop | InProblem(P, loop)
      ensures Clause(P, C, Lift(P, run), loop, h, first)
    {
      match loop
      case Timings => LiftTiming(P, C, run, h);
      case TilLoop(k) => LiftTil(P, C, run, h, k);
      case OpVars(i) => LiftOpVars(P, C, run, i, h);
      case OpBody(i) => LiftOpBody(P, C, run, h, i, first);
      case LitSupport(l) => LiftLit(P, C, run, h, l);
      case FnSupports(fn) => LiftFn(P, C, run, h, fn);
      case FnFlows(fn) => LiftFlow(P, C, run, h, fn);
    }
  }

  lemma LiftInit(P: Problem, C: Cascade, run: Run)
    requires WellFormed(P) && Legal(P, C, run)
    ensures Holds(Lift(P, run), InitSpec(P))
  {
    assert LegalAt(P, C, run, 0);
    LiftState(P, C, run, 0, 0);
    InitMeans(P, Lift(P, run));
  }

  /** One call of the encoder, over the happenings lo to hi of the run. */
  lemma LiftEncodes(P: Problem, C: Cascade, run: Run, lo: nat, hi: nat)
    requires FaithfulProblem(P) && Legal(P, C, run) && 0 < hi <= |run|
    requires forall h | lo <= h < hi :: Separated(P, run[h], lo == 0)
    ensures Holds(Lift(P, run), EncodeSpec(P, C, lo, hi))
  {
    var m, first := Lift(P, run), lo == 0;
    forall h | lo <= h < hi
      ensures BodiesHold(P, C, m, h, first)
    {
      LiftClauses(P, C, run, h, first);
      BodiesAreClauses(P, C, m, h, first);
    }
    LiftInit(P, C, run);
    LiftFlags(P, run);
    GoalOutputMeans(P, C, m, hi);
    EncodeHolds(P, C, m, lo, hi, first);
  }

  lemma LiftIdleEnd(P: Problem, C: Cascade, run: Run)
    requires Legal(P, C, run) && run[|run| - 1].due == map[]
    ensures Holds(Lift(P, run), NothingRuns(P, |P.ops|, |run|))
  {
    assert LegalAt(P, C, run, |run| - 1);
    NothingRunsMeans(P, Lift(P, run), |P.ops|, |run|);
  }

  lemma LiftReaches(P: Problem, C: Cascade, run: Run)
    requires FaithfulProblem(P) && Legal(P, C, run) && Reaches(P, C, run)
    ensures Holds(Lift(P, run), GoalSpec(P, C, |run|))
  {
    var m, H := Lift(P, run), |run|;
    assert Holds(m, GoalOutput(P, C, H).goals) by {
      assert LegalAt(P, C, run, H - 1);
      LiftState(P, C, run, H - 1, C - 1);
      LiftFlags(P, run);
      GoalOutputMeans(P, C, m, H);
    }
    LiftIdleEnd(P, C, run);
    HoldsConcat(m, GoalOutput(P, C, H).goals, NothingRuns(P, |P.ops|, H));
  }

  lemma LiftRunDecodes(P: Problem, C: Cascade, run: Run)
    requires Legal(P, C, run)
    ensures Decode(P, C, Lift(P, run), |run|) == run
  {
    forall h | 0 <= h < |run|
      ensures HappeningAt(P, C, Lift(P, run), h) == run[h]
    {
      assert LegalAt(P, C, run, h);
      LiftDecodes(P, C, run, h);
    }
  }

  /** Completeness of the happening encoding: a legal run with separated starts satisfies the
      constraints of one call and decodes to itself; if it reaches the goal, the goal list too. */
  lemma EncodingComplete(P: Problem, C: Cascade, run: Run)
    requires FaithfulProblem(P) && Legal(P, C, run)
    requires forall h | 0 <= h < |run| :: Separated(P, run[h], true)
    ensures Holds(Lift(P, run), EncodeSpec(P, C, 0, |run|))
    ensures Decode(P, C, Lift(P, run), |run|) == run
    ensures Reaches(P, C, run) ==> Holds(Lift(P, run), GoalSpec(P, C, |run|))
  {
    LiftEncodes(P, C, run, 0, |run|);
    LiftRunDecodes(P, C, run);
    if Reaches(P, C, run) {
      LiftReaches(P, C, run);
    }
  }

  /** A model of H encoded happenings and of the goal list. */
  ghost predicate Solves(P: Problem, C: Cascade, H: nat, m: Model)
    requires H > 0
  {
    Holds(m, EncodeSpec(P, C, 0, H)) && Holds(m, GoalSpec(P, C, H))
  }

  /** A legal run of H happenings with separated starts that reaches the goal. */
  ghost predicate IsPlan(P: Problem, C: Cascade, H: nat, run: Run) {
    && |run| == H && Legal(P, C, run) && Reaches(P, C, run)
    && forall h | 0 <= h < H :: Separated(P, run[h], true)
  }

  /** The encoding of H happenings with the goals is satisfiable exactly when there is a plan. */
  lemma SatisfiableIffPlan(P: Problem, C: Cascade, H: nat)
    requires FaithfulProblem(P) && H > 0
    ensures (exists m :: Solves(P, C, H, m)) <==> (exists run :: IsPlan(P, C, H, run))
  {
    if m :| Solves(P, C, H, m) {
      EncodingSound(P, C, m, H);
      assert IsPlan(P, C, H, Decode(P, C, m, H));
    }
    if run :| IsPlan(P, C, H, run) {
      EncodingComplete(P, C, run);
      assert Solves(P, C, H, Lift(P, run));
    }
  }

  // ----- Two interfering actions in the first call -----

  /** The first action needs the literal at its start, the second deletes it. */
  const Interfering := Problem(
    1, 0, [0], [], [],
    [Instant(Simple(0), Effects([], [], [])), Instant(Conj([]), Effects([], [0], []))],
    Conj([]), [])

  const Together := Happening(0.0, [State({0}, []), State({}, [])], [{}], {0, 1}, {}, map[], {})

  lemma InterferingIsFaithful()
    ensures FaithfulProblem(Interfering)
  {
    var ops := Interfering.ops;
    assert forall o | o in ops :: o == ops[0] || o == ops[1];
    assert WfOp(Interfering, ops[0]) && WfOp(Interfering, ops[1]);
    assert Faithful(Simple(0), false) && Faithful(Conj([]), false);
  }

  lemma TogetherIsShaped()
    ensures WellShaped(Interfering, 2, Together)
  {
  }

  lemma NobodyAdds()
    ensures !Affects(Interfering, Together.starts, StartAdd, 0) && !Affects(Interfering, Together.ends, EndAdd, 0)
    ensures !Affects(Interfering, Together.ends, EndDel, 0)
    ensures !Affects(Interfering, Together.events[0], EventAdd, 0) && !Affects(Interfering, Together.events[0], EventDel, 0)
  {
  }

  lemma SecondDeletes()
    ensures Affects(Interfering, Together.starts, StartDel, 0)
  {
    assert 1 in Together.starts && 0 in RoleOfOp(Interfering.ops[1], StartDel);
  }

  lemma TogetherSteps()
    ensures WellShaped(Interfering, 2, Together) && LayerStep(Interfering, 2, Together, 0)
  {
    TogetherIsShaped();
    NobodyAdds();
    SecondDeletes();
  }

  lemma TogetherIsAllowed()
    ensures WellShaped(Interfering, 2, Together) && ActionsAllowed(Interfering, 2, Together)
  {
    TogetherIsShaped();
    var x := Together;
    assert StartAllowed(Interfering, 2, x, 0) by {
      assert Sat(Simple(0), x.layers[0], 0.0);
    }
    assert StartAllowed(Interfering, 2, x, 1) by {
      assert Sat(Conj([]), x.layers[0], 0.0);
    }
  }

  lemma TogetherIsWithin()
    ensures Within(Interfering, 2, Together)
  {
    TogetherIsShaped();
    TogetherIsAllowed();
    TogetherSteps();
  }

  lemma TogetherIsInitial()
    ensures WellShaped(Interfering, 2, Together) && Initial(Interfering, 2, Together)
  {
    TogetherIsShaped();
    assert DueStep(Interfering, map[], Together);
  }

  lemma TogetherIsLegal(run: Run)
    requires run == [Together]
    ensures Legal(Interfering, 2, run) && Reaches(Interfering, 2, run) && Separated(Interfering, run[0], true)
  {
    TogetherIsWithin();
    TogetherIsInitial();
    assert LegalAt(Interfering, 2, run, 0);
    assert Sat(Conj([]), Together.layers[1], 0.0);
    assert StartAtoms(Interfering.ops[1]) == [];
  }

  lemma TogetherIsAModel(m: Model, run: Run)
    requires run == [Together] && m == Lift(Interfering, run)
    ensures Holds(m, EncodeSpec(Interfering, 2, 0, 1)) && Holds(m, GoalSpec(Interfering, 2, 1))
    ensures HappeningAt(Interfering, 2, m, 0) == Together
  {
    InterferingIsFaithful();
    TogetherIsLegal(run);
    EncodingComplete(Interfering, 2, run);
    assert Decode(Interfering, 2, m, 1)[0] == HappeningAt(Interfering, 2, m, 0);
  }

  lemma SecondThreatensFirst()
    ensures Threatens(Interfering, 1, StartAtoms(Interfering.ops[0]))
  {
    assert StartAtoms(Interfering.ops[0]) == [LitAtom(false, 0)];
    assert LitAtom(false, 0) in StartAtoms(Interfering.ops[0]) && 0 in RoleOfOp(Interfering.ops[1], StartDel);
  }

  lemma BothStart(P: Problem, C: Cascade, m: Model, h: nat, i: nat)
    requires i in HappeningAt(P, C, m, h).starts
    ensures m.b(Start(i, h))
  {
  }

  /** Witness: the second action threatens the start condition of the first, and yet one call has a
      model, goals included, in which both start at the first happening. */
  lemma ThreatInFirstCall()
    ensures Threatens(Interfering, 1, StartAtoms(Interfering.ops[0]))
    ensures exists m :: Holds(m, EncodeSpec(Interfering, 2, 0, 1)) && Holds(m, GoalSpec(Interfering, 2, 1)) &&
              m.b(Start(0, 0)) && m.b(Start(1, 0))
  {
    SecondThreatensFirst();
    var m := Lift(Interfering, [Together]);
    TogetherIsAModel(m, [Together]);
    assert 0 in Together.starts && 1 in Together.starts;
    BothStart(Interfering, 2, m, 0, 0);
    BothStart(Interfering, 2, m, 0, 1);
  }

  // ----- A function that changes only at an end -----

  /** One action of duration one; at its end it adds the goal and takes five from the battery. */
  const Draining := Problem(
    1, 1, [], [(0, 10.0)], [],
    [Durative(Compare(Equals, Duration, Num(1.0)), Conj([]), Conj([]), Conj([]), Effects([], [], []),
              Effects([0], [], [Assignment(0, Decrease, Num(5.0))]))],
    Simple(0), [[]])

  const Drain := Happening(0.0, [State({}, [10.0]), State({}, [10.0])], [{}], {0}, {}, map[0 := 1.0], {})
  const Drained := Happening(1.0, [State({}, [10.0]), State({0}, [5.0])], [{}], {}, {0}, map[], {})

  lemma DrainingIsFaithful()
    ensures FaithfulProblem(Draining)
  {
    var duration := Compare(Equals, Duration, Num(1.0));
    assert Atoms(duration) == [CompAtom(Equals, Duration, Num(1.0))];
    assert Draining.ops[0] in Draining.ops && forall o | o in Draining.ops :: o == Draining.ops[0];
    assert WfOp(Draining, Draining.ops[0]) && FaithfulOp(Draining.ops[0]);
  }

  lemma DrainIsShaped()
    ensures WellShaped(Draining, 2, Drain) && WellShaped(Draining, 2, Drained)
  {
  }

  /** Nothing happens to the literal and the battery at the start ... */
  lemma DrainSteps()
    ensures WellShaped(Draining, 2, Drain) && LayerStep(Draining, 2, Drain, 0)
  {
    DrainIsShaped();
    assert !Added(Draining, 2, Drain, 0, 0) && !Deleted(Draining, 2, Drain, 0, 0);
  }

  /** ... and both change at the end. */
  lemma DrainedChanges()
    ensures Affects(Draining, {0}, EndAdd, 0) && Affects(Draining, {0}, EndAssign, 0)
    ensures !Affects(Draining, {0}, EndDel, 0)
  {
    assert 0 in {0} && 0 in RoleOfOp(Draining.ops[0], EndAdd) && 0 in RoleOfOp(Draining.ops[0], EndAssign) by {
      assert AssignedFns([Assignment(0, Decrease, Num(5.0))])[0] == 0;
    }
  }

  lemma DrainedSteps()
    ensures WellShaped(Draining, 2, Drained) && LayerStep(Draining, 2, Drained, 0)
  {
    DrainIsShaped();
    DrainedChanges();
    assert !Deleted(Draining, 2, Drained, 0, 0);
  }

  lemma DrainIsAllowed()
    ensures WellShaped(Draining, 2, Drain) && ActionsAllowed(Draining, 2, Drain)
    ensures WellShaped(Draining, 2, Drained) && ActionsAllowed(Draining, 2, Drained)
  {
    DrainIsShaped();
    assert Sat(Conj([]), Drain.layers[0], 1.0) && Sat(Conj([]), Drained.layers[0], 0.0);
    assert DurationAt(Drain, 0) == 1.0;
    assert Sat(Draining.ops[0].duration, Drain.layers[0], 1.0);
    assert StartAllowed(Draining, 2, Drain, 0);
    assert Atoms(Conj([])) == [];
    assert AssignsHold([Assignment(0, Decrease, Num(5.0))], [10.0], [5.0], 0.0) by {
      assert forall a | a in [Assignment(0, Decrease, Num(5.0))] :: a == Assignment(0, Decrease, Num(5.0));
    }
    assert EndAllowed(Draining, 2, Drained, 0);
  }

  lemma DrainedAfter()
    ensures WellShaped(Draining, 2, Drain) && WellShaped(Draining, 2, Drained)
    ensures Initial(Draining, 2, Drain) && Between(Draining, 2, Drain, Drained)
  {
    DrainIsShaped();
    assert DueStep(Draining, map[], Drain);
    assert DueStep(Draining, Drain.due, Drained);
    assert FnsOpen(Draining, 2, Drain, Drained);
  }

  lemma DrainIsWithin()
    ensures Within(Draining, 2, Drain)
  {
    DrainIsShaped();
    DrainIsAllowed();
    DrainSteps();
  }

  lemma DrainedIsWithin()
    ensures Within(Draining, 2, Drained)
  {
    DrainIsShaped();
    DrainIsAllowed();
    DrainedSteps();
  }

  lemma DrainIsLegal(run: Run)
    requires run == [Drain, Drained]
    ensures LegalAt(Draining, 2, run, 0) && LegalAt(Draining, 2, run, 1)
  {
    DrainIsWithin();
    DrainedIsWithin();
    DrainedAfter();
  }

  lemma DrainingRuns(run: Run)
    requires run == [Drain, Drained]
    ensures Legal(Draining, 2, run) && Reaches(Draining, 2, run)
    ensures forall h | 0 <= h < |run| :: Separated(Draining, run[h], true)
  {
    DrainIsLegal(run);
    assert Sat(Simple(0), Drained.layers[1], 0.0);
  }

  lemma DrainingReads(m: Model, run: Run)
    requires run == [Drain, Drained] && m == Lift(Draining, run)
    ensures m.b(End(0, 1)) && m.r(Value(0, 1, 0)) == 10.0 && m.r(Value(0, 1, 1)) == 5.0
  {
    assert run[1] == Drained && 0 in Drained.ends;
    assert LiftReal(run, Value(0, 1, 0)) == 10.0 && LiftReal(run, Value(0, 1, 1)) == 5.0;
  }

  lemma DrainingIsAModel(m: Model, run: Run)
    requires run == [Drain, Drained] && m == Lift(Draining, run)
    ensures Holds(m, EncodeSpec(Draining, 2, 0, 2)) && Holds(m, GoalSpec(Draining, 2, 2))
  {
    DrainingIsFaithful();
    DrainingRuns(run);
    EncodingComplete(Draining, 2, run);
  }

  /** A model of two happenings in which the action ends at the second and takes five. */
  ghost predicate TakesFive(m: Model) {
    && Holds(m, EncodeSpec(Draining, 2, 0, 2)) && Holds(m, GoalSpec(Draining, 2, 2))
    && m.b(End(0, 1)) && m.r(Value(0, 1, 0)) == 10.0 && m.r(Value(0, 1, 1)) == 5.0
  }

  /** Witness: two happenings suffice, and the encoding of two has a model, goals included, in which the
      action ends and the battery falls from ten to five. */
  lemma EndEffectCounts()
    ensures Legal(Draining, 2, [Drain, Drained]) && Reaches(Draining, 2, [Drain, Drained])
    ensures exists m :: TakesFive(m)
  {
    var run := [Drain, Drained];
    var m := Lift(Draining, run);
    DrainingRuns(run);
    DrainingReads(m, run);
    DrainingIsAModel(m, run);
    assert TakesFive(m);
  }
}
