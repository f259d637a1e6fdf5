/** What every model says about one durative action over all happenings, and about one timed
    literal: starts and ends pair up, and a timed literal fires exactly once. */
module Lifecycle {
  import opened Smt
  import opened Pddl
  import opened HappeningSpec
  import opened Semantics
  import opened Decoding
  import opened BlockMeaning
  import opened LayerMeaning
  import opened FrameMeaning
  import opened FlowMeaning
  import opened EncodeMeaning

  // ----- Clauses of one action over all happenings -----

  ghost predicate Timed(m: Model, H: nat) {
    forall h | 0 <= h < H :: TimingClause(m, h)
  }

  ghost predicate Counted(m: Model, i: nat, H: nat) {
    forall h | 0 <= h < H :: RunClause(m, i, h)
  }

  lemma LayerHolds(P: Problem, C: Cascade, m: Model, H: nat, loop: Loop, h: nat)
    requires H > 0 && Holds(m, EncodeSpec(P, C, 0, H)) && InProblem(P, loop) && h < H
    ensures Holds(m, At(P, C, loop, h, true))
  {
    EncodeHolds(P, C, m, 0, H, true);
    assert BodiesHold(P, C, m, h, true);
    assert Holds(m, BodyOf(P, C, loop, true)(h));
  }

  lemma ModelIsTimed(P: Problem, C: Cascade, m: Model, H: nat)
    requires H > 0 && Holds(m, EncodeSpec(P, C, 0, H))
    ensures Timed(m, H)
  {
    forall h | 0 <= h < H
      ensures TimingClause(m, h)
    {
      LayerHolds(P, C, m, H, Timings, h);
      TimingMeans(m, h);
    }
  }

  lemma ModelCounts(P: Problem, C: Cascade, m: Model, H: nat, i: nat)
    requires H > 0 && Holds(m, EncodeSpec(P, C, 0, H)) && Runs(P, i)
    ensures Counted(m, i, H)
  {
    forall h | 0 <= h < H
      ensures RunClause(m, i, h)
    {
      LayerHolds(P, C, m, H, OpVars(i), h);
      OpVarsMean(P, m, i, h);
    }
  }

  lemma {:induction false} TimeGrows(m: Model, H: nat, g: nat, h: nat)
    requires Timed(m, H) && g <= h < H
    ensures m.r(Time(h)) >= m.r(Time(g)) + 0.1 * (h - g) as real
  {
    if g < h {
      TimeGrows(m, H, g, h - 1);
      assert TimingClause(m, h) && TimingClause(m, h - 1);
    }
  }

  // ----- From a start to its end -----

  /** The first happening after j at which the action does not run, or H. */
  ghost function StopOf(m: Model, i: nat, j: nat, H: nat): (e: nat)
    requires j < H
    ensures j < e <= H
    decreases H - j
  {
    if j + 1 < H && m.b(Running(i, j + 1)) then StopOf(m, i, j + 1, H) else j + 1
  }

  /** The last start up to j. */
  ghost function StartBefore(m: Model, i: nat, j: nat): (s: nat)
    ensures s <= j
  {
    if j > 0 && m.b(Running(i, j - 1)) then StartBefore(m, i, j - 1) else j
  }

  /** Runs at every happening from s up to e, counting down, and at e no more. */
  ghost predicate RunsThrough(m: Model, i: nat, s: nat, e: nat, H: nat) {
    && s < e <= H
    && (forall j | s <= j < e ::
          m.b(Running(i, j)) && m.r(Remaining(i, j)) == m.r(Remaining(i, s)) - (m.r(Time(j)) - m.r(Time(s))))
    && (forall j | s < j < e :: !m.b(Start(i, j)) && !m.b(End(i, j)))
    && (e < H ==> m.b(End(i, e)) && !m.b(Start(i, e)) && !m.b(Running(i, e)))
  }

  lemma {:induction false} RunsToStop(m: Model, i: nat, j: nat, H: nat)
    requires Timed(m, H) && Counted(m, i, H) && j < H && m.b(Running(i, j))
    ensures RunsThrough(m, i, j, StopOf(m, i, j, H), H)
    decreases H - j
  {
    if j + 1 < H {
      assert RunClause(m, i, j + 1) && TimingClause(m, j + 1);
      if m.b(Running(i, j + 1)) {
        RunsToStop(m, i, j + 1, H);
        assert !m.b(Start(i, j + 1)) && !m.b(End(i, j + 1));
      }
    }
  }

  lemma {:induction false} StartedBefore(m: Model, i: nat, j: nat, H: nat)
    requires Counted(m, i, H) && j < H && m.b(Running(i, j))
    ensures m.b(Start(i, StartBefore(m, i, j)))
    ensures forall k | StartBefore(m, i, j) <= k <= j :: m.b(Running(i, k))
    ensures forall k | StartBefore(m, i, j) < k <= j :: !m.b(Start(i, k))
  {
    assert RunClause(m, i, j);
    if j > 0 && m.b(Running(i, j - 1)) {
      StartedBefore(m, i, j - 1, H);
    }
  }

  /** Counting to zero at the end: the time between start and end is the remaining duration at
      the start. */
  lemma EndsOnTime(m: Model, i: nat, s: nat, e: nat, H: nat)
    requires Timed(m, H) && Counted(m, i, H) && RunsThrough(m, i, s, e, H) && e < H
    ensures m.r(Time(e)) - m.r(Time(s)) == m.r(Remaining(i, s))
  {
    assert RunClause(m, i, e) && TimingClause(m, e);
    assert m.b(Running(i, e - 1)) &&
           m.r(Remaining(i, e - 1)) == m.r(Remaining(i, s)) - (m.r(Time(e - 1)) - m.r(Time(s)));
  }

  /** The pair of a start and its end. */
  ghost predicate Execution(m: Model, i: nat, s: nat, e: nat, H: nat) {
    && RunsThrough(m, i, s, e, H) && e < H && m.b(Start(i, s))
    && m.r(Time(e)) - m.r(Time(s)) == m.r(Remaining(i, s))
  }

  /** Nothing is left running, so every run from a start stops inside. */
  lemma StopsInside(m: Model, i: nat, j: nat, H: nat)
    requires Timed(m, H) && Counted(m, i, H) && j < H && m.b(Running(i, j)) && !m.b(Running(i, H - 1))
    ensures StopOf(m, i, j, H) < H
  {
    RunsToStop(m, i, j, H);
  }

  lemma StartHasEnd(m: Model, i: nat, s: nat, H: nat)
    requires Timed(m, H) && Counted(m, i, H) && s < H && m.b(Start(i, s)) && !m.b(Running(i, H - 1))
    ensures Execution(m, i, s, StopOf(m, i, s, H), H)
  {
    assert RunClause(m, i, s);
    RunsToStop(m, i, s, H);
    StopsInside(m, i, s, H);
    EndsOnTime(m, i, s, StopOf(m, i, s, H), H);
  }

  lemma {:induction false} StopIs(m: Model, i: nat, s: nat, e: nat, H: nat)
    requires s < e < H && !m.b(Running(i, e)) && forall k | s < k < e :: m.b(Running(i, k))
    ensures StopOf(m, i, s, H) == e
    decreases e - s
  {
    if s + 1 < e {
      StopIs(m, i, s + 1, e, H);
    }
  }

  lemma EndHasStart(m: Model, i: nat, e: nat, H: nat)
    requires Timed(m, H) && Counted(m, i, H) && e < H && m.b(End(i, e))
    ensures e > 0 && Execution(m, i, StartBefore(m, i, e - 1), e, H)
  {
    assert RunClause(m, i, e);
    var s := StartBefore(m, i, e - 1);
    StartedBefore(m, i, e - 1, H);
    RunsToStop(m, i, s, H);
    StopIs(m, i, s, e, H);
    EndsOnTime(m, i, s, e, H);
  }

  lemma ExecutionsApart(m: Model, i: nat, s: nat, e: nat, s': nat, e': nat, H: nat)
    requires Execution(m, i, s, e, H) && Execution(m, i, s', e', H)
    ensures (s == s' && e == e') || e < s' || e' < s
  {
  }

  ghost predicate Inside(m: Model, i: nat, j: nat, H: nat) {
    exists s: nat, e: nat :: Execution(m, i, s, e, H) && s <= j < e
  }

  ghost predicate Lifecycle(m: Model, i: nat, H: nat) {
    && (forall s | 0 <= s < H && m.b(Start(i, s)) :: exists e: nat :: Execution(m, i, s, e, H))
    && (forall e | 0 <= e < H && m.b(End(i, e)) :: exists s: nat :: Execution(m, i, s, e, H))
    && (forall s: nat, e: nat, s': nat, e': nat | Execution(m, i, s, e, H) && Execution(m, i, s', e', H) ::
          (s == s' && e == e') || e < s' || e' < s)
    && (forall j | 0 <= j < H :: m.b(Running(i, j)) <==> Inside(m, i, j, H))
  }

  lemma RunsInside(m: Model, i: nat, j: nat, H: nat)
    requires Timed(m, H) && Counted(m, i, H) && j < H && !m.b(Running(i, H - 1))
    ensures m.b(Running(i, j)) <==> Inside(m, i, j, H)
  {
    if m.b(Running(i, j)) {
      var s := StartBefore(m, i, j);
      StartedBefore(m, i, j, H);
      StartHasEnd(m, i, s, H);
      var e := StopOf(m, i, s, H);
      assert Execution(m, i, s, e, H) && s <= j < e;
    }
  }

  lemma LifecycleHolds(m: Model, i: nat, H: nat)
    requires H > 0 && Timed(m, H) && Counted(m, i, H) && !m.b(Running(i, H - 1))
    ensures Lifecycle(m, i, H)
  {
    forall s | 0 <= s < H && m.b(Start(i, s))
      ensures exists e: nat :: Execution(m, i, s, e, H)
    {
      StartHasEnd(m, i, s, H);
    }
    forall e | 0 <= e < H && m.b(End(i, e))
      ensures exists s: nat :: Execution(m, i, s, e, H)
    {
      EndHasStart(m, i, e, H);
    }
    forall s: nat, e: nat, s': nat, e': nat | Execution(m, i, s, e, H) && Execution(m, i, s', e', H)
      ensures (s == s' && e == e') || e < s' || e' < s
    {
      ExecutionsApart(m, i, s, e, s', e', H);
    }
    forall j | 0 <= j < H
      ensures m.b(Running(i, j)) <==> Inside(m, i, j, H)
    {
      RunsInside(m, i, j, H);
    }
  }

  lemma NothingLeft(P: Problem, C: Cascade, m: Model, H: nat, i: nat)
    requires H > 0 && Holds(m, GoalSpec(P, C, H)) && i < |P.ops| && P.ops[i].Durative?
    ensures !m.b(Running(i, H - 1))
  {
    HoldsConcat(m, GoalOutput(P, C, H).goals, NothingRuns(P, |P.ops|, H));
    NothingRunsMeans(P, m, |P.ops|, H);
  }

  /** The lifecycle of a durative action, in every model of the constraints and the goal: each
      start has exactly one matching end, later, reached after the duration chosen at the start;
      each end has exactly one matching start; executions do not overlap or touch; and the
      action runs exactly inside them. */
  lemma DurativeLifecycle(P: Problem, C: Cascade, m: Model, H: nat, i: nat)
    requires H > 0 && Holds(m, EncodeSpec(P, C, 0, H)) && Holds(m, GoalSpec(P, C, H))
    requires i < |P.ops| && P.ops[i].Durative?
    ensures Lifecycle(m, i, H)
  {
    ModelIsTimed(P, C, m, H);
    ModelCounts(P, C, m, H, i);
    NothingLeft(P, C, m, H, i);
    LifecycleHolds(m, i, H);
  }

  // ----- Timed initial literals -----

  lemma TilAtMeans(P: Problem, C: Cascade, m: Model, H: nat, k: nat, h: nat)
    requires H > 0 && Holds(m, EncodeSpec(P, C, 0, H)) && k < |P.tils| && h < H
    ensures m.b(TilAt(k, h)) <==> P.tils[k].stamp == m.r(Time(h))
    ensures h > 0 ==> !(m.r(Time(h - 1)) < P.tils[k].stamp < m.r(Time(h)))
  {
    LayerHolds(P, C, m, H, TilLoop(k), h);
    var v := P.tils[k].stamp;
    var when := [Iff(And([Le(Var(Time(h)), Const(v)), Le(Const(v), Var(Time(h)))]), Bool(TilAt(k, h)))];
    var skip := if h > 0 then [Le(Const(0.0), Prod(Diff(Var(Time(h)), Const(v)), Diff(Var(Time(h - 1)), Const(v))))] else [];
    HoldsConcat(m, when + skip, TilEffects(P, k, h));
    HoldsConcat(m, when, skip);
    TilTimeMeans(m, k, h, v);
    if h > 0 {
      TilSkipMeans(m, h, v);
    }
  }

  ghost predicate StampedAt(m: Model, k: nat, v: real, h: nat) {
    && (m.b(TilAt(k, h)) <==> v == m.r(Time(h)))
    && (h > 0 ==> !(m.r(Time(h - 1)) < v < m.r(Time(h))))
  }

  /** The variable of a timed literal reads its stamp, and no interval jumps over it. */
  ghost predicate Stamped(m: Model, k: nat, v: real, H: nat) {
    forall h | 0 <= h < H :: StampedAt(m, k, v, h)
  }

  lemma ModelIsStamped(P: Problem, C: Cascade, m: Model, H: nat, k: nat)
    requires H > 0 && Holds(m, EncodeSpec(P, C, 0, H)) && k < |P.tils|
    ensures Stamped(m, k, P.tils[k].stamp, H)
  {
    forall h | 0 <= h < H
      ensures StampedAt(m, k, P.tils[k].stamp, h)
    {
      TilAtMeans(P, C, m, H, k, h);
    }
  }

  /** The happening a stamp falls on; each step back rules out one interval. */
  lemma {:induction false} StampHit(m: Model, k: nat, v: real, H: nat, n: nat) returns (h: nat)
    requires Stamped(m, k, v, H) && Timed(m, H) && n < H && 0.0 <= v <= m.r(Time(n))
    ensures h <= n && m.b(TilAt(k, h))
  {
    assert StampedAt(m, k, v, n) && TimingClause(m, n);
    if v == m.r(Time(n)) {
      h := n;
    } else {
      h := StampHit(m, k, v, H, n - 1);
    }
  }

  lemma StampOnce(m: Model, k: nat, v: real, H: nat)
    requires H > 0 && Stamped(m, k, v, H) && Timed(m, H) && v >= 0.0
    ensures v <= m.r(Time(H - 1)) <==> exists h | 0 <= h < H :: m.b(TilAt(k, h))
    ensures forall g, h | 0 <= g < H && 0 <= h < H && m.b(TilAt(k, g)) && m.b(TilAt(k, h)) :: g == h
  {
    if v <= m.r(Time(H - 1)) {
      var h := StampHit(m, k, v, H, H - 1);
    }
    forall h | 0 <= h < H && m.b(TilAt(k, h))
      ensures v == m.r(Time(h)) <= m.r(Time(H - 1))
    {
      assert StampedAt(m, k, v, h);
      TimeGrows(m, H, h, H - 1);
    }
    forall g, h | 0 <= g < H && 0 <= h < H && m.b(TilAt(k, g)) && m.b(TilAt(k, h))
      ensures g == h
    {
      if g < h {
        TimeGrows(m, H, g, h);
      } else if h < g {
        TimeGrows(m, H, h, g);
      }
    }
  }

  /** A timed literal with stamp v >= 0 fires at exactly one happening if v is within the
      encoded time, and at none otherwise. */
  lemma TilFiresOnce(P: Problem, C: Cascade, m: Model, H: nat, k: nat)
    requires H > 0 && Holds(m, EncodeSpec(P, C, 0, H)) && k < |P.tils| && P.tils[k].stamp >= 0.0
    ensures P.tils[k].stamp <= m.r(Time(H - 1)) <==> exists h | 0 <= h < H :: m.b(TilAt(k, h))
    ensures forall g, h | 0 <= g < H && 0 <= h < H && m.b(TilAt(k, g)) && m.b(TilAt(k, h)) :: g == h
  {
    ModelIsTimed(P, C, m, H);
    ModelIsStamped(P, C, m, H, k);
    StampOnce(m, k, P.tils[k].stamp, H);
  }

  lemma StampNotEarly(m: Model, k: nat, v: real, H: nat)
    requires Timed(m, H) && Stamped(m, k, v, H) && v > 0.0 && H >= 2
    ensures v >= 0.1
  {
    assert TimingClause(m, 0) && TimingClause(m, 1);
    assert StampedAt(m, k, v, 1);
  }

  /** A stamp strictly between zero and the least gap can be neither hit nor passed: every
      encoding of two or more happenings is unsatisfiable. */
  lemma EarlyStampUnsatisfiable(P: Problem, C: Cascade, m: Model, H: nat, k: nat)
    requires k < |P.tils| && 0.0 < P.tils[k].stamp < 0.1 && H >= 2
    ensures !Holds(m, EncodeSpec(P, C, 0, H))
  {
    if Holds(m, EncodeSpec(P, C, 0, H)) {
      ModelIsTimed(P, C, m, H);
      ModelIsStamped(P, C, m, H, k);
      StampNotEarly(m, k, P.tils[k].stamp, H);
    }
  }
}
