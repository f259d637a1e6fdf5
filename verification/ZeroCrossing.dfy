/** What the endpoint products say about the time between two happenings, while every function
    moves at a constant rate: on which comparisons no change of truth goes unseen. */
module ZeroCrossing {
  import opened Numbers
  import opened Pddl
  import opened Semantics
  import opened Decoding
  import opened LayerMeaning
  import opened FlowPartition
  import opened Listing
  import opened Continuous

  // ----- Lines -----

  function Line(start: real, slope: real, s: real): real {
    start + slope * s
  }

  lemma Grows(slope: real, s: real, t: real)
    requires 0.0 <= s <= t
    ensures slope >= 0.0 ==> 0.0 <= slope * s <= slope * t
    ensures slope <= 0.0 ==> slope * t <= slope * s <= 0.0
    ensures slope > 0.0 && s < t ==> slope * s < slope * t
    ensures slope < 0.0 && s < t ==> slope * t < slope * s
  {
    var rest := t - s;
    assert slope * t == slope * s + slope * rest;
  }

  /** A line that starts on one side and does not end strictly on the other stays strictly there
      until the end. */
  lemma StaysOnSide(start: real, slope: real, s: real, T: real)
    requires 0.0 <= s < T && SameSide(start, Line(start, slope, T))
    ensures start > 0.0 ==> Line(start, slope, s) > 0.0
    ensures start < 0.0 ==> Line(start, slope, s) < 0.0
  {
    Grows(slope, s, T);
  }

  lemma StaysWeakly(start: real, slope: real, s: real, T: real)
    requires 0.0 <= s <= T
    ensures start >= 0.0 && Line(start, slope, T) >= 0.0 ==> Line(start, slope, s) >= 0.0
    ensures start <= 0.0 && Line(start, slope, T) <= 0.0 ==> Line(start, slope, s) <= 0.0
  {
    Grows(slope, s, T);
  }

  /** The product of the two end values is not negative exactly when the line never has
      strictly opposite signs at two times of the interval. */
  lemma NeverOpposite(start: real, slope: real, T: real)
    requires T >= 0.0
    ensures SameSide(start, Line(start, slope, T)) <==>
            forall s, t | 0.0 <= s <= T && 0.0 <= t <= T :: SameSide(Line(start, slope, s), Line(start, slope, t))
  {
    if SameSide(start, Line(start, slope, T)) {
      forall s, t | 0.0 <= s <= T && 0.0 <= t <= T
        ensures SameSide(Line(start, slope, s), Line(start, slope, t))
      {
        StaysWeakly(start, slope, s, T);
        StaysWeakly(start, slope, t, T);
      }
    } else {
      assert Line(start, slope, 0.0) == start;
    }
  }

  lemma ZeroInside(start: real, slope: real, zero: real, T: real)
    requires T > 0.0 && slope * zero == -start && !SameSide(start, Line(start, slope, T)) && slope != 0.0
    ensures 0.0 < zero < T
  {
    assert slope * (-zero) == start;
    if zero <= 0.0 {
      Grows(slope, 0.0, -zero);
      Grows(slope, 0.0, T);
      assert false;
    }
    if zero >= T {
      Grows(slope, T, zero);
      assert false;
    }
  }

  /** A line that changes sides passes zero, and is beyond it before the end. */
  lemma CrossesBefore(start: real, slope: real, T: real) returns (zero: real, beyond: real)
    requires T > 0.0 && !SameSide(start, Line(start, slope, T))
    ensures 0.0 < zero < beyond < T && Line(start, slope, zero) == 0.0
    ensures start > 0.0 ==> Line(start, slope, beyond) < 0.0
    ensures start < 0.0 ==> Line(start, slope, beyond) > 0.0
  {
    Grows(slope, 0.0, T);
    assert slope != 0.0;
    zero := -start / slope;
    assert slope * zero == -start;
    ZeroInside(start, slope, zero, T);
    beyond := (zero + T) / 2.0;
    Grows(slope, zero, beyond);
  }

  // ----- Comparisons -----

  /** A comparison depends on the sign of lhs - rhs. */
  predicate SignHolds(op: CompOp, d: real) {
    Compares(op, d, 0.0)
  }

  lemma CompareBySign(op: CompOp, l: real, r: real)
    ensures Compares(op, l, r) <==> SignHolds(op, l - r)
  {
  }

  /** The comparison has one truth value from the start of the interval until before its end. */
  ghost predicate Constant(op: CompOp, start: real, slope: real, T: real) {
    forall s | 0.0 <= s < T :: SignHolds(op, Line(start, slope, s)) <==> SignHolds(op, start)
  }

  /** Away from zero, the endpoint constraint is exactly what keeps a comparison constant. */
  lemma ConstantIffKept(op: CompOp, start: real, slope: real, T: real)
    requires T > 0.0 && start != 0.0
    ensures SameSide(start, Line(start, slope, T)) <==> Constant(op, start, slope, T)
  {
    if SameSide(start, Line(start, slope, T)) {
      forall s | 0.0 <= s < T
        ensures SignHolds(op, Line(start, slope, s)) <==> SignHolds(op, start)
      {
        StaysOnSide(start, slope, s, T);
      }
    } else {
      var zero, beyond := CrossesBefore(start, slope, T);
      assert !(SignHolds(op, Line(start, slope, zero)) <==> SignHolds(op, start)) ||
             !(SignHolds(op, Line(start, slope, beyond)) <==> SignHolds(op, start));
    }
  }

  /** A comparison that starts at zero satisfies the endpoint constraint whatever it does then; it
      is constant exactly when it is the same at both ends. */
  lemma ConstantFromZero(op: CompOp, slope: real, T: real)
    requires T > 0.0
    ensures SameSide(0.0, Line(0.0, slope, T))
    ensures Constant(op, 0.0, slope, T) <==> (SignHolds(op, Line(0.0, slope, T)) <==> SignHolds(op, 0.0))
  {
    var half := T / 2.0;
    Grows(slope, 0.0, T);
    Grows(slope, half, T);
    Grows(slope, 0.0, half);
    forall s | 0.0 < s < T
      ensures SignHolds(op, Line(0.0, slope, s)) <==> SignHolds(op, Line(0.0, slope, T))
    {
      Grows(slope, s, T);
      Grows(slope, 0.0, s);
    }
    assert SignHolds(op, Line(0.0, slope, half)) <==> SignHolds(op, Line(0.0, slope, T));
    assert Line(0.0, slope, 0.0) == 0.0;
  }

  // ----- Expressions along straight lines -----

  /** No function occurs. */
  predicate Fixed(e: Expr) {
    match e
    case Num(_) => true
    case Fluent(_) => false
    case Duration => true
    case Plus(l, r) => Fixed(l) && Fixed(r)
    case Minus(l, r) => Fixed(l) && Fixed(r)
    case Times(l, r) => Fixed(l) && Fixed(r)
    case UMinus(e1) => Fixed(e1)
  }

  /** Functions are multiplied by constants only. */
  predicate Affine(e: Expr) {
    match e
    case Num(_) => true
    case Fluent(_) => true
    case Duration => true
    case Plus(l, r) => Affine(l) && Affine(r)
    case Minus(l, r) => Affine(l) && Affine(r)
    case Times(l, r) => (Fixed(l) && Affine(r)) || (Affine(l) && Fixed(r))
    case UMinus(e1) => Affine(e1)
  }

  /** All functions after s time units at these rates. */
  function Along(before: seq<real>, slopes: seq<real>, s: real): (vals: seq<real>)
    requires |slopes| == |before|
    ensures |vals| == |before| && forall k | 0 <= k < |vals| :: vals[k] == Line(before[k], slopes[k], s)
  {
    seq(|before|, k requires 0 <= k < |before| => Line(before[k], slopes[k], s))
  }

  function SlopeOf(e: Expr, before: seq<real>, slopes: seq<real>, d: real): real {
    match e
    case Num(_) => 0.0
    case Fluent(fn) => if fn < |slopes| then slopes[fn] else 0.0
    case Duration => 0.0
    case Plus(l, r) => SlopeOf(l, before, slopes, d) + SlopeOf(r, before, slopes, d)
    case Minus(l, r) => SlopeOf(l, before, slopes, d) - SlopeOf(r, before, slopes, d)
    case Times(l, r) =>
      if Fixed(l) then Evaluate(l, before, d) * SlopeOf(r, before, slopes, d)
      else SlopeOf(l, before, slopes, d) * Evaluate(r, before, d)
    case UMinus(e1) => -SlopeOf(e1, before, slopes, d)
  }

  lemma {:induction false} FixedStays(e: Expr, before: seq<real>, after: seq<real>, d: real)
    requires Fixed(e)
    ensures Evaluate(e, before, d) == Evaluate(e, after, d)
  {
    match e
    case Plus(l, r) =>
      FixedStays(l, before, after, d);
      FixedStays(r, before, after, d);
    case Minus(l, r) =>
      FixedStays(l, before, after, d);
      FixedStays(r, before, after, d);
    case Times(l, r) =>
      FixedStays(l, before, after, d);
      FixedStays(r, before, after, d);
    case UMinus(e1) => FixedStays(e1, before, after, d);
    case _ =>
  }

  lemma SumOfLines(a: real, ka: real, b: real, kb: real, s: real)
    ensures Line(a, ka, s) + Line(b, kb, s) == Line(a + b, ka + kb, s)
    ensures Line(a, ka, s) - Line(b, kb, s) == Line(a - b, ka - kb, s)
    ensures -Line(a, ka, s) == Line(-a, -ka, s)
  {
  }

  lemma MultipleOfLine(c: real, a: real, k: real, s: real)
    ensures c * Line(a, k, s) == Line(c * a, c * k, s)
    ensures Line(a, k, s) * c == Line(a * c, k * c, s)
  {
    assert c * (k * s) == (c * k) * s;
    assert (k * s) * c == (k * c) * s;
  }

  lemma ProductMoves(l: Expr, r: Expr, before: seq<real>, slopes: seq<real>, s: real, d: real)
    requires |slopes| == |before| && (Fixed(l) || Fixed(r))
    requires
      var e := if Fixed(l) then r else l;
      Evaluate(e, Along(before, slopes, s), d) == Line(Evaluate(e, before, d), SlopeOf(e, before, slopes, d), s)
    ensures Evaluate(Times(l, r), Along(before, slopes, s), d) ==
            Line(Evaluate(Times(l, r), before, d), SlopeOf(Times(l, r), before, slopes, d), s)
  {
    if Fixed(l) {
      FixedStays(l, before, Along(before, slopes, s), d);
      MultipleOfLine(Evaluate(l, before, d), Evaluate(r, before, d), SlopeOf(r, before, slopes, d), s);
    } else {
      FixedStays(r, before, Along(before, slopes, s), d);
      MultipleOfLine(Evaluate(r, before, d), Evaluate(l, before, d), SlopeOf(l, before, slopes, d), s);
    }
  }

  lemma FixedAffine(e: Expr)
    requires Fixed(e)
    ensures Affine(e)
  {
  }

  /** A fixed expression is affine; so is the other factor of a product with one. */
  lemma FixedIsAffine(e: Expr, other: Expr)
    requires (Fixed(other) && Affine(e)) || (Affine(other) && Fixed(e))
    ensures Affine(e)
  {
    if Fixed(e) {
      FixedAffine(e);
    }
  }

  /** An affine expression moves on a line. */
  lemma {:induction false} AffineMoves(e: Expr, before: seq<real>, slopes: seq<real>, s: real, d: real)
    requires Affine(e) && |slopes| == |before|
    ensures Evaluate(e, Along(before, slopes, s), d) == Line(Evaluate(e, before, d), SlopeOf(e, before, slopes, d), s)
  {
    match e
    case Plus(l, r) =>
      AffineMoves(l, before, slopes, s, d);
      AffineMoves(r, before, slopes, s, d);
      SumOfLines(Evaluate(l, before, d), SlopeOf(l, before, slopes, d), Evaluate(r, before, d), SlopeOf(r, before, slopes, d), s);
    case Minus(l, r) =>
      AffineMoves(l, before, slopes, s, d);
      AffineMoves(r, before, slopes, s, d);
      SumOfLines(Evaluate(l, before, d), SlopeOf(l, before, slopes, d), Evaluate(r, before, d), SlopeOf(r, before, slopes, d), s);
    case Times(l, r) =>
      if Fixed(l) {
        FixedIsAffine(r, l);
        AffineMoves(r, before, slopes, s, d);
      } else {
        AffineMoves(l, before, slopes, s, d);
      }
      ProductMoves(l, r, before, slopes, s, d);
    case UMinus(e1) =>
      AffineMoves(e1, before, slopes, s, d);
      SumOfLines(Evaluate(e1, before, d), SlopeOf(e1, before, slopes, d), 0.0, 0.0, s);
    case _ =>
  }

  // ----- Conditions -----

  predicate AffineAtom(a: Atom) {
    a.CompAtom? ==> Affine(a.lhs) && Affine(a.rhs)
  }

  function AtomSlope(a: Atom, before: seq<real>, slopes: seq<real>): real
    requires a.CompAtom?
  {
    SlopeOf(a.lhs, before, slopes, 0.0) - SlopeOf(a.rhs, before, slopes, 0.0)
  }

  lemma DifferenceMoves(a: Atom, before: seq<real>, slopes: seq<real>, s: real)
    requires a.CompAtom? && AffineAtom(a) && |slopes| == |before|
    ensures Difference(a, Along(before, slopes, s)) == Line(Difference(a, before), AtomSlope(a, before, slopes), s)
  {
    AffineMoves(a.lhs, before, slopes, s, 0.0);
    AffineMoves(a.rhs, before, slopes, s, 0.0);
    SumOfLines(Evaluate(a.lhs, before, 0.0), SlopeOf(a.lhs, before, slopes, 0.0),
               Evaluate(a.rhs, before, 0.0), SlopeOf(a.rhs, before, slopes, 0.0), s);
  }

  /** The atom has one truth value from the start of the interval until before its end. */
  ghost predicate AtomConstant(a: Atom, st: State, slopes: seq<real>, T: real)
    requires |slopes| == |st.vals|
  {
    forall s | 0.0 <= s < T :: AtomSat(a, st.(vals := Along(st.vals, slopes, s)), 0.0) <==> AtomSat(a, st, 0.0)
  }

  lemma AtomBySign(a: Atom, st: State)
    requires a.CompAtom?
    ensures AtomSat(a, st, 0.0) <==> SignHolds(a.op, Difference(a, st.vals))
  {
    CompareBySign(a.op, Evaluate(a.lhs, st.vals, 0.0), Evaluate(a.rhs, st.vals, 0.0));
  }

  /** A comparison whose two sides differ at the start is constant exactly when the endpoint
      constraint holds. One whose sides are equal at the start always satisfies that constraint, and
      is constant exactly when it is true at both ends or false at both ends. */
  lemma AtomConstantIff(a: Atom, st: State, slopes: seq<real>, T: real)
    requires a.CompAtom? && AffineAtom(a) && |slopes| == |st.vals| && T > 0.0
    ensures var after := Along(st.vals, slopes, T);
            if Difference(a, st.vals) != 0.0 then AtomConstant(a, st, slopes, T) <==> Keeps(a, st.vals, after)
            else Keeps(a, st.vals, after) &&
                 (AtomConstant(a, st, slopes, T) <==> (AtomSat(a, st.(vals := after), 0.0) <==> AtomSat(a, st, 0.0)))
  {
    var start, slope := Difference(a, st.vals), AtomSlope(a, st.vals, slopes);
    forall s: real
      ensures AtomSat(a, st.(vals := Along(st.vals, slopes, s)), 0.0) <==> SignHolds(a.op, Line(start, slope, s))
    {
      DifferenceMoves(a, st.vals, slopes, s);
      AtomBySign(a, st.(vals := Along(st.vals, slopes, s)));
    }
    AtomBySign(a, st);
    DifferenceMoves(a, st.vals, slopes, T);
    assert AtomConstant(a, st, slopes, T) <==> Constant(a.op, start, slope, T);
    if start != 0.0 {
      ConstantIffKept(a.op, start, slope, T);
    } else {
      ConstantFromZero(a.op, slope, T);
    }
  }

  // ----- Between two happenings -----

  /** All functions move at these rates from the last layer of p to the opening of x. */
  ghost predicate Straight(P: Problem, C: Cascade, p: Happening, x: Happening, slopes: seq<real>)
    requires WellShaped(P, C, p) && WellShaped(P, C, x)
  {
    |slopes| == P.fns && x.layers[0].vals == Along(p.layers[C - 1].vals, slopes, x.time - p.time)
  }

  /** The state between the two, s time units after p. */
  ghost function InBetween(P: Problem, C: Cascade, p: Happening, slopes: seq<real>, s: real): State
    requires WellShaped(P, C, p) && |slopes| == P.fns
  {
    p.layers[C - 1].(vals := Along(p.layers[C - 1].vals, slopes, s))
  }

  /** The rates at which all functions move after the happening. */
  function SlopesAfter(P: Problem, p: Happening, rates: seq<seq<Rate>>): (slopes: seq<real>)
    requires |rates| == P.fns
    ensures |slopes| == P.fns && forall fn | 0 <= fn < P.fns :: slopes[fn] == RateOf(rates[fn], RunningIds(p))
  {
    seq(P.fns, fn requires 0 <= fn < P.fns => RateOf(rates[fn], RunningIds(p)))
  }

  /** Constant rates make the values move straight. */
  lemma RatesMoveStraight(P: Problem, C: Cascade, p: Happening, x: Happening, rates: seq<seq<Rate>>)
    requires WellShaped(P, C, p) && WellShaped(P, C, x) && |rates| == P.fns
    requires forall fn | 0 <= fn < P.fns :: MovesTo(C, p, x, fn, rates[fn])
    ensures Straight(P, C, p, x, SlopesAfter(P, p, rates))
  {
    var slopes := SlopesAfter(P, p, rates);
    forall fn | 0 <= fn < P.fns
      ensures x.layers[0].vals[fn] == Line(p.layers[C - 1].vals[fn], slopes[fn], x.time - p.time)
    {
      assert MovesTo(C, p, x, fn, rates[fn]);
    }
  }

  /** The condition as a whole is as true at every time before x as it is when p closes. */
  ghost predicate NothingUnseen(P: Problem, C: Cascade, g: Goal, p: Happening, x: Happening, slopes: seq<real>)
    requires WellShaped(P, C, p) && |slopes| == P.fns
  {
    forall s | 0.0 <= s < x.time - p.time :: Sat(g, InBetween(P, C, p, slopes, s), 0.0) <==> Sat(g, p.layers[C - 1], 0.0)
  }

  /** A condition none of whose comparisons is balanced when p closes changes nowhere before x, if
      none crosses zero between the ends. */
  lemma NoCrossingNothingUnseen(P: Problem, C: Cascade, g: Goal, p: Happening, x: Happening, slopes: seq<real>)
    requires WellShaped(P, C, p) && WellShaped(P, C, x) && Straight(P, C, p, x, slopes) && x.time > p.time
    requires Faithful(g, false) && forall a | a in Atoms(g) :: AffineAtom(a)
    requires NoCrossing(C, g, p, x)
    requires forall a | a in Atoms(g) && a.CompAtom? :: Difference(a, p.layers[C - 1].vals) != 0.0
    ensures NothingUnseen(P, C, g, p, x, slopes)
  {
    var st, T := p.layers[C - 1], x.time - p.time;
    forall a | a in Atoms(g)
      ensures AtomConstant(a, st, slopes, T)
    {
      if a.CompAtom? {
        AtomConstantIff(a, st, slopes, T);
      }
    }
    FlattenMeans(g, false, st, 0.0);
    forall s | 0.0 <= s < T
      ensures Sat(g, InBetween(P, C, p, slopes, s), 0.0) <==> Sat(g, st, 0.0)
    {
      FlattenMeans(g, false, InBetween(P, C, p, slopes, s), 0.0);
    }
  }

  lemma StraightRunSeesAll(P: Problem, C: Cascade, run: Run, h: nat, i: nat, slopes: seq<real>)
    requires FaithfulProblem(P) && Legal(P, C, run) && 0 < h < |run| && i < |P.ops|
    requires P.ops[i].Event? || (P.ops[i].Process? && i in run[h - 1].processes)
    requires WellShaped(P, C, run[h - 1]) && WellShaped(P, C, run[h]) && Straight(P, C, run[h - 1], run[h], slopes)
    requires forall a | a in Atoms(P.ops[i].pre) ::
               AffineAtom(a) && (a.CompAtom? ==> Difference(a, run[h - 1].layers[C - 1].vals) != 0.0)
    ensures NothingUnseen(P, C, P.ops[i].pre, run[h - 1], run[h], slopes)
  {
    assert LegalAt(P, C, run, h);
    assert Between(P, C, run[h - 1], run[h]);
    assert FaithfulOp(P.ops[i]);
    NoCrossingNothingUnseen(P, C, P.ops[i].pre, run[h - 1], run[h], slopes);
  }

  /** All continuous effects have constant rates, and the flows are theirs. */
  ghost predicate ConstantRates(P: Problem, rates: seq<seq<Rate>>, orders: seq<seq<nat>>) {
    && |rates| == |orders| == P.fns
    && forall fn | 0 <= fn < P.fns :: FlowsFor(P, fn, rates[fn], orders[fn]) && Distinct(EffectsOf(rates[fn]))
  }

  lemma RunMovesStraight(P: Problem, C: Cascade, run: Run, h: nat, rates: seq<seq<Rate>>, orders: seq<seq<nat>>)
    requires Legal(P, C, run) && 0 < h < |run| && ConstantRates(P, rates, orders)
    requires forall fn | 0 <= fn < P.fns :: !TilAffects(P, run[h].time, TilAssign, fn)
    ensures WellShaped(P, C, run[h - 1]) && WellShaped(P, C, run[h])
    ensures Straight(P, C, run[h - 1], run[h], SlopesAfter(P, run[h - 1], rates))
  {
    assert LegalAt(P, C, run, h);
    forall fn | 0 <= fn < P.fns
      ensures MovesTo(C, run[h - 1], run[h], fn, rates[fn])
    {
      StepInRun(P, C, run, fn, h);
      MovesInStep(P, C, run[h - 1], run[h], fn, rates[fn], orders[fn]);
    }
    RatesMoveStraight(P, C, run[h - 1], run[h], rates);
  }

  predicate Unbalanced(C: Cascade, a: Atom, p: Happening)
    requires a.CompAtom?
  {
    |p.layers| == C && Difference(a, p.layers[C - 1].vals) != 0.0
  }

  /** In a legal run with constant rates no event, and no process running in between, has a numeric
      condition that changes unseen between two happenings, unless a comparison starts balanced or a
      timed literal assigns a function there. */
  lemma RunSeesAll(P: Problem, C: Cascade, run: Run, h: nat, i: nat, rates: seq<seq<Rate>>, orders: seq<seq<nat>>)
    requires FaithfulProblem(P) && Legal(P, C, run) && 0 < h < |run| && i < |P.ops|
    requires ConstantRates(P, rates, orders) && forall fn | 0 <= fn < P.fns :: !TilAffects(P, run[h].time, TilAssign, fn)
    requires P.ops[i].Event? || (P.ops[i].Process? && i in run[h - 1].processes)
    requires forall a | a in Atoms(P.ops[i].pre) :: AffineAtom(a) && (a.CompAtom? ==> Unbalanced(C, a, run[h - 1]))
    ensures WellShaped(P, C, run[h - 1])
    ensures NothingUnseen(P, C, P.ops[i].pre, run[h - 1], run[h], SlopesAfter(P, run[h - 1], rates))
  {
    RunMovesStraight(P, C, run, h, rates, orders);
    StraightRunSeesAll(P, C, run, h, i, SlopesAfter(P, run[h - 1], rates));
  }

  const Growing := CompAtom(Greater, Fluent(0), Num(0.0))

  lemma GrowingMeans(x: real)
    ensures Difference(Growing, [x]) == x && (AtomSat(Growing, State({}, [x]), 0.0) <==> x > 0.0)
  {
    assert Evaluate(Fluent(0), [x], 0.0) == x;
  }

  /** Witness: x > 0 with x = 0 now, growing at rate 1. The endpoint constraint holds, the comparison
      is false now and true at every later time. */
  lemma BalancedMovesOffUnseen(s: real)
    requires s > 0.0
    ensures Keeps(Growing, [0.0], Along([0.0], [1.0], s))
    ensures !AtomSat(Growing, State({}, [0.0]), 0.0) && AtomSat(Growing, State({}, Along([0.0], [1.0], s)), 0.0)
  {
    assert Along([0.0], [1.0], s) == [s];
    GrowingMeans(0.0);
    GrowingMeans(s);
  }
}
