/** When the order of the substitutions shows: exactly if the flow put in first mentions the
    function whose flow is put in second, and that one moves. */
module Tangle {
  import opened Algebra
  import opened FlowPartition
  import opened Evaluation
  import opened Nonzero
  import opened Resolution
  import opened Coverage
  import opened RateEquation
  import opened Numbers

  // ----- A shifted polynomial is another one -----

  /** Every term has the letter. */
  predicate Throughout(p: Poly, x: Letter) {
    forall m | m in p :: CountOf(m, x) > 0
  }

  lemma QuotientThroughout(p: Poly, x: Letter, y: Letter)
    requires Throughout(p, y) && y != x
    ensures Throughout(Quotient(p, x), y)
  {
    forall k | k in Quotient(p, x)
      ensures CountOf(k, y) > 0
    {
      QuotientAt(p, x, k);
      assert CountOf(More(k, x), y) == CountOf(k, y);
    }
  }

  lemma {:induction false} LeadThroughout(p: Poly, x: Letter, n: nat, y: Letter)
    requires LetterBelow(p, x, n) && Throughout(p, y) && y != x
    ensures Throughout(Lead(p, x, n), y)
    decreases n
  {
    if Mentions(p, x) {
      QuotientBelow(p, x, n);
      QuotientThroughout(p, x, y);
      LeadThroughout(Quotient(p, x), x, n - 1, y);
    }
  }

  /** Somewhere one polynomial is not worth zero and the other, growing with time, is large. */
  lemma SomewhereLarge(p: Poly, q: Poly) returns (at: Moment)
    requires p != Zero && q != Zero && Throughout(q, Clock)
    ensures Worth(p, at) != 0.0 && Abs(Worth(q, at)) >= 4.0 && at.t > 0.0
  {
    var n := SomeBound(p.Keys, Clock);
    var k := SomeBound(q.Keys, Clock);
    var before := Somewhere(Lead(p, Clock, n), Lead(q, Clock, k), LettersOf(Lead(p, Clock, n)) + LettersOf(Lead(q, Clock, k)));
    var far, farther;
    far := Away(p, Clock, n, before, 1.0);
    farther := Away(q, Clock, k, before, 4.0);
    at := Put(before, Clock, Larger(far, farther));
    FarNotZero(p, Clock, n, before, far, Larger(far, farther));
    assert Mentions(q, Clock) by {
      var m :| m in q;
    }
    assert Reading(Clock, at) > 0.0;
  }

  /** The worth along one letter. */
  ghost function Along(p: Poly, x: Letter, at: Moment): real -> real {
    r => Worth(p, Put(at, x, r))
  }

  /** Along the letter, by what the other polynomial is worth there. */
  ghost function ShiftedBy(h: Poly, x: Letter, at: Moment): real -> real {
    r => r + Worth(h, Put(at, x, r))
  }

  ghost predicate Grows(move: real -> real, good: real -> bool) {
    forall r | good(r) :: good(move(r)) && Abs(move(r)) >= Abs(r) + 1.0
  }

  lemma GrowsSteadily(h: Poly, x: Letter, at: Moment) returns (good: real -> bool, r: real)
    requires !Mentions(h, x) && Abs(Worth(h, at)) >= 4.0
    ensures good(r) && Grows(ShiftedBy(h, x, at), good)
  {
    var c := Worth(h, at);
    good := y => if c > 0.0 then y >= 0.0 else y <= 0.0;
    r := 0.0;
    forall y | good(y)
      ensures good(ShiftedBy(h, x, at)(y)) && Abs(ShiftedBy(h, x, at)(y)) >= Abs(y) + 1.0
    {
      Unmentioned(h, at, x, y);
    }
  }

  lemma FarShift(r: real, h: real, free: real, q: real)
    requires Divides(h, r, free, q) && Abs(q) >= 4.0 && Abs(r) >= Abs(free) + 1.0
    ensures Abs(r + h) >= Abs(r) + 1.0
  {
    AbsProduct(r, q);
    MoreTimes(4.0, Abs(q), Abs(r));
    assert Mul(Abs(q), Abs(r)) == Mul(Abs(r), Abs(q));
  }

  lemma GrowsAt(h: Poly, x: Letter, at: Moment, far: real, r: real, moved: real)
    requires AwayFrom(Quotient(h, x), x, at, 4.0, far) && Abs(r) >= far && Abs(r) >= Abs(Worth(Free(h, x), at)) + 1.0
    requires moved == ShiftedBy(h, x, at)(r)
    ensures Abs(moved) >= Abs(r) + 1.0
  {
    var there := Put(at, x, r);
    WorthDivided(h, x, there);
    FreeLacks(h, x);
    Unmentioned(Free(h, x), at, x, r);
    FarShift(r, Worth(h, there), Worth(Free(h, x), there), Worth(Quotient(h, x), there));
  }

  ghost function Beyond(least: real): (far: real -> bool)
    ensures far(least)
  {
    y => Abs(y) >= least
  }

  lemma GrowsFast(h: Poly, x: Letter, at: Moment, far: real, least: real)
    requires AwayFrom(Quotient(h, x), x, at, 4.0, far) && least >= far && least >= Abs(Worth(Free(h, x), at)) + 1.0
    ensures Grows(ShiftedBy(h, x, at), Beyond(least))
  {
    var move := ShiftedBy(h, x, at);
    forall y | Beyond(least)(y)
      ensures Beyond(least)(move(y)) && Abs(move(y)) >= Abs(y) + 1.0
    {
      GrowsAt(h, x, at, far, y, move(y));
    }
  }

  lemma AwayLess(p: Poly, x: Letter, at: Moment, K: real, less: real, bound: real)
    requires AwayFrom(p, x, at, K, bound) && less <= K
    ensures AwayFrom(p, x, at, less, bound)
  {
  }

  lemma LeastLead(q: Poly, x: Letter, n: nat, at: Moment)
    requires LetterBelow(q, x, n) && Abs(Worth(Lead(q, x, n), at)) >= 4.0
    ensures LeastWorth(q, x, at, 4.0) >= 4.0
  {
    assert !Mentions(q, x) ==> Lead(q, x, n) == q;
  }

  lemma LeadAway(q: Poly, x: Letter, n: nat, at: Moment) returns (far: real)
    requires LetterBelow(q, x, n) && Abs(Worth(Lead(q, x, n), at)) >= 4.0
    ensures AwayFrom(q, x, at, 4.0, far)
  {
    far := Away(q, x, n, at, 4.0);
    LeastLead(q, x, n, at);
    AwayLess(q, x, at, LeastWorth(q, x, at, 4.0), 4.0, far);
  }

  lemma LeadDivided(h: Poly, x: Letter, n: nat) returns (less: nat)
    requires LetterBelow(h, x, n) && Mentions(h, x)
    ensures LetterBelow(Quotient(h, x), x, less) && Lead(h, x, n) == Lead(Quotient(h, x), x, less)
  {
    QuotientBelow(h, x, n);
    less := n - 1;
  }

  lemma FastGrowth(h: Poly, x: Letter, n: nat, at: Moment) returns (least: real)
    requires LetterBelow(Quotient(h, x), x, n) && Abs(Worth(Lead(Quotient(h, x), x, n), at)) >= 4.0
    ensures Grows(ShiftedBy(h, x, at), Beyond(least))
  {
    var far := LeadAway(Quotient(h, x), x, n, at);
    least := Larger(far, Abs(Worth(Free(h, x), at)) + 1.0);
    GrowsFast(h, x, at, far, least);
  }

  lemma SameThere(p: Poly, x: Letter, at: Moment, r: real, s: real)
    ensures Worth(p, Put(Put(at, x, r), x, s)) == Worth(p, Put(at, x, s))
  {
    Agree(p, Put(Put(at, x, r), x, s), Put(at, x, s));
  }

  lemma LargeAlong(q: Poly, x: Letter, n: nat, at: Moment, K: real) returns (bound: real)
    requires LetterBelow(q, x, n) && Mentions(q, x) && Worth(Lead(q, x, n), at) != 0.0
    ensures forall r | Abs(r) >= bound :: Abs(Along(q, x, at)(r)) >= K
  {
    bound := Away(q, x, n, at, K);
    forall r | Abs(r) >= bound
      ensures Abs(Along(q, x, at)(r)) >= K
    {
      var there := Put(at, x, r);
    }
  }

  lemma ShiftedAlong(q: Poly, x: Letter, n: nat, base: Moment, move: real -> real, good: real -> bool, start: real) returns (r: real)
    requires LetterBelow(q, x, n) && Mentions(q, x) && Worth(Lead(q, x, n), base) != 0.0
    requires good(start) && Grows(move, good)
    ensures Along(q, x, base)(move(r)) != Along(q, x, base)(r)
  {
    var K := Abs(Along(q, x, base)(start)) + 1.0;
    var bound := LargeAlong(q, x, n, base, K);
    var steps := Steps(1.0, bound - Abs(start));
    r := Walk(move, good, Along(q, x, base), 1.0, K, bound, start, steps);
  }

  /** Shifted by a constant. */
  lemma ShiftedSteadily(q: Poly, h: Poly, x: Letter, n: nat, k: nat, base: Moment) returns (r: real)
    requires LetterBelow(q, x, n) && Mentions(q, x) && Worth(Lead(q, x, n), base) != 0.0
    requires LetterBelow(h, x, k) && Abs(Worth(Lead(h, x, k), base)) >= 4.0 && !Mentions(h, x)
    ensures Along(q, x, base)(ShiftedBy(h, x, base)(r)) != Along(q, x, base)(r)
  {
    assert Lead(h, x, k) == h;
    var good, start := GrowsSteadily(h, x, base);
    r := ShiftedAlong(q, x, n, base, ShiftedBy(h, x, base), good, start);
  }

  lemma FastFrom(h: Poly, x: Letter, n: nat, at: Moment) returns (least: real)
    requires LetterBelow(h, x, n) && Abs(Worth(Lead(h, x, n), at)) >= 4.0 && Mentions(h, x)
    ensures Grows(ShiftedBy(h, x, at), Beyond(least))
  {
    var less := LeadDivided(h, x, n);
    least := FastGrowth(h, x, less, at);
  }

  /** Shifted by more the further out. */
  lemma ShiftedFast(q: Poly, h: Poly, x: Letter, n: nat, k: nat, base: Moment) returns (r: real)
    requires LetterBelow(q, x, n) && Mentions(q, x) && Worth(Lead(q, x, n), base) != 0.0
    requires LetterBelow(h, x, k) && Abs(Worth(Lead(h, x, k), base)) >= 4.0 && Mentions(h, x)
    ensures Along(q, x, base)(ShiftedBy(h, x, base)(r)) != Along(q, x, base)(r)
  {
    var least := FastFrom(h, x, k, base);
    r := ShiftedAlong(q, x, n, base, ShiftedBy(h, x, base), Beyond(least), least);
  }

  lemma ShiftedThere(q: Poly, h: Poly, s: int, base: Moment, r: real, at: Moment)
    requires at == Put(base, Named(s), r)
    ensures at.t == base.t && Along(q, Named(s), base)(r) == Worth(q, at)
    ensures Along(q, Named(s), base)(ShiftedBy(h, Named(s), base)(r)) == Worth(q, Put(at, Named(s), at.v(s) + Worth(h, at)))
  {
    var x := Named(s);
    assert Reading(x, at) == r && Reading(Clock, at) == base.t;
    var there := ShiftedBy(h, x, base)(r);
    SameThere(q, x, base, r, there);
    assert there == at.v(s) + Worth(h, at);
  }

  /** A polynomial that mentions the letter is somewhere not what it is with the letter shifted. */
  lemma Shifted(q: Poly, h: Poly, s: int) returns (at: Moment)
    requires Mentions(q, Named(s)) && h != Zero && Throughout(h, Clock)
    ensures at.t > 0.0 && Worth(q, Put(at, Named(s), at.v(s) + Worth(h, at))) != Worth(q, at)
  {
    var x := Named(s);
    var n := SomeBound(q.Keys, x);
    var k := SomeBound(h.Keys, x);
    LeadThroughout(h, x, k, Clock);
    assert q != Zero;
    var base := SomewhereLarge(Lead(q, x, n), Lead(h, x, k));
    var r;
    if Mentions(h, x) {
      r := ShiftedFast(q, h, x, n, k, base);
    } else {
      r := ShiftedSteadily(q, h, x, n, k, base);
    }
    at := Put(base, x, r);
    ShiftedThere(q, h, s, base, r, at);
  }

  // ----- Two dependencies -----

  lemma IntegralThroughout(rate: Poly)
    ensures Throughout(Integral(rate), Clock)
    ensures Integral(rate) == Zero <==> rate == Zero
    ensures forall s :: Mentions(Integral(rate), Named(s)) <==> Mentions(rate, Named(s))
  {
    forall m
      ensures m in Integral(rate) <==> m.t > 0 && Lower(m) in rate
    {
      IntegralAt(rate, m);
    }
    forall m | m in rate
      ensures Raise(m) in Integral(rate)
    {
      assert Lower(Raise(m)) == m;
    }
    forall s
      ensures Mentions(Integral(rate), Named(s)) <==> Mentions(rate, Named(s))
    {
      if Mentions(rate, Named(s)) {
        var m :| m in rate && CountOf(m, Named(s)) > 0;
        assert CountOf(Raise(m), Named(s)) > 0;
      }
      if Mentions(Integral(rate), Named(s)) {
        var m :| m in Integral(rate) && CountOf(m, Named(s)) > 0;
        assert CountOf(Lower(m), Named(s)) > 0;
      }
    }
  }

  /** From its own value on, the function gains this. */
  ghost predicate Gains(running: set<int>, table: Table, d: int, gain: Poly) {
    && Moving(running, table, d)
    && forall at: Moment {:trigger MovedTo(running, table, d, at)} ::
      MovedTo(running, table, d, at) == at.v(d) + Worth(gain, at)
  }

  /** Where the larger one has moved already. */
  ghost function Moved(e: int, gainE: Poly, at: Moment): Moment {
    Put(at, Named(e), at.v(e) + Worth(gainE, at))
  }

  lemma LargerMoves(running: set<int>, table: Table, e: int, gainE: Poly, at: Moment)
    requires Gains(running, table, e, gainE)
    ensures ValuesOf(running, table, {e}, at) == Moved(e, gainE, at)
  {
    assert Least({e}) == e && {e} - {e} == {};
    assert ValuesOf(running, table, {}, at) == at;
    assert MovedTo(running, table, e, at) == at.v(e) + Worth(gainE, at);
  }

  lemma SmallerMoves(running: set<int>, table: Table, d: int, gainD: Poly, at: Moment)
    requires Gains(running, table, d, gainD)
    ensures Put(at, Named(d), MovedTo(running, table, d, at)).v(d) == at.v(d) + Worth(gainD, at)
  {
    var after := Put(at, Named(d), MovedTo(running, table, d, at));
    assert Reading(Named(d), after) == MovedTo(running, table, d, at);
  }

  /** The two ways of moving the smaller dependency. */
  lemma TwoWays(running: set<int>, table: Table, d: int, gainD: Poly, e: int, gainE: Poly, at: Moment)
    requires d < e && Gains(running, table, d, gainD) && Gains(running, table, e, gainE)
    ensures ValuesOf(running, table, {d, e}, at).v(d) == at.v(d) + Worth(gainD, Moved(e, gainE, at))
    ensures AtOnce(running, table, {d, e}, at).v(d) == at.v(d) + Worth(gainD, at)
  {
    assert Least({d, e}) == d && {d, e} - {d} == {e};
    LargerMoves(running, table, e, gainE, at);
    SmallerMoves(running, table, d, gainD, Moved(e, gainE, at));
    assert Reading(Named(d), Moved(e, gainE, at)) == Reading(Named(d), at);
    assert MovedTo(running, table, d, at) == at.v(d) + Worth(gainD, at);
  }

  lemma StaysThere(gainD: Poly, e: int, gainE: Poly, at: Moment)
    requires !Mentions(gainD, Named(e)) || Worth(gainE, at) == 0.0
    ensures Worth(gainD, Moved(e, gainE, at)) == Worth(gainD, at)
  {
    Agree(gainD, Moved(e, gainE, at), at);
  }

  /** Of two dependencies the first gets the value it has at this moment. */
  ghost predicate RightFor(running: set<int>, table: Table, d: int, e: int, at: Moment) {
    ValuesOf(running, table, {d, e}, at).v(d) == AtOnce(running, table, {d, e}, at).v(d)
  }

  lemma RightIff(running: set<int>, table: Table, d: int, gainD: Poly, e: int, gainE: Poly, at: Moment)
    requires d < e && Gains(running, table, d, gainD) && Gains(running, table, e, gainE)
    ensures RightFor(running, table, d, e, at) <==> Worth(gainD, Moved(e, gainE, at)) == Worth(gainD, at)
  {
    TwoWays(running, table, d, gainD, e, gainE, at);
  }

  lemma AlwaysRight(running: set<int>, table: Table, d: int, gainD: Poly, e: int, gainE: Poly, at: Moment)
    requires d < e && Gains(running, table, d, gainD) && Gains(running, table, e, gainE)
    requires !Mentions(gainD, Named(e)) || Worth(gainE, at) == 0.0
    ensures RightFor(running, table, d, e, at)
  {
    RightIff(running, table, d, gainD, e, gainE, at);
    StaysThere(gainD, e, gainE, at);
  }

  lemma SometimesWrong(running: set<int>, table: Table, d: int, gainD: Poly, e: int, gainE: Poly) returns (at: Moment)
    requires d < e && Gains(running, table, d, gainD) && Gains(running, table, e, gainE)
    requires Mentions(gainD, Named(e)) && gainE != Zero && Throughout(gainE, Clock)
    ensures at.t > 0.0 && !RightFor(running, table, d, e, at)
  {
    at := Shifted(gainD, gainE, e);
    RightIff(running, table, d, gainD, e, gainE, at);
  }

  lemma FlowGains(running: set<int>, table: Table, d: int, rate: Poly)
    requires Moving(running, table, d) && TheFlow(running, table, d).polynomial == Flowing(rate, d)
    ensures Gains(running, table, d, Integral(rate))
  {
    forall at: Moment
      ensures MovedTo(running, table, d, at) == at.v(d) + Worth(Integral(rate), at)
    {
      WorthFlowing(rate, d, at);
    }
  }

  /** Both move, each from its own value at its rate. */
  ghost predicate BothMove(running: set<int>, table: Table, d: int, rateD: Poly, e: int, rateE: Poly) {
    && Moving(running, table, d) && Moving(running, table, e)
    && TheFlow(running, table, d).polynomial == Flowing(rateD, d)
    && TheFlow(running, table, e).polynomial == Flowing(rateE, e)
  }

  /** The smaller of two dependencies gets the right value, whatever the values at the start and
      the time passed, if and only if its rate does not mention the larger one or that one's rate is
      zero. */
  lemma RightExactlyIf(running: set<int>, table: Table, d: int, rateD: Poly, e: int, rateE: Poly)
    requires d < e && BothMove(running, table, d, rateD, e, rateE)
    ensures (forall at: Moment | at.t > 0.0 :: RightFor(running, table, d, e, at)) <==> !Mentions(rateD, Named(e)) || rateE == Zero
  {
    var gainD, gainE := Integral(rateD), Integral(rateE);
    IntegralThroughout(rateD);
    IntegralThroughout(rateE);
    FlowGains(running, table, d, rateD);
    FlowGains(running, table, e, rateE);
    if !Mentions(rateD, Named(e)) || rateE == Zero {
      forall at: Moment | at.t > 0.0
        ensures RightFor(running, table, d, e, at)
      {
        WorthZero(at);
        AlwaysRight(running, table, d, gainD, e, gainE, at);
      }
    } else {
      var at := SometimesWrong(running, table, d, gainD, e, gainE);
    }
  }

  // ----- A failing input -----

  const One: Poly := Single(1.0, Mono(0, multiset{}))

  function Driven(deps: set<int>, poly: Poly): SingleFlow {
    SingleFlow({10}, deps, [], poly)
  }

  /** While operator 10 runs, function 2 moves at rate one, and function 1 at the value of 2. */
  function Driving(): Table {
    map[1 := [Driven({}, Flowing(Flowing(One, 2), 1))], 2 := [Driven({}, Flowing(One, 2))]]
  }

  /** A third function moves at the sum of the two. */
  function Follower(): SingleFlow {
    Driven({1, 2}, Add(SymbolPoly(1), SymbolPoly(2)))
  }

  // ----- What the two gain -----

  /** After so much time function 1 has gained this. */
  ghost predicate GainsDriven(p: Poly) {
    forall at: Moment :: Worth(p, at) == Mul(at.t, at.v(2)) + Mul(0.5, Mul(at.t, at.t))
  }

  ghost predicate GainsTime(p: Poly) {
    forall at: Moment :: Worth(p, at) == at.t
  }

  lemma OverSmall()
    ensures Over(1.0, 1) == 1.0 && Over(1.0, 2) == 0.5 && Over(0.0, 1) == 0.0
  {
  }

  lemma LowPowers(t: real)
    ensures Power(t, 1) == t && Power(t, 2) == Mul(t, t)
  {
    assert Power(t, 1) == t * Power(t, 0);
    assert Power(t, 2) == t * Power(t, 1);
  }

  lemma IntegralOfOne()
    ensures GainsTime(Integral(One))
  {
    forall m
      ensures Coefficient(Integral(One), m) == if m == Mono(1, multiset{}) then 1.0 else 0.0
    {
      IntegralAt(One, m);
      OverSmall();
      assert m.t > 0 ==> (Lower(m) == Mono(0, multiset{}) <==> m == Mono(1, multiset{}));
    }
    forall at: Moment
      ensures Worth(Integral(One), at) == at.t
    {
      WorthTerm(Integral(One), 1.0, Mono(1, multiset{}), at);
      LowPowers(at.t);
    }
  }

  lemma FlowingOne(m: Mono)
    ensures Coefficient(Flowing(One, 2), m) ==
            if m == Mono(1, multiset{}) || m == Mono(0, multiset{2}) then 1.0 else 0.0
  {
    FlowingAt(One, 2, m);
    OverSmall();
    if m.t > 0 {
      assert Lower(m) == Mono(0, multiset{}) <==> m == Mono(1, multiset{});
    }
  }

  lemma DrivenCoefficient(p: Poly, q: Poly, m: Mono)
    requires Coefficient(q, m) == if m.t == 0 then 0.0 else Over(Coefficient(p, Lower(m)), m.t)
    requires m.t > 0 ==> Coefficient(p, Lower(m)) ==
                         if Lower(m) == Mono(1, multiset{}) || Lower(m) == Mono(0, multiset{2}) then 1.0 else 0.0
    ensures Coefficient(q, m) == (if m == Mono(1, multiset{2}) then 1.0 else 0.0) + if m == Mono(2, multiset{}) then 0.5 else 0.0
  {
    OverSmall();
    if m.t > 0 {
      assert Lower(m) == Mono(1, multiset{}) <==> m == Mono(2, multiset{});
      assert Lower(m) == Mono(0, multiset{2}) <==> m == Mono(1, multiset{2});
    }
  }

  lemma DrivenTerms(p: Poly, at: Moment)
    requires IsSum(Single(1.0, Mono(1, multiset{2})), Single(0.5, Mono(2, multiset{})), p)
    ensures Worth(p, at) == Mul(at.t, at.v(2)) + Mul(0.5, Mul(at.t, at.t))
  {
    var a, b := Mono(1, multiset{2}), Mono(2, multiset{});
    WorthSum(Single(1.0, a), Single(0.5, b), p, at);
    WorthTerm(Single(1.0, a), 1.0, a, at);
    WorthTerm(Single(0.5, b), 0.5, b, at);
    LowPowers(at.t);
    ProductSplit(multiset{2}, at.v, 2);
    assert multiset{2} - multiset{2} == multiset{};
  }

  lemma IntegralOfDriven()
    ensures GainsDriven(Integral(Flowing(One, 2)))
  {
    var p := Integral(Flowing(One, 2));
    forall m
      ensures Coefficient(p, m) ==
              Coefficient(Single(1.0, Mono(1, multiset{2})), m) + Coefficient(Single(0.5, Mono(2, multiset{})), m)
    {
      IntegralAt(Flowing(One, 2), m);
      if m.t > 0 {
        FlowingOne(Lower(m));
      }
      DrivenCoefficient(Flowing(One, 2), p, m);
    }
    forall at: Moment
      ensures Worth(p, at) == Mul(at.t, at.v(2)) + Mul(0.5, Mul(at.t, at.t))
    {
      DrivenTerms(p, at);
    }
  }

  // ----- Where they are after one unit of time -----

  ghost predicate Drives(running: set<int>, table: Table, gain1: Poly, gain2: Poly) {
    && Gains(running, table, 1, gain1) && Gains(running, table, 2, gain2)
    && GainsDriven(gain1) && GainsTime(gain2)
  }

  lemma LargerStays(running: set<int>, table: Table, gain1: Poly, gain2: Poly, at: Moment)
    requires Drives(running, table, gain1, gain2)
    ensures ValuesOf(running, table, {1, 2}, at).v(2) == at.v(2) + at.t
    ensures AtOnce(running, table, {1, 2}, at).v(2) == at.v(2) + at.t
  {
    var moved := Moved(2, gain2, at);
    assert Least({1, 2}) == 1 && {1, 2} - {1} == {2};
    LargerMoves(running, table, 2, gain2, at);
    var after := Put(moved, Named(1), MovedTo(running, table, 1, moved));
    assert Reading(Named(2), after) == Reading(Named(2), moved);
    assert Reading(Named(2), moved) == at.v(2) + Worth(gain2, at);
    assert MovedTo(running, table, 2, at) == at.v(2) + Worth(gain2, at);
  }

  /** From zero the dependencies are then worth one half and one; put in one after the other, three
      halves and one. */
  lemma DrivenValues(running: set<int>, table: Table, gain1: Poly, gain2: Poly, at: Moment)
    requires Drives(running, table, gain1, gain2) && at.t == 1.0 && at.v(1) == 0.0 && at.v(2) == 0.0
    ensures AtOnce(running, table, {1, 2}, at).v(1) == 0.5 && AtOnce(running, table, {1, 2}, at).v(2) == 1.0
    ensures ValuesOf(running, table, {1, 2}, at).v(1) == 1.5 && ValuesOf(running, table, {1, 2}, at).v(2) == 1.0
  {
    var moved := Moved(2, gain2, at);
    assert Reading(Named(2), moved) == 1.0 && Reading(Clock, moved) == 1.0;
    TwoWays(running, table, 1, gain1, 2, gain2, at);
    LargerStays(running, table, gain1, gain2, at);
    assert Worth(gain1, at) == Mul(1.0, 0.0) + Mul(0.5, Mul(1.0, 1.0));
    assert Worth(gain1, moved) == Mul(1.0, 1.0) + Mul(0.5, Mul(1.0, 1.0));
  }

  lemma SingleMoves(running: set<int>, table: Table, d: int, f: SingleFlow)
    requires FlowsIn(table, d) == [f] && Satisfies(running, f.operators)
    ensures Moving(running, table, d) && TheFlow(running, table, d) == f
  {
    assert OnlyFlow(running, FlowsIn(table, d), 0);
    TheFlowIs(running, table, d, 0);
  }

  lemma DrivingGains(table: Table, d: int, rate: Poly)
    requires FlowsIn(table, d) == [Driven({}, Flowing(rate, d))]
    ensures Gains({10}, table, d, Integral(rate))
  {
    SingleMoves({10}, table, d, Driven({}, Flowing(rate, d)));
    FlowGains({10}, table, d, rate);
  }

  lemma DrivingDrives()
    ensures Drives({10}, Driving(), Integral(Flowing(One, 2)), Integral(One))
  {
    DrivingGains(Driving(), 1, Flowing(One, 2));
    DrivingGains(Driving(), 2, One);
    IntegralOfDriven();
    IntegralOfOne();
  }

  lemma FollowerWorth(p: Poly, at: Moment)
    requires IsSum(SymbolPoly(1), SymbolPoly(2), p)
    ensures Worth(p, at) == at.v(1) + at.v(2)
  {
    WorthSum(SymbolPoly(1), SymbolPoly(2), p, at);
    WorthSymbol(1, at);
    WorthSymbol(2, at);
  }

  lemma FollowerPasses(table: Table, running: set<int>, ops: set<int>)
    requires Moving(running, table, 1) && Moving(running, table, 2)
    ensures Passable(table, running, ops, {1, 2})
  {
    assert Least({1, 2}) == 1 && {1, 2} - {1} == {2};
    assert Least({2}) == 2 && {2} - {2} == {};
    var more := ops + TheFlow(running, table, 1).operators;
    assert Passable(table, running, more + TheFlow(running, table, 2).operators, {});
    assert Passable(table, running, more, {2});
  }

  /** The two rates of a flow at this moment: what its resolved polynomial is worth, and what its own
      polynomial is worth with the dependencies where their flows take them. */
  ghost predicate Rates(subs: Substitution, running: set<int>, table: Table, f: SingleFlow, at: Moment, encoded: real, right: real) {
    && Worth(f.polynomial, AtOnce(running, table, f.dependencies, at)) == right
    && Worth(Target(subs, table, running, f.polynomial, f.dependencies), at) == encoded
  }

  lemma FollowerRates(subs: Substitution, running: set<int>, table: Table, gain1: Poly, gain2: Poly, f: SingleFlow, at: Moment)
    requires Substitutes(subs) && Drives(running, table, gain1, gain2) && at.t == 1.0 && at.v(1) == 0.0 && at.v(2) == 0.0
    requires f.dependencies == {1, 2} && IsSum(SymbolPoly(1), SymbolPoly(2), f.polynomial)
    ensures Rates(subs, running, table, f, at, 2.5, 1.5)
  {
    DrivenValues(running, table, gain1, gain2, at);
    FollowerWorth(f.polynomial, AtOnce(running, table, {1, 2}, at));
    FollowerWorth(f.polynomial, ValuesOf(running, table, {1, 2}, at));
    TargetMeans(subs, table, running, f.polynomial, {1, 2}, at);
  }

  /** The resolved flow that is satisfied has the one, and the function should move at the other. */
  ghost predicate EncodesWrong(subs: Substitution, running: set<int>, table: Table, f: SingleFlow, at: Moment,
                               encoded: real, right: real) {
    && Worth(f.polynomial, AtOnce(running, table, f.dependencies, at)) == right
    && exists k: nat :: k < |Resolved(subs, table, [f])| && Satisfies(running, Resolved(subs, table, [f])[k].operators)
         && Worth(Resolved(subs, table, [f])[k].polynomial, at) == encoded
  }

  lemma RatesEncode(subs: Substitution, running: set<int>, table: Table, f: SingleFlow, at: Moment, encoded: real, right: real)
    requires Rates(subs, running, table, f, at, encoded, right)
    requires Satisfies(running, f.operators) && Passable(table, running, f.operators, f.dependencies)
    ensures EncodesWrong(subs, running, table, f, at, encoded, right)
  {
    ResolvedCovers(subs, table, running, [f], f);
  }

  lemma WrongWhenDriven(subs: Substitution, running: set<int>, table: Table, gain1: Poly, gain2: Poly, f: SingleFlow, at: Moment)
    requires Substitutes(subs) && Drives(running, table, gain1, gain2) && at.t == 1.0 && at.v(1) == 0.0 && at.v(2) == 0.0
    requires f.dependencies == {1, 2} && IsSum(SymbolPoly(1), SymbolPoly(2), f.polynomial)
    requires Satisfies(running, f.operators)
    ensures EncodesWrong(subs, running, table, f, at, 2.5, 1.5)
  {
    FollowerRates(subs, running, table, gain1, gain2, f, at);
    FollowerPasses(table, running, f.operators);
    RatesEncode(subs, running, table, f, at, 2.5, 1.5);
  }

  lemma FollowerIs()
    ensures Follower().dependencies == {1, 2} && IsSum(SymbolPoly(1), SymbolPoly(2), Follower().polynomial)
    ensures Satisfies({10}, Follower().operators)
  {
    AddIsSum(SymbolPoly(1), SymbolPoly(2));
  }

  /** After one unit of time from zero, the rate of the third function should be three halves, and
      the resolved flow that is satisfied gives five halves. */
  lemma FollowerIsWrong(subs: Substitution, at: Moment)
    requires Substitutes(subs) && at.t == 1.0 && at.v(1) == 0.0 && at.v(2) == 0.0
    ensures EncodesWrong(subs, {10}, Driving(), Follower(), at, 2.5, 1.5)
  {
    DrivingDrives();
    FollowerIs();
    WrongWhenDriven(subs, {10}, Driving(), Integral(Flowing(One, 2)), Integral(One), Follower(), at);
  }
}
