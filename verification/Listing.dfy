/** The encoder's flows as those of the algebra: the same operators, and lists of monomials worth
    what the polynomials are. */
module Listing {
  import opened Numbers
  import opened Pddl
  import opened Semantics
  import opened Algebra
  import opened Evaluation
  import opened FlowPartition

  /** The normal form of a product of factors. */
  function MonoOf(factors: seq<Factor>): Mono {
    if factors == [] then Mono(0, multiset{})
    else
      var last := factors[|factors| - 1];
      var rest := MonoOf(factors[..|factors| - 1]);
      match last.sym
      case HashT => rest.(t := rest.t + last.power)
      case Function(fn) => rest.(symbols := rest.symbols + multiset{}[fn := last.power])
  }

  /** The monomials of a list are the terms of the polynomial, each once. */
  ghost predicate Lists(poly: seq<Monomial>, p: Poly) {
    && (forall k | 0 <= k < |poly| :: Coefficient(p, MonoOf(poly[k].factors)) == poly[k].cf != 0.0)
    && (forall j, k | 0 <= j < k < |poly| :: MonoOf(poly[j].factors) != MonoOf(poly[k].factors))
    && (forall m | m in p :: exists k | 0 <= k < |poly| :: MonoOf(poly[k].factors) == m)
  }

  /** The values of the functions, for the algebra. */
  ghost function ValuesIn(vals: seq<real>): Valuation {
    (s: int) => if 0 <= s < |vals| then vals[s] else 0.0
  }

  lemma {:induction false} PowerAdds(x: real, a: nat, b: nat)
    ensures Power(x, a + b) == Mul(Power(x, a), Power(x, b))
    decreases b
  {
    if b > 0 {
      PowerAdds(x, a, b - 1);
      assert Power(x, a + b) == Mul(x, Power(x, a + b - 1));
      assert Power(x, b) == Mul(x, Power(x, b - 1));
      Swap(x, Power(x, a), Power(x, b - 1));
    }
  }

  lemma {:induction false} ProductRepeated(symbols: multiset<int>, v: Valuation, s: int, k: nat)
    ensures Product(symbols + multiset{}[s := k], v) == Mul(Product(symbols, v), Power(v(s), k))
    decreases k
  {
    var all := symbols + multiset{}[s := k];
    if k == 0 {
      assert all == symbols;
    } else {
      ProductSplit(all, v, s);
      assert all - multiset{s} == symbols + multiset{}[s := k - 1];
      ProductRepeated(symbols, v, s, k - 1);
      assert Power(v(s), k) == Mul(v(s), Power(v(s), k - 1));
      Swap(v(s), Product(symbols, v), Power(v(s), k - 1));
    }
  }

  lemma Shift(cf: real, x: real, y: real, z: real)
    ensures Mul(Mul(cf, Mul(x, y)), z) == Mul(cf, Mul(Mul(x, z), y))
    ensures Mul(Mul(cf, Mul(x, y)), z) == Mul(cf, Mul(x, Mul(y, z)))
  {
  }

  lemma MonomialNext(cf: real, rest: Mono, last: Factor, all: Mono, vals: seq<real>, at: Moment)
    requires at == Moment(at.t, ValuesIn(vals))
    requires all == match last.sym
                    case HashT => rest.(t := rest.t + last.power)
                    case Function(fn) => rest.(symbols := rest.symbols + multiset{}[fn := last.power])
    ensures Mul(Mul(cf, MonoWorth(rest, at)), Power(SymbolValue(last.sym, vals, at.t), last.power)) == Mul(cf, MonoWorth(all, at))
  {
    var x, y, z := Power(at.t, rest.t), Product(rest.symbols, at.v), Power(SymbolValue(last.sym, vals, at.t), last.power);
    Shift(cf, x, y, z);
    match last.sym
    case HashT =>
      PowerAdds(at.t, rest.t, last.power);
    case Function(fn) =>
      ProductRepeated(rest.symbols, at.v, fn, last.power);
  }

  lemma MonomialStep(cf: real, factors: seq<Factor>, vals: seq<real>, t: real)
    requires factors != []
    ensures
      var n := |factors| - 1;
      MonomialValue(cf, factors, vals, t) ==
      Mul(MonomialValue(cf, factors[..n], vals, t), Power(SymbolValue(factors[n].sym, vals, t), factors[n].power))
  {
  }

  lemma {:induction false} MonomialWorth(cf: real, factors: seq<Factor>, vals: seq<real>, at: Moment)
    requires at == Moment(at.t, ValuesIn(vals))
    ensures MonomialValue(cf, factors, vals, at.t) == Mul(cf, MonoWorth(MonoOf(factors), at))
  {
    if factors == [] {
      assert MonoWorth(Mono(0, multiset{}), at) == 1.0;
    } else {
      var n := |factors| - 1;
      MonomialStep(cf, factors, vals, at.t);
      MonomialWorth(cf, factors[..n], vals, at);
      MonomialNext(cf, MonoOf(factors[..n]), factors[n], MonoOf(factors), vals, at);
    }
  }

  lemma DropAt(p: Poly, m: Mono, k: Mono)
    ensures k in Drop(p, m) <==> k in p && k != m
    ensures k != m ==> Coefficient(Drop(p, m), k) == Coefficient(p, k)
  {
  }

  lemma ListedOnce(poly: seq<Monomial>, p: Poly, m: Mono)
    requires poly != [] && Lists(poly, p) && m == MonoOf(poly[|poly| - 1].factors)
    ensures
      var n := |poly| - 1;
      && m in p && p[m] == poly[n].cf
      && forall k | 0 <= k < n :: Coefficient(Drop(p, m), MonoOf(poly[k].factors)) == poly[k].cf != 0.0
  {
    var n := |poly| - 1;
    assert Coefficient(p, m) == poly[n].cf != 0.0;
    forall k | 0 <= k < n
      ensures Coefficient(Drop(p, m), MonoOf(poly[k].factors)) == poly[k].cf != 0.0
    {
      DropAt(p, m, MonoOf(poly[k].factors));
    }
  }

  lemma ListedElsewhere(poly: seq<Monomial>, p: Poly, m: Mono, x: Mono)
    requires poly != [] && Lists(poly, p) && m == MonoOf(poly[|poly| - 1].factors) && x in Drop(p, m)
    ensures exists k | 0 <= k < |poly| - 1 :: MonoOf(poly[k].factors) == x
  {
    DropAt(p, m, x);
    var k :| 0 <= k < |poly| && MonoOf(poly[k].factors) == x;
  }

  /** Without its last monomial the list is that of the polynomial without that term. */
  lemma ListsDropped(poly: seq<Monomial>, p: Poly)
    requires poly != [] && Lists(poly, p)
    ensures
      var n := |poly| - 1;
      var m := MonoOf(poly[n].factors);
      m in p && p[m] == poly[n].cf && Lists(poly[..n], Drop(p, m))
  {
    var n := |poly| - 1;
    var m := MonoOf(poly[n].factors);
    ListedOnce(poly, p, m);
    var rest := poly[..n];
    forall x | x in Drop(p, m)
      ensures exists k | 0 <= k < n :: MonoOf(rest[k].factors) == x
    {
      ListedElsewhere(poly, p, m, x);
      var k :| 0 <= k < n && MonoOf(poly[k].factors) == x;
      assert rest[k] == poly[k];
    }
  }

  /** A list is worth what its polynomial is. */
  lemma {:induction false} ListedWorth(poly: seq<Monomial>, p: Poly, vals: seq<real>, at: Moment)
    requires Lists(poly, p) && at == Moment(at.t, ValuesIn(vals))
    ensures PolyValue(poly, vals, at.t) == Worth(p, at)
  {
    if poly == [] {
      assert p == Zero;
    } else {
      var n := |poly| - 1;
      var m := MonoOf(poly[n].factors);
      ListsDropped(poly, p);
      ListedWorth(poly[..n], Drop(p, m), vals, at);
      MonomialWorth(poly[n].cf, poly[n].factors, vals, at);
      Peel(p, m);
      WorthSum(Single(p[m], m), Drop(p, m), p, at);
      WorthTerm(Single(p[m], m), p[m], m, at);
    }
  }

  // ----- The flows of the encoder -----

  /** The encoder's flow is this one of the algebra's: the same operators, and its monomials the
      terms of the polynomial. */
  ghost predicate Represents(flow: Flow, f: SingleFlow) {
    && (forall o :: o in flow.operators <==> o in f.operators)
    && Lists(flow.poly, f.polynomial)
  }

  /** The numbers, from one, of the operators running after the happening. */
  function RunningIds(p: Happening): set<int> {
    set i: nat | i in p.due.Keys + p.processes :: i as int + 1
  }

  lemma RunningId(p: Happening, o: int)
    requires o > 0
    ensures o in RunningIds(p) <==> RunsAfter(p, OpOf(o))
  {
    if RunsAfter(p, OpOf(o)) {
      var i: nat := OpOf(o);
      assert i in p.due.Keys + p.processes && o == i as int + 1;
    }
  }

  lemma MatchesIs(flow: Flow, operators: set<int>, p: Happening)
    requires 0 !in operators && forall o :: o in flow.operators <==> o in operators
    ensures Matches(flow.operators, p) <==> Satisfies(RunningIds(p), operators)
  {
    forall o | o in operators
      ensures (RunsAfter(p, OpOf(o)) <==> o > 0) <==> if o > 0 then o in RunningIds(p) else -o !in RunningIds(p)
    {
      RunningId(p, if o > 0 then o else -o);
      assert OpOf(o) == OpOf(-o);
    }
  }

  /** How long after p the other happening is. */
  function Elapsed(p: Happening, x: Happening): real {
    x.time - p.time
  }

  lemma FlowGives(P: Problem, C: Cascade, p: Happening, x: Happening, fn: nat, f: Flow)
    requires WellShaped(P, C, p) && WellShaped(P, C, x) && fn < P.fns && Matches(f.operators, p)
    ensures FlowApplies(P, C, p, x, fn, f) <==>
            x.layers[0].vals[fn] == PolyValue(f.poly, p.layers[C - 1].vals, Elapsed(p, x))
  {
  }
}
