/** Polynomials in the time symbol #t and other symbols, as the algebra system keeps them: in
    normal form, every monomial once and no zero coefficient. */
module Algebra {

  /** A power of #t times a product of other symbols. */
  datatype Mono = Mono(t: nat, symbols: multiset<int>)

  type Poly = p: map<Mono, real> | forall m | m in p :: p[m] != 0.0 witness map[]

  const Zero: Poly := map[]

  function Coefficient(p: Poly, m: Mono): real {
    if m in p then p[m] else 0.0
  }

  /** Normal forms with the same coefficients are the same. */
  lemma SameCoefficients(p: Poly, q: Poly)
    requires forall m :: Coefficient(p, m) == Coefficient(q, m)
    ensures p == q
  {
    forall m
      ensures m in p <==> m in q
      ensures m in p ==> p[m] == q[m]
    {
      assert Coefficient(p, m) == Coefficient(q, m);
    }
    assert p.Keys == q.Keys;
  }

  function Add(p: Poly, q: Poly): Poly {
    map m | m in p.Keys + q.Keys && Coefficient(p, m) + Coefficient(q, m) != 0.0 :: Coefficient(p, m) + Coefficient(q, m)
  }

  lemma AddAt(p: Poly, q: Poly, m: Mono)
    ensures Coefficient(Add(p, q), m) == Coefficient(p, m) + Coefficient(q, m)
  {
  }

  function SymbolPoly(symbol: int): Poly {
    map[Mono(0, multiset{symbol}) := 1.0]
  }

  function Lower(m: Mono): Mono
    requires m.t > 0
  {
    m.(t := m.t - 1)
  }

  function Raise(m: Mono): Mono {
    m.(t := m.t + 1)
  }

  function Lowered(p: Poly): (keys: set<Mono>)
    ensures forall m: Mono :: m in keys <==> Raise(m) in p
  {
    var keys := set m: Mono | m in p && m.t > 0 :: Lower(m);
    assert forall m: Mono :: m in keys <==> Raise(m) in p by {
      forall m: Mono
        ensures m in keys <==> Raise(m) in p
      {
        assert Lower(Raise(m)) == m;
        if m in keys {
          var k: Mono :| k in p && k.t > 0 && m == Lower(k);
          assert Raise(m) == k;
        }
      }
    }
    keys
  }

  function Raised(p: Poly): (keys: set<Mono>)
    ensures forall m: Mono :: m in keys <==> m.t > 0 && Lower(m) in p
  {
    var keys := set m: Mono | m in p :: Raise(m);
    assert forall m: Mono :: m in keys <==> m.t > 0 && Lower(m) in p by {
      forall m: Mono
        ensures m in keys <==> m.t > 0 && Lower(m) in p
      {
        assert m.t > 0 ==> Raise(Lower(m)) == m;
        if m in keys {
          var k: Mono :| k in p && m == Raise(k);
          assert Lower(m) == k;
        }
      }
    }
    keys
  }

  function Times(k: nat, x: real): (y: real)
    ensures y == 0.0 <==> k == 0 || x == 0.0
  {
    k as real * x
  }

  function Over(x: real, k: nat): (y: real)
    requires k > 0
    ensures y == 0.0 <==> x == 0.0
    ensures Times(k, y) == x
  {
    x / k as real
  }

  /** The partial derivative in #t. */
  function Derivative(p: Poly): Poly {
    var keys := Lowered(p);
    map m: Mono | m in keys :: Times(m.t + 1, p[Raise(m)])
  }

  lemma DerivativeAt(p: Poly, m: Mono)
    ensures Coefficient(Derivative(p), m) == Times(m.t + 1, Coefficient(p, Raise(m)))
  {
    assert m in Lowered(p) <==> Raise(m) in p;
  }

  /** q has the coefficients of the derivative of p. */
  ghost predicate IsDerivative(p: Poly, q: Poly) {
    forall m :: Coefficient(q, m) == Times(m.t + 1, Coefficient(p, Raise(m)))
  }

  lemma DerivativeIs(p: Poly)
    ensures IsDerivative(p, Derivative(p))
  {
    forall m
      ensures Coefficient(Derivative(p), m) == Times(m.t + 1, Coefficient(p, Raise(m)))
    {
      DerivativeAt(p, m);
    }
  }

  /** The integral in #t that vanishes at zero. */
  function Integral(p: Poly): Poly {
    var keys := Raised(p);
    map m: Mono | m in keys :: Over(p[Lower(m)], m.t)
  }

  lemma IntegralAt(p: Poly, m: Mono)
    ensures Coefficient(Integral(p), m) == if m.t == 0 then 0.0 else Over(Coefficient(p, Lower(m)), m.t)
  {
    assert m in Raised(p) <==> m.t > 0 && Lower(m) in p;
  }

  /** What is left at #t = 0. */
  function AtZero(p: Poly): Poly {
    map m | m in p && m.t == 0 :: p[m]
  }

  lemma AtZeroAt(p: Poly, m: Mono)
    ensures Coefficient(AtZero(p), m) == if m.t == 0 then Coefficient(p, m) else 0.0
  {
  }

  lemma AddZero(p: Poly)
    ensures Add(Zero, p) == p && Add(p, Zero) == p
  {
    forall m
      ensures Coefficient(Add(Zero, p), m) == Coefficient(p, m) && Coefficient(Add(p, Zero), m) == Coefficient(p, m)
    {
      AddAt(Zero, p, m);
      AddAt(p, Zero, m);
    }
    SameCoefficients(Add(Zero, p), p);
    SameCoefficients(Add(p, Zero), p);
  }

  /** A rate, integrated and started at the function's own symbol. */
  function Flowing(rate: Poly, symbol: int): Poly {
    Add(Integral(rate), SymbolPoly(symbol))
  }

  lemma FlowingAt(rate: Poly, symbol: int, m: Mono)
    ensures Coefficient(Flowing(rate, symbol), m) ==
            if m.t > 0 then Over(Coefficient(rate, Lower(m)), m.t) else Coefficient(SymbolPoly(symbol), m)
  {
    AddAt(Integral(rate), SymbolPoly(symbol), m);
    IntegralAt(rate, m);
  }

  /** The integrated flow changes at the rate and starts at the function's own symbol. */
  lemma FlowingMeans(rate: Poly, symbol: int)
    ensures IsDerivative(Flowing(rate, symbol), rate)
    ensures AtZero(Flowing(rate, symbol)) == SymbolPoly(symbol)
  {
    var flowing := Flowing(rate, symbol);
    forall m
      ensures Coefficient(rate, m) == Times(m.t + 1, Coefficient(flowing, Raise(m)))
    {
      FlowingAt(rate, symbol, Raise(m));
      assert Lower(Raise(m)) == m;
    }
    forall m
      ensures Coefficient(AtZero(flowing), m) == Coefficient(SymbolPoly(symbol), m)
    {
      FlowingAt(rate, symbol, m);
      AtZeroAt(flowing, m);
    }
    SameCoefficients(AtZero(flowing), SymbolPoly(symbol));
  }

  // ----- Successive derivatives -----

  predicate DegreeBelow(p: Poly, n: nat) {
    forall m | m in p :: m.t < n
  }

  lemma {:induction false} SomeDegree(keys: set<Mono>) returns (n: nat)
    ensures forall m | m in keys :: m.t < n
    decreases |keys|
  {
    if keys == {} {
      n := 0;
    } else {
      var m :| m in keys;
      n := SomeDegree(keys - {m});
      n := if m.t < n then n else m.t + 1;
    }
  }

  lemma DerivativeLowers(p: Poly, q: Poly, n: nat)
    requires DegreeBelow(p, n + 1) && IsDerivative(p, q)
    ensures DegreeBelow(q, n)
  {
    forall m | m in q
      ensures m.t < n
    {
      assert Coefficient(q, m) == Times(m.t + 1, Coefficient(p, Raise(m)));
      assert Raise(m) in p;
    }
  }

  /** p and its first derivatives, none of them zero but perhaps p itself. */
  ghost predicate FirstDerivatives(p: Poly, list: seq<Poly>) {
    && |list| > 0 && list[0] == p
    && (forall k | 0 < k < |list| :: IsDerivative(list[k - 1], list[k]))
    && (forall k | 0 < k < |list| :: list[k] != Zero)
  }

  /** p and its derivatives down to the last one that is not zero. */
  ghost predicate AllDerivatives(p: Poly, list: seq<Poly>) {
    FirstDerivatives(p, list) && IsDerivative(list[|list| - 1], Zero)
  }

  lemma SomeTerm(p: Poly, n: nat)
    requires p != Zero && DegreeBelow(p, n)
    ensures n > 0
  {
    var m :| m in p;
    assert m.t < n;
  }

  lemma ZeroIsConstant()
    ensures IsDerivative(Zero, Zero)
  {
  }

  method Differentiate(p: Poly) returns (q: Poly)
    ensures IsDerivative(p, q)
  {
    q := Derivative(p);
    DerivativeIs(p);
  }

  lemma OneMoreDerivative(p: Poly, list: seq<Poly>, next: Poly)
    requires FirstDerivatives(p, list) && IsDerivative(list[|list| - 1], next) && next != Zero
    ensures FirstDerivatives(p, list + [next])
  {
    var more := list + [next];
    forall k | 0 < k < |more|
      ensures IsDerivative(more[k - 1], more[k]) && more[k] != Zero
    {
      if k < |list| {
        assert more[k - 1] == list[k - 1] && more[k] == list[k];
        assert IsDerivative(list[k - 1], list[k]);
      }
    }
  }

  /** What the loop knows: the last of the list is the current expression, or it was the last. */
  ghost predicate Differentiated(p: Poly, list: seq<Poly>, expr: Poly, n: nat) {
    && FirstDerivatives(p, list) && DegreeBelow(expr, n)
    && if expr == Zero then IsDerivative(list[|list| - 1], Zero) else expr == list[|list| - 1]
  }

  lemma DifferentiatedNext(p: Poly, list: seq<Poly>, expr: Poly, n: nat, next: Poly)
    requires Differentiated(p, list, expr, n) && expr != Zero && IsDerivative(expr, next) && n > 0
    ensures Differentiated(p, if next != Zero then list + [next] else list, next, n - 1)
  {
    DerivativeLowers(expr, next, n - 1);
    if next != Zero {
      OneMoreDerivative(p, list, next);
    }
  }

  /** Differentiate until nothing is left; the degree in #t falls each time. */
  method Derivatives(p: Poly) returns (list: seq<Poly>)
    ensures AllDerivatives(p, list)
  {
    ZeroIsConstant();
    list := [p];
    var expr := p;
    ghost var n := SomeDegree(p.Keys);
    while expr != Zero
      invariant Differentiated(p, list, expr, n)
      decreases n
    {
      SomeTerm(expr, n);
      var next := Differentiate(expr);
      DifferentiatedNext(p, list, expr, n, next);
      expr := next;
      if expr != Zero {
        list := list + [expr];
      }
      n := n - 1;
    }
  }
}
