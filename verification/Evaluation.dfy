/** What polynomials are worth when #t and the symbols have values. */
module Evaluation {
  import opened Numbers
  import opened Algebra

  /** What a polynomial may mention. */
  datatype Letter = Clock | Named(s: int)

  type Valuation = int -> real

  /** A value for #t and one for every symbol. */
  datatype Moment = Moment(t: real, v: Valuation)

  function Reading(x: Letter, at: Moment): real {
    match x
    case Clock => at.t
    case Named(s) => at.v(s)
  }

  function Put(at: Moment, x: Letter, r: real): (after: Moment)
    ensures forall y :: Reading(y, after) == if y == x then r else Reading(y, at)
  {
    match x
    case Clock => at.(t := r)
    case Named(s) => at.(v := (s': int) => if s' == s then r else at.v(s'))
  }

  function Mul(x: real, y: real): real {
    x * y
  }

  // ----- Sums over sets -----

  ghost function Total<T>(keys: set<T>, w: T -> real): real {
    if keys == {} then 0.0
    else
      var k :| k in keys;
      w(k) + Total(keys - {k}, w)
  }

  /** The order does not matter. */
  lemma {:induction false} TotalSplit<T>(keys: set<T>, w: T -> real, k: T)
    requires k in keys
    ensures Total(keys, w) == w(k) + Total(keys - {k}, w)
    decreases |keys|
  {
    var first :| first in keys && Total(keys, w) == w(first) + Total(keys - {first}, w);
    if first != k {
      TotalSplit(keys - {first}, w, k);
      TotalSplit(keys - {k}, w, first);
      assert keys - {first} - {k} == keys - {k} - {first};
    }
  }

  lemma {:induction false} TotalSame<T>(keys: set<T>, w: T -> real, u: T -> real)
    requires forall k | k in keys :: w(k) == u(k)
    ensures Total(keys, w) == Total(keys, u)
    decreases |keys|
  {
    if keys != {} {
      var k :| k in keys;
      TotalSplit(keys, w, k);
      TotalSplit(keys, u, k);
      TotalSame(keys - {k}, w, u);
    }
  }

  lemma {:induction false} TotalSum<T>(keys: set<T>, w: T -> real, u: T -> real, both: T -> real)
    requires forall k | k in keys :: both(k) == w(k) + u(k)
    ensures Total(keys, both) == Total(keys, w) + Total(keys, u)
    decreases |keys|
  {
    if keys != {} {
      var k :| k in keys;
      TotalSplit(keys, w, k);
      TotalSplit(keys, u, k);
      TotalSplit(keys, both, k);
      TotalSum(keys - {k}, w, u, both);
    }
  }

  lemma {:induction false} TotalMore<T>(keys: set<T>, more: set<T>, w: T -> real)
    requires keys <= more && forall k | k in more && k !in keys :: w(k) == 0.0
    ensures Total(more, w) == Total(keys, w)
    decreases |more|
  {
    if keys != more {
      var k :| k in more && k !in keys;
      TotalSplit(more, w, k);
      TotalMore(keys, more - {k}, w);
    }
  }

  lemma Sums(c: real, x: real, y: real)
    ensures Mul(c, x + y) == Mul(c, x) + Mul(c, y)
  {
  }

  lemma {:induction false} TotalTimes<T>(keys: set<T>, c: real, w: T -> real, u: T -> real)
    requires forall k | k in keys :: u(k) == Mul(c, w(k))
    ensures Total(keys, u) == Mul(c, Total(keys, w))
    decreases |keys|
  {
    if keys != {} {
      var k :| k in keys;
      TotalSplit(keys, w, k);
      TotalSplit(keys, u, k);
      TotalTimes(keys - {k}, c, w, u);
      Sums(c, w(k), Total(keys - {k}, w));
    }
  }

  // ----- The worth of a polynomial -----

  ghost function OneOf(symbols: multiset<int>): (s: int)
    requires symbols != multiset{}
    ensures s in symbols
  {
    assert (forall s :: s !in symbols) ==> symbols == multiset{};
    var s :| s in symbols;
    s
  }

  ghost function Product(symbols: multiset<int>, v: Valuation): real {
    if symbols == multiset{} then 1.0
    else
      var s := OneOf(symbols);
      Mul(v(s), Product(symbols - multiset{s}, v))
  }

  lemma Swap(x: real, y: real, z: real)
    ensures Mul(x, Mul(y, z)) == Mul(y, Mul(x, z))
  {
  }

  lemma {:induction false} ProductSplit(symbols: multiset<int>, v: Valuation, s: int)
    requires s in symbols
    ensures Product(symbols, v) == Mul(v(s), Product(symbols - multiset{s}, v))
    decreases |symbols|
  {
    var first := OneOf(symbols);
    var a, b := symbols - multiset{first}, symbols - multiset{s};
    assert Product(symbols, v) == Mul(v(first), Product(a, v));
    if first != s {
      var rest := a - multiset{s};
      ProductSplit(a, v, s);
      ProductSplit(b, v, first);
      assert rest == b - multiset{first};
      Swap(v(first), v(s), Product(rest, v));
    }
  }

  ghost function MonoWorth(m: Mono, at: Moment): real {
    Mul(Power(at.t, m.t), Product(m.symbols, at.v))
  }

  ghost function TermOf(p: Poly, at: Moment): Mono -> real {
    (m: Mono) => Mul(Coefficient(p, m), MonoWorth(m, at))
  }

  ghost function Worth(p: Poly, at: Moment): real {
    Total(p.Keys, TermOf(p, at))
  }

  lemma WorthOver(p: Poly, at: Moment, keys: set<Mono>)
    requires p.Keys <= keys
    ensures Worth(p, at) == Total(keys, TermOf(p, at))
  {
    TotalMore(p.Keys, keys, TermOf(p, at));
  }

  ghost predicate IsSum(p: Poly, q: Poly, sum: Poly) {
    forall m {:trigger Coefficient(sum, m)} :: Coefficient(sum, m) == Coefficient(p, m) + Coefficient(q, m)
  }

  lemma AddIsSum(p: Poly, q: Poly)
    ensures IsSum(p, q, Add(p, q))
  {
    forall m
      ensures Coefficient(Add(p, q), m) == Coefficient(p, m) + Coefficient(q, m)
    {
      AddAt(p, q, m);
    }
  }

  lemma Distributes(x: real, y: real, both: real, z: real)
    requires both == x + y
    ensures Mul(both, z) == Mul(x, z) + Mul(y, z)
  {
  }

  lemma WorthSum(p: Poly, q: Poly, sum: Poly, at: Moment)
    requires IsSum(p, q, sum)
    ensures Worth(sum, at) == Worth(p, at) + Worth(q, at)
  {
    var keys := p.Keys + q.Keys + sum.Keys;
    WorthOver(p, at, keys);
    WorthOver(q, at, keys);
    WorthOver(sum, at, keys);
    forall m
      ensures TermOf(sum, at)(m) == TermOf(p, at)(m) + TermOf(q, at)(m)
    {
      Distributes(Coefficient(p, m), Coefficient(q, m), Coefficient(sum, m), MonoWorth(m, at));
    }
    TotalSum(keys, TermOf(p, at), TermOf(q, at), TermOf(sum, at));
  }

  lemma Associates(x: real, y: real, z: real)
    ensures Mul(Mul(x, y), z) == Mul(x, Mul(y, z))
  {
  }

  ghost predicate IsScaled(c: real, p: Poly, scaled: Poly) {
    forall m {:trigger Coefficient(scaled, m)} :: Coefficient(scaled, m) == Mul(c, Coefficient(p, m))
  }

  lemma WorthScaled(c: real, p: Poly, scaled: Poly, at: Moment)
    requires IsScaled(c, p, scaled)
    ensures Worth(scaled, at) == Mul(c, Worth(p, at))
  {
    var keys := p.Keys + scaled.Keys;
    WorthOver(p, at, keys);
    WorthOver(scaled, at, keys);
    forall m
      ensures TermOf(scaled, at)(m) == Mul(c, TermOf(p, at)(m))
    {
      Associates(c, Coefficient(p, m), MonoWorth(m, at));
    }
    TotalTimes(keys, c, TermOf(p, at), TermOf(scaled, at));
  }

  /** One term. */
  ghost predicate IsTerm(p: Poly, c: real, m: Mono) {
    forall k :: Coefficient(p, k) == if k == m then c else 0.0
  }

  function Single(c: real, m: Mono): (p: Poly)
    ensures IsTerm(p, c, m)
  {
    if c == 0.0 then Zero else map[m := c]
  }

  lemma WorthTerm(p: Poly, c: real, m: Mono, at: Moment)
    requires IsTerm(p, c, m)
    ensures Worth(p, at) == Mul(c, MonoWorth(m, at))
  {
    forall k | k in p
      ensures k == m
    {
      assert Coefficient(p, k) != 0.0;
    }
    WorthOver(p, at, {m});
    TotalSplit({m}, TermOf(p, at), m);
    assert {m} - {m} == {};
    assert Coefficient(p, m) == c;
  }

  lemma WorthZero(at: Moment)
    ensures Worth(Zero, at) == 0.0
  {
  }

  function Drop(p: Poly, m: Mono): Poly {
    p - {m}
  }

  /** A polynomial is one of its terms and the rest. */
  lemma Peel(p: Poly, m: Mono)
    requires m in p
    ensures |Drop(p, m)| < |p| && IsSum(Single(p[m], m), Drop(p, m), p)
  {
    var rest := Drop(p, m);
    assert p.Keys == rest.Keys + {m};
    forall k
      ensures Coefficient(p, k) == Coefficient(Single(p[m], m), k) + Coefficient(rest, k)
    {
      assert IsTerm(Single(p[m], m), p[m], m);
    }
  }

  lemma WorthSymbol(s: int, at: Moment)
    ensures Worth(SymbolPoly(s), at) == at.v(s)
  {
    WorthTerm(SymbolPoly(s), 1.0, Mono(0, multiset{s}), at);
    ProductSplit(multiset{s}, at.v, s);
    assert multiset{s} - multiset{s} == multiset{};
  }

  lemma WorthTime(c: real, at: Moment)
    ensures Worth(Single(c, Mono(1, multiset{})), at) == Mul(c, at.t)
  {
    WorthTerm(Single(c, Mono(1, multiset{})), c, Mono(1, multiset{}), at);
    assert Power(at.t, 1) == at.t * Power(at.t, 0);
  }

  lemma WorthFlowing(rate: Poly, symbol: int, at: Moment)
    ensures Worth(Flowing(rate, symbol), at) == Worth(Integral(rate), at) + at.v(symbol)
  {
    AddIsSum(Integral(rate), SymbolPoly(symbol));
    WorthSum(Integral(rate), SymbolPoly(symbol), Flowing(rate, symbol), at);
    WorthSymbol(symbol, at);
  }

  // ----- At the start -----

  lemma WorthAtStart(p: Poly, v: Valuation)
    ensures Worth(p, Moment(0.0, v)) == Worth(AtZero(p), Moment(0.0, v))
  {
    var at := Moment(0.0, v);
    forall m | m in p
      ensures TermOf(p, at)(m) == TermOf(AtZero(p), at)(m)
    {
      AtZeroAt(p, m);
      assert m.t > 0 ==> Power(0.0, m.t) == 0.0;
    }
    TotalSame(p.Keys, TermOf(p, at), TermOf(AtZero(p), at));
    WorthOver(AtZero(p), at, p.Keys);
  }

  /** A flow is worth its function's value at the start. */
  lemma FlowingAtStart(rate: Poly, symbol: int, v: Valuation)
    ensures Worth(Flowing(rate, symbol), Moment(0.0, v)) == v(symbol)
  {
    FlowingMeans(rate, symbol);
    WorthAtStart(Flowing(rate, symbol), v);
    WorthSymbol(symbol, Moment(0.0, v));
  }

  // ----- What is mentioned -----

  function CountOf(m: Mono, x: Letter): nat {
    match x
    case Clock => m.t
    case Named(s) => m.symbols[s]
  }

  predicate Mentions(p: Poly, x: Letter) {
    exists m :: m in p && CountOf(m, x) > 0
  }

  lemma {:induction false} ProductAgrees(symbols: multiset<int>, v: Valuation, w: Valuation)
    requires forall s | s in symbols :: v(s) == w(s)
    ensures Product(symbols, v) == Product(symbols, w)
    decreases |symbols|
  {
    if symbols != multiset{} {
      var s := OneOf(symbols);
      ProductSplit(symbols, v, s);
      ProductSplit(symbols, w, s);
      ProductAgrees(symbols - multiset{s}, v, w);
    }
  }

  lemma MonoAgrees(m: Mono, a: Moment, b: Moment)
    requires forall x | CountOf(m, x) > 0 :: Reading(x, a) == Reading(x, b)
    ensures MonoWorth(m, a) == MonoWorth(m, b)
  {
    forall s | s in m.symbols
      ensures a.v(s) == b.v(s)
    {
      assert CountOf(m, Named(s)) > 0;
      assert Reading(Named(s), a) == Reading(Named(s), b);
    }
    ProductAgrees(m.symbols, a.v, b.v);
    if m.t > 0 {
      assert CountOf(m, Clock) > 0;
      assert Reading(Clock, a) == Reading(Clock, b);
    }
  }

  /** Only what is mentioned matters. */
  lemma Agree(p: Poly, a: Moment, b: Moment)
    requires forall x | Mentions(p, x) :: Reading(x, a) == Reading(x, b)
    ensures Worth(p, a) == Worth(p, b)
  {
    forall m | m in p
      ensures TermOf(p, a)(m) == TermOf(p, b)(m)
    {
      MonoAgrees(m, a, b);
    }
    TotalSame(p.Keys, TermOf(p, a), TermOf(p, b));
  }

  lemma Unmentioned(p: Poly, at: Moment, x: Letter, r: real)
    requires !Mentions(p, x)
    ensures Worth(p, Put(at, x, r)) == Worth(p, at)
  {
    Agree(p, Put(at, x, r), at);
  }

  // ----- Change with time -----

  predicate Close(dy: real, slope: real, d: real, M: real) {
    var bound := Mul(M, Mul(d, d));
    -bound <= dy - Mul(slope, d) <= bound
  }

  /** The function is differentiable here: the line leaves an error at most quadratic. */
  ghost predicate SlopeWithin(f: real -> real, t: real, slope: real, M: real) {
    M >= 0.0 && forall u :: -1.0 <= u - t <= 1.0 ==> Close(f(u) - f(t), slope, u - t, M)
  }

  ghost predicate HasSlope(f: real -> real, t: real, slope: real) {
    exists M :: SlopeWithin(f, t, slope, M)
  }

  lemma AddClose(a: real, s: real, M: real, b: real, r: real, N: real, d: real)
    requires Close(a, s, d, M) && Close(b, r, d, N)
    ensures Close(a + b, s + r, d, M + N)
  {
    Distributes(M, N, M + N, Mul(d, d));
    Distributes(s, r, s + r, d);
  }

  lemma AddSlopes(f: real -> real, g: real -> real, both: real -> real, t: real, s: real, r: real, sum: real)
    requires HasSlope(f, t, s) && HasSlope(g, t, r) && sum == s + r && forall u :: both(u) == f(u) + g(u)
    ensures HasSlope(both, t, sum)
  {
    var M :| SlopeWithin(f, t, s, M);
    var N :| SlopeWithin(g, t, r, N);
    forall u | -1.0 <= u - t <= 1.0
      ensures Close(both(u) - both(t), sum, u - t, M + N)
    {
      AddClose(f(u) - f(t), s, M, g(u) - g(t), r, N, u - t);
    }
    assert SlopeWithin(both, t, sum, M + N);
  }

  function Abs(x: real): (y: real)
    ensures y >= 0.0 && -y <= x <= y
  {
    if x >= 0.0 then x else -x
  }

  lemma NotNegative(x: real, y: real)
    requires x >= 0.0 && y >= 0.0
    ensures Mul(x, y) >= 0.0
  {
  }

  lemma Differs(x: real, y: real, z: real)
    ensures Mul(x, y - z) == Mul(x, y) - Mul(x, z)
  {
  }

  lemma Bounded(c: real, e: real, M: real)
    requires -M <= e <= M
    ensures -Mul(Abs(c), M) <= Mul(c, e) <= Mul(Abs(c), M)
  {
    NotNegative(Abs(c), M - e);
    NotNegative(Abs(c), M + e);
  }

  lemma ScaleClose(fu: real, ft: real, s: real, M: real, c: real, d: real)
    requires Close(fu - ft, s, d, M)
    ensures Close(Mul(c, fu) - Mul(c, ft), Mul(c, s), d, Mul(Abs(c), M))
  {
    Bounded(c, fu - ft - Mul(s, d), Mul(M, Mul(d, d)));
    Differs(c, fu - ft, Mul(s, d));
    Differs(c, fu, ft);
    Associates(c, s, d);
    Associates(Abs(c), M, Mul(d, d));
  }

  lemma ScaleSlope(f: real -> real, g: real -> real, t: real, s: real, c: real, r: real)
    requires HasSlope(f, t, s) && r == Mul(c, s) && forall u :: g(u) == Mul(c, f(u))
    ensures HasSlope(g, t, r)
  {
    var M :| SlopeWithin(f, t, s, M);
    NotNegative(Abs(c), M);
    forall u | -1.0 <= u - t <= 1.0
      ensures Close(g(u) - g(t), r, u - t, Mul(Abs(c), M))
    {
      ScaleClose(f(u), f(t), s, M, c, u - t);
    }
    assert SlopeWithin(g, t, r, Mul(Abs(c), M));
  }

  lemma Square(d: real)
    ensures Mul(d, d) >= 0.0
  {
  }

  lemma MoreTimes(x: real, y: real, z: real)
    requires x <= y && z >= 0.0
    ensures Mul(x, z) <= Mul(y, z)
  {
    NotNegative(y - x, z);
  }

  lemma TimesRearranged(fu: real, ft: real, s: real, t: real, u: real, d: real, e: real)
    requires e == fu - ft - Mul(s, d) && u == t + d
    ensures Mul(u, fu) - Mul(t, ft) - Mul(ft + Mul(t, s), d) == Mul(u, e) + Mul(Mul(d, d), s)
  {
    assert fu == ft + s * d + e;
    assert (t + d) * fu == (t + d) * ft + (t + d) * (s * d) + (t + d) * e;
    assert (t + d) * (s * d) == t * s * d + d * d * s;
  }

  lemma SumOfBounds(a: real, b: real, M: real, x: real)
    ensures Mul(a + Mul(b, M), x) == Mul(x, a) + Mul(b, Mul(M, x))
  {
  }

  /** The product with #t. */
  lemma TimesClose(fu: real, ft: real, s: real, M: real, t: real, u: real, d: real)
    requires Close(fu - ft, s, d, M) && u == t + d && -1.0 <= d <= 1.0 && M >= 0.0
    ensures Close(Mul(u, fu) - Mul(t, ft), ft + Mul(t, s), d, Abs(s) + Mul(Abs(t) + 1.0, M))
  {
    var e, square := fu - ft - Mul(s, d), Mul(d, d);
    var bound := Mul(M, square);
    Square(d);
    NotNegative(M, square);
    Bounded(u, e, bound);
    MoreTimes(Abs(u), Abs(t) + 1.0, bound);
    Bounded(square, s, Abs(s));
    TimesRearranged(fu, ft, s, t, u, d, e);
    SumOfBounds(Abs(s), Abs(t) + 1.0, M, square);
  }

  lemma TimesSlope(f: real -> real, g: real -> real, t: real, s: real, r: real)
    requires HasSlope(f, t, s) && r == f(t) + Mul(t, s) && forall u :: g(u) == Mul(u, f(u))
    ensures HasSlope(g, t, r)
  {
    var M :| SlopeWithin(f, t, s, M);
    var N := Abs(s) + Mul(Abs(t) + 1.0, M);
    NotNegative(Abs(t) + 1.0, M);
    forall u | -1.0 <= u - t <= 1.0
      ensures Close(g(u) - g(t), r, u - t, N)
    {
      TimesClose(f(u), f(t), s, M, t, u, u - t);
    }
    assert SlopeWithin(g, t, r, N);
  }

  lemma ConstantSlope(f: real -> real, t: real)
    requires forall u, w :: f(u) == f(w)
    ensures HasSlope(f, t, 0.0)
  {
    assert SlopeWithin(f, t, 0.0, 0.0);
  }

  function Powers(k: nat): real -> real {
    t => Power(t, k)
  }

  function PowerSlope(t: real, k: nat): real {
    if k == 0 then 0.0 else Mul(k as real, Power(t, k - 1))
  }

  lemma PowerSlopeNext(t: real, k: nat)
    requires k > 0
    ensures PowerSlope(t, k) == Power(t, k - 1) + Mul(t, PowerSlope(t, k - 1))
  {
    var n, x := (k - 1) as real, Power(t, k - 1);
    assert k as real == n + 1.0;
    Distributes(n, 1.0, k as real, x);
    if k > 1 {
      assert x == t * Power(t, k - 2);
      Swap(t, n, Power(t, k - 2));
    }
  }

  lemma {:induction false} PowersSlope(k: nat, t: real)
    ensures HasSlope(Powers(k), t, PowerSlope(t, k))
  {
    if k == 0 {
      ConstantSlope(Powers(0), t);
    } else {
      PowersSlope(k - 1, t);
      PowerSlopeNext(t, k);
      TimesSlope(Powers(k - 1), Powers(k), t, PowerSlope(t, k - 1), PowerSlope(t, k));
    }
  }

  /** How the polynomial moves from these values on. */
  ghost function Path(p: Poly, v: Valuation): real -> real {
    t => Worth(p, Moment(t, v))
  }

  lemma DerivativeOfConstant(p: Poly, d: Poly, c: real, m: Mono)
    requires IsTerm(p, c, m) && IsDerivative(p, d) && m.t == 0
    ensures d == Zero
  {
    forall k
      ensures Coefficient(d, k) == 0.0
    {
      assert Coefficient(d, k) == Times(k.t + 1, Coefficient(p, Raise(k)));
    }
    SameCoefficients(d, Zero);
  }

  lemma DerivativeOfTerm(p: Poly, d: Poly, c: real, m: Mono)
    requires IsTerm(p, c, m) && IsDerivative(p, d) && m.t > 0
    ensures IsTerm(d, Times(m.t, c), Lower(m))
  {
    forall k
      ensures Coefficient(d, k) == if k == Lower(m) then Times(m.t, c) else 0.0
    {
      assert Coefficient(d, k) == Times(k.t + 1, Coefficient(p, Raise(k)));
      assert Raise(k) == m <==> k == Lower(m);
    }
  }

  lemma Regroup(k: nat, c: real, x: real, y: real)
    ensures Mul(Times(k, c), Mul(x, y)) == Mul(Mul(c, y), Mul(k as real, x))
  {
    var n := k as real;
    assert n * c * (x * y) == c * (n * (x * y));
    assert n * (x * y) == y * (n * x);
  }

  lemma RegroupPower(c: real, x: real, y: real)
    ensures Mul(c, Mul(x, y)) == Mul(Mul(c, y), x)
  {
  }

  lemma TermSlopeIs(p: Poly, d: Poly, c: real, m: Mono, v: Valuation, t: real)
    requires IsTerm(p, c, m) && IsDerivative(p, d)
    ensures Worth(d, Moment(t, v)) == Mul(Mul(c, Product(m.symbols, v)), PowerSlope(t, m.t))
  {
    if m.t == 0 {
      DerivativeOfConstant(p, d, c, m);
    } else {
      DerivativeOfTerm(p, d, c, m);
      WorthTerm(d, Times(m.t, c), Lower(m), Moment(t, v));
      Regroup(m.t, c, Power(t, m.t - 1), Product(m.symbols, v));
    }
  }

  lemma TermSlope(p: Poly, d: Poly, c: real, m: Mono, v: Valuation, t: real)
    requires IsTerm(p, c, m) && IsDerivative(p, d)
    ensures HasSlope(Path(p, v), t, Worth(d, Moment(t, v)))
  {
    var y := Product(m.symbols, v);
    PowersSlope(m.t, t);
    forall u
      ensures Path(p, v)(u) == Mul(Mul(c, y), Powers(m.t)(u))
    {
      WorthTerm(p, c, m, Moment(u, v));
      RegroupPower(c, Power(u, m.t), y);
    }
    TermSlopeIs(p, d, c, m, v, t);
    ScaleSlope(Powers(m.t), Path(p, v), t, PowerSlope(t, m.t), Mul(c, y), Worth(d, Moment(t, v)));
  }

  lemma TimesAdds(k: nat, x: real, y: real)
    ensures Times(k, x + y) == Times(k, x) + Times(k, y)
  {
  }

  lemma DerivativeAdds(p: Poly, q: Poly, sum: Poly, dp: Poly, dq: Poly, d: Poly)
    requires IsSum(p, q, sum) && IsDerivative(p, dp) && IsDerivative(q, dq) && IsDerivative(sum, d)
    ensures IsSum(dp, dq, d)
  {
    forall k
      ensures Coefficient(d, k) == Coefficient(dp, k) + Coefficient(dq, k)
    {
      TimesAdds(k.t + 1, Coefficient(p, Raise(k)), Coefficient(q, Raise(k)));
    }
  }

  lemma SumSlope(p: Poly, q: Poly, sum: Poly, dp: Poly, dq: Poly, d: Poly, v: Valuation, t: real)
    requires IsSum(p, q, sum) && IsDerivative(p, dp) && IsDerivative(q, dq) && IsDerivative(sum, d)
    requires HasSlope(Path(p, v), t, Worth(dp, Moment(t, v))) && HasSlope(Path(q, v), t, Worth(dq, Moment(t, v)))
    ensures HasSlope(Path(sum, v), t, Worth(d, Moment(t, v)))
  {
    forall u
      ensures Path(sum, v)(u) == Path(p, v)(u) + Path(q, v)(u)
    {
      WorthSum(p, q, sum, Moment(u, v));
    }
    DerivativeAdds(p, q, sum, dp, dq, d);
    WorthSum(dp, dq, d, Moment(t, v));
    AddSlopes(Path(p, v), Path(q, v), Path(sum, v), t,
              Worth(dp, Moment(t, v)), Worth(dq, Moment(t, v)), Worth(d, Moment(t, v)));
  }

  /** The derivative of the algebra is the derivative. */
  lemma {:induction false} DerivativeIsSlope(p: Poly, d: Poly, v: Valuation, t: real)
    requires IsDerivative(p, d)
    ensures HasSlope(Path(p, v), t, Worth(d, Moment(t, v)))
    decreases |p|
  {
    if p == Zero {
      DerivativeOfConstant(p, d, 0.0, Mono(0, multiset{}));
      ConstantSlope(Path(Zero, v), t);
    } else {
      var m :| m in p;
      var one, rest := Single(p[m], m), Drop(p, m);
      var dOne, dRest := Derivative(one), Derivative(rest);
      Peel(p, m);
      DerivativeIs(one);
      DerivativeIs(rest);
      TermSlope(one, dOne, p[m], m, v, t);
      DerivativeIsSlope(rest, dRest, v, t);
      SumSlope(one, rest, p, dOne, dRest, d, v, t);
    }
  }

  /** From the function's value at the rate: the flow solves the rate equation. */
  lemma FlowingSolves(rate: Poly, symbol: int, v: Valuation, t: real)
    ensures Path(Flowing(rate, symbol), v)(0.0) == v(symbol)
    ensures HasSlope(Path(Flowing(rate, symbol), v), t, Worth(rate, Moment(t, v)))
  {
    var flowing := Flowing(rate, symbol);
    FlowingAtStart(rate, symbol, v);
    FlowingMeans(rate, symbol);
    DerivativeIsSlope(flowing, rate, v, t);
  }
}
