/** Polynomials as functions: one that is not zero is somewhere not worth zero, so polynomials
    worth the same everywhere are the same; and replacing a symbol by a polynomial. */
module Nonzero {
  import opened Numbers
  import opened Algebra
  import opened Evaluation

  // ----- Dividing by a letter -----

  function More(m: Mono, x: Letter): (more: Mono)
    ensures forall y :: CountOf(more, y) == CountOf(m, y) + if y == x then 1 else 0
  {
    match x
    case Clock => Raise(m)
    case Named(s) => m.(symbols := m.symbols + multiset{s})
  }

  function Less(m: Mono, x: Letter): (less: Mono)
    requires CountOf(m, x) > 0
    ensures More(less, x) == m
  {
    match x
    case Clock => Lower(m)
    case Named(s) =>
      assert m.symbols - multiset{s} + multiset{s} == m.symbols;
      m.(symbols := m.symbols - multiset{s})
  }

  lemma LessMore(m: Mono, x: Letter)
    ensures Less(More(m, x), x) == m
  {
    match x
    case Clock =>
    case Named(s) =>
      assert m.symbols + multiset{s} - multiset{s} == m.symbols;
  }

  lemma MoreOnce(m: Mono, k: Mono, x: Letter)
    ensures More(m, x) == More(k, x) <==> m == k
  {
    LessMore(m, x);
    LessMore(k, x);
  }

  lemma MonoMore(m: Mono, x: Letter, at: Moment)
    ensures MonoWorth(More(m, x), at) == Mul(Reading(x, at), MonoWorth(m, at))
  {
    match x
    case Clock =>
      assert Power(at.t, m.t + 1) == Mul(at.t, Power(at.t, m.t));
      Associates(at.t, Power(at.t, m.t), Product(m.symbols, at.v));
    case Named(s) =>
      var more := m.symbols + multiset{s};
      ProductSplit(more, at.v, s);
      assert more - multiset{s} == m.symbols;
      Swap(at.v(s), Power(at.t, m.t), Product(m.symbols, at.v));
  }

  /** The terms without the letter. */
  ghost predicate IsFree(p: Poly, x: Letter, free: Poly) {
    forall m {:trigger Coefficient(free, m)} :: Coefficient(free, m) == if CountOf(m, x) == 0 then Coefficient(p, m) else 0.0
  }

  /** The other terms, divided by it. */
  ghost predicate IsQuotient(p: Poly, x: Letter, quotient: Poly) {
    forall m {:trigger Coefficient(quotient, m)} :: Coefficient(quotient, m) == Coefficient(p, More(m, x))
  }

  lemma SomeFree(p: Poly, x: Letter) returns (free: Poly)
    ensures IsFree(p, x, free)
  {
    free := map m | m in p && CountOf(m, x) == 0 :: p[m];
  }

  ghost function Free(p: Poly, x: Letter): (free: Poly)
    ensures IsFree(p, x, free)
  {
    assert exists free :: IsFree(p, x, free) by {
      var free := SomeFree(p, x);
    }
    var free :| IsFree(p, x, free);
    free
  }

  function Divided(p: Poly, x: Letter): (keys: set<Mono>)
    ensures forall k {:trigger k in keys} :: k in keys <==> More(k, x) in p
  {
    var keys := set m | m in p && CountOf(m, x) > 0 :: Less(m, x);
    assert forall k {:trigger k in keys} :: k in keys <==> More(k, x) in p by {
      forall k: Mono
        ensures k in keys <==> More(k, x) in p
      {
        LessMore(k, x);
        assert CountOf(More(k, x), x) > 0;
      }
    }
    keys
  }

  lemma SomeQuotient(p: Poly, x: Letter) returns (quotient: Poly)
    ensures IsQuotient(p, x, quotient)
  {
    var keys := Divided(p, x);
    quotient := map k | k in keys :: p[More(k, x)];
  }

  ghost function Quotient(p: Poly, x: Letter): (quotient: Poly)
    ensures IsQuotient(p, x, quotient)
  {
    assert exists quotient :: IsQuotient(p, x, quotient) by {
      var quotient := SomeQuotient(p, x);
    }
    var quotient :| IsQuotient(p, x, quotient);
    quotient
  }

  lemma TermFree(p: Poly, x: Letter, free: Poly, c: real, m: Mono)
    requires IsTerm(p, c, m) && IsFree(p, x, free)
    ensures IsTerm(free, if CountOf(m, x) == 0 then c else 0.0, m)
  {
  }

  lemma TermQuotient(p: Poly, x: Letter, quotient: Poly, c: real, m: Mono)
    requires IsTerm(p, c, m) && IsQuotient(p, x, quotient)
    ensures if CountOf(m, x) == 0 then IsTerm(quotient, 0.0, m) else IsTerm(quotient, c, Less(m, x))
  {
    forall k
      ensures Coefficient(quotient, k) == if CountOf(m, x) > 0 && k == Less(m, x) then c else 0.0
    {
      if CountOf(m, x) > 0 {
        MoreOnce(k, Less(m, x), x);
      } else {
        assert CountOf(More(k, x), x) > 0;
      }
    }
  }

  /** The worth of a sum, divided. */
  predicate Divides(p: real, x: real, free: real, quotient: real) {
    p == free + Mul(x, quotient)
  }

  lemma DividesTerm(p: Poly, x: Letter, free: Poly, quotient: Poly, c: real, m: Mono, at: Moment)
    requires IsTerm(p, c, m) && IsFree(p, x, free) && IsQuotient(p, x, quotient)
    ensures Divides(Worth(p, at), Reading(x, at), Worth(free, at), Worth(quotient, at))
  {
    WorthTerm(p, c, m, at);
    TermFree(p, x, free, c, m);
    TermQuotient(p, x, quotient, c, m);
    if CountOf(m, x) == 0 {
      WorthTerm(free, c, m, at);
      WorthTerm(quotient, 0.0, m, at);
    } else {
      var less := Less(m, x);
      WorthTerm(free, 0.0, m, at);
      WorthTerm(quotient, c, less, at);
      MonoMore(less, x, at);
      Swap(Reading(x, at), c, MonoWorth(less, at));
    }
  }

  lemma DividesBoth(x: real, a: real, fa: real, qa: real, b: real, fb: real, qb: real, sum: real, f: real, q: real)
    requires Divides(a, x, fa, qa) && Divides(b, x, fb, qb)
    requires sum == a + b && f == fa + fb && q == qa + qb
    ensures Divides(sum, x, f, q)
  {
    Sums(x, qa, qb);
  }

  lemma SumFree(p: Poly, q: Poly, sum: Poly, x: Letter)
    requires IsSum(p, q, sum)
    ensures IsSum(Free(p, x), Free(q, x), Free(sum, x))
  {
  }

  lemma SumQuotient(p: Poly, q: Poly, sum: Poly, x: Letter)
    requires IsSum(p, q, sum)
    ensures IsSum(Quotient(p, x), Quotient(q, x), Quotient(sum, x))
  {
  }

  /** Dividing a sum. */
  lemma DividesSum(a: Poly, b: Poly, sum: Poly, x: Letter, at: Moment)
    requires IsSum(a, b, sum)
    requires Divides(Worth(a, at), Reading(x, at), Worth(Free(a, x), at), Worth(Quotient(a, x), at))
    requires Divides(Worth(b, at), Reading(x, at), Worth(Free(b, x), at), Worth(Quotient(b, x), at))
    ensures Divides(Worth(sum, at), Reading(x, at), Worth(Free(sum, x), at), Worth(Quotient(sum, x), at))
  {
    WorthSum(a, b, sum, at);
    SumFree(a, b, sum, x);
    WorthSum(Free(a, x), Free(b, x), Free(sum, x), at);
    SumQuotient(a, b, sum, x);
    WorthSum(Quotient(a, x), Quotient(b, x), Quotient(sum, x), at);
    DividesBoth(Reading(x, at), Worth(a, at), Worth(Free(a, x), at), Worth(Quotient(a, x), at),
                Worth(b, at), Worth(Free(b, x), at), Worth(Quotient(b, x), at),
                Worth(sum, at), Worth(Free(sum, x), at), Worth(Quotient(sum, x), at));
  }

  lemma {:induction false} WorthDivided(p: Poly, x: Letter, at: Moment)
    ensures Divides(Worth(p, at), Reading(x, at), Worth(Free(p, x), at), Worth(Quotient(p, x), at))
    decreases |p|
  {
    if p == Zero {
      DividesTerm(p, x, Free(p, x), Quotient(p, x), 0.0, Mono(0, multiset{}), at);
    } else {
      var m :| m in p;
      var one, rest := Single(p[m], m), Drop(p, m);
      Peel(p, m);
      WorthDivided(rest, x, at);
      DividesTerm(one, x, Free(one, x), Quotient(one, x), p[m], m, at);
      DividesSum(one, rest, p, x, at);
    }
  }

  // ----- The leading coefficient -----

  predicate LetterBelow(p: Poly, x: Letter, n: nat) {
    forall m | m in p :: CountOf(m, x) < n
  }

  lemma {:induction false} SomeBound(keys: set<Mono>, x: Letter) returns (n: nat)
    ensures forall m | m in keys :: CountOf(m, x) < n
    decreases |keys|
  {
    n := 0;
    if keys != {} {
      var m :| m in keys;
      n := SomeBound(keys - {m}, x);
      n := if CountOf(m, x) < n then n else CountOf(m, x) + 1;
    }
  }

  lemma QuotientAt(p: Poly, x: Letter, k: Mono)
    ensures k in Quotient(p, x) <==> More(k, x) in p
  {
    assert Coefficient(Quotient(p, x), k) == Coefficient(p, More(k, x));
  }

  lemma QuotientMentions(p: Poly, x: Letter)
    ensures forall y | Mentions(Quotient(p, x), y) :: Mentions(p, y)
  {
    forall y | Mentions(Quotient(p, x), y)
      ensures Mentions(p, y)
    {
      var k :| k in Quotient(p, x) && CountOf(k, y) > 0;
      QuotientAt(p, x, k);
      assert CountOf(More(k, x), y) > 0;
    }
  }

  lemma QuotientBelow(p: Poly, x: Letter, n: nat)
    requires LetterBelow(p, x, n) && Mentions(p, x)
    ensures n > 0 && LetterBelow(Quotient(p, x), x, n - 1) && Quotient(p, x) != Zero
  {
    var m :| m in p && CountOf(m, x) > 0;
    QuotientAt(p, x, Less(m, x));
    forall k | k in Quotient(p, x)
      ensures CountOf(k, x) < n - 1
    {
      QuotientAt(p, x, k);
      assert CountOf(More(k, x), x) == CountOf(k, x) + 1;
    }
  }

  /** The coefficient of the highest power of the letter. */
  ghost function Lead(p: Poly, x: Letter, n: nat): (lead: Poly)
    requires LetterBelow(p, x, n)
    ensures p != Zero ==> lead != Zero
    decreases n
  {
    if !Mentions(p, x) then p
    else
      QuotientBelow(p, x, n);
      Lead(Quotient(p, x), x, n - 1)
  }

  lemma {:induction false} LeadMentions(p: Poly, x: Letter, n: nat)
    requires LetterBelow(p, x, n)
    ensures !Mentions(Lead(p, x, n), x) && forall y | Mentions(Lead(p, x, n), y) :: Mentions(p, y)
    decreases n
  {
    if Mentions(p, x) {
      QuotientBelow(p, x, n);
      QuotientMentions(p, x);
      LeadMentions(Quotient(p, x), x, n - 1);
    }
  }

  lemma AbsProduct(x: real, y: real)
    ensures Abs(Mul(x, y)) == Mul(Abs(x), Abs(y))
  {
    if x >= 0.0 && y >= 0.0 {
      NotNegative(x, y);
    } else if x >= 0.0 {
      NotNegative(x, -y);
    } else if y >= 0.0 {
      NotNegative(-x, y);
    } else {
      NotNegative(-x, -y);
    }
  }

  /** With a large letter the worth is large. */
  lemma LargeProduct(p: real, x: real, free: real, q: real, d: real, K: real, bound: real)
    requires Divides(p, x, free, q) && d > 0.0 && Abs(q) >= d && Mul(bound, d) == K + Abs(free) && Abs(x) >= bound
    ensures Abs(p) >= K
  {
    AbsProduct(x, q);
    assert Mul(Abs(x), Abs(q)) >= Mul(Abs(x), d) by {
      NotNegative(Abs(x), Abs(q) - d);
      Differs(Abs(x), Abs(q), d);
    }
    MoreTimes(bound, Abs(x), d);
  }

  /** What the worth is at least, far out: K, unless the letter does not matter. */
  ghost function LeastWorth(p: Poly, x: Letter, at: Moment, K: real): real {
    if Mentions(p, x) then K else Abs(Worth(p, at))
  }

  ghost predicate AwayFrom(p: Poly, x: Letter, at: Moment, least: real, bound: real) {
    forall r {:trigger Put(at, x, r)} :: Abs(r) >= bound ==> Abs(Worth(p, Put(at, x, r))) >= least
  }

  lemma AwayThere(p: Poly, x: Letter, at: Moment, there: Moment, d: real, K: real, enough: real, r: real)
    requires there == Put(at, x, r) && d > 0.0 && !Mentions(Free(p, x), x) && Abs(Worth(Quotient(p, x), there)) >= d
    requires Abs(r) >= enough && Mul(enough, d) == K + Abs(Worth(Free(p, x), at))
    ensures Abs(Worth(p, there)) >= K
  {
    WorthDivided(p, x, there);
    Unmentioned(Free(p, x), at, x, r);
    LargeProduct(Worth(p, there), r, Worth(Free(p, x), there), Worth(Quotient(p, x), there), d, K, enough);
  }

  lemma AwayMore(p: Poly, x: Letter, at: Moment, d: real, inner: real, K: real, enough: real, bound: real)
    requires AwayFrom(Quotient(p, x), x, at, d, inner) && d > 0.0 && !Mentions(Free(p, x), x)
    requires bound >= inner && bound >= enough && Mul(enough, d) == K + Abs(Worth(Free(p, x), at))
    ensures AwayFrom(p, x, at, K, bound)
  {
    forall r {:trigger Put(at, x, r)} | Abs(r) >= bound
      ensures Abs(Worth(p, Put(at, x, r))) >= K
    {
      AwayThere(p, x, at, Put(at, x, r), d, K, enough, r);
    }
  }

  lemma Enough(d: real, K: real) returns (bound: real)
    requires d > 0.0
    ensures Mul(bound, d) == K
  {
    bound := K / d;
  }

  lemma FreeLacks(p: Poly, x: Letter)
    ensures !Mentions(Free(p, x), x)
  {
    var f := Free(p, x);
    forall m | m in f
      ensures CountOf(m, x) == 0
    {
      assert Coefficient(f, m) != 0.0;
    }
  }

  function Larger(x: real, y: real): (z: real)
    ensures z >= x && z >= y
  {
    if x >= y then x else y
  }

  lemma LeastPositive(p: Poly, x: Letter, n: nat, at: Moment)
    requires LetterBelow(p, x, n) && Worth(Lead(p, x, n), at) != 0.0
    ensures LeastWorth(p, x, at, 1.0) > 0.0
  {
    assert !Mentions(p, x) ==> Lead(p, x, n) == p;
  }

  lemma AwayUnmentioned(p: Poly, x: Letter, at: Moment, K: real)
    requires !Mentions(p, x)
    ensures AwayFrom(p, x, at, LeastWorth(p, x, at, K), 1.0)
  {
    forall r {:trigger Put(at, x, r)} | Abs(r) >= 1.0
      ensures Abs(Worth(p, Put(at, x, r))) >= Abs(Worth(p, at))
    {
      Unmentioned(p, at, x, r);
    }
  }

  lemma AwayStep(p: Poly, x: Letter, at: Moment, d: real, inner: real, K: real) returns (bound: real)
    requires AwayFrom(Quotient(p, x), x, at, d, inner) && d > 0.0 && inner > 0.0
    ensures bound > 0.0 && AwayFrom(p, x, at, K, bound)
  {
    var enough := Enough(d, K + Abs(Worth(Free(p, x), at)));
    bound := Larger(inner, enough);
    FreeLacks(p, x);
    AwayMore(p, x, at, d, inner, K, enough, bound);
  }

  lemma {:induction false} Away(p: Poly, x: Letter, n: nat, at: Moment, K: real) returns (bound: real)
    requires LetterBelow(p, x, n) && Worth(Lead(p, x, n), at) != 0.0
    ensures bound > 0.0 && AwayFrom(p, x, at, LeastWorth(p, x, at, K), bound)
    decreases n
  {
    if !Mentions(p, x) {
      bound := 1.0;
      AwayUnmentioned(p, x, at, K);
    } else {
      QuotientBelow(p, x, n);
      LeastPositive(Quotient(p, x), x, n - 1, at);
      bound := Away(Quotient(p, x), x, n - 1, at, 1.0);
      bound := AwayStep(p, x, at, LeastWorth(Quotient(p, x), x, at, 1.0), bound, K);
    }
  }

  // ----- Somewhere not zero -----

  lemma OnlyConstant(p: Poly, at: Moment)
    requires p != Zero && forall x :: !Mentions(p, x)
    ensures Worth(p, at) != 0.0
  {
    var one := Mono(0, multiset{});
    forall m | m in p
      ensures m == one
    {
      assert !Mentions(p, Clock);
      assert CountOf(m, Clock) == 0;
      forall s
        ensures m.symbols[s] == 0
      {
        assert !Mentions(p, Named(s));
        assert CountOf(m, Named(s)) == 0;
      }
      assert m.symbols == multiset{};
    }
    var m :| m in p;
    assert IsTerm(p, p[one], one);
    WorthTerm(p, p[one], one, at);
    assert MonoWorth(one, at) == 1.0 by {
      assert Power(at.t, 0) == 1.0 && Product(multiset{}, at.v) == 1.0;
    }
  }

  lemma FarNotZero(p: Poly, x: Letter, n: nat, at: Moment, bound: real, far: real)
    requires LetterBelow(p, x, n) && Worth(Lead(p, x, n), at) != 0.0 && far >= bound > 0.0
    requires AwayFrom(p, x, at, LeastWorth(p, x, at, 1.0), bound)
    ensures Worth(p, Put(at, x, far)) != 0.0
  {
    var there := Put(at, x, far);
    assert Abs(far) >= bound;
    assert !Mentions(p, x) ==> Lead(p, x, n) == p;
    assert Abs(Worth(p, there)) > 0.0;
  }

  /** Two polynomials, neither zero, are somewhere both not worth zero, at a positive time. */
  lemma {:induction false} Somewhere(p: Poly, q: Poly, letters: set<Letter>) returns (at: Moment)
    requires p != Zero && q != Zero && forall x | Mentions(p, x) || Mentions(q, x) :: x in letters
    ensures Worth(p, at) != 0.0 && Worth(q, at) != 0.0 && at.t > 0.0
    decreases |letters|
  {
    if letters == {} {
      at := Moment(1.0, s => 0.0);
      OnlyConstant(p, at);
      OnlyConstant(q, at);
    } else {
      var x :| x in letters;
      var n := SomeBound(p.Keys, x);
      var k := SomeBound(q.Keys, x);
      LeadMentions(p, x, n);
      LeadMentions(q, x, k);
      var before := Somewhere(Lead(p, x, n), Lead(q, x, k), letters - {x});
      var farP, farQ;
      farP := Away(p, x, n, before, 1.0);
      farQ := Away(q, x, k, before, 1.0);
      var far := Larger(farP, farQ);
      at := Put(before, x, far);
      assert Reading(Clock, at) > 0.0;
      FarNotZero(p, x, n, before, farP, far);
      FarNotZero(q, x, k, before, farQ, far);
    }
  }

  function LettersOf(p: Poly): (letters: set<Letter>)
    ensures forall x | Mentions(p, x) :: x in letters
  {
    var letters := {Clock} + set m, s | m in p && s in m.symbols :: Named(s);
    assert forall x | Mentions(p, x) :: x in letters by {
      forall x | Mentions(p, x)
        ensures x in letters
      {
        var m :| m in p && CountOf(m, x) > 0;
        assert x.Named? ==> x.s in m.symbols;
      }
    }
    letters
  }

  function Minus(p: Poly, q: Poly): (d: Poly)
    ensures IsSum(q, d, p)
  {
    map m | m in p.Keys + q.Keys && Coefficient(p, m) - Coefficient(q, m) != 0.0 :: Coefficient(p, m) - Coefficient(q, m)
  }

  /** Different polynomials are somewhere worth different. */
  lemma ToldApart(p: Poly, q: Poly) returns (at: Moment)
    requires p != q
    ensures Worth(p, at) != Worth(q, at) && at.t > 0.0
  {
    var d := Minus(p, q);
    if d == Zero {
      SameCoefficients(p, q);
    }
    at := Somewhere(d, d, LettersOf(d));
    WorthSum(q, d, p, at);
  }

  lemma SameWorth(p: Poly, q: Poly)
    requires forall at: Moment :: Worth(p, at) == Worth(q, at)
    ensures p == q
  {
    if p != q {
      var at := ToldApart(p, q);
    }
  }

  // ----- Replacing a symbol -----

  function Multiplied(p: Poly, x: Letter): (keys: set<Mono>)
    ensures forall k {:trigger k in keys} :: k in keys <==> CountOf(k, x) > 0 && Less(k, x) in p
  {
    var keys := set m | m in p :: More(m, x);
    assert forall k {:trigger k in keys} :: k in keys <==> CountOf(k, x) > 0 && Less(k, x) in p by {
      forall k: Mono
        ensures k in keys <==> CountOf(k, x) > 0 && Less(k, x) in p
      {
        if k in keys {
          var m: Mono :| m in p && k == More(m, x);
          LessMore(m, x);
        }
      }
    }
    keys
  }

  function TimesLetter(p: Poly, x: Letter): Poly {
    var keys := Multiplied(p, x);
    map k | k in keys :: p[Less(k, x)]
  }

  lemma WorthTimesLetter(p: Poly, x: Letter, at: Moment)
    ensures Worth(TimesLetter(p, x), at) == Mul(Reading(x, at), Worth(p, at))
  {
    var q := TimesLetter(p, x);
    forall m
      ensures Coefficient(Free(q, x), m) == 0.0 && Coefficient(Quotient(q, x), m) == Coefficient(p, m)
    {
      LessMore(m, x);
      assert CountOf(More(m, x), x) > 0;
      assert More(m, x) in q <==> m in p;
    }
    SameCoefficients(Free(q, x), Zero);
    SameCoefficients(Quotient(q, x), p);
    WorthDivided(q, x, at);
  }

  function Scaled(c: real, p: Poly): Poly {
    if c == 0.0 then Zero else map m | m in p && Mul(c, p[m]) != 0.0 :: Mul(c, p[m])
  }

  lemma ScaledIs(c: real, p: Poly)
    ensures IsScaled(c, p, Scaled(c, p))
  {
  }

  ghost function TimesMono(m: Mono, p: Poly): Poly
    decreases m.t, |m.symbols|
  {
    if m.t > 0 then TimesLetter(TimesMono(Less(m, Clock), p), Clock)
    else if m.symbols != multiset{} then
      var x := Named(OneOf(m.symbols));
      TimesLetter(TimesMono(Less(m, x), p), x)
    else p
  }

  lemma {:induction false} WorthTimesMono(m: Mono, p: Poly, at: Moment)
    ensures Worth(TimesMono(m, p), at) == Mul(MonoWorth(m, at), Worth(p, at))
    decreases m.t, |m.symbols|
  {
    if m.t == 0 && m.symbols == multiset{} {
      assert MonoWorth(m, at) == 1.0;
    } else {
      var x := if m.t > 0 then Clock else Named(OneOf(m.symbols));
      var less := Less(m, x);
      WorthTimesMono(less, p, at);
      WorthTimesLetter(TimesMono(less, p), x, at);
      MonoMore(less, x, at);
      Associates(Reading(x, at), MonoWorth(less, at), Worth(p, at));
    }
  }

  ghost function OneTerm(p: Poly): (m: Mono)
    requires p != Zero
    ensures m in p
  {
    var m :| m in p;
    m
  }

  ghost function Multiply(p: Poly, q: Poly): Poly
    decreases |p|
  {
    if p == Zero then Zero
    else
      var m := OneTerm(p);
      Peel(p, m);
      Add(Scaled(p[m], TimesMono(m, q)), Multiply(Drop(p, m), q))
  }

  lemma MultiplyOne(p: Poly, q: Poly, m: Mono, at: Moment)
    requires m in p
    ensures Worth(Scaled(p[m], TimesMono(m, q)), at) == Mul(Worth(Single(p[m], m), at), Worth(q, at))
  {
    WorthTimesMono(m, q, at);
    ScaledIs(p[m], TimesMono(m, q));
    WorthScaled(p[m], TimesMono(m, q), Scaled(p[m], TimesMono(m, q)), at);
    WorthTerm(Single(p[m], m), p[m], m, at);
    Associates(p[m], MonoWorth(m, at), Worth(q, at));
  }

  lemma MultiplySum(a: Poly, b: Poly, p: Poly, q: Poly, aq: Poly, bq: Poly, at: Moment)
    requires IsSum(a, b, p) && Worth(aq, at) == Mul(Worth(a, at), Worth(q, at)) && Worth(bq, at) == Mul(Worth(b, at), Worth(q, at))
    ensures Worth(Add(aq, bq), at) == Mul(Worth(p, at), Worth(q, at))
  {
    AddIsSum(aq, bq);
    WorthSum(aq, bq, Add(aq, bq), at);
    WorthSum(a, b, p, at);
    Distributes(Worth(a, at), Worth(b, at), Worth(p, at), Worth(q, at));
  }

  lemma {:induction false} WorthMultiply(p: Poly, q: Poly, at: Moment)
    ensures Worth(Multiply(p, q), at) == Mul(Worth(p, at), Worth(q, at))
    decreases |p|
  {
    if p != Zero {
      var m := OneTerm(p);
      Peel(p, m);
      WorthMultiply(Drop(p, m), q, at);
      MultiplyOne(p, q, m, at);
      MultiplySum(Single(p[m], m), Drop(p, m), p, q, Scaled(p[m], TimesMono(m, q)), Multiply(Drop(p, m), q), at);
    }
  }

  /** The polynomial with q for the letter. */
  ghost predicate IsReplaced(p: Poly, x: Letter, q: Poly, r: Poly) {
    forall at: Moment :: Worth(r, at) == Worth(p, Put(at, x, Worth(q, at)))
  }

  lemma Recombine(x: real, p: real, free: real, quotient: real, sum: real, product: real)
    requires Divides(p, x, free, quotient) && product == Mul(x, quotient) && sum == free + product
    ensures sum == p
  {
  }

  lemma ReplacedSum(p: Poly, x: Letter, q: Poly, inner: Poly, at: Moment)
    requires IsReplaced(Quotient(p, x), x, q, inner)
    ensures Worth(Add(Free(p, x), Multiply(q, inner)), at) == Worth(p, Put(at, x, Worth(q, at)))
  {
    var there := Put(at, x, Worth(q, at));
    WorthMultiply(q, inner, at);
    AddIsSum(Free(p, x), Multiply(q, inner));
    WorthSum(Free(p, x), Multiply(q, inner), Add(Free(p, x), Multiply(q, inner)), at);
    FreeLacks(p, x);
    Unmentioned(Free(p, x), at, x, Worth(q, at));
    WorthDivided(p, x, there);
    Recombine(Reading(x, there), Worth(p, there), Worth(Free(p, x), there), Worth(Quotient(p, x), there),
              Worth(Add(Free(p, x), Multiply(q, inner)), at), Worth(Multiply(q, inner), at));
  }

  lemma ReplacedMentioned(p: Poly, x: Letter, q: Poly, inner: Poly) returns (r: Poly)
    requires IsReplaced(Quotient(p, x), x, q, inner)
    ensures IsReplaced(p, x, q, r)
  {
    r := Add(Free(p, x), Multiply(q, inner));
    forall at: Moment
      ensures Worth(r, at) == Worth(p, Put(at, x, Worth(q, at)))
    {
      ReplacedSum(p, x, q, inner, at);
    }
  }

  lemma ReplacedNowhere(p: Poly, x: Letter, q: Poly)
    requires !Mentions(p, x)
    ensures IsReplaced(p, x, q, p)
  {
    forall at: Moment
      ensures Worth(p, at) == Worth(p, Put(at, x, Worth(q, at)))
    {
      Unmentioned(p, at, x, Worth(q, at));
    }
  }

  lemma {:induction false} SomeReplaced(p: Poly, x: Letter, q: Poly, n: nat) returns (r: Poly)
    requires LetterBelow(p, x, n)
    ensures IsReplaced(p, x, q, r)
    decreases n
  {
    if !Mentions(p, x) {
      ReplacedNowhere(p, x, q);
      r := p;
    } else {
      QuotientBelow(p, x, n);
      var inner := SomeReplaced(Quotient(p, x), x, q, n - 1);
      r := ReplacedMentioned(p, x, q, inner);
    }
  }

  /** There is exactly one. */
  lemma OneReplaced(p: Poly, x: Letter, q: Poly) returns (r: Poly)
    ensures IsReplaced(p, x, q, r) && forall s | IsReplaced(p, x, q, s) :: s == r
  {
    var n := SomeBound(p.Keys, x);
    r := SomeReplaced(p, x, q, n);
    forall s | IsReplaced(p, x, q, s)
      ensures s == r
    {
      SameWorth(s, r);
    }
  }
}
