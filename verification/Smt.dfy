module Numbers {
  function Power(x: real, k: nat): real {
    if k == 0 then 1.0 else x * Power(x, k - 1)
  }

  /** Not strictly on two sides of zero. */
  predicate SameSide(x: real, y: real) {
    !(x < 0.0 < y) && !(y < 0.0 < x)
  }

  lemma ProductSign(x: real, y: real)
    ensures x * y >= 0.0 <==> SameSide(x, y)
  {
    if x > 0.0 && y < 0.0 {
      assert x * (-y) > 0.0;
    } else if x < 0.0 && y > 0.0 {
      assert (-x) * y > 0.0;
    } else if x < 0.0 && y < 0.0 {
      assert (-x) * (-y) > 0.0;
    }
  }
}

/** Quantifier-free formulas over named variables, and their evaluation in a model.
    The solver itself is an oracle: only the meaning of what it is given matters. */
module Smt {
  import opened Numbers

  datatype RealVar =
    | Time(h: nat)                            // t<h>
    | Gap(h: nat)                             // d<h>, the time between happenings h and h+1
    | Remaining(op: nat, h: nat)              // <op><h>_dur
    | Value(fn: nat, h: nat, b: nat)          // <function><h>_<b>
    | SlotTime(lit: nat, slot: nat)           // timeof_<literal><slot>, sparse encoding only

  datatype BoolVar =
    | Lit(lit: nat, h: nat, b: nat)           // <literal><h>_<b>
    | Start(op: nat, h: nat)                  // <op><h>_sta
    | End(op: nat, h: nat)                    // <op><h>_end
    | Running(op: nat, h: nat)                // <op><h>_run
    | Fired(op: nat, h: nat, b: nat)          // <event><h>_<b>
    | TilAt(til: nat, h: nat)                 // til_<til>_<h>
    | GoalFlag(comparison: Formula)           // named by the printed comparison
    | SlotLit(lit: nat, slot: nat, b: nat)    // <literal><slot>_<b>, sparse encoding only

  datatype Term =
    | Const(c: real)
    | Var(x: RealVar)
    | Sum(l: Term, r: Term)
    | Diff(l: Term, r: Term)
    | Prod(l: Term, r: Term)
    | Negative(t: Term)
    | Pow(t: Term, k: nat)

  datatype Formula =
    | Truth(value: bool)
    | Bool(b: BoolVar)
    | Not(f: Formula)
    | And(fs: seq<Formula>)
    | Or(fs: seq<Formula>)
    | Implies(p: Formula, q: Formula)
    | Iff(p: Formula, q: Formula)
    | Ite(c: Formula, p: Formula, q: Formula)
    | Le(l: Term, r: Term)
    | Lt(l: Term, r: Term)
    | Eq(l: Term, r: Term)

  datatype Model = Model(b: BoolVar -> bool, r: RealVar -> real)

  function ValueOf(t: Term, m: Model): real {
    match t
    case Const(c) => c
    case Var(x) => m.r(x)
    case Sum(l, r) => ValueOf(l, m) + ValueOf(r, m)
    case Diff(l, r) => ValueOf(l, m) - ValueOf(r, m)
    case Prod(l, r) => ValueOf(l, m) * ValueOf(r, m)
    case Negative(u) => -ValueOf(u, m)
    case Pow(u, k) => Power(ValueOf(u, m), k)
  }

  ghost predicate Eval(f: Formula, m: Model)
    decreases f, 0
  {
    match f
    case Truth(value) => value
    case Bool(b) => m.b(b)
    case Not(g) => !Eval(g, m)
    case And(fs) => Holds(m, fs)
    case Or(fs) => Some(m, fs)
    case Implies(p, q) => Eval(p, m) ==> Eval(q, m)
    case Iff(p, q) => Eval(p, m) == Eval(q, m)
    case Ite(c, p, q) => if Eval(c, m) then Eval(p, m) else Eval(q, m)
    case Le(l, r) => ValueOf(l, m) <= ValueOf(r, m)
    case Lt(l, r) => ValueOf(l, m) < ValueOf(r, m)
    case Eq(l, r) => ValueOf(l, m) == ValueOf(r, m)
  }

  /** The model satisfies every formula of the list. */
  ghost predicate Holds(m: Model, fs: seq<Formula>)
    decreases fs, 1
  {
    forall f {:trigger f in fs, Eval(f, m)} | f in fs :: Eval(f, m)
  }

  /** The model satisfies some formula of the list. */
  ghost predicate Some(m: Model, fs: seq<Formula>)
    decreases fs, 1
  {
    exists f {:trigger f in fs, Eval(f, m)} | f in fs :: Eval(f, m)
  }

  lemma HoldsConcat(m: Model, a: seq<Formula>, b: seq<Formula>)
    ensures Holds(m, a + b) <==> Holds(m, a) && Holds(m, b)
  {
    assert forall f :: f in a + b <==> f in a || f in b;
  }

  lemma AnyConcat(m: Model, a: seq<Formula>, b: seq<Formula>)
    ensures Some(m, a + b) <==> Some(m, a) || Some(m, b)
  {
    assert forall f :: f in a + b <==> f in a || f in b;
  }

  lemma HoldsConcat4(m: Model, a: seq<Formula>, b: seq<Formula>, c: seq<Formula>, d: seq<Formula>)
    ensures Holds(m, a + b + c + d) <==> Holds(m, a) && Holds(m, b) && Holds(m, c) && Holds(m, d)
  {
    HoldsConcat(m, a + b + c, d);
    HoldsConcat(m, a + b, c);
    HoldsConcat(m, a, b);
  }

  lemma HoldsOne(m: Model, f: Formula)
    ensures Holds(m, [f]) <==> Eval(f, m)
  {
    assert f in [f];
  }

  lemma HoldsTwo(m: Model, f: Formula, g: Formula)
    ensures Holds(m, [f, g]) <==> Eval(f, m) && Eval(g, m)
  {
    HoldsConcat(m, [f], [g]);
    HoldsOne(m, f);
    HoldsOne(m, g);
    assert [f] + [g] == [f, g];
  }

  lemma AnyOne(m: Model, f: Formula)
    ensures Some(m, [f]) <==> Eval(f, m)
  {
    assert f in [f];
  }

  lemma AnyTwo(m: Model, f: Formula, g: Formula)
    ensures Some(m, [f, g]) <==> Eval(f, m) || Eval(g, m)
  {
    AnyConcat(m, [f], [g]);
    AnyOne(m, f);
    AnyOne(m, g);
    assert [f] + [g] == [f, g];
  }

  /** A literal with its polarity, as the condition visitors build it. */
  function Signed(negated: bool, b: BoolVar): (f: Formula) {
    if negated then Not(Bool(b)) else Bool(b)
  }

  lemma EvalLiteral(m: Model, b: BoolVar)
    ensures Eval(Bool(b), m) == m.b(b)
    ensures Eval(Not(Bool(b)), m) == !m.b(b)
    ensures forall negated :: Eval(Signed(negated, b), m) <==> m.b(b) != negated
  {
    assert Eval(Bool(b), m) == m.b(b);
  }
}
