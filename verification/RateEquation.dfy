/** Whether a resolved and integrated flow solves its rate equation: when the dependencies see each
    other's values at the start of the interval, and what goes wrong when they do not. */
module RateEquation {
  import opened Algebra
  import opened FlowPartition
  import opened Evaluation
  import opened Nonzero
  import opened Resolution
  import opened Coverage

  /** Substituting a polynomial for a symbol evaluates as putting its value in. */
  ghost predicate Substitutes(subs: Substitution) {
    forall p: Poly, d: int, q: Poly :: IsReplaced(p, Named(d), q, subs(p, d, q))
  }

  ghost function TheReplaced(p: Poly, d: int, q: Poly): (r: Poly)
    ensures IsReplaced(p, Named(d), q, r)
  {
    assert exists r :: IsReplaced(p, Named(d), q, r) by {
      var r := OneReplaced(p, Named(d), q);
    }
    var r :| IsReplaced(p, Named(d), q, r);
    r
  }

  /** There is exactly one such substitution of polynomials. */
  lemma SubstitutionIs(subs: Substitution)
    ensures Substitutes((p: Poly, d: int, q: Poly) => TheReplaced(p, d, q))
    ensures Substitutes(subs) ==> forall p: Poly, d: int, q: Poly :: subs(p, d, q) == TheReplaced(p, d, q)
  {
    if Substitutes(subs) {
      forall p: Poly, d: int, q: Poly
        ensures subs(p, d, q) == TheReplaced(p, d, q)
      {
        var r := OneReplaced(p, Named(d), q);
        assert IsReplaced(p, Named(d), q, subs(p, d, q));
      }
    }
  }

  // ----- What a resolved polynomial is worth -----

  ghost function MovedTo(running: set<int>, table: Table, d: int, at: Moment): real
    requires Moving(running, table, d)
  {
    Worth(TheFlow(running, table, d).polynomial, at)
  }

  /** Every dependency at the value its satisfied flow gives it; smaller numbers are put in last,
      so their flows already see the new values of the others. */
  ghost function ValuesOf(running: set<int>, table: Table, deps: set<int>, at: Moment): Moment
    decreases |deps|
  {
    if deps == {} then at
    else
      var d := Least(deps);
      var later := ValuesOf(running, table, deps - {d}, at);
      if Moving(running, table, d) then Put(later, Named(d), MovedTo(running, table, d, later)) else later
  }

  /** Every dependency at the value its satisfied flow gives it from the values at the start. */
  ghost function AtOnce(running: set<int>, table: Table, deps: set<int>, at: Moment): Moment {
    at.(v := (s: int) => if s in deps && Moving(running, table, s) then MovedTo(running, table, s, at) else at.v(s))
  }

  lemma {:induction false} TargetMeans(subs: Substitution, table: Table, running: set<int>, poly: Poly, deps: set<int>, at: Moment)
    requires Substitutes(subs)
    ensures Worth(Target(subs, table, running, poly, deps), at) == Worth(poly, ValuesOf(running, table, deps, at))
    decreases |deps|
  {
    if deps != {} {
      var d := Least(deps);
      var rest := deps - {d};
      if Moving(running, table, d) {
        var q := TheFlow(running, table, d).polynomial;
        TargetMeans(subs, table, running, subs(poly, d, q), rest, at);
        assert IsReplaced(poly, Named(d), q, subs(poly, d, q));
      } else {
        TargetMeans(subs, table, running, poly, rest, at);
      }
    }
  }

  /** No flow of a dependency mentions a moving dependency with a larger number. */
  ghost predicate Untangled(running: set<int>, table: Table, deps: set<int>) {
    forall d, e | d in deps && e in deps && d < e && Moving(running, table, d) && Moving(running, table, e) ::
      !Mentions(TheFlow(running, table, d).polynomial, Named(e))
  }

  ghost predicate SameValues(a: Moment, b: Moment) {
    a.t == b.t && forall s :: a.v(s) == b.v(s)
  }

  lemma SameWorthAt(p: Poly, a: Moment, b: Moment)
    requires SameValues(a, b)
    ensures Worth(p, a) == Worth(p, b)
  {
    forall x | Mentions(p, x)
      ensures Reading(x, a) == Reading(x, b)
    {
    }
    Agree(p, a, b);
  }

  /** The smaller dependency does not mention the larger ones, which have moved. */
  lemma LeastUnaffected(running: set<int>, table: Table, deps: set<int>, at: Moment, later: Moment)
    requires deps != {} && Untangled(running, table, deps) && Moving(running, table, Least(deps))
    requires SameValues(later, AtOnce(running, table, deps - {Least(deps)}, at))
    ensures MovedTo(running, table, Least(deps), later) == MovedTo(running, table, Least(deps), at)
  {
    var d := Least(deps);
    var q := TheFlow(running, table, d).polynomial;
    assert forall e | e in deps - {d} && Moving(running, table, e) :: d < e && !Mentions(q, Named(e));
    forall x | Mentions(q, x)
      ensures Reading(x, later) == Reading(x, at)
    {
    }
    Agree(q, later, at);
  }

  /** Then all dependencies get the values of their flows at once. */
  lemma {:induction false} PutAtOnce(running: set<int>, table: Table, deps: set<int>, at: Moment)
    requires Untangled(running, table, deps)
    ensures SameValues(ValuesOf(running, table, deps, at), AtOnce(running, table, deps, at))
    decreases |deps|
  {
    if deps != {} {
      var d := Least(deps);
      var later := ValuesOf(running, table, deps - {d}, at);
      PutAtOnce(running, table, deps - {d}, at);
      if Moving(running, table, d) {
        LeastUnaffected(running, table, deps, at, later);
        var after := Put(later, Named(d), MovedTo(running, table, d, later));
        forall s
          ensures after.v(s) == AtOnce(running, table, deps, at).v(s)
        {
          assert Reading(Named(s), after) == if s == d then MovedTo(running, table, d, later) else Reading(Named(s), later);
        }
        assert Reading(Clock, after) == at.t;
      }
    }
  }

  // ----- The rate equation -----

  /** The path starts at the function's value and moves at the rate, at every moment: the flow of
      the function while its operators run, with its dependencies where their own flows take them. */
  ghost predicate Solves(running: set<int>, table: Table, id: int, f: SingleFlow, g: SingleFlow, v: Valuation) {
    && Path(g.polynomial, v)(0.0) == v(id)
    && forall t: real :: HasSlope(Path(g.polynomial, v), t, Worth(f.polynomial, AtOnce(running, table, f.dependencies, Moment(t, v))))
  }

  lemma IntegratedSolves(subs: Substitution, table: Table, running: set<int>, id: int, f: SingleFlow, resolved: SingleFlow,
                         g: SingleFlow, v: Valuation)
    requires Substitutes(subs) && Untangled(running, table, f.dependencies) && IsIntegrated(id, resolved, g)
    requires resolved.polynomial == Target(subs, table, running, f.polynomial, f.dependencies)
    ensures Solves(running, table, id, f, g, v)
  {
    forall t: real
      ensures HasSlope(Path(g.polynomial, v), t, Worth(f.polynomial, AtOnce(running, table, f.dependencies, Moment(t, v))))
    {
      var at := Moment(t, v);
      FlowingSolves(resolved.polynomial, id, v, t);
      TargetMeans(subs, table, running, f.polynomial, f.dependencies, at);
      PutAtOnce(running, table, f.dependencies, at);
      SameWorthAt(f.polynomial, ValuesOf(running, table, f.dependencies, at), AtOnce(running, table, f.dependencies, at));
    }
    FlowingSolves(resolved.polynomial, id, v, 0.0);
  }

  /** For what runs, the finished flows have a satisfied one that solves the rate equation of the
      satisfied flow the function began with. */
  lemma FinishedSolves(subs: Substitution, table: Table, running: set<int>, id: int, first: seq<SingleFlow>,
                       final: seq<SingleFlow>, f: SingleFlow, v: Valuation) returns (k: nat)
    requires Substitutes(subs) && Finished(subs, table, id, first, final)
    requires f in first && Satisfies(running, f.operators) && Passable(table, running, f.operators, f.dependencies)
    requires Untangled(running, table, f.dependencies)
    ensures k < |final| && Satisfies(running, final[k].operators) && Solves(running, table, id, f, final[k], v)
  {
    var resolved := Resolved(subs, table, first);
    ResolvedCovers(subs, table, running, first, f);
    k :| k < |resolved| && Satisfies(running, resolved[k].operators)
         && resolved[k].polynomial == Target(subs, table, running, f.polynomial, f.dependencies);
    IntegratedSolves(subs, table, running, id, f, resolved[k], final[k], v);
  }

  // ----- Two dependencies, exactly -----

  /** A function cannot keep its value along a path that leads to where it is larger. */
  lemma Walk(move: real -> real, good: real -> bool, q: real -> real, step: real, K: real, bound: real, r: real, n: nat)
    returns (s: real)
    requires good(r) && Abs(q(r)) < K && bound <= Abs(r) + Mul(n as real, step)
    requires forall x | good(x) :: good(move(x)) && Abs(move(x)) >= Abs(x) + step
    requires forall x | Abs(x) >= bound :: Abs(q(x)) >= K
    ensures q(move(s)) != q(s)
    decreases n
  {
    s := r;
    if q(move(r)) == q(r) {
      assert n > 0;
      Distributes((n - 1) as real, 1.0, n as real, step);
      s := Walk(move, good, q, step, K, bound, move(r), n - 1);
    }
  }

  lemma Steps(step: real, distance: real) returns (n: nat)
    requires step > 0.0
    ensures distance <= Mul(n as real, step)
  {
    var x := distance / step;
    assert Mul(x, step) == distance;
    n := if x <= 0.0 then 0 else x.Floor + 1;
    MoreTimes(x, n as real, step);
  }
}
