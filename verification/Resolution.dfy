/** Substituting dependencies: what the work list makes of a flow, and what that means. */
module Resolution {
  import opened Algebra
  import opened FlowPartition

  /** Replacing a function's symbol in a polynomial by another polynomial. */
  type Substitution = (Poly, int, Poly) -> Poly

  /** The flows of every function, by its number. */
  type Table = map<int, seq<SingleFlow>>

  ghost predicate IsLeast(d: int, s: set<int>) {
    d in s && forall x | x in s :: d <= x
  }

  lemma Member<T>(s: set<T>) returns (x: T)
    requires s != {}
    ensures x in s
  {
    x :| x in s;
  }

  lemma {:induction false} LeastOf(s: set<int>) returns (d: int)
    requires s != {}
    ensures IsLeast(d, s)
    decreases |s|
  {
    var first := Member(s);
    var rest := s - {first};
    d := first;
    if rest != {} {
      var e := LeastOf(rest);
      if e < d {
        d := e;
      }
    }
    forall x | x in s
      ensures d <= x
    {
      assert x == first || x in rest;
    }
  }

  ghost function Least(s: set<int>): (d: int)
    requires s != {}
    ensures d in s && forall x | x in s :: d <= x
  {
    assert exists d :: IsLeast(d, s) by {
      var d := LeastOf(s);
    }
    var d :| IsLeast(d, s);
    d
  }

  // ----- Work left -----

  function Branches(base: nat, n: nat): (p: nat)
    ensures base > 0 ==> p > 0
  {
    if n == 0 then 1 else base * Branches(base, n - 1)
  }

  /** Each flow weighs (K+2) to the number of its dependencies. */
  function Weight(flows: seq<SingleFlow>, K: nat): nat {
    if flows == [] then 0
    else Weight(flows[..|flows| - 1], K) + Branches(K + 2, |flows[|flows| - 1].dependencies|)
  }

  lemma {:induction false} WeightConcat(a: seq<SingleFlow>, b: seq<SingleFlow>, K: nat)
    ensures Weight(a + b, K) == Weight(a, K) + Weight(b, K)
  {
    if b == [] {
      assert a + b == a;
    } else {
      var n := |b| - 1;
      assert (a + b)[..|a + b| - 1] == a + b[..n];
      WeightConcat(a, b[..n], K);
    }
  }

  lemma OneMoreTimes(k: nat, p: nat)
    requires k > 0
    ensures (k - 1) * p + p == k * p
  {
  }

  lemma {:induction false} WeightOfMany(flows: seq<SingleFlow>, K: nat, n: nat)
    requires forall f | f in flows :: |f.dependencies| == n
    ensures Weight(flows, K) == |flows| * Branches(K + 2, n)
  {
    if flows != [] {
      var last := flows[|flows| - 1];
      assert last in flows;
      WeightOfMany(flows[..|flows| - 1], K, n);
      OneMoreTimes(|flows|, Branches(K + 2, n));
    }
  }

  lemma FewerTimes(k: nat, n: nat, p: nat)
    requires k < n && p > 0
    ensures k * p < n * p
  {
  }

  /** Replacing a flow by at most K+1 flows with one dependency less makes the list lighter. */
  lemma Lighter(rest: seq<SingleFlow>, current: SingleFlow, children: seq<SingleFlow>, K: nat)
    requires |current.dependencies| > 0 && |children| <= K + 1
    requires forall f | f in children :: |f.dependencies| == |current.dependencies| - 1
    ensures Weight(rest + children, K) < Weight(rest + [current], K)
  {
    var n := |current.dependencies| - 1;
    WeightConcat(rest, children, K);
    WeightConcat(rest, [current], K);
    WeightOfMany(children, K, n);
    assert [current][..0] == [];
    assert Weight([current], K) == Weight([], K) + Branches(K + 2, n + 1);
    FewerTimes(|children|, K + 2, Branches(K + 2, n));
  }

  lemma LighterDropped(rest: seq<SingleFlow>, current: SingleFlow, K: nat)
    ensures Weight(rest, K) < Weight(rest + [current], K)
  {
    WeightConcat(rest, [current], K);
    assert [current][..0] == [];
    assert Weight([current], K) == Weight([], K) + Branches(K + 2, |current.dependencies|);
  }

  // ----- One dependency -----

  /** What the loop over the flows of the dependency has after its first n: the flow itself, which
      it changes when subsumed, the flows pushed, and whether the dependency could be idle. */
  datatype Inner = Inner(current: SingleFlow, pushed: seq<SingleFlow>, distinct: bool)

  /** One turn: subsumed flows change the current flow, which is pushed and goes on changed. */
  function InnerStep(subs: Substitution, d: int, f: SingleFlow, state: Inner): Inner {
    var v := f.operators - state.current.operators;
    if v == {} then
      var changed := state.current.(polynomial := subs(state.current.polynomial, d, f.polynomial));
      Inner(changed, state.pushed + [changed], false)
    else
      var child := SingleFlow(state.current.operators + v, state.current.dependencies, [],
                              subs(state.current.polynomial, d, f.polynomial));
      Inner(state.current, state.pushed + [child], state.distinct && |v| == |f.operators|)
  }

  function InnerLoop(subs: Substitution, d: int, flows: seq<SingleFlow>, start: SingleFlow): (state: Inner) {
    if flows == [] then Inner(start, [], true)
    else InnerStep(subs, d, flows[|flows| - 1], InnerLoop(subs, d, flows[..|flows| - 1], start))
  }

  /** The flows pushed for one dependency. */
  function ChildrenOf(subs: Substitution, d: int, flows: seq<SingleFlow>, start: SingleFlow): seq<SingleFlow> {
    var state := InnerLoop(subs, d, flows, start);
    if state.distinct then state.pushed + [state.current] else state.pushed
  }

  lemma InnerTurn(subs: Substitution, d: int, flows: seq<SingleFlow>, start: SingleFlow, k: nat)
    requires k < |flows|
    ensures InnerLoop(subs, d, flows[..k + 1], start) == InnerStep(subs, d, flows[k], InnerLoop(subs, d, flows[..k], start))
  {
    assert flows[..k + 1][..k] == flows[..k];
  }

  /** Conditions of their own, and none in common with these operators. */
  predicate Apart(flows: seq<SingleFlow>, ops: set<int>) {
    forall k | 0 <= k < |flows| :: flows[k].operators != {} && flows[k].operators * ops == {}
  }

  lemma DifferenceIs(a: set<int>, b: set<int>)
    ensures a - b != {} && |a - b| == |a| <==> a != {} && a * b == {}
  {
    assert a == (a - b) + a * b;
    assert |a| == |a - b| + |a * b|;
    assert a * b == {} ==> a - b == a;
  }

  /** What one turn adds. */
  lemma StepAdds(subs: Substitution, d: int, f: SingleFlow, before: Inner, after: Inner)
    requires after == InnerStep(subs, d, f, before)
    ensures |after.pushed| == |before.pushed| + 1 && after.pushed[..|before.pushed|] == before.pushed
    ensures
      var child := after.pushed[|before.pushed|];
      && child.operators == before.current.operators + f.operators
      && child.dependencies == before.current.dependencies
      && child.polynomial == subs(before.current.polynomial, d, f.polynomial)
    ensures after.current.operators == before.current.operators && after.current.dependencies == before.current.dependencies
    ensures after.distinct <==> before.distinct && f.operators != {} && f.operators * before.current.operators == {}
    ensures f.operators - before.current.operators != {} ==> after.current == before.current
  {
    DifferenceIs(f.operators, before.current.operators);
    var v := f.operators - before.current.operators;
    assert before.current.operators + v == before.current.operators + f.operators;
  }

  lemma ApartLast(flows: seq<SingleFlow>, ops: set<int>)
    requires flows != []
    ensures
      var last := flows[|flows| - 1].operators;
      Apart(flows, ops) <==> Apart(flows[..|flows| - 1], ops) && last != {} && last * ops == {}
  {
  }

  ghost predicate Shaped(state: Inner, flows: seq<SingleFlow>, start: SingleFlow) {
    && |state.pushed| == |flows| && (state.distinct <==> Apart(flows, start.operators))
    && state.current.operators == start.operators && state.current.dependencies == start.dependencies
  }

  lemma {:induction false} InnerShape(subs: Substitution, d: int, flows: seq<SingleFlow>, start: SingleFlow)
    ensures Shaped(InnerLoop(subs, d, flows, start), flows, start)
  {
    if flows != [] {
      var n := |flows| - 1;
      InnerShape(subs, d, flows[..n], start);
      StepAdds(subs, d, flows[n], InnerLoop(subs, d, flows[..n], start), InnerLoop(subs, d, flows, start));
      ApartLast(flows, start.operators);
    }
  }

  /** The k-th child asks for what the start and the k-th flow ask for. */
  ghost predicate IsChild(state: Inner, start: SingleFlow, f: SingleFlow, k: nat) {
    && k < |state.pushed| && state.pushed[k].dependencies == start.dependencies
    && state.pushed[k].operators == start.operators + f.operators
  }

  lemma {:induction false} PushedAt(subs: Substitution, d: int, flows: seq<SingleFlow>, start: SingleFlow, k: nat)
    requires k < |flows|
    ensures IsChild(InnerLoop(subs, d, flows, start), start, flows[k], k)
  {
    var n := |flows| - 1;
    var before, after := InnerLoop(subs, d, flows[..n], start), InnerLoop(subs, d, flows, start);
    InnerShape(subs, d, flows[..n], start);
    StepAdds(subs, d, flows[n], before, after);
    if k < n {
      PushedAt(subs, d, flows[..n], start, k);
      assert after.pushed[k] == before.pushed[k];
    }
  }

  lemma ChildAt(subs: Substitution, d: int, flows: seq<SingleFlow>, start: SingleFlow, k: nat)
    requires k < |ChildrenOf(subs, d, flows, start)|
    ensures ChildrenOf(subs, d, flows, start)[k].dependencies == start.dependencies
    ensures ChildrenOf(subs, d, flows, start)[k].operators ==
            if k < |flows| then start.operators + flows[k].operators else start.operators
    ensures k >= |flows| ==> k == |flows| && Apart(flows, start.operators)
  {
    InnerShape(subs, d, flows, start);
    if k < |flows| {
      PushedAt(subs, d, flows, start, k);
    }
  }

  lemma ChildCount(subs: Substitution, d: int, flows: seq<SingleFlow>, start: SingleFlow)
    ensures |ChildrenOf(subs, d, flows, start)| == |flows| + if Apart(flows, start.operators) then 1 else 0
  {
    InnerShape(subs, d, flows, start);
  }

  lemma ChildrenShape(subs: Substitution, d: int, flows: seq<SingleFlow>, start: SingleFlow)
    ensures |ChildrenOf(subs, d, flows, start)| <= |flows| + 1
    ensures forall f | f in ChildrenOf(subs, d, flows, start) :: f.dependencies == start.dependencies
  {
    var children := ChildrenOf(subs, d, flows, start);
    ChildCount(subs, d, flows, start);
    forall f | f in children
      ensures f.dependencies == start.dependencies
    {
      var k :| 0 <= k < |children| && children[k] == f;
      ChildAt(subs, d, flows, start, k);
    }
  }

  // ----- Which child is satisfied -----

  /** Exactly one of these flows is satisfied, the k-th. */
  ghost predicate OnlyFlow(running: set<int>, flows: seq<SingleFlow>, k: nat) {
    && k < |flows| && Satisfies(running, flows[k].operators)
    && forall j | 0 <= j < |flows| && Satisfies(running, flows[j].operators) :: j == k
  }

  ghost predicate NoFlow(running: set<int>, flows: seq<SingleFlow>) {
    forall k | 0 <= k < |flows| :: !Satisfies(running, flows[k].operators)
  }

  ghost predicate SomeOnly(running: set<int>, flows: seq<SingleFlow>) {
    exists k: nat :: OnlyFlow(running, flows, k)
  }

  lemma UnionSatisfied(running: set<int>, a: set<int>, b: set<int>)
    ensures Satisfies(running, a + b) <==> Satisfies(running, a) && Satisfies(running, b)
  {
    if Satisfies(running, a + b) {
      assert forall o | o in a :: o in a + b;
      assert forall o | o in b :: o in a + b;
    }
  }

  /** The k-th child is satisfied with the k-th flow of the dependency, the one for an idle
      dependency always: it keeps none of the operators that must not run. */
  lemma ChildSatisfied(subs: Substitution, d: int, flows: seq<SingleFlow>, start: SingleFlow, running: set<int>, k: nat)
    requires k < |ChildrenOf(subs, d, flows, start)| && Satisfies(running, start.operators)
    ensures Satisfies(running, ChildrenOf(subs, d, flows, start)[k].operators) <==>
            k == |flows| || (k < |flows| && Satisfies(running, flows[k].operators))
  {
    ChildAt(subs, d, flows, start, k);
    if k < |flows| {
      UnionSatisfied(running, start.operators, flows[k].operators);
    }
  }

  /** Of the children of a satisfied flow exactly one is satisfied if and only if the flows of the
      dependency share no operator with it just when none of them is satisfied. */
  lemma OneChildIff(subs: Substitution, d: int, flows: seq<SingleFlow>, start: SingleFlow, running: set<int>)
    requires Satisfies(running, start.operators) && (NoFlow(running, flows) || SomeOnly(running, flows))
    ensures SomeOnly(running, ChildrenOf(subs, d, flows, start)) <==>
            (Apart(flows, start.operators) <==> NoFlow(running, flows))
  {
    var children := ChildrenOf(subs, d, flows, start);
    ChildCount(subs, d, flows, start);
    forall k | 0 <= k < |children|
      ensures Satisfies(running, children[k].operators) <==>
              k == |flows| || (k < |flows| && Satisfies(running, flows[k].operators))
    {
      ChildSatisfied(subs, d, flows, start, running, k);
    }
    var n := |flows|;
    if Apart(flows, start.operators) {
      assert Satisfies(running, children[n].operators);
      if NoFlow(running, flows) {
        assert OnlyFlow(running, children, n);
      }
    } else if SomeOnly(running, flows) {
      var k: nat :| OnlyFlow(running, flows, k);
      assert OnlyFlow(running, children, k);
    }
  }

  lemma PartSatisfied(running: set<int>, a: set<int>, b: set<int>)
    requires Satisfies(running, b) && a - b == {}
    ensures Satisfies(running, a)
  {
    forall o | o in a
      ensures o in b
    {
      assert o !in a - b;
    }
  }

  /** While none of these flows is satisfied, the current flow has not been changed. */
  lemma {:induction false} InnerUnchanged(subs: Substitution, d: int, flows: seq<SingleFlow>, start: SingleFlow, running: set<int>)
    requires Satisfies(running, start.operators) && NoFlow(running, flows)
    ensures InnerLoop(subs, d, flows, start).current == start
  {
    if flows != [] {
      var n := |flows| - 1;
      InnerUnchanged(subs, d, flows[..n], start, running);
      StepAdds(subs, d, flows[n], InnerLoop(subs, d, flows[..n], start), InnerLoop(subs, d, flows, start));
      if flows[n].operators - start.operators == {} {
        PartSatisfied(running, flows[n].operators, start.operators);
      }
    }
  }

  /** The first satisfied flow of the dependency is put into the polynomial as it was. */
  lemma {:induction false} PushedFor(subs: Substitution, d: int, flows: seq<SingleFlow>, start: SingleFlow, running: set<int>, k: nat)
    requires k < |flows| && Satisfies(running, start.operators) && NoFlow(running, flows[..k])
    ensures
      var pushed := InnerLoop(subs, d, flows, start).pushed;
      k < |pushed| && pushed[k].polynomial == subs(start.polynomial, d, flows[k].polynomial)
  {
    var n := |flows| - 1;
    var before, after := InnerLoop(subs, d, flows[..n], start), InnerLoop(subs, d, flows, start);
    InnerShape(subs, d, flows[..n], start);
    StepAdds(subs, d, flows[n], before, after);
    if k < n {
      assert flows[..n][..k] == flows[..k];
      PushedFor(subs, d, flows[..n], start, running, k);
      assert after.pushed[k] == before.pushed[k];
    } else {
      InnerUnchanged(subs, d, flows[..n], start, running);
    }
  }

  // ----- The work list -----

  ghost function FlowsIn(table: Table, d: int): seq<SingleFlow> {
    if d in table then table[d] else []
  }

  /** Without its least dependency. */
  ghost function Dropped(f: SingleFlow): SingleFlow
    requires f.dependencies != {}
  {
    f.(dependencies := f.dependencies - {Least(f.dependencies)})
  }

  ghost function Children(subs: Substitution, table: Table, f: SingleFlow): (children: seq<SingleFlow>)
    requires f.dependencies != {}
    ensures forall g | g in children :: g.dependencies == f.dependencies - {Least(f.dependencies)}
  {
    var d := Least(f.dependencies);
    ChildrenShape(subs, d, FlowsIn(table, d), Dropped(f));
    ChildrenOf(subs, d, FlowsIn(table, d), Dropped(f))
  }

  ghost function Depth(flows: seq<SingleFlow>): nat {
    if flows == [] then 0
    else
      var n := |flows[|flows| - 1].dependencies|;
      var rest := Depth(flows[..|flows| - 1]);
      if n > rest then n else rest
  }

  lemma DepthParts(flows: seq<SingleFlow>)
    requires flows != []
    ensures Depth(flows[..|flows| - 1]) <= Depth(flows) && |flows[|flows| - 1].dependencies| <= Depth(flows)
  {
  }

  lemma {:induction false} DepthOf(flows: seq<SingleFlow>, n: nat)
    requires forall f | f in flows :: |f.dependencies| == n
    ensures Depth(flows) <= n
  {
    if flows != [] {
      assert flows[|flows| - 1] in flows;
      DepthOf(flows[..|flows| - 1], n);
    }
  }

  lemma ChildrenDepth(subs: Substitution, table: Table, f: SingleFlow)
    requires f.dependencies != {}
    ensures Depth(Children(subs, table, f)) < |f.dependencies|
  {
    DepthOf(Children(subs, table, f), |f.dependencies| - 1);
  }

  /** What comes of the flows, the last one first. */
  ghost function Resolved(subs: Substitution, table: Table, flows: seq<SingleFlow>): seq<SingleFlow>
    decreases Depth(flows), 1, |flows|
  {
    if flows == [] then []
    else
      DepthParts(flows);
      FromOne(subs, table, flows[|flows| - 1]) + Resolved(subs, table, flows[..|flows| - 1])
  }

  /** What comes of one flow: every dependency replaced. */
  ghost function FromOne(subs: Substitution, table: Table, f: SingleFlow): seq<SingleFlow>
    decreases |f.dependencies|, 0, 0
  {
    if f.dependencies == {} then [f]
    else
      ChildrenDepth(subs, table, f);
      Resolved(subs, table, Children(subs, table, f))
  }

  lemma ResolvedLast(subs: Substitution, table: Table, rest: seq<SingleFlow>, f: SingleFlow)
    ensures Resolved(subs, table, rest + [f]) == FromOne(subs, table, f) + Resolved(subs, table, rest)
  {
    assert (rest + [f])[..|rest|] == rest;
  }

  lemma Regrouped<T>(a: seq<T>, b: seq<T>, c: seq<T>)
    ensures a + (b + c) == a + b + c
  {
  }

  lemma {:induction false} ResolvedConcat(subs: Substitution, table: Table, a: seq<SingleFlow>, b: seq<SingleFlow>)
    ensures Resolved(subs, table, a + b) == Resolved(subs, table, b) + Resolved(subs, table, a)
    decreases |b|
  {
    if b == [] {
      assert a + b == a;
    } else {
      var n := |b| - 1;
      var rest, last := b[..n], b[n];
      assert a + b == (a + rest) + [last] && b == rest + [last];
      ResolvedLast(subs, table, a + rest, last);
      ResolvedLast(subs, table, rest, last);
      ResolvedConcat(subs, table, a, rest);
      Regrouped(FromOne(subs, table, last), Resolved(subs, table, rest), Resolved(subs, table, a));
    }
  }

  lemma ResolvedOne(subs: Substitution, table: Table, f: SingleFlow)
    ensures Resolved(subs, table, [f]) == FromOne(subs, table, f)
  {
    assert [f] == [] + [f];
    ResolvedLast(subs, table, [], f);
  }

  lemma {:induction false} ResolvedFree(subs: Substitution, table: Table, flows: seq<SingleFlow>)
    ensures forall g | g in Resolved(subs, table, flows) :: g.dependencies == {}
    decreases Depth(flows), |flows|
  {
    if flows != [] {
      var f := flows[|flows| - 1];
      DepthParts(flows);
      ResolvedFree(subs, table, flows[..|flows| - 1]);
      if f.dependencies != {} {
        ChildrenDepth(subs, table, f);
        ResolvedFree(subs, table, Children(subs, table, f));
      }
    }
  }

  ghost predicate DepsWithin(flows: seq<SingleFlow>, D: set<int>) {
    forall f | f in flows :: f.dependencies <= D
  }

  ghost predicate SameOn(a: Table, b: Table, D: set<int>) {
    forall d | d in D :: FlowsIn(a, d) == FlowsIn(b, d)
  }

  /** Only the flows of the dependencies matter. */
  lemma {:induction false} ResolvedSame(subs: Substitution, a: Table, b: Table, flows: seq<SingleFlow>, D: set<int>)
    requires DepsWithin(flows, D) && SameOn(a, b, D)
    ensures Resolved(subs, a, flows) == Resolved(subs, b, flows)
    decreases Depth(flows), |flows|
  {
    if flows != [] {
      var f := flows[|flows| - 1];
      assert f in flows && forall g | g in flows[..|flows| - 1] :: g in flows;
      DepthParts(flows);
      ResolvedSame(subs, a, b, flows[..|flows| - 1], D);
      if f.dependencies != {} {
        assert Least(f.dependencies) in D;
        ChildrenDepth(subs, a, f);
        assert Children(subs, a, f) == Children(subs, b, f);
        ResolvedSame(subs, a, b, Children(subs, a, f), D);
      }
    }
  }

  // ----- Which operators occur -----

  /** Only operators of B occur in the flows. */
  ghost predicate WithinOps(flows: seq<SingleFlow>, B: set<int>) {
    forall f | f in flows :: f.operators <= B
  }

  lemma WithinMore(flows: seq<SingleFlow>, A: set<int>, B: set<int>)
    requires WithinOps(flows, A) && A <= B
    ensures WithinOps(flows, B)
  {
  }

  lemma ChildrenWithin(subs: Substitution, d: int, flows: seq<SingleFlow>, start: SingleFlow, B: set<int>)
    requires WithinOps(flows, B) && start.operators <= B
    ensures WithinOps(ChildrenOf(subs, d, flows, start), B)
  {
    var children := ChildrenOf(subs, d, flows, start);
    forall f | f in children
      ensures f.operators <= B
    {
      var k :| 0 <= k < |children| && children[k] == f;
      ChildAt(subs, d, flows, start, k);
      assert k < |flows| ==> flows[k] in flows;
    }
  }

  /** Between two turns: what is done and what comes of the rest is what comes of the first flows,
      and nothing uses operators or dependencies that were not there. */
  ghost predicate Working(subs: Substitution, table: Table, first: seq<SingleFlow>, done: seq<SingleFlow>, todo: seq<SingleFlow>,
                          B: set<int>, D: set<int>) {
    var working :=
      && Resolved(subs, table, first) == done + Resolved(subs, table, todo)
      && WithinOps(done, B) && WithinOps(todo, B) && DepsWithin(todo, D);
    working
  }

  lemma WorkingMoved(subs: Substitution, table: Table, first: seq<SingleFlow>, done: seq<SingleFlow>, todo: seq<SingleFlow>,
                     rest: seq<SingleFlow>, current: SingleFlow, B: set<int>, D: set<int>)
    requires Working(subs, table, first, done, todo, B, D) && todo == rest + [current] && current.dependencies == {}
    ensures Working(subs, table, first, done + [current], rest, B, D)
  {
    assert current in todo && forall f | f in rest :: f in todo;
    ResolvedLast(subs, table, rest, current);
    Regrouped(done, [current], Resolved(subs, table, rest));
  }

  lemma WorkingReplaced(subs: Substitution, table: Table, first: seq<SingleFlow>, done: seq<SingleFlow>, todo: seq<SingleFlow>,
                        rest: seq<SingleFlow>, current: SingleFlow, after: seq<SingleFlow>, B: set<int>, D: set<int>)
    requires Working(subs, table, first, done, todo, B, D) && todo == rest + [current] && current.dependencies != {}
    requires after == rest + Children(subs, table, current) && WithinOps(Children(subs, table, current), B)
    ensures Working(subs, table, first, done, after, B, D)
  {
    var children := Children(subs, table, current);
    assert current in todo && forall f | f in rest :: f in todo;
    ResolvedLast(subs, table, rest, current);
    ResolvedConcat(subs, table, rest, children);
    forall f | f in after
      ensures f.operators <= B && f.dependencies <= D
    {
      assert f in rest || f in children;
    }
  }

  // ----- Integrated flows -----

  /** The rate's derivatives have been noted, and the flow integrates it from the symbol. */
  ghost predicate IsIntegrated(id: int, before: SingleFlow, after: SingleFlow) {
    && after.operators == before.operators && after.dependencies == before.dependencies
    && |after.derivatives| >= |before.derivatives| && after.derivatives[..|before.derivatives|] == before.derivatives
    && AllDerivatives(before.polynomial, after.derivatives[|before.derivatives|..])
    && after.polynomial == Flowing(before.polynomial, id)
  }

  /** The flows of the function at the end, from those at the start: resolved, then integrated. */
  ghost predicate Finished(subs: Substitution, table: Table, id: int, first: seq<SingleFlow>, final: seq<SingleFlow>) {
    var resolved := Resolved(subs, table, first);
    && |final| == |resolved| && forall k | 0 <= k < |final| :: IsIntegrated(id, resolved[k], final[k])
  }

  /** What the flows of other functions than the dependencies are does not matter. */
  lemma FinishedSame(subs: Substitution, a: Table, b: Table, id: int, first: seq<SingleFlow>, final: seq<SingleFlow>, D: set<int>)
    requires Finished(subs, a, id, first, final) && DepsWithin(first, D) && SameOn(a, b, D)
    ensures Finished(subs, b, id, first, final)
  {
    ResolvedSame(subs, a, b, first, D);
  }
}
