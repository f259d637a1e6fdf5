/** What the resolved flows are for: how many of them are satisfied, and what they say. */
module Coverage {
  import opened Algebra
  import opened FlowPartition
  import opened Resolution

  // ----- How many are satisfied -----

  ghost function Count(running: set<int>, flows: seq<SingleFlow>): nat {
    if flows == [] then 0
    else
      Count(running, flows[..|flows| - 1]) + if Satisfies(running, flows[|flows| - 1].operators) then 1 else 0
  }

  lemma {:induction false} CountConcat(running: set<int>, a: seq<SingleFlow>, b: seq<SingleFlow>)
    ensures Count(running, a + b) == Count(running, a) + Count(running, b)
    decreases |b|
  {
    if b == [] {
      assert a + b == a;
    } else {
      var n := |b| - 1;
      assert (a + b)[..|a + b| - 1] == a + b[..n];
      CountConcat(running, a, b[..n]);
    }
  }

  lemma {:induction false} CountNone(running: set<int>, flows: seq<SingleFlow>)
    ensures Count(running, flows) == 0 <==> NoFlow(running, flows)
  {
    if flows != [] {
      var n := |flows| - 1;
      CountNone(running, flows[..n]);
      if NoFlow(running, flows[..n]) && !Satisfies(running, flows[n].operators) {
        forall k | 0 <= k < |flows|
          ensures !Satisfies(running, flows[k].operators)
        {
          assert k < n ==> flows[k] == flows[..n][k];
        }
      }
      if NoFlow(running, flows) {
        assert NoFlow(running, flows[..n]);
      }
    }
  }

  /** Exactly one of them is. */
  lemma {:induction false} CountOne(running: set<int>, flows: seq<SingleFlow>)
    ensures Count(running, flows) == 1 <==> SomeOnly(running, flows)
  {
    if flows != [] {
      var n := |flows| - 1;
      var rest := flows[..n];
      CountOne(running, rest);
      CountNone(running, rest);
      if SomeOnly(running, flows) {
        var k: nat :| OnlyFlow(running, flows, k);
        if k < n {
          assert OnlyFlow(running, rest, k);
        } else {
          assert NoFlow(running, rest);
        }
      }
      if Count(running, flows) == 1 {
        if Satisfies(running, flows[n].operators) {
          assert forall j | 0 <= j < n :: flows[j] == rest[j];
          assert OnlyFlow(running, flows, n);
        } else {
          var k: nat :| OnlyFlow(running, rest, k);
          assert forall j | 0 <= j < n :: flows[j] == rest[j];
          assert OnlyFlow(running, flows, k);
        }
      }
    }
  }

  // ----- A dependency that moves -----

  ghost predicate Moving(running: set<int>, table: Table, d: int) {
    SomeOnly(running, FlowsIn(table, d))
  }

  /** Not two of its flows are satisfied at once. */
  ghost predicate Settled(running: set<int>, table: Table, d: int) {
    Moving(running, table, d) || NoFlow(running, FlowsIn(table, d))
  }

  ghost function TheFlow(running: set<int>, table: Table, d: int): SingleFlow
    requires Moving(running, table, d)
  {
    var k: nat :| OnlyFlow(running, FlowsIn(table, d), k);
    FlowsIn(table, d)[k]
  }

  lemma TheFlowIs(running: set<int>, table: Table, d: int, k: nat)
    requires OnlyFlow(running, FlowsIn(table, d), k)
    ensures Moving(running, table, d) && TheFlow(running, table, d) == FlowsIn(table, d)[k]
  {
  }

  // ----- The number of satisfied resolved flows -----

  /** Every dependency that moves asks for its operators as well; if its flows have none in common
      with those asked for so far, it can also be left out, and that is the only way with one that
      does not move. */
  ghost function Ways(table: Table, running: set<int>, ops: set<int>, deps: set<int>): nat
    decreases |deps|
  {
    if deps == {} then 1
    else
      var d := Least(deps);
      var left := if Apart(FlowsIn(table, d), ops) then Ways(table, running, ops, deps - {d}) else 0;
      if Moving(running, table, d)
      then Ways(table, running, ops + TheFlow(running, table, d).operators, deps - {d}) + left
      else left
  }

  lemma CountLast(subs: Substitution, table: Table, running: set<int>, flows: seq<SingleFlow>)
    requires flows != []
    ensures Count(running, Resolved(subs, table, flows)) ==
            Count(running, FromOne(subs, table, flows[|flows| - 1])) + Count(running, Resolved(subs, table, flows[..|flows| - 1]))
  {
    CountConcat(running, FromOne(subs, table, flows[|flows| - 1]), Resolved(subs, table, flows[..|flows| - 1]));
  }

  lemma UnsatisfiedOne(subs: Substitution, table: Table, running: set<int>, f: SingleFlow)
    requires !Satisfies(running, f.operators)
    requires f.dependencies != {} ==> Count(running, Resolved(subs, table, Children(subs, table, f))) == 0
    ensures Count(running, FromOne(subs, table, f)) == 0
  {
    if f.dependencies == {} {
      assert [f][..0] == [];
    }
  }

  lemma ChildrenUnsatisfied(subs: Substitution, table: Table, running: set<int>, f: SingleFlow)
    requires f.dependencies != {} && !Satisfies(running, f.operators)
    ensures NoFlow(running, Children(subs, table, f))
  {
    var d := Least(f.dependencies);
    var flows, start := FlowsIn(table, d), Dropped(f);
    forall k | 0 <= k < |Children(subs, table, f)|
      ensures !Satisfies(running, Children(subs, table, f)[k].operators)
    {
      ChildAt(subs, d, flows, start, k);
      if k < |flows| {
        UnionSatisfied(running, start.operators, flows[k].operators);
      }
    }
  }

  lemma {:induction false} UnsatisfiedStays(subs: Substitution, table: Table, running: set<int>, flows: seq<SingleFlow>)
    requires NoFlow(running, flows)
    ensures Count(running, Resolved(subs, table, flows)) == 0
    decreases Depth(flows), |flows|
  {
    if flows != [] {
      var n := |flows| - 1;
      DepthParts(flows);
      assert NoFlow(running, flows[..n]);
      UnsatisfiedStays(subs, table, running, flows[..n]);
      UnsatisfiedOne(subs, table, running, flows[n]) by {
        if flows[n].dependencies != {} {
          ChildrenDepth(subs, table, flows[n]);
          ChildrenUnsatisfied(subs, table, running, flows[n]);
          UnsatisfiedStays(subs, table, running, Children(subs, table, flows[n]));
        }
      }
      CountLast(subs, table, running, flows);
    }
  }

  lemma NotThisOne(subs: Substitution, table: Table, running: set<int>, f: SingleFlow)
    requires !Satisfies(running, f.operators)
    ensures Count(running, FromOne(subs, table, f)) == 0
  {
    ResolvedOne(subs, table, f);
    UnsatisfiedStays(subs, table, running, [f]);
  }

  /** With only one of them satisfied, what comes of the flows is what comes of that one. */
  lemma {:induction false} OnlyOneCounts(subs: Substitution, table: Table, running: set<int>, flows: seq<SingleFlow>, k: nat)
    requires OnlyFlow(running, flows, k)
    ensures Count(running, Resolved(subs, table, flows)) == Count(running, FromOne(subs, table, flows[k]))
    decreases |flows|
  {
    var n := |flows| - 1;
    CountLast(subs, table, running, flows);
    if k < n {
      assert OnlyFlow(running, flows[..n], k);
      OnlyOneCounts(subs, table, running, flows[..n], k);
      NotThisOne(subs, table, running, flows[n]);
    } else {
      assert NoFlow(running, flows[..n]);
      UnsatisfiedStays(subs, table, running, flows[..n]);
    }
  }

  /** The children for the flows of the dependency. */
  ghost function Pushed(subs: Substitution, table: Table, f: SingleFlow): seq<SingleFlow>
    requires f.dependencies != {}
  {
    var flows := FlowsIn(table, Least(f.dependencies));
    var children := Children(subs, table, f);
    if |flows| <= |children| then children[..|flows|] else children
  }

  lemma ChildrenAre(subs: Substitution, table: Table, f: SingleFlow)
    requires f.dependencies != {}
    ensures
      var d := Least(f.dependencies);
      var flows, children, pushed := FlowsIn(table, d), Children(subs, table, f), Pushed(subs, table, f);
      && |pushed| == |flows|
      && (Apart(flows, f.operators) ==> |children| == |flows| + 1 && children == pushed + [children[|flows|]])
      && (!Apart(flows, f.operators) ==> children == pushed)
  {
    ChildCount(subs, Least(f.dependencies), FlowsIn(table, Least(f.dependencies)), Dropped(f));
  }

  /** Which of the pushed children is satisfied. */
  lemma PushedSatisfied(subs: Substitution, table: Table, running: set<int>, f: SingleFlow)
    requires f.dependencies != {} && Satisfies(running, f.operators)
    ensures
      var flows, pushed := FlowsIn(table, Least(f.dependencies)), Pushed(subs, table, f);
      && |pushed| == |flows|
      && forall k | 0 <= k < |flows| :: Satisfies(running, pushed[k].operators) <==> Satisfies(running, flows[k].operators)
  {
    var d := Least(f.dependencies);
    var flows, children, pushed := FlowsIn(table, d), Children(subs, table, f), Pushed(subs, table, f);
    ChildrenAre(subs, table, f);
    forall k | 0 <= k < |flows|
      ensures Satisfies(running, pushed[k].operators) <==> Satisfies(running, flows[k].operators)
    {
      assert pushed[k] == children[k];
      ChildSatisfied(subs, d, flows, Dropped(f), running, k);
    }
  }

  /** What comes of the children: of the one for the satisfied flow, and of the one left idle. */
  lemma ChildrenCount(subs: Substitution, table: Table, running: set<int>, f: SingleFlow)
    requires f.dependencies != {}
    ensures
      var flows, children := FlowsIn(table, Least(f.dependencies)), Children(subs, table, f);
      && |children| == |flows| + (if Apart(flows, f.operators) then 1 else 0)
      && Count(running, Resolved(subs, table, children)) ==
         Count(running, Resolved(subs, table, Pushed(subs, table, f)))
         + if Apart(flows, f.operators) then Count(running, FromOne(subs, table, children[|flows|])) else 0
  {
    var flows, children := FlowsIn(table, Least(f.dependencies)), Children(subs, table, f);
    ChildrenAre(subs, table, f);
    if Apart(flows, f.operators) {
      var pushed, idle := Pushed(subs, table, f), children[|flows|];
      ResolvedLast(subs, table, pushed, idle);
      CountConcat(running, FromOne(subs, table, idle), Resolved(subs, table, pushed));
    }
  }

  /** The child for the k-th flow, and the idle one. */
  lemma ChildIs(subs: Substitution, table: Table, f: SingleFlow, k: nat)
    requires f.dependencies != {} && k < |Children(subs, table, f)|
    ensures
      var d := Least(f.dependencies);
      var flows, child := FlowsIn(table, d), Children(subs, table, f)[k];
      && child.dependencies == f.dependencies - {d}
      && child.operators == if k < |flows| then f.operators + flows[k].operators else f.operators
  {
    ChildAt(subs, Least(f.dependencies), FlowsIn(table, Least(f.dependencies)), Dropped(f), k);
  }

  lemma IdleCounts(subs: Substitution, table: Table, running: set<int>, f: SingleFlow, left: nat)
    requires f.dependencies != {} && Satisfies(running, f.operators) && NoFlow(running, FlowsIn(table, Least(f.dependencies)))
    requires
      var flows, children := FlowsIn(table, Least(f.dependencies)), Children(subs, table, f);
      left == if Apart(flows, f.operators) && |flows| < |children| then Count(running, FromOne(subs, table, children[|flows|])) else 0
    ensures Count(running, FromOne(subs, table, f)) == left
  {
    ChildrenCount(subs, table, running, f);
    PushedSatisfied(subs, table, running, f);
    UnsatisfiedStays(subs, table, running, Pushed(subs, table, f));
  }

  lemma MovingCounts(subs: Substitution, table: Table, running: set<int>, f: SingleFlow, k: nat, left: nat)
    requires f.dependencies != {} && Satisfies(running, f.operators) && OnlyFlow(running, FlowsIn(table, Least(f.dependencies)), k)
    requires
      var flows, children := FlowsIn(table, Least(f.dependencies)), Children(subs, table, f);
      left == if Apart(flows, f.operators) && |flows| < |children| then Count(running, FromOne(subs, table, children[|flows|])) else 0
    ensures k < |Children(subs, table, f)|
    ensures Count(running, FromOne(subs, table, f)) == Count(running, FromOne(subs, table, Children(subs, table, f)[k])) + left
  {
    var pushed := Pushed(subs, table, f);
    ChildrenCount(subs, table, running, f);
    PushedSatisfied(subs, table, running, f);
    assert OnlyFlow(running, pushed, k);
    OnlyOneCounts(subs, table, running, pushed, k);
    assert pushed[k] == Children(subs, table, f)[k];
  }

  /** The number of satisfied flows that come of a satisfied flow, exactly. */
  lemma {:induction false} CountIsWays(subs: Substitution, table: Table, running: set<int>, f: SingleFlow)
    requires Satisfies(running, f.operators) && forall d | d in f.dependencies :: Settled(running, table, d)
    ensures Count(running, FromOne(subs, table, f)) == Ways(table, running, f.operators, f.dependencies)
    decreases |f.dependencies|
  {
    if f.dependencies == {} {
      assert [f][..0] == [];
    } else {
      var d := Least(f.dependencies);
      var flows, children := FlowsIn(table, d), Children(subs, table, f);
      ChildrenAre(subs, table, f);
      var left: nat := if Apart(flows, f.operators) then Ways(table, running, f.operators, f.dependencies - {d}) else 0;
      if Apart(flows, f.operators) {
        ChildIs(subs, table, f, |flows|);
        CountIsWays(subs, table, running, children[|flows|]);
      }
      if Moving(running, table, d) {
        var k: nat :| OnlyFlow(running, flows, k);
        TheFlowIs(running, table, d, k);
        MovingCounts(subs, table, running, f, k, left);
        ChildIs(subs, table, f, k);
        UnionSatisfied(running, f.operators, flows[k].operators);
        CountIsWays(subs, table, running, children[k]);
      } else {
        IdleCounts(subs, table, running, f, left);
      }
    }
  }

  // ----- Exactly one -----

  /** No dependency that does not move shares an operator with what is asked for before it. */
  ghost predicate Passable(table: Table, running: set<int>, ops: set<int>, deps: set<int>)
    decreases |deps|
  {
    if deps == {} then true
    else
      var d := Least(deps);
      if Moving(running, table, d)
      then Passable(table, running, ops + TheFlow(running, table, d).operators, deps - {d})
      else
        NoFlow(running, FlowsIn(table, d)) && Apart(FlowsIn(table, d), ops) && Passable(table, running, ops, deps - {d})
  }

  /** Every dependency that moves shares an operator with what is asked for before it. */
  ghost predicate Linked(table: Table, running: set<int>, ops: set<int>, deps: set<int>)
    decreases |deps|
  {
    if deps == {} then true
    else
      var d := Least(deps);
      if Moving(running, table, d)
      then !Apart(FlowsIn(table, d), ops) && Linked(table, running, ops + TheFlow(running, table, d).operators, deps - {d})
      else Linked(table, running, ops, deps - {d})
  }

  lemma ApartLess(flows: seq<SingleFlow>, less: set<int>, ops: set<int>)
    requires Apart(flows, ops) && less <= ops
    ensures Apart(flows, less)
  {
    forall k | 0 <= k < |flows|
      ensures flows[k].operators != {} && flows[k].operators * less == {}
    {
      assert flows[k].operators * less <= flows[k].operators * ops;
    }
  }

  lemma {:induction false} PassableLess(table: Table, running: set<int>, less: set<int>, ops: set<int>, deps: set<int>)
    requires Passable(table, running, ops, deps) && less <= ops
    ensures Passable(table, running, less, deps)
    decreases |deps|
  {
    if deps != {} {
      var d := Least(deps);
      if Moving(running, table, d) {
        var more := TheFlow(running, table, d).operators;
        PassableLess(table, running, less + more, ops + more, deps - {d});
      } else {
        ApartLess(FlowsIn(table, d), less, ops);
        PassableLess(table, running, less, ops, deps - {d});
      }
    }
  }

  lemma {:induction false} WaysOnce(table: Table, running: set<int>, ops: set<int>, deps: set<int>)
    requires Passable(table, running, ops, deps)
    ensures Ways(table, running, ops, deps) > 0
    ensures Ways(table, running, ops, deps) == 1 <==> Linked(table, running, ops, deps)
    decreases |deps|
  {
    if deps != {} {
      var d := Least(deps);
      if Moving(running, table, d) {
        var more := ops + TheFlow(running, table, d).operators;
        WaysOnce(table, running, more, deps - {d});
        if Apart(FlowsIn(table, d), ops) {
          PassableLess(table, running, ops, more, deps - {d});
          WaysOnce(table, running, ops, deps - {d});
        }
      } else {
        WaysOnce(table, running, ops, deps - {d});
      }
    }
  }

  lemma {:induction false} PassableSettled(table: Table, running: set<int>, ops: set<int>, deps: set<int>)
    requires Passable(table, running, ops, deps)
    ensures forall d | d in deps :: Settled(running, table, d)
    decreases |deps|
  {
    if deps != {} {
      var least := Least(deps);
      PassableSettled(table, running,
                      if Moving(running, table, least) then ops + TheFlow(running, table, least).operators else ops, deps - {least});
      forall d | d in deps
        ensures Settled(running, table, d)
      {
        assert d == least || d in deps - {least};
      }
    }
  }

  /** Exactly one flow of the function before, exactly one after: if and only if every dependency
      that moves shares an operator with what is asked for before it. */
  lemma ResolvedOnce(subs: Substitution, table: Table, running: set<int>, first: seq<SingleFlow>, k: nat)
    requires OnlyFlow(running, first, k) && Passable(table, running, first[k].operators, first[k].dependencies)
    ensures SomeOnly(running, Resolved(subs, table, first)) <==>
            Linked(table, running, first[k].operators, first[k].dependencies)
  {
    OnlyOneCounts(subs, table, running, first, k);
    PassableSettled(table, running, first[k].operators, first[k].dependencies);
    CountIsWays(subs, table, running, first[k]);
    WaysOnce(table, running, first[k].operators, first[k].dependencies);
    CountOne(running, Resolved(subs, table, first));
  }

  // ----- What it says -----

  /** The polynomial with every dependency replaced by what it is while these operators run. */
  ghost function Target(subs: Substitution, table: Table, running: set<int>, poly: Poly, deps: set<int>): Poly
    decreases |deps|
  {
    if deps == {} then poly
    else
      var d := Least(deps);
      Target(subs, table, running,
             if Moving(running, table, d) then subs(poly, d, TheFlow(running, table, d).polynomial) else poly, deps - {d})
  }

  /** A satisfied flow that leads to this polynomial. */
  ghost predicate Leads(subs: Substitution, table: Table, running: set<int>, f: SingleFlow, target: Poly) {
    && Satisfies(running, f.operators) && Passable(table, running, f.operators, f.dependencies)
    && Target(subs, table, running, f.polynomial, f.dependencies) == target
  }

  ghost predicate SomeLeads(subs: Substitution, table: Table, running: set<int>, flows: seq<SingleFlow>, target: Poly) {
    exists f :: f in flows && Leads(subs, table, running, f, target)
  }

  lemma MovingChild(subs: Substitution, table: Table, running: set<int>, f: SingleFlow, k: nat)
    requires f.dependencies != {} && Satisfies(running, f.operators) && OnlyFlow(running, FlowsIn(table, Least(f.dependencies)), k)
    ensures
      var d := Least(f.dependencies);
      var flows, children := FlowsIn(table, d), Children(subs, table, f);
      && k < |children| && Satisfies(running, children[k].operators)
      && children[k].operators == f.operators + flows[k].operators && children[k].dependencies == f.dependencies - {d}
      && children[k].polynomial == subs(f.polynomial, d, flows[k].polynomial)
  {
    var d := Least(f.dependencies);
    var flows, start := FlowsIn(table, d), Dropped(f);
    InnerShape(subs, d, flows, start);
    ChildIs(subs, table, f, k);
    UnionSatisfied(running, f.operators, flows[k].operators);
    PushedFor(subs, d, flows, start, running, k);
  }

  lemma IdleChild(subs: Substitution, table: Table, running: set<int>, f: SingleFlow)
    requires f.dependencies != {} && Satisfies(running, f.operators)
    requires NoFlow(running, FlowsIn(table, Least(f.dependencies))) && Apart(FlowsIn(table, Least(f.dependencies)), f.operators)
    ensures Dropped(f) in Children(subs, table, f)
  {
    var d := Least(f.dependencies);
    InnerShape(subs, d, FlowsIn(table, d), Dropped(f));
    InnerUnchanged(subs, d, FlowsIn(table, d), Dropped(f), running);
  }

  lemma ChildLeads(subs: Substitution, table: Table, running: set<int>, f: SingleFlow, target: Poly)
    requires f.dependencies != {} && Leads(subs, table, running, f, target)
    ensures SomeLeads(subs, table, running, Children(subs, table, f), target)
  {
    var d := Least(f.dependencies);
    if Moving(running, table, d) {
      var k: nat :| OnlyFlow(running, FlowsIn(table, d), k);
      TheFlowIs(running, table, d, k);
      MovingChild(subs, table, running, f, k);
      var child := Children(subs, table, f)[k];
      assert child in Children(subs, table, f) && Leads(subs, table, running, child, target);
    } else {
      IdleChild(subs, table, running, f);
      assert Leads(subs, table, running, Dropped(f), target);
    }
  }

  lemma LeadsWithin(subs: Substitution, table: Table, running: set<int>, some: seq<SingleFlow>, all: seq<SingleFlow>, target: Poly)
    requires SomeLeads(subs, table, running, some, target) && forall f | f in some :: f in all
    ensures SomeLeads(subs, table, running, all, target)
  {
  }

  /** Whatever some flow leads to, some resolved flow is. */
  lemma {:induction false} ResolvedLeads(subs: Substitution, table: Table, running: set<int>, flows: seq<SingleFlow>, target: Poly)
    requires SomeLeads(subs, table, running, flows, target)
    ensures SomeLeads(subs, table, running, Resolved(subs, table, flows), target)
    decreases Depth(flows), |flows|
  {
    var f :| f in flows && Leads(subs, table, running, f, target);
    var n := |flows| - 1;
    DepthParts(flows);
    if f != flows[n] {
      assert f in flows[..n];
      ResolvedLeads(subs, table, running, flows[..n], target);
      LeadsWithin(subs, table, running, Resolved(subs, table, flows[..n]), Resolved(subs, table, flows), target);
    } else {
      if f.dependencies == {} {
        assert f in FromOne(subs, table, f);
      } else {
        ChildrenDepth(subs, table, f);
        ChildLeads(subs, table, running, f, target);
        ResolvedLeads(subs, table, running, Children(subs, table, f), target);
      }
      LeadsWithin(subs, table, running, FromOne(subs, table, f), Resolved(subs, table, flows), target);
    }
  }

  /** A satisfied flow has a satisfied resolved flow with the polynomial it leads to. */
  lemma ResolvedCovers(subs: Substitution, table: Table, running: set<int>, first: seq<SingleFlow>, f: SingleFlow)
    requires f in first && Satisfies(running, f.operators) && Passable(table, running, f.operators, f.dependencies)
    ensures exists k: nat :: k < |Resolved(subs, table, first)|
              && Satisfies(running, Resolved(subs, table, first)[k].operators)
              && Resolved(subs, table, first)[k].polynomial == Target(subs, table, running, f.polynomial, f.dependencies)
  {
    var target := Target(subs, table, running, f.polynomial, f.dependencies);
    var all := Resolved(subs, table, first);
    assert Leads(subs, table, running, f, target);
    ResolvedLeads(subs, table, running, first, target);
    var g :| g in all && Leads(subs, table, running, g, target);
    ResolvedFree(subs, table, first);
    var k: nat :| k < |all| && all[k] == g;
    assert Target(subs, table, running, g.polynomial, {}) == g.polynomial;
  }

  // ----- Two at once, and none -----

  function Bare(operators: set<int>, dependencies: set<int>): SingleFlow {
    SingleFlow(operators, dependencies, [], Zero)
  }

  /** The function moves with operator 1, what it depends on with operator 2. While both run, two
      of its flows are satisfied. */
  lemma TwoAtOnce(subs: Substitution)
    ensures
      var table := map[7 := [Bare({2}, {})]];
      var resolved := Resolved(subs, table, [Bare({1}, {7})]);
      Count({1, 2}, resolved) == 2 && !SomeOnly({1, 2}, resolved)
  {
    var table, f, running := map[7 := [Bare({2}, {})]], Bare({1}, {7}), {1, 2};
    TwoWaysOf(table, running);
    CountIsWays(subs, table, running, f);
    ResolvedOne(subs, table, f);
    CountOne(running, Resolved(subs, table, [f]));
  }

  lemma TwoWaysOf(table: Table, running: set<int>)
    requires FlowsIn(table, 7) == [Bare({2}, {})] && running == {1, 2}
    ensures Settled(running, table, 7) && Ways(table, running, {1}, {7}) == 2
  {
    assert Least({7}) == 7 && {7} - {7} == {};
    assert OnlyFlow(running, FlowsIn(table, 7), 0);
    TheFlowIs(running, table, 7, 0);
    assert Ways(table, running, {1}, {}) == 1 && Ways(table, running, {1} + {2}, {}) == 1;
  }

  /** Both move with operator 1 in part, the dependency also with operator 3. While 2 runs alone,
      the dependency does not move, and no flow of the function is satisfied. */
  lemma NoneAtAll(subs: Substitution)
    ensures
      var table := map[7 := [Bare({1, -3}, {}), Bare({-1, 3}, {}), Bare({1, 3}, {})]];
      var f := Bare({-1, 2}, {7});
      Satisfies({2}, f.operators) && NoFlow({2}, FlowsIn(table, 7)) && NoFlow({2}, Resolved(subs, table, [f]))
  {
    var table := map[7 := [Bare({1, -3}, {}), Bare({-1, 3}, {}), Bare({1, 3}, {})]];
    var f, running := Bare({-1, 2}, {7}), {2};
    assert Least({7}) == 7;
    var flows := FlowsIn(table, 7);
    assert 1 in flows[0].operators && 3 in flows[1].operators && 1 in flows[2].operators;
    assert NoFlow(running, flows);
    assert -1 in flows[1].operators * f.operators;
    CountIsWays(subs, table, running, f);
    ResolvedOne(subs, table, f);
    CountNone(running, Resolved(subs, table, [f]));
  }
}
