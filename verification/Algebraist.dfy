/** The flows of the functions as objects: filled effect by effect, freed of their dependencies
    by a work list, integrated, and all of that in an order the dependencies allow. */
module Algebraist {
  import opened Algebra
  import opened FlowPartition
  import opened Resolution

  /** The functions a function depends on. */
  ghost function DependenciesOf(flows: seq<SingleFlow>): set<int> {
    set k, d | 0 <= k < |flows| && d in flows[k].dependencies :: d
  }

  ghost predicate AtMost(table: Table, keys: set<int>, K: nat) {
    forall d | d in keys && d in table :: |table[d]| <= K
  }

  lemma {:induction false} Longest(table: Table, keys: set<int>) returns (K: nat)
    ensures AtMost(table, keys, K)
    decreases |keys|
  {
    K := 0;
    if keys != {} {
      var d := Member(keys);
      K := Longest(table, keys - {d});
      if d in table && |table[d]| > K {
        K := |table[d]|;
      }
      forall e | e in keys && e in table
        ensures |table[e]| <= K
      {
        assert e == d || e in keys - {d};
      }
    }
  }

  ghost function LongestOf(table: Table): (K: nat)
    ensures forall d | d in table :: |table[d]| <= K
  {
    assert exists K: nat :: AtMost(table, table.Keys, K) by {
      var K := Longest(table, table.Keys);
    }
    var K: nat :| AtMost(table, table.Keys, K);
    K
  }

  lemma DependenciesIn(flows: seq<SingleFlow>)
    ensures forall f | f in flows :: f.dependencies <= DependenciesOf(flows)
    ensures forall e | e in DependenciesOf(flows) :: exists f :: f in flows && e in f.dependencies
  {
    forall f | f in flows
      ensures f.dependencies <= DependenciesOf(flows)
    {
      var k :| 0 <= k < |flows| && flows[k] == f;
      forall d | d in f.dependencies
        ensures d in DependenciesOf(flows)
      {
        assert d in flows[k].dependencies;
      }
    }
    forall e | e in DependenciesOf(flows)
      ensures exists f :: f in flows && e in f.dependencies
    {
      var k :| 0 <= k < |flows| && e in flows[k].dependencies;
      assert flows[k] in flows;
    }
  }

  lemma LeastUnique(s: set<int>)
    requires s != {}
    ensures exists d :: d in s && forall x | x in s :: d <= x
    ensures forall d | d in s && forall x | x in s :: d <= x :: d == Least(s)
  {
    var d := LeastOf(s);
  }

  /** The loop over the flows of the dependency. A flow whose conditions hold anyway changes the
      current flow itself; any other adds its conditions to a copy, compatible or not. The buffer
      for a difference of operators has ten places. */
  method Substitute(depID: int, depFlows: seq<SingleFlow>, start: SingleFlow, subs: Substitution)
    returns (overflow: bool, pushed: seq<SingleFlow>)
    ensures overflow <==> exists f :: f in depFlows && |f.operators - start.operators| > 10
    ensures !overflow ==> pushed == ChildrenOf(subs, depID, depFlows, start)
  {
    var currentFlow, distinct := start, true;
    overflow, pushed := false, [];
    for k := 0 to |depFlows|
      invariant InnerLoop(subs, depID, depFlows[..k], start) == Inner(currentFlow, pushed, distinct)
      invariant currentFlow.operators == start.operators && forall j | 0 <= j < k :: |depFlows[j].operators - start.operators| <= 10
    {
      var fit := depFlows[k];
      InnerTurn(subs, depID, depFlows, start, k);
      var v := fit.operators - currentFlow.operators;
      if |v| > 10 {
        assert fit in depFlows;
        return true, [];
      }
      if v == {} {
        currentFlow := currentFlow.(polynomial := subs(currentFlow.polynomial, depID, fit.polynomial));
        pushed := pushed + [currentFlow];
        distinct := false;
      } else {
        var newFlow := SingleFlow(currentFlow.operators + v, currentFlow.dependencies, [],
                                  subs(currentFlow.polynomial, depID, fit.polynomial));
        pushed := pushed + [newFlow];
        if |v| != |fit.operators| {
          distinct := false;
        }
      }
    }
    assert depFlows[..|depFlows|] == depFlows;
    if distinct {
      pushed := pushed + [currentFlow];
    }
  }

  lemma FewerInDifference(a: set<int>, b: set<int>)
    ensures |a - b| <= |a|
  {
    assert a == (a - b) + (a * b);
  }

  lemma ReplacedTurn(subs: Substitution, table: Table, first: seq<SingleFlow>, done: seq<SingleFlow>, todo: seq<SingleFlow>,
                     rest: seq<SingleFlow>, current: SingleFlow, after: seq<SingleFlow>, B: set<int>, D: set<int>, K: nat)
    requires Working(subs, table, first, done, todo, B, D) && todo == rest + [current] && current.dependencies != {}
    requires after == rest + Children(subs, table, current) && WithinOps(Children(subs, table, current), B)
    requires |Children(subs, table, current)| <= K + 1
    ensures Working(subs, table, first, done, after, B, D) && Weight(after, K) < Weight(todo, K)
  {
    WorkingReplaced(subs, table, first, done, todo, rest, current, after, B, D);
    Lighter(rest, current, Children(subs, table, current), K);
  }

  class FunctionFlow {
    const id: int
    var flows: seq<SingleFlow>
    var integrated: bool

    constructor (id: int)
      ensures this.id == id && flows == [] && !integrated
    {
      this.id, flows, integrated := id, [], false;
    }

    /** One more continuous effect, alone and combined with every flow there is. */
    method AddExpression(opID: int, deps: set<int>, expr: Poly)
      modifies `flows
      ensures flows == Extended(old(flows), Effect(opID, deps, expr))
    {
      var e := Effect(opID, deps, expr);
      var newOpKey: set<int> := {};
      var newFlows: seq<SingleFlow> := [];
      var n := |flows|;
      for k := 0 to n
        invariant |flows| == n && newFlows == AllWith(old(flows)[..k], e)
        invariant newOpKey == NobodyRuns(old(flows)[..k])
        invariant forall j | 0 <= j < n :: flows[j] == if j < k then Without(old(flows)[j], e) else old(flows)[j]
      {
        var fit := flows[k];
        newFlows := newFlows + [With(fit, e)];
        newOpKey := newOpKey + Negatives(fit.operators);
        flows := flows[k := Without(fit, e)];
        assert old(flows)[..k + 1] == old(flows)[..k] + [fit];
      }
      assert old(flows)[..n] == old(flows);
      assert flows == AllWithout(old(flows), e);
      flows := flows + newFlows;
      flows := flows + [SingleFlow(newOpKey + {opID}, deps, [], expr)];
    }

    /** The flows of all functions now. */
    static ghost function TableOf(allFlows: map<int, FunctionFlow>): Table
      reads allFlows.Values
    {
      map d | d in allFlows :: allFlows[d].flows
    }

    ghost predicate DependsOnOthers(allFlows: map<int, FunctionFlow>)
      reads this
    {
      forall d | d in DependenciesOf(flows) :: d in allFlows && allFlows[d] != this
    }

    /** The flows of the dependencies, read from other objects, are those of the table. */
    ghost predicate Reads(allFlows: map<int, FunctionFlow>, table: Table, B: set<int>, D: set<int>, K: nat)
      reads allFlows.Values
    {
      var read :=
        && (forall d | d in D :: d in allFlows && allFlows[d] != this && d in table && allFlows[d].flows == table[d])
        && (forall d | d in D && d in table :: WithinOps(table[d], B) && |table[d]| <= K);
      read
    }

    /** Replace every dependency by each flow it may have. The difference of the operators goes
        into a buffer of ten; more of them is reported here instead of written past its end. That
        needs a flow of a dependency with more than ten operators. B bounds what may occur. */
    method CreateChildren(allFlows: map<int, FunctionFlow>, subs: Substitution, ghost B: set<int>) returns (overflow: bool)
      requires DependsOnOthers(allFlows) && WithinOps(flows, B)
      requires forall d | d in DependenciesOf(flows) :: WithinOps(allFlows[d].flows, B)
      modifies `flows
      ensures !overflow ==> flows == Resolved(subs, old(TableOf(allFlows)), old(flows)) && WithinOps(flows, B)
      ensures overflow ==> exists d: int, f: SingleFlow ::
                d in old(DependenciesOf(flows)) && d in allFlows && f in old(TableOf(allFlows))[d] && |f.operators| > 10
    {
      ghost var table, first, D := TableOf(allFlows), flows, DependenciesOf(flows);
      ghost var K := LongestOf(table);
      var resolvedFlows: seq<SingleFlow> := [];
      DependenciesIn(flows);
      assert [] + Resolved(subs, table, first) == Resolved(subs, table, first);
      while |flows| > 0
        invariant Reads(allFlows, table, B, D, K) && Working(subs, table, first, resolvedFlows, flows, B, D)
        decreases Weight(flows, K)
      {
        overflow, resolvedFlows := TakeLast(allFlows, resolvedFlows, table, subs, first, B, D, K);
        if overflow {
          return;
        }
      }
      assert resolvedFlows + Resolved(subs, table, flows) == resolvedFlows;
      flows := resolvedFlows;
      overflow := false;
    }

    /** One turn of the work list: the last flow is done, or replaced by those for its first dependency. */
    method TakeLast(allFlows: map<int, FunctionFlow>, resolvedFlows: seq<SingleFlow>, ghost table: Table, subs: Substitution,
                    ghost first: seq<SingleFlow>, ghost B: set<int>, ghost D: set<int>, ghost K: nat)
      returns (overflow: bool, resolvedFlows': seq<SingleFlow>)
      requires flows != [] && Reads(allFlows, table, B, D, K) && Working(subs, table, first, resolvedFlows, flows, B, D)
      modifies `flows
      ensures overflow ==> exists d: int, f: SingleFlow :: d in D && f in FlowsIn(table, d) && |f.operators| > 10
      ensures !overflow ==> Working(subs, table, first, resolvedFlows', flows, B, D) && Weight(flows, K) < Weight(old(flows), K)
    {
      ghost var pending := flows;
      var currentFlow := flows[|flows| - 1];
      flows := flows[..|flows| - 1];
      ghost var rest := flows;
      overflow, resolvedFlows' := false, resolvedFlows;
      assert pending == rest + [currentFlow];
      assert currentFlow in pending;
      if currentFlow.dependencies == {} {
        resolvedFlows' := resolvedFlows + [currentFlow];
        WorkingMoved(subs, table, first, resolvedFlows, pending, rest, currentFlow, B, D);
        LighterDropped(rest, currentFlow, K);
      } else {
        overflow := ReplaceLeast(allFlows, currentFlow, table, subs, first, resolvedFlows, pending, B, D, K);
      }
    }

    /** The current flow, taken from the list, is replaced by those for its first dependency. */
    method ReplaceLeast(allFlows: map<int, FunctionFlow>, currentFlow: SingleFlow, ghost table: Table, subs: Substitution,
                        ghost first: seq<SingleFlow>, ghost done: seq<SingleFlow>, ghost pending: seq<SingleFlow>,
                        ghost B: set<int>, ghost D: set<int>, ghost K: nat) returns (overflow: bool)
      requires currentFlow.dependencies != {} && currentFlow.dependencies <= D && currentFlow.operators <= B
      requires Reads(allFlows, table, B, D, K)
      requires Working(subs, table, first, done, pending, B, D) && pending == flows + [currentFlow]
      modifies `flows
      ensures overflow ==> exists d: int, f: SingleFlow :: d in D && f in FlowsIn(table, d) && |f.operators| > 10
      ensures !overflow ==> Working(subs, table, first, done, flows, B, D) && Weight(flows, K) < Weight(pending, K)
    {
      ghost var rest := flows;
      LeastUnique(currentFlow.dependencies);
      var depID :| depID in currentFlow.dependencies && forall x | x in currentFlow.dependencies :: depID <= x;
      var dep := allFlows[depID];
      assert depID == Least(currentFlow.dependencies) && FlowsIn(table, depID) == table[depID];
      overflow := PushChildren(depID, dep, currentFlow, table, subs, B);
      if !overflow {
        ReplacedTurn(subs, table, first, done, pending, rest, currentFlow, flows, B, D, K);
      }
    }

    /** The flows for one dependency of the current flow, pushed on the work list. */
    method PushChildren(depID: int, dep: FunctionFlow, current0: SingleFlow, ghost table: Table, subs: Substitution, ghost B: set<int>)
      returns (overflow: bool)
      requires current0.dependencies != {} && depID == Least(current0.dependencies)
      requires depID in table && dep != this && dep.flows == table[depID]
      requires current0.operators <= B && WithinOps(table[depID], B)
      modifies `flows
      ensures overflow <==> exists f :: f in table[depID] && |f.operators - current0.operators| > 10
      ensures overflow ==> exists f :: f in table[depID] && |f.operators| > 10
      ensures !overflow ==> flows == old(flows) + Children(subs, table, current0)
      ensures !overflow ==> |Children(subs, table, current0)| <= |table[depID]| + 1 && WithinOps(Children(subs, table, current0), B)
    {
      var currentFlow := current0.(dependencies := current0.dependencies - {depID});
      overflow := false;
      ChildrenShape(subs, depID, table[depID], currentFlow);
      ChildrenWithin(subs, depID, table[depID], currentFlow, B);
      if |dep.flows| == 0 {
        flows := flows + [currentFlow];
        return;
      }
      var pushed;
      overflow, pushed := Substitute(depID, dep.flows, currentFlow, subs);
      if overflow {
        var f :| f in dep.flows && |f.operators - currentFlow.operators| > 10;
        FewerInDifference(f.operators, currentFlow.operators);
        assert |f.operators - current0.operators| > 10;
        return;
      }
      assert forall f | f in dep.flows :: |f.operators - current0.operators| <= 10 by {
        assert forall f | f in dep.flows :: f.operators - current0.operators == f.operators - currentFlow.operators;
      }
      flows := flows + pushed;
    }

    /** Derivatives first, then the integral, started at the function's own symbol. */
    method Integrate()
      modifies this
      ensures integrated && |flows| == |old(flows)|
      ensures forall k | 0 <= k < |flows| :: IsIntegrated(id, old(flows)[k], flows[k])
    {
      var n := |flows|;
      for k := 0 to n
        invariant |flows| == n && forall j | k <= j < n :: flows[j] == old(flows)[j]
        invariant forall j | 0 <= j < k :: IsIntegrated(id, old(flows)[j], flows[j])
      {
        var fit := flows[k];
        var list := Derivatives(fit.polynomial);
        var done := fit.(derivatives := fit.derivatives + list, polynomial := Flowing(fit.polynomial, id));
        assert done.derivatives[|fit.derivatives|..] == list;
        flows := flows[k := done];
      }
      integrated := true;
    }

    method DependenciesResolved(allFlows: map<int, FunctionFlow>) returns (resolved: bool)
      requires forall f | f in flows :: f.dependencies <= allFlows.Keys
      ensures resolved <==> forall f | f in flows :: forall d | d in f.dependencies :: allFlows[d].integrated
    {
      for k := 0 to |flows|
        invariant forall f | f in flows[..k] :: forall d | d in f.dependencies :: allFlows[d].integrated
      {
        assert flows[k] in flows;
        assert flows[..k + 1] == flows[..k] + [flows[k]];
        if exists d | d in flows[k].dependencies :: !allFlows[d].integrated {
          return false;
        }
      }
      assert flows[..|flows|] == flows;
      resolved := true;
    }
  }

  // ----- The order of the functions -----

  ghost predicate Below(first: Table, rank: int -> nat, d: int)
    requires d in first
  {
    forall e | e in DependenciesOf(first[d]) :: e in first && rank(e) < rank(d)
  }

  /** Every function not integrated at the outset depends on functions of smaller rank: no cycles. */
  ghost predicate Acyclic(first: Table, before: set<int>, rank: int -> nat) {
    forall d {:trigger Below(first, rank, d)} | d in first && d !in before :: Below(first, rank, d)
  }

  ghost predicate IsLowest(ids: set<int>, rank: int -> nat, d: int) {
    d in ids && forall x | x in ids :: rank(d) <= rank(x)
  }

  lemma {:induction false} LowestRank(ids: set<int>, rank: int -> nat) returns (d: int)
    requires ids != {}
    ensures IsLowest(ids, rank, d)
    decreases |ids|
  {
    var first := Member(ids);
    var rest := ids - {first};
    d := first;
    if rest != {} {
      var e := LowestRank(rest, rank);
      if rank(e) < rank(d) {
        d := e;
      }
    }
    forall x | x in ids
      ensures rank(d) <= rank(x)
    {
      assert x == first || x in rest;
    }
  }

  /** A function of lowest rank among those left waits for nothing. */
  lemma LowestIsReady(first: Table, before: set<int>, done: set<int>, rank: int -> nat, d: int)
    requires Acyclic(first, before, rank) && before <= done && IsLowest(first.Keys - done, rank, d)
    ensures DependenciesOf(first[d]) <= done
  {
    assert Below(first, rank, d);
    forall e | e in DependenciesOf(first[d])
      ensures e in done
    {
      assert e in first && rank(e) < rank(d);
      assert e !in first.Keys - done;
    }
  }

  /** Something is open, and this function depends on nothing that is. */
  ghost predicate ReadyFirst(first: Table, start: set<int>, lowest: int) {
    first.Keys - start != {} ==> lowest in first.Keys - start && DependenciesOf(first[lowest]) <= start
  }

  /** The function that will be ready in the next pass, if any is open. */
  lemma LowestOpen(first: Table, before: set<int>, done: set<int>, rank: int -> nat) returns (d: int)
    requires Acyclic(first, before, rank) && before <= done
    ensures ReadyFirst(first, done, d)
  {
    d := 0;
    if first.Keys - done != {} {
      d := LowestRank(first.Keys - done, rank);
      LowestIsReady(first, before, done, rank, d);
    }
  }

  /** In a pass over a list, after some of it: the lowest function is done once it is among them, and
      they all are done unless something was not complete. */
  ghost predicate InPass(seen: seq<int>, start: set<int>, now: set<int>, lowest: int, allComplete: bool, all: set<int>) {
    var grown := start <= now;
    && grown && (!allComplete ==> all - start != {})
    && (allComplete ==> forall d | d in seen :: d in now)
    && (all - start != {} && lowest in seen ==> lowest in now)
  }

  lemma InPassNext(seen: seq<int>, start: set<int>, now: set<int>, lowest: int, allComplete: bool, first: Table, d: int,
                   complete: bool, now': set<int>)
    requires InPass(seen, start, now, lowest, allComplete, first.Keys) && d in first
    requires ReadyFirst(first, start, lowest)
    requires now' == now + if complete then {d} else {}
    requires !complete ==> d !in now && !(DependenciesOf(first[d]) <= now)
    ensures InPass(seen + [d], start, now', lowest, allComplete && complete, first.Keys)
  {
    if !complete {
      assert d in first.Keys - start;
    }
  }

  lemma FewerLeft(all: set<int>, done: set<int>, more: set<int>, d: int)
    requires done <= more && d in all && d !in done && d in more
    ensures |all - more| < |all - done|
  {
    assert all - done == (all - more) + ((all - done) - (all - more));
    assert d in (all - done) - (all - more);
  }

  lemma PassEnds(order: seq<int>, start: set<int>, now: set<int>, lowest: int, allComplete: bool, all: set<int>)
    requires InPass(order, start, now, lowest, allComplete, all) && forall d :: d in order <==> d in all
    requires all - start != {} ==> lowest in all - start
    ensures allComplete ==> all <= now
    ensures !allComplete ==> |all - now| < |all - start|
  {
    forall d | allComplete && d in all
      ensures d in now
    {
      assert d in order;
    }
    if !allComplete {
      FewerLeft(all, start, now, lowest);
    }
  }

  // ----- Few enough operators -----

  /** The bound on the operators of the function covers those of what it depends on. */
  ghost predicate Above(first: Table, U: map<int, set<int>>, d: int)
    requires d in first
  {
    d in U && forall e | e in DependenciesOf(first[d]) :: e in U && U[e] <= U[d]
  }

  ghost predicate UpClosed(first: Table, before: set<int>, U: map<int, set<int>>) {
    forall d {:trigger Above(first, U, d)} | d in first && d !in before :: Above(first, U, d)
  }

  ghost predicate TableWithin(table: Table, U: map<int, set<int>>) {
    table.Keys == U.Keys && forall d | d in table :: WithinOps(table[d], U[d])
  }

  ghost predicate Small(U: map<int, set<int>>) {
    forall d | d in U :: |U[d]| <= 10
  }

  /** No function uses more than ten operators, signs counted, together with the functions it
      depends on, directly or not. */
  ghost predicate FewOperators(table: Table, before: set<int>) {
    exists U :: TableWithin(table, U) && UpClosed(table, before, U) && Small(U)
  }

  /** All operators of all flows. */
  ghost function AllOperators(table: Table): set<int> {
    set d, k, o | d in table && 0 <= k < |table[d]| && o in table[d][k].operators :: o
  }

  lemma AllWithin(table: Table, before: set<int>, rank: int -> nat) returns (U: map<int, set<int>>)
    requires Acyclic(table, before, rank)
    ensures TableWithin(table, U) && UpClosed(table, before, U) && forall d | d in U :: U[d] == AllOperators(table)
  {
    U := map d | d in table :: AllOperators(table);
    forall d | d in table && d !in before
      ensures Above(table, U, d)
    {
      assert Below(table, rank, d);
    }
    forall d, f | d in table && f in table[d]
      ensures f.operators <= AllOperators(table)
    {
      var k :| 0 <= k < |table[d]| && table[d][k] == f;
      forall o | o in f.operators
        ensures o in AllOperators(table)
      {
        assert o in table[d][k].operators;
      }
    }
  }

  /** Ten signed operators in all are few enough. */
  lemma FewInAll(table: Table, before: set<int>, rank: int -> nat)
    requires Acyclic(table, before, rank) && |AllOperators(table)| <= 10
    ensures FewOperators(table, before)
  {
    var U := AllWithin(table, before, rank);
    assert Small(U);
  }

  /** Bounds to work with: small ones if there are any. */
  lemma Bounds(table: Table, before: set<int>, rank: int -> nat) returns (U: map<int, set<int>>)
    requires Acyclic(table, before, rank)
    ensures TableWithin(table, U) && UpClosed(table, before, U)
    ensures FewOperators(table, before) ==> Small(U)
    ensures |AllOperators(table)| <= 10 ==> Small(U)
  {
    if |AllOperators(table)| <= 10 {
      FewInAll(table, before, rank);
    }
    if FewOperators(table, before) {
      U :| TableWithin(table, U) && UpClosed(table, before, U) && Small(U);
    } else {
      U := AllWithin(table, before, rank);
    }
  }

  lemma SubsetSize(a: set<int>, b: set<int>)
    requires a <= b
    ensures |a| <= |b|
  {
    assert b == a + (b - a);
  }

  lemma NotSmall(U: map<int, set<int>>, d: int, f: SingleFlow)
    requires d in U && f.operators <= U[d] && |f.operators| > 10
    ensures !Small(U)
  {
    SubsetSize(f.operators, U[d]);
  }

  /** What a function depends on keeps within its bounds. */
  lemma DependenciesWithin(first: Table, before: set<int>, U: map<int, set<int>>, table: Table, d: int)
    requires UpClosed(first, before, U) && TableWithin(table, U) && d in first && d !in before
    ensures d in U && forall e | e in DependenciesOf(first[d]) :: e in table && WithinOps(table[e], U[d])
  {
    assert Above(first, U, d);
    forall e | e in DependenciesOf(first[d])
      ensures e in table && WithinOps(table[e], U[d])
    {
      WithinMore(table[e], U[e], U[d]);
    }
  }

  lemma OverflowMeans(first: Table, before: set<int>, U: map<int, set<int>>, table: Table, d: int)
    requires UpClosed(first, before, U) && TableWithin(table, U) && d in first && d !in before
    requires exists e: int, g: SingleFlow :: e in DependenciesOf(first[d]) && e in table && g in table[e] && |g.operators| > 10
    ensures !Small(U)
  {
    assert Above(first, U, d);
    var e: int, g: SingleFlow :| e in DependenciesOf(first[d]) && e in table && g in table[e] && |g.operators| > 10;
    NotSmall(U, e, g);
  }

  // ----- What is finished stays finished -----

  /** The tables differ at most in this function. */
  ghost predicate OnlyChanged(a: Table, b: Table, x: int) {
    forall e | e != x :: FlowsIn(a, e) == FlowsIn(b, e)
  }

  lemma FinishedKept(subs: Substitution, a: Table, b: Table, x: int, d: int, first: seq<SingleFlow>, final: seq<SingleFlow>)
    requires Finished(subs, a, d, first, final) && OnlyChanged(a, b, x) && x !in DependenciesOf(first)
    ensures Finished(subs, b, d, first, final)
  {
    DependenciesIn(first);
    FinishedSame(subs, a, b, d, first, final, DependenciesOf(first));
  }

  /** How it all began: the flows, what was integrated, the order of the dependencies, and bounds on
      the operators. */
  datatype Outset = Outset(first: Table, before: set<int>, rank: int -> nat, U: map<int, set<int>>)

  ghost predicate Admissible(o: Outset) {
    var orderly := Acyclic(o.first, o.before, o.rank) && UpClosed(o.first, o.before, o.U) && TableWithin(o.first, o.U);
    orderly
  }

  /** What is integrated and was not at the outset has the flows that come of its first ones, with
      what it depends on integrated as well. */
  ghost predicate IsDone(subs: Substitution, o: Outset, table: Table, done: set<int>, d: int)
    requires d in table && d in o.first
  {
    DependenciesOf(o.first[d]) <= done && Finished(subs, table, d, o.first[d], table[d])
  }

  /** Between two visits: what is not integrated, or was so before, is as it was at the outset, the
      rest is done, and no operators beyond the bounds occur. */
  ghost predicate Between(subs: Substitution, o: Outset, table: Table, done: set<int>) {
    && o.first.Keys == table.Keys && o.before <= done && TableWithin(table, o.U)
    && (forall d | d in table && (d in o.before || d !in done) :: table[d] == o.first[d])
    && (forall d | d in table && d !in o.before && d in done :: IsDone(subs, o, table, done, d))
  }

  lemma BetweenFirst(subs: Substitution, o: Outset)
    requires Admissible(o)
    ensures Between(subs, o, o.first, o.before)
  {
  }

  lemma StillOpen(subs: Substitution, o: Outset, table: Table, done: set<int>, d: int)
    requires Admissible(o) && Between(subs, o, table, done) && d in table && (d in o.before || d !in done)
    ensures d in o.first && table[d] == o.first[d] && d in o.U && WithinOps(table[d], o.U[d])
    ensures d !in done ==> Below(o.first, o.rank, d)
  {
  }

  /** Everything is done. */
  lemma BetweenLast(subs: Substitution, o: Outset, table: Table, done: set<int>, d: int)
    requires Between(subs, o, table, done) && d in table && d in done && d !in o.before
    ensures d in o.first && Finished(subs, table, d, o.first[d], table[d])
  {
  }

  /** What the children of an open function may need. */
  lemma ResolvePossible(subs: Substitution, o: Outset, table: Table, done: set<int>, d: int)
    requires Admissible(o) && Between(subs, o, table, done) && d in table && d !in done
    ensures d in o.first && d in o.U && d !in o.before && table[d] == o.first[d] && WithinOps(o.first[d], o.U[d])
    ensures UpClosed(o.first, o.before, o.U) && TableWithin(table, o.U)
    ensures forall e | e in DependenciesOf(o.first[d]) :: e in table && WithinOps(table[e], o.U[d])
  {
    DependenciesWithin(o.first, o.before, o.U, table, d);
  }

  ghost predicate DependencyFree(flows: seq<SingleFlow>) {
    forall k | 0 <= k < |flows| :: flows[k].dependencies == {}
  }

  lemma FinishedFree(subs: Substitution, table: Table, id: int, first: seq<SingleFlow>, final: seq<SingleFlow>)
    requires Finished(subs, table, id, first, final)
    ensures DependencyFree(final)
  {
    ResolvedFree(subs, table, first);
    forall k | 0 <= k < |final|
      ensures final[k].dependencies == {}
    {
      assert Resolved(subs, table, first)[k] in Resolved(subs, table, first);
    }
  }

  lemma IntegratedWithin(id: int, resolved: seq<SingleFlow>, final: seq<SingleFlow>, B: set<int>)
    requires |final| == |resolved| && forall k | 0 <= k < |final| :: IsIntegrated(id, resolved[k], final[k])
    requires WithinOps(resolved, B)
    ensures WithinOps(final, B)
  {
    forall f | f in final
      ensures f.operators <= B
    {
      var k :| 0 <= k < |final| && final[k] == f;
      assert resolved[k] in resolved;
    }
  }

  /** One more function is done. */
  lemma BetweenNext(subs: Substitution, o: Outset, table: Table, done: set<int>, d: int, resolved: seq<SingleFlow>,
                    final: seq<SingleFlow>, after: Table, done': set<int>)
    requires Between(subs, o, table, done) && d in table && d !in done && DependenciesOf(o.first[d]) <= done
    requires resolved == Resolved(subs, table, o.first[d]) && WithinOps(resolved, o.U[d]) && |final| == |resolved|
    requires forall k | 0 <= k < |final| :: IsIntegrated(d, resolved[k], final[k])
    requires after == table[d := resolved][d := final] && done' == done + {d}
    ensures Between(subs, o, after, done')
  {
    IntegratedWithin(d, resolved, final, o.U[d]);
    assert Finished(subs, table, d, o.first[d], final);
    forall x | x in table && x !in o.before && x in done'
      ensures IsDone(subs, o, after, done', x)
    {
      FinishedKept(subs, table, after, d, x, o.first[x], after[x]);
    }
  }

  /** The functions integrated. */
  ghost function Done(allFlows: map<int, FunctionFlow>): set<int>
    reads allFlows.Values
  {
    set d | d in allFlows && allFlows[d].integrated
  }

  /** The collection of all functions. */
  class Functions {
    const allFlows: map<int, FunctionFlow>

    constructor (allFlows: map<int, FunctionFlow>)
      ensures this.allFlows == allFlows
    {
      this.allFlows := allFlows;
    }

    /** Every function is kept under its own number. */
    ghost predicate Proper() {
      forall d | d in allFlows :: allFlows[d].id == d
    }

    ghost predicate Consistent(subs: Substitution, o: Outset)
      reads allFlows.Values
    {
      var between := Between(subs, o, FunctionFlow.TableOf(allFlows), Done(allFlows));
      between
    }

    /** Another object for every other number. */
    lemma OthersKept(d: int)
      requires d in allFlows && Proper()
      ensures forall x | x in allFlows && x != d :: allFlows[x] != allFlows[d]
    {
      forall x | x in allFlows && x != d
        ensures allFlows[x] != allFlows[d]
      {
        assert allFlows[x].id == x && allFlows[d].id == d;
      }
    }

    /** One visit of a function in a pass. */
    method Visit(d: int, subs: Substitution, ghost o: Outset) returns (complete: bool, overflow: bool)
      requires d in allFlows && Consistent(subs, o) && Admissible(o) && Proper()
      modifies allFlows.Values
      ensures overflow ==> !Small(o.U)
      ensures !overflow ==> Consistent(subs, o) && d in o.first
      ensures !overflow ==> Done(allFlows) == old(Done(allFlows)) + if complete then {d} else {}
      ensures !overflow && !complete ==> d !in Done(allFlows) && !(DependenciesOf(o.first[d]) <= Done(allFlows))
    {
      complete, overflow := true, false;
      var f := allFlows[d];
      if f.integrated {
        return;
      }
      StillOpen(subs, o, FunctionFlow.TableOf(allFlows), Done(allFlows), d);
      assert f.flows == o.first[d];
      DependenciesIn(o.first[d]);
      var resolved := f.DependenciesResolved(allFlows);
      if !resolved {
        complete := false;
        return;
      }
      overflow := Complete(d, subs, o);
    }

    /** A function that waits for nothing is freed of its dependencies and integrated. */
    method Complete(d: int, subs: Substitution, ghost o: Outset) returns (overflow: bool)
      requires d in allFlows && Consistent(subs, o) && Admissible(o) && Proper()
      requires !allFlows[d].integrated && d in o.first && DependenciesOf(o.first[d]) <= Done(allFlows)
      modifies allFlows.Values
      ensures overflow ==> !Small(o.U)
      ensures !overflow ==> Consistent(subs, o) && Done(allFlows) == old(Done(allFlows)) + {d}
    {
      ghost var table, done := FunctionFlow.TableOf(allFlows), Done(allFlows);
      overflow := Resolve(allFlows[d], d, subs, o);
      if overflow {
        return;
      }
      ghost var resolved := allFlows[d].flows;
      Finish(d);
      BetweenNext(subs, o, table, done, d, resolved, allFlows[d].flows, FunctionFlow.TableOf(allFlows), Done(allFlows));
    }

    method Finish(d: int)
      requires d in allFlows && Proper()
      modifies allFlows[d]
      ensures var was: Table := old(FunctionFlow.TableOf(allFlows));
              FunctionFlow.TableOf(allFlows) == was[d := allFlows[d].flows]
      ensures Done(allFlows) == old(Done(allFlows)) + {d}
      ensures |allFlows[d].flows| == |old(allFlows[d].flows)|
      ensures forall k | 0 <= k < |allFlows[d].flows| :: IsIntegrated(d, old(allFlows[d].flows)[k], allFlows[d].flows[k])
    {
      ghost var was, done := FunctionFlow.TableOf(allFlows), Done(allFlows);
      OthersKept(d);
      allFlows[d].Integrate();
      assert forall x | x in allFlows :: FunctionFlow.TableOf(allFlows)[x] == if x == d then allFlows[d].flows else was[x];
      assert forall x :: x in Done(allFlows) <==> x in done || x == d;
    }

    /** Only this function's flows change. */
    method FreeOf(f: FunctionFlow, d: int, subs: Substitution, ghost B: set<int>) returns (overflow: bool)
      requires d in allFlows && f == allFlows[d] && Proper() && f.DependsOnOthers(allFlows) && WithinOps(f.flows, B)
      requires forall e | e in DependenciesOf(f.flows) :: WithinOps(allFlows[e].flows, B)
      modifies f`flows
      ensures Done(allFlows) == old(Done(allFlows))
      ensures var was: Table := old(FunctionFlow.TableOf(allFlows));
              FunctionFlow.TableOf(allFlows) == was[d := f.flows]
      ensures !overflow ==> f.flows == Resolved(subs, old(FunctionFlow.TableOf(allFlows)), old(f.flows)) && WithinOps(f.flows, B)
      ensures overflow ==> exists e: int, g: SingleFlow ::
                e in old(DependenciesOf(f.flows)) && e in allFlows && g in old(FunctionFlow.TableOf(allFlows))[e] && |g.operators| > 10
    {
      ghost var table := FunctionFlow.TableOf(allFlows);
      OthersKept(d);
      overflow := f.CreateChildren(allFlows, subs, B);
      assert forall x | x in allFlows :: FunctionFlow.TableOf(allFlows)[x] == if x == d then f.flows else table[x];
    }

    method Resolve(f: FunctionFlow, d: int, subs: Substitution, ghost o: Outset) returns (overflow: bool)
      requires d in allFlows && f == allFlows[d] && Consistent(subs, o) && Admissible(o) && Proper()
      requires !f.integrated && d in o.first && DependenciesOf(o.first[d]) <= Done(allFlows)
      modifies f`flows
      ensures overflow ==> !Small(o.U)
      ensures Done(allFlows) == old(Done(allFlows))
      ensures var was: Table := old(FunctionFlow.TableOf(allFlows));
              FunctionFlow.TableOf(allFlows) == was[d := f.flows]
      ensures !overflow ==> f.flows == Resolved(subs, old(FunctionFlow.TableOf(allFlows)), o.first[d])
      ensures !overflow ==> d in o.U && WithinOps(f.flows, o.U[d])
    {
      ghost var table := FunctionFlow.TableOf(allFlows);
      ResolvePossible(subs, o, table, Done(allFlows), d);
      assert f.flows == o.first[d];
      overflow := FreeOf(f, d, subs, o.U[d]);
      if overflow {
        OverflowMeans(o.first, o.before, o.U, table, d);
      }
    }

    /** One turn of a pass. */
    method Turn(d: int, subs: Substitution, ghost o: Outset, ghost seen: seq<int>, ghost start: set<int>, ghost lowest: int,
                allComplete: bool) returns (allComplete': bool, overflow: bool)
      requires d in allFlows && Consistent(subs, o) && Admissible(o) && Proper()
      requires ReadyFirst(o.first, start, lowest) && InPass(seen, start, Done(allFlows), lowest, allComplete, o.first.Keys)
      modifies allFlows.Values
      ensures overflow ==> !Small(o.U)
      ensures !overflow ==> Consistent(subs, o) && InPass(seen + [d], start, Done(allFlows), lowest, allComplete', o.first.Keys)
    {
      ghost var now := Done(allFlows);
      var complete;
      complete, overflow := Visit(d, subs, o);
      allComplete' := allComplete && complete;
      if !overflow {
        InPassNext(seen, start, now, lowest, allComplete, o.first, d, complete, Done(allFlows));
      }
    }

    /** One pass over all functions. It leaves fewer open, or none. */
    method Pass(order: seq<int>, subs: Substitution, ghost o: Outset) returns (allComplete: bool, overflow: bool)
      requires (forall d :: d in order <==> d in allFlows) && o.first.Keys == allFlows.Keys && Proper()
      requires Consistent(subs, o) && Admissible(o) && o.before <= Done(allFlows)
      modifies allFlows.Values
      ensures overflow ==> !Small(o.U)
      ensures !overflow ==> Consistent(subs, o)
      ensures !overflow && allComplete ==> allFlows.Keys <= Done(allFlows)
      ensures !overflow && !allComplete ==> |allFlows.Keys - Done(allFlows)| < |allFlows.Keys - old(Done(allFlows))|
    {
      ghost var start := Done(allFlows);
      ghost var lowest := LowestOpen(o.first, o.before, start, o.rank);
      allComplete, overflow := true, false;
      for k := 0 to |order|
        invariant Consistent(subs, o) && InPass(order[..k], start, Done(allFlows), lowest, allComplete, o.first.Keys)
      {
        assert order[k] in order && order[..k + 1] == order[..k] + [order[k]];
        allComplete, overflow := Turn(order[k], subs, o, order[..k], start, lowest, allComplete);
        if overflow {
          return;
        }
      }
      assert order[..|order|] == order;
      PassEnds(order, start, Done(allFlows), lowest, allComplete, o.first.Keys);
    }

    /** Passes until nothing is left open. On any acyclic dependency graph and in any order this
        ends, with every function integrated: its flows are those that come of its first ones, where
        the functions it depends on have their final flows. Unless some function and those it depends
        on use too many operators. */
    method ProcessDomain(order: seq<int>, subs: Substitution, ghost rank: int -> nat) returns (overflow: bool)
      requires (forall d :: d in order <==> d in allFlows) && Proper()
      requires Acyclic(FunctionFlow.TableOf(allFlows), Done(allFlows), rank)
      modifies allFlows.Values
      ensures FewOperators(old(FunctionFlow.TableOf(allFlows)), old(Done(allFlows))) ==> !overflow
      ensures |AllOperators(old(FunctionFlow.TableOf(allFlows)))| <= 10 ==> !overflow
      ensures !overflow ==> forall d | d in allFlows :: allFlows[d].integrated
      ensures !overflow ==> forall d | d in allFlows && old(allFlows[d].integrated) :: allFlows[d].flows == old(allFlows[d].flows)
      ensures !overflow ==> forall d | d in allFlows && !old(allFlows[d].integrated) ::
                Finished(subs, FunctionFlow.TableOf(allFlows), d, old(allFlows[d].flows), allFlows[d].flows)
                && DependencyFree(allFlows[d].flows)
    {
      ghost var first, before := FunctionFlow.TableOf(allFlows), Done(allFlows);
      ghost var U := Bounds(first, before, rank);
      ghost var o := Outset(first, before, rank, U);
      overflow := false;
      var allComplete := false;
      BetweenFirst(subs, o);
      while !allComplete
        invariant Consistent(subs, o) && before <= Done(allFlows)
        invariant allComplete ==> allFlows.Keys <= Done(allFlows)
        decreases |allFlows.Keys - Done(allFlows)| + (if allComplete then 0 else 1)
      {
        allComplete, overflow := Pass(order, subs, o);
        if overflow {
          return;
        }
      }
      ghost var table, done := FunctionFlow.TableOf(allFlows), Done(allFlows);
      forall d | d in allFlows
        ensures d in done && allFlows[d].integrated
        ensures d in before ==> table[d] == first[d]
        ensures d !in before ==> Finished(subs, table, d, first[d], table[d]) && DependencyFree(table[d])
      {
        if d in before {
          StillOpen(subs, o, table, done, d);
        } else {
          BetweenLast(subs, o, table, done, d);
          FinishedFree(subs, table, d, first[d], table[d]);
        }
      }
    }
  }
}
