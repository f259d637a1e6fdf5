/** The flows of one function: every combination of its continuous effects. */
module FlowPartition {
  import opened Algebra

  /** +o: operator o runs, -o: it does not. Operator numbers are positive. */
  datatype SingleFlow = SingleFlow(
    operators: set<int>,
    dependencies: set<int>,
    derivatives: seq<Poly>,
    polynomial: Poly)

  /** One continuous effect of an operator on the function. */
  datatype Effect = Effect(op: int, deps: set<int>, expr: Poly)

  // ----- Adding an effect -----

  /** The flow with the operator running as well. */
  function With(f: SingleFlow, e: Effect): SingleFlow {
    SingleFlow(f.operators + {e.op}, f.dependencies + e.deps, [], Add(f.polynomial, e.expr))
  }

  function Without(f: SingleFlow, e: Effect): SingleFlow {
    f.(operators := f.operators + {-e.op})
  }

  function Negatives(ops: set<int>): set<int> {
    set o | o in ops :: if o < 0 then o else -o
  }

  /** Nobody seen in the flows so far runs. */
  function NobodyRuns(flows: seq<SingleFlow>): set<int> {
    if flows == [] then {}
    else NobodyRuns(flows[..|flows| - 1]) + Negatives(flows[|flows| - 1].operators)
  }

  function Alone(flows: seq<SingleFlow>, e: Effect): SingleFlow {
    SingleFlow(NobodyRuns(flows) + {e.op}, e.deps, [], e.expr)
  }

  function AllWith(flows: seq<SingleFlow>, e: Effect): (r: seq<SingleFlow>)
    ensures |r| == |flows| && forall k | 0 <= k < |flows| :: r[k] == With(flows[k], e)
  {
    seq(|flows|, k requires 0 <= k < |flows| => With(flows[k], e))
  }

  function AllWithout(flows: seq<SingleFlow>, e: Effect): (r: seq<SingleFlow>)
    ensures |r| == |flows| && forall k | 0 <= k < |flows| :: r[k] == Without(flows[k], e)
  {
    seq(|flows|, k requires 0 <= k < |flows| => Without(flows[k], e))
  }

  /** The flows after one more effect: the old ones without it, the old ones with it, it alone. */
  function Extended(flows: seq<SingleFlow>, e: Effect): seq<SingleFlow> {
    AllWithout(flows, e) + AllWith(flows, e) + [Alone(flows, e)]
  }

  lemma ExtendedAt(flows: seq<SingleFlow>, e: Effect, k: nat)
    requires k < |Extended(flows, e)|
    ensures |Extended(flows, e)| == 2 * |flows| + 1
    ensures Extended(flows, e)[k] ==
            if k < |flows| then Without(flows[k], e)
            else if k < 2 * |flows| then With(flows[k - |flows|], e)
            else Alone(flows, e)
  {
  }

  function FlowsOf(effects: seq<Effect>): seq<SingleFlow> {
    if effects == [] then [] else Extended(FlowsOf(effects[..|effects| - 1]), effects[|effects| - 1])
  }

  // ----- What the combinations are -----

  predicate Distinct(effects: seq<Effect>) {
    && (forall k | 0 <= k < |effects| :: effects[k].op > 0)
    && (forall j, k | 0 <= j < k < |effects| :: effects[j].op != effects[k].op)
  }

  function Ops(effects: seq<Effect>): set<int> {
    set k | 0 <= k < |effects| :: effects[k].op
  }

  /** Exactly the operators of the combination run. */
  function KeyOf(ops: set<int>, running: set<int>): set<int> {
    set o | o in ops :: if o in running then o else -o
  }

  /** The sum of the expressions of the running operators, in the order they were added. */
  function SumOf(effects: seq<Effect>, running: set<int>): Poly {
    if effects == [] then Zero
    else
      var n := |effects| - 1;
      var rest := SumOf(effects[..n], running);
      if effects[n].op in running then Add(rest, effects[n].expr) else rest
  }

  function DepsOf(effects: seq<Effect>, running: set<int>): set<int> {
    if effects == [] then {}
    else
      var n := |effects| - 1;
      DepsOf(effects[..n], running) + (if effects[n].op in running then effects[n].deps else {})
  }

  /** The flow describes this combination. */
  predicate Describes(f: SingleFlow, effects: seq<Effect>, running: set<int>) {
    && running != {} && running <= Ops(effects)
    && f.operators == KeyOf(Ops(effects), running)
    && f.dependencies == DepsOf(effects, running)
    && f.polynomial == SumOf(effects, running)
  }

  /** The operators a flow asks to run. */
  function Running(f: SingleFlow): set<int> {
    set o | o in f.operators && o > 0
  }

  predicate DescribesSome(f: SingleFlow, effects: seq<Effect>) {
    Describes(f, effects, Running(f))
  }

  function TwoTo(n: nat): nat {
    if n == 0 then 1 else 2 * TwoTo(n - 1)
  }

  // ----- The partition -----

  lemma OpsOfPrefix(effects: seq<Effect>)
    requires |effects| > 0 && Distinct(effects)
    ensures
      var n := |effects| - 1;
      && Distinct(effects[..n]) && Ops(effects) == Ops(effects[..n]) + {effects[n].op}
      && effects[n].op !in Ops(effects[..n])
      && effects[n].op > 0 && forall o | o in Ops(effects[..n]) :: o > 0
  {
    var n := |effects| - 1;
    assert forall k | 0 <= k < n :: effects[..n][k] == effects[k];
    forall o
      ensures o in Ops(effects) <==> o in Ops(effects[..n]) || o == effects[n].op
    {
      if o in Ops(effects) {
        var k :| 0 <= k < |effects| && effects[k].op == o;
        assert k < n ==> effects[..n][k].op == o;
      }
      if o in Ops(effects[..n]) {
        var k :| 0 <= k < n && effects[..n][k].op == o;
        assert effects[k].op == o;
      }
      assert effects[n].op in Ops(effects);
    }
  }

  lemma RunningOfKey(ops: set<int>, running: set<int>)
    requires running <= ops && forall o | o in ops :: o > 0
    ensures (set o | o in KeyOf(ops, running) && o > 0) == running
  {
    forall o
      ensures o in KeyOf(ops, running) && o > 0 <==> o in running
    {
      if o in running {
        assert o in ops;
      }
    }
  }

  lemma KeyMember(ops: set<int>, running: set<int>, q: int)
    ensures q in KeyOf(ops, running) <==> (q in ops && q in running) || (-q in ops && -q !in running)
  {
    if -q in ops && -q !in running {
      var o := -q;
      assert o in ops && q == if o in running then o else -o;
    }
  }

  lemma KeyGrows(ops: set<int>, op: int, running: set<int>)
    requires op !in ops && op !in running && op > 0
    ensures KeyOf(ops + {op}, running) == KeyOf(ops, running) + {-op}
    ensures KeyOf(ops + {op}, running + {op}) == KeyOf(ops, running) + {op}
  {
    forall q
      ensures q in KeyOf(ops + {op}, running) <==> q in KeyOf(ops, running) + {-op}
      ensures q in KeyOf(ops + {op}, running + {op}) <==> q in KeyOf(ops, running) + {op}
    {
      KeyMember(ops, running, q);
      KeyMember(ops + {op}, running, q);
      KeyMember(ops + {op}, running + {op}, q);
    }
  }

  lemma OpsOfMore(effects: seq<Effect>)
    requires |effects| > 0
    ensures Ops(effects[..|effects| - 1]) <= Ops(effects)
  {
    var n := |effects| - 1;
    forall o | o in Ops(effects[..n])
      ensures o in Ops(effects)
    {
      var k :| 0 <= k < n && effects[..n][k].op == o;
      assert effects[k].op == o;
    }
  }

  lemma {:induction false} SumUntouched(effects: seq<Effect>, running: set<int>, op: int)
    requires op !in Ops(effects)
    ensures SumOf(effects, running + {op}) == SumOf(effects, running)
    ensures DepsOf(effects, running + {op}) == DepsOf(effects, running)
  {
    if effects != [] {
      var n := |effects| - 1;
      assert effects[n].op in Ops(effects);
      OpsOfMore(effects);
      SumUntouched(effects[..n], running, op);
    }
  }

  lemma WithoutDescribes(f: SingleFlow, effects: seq<Effect>, running: set<int>)
    requires |effects| > 0 && Distinct(effects)
    requires Describes(f, effects[..|effects| - 1], running)
    ensures Describes(Without(f, effects[|effects| - 1]), effects, running)
  {
    var n := |effects| - 1;
    OpsOfPrefix(effects);
    KeyGrows(Ops(effects[..n]), effects[n].op, running);
  }

  lemma WithDescribes(f: SingleFlow, effects: seq<Effect>, running: set<int>)
    requires |effects| > 0 && Distinct(effects)
    requires Describes(f, effects[..|effects| - 1], running)
    ensures Describes(With(f, effects[|effects| - 1]), effects, running + {effects[|effects| - 1].op})
  {
    var n := |effects| - 1;
    OpsOfPrefix(effects);
    KeyGrows(Ops(effects[..n]), effects[n].op, running);
    SumUntouched(effects[..n], running, effects[n].op);
  }

  lemma NegativesOfKey(ops: set<int>, running: set<int>)
    requires forall o | o in ops :: o > 0
    ensures Negatives(KeyOf(ops, running)) == KeyOf(ops, {})
  {
    forall q
      ensures q in Negatives(KeyOf(ops, running)) <==> q in KeyOf(ops, {})
    {
      KeyMember(ops, {}, q);
      KeyMember(ops, running, q);
      KeyMember(ops, running, -q);
      if q in Negatives(KeyOf(ops, running)) {
        var o :| o in KeyOf(ops, running) && q == if o < 0 then o else -o;
        KeyMember(ops, running, o);
      }
      if q in KeyOf(ops, {}) {
        var o := if -q in running then -q else q;
        assert o in KeyOf(ops, running) && q == if o < 0 then o else -o;
      }
    }
  }

  lemma {:induction false} NobodyOf(flows: seq<SingleFlow>, ops: set<int>)
    requires forall o | o in ops :: o > 0
    requires forall f | f in flows :: exists running :: f.operators == KeyOf(ops, running)
    ensures NobodyRuns(flows) == if flows == [] then {} else KeyOf(ops, {})
  {
    if flows != [] {
      var last := flows[|flows| - 1];
      assert last in flows;
      var running :| last.operators == KeyOf(ops, running);
      NegativesOfKey(ops, running);
      NobodyOf(flows[..|flows| - 1], ops);
    }
  }

  lemma {:induction false} NothingOf(effects: seq<Effect>)
    ensures SumOf(effects, {}) == Zero && DepsOf(effects, {}) == {}
  {
    if effects != [] {
      NothingOf(effects[..|effects| - 1]);
    }
  }

  lemma AloneDescribes(flows: seq<SingleFlow>, effects: seq<Effect>)
    requires |effects| > 0 && Distinct(effects)
    requires flows == [] <==> |effects| == 1
    requires forall f | f in flows :: DescribesSome(f, effects[..|effects| - 1])
    ensures Describes(Alone(flows, effects[|effects| - 1]), effects, {effects[|effects| - 1].op})
  {
    var n := |effects| - 1;
    var before, op := effects[..n], effects[n].op;
    OpsOfPrefix(effects);
    forall f | f in flows
      ensures exists running :: f.operators == KeyOf(Ops(before), running)
    {
      assert f.operators == KeyOf(Ops(before), Running(f));
    }
    NobodyOf(flows, Ops(before));
    assert flows == [] ==> Ops(before) == {};
    KeyGrows(Ops(before), op, {});
    assert {} + {op} == {op};
    SumUntouched(before, {}, op);
    NothingOf(before);
    AddZero(effects[n].expr);
  }

  lemma DescribedRunning(f: SingleFlow, effects: seq<Effect>, running: set<int>)
    requires Distinct(effects) && Describes(f, effects, running)
    ensures Running(f) == running
  {
    assert forall o | o in Ops(effects) :: o > 0;
    RunningOfKey(Ops(effects), running);
  }

  lemma SomeWithout(f: SingleFlow, effects: seq<Effect>)
    requires |effects| > 0 && Distinct(effects) && DescribesSome(f, effects[..|effects| - 1])
    ensures Describes(Without(f, effects[|effects| - 1]), effects, Running(f))
    ensures Running(Without(f, effects[|effects| - 1])) == Running(f)
  {
    WithoutDescribes(f, effects, Running(f));
    DescribedRunning(Without(f, effects[|effects| - 1]), effects, Running(f));
  }

  lemma SomeWith(f: SingleFlow, effects: seq<Effect>)
    requires |effects| > 0 && Distinct(effects) && DescribesSome(f, effects[..|effects| - 1])
    ensures Describes(With(f, effects[|effects| - 1]), effects, Running(f) + {effects[|effects| - 1].op})
    ensures Running(With(f, effects[|effects| - 1])) == Running(f) + {effects[|effects| - 1].op}
  {
    WithDescribes(f, effects, Running(f));
    DescribedRunning(With(f, effects[|effects| - 1]), effects, Running(f) + {effects[|effects| - 1].op});
  }

  /** The flows before the last effect was added. */
  ghost predicate AllDescribe(effects: seq<Effect>) {
    && |FlowsOf(effects)| == TwoTo(|effects|) - 1
    && forall k | 0 <= k < |FlowsOf(effects)| :: DescribesSome(FlowsOf(effects)[k], effects)
  }

  lemma TwoToGrows(n: nat)
    ensures TwoTo(n) > 1 <==> n > 0
    ensures TwoTo(n) > 0
  {
  }

  lemma SomeAlone(effects: seq<Effect>)
    requires |effects| > 0 && Distinct(effects) && AllDescribe(effects[..|effects| - 1])
    ensures
      var alone := Alone(FlowsOf(effects[..|effects| - 1]), effects[|effects| - 1]);
      Describes(alone, effects, {effects[|effects| - 1].op}) && Running(alone) == {effects[|effects| - 1].op}
  {
    var n := |effects| - 1;
    var flows := FlowsOf(effects[..n]);
    TwoToGrows(n);
    AloneDescribes(flows, effects);
    DescribedRunning(Alone(flows, effects[n]), effects, {effects[n].op});
  }

  lemma FlowAt(effects: seq<Effect>, k: nat)
    requires |effects| > 0 && Distinct(effects) && AllDescribe(effects[..|effects| - 1]) && k < |FlowsOf(effects)|
    ensures DescribesSome(FlowsOf(effects)[k], effects)
    ensures
      var n := |effects| - 1;
      var flows, op := FlowsOf(effects[..n]), effects[n].op;
      && |FlowsOf(effects)| == 2 * |flows| + 1
      && Running(FlowsOf(effects)[k]) == (if k < |flows| then Running(flows[k])
                                          else if k < 2 * |flows| then Running(flows[k - |flows|]) + {op}
                                          else {op})
  {
    var n := |effects| - 1;
    var flows := FlowsOf(effects[..n]);
    ExtendedAt(flows, effects[n], k);
    if k < |flows| {
      SomeWithout(flows[k], effects);
    } else if k < 2 * |flows| {
      SomeWith(flows[k - |flows|], effects);
    } else {
      SomeAlone(effects);
    }
  }

  /** Every flow describes a combination. */
  lemma {:induction false} FlowsDescribe(effects: seq<Effect>)
    requires Distinct(effects)
    ensures AllDescribe(effects)
  {
    if effects != [] {
      FlowsDescribe(effects[..|effects| - 1]);
      forall k | 0 <= k < |FlowsOf(effects)|
        ensures DescribesSome(FlowsOf(effects)[k], effects)
      {
        FlowAt(effects, k);
      }
      ExtendedAt(FlowsOf(effects[..|effects| - 1]), effects[|effects| - 1], 0);
    }
  }

  /** The place of a combination among the flows. */
  function Place(effects: seq<Effect>, running: set<int>): nat
    requires Distinct(effects) && running <= Ops(effects)
  {
    if effects == [] then 0
    else
      OpsOfPrefix(effects);
      var n := |effects| - 1;
      var e, before := effects[n], effects[..n];
      var half := |FlowsOf(before)|;
      if e.op !in running then Place(before, running)
      else if running == {e.op} then 2 * half
      else half + Place(before, running - {e.op})
  }

  /** The running sets of the flows, from those before the last effect. */
  lemma RunningAt(effects: seq<Effect>, k: nat, half: nat)
    requires |effects| > 0 && Distinct(effects) && half == |FlowsOf(effects[..|effects| - 1])|
    ensures |FlowsOf(effects)| == 2 * half + 1
    ensures
      var flows, op := FlowsOf(effects[..|effects| - 1]), effects[|effects| - 1].op;
      && (k < half ==> Running(FlowsOf(effects)[k]) == Running(flows[k]))
      && (half <= k < 2 * half ==> Running(FlowsOf(effects)[k]) == Running(flows[k - half]) + {op})
      && (k == 2 * half ==> Running(FlowsOf(effects)[k]) == {op})
  {
    OpsOfPrefix(effects);
    FlowsDescribe(effects[..|effects| - 1]);
    ExtendedAt(FlowsOf(effects[..|effects| - 1]), effects[|effects| - 1], 0);
    if k <= 2 * half {
      FlowAt(effects, k);
    }
  }

  lemma PlaceIs(effects: seq<Effect>, running: set<int>, half: nat)
    requires Distinct(effects) && running <= Ops(effects) && running != {}
    ensures |effects| > 0
    ensures half == |FlowsOf(effects[..|effects| - 1])| ==>
      var n := |effects| - 1;
      var op, before := effects[n].op, effects[..n];
      && Distinct(before) && running - {op} <= Ops(before)
      && (op !in running ==> Place(effects, running) == Place(before, running - {op}) && running - {op} == running)
      && (op in running && running - {op} == {} ==> running == {op} && Place(effects, running) == 2 * half)
      && (op in running && running - {op} != {} ==> Place(effects, running) == half + Place(before, running - {op}))
  {
    OpsOfPrefix(effects);
    var op := effects[|effects| - 1].op;
    if op in running {
      assert running == running - {op} + {op};
    } else {
      assert running == running - {op};
    }
  }

  /** A place before the last effect gives a place after it. */
  lemma PlaceFits(effects: seq<Effect>, running: set<int>, half: nat, place: nat)
    requires |effects| > 0 && Distinct(effects) && half == |FlowsOf(effects[..|effects| - 1])|
    requires
      var flows, op := FlowsOf(effects[..|effects| - 1]), effects[|effects| - 1].op;
      || (op !in running && place < half && Running(flows[place]) == running)
      || (running == {op} && place == 2 * half)
      || (op in running && half <= place < 2 * half && Running(flows[place - half]) == running - {op})
    ensures place < |FlowsOf(effects)| && Running(FlowsOf(effects)[place]) == running
  {
    RunningAt(effects, place, half);
    var op := effects[|effects| - 1].op;
    if op in running {
      assert running - {op} + {op} == running;
    }
  }

  lemma {:induction false} PlaceDescribes(effects: seq<Effect>, running: set<int>)
    requires Distinct(effects) && running <= Ops(effects) && running != {}
    ensures Place(effects, running) < |FlowsOf(effects)|
    ensures Running(FlowsOf(effects)[Place(effects, running)]) == running
  {
    PlaceIs(effects, running, 0);
    var n := |effects| - 1;
    var op, before := effects[n].op, effects[..n];
    var half := |FlowsOf(before)|;
    PlaceIs(effects, running, half);
    var rest := running - {op};
    if rest != {} {
      PlaceDescribes(before, rest);
    }
    PlaceFits(effects, running, half, Place(effects, running));
  }

  /** The place of the running set of a flow, from its place before the last effect. */
  lemma PlaceReads(effects: seq<Effect>, k: nat, half: nat, running: set<int>)
    requires |effects| > 0 && Distinct(effects) && half == |FlowsOf(effects[..|effects| - 1])| && k <= 2 * half
    requires
      var n := |effects| - 1;
      var op, before := effects[n].op, effects[..n];
      var flows := FlowsOf(before);
      if k < 2 * half then
        var inner := Running(flows[if k < half then k else k - half]);
        && Distinct(before) && op !in Ops(before) && inner != {} && inner <= Ops(before)
        && running == (if k < half then inner else inner + {op})
        && Place(before, inner) == if k < half then k else k - half
      else running == {op}
    ensures running <= Ops(effects) && running != {} && Place(effects, running) == k
  {
    OpsOfPrefix(effects);
    var op := effects[|effects| - 1].op;
    if k < 2 * half {
      var inner := running - {op};
      assert op !in Ops(effects[..|effects| - 1]);
      assert inner == if k < half then running else running - {op};
      assert inner == Running(FlowsOf(effects[..|effects| - 1])[if k < half then k else k - half]);
    }
    PlaceIs(effects, running, half);
  }

  lemma {:induction false} PlaceOfFlow(effects: seq<Effect>, k: nat)
    requires Distinct(effects) && k < |FlowsOf(effects)|
    ensures Running(FlowsOf(effects)[k]) <= Ops(effects) && Running(FlowsOf(effects)[k]) != {}
    ensures Place(effects, Running(FlowsOf(effects)[k])) == k
  {
    var n := |effects| - 1;
    var op, before := effects[n].op, effects[..n];
    var flows := FlowsOf(before);
    var half, running := |flows|, Running(FlowsOf(effects)[k]);
    OpsOfPrefix(effects);
    assert k <= 2 * half && running == (if k < half then Running(flows[k])
                                        else if k < 2 * half then Running(flows[k - half]) + {op} else {op}) by {
      RunningAt(effects, k, half);
    }
    if k < half {
      PlaceOfFlow(before, k);
    } else if k < 2 * half {
      PlaceOfFlow(before, k - half);
    }
    PlaceReads(effects, k, half, running);
  }

  // ----- Which flow applies -----

  /** Exactly the operators the flow asks for run, among those it mentions. */
  predicate Satisfies(running: set<int>, operators: set<int>) {
    forall o {:trigger o in operators} | o in operators :: if o > 0 then o in running else -o !in running
  }

  lemma NegativeInKey(ops: set<int>, wanted: set<int>, o: int)
    requires o in ops && o !in wanted
    ensures -o in KeyOf(ops, wanted)
  {
    assert -o == if o in wanted then o else -o;
  }

  lemma NotRunning(running: set<int>, operators: set<int>, o: int)
    requires Satisfies(running, operators) && -o in operators && o > 0
    ensures o !in running
  {
    var q := -o;
    assert q in operators && !(q > 0);
    assert -q == o;
  }

  lemma KeyElement(ops: set<int>, wanted: set<int>, running: set<int>, q: int)
    requires q in KeyOf(ops, wanted) && forall o | o in ops :: o > 0 && (o in running <==> o in wanted)
    ensures if q > 0 then q in running else -q !in running
  {
    var o :| o in ops && q == if o in wanted then o else -o;
    assert o > 0 && (o in running <==> o in wanted);
    if q <= 0 {
      assert -q == o;
    }
  }

  lemma KeySatisfied(ops: set<int>, wanted: set<int>, running: set<int>)
    requires wanted <= ops && forall o | o in ops :: o > 0
    ensures Satisfies(running, KeyOf(ops, wanted)) <==> forall o | o in ops :: o in running <==> o in wanted
  {
    var key := KeyOf(ops, wanted);
    if Satisfies(running, key) {
      forall o | o in ops
        ensures o in running <==> o in wanted
      {
        if o in wanted {
          KeyMember(ops, wanted, o);
          assert o in key && o > 0;
          assert o in running;
        } else {
          NegativeInKey(ops, wanted, o);
          NotRunning(running, key, o);
        }
      }
    }
    if forall o | o in ops :: o in running <==> o in wanted {
      forall q | q in key
        ensures if q > 0 then q in running else -q !in running
      {
        KeyElement(ops, wanted, running, q);
      }
    }
  }

  lemma SatisfiedByActive(effects: seq<Effect>, f: SingleFlow, running: set<int>)
    requires Distinct(effects) && DescribesSome(f, effects)
    ensures Satisfies(running, f.operators) <==> running * Ops(effects) == Running(f)
  {
    var ops, wanted := Ops(effects), Running(f);
    KeySatisfied(ops, wanted, running);
    assert (forall o | o in ops :: o in running <==> o in wanted) <==> running * ops == wanted;
  }

  /** The flows of a function partition its non-idle situations: 2^n - 1 flows, and whenever at
      least one of its operators runs, exactly one flow is satisfied; it adds up the expressions
      and the dependencies of just the operators that run. */
  lemma FlowsPartition(effects: seq<Effect>, running: set<int>)
    requires Distinct(effects)
    ensures |FlowsOf(effects)| == TwoTo(|effects|) - 1
    ensures
      var active := running * Ops(effects);
      if active == {} then forall k | 0 <= k < |FlowsOf(effects)| :: !Satisfies(running, FlowsOf(effects)[k].operators)
      else
        var place := Place(effects, active);
        && place < |FlowsOf(effects)| && Describes(FlowsOf(effects)[place], effects, active)
        && forall k | 0 <= k < |FlowsOf(effects)| :: Satisfies(running, FlowsOf(effects)[k].operators) <==> k == place
  {
    var active := running * Ops(effects);
    FlowsDescribe(effects);
    forall k | 0 <= k < |FlowsOf(effects)|
      ensures Satisfies(running, FlowsOf(effects)[k].operators) <==> active != {} && k == Place(effects, active)
    {
      assert DescribesSome(FlowsOf(effects)[k], effects);
      SatisfiedByActive(effects, FlowsOf(effects)[k], running);
      PlaceOfFlow(effects, k);
      if active != {} {
        PlaceDescribes(effects, active);
      }
    }
    if active != {} {
      PlaceDescribes(effects, active);
      assert DescribesSome(FlowsOf(effects)[Place(effects, active)], effects);
    }
  }
}
