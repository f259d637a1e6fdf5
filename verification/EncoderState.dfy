/** The state of the happening encoder: visitor states, effect lists and variable vectors. */
module EncoderState {
  import opened Smt
  import opened Pddl
  import opened HappeningSpec

  datatype EncState =
    | NoState | InitState | GoalState
    | ActionDuration | ActionCondition | ActionEffect
    | SimpleActionCondition | SimpleActionEffect
    | EventCondition | EventEffect
    | ProcessCondition
    | TilEffect

  /** The fields by which visitors talk to each other. */
  datatype Visit = Visit(
    state: EncState,
    opID: nat,
    tilID: nat,
    h: nat,
    b: nat,
    condNeg: bool,
    effNeg: bool,
    condTime: TimeSpec,
    effTime: TimeSpec,
    expressions: seq<Term>,
    conditions: seq<Formula>,
    musts: seq<Term>)

  function ModeOf(s: EncState): Mode {
    match s
    case GoalState => GoalMode
    case ActionCondition => ConditionMode
    case SimpleActionCondition => InstantConditionMode
    case EventCondition => TriggerMode
    case ProcessCondition => TriggerMode
    case _ => DurationMode
  }

  /** Long facts are kept closed: guarded by Opened, which is true of every key, they say nothing
      to a proof that does not mention their key. */
  datatype Key = ListsKey | GrownKey | ValuesKey | OpKey | OnlyKey | ProblemKey | PartKey | CallsKey

  predicate Opened(key: Key) {
    true
  }

  predicate VisitsConditions(s: EncState) {
    s in {GoalState, ActionDuration, ActionCondition, SimpleActionCondition, EventCondition, ProcessCondition}
  }

  /** Where an effect belongs: it decides the trigger, the layer it reaches and the list it joins. */
  datatype Kind = StartKind | EndKind | EventKind | TilKind

  function KindOf(s: EncState, time: TimeSpec): Kind {
    match s
    case EventEffect => EventKind
    case TilEffect => TilKind
    case ActionEffect => if time == AtEnd then EndKind else StartKind
    case _ => StartKind
  }

  predicate VisitsEffects(s: EncState, time: TimeSpec) {
    s in {EventEffect, TilEffect, SimpleActionEffect, ActionEffect} && (s == ActionEffect ==> time != OverAll)
  }

  function LitRole(kind: Kind, negated: bool): Role {
    match kind
    case StartKind => if negated then StartDel else StartAdd
    case EndKind => if negated then EndDel else EndAdd
    case EventKind => if negated then EventDel else EventAdd
    case TilKind => if negated then TilDel else TilAdd
  }

  function FnRole(kind: Kind): Role {
    match kind
    case EndKind => EndAssign
    case TilKind => TilAssign
    case _ => StartAssign
  }

  function TriggerOf(kind: Kind, who: nat, h: nat, b: nat): BoolVar {
    match kind
    case StartKind => Start(who, h)
    case EndKind => End(who, h)
    case EventKind => Fired(who, h, b)
    case TilKind => TilAt(who, h)
  }

  function LayerOf(C: Cascade, kind: Kind, b: nat): nat {
    match kind
    case EventKind => b + 1
    case TilKind => 0
    case _ => C - 1
  }

  /** What visiting the effects adds to the list of one literal or function. */
  function Entries(e: Effects, kind: Kind, role: Role, id: nat, who: nat): seq<nat> {
    if role == LitRole(kind, false) then Mentions(e.adds, id, who)
    else if role == LitRole(kind, true) then Mentions(e.dels, id, who)
    else if kind != EventKind && role == FnRole(kind) then Mentions(AssignedFns(e.assigns), id, who)
    else []
  }

  function AssignFormula(C: Cascade, a: Assignment, kind: Kind, who: nat, op: nat, h: nat): Formula {
    if kind == TilKind
    then Implies(Bool(TilAt(who, h)), Eq(Var(Value(a.fn, h, 0)), TermOf(a.rhs, op, h, 0)))
    else AssignEffect(C, a, Bool(TriggerOf(kind, who, h, 0)), op, h)
  }

  function AssignFormulas(C: Cascade, assigns: seq<Assignment>, kind: Kind, who: nat, op: nat, h: nat): seq<Formula> {
    if assigns == [] then []
    else
      var last := |assigns| - 1;
      AssignFormulas(C, assigns[..last], kind, who, op, h) + [AssignFormula(C, assigns[last], kind, who, op, h)]
  }

  /** What visiting the effects asserts. */
  function EffectFormulas(C: Cascade, e: Effects, kind: Kind, who: nat, op: nat, h: nat, b: nat): seq<Formula> {
    var trigger := Bool(TriggerOf(kind, who, h, b));
    LitEffects(e.adds, false, trigger, h, LayerOf(C, kind, b)) +
    LitEffects(e.dels, true, trigger, h, LayerOf(C, kind, b)) +
    AssignFormulas(C, e.assigns, kind, who, op, h)
  }

  function Vec<T>(vectors: map<nat, seq<T>>, i: nat): seq<T> {
    if i in vectors then vectors[i] else []
  }

  function ListOf(lists: map<(Role, nat), seq<nat>>, role: Role, id: nat): seq<nat> {
    if (role, id) in lists then lists[(role, id)] else []
  }

  predicate TilRole(role: Role) {
    role.TilAdd? || role.TilDel? || role.TilAssign?
  }

  function ExpectedList(P: Problem, role: Role, id: nat, n: nat, k: nat): seq<nat>
    requires n <= |P.ops| && k <= |P.tils|
  {
    if TilRole(role) then TilUsers(P, role, id, k) else OpUsers(P, role, id, n)
  }

  /** The lists after n operators and k timed literals have been visited. */
  ghost predicate ListsHold(P: Problem, lists: map<(Role, nat), seq<nat>>, n: nat, k: nat) {
    && n <= |P.ops| && k <= |P.tils|
    && forall key {:trigger Opened(key)} | Opened(key) && key == ListsKey ::
         forall role, id :: ListOf(lists, role, id) == ExpectedList(P, role, id, n, k)
  }

  /** After the visit of one more effect structure. */
  ghost predicate Grown(before: map<(Role, nat), seq<nat>>, after: map<(Role, nat), seq<nat>>,
                        e: Effects, kind: Kind, who: nat) {
    forall key {:trigger Opened(key)} | Opened(key) && key == GrownKey ::
      forall role, id :: ListOf(after, role, id) == ListOf(before, role, id) + Entries(e, kind, role, id, who)
  }

  // ----- Variables -----

  predicate StartVec(v: seq<Formula>, i: nat, n: nat) {
    |v| == n && forall h | 0 <= h < n :: v[h] == Bool(Start(i, h))
  }

  predicate EndVec(v: seq<Formula>, i: nat, n: nat) {
    |v| == n && forall h | 0 <= h < n :: v[h] == Bool(End(i, h))
  }

  predicate RunVec(v: seq<Formula>, i: nat, n: nat) {
    |v| == n && forall h | 0 <= h < n :: v[h] == Bool(Running(i, h))
  }

  predicate DurVec(v: seq<Term>, i: nat, n: nat) {
    |v| == n && forall h | 0 <= h < n :: v[h] == Var(Remaining(i, h))
  }

  predicate TilVec(v: seq<Formula>, k: nat, n: nat) {
    |v| == n && forall h | 0 <= h < n :: v[h] == Bool(TilAt(k, h))
  }

  predicate FiredLayers(v: seq<Formula>, i: nat, h: nat, n: nat) {
    |v| == n && forall b | 0 <= b < n :: v[b] == Bool(Fired(i, h, b))
  }

  predicate EventVec(C: Cascade, v: seq<seq<Formula>>, i: nat, n: nat) {
    |v| == n && forall h | 0 <= h < n :: FiredLayers(v[h], i, h, C - 1)
  }

  predicate LitLayers(v: seq<Formula>, l: nat, h: nat, n: nat) {
    |v| == n && forall b | 0 <= b < n :: v[b] == Bool(Lit(l, h, b))
  }

  predicate LitVec(C: Cascade, v: seq<seq<Formula>>, l: nat, n: nat) {
    |v| == n && forall h | 0 <= h < n :: LitLayers(v[h], l, h, C)
  }

  predicate FnLayers(v: seq<Term>, fn: nat, h: nat, n: nat) {
    |v| == n && forall b | 0 <= b < n :: v[b] == Var(Value(fn, h, b))
  }

  predicate FnVec(C: Cascade, v: seq<seq<Term>>, fn: nat, n: nat) {
    |v| == n && forall h | 0 <= h < n :: FnLayers(v[h], fn, h, C)
  }

  /** The vectors of variables, indexed by happening and, inside one, by layer. */
  datatype Vectors = Vectors(
    time: seq<Term>,
    gap: seq<Term>,
    literal: seq<seq<seq<Formula>>>,
    value: seq<seq<seq<Term>>>,
    sta: map<nat, seq<Formula>>,
    run: map<nat, seq<Formula>>,
    end: map<nat, seq<Formula>>,
    dur: map<nat, seq<Term>>,
    event: map<nat, seq<seq<Formula>>>,
    til: map<nat, seq<Formula>>)

  /** The vectors an operator of this kind needs, each with an entry for n happenings. */
  predicate OpVectors(P: Problem, C: Cascade, v: Vectors, i: nat, n: nat)
    requires i < |P.ops|
  {
    var o := P.ops[i];
    && (!o.Event? ==> StartVec(Vec(v.sta, i), i, n) && DurVec(Vec(v.dur, i), i, n))
    && (o.Durative? || o.Process? ==> RunVec(Vec(v.run, i), i, n) && EndVec(Vec(v.end, i), i, n))
    && (o.Event? ==> EventVec(C, Vec(v.event, i), i, n))
  }

  ghost predicate OpReady(P: Problem, C: Cascade, v: Vectors, i: nat, n: nat)
    requires i < |P.ops|
  {
    forall key {:trigger Opened(key)} | Opened(key) && key == OpKey :: OpVectors(P, C, v, i, n)
  }

  /** The operators from lo up to hi have n entries. */
  ghost predicate OpsReady(P: Problem, C: Cascade, v: Vectors, lo: nat, hi: nat, n: nat)
    requires hi <= |P.ops|
  {
    forall i | lo <= i < hi :: OpReady(P, C, v, i, n)
  }

  ghost predicate TilReady(v: Vectors, k: nat, n: nat) {
    forall key {:trigger Opened(key)} | Opened(key) && key == OpKey :: TilVec(Vec(v.til, k), k, n)
  }

  ghost predicate TilsReady(v: Vectors, lo: nat, hi: nat, n: nat) {
    forall k | lo <= k < hi :: TilReady(v, k, n)
  }

  predicate TimesReady(v: Vectors, n: nat) {
    && |v.time| == |v.gap| == n
    && (forall h | 0 <= h < n :: v.time[h] == Var(Time(h)))
    && (forall h | 0 <= h < n :: v.gap[h] == Var(Gap(h)))
  }

  predicate LiteralsReady(P: Problem, C: Cascade, v: Vectors, n: nat) {
    |v.literal| == P.lits && forall l | 0 <= l < P.lits :: LitVec(C, v.literal[l], l, n)
  }

  predicate FunctionsReady(P: Problem, C: Cascade, v: Vectors, n: nat) {
    |v.value| == P.fns && forall fn | 0 <= fn < P.fns :: FnVec(C, v.value[fn], fn, n)
  }

  /** The vectors made before any operator is visited. */
  ghost predicate ValuesReady(P: Problem, C: Cascade, v: Vectors, n: nat) {
    forall key {:trigger Opened(key)} | Opened(key) && key == ValuesKey ::
      TimesReady(v, n) && LiteralsReady(P, C, v, n) && FunctionsReady(P, C, v, n)
  }

  // ----- Looking a variable up -----

  function LitVar(P: Problem, C: Cascade, v: Vectors, n: nat, l: nat, h: nat, b: nat): (x: Formula)
    requires ValuesReady(P, C, v, n) && l < P.lits && h < n && b < C
    ensures x == Bool(Lit(l, h, b))
  {
    assert Opened(ValuesKey);
    assert LitVec(C, v.literal[l], l, n);
    assert LitLayers(v.literal[l][h], l, h, C);
    v.literal[l][h][b]
  }

  function FnVar(P: Problem, C: Cascade, v: Vectors, n: nat, fn: nat, h: nat, b: nat): (x: Term)
    requires ValuesReady(P, C, v, n) && fn < P.fns && h < n && b < C
    ensures x == Var(Value(fn, h, b))
  {
    assert Opened(ValuesKey);
    assert FnVec(C, v.value[fn], fn, n);
    assert FnLayers(v.value[fn][h], fn, h, C);
    v.value[fn][h][b]
  }

  function StaVar(P: Problem, C: Cascade, v: Vectors, n: nat, i: nat, h: nat): (x: Formula)
    requires i < |P.ops| && !P.ops[i].Event? && OpReady(P, C, v, i, n) && h < n
    ensures x == Bool(Start(i, h))
  {
    assert Opened(OpKey);
    Vec(v.sta, i)[h]
  }

  function EndVar(P: Problem, C: Cascade, v: Vectors, n: nat, i: nat, h: nat): (x: Formula)
    requires Runs(P, i) && OpReady(P, C, v, i, n) && h < n
    ensures x == Bool(End(i, h))
  {
    assert Opened(OpKey);
    Vec(v.end, i)[h]
  }

  function RunVar(P: Problem, C: Cascade, v: Vectors, n: nat, i: nat, h: nat): (x: Formula)
    requires Runs(P, i) && OpReady(P, C, v, i, n) && h < n
    ensures x == Bool(Running(i, h))
  {
    assert Opened(OpKey);
    Vec(v.run, i)[h]
  }

  function DurVar(P: Problem, C: Cascade, v: Vectors, n: nat, i: nat, h: nat): (x: Term)
    requires i < |P.ops| && !P.ops[i].Event? && OpReady(P, C, v, i, n) && h < n
    ensures x == Var(Remaining(i, h))
  {
    assert Opened(OpKey);
    Vec(v.dur, i)[h]
  }

  function EventVar(P: Problem, C: Cascade, v: Vectors, n: nat, i: nat, h: nat, b: nat): (x: Formula)
    requires i < |P.ops| && P.ops[i].Event? && OpReady(P, C, v, i, n) && h < n && b < C - 1
    ensures x == Bool(Fired(i, h, b))
  {
    assert Opened(OpKey);
    assert FiredLayers(Vec(v.event, i)[h], i, h, C - 1);
    Vec(v.event, i)[h][b]
  }

  function GapVar(P: Problem, C: Cascade, v: Vectors, n: nat, h: nat): (x: Term)
    requires ValuesReady(P, C, v, n) && h < n
    ensures x == Var(Gap(h))
  {
    assert Opened(ValuesKey);
    v.gap[h]
  }

  lemma TimesOfValues(P: Problem, C: Cascade, v: Vectors, n: nat)
    requires ValuesReady(P, C, v, n)
    ensures TimesReady(v, n)
  {
    assert Opened(ValuesKey);
  }

  function TilVar(v: Vectors, n: nat, k: nat, h: nat): (x: Formula)
    requires TilReady(v, k, n) && h < n
    ensures x == Bool(TilAt(k, h))
  {
    assert Opened(OpKey);
    Vec(v.til, k)[h]
  }

  // ----- Small facts about the lists of HappeningSpec -----

  lemma TermWithoutDuration(P: Problem, e: Expr, i: nat, j: nat, h: nat, b: nat)
    requires WfExpr(P, e, false)
    ensures TermOf(e, i, h, b) == TermOf(e, j, h, b)
  {
  }

  lemma MentionsSnoc(ids: seq<nat>, last: nat, id: nat, who: nat)
    ensures Mentions(ids + [last], id, who) == Mentions(ids, id, who) + (if last == id then [who] else [])
  {
    assert (ids + [last])[..|ids|] == ids;
  }

  lemma LitEffectsSnoc(ids: seq<nat>, last: nat, negated: bool, trigger: Formula, h: nat, b: nat)
    ensures LitEffects(ids + [last], negated, trigger, h, b) ==
            LitEffects(ids, negated, trigger, h, b) + [Implies(trigger, Signed(negated, Lit(last, h, b)))]
  {
    assert (ids + [last])[..|ids|] == ids;
  }

  lemma AssignFormulasSnoc(C: Cascade, assigns: seq<Assignment>, a: Assignment, kind: Kind, who: nat, op: nat, h: nat)
    ensures AssignFormulas(C, assigns + [a], kind, who, op, h) ==
            AssignFormulas(C, assigns, kind, who, op, h) + [AssignFormula(C, a, kind, who, op, h)]
  {
    assert (assigns + [a])[..|assigns|] == assigns;
  }

  lemma AssignFormulasOfAction(C: Cascade, assigns: seq<Assignment>, kind: Kind, op: nat, h: nat)
    requires kind == StartKind || kind == EndKind
    ensures AssignFormulas(C, assigns, kind, op, op, h) == AssignEffects(C, assigns, Bool(TriggerOf(kind, op, h, 0)), op, h)
  {
  }

  lemma AssignFormulasOfTil(P: Problem, C: Cascade, assigns: seq<Assignment>, k: nat, op: nat, h: nat)
    requires forall a | a in assigns :: WfExpr(P, a.rhs, false)
    ensures AssignFormulas(C, assigns, TilKind, k, op, h) == TilAssignEffects(assigns, k, h)
  {
    if assigns != [] {
      var last := |assigns| - 1;
      AssignFormulasOfTil(P, C, assigns[..last], k, op, h);
      TermWithoutDuration(P, assigns[last].rhs, op, k, h, 0);
    }
  }

  lemma MentionsOne(ids: seq<nat>, id: nat, who: nat, i: nat)
    requires i in Mentions(ids, id, who)
    ensures i == who && ids != []
  {
  }

  lemma UsersInRange(P: Problem, role: Role, id: nat, n: nat, i: nat)
    requires n <= |P.ops| && i in OpUsers(P, role, id, n)
    ensures i < |P.ops| && RoleOfOp(P.ops[i], role) != []
  {
    if i !in OpUsers(P, role, id, n - 1) {
      MentionsOne(RoleOfOp(P.ops[n - 1], role), id, n - 1, i);
    }
  }

  lemma TilUsersInRange(P: Problem, role: Role, id: nat, n: nat, k: nat)
    requires n <= |P.tils| && k in TilUsers(P, role, id, n)
    ensures k < |P.tils|
  {
    if k !in TilUsers(P, role, id, n - 1) {
      MentionsOne(RoleOfTil(P.tils[n - 1], role), id, n - 1, k);
    }
  }

  lemma TilEntries(t: Til, role: Role, id: nat, k: nat)
    ensures Entries(t.eff, TilKind, role, id, k) == if TilRole(role) then Mentions(RoleOfTil(t, role), id, k) else []
  {
    match role
    case TilAdd =>
    case TilDel =>
    case TilAssign =>
    case _ =>
  }

  lemma TilListsGrow(P: Problem, before: map<(Role, nat), seq<nat>>, after: map<(Role, nat), seq<nat>>, n: nat, k: nat)
    requires k < |P.tils| && ListsHold(P, before, n, k) && Grown(before, after, P.tils[k].eff, TilKind, k)
    ensures ListsHold(P, after, n, k + 1)
  {
    forall role, id
      ensures ListOf(after, role, id) == ExpectedList(P, role, id, n, k + 1)
    {
      assert Opened(ListsKey) && Opened(GrownKey);
      TilEntries(P.tils[k], role, id, k);
      assert ListOf(after, role, id) == ListOf(before, role, id) + Entries(P.tils[k].eff, TilKind, role, id, k);
    }
  }

  lemma ActionEntries(o: Op, role: Role, id: nat, i: nat)
    requires o.Durative? || o.Instant?
    ensures
      var start := if o.Durative? then o.start else o.eff;
      Entries(start, StartKind, role, id, i) + (if o.Durative? then Entries(o.end, EndKind, role, id, i) else []) ==
      Mentions(RoleOfOp(o, role), id, i)
  {
    match role
    case StartAdd =>
    case StartDel =>
    case StartAssign =>
    case EndAdd =>
    case EndDel =>
    case EndAssign =>
    case _ =>
  }

  lemma EventEntries(o: Op, role: Role, id: nat, i: nat)
    requires o.Event?
    ensures Entries(o.eff, EventKind, role, id, i) == Mentions(RoleOfOp(o, role), id, i)
  {
    match role
    case EventAdd =>
    case EventDel =>
    case _ =>
  }

  lemma OpListsGrow(P: Problem, before: map<(Role, nat), seq<nat>>, after: map<(Role, nat), seq<nat>>, i: nat, k: nat)
    requires i < |P.ops| && ListsHold(P, before, i, k)
    requires forall role, id ::
               ListOf(after, role, id) == ListOf(before, role, id) + Mentions(RoleOfOp(P.ops[i], role), id, i)
    ensures ListsHold(P, after, i + 1, k)
  {
    forall role, id
      ensures ListOf(after, role, id) == ExpectedList(P, role, id, i + 1, k)
    {
      assert Opened(ListsKey);
      assert TilRole(role) ==> RoleOfOp(P.ops[i], role) == [];
    }
  }

  lemma InstantListsGrow(P: Problem, before: map<(Role, nat), seq<nat>>, after: map<(Role, nat), seq<nat>>, i: nat, k: nat)
    requires i < |P.ops| && P.ops[i].Instant? && ListsHold(P, before, i, k)
    requires Grown(before, after, P.ops[i].eff, StartKind, i)
    ensures ListsHold(P, after, i + 1, k)
  {
    OpListsGrow(P, before, after, i, k) by {
      forall role, id
        ensures ListOf(after, role, id) == ListOf(before, role, id) + Mentions(RoleOfOp(P.ops[i], role), id, i)
      {
        assert Opened(GrownKey);
        ActionEntries(P.ops[i], role, id, i);
      }
    }
  }

  lemma EventListsGrow(P: Problem, before: map<(Role, nat), seq<nat>>, after: map<(Role, nat), seq<nat>>, i: nat, k: nat)
    requires i < |P.ops| && P.ops[i].Event? && ListsHold(P, before, i, k)
    requires Grown(before, after, P.ops[i].eff, EventKind, i)
    ensures ListsHold(P, after, i + 1, k)
  {
    OpListsGrow(P, before, after, i, k) by {
      forall role, id
        ensures ListOf(after, role, id) == ListOf(before, role, id) + Mentions(RoleOfOp(P.ops[i], role), id, i)
      {
        assert Opened(GrownKey);
        EventEntries(P.ops[i], role, id, i);
      }
    }
  }

  lemma AppendLists(x: seq<nat>, y: seq<nat>, z: seq<nat>, a: seq<nat>, b: seq<nat>)
    requires y == x + a && z == y + b
    ensures z == x + (a + b)
  {
  }

  lemma DurativeListGrows(before: map<(Role, nat), seq<nat>>, middle: map<(Role, nat), seq<nat>>,
                          after: map<(Role, nat), seq<nat>>, o: Op, i: nat, role: Role, id: nat)
    requires o.Durative? && Grown(before, middle, o.start, StartKind, i) && Grown(middle, after, o.end, EndKind, i)
    ensures ListOf(after, role, id) == ListOf(before, role, id) + Mentions(RoleOfOp(o, role), id, i)
  {
    assert Opened(GrownKey);
    var start, end := Entries(o.start, StartKind, role, id, i), Entries(o.end, EndKind, role, id, i);
    assert start + end == Mentions(RoleOfOp(o, role), id, i) by {
      ActionEntries(o, role, id, i);
    }
    var x, y, z := ListOf(before, role, id), ListOf(middle, role, id), ListOf(after, role, id);
    AppendLists(x, y, z, start, end);
  }

  lemma DurativeListsGrow(P: Problem, before: map<(Role, nat), seq<nat>>, middle: map<(Role, nat), seq<nat>>,
                          after: map<(Role, nat), seq<nat>>, i: nat, k: nat)
    requires i < |P.ops| && P.ops[i].Durative? && ListsHold(P, before, i, k)
    requires Grown(before, middle, P.ops[i].start, StartKind, i) && Grown(middle, after, P.ops[i].end, EndKind, i)
    ensures ListsHold(P, after, i + 1, k)
  {
    OpListsGrow(P, before, after, i, k) by {
      forall role, id
        ensures ListOf(after, role, id) == ListOf(before, role, id) + Mentions(RoleOfOp(P.ops[i], role), id, i)
      {
        DurativeListGrows(before, middle, after, P.ops[i], i, role, id);
      }
    }
  }

  lemma ProcessListsGrow(P: Problem, lists: map<(Role, nat), seq<nat>>, i: nat, k: nat)
    requires i < |P.ops| && P.ops[i].Process? && ListsHold(P, lists, i, k)
    ensures ListsHold(P, lists, i + 1, k)
  {
    forall role, id
      ensures ListOf(lists, role, id) == ExpectedList(P, role, id, i + 1, k)
    {
      assert Opened(ListsKey);
    }
  }

  lemma JoinConcat(P: Problem, C: Cascade, ctx: Context, before: Output, a: seq<Atom>, b: seq<Atom>)
    requires ctx.seen <= |P.ops|
    ensures Join(Join(before, EmitAll(P, C, ctx, a)), EmitAll(P, C, ctx, b)) == Join(before, EmitAll(P, C, ctx, a + b))
  {
    EmitAllConcat(P, C, ctx, a, b);
    JoinAssociative(before, EmitAll(P, C, ctx, a), EmitAll(P, C, ctx, b));
  }

  predicate IsDurative(P: Problem, i: nat) {
    i < |P.ops| && P.ops[i].Durative?
  }

  /** The visitor fields as a condition visit reads them. */
  function ContextOf(e: Visit, seen: nat): Context {
    var mode := ModeOf(e.state);
    Context(mode, if mode == GoalMode then 0 else e.opID, e.h, e.b, if mode == ConditionMode then e.condTime else AtStart,
            if mode == TriggerMode || mode == GoalMode then 0 else seen)
  }

  /** The state fits a condition visit. Only start conditions look at the effect lists. */
  ghost predicate VisitReady(P: Problem, C: Cascade, v: Vectors, n: nat, lists: map<(Role, nat), seq<nat>>, e: Visit,
                             durationOk: bool, numericOk: bool, seen: nat) {
    var readable := ValuesReady(P, C, v, n) && e.h < n && e.b < C && (durationOk ==> IsDurative(P, e.opID));
    var vectors := e.state != GoalState ==> e.opID < |P.ops| && OpsReady(P, C, v, 0, |P.ops|, n);
    var fits :=
      && VisitsConditions(e.state) && seen <= |P.ops|
      && (e.state == GoalState ==> e.b == C - 1 && e.h == n - 1 && !durationOk)
      && (e.state == ActionDuration || e.state == ActionCondition ==> IsDurative(P, e.opID) && durationOk && numericOk)
      && (e.state == SimpleActionCondition ==> e.opID < |P.ops| && P.ops[e.opID].Instant? && !numericOk)
      && (e.state == ActionCondition || e.state == SimpleActionCondition ==> ListsHold(P, lists, seen, |P.tils|));
    var ready := readable && vectors && fits;
    ready
  }

  function ContextOp(s: EncState, op: nat): nat {
    if s == GoalState then 0 else op
  }

  lemma SidesOf(P: Problem, e: Visit, lhs: Expr, rhs: Expr, durationOk: bool)
    requires WfExpr(P, lhs, durationOk) && WfExpr(P, rhs, durationOk) && (e.state == GoalState ==> !durationOk)
    ensures TermOf(lhs, e.opID, e.h, e.b) == TermOf(lhs, ContextOp(e.state, e.opID), e.h, e.b)
    ensures TermOf(rhs, e.opID, e.h, e.b) == TermOf(rhs, ContextOp(e.state, e.opID), e.h, e.b)
  {
    if e.state == GoalState {
      TermWithoutDuration(P, lhs, e.opID, 0, e.h, e.b);
      TermWithoutDuration(P, rhs, e.opID, 0, e.h, e.b);
    }
  }

  lemma OwnVectors(P: Problem, C: Cascade, v: Vectors, n: nat, lists: map<(Role, nat), seq<nat>>, e: Visit, durationOk: bool, seen: nat)
    requires VisitReady(P, C, v, n, lists, e, durationOk, true, seen)
    ensures ValuesReady(P, C, v, n) && e.h < n && e.b < C
    ensures e.state == GoalState ==> e.b == C - 1 && !durationOk
    ensures durationOk ==> IsDurative(P, e.opID) && OpReady(P, C, v, e.opID, n)
  {
  }

  ghost predicate EffectsFit(P: Problem, e: Effects, durationOk: bool) {
    forall key {:trigger Opened(key)} | Opened(key) && key == ProblemKey :: WfEffects(P, e, durationOk)
  }

  lemma EffectsInRange(P: Problem, e: Effects, durationOk: bool)
    requires EffectsFit(P, e, durationOk)
    ensures WfEffects(P, e, durationOk)
  {
    assert Opened(ProblemKey);
  }

  ghost predicate ProblemFits(P: Problem) {
    forall key {:trigger Opened(key)} | Opened(key) && key == ProblemKey :: WellFormed(P)
  }

  ghost predicate GoalFits(P: Problem, g: Goal, durationOk: bool, numericOk: bool) {
    forall key {:trigger Opened(key)} | Opened(key) && key == ProblemKey :: WfGoal(P, g, durationOk, numericOk)
  }

  lemma GoalOfProblem(P: Problem)
    requires ProblemFits(P)
    ensures GoalFits(P, P.goal, false, true)
  {
    assert Opened(ProblemKey);
  }

  /** Only the variables of one timed literal have changed. */
  ghost predicate OnlyTil(before: Vectors, after: Vectors, k: nat) {
    forall key {:trigger Opened(key)} | Opened(key) && key == OnlyKey ::
      after == before.(til := after.til) && forall j | j != k :: Vec(after.til, j) == Vec(before.til, j)
  }

  lemma NewTilRow(P: Problem, C: Cascade, before: Vectors, v: Vectors, k: nat, h: nat, n: nat, row: seq<Formula>)
    requires TilReady(v, k, h) && ValuesReady(P, C, v, n) && OnlyTil(before, v, k)
    requires row == Vec(v.til, k) + [Bool(TilAt(k, h))]
    ensures
      var after := v.(til := v.til[k := row]);
      OnlyTil(before, after, k) && TilReady(after, k, h + 1) && ValuesReady(P, C, after, n)
  {
    assert Opened(OpKey) && Opened(ValuesKey) && Opened(OnlyKey);
  }

  datatype Part =
    | ConditionPart(ctx: Context, g: Goal)
    | EffectsPart(e: Effects, trigger: BoolVar, op: nat, h: nat)
    | TilTimesPart(k: nat, h: nat)
    | TilEffectsPart(k: nat, h: nat)
    | LayerPart(loop: Loop, h: nat, first: bool)
    | LoopPart(loop: Loop, lo: nat, hi: nat, first: bool)
    | LoopsPart(loops: seq<Loop>, lo: nat, hi: nat, first: bool)
    | InitPart(first: bool)
    | GoalPart(H: nat)

  /** Whether exactly the formulas of the part have been appended. The encoder holds this relation
      as a constant, so that proofs which only chain visits do not look into the formulas. */
  type Relation = (Part, seq<Formula>, seq<Formula>) -> bool

  predicate PartInProblem(P: Problem, part: Part) {
    match part
    case ConditionPart(ctx, _) => ctx.seen <= |P.ops|
    case EffectsPart(_, _, _, _) => true
    case TilTimesPart(k, _) => k < |P.tils|
    case TilEffectsPart(k, _) => k < |P.tils|
    case LayerPart(loop, _, _) => InProblem(P, loop)
    case LoopPart(loop, _, _, _) => InProblem(P, loop)
    case LoopsPart(loops, _, _, _) => AllInProblem(P, loops)
    case InitPart(_) => true
    case GoalPart(H) => H > 0
  }

  function PartFormulas(P: Problem, C: Cascade, part: Part): seq<Formula>
    requires PartInProblem(P, part)
  {
    match part
    case ConditionPart(ctx, g) => EmitAll(P, C, ctx, Atoms(g)).asserted
    case EffectsPart(e, trigger, op, h) => ActionEffects(C, e, trigger, op, h)
    case TilTimesPart(k, h) => TilTimes(P, k, h)
    case TilEffectsPart(k, h) => TilEffects(P, k, h)
    case LayerPart(loop, h, first) => At(P, C, loop, h, first)
    case LoopPart(loop, lo, hi, first) => Block(BodyOf(P, C, loop, first), lo, hi)
    case LoopsPart(loops, lo, hi, first) => Blocks(P, C, loops, lo, hi, first)
    case InitPart(first) => if first then InitSpec(P) else []
    case GoalPart(H) => GoalOutput(P, C, H).asserted
  }

  ghost function Appends(P: Problem, C: Cascade): Relation {
    (part: Part, before: seq<Formula>, after: seq<Formula>) =>
      PartInProblem(P, part) && after == before + PartFormulas(P, C, part)
  }

  ghost predicate IsAppends(P: Problem, C: Cascade, made: Relation) {
    forall key {:trigger Opened(key)} | Opened(key) && key == PartKey :: made == Appends(P, C)
  }

  function EffectKind(e: Visit): Kind {
    KindOf(e.state, e.effTime)
  }

  /** The operator or timed literal whose effects are visited. */
  function Who(e: Visit): nat {
    if e.state == TilEffect then e.tilID else e.opID
  }

  lemma Make(P: Problem, C: Cascade, made: Relation, part: Part, before: seq<Formula>, after: seq<Formula>, fs: seq<Formula>)
    requires IsAppends(P, C, made) && PartInProblem(P, part) && fs == PartFormulas(P, C, part) && after == before + fs
    ensures made(part, before, after)
  {
    assert Opened(PartKey);
  }

  lemma TilFormulas(P: Problem, C: Cascade, made: Relation, k: nat, e: Visit, before: seq<Formula>, after: seq<Formula>)
    requires IsAppends(P, C, made) && k < |P.tils| && forall a | a in P.tils[k].eff.assigns :: WfExpr(P, a.rhs, false)
    requires e.state == TilEffect && e.tilID == k && e.b == 0
    requires after == before + EffectFormulas(C, P.tils[k].eff, EffectKind(e), Who(e), e.opID, e.h, e.b)
    ensures made(TilEffectsPart(k, e.h), before, after)
  {
    AssignFormulasOfTil(P, C, P.tils[k].eff.assigns, k, e.opID, e.h);
    Make(P, C, made, TilEffectsPart(k, e.h), before, after, EffectFormulas(C, P.tils[k].eff, TilKind, k, e.opID, e.h, 0));
  }

  ghost predicate Same(before: map<(Role, nat), seq<nat>>, after: map<(Role, nat), seq<nat>>) {
    forall key {:trigger Opened(key)} | Opened(key) && key == GrownKey :: forall role, id :: ListOf(after, role, id) == ListOf(before, role, id)
  }

  lemma ListsKept(P: Problem, before: map<(Role, nat), seq<nat>>, after: map<(Role, nat), seq<nat>>, n: nat, k: nat)
    requires ListsHold(P, before, n, k) && Same(before, after)
    ensures ListsHold(P, after, n, k)
  {
    forall role, id
      ensures ListOf(after, role, id) == ExpectedList(P, role, id, n, k)
    {
      assert Opened(ListsKey) && Opened(GrownKey);
      assert ListOf(after, role, id) == ListOf(before, role, id);
    }
  }

  lemma TilListsAfter(P: Problem, before: map<(Role, nat), seq<nat>>, after: map<(Role, nat), seq<nat>>, n: nat, k: nat,
                      full: nat, recorded: bool)
    requires k < |P.tils| && ListsHold(P, before, n, if recorded then k else full) && (recorded ==> full == k + 1)
    requires if recorded then Grown(before, after, P.tils[k].eff, TilKind, k) else Same(before, after)
    ensures ListsHold(P, after, n, full)
  {
    if recorded {
      TilListsGrow(P, before, after, n, k);
    } else {
      ListsKept(P, before, after, n, full);
    }
  }

  lemma StartConditionIs(P: Problem, C: Cascade, ctx: Context, negated: bool, lit: nat, required: Formula,
                         clauses: seq<Formula>, fs: seq<Formula>)
    requires fs == [required] + clauses && ctx.seen <= |P.ops|
    requires required == Implies(Bool(Start(ctx.op, ctx.h)), Signed(negated, Lit(lit, ctx.h, C - 2)))
    requires clauses == MutexClauses(OpUsers(P, if negated then StartAdd else StartDel, lit, ctx.seen), ctx.op, ctx.h)
    ensures fs == StartCondition(P, C, ctx, negated, lit)
  {
  }

  lemma MustStep(current: seq<Term>, previous: seq<Term>, fs: seq<Formula>)
    requires |current| == |previous| > 0
    ensures
      var last := |current| - 1;
      fs + MustConstraints(current, previous) ==
      fs + [Le(Const(0.0), Prod(current[last], previous[last]))] + MustConstraints(current[..last], previous[..last])
  {
  }

  lemma ComparisonIs(ctx: Context, op: CompOp, lhs: Expr, rhs: Expr, l: Term, r: Term)
    requires l == TermOf(lhs, ctx.op, ctx.h, ctx.b) && r == TermOf(rhs, ctx.op, ctx.h, ctx.b)
    ensures CompareOutput(ctx, CompareTerms(op, l, r), l, r) == EmitComparison(ctx, op, lhs, rhs)
  {
  }

  /** The visit went to another state and time, but the operator and the place are the same. */
  predicate OnlyScratch(before: Visit, after: Visit) {
    after.opID == before.opID && after.tilID == before.tilID && after.h == before.h && after.b == before.b &&
    after.condNeg == before.condNeg
  }

  /** Conditions of actions only assert; those of events and processes only fill the stacks. */
  lemma {:induction false} OnlyAsserts(P: Problem, C: Cascade, ctx: Context, atoms: seq<Atom>)
    requires ctx.seen <= |P.ops|
    ensures
      var out := EmitAll(P, C, ctx, atoms);
      && (ctx.mode != GoalMode ==> out.goals == [])
      && (ctx.mode == TriggerMode ==> out.asserted == [])
  {
    if atoms != [] {
      OnlyAsserts(P, C, ctx, atoms[1..]);
      var head := Emit(P, C, ctx, atoms[0]);
      assert ctx.mode != GoalMode ==> head.goals == [];
      assert ctx.mode == TriggerMode ==> head.asserted == [];
    }
  }

  lemma ConditionMade(P: Problem, C: Cascade, made: Relation, ctx: Context, g: Goal, before: seq<Formula>, after: seq<Formula>,
                      goals: seq<Formula>, goalsAfter: seq<Formula>)
    requires IsAppends(P, C, made) && ctx.seen <= |P.ops| && ctx.mode != GoalMode
    requires after == before + EmitAll(P, C, ctx, Atoms(g)).asserted
    requires goalsAfter == goals + EmitAll(P, C, ctx, Atoms(g)).goals
    ensures made(ConditionPart(ctx, g), before, after) && goalsAfter == goals
  {
    OnlyAsserts(P, C, ctx, Atoms(g));
    Make(P, C, made, ConditionPart(ctx, g), before, after, EmitAll(P, C, ctx, Atoms(g)).asserted);
  }

  lemma EffectsMade(P: Problem, C: Cascade, made: Relation, effects: Effects, e: Visit, before: seq<Formula>, after: seq<Formula>)
    requires IsAppends(P, C, made) && (e.state == ActionEffect || e.state == SimpleActionEffect)
    requires after == before + EffectFormulas(C, effects, EffectKind(e), Who(e), e.opID, e.h, e.b)
    ensures made(EffectsPart(effects, TriggerOf(EffectKind(e), e.opID, e.h, 0), e.opID, e.h), before, after)
  {
    AssignFormulasOfAction(C, effects.assigns, EffectKind(e), e.opID, e.h);
    Make(P, C, made, EffectsPart(effects, TriggerOf(EffectKind(e), e.opID, e.h, 0), e.opID, e.h), before, after,
         EffectFormulas(C, effects, EffectKind(e), Who(e), e.opID, e.h, e.b));
  }

  lemma DurativeListsAfter(P: Problem, before: map<(Role, nat), seq<nat>>, middle: map<(Role, nat), seq<nat>>,
                           after: map<(Role, nat), seq<nat>>, i: nat, seen: nat, recorded: bool)
    requires IsDurative(P, i) && ListsHold(P, before, if recorded then i else seen, |P.tils|) && (recorded ==> seen == i + 1)
    requires if recorded then Grown(before, middle, P.ops[i].start, StartKind, i) else Same(before, middle)
    requires if recorded then Grown(middle, after, P.ops[i].end, EndKind, i) else Same(middle, after)
    ensures ListsHold(P, after, seen, |P.tils|)
  {
    if recorded {
      DurativeListsGrow(P, before, middle, after, i, |P.tils|);
    } else {
      ListsKept(P, before, middle, seen, |P.tils|);
      ListsKept(P, middle, after, seen, |P.tils|);
    }
  }

  lemma InstantListsAfter(P: Problem, before: map<(Role, nat), seq<nat>>, after: map<(Role, nat), seq<nat>>, i: nat, seen: nat,
                          recorded: bool)
    requires i < |P.ops| && P.ops[i].Instant?
    requires ListsHold(P, before, if recorded then i else seen, |P.tils|) && (recorded ==> seen == i + 1)
    requires if recorded then Grown(before, after, P.ops[i].eff, StartKind, i) else Same(before, after)
    ensures ListsHold(P, after, seen, |P.tils|)
  {
    if recorded {
      InstantListsGrow(P, before, after, i, |P.tils|);
    } else {
      ListsKept(P, before, after, seen, |P.tils|);
    }
  }

  lemma EventListsAfter(P: Problem, before: map<(Role, nat), seq<nat>>, after: map<(Role, nat), seq<nat>>, i: nat, seen: nat,
                        recorded: bool)
    requires i < |P.ops| && P.ops[i].Event?
    requires ListsHold(P, before, if recorded then i else seen, |P.tils|) && (recorded ==> seen == i + 1)
    requires if recorded then Grown(before, after, P.ops[i].eff, EventKind, i) else before == after
    ensures ListsHold(P, after, seen, |P.tils|)
  {
    if recorded {
      EventListsGrow(P, before, after, i, |P.tils|);
    }
  }

  /** The operators in the effect lists once the effects of operator i have been visited. */
  function SeenAt(P: Problem, i: nat, first: bool): nat {
    if first then i + 1 else |P.ops|
  }

  lemma ProcessListsAfter(P: Problem, lists: map<(Role, nat), seq<nat>>, i: nat, seen: nat, first: bool)
    requires i < |P.ops| && P.ops[i].Process? && seen == SeenAt(P, i, first)
    requires ListsHold(P, lists, if first then i else seen, |P.tils|)
    ensures ListsHold(P, lists, seen, |P.tils|)
  {
    if first {
      ProcessListsGrow(P, lists, i, |P.tils|);
    }
  }

  predicate SameOp(before: Vectors, after: Vectors, j: nat) {
    && Vec(after.sta, j) == Vec(before.sta, j)
    && Vec(after.run, j) == Vec(before.run, j)
    && Vec(after.end, j) == Vec(before.end, j)
    && Vec(after.dur, j) == Vec(before.dur, j)
    && Vec(after.event, j) == Vec(before.event, j)
  }

  /** Only the variables of one operator have changed. */
  ghost predicate OnlyOp(before: Vectors, after: Vectors, i: nat) {
    forall key {:trigger Opened(key)} | Opened(key) && key == OnlyKey ::
      && after == before.(sta := after.sta, run := after.run, end := after.end, dur := after.dur, event := after.event)
      && forall j | j != i :: SameOp(before, after, j)
  }

  lemma OnlyOpStill(vars0: Vectors, v: Vectors, after: Vectors, i: nat)
    requires OnlyOp(vars0, v, i)
    requires after == v.(sta := after.sta, run := after.run, end := after.end, dur := after.dur)
    requires forall j | j != i :: SameOp(v, after, j)
    ensures OnlyOp(vars0, after, i)
  {
    assert Opened(OnlyKey);
    forall j | j != i
      ensures SameOp(vars0, after, j)
    {
      assert SameOp(vars0, v, j) && SameOp(v, after, j);
    }
  }

  lemma NewOpRow(P: Problem, C: Cascade, vars0: Vectors, v: Vectors, after: Vectors, i: nat, h: nat, n: nat)
    requires i < |P.ops| && !P.ops[i].Event? && OpReady(P, C, v, i, h) && ValuesReady(P, C, v, n) && OnlyOp(vars0, v, i)
    requires after.sta == v.sta[i := Vec(v.sta, i) + [Bool(Start(i, h))]]
    requires after.dur == v.dur[i := Vec(v.dur, i) + [Var(Remaining(i, h))]]
    requires Runs(P, i) ==> after.end == v.end[i := Vec(v.end, i) + [Bool(End(i, h))]]
    requires Runs(P, i) ==> after.run == v.run[i := Vec(v.run, i) + [Bool(Running(i, h))]]
    requires !Runs(P, i) ==> after.end == v.end && after.run == v.run
    requires after == v.(sta := after.sta, run := after.run, end := after.end, dur := after.dur)
    ensures OnlyOp(vars0, after, i) && OpReady(P, C, after, i, h + 1) && ValuesReady(P, C, after, n)
  {
    assert ValuesReady(P, C, after, n) by {
      assert Opened(ValuesKey);
    }
    assert OpReady(P, C, after, i, h + 1) by {
      assert Opened(OpKey);
    }
    OnlyOpStill(vars0, v, after, i);
  }

  lemma NewEventRow(P: Problem, C: Cascade, vars0: Vectors, v: Vectors, after: Vectors, i: nat, h: nat, n: nat,
                    layers: seq<Formula>)
    requires i < |P.ops| && P.ops[i].Event? && OpReady(P, C, v, i, h) && ValuesReady(P, C, v, n) && OnlyOp(vars0, v, i)
    requires FiredLayers(layers, i, h, C - 1) && after == v.(event := v.event[i := Vec(v.event, i) + [layers]])
    ensures OnlyOp(vars0, after, i) && OpReady(P, C, after, i, h + 1) && ValuesReady(P, C, after, n)
  {
    assert Opened(OpKey) && Opened(ValuesKey) && Opened(OnlyKey);
    forall j | j != i
      ensures SameOp(vars0, after, j)
    {
      assert SameOp(vars0, v, j);
    }
  }

  lemma TriggerVisited(P: Problem, C: Cascade, ctx: Context, g: Goal, i: nat, before: seq<Formula>, goals: seq<Formula>,
                       written: Output)
    requires ctx == Context(TriggerMode, i, ctx.h, ctx.b, AtStart, 0)
    requires written == Join(Output(before, goals, [], []), EmitAll(P, C, ctx, Atoms(g)))
    ensures written.asserted == before && written.goals == goals
    ensures written.conds == TriggerOutput(P, C, g, i, ctx.h, ctx.b).conds
    ensures written.musts == TriggerOutput(P, C, g, i, ctx.h, ctx.b).musts
  {
    OnlyAsserts(P, C, ctx, Atoms(g));
  }

  lemma {:induction false} SameMustsOf(P: Problem, C: Cascade, i: nat, h: nat, b: nat, h': nat, b': nat, atoms: seq<Atom>)
    ensures |EmitAll(P, C, Context(TriggerMode, i, h, b, AtStart, 0), atoms).musts| ==
            |EmitAll(P, C, Context(TriggerMode, i, h', b', AtStart, 0), atoms).musts|
  {
    if atoms != [] {
      SameMustsOf(P, C, i, h, b, h', b', atoms[1..]);
      var ctx, ctx' := Context(TriggerMode, i, h, b, AtStart, 0), Context(TriggerMode, i, h', b', AtStart, 0);
      assert |Emit(P, C, ctx, atoms[0]).musts| == |Emit(P, C, ctx', atoms[0]).musts|;
    }
  }

  /** Two visits of one condition push equally many terms. */
  lemma SameMusts(P: Problem, C: Cascade, g: Goal, i: nat, h: nat, b: nat, h': nat, b': nat)
    ensures |TriggerOutput(P, C, g, i, h, b).musts| == |TriggerOutput(P, C, g, i, h', b').musts|
  {
    SameMustsOf(P, C, i, h, b, h', b', Atoms(g));
  }

  lemma LayerMakes(P: Problem, C: Cascade, made: Relation, loop: Loop, h: nat, first: bool, before: seq<Formula>,
                   after: seq<Formula>, fs: seq<Formula>)
    requires IsAppends(P, C, made) && InProblem(P, loop) && after == before + fs && fs == At(P, C, loop, h, first)
    ensures made(LayerPart(loop, h, first), before, after)
  {
    Make(P, C, made, LayerPart(loop, h, first), before, after, fs);
  }

  lemma LiteralLayerIs(P: Problem, C: Cascade, l: nat, h: nat, first: bool)
    requires l < P.lits
    ensures At(P, C, LitSupport(l), h, first) == LitAt(P, C, l, h)
  {
    var loop := LitSupport(l);
    assert !loop.OpBody? && !loop.TilLoop?;
  }

  /** A place of the right kind for the members of the list. */
  predicate TriggerFits(C: Cascade, role: Role, t: Trigger, n: nat) {
    match t
    case Starts(h) => h < n && role in {StartAdd, StartDel, StartAssign}
    case Ends(h) => h < n && role in {EndAdd, EndDel, EndAssign}
    case Fires(h, b) => h < n && b < C - 1 && role in {EventAdd, EventDel}
    case TilFires(h) => h < n && TilRole(role)
  }

  predicate UserFits(P: Problem, role: Role, who: nat) {
    if TilRole(role) then who < |P.tils|
    else
      && who < |P.ops|
      && (role in {StartAdd, StartDel, StartAssign} ==> !P.ops[who].Event?)
      && (role in {EndAdd, EndDel, EndAssign} ==> P.ops[who].Durative?)
      && (role in {EventAdd, EventDel} ==> P.ops[who].Event?)
  }

  lemma UserInList(P: Problem, role: Role, id: nat, who: nat)
    requires who in Users(P, role, id)
    ensures UserFits(P, role, who)
  {
    if TilRole(role) {
      TilUsersInRange(P, role, id, |P.tils|, who);
    } else {
      UsersInRange(P, role, id, |P.ops|, who);
    }
  }

  lemma UsersFit(P: Problem, lists: map<(Role, nat), seq<nat>>, role: Role, id: nat)
    requires ListsHold(P, lists, |P.ops|, |P.tils|)
    ensures ListOf(lists, role, id) == Users(P, role, id)
    ensures forall k | 0 <= k < |ListOf(lists, role, id)| :: UserFits(P, role, ListOf(lists, role, id)[k])
  {
    assert ListOf(lists, role, id) == Users(P, role, id) by {
      assert Opened(ListsKey);
    }
    forall k | 0 <= k < |ListOf(lists, role, id)|
      ensures UserFits(P, role, ListOf(lists, role, id)[k])
    {
      UserInList(P, role, id, ListOf(lists, role, id)[k]);
    }
  }

  predicate FactorsFit(P: Problem, factors: seq<Factor>) {
    forall a | a in factors :: a.sym.Function? ==> a.sym.fn < P.fns
  }

  predicate FlowFits(P: Problem, f: Flow) {
    (forall o | o in f.operators :: o != 0 && Runs(P, OpOf(o))) && forall m | m in f.poly :: FactorsFit(P, m.factors)
  }

  lemma FlowsFit(P: Problem, fn: nat)
    requires ProblemFits(P) && fn < |P.flows|
    ensures forall k | 0 <= k < |P.flows[fn]| :: FlowFits(P, P.flows[fn][k])
  {
    assert Opened(ProblemKey);
    forall k | 0 <= k < |P.flows[fn]|
      ensures FlowFits(P, P.flows[fn][k])
    {
      assert P.flows[fn][k] in P.flows[fn];
      assert WfFlow(P, P.flows[fn][k]);
    }
  }

  lemma SealProblem(P: Problem)
    requires WellFormed(P)
    ensures ProblemFits(P) && P.fns == |P.flows|
  {
  }

  // ----- Families -----

  /** The loops of the first n members of a family. */
  function FamilyPart(family: Family, n: nat, lo: nat, hi: nat, first: bool): Part {
    LoopsPart(LoopsUpTo(family, n), lo, hi, first)
  }

  lemma NoFamily(P: Problem, C: Cascade, made: Relation, family: Family, lo: nat, hi: nat, first: bool, s: seq<Formula>)
    requires IsAppends(P, C, made)
    ensures made(FamilyPart(family, 0, lo, hi, first), s, s)
  {
    Make(P, C, made, FamilyPart(family, 0, lo, hi, first), s, s, []);
  }

  lemma BlocksSnoc(P: Problem, C: Cascade, loops: seq<Loop>, loop: Loop, lo: nat, hi: nat, first: bool)
    requires AllInProblem(P, loops) && InProblem(P, loop)
    ensures AllInProblem(P, loops + [loop])
    ensures Blocks(P, C, loops + [loop], lo, hi, first) ==
            Blocks(P, C, loops, lo, hi, first) + Block(BodyOf(P, C, loop, first), lo, hi)
  {
    assert (loops + [loop])[..|loops|] == loops;
  }

  lemma LoopsMade(P: Problem, C: Cascade, made: Relation, loops: seq<Loop>, lo: nat, hi: nat, first: bool,
                  s0: seq<Formula>, s1: seq<Formula>)
    requires IsAppends(P, C, made) && AllInProblem(P, loops)
    ensures made(LoopsPart(loops, lo, hi, first), s0, s1) <==> s1 == s0 + Blocks(P, C, loops, lo, hi, first)
  {
    assert Opened(PartKey);
  }

  lemma AppendTwice(s0: seq<Formula>, s1: seq<Formula>, s2: seq<Formula>, a: seq<Formula>, b: seq<Formula>)
    requires s1 == s0 + a && s2 == s1 + b
    ensures s2 == s0 + (a + b)
  {
  }

  lemma AppendLoop(P: Problem, C: Cascade, loops: seq<Loop>, loop: Loop, lo: nat, hi: nat, first: bool, s0: seq<Formula>,
                   s1: seq<Formula>, s2: seq<Formula>)
    requires AllInProblem(P, loops) && InProblem(P, loop)
    requires s1 == s0 + Blocks(P, C, loops, lo, hi, first) && s2 == s1 + Block(BodyOf(P, C, loop, first), lo, hi)
    ensures AllInProblem(P, loops + [loop]) && s2 == s0 + Blocks(P, C, loops + [loop], lo, hi, first)
  {
    AppendTwice(s0, s1, s2, Blocks(P, C, loops, lo, hi, first), Block(BodyOf(P, C, loop, first), lo, hi));
    BlocksSnoc(P, C, loops, loop, lo, hi, first);
  }

  lemma LoopMade(P: Problem, C: Cascade, made: Relation, loop: Loop, lo: nat, hi: nat, first: bool, s0: seq<Formula>, s1: seq<Formula>)
    requires IsAppends(P, C, made) && InProblem(P, loop)
    ensures made(LoopPart(loop, lo, hi, first), s0, s1) <==> s1 == s0 + Block(BodyOf(P, C, loop, first), lo, hi)
  {
    assert Opened(PartKey);
  }

  lemma OneLoop(P: Problem, C: Cascade, made: Relation, loops: seq<Loop>, loop: Loop, lo: nat, hi: nat, first: bool,
                s0: seq<Formula>, s1: seq<Formula>, s2: seq<Formula>)
    requires IsAppends(P, C, made) && AllInProblem(P, loops) && InProblem(P, loop)
    requires made(LoopsPart(loops, lo, hi, first), s0, s1) && made(LoopPart(loop, lo, hi, first), s1, s2)
    ensures AllInProblem(P, loops + [loop]) && made(LoopsPart(loops + [loop], lo, hi, first), s0, s2)
  {
    AppendLoop(P, C, loops, loop, lo, hi, first, s0, s1, s2) by {
      LoopsMade(P, C, made, loops, lo, hi, first, s0, s1);
      LoopMade(P, C, made, loop, lo, hi, first, s1, s2);
    }
    LoopsMade(P, C, made, loops + [loop], lo, hi, first, s0, s2);
  }

  lemma LoopsStep(family: Family, k: nat, loop: Loop)
    requires LoopsOf(family, k) == [loop]
    ensures LoopsUpTo(family, k + 1) == LoopsUpTo(family, k) + [loop]
  {
  }

  lemma OneMember(P: Problem, C: Cascade, made: Relation, family: Family, loop: Loop, k: nat, lo: nat, hi: nat, first: bool,
                  s0: seq<Formula>, s1: seq<Formula>, s2: seq<Formula>)
    requires IsAppends(P, C, made) && k < SizeOf(P, family) && LoopsOf(family, k) == [loop] && InProblem(P, loop)
    requires made(FamilyPart(family, k, lo, hi, first), s0, s1) && made(LoopPart(loop, lo, hi, first), s1, s2)
    ensures made(FamilyPart(family, k + 1, lo, hi, first), s0, s2)
  {
    LoopsInProblem(P, family, k);
    LoopsStep(family, k, loop);
    OneLoop(P, C, made, LoopsUpTo(family, k), loop, lo, hi, first, s0, s1, s2);
  }

  lemma OneFunction(P: Problem, C: Cascade, made: Relation, fn: nat, lo: nat, hi: nat, first: bool, s0: seq<Formula>,
                    s1: seq<Formula>, s2: seq<Formula>, s3: seq<Formula>)
    requires IsAppends(P, C, made) && fn < |P.flows|
    requires made(FamilyPart(FnFamily, fn, lo, hi, first), s0, s1)
    requires made(LoopPart(FnSupports(fn), lo, hi, first), s1, s2) && made(LoopPart(FnFlows(fn), lo, hi, first), s2, s3)
    ensures made(FamilyPart(FnFamily, fn + 1, lo, hi, first), s0, s3)
  {
    var loops := LoopsUpTo(FnFamily, fn);
    LoopsInProblem(P, FnFamily, fn);
    OneLoop(P, C, made, loops, FnSupports(fn), lo, hi, first, s0, s1, s2);
    OneLoop(P, C, made, loops + [FnSupports(fn)], FnFlows(fn), lo, hi, first, s0, s2, s3);
    assert LoopsUpTo(FnFamily, fn + 1) == loops + [FnSupports(fn)] + [FnFlows(fn)];
  }

  lemma AppendFour(s0: seq<Formula>, s1: seq<Formula>, s2: seq<Formula>, s3: seq<Formula>, s4: seq<Formula>,
                   a: seq<Formula>, b: seq<Formula>, c: seq<Formula>, d: seq<Formula>)
    requires s1 == s0 + a && s2 == s1 + b && s3 == s2 + c && s4 == s3 + d
    ensures s4 == s0 + (a + b + c + d)
  {
    AppendTwice(s0, s1, s2, a, b);
    AppendTwice(s0, s2, s3, a + b, c);
    AppendTwice(s0, s3, s4, a + b + c, d);
  }

  function KnownFormulas(P: Problem, C: Cascade, lo: nat, H: nat): seq<Formula>
    requires H > 0
  {
    Block(BodyOf(P, C, Timings, lo == 0), lo, H) + FamilyBlocks(P, C, TilFamily, lo, H, lo == 0) +
    (if lo == 0 then InitSpec(P) else []) + GoalOutput(P, C, H).asserted
  }

  function OpFormulas(P: Problem, C: Cascade, lo: nat, H: nat): seq<Formula> {
    FamilyBlocks(P, C, OpVarsFamily, lo, H, lo == 0) + FamilyBlocks(P, C, OpBodyFamily, lo, H, lo == 0) +
    FamilyBlocks(P, C, LitFamily, lo, H, lo == 0) + FamilyBlocks(P, C, FnFamily, lo, H, lo == 0)
  }

  lemma SpecHalves(P: Problem, C: Cascade, lo: nat, H: nat)
    requires H > 0
    ensures EncodeSpec(P, C, lo, H) == KnownFormulas(P, C, lo, H) + OpFormulas(P, C, lo, H)
  {
    var first := lo == 0;
    var a := Block(BodyOf(P, C, Timings, first), lo, H) + FamilyBlocks(P, C, TilFamily, lo, H, first) +
             (if first then InitSpec(P) else []) + GoalOutput(P, C, H).asserted;
    var b, c := FamilyBlocks(P, C, OpVarsFamily, lo, H, first), FamilyBlocks(P, C, OpBodyFamily, lo, H, first);
    var d, e := FamilyBlocks(P, C, LitFamily, lo, H, first), FamilyBlocks(P, C, FnFamily, lo, H, first);
    AppendFour(a, a + b, a + b + c, a + b + c + d, a + b + c + d + e, b, c, d, e);
  }

  lemma WholeFamily(P: Problem, C: Cascade, made: Relation, family: Family, lo: nat, hi: nat, first: bool,
                    s0: seq<Formula>, s1: seq<Formula>)
    requires IsAppends(P, C, made) && made(FamilyPart(family, SizeOf(P, family), lo, hi, first), s0, s1)
    ensures s1 == s0 + FamilyBlocks(P, C, family, lo, hi, first)
  {
    LoopsInProblem(P, family, SizeOf(P, family));
    LoopsMade(P, C, made, LoopsUpTo(family, SizeOf(P, family)), lo, hi, first, s0, s1);
  }

  lemma NothingRunsStep(P: Problem, i: nat, H: nat, goals: seq<Formula>, before: seq<Formula>, after: seq<Formula>)
    requires i < |P.ops| && H > 0 && before == goals + NothingRuns(P, i, H)
    requires after == before + (if P.ops[i].Durative? then [Not(Bool(Running(i, H - 1)))] else [])
    ensures after == goals + NothingRuns(P, i + 1, H)
  {
    AppendTwice(goals, before, after, NothingRuns(P, i, H), if P.ops[i].Durative? then [Not(Bool(Running(i, H - 1)))] else []);
  }

  lemma Made(P: Problem, C: Cascade, made: Relation, part: Part, before: seq<Formula>, after: seq<Formula>)
    requires IsAppends(P, C, made) && made(part, before, after)
    ensures PartInProblem(P, part) && after == before + PartFormulas(P, C, part)
  {
    assert Opened(PartKey);
  }

  lemma KnownMakes(P: Problem, C: Cascade, made: Relation, lo: nat, H: nat, s0: seq<Formula>, s1: seq<Formula>,
                   s2: seq<Formula>, s3: seq<Formula>, s4: seq<Formula>)
    requires IsAppends(P, C, made) && H > 0
    requires made(LoopPart(Timings, lo, H, lo == 0), s0, s1)
    requires made(FamilyPart(TilFamily, |P.tils|, lo, H, lo == 0), s1, s2)
    requires made(InitPart(lo == 0), s2, s3) && made(GoalPart(H), s3, s4)
    ensures s4 == s0 + KnownFormulas(P, C, lo, H)
  {
    var init := if lo == 0 then InitSpec(P) else [];
    AppendFour(s0, s1, s2, s3, s4, Block(BodyOf(P, C, Timings, lo == 0), lo, H), FamilyBlocks(P, C, TilFamily, lo, H, lo == 0),
               init, GoalOutput(P, C, H).asserted) by {
      LoopMade(P, C, made, Timings, lo, H, lo == 0, s0, s1);
      WholeFamily(P, C, made, TilFamily, lo, H, lo == 0, s1, s2);
      Made(P, C, made, InitPart(lo == 0), s2, s3);
      Made(P, C, made, GoalPart(H), s3, s4);
    }
  }

  lemma OpsMake(P: Problem, C: Cascade, made: Relation, lo: nat, H: nat, s0: seq<Formula>, s1: seq<Formula>,
                s2: seq<Formula>, s3: seq<Formula>, s4: seq<Formula>)
    requires IsAppends(P, C, made)
    requires made(FamilyPart(OpVarsFamily, |P.ops|, lo, H, lo == 0), s0, s1)
    requires made(FamilyPart(OpBodyFamily, |P.ops|, lo, H, lo == 0), s1, s2)
    requires made(FamilyPart(LitFamily, P.lits, lo, H, lo == 0), s2, s3)
    requires made(FamilyPart(FnFamily, |P.flows|, lo, H, lo == 0), s3, s4)
    ensures s4 == s0 + OpFormulas(P, C, lo, H)
  {
    var first := lo == 0;
    var a, b := FamilyBlocks(P, C, OpVarsFamily, lo, H, first), FamilyBlocks(P, C, OpBodyFamily, lo, H, first);
    var c, d := FamilyBlocks(P, C, LitFamily, lo, H, first), FamilyBlocks(P, C, FnFamily, lo, H, first);
    assert s1 == s0 + a by {
      WholeFamily(P, C, made, OpVarsFamily, lo, H, first, s0, s1);
    }
    assert s2 == s1 + b by {
      WholeFamily(P, C, made, OpBodyFamily, lo, H, first, s1, s2);
    }
    assert s3 == s2 + c by {
      WholeFamily(P, C, made, LitFamily, lo, H, first, s2, s3);
    }
    assert s4 == s3 + d by {
      WholeFamily(P, C, made, FnFamily, lo, H, first, s3, s4);
    }
    AppendFour(s0, s1, s2, s3, s4, a, b, c, d);
  }

  /** The two halves of a call append what the specification lists. */
  lemma EncodeMakes(P: Problem, C: Cascade, lo: nat, H: nat, s0: seq<Formula>, s1: seq<Formula>, s2: seq<Formula>)
    requires H > 0 && s1 == s0 + KnownFormulas(P, C, lo, H) && s2 == s1 + OpFormulas(P, C, lo, H)
    ensures s2 == s0 + EncodeSpec(P, C, lo, H)
  {
    AppendTwice(s0, s1, s2, KnownFormulas(P, C, lo, H), OpFormulas(P, C, lo, H));
    SpecHalves(P, C, lo, H);
  }

  // ----- What stays of the vectors -----

  predicate SameOpVars(before: Vectors, after: Vectors) {
    after.sta == before.sta && after.run == before.run && after.end == before.end && after.dur == before.dur &&
    after.event == before.event
  }

  lemma OpsKept(P: Problem, C: Cascade, before: Vectors, after: Vectors, n: nat)
    requires OpsReady(P, C, before, 0, |P.ops|, n) && SameOpVars(before, after)
    ensures OpsReady(P, C, after, 0, |P.ops|, n)
  {
    forall i | 0 <= i < |P.ops|
      ensures OpReady(P, C, after, i, n)
    {
      assert OpReady(P, C, before, i, n);
      assert Opened(OpKey);
    }
  }

  lemma TilsKept(P: Problem, before: Vectors, after: Vectors, n: nat)
    requires TilsReady(before, 0, |P.tils|, n) && before.til == after.til
    ensures TilsReady(after, 0, |P.tils|, n)
  {
    forall k | 0 <= k < |P.tils|
      ensures TilReady(after, k, n)
    {
      assert TilReady(before, k, n);
      assert Opened(OpKey);
    }
  }

  lemma HeaderKept(P: Problem, C: Cascade, before: Vectors, after: Vectors, n: nat)
    requires OpsReady(P, C, before, 0, |P.ops|, n) && TilsReady(before, 0, |P.tils|, n)
    requires after == before.(time := after.time, gap := after.gap, literal := after.literal, value := after.value)
    ensures OpsReady(P, C, after, 0, |P.ops|, n) && TilsReady(after, 0, |P.tils|, n) && SameOpVars(before, after)
  {
    OpsKept(P, C, before, after, n);
    TilsKept(P, before, after, n);
  }

  lemma OneMoreTil(P: Problem, before: Vectors, after: Vectors, k: nat, lo: nat, hi: nat)
    requires k < |P.tils| && OnlyTil(before, after, k) && TilReady(after, k, hi)
    requires TilsReady(before, 0, k, hi) && TilsReady(before, k, |P.tils|, lo)
    ensures TilsReady(after, 0, k + 1, hi) && TilsReady(after, k + 1, |P.tils|, lo) && SameOpVars(before, after)
  {
    assert Opened(OnlyKey);
    forall j | 0 <= j < k
      ensures TilReady(after, j, hi)
    {
      assert TilReady(before, j, hi);
      assert Opened(OpKey);
    }
    forall j | k < j < |P.tils|
      ensures TilReady(after, j, lo)
    {
      assert TilReady(before, j, lo);
      assert Opened(OpKey);
    }
  }

  lemma OneMoreOp(P: Problem, C: Cascade, before: Vectors, after: Vectors, i: nat, lo: nat, hi: nat)
    requires i < |P.ops| && OnlyOp(before, after, i) && OpReady(P, C, after, i, hi)
    requires OpsReady(P, C, before, 0, i, hi) && OpsReady(P, C, before, i, |P.ops|, lo)
    ensures OpsReady(P, C, after, 0, i + 1, hi) && OpsReady(P, C, after, i + 1, |P.ops|, lo) && after.til == before.til
  {
    assert Opened(OnlyKey);
    forall j | 0 <= j < i
      ensures OpReady(P, C, after, j, hi)
    {
      assert SameOp(before, after, j) && OpReady(P, C, before, j, hi);
      assert Opened(OpKey);
    }
    forall j | i < j < |P.ops|
      ensures OpReady(P, C, after, j, lo)
    {
      assert SameOp(before, after, j) && OpReady(P, C, before, j, lo);
      assert Opened(OpKey);
    }
  }

  function EventEffectsAt(e: Effects, i: nat, h: nat, b: nat): seq<Formula> {
    LitEffects(e.adds, false, Bool(Fired(i, h, b)), h, b + 1) + LitEffects(e.dels, true, Bool(Fired(i, h, b)), h, b + 1)
  }

  lemma EventFormulas(C: Cascade, e: Effects, i: nat, h: nat, b: nat)
    requires e.assigns == []
    ensures EffectFormulas(C, e, EventKind, i, i, h, b) == EventEffectsAt(e, i, h, b)
  {
  }

  lemma StartUsers(P: Problem, lists: map<(Role, nat), seq<nat>>, role: Role, lit: nat, seen: nat)
    requires ListsHold(P, lists, seen, |P.tils|) && (role == StartAdd || role == StartDel)
    ensures ListOf(lists, role, lit) == OpUsers(P, role, lit, seen)
    ensures forall j | j in ListOf(lists, role, lit) :: j < |P.ops| && !P.ops[j].Event?
  {
    var users := OpUsers(P, role, lit, seen);
    assert ListOf(lists, role, lit) == users by {
      assert Opened(ListsKey);
    }
    forall j | j in users
      ensures j < |P.ops| && !P.ops[j].Event?
    {
      UsersInRange(P, role, lit, seen, j);
    }
  }

  /** Joining an output that fills some of the four lists. */
  lemma JoinParts(x: Output, asserted: seq<Formula>, goals: seq<Formula>, conds: seq<Formula>, musts: seq<Term>)
    ensures Join(x, Nothing) == x
    ensures Join(x, Nothing.(asserted := asserted)) == x.(asserted := x.asserted + asserted)
    ensures Join(x, Nothing.(goals := goals)) == x.(goals := x.goals + goals)
    ensures Join(x, Nothing.(conds := conds)) == x.(conds := x.conds + conds)
    ensures Join(x, Nothing.(asserted := asserted, goals := goals)) ==
            x.(asserted := x.asserted + asserted, goals := x.goals + goals)
    ensures Join(x, Nothing.(conds := conds, musts := musts)) == x.(conds := x.conds + conds, musts := x.musts + musts)
  {
  }

  /** The state fits an effect visit. A timed literal has its variable up to this happening. */
  ghost predicate EffectReady(P: Problem, C: Cascade, v: Vectors, n: nat, e: Visit, durationOk: bool) {
    var readable := ValuesReady(P, C, v, n) && e.h < n && e.b < C && VisitsEffects(e.state, e.effTime);
    var vectors :=
      if e.state == TilEffect then TilReady(v, e.tilID, e.h + 1) else e.opID < |P.ops| && OpReady(P, C, v, e.opID, n);
    var fits :=
      && (e.state == EventEffect ==> e.opID < |P.ops| && P.ops[e.opID].Event? && e.b < C - 1)
      && (e.state == ActionEffect ==> IsDurative(P, e.opID) && e.b == C - 2)
      && (e.state == SimpleActionEffect ==> e.opID < |P.ops| && P.ops[e.opID].Instant? && e.b == C - 2)
      && (e.state == TilEffect ==> e.b == 0)
      && (durationOk ==> e.state == ActionEffect);
    var ready := readable && vectors && fits;
    ready
  }

  /** The lists are filled on the first happening, and for events on its first layer. */
  predicate Recording(e: Visit) {
    e.h == 0 && (e.state == EventEffect ==> e.b == 0)
  }

  /** After who has been recorded once for each of the ids. */
  ghost predicate GrownBy(before: map<(Role, nat), seq<nat>>, after: map<(Role, nat), seq<nat>>, r: Role, ids: seq<nat>, who: nat) {
    forall key {:trigger Opened(key)} | Opened(key) && key == GrownKey ::
      forall role, id ::
        ListOf(after, role, id) == ListOf(before, role, id) + (if role == r then Mentions(ids, id, who) else [])
  }

  lemma {:induction false} MentionsConcat(a: seq<nat>, b: seq<nat>, id: nat, who: nat)
    ensures Mentions(a + b, id, who) == Mentions(a, id, who) + Mentions(b, id, who)
  {
    if b == [] {
      assert a + b == a;
    } else {
      var last := |b| - 1;
      MentionsConcat(a, b[..last], id, who);
      MentionsSnoc(a + b[..last], b[last], id, who);
      assert a + b == a + b[..last] + [b[last]];
    }
  }

  lemma TwiceAt(x: seq<nat>, y: seq<nat>, z: seq<nat>, grows: bool, a: seq<nat>, b: seq<nat>, id: nat, who: nat)
    requires y == x + (if grows then Mentions(a, id, who) else [])
    requires z == y + (if grows then Mentions(b, id, who) else [])
    ensures z == x + (if grows then Mentions(a + b, id, who) else [])
  {
    MentionsConcat(a, b, id, who);
  }

  lemma GrownTwice(x: map<(Role, nat), seq<nat>>, y: map<(Role, nat), seq<nat>>, z: map<(Role, nat), seq<nat>>,
                   r: Role, a: seq<nat>, b: seq<nat>, who: nat)
    requires GrownBy(x, y, r, a, who) && GrownBy(y, z, r, b, who)
    ensures GrownBy(x, z, r, a + b, who)
  {
    forall role, id
      ensures ListOf(z, role, id) == ListOf(x, role, id) + (if role == r then Mentions(a + b, id, who) else [])
    {
      assert Opened(GrownKey);
      TwiceAt(ListOf(x, role, id), ListOf(y, role, id), ListOf(z, role, id), role == r, a, b, id, who);
    }
  }

  lemma NoneRecorded(lists: map<(Role, nat), seq<nat>>, r: Role, who: nat)
    ensures GrownBy(lists, lists, r, [], who)
  {
  }

  lemma OneRecorded(lists: map<(Role, nat), seq<nat>>, r: Role, i: nat, who: nat)
    ensures GrownBy(lists, lists[(r, i) := ListOf(lists, r, i) + [who]], r, [i], who)
  {
    var after := lists[(r, i) := ListOf(lists, r, i) + [who]];
    forall role, id
      ensures ListOf(after, role, id) == ListOf(lists, role, id) + (if role == r then Mentions([i], id, who) else [])
    {
      MentionsSnoc([], i, id, who);
      assert [] + [i] == [i];
    }
  }

  lemma GrownAt(l0: seq<nat>, l1: seq<nat>, l2: seq<nat>, l3: seq<nat>, e: Effects, kind: Kind, who: nat, role: Role, id: nat)
    requires l1 == l0 + (if role == LitRole(kind, false) then Mentions(e.adds, id, who) else [])
    requires l2 == l1 + (if role == LitRole(kind, true) then Mentions(e.dels, id, who) else [])
    requires l3 == l2 + (if role == FnRole(kind) then Mentions(AssignedFns(e.assigns), id, who) else [])
    requires kind == EventKind ==> e.assigns == []
    ensures l3 == l0 + Entries(e, kind, role, id, who)
  {
  }

  /** Adds, deletes and assignments together. */
  lemma GrownParts(l0: map<(Role, nat), seq<nat>>, l1: map<(Role, nat), seq<nat>>, l2: map<(Role, nat), seq<nat>>,
                   l3: map<(Role, nat), seq<nat>>, e: Effects, kind: Kind, who: nat)
    requires GrownBy(l0, l1, LitRole(kind, false), e.adds, who)
    requires GrownBy(l1, l2, LitRole(kind, true), e.dels, who)
    requires GrownBy(l2, l3, FnRole(kind), AssignedFns(e.assigns), who)
    requires kind == EventKind ==> e.assigns == []
    ensures Grown(l0, l3, e, kind, who)
  {
    forall role, id
      ensures ListOf(l3, role, id) == ListOf(l0, role, id) + Entries(e, kind, role, id, who)
    {
      assert Opened(GrownKey);
      GrownAt(ListOf(l0, role, id), ListOf(l1, role, id), ListOf(l2, role, id), ListOf(l3, role, id), e, kind, who, role, id);
    }
  }

  // ----- What a visit appends to the solver -----

  lemma NoLayers(P: Problem, C: Cascade, made: Relation, loop: Loop, lo: nat, first: bool, s: seq<Formula>)
    requires IsAppends(P, C, made)
    requires InProblem(P, loop)
    ensures made(LoopPart(loop, lo, lo, first), s, s)
  {
    Make(P, C, made, LoopPart(loop, lo, lo, first), s, s, []);
  }

  predicate Divides(P: Problem, C: Cascade, part: Part, x: Part, y: Part)
    requires PartInProblem(P, part) && PartInProblem(P, x) && PartInProblem(P, y)
  {
    PartFormulas(P, C, part) == PartFormulas(P, C, x) + PartFormulas(P, C, y)
  }

  /** Two visits in a row make up a part whose formulas are those of the two. */
  lemma MakesBoth(P: Problem, C: Cascade, made: Relation, part: Part, x: Part, y: Part, s0: seq<Formula>, s1: seq<Formula>, s2: seq<Formula>)
    requires IsAppends(P, C, made)
    requires made(x, s0, s1) && made(y, s1, s2) && PartInProblem(P, part)
    requires PartInProblem(P, x) && PartInProblem(P, y) ==> Divides(P, C, part, x, y)
    ensures made(part, s0, s2)
  {
    Made(P, C, made, x, s0, s1);
    Made(P, C, made, y, s1, s2);
    var a, b := PartFormulas(P, C, x), PartFormulas(P, C, y);
    AppendTwice(s0, s1, s2, a, b);
    Make(P, C, made, part, s0, s2, a + b);
  }

  lemma BlockStep(body: nat -> seq<Formula>, lo: nat, h: nat)
    requires lo <= h
    ensures Block(body, lo, h + 1) == Block(body, lo, h) + body(h)
  {
  }

  lemma BodyAt(P: Problem, C: Cascade, loop: Loop, first: bool, h: nat)
    requires InProblem(P, loop)
    ensures BodyOf(P, C, loop, first)(h) == At(P, C, loop, h, first)
  {
  }

  lemma AppendLayer(body: nat -> seq<Formula>, lo: nat, h: nat, s0: seq<Formula>, s1: seq<Formula>, s2: seq<Formula>)
    requires lo <= h && s1 == s0 + Block(body, lo, h) && s2 == s1 + body(h)
    ensures s2 == s0 + Block(body, lo, h + 1)
  {
    AppendTwice(s0, s1, s2, Block(body, lo, h), body(h));
    BlockStep(body, lo, h);
  }

  lemma LayerMade(P: Problem, C: Cascade, made: Relation, loop: Loop, h: nat, first: bool, s0: seq<Formula>, s1: seq<Formula>)
    requires IsAppends(P, C, made) && InProblem(P, loop) && made(LayerPart(loop, h, first), s0, s1)
    ensures s1 == s0 + BodyOf(P, C, loop, first)(h)
  {
    Made(P, C, made, LayerPart(loop, h, first), s0, s1);
    BodyAt(P, C, loop, first, h);
  }

  /** One more happening of a loop. */
  lemma OneLayer(P: Problem, C: Cascade, made: Relation, loop: Loop, lo: nat, h: nat, first: bool, s0: seq<Formula>, s1: seq<Formula>, s2: seq<Formula>)
    requires IsAppends(P, C, made) && InProblem(P, loop)
    requires lo <= h && made(LoopPart(loop, lo, h, first), s0, s1) && made(LayerPart(loop, h, first), s1, s2)
    ensures made(LoopPart(loop, lo, h + 1, first), s0, s2)
  {
    LoopMade(P, C, made, loop, lo, h, first, s0, s1);
    LayerMade(P, C, made, loop, h, first, s1, s2);
    AppendLayer(BodyOf(P, C, loop, first), lo, h, s0, s1, s2);
    LoopMade(P, C, made, loop, lo, h + 1, first, s0, s2);
  }

  lemma TilMakes(P: Problem, C: Cascade, made: Relation, k: nat, h: nat, first: bool, s0: seq<Formula>, s1: seq<Formula>, s2: seq<Formula>)
    requires IsAppends(P, C, made)
    requires k < |P.tils| && made(TilTimesPart(k, h), s0, s1) && made(TilEffectsPart(k, h), s1, s2)
    ensures made(LayerPart(TilLoop(k), h, first), s0, s2)
  {
    MakesBoth(P, C, made, LayerPart(TilLoop(k), h, first), TilTimesPart(k, h), TilEffectsPart(k, h), s0, s1, s2);
  }

  function ActionContext(mode: Mode, i: nat, h: nat, C: Cascade, time: TimeSpec, seen: nat): Context {
    Context(mode, i, h, C - 2, time, seen)
  }

  lemma AppendSix(s: seq<seq<Formula>>, fs: seq<seq<Formula>>)
    requires |s| == 7 && |fs| == 6 && forall k | 0 <= k < 6 :: s[k + 1] == s[k] + fs[k]
    ensures s[6] == s[0] + (fs[0] + fs[1] + fs[2] + fs[3] + fs[4] + fs[5])
  {
    AppendTwice(s[0], s[1], s[2], fs[0], fs[1]);
    AppendTwice(s[0], s[2], s[3], fs[0] + fs[1], fs[2]);
    AppendTwice(s[0], s[3], s[4], fs[0] + fs[1] + fs[2], fs[3]);
    AppendTwice(s[0], s[4], s[5], fs[0] + fs[1] + fs[2] + fs[3], fs[4]);
    AppendTwice(s[0], s[5], s[6], fs[0] + fs[1] + fs[2] + fs[3] + fs[4], fs[5]);
  }

  /** The visits of a durative action in one happening, in order. */
  function DurativeVisits(P: Problem, C: Cascade, i: nat, h: nat, seen: nat): (parts: seq<Part>)
    requires IsDurative(P, i)
    ensures |parts| == 6
  {
    var o := P.ops[i];
    [ConditionPart(ActionContext(DurationMode, i, h, C, AtStart, seen), o.duration),
     EffectsPart(o.start, Start(i, h), i, h),
     EffectsPart(o.end, End(i, h), i, h),
     ConditionPart(ActionContext(ConditionMode, i, h, C, AtStart, seen), o.atStart),
     ConditionPart(ActionContext(ConditionMode, i, h, C, OverAll, seen), o.overAll),
     ConditionPart(ActionContext(ConditionMode, i, h, C, AtEnd, seen), o.atEnd)]
  }

  lemma DurativeBodyIs(P: Problem, C: Cascade, i: nat, h: nat, seen: nat, fs: seq<seq<Formula>>)
    requires IsDurative(P, i) && seen <= |P.ops| && |fs| == 6
    requires forall k | 0 <= k < 6 :: fs[k] == PartFormulas(P, C, DurativeVisits(P, C, i, h, seen)[k])
    ensures DurativeBody(P, C, i, h, seen) == fs[0] + fs[1] + fs[2] + fs[3] + fs[4] + fs[5]
  {
    assert fs[0] == PartFormulas(P, C, DurativeVisits(P, C, i, h, seen)[0]);
  }

  lemma DurativeChain(P: Problem, C: Cascade, made: Relation, i: nat, h: nat, first: bool, s: seq<seq<Formula>>)
    requires IsDurative(P, i) && |s| == 7 && IsAppends(P, C, made)
    requires forall k | 0 <= k < 6 :: made(DurativeVisits(P, C, i, h, SeenAt(P, i, first))[k], s[k], s[k + 1])
    ensures made(LayerPart(OpBody(i), h, first), s[0], s[6])
  {
    var parts := DurativeVisits(P, C, i, h, SeenAt(P, i, first));
    forall k | 0 <= k < 6
      ensures PartInProblem(P, parts[k]) && s[k + 1] == s[k] + PartFormulas(P, C, parts[k])
    {
      Made(P, C, made, parts[k], s[k], s[k + 1]);
    }
    var fs := seq(6, k requires 0 <= k < 6 => PartFormulas(P, C, parts[k]));
    AppendSix(s, fs);
    DurativeBodyIs(P, C, i, h, SeenAt(P, i, first), fs);
    Make(P, C, made, LayerPart(OpBody(i), h, first), s[0], s[6], fs[0] + fs[1] + fs[2] + fs[3] + fs[4] + fs[5]);
  }

  /** They make up its body. */
  lemma DurativeMakes(P: Problem, C: Cascade, made: Relation, i: nat, h: nat, first: bool, s0: seq<Formula>, s1: seq<Formula>,
                      s2: seq<Formula>, s3: seq<Formula>, s4: seq<Formula>, s5: seq<Formula>, s6: seq<Formula>)
    requires IsDurative(P, i) && IsAppends(P, C, made)
    requires
      var o, seen := P.ops[i], SeenAt(P, i, first);
      && made(ConditionPart(ActionContext(DurationMode, i, h, C, AtStart, seen), o.duration), s0, s1)
      && made(EffectsPart(o.start, Start(i, h), i, h), s1, s2)
      && made(EffectsPart(o.end, End(i, h), i, h), s2, s3)
      && made(ConditionPart(ActionContext(ConditionMode, i, h, C, AtStart, seen), o.atStart), s3, s4)
      && made(ConditionPart(ActionContext(ConditionMode, i, h, C, OverAll, seen), o.overAll), s4, s5)
      && made(ConditionPart(ActionContext(ConditionMode, i, h, C, AtEnd, seen), o.atEnd), s5, s6)
    ensures made(LayerPart(OpBody(i), h, first), s0, s6)
  {
    DurativeChain(P, C, made, i, h, first, [s0, s1, s2, s3, s4, s5, s6]);
  }

  lemma InstantMakes(P: Problem, C: Cascade, made: Relation, i: nat, h: nat, first: bool, s0: seq<Formula>, s1: seq<Formula>, s2: seq<Formula>)
    requires IsAppends(P, C, made)
    requires i < |P.ops| && P.ops[i].Instant?
    requires made(EffectsPart(P.ops[i].eff, Start(i, h), i, h), s0, s1)
    requires
      made(ConditionPart(ActionContext(InstantConditionMode, i, h, C, AtStart, SeenAt(P, i, first)), P.ops[i].pre), s1, s2)
    ensures made(LayerPart(OpBody(i), h, first), s0, s2)
  {
    var effects := EffectsPart(P.ops[i].eff, Start(i, h), i, h);
    var condition := ConditionPart(ActionContext(InstantConditionMode, i, h, C, AtStart, SeenAt(P, i, first)), P.ops[i].pre);
    MakesBoth(P, C, made, LayerPart(OpBody(i), h, first), effects, condition, s0, s1, s2);
  }

  lemma SameLists(before: map<(Role, nat), seq<nat>>, after: map<(Role, nat), seq<nat>>)
    requires before == after
    ensures Same(before, after)
  {
  }

  ghost predicate OpFits(P: Problem, o: Op) {
    match o
    case Durative(duration, atStart, overAll, atEnd, start, end) =>
      && GoalFits(P, duration, true, true)
      && GoalFits(P, atStart, true, true) && GoalFits(P, overAll, true, true) && GoalFits(P, atEnd, true, true)
      && EffectsFit(P, start, true) && EffectsFit(P, end, true)
    case Instant(pre, eff) => GoalFits(P, pre, false, false) && EffectsFit(P, eff, false)
    case Event(pre, eff) => GoalFits(P, pre, false, true) && EffectsFit(P, eff, false) && eff.assigns == []
    case Process(pre) => GoalFits(P, pre, false, true)
  }

  lemma OpParts(P: Problem, i: nat)
    requires ProblemFits(P) && i < |P.ops|
    ensures OpFits(P, P.ops[i])
  {
    assert Opened(ProblemKey);
    var o := P.ops[i];
    assert WfOp(P, o);
    match o
    case Durative(_, _, _, _, _, _) =>
    case Instant(_, _) =>
    case Event(_, _) =>
    case Process(_) =>
  }

  ghost predicate BodyReady(P: Problem, C: Cascade, v: Vectors, n: nat) {
    ValuesReady(P, C, v, n) && OpsReady(P, C, v, 0, |P.ops|, n)
  }

  lemma SameTil(v: Vectors, k: nat)
    ensures OnlyTil(v, v, k)
  {
  }

  lemma SameOps(v: Vectors, i: nat)
    ensures OnlyOp(v, v, i)
  {
  }

  lemma TilParts(P: Problem, k: nat)
    requires ProblemFits(P) && k < |P.tils|
    ensures EffectsFit(P, P.tils[k].eff, false)
    ensures forall a | a in P.tils[k].eff.assigns :: a.op == Assign && WfExpr(P, a.rhs, false)
  {
    assert Opened(ProblemKey);
    assert WfTil(P, P.tils[k]);
  }

  lemma EmitAllOne(P: Problem, C: Cascade, ctx: Context, a: Atom)
    requires ctx.seen <= |P.ops|
    ensures EmitAll(P, C, ctx, [a]) == Emit(P, C, ctx, a)
  {
    assert [a][1..] == [];
    assert EmitAll(P, C, ctx, [a]) == Join(Emit(P, C, ctx, a), EmitAll(P, C, ctx, []));
  }
}
