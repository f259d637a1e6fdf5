/** What the slots of the fluent encoding say, and the value of a literal at every happening that
    follows from them. */
module FluentMeaning {
  import opened Smt
  import opened Pddl
  import opened HappeningSpec
  import opened Decoding
  import opened FluentSpec

  // ----- Order -----

  function TimeOf(m: Model, h: nat): real {
    m.r(Time(h))
  }

  function SlotAt(m: Model, lit: nat, slot: nat): real {
    m.r(SlotTime(lit, slot))
  }

  ghost predicate TimesOrdered(m: Model, H: nat) {
    forall g, h | 0 <= g < h < H :: TimeOf(m, g) < TimeOf(m, h)
  }

  ghost predicate SlotsOrdered(m: Model, lit: nat, n: nat) {
    forall j, k | 0 <= j < k < n :: SlotAt(m, lit, j) < SlotAt(m, lit, k)
  }

  lemma {:induction false} TimesAreOrdered(m: Model, H: nat)
    requires forall h | 0 < h < H :: TimeOf(m, h - 1) < TimeOf(m, h)
    ensures TimesOrdered(m, H)
  {
    if H > 1 {
      TimesAreOrdered(m, H - 1);
      assert TimeOf(m, H - 2) < TimeOf(m, H - 1);
    }
  }

  lemma {:induction false} SlotsAreOrdered(m: Model, lit: nat, n: nat)
    requires forall k | 0 < k < n :: SlotAt(m, lit, k - 1) < SlotAt(m, lit, k)
    ensures SlotsOrdered(m, lit, n)
  {
    if n > 1 {
      SlotsAreOrdered(m, lit, n - 1);
      assert SlotAt(m, lit, n - 2) < SlotAt(m, lit, n - 1);
    }
  }

  // ----- The nested choices -----

  lemma SameTimeMeans(m: Model, lit: nat, slot: nat, h: nat)
    ensures Eval(SameTime(lit, slot, h), m) <==> SlotAt(m, lit, slot) == TimeOf(m, h)
  {
  }

  predicate SlotReads(m: Model, lit: nat, h: nat, b: nat, negated: bool, slot: nat) {
    SlotAt(m, lit, slot) == TimeOf(m, h) && m.b(SlotLit(lit, slot, b)) != negated
  }

  /** A literal is read from the slot at the time of the happening; without one it is neither true
      nor false there. */
  lemma {:induction false} SlotIteMeans(m: Model, lit: nat, h: nat, b: nat, negated: bool, n: nat)
    requires SlotsOrdered(m, lit, n)
    ensures Eval(SlotIte(lit, h, b, negated, n), m) <==> exists k: nat :: k < n && SlotReads(m, lit, h, b, negated, k)
  {
    if n > 0 {
      var here, rest := Signed(negated, SlotLit(lit, n - 1, b)), SlotIte(lit, h, b, negated, n - 1);
      SlotIteMeans(m, lit, h, b, negated, n - 1);
      SameTimeMeans(m, lit, n - 1, h);
      EvalLiteral(m, SlotLit(lit, n - 1, b));
      assert Eval(Ite(SameTime(lit, n - 1, h), here, rest), m) <==>
             if Eval(SameTime(lit, n - 1, h), m) then Eval(here, m) else Eval(rest, m);
      if Eval(SameTime(lit, n - 1, h), m) && Eval(here, m) {
        assert SlotReads(m, lit, h, b, negated, n - 1);
      }
    }
  }

  predicate ActsAt(m: Model, lit: nat, slot: nat, end: bool, who: nat, g: nat) {
    SlotAt(m, lit, slot) == TimeOf(m, g) && m.b(StartOrEnd(end, who, g))
  }

  lemma {:induction false} HappeningIteMeans(m: Model, lit: nat, slot: nat, end: bool, who: nat, h: nat, H: nat)
    requires TimesOrdered(m, H) && h <= H
    ensures Eval(HappeningIte(lit, slot, end, who, h, H), m) <==>
            exists g: nat :: h <= g < H && ActsAt(m, lit, slot, end, who, g)
    decreases H - h
  {
    if h < H {
      var here, rest := Bool(StartOrEnd(end, who, h)), HappeningIte(lit, slot, end, who, h + 1, H);
      HappeningIteMeans(m, lit, slot, end, who, h + 1, H);
      SameTimeMeans(m, lit, slot, h);
      EvalLiteral(m, StartOrEnd(end, who, h));
      assert Eval(Ite(SameTime(lit, slot, h), here, rest), m) <==>
             if Eval(SameTime(lit, slot, h), m) then Eval(here, m) else Eval(rest, m);
      if Eval(SameTime(lit, slot, h), m) && Eval(here, m) {
        assert ActsAt(m, lit, slot, end, who, h);
      }
    }
  }

  /** One of these users acts at a happening with the time of the slot. */
  ghost predicate Enabled(m: Model, lit: nat, slot: nat, end: bool, users: seq<nat>, H: nat) {
    exists who, g: nat :: who in users && g < H && ActsAt(m, lit, slot, end, who, g)
  }

  lemma {:induction false} EnablersMean(m: Model, lit: nat, slot: nat, end: bool, users: seq<nat>, H: nat)
    requires TimesOrdered(m, H)
    ensures Some(m, Enablers(lit, slot, end, users, H)) <==> Enabled(m, lit, slot, end, users, H)
  {
    if users != [] {
      var rest, last := users[..|users| - 1], users[|users| - 1];
      EnablersMean(m, lit, slot, end, rest, H);
      AnyConcat(m, Enablers(lit, slot, end, rest, H), [HappeningIte(lit, slot, end, last, 0, H)]);
      AnyOne(m, HappeningIte(lit, slot, end, last, 0, H));
      HappeningIteMeans(m, lit, slot, end, last, 0, H);
      assert forall i :: i in users <==> i in rest || i == last;
    }
  }

  lemma {:induction false} CoincidesMeans(m: Model, lit: nat, slot: nat, n: nat)
    ensures Some(m, Coincides(lit, slot, n)) <==> exists g: nat :: g < n && SlotAt(m, lit, slot) == TimeOf(m, g)
  {
    if n > 0 {
      CoincidesMeans(m, lit, slot, n - 1);
      AnyConcat(m, Coincides(lit, slot, n - 1), [SameTime(lit, slot, n - 1)]);
      AnyOne(m, SameTime(lit, slot, n - 1));
      SameTimeMeans(m, lit, slot, n - 1);
    }
  }

  // ----- One slot, for two layers -----

  ghost predicate AtHappening(m: Model, lit: nat, slot: nat, H: nat) {
    exists g: nat :: g < H && SlotAt(m, lit, slot) == TimeOf(m, g)
  }

  /** Its time comes after that of the slot before, is that of a happening or late, and it opens
      as the slot before closed. */
  ghost predicate SlotClause(m: Model, lit: nat, slot: nat, H: nat)
    requires H > 0
  {
    && (slot > 0 ==> SlotAt(m, lit, slot - 1) < SlotAt(m, lit, slot))
    && (AtHappening(m, lit, slot, H) || TimeOf(m, H - 1) < SlotAt(m, lit, slot))
    && (slot > 0 ==> (m.b(SlotLit(lit, slot, 0)) <==> m.b(SlotLit(lit, slot - 1, 1))))
  }

  ghost predicate Acted(P: Problem, m: Model, lit: nat, slot: nat, start: Role, end: Role, H: nat) {
    Enabled(m, lit, slot, false, Users(P, start, lit), H) || Enabled(m, lit, slot, true, Users(P, end, lit), H)
  }

  /** What changes within the slot was changed by an action at its time. */
  ghost predicate SlotExplained(P: Problem, m: Model, lit: nat, slot: nat, H: nat) {
    && (m.b(SlotLit(lit, slot, 1)) ==> m.b(SlotLit(lit, slot, 0)) || Acted(P, m, lit, slot, StartAdd, EndAdd, H))
    && (!m.b(SlotLit(lit, slot, 1)) ==> !m.b(SlotLit(lit, slot, 0)) || Acted(P, m, lit, slot, StartDel, EndDel, H))
  }

  lemma SlotTimesMean(m: Model, lit: nat, slot: nat, H: nat)
    requires H > 0
    ensures Holds(m, SlotTimes(lit, slot, H)) <==>
            && (slot > 0 ==> SlotAt(m, lit, slot - 1) < SlotAt(m, lit, slot))
            && (AtHappening(m, lit, slot, H) || TimeOf(m, H - 1) < SlotAt(m, lit, slot))
  {
    var after := if slot > 0 then [Lt(Var(SlotTime(lit, slot - 1)), Var(SlotTime(lit, slot)))] else [];
    var late := Lt(Var(Time(H - 1)), Var(SlotTime(lit, slot)));
    var when := Or(Coincides(lit, slot, H) + [late]);
    HoldsConcat(m, after, [when]);
    HoldsOne(m, when);
    if slot > 0 {
      HoldsOne(m, after[0]);
    }
    AnyConcat(m, Coincides(lit, slot, H), [late]);
    AnyOne(m, late);
    CoincidesMeans(m, lit, slot, H);
  }

  lemma SupportMeans(P: Problem, m: Model, lit: nat, slot: nat, before: Formula, start: Role, end: Role, H: nat)
    requires TimesOrdered(m, H)
    ensures Some(m, [before] + (Enablers(lit, slot, false, Users(P, start, lit), H) +
                                Enablers(lit, slot, true, Users(P, end, lit), H))) <==>
            Eval(before, m) || Acted(P, m, lit, slot, start, end, H)
  {
    var starts, ends := Enablers(lit, slot, false, Users(P, start, lit), H), Enablers(lit, slot, true, Users(P, end, lit), H);
    AnyConcat(m, [before], starts + ends);
    AnyConcat(m, starts, ends);
    AnyOne(m, before);
    EnablersMean(m, lit, slot, false, Users(P, start, lit), H);
    EnablersMean(m, lit, slot, true, Users(P, end, lit), H);
  }

  lemma ImpliesOr(m: Model, x: Formula, fs: seq<Formula>)
    ensures Eval(Implies(x, Or(fs)), m) <==> (Eval(x, m) ==> Some(m, fs))
  {
    assert Eval(Or(fs), m) <==> Some(m, fs);
  }

  /** A change from one layer to the next: actions add in layer 1 and delete in the last. */
  ghost predicate LayerExplained(P: Problem, C: Cascade, m: Model, lit: nat, slot: nat, H: nat, b: nat)
    requires b > 0
  {
    var before, after := m.b(SlotLit(lit, slot, b - 1)), m.b(SlotLit(lit, slot, b));
    && (after ==> before || (b == 1 && Acted(P, m, lit, slot, StartAdd, EndAdd, H)))
    && (!after ==> !before || (b == C - 1 && Acted(P, m, lit, slot, StartDel, EndDel, H)))
  }

  lemma SideMeans(P: Problem, m: Model, lit: nat, slot: nat, x: Formula, before: Formula, asks: bool, start: Role, end: Role, H: nat)
    requires TimesOrdered(m, H)
    ensures
      var acts := if asks then Enablers(lit, slot, false, Users(P, start, lit), H) +
                               Enablers(lit, slot, true, Users(P, end, lit), H)
                  else [];
      Eval(Implies(x, Or([before] + acts)), m) <==>
      (Eval(x, m) ==> Eval(before, m) || (asks && Acted(P, m, lit, slot, start, end, H)))
  {
    if asks {
      var acts := Enablers(lit, slot, false, Users(P, start, lit), H) + Enablers(lit, slot, true, Users(P, end, lit), H);
      ImpliesOr(m, x, [before] + acts);
      SupportMeans(P, m, lit, slot, before, start, end, H);
    } else {
      ImpliesOr(m, x, [before] + []);
      AnyConcat(m, [before], []);
      AnyOne(m, before);
    }
  }

  lemma SlotLayerMeans(P: Problem, C: Cascade, m: Model, lit: nat, slot: nat, H: nat, b: nat)
    requires TimesOrdered(m, H) && 0 < b < C
    ensures Holds(m, SlotLayer(P, C, lit, slot, H, b)) <==> LayerExplained(P, C, m, lit, slot, H, b)
  {
    var before, after := SlotLit(lit, slot, b - 1), SlotLit(lit, slot, b);
    var layer := SlotLayer(P, C, lit, slot, H, b);
    HoldsTwo(m, layer[0], layer[1]);
    assert layer == [layer[0], layer[1]];
    EvalLiteral(m, before);
    EvalLiteral(m, after);
    SideMeans(P, m, lit, slot, Bool(after), Bool(before), b == 1, StartAdd, EndAdd, H);
    SideMeans(P, m, lit, slot, Not(Bool(after)), Not(Bool(before)), b == C - 1, StartDel, EndDel, H);
  }

  lemma SlotOpensMeans(C: Cascade, m: Model, lit: nat, slot: nat)
    requires slot > 0
    ensures Holds(m, SlotOpens(C, lit, slot)) <==> (m.b(SlotLit(lit, slot, 0)) <==> m.b(SlotLit(lit, slot - 1, C - 1)))
  {
    var opening, closing := SlotLit(lit, slot, 0), SlotLit(lit, slot - 1, C - 1);
    HoldsTwo(m, Implies(Bool(opening), Bool(closing)), Implies(Not(Bool(opening)), Not(Bool(closing))));
    EvalLiteral(m, opening);
    EvalLiteral(m, closing);
  }

  /** All that is asserted of one slot. */
  ghost predicate SlotHolds(P: Problem, C: Cascade, m: Model, lit: nat, slot: nat, H: nat)
    requires H > 0
  {
    && (slot > 0 ==> SlotAt(m, lit, slot - 1) < SlotAt(m, lit, slot))
    && (AtHappening(m, lit, slot, H) || TimeOf(m, H - 1) < SlotAt(m, lit, slot))
    && (slot > 0 ==> (m.b(SlotLit(lit, slot, 0)) <==> m.b(SlotLit(lit, slot - 1, C - 1))))
    && forall b | 0 < b < C :: LayerExplained(P, C, m, lit, slot, H, b)
  }

  lemma SlotLayersMean(P: Problem, C: Cascade, m: Model, lit: nat, slot: nat, H: nat)
    requires TimesOrdered(m, H)
    ensures Holds(m, Block(SlotLayerOf(P, C, lit, slot, H), 1, C)) <==>
            forall b | 0 < b < C :: LayerExplained(P, C, m, lit, slot, H, b)
  {
    BlockHolds(m, SlotLayerOf(P, C, lit, slot, H), 1, C);
    forall b | 0 < b < C
      ensures Holds(m, SlotLayerOf(P, C, lit, slot, H)(b)) <==> LayerExplained(P, C, m, lit, slot, H, b)
    {
      SlotLayerMeans(P, C, m, lit, slot, H, b);
    }
  }

  lemma SlotMeans(P: Problem, C: Cascade, m: Model, lit: nat, slot: nat, H: nat)
    requires H > 0 && TimesOrdered(m, H)
    ensures Holds(m, SlotOf(P, C, lit, H)(slot)) <==> SlotHolds(P, C, m, lit, slot, H)
  {
    var layers := Block(SlotLayerOf(P, C, lit, slot, H), 1, C);
    HoldsConcat(m, SlotTimes(lit, slot, H) + layers, SlotOpens(C, lit, slot));
    HoldsConcat(m, SlotTimes(lit, slot, H), layers);
    SlotTimesMean(m, lit, slot, H);
    SlotLayersMean(P, C, m, lit, slot, H);
    if slot > 0 {
      SlotOpensMeans(C, m, lit, slot);
    }
  }

  // ----- The slots of a literal -----

  ghost predicate SlotsRead(P: Problem, m: Model, lit: nat, H: nat)
    requires H > 0
  {
    && SlotsOrdered(m, lit, LiteralBound)
    && forall k | 0 <= k < LiteralBound :: SlotClause(m, lit, k, H) && SlotExplained(P, m, lit, k, H)
  }

  ghost predicate SlotsHold(P: Problem, C: Cascade, m: Model, lit: nat, H: nat)
    requires H > 0
  {
    forall k | 0 <= k < LiteralBound :: SlotHolds(P, C, m, lit, k, H)
  }

  lemma LiteralSlotsMean(P: Problem, C: Cascade, m: Model, lit: nat, H: nat)
    requires H > 0 && TimesOrdered(m, H)
    ensures Holds(m, LiteralSlots(P, C, lit, H)) <==> SlotsHold(P, C, m, lit, H)
  {
    BlockHolds(m, SlotOf(P, C, lit, H), 0, LiteralBound);
    forall k | 0 <= k < LiteralBound
      ensures Holds(m, SlotOf(P, C, lit, H)(k)) <==> SlotHolds(P, C, m, lit, k, H)
    {
      SlotMeans(P, C, m, lit, k, H);
    }
  }

  lemma SlotsHoldOrdered(P: Problem, C: Cascade, m: Model, lit: nat, H: nat)
    requires H > 0 && SlotsHold(P, C, m, lit, H)
    ensures SlotsOrdered(m, lit, LiteralBound)
  {
    forall k | 0 < k < LiteralBound
      ensures SlotAt(m, lit, k - 1) < SlotAt(m, lit, k)
    {
      assert SlotHolds(P, C, m, lit, k, H);
    }
    SlotsAreOrdered(m, lit, LiteralBound);
  }

  /** A deletion shows in layer 1 of the slot at its time. */
  ghost predicate DeletionsShow(P: Problem, m: Model, lit: nat, H: nat) {
    forall k | 0 <= k < LiteralBound && Acted(P, m, lit, k, StartDel, EndDel, H) :: !m.b(SlotLit(lit, k, 1))
  }

  /** Then the last layer of a slot is layer 1. */
  lemma {:induction false} LaterLayersStay(P: Problem, C: Cascade, m: Model, lit: nat, slot: nat, H: nat, b: nat)
    requires 0 < b < C && forall c | 0 < c < C :: LayerExplained(P, C, m, lit, slot, H, c)
    requires Acted(P, m, lit, slot, StartDel, EndDel, H) ==> !m.b(SlotLit(lit, slot, 1))
    ensures m.b(SlotLit(lit, slot, b)) <==> m.b(SlotLit(lit, slot, 1))
  {
    if b > 1 {
      LaterLayersStay(P, C, m, lit, slot, H, b - 1);
      assert LayerExplained(P, C, m, lit, slot, H, b);
    }
  }

  lemma SlotIsRead(P: Problem, C: Cascade, m: Model, lit: nat, H: nat, slot: nat)
    requires H > 0 && SlotsHold(P, C, m, lit, H) && DeletionsShow(P, m, lit, H) && slot < LiteralBound
    ensures SlotClause(m, lit, slot, H) && SlotExplained(P, m, lit, slot, H)
  {
    assert SlotHolds(P, C, m, lit, slot, H) && LayerExplained(P, C, m, lit, slot, H, 1);
    if slot > 0 {
      assert SlotHolds(P, C, m, lit, slot - 1, H);
      LaterLayersStay(P, C, m, lit, slot - 1, H, C - 1);
    }
  }

  /** Whatever the length of the cascade, the slots read as with two layers. */
  lemma SlotsAreRead(P: Problem, C: Cascade, m: Model, lit: nat, H: nat)
    requires H > 0 && SlotsHold(P, C, m, lit, H) && DeletionsShow(P, m, lit, H)
    ensures SlotsRead(P, m, lit, H)
    ensures forall k | 0 <= k < LiteralBound :: m.b(SlotLit(lit, k, C - 1)) <==> m.b(SlotLit(lit, k, 1))
  {
    SlotsHoldOrdered(P, C, m, lit, H);
    forall k | 0 <= k < LiteralBound
      ensures SlotClause(m, lit, k, H) && SlotExplained(P, m, lit, k, H)
      ensures m.b(SlotLit(lit, k, C - 1)) <==> m.b(SlotLit(lit, k, 1))
    {
      SlotIsRead(P, C, m, lit, H, k);
      assert SlotHolds(P, C, m, lit, k, H);
      LaterLayersStay(P, C, m, lit, k, H, C - 1);
    }
  }

  /** The last of the first n slots that is not after the happening, or the first. */
  ghost function LastSlot(m: Model, lit: nat, h: nat, n: nat): (k: nat)
    ensures k < n || k == 0
    ensures k > 0 ==> SlotAt(m, lit, k) <= TimeOf(m, h)
    ensures forall j | k < j < n :: SlotAt(m, lit, j) > TimeOf(m, h)
  {
    if n <= 1 then 0
    else if SlotAt(m, lit, n - 1) <= TimeOf(m, h) then n - 1
    else LastSlot(m, lit, h, n - 1)
  }

  /** The literal at the happening: from the slot at its time, or as the last slot before left it. */
  ghost predicate ValueAt(m: Model, lit: nat, h: nat, b: nat) {
    var k := LastSlot(m, lit, h, LiteralBound);
    m.b(SlotLit(lit, k, if SlotAt(m, lit, k) == TimeOf(m, h) then b else 1))
  }

  lemma SlotAtHappening(P: Problem, m: Model, lit: nat, H: nat, h: nat, k: nat)
    requires H > 0 && SlotsRead(P, m, lit, H) && k < LiteralBound && SlotAt(m, lit, k) == TimeOf(m, h)
    ensures LastSlot(m, lit, h, LiteralBound) == k
  {
    var last := LastSlot(m, lit, h, LiteralBound);
    assert SlotAt(m, lit, last) <= TimeOf(m, h) || last == 0;
  }

  /** Whatever is read from the slots is so at the happening. */
  lemma ReadIsValue(P: Problem, m: Model, lit: nat, H: nat, h: nat, b: nat, negated: bool)
    requires H > 0 && SlotsRead(P, m, lit, H) && Eval(ReadSlots(lit, h, b, negated), m)
    ensures ValueAt(m, lit, h, b) != negated
  {
    SlotIteMeans(m, lit, h, b, negated, LiteralBound);
    var k: nat :| k < LiteralBound && SlotReads(m, lit, h, b, negated, k);
    SlotAtHappening(P, m, lit, H, h, k);
  }

  /** A slot before a happening is not after the one before that. */
  lemma SlotBefore(P: Problem, m: Model, lit: nat, H: nat, h: nat, k: nat)
    requires 0 < h < H && TimesOrdered(m, H) && SlotsRead(P, m, lit, H)
    requires k < LiteralBound && SlotAt(m, lit, k) < TimeOf(m, h)
    ensures SlotAt(m, lit, k) <= TimeOf(m, h - 1)
  {
    assert SlotClause(m, lit, k, H);
    assert TimeOf(m, h) <= TimeOf(m, H - 1);
    var g: nat :| g < H && SlotAt(m, lit, k) == TimeOf(m, g);
    assert g > h ==> TimeOf(m, h) < TimeOf(m, g);
    assert g < h;
    assert g == h - 1 || TimeOf(m, g) < TimeOf(m, h - 1);
  }

  lemma LastSlotIs(m: Model, lit: nat, h: nat, k: nat)
    requires SlotsOrdered(m, lit, LiteralBound) && k < LiteralBound
    requires SlotAt(m, lit, k) <= TimeOf(m, h) && (k + 1 < LiteralBound ==> SlotAt(m, lit, k + 1) > TimeOf(m, h))
    ensures LastSlot(m, lit, h, LiteralBound) == k
  {
    var last := LastSlot(m, lit, h, LiteralBound);
    assert SlotAt(m, lit, last) <= TimeOf(m, h) || last == 0;
  }

  /** Between two happenings no literal changes. */
  lemma ValueOpens(P: Problem, m: Model, lit: nat, H: nat, h: nat)
    requires 0 < h < H && TimesOrdered(m, H) && SlotsRead(P, m, lit, H)
    requires SlotAt(m, lit, 0) == 0.0 && TimeOf(m, 0) == 0.0
    ensures ValueAt(m, lit, h, 0) <==> ValueAt(m, lit, h - 1, 1)
  {
    var k := LastSlot(m, lit, h, LiteralBound);
    assert TimeOf(m, 0) < TimeOf(m, h) && TimeOf(m, h - 1) < TimeOf(m, h);
    if SlotAt(m, lit, k) == TimeOf(m, h) {
      assert SlotAt(m, lit, k - 1) < SlotAt(m, lit, k);
      SlotBefore(P, m, lit, H, h, k - 1);
      LastSlotIs(m, lit, h - 1, k - 1);
      assert SlotClause(m, lit, k, H);
    } else {
      SlotBefore(P, m, lit, H, h, k);
      LastSlotIs(m, lit, h - 1, k);
    }
  }

  /** Some action with this effect starts or ends at the happening. */
  ghost predicate ActsThen(P: Problem, m: Model, lit: nat, start: Role, end: Role, h: nat) {
    || (exists i :: i in Users(P, start, lit) && m.b(Start(i, h)))
    || (exists i :: i in Users(P, end, lit) && m.b(End(i, h)))
  }

  lemma SameHappening(m: Model, H: nat, g: nat, h: nat)
    requires TimesOrdered(m, H) && g < H && h < H && TimeOf(m, g) == TimeOf(m, h)
    ensures g == h
  {
    assert g < h ==> TimeOf(m, g) < TimeOf(m, h);
    assert h < g ==> TimeOf(m, h) < TimeOf(m, g);
  }

  lemma ActedThen(P: Problem, m: Model, lit: nat, slot: nat, start: Role, end: Role, H: nat, h: nat)
    requires h < H && TimesOrdered(m, H) && SlotAt(m, lit, slot) == TimeOf(m, h)
    ensures Acted(P, m, lit, slot, start, end, H) ==> ActsThen(P, m, lit, start, end, h)
  {
    if Enabled(m, lit, slot, false, Users(P, start, lit), H) {
      var who, g: nat :| who in Users(P, start, lit) && g < H && ActsAt(m, lit, slot, false, who, g);
      SameHappening(m, H, g, h);
      assert m.b(Start(who, h));
    }
    if Enabled(m, lit, slot, true, Users(P, end, lit), H) {
      var who, g: nat :| who in Users(P, end, lit) && g < H && ActsAt(m, lit, slot, true, who, g);
      SameHappening(m, H, g, h);
      assert m.b(End(who, h));
    }
  }

  /** Within a happening a literal changes only by an action then. */
  lemma ValueChanges(P: Problem, m: Model, lit: nat, H: nat, h: nat)
    requires h < H && TimesOrdered(m, H) && SlotsRead(P, m, lit, H)
    ensures ValueAt(m, lit, h, 1) ==> ValueAt(m, lit, h, 0) || ActsThen(P, m, lit, StartAdd, EndAdd, h)
    ensures !ValueAt(m, lit, h, 1) ==> !ValueAt(m, lit, h, 0) || ActsThen(P, m, lit, StartDel, EndDel, h)
  {
    var k := LastSlot(m, lit, h, LiteralBound);
    if SlotAt(m, lit, k) == TimeOf(m, h) {
      assert SlotExplained(P, m, lit, k, H);
      ActedThen(P, m, lit, k, StartAdd, EndAdd, H, h);
      ActedThen(P, m, lit, k, StartDel, EndDel, H, h);
    }
  }

  lemma ValueAtStart(P: Problem, m: Model, lit: nat, H: nat)
    requires H > 0 && SlotsRead(P, m, lit, H) && SlotAt(m, lit, 0) == 0.0 && TimeOf(m, 0) == 0.0
    ensures ValueAt(m, lit, 0, 0) <==> m.b(SlotLit(lit, 0, 0))
  {
    SlotAtHappening(P, m, lit, H, 0, 0);
  }
}
