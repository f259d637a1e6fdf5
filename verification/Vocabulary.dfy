/** What the shared words of the reference semantics and of the encodings say, operator by operator. */
module Vocabulary {
  import opened Pddl
  import opened Semantics
  import opened BlockMeaning
  import opened Soundness

  // ----- Who changes what -----

  predicate Changes(assigns: seq<Assignment>, fn: nat) {
    exists a | a in assigns :: a.fn == fn
  }

  lemma ChangesListed(assigns: seq<Assignment>, fn: nat)
    ensures fn in AssignedFns(assigns) <==> Changes(assigns, fn)
  {
    if a :| a in assigns && a.fn == fn {
      var k :| 0 <= k < |assigns| && assigns[k] == a;
      assert AssignedFns(assigns)[k] == fn;
    }
  }

  /** A function may change inside a happening by an action that starts there and assigns it at its
      start, and by one that ends there and assigns it at its end. */
  lemma AssignedMeans(P: Problem, x: Happening, fn: nat)
    ensures Assigned(P, x, fn) <==>
            || (exists i | i in x.starts :: i < |P.ops| && P.ops[i].Durative? && Changes(P.ops[i].start.assigns, fn))
            || (exists i | i in x.starts :: i < |P.ops| && P.ops[i].Instant? && Changes(P.ops[i].eff.assigns, fn))
            || (exists i | i in x.ends :: i < |P.ops| && P.ops[i].Durative? && Changes(P.ops[i].end.assigns, fn))
  {
    forall o: Op
      ensures o.Durative? ==> (fn in RoleOfOp(o, StartAssign) <==> Changes(o.start.assigns, fn))
      ensures o.Durative? ==> (fn in RoleOfOp(o, EndAssign) <==> Changes(o.end.assigns, fn))
      ensures o.Instant? ==> (fn in RoleOfOp(o, StartAssign) <==> Changes(o.eff.assigns, fn))
    {
      if o.Durative? {
        ChangesListed(o.start.assigns, fn);
        ChangesListed(o.end.assigns, fn);
      } else if o.Instant? {
        ChangesListed(o.eff.assigns, fn);
      }
    }
  }

  /** A literal is added in a layer by an event that fires there, and in the last step also by an action
      that starts or ends. */
  lemma AddedMeans(P: Problem, C: Cascade, x: Happening, b: nat, l: nat)
    requires b < |x.events|
    ensures Added(P, C, x, b, l) <==>
            || (exists i | i in x.events[b] :: i < |P.ops| && P.ops[i].Event? && l in P.ops[i].eff.adds)
            || (b == C - 2 && exists i | i in x.starts :: i < |P.ops| && P.ops[i].Durative? && l in P.ops[i].start.adds)
            || (b == C - 2 && exists i | i in x.starts :: i < |P.ops| && P.ops[i].Instant? && l in P.ops[i].eff.adds)
            || (b == C - 2 && exists i | i in x.ends :: i < |P.ops| && P.ops[i].Durative? && l in P.ops[i].end.adds)
  {
  }

  lemma DeletedMeans(P: Problem, C: Cascade, x: Happening, b: nat, l: nat)
    requires b < |x.events|
    ensures Deleted(P, C, x, b, l) <==>
            || (exists i | i in x.events[b] :: i < |P.ops| && P.ops[i].Event? && l in P.ops[i].eff.dels)
            || (b == C - 2 && exists i | i in x.starts :: i < |P.ops| && P.ops[i].Durative? && l in P.ops[i].start.dels)
            || (b == C - 2 && exists i | i in x.starts :: i < |P.ops| && P.ops[i].Instant? && l in P.ops[i].eff.dels)
            || (b == C - 2 && exists i | i in x.ends :: i < |P.ops| && P.ops[i].Durative? && l in P.ops[i].end.dels)
  {
  }

  /** A timed literal acts at its stamp. */
  lemma TilAffectsMeans(P: Problem, time: real, id: nat)
    ensures TilAffects(P, time, TilAdd, id) <==>
            exists k | 0 <= k < |P.tils| :: P.tils[k].stamp == time && id in P.tils[k].eff.adds
    ensures TilAffects(P, time, TilDel, id) <==>
            exists k | 0 <= k < |P.tils| :: P.tils[k].stamp == time && id in P.tils[k].eff.dels
    ensures TilAffects(P, time, TilAssign, id) <==>
            exists k | 0 <= k < |P.tils| :: P.tils[k].stamp == time && Changes(P.tils[k].eff.assigns, id)
  {
    forall k | 0 <= k < |P.tils|
      ensures id in RoleOfTil(P.tils[k], TilAssign) <==> Changes(P.tils[k].eff.assigns, id)
    {
      ChangesListed(P.tils[k].eff.assigns, id);
    }
  }

  // ----- Which starts exclude each other -----

  /** The effects an action has when it starts. */
  function AtItsStart(o: Op): Effects
    requires o.Durative? || o.Instant?
  {
    if o.Durative? then o.start else o.eff
  }

  /** An action threatens conditions by deleting at its start what one of them asks for, or by adding
      what one of them excludes. */
  lemma ThreatensMeans(P: Problem, j: nat, atoms: seq<Atom>)
    requires j < |P.ops| && (P.ops[j].Durative? || P.ops[j].Instant?)
    ensures Threatens(P, j, atoms) <==>
            || (exists l | l in AtItsStart(P.ops[j]).dels :: LitAtom(false, l) in atoms)
            || (exists l | l in AtItsStart(P.ops[j]).adds :: LitAtom(true, l) in atoms)
  {
  }

  // ----- Signed operators -----

  /** A flow matches when the operators with a positive number run and those with a negative one do not;
      the number is one more than the place of the operator. */
  lemma MatchesMeans(operators: seq<int>, x: Happening)
    requires 0 !in operators
    ensures Matches(operators, x) <==>
            && (forall o | o in operators && o > 0 :: var i: nat := o - 1; i in x.due || i in x.processes)
            && (forall o | o in operators && o < 0 :: var i: nat := -o - 1; i !in x.due && i !in x.processes)
    ensures Idle(operators, x) <==>
            && (forall o | o in operators && o > 0 :: var i: nat := o - 1; i !in x.due && i !in x.processes)
            && (forall o | o in operators && o < 0 :: var i: nat := -o - 1; i !in x.due && i !in x.processes)
  {
    forall o | o in operators
      ensures o > 0 ==> OpOf(o) == o - 1
      ensures o < 0 ==> OpOf(o) == -o - 1
    {
    }
  }
}
