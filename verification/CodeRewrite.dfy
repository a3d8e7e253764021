/** Replacing `i32.const k; local.set 3; br` triples by one `br`, as a map on code positions:
    structure, labels and matching ends carry over to the shorter code. */
module CodeRewrite {
  import opened Leb128
  import opened WasmCode

  /** The local that carries the block selector. */
  const SELECTOR: u32 := 3

  /** The branches to replace, each with its new depth. */
  type Plan = map<nat, nat>

  ghost predicate Shaped(code: seq<Instr>, plan: Plan) {
    forall b :: b in plan ==>
      2 <= b < |code| && code[b].Br? && code[b - 1] == Set(SELECTOR) && code[b - 2].Const?
  }

  predicate Dropped(plan: Plan, i: nat) {
    i + 1 in plan || i + 2 in plan
  }

  function Replaced(code: seq<Instr>, plan: Plan, i: nat): Instr
    requires i < |code|
  {
    if i in plan then Br(plan[i]) else code[i]
  }

  /** The rewritten form of the first `i` operations. */
  function Rewrite(code: seq<Instr>, plan: Plan, i: nat): seq<Instr> {
    if i == 0 || i > |code| then []
    else Rewrite(code, plan, i - 1) + if Dropped(plan, i - 1) then [] else [Replaced(code, plan, i - 1)]
  }

  function Rewritten(code: seq<Instr>, plan: Plan): seq<Instr> {
    Rewrite(code, plan, |code|)
  }

  /** Where operation `i` of the old code continues in the new code. */
  function Place(code: seq<Instr>, plan: Plan, i: nat): nat {
    |Rewrite(code, plan, i)|
  }

  lemma {:induction false} RewritePrefix(code: seq<Instr>, plan: Plan, i: nat, j: nat)
    requires i <= j <= |code|
    ensures Rewrite(code, plan, i) <= Rewrite(code, plan, j)
  {
    if i < j {
      RewritePrefix(code, plan, i, j - 1);
    }
  }

  /** A kept operation stands at its place, followed by the place of the next one. */
  lemma PlaceOf(code: seq<Instr>, plan: Plan, i: nat)
    requires i < |code| && !Dropped(plan, i)
    ensures Place(code, plan, i + 1) == Place(code, plan, i) + 1 <= |Rewritten(code, plan)|
    ensures Rewritten(code, plan)[Place(code, plan, i)] == Replaced(code, plan, i)
  {
    RewritePrefix(code, plan, i + 1, |code|);
    assert Rewrite(code, plan, i + 1)[Place(code, plan, i)] == Replaced(code, plan, i);
  }

  lemma PlaceBound(code: seq<Instr>, plan: Plan, i: nat)
    requires i <= |code|
    ensures Place(code, plan, i) <= |Rewritten(code, plan)|
  {
    RewritePrefix(code, plan, i, |code|);
  }

  lemma PlaceIncreases(code: seq<Instr>, plan: Plan, i: nat, j: nat)
    requires i < j <= |code| && !Dropped(plan, i)
    ensures Place(code, plan, i) < Place(code, plan, j)
  {
    PlaceOf(code, plan, i);
    RewritePrefix(code, plan, i + 1, j);
  }

  lemma {:induction false} PlaceOnto(code: seq<Instr>, plan: Plan, n: nat, p: nat) returns (i: nat)
    requires n <= |code| && p < Place(code, plan, n)
    ensures i < n && !Dropped(plan, i) && Place(code, plan, i) == p
  {
    if p < Place(code, plan, n - 1) {
      i := PlaceOnto(code, plan, n - 1, p);
    } else {
      i := n - 1;
    }
  }

  /** Structured operations are never dropped. */
  lemma KeptStructure(code: seq<Instr>, plan: Plan, i: nat)
    requires Shaped(code, plan) && i < |code| && !code[i].Const? && code[i] != Set(SELECTOR)
    ensures !Dropped(plan, i)
  {
  }

  function Moved(code: seq<Instr>, plan: Plan, nest: Nest): Nest {
    if nest.Outside? then Outside else Inside(Moved(code, plan, nest.outer), Place(code, plan, nest.opener))
  }

  /** The labels open at a place are the places of the labels open before. */
  lemma {:induction false} LabelsCarryOver(code: seq<Instr>, plan: Plan, i: nat)
    requires Shaped(code, plan) && i <= |code|
    ensures Place(code, plan, i) <= |Rewritten(code, plan)|
    ensures Labels(Rewritten(code, plan), Place(code, plan, i)) == Moved(code, plan, Labels(code, i))
  {
    PlaceBound(code, plan, i);
    if i > 0 {
      LabelsCarryOver(code, plan, i - 1);
      if !Dropped(plan, i - 1) {
        PlaceOf(code, plan, i - 1);
      }
    }
  }

  lemma EndCarriesOver(code: seq<Instr>, plan: Plan, l: nat)
    requires Shaped(code, plan) && l < |code| && EndOf(code, l) < |code|
    ensures Place(code, plan, l) < |Rewritten(code, plan)|
    ensures EndOf(Rewritten(code, plan), Place(code, plan, l)) == Place(code, plan, EndOf(code, l))
    ensures Place(code, plan, EndOf(code, l) + 1) == Place(code, plan, EndOf(code, l)) + 1
  {
    var e := EndOf(code, l);
    PlaceOf(code, plan, e);
    LabelsCarryOver(code, plan, e);
    EndIs(Rewritten(code, plan), Place(code, plan, l), Place(code, plan, e));
  }

  lemma SplitsCarryBack(code: seq<Instr>, plan: Plan, l: nat, p: nat) returns (a: nat)
    requires Shaped(code, plan) && l < |code| && code[l].Open?
    requires Splits(Rewritten(code, plan), p, Place(code, plan, l))
    ensures l < a && Splits(code, a, l) && Place(code, plan, a) == p
  {
    a := PlaceOnto(code, plan, |code|, p);
    PlaceOf(code, plan, a);
    LabelsCarryOver(code, plan, a);
    var m := Labels(code, a).opener;
    LabelsShape(code, a, 0);
    KeptStructure(code, plan, l);
    KeptStructure(code, plan, m);
    if m < l {
      PlaceIncreases(code, plan, m, l);
    } else if l < m {
      PlaceIncreases(code, plan, l, m);
    }
  }

  lemma ElseCarriesOver(code: seq<Instr>, plan: Plan, l: nat)
    requires Shaped(code, plan) && NestedUpTo(code, |code|) && l < |code| && code[l].Open?
    ensures Place(code, plan, l) < |Rewritten(code, plan)|
    ensures var a := ElseOf(Rewritten(code, plan), Place(code, plan, l));
            if ElseOf(code, l) < |code|
            then a == Place(code, plan, ElseOf(code, l)) < |Rewritten(code, plan)|
                 && Place(code, plan, ElseOf(code, l) + 1) == a + 1
            else a == |Rewritten(code, plan)|
  {
    var shorter, p := Rewritten(code, plan), Place(code, plan, l);
    KeptStructure(code, plan, l);
    PlaceOf(code, plan, l);
    var found := ElseOf(shorter, p);
    if found < |shorter| {
      var a := SplitsCarryBack(code, plan, l, found);
      ElseIs(code, l, a);
      PlaceOf(code, plan, a);
    } else if ElseOf(code, l) < |code| {
      var a := ElseOf(code, l);
      PlaceOf(code, plan, a);
      LabelsCarryOver(code, plan, a);
      LabelsShape(code, a, 0);
      PlaceIncreases(code, plan, l, a);
      assert Splits(shorter, Place(code, plan, a), p);
      ElseFirst(shorter, p, p + 1, Place(code, plan, a));
    }
  }
}
