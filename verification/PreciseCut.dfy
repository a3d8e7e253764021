/** A package of which exactly the idle parts go: fields are kept apart by key, and a function that is passed
    to one that ignores it is not needed either. */
module PreciseCut {
  import opened Wrappers
  import opened PackageSyntax
  import opened ClosureFacts
  import opened FactOrder
  import opened ClosureAnalysis
  import opened Pruning
  import opened PruneChoice

  /** `local t = {}  function t.used() return 1 end  function t.idle() return 2 end
      local function deaf(x) return 3 end  local function passed() end  deaf(passed)  return t.used()` */
  function Fresh(): Expr { Expr.Table(0, NoItems) }
  function T(): Expr { Expr.Local(0) }
  function Idling(): Target { ToField(T(), "idle") }
  function Using(): Target { ToField(T(), "used") }
  function Passes(): Stmt { Do(Call(Expr.Local(1), Arg(Expr.Local(3), NoArgs))) }
  function Last(): Stmt { Return(Call(Index(T(), "used"), NoArgs)) }

  function Tail(): Stmt {
    Then(LocalFunction(1, 3), Then(LocalFunction(3, 4), Then(Passes(), Last())))
  }

  function Body(): Stmt {
    Then(Declare(0, Fresh()), Then(FunctionAt(Using(), 1), Then(FunctionAt(Idling(), 2), Tail())))
  }

  function Gives(n: int): Stmt { Return(Const(Num(n))) }

  function Example(): Package {
    Package([TableSite, Closure({}, [], Gives(1)), Closure({}, [], Gives(2)), Closure({}, [2], Gives(3)), Closure({}, [], Skip)],
            [Module("main", Body())], 0, map[0 := Fresh()], {}, map[1 := Using(), 2 := Idling()], 4, {"used", "idle"})
  }

  function Known(): Facts {
    {MayHold(OfLocal(0), 0), MayHold(OfField(0, "used"), 1), MayHold(OfField(0, "idle"), 2), MayHold(OfLocal(1), 3),
     MayHold(OfLocal(3), 4), MayHold(OfLocal(2), 4), Active(1), Active(3), Observed(1)}
  }

  function Looked(): ReadKeys { {(0, "used")} }

  lemma EndScoped()
    ensures InScopeS(Example(), {0, 1, 3}, Then(Passes(), Last()))
  {
    assert InScopeS(Example(), {0, 1, 3}, Passes()) && ScopeAfter({0, 1, 3}, Passes()) == {0, 1, 3};
    assert InScopeS(Example(), {0, 1, 3}, Last());
  }

  lemma TailScoped()
    ensures InScopeS(Example(), {0}, Tail())
  {
    hide Passes, Last;
    EndScoped();
    assert {0} + {1} == {0, 1} && {0, 1} + {3} == {0, 1, 3};
    assert InScopeS(Example(), {0, 1}, Then(LocalFunction(3, 4), Then(Passes(), Last())));
  }

  lemma ExampleScoped()
    ensures WellScoped(Example())
  {
    hide Tail;
    TailScoped();
    assert ScopeAfter({}, Declare(0, Fresh())) == {0};
    assert InScopeS(Example(), {0}, FunctionAt(Idling(), 2)) && InScopeS(Example(), {0}, FunctionAt(Using(), 1));
    assert InScopeS(Example(), {0}, Then(FunctionAt(Idling(), 2), Tail()));
    assert InScopeS(Example(), {}, Body());
    forall o | 0 <= o < 5 ensures InScopeObject(Example(), o) {
    }
  }

  lemma AtIs(facts: Facts, place: Place, o: nat)
    requires MayHold(place, o) in facts && MayBeAny(place) !in facts && forall v :: MayHold(place, v) in facts ==> v == o
    ensures At(facts, place) == One(o)
  {
  }

  lemma AtNone(facts: Facts, place: Place)
    requires MayBeAny(place) !in facts && forall v :: MayHold(place, v) !in facts
    ensures At(facts, place) == NOTHING
  {
  }

  lemma Locals()
    ensures At(Known(), OfLocal(0)) == One(0) && At(Known(), OfLocal(1)) == One(3) && At(Known(), OfLocal(3)) == One(4)
  {
    AtIs(Known(), OfLocal(0), 0);
    AtIs(Known(), OfLocal(1), 3);
    AtIs(Known(), OfLocal(3), 4);
  }

  lemma Fields()
    ensures FieldOf(Example(), Known(), One(0), "used") == One(1)
  {
    hide At;
    AtIs(Known(), OfField(0, "used"), 1);
    AtNone(Known(), OfEntries(0));
    FieldOfOne(Example(), Known(), NOTHING, 0, "used");
    FieldOfNone(Example(), Known(), false, "used");
    assert Abs(false, {} + {0}) == One(0);
  }

  lemma Results(o: nat)
    requires o == 1 || o == 3
    ensures ResultOf(Example(), Known(), One(o)) == NOTHING
  {
    hide At;
    AtNone(Known(), OfReturn(o));
    ResultOfOne(Example(), Known(), NOTHING, o);
    NoResult();
    assert Abs(false, {} + {o}) == One(o);
  }

  lemma NoResult()
    ensures ResultOf(Example(), Known(), NOTHING) == NOTHING
  {
  }

  lemma Values()
    ensures At(Known(), OfLocal(0)) == One(0) && At(Known(), OfLocal(1)) == One(3) && At(Known(), OfLocal(3)) == One(4)
    ensures At(Known(), OfModule(0)) == NOTHING && FieldOf(Example(), Known(), One(0), "used") == One(1)
    ensures ResultOf(Example(), Known(), One(1)) == NOTHING && ResultOf(Example(), Known(), One(3)) == NOTHING
  {
    hide At, FieldOf, ResultOf, Example;
    Locals();
    Fields();
    Results(1);
    Results(3);
    AtNone(Known(), OfModule(0));
  }

  lemma PassesSettled()
    ensures SettledS(Example(), Known(), Looked(), OfModule(0), Passes())
  {
    hide At, FieldOf, ResultOf;
    Values();
    var args := Arg(Expr.Local(3), NoArgs);
    assert Meanings(Example(), Known(), args) == [One(4)];
    assert Called(Example(), Known(), One(3), [One(4)]);
  }

  lemma LastSettled()
    ensures SettledS(Example(), Known(), Looked(), OfModule(0), Last())
  {
    hide At, FieldOf, ResultOf;
    Values();
    assert SettledE(Example(), Known(), Looked(), Index(T(), "used"));
    assert Called(Example(), Known(), One(1), []);
  }

  lemma StoresSettled()
    ensures SettledS(Example(), Known(), Looked(), OfModule(0), FunctionAt(Using(), 1))
    ensures SettledS(Example(), Known(), Looked(), OfModule(0), FunctionAt(Idling(), 2))
    ensures SettledS(Example(), Known(), Looked(), OfModule(0), Declare(0, Fresh()))
  {
    hide At, FieldOf, ResultOf;
    Values();
  }

  lemma ExampleSettled()
    ensures PostFixpoint(Example(), Known(), Looked())
  {
    hide At, Passes, Last, Known;
    Values();
    PassesSettled();
    LastSettled();
    StoresSettled();
    LocalsSettled();
    assert SettledS(Example(), Known(), Looked(), OfModule(0), Then(LocalFunction(3, 4), Then(Passes(), Last())));
    assert SettledS(Example(), Known(), Looked(), OfModule(0), Tail());
    assert SettledS(Example(), Known(), Looked(), OfModule(0), Then(FunctionAt(Idling(), 2), Tail()));
    assert SettledS(Example(), Known(), Looked(), OfModule(0), Body());
    forall o | 0 <= o < 5 ensures SettledObject(Example(), Known(), Looked(), o) {
      ObjectSettled(o);
    }
  }

  lemma LocalsSettled()
    ensures SettledS(Example(), Known(), Looked(), OfModule(0), LocalFunction(1, 3))
    ensures SettledS(Example(), Known(), Looked(), OfModule(0), LocalFunction(3, 4))
  {
  }

  lemma ObjectSettled(o: nat)
    requires o < 5
    ensures SettledObject(Example(), Known(), Looked(), o)
  {
    hide Body;
  }

  lemma TailReached(facts: Facts, seen: ReadKeys)
    requires SettledS(Example(), facts, seen, OfModule(0), Body())
    ensures SettledS(Example(), facts, seen, OfModule(0), Tail())
  {
    hide Tail;
    assert SettledS(Example(), facts, seen, OfModule(0), Then(FunctionAt(Idling(), 2), Tail()));
  }

  lemma EndReached(facts: Facts, seen: ReadKeys)
    requires SettledS(Example(), facts, seen, OfModule(0), Tail())
    ensures SettledS(Example(), facts, seen, OfModule(0), Passes()) && SettledS(Example(), facts, seen, OfModule(0), Last())
  {
    hide Passes, Last;
    assert SettledS(Example(), facts, seen, OfModule(0), Then(LocalFunction(3, 4), Then(Passes(), Last())));
    assert SettledS(Example(), facts, seen, OfModule(0), Then(Passes(), Last()));
  }

  lemma Calls(facts: Facts, func: Expr, args: Exprs, o: nat)
    requires Called(Example(), facts, Meaning(Example(), facts, func), Meanings(Example(), facts, args))
    requires o in Meaning(Example(), facts, func).objects && (o == 1 || o == 3)
    ensures Active(o) in facts
  {
    hide Meaning, Meanings;
    assert CalledObject(Example(), facts, o, Meanings(Example(), facts, args));
  }

  /** Whatever the facts, `used` and `deaf` are called. */
  lemma Needed(facts: Facts, seen: ReadKeys)
    requires PostFixpoint(Example(), facts, seen)
    ensures Active(1) in facts && Active(3) in facts
  {
    hide Body, Tail, Meaning, Meanings, Called;
    assert SettledS(Example(), facts, seen, OfModule(0), Body());
    TailReached(facts, seen);
    EndReached(facts, seen);
    BodyStores(facts, seen);
    Calls(facts, Expr.Local(1), Arg(Expr.Local(3), NoArgs), 3);
    Calls(facts, Index(T(), "used"), NoArgs, 1);
  }

  lemma BodyStores(facts: Facts, seen: ReadKeys)
    requires SettledS(Example(), facts, seen, OfModule(0), Body()) && SettledS(Example(), facts, seen, OfModule(0), Tail())
    ensures MayHold(OfLocal(0), 0) in facts && MayHold(OfField(0, "used"), 1) in facts && MayHold(OfLocal(1), 3) in facts
    ensures 1 in Meaning(Example(), facts, Index(T(), "used")).objects && 3 in Meaning(Example(), facts, Expr.Local(1)).objects
  {
    assert Flows(facts, One(0), OfLocal(0));
    assert SettledS(Example(), facts, seen, OfModule(0), FunctionAt(Using(), 1)) by {
      assert SettledS(Example(), facts, seen, OfModule(0), Then(FunctionAt(Using(), 1), Then(FunctionAt(Idling(), 2), Tail())));
    }
    assert 0 in At(facts, OfLocal(0)).objects && StoredIn(Example(), facts, 0, OfField(0, "used"), One(1));
    assert IsFieldOf(Example(), OfField(0, "used"), At(facts, OfLocal(0)).objects, "used");
    assert Flows(facts, One(3), OfLocal(1));
  }

  lemma Cuts(c: Cut)
    requires c.p == Example() && c.facts <= Known() && c.seen <= Looked() && Sound(c)
    requires forall o :: 0 <= o < 5 ==> Chosen(c, {1, 2, 3, 4}, o, o in c.dead, o in c.gone)
    ensures 1 !in c.dead && 2 in c.gone && 3 !in c.dead && 4 in c.dead && 4 !in c.gone
  {
    hide PostFixpoint, WellScoped;
    Needed(c.facts, c.seen);
    assert Chosen(c, {1, 2, 3, 4}, 1, 1 in c.dead, 1 in c.gone) && Chosen(c, {1, 2, 3, 4}, 3, 3 in c.dead, 3 in c.gone);
    assert Chosen(c, {1, 2, 3, 4}, 2, 2 in c.dead, 2 in c.gone) && Chosen(c, {1, 2, 3, 4}, 4, 4 in c.dead, 4 in c.gone);
    assert Anchor(Example(), T(), 2) == Some(0);
    assert RemovableWithin(c, T(), "idle", 2);
  }

  lemma ExactlyThese(c: Cut)
    requires c.p == Example() && Sound(c) && forall o :: 0 <= o < 5 ==> Chosen(c, {1, 2, 3, 4}, o, o in c.dead, o in c.gone)
    requires 1 !in c.dead && 2 in c.gone && 3 !in c.dead && 4 in c.dead && 4 !in c.gone
    requires forall o :: o in c.dead ==> o < 5
    ensures c.dead == {2, 4} && c.gone == {2}
  {
    hide PostFixpoint, WellScoped;
    assert Chosen(c, {1, 2, 3, 4}, 0, 0 in c.dead, 0 in c.gone);
  }

  /** The idle method goes with its statement, the ignored argument becomes nil, and nothing else changes. */
  method PruneExample() returns (r: Option<Cut>)
    ensures r.Some? && r.value.p == Example() && r.value.dead == {2, 4} && r.value.gone == {2}
  {
    hide PostFixpoint, WellScoped, Pruned, Sound, Kept, Indistinguishable, Universe, Example;
    ExampleScoped();
    ExampleSettled();
    Sized();
    r := PruneBelow(Example(), false, {1, 2, 3, 4}, Goal(true, Known(), Looked()));
    Cuts(r.value);
    Functions(r.value);
    ExactlyThese(r.value);
  }

  lemma Sized()
    ensures |Example().objects| == 5
  {
  }

  lemma Functions(c: Cut)
    requires c.p == Example() && Sound(c)
    ensures forall o :: o in c.dead ==> o < 5
  {
    hide PostFixpoint, WellScoped;
  }
}
