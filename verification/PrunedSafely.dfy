/** A package that meets the condition: it computes with strings, and its idle function is cut without any
    host noticing. */
module PrunedSafely {
  import opened Wrappers
  import opened PackageSyntax
  import opened ClosureFacts
  import opened FactOrder
  import opened ClosureAnalysis
  import opened Pruning
  import opened PruneChoice

  /** `local function f() end  local s = "a"  return s .. "b"` */
  function Subject(): Expr { Const(Str("a")) }
  function Last(): Stmt { Return(Binary(1, Expr.Local(1), Const(Str("b")))) }

  function Body(): Stmt {
    Then(LocalFunction(0, 0), Then(Declare(1, Subject()), Last()))
  }

  function Example(): Package {
    Package([Closure({}, [], Skip)], [Module("main", Body())], 0, map[1 := Subject()], {}, map[], 2, {})
  }

  /** Object 1 stands for strings. */
  function Tracked(): Facts {
    {MayHold(OfText, 1), MayHold(OfLocal(0), 0), MayHold(OfLocal(1), 1), Observed(1), MayBeAny(OfModule(0))}
  }

  lemma ExampleScoped()
    ensures WellScoped(Example())
  {
    assert ScopeAfter({}, LocalFunction(0, 0)) == {0} && ScopeAfter({0}, Declare(1, Subject())) == {0, 1};
    assert InScopeS(Example(), {0, 1}, Last());
    assert InScopeS(Example(), {0}, Then(Declare(1, Subject()), Last()));
    assert InScopeObject(Example(), 0);
  }

  lemma Values()
    ensures At(Tracked(), OfText) == One(1) && At(Tracked(), OfLocal(1)) == One(1) && At(Tracked(), OfModule(0)) == ANY
    ensures Text(Example()) == 1
  {
  }

  lemma LastSettled()
    ensures SettledS(Example(), Tracked(), {}, OfModule(0), Last())
  {
    Values();
    assert SettledE(Example(), Tracked(), {}, Binary(1, Expr.Local(1), Const(Str("b"))));
  }

  lemma BodySettled()
    ensures SettledS(Example(), Tracked(), {}, OfModule(0), Body())
  {
    hide Last;
    Values();
    LastSettled();
    assert SettledS(Example(), Tracked(), {}, OfModule(0), LocalFunction(0, 0));
    assert SettledS(Example(), Tracked(), {}, OfModule(0), Declare(1, Subject()));
  }

  lemma ExampleSettled()
    ensures PostFixpoint(Example(), Tracked(), {}) && Tracks(Example(), Tracked())
  {
    hide SettledS, Body;
    Values();
    BodySettled();
    assert SettledObject(Example(), Tracked(), {}, 0);
  }

  /** Nothing has to be certain. */
  lemma Between()
    ensures KeptBetween(Example(), {}, Tracked(), {})
  {
    hide PostFixpoint;
    ExampleSettled();
    Values();
    var b := Bounds(Example(), {}, Tracked(), Idle(Example(), {}));
    assert OperandsKept(b, 1, Expr.Local(1), Const(Str("b")));
    assert KeptS(b, Last()) && KeptS(b, Then(Declare(1, Subject()), Last()));
  }

  lemma Meets()
    ensures WellScoped(Example()) && Prunable(Example())
  {
    hide WellScoped, KeptBetween;
    ExampleScoped();
    Between();
  }

  lemma Cuts(c: Cut)
    requires c.p == Example() && c.facts <= Tracked() && Sound(c) && Chosen(c, {0}, 0, 0 in c.dead, 0 in c.gone)
    ensures c.dead == {0}
  {
    hide PostFixpoint, WellScoped;
    assert Unused(c.facts, 0);
  }

  method PruneExample() returns (r: Option<Cut>)
    ensures r.Some? && r.value.p == Example() && r.value.dead == {0} && Indistinguishable(r.value)
  {
    hide PostFixpoint, WellScoped, Pruned, Sound, Kept, Indistinguishable, Universe;
    Meets();
    ExampleSettled();
    Between();
    r := PruneBelow(Example(), false, {0}, Goal(true, Tracked(), {}));
    Cuts(r.value);
    BoundsFit(r.value, {}, Tracked(), {});
  }
}
