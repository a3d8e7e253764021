/** Why operands must be kept: a package whose function reaches the host as the operand of a host value's
    operator. The analysis takes it for observed only, never looks into its body and cuts what it calls. */
module HostOperators {
  import opened Wrappers
  import opened PackageSyntax
  import opened ClosureFacts
  import opened FactOrder
  import opened ClosureAnalysis
  import opened PackageMachine
  import opened Pruning
  import opened PruneChoice

  /** `local function h() return 1 end  local function g() return h() end  return x + g` */
  function Inner(): Stmt { Return(Const(Num(1))) }
  function Outer(): Stmt { Return(Call(Expr.Local(0), NoArgs)) }
  function Last(): Stmt { Return(Binary(1, Global("x"), Expr.Local(1))) }

  function Body(): Stmt {
    Then(LocalFunction(0, 0), Then(LocalFunction(1, 1), Last()))
  }

  function Example(): Package {
    Package([Closure({}, [], Inner()), Closure({0}, [], Outer())], [Module("main", Body())], 0, map[], {}, map[], 2, {})
  }

  function Known(): Facts {
    {MayHold(OfLocal(0), 0), MayHold(OfLocal(1), 1), Observed(1), MayBeAny(OfModule(0))}
  }

  lemma BodyScoped()
    ensures InScopeS(Example(), {}, Body())
  {
    assert ScopeAfter({}, LocalFunction(0, 0)) == {0} && ScopeAfter({0}, LocalFunction(1, 1)) == {0, 1};
    assert InScopeS(Example(), {0, 1}, Last());
    assert InScopeS(Example(), {0}, Then(LocalFunction(1, 1), Last()));
  }

  lemma ObjectScoped(o: nat)
    requires o < 2
    ensures InScopeObject(Example(), o)
  {
  }

  lemma ExampleScoped()
    ensures WellScoped(Example())
  {
    hide InScopeS, InScopeObject, Body;
    BodyScoped();
    ObjectScoped(0);
    ObjectScoped(1);
  }

  lemma LastSettled()
    ensures SettledS(Example(), Known(), {}, OfModule(0), Last())
  {
    assert At(Known(), OfLocal(1)) == One(1);
    assert SettledE(Example(), Known(), {}, Binary(1, Global("x"), Expr.Local(1)));
  }

  lemma ExampleSettled()
    ensures PostFixpoint(Example(), Known(), {})
  {
    hide Last;
    LastSettled();
    assert SettledS(Example(), Known(), {}, OfModule(0), LocalFunction(0, 0));
    assert SettledS(Example(), Known(), {}, OfModule(0), LocalFunction(1, 1));
    assert At(Known(), OfModule(0)) == ANY;
    assert SettledObject(Example(), Known(), {}, 0) && SettledObject(Example(), Known(), {}, 1);
  }

  lemma FunctionsKnown(all: Facts, seen: ReadKeys)
    requires SettledS(Example(), all, seen, OfModule(0), Body())
    ensures MayHold(OfLocal(0), 0) in all && MayHold(OfLocal(1), 1) in all && SettledS(Example(), all, seen, OfModule(0), Last())
  {
    hide Last;
    assert SettledS(Example(), all, seen, OfModule(0), LocalFunction(0, 0));
    assert SettledS(Example(), all, seen, OfModule(0), Then(LocalFunction(1, 1), Last()));
    assert 0 in One(0).objects && 1 in One(1).objects;
  }

  lemma LastKnown(all: Facts, seen: ReadKeys)
    requires MayHold(OfLocal(1), 1) in all && SettledS(Example(), all, seen, OfModule(0), Last())
    ensures Observed(1) in all && MayBeAny(OfModule(0)) in all
  {
    assert SettledE(Example(), all, seen, Binary(1, Global("x"), Expr.Local(1)));
    assert 1 in At(all, OfLocal(1)).objects;
  }

  /** The facts are the least. */
  lemma KnownCertain()
    ensures Certain(Example(), Known())
  {
    hide SettledS, SettledObject, Body;
    forall all, seen | PostFixpoint(Example(), all, seen) ensures Known() <= all {
      assert SettledS(Example(), all, seen, OfModule(0), Example().modules[0].body);
      FunctionsKnown(all, seen);
      LastKnown(all, seen);
    }
  }

  // ----- the two runs -----

  /** The host's operator calls the function it is shown, and answers with its result. */
  function Answers(trace: seq<Event>): Action {
    if trace == [] || !trace[|trace| - 1].Saw? then Raise
    else if trace[|trace| - 1].value.Fun? then Invoke(Seen(|trace| - 1), [])
    else Reply(Seen(|trace| - 1))
  }

  function World(): Host {
    Host((name, trace) => Own(0), trace => Answers(trace), (op, a, b) => None, fields => 0)
  }

  /** Calling `g`, when the first cell holds `f`. */
  lemma OuterRuns(p: Package, fuel: nat, h: Heap, env: Env, f: Value)
    requires fuel > 0 && IsFunction(p, 1) && p.objects[1].params == [] && p.objects[1].body == Outer()
    requires env == map[0 := 0, 1 := 1] && |h.values| == 2 && h.values[0] == f
    requires f == NIL || (f.Fun? && f.id == 0 && IsFunction(p, 0) && p.objects[0].params == [] && p.objects[0].body == Inner())
    ensures var r := CallValue(p, World(), fuel, h, Fun(1, env), []);
            if f == NIL then r.Failed? else r.Ok? && r.value == Plain(Num(1))
  {
    var h1 := PackageMachine.Enter(h, 1);
    assert Bind(h1, env, [], []) == (env, h1);
    assert Eval(p, World(), fuel, env, h1, Expr.Local(0)) == Ok(f, h1);
    assert EvalAll(p, World(), fuel, env, h1, NoArgs) == Ok([], h1);
    if f.Fun? {
      var h2 := PackageMachine.Enter(h1, 0);
      assert Bind(h2, f.env, [], []) == (f.env, h2);
      assert Exec(p, World(), fuel - 1, f.env, h2, Inner()) == Ok(Back(Plain(Num(1))), h2);
      assert CallValue(p, World(), fuel - 1, h1, f, []) == Ok(Plain(Num(1)), h2);
    } else {
      assert CallValue(p, World(), fuel - 1, h1, f, []).Failed?;
    }
    assert Exec(p, World(), fuel, env, h1, Outer()) ==
           match CallValue(p, World(), fuel - 1, h1, f, []) {
             case Ok(v, h2) => Ok(Back(v), h2)
             case Failed(h2) => Failed(h2)
             case Spent(h2) => Spent(h2)
           };
  }

  /** The operator on the host value and `g`. */
  lemma OperatorRuns(p: Package, fuel: nat, h: Heap, env: Env, f: Value)
    requires fuel > 2 && IsFunction(p, 1) && p.objects[1].params == [] && p.objects[1].body == Outer()
    requires env == map[0 := 0, 1 := 1] && |h.values| == 2 && h.values[0] == f
    requires f == NIL || (f.Fun? && f.id == 0 && IsFunction(p, 0) && p.objects[0].params == [] && p.objects[0].body == Inner())
    ensures var r := Operate(p, World(), fuel, h, 1, Foreign(0), Fun(1, env));
            if f == NIL then r.Failed? else r.Ok?
  {
    hide CallValue;
    var g := Fun(1, env);
    var vs := [Foreign(0), g];
    assert vs[1..] == [g] && Sights([]) == [] && Sights([g]) == [Saw(g)];
    var h1 := Tell(h, [Asked(Operating(1)), Saw(Foreign(0)), Saw(g)]);
    assert Sights(vs) == [Saw(Foreign(0)), Saw(g)];
    assert [Asked(Operating(1))] + Sights(vs) == [Asked(Operating(1)), Saw(Foreign(0)), Saw(g)];
    assert Operate(p, World(), fuel, h, 1, Foreign(0), g) == HostTurn(p, World(), fuel - 1, h1);
    OuterRuns(p, fuel - 2, h1, env, f);
    var r := CallValue(p, World(), fuel - 2, h1, g, []);
    assert DerefAll(h1.trace, []) == [] && Deref(h1.trace, Seen(|h1.trace| - 1)) == g;
    var h2 := Tell(r.heap, [if r.Ok? then Saw(r.value) else Raised]);
    assert HostTurn(p, World(), fuel - 1, h1) == HostTurn(p, World(), fuel - 2, h2);
  }

  lemma LastRuns(p: Package, fuel: nat, env: Env, h: Heap, f: Value)
    requires fuel > 2 && IsFunction(p, 1) && p.objects[1].params == [] && p.objects[1].body == Outer()
    requires env == map[0 := 0, 1 := 1] && h.values == [f, Fun(1, env)]
    requires f == NIL || (f.Fun? && f.id == 0 && IsFunction(p, 0) && p.objects[0].params == [] && p.objects[0].body == Inner())
    ensures var r := Exec(p, World(), fuel, env, h, Last());
            if f == NIL then r.Failed? else r.Ok? && r.value.Back?
  {
    hide Operate;
    OperatorRuns(p, fuel, h, env, f);
    assert Eval(p, World(), fuel, env, h, Global("x")) == Ok(Foreign(0), h);
    assert Eval(p, World(), fuel, env, h, Expr.Local(1)) == Ok(Fun(1, env), h);
  }

  lemma OriginalReturns(fuel: nat)
    requires fuel > 2
    ensures PackageMachine.Run(Example(), World(), fuel).Ok?
  {
    hide Last;
    var p, w := Example(), World();
    var h0 := SetModule(Start(p), 0, Loading);
    var env1: Env := map[0 := 0];
    var env: Env := map[0 := 0, 1 := 1];
    var h1 := AddCell(h0, 0, Fun(0, env1));
    var h2 := AddCell(h1, 1, Fun(1, env));
    assert env1[1 := 1] == env;
    assert Exec(p, w, fuel, map[], h0, LocalFunction(0, 0)) == Ok(Next(env1), h1);
    assert Exec(p, w, fuel, env1, h1, LocalFunction(1, 1)) == Ok(Next(env), h2);
    LastRuns(p, fuel, env, h2, Fun(0, env1));
    assert Exec(p, w, fuel, env1, h1, Then(LocalFunction(1, 1), Last())) == Exec(p, w, fuel, env, h2, Last());
    assert Exec(p, w, fuel, map[], h0, Body()) == Exec(p, w, fuel, env, h2, Last());
  }

  /** A cut of just the inner function. */
  predicate CutsH(c: Cut) {
    c.p == Example() && c.dead == {0} && c.gone == {}
  }

  function Remains(): Stmt {
    Then(Declare(0, Const(Nil)), Then(LocalFunction(1, 1), Last()))
  }

  lemma PrunedBody(c: Cut)
    requires CutsH(c)
    ensures Pruned(c).modules == [Module("main", Remains())] && Pruned(c).entry == 0
    ensures Pruned(c).objects == [Closure({}, [], Inner()), Closure({0}, [], Outer())]
  {
    assert PruneS(c, Last()) == Last() && PruneS(c, Inner()) == Inner();
    assert PruneE(c, Call(Expr.Local(0), NoArgs)) == Call(Expr.Local(0), NoArgs);
    assert PruneS(c, Outer()) == Outer() && PruneS(c, Body()) == Remains();
  }

  lemma PrunedFails(c: Cut, fuel: nat)
    requires CutsH(c) && fuel > 2
    ensures PackageMachine.Run(Pruned(c), World(), fuel).Failed?
  {
    hide PruneS, PruneE, PruneObjects, PruneModules, Pruned, Last;
    var p, w := Pruned(c), World();
    PrunedBody(c);
    var h0 := SetModule(Start(p), 0, Loading);
    var h1 := AddCell(h0, 0, NIL);
    var env1: Env := map[0 := 0];
    var env: Env := env1[1 := 1];
    var h2 := AddCell(h1, 1, Fun(1, env));
    assert Exec(p, w, fuel, map[], h0, Declare(0, Const(Nil))) == Ok(Next(env1), h1);
    assert Exec(p, w, fuel, env1, h1, LocalFunction(1, 1)) == Ok(Next(env), h2);
    LastRuns(p, fuel, env, h2, NIL);
    assert Exec(p, w, fuel, env1, h1, Then(LocalFunction(1, 1), Last())).Failed?;
    assert Exec(p, w, fuel, map[], h0, Remains()).Failed?;
  }

  lemma CutChosen(c: Cut)
    requires c.p == Example() && Known() <= c.facts <= Known() && Sound(c)
    requires forall o :: 0 <= o < 2 ==> Chosen(c, {0, 1}, o, o in c.dead, o in c.gone)
    ensures CutsH(c)
  {
    hide PostFixpoint, WellScoped;
    assert Unused(c.facts, 0) && !Unused(c.facts, 1);
    assert Chosen(c, {0, 1}, 0, 0 in c.dead, 0 in c.gone) && Chosen(c, {0, 1}, 1, 1 in c.dead, 1 in c.gone);
  }

  /** The analysis cuts the inner function, and the outcome differs. */
  method PruneExample(fuel: nat) returns (r: Option<Cut>)
    requires fuel > 2
    ensures r.Some? && Sound(r.value) && r.value.p == Example()
    ensures PackageMachine.Run(Example(), World(), fuel).Ok? && PackageMachine.Run(Pruned(r.value), World(), fuel).Failed?
  {
    hide PostFixpoint, WellScoped, Exec, Eval, Pruned, Sound, Kept, Indistinguishable, Universe;
    ExampleScoped();
    ExampleSettled();
    r := PruneBelow(Example(), false, {0, 1}, Goal(true, Known(), {}));
    KnownCertain();
    CutCertain(r.value);
    CutChosen(r.value);
    OriginalReturns(fuel);
    PrunedFails(r.value, fuel);
  }

  lemma CutCertain(c: Cut)
    requires Sound(c) && c.p == Example() && Certain(c.p, Known())
    ensures Known() <= c.facts
  {
  }

  function TheCut(): Cut { Cut(Example(), Known(), {}, {0}, {}) }

  lemma CutSound()
    ensures Sound(TheCut()) && Known() <= Universe(Example())
  {
    hide PostFixpoint, WellScoped;
    ExampleScoped();
    ExampleSettled();
    forall f | f in Known() ensures FitsFact(Example(), f) {
    }
  }

  /** So the package does not meet the condition under which pruning is safe. */
  lemma NotPrunable()
    ensures WellScoped(Example()) && !Prunable(Example())
  {
    hide PostFixpoint, WellScoped, Pruned, Kept, Sound, Universe;
    ExampleScoped();
    if lower, upper, known :| KeptBetween(Example(), lower, upper, known) {
      CutSound();
      OriginalReturns(3);
      PrunedFails(TheCut(), 3);
      assert !BehavesAs(TheCut(), World(), 3);
      KnownCertain();
      BoundsFit(TheCut(), lower, upper, known);
      KeptIndistinguishable(TheCut(), upper, known);
    }
  }
}
