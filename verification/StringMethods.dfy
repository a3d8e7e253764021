/** Why strings must be tracked: a package that hands a function to a method of a constant string, cut by the
    analysis so that the method receives nil. */
module StringMethods {
  import opened Wrappers
  import opened PackageSyntax
  import opened ClosureFacts
  import opened FactOrder
  import opened ClosureAnalysis
  import opened PackageMachine
  import opened Pruning
  import opened PruneChoice

  /** `local s = "abc"  local function f() end  return s:gsub("b", f)` */
  function Subject(): Expr { Const(Str("abc")) }
  function Args(): Exprs { Arg(Expr.Local(0), Arg(Const(Str("b")), Arg(Expr.Local(1), NoArgs))) }
  function Last(): Stmt { Return(Call(Index(Expr.Local(0), "gsub"), Args())) }

  function Body(): Stmt {
    Then(Declare(0, Subject()), Then(LocalFunction(1, 0), Last()))
  }

  function Example(): Package {
    Package([Closure({}, [], Skip)], [Module("main", Body())], 0, map[0 := Subject()], {}, map[], 2, {"gsub"})
  }

  function Known(): Facts { {MayHold(OfLocal(1), 0)} }

  lemma ExampleScoped()
    ensures WellScoped(Example())
  {
    assert ScopeAfter({}, Declare(0, Subject())) == {0} && ScopeAfter({0}, LocalFunction(1, 0)) == {0, 1};
    assert InScopeS(Example(), {0, 1}, Last());
    assert InScopeS(Example(), {0}, Then(LocalFunction(1, 0), Last()));
    assert InScopeObject(Example(), 0);
  }

  lemma LastSettled()
    ensures SettledS(Example(), Known(), {}, OfModule(0), Last())
  {
    var p, f := Example(), Known();
    assert At(f, OfLocal(0)) == NOTHING;
    assert Meaning(p, f, Index(Expr.Local(0), "gsub")) == NOTHING;
    assert ResultOf(p, f, NOTHING) == NOTHING;
    assert SettledE(p, f, {}, Index(Expr.Local(0), "gsub"));
    assert SettledArgs(p, f, {}, Arg(Const(Str("b")), Arg(Expr.Local(1), NoArgs)));
    assert SettledE(p, f, {}, Call(Index(Expr.Local(0), "gsub"), Args()));
  }

  lemma ExampleSettled()
    ensures PostFixpoint(Example(), Known(), {})
  {
    hide Last;
    LastSettled();
    assert SettledS(Example(), Known(), {}, OfModule(0), Declare(0, Subject()));
    assert SettledS(Example(), Known(), {}, OfModule(0), LocalFunction(1, 0));
    assert At(Known(), OfModule(0)) == NOTHING;
    assert SettledObject(Example(), Known(), {}, 0);
  }

  /** The facts are the least. */
  lemma KnownCertain()
    ensures Certain(Example(), Known())
  {
    forall all, seen | PostFixpoint(Example(), all, seen) ensures Known() <= all {
      assert SettledS(Example(), all, seen, OfModule(0), Body());
      assert SettledS(Example(), all, seen, OfModule(0), LocalFunction(1, 0));
      assert 0 in One(0).objects;
    }
  }

  // ----- the two runs -----

  /** `gsub` raises unless its last argument is a function. */
  function Answers(trace: seq<Event>): Action {
    if trace == [] || !trace[|trace| - 1].Saw? then Raise
    else
      match trace[|trace| - 1].value
      case Fun(_, _) => Reply(Made(Num(1)))
      case Plain(Str(s)) => if s == "gsub" then Reply(Own(0)) else Raise
      case _ => Raise
  }

  function World(): Host {
    Host((name, trace) => Made(Nil), trace => Answers(trace), (op, a, b) => None, fields => 0)
  }

  lemma SightsEnd(vs: seq<Value>, v: Value)
    ensures var s := Sights(vs + [v]); s != [] && s[|s| - 1] == Saw(v)
  {
    if vs != [] {
      assert (vs + [v])[1..] == vs[1..] + [v];
      SightsEnd(vs[1..], v);
    }
  }

  /** The host answers by the last operand. */
  lemma Answered(p: Package, fuel: nat, h: Heap, what: Request, vs: seq<Value>, v: Value)
    requires fuel > 0
    ensures var after := Tell(h, [Asked(what)] + Sights(vs + [v]));
            Ask(p, World(), fuel, h, what, vs + [v]) == HostTurn(p, World(), fuel - 1, after)
            && after.trace != [] && after.trace[|after.trace| - 1] == Saw(v)
  {
    SightsEnd(vs, v);
  }

  lemma MethodFound(p: Package, fuel: nat, h: Heap, v: Value)
    requires fuel > 0 && v == Plain(Str("abc"))
    ensures var r := ReadFrom(p, World(), fuel, h, v, Plain(Str("gsub")));
            r.Ok? && r.value == Foreign(0) && r.heap.values == h.values
  {
    Answered(p, fuel, h, Indexing, [v], Plain(Str("gsub")));
    assert [v] + [Plain(Str("gsub"))] == [v, Plain(Str("gsub"))];
  }

  /** The call of `gsub`, with `f` as last argument. */
  lemma MethodCalled(p: Package, fuel: nat, h: Heap, f: Value)
    requires fuel > 0 && (f.Fun? || f == NIL)
    ensures var r := CallValue(p, World(), fuel, h, Foreign(0), [Plain(Str("abc")), Plain(Str("b")), f]);
            if f.Fun? then r.Ok? else r.Failed?
  {
    var vs := [Foreign(0), Plain(Str("abc")), Plain(Str("b"))];
    Answered(p, fuel, h, Invoking, vs, f);
    assert vs + [f] == [Foreign(0)] + [Plain(Str("abc")), Plain(Str("b")), f];
  }

  /** The last statement, with `f` in the second cell. */
  lemma LastRuns(p: Package, fuel: nat, env: Env, h: Heap, f: Value)
    requires fuel > 1 && (f.Fun? || f == NIL) && env == map[0 := 0, 1 := 1] && h.values == [Plain(Str("abc")), f]
    ensures var r := Exec(p, World(), fuel, env, h, Last());
            if f.Fun? then r.Ok? && r.value.Back? else r.Failed?
  {
    hide ReadFrom, CallValue;
    var abc := Plain(Str("abc"));
    MethodFound(p, fuel, h, abc);
    var e := Index(Expr.Local(0), "gsub");
    assert Eval(p, World(), fuel, env, h, Expr.Local(0)) == Ok(abc, h);
    var m := Eval(p, World(), fuel, env, h, e);
    assert m == ReadFrom(p, World(), fuel, h, abc, Plain(Str("gsub")));
    ArgsRun(p, fuel, env, m.heap, f);
    MethodCalled(p, fuel - 1, m.heap, f);
    assert Eval(p, World(), fuel, env, h, Call(e, Args())) == CallValue(p, World(), fuel - 1, m.heap, Foreign(0), [abc, Plain(Str("b")), f]);
  }

  lemma ArgsRun(p: Package, fuel: nat, env: Env, h: Heap, f: Value)
    requires env == map[0 := 0, 1 := 1] && h.values == [Plain(Str("abc")), f]
    ensures EvalAll(p, World(), fuel, env, h, Args()) == Ok([Plain(Str("abc")), Plain(Str("b")), f], h)
  {
    var third := Arg(Expr.Local(1), NoArgs);
    assert EvalAll(p, World(), fuel, env, h, NoArgs) == Ok([], h);
    assert EvalAll(p, World(), fuel, env, h, third) == Ok([f], h) by {
      assert [f] + [] == [f];
    }
    var second := Arg(Const(Str("b")), third);
    assert EvalAll(p, World(), fuel, env, h, second) == Ok([Plain(Str("b")), f], h) by {
      assert [Plain(Str("b"))] + [f] == [Plain(Str("b")), f];
    }
    assert [Plain(Str("abc"))] + [Plain(Str("b")), f] == [Plain(Str("abc")), Plain(Str("b")), f];
  }

  lemma OriginalReturns(fuel: nat)
    requires fuel > 1
    ensures PackageMachine.Run(Example(), World(), fuel).Ok?
  {
    hide Last;
    var p, w := Example(), World();
    var h0 := SetModule(Start(p), 0, Loading);
    var h1 := AddCell(h0, 0, Plain(Str("abc")));
    var env: Env := map[0 := 0, 1 := 1];
    var f := Fun(0, env);
    var h2 := AddCell(h1, 1, f);
    var env1: Env := map[0 := 0];
    assert env1[1 := 1] == env;
    assert Exec(p, w, fuel, map[], h0, Declare(0, Subject())) == Ok(Next(env1), h1);
    assert Exec(p, w, fuel, env1, h1, LocalFunction(1, 0)) == Ok(Next(env), h2);
    LastRuns(p, fuel, env, h2, f);
    assert Exec(p, w, fuel, env1, h1, Then(LocalFunction(1, 0), Last())) == Exec(p, w, fuel, env, h2, Last());
    assert Exec(p, w, fuel, map[], h0, Body()) == Exec(p, w, fuel, env, h2, Last());
  }

  /** A cut of just the function. */
  predicate CutsF(c: Cut) {
    c.p == Example() && c.dead == {0} && c.gone == {}
  }

  function Remains(): Stmt {
    Then(Declare(0, Subject()), Then(Declare(1, Const(Nil)), Last()))
  }

  lemma PrunedBody(c: Cut)
    requires CutsF(c)
    ensures Pruned(c).modules == [Module("main", Remains())] && Pruned(c).entry == 0
  {
    assert PruneArgs(c, Args()) == Args();
    assert PruneS(c, Last()) == Last();
    assert PruneS(c, Body()) == Remains();
  }

  lemma PrunedFails(c: Cut, fuel: nat)
    requires CutsF(c) && fuel > 1
    ensures PackageMachine.Run(Pruned(c), World(), fuel).Failed?
  {
    hide PruneS, PruneE, PruneObjects, PruneModules, Pruned, Last;
    var p, w := Pruned(c), World();
    PrunedBody(c);
    var h0 := SetModule(Start(p), 0, Loading);
    var h1 := AddCell(h0, 0, Plain(Str("abc")));
    var h2 := AddCell(h1, 1, NIL);
    var env1: Env := map[0 := 0];
    var env: Env := env1[1 := 1];
    assert Exec(p, w, fuel, map[], h0, Declare(0, Subject())) == Ok(Next(env1), h1);
    assert Exec(p, w, fuel, env1, h1, Declare(1, Const(Nil))) == Ok(Next(env), h2);
    LastRuns(p, fuel, env, h2, NIL);
    assert Exec(p, w, fuel, env1, h1, Then(Declare(1, Const(Nil)), Last())).Failed?;
    assert Exec(p, w, fuel, map[], h0, Remains()).Failed?;
  }

  lemma CutChosen(c: Cut)
    requires c.p == Example() && c.facts <= Known() && Sound(c)
    requires forall o :: 0 <= o < 1 ==> Chosen(c, {0}, o, o in c.dead, o in c.gone)
    ensures CutsF(c)
  {
    hide PostFixpoint, WellScoped;
    assert Unused(c.facts, 0);
    assert Chosen(c, {0}, 0, 0 in c.dead, 0 in c.gone);
  }

  /** The analysis cuts the function, and the outcome differs. */
  method PruneExample(fuel: nat) returns (r: Option<Cut>)
    requires fuel > 1
    ensures r.Some? && Sound(r.value) && r.value.p == Example()
    ensures PackageMachine.Run(Example(), World(), fuel).Ok? && PackageMachine.Run(Pruned(r.value), World(), fuel).Failed?
  {
    hide PostFixpoint, WellScoped, Exec, Eval, Pruned, Sound, Kept, Indistinguishable, Universe;
    ExampleScoped();
    ExampleSettled();
    r := PruneBelow(Example(), false, {0}, Goal(true, Known(), {}));
    CutChosen(r.value);
    OriginalReturns(fuel);
    PrunedFails(r.value, fuel);
  }

  function TheCut(): Cut { Cut(Example(), Known(), {}, {0}, {}) }

  lemma CutSound()
    ensures Sound(TheCut()) && Known() <= Universe(Example())
  {
    hide PostFixpoint, WellScoped;
    ExampleScoped();
    ExampleSettled();
    assert FitsFact(Example(), MayHold(OfLocal(1), 0));
  }

  /** So the package does not meet the condition under which pruning is safe. */
  lemma NotPrunable()
    ensures WellScoped(Example()) && !Prunable(Example())
  {
    hide PostFixpoint, WellScoped, Pruned, Kept, Sound, Universe;
    ExampleScoped();
    if lower, upper, known :| KeptBetween(Example(), lower, upper, known) {
      CutSound();
      OriginalReturns(2);
      PrunedFails(TheCut(), 2);
      assert !BehavesAs(TheCut(), World(), 2);
      KnownCertain();
      BoundsFit(TheCut(), lower, upper, known);
      KeptIndistinguishable(TheCut(), upper, known);
    }
  }
}
