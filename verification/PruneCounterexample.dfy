/** Why left operands must be kept: a package the analysis accepts, whose pruned form fails where the
    original returns a value, although the right operand only reads a local. */
module PruneCounterexample {
  import opened Wrappers
  import opened PackageSyntax
  import opened ClosureFacts
  import opened FactOrder
  import opened ClosureAnalysis
  import opened PackageMachine
  import opened Pruning
  import opened PruneChoice

  /** `local t = {k = 1}  local function f() end  local y = f and t  return y.k` */
  function First(): Expr { Expr.Table(1, Field("k", Const(Num(1)), NoItems)) }
  function Last(): Stmt { Return(Index(Expr.Local(2), "k")) }
  function Choice(): Expr { And(Expr.Local(1), Expr.Local(0)) }

  function Body(): Stmt {
    Then(Declare(0, First()), Then(LocalFunction(1, 0), Then(Declare(2, Choice()), Last())))
  }

  function Example(): Package {
    Package([Closure({}, [], Skip), TableSite], [Module("main", Body())], 0, map[0 := First(), 2 := Choice()], {}, map[], 3, {"k"})
  }

  function Known(): Facts {
    { MayHold(OfLocal(0), 1), MayHold(OfLocal(1), 0), MayHold(OfLocal(2), 0), MayHold(OfLocal(2), 1), MayBeAny(OfModule(0)) }
  }

  function TheCut(): Cut {
    Cut(Example(), Known(), Seen(), {0}, {})
  }

  lemma LastScoped()
    ensures InScopeS(Example(), {0, 1}, Then(Declare(2, Choice()), Last()))
  {
    assert ScopeAfter({0, 1}, Declare(2, Choice())) == {0, 1, 2};
  }

  lemma BodyScoped()
    ensures InScopeS(Example(), {}, Body())
  {
    hide Choice;
    LastScoped();
    assert ScopeAfter({}, Declare(0, First())) == {0} && ScopeAfter({0}, LocalFunction(1, 0)) == {0, 1};
    var rest := Then(Declare(2, Choice()), Last());
    assert InScopeS(Example(), {0}, Then(LocalFunction(1, 0), rest));
  }

  lemma ObjectScoped(o: nat)
    requires o < 2
    ensures InScopeObject(Example(), o)
  {
  }

  lemma ExampleScoped()
    ensures WellScoped(Example())
  {
    hide InScopeS, InScopeObject, Body;
    BodyScoped();
    ObjectScoped(0);
    ObjectScoped(1);
  }

  lemma Values()
    ensures At(Known(), OfLocal(0)) == One(1) && At(Known(), OfLocal(1)) == One(0)
    ensures At(Known(), OfLocal(2)) == Abs(false, {0, 1})
    ensures At(Known(), OfModule(0)) == ANY
    ensures Meaning(Example(), Known(), Index(Expr.Local(2), "k")) == ANY
  {
    assert FieldAny(Example(), Known(), 0, "k");
  }

  function Seen(): ReadKeys { {(0, "k"), (1, "k")} }

  lemma FirstSettled()
    ensures SettledS(Example(), Known(), Seen(), OfModule(0), Declare(0, First()))
  {
    assert StoredIn(Example(), Known(), 1, OfField(1, "k"), NOTHING);
    assert SettledE(Example(), Known(), Seen(), First());
  }

  lemma ChoiceSettled()
    ensures SettledS(Example(), Known(), Seen(), OfModule(0), Declare(2, Choice()))
  {
    Values();
    assert Meaning(Example(), Known(), Choice()) == Abs(false, {0, 1});
  }

  lemma LastSettled()
    ensures SettledS(Example(), Known(), Seen(), OfModule(0), Last())
  {
    Values();
    assert SettledE(Example(), Known(), Seen(), Index(Expr.Local(2), "k"));
  }

  lemma BodySettled()
    ensures SettledS(Example(), Known(), Seen(), OfModule(0), Body())
  {
    hide SettledE, Meaning;
    FirstSettled();
    ChoiceSettled();
    LastSettled();
    assert SettledS(Example(), Known(), Seen(), OfModule(0), Then(Declare(2, Choice()), Last()));
    assert SettledS(Example(), Known(), Seen(), OfModule(0), LocalFunction(1, 0));
  }

  lemma ExampleSettled()
    ensures PostFixpoint(Example(), Known(), Seen())
  {
    hide SettledS;
    BodySettled();
    assert SettledObject(Example(), Known(), Seen(), 0) && SettledObject(Example(), Known(), Seen(), 1);
  }

  function World(): Host {
    Host((name, trace) => Made(Nil), trace => Raise, (op, a, b) => None, fields => 0)
  }

  /** The heap once the table has been made. */
  function TableMade(p: Package): Heap {
    AddCell(SetField(AddTable(SetModule(Start(p), 0, Loading), 1), 0, Plain(Str("k")), Plain(Num(1))), 0, Value.Table(0))
  }

  lemma MakesTable(p: Package)
    ensures Exec(p, World(), 0, map[], SetModule(Start(p), 0, Loading), Declare(0, First())) == Ok(Next(map[0 := 0]), TableMade(p))
  {
    var h := SetField(AddTable(SetModule(Start(p), 0, Loading), 1), 0, Plain(Str("k")), Plain(Num(1)));
    assert Fill(p, World(), 0, map[], h, 0, NoItems).Ok?;
  }

  function FunctionMade(): Heap {
    AddCell(TableMade(Example()), 1, Fun(0, map[0 := 0, 1 := 1]))
  }

  lemma ChoosesTable()
    ensures Exec(Example(), World(), 0, map[0 := 0, 1 := 1], FunctionMade(), Then(Declare(2, Choice()), Last()))
            == Ok(Back(Plain(Num(1))), AddCell(FunctionMade(), 2, Value.Table(0)))
  {
    var p, w, h2 := Example(), World(), FunctionMade();
    var env2: Env := map[0 := 0, 1 := 1];
    var env3: Env := env2[2 := 2];
    var h3 := AddCell(h2, 2, Value.Table(0));
    assert Eval(p, w, 0, env2, h2, Choice()) == Ok(Value.Table(0), h2);
    assert Exec(p, w, 0, env2, h2, Declare(2, Choice())) == Ok(Next(env3), h3);
    assert Exec(p, w, 0, env3, h3, Last()) == Ok(Back(Plain(Num(1))), h3);
  }

  lemma OriginalReturns()
    ensures var r := PackageMachine.Run(Example(), World(), 0); r.Ok? && r.value == Plain(Num(1))
  {
    hide Choice;
    var p, w := Example(), World();
    MakesTable(p);
    ChoosesTable();
    var env1: Env := map[0 := 0];
    var end := AddCell(FunctionMade(), 2, Value.Table(0));
    assert env1[1 := 1] == map[0 := 0, 1 := 1];
    assert Exec(p, w, 0, env1, TableMade(p), LocalFunction(1, 0)) == Ok(Next(env1[1 := 1]), FunctionMade());
    var rest := Then(LocalFunction(1, 0), Then(Declare(2, Choice()), Last()));
    assert Exec(p, w, 0, env1, TableMade(p), rest) == Ok(Back(Plain(Num(1))), end);
    assert Exec(p, w, 0, map[], SetModule(Start(p), 0, Loading), Body()) == Ok(Back(Plain(Num(1))), end);
  }

  function Remains(): Stmt {
    Then(Declare(0, First()), Then(Declare(1, Const(Nil)), Then(Declare(2, Choice()), Last())))
  }

  /** A cut of just the function. */
  predicate CutsF(c: Cut) {
    c.p == Example() && c.dead == {0} && c.gone == {}
  }

  lemma PrunedBody(c: Cut)
    requires CutsF(c)
    ensures Pruned(c).modules == [Module("main", Remains())]
  {
    assert PruneE(c, First()) == First() && PruneE(c, Choice()) == Choice();
    assert PruneS(c, Body()) == Remains();
  }

  lemma KeepsEntry(c: Cut)
    requires CutsF(c)
    ensures Pruned(c).entry == 0
  {
  }

  lemma PrunedFails(c: Cut)
    requires CutsF(c)
    ensures PackageMachine.Run(Pruned(c), World(), 0).Failed?
  {
    hide PruneS, PruneE, PruneObjects, PruneModules, Pruned;
    var w, p := World(), Pruned(c);
    PrunedBody(c);
    KeepsEntry(c);
    MakesTable(p);
    var env1: Env := map[0 := 0];
    var env2: Env := env1[1 := 1];
    var h2 := AddCell(TableMade(p), 1, NIL);
    assert Exec(p, w, 0, env1, TableMade(p), Declare(1, Const(Nil))) == Ok(Next(env2), h2);
    var env3: Env := env2[2 := 2];
    var h3 := AddCell(h2, 2, NIL);
    assert Eval(p, w, 0, env2, h2, Choice()) == Ok(NIL, h2);
    assert Exec(p, w, 0, env2, h2, Declare(2, Choice())) == Ok(Next(env3), h3);
    assert Exec(p, w, 0, env3, h3, Last()) == Failed(h3);
    assert Exec(p, w, 0, env2, h2, Then(Declare(2, Choice()), Last())) == Failed(h3);
    assert Exec(p, w, 0, env1, TableMade(p), Then(Declare(1, Const(Nil)), Then(Declare(2, Choice()), Last()))) == Failed(h3);
    assert Exec(p, w, 0, map[], SetModule(Start(p), 0, Loading), Remains()) == Failed(h3);
  }

  lemma LeftNotKept()
    ensures !Kept(Exactly(TheCut()))
  {
    Values();
    var b := Exactly(TheCut());
    assert !LeftKept(b, Expr.Local(1));
    assert !KeptS(b, Declare(2, Choice()));
    assert !KeptS(b, Example().modules[0].body);
  }

  lemma CutSound()
    ensures Sound(TheCut())
  {
    hide PostFixpoint, WellScoped;
    ExampleScoped();
    ExampleSettled();
    assert Unused(Known(), 0);
  }

  /** The cut is sound by the facts, the right operand has no effect, and still the behaviour changes:
      exactly the kept left operands are missing. */
  lemma LeftOperandsMatter()
    ensures Sound(TheCut()) && !Kept(Exactly(TheCut()))
    ensures PackageMachine.Run(Example(), World(), 0).Ok? && PackageMachine.Run(Pruned(TheCut()), World(), 0).Failed?
  {
    hide Sound, Kept, Pruned;
    CutSound();
    LeftNotKept();
    OriginalReturns();
    PrunedFails(TheCut());
  }

  /** And it is the cut the analysis chooses when `nil` fits in the function's place. */
  method PruneExample() returns (r: Option<Cut>)
    ensures r.Some? && Sound(r.value) && r.value.p == Example()
    ensures PackageMachine.Run(Example(), World(), 0).Ok? && PackageMachine.Run(Pruned(r.value), World(), 0).Failed?
  {
    hide PostFixpoint, WellScoped, Exec, Eval, Pruned, Sound, Kept, Indistinguishable, Universe;
    ExampleScoped();
    ExampleSettled();
    r := PruneBelow(Example(), false, {0}, Goal(true, Known(), Seen()));
    CutChosen(r.value);
    OriginalReturns();
    PrunedFails(r.value);
  }

  lemma CutChosen(c: Cut)
    requires c.p == Example() && c.facts <= Known()
    requires forall o :: 0 <= o < 2 ==> Chosen(c, {0}, o, o in c.dead, o in c.gone)
    requires Sound(c)
    ensures CutsF(c)
  {
    hide PostFixpoint, WellScoped;
    assert Unused(c.facts, 0);
    assert Chosen(c, {0}, 0, 0 in c.dead, 0 in c.gone) && Chosen(c, {0}, 1, 1 in c.dead, 1 in c.gone);
  }

  lemma FirstKnown(all: Facts, seen: ReadKeys)
    requires SettledS(Example(), all, seen, OfModule(0), Body())
    ensures MayHold(OfLocal(0), 1) in all && MayHold(OfLocal(1), 0) in all
    ensures SettledS(Example(), all, seen, OfModule(0), Then(Declare(2, Choice()), Last()))
  {
    hide Choice, Last, SettledE;
    var rest := Then(Declare(2, Choice()), Last());
    assert SettledS(Example(), all, seen, OfModule(0), Declare(0, First()));
    assert SettledS(Example(), all, seen, OfModule(0), Then(LocalFunction(1, 0), rest));
    assert SettledS(Example(), all, seen, OfModule(0), LocalFunction(1, 0));
    assert 0 in One(0).objects && 1 in One(1).objects && Meaning(Example(), all, First()) == One(1);
  }

  lemma LastKnown(all: Facts, seen: ReadKeys)
    requires SettledS(Example(), all, seen, OfModule(0), Then(Declare(2, Choice()), Last()))
    requires MayHold(OfLocal(0), 1) in all && MayHold(OfLocal(1), 0) in all
    ensures MayHold(OfLocal(2), 0) in all && MayHold(OfLocal(2), 1) in all && MayBeAny(OfModule(0)) in all
  {
    hide SettledE;
    var p := Example();
    assert SettledS(p, all, seen, OfModule(0), Declare(2, Choice())) && SettledS(p, all, seen, OfModule(0), Last());
    assert 0 in Meaning(p, all, Expr.Local(1)).objects && 1 in Meaning(p, all, Expr.Local(0)).objects;
    assert 0 in Meaning(p, all, Choice()).objects && 1 in Meaning(p, all, Choice()).objects;
    assert 0 in At(all, OfLocal(2)).objects && FieldAny(p, all, 0, "k");
    assert Meaning(p, all, Index(Expr.Local(2), "k")).any;
  }

  /** The facts are the least. */
  lemma KnownCertain()
    ensures Certain(Example(), Known())
  {
    hide SettledS, SettledObject, Body;
    forall all, seen | PostFixpoint(Example(), all, seen) ensures Known() <= all {
      assert SettledS(Example(), all, seen, OfModule(0), Example().modules[0].body);
      FirstKnown(all, seen);
      LastKnown(all, seen);
    }
  }

  lemma KnownFits()
    ensures Known() <= Universe(Example())
  {
    forall f | f in Known() ensures FitsFact(Example(), f) {
    }
  }

  /** So the package does not meet the condition under which pruning is safe. */
  lemma NotPrunable()
    ensures WellScoped(Example()) && !Prunable(Example())
  {
    hide PostFixpoint, WellScoped, Pruned, Kept, Sound, Universe;
    ExampleScoped();
    if lower, upper, known :| KeptBetween(Example(), lower, upper, known) {
      CutSound();
      KnownFits();
      OriginalReturns();
      PrunedFails(TheCut());
      assert !BehavesAs(TheCut(), World(), 0);
      KnownCertain();
      BoundsFit(TheCut(), lower, upper, known);
      KeptIndistinguishable(TheCut(), upper, known);
    }
  }
}
