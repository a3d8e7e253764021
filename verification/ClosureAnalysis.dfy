/** The analysis itself: rounds over the reachable code that add facts until a round adds none. */
module ClosureAnalysis {
  import opened Wrappers
  import opened PackageSyntax
  import opened ClosureFacts
  import opened FactOrder

  datatype Snapshot = Snapshot(facts: Facts, seen: ReadKeys, changed: bool, disabled: bool)

  /** Facts are only added, and `changed` says whether any were; recorded reads do not count. */
  ghost predicate Grows(was: Snapshot, now: Snapshot) {
    && was.facts <= now.facts && was.seen <= now.seen && (was.disabled ==> now.disabled)
    && (now.changed <==> was.changed || now.facts != was.facts)
  }

  /** Any closed facts, to compare with: `solved` says that they are closed. */
  datatype Goal = Goal(solved: bool, facts: Facts, seen: ReadKeys)

  /** The facts fit the package and stay below every closed facts. */
  ghost predicate Fits(p: Package, goal: Goal, s: Snapshot) {
    s.facts <= Universe(p) && (goal.solved ==> s.facts <= goal.facts && s.seen <= goal.seen)
  }

  /** A transfer: facts grow but stay below closed ones, which never make it give up. */
  ghost predicate Transfers(p: Package, goal: Goal, was: Snapshot, now: Snapshot) {
    Fits(p, goal, now) && Grows(was, now) && (goal.solved && !was.disabled ==> !now.disabled)
  }

  /** Nothing changed and nothing was refused: the last round. */
  predicate Quiet(s: Snapshot) {
    !s.changed && !s.disabled
  }

  predicate ArgsFit(p: Package, args: seq<Abs>) {
    forall k :: 0 <= k < |args| ==> FitsAbs(p, args[k])
  }

  /** What one called object returns is below what the call may return under closed facts. */
  lemma ResultBelow(p: Package, facts: Facts, goal: Goal, func: Abs, o: nat)
    requires goal.solved ==> facts <= goal.facts
    requires o in func.objects && o < |p.objects|
    ensures goal.solved ==>
              Le(ResultFrom(p, facts, o), ResultOf(p, goal.facts, func))
  {
    if goal.solved {
      ResultOfOne(p, goal.facts, func, o);
      assert Abs(func.any, func.objects + {o}) == func;
      AtGrows(facts, goal.facts, OfReturn(o));
    }
  }

  lemma CalledStays(p: Package, few: Facts, many: Facts, objects: set<nat>, args: seq<Abs>)
    requires few <= many && forall o :: o in objects ==> CalledObject(p, few, o, args)
    ensures forall o :: o in objects ==> CalledObject(p, many, o, args)
  {
  }

  /** An expression is about to be evaluated; closed facts contain its effects. */
  ghost predicate Owes(p: Package, goal: Goal, scope: set<nat>, e: Expr, now: Snapshot) {
    && Fits(p, goal, now) && WellScoped(p) && InScopeE(p, scope, e)
    && (goal.solved ==> SettledE(p, goal.facts, goal.seen, e))
  }

  /** An expression has been evaluated: its value is below any closed one, and exact in the last round. */
  ghost predicate Evaluated(p: Package, goal: Goal, e: Expr, was: Snapshot, now: Snapshot, r: Abs) {
    && Transfers(p, goal, was, now) && FitsAbs(p, r)
    && (goal.solved && !now.disabled ==> Le(r, Meaning(p, goal.facts, e)))
    && (Quiet(now) ==> SettledE(p, now.facts, now.seen, e) && r == Meaning(p, now.facts, e))
  }

  lemma EvaluatedFits(p: Package, goal: Goal, e: Expr, was: Snapshot, now: Snapshot, r: Abs)
    requires Evaluated(p, goal, e, was, now, r)
    ensures Fits(p, goal, now)
  {
  }

  /** Evaluating one expression after the other evaluates their join. */
  lemma BothEvaluated(p: Package, goal: Goal, left: Expr, right: Expr, was: Snapshot, mid: Snapshot, now: Snapshot, a: Abs, b: Abs)
    requires Evaluated(p, goal, left, was, mid, a) && Evaluated(p, goal, right, mid, now, b)
    ensures Evaluated(p, goal, Or(left, right), was, now, Join(a, b))
  {
    hide Universe;
    if Quiet(now) {
      SettledEGrows(p, now.facts, mid.seen, now.seen, left);
    }
  }

  lemma LocalBelow(p: Package, goal: Goal, now: Snapshot, x: nat)
    requires Fits(p, goal, now)
    ensures FitsAbs(p, At(now.facts, OfLocal(x)))
    ensures goal.solved ==> Le(At(now.facts, OfLocal(x)), At(goal.facts, OfLocal(x)))
  {
    PlaceBelow(p, goal, now, OfLocal(x));
  }

  lemma PlaceBelow(p: Package, goal: Goal, now: Snapshot, place: Place)
    requires Fits(p, goal, now)
    ensures FitsAbs(p, At(now.facts, place))
    ensures goal.solved ==> Le(At(now.facts, place), At(goal.facts, place))
  {
    forall o | o in At(now.facts, place).objects ensures o < |p.objects| {
      assert FitsFact(p, MayHold(place, o));
    }
    if goal.solved {
      AtGrows(now.facts, goal.facts, place);
    }
  }

  lemma ModuleBelow(p: Package, goal: Goal, now: Snapshot, name: string)
    requires Fits(p, goal, now)
    ensures FitsAbs(p, ModuleValue(p, now.facts, name))
    ensures goal.solved ==> Le(ModuleValue(p, now.facts, name), ModuleValue(p, goal.facts, name))
  {
    var m := FindModule(p, name, 0);
    if m.Some? {
      PlaceBelow(p, goal, now, OfModule(m.value));
    }
  }

  lemma IndexOwes(p: Package, goal: Goal, now: Snapshot, a: Abs, e: Expr)
    requires e.Index? && Fits(p, goal, now)
    requires goal.solved ==> SettledE(p, goal.facts, goal.seen, e) && Le(a, Meaning(p, goal.facts, e.base))
    ensures goal.solved ==> ReadBy(goal.seen, a, e.key) && Observes(goal.facts, FieldOf(p, now.facts, a, e.key))
    ensures goal.solved ==> Le(FieldOf(p, now.facts, a, e.key), Meaning(p, goal.facts, e))
  {
    if goal.solved {
      FieldOfGrows(p, now.facts, goal.facts, a, Meaning(p, goal.facts, e.base), e.key);
    }
  }

  lemma IndexSettles(p: Package, goal: Goal, mid: Snapshot, now: Snapshot, a: Abs, e: Expr)
    requires e.Index? && Grows(mid, now) && ReadBy(now.seen, a, e.key)
    requires Quiet(mid) ==> SettledE(p, mid.facts, mid.seen, e.base) && a == Meaning(p, mid.facts, e.base)
    requires Observes(now.facts, FieldOf(p, mid.facts, a, e.key))
    ensures Quiet(now) ==> SettledE(p, now.facts, now.seen, e) && FieldOf(p, mid.facts, a, e.key) == Meaning(p, now.facts, e)
  {
    if Quiet(now) {
      SettledEGrows(p, now.facts, mid.seen, now.seen, e.base);
    }
  }

  lemma IndexBySettles(p: Package, goal: Goal, mid: Snapshot, now: Snapshot, a: Abs, e: Expr)
    requires e.IndexBy? && Grows(mid, now) && Fits(p, goal, now)
    requires Quiet(mid) ==> SettledE(p, mid.facts, mid.seen, e.base) && a == Meaning(p, mid.facts, e.base)
    requires goal.solved ==> Le(a, Meaning(p, goal.facts, e.base))
    ensures Quiet(now) ==> SettledE(p, now.facts, now.seen, e.base) && EntryOf(now.facts, a) == Meaning(p, now.facts, e)
    ensures goal.solved ==> Le(EntryOf(now.facts, a), Meaning(p, goal.facts, e))
    ensures FitsAbs(p, EntryOf(now.facts, a))
  {
    if Quiet(now) {
      SettledEGrows(p, now.facts, mid.seen, now.seen, e.base);
    }
    if goal.solved {
      EntryOfGrows(now.facts, goal.facts, a, Meaning(p, goal.facts, e.base));
    }
    forall v | v in EntryOf(now.facts, a).objects ensures v < |p.objects| {
      var f :| f in now.facts && f.MayHold? && IsEntryOf(f.place, a.objects) && f.item == v;
      assert FitsFact(p, f);
    }
  }

  ghost predicate AllLe(a: seq<Abs>, b: seq<Abs>) {
    |a| == |b| && forall k :: 0 <= k < |a| ==> Le(a[k], b[k])
  }

  lemma CallOwes(p: Package, goal: Goal, func: Abs, args: seq<Abs>, e: Expr)
    requires e.Call? && (goal.solved ==> SettledE(p, goal.facts, goal.seen, e))
    requires goal.solved ==> Le(func, Meaning(p, goal.facts, e.func)) && AllLe(args, Meanings(p, goal.facts, e.args))
    ensures goal.solved ==> Called(p, goal.facts, func, args)
  {
    if goal.solved {
      var all := Meanings(p, goal.facts, e.args);
      assert Called(p, goal.facts, Meaning(p, goal.facts, e.func), all);
      forall o | o in func.objects ensures CalledObject(p, goal.facts, o, args) {
        assert CalledObject(p, goal.facts, o, all);
      }
    }
  }

  lemma CallSettles(p: Package, mid: Snapshot, late: Snapshot, now: Snapshot, func: Abs, args: seq<Abs>, e: Expr)
    requires e.Call? && Grows(mid, late) && Grows(late, now) && late.seen == now.seen && Called(p, now.facts, func, args)
    requires Quiet(mid) ==> SettledE(p, mid.facts, mid.seen, e.func) && func == Meaning(p, mid.facts, e.func)
    requires Quiet(late) ==> SettledArgs(p, late.facts, late.seen, e.args) && args == Meanings(p, late.facts, e.args)
    ensures Quiet(now) ==> SettledE(p, now.facts, now.seen, e)
  {
    if Quiet(now) {
      SettledEGrows(p, now.facts, mid.seen, now.seen, e.func);
    }
  }

  /** Storing less than closed facts allow is allowed. */
  lemma StoredBelow(p: Package, goal: Goal, base: Abs, above: Abs, key: Option<string>, a: Abs, b: Abs)
    requires goal.solved ==> Le(base, above) && Le(a, b)
    requires goal.solved ==> if key.Some? then Stored(p, goal.facts, above, key.value, b) else StoredByKey(p, goal.facts, above, b)
    ensures goal.solved ==> if key.Some? then Stored(p, goal.facts, base, key.value, a) else StoredByKey(p, goal.facts, base, a)
  {
    if goal.solved {
      forall o | o in base.objects ensures StoredIn(p, goal.facts, o, KeyPlace(o, key), a) {
        assert StoredIn(p, goal.facts, o, KeyPlace(o, key), b);
      }
    }
  }

  lemma EntriesBelow(p: Package, goal: Goal, now: Snapshot, o: nat)
    requires Fits(p, goal, now) && o < |p.objects| && !IsFunction(p, o) && (goal.solved ==> HostUses(p, goal.facts, o))
    ensures FitsAbs(p, EntryOf(now.facts, One(o))) && (goal.solved ==> Escapes(goal.facts, EntryOf(now.facts, One(o))))
    ensures forall f :: f in now.facts && f.MayHold? && IsEntryOf(f.place, {o}) ==> f.item in EntryOf(now.facts, One(o)).objects
  {
    forall v | v in EntryOf(now.facts, One(o)).objects ensures v < |p.objects| && (goal.solved ==> Escaped(v) in goal.facts) {
      var f :| f in now.facts && f.MayHold? && IsEntryOf(f.place, {o}) && f.item == v;
      assert FitsFact(p, f);
    }
  }

  ghost predicate ModulesSettled(p: Package, facts: Facts, seen: ReadKeys, n: nat)
    requires n <= |p.modules|
  {
    forall m :: 0 <= m < n ==> SettledS(p, facts, seen, OfModule(m), p.modules[m].body)
  }

  ghost predicate ObjectsSettled(p: Package, facts: Facts, seen: ReadKeys, n: nat)
    requires n <= |p.objects|
  {
    forall o :: 0 <= o < n ==> SettledObject(p, facts, seen, o)
  }

  lemma ModulesStay(p: Package, facts: Facts, seen: ReadKeys, more: ReadKeys, n: nat)
    requires n <= |p.modules| && seen <= more && ModulesSettled(p, facts, seen, n)
    ensures ModulesSettled(p, facts, more, n)
  {
    forall m | 0 <= m < n ensures SettledS(p, facts, more, OfModule(m), p.modules[m].body) {
      SettledSGrows(p, facts, seen, more, OfModule(m), p.modules[m].body);
    }
  }

  lemma ObjectsStay(p: Package, facts: Facts, seen: ReadKeys, more: ReadKeys, n: nat)
    requires n <= |p.objects| && seen <= more && ObjectsSettled(p, facts, seen, n)
    ensures ObjectsSettled(p, facts, more, n)
  {
    forall o | 0 <= o < n ensures SettledObject(p, facts, more, o) {
      assert SettledObject(p, facts, seen, o);
      if IsFunction(p, o) && Active(o) in facts {
        SettledSGrows(p, facts, seen, more, OfReturn(o), p.objects[o].body);
      }
    }
  }

  lemma {:induction false} SmallerSet<T>(a: set<T>, b: set<T>)
    requires a <= b
    ensures |a| <= |b| && (a != b ==> |a| < |b|)
  {
    assert b == a + (b - a);
  }

  lemma MoreFacts(few: Facts, many: Facts, all: Facts)
    requires few < many <= all
    ensures |few| < |many| <= |all|
  {
    SmallerSet(few, many);
    SmallerSet(many, all);
  }

  class Analysis {
    const p: Package
    var facts: Facts
    var seen: ReadKeys
    var changed: bool
    var disabled: bool

    constructor (p: Package, refused: bool)
      ensures this.p == p && Now() == Snapshot({}, {}, false, refused)
    {
      this.p := p;
      facts, seen, changed, disabled := {}, {}, false, refused;
    }

    function Now(): Snapshot
      reads this
    {
      Snapshot(facts, seen, changed, disabled)
    }

    method Learn(f: Fact)
      modifies this
      ensures Now() == Snapshot(old(facts) + {f}, old(seen), old(changed) || f !in old(facts), old(disabled))
    {
      if f !in facts {
        facts := facts + {f};
        changed := true;
      }
    }

    /** Let a value flow to a place. */
    method Merge(place: Place, a: Abs, ghost goal: Goal)
      requires Fits(p, goal, Now()) && FitsPlace(p, place) && FitsAbs(p, a)
      requires goal.solved ==> Flows(goal.facts, a, place)
      modifies this
      ensures Transfers(p, goal, old(Now()), Now()) && Flows(facts, a, place)
      ensures seen == old(seen) && disabled == old(disabled)
    {
      hide Universe;
      if a.any {
        Learn(MayBeAny(place));
      }
      var todo := a.objects;
      while todo != {}
        invariant todo <= a.objects && Transfers(p, goal, old(Now()), Now())
        invariant seen == old(seen) && disabled == old(disabled)
        invariant a.any ==> MayBeAny(place) in facts
        invariant forall o :: o in a.objects && o !in todo ==> MayHold(place, o) in facts
      {
        var o :| o in todo;
        Learn(MayHold(place, o));
        todo := todo - {o};
      }
    }

    method Observe(a: Abs, ghost goal: Goal)
      requires Fits(p, goal, Now()) && FitsAbs(p, a) && (goal.solved ==> Observes(goal.facts, a))
      modifies this
      ensures Transfers(p, goal, old(Now()), Now()) && Observes(facts, a)
      ensures seen == old(seen) && disabled == old(disabled)
    {
      var todo := a.objects;
      while todo != {}
        invariant todo <= a.objects && Transfers(p, goal, old(Now()), Now())
        invariant seen == old(seen) && disabled == old(disabled)
        invariant forall o :: o in a.objects && o !in todo ==> Observed(o) in facts
      {
        var o :| o in todo;
        Learn(Observed(o));
        todo := todo - {o};
      }
    }

    method Escape(a: Abs, ghost goal: Goal)
      requires Fits(p, goal, Now()) && FitsAbs(p, a) && (goal.solved ==> Escapes(goal.facts, a))
      modifies this
      ensures Transfers(p, goal, old(Now()), Now()) && Escapes(facts, a)
      ensures seen == old(seen) && disabled == old(disabled)
    {
      var todo := a.objects;
      while todo != {}
        invariant todo <= a.objects && Transfers(p, goal, old(Now()), Now())
        invariant seen == old(seen) && disabled == old(disabled)
        invariant forall o :: o in a.objects && o !in todo ==> Escaped(o) in facts
      {
        var o :| o in todo;
        Learn(Escaped(o));
        todo := todo - {o};
      }
    }

    /** Read a constant key of a value: record the key for every object, observe what comes back. */
    method ReadField(base: Abs, key: string, ghost goal: Goal) returns (r: Abs)
      requires Fits(p, goal, Now()) && FitsAbs(p, base)
      requires goal.solved ==> ReadBy(goal.seen, base, key) && Observes(goal.facts, FieldOf(p, facts, base, key))
      modifies this
      ensures Transfers(p, goal, old(Now()), Now()) && disabled == old(disabled)
      ensures r == FieldOf(p, old(facts), base, key) && FitsAbs(p, r)
      ensures ReadBy(seen, base, key) && Observes(facts, r)
    {
      hide Universe, WellScoped, At, FieldOf;
      r := Abs(base.any, {});
      var todo, done := base.objects, {};
      FieldOfNone(p, facts, base.any, key);
      while todo != {}
        invariant todo !! done && todo + done == base.objects && facts == old(facts)
        invariant Transfers(p, goal, old(Now()), Now()) && disabled == old(disabled)
        invariant r == FieldOf(p, facts, Abs(base.any, done), key)
        invariant forall o :: o in done ==> (o, key) in seen
      {
        var o :| o in todo;
        seen := seen + {(o, key)};
        FieldOfOne(p, facts, Abs(base.any, done), o, key);
        r := Join(r, Abs(Escaped(o) in facts, {}));
        if IsFunction(p, o) {
          r := Join(r, ANY);
        } else {
          r := Join(r, At(facts, OfField(o, key)));
          r := Join(r, At(facts, OfEntries(o)));
        }
        todo, done := todo - {o}, done + {o};
      }
      assert Abs(base.any, done) == base;
      FieldFits(p, facts, base, key);
      Observe(r, goal);
    }

    /** Store a value under a key, or under a computed key. */
    method Store(base: Abs, key: Option<string>, a: Abs, ghost goal: Goal)
      requires Fits(p, goal, Now()) && FitsAbs(p, base) && FitsAbs(p, a) && (key.Some? ==> key.value in p.keys)
      requires goal.solved ==>
                 if key.Some? then Stored(p, goal.facts, base, key.value, a) else StoredByKey(p, goal.facts, base, a)
      modifies this
      ensures Transfers(p, goal, old(Now()), Now()) && seen == old(seen) && disabled == old(disabled)
      ensures if key.Some? then Stored(p, facts, base, key.value, a) else StoredByKey(p, facts, base, a)
    {
      hide Universe;
      if base.any {
        Escape(a, goal);
      }
      var todo := base.objects;
      while todo != {}
        invariant todo <= base.objects && Transfers(p, goal, old(Now()), Now())
        invariant seen == old(seen) && disabled == old(disabled)
        invariant base.any ==> Escapes(facts, a)
        invariant forall o :: o in base.objects && o !in todo ==> StoredIn(p, facts, o, KeyPlace(o, key), a)
      {
        var o :| o in todo;
        assert goal.solved ==> StoredIn(p, goal.facts, o, KeyPlace(o, key), a);
        if IsFunction(p, o) {
          Escape(a, goal);
        } else {
          Merge(KeyPlace(o, key), a, goal);
        }
        todo := todo - {o};
      }
    }

    /** Pass arguments to the parameters of one function. */
    method PassArgs(o: nat, args: seq<Abs>, ghost goal: Goal)
      requires Fits(p, goal, Now()) && IsFunction(p, o) && ArgsFit(p, args) && Params(p, p.objects[o].params)
      requires goal.solved ==> ArgsFlow(goal.facts, args, p.objects[o].params)
      modifies this
      ensures Transfers(p, goal, old(Now()), Now()) && seen == old(seen) && disabled == old(disabled)
      ensures ArgsFlow(facts, args, p.objects[o].params)
    {
      hide Universe;
      var params := p.objects[o].params;
      for index := 0 to |params|
        invariant Transfers(p, goal, old(Now()), Now()) && seen == old(seen) && disabled == old(disabled)
        invariant forall k :: 0 <= k < |args| && k < index ==> Flows(facts, args[k], OfLocal(params[k]))
      {
        if index < |args| {
          Merge(OfLocal(params[index]), args[index], goal);
        }
      }
    }

    method EscapeAll(args: seq<Abs>, ghost goal: Goal)
      requires Fits(p, goal, Now()) && ArgsFit(p, args) && (goal.solved ==> ArgsEscape(goal.facts, args))
      modifies this
      ensures Transfers(p, goal, old(Now()), Now()) && ArgsEscape(facts, args)
      ensures seen == old(seen) && disabled == old(disabled)
    {
      for index := 0 to |args|
        invariant Transfers(p, goal, old(Now()), Now()) && seen == old(seen) && disabled == old(disabled)
        invariant forall k :: 0 <= k < index ==> Escapes(facts, args[k])
      {
        Escape(args[index], goal);
      }
    }

    /** Call one object: a function runs, anything else goes to the host with its arguments. */
    method InvokeOne(o: nat, args: seq<Abs>, ghost goal: Goal) returns (r: Abs)
      requires Fits(p, goal, Now()) && WellScoped(p) && o < |p.objects| && ArgsFit(p, args)
      requires goal.solved ==> CalledObject(p, goal.facts, o, args)
      modifies this
      ensures Transfers(p, goal, old(Now()), Now()) && seen == old(seen) && disabled == old(disabled)
      ensures FitsAbs(p, r) && CalledObject(p, facts, o, args) && r == ResultFrom(p, facts, o)
    {
      if !IsFunction(p, o) {
        Escape(One(o), goal);
        EscapeAll(args, goal);
        r := ANY;
      } else {
        assert InScopeObject(p, o);
        Learn(Active(o));
        PassArgs(o, args, goal);
        r := At(facts, OfReturn(o));
      }
    }

    /** Call a value: every object it may be is called. */
    method Invoke(func: Abs, args: seq<Abs>, ghost goal: Goal) returns (r: Abs)
      requires Fits(p, goal, Now()) && WellScoped(p) && FitsAbs(p, func) && ArgsFit(p, args)
      requires goal.solved ==> Called(p, goal.facts, func, args)
      modifies this
      ensures Transfers(p, goal, old(Now()), Now()) && seen == old(seen) && disabled == old(disabled)
      ensures FitsAbs(p, r) && Called(p, facts, func, args)
      ensures goal.solved ==> Le(r, ResultOf(p, goal.facts, func))
      ensures !changed ==> r == ResultOf(p, facts, func)
    {
      hide Universe, Meaning, SettledS, InScopeS, WellScoped;
      if func.any {
        EscapeAll(args, goal);
      }
      r := Abs(func.any, {});
      var todo, done := func.objects, {};
      assert ResultOf(p, facts, Abs(func.any, {})) == r;
      while todo != {}
        invariant todo !! done && todo + done == func.objects
        invariant Transfers(p, goal, old(Now()), Now()) && seen == old(seen) && disabled == old(disabled)
        invariant FitsAbs(p, r) && (func.any ==> ArgsEscape(facts, args))
        invariant forall o :: o in done ==> CalledObject(p, facts, o, args)
        invariant goal.solved ==> Le(r, ResultOf(p, goal.facts, func))
        invariant !changed ==> r == ResultOf(p, facts, Abs(func.any, done))
      {
        var o :| o in todo;
        assert goal.solved ==> CalledObject(p, goal.facts, o, args);
        ghost var before := facts;
        var one := InvokeOne(o, args, goal);
        CalledStays(p, before, facts, done, args);
        ResultOfOne(p, facts, Abs(func.any, done), o);
        ResultBelow(p, facts, goal, func, o);
        r := Join(r, one);
        todo, done := todo - {o}, done + {o};
      }
      assert Abs(func.any, done) == func;
    }

    // ----- expressions -----

    method Eval(e: Expr, ghost scope: set<nat>, ghost goal: Goal) returns (r: Abs)
      requires Owes(p, goal, scope, e, Now())
      modifies this
      ensures Evaluated(p, goal, e, old(Now()), Now(), r)
      decreases e, 2
    {
      hide Universe;
      if disabled {
        return ANY;
      }
      match e
      case Const(_) =>
        r := NOTHING;
        NoTexts(p, facts);
      case Local(x) =>
        r := At(facts, OfLocal(x));
        LocalBelow(p, goal, Now(), x);
      case Global(name) =>
        if Refused(name) {
          disabled := true;
        }
        r := ANY;
      case Function(id) => r := One(id);
      case Table(id, items) =>
        EvalItems(id, items, scope, goal);
        r := One(id);
      case Index(_, _) => r := EvalIndex(e, scope, goal);
      case IndexBy(_, _) => r := EvalIndexBy(e, scope, goal);
      case Require(name) =>
        var m := FindModule(p, name, 0);
        r := if m.None? then ANY else At(facts, OfModule(m.value));
        ModuleBelow(p, goal, Now(), name);
      case Call(_, _) => r := EvalCall(e, scope, goal);
      case And(left, right) => r := EvalBoth(e, left, right, scope, goal);
      case Or(left, right) => r := EvalBoth(e, left, right, scope, goal);
      case Binary(_, _, _) => r := EvalBinary(e, scope, goal);
      case Not(_) => r := EvalUnary(e, scope, goal);
      case Len(_) => r := EvalUnary(e, scope, goal);
      case IfElse(_, _, _) => r := EvalIfElse(e, scope, goal);
    }

    method EvalIndex(e: Expr, ghost scope: set<nat>, ghost goal: Goal) returns (r: Abs)
      requires Owes(p, goal, scope, e, Now()) && e.Index? && !disabled
      modifies this
      ensures Evaluated(p, goal, e, old(Now()), Now(), r)
      decreases e, 0
    {
      var a := Eval(e.base, scope, goal);
      ghost var mid := Now();
      IndexOwes(p, goal, mid, a, e);
      r := ReadField(a, e.key, goal);
      IndexSettles(p, goal, mid, Now(), a, e);
    }

    method EvalIndexBy(e: Expr, ghost scope: set<nat>, ghost goal: Goal) returns (r: Abs)
      requires Owes(p, goal, scope, e, Now()) && e.IndexBy? && !disabled
      modifies this
      ensures Evaluated(p, goal, e, old(Now()), Now(), r)
      decreases e, 0
    {
      var a := Eval(e.base, scope, goal);
      ghost var mid := Now();
      Escape(a, goal);
      var b := Eval(e.index, scope, goal);
      Escape(b, goal);
      r := EntryOf(facts, a);
      IndexBySettles(p, goal, mid, Now(), a, e);
    }

    method EvalCall(e: Expr, ghost scope: set<nat>, ghost goal: Goal) returns (r: Abs)
      requires Owes(p, goal, scope, e, Now()) && e.Call? && !disabled
      modifies this
      ensures Evaluated(p, goal, e, old(Now()), Now(), r)
      decreases e, 0
    {
      hide Universe;
      var func := Eval(e.func, scope, goal);
      ghost var mid := Now();
      var args := EvalArgs(e.args, scope, goal);
      ghost var late := Now();
      CallOwes(p, goal, func, args, e);
      r := Invoke(func, args, goal);
      if goal.solved {
        ResultOfGrows(p, goal.facts, goal.facts, func, Meaning(p, goal.facts, e.func));
      }
      CallSettles(p, mid, late, Now(), func, args, e);
    }

    method EvalArgs(args: Exprs, ghost scope: set<nat>, ghost goal: Goal) returns (r: seq<Abs>)
      requires Fits(p, goal, Now()) && WellScoped(p) && InScopeArgs(p, scope, args)
      requires goal.solved ==> SettledArgs(p, goal.facts, goal.seen, args)
      modifies this
      ensures Transfers(p, goal, old(Now()), Now()) && ArgsFit(p, r)
      ensures goal.solved && !disabled ==> AllLe(r, Meanings(p, goal.facts, args))
      ensures Quiet(Now()) ==> SettledArgs(p, facts, seen, args) && r == Meanings(p, facts, args)
      decreases args
    {
      if args.NoArgs? {
        return [];
      }
      var a := Eval(args.head, scope, goal);
      ghost var mid := Now();
      var rest := EvalArgs(args.rest, scope, goal);
      if Quiet(Now()) {
        SettledEGrows(p, facts, mid.seen, seen, args.head);
      }
      r := [a] + rest;
    }

    /** Either of two expressions may be the result. */
    method EvalBoth(e: Expr, left: Expr, right: Expr, ghost scope: set<nat>, ghost goal: Goal) returns (r: Abs)
      requires Fits(p, goal, Now()) && WellScoped(p) && InScopeE(p, scope, left) && InScopeE(p, scope, right)
      requires goal.solved ==> SettledE(p, goal.facts, goal.seen, left) && SettledE(p, goal.facts, goal.seen, right)
      requires left < e && right < e
      modifies this
      ensures Evaluated(p, goal, Or(left, right), old(Now()), Now(), r)
      decreases e, 0
    {
      hide Evaluated, SettledE, Universe;
      ghost var was := Now();
      var a := Eval(left, scope, goal);
      ghost var mid := Now();
      EvaluatedFits(p, goal, left, was, mid, a);
      var b := Eval(right, scope, goal);
      BothEvaluated(p, goal, left, right, was, mid, Now(), a, b);
      r := Join(a, b);
    }

    method EvalBinary(e: Expr, ghost scope: set<nat>, ghost goal: Goal) returns (r: Abs)
      requires Owes(p, goal, scope, e, Now()) && e.Binary? && !disabled
      modifies this
      ensures Evaluated(p, goal, e, old(Now()), Now(), r)
      decreases e, 0
    {
      hide Universe;
      var a := Eval(e.left, scope, goal);
      ghost var mid := Now();
      var b := Eval(e.right, scope, goal);
      ghost var late := Now();
      Observe(a, goal);
      Observe(b, goal);
      r := ANY;
      if Quiet(Now()) {
        SettledEGrows(p, facts, mid.seen, seen, e.left);
        SettledEGrows(p, facts, late.seen, seen, e.right);
      }
    }

    method EvalUnary(e: Expr, ghost scope: set<nat>, ghost goal: Goal) returns (r: Abs)
      requires Owes(p, goal, scope, e, Now()) && (e.Not? || e.Len?) && !disabled
      modifies this
      ensures Evaluated(p, goal, e, old(Now()), Now(), r)
      decreases e, 0
    {
      var a := Eval(e.arg, scope, goal);
      if e.Len? {
        Escape(a, goal);
      } else {
        Observe(a, goal);
      }
      r := ANY;
    }

    method EvalIfElse(e: Expr, ghost scope: set<nat>, ghost goal: Goal) returns (r: Abs)
      requires Owes(p, goal, scope, e, Now()) && e.IfElse? && !disabled
      modifies this
      ensures Evaluated(p, goal, e, old(Now()), Now(), r)
      decreases e, 1
    {
      hide Universe;
      var c := Eval(e.cond, scope, goal);
      Observe(c, goal);
      ghost var mid := Now();
      r := EvalBoth(e, e.yes, e.no, scope, goal);
      if Quiet(Now()) {
        SettledEGrows(p, facts, mid.seen, seen, e.cond);
      }
    }

    method EvalItems(id: nat, items: Items, ghost scope: set<nat>, ghost goal: Goal)
      requires Fits(p, goal, Now()) && WellScoped(p) && id < |p.objects| && InScopeItems(p, scope, items)
      requires goal.solved ==> SettledItems(p, goal.facts, goal.seen, id, items)
      modifies this
      ensures Transfers(p, goal, old(Now()), Now())
      ensures Quiet(Now()) ==> SettledItems(p, facts, seen, id, items)
      decreases items, 1
    {
      hide Universe, Meaning, SettledE, InScopeE;
      match items
      case NoItems =>
      case Field(_, _, rest) =>
        EvalField(id, items, scope, goal);
        ghost var mid := Now();
        EvalItems(id, rest, scope, goal);
        if Quiet(Now()) {
          SettledEGrows(p, facts, mid.seen, seen, items.value);
        }
      case Entry(_, _, rest) =>
        EvalEntry(id, items, scope, goal);
        ghost var mid := Now();
        EvalItems(id, rest, scope, goal);
        if Quiet(Now()) {
          SettledEGrows(p, facts, mid.seen, seen, items.value);
          SettledEGrows(p, facts, mid.seen, seen, items.index);
        }
    }

    method EvalField(id: nat, items: Items, ghost scope: set<nat>, ghost goal: Goal)
      requires Fits(p, goal, Now()) && WellScoped(p) && id < |p.objects| && items.Field? && InScopeItems(p, scope, items)
      requires goal.solved ==> SettledItems(p, goal.facts, goal.seen, id, items)
      modifies this
      ensures Transfers(p, goal, old(Now()), Now())
      ensures Quiet(Now()) ==> SettledE(p, facts, seen, items.value)
                               && Stored(p, facts, One(id), items.key, Meaning(p, facts, items.value))
      decreases items, 0
    {
      var a := Eval(items.value, scope, goal);
      if disabled {
        return;
      }
      StoredBelow(p, goal, One(id), One(id), Some(items.key), a, Meaning(p, goal.facts, items.value));
      Store(One(id), Some(items.key), a, goal);
    }

    method EvalEntry(id: nat, items: Items, ghost scope: set<nat>, ghost goal: Goal)
      requires Fits(p, goal, Now()) && WellScoped(p) && id < |p.objects| && items.Entry? && InScopeItems(p, scope, items)
      requires goal.solved ==> SettledItems(p, goal.facts, goal.seen, id, items)
      modifies this
      ensures Transfers(p, goal, old(Now()), Now())
      ensures Quiet(Now()) ==> SettledE(p, facts, seen, items.value) && SettledE(p, facts, seen, items.index)
      ensures Quiet(Now()) ==> Escapes(facts, Meaning(p, facts, items.index))
                               && StoredByKey(p, facts, One(id), Meaning(p, facts, items.value))
      decreases items, 0
    {
      hide Universe, WellScoped, At;
      var a := Eval(items.value, scope, goal);
      ghost var mid := Now();
      if disabled {
        return;
      }
      var k := Eval(items.index, scope, goal);
      if disabled {
        return;
      }
      Escape(k, goal);
      StoredBelow(p, goal, One(id), One(id), None, a, Meaning(p, goal.facts, items.value));
      Store(One(id), None, a, goal);
      if Quiet(Now()) {
        SettledEGrows(p, facts, mid.seen, seen, items.value);
      }
    }

    // ----- statements -----

    /** Assign a value; `b` is what closed facts say of it. */
    method AssignTo(t: Target, a: Abs, ghost b: Abs, ghost scope: set<nat>, ghost goal: Goal)
      requires Fits(p, goal, Now()) && WellScoped(p) && InScopeT(p, scope, t) && FitsAbs(p, a) && !disabled
      requires goal.solved ==> SettledT(p, goal.facts, goal.seen, t, b) && Le(a, b)
      modifies this
      ensures Transfers(p, goal, old(Now()), Now())
      ensures Quiet(Now()) ==> SettledT(p, facts, seen, t, a)
    {
      match t
      case ToLocal(x) => Merge(OfLocal(x), a, goal);
      case ToField(base, key) =>
        var target := Eval(base, scope, goal);
        if !disabled {
          StoredBelow(p, goal, target, Meaning(p, goal.facts, base), Some(key), a, b);
          Store(target, Some(key), a, goal);
        }
      case ToEntry(base, index) => AssignEntry(t, a, b, scope, goal);
      case ToGlobal(_) =>
        disabled := true;
        Escape(a, goal);
    }

    method AssignEntry(t: Target, a: Abs, ghost b: Abs, ghost scope: set<nat>, ghost goal: Goal)
      requires Fits(p, goal, Now()) && WellScoped(p) && InScopeT(p, scope, t) && FitsAbs(p, a) && !disabled && t.ToEntry?
      requires goal.solved ==> SettledT(p, goal.facts, goal.seen, t, b) && Le(a, b)
      modifies this
      ensures Transfers(p, goal, old(Now()), Now())
      ensures Quiet(Now()) ==> SettledT(p, facts, seen, t, a)
    {
      hide Universe, Meaning, SettledE, InScopeE;
      var target := Eval(t.base, scope, goal);
      ghost var mid := Now();
      var k := Eval(t.index, scope, goal);
      if !disabled {
        Escape(k, goal);
        StoredBelow(p, goal, target, Meaning(p, goal.facts, t.base), None, a, b);
        Store(target, None, a, goal);
        if Quiet(Now()) {
          SettledEGrows(p, facts, mid.seen, seen, t.base);
        }
      }
    }

    /** Go through a statement; returned values go to `home`. */
    method Walk(s: Stmt, home: Place, ghost scope: set<nat>, ghost goal: Goal)
      requires Fits(p, goal, Now()) && WellScoped(p) && InScopeS(p, scope, s) && FitsPlace(p, home)
      requires goal.solved ==> SettledS(p, goal.facts, goal.seen, home, s)
      modifies this
      ensures Transfers(p, goal, old(Now()), Now())
      ensures Quiet(Now()) ==> SettledS(p, facts, seen, home, s)
      decreases s, 1
    {
      hide Universe;
      if disabled {
        return;
      }
      match s
      case Skip =>
      case Then(first, second) => WalkBoth(s, first, second, home, scope, ScopeAfter(scope, first), goal);
      case Declare(x, value) => EvalInto(value, OfLocal(x), scope, goal);
      case LocalFunction(x, id) => Merge(OfLocal(x), One(id), goal);
      case FunctionAt(target, id) => AssignTo(target, One(id), One(id), scope, goal);
      case Assign(target, value) => WalkAssign(s, home, scope, goal);
      case Return(value) => EvalInto(value, home, scope, goal);
      case Do(value) => EvalObserved(value, scope, goal);
      case If(cond, yes, no) =>
        EvalObserved(cond, scope, goal);
        ghost var mid := Now();
        WalkBoth(s, yes, no, home, scope, scope, goal);
        if Quiet(Now()) {
          SettledEGrows(p, facts, mid.seen, seen, cond);
        }
      case While(cond, body) =>
        EvalObserved(cond, scope, goal);
        ghost var mid := Now();
        Walk(body, home, scope, goal);
        if Quiet(Now()) {
          SettledEGrows(p, facts, mid.seen, seen, cond);
        }
    }

    method WalkBoth(ghost s: Stmt, first: Stmt, second: Stmt, home: Place, ghost scope: set<nat>, ghost inner: set<nat>,
                    ghost goal: Goal)
      requires Fits(p, goal, Now()) && WellScoped(p) && FitsPlace(p, home) && first < s && second < s
      requires InScopeS(p, scope, first) && InScopeS(p, inner, second)
      requires goal.solved ==> SettledS(p, goal.facts, goal.seen, home, first) && SettledS(p, goal.facts, goal.seen, home, second)
      modifies this
      ensures Transfers(p, goal, old(Now()), Now())
      ensures Quiet(Now()) ==> SettledS(p, facts, seen, home, first) && SettledS(p, facts, seen, home, second)
      decreases s, 0
    {
      hide Universe;
      Walk(first, home, scope, goal);
      ghost var mid := Now();
      Walk(second, home, inner, goal);
      if Quiet(Now()) {
        SettledSGrows(p, facts, mid.seen, seen, home, first);
      }
    }

    method WalkAssign(s: Stmt, home: Place, ghost scope: set<nat>, ghost goal: Goal)
      requires Fits(p, goal, Now()) && WellScoped(p) && s.Assign? && InScopeS(p, scope, s)
      requires goal.solved ==> SettledS(p, goal.facts, goal.seen, home, s)
      modifies this
      ensures Transfers(p, goal, old(Now()), Now())
      ensures Quiet(Now()) ==> SettledS(p, facts, seen, home, s)
    {
      hide Universe, Meaning, SettledE, InScopeE;
      var a := Eval(s.value, scope, goal);
      ghost var mid := Now();
      if !disabled {
        AssignTo(s.target, a, Meaning(p, goal.facts, s.value), scope, goal);
        if Quiet(Now()) {
          SettledEGrows(p, facts, mid.seen, seen, s.value);
        }
      }
    }

    method EvalInto(e: Expr, place: Place, ghost scope: set<nat>, ghost goal: Goal)
      requires Owes(p, goal, scope, e, Now()) && FitsPlace(p, place)
      requires goal.solved ==> Flows(goal.facts, Meaning(p, goal.facts, e), place)
      modifies this
      ensures Transfers(p, goal, old(Now()), Now())
      ensures Quiet(Now()) ==> SettledE(p, facts, seen, e) && Flows(facts, Meaning(p, facts, e), place)
    {
      var a := Eval(e, scope, goal);
      if !disabled {
        Merge(place, a, goal);
      }
    }

    method EvalObserved(e: Expr, ghost scope: set<nat>, ghost goal: Goal)
      requires Owes(p, goal, scope, e, Now())
      requires goal.solved ==> Observes(goal.facts, Meaning(p, goal.facts, e))
      modifies this
      ensures Transfers(p, goal, old(Now()), Now())
      ensures Quiet(Now()) ==> SettledE(p, facts, seen, e) && Observes(facts, Meaning(p, facts, e))
    {
      var a := Eval(e, scope, goal);
      if !disabled {
        Observe(a, goal);
      }
    }

    // ----- rounds -----

    /** One object of a round: give the host its due, then go through the body of a reachable function. */
    method Visit(o: nat, ghost goal: Goal)
      requires Fits(p, goal, Now()) && WellScoped(p) && o < |p.objects|
      requires goal.solved ==> SettledObject(p, goal.facts, goal.seen, o)
      modifies this
      ensures Transfers(p, goal, old(Now()), Now())
      ensures Quiet(Now()) ==> SettledObject(p, facts, seen, o)
    {
      if Escaped(o) in facts {
        HandToHost(o, goal);
      }
      if IsFunction(p, o) && Active(o) in facts {
        assert InScopeObject(p, o);
        var closure := p.objects[o];
        Walk(closure.body, OfReturn(o), closure.scope + Names(closure.params), goal);
      }
    }

    method HandToHost(o: nat, ghost goal: Goal)
      requires Fits(p, goal, Now()) && WellScoped(p) && o < |p.objects|
      requires goal.solved ==> HostUses(p, goal.facts, o)
      modifies this
      ensures Transfers(p, goal, old(Now()), Now()) && seen == old(seen) && disabled == old(disabled)
      ensures !changed ==> HostUses(p, facts, o)
    {
      hide Universe;
      match p.objects[o]
      case Closure(_, params, _) =>
        assert InScopeObject(p, o);
        Learn(Active(o));
        for k := 0 to |params|
          invariant Transfers(p, goal, old(Now()), Now()) && seen == old(seen) && disabled == old(disabled)
          invariant Active(o) in facts && forall i :: 0 <= i < k ==> MayBeAny(OfLocal(params[i])) in facts
        {
          Merge(OfLocal(params[k]), ANY, goal);
        }
        PlaceBelow(p, goal, Now(), OfReturn(o));
        Escape(At(facts, OfReturn(o)), goal);
      case TableSite =>
        var held := EntryOf(facts, One(o));
        EntriesBelow(p, goal, Now(), o);
        Escape(held, goal);
    }

    method WalkModules(ghost goal: Goal)
      requires Fits(p, goal, Now()) && WellScoped(p) && (goal.solved ==> PostFixpoint(p, goal.facts, goal.seen))
      modifies this
      ensures Transfers(p, goal, old(Now()), Now())
      ensures Quiet(Now()) ==> ModulesSettled(p, facts, seen, |p.modules|)
    {
      hide Universe, Meaning, SettledE, InScopeE;
      for m := 0 to |p.modules|
        invariant Transfers(p, goal, old(Now()), Now())
        invariant Quiet(Now()) ==> ModulesSettled(p, facts, seen, m)
      {
        ghost var mid := Now();
        Walk(p.modules[m].body, OfModule(m), {}, goal);
        if Quiet(Now()) {
          ModulesStay(p, facts, mid.seen, seen, m);
        }
      }
    }

    method VisitObjects(ghost goal: Goal)
      requires Fits(p, goal, Now()) && WellScoped(p) && (goal.solved ==> PostFixpoint(p, goal.facts, goal.seen))
      modifies this
      ensures Transfers(p, goal, old(Now()), Now())
      ensures Quiet(Now()) ==> ObjectsSettled(p, facts, seen, |p.objects|)
    {
      hide Universe, Meaning, SettledS, InScopeS, WellScoped;
      for o := 0 to |p.objects|
        invariant Transfers(p, goal, old(Now()), Now())
        invariant Quiet(Now()) ==> ObjectsSettled(p, facts, seen, o)
      {
        ghost var mid := Now();
        Visit(o, goal);
        if Quiet(Now()) {
          ObjectsStay(p, facts, mid.seen, seen, o);
        }
      }
    }

    /** One round: every module, the results of the entry, every object. */
    method Round(ghost goal: Goal)
      requires Fits(p, goal, Now()) && WellScoped(p) && (goal.solved ==> PostFixpoint(p, goal.facts, goal.seen))
      modifies this
      ensures Transfers(p, goal, old(Now()), Now())
      ensures Quiet(Now()) ==> PostFixpoint(p, facts, seen)
    {
      hide Universe, Meaning, SettledS, InScopeS, WellScoped;
      WalkModules(goal);
      ghost var mid := Now();
      PlaceBelow(p, goal, Now(), OfModule(p.entry));
      Escape(At(facts, OfModule(p.entry)), goal);
      VisitObjects(goal);
      if Quiet(Now()) {
        ModulesStay(p, facts, mid.seen, seen, |p.modules|);
      }
    }

    /** Rounds until one changes nothing. The facts are then closed, and contained in all closed facts;
        the analysis gives up only when there are none. */
    method Run(ghost goal: Goal) returns (done: bool)
      requires Now() == Snapshot({}, {}, false, disabled) && WellScoped(p)
      requires goal.solved ==> PostFixpoint(p, goal.facts, goal.seen)
      modifies this
      ensures done ==> !old(disabled) && PostFixpoint(p, facts, seen) && facts <= Universe(p)
      ensures goal.solved && !old(disabled) ==> done && facts <= goal.facts && seen <= goal.seen
    {
      hide Universe, Meaning, SettledS, InScopeS, WellScoped;
      while true
        invariant Fits(p, goal, Now()) && (goal.solved && !old(disabled) ==> !disabled) && (old(disabled) ==> disabled)
        decreases |Universe(p)| - |facts|
      {
        changed := false;
        ghost var before := facts;
        Round(goal);
        if disabled {
          return false;
        }
        if !changed {
          return true;
        }
        MoreFacts(before, facts, Universe(p));
      }
    }
  }

  function KeyPlace(o: nat, key: Option<string>): Place {
    if key.Some? then OfField(o, key.value) else OfEntries(o)
  }
}
