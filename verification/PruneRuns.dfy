/** The two runs in lockstep: every expression, call, host turn and statement has the same outcome in the
    package and in its pruned form. */
module PruneRuns {
  import opened PackageSyntax
  import opened ClosureFacts
  import opened PackageMachine
  import opened Pruning
  import opened PruneSimulation
  import opened PruneValues

  // ----- expressions -----

  ghost predicate EvalOk(c: Cut, host: Host, fuel: nat, env: Env, h: Heap, g: Heap, e: Expr) {
    Same(c, h.shape, Meaning(c.p, c.facts, e), Eval(c.p, host, fuel, env, h, e),
         Eval(Pruned(c), host, fuel, env, g, PruneE(c, e)))
  }

  ghost predicate ArgsOk(c: Cut, host: Host, fuel: nat, env: Env, h: Heap, g: Heap, args: Exprs) {
    SameAll(c, h.shape, Meanings(c.p, c.facts, args), EvalAll(c.p, host, fuel, env, h, args),
            EvalAll(Pruned(c), host, fuel, env, g, PruneArgs(c, args)))
  }

  /** After evaluating one expression the next one finds everything prepared. */
  lemma StillPrepared(c: Cut, h: Heap, g: Heap, h1: Heap, g1: Heap, scope: set<nat>, env: Env)
    requires Prepared(c, h, g, scope, env) && Onward(c, h.shape, h1, g1)
    ensures Prepared(c, h1, g1, scope, env)
  {
    EnvExtends(h.shape, h1.shape, env);
  }

  lemma {:induction false} EvalSame(c: Cut, host: Host, fuel: nat, env: Env, h: Heap, g: Heap, scope: set<nat>, e: Expr)
    requires Prepared(c, h, g, scope, env) && Good(c, scope, e)
    ensures EvalOk(c, host, fuel, env, h, g, e)
    decreases 4 * fuel + 2, e, 1
  {
    hide EvalOk;
    match e
    case Const(_) => AtomSame(c, host, fuel, env, h, g, scope, e);
    case Local(_) => LocalSame(c, host, fuel, env, h, g, scope, e);
    case Global(_) => GlobalSame(c, host, fuel, env, h, g, e);
    case Function(_) => AtomSame(c, host, fuel, env, h, g, scope, e);
    case Table(_, _) => TableSame(c, host, fuel, env, h, g, scope, e);
    case Index(_, _) => IndexSame(c, host, fuel, env, h, g, scope, e);
    case IndexBy(_, _) => IndexBySame(c, host, fuel, env, h, g, scope, e);
    case Require(_) => RequireSame(c, host, fuel, env, h, g, scope, e);
    case Call(_, _) => CallExprSame(c, host, fuel, env, h, g, scope, e);
    case And(_, _) => ShortcutSame(c, host, fuel, env, h, g, scope, e);
    case Or(_, _) => ShortcutSame(c, host, fuel, env, h, g, scope, e);
    case Binary(_, _, _) => BinarySame(c, host, fuel, env, h, g, scope, e);
    case Not(_) => NotSame(c, host, fuel, env, h, g, scope, e);
    case Len(_) => LenSame(c, host, fuel, env, h, g, scope, e);
    case IfElse(_, _, _) => IfElseSame(c, host, fuel, env, h, g, scope, e);
  }

  lemma AtomSame(c: Cut, host: Host, fuel: nat, env: Env, h: Heap, g: Heap, scope: set<nat>, e: Expr)
    requires Prepared(c, h, g, scope, env) && Good(c, scope, e) && (e.Const? || e.Function?)
    ensures EvalOk(c, host, fuel, env, h, g, e)
  {
    hide Alike, Sound, Kept;
  }

  /** A global is whatever the host names. */
  lemma GlobalSame(c: Cut, host: Host, fuel: nat, env: Env, h: Heap, g: Heap, e: Expr)
    requires Allowed(c) && Alike(c, h, g) && e.Global?
    ensures EvalOk(c, host, fuel, env, h, g, e)
  {
    hide Allowed;
    var r := host.globals(e.name, h.trace);
    DerefFree(c, h.shape, h.trace, r);
    HostKept(c, h.shape, Deref(h.trace, r));
  }

  lemma TableSame(c: Cut, host: Host, fuel: nat, env: Env, h: Heap, g: Heap, scope: set<nat>, e: Expr)
    requires Prepared(c, h, g, scope, env) && Good(c, scope, e) && e.Table?
    ensures EvalOk(c, host, fuel, env, h, g, e)
    decreases 4 * fuel + 2, e, 0
  {
    hide Allowed, Exec, HostTurn, CallValue, Load, Locate;
    AddTableAlike(c, h, g, e.id);
    EnvExtends(h.shape, AddTable(h, e.id).shape, env);
    FillSame(c, host, fuel, env, AddTable(h, e.id), AddTable(g, e.id), scope, |h.fields|, e.id, e.items);
  }

  lemma RequireSame(c: Cut, host: Host, fuel: nat, env: Env, h: Heap, g: Heap, scope: set<nat>, e: Expr)
    requires Prepared(c, h, g, scope, env) && Good(c, scope, e) && e.Require?
    ensures EvalOk(c, host, fuel, env, h, g, e)
    decreases 4 * fuel + 2, e, 0
  {
    if fuel > 0 {
      LoadSame(c, host, fuel - 1, h, g, e.name);
    }
  }

  lemma LocalSame(c: Cut, host: Host, fuel: nat, env: Env, h: Heap, g: Heap, scope: set<nat>, e: Expr)
    requires Prepared(c, h, g, scope, env) && Good(c, scope, e) && e.Local?
    ensures EvalOk(c, host, fuel, env, h, g, e)
  {
    hide Allowed;
    assert e.x in env && env[e.x] < |h.values|;
    assert CellRelated(c, h.shape, h.shape.names[env[e.x]], h.values[env[e.x]], g.values[env[e.x]]);
  }

  /** What the host is asked to do. */
  lemma AskSame(c: Cut, host: Host, fuel: nat, h: Heap, g: Heap, what: Request, operands: seq<Value>)
    requires Allowed(c) && Alike(c, h, g) && forall k :: 0 <= k < |operands| ==> In(c, h.shape, operands[k], ANY)
    ensures Same(c, h.shape, ANY, Ask(c.p, host, fuel, h, what, operands), Ask(Pruned(c), host, fuel, g, what, operands))
    decreases 4 * fuel
  {
    hide Alike, Allowed, Pruned;
    if fuel > 0 {
      SightsFree(c, h.shape, operands);
      var events := [Asked(what)] + Sights(operands);
      forall i | 0 <= i < |events| ensures EventFree(c, h.shape, events[i]) {
        if i > 0 {
          assert EventFree(c, h.shape, Sights(operands)[i - 1]);
        }
      }
      TellAlike(c, h, g, events);
      HostSame(c, host, fuel - 1, Tell(h, events), Tell(g, events));
    }
  }

  lemma IndexRuns(p: Package, host: Host, fuel: nat, env: Env, h: Heap, e: Expr)
    requires e.Index?
    ensures var r := Eval(p, host, fuel, env, h, e.base);
            Eval(p, host, fuel, env, h, e) == if r.Ok? then ReadFrom(p, host, fuel, r.heap, r.value, Plain(Str(e.key))) else r
  {
  }

  /** Reading a constant key of related values. */
  lemma KeyRead(c: Cut, host: Host, fuel: nat, h: Heap, g: Heap, v: Value, e: Expr)
    requires Allowed(c) && Alike(c, h, g) && e.Index? && In(c, h.shape, v, Meaning(c.p, c.facts, e.base))
    requires ReadBy(c.seen, Meaning(c.p, c.facts, e.base), e.key) && Observes(c.facts, Meaning(c.p, c.facts, e))
    requires MethodKept(Exactly(c), e)
    ensures Same(c, h.shape, Meaning(c.p, c.facts, e), ReadFrom(c.p, host, fuel, h, v, Plain(Str(e.key))),
                 ReadFrom(Pruned(c), host, fuel, g, Cropped(c, v), Plain(Str(e.key))))
    decreases 4 * fuel + 1
  {
    hide Allowed, Exec, Eval, HostTurn, Pruned, Ask;
    var a, key := Meaning(c.p, c.facts, e.base), Plain(Str(e.key));
    AlikeShape(c, h, g);
    if Hosted(h, v) || IsText(v) {
      if Hosted(h, v) {
        HostedFree(c, h, g, v, a);
        HostedReads(c, a, e.key);
      }
      AskSame(c, host, fuel, h, g, Indexing, [v, key]);
      SameWider(c, h.shape, h.shape, ANY, Meaning(c.p, c.facts, e), Ask(c.p, host, fuel, h, Indexing, [v, key]),
                Ask(Pruned(c), host, fuel, g, Indexing, [v, key]));
    } else if IsTable(h, v) {
      ReadSame(c, h, g, v, a, e.key);
    }
  }

  lemma HostedReads(c: Cut, a: Abs, key: string)
    requires MayBeHosted(c.p, c.facts, a)
    ensures FieldOf(c.p, c.facts, a, key).any
  {
    if !a.any {
      var o :| o in a.objects && o < |c.p.objects| && !IsFunction(c.p, o) && Escaped(o) in c.facts;
      assert FieldAny(c.p, c.facts, o, key);
    }
  }

  lemma IndexSame(c: Cut, host: Host, fuel: nat, env: Env, h: Heap, g: Heap, scope: set<nat>, e: Expr)
    requires Prepared(c, h, g, scope, env) && Good(c, scope, e) && e.Index?
    ensures EvalOk(c, host, fuel, env, h, g, e)
    decreases 4 * fuel + 2, e, 0
  {
    hide Alike, Allowed, In, EnvFits, Eval, ReadFrom, MethodKept;
    EvalSame(c, host, fuel, env, h, g, scope, e.base);
    IndexRuns(c.p, host, fuel, env, h, e);
    IndexRuns(Pruned(c), host, fuel, env, g, PruneE(c, e));
    var r, q := Eval(c.p, host, fuel, env, h, e.base), Eval(Pruned(c), host, fuel, env, g, PruneE(c, e.base));
    if r.Ok? {
      KeyRead(c, host, fuel, r.heap, q.heap, r.value, e);
      SameWider(c, h.shape, r.heap.shape, Meaning(c.p, c.facts, e), Meaning(c.p, c.facts, e),
                ReadFrom(c.p, host, fuel, r.heap, r.value, Plain(Str(e.key))),
                ReadFrom(Pruned(c), host, fuel, q.heap, q.value, Plain(Str(e.key))));
    }
  }

  lemma HostSame(c: Cut, host: Host, fuel: nat, h: Heap, g: Heap)
    requires Allowed(c) && Alike(c, h, g)
    ensures Same(c, h.shape, ANY, HostTurn(c.p, host, fuel, h), HostTurn(Pruned(c), host, fuel, g))
    decreases 4 * fuel + 3
  {
    hide Allowed, Eval, Exec, PruneE, PruneS;
    match host.next(h.trace)
    case Raise =>
    case Reply(r) =>
      DerefFree(c, h.shape, h.trace, r);
      HostKept(c, h.shape, Deref(h.trace, r));
    case Get(table, key) =>
      if fuel > 0 {
        DerefFree(c, h.shape, h.trace, table);
        HostReads(c, h, g, Deref(h.trace, table), Deref(h.trace, key));
        var event := [Saw(HostRead(h, Deref(h.trace, table), Deref(h.trace, key)))];
        TellAlike(c, h, g, event);
        HostSame(c, host, fuel - 1, Tell(h, event), Tell(g, event));
      }
    case Put(table, key, value) =>
      if fuel > 0 {
        DerefFree(c, h.shape, h.trace, table);
        DerefFree(c, h.shape, h.trace, value);
        var v, k, a := Deref(h.trace, table), Deref(h.trace, key), Deref(h.trace, value);
        if v.Table? {
          FreeWrite(c, h, g, v, k, a);
        }
        TellAlike(c, HostWrite(h, v, k, a), HostWrite(g, v, k, a), [Wrote]);
        HostSame(c, host, fuel - 1, Tell(HostWrite(h, v, k, a), [Wrote]), Tell(HostWrite(g, v, k, a), [Wrote]));
      }
    case Adopt(table, on) =>
      if fuel > 0 {
        DerefFree(c, h.shape, h.trace, table);
        var v := Deref(h.trace, table);
        AdoptAlike(c, h, g, v, on);
        TellAlike(c, HostAdopt(h, v, on), HostAdopt(g, v, on), [Wrote]);
        HostSame(c, host, fuel - 1, Tell(HostAdopt(h, v, on), [Wrote]), Tell(HostAdopt(g, v, on), [Wrote]));
      }
    case Invoke(func, args) =>
      if fuel > 0 {
        DerefFree(c, h.shape, h.trace, func);
        DerefAllFree(c, h.shape, h.trace, args);
        HostInvokes(c, host, fuel, h, g, Deref(h.trace, func), DerefAll(h.trace, args));
      }
  }

  lemma HostReads(c: Cut, h: Heap, g: Heap, v: Value, key: Value)
    requires Allowed(c) && Alike(c, h, g) && In(c, h.shape, v, ANY)
    ensures HostRead(h, v, key) == HostRead(g, v, key) && TraceFree(c, h.shape, [Saw(HostRead(h, v, key))])
  {
    if IsTable(h, v) {
      FreeRead(c, h, g, v, key);
    }
  }

  /** The host calls back: whatever it passes may flow to any function it holds. */
  lemma HostInvokes(c: Cut, host: Host, fuel: nat, h: Heap, g: Heap, f: Value, args: seq<Value>)
    requires Allowed(c) && Alike(c, h, g) && fuel > 0 && In(c, h.shape, f, ANY)
    requires forall k :: 0 <= k < |args| ==> In(c, h.shape, args[k], ANY)
    ensures Same(c, h.shape, ANY, Resume(c.p, host, fuel, CallValue(c.p, host, fuel - 1, h, f, args)),
                 Resume(Pruned(c), host, fuel, CallValue(Pruned(c), host, fuel - 1, g, f, args)))
    decreases 4 * fuel + 2
  {
    hide Alike, Allowed, Exec, HostTurn, CallValue, Load, Fill, Locate, EnvFits, Meaning;
    var anys := seq(|args|, i => ANY);
    HostKept(c, h.shape, f);
    FreeArgs(c, h.shape, args);
    assert Called(c.p, c.facts, ANY, anys);
    CallSame(c, host, fuel - 1, h, g, f, args, ANY, anys);
    var r, q := CallValue(c.p, host, fuel - 1, h, f, args), CallValue(Pruned(c), host, fuel - 1, g, f, args);
    assert Within(c, ResultOf(c.p, c.facts, ANY), ANY);
    if !r.Spent? {
      var event := if r.Ok? then Saw(r.value) else Raised;
      if r.Ok? {
        InWithin(c, r.heap.shape, r.value, ResultOf(c.p, c.facts, ANY), ANY);
        HostKept(c, r.heap.shape, r.value);
      }
      assert TraceFree(c, r.heap.shape, [event]);
      TellAlike(c, r.heap, q.heap, [event]);
      HostSame(c, host, fuel - 1, Tell(r.heap, [event]), Tell(q.heap, [event]));
    }
  }

  /** The host goes on after a call it made. */
  function Resume(p: Package, host: Host, fuel: nat, r: Outcome<Value>): Outcome<Value>
    requires fuel > 0
  {
    match r
    case Ok(v, h) => HostTurn(p, host, fuel - 1, Tell(h, [Saw(v)]))
    case Failed(h) => HostTurn(p, host, fuel - 1, Tell(h, [Raised]))
    case Spent(h) => Spent(h)
  }

  lemma {:induction false} FreeArgs(c: Cut, s: Shape, args: seq<Value>)
    requires Allowed(c) && forall k :: 0 <= k < |args| ==> In(c, s, args[k], ANY)
    ensures CroppedAll(c, args) == args
  {
    forall k | 0 <= k < |args| ensures CroppedAll(c, args)[k] == args[k] {
      HostKept(c, s, args[k]);
    }
  }

  // ----- calls -----

  lemma ArgsBind(c: Cut, s: Shape, id: nat, args: seq<Value>, func: Abs, abs: seq<Abs>)
    requires Allowed(c) && AllIn(c, s, args, abs) && Called(c.p, c.facts, func, abs)
    requires IsFunction(c.p, id) && Covers(c, func, id)
    ensures Active(id) in c.facts && id !in c.dead && Bindable(c, s, c.p.objects[id].params, args)
  {
    var params := c.p.objects[id].params;
    if id in func.objects {
      assert CalledObject(c.p, c.facts, id, abs);
      forall k | 0 <= k < |params| && k < |args| ensures In(c, s, args[k], At(c.facts, OfLocal(params[k]))) {
        FlowsWithin(c, abs[k], OfLocal(params[k]));
        InWithin(c, s, args[k], abs[k], At(c.facts, OfLocal(params[k])));
      }
    } else {
      assert SettledObject(c.p, c.facts, c.seen, id);
      forall k | 0 <= k < |params| && k < |args| ensures In(c, s, args[k], At(c.facts, OfLocal(params[k]))) {
        EscapesWithin(c, abs[k]);
        InWithin(c, s, args[k], abs[k], ANY);
        InWithin(c, s, args[k], ANY, At(c.facts, OfLocal(params[k])));
      }
    }
  }

  lemma CallSame(c: Cut, host: Host, fuel: nat, h: Heap, g: Heap, f: Value, args: seq<Value>, func: Abs, abs: seq<Abs>)
    requires Allowed(c) && Alike(c, h, g) && In(c, h.shape, f, func) && AllIn(c, h.shape, args, abs)
    requires Called(c.p, c.facts, func, abs)
    ensures Same(c, h.shape, ResultOf(c.p, c.facts, func), CallValue(c.p, host, fuel, h, f, args),
                 CallValue(Pruned(c), host, fuel, g, Cropped(c, f), CroppedAll(c, args)))
    decreases 4 * fuel + 3
  {
    if f.Fun? {
      ClosureSame(c, host, fuel, h, g, f, args, func, abs);
    } else if Hosted(h, f) {
      HostedCallSame(c, host, fuel, h, g, f, args, func, abs);
    }
  }

  /** Calling what is the host's. */
  lemma HostedCallSame(c: Cut, host: Host, fuel: nat, h: Heap, g: Heap, f: Value, args: seq<Value>, func: Abs, abs: seq<Abs>)
    requires Allowed(c) && Alike(c, h, g) && In(c, h.shape, f, func) && AllIn(c, h.shape, args, abs) && Hosted(h, f)
    requires Called(c.p, c.facts, func, abs)
    ensures Same(c, h.shape, ResultOf(c.p, c.facts, func), CallValue(c.p, host, fuel, h, f, args),
                 CallValue(Pruned(c), host, fuel, g, Cropped(c, f), CroppedAll(c, args)))
    decreases 4 * fuel + 2
  {
    hide Allowed, Alike, Pruned;
    HostedFree(c, h, g, f, func);
    HostedCalls(c, func, abs);
    forall k | 0 <= k < |args| ensures In(c, h.shape, args[k], ANY) {
      EscapesWithin(c, abs[k]);
      InWithin(c, h.shape, args[k], abs[k], ANY);
    }
    FreeArgs(c, h.shape, args);
    AlikeShape(c, h, g);
    var operands := [f] + args;
    AskSame(c, host, fuel, h, g, Invoking, operands);
    SameWider(c, h.shape, h.shape, ANY, ResultOf(c.p, c.facts, func), Ask(c.p, host, fuel, h, Invoking, operands),
              Ask(Pruned(c), host, fuel, g, Invoking, operands));
  }

  lemma HostedCalls(c: Cut, func: Abs, abs: seq<Abs>)
    requires MayBeHosted(c.p, c.facts, func) && Called(c.p, c.facts, func, abs)
    ensures ArgsEscape(c.facts, abs) && ResultOf(c.p, c.facts, func).any
  {
    if !func.any {
      var o :| o in func.objects && o < |c.p.objects| && !IsFunction(c.p, o) && Escaped(o) in c.facts;
      assert CalledObject(c.p, c.facts, o, abs) && ResultAny(c.p, c.facts, o);
    }
  }

  lemma ClosureRuns(p: Package, host: Host, fuel: nat, h: Heap, f: Value, args: seq<Value>)
    requires f.Fun? && IsFunction(p, f.id)
    ensures var (env, h1) := Bind(PackageMachine.Enter(h, f.id), f.env, p.objects[f.id].params, args);
            CallValue(p, host, fuel, h, f, args) == Answer(Exec(p, host, fuel, env, h1, p.objects[f.id].body))
  {
    hide Exec, Bind;
  }

  lemma PrunedFunction(c: Cut, id: nat)
    requires IsFunction(c.p, id)
    ensures IsFunction(Pruned(c), id) && Pruned(c).objects[id].params == c.p.objects[id].params
    ensures Pruned(c).objects[id].body == PruneS(c, c.p.objects[id].body)
  {
    hide PruneS;
  }

  lemma EnterAlike(c: Cut, h: Heap, g: Heap, id: nat)
    requires Alike(c, h, g) && Active(id) in c.facts
    ensures Alike(c, PackageMachine.Enter(h, id), PackageMachine.Enter(g, id))
  {
  }

  lemma ClosureSame(c: Cut, host: Host, fuel: nat, h: Heap, g: Heap, f: Value, args: seq<Value>, func: Abs, abs: seq<Abs>)
    requires Allowed(c) && Alike(c, h, g) && f.Fun? && In(c, h.shape, f, func) && AllIn(c, h.shape, args, abs)
    requires Called(c.p, c.facts, func, abs)
    ensures Same(c, h.shape, ResultOf(c.p, c.facts, func), CallValue(c.p, host, fuel, h, f, args),
                 CallValue(Pruned(c), host, fuel, g, Cropped(c, f), CroppedAll(c, args)))
    decreases 4 * fuel + 2
  {
    hide Alike, Exec, Eval, Pruned, PruneS, Kept, PostFixpoint, Called, Bind, Bindable, ResultOf, SettledS, InScopeS;
    var id := f.id;
    ArgsBind(c, h.shape, id, args, func, abs);
    var o := c.p.objects[id];
    assert InScopeObject(c.p, id);
    PrunedFunction(c, id);
    ClosureRuns(c.p, host, fuel, h, f, args);
    ClosureRuns(Pruned(c), host, fuel, g, f, CroppedAll(c, args));
    var h0, g0 := PackageMachine.Enter(h, id), PackageMachine.Enter(g, id);
    EnterAlike(c, h, g, id);
    BindSame(c, h0, g0, f.env, o.params, args);
    var (env, h1) := Bind(h0, f.env, o.params, args);
    var (env2, g1) := Bind(g0, f.env, o.params, CroppedAll(c, args));
    BodySame(c, host, fuel, env, h1, g1, id);
    ResultWithin(c, func, id);
    SameWider(c, h.shape, h1.shape, At(c.facts, OfReturn(id)), ResultOf(c.p, c.facts, func),
              Answer(Exec(c.p, host, fuel, env, h1, o.body)), Answer(Exec(Pruned(c), host, fuel, env, g1, PruneS(c, o.body))));
  }

  lemma BodySame(c: Cut, host: Host, fuel: nat, env: Env, h: Heap, g: Heap, id: nat)
    requires IsFunction(c.p, id) && Active(id) in c.facts
    requires Prepared(c, h, g, c.p.objects[id].scope + Names(c.p.objects[id].params), env)
    ensures Same(c, h.shape, At(c.facts, OfReturn(id)), Answer(Exec(c.p, host, fuel, env, h, c.p.objects[id].body)),
                 Answer(Exec(Pruned(c), host, fuel, env, g, PruneS(c, c.p.objects[id].body))))
    decreases 4 * fuel + 2, c.p.objects[id].body, 2
  {
    hide Exec, Eval, PruneS, PruneE, EnvFits, KeptS, SettledS, InScopeS;
    assert InScopeObject(c.p, id) && SettledObject(c.p, c.facts, c.seen, id);
    ExecSame(c, host, fuel, env, h, g, c.p.objects[id].scope + Names(c.p.objects[id].params), OfReturn(id), c.p.objects[id].body);
  }

  lemma CallRuns(p: Package, host: Host, fuel: nat, env: Env, h: Heap, e: Expr)
    requires e.Call?
    ensures var r := Eval(p, host, fuel, env, h, e.func);
            var vs := EvalAll(p, host, fuel, env, r.heap, e.args);
            Eval(p, host, fuel, env, h, e) ==
            if !r.Ok? then r else if vs.Failed? then Failed(vs.heap) else if vs.Spent? || fuel == 0 then Spent(vs.heap)
            else CallValue(p, host, fuel - 1, vs.heap, r.value, vs.value)
  {
  }

  lemma CallExprSame(c: Cut, host: Host, fuel: nat, env: Env, h: Heap, g: Heap, scope: set<nat>, e: Expr)
    requires Prepared(c, h, g, scope, env) && Good(c, scope, e) && e.Call?
    ensures EvalOk(c, host, fuel, env, h, g, e)
    decreases 4 * fuel + 2, e, 0
  {
    hide Alike, Allowed, In, EnvFits, Eval, EvalAll, CallValue;
    EvalSame(c, host, fuel, env, h, g, scope, e.func);
    CallRuns(c.p, host, fuel, env, h, e);
    CallRuns(Pruned(c), host, fuel, env, g, PruneE(c, e));
    var r, q := Eval(c.p, host, fuel, env, h, e.func), Eval(Pruned(c), host, fuel, env, g, PruneE(c, e.func));
    if r.Ok? {
      StillPrepared(c, h, g, r.heap, q.heap, scope, env);
      ArgsSame(c, host, fuel, env, r.heap, q.heap, scope, e.args);
      var rs := EvalAll(c.p, host, fuel, env, r.heap, e.args);
      var qs := EvalAll(Pruned(c), host, fuel, env, q.heap, PruneArgs(c, e.args));
      if rs.Ok? && fuel > 0 {
        var func, abs := Meaning(c.p, c.facts, e.func), Meanings(c.p, c.facts, e.args);
        InExtends(c, r.heap.shape, rs.heap.shape, r.value, func);
        CallSame(c, host, fuel - 1, rs.heap, qs.heap, r.value, rs.value, func, abs);
      }
    }
  }

  lemma ArgsRun(p: Package, host: Host, fuel: nat, env: Env, h: Heap, args: Exprs)
    requires args.Arg?
    ensures var r := Eval(p, host, fuel, env, h, args.head);
            var rest := EvalAll(p, host, fuel, env, r.heap, args.rest);
            EvalAll(p, host, fuel, env, h, args) ==
            if r.Failed? then Failed(r.heap) else if r.Spent? then Spent(r.heap)
            else if rest.Ok? then Ok([r.value] + rest.value, rest.heap) else rest
  {
    hide Eval;
  }

  lemma ArgsSame(c: Cut, host: Host, fuel: nat, env: Env, h: Heap, g: Heap, scope: set<nat>, args: Exprs)
    requires Prepared(c, h, g, scope, env) && GoodArgs(c, scope, args)
    ensures ArgsOk(c, host, fuel, env, h, g, args)
    decreases 4 * fuel + 2, args, 1
  {
    hide Alike, Allowed, In, EnvFits, Meaning, Eval, PruneE;
    if args.Arg? {
      SomeArgsSame(c, host, fuel, env, h, g, scope, args);
    }
  }

  lemma SomeArgsSame(c: Cut, host: Host, fuel: nat, env: Env, h: Heap, g: Heap, scope: set<nat>, args: Exprs)
    requires Prepared(c, h, g, scope, env) && GoodArgs(c, scope, args) && args.Arg?
    ensures ArgsOk(c, host, fuel, env, h, g, args)
    decreases 4 * fuel + 2, args, 0
  {
    hide Alike, Allowed, In, AllIn, EnvFits, Meaning, Eval, EvalAll, PruneE, SettledE, KeptE, InScopeE, CroppedAll;
    EvalSame(c, host, fuel, env, h, g, scope, args.head);
    ArgsRun(c.p, host, fuel, env, h, args);
    ArgsRun(Pruned(c), host, fuel, env, g, PruneArgs(c, args));
    var r, q := Eval(c.p, host, fuel, env, h, args.head), Eval(Pruned(c), host, fuel, env, g, PruneE(c, args.head));
    if r.Ok? {
      StillPrepared(c, h, g, r.heap, q.heap, scope, env);
      ArgsSame(c, host, fuel, env, r.heap, q.heap, scope, args.rest);
      var rs := EvalAll(c.p, host, fuel, env, r.heap, args.rest);
      if rs.Ok? {
        InExtends(c, r.heap.shape, rs.heap.shape, r.value, Meaning(c.p, c.facts, args.head));
        CroppedCons(c, r.value, rs.value);
        InCons(c, rs.heap.shape, r.value, rs.value, Meaning(c.p, c.facts, args.head), Meanings(c.p, c.facts, args.rest));
      }
    }
  }

  lemma InCons(c: Cut, s: Shape, v: Value, vs: seq<Value>, a: Abs, abs: seq<Abs>)
    requires In(c, s, v, a) && AllIn(c, s, vs, abs)
    ensures AllIn(c, s, [v] + vs, [a] + abs)
  {
    hide In;
  }

  lemma CroppedCons(c: Cut, v: Value, vs: seq<Value>)
    ensures CroppedAll(c, [v] + vs) == [Cropped(c, v)] + CroppedAll(c, vs)
  {
  }

  // ----- operators -----

  lemma IndexByRuns(p: Package, host: Host, fuel: nat, env: Env, h: Heap, e: Expr)
    requires e.IndexBy?
    ensures var r := Eval(p, host, fuel, env, h, e.base);
            var k := Eval(p, host, fuel, env, r.heap, e.index);
            Eval(p, host, fuel, env, h, e) ==
            if !r.Ok? then r else if !k.Ok? then k else ReadFrom(p, host, fuel, k.heap, r.value, k.value)
  {
  }

  lemma IndexBySame(c: Cut, host: Host, fuel: nat, env: Env, h: Heap, g: Heap, scope: set<nat>, e: Expr)
    requires Prepared(c, h, g, scope, env) && Good(c, scope, e) && e.IndexBy?
    ensures EvalOk(c, host, fuel, env, h, g, e)
    decreases 4 * fuel + 2, e, 0
  {
    hide Alike, Allowed, In, EnvFits, Eval, ReadFrom;
    EvalSame(c, host, fuel, env, h, g, scope, e.base);
    IndexByRuns(c.p, host, fuel, env, h, e);
    IndexByRuns(Pruned(c), host, fuel, env, g, PruneE(c, e));
    var r, q := Eval(c.p, host, fuel, env, h, e.base), Eval(Pruned(c), host, fuel, env, g, PruneE(c, e.base));
    if r.Ok? {
      StillPrepared(c, h, g, r.heap, q.heap, scope, env);
      EvalSame(c, host, fuel, env, r.heap, q.heap, scope, e.index);
      var rk := Eval(c.p, host, fuel, env, r.heap, e.index);
      var qk := Eval(Pruned(c), host, fuel, env, q.heap, PruneE(c, e.index));
      if rk.Ok? {
        FreeIndex(c, host, fuel, r.heap.shape, rk.heap, qk.heap, r.value, rk.value, e);
        SameWider(c, h.shape, rk.heap.shape, Meaning(c.p, c.facts, e), Meaning(c.p, c.facts, e),
                  ReadFrom(c.p, host, fuel, rk.heap, r.value, rk.value),
                  ReadFrom(Pruned(c), host, fuel, qk.heap, r.value, rk.value));
      }
    }
  }

  lemma FreeIndex(c: Cut, host: Host, fuel: nat, s: Shape, h: Heap, g: Heap, v: Value, k: Value, e: Expr)
    requires Allowed(c) && Onward(c, s, h, g) && e.IndexBy? && SettledE(c.p, c.facts, c.seen, e)
    requires In(c, s, v, Meaning(c.p, c.facts, e.base)) && In(c, h.shape, k, Meaning(c.p, c.facts, e.index))
    ensures Cropped(c, v) == v && Cropped(c, k) == k
    ensures Same(c, h.shape, Meaning(c.p, c.facts, e),
                 ReadFrom(c.p, host, fuel, h, v, k), ReadFrom(Pruned(c), host, fuel, g, v, k))
    decreases 4 * fuel + 1
  {
    hide Allowed, Eval;
    var a, b := Meaning(c.p, c.facts, e.base), Meaning(c.p, c.facts, e.index);
    InExtends(c, s, h.shape, v, a);
    EscapesWithin(c, a);
    EscapesWithin(c, b);
    InWithin(c, h.shape, v, a, ANY);
    InWithin(c, h.shape, k, b, ANY);
    HostKept(c, h.shape, v);
    HostKept(c, h.shape, k);
    AlikeShape(c, h, g);
    if Hosted(h, v) || IsText(v) {
      AskSame(c, host, fuel, h, g, Indexing, [v, k]);
      SameWider(c, h.shape, h.shape, ANY, Meaning(c.p, c.facts, e), Ask(c.p, host, fuel, h, Indexing, [v, k]),
                Ask(Pruned(c), host, fuel, g, Indexing, [v, k]));
    } else if IsTable(h, v) {
      FreeRead(c, h, g, v, k);
      HostKept(c, h.shape, PackageMachine.Read(h.fields[v.at], k));
      InWithin(c, h.shape, PackageMachine.Read(h.fields[v.at], k), ANY, Meaning(c.p, c.facts, e));
    }
  }

  lemma ShortcutRuns(p: Package, host: Host, fuel: nat, env: Env, h: Heap, e: Expr)
    requires e.And? || e.Or?
    ensures var r := Eval(p, host, fuel, env, h, e.left);
            Eval(p, host, fuel, env, h, e) ==
            if r.Ok? && Truthy(r.value) == e.And? then Eval(p, host, fuel, env, r.heap, e.right) else r
  {
  }

  /** What stands for part of a value may stand for the whole. */
  lemma SameWider(c: Cut, s: Shape, t: Shape, a: Abs, b: Abs, r: Outcome<Value>, q: Outcome<Value>)
    requires Same(c, t, a, r, q) && Within(c, a, b) && Extends(s, t)
    ensures Same(c, s, b, r, q)
  {
    if r.Ok? {
      InWithin(c, r.heap.shape, r.value, a, b);
    }
  }

  lemma ShortcutSame(c: Cut, host: Host, fuel: nat, env: Env, h: Heap, g: Heap, scope: set<nat>, e: Expr)
    requires Prepared(c, h, g, scope, env) && Good(c, scope, e) && (e.And? || e.Or?)
    ensures EvalOk(c, host, fuel, env, h, g, e)
    decreases 4 * fuel + 2, e, 0
  {
    hide Alike, Allowed, In, EnvFits, Eval;
    EvalSame(c, host, fuel, env, h, g, scope, e.left);
    ShortcutRuns(c.p, host, fuel, env, h, e);
    ShortcutRuns(Pruned(c), host, fuel, env, g, PruneE(c, e));
    var r, q := Eval(c.p, host, fuel, env, h, e.left), Eval(Pruned(c), host, fuel, env, g, PruneE(c, e.left));
    SameWider(c, h.shape, h.shape, Meaning(c.p, c.facts, e.left), Meaning(c.p, c.facts, e), r, q);
    if r.Ok? {
      LeftStays(c, r.heap.shape, r.value, e.left);
      StillPrepared(c, h, g, r.heap, q.heap, scope, env);
      EvalSame(c, host, fuel, env, r.heap, q.heap, scope, e.right);
      SameWider(c, h.shape, r.heap.shape, Meaning(c.p, c.facts, e.right), Meaning(c.p, c.facts, e),
                Eval(c.p, host, fuel, env, r.heap, e.right), Eval(Pruned(c), host, fuel, env, q.heap, PruneE(c, e.right)));
    }
  }

  lemma IfElseRuns(p: Package, host: Host, fuel: nat, env: Env, h: Heap, e: Expr)
    requires e.IfElse?
    ensures var r := Eval(p, host, fuel, env, h, e.cond);
            Eval(p, host, fuel, env, h, e) ==
            if r.Ok? then Eval(p, host, fuel, env, r.heap, if Truthy(r.value) then e.yes else e.no) else r
  {
  }

  lemma IfElseSame(c: Cut, host: Host, fuel: nat, env: Env, h: Heap, g: Heap, scope: set<nat>, e: Expr)
    requires Prepared(c, h, g, scope, env) && Good(c, scope, e) && e.IfElse?
    ensures EvalOk(c, host, fuel, env, h, g, e)
    decreases 4 * fuel + 2, e, 0
  {
    hide Alike, Allowed, In, EnvFits, Eval;
    EvalSame(c, host, fuel, env, h, g, scope, e.cond);
    IfElseRuns(c.p, host, fuel, env, h, e);
    IfElseRuns(Pruned(c), host, fuel, env, g, PruneE(c, e));
    var r, q := Eval(c.p, host, fuel, env, h, e.cond), Eval(Pruned(c), host, fuel, env, g, PruneE(c, e.cond));
    if r.Ok? {
      ObservedKept(c, r.heap.shape, r.value, Meaning(c.p, c.facts, e.cond));
      StillPrepared(c, h, g, r.heap, q.heap, scope, env);
      var arm := if Truthy(r.value) then e.yes else e.no;
      EvalSame(c, host, fuel, env, r.heap, q.heap, scope, arm);
      SameWider(c, h.shape, r.heap.shape, Meaning(c.p, c.facts, arm), Meaning(c.p, c.facts, e),
                Eval(c.p, host, fuel, env, r.heap, arm), Eval(Pruned(c), host, fuel, env, q.heap, PruneE(c, arm)));
    }
  }

  lemma BinaryRuns(p: Package, host: Host, fuel: nat, env: Env, h: Heap, e: Expr)
    requires e.Binary?
    ensures var l := Eval(p, host, fuel, env, h, e.left);
            var r := Eval(p, host, fuel, env, l.heap, e.right);
            Eval(p, host, fuel, env, h, e) ==
            if !l.Ok? then l else if !r.Ok? then r else Operate(p, host, fuel, r.heap, e.op, l.value, r.value)
  {
  }

  lemma BinarySame(c: Cut, host: Host, fuel: nat, env: Env, h: Heap, g: Heap, scope: set<nat>, e: Expr)
    requires Prepared(c, h, g, scope, env) && Good(c, scope, e) && e.Binary?
    ensures EvalOk(c, host, fuel, env, h, g, e)
    decreases 4 * fuel + 2, e, 0
  {
    hide Alike, Allowed, In, EnvFits, Eval, Operate, Meaning;
    EvalSame(c, host, fuel, env, h, g, scope, e.left);
    BinaryRuns(c.p, host, fuel, env, h, e);
    BinaryRuns(Pruned(c), host, fuel, env, g, PruneE(c, e));
    AnyMeant(c, e);
    var l, q := Eval(c.p, host, fuel, env, h, e.left), Eval(Pruned(c), host, fuel, env, g, PruneE(c, e.left));
    if l.Ok? {
      StillPrepared(c, h, g, l.heap, q.heap, scope, env);
      EvalSame(c, host, fuel, env, l.heap, q.heap, scope, e.right);
      var r, qr := Eval(c.p, host, fuel, env, l.heap, e.right), Eval(Pruned(c), host, fuel, env, q.heap, PruneE(c, e.right));
      if r.Ok? {
        InExtends(c, l.heap.shape, r.heap.shape, l.value, Meaning(c.p, c.facts, e.left));
        OperateSame(c, host, fuel, r.heap, qr.heap, l.value, r.value, e);
        SameWider(c, h.shape, r.heap.shape, ANY, ANY, Operate(c.p, host, fuel, r.heap, e.op, l.value, r.value),
                  Operate(Pruned(c), host, fuel, qr.heap, e.op, q.value, qr.value));
      } else {
        ErrorSame(c, h.shape, l.heap.shape, Meaning(c.p, c.facts, e.right), ANY, r, qr);
      }
    } else {
      ErrorSame(c, h.shape, h.shape, Meaning(c.p, c.facts, e.left), ANY, l, q);
    }
  }

  lemma AnyMeant(c: Cut, e: Expr)
    requires e.Binary? || e.Len?
    ensures Meaning(c.p, c.facts, e) == ANY
  {
  }

  /** An error is the same whatever was expected. */
  lemma ErrorSame(c: Cut, s: Shape, t: Shape, a: Abs, b: Abs, r: Outcome<Value>, q: Outcome<Value>)
    requires Same(c, t, a, r, q) && !r.Ok? && Extends(s, t)
    ensures Same(c, s, b, r, q)
  {
  }

  /** Operators on values that were observed; where the host performs them it may hold both. */
  lemma OperateSame(c: Cut, host: Host, fuel: nat, h: Heap, g: Heap, v: Value, w: Value, e: Expr)
    requires Allowed(c) && Alike(c, h, g) && e.Binary? && OperandsKept(Exactly(c), e.op, e.left, e.right)
    requires In(c, h.shape, v, Meaning(c.p, c.facts, e.left)) && In(c, h.shape, w, Meaning(c.p, c.facts, e.right))
    requires Observes(c.facts, Meaning(c.p, c.facts, e.left)) && Observes(c.facts, Meaning(c.p, c.facts, e.right))
    ensures Same(c, h.shape, ANY, Operate(c.p, host, fuel, h, e.op, v, w),
                 Operate(Pruned(c), host, fuel, g, e.op, Cropped(c, v), Cropped(c, w)))
    decreases 4 * fuel + 1
  {
    hide Alike, Allowed, Pruned, Ask, Meaning;
    var l, r := Meaning(c.p, c.facts, e.left), Meaning(c.p, c.facts, e.right);
    ObservedKept(c, h.shape, v, l);
    ObservedKept(c, h.shape, w, r);
    AlikeShape(c, h, g);
    if !(v.Plain? && w.Plain?) && (Hosted(h, v) || Hosted(h, w)) && !(e.op == 0 && (v == w || !(Hosted(h, v) && Hosted(h, w)))) {
      OperandsFree(c, h, g, v, w, e);
      AskSame(c, host, fuel, h, g, Operating(e.op), [v, w]);
    }
  }

  lemma OperandsFree(c: Cut, h: Heap, g: Heap, v: Value, w: Value, e: Expr)
    requires Alike(c, h, g) && e.Binary? && OperandsKept(Exactly(c), e.op, e.left, e.right)
    requires In(c, h.shape, v, Meaning(c.p, c.facts, e.left)) && In(c, h.shape, w, Meaning(c.p, c.facts, e.right))
    requires if e.op == 0 then Hosted(h, v) && Hosted(h, w) else Hosted(h, v) || Hosted(h, w)
    ensures In(c, h.shape, v, ANY) && In(c, h.shape, w, ANY)
  {
    hide Alike, Meaning;
    var l, r := Meaning(c.p, c.facts, e.left), Meaning(c.p, c.facts, e.right);
    if Hosted(h, v) {
      HostedFree(c, h, g, v, l);
    }
    if Hosted(h, w) {
      HostedFree(c, h, g, w, r);
    }
    if !Hosted(h, w) {
      FreedIn(c, h, g, w, r);
    }
    if !Hosted(h, v) {
      FreedIn(c, h, g, v, l);
    }
  }

  lemma NotSame(c: Cut, host: Host, fuel: nat, env: Env, h: Heap, g: Heap, scope: set<nat>, e: Expr)
    requires Prepared(c, h, g, scope, env) && Good(c, scope, e) && e.Not?
    ensures EvalOk(c, host, fuel, env, h, g, e)
    decreases 4 * fuel + 2, e, 0
  {
    hide Alike, Allowed, Exec, HostTurn;
    EvalSame(c, host, fuel, env, h, g, scope, e.arg);
    var r := Eval(c.p, host, fuel, env, h, e.arg);
    if r.Ok? {
      ObservedKept(c, r.heap.shape, r.value, Meaning(c.p, c.facts, e.arg));
    }
  }

  lemma LenRuns(p: Package, host: Host, fuel: nat, env: Env, h: Heap, e: Expr)
    requires e.Len?
    ensures var r := Eval(p, host, fuel, env, h, e.arg);
            Eval(p, host, fuel, env, h, e) == if r.Ok? then Measure(p, host, fuel, r.heap, r.value) else r
  {
  }

  lemma LenSame(c: Cut, host: Host, fuel: nat, env: Env, h: Heap, g: Heap, scope: set<nat>, e: Expr)
    requires Prepared(c, h, g, scope, env) && Good(c, scope, e) && e.Len?
    ensures EvalOk(c, host, fuel, env, h, g, e)
    decreases 4 * fuel + 2, e, 0
  {
    hide Alike, Allowed, In, EnvFits, Eval, Measure;
    EvalSame(c, host, fuel, env, h, g, scope, e.arg);
    LenRuns(c.p, host, fuel, env, h, e);
    LenRuns(Pruned(c), host, fuel, env, g, PruneE(c, e));
    AnyMeant(c, e);
    var r, q := Eval(c.p, host, fuel, env, h, e.arg), Eval(Pruned(c), host, fuel, env, g, PruneE(c, e.arg));
    if r.Ok? {
      KeyKept(c, r.heap.shape, r.value, Meaning(c.p, c.facts, e.arg));
      MeasureSame(c, host, fuel, r.heap, q.heap, r.value);
      SameWider(c, h.shape, r.heap.shape, ANY, ANY, Measure(c.p, host, fuel, r.heap, r.value),
                Measure(Pruned(c), host, fuel, q.heap, q.value));
    }
  }

  lemma MeasureSame(c: Cut, host: Host, fuel: nat, h: Heap, g: Heap, v: Value)
    requires Allowed(c) && Alike(c, h, g) && In(c, h.shape, v, ANY)
    ensures Same(c, h.shape, ANY, Measure(c.p, host, fuel, h, v), Measure(Pruned(c), host, fuel, g, v))
    decreases 4 * fuel + 1
  {
    hide Alike, Allowed, Pruned, Ask;
    AlikeShape(c, h, g);
    if Hosted(h, v) {
      AskSame(c, host, fuel, h, g, Measuring, [v]);
    } else if IsTable(h, v) {
      FreeTable(c, h, g, v);
    }
  }

  // ----- table constructors -----

  lemma FillSame(c: Cut, host: Host, fuel: nat, env: Env, h: Heap, g: Heap, scope: set<nat>, at: nat, id: nat, items: Items)
    requires Prepared(c, h, g, scope, env) && GoodItems(c, scope, id, items)
    requires at < |h.shape.sites| && h.shape.sites[at] == id
    ensures Same(c, h.shape, One(id), Fill(c.p, host, fuel, env, h, at, items),
                 Fill(Pruned(c), host, fuel, env, g, at, PruneItems(c, items)))
    decreases 4 * fuel + 2, items, 1
  {
    match items
    case NoItems =>
    case Field(_, _, _) => FillField(c, host, fuel, env, h, g, scope, at, id, items);
    case Entry(_, _, _) => FillEntry(c, host, fuel, env, h, g, scope, at, id, items);
  }

  lemma FieldRuns(p: Package, host: Host, fuel: nat, env: Env, h: Heap, at: nat, items: Items)
    requires items.Field?
    ensures var r := Eval(p, host, fuel, env, h, items.value);
            Fill(p, host, fuel, env, h, at, items) ==
            if !r.Ok? then r else Fill(p, host, fuel, env, SetField(r.heap, at, Plain(Str(items.key)), r.value), at, items.rest)
  {
  }

  lemma FillField(c: Cut, host: Host, fuel: nat, env: Env, h: Heap, g: Heap, scope: set<nat>, at: nat, id: nat, items: Items)
    requires Prepared(c, h, g, scope, env) && GoodItems(c, scope, id, items) && items.Field?
    requires at < |h.shape.sites| && h.shape.sites[at] == id
    ensures Same(c, h.shape, One(id), Fill(c.p, host, fuel, env, h, at, items),
                 Fill(Pruned(c), host, fuel, env, g, at, PruneItems(c, items)))
    decreases 4 * fuel + 2, items, 0
  {
    hide Allowed, Eval, Exec, Fill, PruneE, Meaning;
    var key := Plain(Str(items.key));
    EvalSame(c, host, fuel, env, h, g, scope, items.value);
    FieldRuns(c.p, host, fuel, env, h, at, items);
    FieldRuns(Pruned(c), host, fuel, env, g, at, PruneItems(c, items));
    var r, q := Eval(c.p, host, fuel, env, h, items.value), Eval(Pruned(c), host, fuel, env, g, PruneE(c, items.value));
    if r.Ok? {
      StoredFits(c, r.heap, r.value, One(id), id, key, Meaning(c.p, c.facts, items.value));
      SetFieldAlike(c, r.heap, q.heap, at, key, r.value);
      var h1, g1 := SetField(r.heap, at, key, r.value), SetField(q.heap, at, key, q.value);
      StillPrepared(c, h, g, h1, g1, scope, env);
      FillSame(c, host, fuel, env, h1, g1, scope, at, id, items.rest);
    }
  }

  lemma EntryRuns(p: Package, host: Host, fuel: nat, env: Env, h: Heap, at: nat, items: Items)
    requires items.Entry?
    ensures var k := Eval(p, host, fuel, env, h, items.index);
            var r := Eval(p, host, fuel, env, k.heap, items.value);
            Fill(p, host, fuel, env, h, at, items) ==
            if !k.Ok? then k else if !r.Ok? then r else if k.value == NIL then Failed(r.heap)
            else Fill(p, host, fuel, env, SetField(r.heap, at, k.value, r.value), at, items.rest)
  {
  }

  lemma FillEntry(c: Cut, host: Host, fuel: nat, env: Env, h: Heap, g: Heap, scope: set<nat>, at: nat, id: nat, items: Items)
    requires Prepared(c, h, g, scope, env) && GoodItems(c, scope, id, items) && items.Entry?
    requires at < |h.shape.sites| && h.shape.sites[at] == id
    ensures Same(c, h.shape, One(id), Fill(c.p, host, fuel, env, h, at, items),
                 Fill(Pruned(c), host, fuel, env, g, at, PruneItems(c, items)))
    decreases 4 * fuel + 2, items, 0
  {
    hide Allowed, Eval, Exec, Fill, PruneE, Meaning;
    EvalSame(c, host, fuel, env, h, g, scope, items.index);
    EntryRuns(c.p, host, fuel, env, h, at, items);
    EntryRuns(Pruned(c), host, fuel, env, g, at, PruneItems(c, items));
    var rk := Eval(c.p, host, fuel, env, h, items.index);
    var qk := Eval(Pruned(c), host, fuel, env, g, PruneE(c, items.index));
    if rk.Ok? {
      KeyKept(c, rk.heap.shape, rk.value, Meaning(c.p, c.facts, items.index));
      StillPrepared(c, h, g, rk.heap, qk.heap, scope, env);
      EvalSame(c, host, fuel, env, rk.heap, qk.heap, scope, items.value);
      var r := Eval(c.p, host, fuel, env, rk.heap, items.value);
      var q := Eval(Pruned(c), host, fuel, env, qk.heap, PruneE(c, items.value));
      if r.Ok? && rk.value != NIL {
        StoredByKeyFits(c, r.heap, r.value, One(id), id, rk.value, Meaning(c.p, c.facts, items.value));
        SetFieldAlike(c, r.heap, q.heap, at, rk.value, r.value);
        var h1, g1 := SetField(r.heap, at, rk.value, r.value), SetField(q.heap, at, rk.value, q.value);
        StillPrepared(c, h, g, h1, g1, scope, env);
        FillSame(c, host, fuel, env, h1, g1, scope, at, id, items.rest);
      }
    }
  }

  lemma KeyKept(c: Cut, s: Shape, k: Value, b: Abs)
    requires Allowed(c) && In(c, s, k, b) && Escapes(c.facts, b)
    ensures Cropped(c, k) == k && In(c, s, k, ANY)
  {
    EscapesWithin(c, b);
    InWithin(c, s, k, b, ANY);
    HostKept(c, s, k);
  }

  /** A stored value fits the entry it is stored in. */
  lemma StoredFits(c: Cut, h: Heap, v: Value, base: Abs, site: nat, key: Value, a: Abs)
    requires Allowed(c) && In(c, h.shape, v, a) && key.Plain? && key.prim.Str? && Stored(c.p, c.facts, base, key.prim.s, a)
    requires Covers(c, base, site) && site < |c.p.objects| && c.p.objects[site].TableSite?
    ensures In(c, h.shape, v, EntryValue(c, site, key))
  {
    if site in base.objects {
      assert StoredIn(c.p, c.facts, site, OfField(site, key.prim.s), a);
      FlowsWithin(c, a, OfField(site, key.prim.s));
      InWithin(c, h.shape, v, a, At(c.facts, OfField(site, key.prim.s)));
      InWithin(c, h.shape, v, At(c.facts, OfField(site, key.prim.s)), EntryValue(c, site, key));
    } else {
      EscapesWithin(c, a);
      InWithin(c, h.shape, v, a, ANY);
      InWithin(c, h.shape, v, ANY, EntryValue(c, site, key));
    }
  }

  lemma StoredByKeyFits(c: Cut, h: Heap, v: Value, base: Abs, site: nat, key: Value, a: Abs)
    requires Allowed(c) && In(c, h.shape, v, a) && StoredByKey(c.p, c.facts, base, a)
    requires Covers(c, base, site) && site < |c.p.objects| && c.p.objects[site].TableSite?
    ensures In(c, h.shape, v, EntryValue(c, site, key))
  {
    if site in base.objects {
      assert StoredIn(c.p, c.facts, site, OfEntries(site), a);
      FlowsWithin(c, a, OfEntries(site));
      InWithin(c, h.shape, v, a, At(c.facts, OfEntries(site)));
      InWithin(c, h.shape, v, At(c.facts, OfEntries(site)), EntryValue(c, site, key));
    } else {
      EscapesWithin(c, a);
      InWithin(c, h.shape, v, a, ANY);
      InWithin(c, h.shape, v, ANY, EntryValue(c, site, key));
    }
  }

  // ----- modules -----

  lemma {:induction false} SameModules(c: Cut, name: string, m: nat)
    ensures FindModule(Pruned(c), name, m) == FindModule(c.p, name, m)
    decreases |c.p.modules| - m
  {
    if m < |c.p.modules| && c.p.modules[m].name != name {
      SameModules(c, name, m + 1);
    }
  }

  lemma LoadSame(c: Cut, host: Host, fuel: nat, h: Heap, g: Heap, name: string)
    requires Allowed(c) && Alike(c, h, g)
    ensures Same(c, h.shape, ModuleValue(c.p, c.facts, name), Load(c.p, host, fuel, h, name), Load(Pruned(c), host, fuel, g, name))
    decreases 4 * fuel + 2
  {
    hide Allowed, HostTurn, Exec, Eval, CallValue, Meaning;
    SameModules(c, name, 0);
    var m := FindModule(c.p, name, 0);
    if m.None? {
      if fuel > 0 {
        TellAlike(c, h, g, [Sought(name)]);
        HostSame(c, host, fuel - 1, Tell(h, [Sought(name)]), Tell(g, [Sought(name)]));
      }
    } else if m.value < |h.modules| {
      assert ModuleRelated(c, h.shape, m.value, h.modules[m.value], g.modules[m.value]);
      if h.modules[m.value].Fresh? {
        ModuleSame(c, host, fuel, h, g, m.value);
      }
    }
  }

  /** Loading one module. */
  lemma ModuleSame(c: Cut, host: Host, fuel: nat, h: Heap, g: Heap, m: nat)
    requires Allowed(c) && Alike(c, h, g) && m < |c.p.modules|
    ensures var body := c.p.modules[m].body;
            Same(c, h.shape, At(c.facts, OfModule(m)),
                 PackageMachine.Finish(m, Exec(c.p, host, fuel, map[], SetModule(h, m, Loading), body)),
                 PackageMachine.Finish(m, Exec(Pruned(c), host, fuel, map[], SetModule(g, m, Loading), PruneS(c, body))))
    decreases 4 * fuel + 2, c.p.modules[m].body, 2
  {
    var body := c.p.modules[m].body;
    SetModuleAlike(c, h, g, m, Loading, Loading);
    ExecSame(c, host, fuel, map[], SetModule(h, m, Loading), SetModule(g, m, Loading), {}, OfModule(m), body);
    var r := Exec(c.p, host, fuel, map[], SetModule(h, m, Loading), body);
    var q := Exec(Pruned(c), host, fuel, map[], SetModule(g, m, Loading), PruneS(c, body));
    match r
    case Ok(Back(v), h1) => SetModuleAlike(c, h1, q.heap, m, Ready(v), Ready(Cropped(c, v)));
    case Ok(Next(_), h1) => SetModuleAlike(c, h1, q.heap, m, Ready(NIL), Ready(NIL));
    case Failed(h1) => SetModuleAlike(c, h1, q.heap, m, Fresh, Fresh);
    case Spent(_) =>
  }

  // ----- statements -----

  ghost predicate ExecOk(c: Cut, host: Host, fuel: nat, env: Env, h: Heap, g: Heap, scope: set<nat>, home: Place, s: Stmt) {
    SameFlow(c, h.shape, ScopeAfter(scope, s), home, Exec(c.p, host, fuel, env, h, s),
             Exec(Pruned(c), host, fuel, env, g, PruneS(c, s)))
  }

  lemma {:induction false} ExecSame(c: Cut, host: Host, fuel: nat, env: Env, h: Heap, g: Heap, scope: set<nat>, home: Place, s: Stmt)
    requires Prepared(c, h, g, scope, env) && GoodS(c, scope, home, s)
    ensures ExecOk(c, host, fuel, env, h, g, scope, home, s)
    decreases 4 * fuel + 2, s, 1
  {
    hide Alike, Allowed, In, EnvFits, HostTurn, CallValue, Load, Fill, Locate, Eval, PruneE, SettledE, KeptE, InScopeE;
    match s
    case Skip =>
    case Then(first, second) =>
      ExecSame(c, host, fuel, env, h, g, scope, home, first);
      var r, q := Exec(c.p, host, fuel, env, h, first), Exec(Pruned(c), host, fuel, env, g, PruneS(c, first));
      if r.Ok? && r.value.Next? {
        ExecSame(c, host, fuel, r.value.env, r.heap, q.heap, ScopeAfter(scope, first), home, second);
      }
    case Declare(_, _) => DeclareSame(c, host, fuel, env, h, g, scope, home, s);
    case LocalFunction(_, _) => LocalFunctionSame(c, host, fuel, env, h, g, scope, home, s);
    case FunctionAt(_, _) => FunctionAtSame(c, host, fuel, env, h, g, scope, home, s);
    case Assign(_, _) => AssignSame(c, host, fuel, env, h, g, scope, home, s);
    case Return(_) => ReturnSame(c, host, fuel, env, h, g, scope, home, s);
    case Do(value) =>
      EvalSame(c, host, fuel, env, h, g, scope, value);
      DoneSame(c, h.shape, h.shape, Meaning(c.p, c.facts, value), scope, env, home, Eval(c.p, host, fuel, env, h, value),
               Eval(Pruned(c), host, fuel, env, g, PruneE(c, value)));
    case If(_, _, _) => IfSame(c, host, fuel, env, h, g, scope, home, s);
    case While(_, _) => WhileSame(c, host, fuel, env, h, g, scope, home, s);
  }

  lemma ReturnSame(c: Cut, host: Host, fuel: nat, env: Env, h: Heap, g: Heap, scope: set<nat>, home: Place, s: Stmt)
    requires Prepared(c, h, g, scope, env) && GoodS(c, scope, home, s) && s.Return?
    ensures ExecOk(c, host, fuel, env, h, g, scope, home, s)
    decreases 4 * fuel + 2, s, 0
  {
    hide Alike, Allowed, In, EnvFits, Eval, PruneE;
    EvalSame(c, host, fuel, env, h, g, scope, s.value);
    var r := Eval(c.p, host, fuel, env, h, s.value);
    if r.Ok? {
      FlowsWithin(c, Meaning(c.p, c.facts, s.value), home);
      InWithin(c, r.heap.shape, r.value, Meaning(c.p, c.facts, s.value), At(c.facts, home));
    }
  }

  lemma {:induction false} FillReturns(p: Package, host: Host, fuel: nat, env: Env, h: Heap, at: nat, items: Items)
    requires Fill(p, host, fuel, env, h, at, items).Ok?
    ensures Fill(p, host, fuel, env, h, at, items).value == Value.Table(at)
    decreases items
  {
    match items
    case NoItems =>
    case Field(key, value, rest) =>
      var r := Eval(p, host, fuel, env, h, value);
      FillReturns(p, host, fuel, env, SetField(r.heap, at, Plain(Str(key)), r.value), at, rest);
    case Entry(index, value, rest) =>
      var k := Eval(p, host, fuel, env, h, index);
      var r := Eval(p, host, fuel, env, k.heap, value);
      FillReturns(p, host, fuel, env, SetField(r.heap, at, k.value, r.value), at, rest);
  }

  /** The declared local holds its initial table, if that is what its initialiser stands for. */
  lemma DeclaredAnchored(c: Cut, host: Host, fuel: nat, env: Env, h: Heap, g: Heap, scope: set<nat>, x: nat, e: Expr)
    requires Prepared(c, h, g, scope, env) && InScopeE(c.p, scope, e) && x in c.p.initial && c.p.initial[x] == e
    requires var r := Eval(c.p, host, fuel, env, h, e); r.Ok? && In(c, r.heap.shape, r.value, Meaning(c.p, c.facts, e))
    ensures var r := Eval(c.p, host, fuel, env, h, e); Anchored(c, r.heap.shape, x, r.value)
  {
    var r := Eval(c.p, host, fuel, env, h, e);
    if e.Table? {
      FillReturns(c.p, host, fuel, env, AddTable(h, e.id), |h.fields|, e.items);
    }
    if e.Local? {
      assert CellRelated(c, h.shape, e.x, h.values[env[e.x]], g.values[env[e.x]]);
    }
    forall n: nat | Anchor(c.p, Expr.Local(x), n).Some?
      ensures r.value.Table? && r.value.at < |r.heap.shape.sites|
              && r.heap.shape.sites[r.value.at] == Anchor(c.p, Expr.Local(x), n).value
    {
      var m := n - 1;
      assert Anchor(c.p, Expr.Local(x), n) == Anchor(c.p, e, m);
    }
  }

  lemma AnchoredGrows(c: Cut, s: Shape, x: nat, y: nat, v: Value)
    requires Anchored(c, s, x, v)
    ensures Anchored(c, Grown(s, y), x, v)
  {
  }

  lemma DeclareRuns(p: Package, host: Host, fuel: nat, env: Env, h: Heap, x: nat, value: Expr)
    ensures var r := Eval(p, host, fuel, env, h, value);
            Exec(p, host, fuel, env, h, Declare(x, value)) ==
            if r.Ok? then Ok(Next(env[x := |r.heap.values|]), AddCell(r.heap, x, r.value)) else Done(env, r)
  {
  }

  /** The new local's cell holds what its facts say. */
  lemma DeclaredCell(c: Cut, host: Host, fuel: nat, env: Env, h: Heap, g: Heap, scope: set<nat>, s: Stmt, r: Outcome<Value>,
                     q: Outcome<Value>)
    requires Prepared(c, h, g, scope, env) && s.Declare? && InScopeS(c.p, scope, s) && r.Ok?
    requires Flows(c.facts, Meaning(c.p, c.facts, s.value), OfLocal(s.x)) && r == Eval(c.p, host, fuel, env, h, s.value)
    requires Same(c, h.shape, Meaning(c.p, c.facts, s.value), r, q)
    ensures Alike(c, AddCell(r.heap, s.x, r.value), AddCell(q.heap, s.x, q.value))
  {
    hide Alike, Allowed, Eval, Exec, Meaning;
    DeclaredAnchored(c, host, fuel, env, h, g, scope, s.x, s.value);
    AnchoredGrows(c, r.heap.shape, s.x, s.x, r.value);
    FlowsWithin(c, Meaning(c.p, c.facts, s.value), OfLocal(s.x));
    InWithin(c, r.heap.shape, r.value, Meaning(c.p, c.facts, s.value), At(c.facts, OfLocal(s.x)));
    InExtends(c, r.heap.shape, Grown(r.heap.shape, s.x), r.value, At(c.facts, OfLocal(s.x)));
    AddCellAlike(c, r.heap, q.heap, s.x, r.value);
  }

  lemma DeclareSame(c: Cut, host: Host, fuel: nat, env: Env, h: Heap, g: Heap, scope: set<nat>, home: Place, s: Stmt)
    requires Prepared(c, h, g, scope, env) && GoodS(c, scope, home, s) && s.Declare?
    ensures ExecOk(c, host, fuel, env, h, g, scope, home, s)
    decreases 4 * fuel + 2, s, 0
  {
    hide Alike, Allowed, In, EnvFits, Eval, Exec, Meaning, PruneE, KeptE;
    EvalSame(c, host, fuel, env, h, g, scope, s.value);
    var r, q := Eval(c.p, host, fuel, env, h, s.value), Eval(Pruned(c), host, fuel, env, g, PruneE(c, s.value));
    DeclareRuns(c.p, host, fuel, env, h, s.x, s.value);
    DeclareRuns(Pruned(c), host, fuel, env, g, s.x, PruneE(c, s.value));
    if r.Ok? {
      DeclaredCell(c, host, fuel, env, h, g, scope, s, r, q);
      AlikeShape(c, r.heap, q.heap);
      NewCellFits(h.shape, r.heap.shape, env, s.x);
    }
  }

  lemma NewCellFits(s: Shape, t: Shape, env: Env, x: nat)
    requires EnvFits(s, env) && Extends(s, t)
    ensures EnvFits(Grown(t, x), env[x := |t.names|]) && Extends(s, Grown(t, x))
  {
    EnvExtends(s, t, env);
  }

  /** A local function may refer to its own cell. */
  lemma LocalFunctionFits(c: Cut, s: Shape, scope: set<nat>, env: Env, x: nat, id: nat)
    requires EnvFits(s, env) && scope <= env.Keys && IsFunction(c.p, id) && c.p.objects[id].scope <= scope + {x}
    requires Flows(c.facts, One(id), OfLocal(x)) && x !in c.p.initial
    ensures var v := Fun(id, env[x := |s.names|]);
            In(c, Grown(s, x), v, At(c.facts, OfLocal(x))) && Anchored(c, Grown(s, x), x, v)
  {
    NewCellFits(s, s, env, x);
    assert id in One(id).objects;
  }

  lemma LocalFunctionSame(c: Cut, host: Host, fuel: nat, env: Env, h: Heap, g: Heap, scope: set<nat>, home: Place, s: Stmt)
    requires Prepared(c, h, g, scope, env) && GoodS(c, scope, home, s) && s.LocalFunction?
    ensures ExecOk(c, host, fuel, env, h, g, scope, home, s)
  {
    hide Alike, Allowed, In, Anchored;
    AlikeShape(c, h, g);
    NewCellFits(h.shape, h.shape, env, s.x);
    LocalFunctionFits(c, h.shape, scope, env, s.x, s.id);
    AddCellAlike(c, h, g, s.x, Fun(s.id, env[s.x := |h.values|]));
    var env1 := env[s.x := |h.values|];
    var h1, g1 := AddCell(h, s.x, Fun(s.id, env1)), AddCell(g, s.x, Cropped(c, Fun(s.id, env1)));
    assert Exec(c.p, host, fuel, env, h, s) == Ok(Next(env1), h1);
    assert Exec(Pruned(c), host, fuel, env, g, PruneS(c, s)) == Ok(Next(env1), g1);
    assert Onward(c, h.shape, h1, g1);
    assert EnvFits(h1.shape, env1);
    assert ScopeAfter(scope, s) <= env1.Keys;
  }

  // ----- assignments -----

  function CroppedSpot(c: Cut, spot: Spot): Spot {
    if spot.Cell? then spot else EntryAt(Cropped(c, spot.base), Cropped(c, spot.key))
  }

  ghost predicate SpotFits(c: Cut, s: Shape, t: Target, spot: Spot) {
    match t
    case ToLocal(x) => spot == Cell(x)
    case ToGlobal(_) => false
    case ToField(base, key) => spot.EntryAt? && In(c, s, spot.base, Meaning(c.p, c.facts, base)) && spot.key == Plain(Str(key))
    case ToEntry(base, index) =>
      && spot.EntryAt? && In(c, s, spot.base, Meaning(c.p, c.facts, base)) && In(c, s, spot.key, Meaning(c.p, c.facts, index))
  }

  lemma SpotExtends(c: Cut, s: Shape, u: Shape, t: Target, spot: Spot)
    requires SpotFits(c, s, t, spot) && Extends(s, u)
    ensures SpotFits(c, u, t, spot)
  {
    match t
    case ToField(base, _) => InExtends(c, s, u, spot.base, Meaning(c.p, c.facts, base));
    case ToEntry(base, index) =>
      InExtends(c, s, u, spot.base, Meaning(c.p, c.facts, base));
      InExtends(c, s, u, spot.key, Meaning(c.p, c.facts, index));
    case _ =>
  }

  ghost predicate LocateOk(c: Cut, s: Shape, t: Target, r: Outcome<Spot>, q: Outcome<Spot>) {
    && Onward(c, s, r.heap, q.heap)
    && match r
       case Ok(spot, h) => q.Ok? && q.value == CroppedSpot(c, spot) && SpotFits(c, h.shape, t, spot)
       case Failed(_) => q.Failed?
       case Spent(_) => q.Spent?
  }

  lemma LocateSame(c: Cut, host: Host, fuel: nat, env: Env, h: Heap, g: Heap, scope: set<nat>, t: Target, a: Abs)
    requires Prepared(c, h, g, scope, env) && InScopeT(c.p, scope, t) && KeptT(Exactly(c), t)
    requires SettledT(c.p, c.facts, c.seen, t, a)
    ensures LocateOk(c, h.shape, t, Locate(c.p, host, fuel, env, h, t), Locate(Pruned(c), host, fuel, env, g, PruneT(c, t)))
    decreases 4 * fuel + 2, t, 1
  {
    hide Alike, Allowed, In, EnvFits, Meaning, Eval, PruneE;
    match t
    case ToLocal(_) =>
    case ToGlobal(_) =>
    case ToField(base, _) => EvalSame(c, host, fuel, env, h, g, scope, base);
    case ToEntry(base, index) =>
      EvalSame(c, host, fuel, env, h, g, scope, base);
      var r, q := Eval(c.p, host, fuel, env, h, base), Eval(Pruned(c), host, fuel, env, g, PruneE(c, base));
      if r.Ok? {
        StillPrepared(c, h, g, r.heap, q.heap, scope, env);
        EvalSame(c, host, fuel, env, r.heap, q.heap, scope, index);
        var k := Eval(c.p, host, fuel, env, r.heap, index);
        if k.Ok? {
          InExtends(c, r.heap.shape, k.heap.shape, r.value, Meaning(c.p, c.facts, base));
        }
      }
  }

  lemma CellAssigned(c: Cut, host: Host, fuel: nat, env: Env, h: Heap, g: Heap, scope: set<nat>, t: Target, v: Value, a: Abs)
    requires Prepared(c, h, g, scope, env) && InScopeT(c.p, scope, t) && SettledT(c.p, c.facts, c.seen, t, a) && t.ToLocal?
    requires In(c, h.shape, v, a)
    ensures Same(c, h.shape, ANY, AssignTo(c.p, host, fuel, env, h, Cell(t.x), v),
                 AssignTo(Pruned(c), host, fuel, env, g, Cell(t.x), Cropped(c, v)))
  {
    hide Allowed, Eval, Exec, PruneE, PruneS;
    FlowsWithin(c, a, OfLocal(t.x));
    InWithin(c, h.shape, v, a, At(c.facts, OfLocal(t.x)));
    assert h.shape.names[env[t.x]] == t.x;
    SetCellAlike(c, h, g, env[t.x], v);
  }

  /** The value fits the entry, and the key is not cut; what the host stores, it may hold. */
  lemma EntryAssigned(c: Cut, h: Heap, g: Heap, t: Target, spot: Spot, v: Value, a: Abs)
    requires Allowed(c) && Alike(c, h, g) && SettledT(c.p, c.facts, c.seen, t, a) && SpotFits(c, h.shape, t, spot) && spot.EntryAt?
    requires In(c, h.shape, v, a)
    ensures Cropped(c, spot.key) == spot.key && In(c, h.shape, spot.key, ANY)
    ensures Hosted(h, spot.base) ==> In(c, h.shape, spot.base, ANY) && In(c, h.shape, v, ANY)
    ensures IsTable(h, spot.base) ==> In(c, h.shape, v, EntryValue(c, h.shape.sites[spot.base.at], spot.key))
  {
    hide Allowed, SettledE;
    if t.ToEntry? {
      KeyKept(c, h.shape, spot.key, Meaning(c.p, c.facts, t.index));
    }
    var base := Meaning(c.p, c.facts, t.base);
    if spot.base.Foreign? {
      KeyKept(c, h.shape, v, a);
    }
    if IsTable(h, spot.base) {
      var site := h.shape.sites[spot.base.at];
      assert TableRelated(c, h.shape, site, h.fields[spot.base.at], g.fields[spot.base.at]);
      if t.ToField? {
        StoredFits(c, h, v, base, site, spot.key, a);
      } else {
        StoredByKeyFits(c, h, v, base, site, spot.key, a);
      }
      if Hosted(h, spot.base) {
        HostedFree(c, h, g, spot.base, base);
        EscapedEntries(c, site, spot.key);
        InWithin(c, h.shape, v, EntryValue(c, site, spot.key), ANY);
      }
    }
  }

  /** Storing under a key. */
  lemma EntryStored(c: Cut, host: Host, fuel: nat, env: Env, h: Heap, g: Heap, t: Target, spot: Spot, v: Value, a: Abs)
    requires Allowed(c) && Alike(c, h, g) && SettledT(c.p, c.facts, c.seen, t, a) && SpotFits(c, h.shape, t, spot)
    requires spot.EntryAt? && In(c, h.shape, v, a)
    ensures Same(c, h.shape, ANY, AssignTo(c.p, host, fuel, env, h, spot, v),
                 AssignTo(Pruned(c), host, fuel, env, g, CroppedSpot(c, spot), Cropped(c, v)))
    decreases 4 * fuel + 1, 0
  {
    hide Allowed, Alike, Pruned, SettledT, SpotFits, Ask;
    EntryAssigned(c, h, g, t, spot, v, a);
    AlikeShape(c, h, g);
    if Hosted(h, spot.base) {
      HostKept(c, h.shape, v);
      AskSame(c, host, fuel, h, g, Storing, [spot.base, spot.key, v]);
    } else if IsTable(h, spot.base) && spot.key != NIL {
      SetFieldAlike(c, h, g, spot.base.at, spot.key, v);
    }
  }

  lemma AlikeShape(c: Cut, h: Heap, g: Heap)
    requires Alike(c, h, g)
    ensures h.shape == g.shape && h.trace == g.trace && h.adopted == g.adopted && |h.values| == |g.values| == |h.shape.names|
    ensures |h.fields| == |g.fields| == |h.shape.sites|
  {
  }

  lemma SpotAssigned(c: Cut, host: Host, fuel: nat, env: Env, h: Heap, g: Heap, scope: set<nat>, t: Target, spot: Spot,
                     v: Value, a: Abs)
    requires Prepared(c, h, g, scope, env) && InScopeT(c.p, scope, t) && SettledT(c.p, c.facts, c.seen, t, a)
    requires SpotFits(c, h.shape, t, spot) && In(c, h.shape, v, a)
    ensures Same(c, h.shape, ANY, AssignTo(c.p, host, fuel, env, h, spot, v),
                 AssignTo(Pruned(c), host, fuel, env, g, CroppedSpot(c, spot), Cropped(c, v)))
    decreases 4 * fuel + 1
  {
    hide Allowed, Alike, SettledT, InScopeT;
    if spot.Cell? {
      CellAssigned(c, host, fuel, env, h, g, scope, t, v, a);
    } else {
      EntryStored(c, host, fuel, env, h, g, t, spot, v, a);
    }
  }

  lemma AssignRuns(p: Package, host: Host, fuel: nat, env: Env, h: Heap, t: Target, value: Expr)
    ensures var at := Locate(p, host, fuel, env, h, t);
            var r := Eval(p, host, fuel, env, at.heap, value);
            Exec(p, host, fuel, env, h, Assign(t, value)) ==
            if at.Failed? then Failed(at.heap) else if at.Spent? then Spent(at.heap)
            else Done(env, if r.Ok? then AssignTo(p, host, fuel, env, r.heap, at.value, r.value) else r)
  {
  }

  lemma AssignSame(c: Cut, host: Host, fuel: nat, env: Env, h: Heap, g: Heap, scope: set<nat>, home: Place, s: Stmt)
    requires Prepared(c, h, g, scope, env) && GoodS(c, scope, home, s) && s.Assign?
    ensures ExecOk(c, host, fuel, env, h, g, scope, home, s)
    decreases 4 * fuel + 2, s, 0
  {
    hide Alike, Allowed, In, EnvFits, Meaning, Eval, Exec, Locate, AssignTo, PruneE, SettledT;
    var a := Meaning(c.p, c.facts, s.value);
    LocateSame(c, host, fuel, env, h, g, scope, s.target, a);
    AssignRuns(c.p, host, fuel, env, h, s.target, s.value);
    AssignRuns(Pruned(c), host, fuel, env, g, PruneT(c, s.target), PruneE(c, s.value));
    var at, qt := Locate(c.p, host, fuel, env, h, s.target), Locate(Pruned(c), host, fuel, env, g, PruneT(c, s.target));
    if at.Ok? {
      StillPrepared(c, h, g, at.heap, qt.heap, scope, env);
      EvalSame(c, host, fuel, env, at.heap, qt.heap, scope, s.value);
      var r := Eval(c.p, host, fuel, env, at.heap, s.value);
      var q := Eval(Pruned(c), host, fuel, env, qt.heap, PruneE(c, s.value));
      if r.Ok? {
        StillPrepared(c, h, g, r.heap, q.heap, scope, env);
        SpotExtends(c, at.heap.shape, r.heap.shape, s.target, at.value);
        SpotAssigned(c, host, fuel, env, r.heap, q.heap, scope, s.target, at.value, r.value, a);
        DoneSame(c, h.shape, r.heap.shape, ANY, scope, env, home,
                 AssignTo(c.p, host, fuel, env, r.heap, at.value, r.value),
                 AssignTo(Pruned(c), host, fuel, env, q.heap, qt.value, q.value));
      }
    }
  }

  lemma FunctionAtRuns(p: Package, host: Host, fuel: nat, env: Env, h: Heap, t: Target, id: nat)
    ensures var at := Locate(p, host, fuel, env, h, t);
            && (at.Ok? ==> Exec(p, host, fuel, env, h, FunctionAt(t, id))
                           == Done(env, AssignTo(p, host, fuel, env, at.heap, at.value, Fun(id, env)))
                           && Exec(p, host, fuel, env, h, Assign(t, Const(Nil)))
                           == Done(env, AssignTo(p, host, fuel, env, at.heap, at.value, NIL)))
            && (at.Failed? ==> Exec(p, host, fuel, env, h, FunctionAt(t, id)) == Failed(at.heap)
                               && Exec(p, host, fuel, env, h, Assign(t, Const(Nil))) == Failed(at.heap))
            && (at.Spent? ==> Exec(p, host, fuel, env, h, FunctionAt(t, id)) == Spent(at.heap)
                              && Exec(p, host, fuel, env, h, Assign(t, Const(Nil))) == Spent(at.heap))
  {
  }

  /** A finished assignment goes on in its environment. */
  lemma DoneSame(c: Cut, s: Shape, t: Shape, a: Abs, scope: set<nat>, env: Env, home: Place, r: Outcome<Value>, q: Outcome<Value>)
    requires Same(c, t, a, r, q) && EnvFits(s, env) && scope <= env.Keys && Extends(s, t)
    ensures SameFlow(c, s, scope, home, Done(env, r), Done(env, q))
  {
    EnvExtends(s, r.heap.shape, env);
  }

  lemma FunctionAtSame(c: Cut, host: Host, fuel: nat, env: Env, h: Heap, g: Heap, scope: set<nat>, home: Place, s: Stmt)
    requires Prepared(c, h, g, scope, env) && GoodS(c, scope, home, s) && s.FunctionAt?
    ensures ExecOk(c, host, fuel, env, h, g, scope, home, s)
    decreases 4 * fuel + 2, s, 0
  {
    hide Alike, Allowed, Exec, Locate, AssignTo, SettledT, RemovableAt;
    if s.id in c.gone {
      RemovedSame(c, host, fuel, env, h, g, scope, home, s);
    } else {
      var v := Fun(s.id, env);
      LocateSame(c, host, fuel, env, h, g, scope, s.target, One(s.id));
      FunctionAtRuns(c.p, host, fuel, env, h, s.target, s.id);
      FunctionAtRuns(Pruned(c), host, fuel, env, g, PruneT(c, s.target), s.id);
      var at, qt := Locate(c.p, host, fuel, env, h, s.target), Locate(Pruned(c), host, fuel, env, g, PruneT(c, s.target));
      if at.Ok? {
        StillPrepared(c, h, g, at.heap, qt.heap, scope, env);
        SpotAssigned(c, host, fuel, env, at.heap, qt.heap, scope, s.target, at.value, v, One(s.id));
        DoneSame(c, h.shape, at.heap.shape, ANY, scope, env, home,
                 AssignTo(c.p, host, fuel, env, at.heap, at.value, v),
                 AssignTo(Pruned(c), host, fuel, env, qt.heap, qt.value, Cropped(c, v)));
      }
    }
  }

  /** The removed store: its base is a local that holds a table, and the key is not tracked there. */
  lemma RemovedBase(c: Cut, h: Heap, g: Heap, scope: set<nat>, env: Env, t: Target, id: nat) returns (v: Value)
    requires Prepared(c, h, g, scope, env) && InScopeT(c.p, scope, t) && NamedTarget(t) && RemovableAt(c, t)
    requires IsFunction(c.p, id) && c.p.objects[id].scope <= scope && SettledT(c.p, c.facts, c.seen, t, One(id))
    ensures t.ToField? && t.base.Local? && t.base.x in env && env[t.base.x] < |h.values| && v == h.values[env[t.base.x]]
    ensures IsTable(h, v) && !Hosted(h, v) && Alike(c, SetField(h, v.at, Plain(Str(t.key)), Fun(id, env)), g)
  {
    var n: nat :| RemovableWithin(c, t.base, t.key, n);
    var x := t.base.x;
    v := h.values[env[x]];
    assert CellRelated(c, h.shape, x, v, g.values[env[x]]);
    var site := Anchor(c.p, t.base, n).value;
    assert TableRelated(c, h.shape, site, h.fields[v.at], g.fields[v.at]);
    StoredFits(c, h, Fun(id, env), Meaning(c.p, c.facts, t.base), site, Plain(Str(t.key)), One(id));
    SetFieldAlike(c, h, g, v.at, Plain(Str(t.key)), Fun(id, env));
  }

  /** A statement that only stores a cut function under an unread key may go. */
  lemma RemovedSame(c: Cut, host: Host, fuel: nat, env: Env, h: Heap, g: Heap, scope: set<nat>, home: Place, s: Stmt)
    requires Prepared(c, h, g, scope, env) && GoodS(c, scope, home, s) && s.FunctionAt? && s.id in c.gone
    ensures ExecOk(c, host, fuel, env, h, g, scope, home, s)
  {
    hide Alike, RemovableAt, SettledT, NamedTarget, HostTurn;
    var v := RemovedBase(c, h, g, scope, env, s.target, s.id);
    var key := Plain(Str(s.target.key));
    assert Eval(c.p, host, fuel, env, h, s.target.base) == Ok(v, h);
    assert Locate(c.p, host, fuel, env, h, s.target) == Ok(EntryAt(v, key), h);
    assert AssignTo(c.p, host, fuel, env, h, EntryAt(v, key), Fun(s.id, env)) == Ok(NIL, SetField(h, v.at, key, Fun(s.id, env)));
    FunctionAtRuns(c.p, host, fuel, env, h, s.target, s.id);
    assert Exec(Pruned(c), host, fuel, env, g, PruneS(c, s)) == Ok(Next(env), g);
  }

  // ----- branches and loops -----

  lemma IfRuns(p: Package, host: Host, fuel: nat, env: Env, h: Heap, cond: Expr, yes: Stmt, no: Stmt)
    ensures var r := Eval(p, host, fuel, env, h, cond);
            Exec(p, host, fuel, env, h, If(cond, yes, no)) ==
            if r.Ok? then Restore(env, Exec(p, host, fuel, env, r.heap, if Truthy(r.value) then yes else no)) else Done(env, r)
  {
  }

  /** A statement that ends with the environment it began with. */
  lemma RestoreSame(c: Cut, s: Shape, t: Shape, inner: set<nat>, scope: set<nat>, env: Env, home: Place, r: Outcome<Flow>,
                    q: Outcome<Flow>)
    requires SameFlow(c, t, inner, home, r, q) && EnvFits(s, env) && scope <= env.Keys && Extends(s, t)
    ensures SameFlow(c, s, scope, home, Restore(env, r), Restore(env, q))
  {
    EnvExtends(s, r.heap.shape, env);
  }

  lemma IfSame(c: Cut, host: Host, fuel: nat, env: Env, h: Heap, g: Heap, scope: set<nat>, home: Place, s: Stmt)
    requires Prepared(c, h, g, scope, env) && GoodS(c, scope, home, s) && s.If?
    ensures ExecOk(c, host, fuel, env, h, g, scope, home, s)
    decreases 4 * fuel + 2, s, 0
  {
    hide Alike, Allowed, In, EnvFits, Exec, Eval, PruneE, SettledE, KeptE, InScopeE;
    EvalSame(c, host, fuel, env, h, g, scope, s.cond);
    var r, q := Eval(c.p, host, fuel, env, h, s.cond), Eval(Pruned(c), host, fuel, env, g, PruneE(c, s.cond));
    IfRuns(c.p, host, fuel, env, h, s.cond, s.yes, s.no);
    IfRuns(Pruned(c), host, fuel, env, g, PruneE(c, s.cond), PruneS(c, s.yes), PruneS(c, s.no));
    if r.Ok? {
      ObservedKept(c, r.heap.shape, r.value, Meaning(c.p, c.facts, s.cond));
      StillPrepared(c, h, g, r.heap, q.heap, scope, env);
      var body := if Truthy(r.value) then s.yes else s.no;
      ExecSame(c, host, fuel, env, r.heap, q.heap, scope, home, body);
      RestoreSame(c, h.shape, r.heap.shape, ScopeAfter(scope, body), scope, env, home,
                  Exec(c.p, host, fuel, env, r.heap, body), Exec(Pruned(c), host, fuel, env, q.heap, PruneS(c, body)));
    }
  }

  /** After one round of a loop. */
  function Again(p: Package, host: Host, fuel: nat, env: Env, loop: Stmt, r: Outcome<Flow>): Outcome<Flow> {
    if !r.Ok? || !r.value.Next? then r
    else if fuel == 0 then Spent(r.heap)
    else Exec(p, host, fuel - 1, env, r.heap, loop)
  }

  lemma WhileRuns(p: Package, host: Host, fuel: nat, env: Env, h: Heap, s: Stmt)
    requires s.While?
    ensures var r := Eval(p, host, fuel, env, h, s.cond);
            Exec(p, host, fuel, env, h, s) ==
            if !r.Ok? || !Truthy(r.value) then Done(env, r)
            else Again(p, host, fuel, env, s, Exec(p, host, fuel, env, r.heap, s.body))
  {
    hide Eval;
  }

  /** What holds from a later state on holds from the earlier one. */
  lemma SameEarlier(c: Cut, s: Shape, t: Shape, scope: set<nat>, home: Place, r: Outcome<Flow>, q: Outcome<Flow>)
    requires SameFlow(c, t, scope, home, r, q) && Extends(s, t)
    ensures SameFlow(c, s, scope, home, r, q)
  {
  }

  lemma WhileSame(c: Cut, host: Host, fuel: nat, env: Env, h: Heap, g: Heap, scope: set<nat>, home: Place, s: Stmt)
    requires Prepared(c, h, g, scope, env) && GoodS(c, scope, home, s) && s.While?
    ensures ExecOk(c, host, fuel, env, h, g, scope, home, s)
    decreases 4 * fuel + 2, s, 0
  {
    hide Alike, Allowed, In, EnvFits, Exec, Eval, PruneE, SettledE, KeptE, InScopeE, Done;
    EvalSame(c, host, fuel, env, h, g, scope, s.cond);
    var r, q := Eval(c.p, host, fuel, env, h, s.cond), Eval(Pruned(c), host, fuel, env, g, PruneE(c, s.cond));
    WhileRuns(c.p, host, fuel, env, h, s);
    WhileRuns(Pruned(c), host, fuel, env, g, PruneS(c, s));
    DoneSame(c, h.shape, h.shape, Meaning(c.p, c.facts, s.cond), scope, env, home, r, q);
    if r.Ok? {
      ObservedKept(c, r.heap.shape, r.value, Meaning(c.p, c.facts, s.cond));
      if Truthy(r.value) {
        StillPrepared(c, h, g, r.heap, q.heap, scope, env);
        RoundSame(c, host, fuel, env, r.heap, q.heap, scope, home, s);
        SameEarlier(c, h.shape, r.heap.shape, scope, home,
                    Again(c.p, host, fuel, env, s, Exec(c.p, host, fuel, env, r.heap, s.body)),
                    Again(Pruned(c), host, fuel, env, PruneS(c, s),
                          Exec(Pruned(c), host, fuel, env, q.heap, PruneS(c, s.body))));
      }
    }
  }

  /** One round of a loop, and the rest. */
  lemma RoundSame(c: Cut, host: Host, fuel: nat, env: Env, h: Heap, g: Heap, scope: set<nat>, home: Place, s: Stmt)
    requires Prepared(c, h, g, scope, env) && GoodS(c, scope, home, s) && s.While?
    ensures SameFlow(c, h.shape, scope, home,
                     Again(c.p, host, fuel, env, s, Exec(c.p, host, fuel, env, h, s.body)),
                     Again(Pruned(c), host, fuel, env, PruneS(c, s),
                           Exec(Pruned(c), host, fuel, env, g, PruneS(c, s.body))))
    decreases 4 * fuel + 2, s, 0, 0
  {
    hide Alike, Allowed, In, EnvFits, Exec, Eval, PruneE, SettledE, KeptE, InScopeE;
    ExecSame(c, host, fuel, env, h, g, scope, home, s.body);
    var r, q := Exec(c.p, host, fuel, env, h, s.body), Exec(Pruned(c), host, fuel, env, g, PruneS(c, s.body));
    if r.Ok? && r.value.Next? && fuel > 0 {
      StillPrepared(c, h, g, r.heap, q.heap, scope, env);
      ExecSame(c, host, fuel - 1, env, r.heap, q.heap, scope, home, s);
      SameEarlier(c, h.shape, r.heap.shape, scope, home, Exec(c.p, host, fuel - 1, env, r.heap, s),
                  Exec(Pruned(c), host, fuel - 1, env, q.heap, PruneS(c, s)));
    }
  }
}
