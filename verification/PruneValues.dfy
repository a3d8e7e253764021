/** What abstract values stand for, how the host sees tables, and how arguments are bound, in both runs. */
module PruneValues {
  import opened PackageSyntax
  import opened ClosureFacts
  import opened PackageMachine
  import opened Pruning
  import opened PruneSimulation

  // ----- abstract values -----

  /** Everything one abstract value stands for, the other does too. */
  ghost predicate Within(c: Cut, a: Abs, b: Abs) {
    (a.any ==> b.any) && forall o :: o in a.objects ==> Covers(c, b, o)
  }

  lemma InWithin(c: Cut, s: Shape, v: Value, a: Abs, b: Abs)
    requires In(c, s, v, a) && Within(c, a, b)
    ensures In(c, s, v, b)
  {
  }

  lemma FlowsWithin(c: Cut, a: Abs, place: Place)
    requires Flows(c.facts, a, place)
    ensures Within(c, a, At(c.facts, place))
  {
  }

  lemma EscapesWithin(c: Cut, a: Abs)
    requires Escapes(c.facts, a)
    ensures Within(c, a, ANY)
  {
  }

  /** The host holds no function that is cut. */
  lemma HostKept(c: Cut, s: Shape, v: Value)
    requires Allowed(c) && In(c, s, v, ANY)
    ensures Cropped(c, v) == v
  {
  }

  lemma ObservedKept(c: Cut, s: Shape, v: Value, a: Abs)
    requires Allowed(c) && In(c, s, v, a) && Observes(c.facts, a)
    ensures Cropped(c, v) == v
  {
  }

  lemma LeftStays(c: Cut, s: Shape, v: Value, left: Expr)
    requires Allowed(c) && In(c, s, v, Meaning(c.p, c.facts, left)) && LeftKept(Exactly(c), left)
    ensures Cropped(c, v) == v
  {
  }

  /** What an escaped table holds has escaped. */
  lemma EscapedEntries(c: Cut, site: nat, key: Value)
    requires Allowed(c) && site < |c.p.objects| && c.p.objects[site].TableSite? && Escaped(site) in c.facts
    ensures Within(c, EntryValue(c, site, key), ANY)
  {
    assert SettledObject(c.p, c.facts, c.seen, site);
    forall o | o in EntryValue(c, site, key).objects ensures Escaped(o) in c.facts {
      var f := if MayHold(OfEntries(site), o) in c.facts then MayHold(OfEntries(site), o) else MayHold(OfField(site, key.prim.s), o);
      assert f in c.facts && IsEntryOf(f.place, {site});
    }
  }

  lemma FieldWithin(c: Cut, a: Abs, site: nat, key: string)
    requires Allowed(c) && site < |c.p.objects| && c.p.objects[site].TableSite? && Covers(c, a, site)
    ensures Within(c, EntryValue(c, site, Plain(Str(key))), FieldOf(c.p, c.facts, a, key))
  {
    var entry, field := EntryValue(c, site, Plain(Str(key))), FieldOf(c.p, c.facts, a, key);
    if site in a.objects {
      forall o | o in entry.objects ensures o in field.objects {
        var f := if MayHold(OfEntries(site), o) in c.facts then MayHold(OfEntries(site), o) else MayHold(OfField(site, key), o);
        assert f in c.facts && IsFieldOf(c.p, f.place, a.objects, key);
      }
      if entry.any {
        assert FieldAny(c.p, c.facts, site, key);
      }
    } else {
      EscapedEntries(c, site, Plain(Str(key)));
    }
  }

  lemma ResultWithin(c: Cut, a: Abs, id: nat)
    requires Allowed(c) && IsFunction(c.p, id) && Covers(c, a, id)
    ensures Within(c, At(c.facts, OfReturn(id)), ResultOf(c.p, c.facts, a))
  {
    var back, result := At(c.facts, OfReturn(id)), ResultOf(c.p, c.facts, a);
    if id in a.objects {
      forall o | o in back.objects ensures o in result.objects {
        assert IsResultOf(c.p, MayHold(OfReturn(id), o).place, a.objects);
      }
      if back.any {
        assert ResultAny(c.p, c.facts, id);
      }
    } else {
      assert SettledObject(c.p, c.facts, c.seen, id);
    }
  }

  // ----- results -----

  ghost predicate Good(c: Cut, scope: set<nat>, e: Expr) {
    InScopeE(c.p, scope, e) && SettledE(c.p, c.facts, c.seen, e) && KeptE(Exactly(c), e)
  }

  ghost predicate GoodArgs(c: Cut, scope: set<nat>, args: Exprs) {
    InScopeArgs(c.p, scope, args) && SettledArgs(c.p, c.facts, c.seen, args) && KeptArgs(Exactly(c), args)
  }

  ghost predicate GoodItems(c: Cut, scope: set<nat>, id: nat, items: Items) {
    InScopeItems(c.p, scope, items) && SettledItems(c.p, c.facts, c.seen, id, items) && KeptItems(Exactly(c), items)
  }

  ghost predicate GoodS(c: Cut, scope: set<nat>, home: Place, s: Stmt) {
    InScopeS(c.p, scope, s) && SettledS(c.p, c.facts, c.seen, home, s) && KeptS(Exactly(c), s)
  }

  ghost predicate Prepared(c: Cut, h: Heap, g: Heap, scope: set<nat>, env: Env) {
    Allowed(c) && Alike(c, h, g) && EnvFits(h.shape, env) && scope <= env.Keys
  }

  /** Both runs went on from a heap of shape `s` to alike heaps. */
  ghost predicate Onward(c: Cut, s: Shape, h: Heap, g: Heap) {
    Alike(c, h, g) && Extends(s, h.shape)
  }

  ghost predicate Same(c: Cut, s: Shape, a: Abs, r: Outcome<Value>, q: Outcome<Value>) {
    && Onward(c, s, r.heap, q.heap)
    && match r
       case Ok(v, h) => q.Ok? && q.value == Cropped(c, v) && In(c, h.shape, v, a)
       case Failed(_) => q.Failed?
       case Spent(_) => q.Spent?
  }

  ghost predicate AllIn(c: Cut, s: Shape, vs: seq<Value>, args: seq<Abs>) {
    |vs| == |args| && forall k :: 0 <= k < |vs| ==> In(c, s, vs[k], args[k])
  }

  function CroppedAll(c: Cut, vs: seq<Value>): (r: seq<Value>)
    ensures |r| == |vs| && forall k :: 0 <= k < |vs| ==> r[k] == Cropped(c, vs[k])
  {
    if vs == [] then [] else [Cropped(c, vs[0])] + CroppedAll(c, vs[1..])
  }

  ghost predicate SameAll(c: Cut, s: Shape, args: seq<Abs>, r: Outcome<seq<Value>>, q: Outcome<seq<Value>>) {
    && Onward(c, s, r.heap, q.heap)
    && match r
       case Ok(vs, h) => q.Ok? && q.value == CroppedAll(c, vs) && AllIn(c, h.shape, vs, args)
       case Failed(_) => q.Failed?
       case Spent(_) => q.Spent?
  }

  ghost predicate SameFlow(c: Cut, s: Shape, scope: set<nat>, home: Place, r: Outcome<Flow>, q: Outcome<Flow>) {
    && Onward(c, s, r.heap, q.heap)
    && match r
       case Ok(Next(env), h) => q.Ok? && q.value == Next(env) && EnvFits(h.shape, env) && scope <= env.Keys
       case Ok(Back(v), h) => q.Ok? && q.value == Back(Cropped(c, v)) && In(c, h.shape, v, At(c.facts, home))
       case Failed(_) => q.Failed?
       case Spent(_) => q.Spent?
  }

  // ----- tables and the host's view -----

  lemma ReadSame(c: Cut, h: Heap, g: Heap, v: Value, a: Abs, key: string)
    requires Allowed(c) && Alike(c, h, g) && In(c, h.shape, v, a) && IsTable(h, v)
    requires ReadBy(c.seen, a, key) && Observes(c.facts, FieldOf(c.p, c.facts, a, key))
    ensures var r := PackageMachine.Read(h.fields[v.at], Plain(Str(key)));
            && In(c, h.shape, r, FieldOf(c.p, c.facts, a, key)) && Cropped(c, r) == r
            && v.at < |g.fields| && PackageMachine.Read(g.fields[v.at], Plain(Str(key))) == r
  {
    var k, site := Plain(Str(key)), h.shape.sites[v.at];
    assert TableRelated(c, h.shape, site, h.fields[v.at], g.fields[v.at]);
    assert EntryRelated(c, h.shape, site, h.fields[v.at], g.fields[v.at], k);
    FieldWithin(c, a, site, key);
    InWithin(c, h.shape, PackageMachine.Read(h.fields[v.at], k), EntryValue(c, site, k), FieldOf(c.p, c.facts, a, key));
    ObservedKept(c, h.shape, PackageMachine.Read(h.fields[v.at], k), FieldOf(c.p, c.facts, a, key));
    assert Tracked(c, site, k);
  }

  /** What the host, or a computed key, reads from an escaped table is the same. */
  lemma FreeRead(c: Cut, h: Heap, g: Heap, v: Value, key: Value)
    requires Allowed(c) && Alike(c, h, g) && In(c, h.shape, v, ANY) && IsTable(h, v)
    ensures var r := PackageMachine.Read(h.fields[v.at], key);
            In(c, h.shape, r, ANY) && r == PackageMachine.Read(g.fields[v.at], key)
  {
    var site := h.shape.sites[v.at];
    assert TableRelated(c, h.shape, site, h.fields[v.at], g.fields[v.at]);
    assert EntryRelated(c, h.shape, site, h.fields[v.at], g.fields[v.at], key);
    EscapedEntries(c, site, key);
    InWithin(c, h.shape, PackageMachine.Read(h.fields[v.at], key), EntryValue(c, site, key), ANY);
    HostKept(c, h.shape, PackageMachine.Read(h.fields[v.at], key));
  }

  /** An escaped table is the same map in both runs. */
  lemma FreeTable(c: Cut, h: Heap, g: Heap, v: Value)
    requires Allowed(c) && Alike(c, h, g) && In(c, h.shape, v, ANY) && IsTable(h, v)
    ensures h.fields[v.at] == g.fields[v.at]
  {
    var fs, gs := h.fields[v.at], g.fields[v.at];
    assert TableRelated(c, h.shape, h.shape.sites[v.at], fs, gs);
    forall key ensures key in fs <==> key in gs
      ensures key in fs ==> fs[key] == gs[key]
    {
      FreeRead(c, h, g, v, key);
    }
  }

  lemma FreeWrite(c: Cut, h: Heap, g: Heap, v: Value, key: Value, a: Value)
    requires Allowed(c) && Alike(c, h, g) && In(c, h.shape, v, ANY) && v.Table? && In(c, h.shape, a, ANY)
    ensures Alike(c, SetField(h, v.at, key, a), SetField(g, v.at, key, a))
  {
    HostKept(c, h.shape, a);
    SetFieldAlike(c, h, g, v.at, key, a);
  }

  /** What the host can do anything with, it may hold. */
  lemma HostedFree(c: Cut, h: Heap, g: Heap, v: Value, a: Abs)
    requires Alike(c, h, g) && In(c, h.shape, v, a) && Hosted(h, v)
    ensures In(c, h.shape, v, ANY) && MayBeHosted(c.p, c.facts, a)
  {
    if v.Table? {
      var site := h.shape.sites[v.at];
      assert TableRelated(c, h.shape, site, h.fields[v.at], g.fields[v.at]);
      assert Escaped(site) in c.facts && !IsFunction(c.p, site);
    }
  }

  lemma FreedIn(c: Cut, h: Heap, g: Heap, v: Value, a: Abs)
    requires Alike(c, h, g) && In(c, h.shape, v, a) && Freed(c.p, c.facts, a)
    ensures In(c, h.shape, v, ANY)
  {
    if v.Table? {
      var site := h.shape.sites[v.at];
      assert TableRelated(c, h.shape, site, h.fields[v.at], g.fields[v.at]);
    }
  }

  lemma AdoptedOne(c: Cut, h: Heap, v: Value, on: bool)
    requires AdoptedFree(c, h.shape, h.adopted) && In(c, h.shape, v, ANY)
    ensures AdoptedFree(c, h.shape, HostAdopt(h, v, on).adopted)
  {
    if IsTable(h, v) {
      assert Covers(c, ANY, h.shape.sites[v.at]);
    }
  }

  lemma AdoptAlike(c: Cut, h: Heap, g: Heap, v: Value, on: bool)
    requires Alike(c, h, g) && In(c, h.shape, v, ANY)
    ensures Alike(c, HostAdopt(h, v, on), HostAdopt(g, v, on))
  {
    hide In, CellsRelated, ModulesRelated, TraceFree, OnlyActive, TableRelated, AdoptedFree;
    AdoptedOne(c, h, v, on);
    var h1, g1 := HostAdopt(h, v, on), HostAdopt(g, v, on);
    assert IsTable(h, v) <==> IsTable(g, v);
    assert h1 == h.(adopted := h1.adopted) && g1 == g.(adopted := g1.adopted) && h1.adopted == g1.adopted;
  }

  lemma DerefFree(c: Cut, s: Shape, trace: seq<Event>, r: Ref)
    requires TraceFree(c, s, trace)
    ensures In(c, s, Deref(trace, r), ANY)
  {
    if r.Seen? && r.i < |trace| {
      assert EventFree(c, s, trace[r.i]);
    }
  }

  lemma {:induction false} DerefAllFree(c: Cut, s: Shape, trace: seq<Event>, refs: seq<Ref>)
    requires TraceFree(c, s, trace)
    ensures |DerefAll(trace, refs)| == |refs|
    ensures forall k :: 0 <= k < |refs| ==> In(c, s, DerefAll(trace, refs)[k], ANY)
  {
    if refs != [] {
      DerefFree(c, s, trace, refs[0]);
      DerefAllFree(c, s, trace, refs[1..]);
    }
  }

  lemma {:induction false} SightsFree(c: Cut, s: Shape, vs: seq<Value>)
    requires forall k :: 0 <= k < |vs| ==> In(c, s, vs[k], ANY)
    ensures TraceFree(c, s, Sights(vs))
  {
    if vs != [] {
      SightsFree(c, s, vs[1..]);
      var rest := Sights(vs[1..]);
      forall i | 0 <= i < |Sights(vs)| ensures EventFree(c, s, Sights(vs)[i]) {
        assert i > 0 ==> EventFree(c, s, rest[i - 1]);
      }
    }
  }

  // ----- calls -----

  /** Arguments may flow to the parameters. */
  ghost predicate Bindable(c: Cut, s: Shape, params: seq<nat>, args: seq<Value>) {
    forall k :: 0 <= k < |params| && k < |args| ==> In(c, s, args[k], At(c.facts, OfLocal(params[k])))
  }

  lemma CroppedRest(c: Cut, args: seq<Value>)
    ensures CroppedAll(c, RestOf(args)) == RestOf(CroppedAll(c, args)) && FirstOf(CroppedAll(c, args)) == Cropped(c, FirstOf(args))
  {
  }

  lemma ParamsRest(p: Package, params: seq<nat>)
    requires Params(p, params) && params != []
    ensures Params(p, params[1..]) && params[0] !in p.initial && Names(params) == {params[0]} + Names(params[1..])
  {
    forall k | 0 <= k < |params[1..]| ensures params[1..][k] < p.locals && params[1..][k] !in p.initial {
      assert params[1..][k] == params[k + 1];
    }
    assert params == [params[0]] + params[1..];
  }

  lemma BindableRest(c: Cut, s: Shape, t: Shape, params: seq<nat>, args: seq<Value>)
    requires Bindable(c, s, params, args) && Extends(s, t) && params != []
    ensures Bindable(c, t, params[1..], RestOf(args)) && In(c, s, FirstOf(args), At(c.facts, OfLocal(params[0])))
  {
    var rest := RestOf(args);
    forall k | 0 <= k < |params[1..]| && k < |rest| ensures In(c, t, rest[k], At(c.facts, OfLocal(params[1..][k]))) {
      var at := k + 1;
      assert args[at] == rest[k] && params[at] == params[1..][k];
      InExtends(c, s, t, args[at], At(c.facts, OfLocal(params[at])));
    }
  }

  lemma {:induction false} BindSame(c: Cut, h: Heap, g: Heap, env: Env, params: seq<nat>, args: seq<Value>)
    requires Alike(c, h, g) && EnvFits(h.shape, env) && Params(c.p, params) && Bindable(c, h.shape, params, args)
    ensures var (env1, h1) := Bind(h, env, params, args);
            var (env2, g1) := Bind(g, env, params, CroppedAll(c, args));
            && env1 == env2 && Onward(c, h.shape, h1, g1) && EnvFits(h1.shape, env1)
            && env.Keys + Names(params) <= env1.Keys
    decreases |params|
  {
    hide In, Bindable, Params, Names, CroppedAll;
    if params == [] {
      NoNames();
    } else {
      var v, x := FirstOf(args), params[0];
      ParamsRest(c.p, params);
      BindableRest(c, h.shape, Grown(h.shape, x), params, args);
      InExtends(c, h.shape, Grown(h.shape, x), v, At(c.facts, OfLocal(x)));
      AddCellAlike(c, h, g, x, v);
      EnvExtends(h.shape, Grown(h.shape, x), env);
      CroppedRest(c, args);
      BindSame(c, AddCell(h, x, v), AddCell(g, x, Cropped(c, v)), env[x := |h.values|], params[1..], RestOf(args));
    }
  }

  lemma NoNames()
    ensures Names([]) == {}
  {
  }
}
