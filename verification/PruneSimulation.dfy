/** The heaps of a run and of the run of the pruned package: the same shape, the same host observations,
    and the same values, except that cut functions are nil and unread fields do not matter. */
module PruneSimulation {
  import opened PackageSyntax
  import opened ClosureFacts
  import opened PackageMachine
  import opened Pruning

  function Cropped(c: Cut, v: Value): Value {
    if v.Fun? && v.id in c.dead then NIL else v
  }

  // ----- a value is among those an abstract value stands for -----

  ghost predicate EnvFits(s: Shape, env: Env) {
    forall x :: x in env ==> env[x] < |s.names| && s.names[env[x]] == x
  }

  ghost predicate FunFits(c: Cut, s: Shape, id: nat, env: Env) {
    IsFunction(c.p, id) && EnvFits(s, env) && c.p.objects[id].scope <= env.Keys
  }

  predicate Covers(c: Cut, a: Abs, o: nat) {
    o in a.objects || (a.any && Escaped(o) in c.facts)
  }

  ghost predicate In(c: Cut, s: Shape, v: Value, a: Abs) {
    match v
    case Plain(prim) => prim.Str? ==> a.any || Text(c.p) in a.objects
    case Foreign(_) => a.any
    case Table(at) => at < |s.sites| && Covers(c, a, s.sites[at])
    case Fun(id, env) => FunFits(c, s, id, env) && Covers(c, a, id)
  }

  ghost predicate Extends(s: Shape, t: Shape) {
    s.names <= t.names && s.sites <= t.sites
  }

  lemma InExtends(c: Cut, s: Shape, t: Shape, v: Value, a: Abs)
    requires In(c, s, v, a) && Extends(s, t)
    ensures In(c, t, v, a)
  {
    if v.Fun? {
      EnvExtends(s, t, v.env);
    }
  }

  lemma EnvExtends(s: Shape, t: Shape, env: Env)
    requires EnvFits(s, env) && Extends(s, t)
    ensures EnvFits(t, env)
  {
    forall x | x in env ensures env[x] < |t.names| && t.names[env[x]] == x {
      assert s.names[env[x]] == x;
    }
  }

  // ----- related heaps -----

  /** A local that always holds its initial table. */
  ghost predicate Anchored(c: Cut, s: Shape, x: nat, v: Value) {
    forall n: nat :: Anchor(c.p, Expr.Local(x), n).Some? ==>
      v.Table? && v.at < |s.sites| && s.sites[v.at] == Anchor(c.p, Expr.Local(x), n).value
  }

  ghost predicate CellRelated(c: Cut, s: Shape, x: nat, v: Value, w: Value) {
    w == Cropped(c, v) && In(c, s, v, At(c.facts, OfLocal(x))) && Anchored(c, s, x, v)
  }

  ghost predicate CellsRelated(c: Cut, s: Shape, vs: seq<Value>, ws: seq<Value>) {
    |vs| == |ws| == |s.names| && forall i :: 0 <= i < |vs| ==> CellRelated(c, s, s.names[i], vs[i], ws[i])
  }

  /** Fields that may be read somewhere. */
  predicate Tracked(c: Cut, site: nat, key: Value) {
    !(key.Plain? && key.prim.Str?) || Escaped(site) in c.facts || (site, key.prim.s) in c.seen
  }

  function EntryValue(c: Cut, site: nat, key: Value): Abs {
    var entries := Join(Abs(Escaped(site) in c.facts, {}), At(c.facts, OfEntries(site)));
    if key.Plain? && key.prim.Str? then Join(entries, At(c.facts, OfField(site, key.prim.s))) else entries
  }

  ghost predicate EntryRelated(c: Cut, s: Shape, site: nat, fs: Fields, gs: Fields, key: Value) {
    && In(c, s, PackageMachine.Read(fs, key), EntryValue(c, site, key))
    && (Tracked(c, site, key) ==> PackageMachine.Read(gs, key) == Cropped(c, PackageMachine.Read(fs, key)))
  }

  ghost predicate NoNils(fs: Fields) {
    forall key :: key in fs ==> fs[key] != NIL
  }

  ghost predicate TableRelated(c: Cut, s: Shape, site: nat, fs: Fields, gs: Fields) {
    && site < |c.p.objects| && c.p.objects[site].TableSite? && NoNils(fs) && NoNils(gs)
    && forall key :: EntryRelated(c, s, site, fs, gs, key)
  }

  ghost predicate TablesRelated(c: Cut, s: Shape, fs: seq<Fields>, gs: seq<Fields>) {
    |fs| == |gs| == |s.sites| && forall i :: 0 <= i < |fs| ==> TableRelated(c, s, s.sites[i], fs[i], gs[i])
  }

  ghost predicate ModuleRelated(c: Cut, s: Shape, m: nat, a: Loaded, b: Loaded) {
    if a.Ready? then b == Ready(Cropped(c, a.value)) && In(c, s, a.value, At(c.facts, OfModule(m))) else b == a
  }

  ghost predicate ModulesRelated(c: Cut, s: Shape, a: seq<Loaded>, b: seq<Loaded>) {
    |a| == |b| == |c.p.modules| && forall m :: 0 <= m < |a| ==> ModuleRelated(c, s, m, a[m], b[m])
  }

  /** The host has seen nothing but what it may hold. */
  ghost predicate TraceFree(c: Cut, s: Shape, trace: seq<Event>) {
    forall i :: 0 <= i < |trace| ==> EventFree(c, s, trace[i])
  }

  ghost predicate EventFree(c: Cut, s: Shape, event: Event) {
    event.Saw? ==> In(c, s, event.value, ANY)
  }

  ghost predicate OnlyActive(c: Cut, called: set<nat>) {
    forall id :: id in called ==> Active(id) in c.facts
  }

  /** The host has taken over no tables but those it may hold. */
  ghost predicate AdoptedFree(c: Cut, s: Shape, adopted: set<nat>) {
    forall at :: at in adopted ==> at < |s.sites| && Escaped(s.sites[at]) in c.facts
  }

  ghost predicate Alike(c: Cut, h: Heap, g: Heap) {
    && h.shape == g.shape && h.trace == g.trace && h.called == g.called && h.adopted == g.adopted
    && AdoptedFree(c, h.shape, h.adopted)
    && CellsRelated(c, h.shape, h.values, g.values) && TablesRelated(c, h.shape, h.fields, g.fields)
    && ModulesRelated(c, h.shape, h.modules, g.modules)
    && TraceFree(c, h.shape, h.trace) && OnlyActive(c, h.called)
  }

  // ----- growing the shape -----

  lemma CellsExtend(c: Cut, s: Shape, t: Shape, x: nat, v: Value, w: Value)
    requires CellRelated(c, s, x, v, w) && Extends(s, t)
    ensures CellRelated(c, t, x, v, w)
  {
    InExtends(c, s, t, v, At(c.facts, OfLocal(x)));
  }

  lemma TableExtends(c: Cut, s: Shape, t: Shape, site: nat, fs: Fields, gs: Fields)
    requires TableRelated(c, s, site, fs, gs) && Extends(s, t)
    ensures TableRelated(c, t, site, fs, gs)
  {
    forall key ensures EntryRelated(c, t, site, fs, gs, key) {
      assert EntryRelated(c, s, site, fs, gs, key);
      InExtends(c, s, t, PackageMachine.Read(fs, key), EntryValue(c, site, key));
    }
  }

  lemma TablesExtend(c: Cut, s: Shape, t: Shape, fs: seq<Fields>, gs: seq<Fields>, n: nat)
    requires |fs| == |gs| == |s.sites| && Extends(s, t) && n <= |fs|
    requires forall i :: 0 <= i < n ==> TableRelated(c, s, s.sites[i], fs[i], gs[i])
    ensures forall i :: 0 <= i < n ==> TableRelated(c, t, t.sites[i], fs[i], gs[i])
  {
    forall i | 0 <= i < n ensures TableRelated(c, t, t.sites[i], fs[i], gs[i]) {
      TableExtends(c, s, t, s.sites[i], fs[i], gs[i]);
    }
  }

  lemma RestExtends(c: Cut, s: Shape, t: Shape, a: seq<Loaded>, b: seq<Loaded>, trace: seq<Event>)
    requires ModulesRelated(c, s, a, b) && TraceFree(c, s, trace) && Extends(s, t)
    ensures ModulesRelated(c, t, a, b) && TraceFree(c, t, trace)
  {
    forall m | 0 <= m < |a| ensures ModuleRelated(c, t, m, a[m], b[m]) {
      assert ModuleRelated(c, s, m, a[m], b[m]);
      if a[m].Ready? {
        InExtends(c, s, t, a[m].value, At(c.facts, OfModule(m)));
      }
    }
    forall i | 0 <= i < |trace| ensures EventFree(c, t, trace[i]) {
      assert EventFree(c, s, trace[i]);
      if trace[i].Saw? {
        InExtends(c, s, t, trace[i].value, ANY);
      }
    }
  }

  // ----- heap operations keep the heaps alike -----

  function Grown(s: Shape, x: nat): Shape {
    s.(names := s.names + [x])
  }

  /** A new cell; its value may already refer to it. */
  lemma AddCellAlike(c: Cut, h: Heap, g: Heap, x: nat, v: Value)
    requires Alike(c, h, g) && In(c, Grown(h.shape, x), v, At(c.facts, OfLocal(x)))
    requires Anchored(c, Grown(h.shape, x), x, v)
    ensures Alike(c, AddCell(h, x, v), AddCell(g, x, Cropped(c, v))) && Extends(h.shape, AddCell(h, x, v).shape)
  {
    var s, t := h.shape, Grown(h.shape, x);
    var vs, ws := AddCell(h, x, v).values, AddCell(g, x, Cropped(c, v)).values;
    forall i | 0 <= i < |vs| ensures CellRelated(c, t, t.names[i], vs[i], ws[i]) {
      if i < |h.values| {
        CellsExtend(c, s, t, s.names[i], h.values[i], g.values[i]);
      }
    }
    TablesExtend(c, s, t, h.fields, g.fields, |h.fields|);
    RestExtends(c, s, t, h.modules, g.modules, h.trace);
  }

  lemma SetCellAlike(c: Cut, h: Heap, g: Heap, at: nat, v: Value)
    requires Alike(c, h, g) && at < |h.values| && In(c, h.shape, v, At(c.facts, OfLocal(h.shape.names[at])))
    requires Anchored(c, h.shape, h.shape.names[at], v)
    ensures Alike(c, SetCell(h, at, v), SetCell(g, at, Cropped(c, v)))
  {
    var s, vs, ws := h.shape, SetCell(h, at, v).values, SetCell(g, at, Cropped(c, v)).values;
    forall i | 0 <= i < |vs| ensures CellRelated(c, s, s.names[i], vs[i], ws[i]) {
      assert CellRelated(c, s, s.names[i], h.values[i], g.values[i]);
    }
  }

  lemma AddTableAlike(c: Cut, h: Heap, g: Heap, site: nat)
    requires Alike(c, h, g) && site < |c.p.objects| && c.p.objects[site].TableSite?
    ensures Alike(c, AddTable(h, site), AddTable(g, site)) && Extends(h.shape, AddTable(h, site).shape)
  {
    var s, t := h.shape, AddTable(h, site).shape;
    forall i | 0 <= i < |h.values| ensures CellRelated(c, t, t.names[i], h.values[i], g.values[i]) {
      CellsExtend(c, s, t, s.names[i], h.values[i], g.values[i]);
    }
    TablesExtend(c, s, t, h.fields, g.fields, |h.fields|);
    forall key ensures EntryRelated(c, t, site, map[], map[], key) {
    }
    RestExtends(c, s, t, h.modules, g.modules, h.trace);
  }

  lemma WriteRelated(c: Cut, s: Shape, site: nat, fs: Fields, gs: Fields, key: Value, v: Value)
    requires TableRelated(c, s, site, fs, gs) && In(c, s, v, EntryValue(c, site, key))
    ensures TableRelated(c, s, site, Write(fs, key, v), Write(gs, key, Cropped(c, v)))
    ensures !Tracked(c, site, key) ==> TableRelated(c, s, site, Write(fs, key, v), gs)
  {
    hide EntryValue;
    forall k ensures EntryRelated(c, s, site, Write(fs, key, v), Write(gs, key, Cropped(c, v)), k) {
      assert EntryRelated(c, s, site, fs, gs, k);
    }
    if !Tracked(c, site, key) {
      forall k ensures EntryRelated(c, s, site, Write(fs, key, v), gs, k) {
        assert EntryRelated(c, s, site, fs, gs, k);
      }
    }
  }

  lemma SetFieldAlike(c: Cut, h: Heap, g: Heap, at: nat, key: Value, v: Value)
    requires Alike(c, h, g) && at < |h.fields| && In(c, h.shape, v, EntryValue(c, h.shape.sites[at], key))
    ensures Alike(c, SetField(h, at, key, v), SetField(g, at, key, Cropped(c, v)))
    ensures !Tracked(c, h.shape.sites[at], key) ==> Alike(c, SetField(h, at, key, v), g)
  {
    var s := h.shape;
    WriteRelated(c, s, s.sites[at], h.fields[at], g.fields[at], key, v);
    var fs, gs := SetField(h, at, key, v).fields, SetField(g, at, key, Cropped(c, v)).fields;
    forall i | 0 <= i < |fs| ensures TableRelated(c, s, s.sites[i], fs[i], gs[i]) {
      assert TableRelated(c, s, s.sites[i], h.fields[i], g.fields[i]);
    }
    if !Tracked(c, s.sites[at], key) {
      forall i | 0 <= i < |fs| ensures TableRelated(c, s, s.sites[i], fs[i], g.fields[i]) {
        assert TableRelated(c, s, s.sites[i], h.fields[i], g.fields[i]);
      }
    }
  }

  lemma SetModuleAlike(c: Cut, h: Heap, g: Heap, m: nat, a: Loaded, b: Loaded)
    requires Alike(c, h, g) && ModuleRelated(c, h.shape, m, a, b)
    ensures Alike(c, SetModule(h, m, a), SetModule(g, m, b))
  {
    var s, x, y := h.shape, SetModule(h, m, a).modules, SetModule(g, m, b).modules;
    forall i | 0 <= i < |x| ensures ModuleRelated(c, s, i, x[i], y[i]) {
      assert ModuleRelated(c, s, i, h.modules[i], g.modules[i]);
    }
  }

  lemma TellAlike(c: Cut, h: Heap, g: Heap, events: seq<Event>)
    requires Alike(c, h, g) && TraceFree(c, h.shape, events)
    ensures Alike(c, Tell(h, events), Tell(g, events))
  {
    var trace := h.trace + events;
    forall i | 0 <= i < |trace| ensures EventFree(c, h.shape, trace[i]) {
      if i < |h.trace| {
        assert EventFree(c, h.shape, h.trace[i]);
      } else {
        assert EventFree(c, h.shape, events[i - |h.trace|]);
      }
    }
  }
}
