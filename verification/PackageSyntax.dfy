/** The core of a closed package: modules of statements over locals, closures, tables and host values.
    Function and table expressions are numbered; a function expression names its body by number. */
module PackageSyntax {
  import opened Wrappers

  datatype Prim = Nil | Bool(b: bool) | Num(n: int) | Str(s: string)

  datatype Expr =
    | Const(prim: Prim)
    | Local(x: nat)
    | Global(name: string)
    | Function(id: nat)
    | Table(id: nat, items: Items)
    | Index(base: Expr, key: string)
    | IndexBy(base: Expr, index: Expr)
    | Require(name: string)
    | Call(func: Expr, args: Exprs)
    | And(left: Expr, right: Expr)
    | Or(left: Expr, right: Expr)
    | Binary(op: nat, left: Expr, right: Expr)
    | Not(arg: Expr)
    | Len(arg: Expr)
    | IfElse(cond: Expr, yes: Expr, no: Expr)

  datatype Exprs = NoArgs | Arg(head: Expr, rest: Exprs)

  /** Entries of a table constructor, with a constant or a computed key. */
  datatype Items = NoItems | Field(key: string, value: Expr, rest: Items) | Entry(index: Expr, value: Expr, rest: Items)

  datatype Target = ToLocal(x: nat) | ToField(base: Expr, key: string) | ToEntry(base: Expr, index: Expr) | ToGlobal(name: string)

  datatype Stmt =
    | Skip
    | Then(first: Stmt, second: Stmt)
    | Declare(x: nat, value: Expr)
    | LocalFunction(x: nat, id: nat)
    | FunctionAt(target: Target, id: nat)
    | Assign(target: Target, value: Expr)
    | Return(value: Expr)
    | Do(value: Expr)
    | If(cond: Expr, yes: Stmt, no: Stmt)
    | While(cond: Expr, body: Stmt)

  /** What a number stands for; a function may use the locals of its scope. */
  datatype Object = Closure(scope: set<nat>, params: seq<nat>, body: Stmt) | TableSite

  datatype Module = Module(name: string, body: Stmt)

  /** `initial`, `reassigned` and `declared` are what the collector records: initialisers of locals,
      assigned locals, targets of function statements;
      `keys` and the bound on `locals` name everything that occurs. */
  datatype Package = Package(
    objects: seq<Object>,
    modules: seq<Module>,
    entry: nat,
    initial: map<nat, Expr>,
    reassigned: set<nat>,
    declared: map<nat, Target>,
    locals: nat,
    keys: set<string>)

  predicate IsFunction(p: Package, o: nat) {
    o < |p.objects| && p.objects[o].Closure?
  }

  /** The module of that name; the first one if there are several. */
  function FindModule(p: Package, name: string, m: nat): (r: Option<nat>)
    ensures r.Some? ==> m <= r.value < |p.modules|
    decreases |p.modules| - m
  {
    if m >= |p.modules| then None
    else if p.modules[m].name == name then Some(m)
    else FindModule(p, name, m + 1)
  }

  // ----- scoping -----

  predicate InScopeE(p: Package, scope: set<nat>, e: Expr)
    decreases e
  {
    match e
    case Const(_) => true
    case Local(x) => x in scope && x < p.locals
    case Global(_) => true
    case Function(id) => IsFunction(p, id) && p.objects[id].scope <= scope
    case Table(id, items) => id < |p.objects| && p.objects[id].TableSite? && InScopeItems(p, scope, items)
    case Index(base, key) => key in p.keys && InScopeE(p, scope, base)
    case IndexBy(base, index) => InScopeE(p, scope, base) && InScopeE(p, scope, index)
    case Require(_) => true
    case Call(func, args) => InScopeE(p, scope, func) && InScopeArgs(p, scope, args)
    case And(left, right) => InScopeE(p, scope, left) && InScopeE(p, scope, right)
    case Or(left, right) => InScopeE(p, scope, left) && InScopeE(p, scope, right)
    case Binary(_, left, right) => InScopeE(p, scope, left) && InScopeE(p, scope, right)
    case Not(arg) => InScopeE(p, scope, arg)
    case Len(arg) => InScopeE(p, scope, arg)
    case IfElse(cond, yes, no) => InScopeE(p, scope, cond) && InScopeE(p, scope, yes) && InScopeE(p, scope, no)
  }

  predicate InScopeArgs(p: Package, scope: set<nat>, args: Exprs)
    decreases args
  {
    args.Arg? ==> InScopeE(p, scope, args.head) && InScopeArgs(p, scope, args.rest)
  }

  predicate InScopeItems(p: Package, scope: set<nat>, items: Items)
    decreases items
  {
    match items
    case NoItems => true
    case Field(key, value, rest) => key in p.keys && InScopeE(p, scope, value) && InScopeItems(p, scope, rest)
    case Entry(index, value, rest) =>
      InScopeE(p, scope, index) && InScopeE(p, scope, value) && InScopeItems(p, scope, rest)
  }

  predicate InScopeT(p: Package, scope: set<nat>, t: Target) {
    match t
    case ToLocal(x) => x in scope && x in p.reassigned && x < p.locals
    case ToField(base, key) => key in p.keys && InScopeE(p, scope, base)
    case ToEntry(base, index) => InScopeE(p, scope, base) && InScopeE(p, scope, index)
    case ToGlobal(_) => true
  }

  /** A function statement names its target by a path of identifiers. */
  predicate NamePath(e: Expr) {
    e.Local? || e.Global? || (e.Index? && NamePath(e.base))
  }

  predicate NamedTarget(t: Target) {
    t.ToLocal? || t.ToGlobal? || (t.ToField? && NamePath(t.base))
  }

  function ScopeAfter(scope: set<nat>, s: Stmt): set<nat>
    decreases s
  {
    match s
    case Then(first, second) => ScopeAfter(ScopeAfter(scope, first), second)
    case Declare(x, _) => scope + {x}
    case LocalFunction(x, _) => scope + {x}
    case _ => scope
  }

  predicate InScopeS(p: Package, scope: set<nat>, s: Stmt)
    decreases s
  {
    match s
    case Skip => true
    case Then(first, second) => InScopeS(p, scope, first) && InScopeS(p, ScopeAfter(scope, first), second)
    case Declare(x, value) =>
      x < p.locals && x in p.initial && p.initial[x] == value && InScopeE(p, scope, value)
    case LocalFunction(x, id) =>
      x < p.locals && x !in p.initial && IsFunction(p, id) && p.objects[id].scope <= scope + {x}
    case FunctionAt(target, id) =>
      NamedTarget(target) && id in p.declared && p.declared[id] == target && InScopeT(p, scope, target) && IsFunction(p, id) && p.objects[id].scope <= scope
    case Assign(target, value) => InScopeT(p, scope, target) && InScopeE(p, scope, value)
    case Return(value) => InScopeE(p, scope, value)
    case Do(value) => InScopeE(p, scope, value)
    case If(cond, yes, no) => InScopeE(p, scope, cond) && InScopeS(p, scope, yes) && InScopeS(p, scope, no)
    case While(cond, body) => InScopeE(p, scope, cond) && InScopeS(p, scope, body)
  }

  predicate Params(p: Package, params: seq<nat>) {
    forall k :: 0 <= k < |params| ==> params[k] < p.locals && params[k] !in p.initial
  }

  function Names(params: seq<nat>): set<nat> {
    set x | x in params
  }

  ghost predicate InScopeObject(p: Package, o: nat)
    requires o < |p.objects|
  {
    p.objects[o].Closure? ==>
      Params(p, p.objects[o].params) && InScopeS(p, p.objects[o].scope + Names(p.objects[o].params), p.objects[o].body)
  }

  /** A recorded table expression is one of the package's. */
  predicate TableKnown(p: Package, e: Expr) {
    e.Table? ==> e.id < |p.objects|
  }

  /** What the parser and the collector guarantee of a package. */
  ghost predicate WellScoped(p: Package) {
    && p.entry < |p.modules|
    && (forall x :: x in p.initial ==> TableKnown(p, p.initial[x]))
    && (forall o :: o in p.declared && p.declared[o].ToField? ==> TableKnown(p, p.declared[o].base))
    && (forall o :: 0 <= o < |p.objects| ==> InScopeObject(p, o))
    && forall m :: 0 <= m < |p.modules| ==> InScopeS(p, {}, p.modules[m].body)
  }
}
