/** How a package runs: an interpreter whose host is a strategy over what it has seen so far. `fuel` bounds
    nested calls, loop iterations and host actions; a run that needs more is cut off as `Spent`. */
module PackageMachine {
  import opened Wrappers
  import opened PackageSyntax

  /** A closure carries the cells of the locals it may use; two closures of one function over the same
      cells are the same value. */
  datatype Value = Plain(prim: Prim) | Table(at: nat) | Fun(id: nat, env: Env) | Foreign(n: nat)

  type Env = map<nat, nat>
  type Fields = map<Value, Value>

  /** Which local each cell belongs to and which expression made each table. */
  datatype Shape = Shape(names: seq<nat>, sites: seq<nat>)

  datatype Loaded = Fresh | Loading | Ready(value: Value)

  /** What the host observes. */
  datatype Event = Asked(what: Request) | Sought(name: string) | Saw(value: Value) | Wrote | Raised

  /** An operation that is the host's to perform; its operands are shown to it next. */
  datatype Request = Invoking | Indexing | Storing | Measuring | Operating(op: nat)

  /** `adopted` tables have a metatable or are frozen; `called` records every function that has run. */
  datatype Heap = Heap(
    shape: Shape,
    values: seq<Value>,
    fields: seq<Fields>,
    adopted: set<nat>,
    modules: seq<Loaded>,
    trace: seq<Event>,
    called: set<nat>)

  datatype Outcome<T> = Ok(value: T, heap: Heap) | Failed(heap: Heap) | Spent(heap: Heap)
  datatype Flow = Next(env: Env) | Back(value: Value)

  /** A value the host names: one it has seen, a primitive, or one of its own. */
  datatype Ref = Seen(i: nat) | Made(prim: Prim) | Own(n: nat)

  /** Raw access to a table, taking one over or giving it up, calling back, and the two ways to answer. */
  datatype Action =
    | Get(table: Ref, key: Ref)
    | Put(table: Ref, key: Ref, value: Ref)
    | Adopt(table: Ref, on: bool)
    | Invoke(func: Ref, args: seq<Ref>)
    | Reply(value: Ref)
    | Raise

  /** The host: what its globals stand for and what it does next, given all it has observed, and the
      primitive operators. */
  datatype Host = Host(
    globals: (string, seq<Event>) -> Ref,
    next: seq<Event> -> Action,
    operate: (nat, Prim, Prim) -> Option<Prim>,
    length: Fields -> nat)

  /** A located assignment target. */
  datatype Spot = Cell(x: nat) | EntryAt(base: Value, key: Value)

  const NIL := Plain(Nil)

  function Truthy(v: Value): bool {
    v != NIL && v != Plain(Bool(false))
  }

  // ----- the heap -----

  function Read(fields: Fields, key: Value): Value {
    if key in fields then fields[key] else NIL
  }

  function Write(fields: Fields, key: Value, v: Value): Fields {
    if v == NIL then fields - {key} else fields[key := v]
  }

  predicate IsTable(h: Heap, v: Value) {
    v.Table? && v.at < |h.fields|
  }

  function AddCell(h: Heap, x: nat, v: Value): Heap {
    h.(shape := h.shape.(names := h.shape.names + [x]), values := h.values + [v])
  }

  function SetCell(h: Heap, at: nat, v: Value): Heap {
    if at < |h.values| then h.(values := h.values[at := v]) else h
  }

  function AddTable(h: Heap, site: nat): Heap {
    h.(shape := h.shape.(sites := h.shape.sites + [site]), fields := h.fields + [map[]])
  }

  /** Store into a table; the key must not be nil. */
  function SetField(h: Heap, at: nat, key: Value, v: Value): Heap {
    if at < |h.fields| then h.(fields := h.fields[at := Write(h.fields[at], key, v)]) else h
  }

  function SetModule(h: Heap, m: nat, state: Loaded): Heap {
    if m < |h.modules| then h.(modules := h.modules[m := state]) else h
  }

  /** Operations on the value are the host's. */
  predicate Hosted(h: Heap, v: Value) {
    v.Foreign? || (v.Table? && v.at in h.adopted)
  }

  predicate IsText(v: Value) {
    v.Plain? && v.prim.Str?
  }

  function Tell(h: Heap, events: seq<Event>): Heap {
    h.(trace := h.trace + events)
  }

  function Enter(h: Heap, id: nat): Heap {
    h.(called := h.called + {id})
  }

  function Sights(values: seq<Value>): seq<Event> {
    if values == [] then [] else [Saw(values[0])] + Sights(values[1..])
  }

  function Deref(trace: seq<Event>, r: Ref): Value {
    match r
    case Seen(i) => if i < |trace| && trace[i].Saw? then trace[i].value else NIL
    case Made(prim) => Plain(prim)
    case Own(n) => Foreign(n)
  }

  function DerefAll(trace: seq<Event>, refs: seq<Ref>): seq<Value> {
    if refs == [] then [] else [Deref(trace, refs[0])] + DerefAll(trace, refs[1..])
  }

  /** New cells for the parameters; missing arguments are nil, extra ones are dropped. */
  function Bind(h: Heap, env: Env, params: seq<nat>, args: seq<Value>): (Env, Heap)
    decreases |params|
  {
    if params == [] then (env, h)
    else Bind(AddCell(h, params[0], FirstOf(args)), env[params[0] := |h.values|], params[1..], RestOf(args))
  }

  function FirstOf(args: seq<Value>): Value {
    if args == [] then NIL else args[0]
  }

  function RestOf(args: seq<Value>): seq<Value> {
    if args == [] then [] else args[1..]
  }

  // ----- evaluation -----

  /** Tables and host values are equal if they are the same, or the host says so; other operators take
      primitives, or the host performs them. */
  function Operate(p: Package, host: Host, fuel: nat, h: Heap, op: nat, a: Value, b: Value): Outcome<Value>
    decreases fuel, 1
  {
    if op == 0 && (a == b || !(Hosted(h, a) && Hosted(h, b))) then Ok(Plain(Bool(a == b)), h)
    else if a.Plain? && b.Plain? then
      match host.operate(op, a.prim, b.prim)
      case Some(r) => Ok(Plain(r), h)
      case None => Failed(h)
    else if Hosted(h, a) || Hosted(h, b) then Ask(p, host, fuel, h, Operating(op), [a, b])
    else Failed(h)
  }

  function Eval(p: Package, host: Host, fuel: nat, env: Env, h: Heap, e: Expr): Outcome<Value>
    decreases fuel, 2, e
  {
    match e
    case Const(prim) => Ok(Plain(prim), h)
    case Local(x) =>
      if x in env && env[x] < |h.values| then Ok(h.values[env[x]], h) else Failed(h)
    case Global(name) => Ok(Deref(h.trace, host.globals(name, h.trace)), h)
    case Function(id) => Ok(Fun(id, env), h)
    case Table(id, items) => Fill(p, host, fuel, env, AddTable(h, id), |h.fields|, items)
    case Index(base, key) =>
      (match Eval(p, host, fuel, env, h, base)
       case Ok(v, h1) => ReadFrom(p, host, fuel, h1, v, Plain(Str(key)))
       case r => r)
    case IndexBy(base, index) =>
      (match Eval(p, host, fuel, env, h, base)
       case Ok(v, h1) =>
         (match Eval(p, host, fuel, env, h1, index)
          case Ok(k, h2) => ReadFrom(p, host, fuel, h2, v, k)
          case r => r)
       case r => r)
    case Require(name) => if fuel == 0 then Spent(h) else Load(p, host, fuel - 1, h, name)
    case Call(func, args) =>
      (match Eval(p, host, fuel, env, h, func)
       case Ok(f, h1) =>
         (match EvalAll(p, host, fuel, env, h1, args)
          case Ok(vs, h2) => if fuel == 0 then Spent(h2) else CallValue(p, host, fuel - 1, h2, f, vs)
          case Failed(h2) => Failed(h2)
          case Spent(h2) => Spent(h2))
       case r => r)
    case And(left, right) =>
      (match Eval(p, host, fuel, env, h, left)
       case Ok(v, h1) => if Truthy(v) then Eval(p, host, fuel, env, h1, right) else Ok(v, h1)
       case r => r)
    case Or(left, right) =>
      (match Eval(p, host, fuel, env, h, left)
       case Ok(v, h1) => if Truthy(v) then Ok(v, h1) else Eval(p, host, fuel, env, h1, right)
       case r => r)
    case Binary(op, left, right) =>
      (match Eval(p, host, fuel, env, h, left)
       case Ok(a, h1) =>
         (match Eval(p, host, fuel, env, h1, right)
          case Ok(b, h2) => Operate(p, host, fuel, h2, op, a, b)
          case r => r)
       case r => r)
    case Not(arg) =>
      (match Eval(p, host, fuel, env, h, arg)
       case Ok(v, h1) => Ok(Plain(Bool(!Truthy(v))), h1)
       case r => r)
    case Len(arg) =>
      (match Eval(p, host, fuel, env, h, arg)
       case Ok(v, h1) => Measure(p, host, fuel, h1, v)
       case r => r)
    case IfElse(cond, yes, no) =>
      (match Eval(p, host, fuel, env, h, cond)
       case Ok(v, h1) => Eval(p, host, fuel, env, h1, if Truthy(v) then yes else no)
       case r => r)
  }

  function EvalAll(p: Package, host: Host, fuel: nat, env: Env, h: Heap, args: Exprs): Outcome<seq<Value>>
    decreases fuel, 2, args
  {
    match args
    case NoArgs => Ok([], h)
    case Arg(head, rest) =>
      match Eval(p, host, fuel, env, h, head)
      case Failed(h1) => Failed(h1)
      case Spent(h1) => Spent(h1)
      case Ok(v, h1) =>
        match EvalAll(p, host, fuel, env, h1, rest)
        case Failed(h2) => Failed(h2)
        case Spent(h2) => Spent(h2)
        case Ok(vs, h2) => Ok([v] + vs, h2)
  }

  /** Fill the table at `at` with the entries of a constructor. */
  function Fill(p: Package, host: Host, fuel: nat, env: Env, h: Heap, at: nat, items: Items): Outcome<Value>
    decreases fuel, 2, items
  {
    match items
    case NoItems => Ok(Value.Table(at), h)
    case Field(key, value, rest) =>
      (match Eval(p, host, fuel, env, h, value)
       case Ok(v, h1) => Fill(p, host, fuel, env, SetField(h1, at, Plain(Str(key)), v), at, rest)
       case r => r)
    case Entry(index, value, rest) =>
      match Eval(p, host, fuel, env, h, index)
      case Ok(k, h1) =>
        (match Eval(p, host, fuel, env, h1, value)
         case Ok(v, h2) => if k == NIL then Failed(h2) else Fill(p, host, fuel, env, SetField(h2, at, k, v), at, rest)
         case r => r)
      case r => r
  }

  /** The host performs an operation. */
  function Ask(p: Package, host: Host, fuel: nat, h: Heap, what: Request, operands: seq<Value>): Outcome<Value>
    decreases fuel, 0
  {
    if fuel == 0 then Spent(h) else HostTurn(p, host, fuel - 1, Tell(h, [Asked(what)] + Sights(operands)))
  }

  /** Strings have the host's methods. */
  function ReadFrom(p: Package, host: Host, fuel: nat, h: Heap, v: Value, key: Value): Outcome<Value>
    decreases fuel, 1
  {
    if Hosted(h, v) || IsText(v) then Ask(p, host, fuel, h, Indexing, [v, key])
    else if IsTable(h, v) then Ok(Read(h.fields[v.at], key), h)
    else Failed(h)
  }

  function StoreInto(p: Package, host: Host, fuel: nat, h: Heap, v: Value, key: Value, a: Value): Outcome<Value>
    decreases fuel, 1
  {
    if Hosted(h, v) then Ask(p, host, fuel, h, Storing, [v, key, a])
    else if IsTable(h, v) && key != NIL then Ok(NIL, SetField(h, v.at, key, a))
    else Failed(h)
  }

  function Measure(p: Package, host: Host, fuel: nat, h: Heap, v: Value): Outcome<Value>
    decreases fuel, 1
  {
    if Hosted(h, v) then Ask(p, host, fuel, h, Measuring, [v])
    else if IsTable(h, v) then Ok(Plain(Num(host.length(h.fields[v.at]))), h)
    else if IsText(v) then Ok(Plain(Num(|v.prim.s|)), h)
    else Failed(h)
  }

  /** Require a module: its body runs once, its value is kept; a module being loaded cannot be required,
      and for one outside the package the host answers. */
  function Load(p: Package, host: Host, fuel: nat, h: Heap, name: string): Outcome<Value>
    decreases fuel, 5
  {
    var m := FindModule(p, name, 0);
    if m.None? then
      if fuel == 0 then Spent(h) else HostTurn(p, host, fuel - 1, Tell(h, [Sought(name)]))
    else if m.value >= |h.modules| then Failed(h)
    else
      match h.modules[m.value]
      case Ready(v) => Ok(v, h)
      case Loading => Failed(h)
      case Fresh => Finish(m.value, Exec(p, host, fuel, map[], SetModule(h, m.value, Loading), p.modules[m.value].body))
  }

  function Finish(m: nat, r: Outcome<Flow>): Outcome<Value> {
    match r
    case Ok(Back(v), h) => Ok(v, SetModule(h, m, Ready(v)))
    case Ok(Next(_), h) => Ok(NIL, SetModule(h, m, Ready(NIL)))
    case Failed(h) => Failed(SetModule(h, m, Fresh))
    case Spent(h) => Spent(h)
  }

  function CallValue(p: Package, host: Host, fuel: nat, h: Heap, f: Value, args: seq<Value>): Outcome<Value>
    decreases fuel, 5
  {
    if f.Fun? && IsFunction(p, f.id) then
      var (env, h1) := Bind(Enter(h, f.id), f.env, p.objects[f.id].params, args);
      Answer(Exec(p, host, fuel, env, h1, p.objects[f.id].body))
    else if Hosted(h, f) then Ask(p, host, fuel, h, Invoking, [f] + args)
    else Failed(h)
  }

  function Answer(r: Outcome<Flow>): Outcome<Value> {
    match r
    case Ok(Back(v), h) => Ok(v, h)
    case Ok(Next(_), h) => Ok(NIL, h)
    case Failed(h) => Failed(h)
    case Spent(h) => Spent(h)
  }

  /** The host acts until it replies or raises; errors of the functions it calls are its to handle. */
  function HostTurn(p: Package, host: Host, fuel: nat, h: Heap): Outcome<Value>
    decreases fuel, 5
  {
    match host.next(h.trace)
    case Reply(r) => Ok(Deref(h.trace, r), h)
    case Raise => Failed(h)
    case Get(table, key) =>
      if fuel == 0 then Spent(h) else HostTurn(p, host, fuel - 1, Tell(h, [Saw(HostRead(h, Deref(h.trace, table), Deref(h.trace, key)))]))
    case Put(table, key, value) =>
      if fuel == 0 then Spent(h)
      else HostTurn(p, host, fuel - 1, Tell(HostWrite(h, Deref(h.trace, table), Deref(h.trace, key), Deref(h.trace, value)), [Wrote]))
    case Adopt(table, on) =>
      if fuel == 0 then Spent(h) else HostTurn(p, host, fuel - 1, Tell(HostAdopt(h, Deref(h.trace, table), on), [Wrote]))
    case Invoke(func, args) =>
      if fuel == 0 then Spent(h)
      else
        match CallValue(p, host, fuel - 1, h, Deref(h.trace, func), DerefAll(h.trace, args))
        case Ok(v, h1) => HostTurn(p, host, fuel - 1, Tell(h1, [Saw(v)]))
        case Failed(h1) => HostTurn(p, host, fuel - 1, Tell(h1, [Raised]))
        case Spent(h1) => Spent(h1)
  }

  function HostRead(h: Heap, v: Value, key: Value): Value {
    if IsTable(h, v) then Read(h.fields[v.at], key) else NIL
  }

  function HostWrite(h: Heap, v: Value, key: Value, a: Value): Heap {
    if v.Table? && key != NIL then SetField(h, v.at, key, a) else h
  }

  function HostAdopt(h: Heap, v: Value, on: bool): Heap {
    if !IsTable(h, v) then h else h.(adopted := if on then h.adopted + {v.at} else h.adopted - {v.at})
  }

  // ----- statements -----

  /** The target of an assignment is located before its value is computed. */
  function Locate(p: Package, host: Host, fuel: nat, env: Env, h: Heap, t: Target): Outcome<Spot>
    decreases fuel, 2, t
  {
    match t
    case ToLocal(x) => Ok(Cell(x), h)
    case ToGlobal(_) => Failed(h)
    case ToField(base, key) =>
      (match Eval(p, host, fuel, env, h, base)
       case Ok(v, h1) => Ok(EntryAt(v, Plain(Str(key))), h1)
       case Failed(h1) => Failed(h1)
       case Spent(h1) => Spent(h1))
    case ToEntry(base, index) =>
      match Eval(p, host, fuel, env, h, base)
      case Failed(h1) => Failed(h1)
      case Spent(h1) => Spent(h1)
      case Ok(v, h1) =>
        match Eval(p, host, fuel, env, h1, index)
        case Ok(k, h2) => Ok(EntryAt(v, k), h2)
        case Failed(h2) => Failed(h2)
        case Spent(h2) => Spent(h2)
  }

  function AssignTo(p: Package, host: Host, fuel: nat, env: Env, h: Heap, spot: Spot, a: Value): Outcome<Value>
    decreases fuel, 2
  {
    match spot
    case Cell(x) => if x in env && env[x] < |h.values| then Ok(NIL, SetCell(h, env[x], a)) else Failed(h)
    case EntryAt(v, key) => StoreInto(p, host, fuel, h, v, key, a)
  }

  function Exec(p: Package, host: Host, fuel: nat, env: Env, h: Heap, s: Stmt): Outcome<Flow>
    decreases fuel, 4, s
  {
    match s
    case Skip => Ok(Next(env), h)
    case Then(first, second) =>
      (match Exec(p, host, fuel, env, h, first)
       case Ok(Next(env1), h1) => Exec(p, host, fuel, env1, h1, second)
       case r => r)
    case Declare(x, value) =>
      (match Eval(p, host, fuel, env, h, value)
       case Ok(v, h1) => Ok(Next(env[x := |h1.values|]), AddCell(h1, x, v))
       case Failed(h1) => Failed(h1)
       case Spent(h1) => Spent(h1))
    case LocalFunction(x, id) =>
      var env1 := env[x := |h.values|];
      Ok(Next(env1), AddCell(h, x, Fun(id, env1)))
    case FunctionAt(target, id) =>
      (match Locate(p, host, fuel, env, h, target)
       case Ok(spot, h1) =>
         var v := Fun(id, env);
         Done(env, AssignTo(p, host, fuel, env, h1, spot, v))
       case Failed(h1) => Failed(h1)
       case Spent(h1) => Spent(h1))
    case Assign(target, value) =>
      (match Locate(p, host, fuel, env, h, target)
       case Ok(spot, h1) =>
         (match Eval(p, host, fuel, env, h1, value)
          case Ok(v, h2) =>
            Done(env, AssignTo(p, host, fuel, env, h2, spot, v))
          case r => Done(env, r))
       case Failed(h1) => Failed(h1)
       case Spent(h1) => Spent(h1))
    case Return(value) =>
      (match Eval(p, host, fuel, env, h, value)
       case Ok(v, h1) => Ok(Back(v), h1)
       case Failed(h1) => Failed(h1)
       case Spent(h1) => Spent(h1))
    case Do(value) => Done(env, Eval(p, host, fuel, env, h, value))
    case If(cond, yes, no) =>
      (match Eval(p, host, fuel, env, h, cond)
       case Ok(v, h1) => Restore(env, Exec(p, host, fuel, env, h1, if Truthy(v) then yes else no))
       case r => Done(env, r))
    case While(cond, body) =>
      match Eval(p, host, fuel, env, h, cond)
      case Ok(v, h1) =>
        if !Truthy(v) then Ok(Next(env), h1)
        else
          (match Exec(p, host, fuel, env, h1, body)
           case Ok(Next(_), h2) => if fuel == 0 then Spent(h2) else Exec(p, host, fuel - 1, env, h2, s)
           case r => r)
      case r => Done(env, r)
  }

  /** A statement that goes on in the same environment, whatever value was computed. */
  function Done(env: Env, r: Outcome<Value>): Outcome<Flow> {
    match r
    case Ok(_, h) => Ok(Next(env), h)
    case Failed(h) => Failed(h)
    case Spent(h) => Spent(h)
  }

  /** Locals declared inside a block end with it. */
  function Restore(env: Env, r: Outcome<Flow>): Outcome<Flow> {
    if r.Ok? && r.value.Next? then Ok(Next(env), r.heap) else r
  }

  function Start(p: Package): Heap {
    Heap(Shape([], []), [], [], {}, seq(|p.modules|, i => Fresh), [], {})
  }

  /** A whole run: the entry module is loaded and its value handed to the host. */
  function Run(p: Package, host: Host, fuel: nat): Outcome<Value>
    requires p.entry < |p.modules|
  {
    match Finish(p.entry, Exec(p, host, fuel, map[], SetModule(Start(p), p.entry, Loading), p.modules[p.entry].body))
    case Ok(v, h) => Ok(v, Tell(h, [Saw(v)]))
    case r => r
  }
}
