/** Pruning: functions nobody calls, observes or hands to the host become nil, and statements that only
    store them under a key nobody reads disappear. */
module Pruning {
  import opened Wrappers
  import opened PackageSyntax
  import opened ClosureFacts

  /** The facts of a package and what to cut: `dead` functions, `gone` ones together with their statement. */
  datatype Cut = Cut(p: Package, facts: Facts, seen: ReadKeys, dead: set<nat>, gone: set<nat>)

  // ----- the pruned package -----

  function PruneE(c: Cut, e: Expr): Expr
    decreases e
  {
    match e
    case Const(_) => e
    case Local(_) => e
    case Global(_) => e
    case Function(id) => if id in c.dead then Const(Nil) else e
    case Table(id, items) => Table(id, PruneItems(c, items))
    case Index(base, key) => Index(PruneE(c, base), key)
    case IndexBy(base, index) => IndexBy(PruneE(c, base), PruneE(c, index))
    case Require(_) => e
    case Call(func, args) => Call(PruneE(c, func), PruneArgs(c, args))
    case And(left, right) => And(PruneE(c, left), PruneE(c, right))
    case Or(left, right) => Or(PruneE(c, left), PruneE(c, right))
    case Binary(op, left, right) => Binary(op, PruneE(c, left), PruneE(c, right))
    case Not(arg) => Not(PruneE(c, arg))
    case Len(arg) => Len(PruneE(c, arg))
    case IfElse(cond, yes, no) => IfElse(PruneE(c, cond), PruneE(c, yes), PruneE(c, no))
  }

  function PruneArgs(c: Cut, args: Exprs): Exprs
    decreases args
  {
    if args.NoArgs? then NoArgs else Arg(PruneE(c, args.head), PruneArgs(c, args.rest))
  }

  function PruneItems(c: Cut, items: Items): Items
    decreases items
  {
    match items
    case NoItems => NoItems
    case Field(key, value, rest) => Field(key, PruneE(c, value), PruneItems(c, rest))
    case Entry(index, value, rest) => Entry(PruneE(c, index), PruneE(c, value), PruneItems(c, rest))
  }

  function PruneT(c: Cut, t: Target): Target {
    match t
    case ToField(base, key) => ToField(PruneE(c, base), key)
    case ToEntry(base, index) => ToEntry(PruneE(c, base), PruneE(c, index))
    case _ => t
  }

  function PruneS(c: Cut, s: Stmt): Stmt
    decreases s
  {
    match s
    case Skip => s
    case Then(first, second) => Then(PruneS(c, first), PruneS(c, second))
    case Declare(x, value) => Declare(x, PruneE(c, value))
    case LocalFunction(x, id) => if id in c.dead then Declare(x, Const(Nil)) else s
    case FunctionAt(target, id) =>
      if id in c.gone then Skip
      else if id in c.dead then Assign(PruneT(c, target), Const(Nil))
      else FunctionAt(PruneT(c, target), id)
    case Assign(target, value) => Assign(PruneT(c, target), PruneE(c, value))
    case Return(value) => Return(PruneE(c, value))
    case Do(value) => Do(PruneE(c, value))
    case If(cond, yes, no) => If(PruneE(c, cond), PruneS(c, yes), PruneS(c, no))
    case While(cond, body) => While(PruneE(c, cond), PruneS(c, body))
  }

  function PruneObject(c: Cut, o: Object): Object {
    if o.Closure? then o.(body := PruneS(c, o.body)) else o
  }

  function PruneModule(c: Cut, m: Module): Module {
    m.(body := PruneS(c, m.body))
  }

  function PruneObjects(c: Cut, n: nat): (r: seq<Object>)
    requires n <= |c.p.objects|
    ensures |r| == n && forall o :: 0 <= o < n ==> r[o] == PruneObject(c, c.p.objects[o])
  {
    if n == 0 then [] else PruneObjects(c, n - 1) + [PruneObject(c, c.p.objects[n - 1])]
  }

  function PruneModules(c: Cut, n: nat): (r: seq<Module>)
    requires n <= |c.p.modules|
    ensures |r| == n && forall m :: 0 <= m < n ==> r[m] == PruneModule(c, c.p.modules[m])
  {
    if n == 0 then [] else PruneModules(c, n - 1) + [PruneModule(c, c.p.modules[n - 1])]
  }

  function Pruned(c: Cut): Package {
    c.p.(objects := PruneObjects(c, |c.p.objects|), modules := PruneModules(c, |c.p.modules|))
  }

  // ----- which cuts are allowed -----

  predicate Unused(facts: Facts, o: nat) {
    Active(o) !in facts && Observed(o) !in facts && Escaped(o) !in facts
  }

  /** The table expression a name stands for: its initialiser, followed through names never assigned. */
  function Anchor(p: Package, e: Expr, n: nat): Option<nat>
    decreases n
  {
    if n == 0 then None
    else
      match e
      case Table(id, _) => Some(id)
      case Local(x) => if x in p.reassigned || x !in p.initial then None else Anchor(p, p.initial[x], n - 1)
      case _ => None
  }

  /** A stored field nobody reads, of a table the host never sees. */
  ghost predicate RemovableAt(c: Cut, t: Target) {
    t.ToField? && exists n: nat :: RemovableWithin(c, t.base, t.key, n)
  }

  predicate RemovableWithin(c: Cut, base: Expr, key: string, n: nat) {
    var site := Anchor(c.p, base, n);
    site.Some? && Escaped(site.value) !in c.facts && (site.value, key) !in c.seen
  }

  // ----- where the analysis is not careful enough -----

  /** What is known of the facts: they contain `lower` and are contained in `upper`. */
  datatype Bounds = Bounds(p: Package, lower: Facts, upper: Facts, dead: set<nat>)

  /** No left operand of `and` or `or` may be a function that is cut. */
  ghost predicate LeftKept(b: Bounds, left: Expr) {
    Meaning(b.p, b.upper, left).objects !! b.dead
  }

  /** The value may be one whose operators are the host's. */
  ghost predicate MayBeHosted(p: Package, facts: Facts, a: Abs) {
    a.any || exists o :: o in a.objects && o < |p.objects| && !IsFunction(p, o) && Escaped(o) in facts
  }

  /** The host may hold the value, whatever it is. */
  ghost predicate Freed(p: Package, facts: Facts, a: Abs) {
    forall o :: o in a.objects && o < |p.objects| ==> Escaped(o) in facts
  }

  /** An operand that meets a host operator may be shown to the host. Equality asks the host only about two
      values that it holds already. */
  ghost predicate OperandsKept(b: Bounds, op: nat, left: Expr, right: Expr) {
    var l, r := Meaning(b.p, b.upper, left), Meaning(b.p, b.upper, right);
    op != 0 ==> (MayBeHosted(b.p, b.upper, l) ==> Freed(b.p, b.lower, r)) && (MayBeHosted(b.p, b.upper, r) ==> Freed(b.p, b.lower, l))
  }

  /** Where a string is indexed, the result may be anything. */
  ghost predicate MethodKept(b: Bounds, e: Expr)
    requires e.Index?
  {
    Text(b.p) in Meaning(b.p, b.upper, e.base).objects ==> Meaning(b.p, b.lower, e).any
  }

  ghost predicate KeptE(b: Bounds, e: Expr)
    decreases e
  {
    match e
    case Const(_) => true
    case Local(_) => true
    case Global(_) => true
    case Function(_) => true
    case Table(_, items) => KeptItems(b, items)
    case Index(base, _) => KeptE(b, base) && MethodKept(b, e)
    case IndexBy(base, index) => KeptE(b, base) && KeptE(b, index)
    case Require(_) => true
    case Call(func, args) => KeptE(b, func) && KeptArgs(b, args)
    case And(left, right) => LeftKept(b, left) && KeptE(b, left) && KeptE(b, right)
    case Or(left, right) => LeftKept(b, left) && KeptE(b, left) && KeptE(b, right)
    case Binary(op, left, right) => OperandsKept(b, op, left, right) && KeptE(b, left) && KeptE(b, right)
    case Not(arg) => KeptE(b, arg)
    case Len(arg) => KeptE(b, arg)
    case IfElse(cond, yes, no) => KeptE(b, cond) && KeptE(b, yes) && KeptE(b, no)
  }

  ghost predicate KeptArgs(b: Bounds, args: Exprs)
    decreases args
  {
    args.Arg? ==> KeptE(b, args.head) && KeptArgs(b, args.rest)
  }

  ghost predicate KeptItems(b: Bounds, items: Items)
    decreases items
  {
    match items
    case NoItems => true
    case Field(_, value, rest) => KeptE(b, value) && KeptItems(b, rest)
    case Entry(index, value, rest) => KeptE(b, index) && KeptE(b, value) && KeptItems(b, rest)
  }

  ghost predicate KeptT(b: Bounds, t: Target) {
    match t
    case ToField(base, _) => KeptE(b, base)
    case ToEntry(base, index) => KeptE(b, base) && KeptE(b, index)
    case _ => true
  }

  ghost predicate KeptS(b: Bounds, s: Stmt)
    decreases s
  {
    match s
    case Skip => true
    case Then(first, second) => KeptS(b, first) && KeptS(b, second)
    case Declare(_, value) => KeptE(b, value)
    case LocalFunction(_, _) => true
    case FunctionAt(target, _) => KeptT(b, target)
    case Assign(target, value) => KeptT(b, target) && KeptE(b, value)
    case Return(value) => KeptE(b, value)
    case Do(value) => KeptE(b, value)
    case If(cond, yes, no) => KeptE(b, cond) && KeptS(b, yes) && KeptS(b, no)
    case While(cond, body) => KeptE(b, cond) && KeptS(b, body)
  }

  /** In all code that can run. */
  ghost predicate Kept(b: Bounds) {
    && (forall m :: 0 <= m < |b.p.modules| ==> KeptS(b, b.p.modules[m].body))
    && forall o: nat :: IsFunction(b.p, o) && Active(o) in b.upper ==> KeptS(b, b.p.objects[o].body)
  }

  /** The facts themselves are both bounds. */
  function Exactly(c: Cut): Bounds {
    Bounds(c.p, c.facts, c.facts, c.dead)
  }

  /** String constants are tracked. */
  predicate Tracks(p: Package, facts: Facts) {
    MayHold(OfText, Text(p)) in facts
  }

  /** The facts are closed, only unused functions are cut, and only removable statements go. */
  ghost predicate Sound(c: Cut) {
    && WellScoped(c.p) && PostFixpoint(c.p, c.facts, c.seen)
    && c.gone <= c.dead && (forall o :: o in c.dead ==> IsFunction(c.p, o) && Unused(c.facts, o))
    && forall o :: o in c.gone ==> o in c.p.declared && RemovableAt(c, c.p.declared[o])
  }

  ghost predicate Allowed(c: Cut) {
    Sound(c) && Tracks(c.p, c.facts) && Kept(Exactly(c))
  }
}
