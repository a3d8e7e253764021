/** What the analysis knows of a package, what an expression may evaluate to under those facts, and when
    the facts are closed under every transfer rule. */
module ClosureFacts {
  import opened PackageSyntax

  /** Where values rest: a local, a field under a constant key, any other entry of a table, the results
      of a function or a module. String constants count as a place of their own. */
  datatype Place =
    | OfLocal(x: nat)
    | OfField(o: nat, key: string)
    | OfEntries(o: nat)
    | OfReturn(o: nat)
    | OfModule(m: nat)
    | OfText

  /** A place may hold an object, or anything the host knows; a function may run; the identity of an
      object may matter; the host may hold it. */
  datatype Fact =
    | MayHold(place: Place, item: nat)
    | MayBeAny(place: Place)
    | Active(item: nat)
    | Observed(item: nat)
    | Escaped(item: nat)

  type Facts = set<Fact>

  /** Keys that may be read from an object. */
  type ReadKeys = set<(nat, string)>

  /** An abstract value: possible objects, and whether it may be any value the host knows. */
  datatype Abs = Abs(any: bool, objects: set<nat>)

  const NOTHING := Abs(false, {})
  const ANY := Abs(true, {})

  /** The analysis knows nothing of strings; facts that do give them the first number no object has. */
  function Text(p: Package): nat {
    |p.objects|
  }

  function One(o: nat): Abs {
    Abs(false, {o})
  }

  function Join(a: Abs, b: Abs): Abs {
    Abs(a.any || b.any, a.objects + b.objects)
  }

  function At(facts: Facts, place: Place): (a: Abs)
    ensures a.any <==> MayBeAny(place) in facts
    ensures forall o :: o in a.objects <==> MayHold(place, o) in facts
  {
    var held := set f | f in facts && f.MayHold? && f.place == place :: f.item;
    assert forall o :: MayHold(place, o) in facts ==> MayHold(place, o).item in held;
    Abs(MayBeAny(place) in facts, held)
  }

  // ----- the value of an expression -----

  /** A string key of object `o` reads its field and its computed entries. */
  function FieldAt(facts: Facts, o: nat, key: string): Abs {
    Join(At(facts, OfField(o, key)), At(facts, OfEntries(o)))
  }

  predicate FieldAny(p: Package, facts: Facts, o: nat, key: string) {
    o < |p.objects| && (IsFunction(p, o) || Escaped(o) in facts || FieldAt(facts, o, key).any)
  }

  predicate IsFieldOf(p: Package, place: Place, objects: set<nat>, key: string) {
    || (place.OfField? && place.o in objects && !IsFunction(p, place.o) && place.key == key)
    || (place.OfEntries? && place.o in objects && !IsFunction(p, place.o))
  }

  function FieldOf(p: Package, facts: Facts, base: Abs, key: string): Abs {
    Abs(base.any || exists o :: o in base.objects && FieldAny(p, facts, o, key),
        set f | f in facts && f.MayHold? && IsFieldOf(p, f.place, base.objects, key) :: f.item)
  }

  predicate IsEntryOf(place: Place, objects: set<nat>) {
    (place.OfField? || place.OfEntries?) && place.o in objects
  }

  function EntryOf(facts: Facts, base: Abs): Abs {
    Abs(true, set f | f in facts && f.MayHold? && IsEntryOf(f.place, base.objects) :: f.item)
  }

  predicate ResultAny(p: Package, facts: Facts, o: nat) {
    o < |p.objects| && (!IsFunction(p, o) || MayBeAny(OfReturn(o)) in facts)
  }

  predicate IsResultOf(p: Package, place: Place, objects: set<nat>) {
    place.OfReturn? && place.o in objects && IsFunction(p, place.o)
  }

  function ResultOf(p: Package, facts: Facts, func: Abs): Abs {
    Abs(func.any || exists o :: o in func.objects && ResultAny(p, facts, o),
        set f | f in facts && f.MayHold? && IsResultOf(p, f.place, func.objects) :: f.item)
  }

  function ModuleValue(p: Package, facts: Facts, name: string): Abs {
    var m := FindModule(p, name, 0);
    if m.None? then ANY else At(facts, OfModule(m.value))
  }

  /** What an expression may evaluate to. */
  function Meaning(p: Package, facts: Facts, e: Expr): Abs {
    match e
    case Const(prim) => if prim.Str? then At(facts, OfText) else NOTHING
    case Local(x) => At(facts, OfLocal(x))
    case Global(_) => ANY
    case Function(id) => One(id)
    case Table(id, _) => One(id)
    case Index(base, key) => FieldOf(p, facts, Meaning(p, facts, base), key)
    case IndexBy(base, _) => EntryOf(facts, Meaning(p, facts, base))
    case Require(name) => ModuleValue(p, facts, name)
    case Call(func, _) => ResultOf(p, facts, Meaning(p, facts, func))
    case And(left, right) => Join(Meaning(p, facts, left), Meaning(p, facts, right))
    case Or(left, right) => Join(Meaning(p, facts, left), Meaning(p, facts, right))
    case Binary(_, _, _) => ANY
    case Not(_) => ANY
    case Len(_) => ANY
    case IfElse(_, yes, no) => Join(Meaning(p, facts, yes), Meaning(p, facts, no))
  }

  function Meanings(p: Package, facts: Facts, args: Exprs): seq<Abs> {
    if args.NoArgs? then [] else [Meaning(p, facts, args.head)] + Meanings(p, facts, args.rest)
  }

  // ----- closed facts -----

  ghost predicate Flows(facts: Facts, a: Abs, place: Place) {
    (a.any ==> MayBeAny(place) in facts) && forall o :: o in a.objects ==> MayHold(place, o) in facts
  }

  ghost predicate Observes(facts: Facts, a: Abs) {
    forall o :: o in a.objects ==> Observed(o) in facts
  }

  ghost predicate Escapes(facts: Facts, a: Abs) {
    forall o :: o in a.objects ==> Escaped(o) in facts
  }

  /** A value stored into one object: a table's place takes it, a function hands it to the host. */
  ghost predicate StoredIn(p: Package, facts: Facts, o: nat, place: Place, a: Abs) {
    o < |p.objects| ==> if IsFunction(p, o) then Escapes(facts, a) else Flows(facts, a, place)
  }

  ghost predicate Stored(p: Package, facts: Facts, base: Abs, key: string, a: Abs) {
    && (base.any ==> Escapes(facts, a))
    && forall o :: o in base.objects ==> StoredIn(p, facts, o, OfField(o, key), a)
  }

  ghost predicate StoredByKey(p: Package, facts: Facts, base: Abs, a: Abs) {
    && (base.any ==> Escapes(facts, a))
    && forall o :: o in base.objects ==> StoredIn(p, facts, o, OfEntries(o), a)
  }

  ghost predicate ReadBy(seen: ReadKeys, base: Abs, key: string) {
    forall o :: o in base.objects ==> (o, key) in seen
  }

  ghost predicate ArgsEscape(facts: Facts, args: seq<Abs>) {
    forall k :: 0 <= k < |args| ==> Escapes(facts, args[k])
  }

  ghost predicate ArgsFlow(facts: Facts, args: seq<Abs>, params: seq<nat>) {
    forall k :: 0 <= k < |args| && k < |params| ==> Flows(facts, args[k], OfLocal(params[k]))
  }

  /** Calling one object: a function runs with the arguments, anything else is the host's business. */
  ghost predicate CalledObject(p: Package, facts: Facts, o: nat, args: seq<Abs>) {
    o < |p.objects| ==>
      if IsFunction(p, o) then Active(o) in facts && ArgsFlow(facts, args, p.objects[o].params)
      else Escaped(o) in facts && ArgsEscape(facts, args)
  }

  ghost predicate Called(p: Package, facts: Facts, func: Abs, args: seq<Abs>) {
    && (func.any ==> ArgsEscape(facts, args))
    && forall o :: o in func.objects ==> CalledObject(p, facts, o, args)
  }

  /** Names that make the analysis give up. */
  predicate Refused(name: string) {
    name == "require" || name == "getfenv" || name == "setfenv" || name == "loadstring"
  }

  ghost predicate SettledE(p: Package, facts: Facts, seen: ReadKeys, e: Expr)
    decreases e
  {
    match e
    case Const(_) => true
    case Local(_) => true
    case Global(name) => !Refused(name)
    case Function(_) => true
    case Table(id, items) => SettledItems(p, facts, seen, id, items)
    case Index(base, key) =>
      && SettledE(p, facts, seen, base) && ReadBy(seen, Meaning(p, facts, base), key)
      && Observes(facts, Meaning(p, facts, e))
    case IndexBy(base, index) =>
      && SettledE(p, facts, seen, base) && SettledE(p, facts, seen, index)
      && Escapes(facts, Meaning(p, facts, base)) && Escapes(facts, Meaning(p, facts, index))
    case Require(_) => true
    case Call(func, args) =>
      && SettledE(p, facts, seen, func) && SettledArgs(p, facts, seen, args)
      && Called(p, facts, Meaning(p, facts, func), Meanings(p, facts, args))
    case And(left, right) => SettledE(p, facts, seen, left) && SettledE(p, facts, seen, right)
    case Or(left, right) => SettledE(p, facts, seen, left) && SettledE(p, facts, seen, right)
    case Binary(_, left, right) =>
      && SettledE(p, facts, seen, left) && SettledE(p, facts, seen, right)
      && Observes(facts, Meaning(p, facts, left)) && Observes(facts, Meaning(p, facts, right))
    case Not(arg) => SettledE(p, facts, seen, arg) && Observes(facts, Meaning(p, facts, arg))
    case Len(arg) => SettledE(p, facts, seen, arg) && Escapes(facts, Meaning(p, facts, arg))
    case IfElse(cond, yes, no) =>
      && SettledE(p, facts, seen, cond) && Observes(facts, Meaning(p, facts, cond))
      && SettledE(p, facts, seen, yes) && SettledE(p, facts, seen, no)
  }

  ghost predicate SettledArgs(p: Package, facts: Facts, seen: ReadKeys, args: Exprs)
    decreases args
  {
    args.Arg? ==> SettledE(p, facts, seen, args.head) && SettledArgs(p, facts, seen, args.rest)
  }

  ghost predicate SettledItems(p: Package, facts: Facts, seen: ReadKeys, id: nat, items: Items)
    decreases items
  {
    match items
    case NoItems => true
    case Field(key, value, rest) =>
      && SettledE(p, facts, seen, value) && Stored(p, facts, One(id), key, Meaning(p, facts, value))
      && SettledItems(p, facts, seen, id, rest)
    case Entry(index, value, rest) =>
      && SettledE(p, facts, seen, value) && SettledE(p, facts, seen, index)
      && Escapes(facts, Meaning(p, facts, index)) && StoredByKey(p, facts, One(id), Meaning(p, facts, value))
      && SettledItems(p, facts, seen, id, rest)
  }

  /** Assigning a value to a target. */
  ghost predicate SettledT(p: Package, facts: Facts, seen: ReadKeys, t: Target, a: Abs) {
    match t
    case ToLocal(x) => Flows(facts, a, OfLocal(x))
    case ToField(base, key) => SettledE(p, facts, seen, base) && Stored(p, facts, Meaning(p, facts, base), key, a)
    case ToEntry(base, index) =>
      && SettledE(p, facts, seen, base) && SettledE(p, facts, seen, index)
      && Escapes(facts, Meaning(p, facts, index)) && StoredByKey(p, facts, Meaning(p, facts, base), a)
    case ToGlobal(_) => false
  }

  /** The statement's effects are all in the facts; returned values go to `home`. */
  ghost predicate SettledS(p: Package, facts: Facts, seen: ReadKeys, home: Place, s: Stmt)
    decreases s
  {
    match s
    case Skip => true
    case Then(first, second) => SettledS(p, facts, seen, home, first) && SettledS(p, facts, seen, home, second)
    case Declare(x, value) => SettledE(p, facts, seen, value) && Flows(facts, Meaning(p, facts, value), OfLocal(x))
    case LocalFunction(x, id) => Flows(facts, One(id), OfLocal(x))
    case FunctionAt(target, id) => SettledT(p, facts, seen, target, One(id))
    case Assign(target, value) =>
      SettledE(p, facts, seen, value) && SettledT(p, facts, seen, target, Meaning(p, facts, value))
    case Return(value) => SettledE(p, facts, seen, value) && Flows(facts, Meaning(p, facts, value), home)
    case Do(value) => SettledE(p, facts, seen, value) && Observes(facts, Meaning(p, facts, value))
    case If(cond, yes, no) =>
      && SettledE(p, facts, seen, cond) && Observes(facts, Meaning(p, facts, cond))
      && SettledS(p, facts, seen, home, yes) && SettledS(p, facts, seen, home, no)
    case While(cond, body) =>
      && SettledE(p, facts, seen, cond) && Observes(facts, Meaning(p, facts, cond))
      && SettledS(p, facts, seen, home, body)
  }

  /** What the host can do with an object it holds: call a function with anything, read a table. */
  ghost predicate HostUses(p: Package, facts: Facts, o: nat)
    requires o < |p.objects|
  {
    match p.objects[o]
    case Closure(_, params, _) =>
      && Active(o) in facts && Escapes(facts, At(facts, OfReturn(o)))
      && forall k :: 0 <= k < |params| ==> MayBeAny(OfLocal(params[k])) in facts
    case TableSite =>
      forall f :: f in facts && f.MayHold? && IsEntryOf(f.place, {o}) ==> Escaped(f.item) in facts
  }

  ghost predicate SettledObject(p: Package, facts: Facts, seen: ReadKeys, o: nat)
    requires o < |p.objects|
  {
    && (Escaped(o) in facts ==> HostUses(p, facts, o))
    && (IsFunction(p, o) && Active(o) in facts ==> SettledS(p, facts, seen, OfReturn(o), p.objects[o].body))
  }

  /** The facts are closed under every transfer rule. */
  ghost predicate PostFixpoint(p: Package, facts: Facts, seen: ReadKeys)
    requires p.entry < |p.modules|
  {
    && (forall m :: 0 <= m < |p.modules| ==> SettledS(p, facts, seen, OfModule(m), p.modules[m].body))
    && Escapes(facts, At(facts, OfModule(p.entry)))
    && forall o :: 0 <= o < |p.objects| ==> SettledObject(p, facts, seen, o)
  }

  // ----- more recorded keys keep everything settled -----

  lemma {:induction false} SettledEGrows(p: Package, facts: Facts, seen: ReadKeys, more: ReadKeys, e: Expr)
    requires seen <= more && SettledE(p, facts, seen, e)
    ensures SettledE(p, facts, more, e)
    decreases e
  {
    match e
    case Table(id, items) => SettledItemsGrows(p, facts, seen, more, id, items);
    case Index(base, _) => SettledEGrows(p, facts, seen, more, base);
    case IndexBy(base, index) => SettledEGrows(p, facts, seen, more, base); SettledEGrows(p, facts, seen, more, index);
    case Call(func, args) => SettledEGrows(p, facts, seen, more, func); SettledArgsGrows(p, facts, seen, more, args);
    case And(left, right) => SettledEGrows(p, facts, seen, more, left); SettledEGrows(p, facts, seen, more, right);
    case Or(left, right) => SettledEGrows(p, facts, seen, more, left); SettledEGrows(p, facts, seen, more, right);
    case Binary(_, left, right) => SettledEGrows(p, facts, seen, more, left); SettledEGrows(p, facts, seen, more, right);
    case Not(arg) => SettledEGrows(p, facts, seen, more, arg);
    case Len(arg) => SettledEGrows(p, facts, seen, more, arg);
    case IfElse(cond, yes, no) =>
      SettledEGrows(p, facts, seen, more, cond);
      SettledEGrows(p, facts, seen, more, yes);
      SettledEGrows(p, facts, seen, more, no);
    case _ =>
  }

  lemma {:induction false} SettledArgsGrows(p: Package, facts: Facts, seen: ReadKeys, more: ReadKeys, args: Exprs)
    requires seen <= more && SettledArgs(p, facts, seen, args)
    ensures SettledArgs(p, facts, more, args)
    decreases args
  {
    if args.Arg? {
      SettledEGrows(p, facts, seen, more, args.head);
      SettledArgsGrows(p, facts, seen, more, args.rest);
    }
  }

  lemma {:induction false} SettledItemsGrows(p: Package, facts: Facts, seen: ReadKeys, more: ReadKeys, id: nat, items: Items)
    requires seen <= more && SettledItems(p, facts, seen, id, items)
    ensures SettledItems(p, facts, more, id, items)
    decreases items
  {
    match items
    case NoItems =>
    case Field(_, value, rest) =>
      SettledEGrows(p, facts, seen, more, value);
      SettledItemsGrows(p, facts, seen, more, id, rest);
    case Entry(index, value, rest) =>
      SettledEGrows(p, facts, seen, more, index);
      SettledEGrows(p, facts, seen, more, value);
      SettledItemsGrows(p, facts, seen, more, id, rest);
  }

  lemma SettledTGrows(p: Package, facts: Facts, seen: ReadKeys, more: ReadKeys, t: Target, a: Abs)
    requires seen <= more && SettledT(p, facts, seen, t, a)
    ensures SettledT(p, facts, more, t, a)
  {
    match t
    case ToField(base, _) => SettledEGrows(p, facts, seen, more, base);
    case ToEntry(base, index) => SettledEGrows(p, facts, seen, more, base); SettledEGrows(p, facts, seen, more, index);
    case _ =>
  }

  lemma {:induction false} SettledSGrows(p: Package, facts: Facts, seen: ReadKeys, more: ReadKeys, home: Place, s: Stmt)
    requires seen <= more && SettledS(p, facts, seen, home, s)
    ensures SettledS(p, facts, more, home, s)
    decreases s
  {
    hide Meaning, Flows, Observes;
    match s
    case Skip =>
    case Then(first, second) =>
      SettledSGrows(p, facts, seen, more, home, first);
      SettledSGrows(p, facts, seen, more, home, second);
    case Declare(_, value) => SettledEGrows(p, facts, seen, more, value);
    case LocalFunction(_, _) =>
    case FunctionAt(target, id) => SettledTGrows(p, facts, seen, more, target, One(id));
    case Assign(target, value) =>
      SettledEGrows(p, facts, seen, more, value);
      SettledTGrows(p, facts, seen, more, target, Meaning(p, facts, value));
    case Return(value) => SettledEGrows(p, facts, seen, more, value);
    case Do(value) => SettledEGrows(p, facts, seen, more, value);
    case If(cond, yes, no) =>
      SettledEGrows(p, facts, seen, more, cond);
      SettledSGrows(p, facts, seen, more, home, yes);
      SettledSGrows(p, facts, seen, more, home, no);
    case While(cond, body) =>
      SettledEGrows(p, facts, seen, more, cond);
      SettledSGrows(p, facts, seen, more, home, body);
  }
}
