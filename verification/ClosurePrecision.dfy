/** How precise the analysis is: functions that are only put where nobody looks, in a field that is never read
    or in a local that is never read, are unused by its facts, whatever they do themselves. And of a local that
    is only tested or compared, the functions are not called. */
module ClosurePrecision {
  import opened PackageSyntax
  import opened ClosureFacts
  import opened FactOrder

  /** Where a function is put: under a key of the table that a local is initialised with, in a local that is
      not read, or in one that is only tested. */
  datatype Shelf = InField(x: nat, key: string) | InLocal(x: nat) | Tested(x: nat)

  type Shelves = map<nat, Shelf>

  /** Locals whose table holds shelved functions. */
  ghost function Holders(shelves: Shelves): (r: set<nat>)
    ensures forall g :: g in shelves && shelves[g].InField? ==> shelves[g].x in r
  {
    set g | g in shelves && shelves[g].InField? :: shelves[g].x
  }

  /** Locals that hold shelved functions themselves. */
  ghost function Lockers(shelves: Shelves): (r: set<nat>)
    ensures forall g :: g in shelves && !shelves[g].InField? ==> shelves[g].x in r
  {
    set g | g in shelves && !shelves[g].InField? :: shelves[g].x
  }

  /** The expression is such a local, and may be tested. */
  ghost predicate Peeks(shelves: Shelves, e: Expr) {
    e.Local? && e.x !in Holders(shelves) && forall g :: g in shelves ==> shelves[g] != InLocal(e.x)
  }

  /** The table a local is initialised with. */
  function Site(p: Package, x: nat): nat {
    if x in p.initial && p.initial[x].Table? then p.initial[x].id else |p.objects|
  }

  ghost predicate IsSite(p: Package, shelves: Shelves, o: nat) {
    exists x :: x in Holders(shelves) && Site(p, x) == o
  }

  /** Some function is shelved under this key of this table. */
  ghost predicate Shelved(p: Package, shelves: Shelves, o: nat, key: string) {
    exists g :: g in shelves && shelves[g].InField? && Site(p, shelves[g].x) == o && shelves[g].key == key
  }

  /** A shelved function or a table of shelves. */
  ghost predicate Secret(p: Package, shelves: Shelves, o: nat) {
    o in shelves || IsSite(p, shelves, o)
  }

  function PlaceOf(p: Package, shelf: Shelf): Place {
    if shelf.InField? then OfField(Site(p, shelf.x), shelf.key) else OfLocal(shelf.x)
  }

  function TargetOf(shelf: Shelf): Target {
    if shelf.InField? then ToField(Expr.Local(shelf.x), shelf.key) else ToLocal(shelf.x)
  }

  // ----- code that leaves the shelves alone -----

  /** The expression neither names a shelved function or a table of shelves nor reads a shelf. */
  ghost predicate ClearE(p: Package, shelves: Shelves, e: Expr)
    decreases e, 0
  {
    match e
    case Const(_) => true
    case Local(x) => x !in Holders(shelves) && x !in Lockers(shelves)
    case Global(_) => true
    case Function(id) => !Secret(p, shelves, id)
    case Table(id, items) => !Secret(p, shelves, id) && ClearItems(p, shelves, items)
    case Index(base, key) =>
      if base.Local? && base.x in Holders(shelves) then !Shelved(p, shelves, Site(p, base.x), key) else ClearE(p, shelves, base)
    case IndexBy(base, index) => ClearE(p, shelves, base) && ClearE(p, shelves, index)
    case Require(_) => true
    case Call(func, args) => ClearE(p, shelves, func) && ClearArgs(p, shelves, args)
    case And(left, right) => ClearE(p, shelves, left) && ClearE(p, shelves, right)
    case Or(left, right) => ClearE(p, shelves, left) && ClearE(p, shelves, right)
    case Binary(_, left, right) => ClearO(p, shelves, left) && ClearO(p, shelves, right)
    case Not(arg) => ClearO(p, shelves, arg)
    case Len(arg) => ClearE(p, shelves, arg)
    case IfElse(cond, yes, no) => ClearO(p, shelves, cond) && ClearE(p, shelves, yes) && ClearE(p, shelves, no)
  }

  /** An expression whose value is only observed. */
  ghost predicate ClearO(p: Package, shelves: Shelves, e: Expr)
    decreases e, 1
  {
    Peeks(shelves, e) || ClearE(p, shelves, e)
  }

  ghost predicate ClearArgs(p: Package, shelves: Shelves, args: Exprs)
    decreases args
  {
    args.Arg? ==> ClearE(p, shelves, args.head) && ClearArgs(p, shelves, args.rest)
  }

  ghost predicate ClearItems(p: Package, shelves: Shelves, items: Items)
    decreases items
  {
    match items
    case NoItems => true
    case Field(_, value, rest) => ClearE(p, shelves, value) && ClearItems(p, shelves, rest)
    case Entry(index, value, rest) => ClearE(p, shelves, index) && ClearE(p, shelves, value) && ClearItems(p, shelves, rest)
  }

  /** Anything may be stored into a table of shelves under a constant key. */
  ghost predicate ClearT(p: Package, shelves: Shelves, t: Target) {
    match t
    case ToLocal(x) => x !in Holders(shelves)
    case ToField(base, _) => (base.Local? && base.x in Holders(shelves)) || ClearE(p, shelves, base)
    case ToEntry(base, index) => ClearE(p, shelves, base) && ClearE(p, shelves, index)
    case ToGlobal(_) => true
  }

  /** A shelved function goes to its shelf, any other value anywhere but to a table's holder. */
  ghost predicate ClearStore(p: Package, shelves: Shelves, t: Target, value: Expr) {
    if value.Function? && value.id in shelves then t == TargetOf(shelves[value.id])
    else ClearE(p, shelves, value) && ClearT(p, shelves, t)
  }

  ghost predicate ClearS(p: Package, shelves: Shelves, s: Stmt)
    decreases s
  {
    match s
    case Skip => true
    case Then(first, second) => ClearS(p, shelves, first) && ClearS(p, shelves, second)
    case Declare(x, value) =>
      if x in Holders(shelves) then value.Table? && value.id == Site(p, x) && ClearItems(p, shelves, value.items)
      else ClearStore(p, shelves, ToLocal(x), value)
    case LocalFunction(x, id) => x !in Holders(shelves) && ClearStore(p, shelves, ToLocal(x), Function(id))
    case FunctionAt(target, id) => ClearStore(p, shelves, target, Function(id))
    case Assign(target, value) => ClearStore(p, shelves, target, value)
    case Return(value) => ClearE(p, shelves, value)
    case Do(value) => ClearO(p, shelves, value)
    case If(cond, yes, no) => ClearO(p, shelves, cond) && ClearS(p, shelves, yes) && ClearS(p, shelves, no)
    case While(cond, body) => ClearO(p, shelves, cond) && ClearS(p, shelves, body)
  }

  ghost predicate ShelfFits(p: Package, shelves: Shelves, g: nat)
    requires g in shelves
  {
    && IsFunction(p, g)
    && match shelves[g]
       case InField(x, _) => x !in p.reassigned && Site(p, x) < |p.objects| && p.objects[Site(p, x)].TableSite?
       case InLocal(x) => x !in Holders(shelves)
       case Tested(x) => x !in Holders(shelves)
  }

  /** The functions are only put on their shelves, and nothing outside their own bodies looks there but to test. */
  ghost predicate OnlyShelved(p: Package, shelves: Shelves) {
    && (forall g :: g in shelves ==> ShelfFits(p, shelves, g))
    && (forall m :: 0 <= m < |p.modules| ==> ClearS(p, shelves, p.modules[m].body))
    && forall o :: 0 <= o < |p.objects| && o !in shelves && p.objects[o].Closure? ==> ClearBody(p, shelves, o)
  }

  ghost predicate ClearBody(p: Package, shelves: Shelves, o: nat)
    requires o < |p.objects| && p.objects[o].Closure?
  {
    && (forall k :: 0 <= k < |p.objects[o].params| ==> p.objects[o].params[k] !in Holders(shelves))
    && ClearS(p, shelves, p.objects[o].body)
  }

  // ----- facts without the shelves -----

  /** A secret rests only where it is put, and a holder holds only its table. */
  ghost predicate Plausible(p: Package, shelves: Shelves, f: Fact) {
    match f
    case MayHold(place, o) =>
      && (o in shelves ==> place == PlaceOf(p, shelves[o]))
      && (IsSite(p, shelves, o) ==> place.OfLocal? && place.x in Holders(shelves))
      && (place.OfLocal? && place.x in Holders(shelves) ==> o == Site(p, place.x))
    case MayBeAny(place) => !(place.OfLocal? && place.x in Holders(shelves))
    case Active(o) => !Secret(p, shelves, o)
    case Observed(o) => !Secret(p, shelves, o) || (o in shelves && shelves[o].Tested?)
    case Escaped(o) => !Secret(p, shelves, o)
  }

  ghost function Without(p: Package, shelves: Shelves, facts: Facts): (r: Facts)
    ensures r <= facts && forall f :: f in r <==> f in facts && Plausible(p, shelves, f)
  {
    set f | f in facts && Plausible(p, shelves, f)
  }

  ghost function WithoutKeys(p: Package, shelves: Shelves, seen: ReadKeys): (r: ReadKeys)
    ensures r <= seen && forall o, key :: (o, key) in r <==> (o, key) in seen && !Shelved(p, shelves, o, key)
  {
    set read | read in seen && !Shelved(p, shelves, read.0, read.1)
  }

  /** No secret among the values. */
  ghost predicate Clean(p: Package, shelves: Shelves, a: Abs) {
    forall o :: o in a.objects ==> !Secret(p, shelves, o)
  }

  /** Facts before and after, in a package with shelves. */
  datatype View = View(p: Package, shelves: Shelves, facts: Facts, seen: ReadKeys)

  ghost function Now(v: View): Facts { Without(v.p, v.shelves, v.facts) }
  ghost function Read(v: View): ReadKeys { WithoutKeys(v.p, v.shelves, v.seen) }

  /** Of secrets nothing is left but where they are put. */
  lemma HeldMeans(v: View, place: Place, o: nat)
    requires MayHold(place, o) in Now(v)
    ensures o in v.shelves ==> place == PlaceOf(v.p, v.shelves[o])
    ensures IsSite(v.p, v.shelves, o) ==> place.OfLocal? && place.x in Holders(v.shelves)
    ensures place.OfLocal? && place.x in Holders(v.shelves) ==> o == Site(v.p, place.x)
  {
    assert Plausible(v.p, v.shelves, MayHold(place, o));
  }

  ghost predicate Shelving(v: View) {
    forall g :: g in v.shelves ==> ShelfFits(v.p, v.shelves, g)
  }

  /** Places that are neither locals with shelves nor fields of tables with shelves hold no secrets. */
  lemma PlaceClean(v: View, place: Place)
    requires Shelving(v)
    requires place.OfLocal? ==> place.x !in Holders(v.shelves) && place.x !in Lockers(v.shelves)
    requires place.OfField? ==> !Shelved(v.p, v.shelves, place.o, place.key)
    ensures Clean(v.p, v.shelves, At(Now(v), place))
  {
    forall o | o in At(Now(v), place).objects ensures !Secret(v.p, v.shelves, o) {
      HeldMeans(v, place, o);
    }
  }

  lemma FieldsClean(v: View, base: Abs, key: string)
    requires Shelving(v) && forall o :: o in base.objects ==> !Shelved(v.p, v.shelves, o, key)
    ensures Clean(v.p, v.shelves, FieldOf(v.p, Now(v), base, key))
  {
    forall o | o in FieldOf(v.p, Now(v), base, key).objects ensures !Secret(v.p, v.shelves, o) {
      var f :| f in Now(v) && f.MayHold? && IsFieldOf(v.p, f.place, base.objects, key) && f.item == o;
      HeldMeans(v, f.place, o);
    }
  }

  lemma SitesKnown(v: View)
    ensures forall g :: g in v.shelves && v.shelves[g].InField? ==> IsSite(v.p, v.shelves, Site(v.p, v.shelves[g].x))
  {
  }

  lemma EntriesClean(v: View, base: Abs)
    requires Shelving(v) && Clean(v.p, v.shelves, base)
    ensures Clean(v.p, v.shelves, EntryOf(Now(v), base))
  {
    SitesKnown(v);
    forall o | o in EntryOf(Now(v), base).objects ensures !Secret(v.p, v.shelves, o) {
      var f :| f in Now(v) && f.MayHold? && IsEntryOf(f.place, base.objects) && f.item == o;
      HeldMeans(v, f.place, o);
    }
  }

  lemma ResultsClean(v: View, func: Abs)
    requires Shelving(v)
    ensures Clean(v.p, v.shelves, ResultOf(v.p, Now(v), func))
  {
    forall o | o in ResultOf(v.p, Now(v), func).objects ensures !Secret(v.p, v.shelves, o) {
      var f :| f in Now(v) && f.MayHold? && IsResultOf(v.p, f.place, func.objects) && f.item == o;
      HeldMeans(v, f.place, o);
    }
  }

  lemma SiteOfShelf(v: View, o: nat, key: string)
    requires Shelved(v.p, v.shelves, o, key)
    ensures Secret(v.p, v.shelves, o)
  {
    var g :| g in v.shelves && v.shelves[g].InField? && Site(v.p, v.shelves[g].x) == o && v.shelves[g].key == key;
    assert v.shelves[g].x in Holders(v.shelves);
  }

  lemma HolderValue(v: View, x: nat)
    requires x in Holders(v.shelves)
    ensures var a := At(Now(v), OfLocal(x)); !a.any && forall o :: o in a.objects ==> o == Site(v.p, x)
  {
    assert !Plausible(v.p, v.shelves, MayBeAny(OfLocal(x)));
    forall o | o in At(Now(v), OfLocal(x)).objects ensures o == Site(v.p, x) {
      HeldMeans(v, OfLocal(x), o);
    }
  }

  /** A function is no table. */
  lemma SitesAreTables(v: View, o: nat)
    requires Shelving(v) && IsSite(v.p, v.shelves, o)
    ensures o !in v.shelves && o < |v.p.objects| && !IsFunction(v.p, o)
  {
    var x :| x in Holders(v.shelves) && Site(v.p, x) == o;
    var g :| g in v.shelves && v.shelves[g].InField? && v.shelves[g].x == x;
    assert ShelfFits(v.p, v.shelves, g);
  }

  /** Clear expressions evaluate to no secrets. */
  lemma {:induction false} ValueClean(v: View, e: Expr)
    requires Shelving(v) && ClearE(v.p, v.shelves, e)
    ensures Clean(v.p, v.shelves, Meaning(v.p, Now(v), e))
    decreases e
  {
    hide FieldOf, EntryOf, ResultOf, At, Now, Shelving, Shelved, IsSite;
    match e
    case Const(_) => PlaceClean(v, OfText);
    case Local(x) => PlaceClean(v, OfLocal(x));
    case Index(base, key) =>
      if base.Local? && base.x in Holders(v.shelves) {
        HolderValue(v, base.x);
      } else {
        ValueClean(v, base);
        forall o | o in Meaning(v.p, Now(v), base).objects ensures !Shelved(v.p, v.shelves, o, key) {
          if Shelved(v.p, v.shelves, o, key) {
            SiteOfShelf(v, o, key);
          }
        }
      }
      FieldsClean(v, Meaning(v.p, Now(v), base), key);
    case IndexBy(base, _) =>
      ValueClean(v, base);
      EntriesClean(v, Meaning(v.p, Now(v), base));
    case Require(name) =>
      var m := FindModule(v.p, name, 0);
      if m.Some? {
        PlaceClean(v, OfModule(m.value));
      }
    case Call(func, _) => ResultsClean(v, Meaning(v.p, Now(v), func));
    case And(left, right) => ValueClean(v, left); ValueClean(v, right);
    case Or(left, right) => ValueClean(v, left); ValueClean(v, right);
    case IfElse(_, yes, no) => ValueClean(v, yes); ValueClean(v, no);
    case _ =>
  }

  // ----- closed facts stay closed without the shelves -----

  /** What the value of an expression becomes: fewer objects, none of them secret. */
  ghost predicate Less(v: View, a: Abs, b: Abs) {
    Le(a, b) && Clean(v.p, v.shelves, a)
  }

  lemma ValueLess(v: View, e: Expr)
    requires Shelving(v) && ClearE(v.p, v.shelves, e)
    ensures Less(v, Meaning(v.p, Now(v), e), Meaning(v.p, v.facts, e))
  {
    ValueClean(v, e);
    MeaningGrows(v.p, Now(v), v.facts, e);
  }

  lemma FlowsOn(v: View, a: Abs, b: Abs, place: Place)
    requires Less(v, a, b) && Flows(v.facts, b, place) && (place.OfLocal? ==> place.x !in Holders(v.shelves))
    ensures Flows(Now(v), a, place)
  {
    assert a.any ==> Plausible(v.p, v.shelves, MayBeAny(place));
    forall o | o in a.objects ensures MayHold(place, o) in Now(v) {
      assert Plausible(v.p, v.shelves, MayHold(place, o));
    }
  }

  lemma ObservesOn(v: View, a: Abs, b: Abs)
    requires Less(v, a, b) && Observes(v.facts, b)
    ensures Observes(Now(v), a)
  {
    forall o | o in a.objects ensures Observed(o) in Now(v) {
      assert Plausible(v.p, v.shelves, Observed(o));
    }
  }

  lemma EscapesOn(v: View, a: Abs, b: Abs)
    requires Less(v, a, b) && Escapes(v.facts, b)
    ensures Escapes(Now(v), a)
  {
    forall o | o in a.objects ensures Escaped(o) in Now(v) {
      assert Plausible(v.p, v.shelves, Escaped(o));
    }
  }

  lemma ReadOn(v: View, a: Abs, b: Abs, key: string)
    requires Less(v, a, b) && ReadBy(v.seen, b, key)
    ensures ReadBy(Read(v), a, key)
  {
    forall o | o in a.objects ensures (o, key) in Read(v) {
      if Shelved(v.p, v.shelves, o, key) {
        SiteOfShelf(v, o, key);
      }
    }
  }

  lemma StoredInOn(v: View, o: nat, place: Place, a: Abs, b: Abs)
    requires Less(v, a, b) && StoredIn(v.p, v.facts, o, place, b) && !place.OfLocal?
    ensures StoredIn(v.p, Now(v), o, place, a)
  {
    if o < |v.p.objects| {
      if IsFunction(v.p, o) {
        EscapesOn(v, a, b);
      } else {
        FlowsOn(v, a, b, place);
      }
    }
  }

  lemma StoredOn(v: View, base: Abs, above: Abs, key: string, a: Abs, b: Abs)
    requires Le(base, above) && Less(v, a, b) && Stored(v.p, v.facts, above, key, b)
    ensures Stored(v.p, Now(v), base, key, a)
  {
    hide StoredIn;
    if base.any {
      EscapesOn(v, a, b);
    }
    forall o | o in base.objects ensures StoredIn(v.p, Now(v), o, OfField(o, key), a) {
      StoredInOn(v, o, OfField(o, key), a, b);
    }
  }

  lemma StoredByKeyOn(v: View, base: Abs, above: Abs, a: Abs, b: Abs)
    requires Le(base, above) && Less(v, a, b) && StoredByKey(v.p, v.facts, above, b)
    ensures StoredByKey(v.p, Now(v), base, a)
  {
    hide StoredIn;
    if base.any {
      EscapesOn(v, a, b);
    }
    forall o | o in base.objects ensures StoredIn(v.p, Now(v), o, OfEntries(o), a) {
      StoredInOn(v, o, OfEntries(o), a, b);
    }
  }

  ghost predicate AllLess(v: View, a: seq<Abs>, b: seq<Abs>) {
    |a| == |b| && forall k :: 0 <= k < |a| ==> Less(v, a[k], b[k])
  }

  lemma {:induction false} ArgsLess(v: View, args: Exprs)
    requires Shelving(v) && ClearArgs(v.p, v.shelves, args)
    ensures AllLess(v, Meanings(v.p, Now(v), args), Meanings(v.p, v.facts, args))
    decreases args
  {
    hide Less, Shelving;
    if args.Arg? {
      ValueLess(v, args.head);
      ArgsLess(v, args.rest);
    }
  }

  lemma ArgsEscapeOn(v: View, a: seq<Abs>, b: seq<Abs>)
    requires AllLess(v, a, b) && ArgsEscape(v.facts, b)
    ensures ArgsEscape(Now(v), a)
  {
    forall k | 0 <= k < |a| ensures Escapes(Now(v), a[k]) {
      EscapesOn(v, a[k], b[k]);
    }
  }

  /** Parameters of functions that are not shelved are no holders. */
  ghost predicate ParamsClear(v: View) {
    forall o, k :: 0 <= o < |v.p.objects| && o !in v.shelves && IsFunction(v.p, o) && 0 <= k < |v.p.objects[o].params| ==>
      v.p.objects[o].params[k] !in Holders(v.shelves)
  }

  lemma CalledObjectOn(v: View, o: nat, a: seq<Abs>, b: seq<Abs>)
    requires ParamsClear(v) && !Secret(v.p, v.shelves, o) && AllLess(v, a, b) && CalledObject(v.p, v.facts, o, b)
    ensures CalledObject(v.p, Now(v), o, a)
  {
    if o < |v.p.objects| {
      assert Plausible(v.p, v.shelves, Active(o)) && Plausible(v.p, v.shelves, Escaped(o));
      if IsFunction(v.p, o) {
        var params := v.p.objects[o].params;
        forall k | 0 <= k < |a| && k < |params| ensures Flows(Now(v), a[k], OfLocal(params[k])) {
          FlowsOn(v, a[k], b[k], OfLocal(params[k]));
        }
      } else {
        ArgsEscapeOn(v, a, b);
      }
    }
  }

  lemma CalledOn(v: View, func: Abs, above: Abs, a: seq<Abs>, b: seq<Abs>)
    requires ParamsClear(v) && Less(v, func, above) && AllLess(v, a, b) && Called(v.p, v.facts, above, b)
    ensures Called(v.p, Now(v), func, a)
  {
    hide CalledObject;
    if func.any {
      ArgsEscapeOn(v, a, b);
    }
    forall o | o in func.objects ensures CalledObject(v.p, Now(v), o, a) {
      CalledObjectOn(v, o, a, b);
    }
  }

  ghost predicate Usable(v: View) {
    Shelving(v) && ParamsClear(v)
  }

  /** Reading a field of a holder's table. */
  lemma HolderReads(v: View, x: nat, key: string)
    requires x in Holders(v.shelves) && !Shelved(v.p, v.shelves, Site(v.p, x), key) && ReadBy(v.seen, At(v.facts, OfLocal(x)), key)
    ensures ReadBy(Read(v), At(Now(v), OfLocal(x)), key)
  {
    HolderValue(v, x);
  }

  lemma IndexOn(v: View, e: Expr)
    requires Usable(v) && e.Index? && ClearE(v.p, v.shelves, e) && SettledE(v.p, v.facts, v.seen, e)
    requires SettledE(v.p, Now(v), Read(v), e.base)
    ensures SettledE(v.p, Now(v), Read(v), e)
  {
    hide Meaning, Shelved, Read, Now, Usable, ClearE;
    ExprLess(v, e);
    ObservesOn(v, Meaning(v.p, Now(v), e), Meaning(v.p, v.facts, e));
    IndexReads(v, e);
  }

  lemma ExprLess(v: View, e: Expr)
    requires Usable(v) && ClearE(v.p, v.shelves, e)
    ensures Less(v, Meaning(v.p, Now(v), e), Meaning(v.p, v.facts, e))
  {
    ValueLess(v, e);
  }

  lemma IndexReads(v: View, e: Expr)
    requires Usable(v) && e.Index? && ClearE(v.p, v.shelves, e) && ReadBy(v.seen, Meaning(v.p, v.facts, e.base), e.key)
    ensures ReadBy(Read(v), Meaning(v.p, Now(v), e.base), e.key)
  {
    hide ReadBy, Read, Now;
    if e.base.Local? && e.base.x in Holders(v.shelves) {
      HolderReads(v, e.base.x, e.key);
    } else {
      ValueLess(v, e.base);
      ReadOn(v, Meaning(v.p, Now(v), e.base), Meaning(v.p, v.facts, e.base), e.key);
    }
  }

  /** Clear expressions stay settled. */
  lemma {:induction false} SettledOnE(v: View, e: Expr)
    requires Usable(v) && ClearE(v.p, v.shelves, e) && SettledE(v.p, v.facts, v.seen, e)
    ensures SettledE(v.p, Now(v), Read(v), e)
    decreases e, 0
  {
    hide Meaning, Meanings, Now, Read, Usable, Less, AllLess, Called, Observes, Escapes, Holders, Lockers, Secret, Shelved, Peeks;
    match e
    case Table(id, items) => SettledOnItems(v, id, items);
    case Index(base, _) =>
      if !base.Local? {
        SettledOnE(v, base);
      }
      IndexOn(v, e);
    case IndexBy(base, index) =>
      SettledOnE(v, base);
      SettledOnE(v, index);
      ExprLess(v, base);
      ExprLess(v, index);
      EscapesOn(v, Meaning(v.p, Now(v), base), Meaning(v.p, v.facts, base));
      EscapesOn(v, Meaning(v.p, Now(v), index), Meaning(v.p, v.facts, index));
    case Call(func, args) =>
      SettledOnE(v, func);
      SettledOnArgs(v, args);
      CallOn(v, func, args);
    case And(left, right) => SettledOnE(v, left); SettledOnE(v, right);
    case Or(left, right) => SettledOnE(v, left); SettledOnE(v, right);
    case Binary(_, left, right) =>
      SettledOnO(v, left);
      SettledOnO(v, right);
      ObservedOn(v, left);
      ObservedOn(v, right);
    case Not(arg) => SettledOnO(v, arg); ObservedOn(v, arg);
    case Len(arg) =>
      SettledOnE(v, arg);
      ExprLess(v, arg);
      EscapesOn(v, Meaning(v.p, Now(v), arg), Meaning(v.p, v.facts, arg));
    case IfElse(cond, yes, no) =>
      SettledOnO(v, cond);
      ObservedOn(v, cond);
      SettledOnE(v, yes);
      SettledOnE(v, no);
    case _ =>
  }

  lemma ObservedOn(v: View, e: Expr)
    requires Usable(v) && ClearO(v.p, v.shelves, e) && Observes(v.facts, Meaning(v.p, v.facts, e))
    ensures Observes(Now(v), Meaning(v.p, Now(v), e))
  {
    if Peeks(v.shelves, e) {
      PeekOn(v, e.x);
    } else {
      ExprLess(v, e);
      ObservesOn(v, Meaning(v.p, Now(v), e), Meaning(v.p, v.facts, e));
    }
  }

  /** What a tested local holds may be observed. */
  lemma PeekOn(v: View, x: nat)
    requires Usable(v) && Peeks(v.shelves, Expr.Local(x)) && Observes(v.facts, At(v.facts, OfLocal(x)))
    ensures Observes(Now(v), At(Now(v), OfLocal(x)))
  {
    forall o | o in At(Now(v), OfLocal(x)).objects ensures Observed(o) in Now(v) {
      HeldMeans(v, OfLocal(x), o);
      assert o in At(v.facts, OfLocal(x)).objects;
      assert Plausible(v.p, v.shelves, Observed(o));
    }
  }

  /** An expression that is only observed stays settled. */
  lemma {:induction false} SettledOnO(v: View, e: Expr)
    requires Usable(v) && ClearO(v.p, v.shelves, e) && SettledE(v.p, v.facts, v.seen, e)
    ensures SettledE(v.p, Now(v), Read(v), e)
    decreases e, 1
  {
    if !Peeks(v.shelves, e) {
      SettledOnE(v, e);
    }
  }

  lemma CallOn(v: View, func: Expr, args: Exprs)
    requires Usable(v) && ClearE(v.p, v.shelves, func) && ClearArgs(v.p, v.shelves, args)
    requires Called(v.p, v.facts, Meaning(v.p, v.facts, func), Meanings(v.p, v.facts, args))
    ensures Called(v.p, Now(v), Meaning(v.p, Now(v), func), Meanings(v.p, Now(v), args))
  {
    hide Called, Less, AllLess;
    ValueLess(v, func);
    ArgsLess(v, args);
    CalledOn(v, Meaning(v.p, Now(v), func), Meaning(v.p, v.facts, func), Meanings(v.p, Now(v), args), Meanings(v.p, v.facts, args));
  }

  lemma {:induction false} SettledOnArgs(v: View, args: Exprs)
    requires Usable(v) && ClearArgs(v.p, v.shelves, args) && SettledArgs(v.p, v.facts, v.seen, args)
    ensures SettledArgs(v.p, Now(v), Read(v), args)
    decreases args
  {
    if args.Arg? {
      SettledOnE(v, args.head);
      SettledOnArgs(v, args.rest);
    }
  }

  lemma {:induction false} SettledOnItems(v: View, id: nat, items: Items)
    requires Usable(v) && ClearItems(v.p, v.shelves, items) && SettledItems(v.p, v.facts, v.seen, id, items)
    ensures SettledItems(v.p, Now(v), Read(v), id, items)
    decreases items
  {
    hide Meaning, Now, Read, Usable, Less, Escapes, Stored, StoredByKey, ClearE;
    match items
    case NoItems =>
    case Field(key, value, rest) =>
      SettledOnE(v, value);
      SettledOnItems(v, id, rest);
      ExprLess(v, value);
      StoredOn(v, One(id), One(id), key, Meaning(v.p, Now(v), value), Meaning(v.p, v.facts, value));
    case Entry(index, value, rest) =>
      SettledOnE(v, index);
      SettledOnE(v, value);
      SettledOnItems(v, id, rest);
      ExprLess(v, index);
      ExprLess(v, value);
      EscapesOn(v, Meaning(v.p, Now(v), index), Meaning(v.p, v.facts, index));
      StoredByKeyOn(v, One(id), One(id), Meaning(v.p, Now(v), value), Meaning(v.p, v.facts, value));
  }

  /** Storing a value that is no secret. */
  lemma ClearStored(v: View, t: Target, a: Abs, b: Abs)
    requires Usable(v) && ClearT(v.p, v.shelves, t) && Less(v, a, b) && SettledT(v.p, v.facts, v.seen, t, b)
    ensures SettledT(v.p, Now(v), Read(v), t, a)
  {
    hide Meaning, Now, Read, Usable, Less, Escapes, Stored, StoredByKey, Flows, ClearE;
    match t
    case ToLocal(x) => FlowsOn(v, a, b, OfLocal(x));
    case ToField(base, key) =>
      if !(base.Local? && base.x in Holders(v.shelves)) {
        SettledOnE(v, base);
      }
      BaseLess(v, base);
      StoredOn(v, Meaning(v.p, Now(v), base), Meaning(v.p, v.facts, base), key, a, b);
    case ToEntry(base, index) =>
      SettledOnE(v, base);
      SettledOnE(v, index);
      ExprLess(v, base);
      ExprLess(v, index);
      EscapesOn(v, Meaning(v.p, Now(v), index), Meaning(v.p, v.facts, index));
      BaseLess(v, base);
      StoredByKeyOn(v, Meaning(v.p, Now(v), base), Meaning(v.p, v.facts, base), a, b);
    case ToGlobal(_) =>
  }

  lemma BaseLess(v: View, base: Expr)
    ensures Le(Meaning(v.p, Now(v), base), Meaning(v.p, v.facts, base))
  {
    MeaningGrows(v.p, Now(v), v.facts, base);
  }

  /** Putting a function on its shelf. */
  lemma ShelfStored(v: View, g: nat)
    requires Usable(v) && g in v.shelves && SettledT(v.p, v.facts, v.seen, TargetOf(v.shelves[g]), One(g))
    ensures SettledT(v.p, Now(v), Read(v), TargetOf(v.shelves[g]), One(g))
  {
    assert ShelfFits(v.p, v.shelves, g);
    assert !IsSite(v.p, v.shelves, g) by {
      if IsSite(v.p, v.shelves, g) {
        SitesAreTables(v, g);
      }
    }
    if !v.shelves[g].InField? {
      assert Plausible(v.p, v.shelves, MayHold(OfLocal(v.shelves[g].x), g));
    } else {
      FieldShelfStored(v, g);
    }
  }

  lemma FieldShelfStored(v: View, g: nat)
    requires Usable(v) && g in v.shelves && v.shelves[g].InField? && !IsSite(v.p, v.shelves, g)
    requires Stored(v.p, v.facts, At(v.facts, OfLocal(v.shelves[g].x)), v.shelves[g].key, One(g))
    ensures Stored(v.p, Now(v), At(Now(v), OfLocal(v.shelves[g].x)), v.shelves[g].key, One(g))
  {
    var x, key := v.shelves[g].x, v.shelves[g].key;
    assert ShelfFits(v.p, v.shelves, g);
    HolderValue(v, x);
    forall o | o in At(Now(v), OfLocal(x)).objects ensures StoredIn(v.p, Now(v), o, OfField(o, key), One(g)) {
      assert o in At(v.facts, OfLocal(x)).objects && StoredIn(v.p, v.facts, o, OfField(o, key), One(g));
      assert Plausible(v.p, v.shelves, MayHold(OfField(o, key), g));
    }
  }

  lemma StoreOn(v: View, t: Target, value: Expr)
    requires Usable(v) && ClearStore(v.p, v.shelves, t, value)
    requires SettledE(v.p, v.facts, v.seen, value) && SettledT(v.p, v.facts, v.seen, t, Meaning(v.p, v.facts, value))
    ensures SettledE(v.p, Now(v), Read(v), value) && SettledT(v.p, Now(v), Read(v), t, Meaning(v.p, Now(v), value))
  {
    if value.Function? && value.id in v.shelves {
      ShelfStored(v, value.id);
    } else {
      SettledOnE(v, value);
      ExprLess(v, value);
      ClearStored(v, t, Meaning(v.p, Now(v), value), Meaning(v.p, v.facts, value));
    }
  }

  /** The table of a holder. */
  lemma HolderDeclared(v: View, x: nat, value: Expr)
    requires Usable(v) && x in Holders(v.shelves) && value.Table? && value.id == Site(v.p, x) && ClearItems(v.p, v.shelves, value.items)
    requires SettledE(v.p, v.facts, v.seen, value) && Flows(v.facts, One(value.id), OfLocal(x))
    ensures SettledE(v.p, Now(v), Read(v), value) && Flows(Now(v), One(value.id), OfLocal(x))
  {
    SettledOnItems(v, value.id, value.items);
    assert IsSite(v.p, v.shelves, value.id);
    SitesAreTables(v, value.id);
    assert Plausible(v.p, v.shelves, MayHold(OfLocal(x), value.id));
  }

  lemma DeclareOn(v: View, home: Place, x: nat, value: Expr)
    requires Usable(v) && ClearS(v.p, v.shelves, Declare(x, value)) && SettledS(v.p, v.facts, v.seen, home, Declare(x, value))
    ensures SettledS(v.p, Now(v), Read(v), home, Declare(x, value))
  {
    hide Now, Read, Usable, ClearE;
    if x in Holders(v.shelves) {
      HolderDeclared(v, x, value);
    } else {
      StoreOn(v, ToLocal(x), value);
    }
  }

  lemma ReturnOn(v: View, home: Place, value: Expr)
    requires Usable(v) && !home.OfLocal? && ClearE(v.p, v.shelves, value)
    requires SettledE(v.p, v.facts, v.seen, value) && Flows(v.facts, Meaning(v.p, v.facts, value), home)
    ensures SettledE(v.p, Now(v), Read(v), value) && Flows(Now(v), Meaning(v.p, Now(v), value), home)
  {
    SettledOnE(v, value);
    ExprLess(v, value);
    FlowsOn(v, Meaning(v.p, Now(v), value), Meaning(v.p, v.facts, value), home);
  }

  lemma {:induction false} SettledOnS(v: View, home: Place, s: Stmt)
    requires Usable(v) && !home.OfLocal? && ClearS(v.p, v.shelves, s) && SettledS(v.p, v.facts, v.seen, home, s)
    ensures SettledS(v.p, Now(v), Read(v), home, s)
    decreases s
  {
    hide Meaning, Now, Read, Usable, ClearE, ClearO, Observes, Flows, SettledE, SettledT, ClearStore;
    match s
    case Skip =>
    case Then(first, second) => SettledOnS(v, home, first); SettledOnS(v, home, second);
    case Declare(x, value) => DeclareOn(v, home, x, value);
    case LocalFunction(x, id) => FunctionOn(v, ToLocal(x), id);
    case FunctionAt(target, id) => FunctionOn(v, target, id);
    case Assign(target, value) => StoreOn(v, target, value);
    case Return(value) => ReturnOn(v, home, value);
    case Do(value) => SettledOnO(v, value); ObservedOn(v, value);
    case If(cond, yes, no) =>
      SettledOnO(v, cond);
      ObservedOn(v, cond);
      SettledOnS(v, home, yes);
      SettledOnS(v, home, no);
    case While(cond, body) =>
      SettledOnO(v, cond);
      ObservedOn(v, cond);
      SettledOnS(v, home, body);
  }

  lemma FunctionOn(v: View, t: Target, id: nat)
    requires Usable(v) && ClearStore(v.p, v.shelves, t, Function(id)) && SettledT(v.p, v.facts, v.seen, t, One(id))
    ensures SettledT(v.p, Now(v), Read(v), t, One(id))
    ensures t.ToLocal? ==> Flows(v.facts, One(id), OfLocal(t.x)) && Flows(Now(v), One(id), OfLocal(t.x))
  {
    assert Meaning(v.p, v.facts, Function(id)) == Meaning(v.p, Now(v), Function(id)) == One(id);
    StoreOn(v, t, Function(id));
  }

  lemma HostUsesOn(v: View, o: nat)
    requires Usable(v) && o < |v.p.objects| && Escaped(o) in Now(v) && HostUses(v.p, v.facts, o)
    ensures HostUses(v.p, Now(v), o)
  {
    assert Plausible(v.p, v.shelves, Escaped(o)) && Plausible(v.p, v.shelves, Active(o));
    match v.p.objects[o]
    case Closure(_, params, _) =>
      PlaceClean(v, OfReturn(o));
      AtGrows(Now(v), v.facts, OfReturn(o));
      EscapesOn(v, At(Now(v), OfReturn(o)), At(v.facts, OfReturn(o)));
      forall k | 0 <= k < |params| ensures MayBeAny(OfLocal(params[k])) in Now(v) {
        assert Plausible(v.p, v.shelves, MayBeAny(OfLocal(params[k])));
      }
    case TableSite =>
      EntriesClean(v, One(o));
      forall f | f in Now(v) && f.MayHold? && IsEntryOf(f.place, {o}) ensures Escaped(f.item) in Now(v) {
        assert f.item in EntryOf(Now(v), One(o)).objects;
        assert Plausible(v.p, v.shelves, Escaped(f.item));
      }
  }

  lemma ObjectOn(v: View, o: nat)
    requires Usable(v) && OnlyShelved(v.p, v.shelves) && o < |v.p.objects| && SettledObject(v.p, v.facts, v.seen, o)
    ensures SettledObject(v.p, Now(v), Read(v), o)
  {
    hide HostUses, SettledS, ClearS, Usable;
    if Escaped(o) in Now(v) {
      HostUsesOn(v, o);
    }
    if IsFunction(v.p, o) && Active(o) in Now(v) {
      assert Plausible(v.p, v.shelves, Active(o));
      assert ClearBody(v.p, v.shelves, o);
      SettledOnS(v, OfReturn(o), v.p.objects[o].body);
    }
  }

  lemma UsableHere(v: View)
    requires OnlyShelved(v.p, v.shelves)
    ensures Usable(v)
  {
    hide ClearS, Holders;
    forall o, k | 0 <= o < |v.p.objects| && o !in v.shelves && IsFunction(v.p, o) && 0 <= k < |v.p.objects[o].params|
      ensures v.p.objects[o].params[k] !in Holders(v.shelves)
    {
      assert ClearBody(v.p, v.shelves, o);
    }
  }

  /** Closed facts stay closed when everything goes that they say of shelved functions and of the tables they
      are in, but where these are put. */
  lemma WithoutClosed(p: Package, shelves: Shelves, facts: Facts, seen: ReadKeys)
    requires p.entry < |p.modules| && OnlyShelved(p, shelves) && PostFixpoint(p, facts, seen)
    ensures PostFixpoint(p, Without(p, shelves, facts), WithoutKeys(p, shelves, seen))
  {
    hide SettledObject, SettledS, OnlyShelved, Usable;
    var v := View(p, shelves, facts, seen);
    UsableHere(v);
    forall m | 0 <= m < |p.modules| ensures SettledS(p, Now(v), Read(v), OfModule(m), p.modules[m].body) {
      ModuleClear(p, shelves, m);
      SettledOnS(v, OfModule(m), p.modules[m].body);
    }
    ResultOn(v, OfModule(p.entry));
    forall o | 0 <= o < |p.objects| ensures SettledObject(p, Now(v), Read(v), o) {
      ObjectOn(v, o);
    }
  }

  lemma ModuleClear(p: Package, shelves: Shelves, m: nat)
    requires OnlyShelved(p, shelves) && m < |p.modules|
    ensures ClearS(p, shelves, p.modules[m].body)
  {
  }

  lemma ResultOn(v: View, place: Place)
    requires Usable(v) && !place.OfLocal? && !place.OfField? && Escapes(v.facts, At(v.facts, place))
    ensures Escapes(Now(v), At(Now(v), place))
  {
    PlaceClean(v, place);
    AtGrows(Now(v), v.facts, place);
    EscapesOn(v, At(Now(v), place), At(v.facts, place));
  }

  // ----- what follows for the least facts -----

  /** No smaller facts are closed. */
  ghost predicate Minimal(p: Package, facts: Facts, seen: ReadKeys)
    requires p.entry < |p.modules|
  {
    forall few, read :: PostFixpoint(p, few, read) && few <= facts && read <= seen ==> few == facts && read == seen
  }

  lemma Smaller<T>(a: set<T>, b: set<T>)
    requires a <= b
    ensures |a| <= |b| && (a != b ==> |a| < |b|)
  {
    assert b == a + (b - a);
  }

  /** Below any closed facts there are minimal ones. */
  lemma {:induction false} MinimalBelow(p: Package, facts: Facts, seen: ReadKeys) returns (few: Facts, read: ReadKeys)
    requires p.entry < |p.modules| && PostFixpoint(p, facts, seen)
    ensures PostFixpoint(p, few, read) && few <= facts && read <= seen && Minimal(p, few, read)
    decreases |facts| + |seen|
  {
    hide PostFixpoint;
    few, read := facts, seen;
    if !Minimal(p, facts, seen) {
      var less, r :| PostFixpoint(p, less, r) && less <= facts && r <= seen && (less != facts || r != seen);
      Smaller(less, facts);
      Smaller(r, seen);
      few, read := MinimalBelow(p, less, r);
    }
  }

  /** By minimal closed facts no shelved function is called, one that is not tested is not even observed, and
      nobody looks under the key it is put. */
  lemma MinimalIgnores(p: Package, shelves: Shelves, facts: Facts, seen: ReadKeys, g: nat)
    requires p.entry < |p.modules| && PostFixpoint(p, facts, seen) && Minimal(p, facts, seen)
    requires OnlyShelved(p, shelves) && g in shelves
    ensures Active(g) !in facts && Escaped(g) !in facts && (!shelves[g].Tested? ==> Observed(g) !in facts)
    ensures shelves[g].InField? ==> Escaped(Site(p, shelves[g].x)) !in facts && (Site(p, shelves[g].x), shelves[g].key) !in seen
  {
    hide PostFixpoint, OnlyShelved;
    WithoutClosed(p, shelves, facts, seen);
    assert Without(p, shelves, facts) == facts && WithoutKeys(p, shelves, seen) == seen;
    assert !Plausible(p, shelves, Active(g)) && !Plausible(p, shelves, Escaped(g));
    assert !shelves[g].Tested? ==> !Plausible(p, shelves, Observed(g));
    if shelves[g].InField? {
      assert IsSite(p, shelves, Site(p, shelves[g].x));
      assert !Plausible(p, shelves, Escaped(Site(p, shelves[g].x)));
      assert Shelved(p, shelves, Site(p, shelves[g].x), shelves[g].key);
    }
  }
}
