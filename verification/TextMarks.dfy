/** Facts that track strings beside those that do not: what larger closed facts know of strings can be added
    to smaller closed facts, and they stay closed. */
module TextMarks {
  import opened Wrappers
  import opened PackageSyntax
  import opened ClosureFacts
  import opened FactOrder

  /** What facts know of strings. */
  function Texts(p: Package, facts: Facts): Facts {
    set f | f in facts && !f.MayBeAny? && f.item == Text(p)
  }

  function Marked(p: Package, few: Facts, many: Facts): (r: Facts)
    ensures few <= r
  {
    few + Texts(p, many)
  }

  function MarkedKeys(p: Package, few: ReadKeys, many: ReadKeys): ReadKeys {
    few + set k | k in many && k.0 == Text(p)
  }

  /** Facts of the analysis, and larger ones. */
  ghost predicate Nested(p: Package, few: Facts, many: Facts) {
    few <= many && forall f :: f in few ==> FitsFact(p, f)
  }

  /** `n` is `a`, except that it may be a string where `m` may. */
  ghost predicate Marks(p: Package, a: Abs, n: Abs, m: Abs) {
    && n.any == a.any && (n.any ==> m.any) && a.objects <= n.objects <= m.objects
    && forall o :: o in n.objects ==> o in a.objects || o == Text(p)
  }

  ghost predicate AllMark(p: Package, a: seq<Abs>, n: seq<Abs>, m: seq<Abs>) {
    |a| == |n| == |m| && forall k :: 0 <= k < |a| ==> Marks(p, a[k], n[k], m[k])
  }

  // ----- values -----

  lemma AtMarked(p: Package, few: Facts, many: Facts, place: Place)
    requires Nested(p, few, many)
    ensures Marks(p, At(few, place), At(Marked(p, few, many), place), At(many, place))
  {
  }

  lemma FieldMarked(p: Package, few: Facts, many: Facts, a: Abs, n: Abs, m: Abs, key: string)
    requires Nested(p, few, many) && Marks(p, a, n, m)
    ensures Marks(p, FieldOf(p, few, a, key), FieldOf(p, Marked(p, few, many), n, key), FieldOf(p, many, m, key))
  {
    var all := Marked(p, few, many);
    FieldOfGrows(p, few, all, a, n, key);
    FieldOfGrows(p, all, many, n, m, key);
    forall o | o in FieldOf(p, all, n, key).objects && o != Text(p) ensures o in FieldOf(p, few, a, key).objects {
      var f :| f in all && f.MayHold? && IsFieldOf(p, f.place, n.objects, key) && f.item == o;
      assert f in few && FitsFact(p, f);
    }
    if o :| o in n.objects && FieldAny(p, all, o, key) {
      assert FieldAny(p, few, o, key);
    }
  }

  lemma EntryMarked(p: Package, few: Facts, many: Facts, a: Abs, n: Abs, m: Abs)
    requires Nested(p, few, many) && Marks(p, a, n, m)
    ensures Marks(p, EntryOf(few, a), EntryOf(Marked(p, few, many), n), EntryOf(many, m))
  {
    var all := Marked(p, few, many);
    EntryOfGrows(few, all, a, n);
    EntryOfGrows(all, many, n, m);
    forall o | o in EntryOf(all, n).objects && o != Text(p) ensures o in EntryOf(few, a).objects {
      var f :| f in all && f.MayHold? && IsEntryOf(f.place, n.objects) && f.item == o;
      assert f in few && FitsFact(p, f);
    }
  }

  lemma ResultMarked(p: Package, few: Facts, many: Facts, a: Abs, n: Abs, m: Abs)
    requires Nested(p, few, many) && Marks(p, a, n, m)
    ensures Marks(p, ResultOf(p, few, a), ResultOf(p, Marked(p, few, many), n), ResultOf(p, many, m))
  {
    var all := Marked(p, few, many);
    ResultOfGrows(p, few, all, a, n);
    ResultOfGrows(p, all, many, n, m);
    forall o | o in ResultOf(p, all, n).objects && o != Text(p) ensures o in ResultOf(p, few, a).objects {
      var f :| f in all && f.MayHold? && IsResultOf(p, f.place, n.objects) && f.item == o;
      assert f in few && FitsFact(p, f);
    }
    if o :| o in n.objects && ResultAny(p, all, o) {
      assert ResultAny(p, few, o);
    }
  }

  lemma JoinMarked(p: Package, a: Abs, n: Abs, m: Abs, b: Abs, k: Abs, l: Abs)
    requires Marks(p, a, n, m) && Marks(p, b, k, l)
    ensures Marks(p, Join(a, b), Join(n, k), Join(m, l))
  {
  }

  /** Every expression has its old value, and is a string at most where the larger facts say so. */
  lemma {:induction false} MeaningMarked(p: Package, few: Facts, many: Facts, e: Expr)
    requires Nested(p, few, many)
    ensures Marks(p, Meaning(p, few, e), Meaning(p, Marked(p, few, many), e), Meaning(p, many, e))
    decreases e
  {
    hide Nested, At, FieldOf, EntryOf, ResultOf, Marked, Join;
    var all := Marked(p, few, many);
    match e
    case Const(_) => AtMarked(p, few, many, OfText);
    case Local(x) => AtMarked(p, few, many, OfLocal(x));
    case Index(base, key) =>
      MeaningMarked(p, few, many, base);
      FieldMarked(p, few, many, Meaning(p, few, base), Meaning(p, all, base), Meaning(p, many, base), key);
    case IndexBy(base, _) =>
      MeaningMarked(p, few, many, base);
      EntryMarked(p, few, many, Meaning(p, few, base), Meaning(p, all, base), Meaning(p, many, base));
    case Require(name) =>
      var m := FindModule(p, name, 0);
      if m.Some? {
        AtMarked(p, few, many, OfModule(m.value));
      }
    case Call(func, _) =>
      MeaningMarked(p, few, many, func);
      ResultMarked(p, few, many, Meaning(p, few, func), Meaning(p, all, func), Meaning(p, many, func));
    case And(left, right) =>
      MeaningMarked(p, few, many, left);
      MeaningMarked(p, few, many, right);
      JoinMarked(p, Meaning(p, few, left), Meaning(p, all, left), Meaning(p, many, left),
                 Meaning(p, few, right), Meaning(p, all, right), Meaning(p, many, right));
    case Or(left, right) =>
      MeaningMarked(p, few, many, left);
      MeaningMarked(p, few, many, right);
      JoinMarked(p, Meaning(p, few, left), Meaning(p, all, left), Meaning(p, many, left),
                 Meaning(p, few, right), Meaning(p, all, right), Meaning(p, many, right));
    case IfElse(_, yes, no) =>
      MeaningMarked(p, few, many, yes);
      MeaningMarked(p, few, many, no);
      JoinMarked(p, Meaning(p, few, yes), Meaning(p, all, yes), Meaning(p, many, yes),
                 Meaning(p, few, no), Meaning(p, all, no), Meaning(p, many, no));
    case _ =>
  }

  lemma {:induction false} MeaningsMarked(p: Package, few: Facts, many: Facts, args: Exprs)
    requires Nested(p, few, many)
    ensures AllMark(p, Meanings(p, few, args), Meanings(p, Marked(p, few, many), args), Meanings(p, many, args))
    decreases args
  {
    hide Meaning, Nested, Marks;
    if args.Arg? {
      MeaningMarked(p, few, many, args.head);
      MeaningsMarked(p, few, many, args.rest);
    }
  }

  // ----- rules -----

  lemma FlowsMarked(p: Package, few: Facts, many: Facts, a: Abs, n: Abs, m: Abs, place: Place)
    requires Flows(few, a, place) && Flows(many, m, place) && Marks(p, a, n, m)
    ensures Flows(Marked(p, few, many), n, place)
  {
  }

  lemma ObservesMarked(p: Package, few: Facts, many: Facts, a: Abs, n: Abs, m: Abs)
    requires Observes(few, a) && Observes(many, m) && Marks(p, a, n, m)
    ensures Observes(Marked(p, few, many), n)
  {
  }

  lemma EscapesMarked(p: Package, few: Facts, many: Facts, a: Abs, n: Abs, m: Abs)
    requires Escapes(few, a) && Escapes(many, m) && Marks(p, a, n, m)
    ensures Escapes(Marked(p, few, many), n)
  {
  }

  /** Storing, with what is known of the base and of the value. */
  lemma StoredMarked(p: Package, few: Facts, many: Facts, base: Abs, baseN: Abs, baseM: Abs, key: Option<string>, a: Abs, n: Abs, m: Abs)
    requires Marks(p, base, baseN, baseM) && Marks(p, a, n, m)
    requires if key.Some? then Stored(p, few, base, key.value, a) && Stored(p, many, baseM, key.value, m)
             else StoredByKey(p, few, base, a) && StoredByKey(p, many, baseM, m)
    ensures if key.Some? then Stored(p, Marked(p, few, many), baseN, key.value, n)
            else StoredByKey(p, Marked(p, few, many), baseN, n)
  {
    hide Flows, Escapes, Marked;
    var all := Marked(p, few, many);
    if baseN.any {
      EscapesMarked(p, few, many, a, n, m);
    }
    forall o | o in baseN.objects
      ensures StoredIn(p, all, o, if key.Some? then OfField(o, key.value) else OfEntries(o), n)
    {
      var place := if key.Some? then OfField(o, key.value) else OfEntries(o);
      if o < |p.objects| {
        assert StoredIn(p, few, o, place, a) && StoredIn(p, many, o, place, m);
        if IsFunction(p, o) {
          EscapesMarked(p, few, many, a, n, m);
        } else {
          FlowsMarked(p, few, many, a, n, m, place);
        }
      }
    }
  }

  lemma ArgsEscapeMarked(p: Package, few: Facts, many: Facts, a: seq<Abs>, n: seq<Abs>, m: seq<Abs>)
    requires ArgsEscape(few, a) && ArgsEscape(many, m) && AllMark(p, a, n, m)
    ensures ArgsEscape(Marked(p, few, many), n)
  {
    forall k | 0 <= k < |n| ensures Escapes(Marked(p, few, many), n[k]) {
      EscapesMarked(p, few, many, a[k], n[k], m[k]);
    }
  }

  lemma CalledMarked(p: Package, few: Facts, many: Facts, func: Abs, funcN: Abs, funcM: Abs, a: seq<Abs>, n: seq<Abs>, m: seq<Abs>)
    requires Called(p, few, func, a) && Called(p, many, funcM, m) && Marks(p, func, funcN, funcM) && AllMark(p, a, n, m)
    ensures Called(p, Marked(p, few, many), funcN, n)
  {
    hide Flows, Escapes, AllMark;
    var all := Marked(p, few, many);
    if funcN.any {
      ArgsEscapeMarked(p, few, many, a, n, m);
    }
    forall o | o in funcN.objects ensures CalledObject(p, all, o, n) {
      if o < |p.objects| {
        OneCalled(p, few, many, func, funcN, funcM, a, n, m, o);
      }
    }
  }

  lemma OneCalled(p: Package, few: Facts, many: Facts, func: Abs, funcN: Abs, funcM: Abs, a: seq<Abs>, n: seq<Abs>, m: seq<Abs>, o: nat)
    requires Called(p, few, func, a) && Called(p, many, funcM, m) && Marks(p, func, funcN, funcM) && AllMark(p, a, n, m)
    requires o in funcN.objects && o < |p.objects|
    ensures CalledObject(p, Marked(p, few, many), o, n)
  {
    hide Flows, Escapes;
    assert CalledObject(p, few, o, a) && CalledObject(p, many, o, m);
    if IsFunction(p, o) {
      var params := p.objects[o].params;
      forall k | 0 <= k < |n| && k < |params| ensures Flows(Marked(p, few, many), n[k], OfLocal(params[k])) {
        FlowsMarked(p, few, many, a[k], n[k], m[k], OfLocal(params[k]));
      }
    } else {
      ArgsEscapeMarked(p, few, many, a, n, m);
    }
  }

  // ----- closed facts stay closed -----

  /** Both facts are closed at an expression. */
  ghost predicate BothE(p: Package, few: Facts, seen: ReadKeys, many: Facts, known: ReadKeys, e: Expr) {
    Nested(p, few, many) && SettledE(p, few, seen, e) && SettledE(p, many, known, e)
  }

  lemma ReadMarked(p: Package, seen: ReadKeys, known: ReadKeys, a: Abs, n: Abs, m: Abs, key: string)
    requires ReadBy(seen, a, key) && ReadBy(known, m, key) && Marks(p, a, n, m)
    ensures ReadBy(MarkedKeys(p, seen, known), n, key)
  {
  }

  lemma {:induction false} SettledMarkedE(p: Package, few: Facts, seen: ReadKeys, many: Facts, known: ReadKeys, e: Expr)
    requires BothE(p, few, seen, many, known, e)
    ensures SettledE(p, Marked(p, few, many), MarkedKeys(p, seen, known), e)
    decreases e, 1
  {
    hide Nested, Marked, MarkedKeys, Meaning, Flows, Observes, Escapes, Marks;
    match e
    case Table(id, items) => SettledMarkedItems(p, few, seen, many, known, id, items);
    case Index(base, key) =>
      SettledMarkedE(p, few, seen, many, known, base);
      var all := Marked(p, few, many);
      MeaningMarked(p, few, many, base);
      MeaningMarked(p, few, many, e);
      ReadMarked(p, seen, known, Meaning(p, few, base), Meaning(p, all, base), Meaning(p, many, base), key);
      ObservedMarked(p, few, many, e);
    case IndexBy(base, index) =>
      SettledMarkedE(p, few, seen, many, known, base);
      SettledMarkedE(p, few, seen, many, known, index);
      FreedMarked(p, few, many, base);
      FreedMarked(p, few, many, index);
    case Call(func, args) =>
      SettledMarkedE(p, few, seen, many, known, func);
      SettledMarkedArgs(p, few, seen, many, known, args);
      var all := Marked(p, few, many);
      MeaningMarked(p, few, many, func);
      MeaningsMarked(p, few, many, args);
      CalledMarked(p, few, many, Meaning(p, few, func), Meaning(p, all, func), Meaning(p, many, func),
                   Meanings(p, few, args), Meanings(p, all, args), Meanings(p, many, args));
    case And(left, right) => SettledMarkedE(p, few, seen, many, known, left); SettledMarkedE(p, few, seen, many, known, right);
    case Or(left, right) => SettledMarkedE(p, few, seen, many, known, left); SettledMarkedE(p, few, seen, many, known, right);
    case Binary(_, left, right) =>
      SettledMarkedE(p, few, seen, many, known, left);
      SettledMarkedE(p, few, seen, many, known, right);
      ObservedMarked(p, few, many, left);
      ObservedMarked(p, few, many, right);
    case Not(arg) =>
      SettledMarkedE(p, few, seen, many, known, arg);
      ObservedMarked(p, few, many, arg);
    case Len(arg) =>
      SettledMarkedE(p, few, seen, many, known, arg);
      FreedMarked(p, few, many, arg);
    case IfElse(cond, yes, no) =>
      SettledMarkedE(p, few, seen, many, known, cond);
      SettledMarkedE(p, few, seen, many, known, yes);
      SettledMarkedE(p, few, seen, many, known, no);
      ObservedMarked(p, few, many, cond);
    case _ =>
  }

  lemma ObservedMarked(p: Package, few: Facts, many: Facts, e: Expr)
    requires Nested(p, few, many) && Observes(few, Meaning(p, few, e)) && Observes(many, Meaning(p, many, e))
    ensures Observes(Marked(p, few, many), Meaning(p, Marked(p, few, many), e))
  {
    hide Meaning;
    MeaningMarked(p, few, many, e);
    ObservesMarked(p, few, many, Meaning(p, few, e), Meaning(p, Marked(p, few, many), e), Meaning(p, many, e));
  }

  lemma FreedMarked(p: Package, few: Facts, many: Facts, e: Expr)
    requires Nested(p, few, many) && Escapes(few, Meaning(p, few, e)) && Escapes(many, Meaning(p, many, e))
    ensures Escapes(Marked(p, few, many), Meaning(p, Marked(p, few, many), e))
  {
    hide Meaning;
    MeaningMarked(p, few, many, e);
    EscapesMarked(p, few, many, Meaning(p, few, e), Meaning(p, Marked(p, few, many), e), Meaning(p, many, e));
  }

  lemma FlownMarked(p: Package, few: Facts, many: Facts, e: Expr, place: Place)
    requires Nested(p, few, many) && Flows(few, Meaning(p, few, e), place) && Flows(many, Meaning(p, many, e), place)
    ensures Flows(Marked(p, few, many), Meaning(p, Marked(p, few, many), e), place)
  {
    hide Meaning;
    MeaningMarked(p, few, many, e);
    FlowsMarked(p, few, many, Meaning(p, few, e), Meaning(p, Marked(p, few, many), e), Meaning(p, many, e), place);
  }

  lemma {:induction false} SettledMarkedArgs(p: Package, few: Facts, seen: ReadKeys, many: Facts, known: ReadKeys, args: Exprs)
    requires Nested(p, few, many) && SettledArgs(p, few, seen, args) && SettledArgs(p, many, known, args)
    ensures SettledArgs(p, Marked(p, few, many), MarkedKeys(p, seen, known), args)
    decreases args, 1
  {
    if args.Arg? {
      SettledMarkedE(p, few, seen, many, known, args.head);
      SettledMarkedArgs(p, few, seen, many, known, args.rest);
    }
  }

  /** A value `e` stored into the table made at `id`. */
  lemma MadeMarked(p: Package, few: Facts, many: Facts, id: nat, key: Option<string>, e: Expr)
    requires Nested(p, few, many)
    requires if key.Some?
             then Stored(p, few, One(id), key.value, Meaning(p, few, e)) && Stored(p, many, One(id), key.value, Meaning(p, many, e))
             else StoredByKey(p, few, One(id), Meaning(p, few, e)) && StoredByKey(p, many, One(id), Meaning(p, many, e))
    ensures var all := Marked(p, few, many);
            if key.Some? then Stored(p, all, One(id), key.value, Meaning(p, all, e))
            else StoredByKey(p, all, One(id), Meaning(p, all, e))
  {
    hide Meaning;
    MeaningMarked(p, few, many, e);
    StoredMarked(p, few, many, One(id), One(id), One(id), key, Meaning(p, few, e), Meaning(p, Marked(p, few, many), e), Meaning(p, many, e));
  }

  lemma {:induction false} SettledMarkedItems(p: Package, few: Facts, seen: ReadKeys, many: Facts, known: ReadKeys, id: nat, items: Items)
    requires Nested(p, few, many) && SettledItems(p, few, seen, id, items) && SettledItems(p, many, known, id, items)
    ensures SettledItems(p, Marked(p, few, many), MarkedKeys(p, seen, known), id, items)
    decreases items, 1
  {
    hide Nested, Marked, MarkedKeys, Meaning, Flows, Observes, Escapes, Stored, StoredByKey, SettledE;
    match items
    case NoItems =>
    case Field(key, value, rest) =>
      SettledMarkedE(p, few, seen, many, known, value);
      MadeMarked(p, few, many, id, Some(key), value);
      SettledMarkedItems(p, few, seen, many, known, id, rest);
    case Entry(index, value, rest) =>
      SettledMarkedE(p, few, seen, many, known, index);
      SettledMarkedE(p, few, seen, many, known, value);
      FreedMarked(p, few, many, index);
      MadeMarked(p, few, many, id, None, value);
      SettledMarkedItems(p, few, seen, many, known, id, rest);
  }

  /** Assigning a value of which all three facts know something. */
  lemma SettledMarkedT(p: Package, few: Facts, seen: ReadKeys, many: Facts, known: ReadKeys, t: Target, a: Abs, n: Abs, m: Abs)
    requires Nested(p, few, many) && Marks(p, a, n, m) && SettledT(p, few, seen, t, a) && SettledT(p, many, known, t, m)
    ensures SettledT(p, Marked(p, few, many), MarkedKeys(p, seen, known), t, n)
  {
    hide Nested, Marked, MarkedKeys, Meaning, Escapes, Stored, StoredByKey, SettledE;
    var all := Marked(p, few, many);
    match t
    case ToLocal(x) => FlowsMarked(p, few, many, a, n, m, OfLocal(x));
    case ToField(base, key) =>
      SettledMarkedE(p, few, seen, many, known, base);
      MeaningMarked(p, few, many, base);
      StoredMarked(p, few, many, Meaning(p, few, base), Meaning(p, all, base), Meaning(p, many, base), Some(key), a, n, m);
    case ToEntry(base, index) =>
      SettledMarkedE(p, few, seen, many, known, base);
      SettledMarkedE(p, few, seen, many, known, index);
      FreedMarked(p, few, many, index);
      MeaningMarked(p, few, many, base);
      StoredMarked(p, few, many, Meaning(p, few, base), Meaning(p, all, base), Meaning(p, many, base), None, a, n, m);
  }

  lemma {:induction false} SettledMarkedS(p: Package, few: Facts, seen: ReadKeys, many: Facts, known: ReadKeys, home: Place, s: Stmt)
    requires Nested(p, few, many) && SettledS(p, few, seen, home, s) && SettledS(p, many, known, home, s)
    ensures SettledS(p, Marked(p, few, many), MarkedKeys(p, seen, known), home, s)
    decreases s
  {
    hide Nested, Marked, MarkedKeys, Meaning, Flows, Observes, SettledE, SettledT;
    match s
    case Skip =>
    case Then(first, second) =>
      SettledMarkedS(p, few, seen, many, known, home, first);
      SettledMarkedS(p, few, seen, many, known, home, second);
    case Declare(x, value) =>
      SettledMarkedE(p, few, seen, many, known, value);
      FlownMarked(p, few, many, value, OfLocal(x));
    case LocalFunction(x, id) => FlowsMarked(p, few, many, One(id), One(id), One(id), OfLocal(x));
    case FunctionAt(target, id) => SettledMarkedT(p, few, seen, many, known, target, One(id), One(id), One(id));
    case Assign(target, value) =>
      SettledMarkedE(p, few, seen, many, known, value);
      MeaningMarked(p, few, many, value);
      SettledMarkedT(p, few, seen, many, known, target, Meaning(p, few, value), Meaning(p, Marked(p, few, many), value),
                     Meaning(p, many, value));
    case Return(value) =>
      SettledMarkedE(p, few, seen, many, known, value);
      FlownMarked(p, few, many, value, home);
    case Do(value) =>
      SettledMarkedE(p, few, seen, many, known, value);
      ObservedMarked(p, few, many, value);
    case If(cond, yes, no) =>
      SettledMarkedE(p, few, seen, many, known, cond);
      ObservedMarked(p, few, many, cond);
      SettledMarkedS(p, few, seen, many, known, home, yes);
      SettledMarkedS(p, few, seen, many, known, home, no);
    case While(cond, body) =>
      SettledMarkedE(p, few, seen, many, known, cond);
      ObservedMarked(p, few, many, cond);
      SettledMarkedS(p, few, seen, many, known, home, body);
  }

  lemma HostUsesMarked(p: Package, few: Facts, many: Facts, o: nat)
    requires Nested(p, few, many) && o < |p.objects| && HostUses(p, few, o) && HostUses(p, many, o)
    ensures HostUses(p, Marked(p, few, many), o)
  {
    if p.objects[o].Closure? {
      AtMarked(p, few, many, OfReturn(o));
      EscapesMarked(p, few, many, At(few, OfReturn(o)), At(Marked(p, few, many), OfReturn(o)), At(many, OfReturn(o)));
    }
  }

  lemma ObjectMarked(p: Package, few: Facts, seen: ReadKeys, many: Facts, known: ReadKeys, o: nat)
    requires Nested(p, few, many) && o < |p.objects| && SettledObject(p, few, seen, o) && SettledObject(p, many, known, o)
    ensures SettledObject(p, Marked(p, few, many), MarkedKeys(p, seen, known), o)
  {
    hide HostUses, SettledS;
    if Escaped(o) in Marked(p, few, many) {
      assert Escaped(o) in few;
      HostUsesMarked(p, few, many, o);
    }
    if IsFunction(p, o) && Active(o) in Marked(p, few, many) {
      assert Active(o) in few;
      SettledMarkedS(p, few, seen, many, known, OfReturn(o), p.objects[o].body);
    }
  }

  /** The analysis's facts, with what larger closed facts know of strings, are closed. */
  lemma ClosedMarked(p: Package, few: Facts, seen: ReadKeys, many: Facts, known: ReadKeys)
    requires Nested(p, few, many) && p.entry < |p.modules| && PostFixpoint(p, few, seen) && PostFixpoint(p, many, known)
    ensures PostFixpoint(p, Marked(p, few, many), MarkedKeys(p, seen, known))
  {
    hide Nested, SettledS, SettledObject, Marked, MarkedKeys;
    forall m | 0 <= m < |p.modules| ensures SettledS(p, Marked(p, few, many), MarkedKeys(p, seen, known), OfModule(m), p.modules[m].body) {
      SettledMarkedS(p, few, seen, many, known, OfModule(m), p.modules[m].body);
    }
    AtMarked(p, few, many, OfModule(p.entry));
    EscapesMarked(p, few, many, At(few, OfModule(p.entry)), At(Marked(p, few, many), OfModule(p.entry)), At(many, OfModule(p.entry)));
    forall o | 0 <= o < |p.objects| ensures SettledObject(p, Marked(p, few, many), MarkedKeys(p, seen, known), o) {
      ObjectMarked(p, few, seen, many, known, o);
    }
  }
}
