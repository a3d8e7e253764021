/** Facts ordered by inclusion: how far they can grow, and that values grow with them. */
module FactOrder {
  import opened PackageSyntax
  import opened ClosureFacts

  // ----- how far facts can grow -----

  predicate FitsPlace(p: Package, place: Place) {
    match place
    case OfLocal(x) => x < p.locals
    case OfField(o, key) => o < |p.objects| && key in p.keys
    case OfEntries(o) => o < |p.objects|
    case OfReturn(o) => o < |p.objects|
    case OfModule(m) => m < |p.modules|
    case OfText => false
  }

  predicate FitsAbs(p: Package, a: Abs) {
    forall o :: o in a.objects ==> o < |p.objects|
  }

  ghost function Numbers(n: nat): (r: set<nat>)
    ensures forall i: nat :: i in r <==> i < n
  {
    if n == 0 then {} else Numbers(n - 1) + {n - 1}
  }

  ghost function Places(p: Package): (r: set<Place>)
    ensures forall place :: place in r <==> FitsPlace(p, place)
  {
    (set x | x in Numbers(p.locals) :: OfLocal(x))
    + (set o, key | o in Numbers(|p.objects|) && key in p.keys :: OfField(o, key))
    + (set o | o in Numbers(|p.objects|) :: OfEntries(o))
    + (set o | o in Numbers(|p.objects|) :: OfReturn(o))
    + (set m | m in Numbers(|p.modules|) :: OfModule(m))
  }

  predicate FitsFact(p: Package, f: Fact) {
    (f.MayBeAny? || f.item < |p.objects|) && (f.MayHold? || f.MayBeAny? ==> FitsPlace(p, f.place))
  }

  ghost function PlaceFacts(p: Package): (r: Facts)
    ensures forall f :: f in r <==> (f.MayHold? || f.MayBeAny?) && FitsFact(p, f)
  {
    assert forall f :: FitsFact(p, f) && f.MayHold? ==> f.place in Places(p) && f.item in Numbers(|p.objects|);
    assert forall f :: FitsFact(p, f) && f.MayBeAny? ==> f.place in Places(p);
    (set place, o | place in Places(p) && o in Numbers(|p.objects|) :: MayHold(place, o))
    + (set place | place in Places(p) :: MayBeAny(place))
  }

  ghost function ObjectFacts(p: Package): (r: Facts)
    ensures forall f :: f in r <==> !f.MayHold? && !f.MayBeAny? && FitsFact(p, f)
  {
    assert forall f :: FitsFact(p, f) && !f.MayHold? && !f.MayBeAny? ==> f.item in Numbers(|p.objects|);
    (set o | o in Numbers(|p.objects|) :: Active(o))
    + (set o | o in Numbers(|p.objects|) :: Observed(o))
    + (set o | o in Numbers(|p.objects|) :: Escaped(o))
  }

  /** All facts there can be about a package. */
  ghost function Universe(p: Package): (r: Facts)
    ensures forall f :: f in r <==> FitsFact(p, f)
  {
    PlaceFacts(p) + ObjectFacts(p)
  }

  // ----- more facts, larger values -----

  predicate Le(a: Abs, b: Abs) {
    (a.any ==> b.any) && a.objects <= b.objects
  }

  lemma AtGrows(few: Facts, many: Facts, place: Place)
    requires few <= many
    ensures Le(At(few, place), At(many, place))
  {
  }

  lemma FieldAnyGrows(p: Package, few: Facts, many: Facts, o: nat, key: string)
    requires few <= many && FieldAny(p, few, o, key)
    ensures FieldAny(p, many, o, key)
  {
  }

  lemma FieldOfGrows(p: Package, few: Facts, many: Facts, a: Abs, b: Abs, key: string)
    requires few <= many && Le(a, b)
    ensures Le(FieldOf(p, few, a, key), FieldOf(p, many, b, key))
  {
    forall o | o in FieldOf(p, few, a, key).objects ensures o in FieldOf(p, many, b, key).objects {
      var f :| f in few && f.MayHold? && IsFieldOf(p, f.place, a.objects, key) && f.item == o;
      assert f in many && IsFieldOf(p, f.place, b.objects, key);
    }
    if o :| o in a.objects && FieldAny(p, few, o, key) {
      FieldAnyGrows(p, few, many, o, key);
    }
  }

  lemma EntryOfGrows(few: Facts, many: Facts, a: Abs, b: Abs)
    requires few <= many && Le(a, b)
    ensures Le(EntryOf(few, a), EntryOf(many, b))
  {
    forall o | o in EntryOf(few, a).objects ensures o in EntryOf(many, b).objects {
      var f :| f in few && f.MayHold? && IsEntryOf(f.place, a.objects) && f.item == o;
      assert f in many && IsEntryOf(f.place, b.objects);
    }
  }

  lemma ResultOfGrows(p: Package, few: Facts, many: Facts, a: Abs, b: Abs)
    requires few <= many && Le(a, b)
    ensures Le(ResultOf(p, few, a), ResultOf(p, many, b))
  {
    forall o | o in ResultOf(p, few, a).objects ensures o in ResultOf(p, many, b).objects {
      var f :| f in few && f.MayHold? && IsResultOf(p, f.place, a.objects) && f.item == o;
      assert f in many && IsResultOf(p, f.place, b.objects);
    }
    if o :| o in a.objects && ResultAny(p, few, o) {
      assert o in b.objects && ResultAny(p, many, o);
    }
  }

  /** With more facts an expression may evaluate to more. */
  lemma {:induction false} MeaningGrows(p: Package, few: Facts, many: Facts, e: Expr)
    requires few <= many
    ensures Le(Meaning(p, few, e), Meaning(p, many, e))
    decreases e
  {
    hide FieldOf, EntryOf, ResultOf, At;
    match e
    case Const(_) => AtGrows(few, many, OfText);
    case Local(x) => AtGrows(few, many, OfLocal(x));
    case Index(base, key) =>
      MeaningGrows(p, few, many, base);
      FieldOfGrows(p, few, many, Meaning(p, few, base), Meaning(p, many, base), key);
    case IndexBy(base, _) =>
      MeaningGrows(p, few, many, base);
      EntryOfGrows(few, many, Meaning(p, few, base), Meaning(p, many, base));
    case Require(name) =>
      var m := FindModule(p, name, 0);
      if m.Some? {
        AtGrows(few, many, OfModule(m.value));
      }
    case Call(func, _) =>
      MeaningGrows(p, few, many, func);
      ResultOfGrows(p, few, many, Meaning(p, few, func), Meaning(p, many, func));
    case And(left, right) =>
      MeaningGrows(p, few, many, left);
      MeaningGrows(p, few, many, right);
    case Or(left, right) =>
      MeaningGrows(p, few, many, left);
      MeaningGrows(p, few, many, right);
    case IfElse(_, yes, no) =>
      MeaningGrows(p, few, many, yes);
      MeaningGrows(p, few, many, no);
    case _ =>
  }

  /** Facts the analysis can find say nothing of strings. */
  lemma NoTexts(p: Package, facts: Facts)
    requires facts <= Universe(p)
    ensures At(facts, OfText) == NOTHING
  {
    forall f | f in facts ensures FitsFact(p, f) {
    }
    assert forall o :: MayHold(OfText, o) !in facts by {
      forall o ensures MayHold(OfText, o) !in facts {
        assert !FitsFact(p, MayHold(OfText, o));
      }
    }
    assert !FitsFact(p, MayBeAny(OfText));
  }

  // ----- one object more -----

  lemma FieldOfOne(p: Package, facts: Facts, a: Abs, o: nat, key: string)
    requires o < |p.objects|
    ensures FieldOf(p, facts, Abs(a.any, a.objects + {o}), key)
            == Join(FieldOf(p, facts, a, key),
                    if IsFunction(p, o) then ANY else Join(Abs(Escaped(o) in facts, {}), FieldAt(facts, o, key)))
  {
    var more, extra := FieldOf(p, facts, Abs(a.any, a.objects + {o}), key),
                       if IsFunction(p, o) then ANY else Join(Abs(Escaped(o) in facts, {}), FieldAt(facts, o, key));
    forall v | v in extra.objects ensures v in more.objects {
      var f := if v in At(facts, OfField(o, key)).objects then MayHold(OfField(o, key), v) else MayHold(OfEntries(o), v);
      assert f in facts && IsFieldOf(p, f.place, a.objects + {o}, key);
    }
    if FieldAny(p, facts, o, key) {
      assert o in a.objects + {o};
    }
    forall v | v in FieldOf(p, facts, a, key).objects ensures v in more.objects {
      FieldOfGrows(p, facts, facts, a, Abs(a.any, a.objects + {o}), key);
    }
    if more.any && !a.any {
      var q :| q in a.objects + {o} && FieldAny(p, facts, q, key);
    }
    FieldOfGrows(p, facts, facts, a, Abs(a.any, a.objects + {o}), key);
    assert more.objects == Join(FieldOf(p, facts, a, key), extra).objects;
  }

  lemma FieldOfNone(p: Package, facts: Facts, any: bool, key: string)
    ensures FieldOf(p, facts, Abs(any, {}), key) == Abs(any, {})
  {
  }

  lemma FieldFits(p: Package, facts: Facts, a: Abs, key: string)
    requires facts <= Universe(p)
    ensures FitsAbs(p, FieldOf(p, facts, a, key))
  {
    forall v | v in FieldOf(p, facts, a, key).objects ensures v < |p.objects| {
      var f :| f in facts && f.MayHold? && IsFieldOf(p, f.place, a.objects, key) && f.item == v;
      assert FitsFact(p, f);
    }
  }

  function ResultFrom(p: Package, facts: Facts, o: nat): Abs {
    if IsFunction(p, o) then At(facts, OfReturn(o)) else ANY
  }

  lemma ResultOfOne(p: Package, facts: Facts, a: Abs, o: nat)
    requires o < |p.objects|
    ensures ResultOf(p, facts, Abs(a.any, a.objects + {o}))
            == Join(ResultOf(p, facts, a), ResultFrom(p, facts, o))
  {
    var more, extra := ResultOf(p, facts, Abs(a.any, a.objects + {o})), ResultFrom(p, facts, o);
    forall v | v in extra.objects ensures v in more.objects {
      assert MayHold(OfReturn(o), v) in facts && IsResultOf(p, MayHold(OfReturn(o), v).place, a.objects + {o});
    }
    if ResultAny(p, facts, o) {
      assert o in a.objects + {o};
    }
    if more.any && !a.any {
      var q :| q in a.objects + {o} && ResultAny(p, facts, q);
    }
    ResultOfGrows(p, facts, facts, a, Abs(a.any, a.objects + {o}));
    assert more.objects == Join(ResultOf(p, facts, a), extra).objects;
  }
}
