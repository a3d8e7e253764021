/** What the rewrite cuts: every unused function whose edit fits, and the statement around it where the
    field it stores is removable. */
module PruneChoice {
  import opened Wrappers
  import opened PackageSyntax
  import opened ClosureFacts
  import opened FactOrder
  import opened ClosureAnalysis
  import opened PackageMachine
  import opened Pruning
  import opened PruneTheorem
  import opened TextMarks
  import opened ClosurePrecision

  // ----- following initialisers -----

  lemma {:induction false} AnchorStays(p: Package, e: Expr, n: nat, m: nat)
    requires n <= m && Anchor(p, e, n).Some?
    ensures Anchor(p, e, m) == Anchor(p, e, n)
    decreases n
  {
    if e.Local? {
      AnchorStays(p, p.initial[e.x], n - 1, m - 1);
    }
  }

  /** The shortest chain to a table passes every local at most once. */
  lemma {:induction false} ShortChain(p: Package, e: Expr, n: nat) returns (passed: set<nat>)
    requires n > 0 && Anchor(p, e, n).Some? && Anchor(p, e, n - 1).None?
    ensures passed <= p.initial.Keys && |passed| == n - 1
    ensures forall x :: x in passed ==> Anchor(p, Expr.Local(x), n).Some?
    decreases n
  {
    if e.Local? {
      passed := ShortChain(p, p.initial[e.x], n - 1);
      assert Anchor(p, Expr.Local(e.x), n - 1).None?;
      assert e.x !in passed;
      forall x | x in passed + {e.x} ensures Anchor(p, Expr.Local(x), n).Some? {
        if x != e.x {
          AnchorStays(p, Expr.Local(x), n - 1, n);
        }
      }
      passed := passed + {e.x};
    } else {
      passed := {};
    }
  }

  lemma {:induction false} FewKeys(a: set<nat>, b: set<nat>)
    requires a <= b
    ensures |a| <= |b|
  {
    assert b == a + (b - a);
  }

  /** Following as many initialisers as there are is enough to find every anchor. */
  lemma {:induction false} AnchorBound(p: Package, e: Expr, n: nat)
    requires Anchor(p, e, n).Some?
    ensures Anchor(p, e, |p.initial| + 1) == Anchor(p, e, n)
    decreases n
  {
    if n > 1 && Anchor(p, e, n - 1).Some? {
      AnchorBound(p, e, n - 1);
      AnchorStays(p, e, n - 1, n);
    } else {
      var passed := ShortChain(p, e, n);
      FewKeys(passed, p.initial.Keys);
      AnchorStays(p, e, n, |p.initial| + 1);
    }
  }

  /** Is the store of a function statement removable? The base is followed through initialisers of locals
      that are never assigned, at most as often as there are initialisers. */
  method RemovableField(c: Cut, t: Target) returns (r: bool)
    ensures r <==> RemovableAt(c, t)
  {
    if !t.ToField? {
      return false;
    }
    var base := t.base;
    ghost var n := |c.p.initial| + 1;
    for depth := 0 to |c.p.initial| + 1
      invariant n == |c.p.initial| + 1 - depth && Anchor(c.p, t.base, |c.p.initial| + 1) == Anchor(c.p, base, n)
    {
      if base.Table? {
        r := Escaped(base.id) !in c.facts && (base.id, t.key) !in c.seen;
        Decided(c, t, r);
        return;
      }
      if !base.Local? || base.x in c.p.reassigned || base.x !in c.p.initial {
        Unanchored(c, t);
        return false;
      }
      base := c.p.initial[base.x];
      n := n - 1;
    }
    Unanchored(c, t);
    return false;
  }

  lemma Decided(c: Cut, t: Target, r: bool)
    requires t.ToField? && Anchor(c.p, t.base, |c.p.initial| + 1).Some?
    requires r <==> RemovableWithin(c, t.base, t.key, |c.p.initial| + 1)
    ensures r <==> RemovableAt(c, t)
  {
    if RemovableAt(c, t) {
      var n: nat :| RemovableWithin(c, t.base, t.key, n);
      AnchorBound(c.p, t.base, n);
    }
  }

  lemma Unanchored(c: Cut, t: Target)
    requires t.ToField? && Anchor(c.p, t.base, |c.p.initial| + 1).None?
    ensures !RemovableAt(c, t)
  {
    if RemovableAt(c, t) {
      var n: nat :| RemovableWithin(c, t.base, t.key, n);
      AnchorBound(c.p, t.base, n);
    }
  }

  // ----- choosing -----

  /** Cut function `o`: always with its statement if the store is removable, else if `nil` fits in its place. */
  ghost predicate Chosen(c: Cut, fits: set<nat>, o: nat, dead: bool, gone: bool) {
    && (gone <==> IsFunction(c.p, o) && Unused(c.facts, o) && o in c.p.declared && RemovableAt(c, c.p.declared[o]))
    && (dead <==> IsFunction(c.p, o) && Unused(c.facts, o) && (gone || o in fits))
  }

  /** Choose what to cut from settled facts; `fits` are the functions whose replacement fits their text. */
  method Choose(p: Package, facts: Facts, seen: ReadKeys, fits: set<nat>) returns (c: Cut)
    ensures c.p == p && c.facts == facts && c.seen == seen && forall o :: o in c.dead ==> o < |p.objects|
    ensures forall o :: 0 <= o < |p.objects| ==> Chosen(c, fits, o, o in c.dead, o in c.gone)
    ensures WellScoped(p) && PostFixpoint(p, facts, seen) ==> Sound(c)
  {
    c := Cut(p, facts, seen, {}, {});
    for o := 0 to |p.objects|
      invariant c.p == p && c.facts == facts && c.seen == seen
      invariant forall k :: k in c.dead || k in c.gone ==> k < o
      invariant forall k :: 0 <= k < o ==> Chosen(c, fits, k, k in c.dead, k in c.gone)
    {
      ghost var was := c;
      if IsFunction(p, o) && Unused(facts, o) {
        var gone := false;
        if o in p.declared {
          gone := RemovableField(c, p.declared[o]);
        }
        if gone {
          c := c.(dead := c.dead + {o}, gone := c.gone + {o});
        } else if o in fits {
          c := c.(dead := c.dead + {o});
        }
      }
      forall k | 0 <= k < o + 1 ensures Chosen(c, fits, k, k in c.dead, k in c.gone) {
        RemovableKept(was, c, k);
        assert k < o ==> Chosen(was, fits, k, k in was.dead, k in was.gone);
      }
    }
    forall o | o in c.dead || o in c.gone ensures Chosen(c, fits, o, o in c.dead, o in c.gone) {
    }
  }

  /** Being removable is a matter of the facts, not of what else is cut. */
  lemma RemovableKept(a: Cut, b: Cut, k: nat)
    requires a.p == b.p && a.facts == b.facts && a.seen == b.seen && k < |a.p.objects|
    ensures k in a.p.declared ==> (RemovableAt(a, a.p.declared[k]) <==> RemovableAt(b, b.p.declared[k]))
  {
    if k in a.p.declared && a.p.declared[k].ToField? {
      var t := a.p.declared[k];
      if n: nat :| RemovableWithin(a, t.base, t.key, n) {
        assert RemovableWithin(b, t.base, t.key, n);
      }
      if n: nat :| RemovableWithin(b, t.base, t.key, n) {
        assert RemovableWithin(a, t.base, t.key, n);
      }
    }
  }

  ghost predicate BehavesAs(c: Cut, host: Host, fuel: nat)
    requires WellScoped(c.p)
  {
    EndAlike(PackageMachine.Run(c.p, host, fuel), PackageMachine.Run(Pruned(c), host, fuel))
  }

  /** Every host sees the same, in runs of every length. */
  ghost predicate Indistinguishable(c: Cut)
    requires WellScoped(c.p)
  {
    forall host, fuel :: BehavesAs(c, host, fuel)
  }

  // ----- a condition on the package -----

  /** Tighter bounds and fewer cut functions. */
  ghost predicate Within(b: Bounds, d: Bounds) {
    b.p == d.p && d.lower <= b.lower && b.upper <= d.upper && b.dead <= d.dead
  }

  lemma LeftKeptWithin(b: Bounds, d: Bounds, left: Expr)
    requires Within(b, d) && LeftKept(d, left)
    ensures LeftKept(b, left)
  {
    MeaningGrows(b.p, b.upper, d.upper, left);
  }

  lemma OperandsWithin(b: Bounds, d: Bounds, op: nat, left: Expr, right: Expr)
    requires Within(b, d) && OperandsKept(d, op, left, right)
    ensures OperandsKept(b, op, left, right)
  {
    hide Meaning;
    MeaningGrows(b.p, b.upper, d.upper, left);
    MeaningGrows(b.p, b.upper, d.upper, right);
  }

  lemma MethodWithin(b: Bounds, d: Bounds, e: Expr)
    requires Within(b, d) && e.Index? && MethodKept(d, e)
    ensures MethodKept(b, e)
  {
    hide Meaning;
    MeaningGrows(b.p, b.upper, d.upper, e.base);
    MeaningGrows(b.p, d.lower, b.lower, e);
  }

  lemma {:induction false} KeptWithinE(b: Bounds, d: Bounds, e: Expr)
    requires Within(b, d) && KeptE(d, e)
    ensures KeptE(b, e)
    decreases e
  {
    hide LeftKept, OperandsKept, MethodKept, Within;
    match e
    case Table(_, items) => KeptWithinItems(b, d, items);
    case Index(base, _) => KeptWithinE(b, d, base); MethodWithin(b, d, e);
    case IndexBy(base, index) => KeptWithinE(b, d, base); KeptWithinE(b, d, index);
    case Call(func, args) => KeptWithinE(b, d, func); KeptWithinArgs(b, d, args);
    case And(left, right) => LeftKeptWithin(b, d, left); KeptWithinE(b, d, left); KeptWithinE(b, d, right);
    case Or(left, right) => LeftKeptWithin(b, d, left); KeptWithinE(b, d, left); KeptWithinE(b, d, right);
    case Binary(op, left, right) => OperandsWithin(b, d, op, left, right); KeptWithinE(b, d, left); KeptWithinE(b, d, right);
    case Not(arg) => KeptWithinE(b, d, arg);
    case Len(arg) => KeptWithinE(b, d, arg);
    case IfElse(cond, yes, no) => KeptWithinE(b, d, cond); KeptWithinE(b, d, yes); KeptWithinE(b, d, no);
    case _ =>
  }

  lemma {:induction false} KeptWithinArgs(b: Bounds, d: Bounds, args: Exprs)
    requires Within(b, d) && KeptArgs(d, args)
    ensures KeptArgs(b, args)
    decreases args
  {
    if args.Arg? {
      KeptWithinE(b, d, args.head);
      KeptWithinArgs(b, d, args.rest);
    }
  }

  lemma {:induction false} KeptWithinItems(b: Bounds, d: Bounds, items: Items)
    requires Within(b, d) && KeptItems(d, items)
    ensures KeptItems(b, items)
    decreases items
  {
    match items
    case NoItems =>
    case Field(_, value, rest) => KeptWithinE(b, d, value); KeptWithinItems(b, d, rest);
    case Entry(index, value, rest) =>
      KeptWithinE(b, d, index);
      KeptWithinE(b, d, value);
      KeptWithinItems(b, d, rest);
  }

  lemma KeptWithinT(b: Bounds, d: Bounds, t: Target)
    requires Within(b, d) && KeptT(d, t)
    ensures KeptT(b, t)
  {
    match t
    case ToField(base, _) => KeptWithinE(b, d, base);
    case ToEntry(base, index) => KeptWithinE(b, d, base); KeptWithinE(b, d, index);
    case _ =>
  }

  lemma {:induction false} KeptWithinS(b: Bounds, d: Bounds, s: Stmt)
    requires Within(b, d) && KeptS(d, s)
    ensures KeptS(b, s)
    decreases s
  {
    hide KeptE, KeptT, Within;
    match s
    case Then(first, second) => KeptWithinS(b, d, first); KeptWithinS(b, d, second);
    case Declare(_, value) => KeptWithinE(b, d, value);
    case FunctionAt(target, _) => KeptWithinT(b, d, target);
    case Assign(target, value) => KeptWithinT(b, d, target); KeptWithinE(b, d, value);
    case Return(value) => KeptWithinE(b, d, value);
    case Do(value) => KeptWithinE(b, d, value);
    case If(cond, yes, no) => KeptWithinE(b, d, cond); KeptWithinS(b, d, yes); KeptWithinS(b, d, no);
    case While(cond, body) => KeptWithinE(b, d, cond); KeptWithinS(b, d, body);
    case _ =>
  }

  /** What wide bounds keep, narrower ones keep. */
  lemma KeptWithin(b: Bounds, d: Bounds)
    requires Within(b, d) && Kept(d)
    ensures Kept(b)
  {
    hide KeptS;
    forall m | 0 <= m < |b.p.modules| ensures KeptS(b, b.p.modules[m].body) {
      KeptWithinS(b, d, b.p.modules[m].body);
    }
    forall o: nat | IsFunction(b.p, o) && Active(o) in b.upper ensures KeptS(b, b.p.objects[o].body) {
      KeptWithinS(b, d, b.p.objects[o].body);
    }
  }

  // ----- a cut and what is known of strings -----

  lemma {:induction false} SameE(c: Cut, d: Cut, e: Expr)
    requires c.dead == d.dead
    ensures PruneE(c, e) == PruneE(d, e)
    decreases e
  {
    match e
    case Table(_, items) => SameItems(c, d, items);
    case Index(base, _) => SameE(c, d, base);
    case IndexBy(base, index) => SameE(c, d, base); SameE(c, d, index);
    case Call(func, args) => SameE(c, d, func); SameArgs(c, d, args);
    case And(left, right) => SameE(c, d, left); SameE(c, d, right);
    case Or(left, right) => SameE(c, d, left); SameE(c, d, right);
    case Binary(_, left, right) => SameE(c, d, left); SameE(c, d, right);
    case Not(arg) => SameE(c, d, arg);
    case Len(arg) => SameE(c, d, arg);
    case IfElse(cond, yes, no) => SameE(c, d, cond); SameE(c, d, yes); SameE(c, d, no);
    case _ =>
  }

  lemma {:induction false} SameArgs(c: Cut, d: Cut, args: Exprs)
    requires c.dead == d.dead
    ensures PruneArgs(c, args) == PruneArgs(d, args)
    decreases args
  {
    if args.Arg? {
      SameE(c, d, args.head);
      SameArgs(c, d, args.rest);
    }
  }

  lemma {:induction false} SameItems(c: Cut, d: Cut, items: Items)
    requires c.dead == d.dead
    ensures PruneItems(c, items) == PruneItems(d, items)
    decreases items
  {
    match items
    case NoItems =>
    case Field(_, value, rest) => SameE(c, d, value); SameItems(c, d, rest);
    case Entry(index, value, rest) => SameE(c, d, index); SameE(c, d, value); SameItems(c, d, rest);
  }

  lemma SameT(c: Cut, d: Cut, t: Target)
    requires c.dead == d.dead
    ensures PruneT(c, t) == PruneT(d, t)
  {
    match t
    case ToField(base, _) => SameE(c, d, base);
    case ToEntry(base, index) => SameE(c, d, base); SameE(c, d, index);
    case _ =>
  }

  lemma {:induction false} SameS(c: Cut, d: Cut, s: Stmt)
    requires c.dead == d.dead && c.gone == d.gone
    ensures PruneS(c, s) == PruneS(d, s)
    decreases s
  {
    match s
    case Then(first, second) => SameS(c, d, first); SameS(c, d, second);
    case Declare(_, value) => SameE(c, d, value);
    case FunctionAt(target, _) => SameT(c, d, target);
    case Assign(target, value) => SameT(c, d, target); SameE(c, d, value);
    case Return(value) => SameE(c, d, value);
    case Do(value) => SameE(c, d, value);
    case If(cond, yes, no) => SameE(c, d, cond); SameS(c, d, yes); SameS(c, d, no);
    case While(cond, body) => SameE(c, d, cond); SameS(c, d, body);
    case _ =>
  }

  /** The pruned package depends on what is cut, not on why. */
  lemma PrunedSame(c: Cut, d: Cut)
    requires c.p == d.p && c.dead == d.dead && c.gone == d.gone
    ensures Pruned(c) == Pruned(d)
  {
    hide PruneS;
    forall o | 0 <= o < |c.p.objects| ensures PruneObject(c, c.p.objects[o]) == PruneObject(d, c.p.objects[o]) {
      if c.p.objects[o].Closure? {
        SameS(c, d, c.p.objects[o].body);
      }
    }
    forall m | 0 <= m < |c.p.modules| ensures PruneModule(c, c.p.modules[m]) == PruneModule(d, c.p.modules[m]) {
      SameS(c, d, c.p.modules[m].body);
    }
    assert PruneObjects(c, |c.p.objects|) == PruneObjects(d, |c.p.objects|);
    assert PruneModules(c, |c.p.modules|) == PruneModules(d, |c.p.modules|);
  }

  /** The same cut, by facts that also know what larger facts know of strings. */
  function WithTexts(c: Cut, upper: Facts, known: ReadKeys): Cut {
    c.(facts := Marked(c.p, c.facts, upper), seen := MarkedKeys(c.p, c.seen, known))
  }

  lemma {:induction false} AnchorKnown(p: Package, e: Expr, n: nat)
    requires WellScoped(p) && TableKnown(p, e) && Anchor(p, e, n).Some?
    ensures Anchor(p, e, n).value < |p.objects|
    decreases n
  {
    if e.Local? {
      AnchorKnown(p, p.initial[e.x], n - 1);
    }
  }

  lemma RemovableMarked(c: Cut, upper: Facts, known: ReadKeys, o: nat)
    requires WellScoped(c.p) && o in c.p.declared && RemovableAt(c, c.p.declared[o])
    ensures RemovableAt(WithTexts(c, upper, known), c.p.declared[o])
  {
    var t := c.p.declared[o];
    var n: nat :| RemovableWithin(c, t.base, t.key, n);
    AnchorKnown(c.p, t.base, n);
    assert RemovableWithin(WithTexts(c, upper, known), t.base, t.key, n);
  }

  lemma SoundMarked(c: Cut, upper: Facts, known: ReadKeys)
    requires Sound(c) && Nested(c.p, c.facts, upper) && PostFixpoint(c.p, upper, known)
    ensures Sound(WithTexts(c, upper, known))
  {
    hide PostFixpoint, RemovableAt;
    ClosedMarked(c.p, c.facts, c.seen, upper, known);
    forall o | o in c.gone ensures RemovableAt(WithTexts(c, upper, known), c.p.declared[o]) {
      RemovableMarked(c, upper, known, o);
    }
  }

  /** Where nothing goes wrong between the facts of the cut and larger ones that track strings, no host can
      tell the pruned package from the original. */
  lemma KeptIndistinguishable(c: Cut, upper: Facts, known: ReadKeys)
    requires Sound(c) && c.facts <= Universe(c.p) && c.facts <= upper
    requires PostFixpoint(c.p, upper, known) && Tracks(c.p, upper) && Kept(Bounds(c.p, c.facts, upper, c.dead))
    ensures Indistinguishable(c)
  {
    hide PostFixpoint, Kept, Pruned, BehavesAs;
    var d := WithTexts(c, upper, known);
    SoundMarked(c, upper, known);
    KeptWithin(Exactly(d), Bounds(c.p, c.facts, upper, c.dead));
    PrunedSame(c, d);
    forall host, fuel ensures BehavesAs(c, host, fuel) {
      AllowedBehaves(d, host, fuel);
      BehaveSame(c, d, host, fuel);
    }
  }

  lemma AllowedBehaves(c: Cut, host: Host, fuel: nat)
    requires Allowed(c)
    ensures BehavesAs(c, host, fuel)
  {
    PruningPreservesBehaviour(c, host, fuel);
  }

  lemma BehaveSame(c: Cut, d: Cut, host: Host, fuel: nat)
    requires WellScoped(c.p) && c.p == d.p && Pruned(c) == Pruned(d) && BehavesAs(d, host, fuel)
    ensures BehavesAs(c, host, fuel)
  {
  }

  // ----- pruning as a whole -----

  /** Functions that facts say nothing of. */
  ghost function Idle(p: Package, facts: Facts): set<nat> {
    set o | o in Numbers(|p.objects|) && IsFunction(p, o) && Unused(facts, o)
  }

  /** Contained in all closed facts. */
  ghost predicate Certain(p: Package, facts: Facts)
    requires p.entry < |p.modules|
  {
    forall all, seen :: PostFixpoint(p, all, seen) ==> facts <= all
  }

  ghost predicate KeptBetween(p: Package, lower: Facts, upper: Facts, known: ReadKeys)
    requires p.entry < |p.modules|
  {
    && Certain(p, lower) && PostFixpoint(p, upper, known) && Tracks(p, upper)
    && Kept(Bounds(p, lower, upper, Idle(p, lower)))
  }

  /** A condition on the package: by some closed facts that track strings, left operands are no idle functions,
      what meets a host operator may be shown to the host, and only values that may be anything come from
      strings. What helps has to be certain; no certain fact is needed to begin with. */
  ghost predicate Prunable(p: Package)
    requires p.entry < |p.modules|
  {
    exists lower, upper, known :: KeptBetween(p, lower, upper, known)
  }

  /** Analyse, and cut what the facts allow. The facts are contained in all closed facts, of which the
      caller may name any. */
  method PruneBelow(p: Package, refused: bool, fits: set<nat>, ghost goal: Goal) returns (r: Option<Cut>)
    requires WellScoped(p) && (goal.solved ==> PostFixpoint(p, goal.facts, goal.seen))
    ensures r.Some? ==> !refused && r.value.p == p && Sound(r.value) && r.value.facts <= Universe(p)
    ensures r.Some? ==> forall o :: 0 <= o < |p.objects| ==> Chosen(r.value, fits, o, o in r.value.dead, o in r.value.gone)
    ensures goal.solved && !refused ==> r.Some? && r.value.facts <= goal.facts && r.value.seen <= goal.seen
    ensures r.Some? && goal.solved && !refused && Tracks(p, goal.facts) && Kept(Bounds(p, r.value.facts, goal.facts, r.value.dead))
            ==> Indistinguishable(r.value)
  {
    hide WellScoped, PostFixpoint, Universe, Kept, Sound;
    var a := new Analysis(p, refused);
    var done := a.Run(goal);
    if !done {
      return None;
    }
    var c := Choose(p, a.facts, a.seen, fits);
    if goal.solved && !refused && Tracks(p, goal.facts) && Kept(Bounds(p, c.facts, goal.facts, c.dead)) {
      KeptIndistinguishable(c, goal.facts, goal.seen);
    }
    return Some(c);
  }

  /** Shelved functions are cut, and with their statements where these put them under a key. */
  ghost predicate Shed(c: Cut, fits: set<nat>, shelves: Shelves) {
    forall g :: g in shelves && !shelves[g].Tested? ==>
      && (g in fits ==> g in c.dead)
      && (shelves[g].InField? && g in c.p.declared && c.p.declared[g] == TargetOf(shelves[g]) ==> g in c.gone)
  }

  /** Whatever fits into the text, a package that meets the condition is pruned, and behaves as before
      towards every host. And it loses all there is to lose of functions that are only put where nobody looks, though
      functions that are only tested may use them. */
  method PrunePackage(p: Package, refused: bool, fits: set<nat>) returns (r: Option<Cut>)
    requires WellScoped(p)
    ensures r.Some? ==> r.value.p == p && Sound(r.value)
    ensures r.Some? ==> forall o :: 0 <= o < |p.objects| ==> Chosen(r.value, fits, o, o in r.value.dead, o in r.value.gone)
    ensures r.Some? ==> forall shelves :: OnlyShelved(p, shelves) ==> Shed(r.value, fits, shelves)
    ensures Prunable(p) && !refused ==> r.Some? && Indistinguishable(r.value)
  {
    hide PostFixpoint, OnlyShelved, Shed, Sound, WellScoped, Minimal, Indistinguishable, Kept;
    EntryExists(p);
    ghost var goal, lower, upper, known := Goal(false, {}, {}), {}, {}, {};
    if Prunable(p) {
      lower, upper, known :| KeptBetween(p, lower, upper, known);
    } else if exists facts, seen :: PostFixpoint(p, facts, seen) {
      upper, known :| PostFixpoint(p, upper, known);
    }
    if Prunable(p) || exists facts, seen :: PostFixpoint(p, facts, seen) {
      ghost var few, read := MinimalBelow(p, upper, known);
      goal := Goal(true, few, read);
    }
    r := PruneBelow(p, refused, fits, goal);
    if r.Some? {
      SoundCloses(r.value);
      if Prunable(p) {
        BoundsFit(r.value, lower, upper, known);
        KeptIndistinguishable(r.value, upper, known);
      }
      forall shelves | OnlyShelved(p, shelves) ensures Shed(r.value, fits, shelves) {
        ShelvesShed(r.value, fits, shelves, goal.facts, goal.seen);
      }
    }
  }

  lemma EntryExists(p: Package)
    requires WellScoped(p)
    ensures p.entry < |p.modules|
  {
  }

  lemma SoundCloses(c: Cut)
    requires Sound(c)
    ensures PostFixpoint(c.p, c.facts, c.seen)
  {
  }

  lemma ShelvesShed(c: Cut, fits: set<nat>, shelves: Shelves, facts: Facts, seen: ReadKeys)
    requires Sound(c) && OnlyShelved(c.p, shelves) && c.facts <= facts && c.seen <= seen
    requires PostFixpoint(c.p, facts, seen) && Minimal(c.p, facts, seen)
    requires forall o :: 0 <= o < |c.p.objects| ==> Chosen(c, fits, o, o in c.dead, o in c.gone)
    ensures Shed(c, fits, shelves)
  {
    hide PostFixpoint, WellScoped, Minimal, ClearS, ClearBody;
    EntryExists(c.p);
    forall g | g in shelves && !shelves[g].Tested?
      ensures (g in fits ==> g in c.dead)
      ensures shelves[g].InField? && g in c.p.declared && c.p.declared[g] == TargetOf(shelves[g]) ==> g in c.gone
    {
      assert ShelfFits(c.p, shelves, g);
      MinimalIgnores(c.p, shelves, facts, seen, g);
      assert Chosen(c, fits, g, g in c.dead, g in c.gone);
      if shelves[g].InField? {
        var x := shelves[g].x;
        assert Anchor(c.p, Expr.Local(x), 2) == Some(Site(c.p, x));
        assert RemovableWithin(c, Expr.Local(x), shelves[g].key, 2);
      }
    }
  }

  /** The cut lies between the bounds. */
  lemma BoundsFit(c: Cut, lower: Facts, upper: Facts, known: ReadKeys)
    requires Sound(c) && c.facts <= upper && KeptBetween(c.p, lower, upper, known)
    ensures Kept(Bounds(c.p, c.facts, upper, c.dead))
  {
    hide PostFixpoint, Kept, WellScoped;
    forall o | o in c.dead ensures o in Idle(c.p, lower) {
      assert Unused(c.facts, o);
    }
    KeptWithin(Bounds(c.p, c.facts, upper, c.dead), Bounds(c.p, lower, upper, Idle(c.p, lower)));
  }
}
