/** The main result: a body and its threaded form run to the same results, in step with each other. */
module ThreadingTheorem {
  import opened Wrappers
  import opened Leb128
  import opened WasmCode
  import opened WasmMachine
  import opened CodeRewrite
  import opened DispatchPlan
  import opened DispatchSimulation
  import opened DispatchRuns

  lemma ReachedBelow(code: seq<Instr>, d: Dispatcher, k: nat)
    requires Valid(code, d) && !d.NoDispatcher? && NestedUpTo(code, |code|)
    requires IsPlainBlock(code, Reached(code, d, k))
    ensures Reached(code, d, k).value < d.sel && Reached(code, d, k).value != d.head
  {
    var l := Reached(code, d, k).value;
    assert Header(code, d.head, d.sel);
    if d.Single? {
      var t := code[d.sel + 1];
      LabelBelow(code, d.sel + 1, if k < |t.targets| then t.targets[k] else t.default, l);
    } else {
      assert Window(code, d.sel, d.base);
      WindowLabels(code, d.sel, d.base);
      var t := if k >= d.base then code[d.sel + 7] else code[d.sel + 10];
      var e := if k >= d.base then k - d.base else k;
      LabelBelow(code, d.sel + 10, if e < |t.targets| then t.targets[e] else t.default, l);
      HasShape(code, d.sel, l);
    }
  }

  lemma LabelBelow(code: seq<Instr>, i: nat, depth: nat, l: nat)
    requires i <= |code| && LabelAt(Labels(code, i), depth) == Some(l)
    ensures Has(Labels(code, i), l) && l < i
  {
    PeelHas(Labels(code, i), depth);
    HasShape(code, i, l);
  }

  lemma {:induction false} CleanSub(head: nat, sel: nat, frames: Frames, l: nat)
    requires CleanFrames(head, sel, frames)
    ensures CleanFrames(head, sel, SubChain(frames, l))
  {
    if frames.Frame? && frames.opener != l {
      CleanSub(head, sel, frames.outer, l);
    }
  }

  /** Entering the header anew gives every block the same surroundings it has now. */
  lemma SameBlock(code: seq<Instr>, head: nat, sel: nat, frames: Frames, i: nat, l: nat)
    requires Header(code, head, sel) && i <= |code| && Openers(frames) == Labels(code, i)
    requires CleanFrames(head, sel, frames)
    requires Has(Labels(code, i), head) && Has(Labels(code, i), l) && l < sel && l != head
    ensures SubChain(frames, l).Frame?
    ensures SubChain(Nested(SubChain(frames, head), head + 1, sel), l) == SubChain(frames, l)
  {
    NestedSub(SubChain(frames, head), head + 1, sel, l);
    if l < head {
      SubSub(code, frames, i, head, l);
      SubSub(code, frames, i, l, 0);
    } else {
      SubSub(code, frames, i, l, head);
      CleanSub(head, sel, frames, l);
      CleanIsNested(code, head, sel, SubChain(frames, l).outer, l);
    }
  }

  // ----- a replaced triple -----

  /** Everything the pass establishes before it rewrites, and the caller's duty towards paged tables. */
  ghost predicate Ready(code: seq<Instr>, d: Dispatcher) {
    WellNested(code) && Valid(code, d) && EntriesFit(code, d) && PlanSound(code, d)
  }

  ghost predicate CleanFor<W>(d: Dispatcher, s: State<W>) {
    d.NoDispatcher? || Clean(d.head, d.sel, s)
  }

  lemma TripleFacts(code: seq<Instr>, d: Dispatcher, b: nat)
    requires Ready(code, d) && Threadable(code, d, b)
    ensures var k := code[b - 2].value;
            var target := Reached(code, d, k);
            && k >= 0 && IsPlainBlock(code, target) && target == Entry(code, d, k)
            && target.value < d.sel && target.value != d.head
            && Labels(code, b - 2) == Labels(code, b - 1) == Labels(code, b)
            && Has(Labels(code, b), d.head) && Has(Labels(code, b), target.value)
            && NewDepth(code, d, b) == DepthOf(Labels(code, b), target.value)
  {
    var k := code[b - 2].value;
    EntryIsBlock(code, d, k);
    ReachedBelow(code, d, k);
    PeelHas(Labels(code, b), code[b].depth);
  }

  lemma EntryIsBlock(code: seq<Instr>, d: Dispatcher, k: nat)
    requires Valid(code, d) && EntriesFit(code, d) && Entry(code, d, k).Some?
    ensures IsPlainBlock(code, Entry(code, d, k))
  {
    match d
    case Single(_, sel) => assert EntryPlain(code, sel + 1, k);
    case Paged(_, sel, base) =>
      assert if k < |Low(code, d)| then EntryPlain(code, sel + 10, k) else EntryPlain(code, sel + 7, k - base);
  }

  lemma BackToLoop<W>(code: seq<Instr>, env: Env<W>, d: Dispatcher, b: nat, s: State<W>)
    requires Ready(code, d) && Threadable(code, d, b) && Openers(s.frames) == Labels(code, b)
    ensures Branch(code, env, s, s.vals, code[b].depth)
            == Running(s.(pc := d.head + 1, frames := SubChain(s.frames, d.head), vals := Empty))
  {
    OpenersUnwind(s.frames, code[b].depth);
    UnwindSub(code, s.frames, b, code[b].depth);
    assert Header(code, d.head, d.sel);
  }

  function Stored<W>(s: State<W>, k: i32): State<W>
    requires |s.locals| > SELECTOR
  {
    s.(locals := s.locals[SELECTOR as nat := I32(Bits(k))])
  }

  /** Storing the constant and branching back enters the loop anew. */
  lemma Reenter<W>(code: seq<Instr>, env: Env<W>, d: Dispatcher, b: nat, s: State<W>) returns (n: nat, c: Config<W>)
    requires Ready(code, d) && Threadable(code, d, b) && s.pc == b - 2 && Aligned(code, s)
    ensures n >= 1 && Run(code, env, Running(s), n) == c
    ensures c.Stuck? ||
            (|s.locals| > SELECTOR &&
             c == Running(Stored(s, code[b - 2].value).(pc := d.head + 1, frames := SubChain(s.frames, d.head), vals := Empty)))
  {
    hide Labels, Branch;
    var k := code[b - 2].value;
    TripleFacts(code, d, b);
    var pushed := s.(pc := b - 1, vals := Push(s.vals, I32(Bits(k))));
    RunOn(code, env, s, 2, Running(pushed));
    if |s.locals| <= SELECTOR {
      RunOn(code, env, pushed, 1, Stuck);
      RunFinal(code, env, Config<W>.Stuck, 1);
      return 3, Stuck;
    }
    var stored := Stored(s, k).(pc := b);
    RunOn(code, env, pushed, 1, Running(stored));
    BackToLoop(code, env, d, b, stored);
    c := Step(code, env, stored);
    RunOn(code, env, stored, 0, c);
    n := 3;
  }

  /** The original's detour: back to the loop, through the dispatcher, out of the block. */
  lemma Detour<W>(code: seq<Instr>, env: Env<W>, d: Dispatcher, b: nat, s: State<W>) returns (n: nat)
    requires Ready(code, d) && Threadable(code, d, b) && s.pc == b - 2 && Aligned(code, s) && CleanFor(d, s)
    ensures IsPlainBlock(code, Reached(code, d, code[b - 2].value))
    ensures var l := Reached(code, d, code[b - 2].value).value;
            var f := SubChain(s.frames, l);
            f.Frame? && n >= 1 &&
            (Run(code, env, Running(s), n).Stuck? ||
             (|s.locals| > SELECTOR &&
              Run(code, env, Running(s), n) == Running(Left(code, Stored(s, code[b - 2].value), l, f))))
  {
    hide Labels, Step, Branch, EndOf;
    var k := code[b - 2].value;
    TripleFacts(code, d, b);
    assert Header(code, d.head, d.sel);
    var l := Reached(code, d, k).value;
    SameBlock(code, d.head, d.sel, s.frames, b, l);
    var c;
    n, c := Reenter(code, env, d, b, s);
    if c.Running? {
      SubSub(code, s.frames, b, d.head, 0);
      HasShape(code, b, d.head);
      LabelsShape(code, b, DepthOf(Labels(code, b), d.head));
      var m := DispatcherRun(code, env, d, c.state, k);
      RunSplit(code, env, Running(s), n, m);
      n := n + m;
    }
  }

  /** A triple becomes one branch, at the place where the triple began. */
  lemma TriplePlace(code: seq<Instr>, plan: Plan, b: nat)
    requires Shaped(code, plan) && b in plan
    ensures 2 <= b < |code| && Place(code, plan, b - 2) < |Rewritten(code, plan)|
    ensures Rewritten(code, plan)[Place(code, plan, b - 2)] == Br(plan[b])
  {
    hide Labels, Rewritten;
    assert !Dropped(plan, b);
    PlaceOf(code, plan, b);
    assert Place(code, plan, b) == Place(code, plan, b - 1) == Place(code, plan, b - 2);
  }

  /** Branching from inside the loop to a block open there. */
  lemma DirectBranch<W>(code: seq<Instr>, env: Env<W>, s: State<W>, b: nat, l: nat)
    requires Aligned(code, s) && b <= |code| && Labels(code, s.pc) == Labels(code, b)
    requires Has(Labels(code, b), l) && IsPlainBlock(code, Some(l))
    ensures SubChain(s.frames, l).Frame?
    ensures Branch(code, env, s, s.vals, DepthOf(Labels(code, b), l)) == Running(Left(code, s, l, SubChain(s.frames, l)))
  {
    HasPeel(Labels(code, b), l);
    BranchToBlock(code, env, s, s.pc, s.vals, DepthOf(Labels(code, b), l), l);
  }

  /** The threaded code's one step: out of the same block. */
  lemma Shortcut<W>(code: seq<Instr>, plan: Plan, env: Env<W>, s: State<W>, t: State<W>, b: nat, l: nat)
    requires Shaped(code, plan) && Closed(code) && b in plan && s.pc == b - 2
    requires Aligned(code, s) && Shadows(code, plan, s, t) && Labels(code, s.pc) == Labels(code, b)
    requires Has(Labels(code, b), l) && IsPlainBlock(code, Some(l)) && plan[b] == DepthOf(Labels(code, b), l)
    ensures var f, ct := SubChain(s.frames, l), Step(Rewritten(code, plan), env, t);
            f.Frame? && Agree(code, plan, Running(Left(code, s, l, f)), ct) && KeepLocals(t, ct)
  {
    TriplePlace(code, plan, b);
    DirectBranch(code, env, s, b, l);
    BranchShadows(code, plan, env, s, t, s.vals, plan[b]);
  }

  /** Behind the end of a block control is outside triples and header. */
  lemma BehindEnd(code: seq<Instr>, plan: Plan, head: nat, sel: nat, e: nat)
    requires Shaped(code, plan) && Header(code, head, sel) && e < |code| && code[e].End?
    ensures BetweenTriples(plan, e + 1) && !(head < e + 1 <= sel)
  {
  }

  lemma LeftAligned<W>(code: seq<Instr>, s: State<W>, l: nat)
    requires Closed(code) && Aligned(code, s) && Has(Labels(code, s.pc), l) && l < |code|
    ensures SubChain(s.frames, l).Frame? && Aligned(code, Left(code, s, l, SubChain(s.frames, l)))
    ensures EndOf(code, l) < |code| && code[EndOf(code, l)].End?
  {
    SubSub(code, s.frames, s.pc, l, 0);
    EndFollows(code, l, s.pc);
  }

  /** Leaving a block by its end restores the relation, the selector being dead there. */
  lemma LeftRelated<W>(code: seq<Instr>, plan: Plan, head: nat, sel: nat, s: State<W>, ct: Config<W>, k: i32, l: nat)
    requires Shaped(code, plan) && Closed(code) && Header(code, head, sel) && l < |code|
    requires Aligned(code, s) && CleanFrames(head, sel, s.frames) && Has(Labels(code, s.pc), l)
    requires |s.locals| > SELECTOR && SubChain(s.frames, l).Frame?
    requires Agree(code, plan, Running(Left(code, s, l, SubChain(s.frames, l))), ct)
    requires ct.Running? && SameLocals(s.locals, ct.state.locals, false)
    requires EndOf(code, l) + 1 < |code| ==> !Live(code, EndOf(code, l) + 1)
    ensures var r := Left(code, Stored(s, k), l, SubChain(s.frames, l));
            Related(code, plan, r, ct.state) && Clean(head, sel, r)
  {
    hide Labels;
    LeftAligned(code, s, l);
    BehindEnd(code, plan, head, sel, EndOf(code, l));
    CleanSub(head, sel, s.frames, l);
    assert SameLocals(Stored(s, k).locals, ct.state.locals, Live(code, EndOf(code, l) + 1));
  }

  // ----- whole runs -----

  /** The original's configuration and the threaded code's, in step. */
  ghost predicate Simulates<W>(code: seq<Instr>, plan: Plan, d: Dispatcher, c: Config<W>, ct: Config<W>) {
    if c.Running? then ct.Running? && Related(code, plan, c.state, ct.state) && CleanFor(d, c.state) else ct == c
  }

  /** A replaced triple takes the threaded code one step and the original its whole detour. */
  lemma TripleStep<W>(code: seq<Instr>, plan: Plan, env: Env<W>, d: Dispatcher, b: nat, s: State<W>, t: State<W>)
    returns (n: nat)
    requires Ready(code, d) && Threadable(code, d, b) && s.pc == b - 2
    requires Shaped(code, plan) && b in plan && plan[b] == NewDepth(code, d, b)
    requires Related(code, plan, s, t) && CleanFor(d, s)
    ensures n >= 1
    ensures var c := Run(code, env, Running(s), n);
            c.Stuck? || Simulates(code, plan, d, c, Step(Rewritten(code, plan), env, t))
  {
    hide Labels, EndOf, ElseOf, Place, Live, Branch, Step;
    TripleFacts(code, d, b);
    assert Header(code, d.head, d.sel);
    n := Detour(code, env, d, b, s);
    var l := Reached(code, d, code[b - 2].value).value;
    Shortcut(code, plan, env, s, t, b, l);
    if Run(code, env, Running(s), n).Running? {
      LeftRelated(code, plan, d.head, d.sel, s, Step(Rewritten(code, plan), env, t), code[b - 2].value, l);
    }
  }

  /** Any other step is matched by one step. */
  lemma OtherStep<W>(code: seq<Instr>, plan: Plan, env: Env<W>, d: Dispatcher, s: State<W>, t: State<W>)
    requires Shaped(code, plan) && WellNested(code) && (d.NoDispatcher? || Header(code, d.head, d.sel))
    requires Related(code, plan, s, t) && CleanFor(d, s) && s.pc + 2 !in plan
    ensures Simulates(code, plan, d, Step(code, env, s), Step(Rewritten(code, plan), env, t))
  {
    if s.pc < |code| {
      StepRelated(code, plan, env, s, t);
      if !d.NoDispatcher? {
        StepClean(code, env, d.head, d.sel, s);
      }
    }
  }

  lemma OneStep<W>(code: seq<Instr>, env: Env<W>, s: State<W>, c: Config<W>) returns (n: nat)
    requires Step(code, env, s) == c
    ensures n >= 1 && Run(code, env, Running(s), n) == c
  {
    n := 1;
    RunOn(code, env, s, 0, c);
  }

  /** As long as no replaced triple is reached, both codes take the same number of steps. */
  ghost predicate Avoids<W>(code: seq<Instr>, plan: Plan, env: Env<W>, c: Config<W>, m: nat) {
    var at := Run(code, env, c, m);
    at.Running? ==> at.state.pc + 2 !in plan
  }

  lemma {:induction false} Lockstep<W>(code: seq<Instr>, plan: Plan, env: Env<W>, d: Dispatcher, c: Config<W>, ct: Config<W>, n: nat)
    requires Shaped(code, plan) && WellNested(code) && (d.NoDispatcher? || Header(code, d.head, d.sel))
    requires Simulates(code, plan, d, c, ct) && forall m :: 0 <= m < n ==> Avoids(code, plan, env, c, m)
    ensures Simulates(code, plan, d, Run(code, env, c, n), Run(Rewritten(code, plan), env, ct, n))
    decreases n
  {
    hide Step;
    if n > 0 {
      Lockstep(code, plan, env, d, c, ct, n - 1);
      assert Avoids(code, plan, env, c, n - 1);
      var before, beforeT := Run(code, env, c, n - 1), Run(Rewritten(code, plan), env, ct, n - 1);
      if before.Running? {
        OtherStep(code, plan, env, d, before.state, beforeT.state);
      }
      LastStep(code, env, c, n - 1);
      LastStep(Rewritten(code, plan), env, ct, n - 1);
    }
  }

  lemma LastStep<W>(code: seq<Instr>, env: Env<W>, c: Config<W>, n: nat)
    ensures Run(code, env, c, n + 1) == StepConfig(code, env, Run(code, env, c, n))
  {
    RunSplit(code, env, c, n, 1);
  }

  lemma Advance<W>(code: seq<Instr>, env: Env<W>, d: Dispatcher, s: State<W>, t: State<W>) returns (n: nat)
    requires Ready(code, d) && Related(code, PlanOf(code, d), s, t) && CleanFor(d, s)
    ensures n >= 1
    ensures var c := Run(code, env, Running(s), n);
            c.Stuck? || Simulates(code, PlanOf(code, d), d, c, Step(Rewritten(code, PlanOf(code, d)), env, t))
  {
    hide Step, Labels, Related, Threadable;
    var plan := PlanOf(code, d);
    if s.pc + 2 in plan {
      n := TripleStep(code, plan, env, d, s.pc + 2, s, t);
    } else {
      assert d.NoDispatcher? || Header(code, d.head, d.sel);
      OtherStep(code, plan, env, d, s, t);
      n := OneStep(code, env, s, Step(code, env, s));
    }
  }

  /** However far the threaded code has run, the original has a configuration in step with it. */
  lemma {:induction false} InStep<W>(code: seq<Instr>, env: Env<W>, d: Dispatcher, c: Config<W>, ct: Config<W>, m: nat)
    returns (n: nat)
    requires Ready(code, d) && Simulates(code, PlanOf(code, d), d, c, ct)
    ensures n >= m
    ensures Run(code, env, c, n).Stuck? ||
            Simulates(code, PlanOf(code, d), d, Run(code, env, c, n), Run(Rewritten(code, PlanOf(code, d)), env, ct, m))
    decreases m
  {
    var threaded := Rewritten(code, PlanOf(code, d));
    n := m;
    if !c.Running? {
      RunFinal(code, env, c, m);
      RunFinal(threaded, env, ct, m);
    } else if m > 0 {
      var first := Advance(code, env, d, c.state, ct.state);
      var mid := Run(code, env, c, first);
      if mid.Stuck? {
        RunSplit(code, env, c, first, m);
        RunFinal(code, env, mid, m);
        n := first + m;
      } else {
        var rest := InStep(code, env, d, mid, Step(threaded, env, ct.state), m - 1);
        RunSplit(code, env, c, first, rest);
        n := first + rest;
      }
    }
  }

  /** Validation rules this out for the original body. */
  ghost predicate Safe<W>(code: seq<Instr>, env: Env<W>, c: Config<W>) {
    forall n: nat :: !Run(code, env, c, n).Stuck?
  }

  ghost predicate Ends<W>(code: seq<Instr>, env: Env<W>, c: Config<W>, result: Config<W>) {
    !result.Running? && exists n: nat :: Run(code, env, c, n) == result
  }

  function Start<W>(locals: seq<Val>, world: W): Config<W> {
    Running(State(0, Base, Empty, locals, world))
  }

  lemma StartSimulates<W>(code: seq<Instr>, d: Dispatcher, locals: seq<Val>, world: W)
    requires Ready(code, d)
    ensures Simulates(code, PlanOf(code, d), d, Start(locals, world), Start(locals, world))
  {
  }

  /** A finished run has the same end at every later point. */
  lemma EndStays<W>(code: seq<Instr>, env: Env<W>, c: Config<W>, result: Config<W>) returns (at: nat)
    requires Ends(code, env, c, result)
    ensures forall n: nat :: n >= at ==> Run(code, env, c, n) == result
  {
    at :| Run(code, env, c, at) == result;
    forall n: nat | n >= at ensures Run(code, env, c, n) == result {
      RunSplit(code, env, c, at, n - at);
      RunFinal(code, env, result, n - at);
    }
  }

  /** Threading preserves meaning: from every start the threaded body has the same results, traps and
      effects as a valid body, diverges exactly when it does, and never gets stuck itself. */
  lemma ThreadingPreservesMeaning<W>(code: seq<Instr>, env: Env<W>, d: Dispatcher, locals: seq<Val>, world: W,
                                     result: Config<W>)
    requires Ready(code, d) && Safe(code, env, Start(locals, world))
    ensures Ends(code, env, Start(locals, world), result)
            <==> Ends(Rewritten(code, PlanOf(code, d)), env, Start(locals, world), result)
  {
    var c, threaded := Start(locals, world), Rewritten(code, PlanOf(code, d));
    StartSimulates(code, d, locals, world);
    if Ends(code, env, c, result) {
      var at := EndStays(code, env, c, result);
      var n := InStep(code, env, d, c, c, at);
      assert Run(threaded, env, c, at) == result;
    }
    if Ends(threaded, env, c, result) {
      var at := EndStays(threaded, env, c, result);
      var n := InStep(code, env, d, c, c, at);
      assert Run(threaded, env, c, at) == result;
      assert Run(code, env, c, n) == result;
    }
  }
}
