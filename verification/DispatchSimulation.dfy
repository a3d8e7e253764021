/** Dispatch threading preserves meaning: the threaded code simulates the original, with the selector
    local allowed to differ exactly where it is dead. */
module DispatchSimulation {
  import opened WasmCode
  import opened WasmMachine
  import opened CodeRewrite
  import opened DispatchPlan

  // ----- what every step keeps -----

  function Openers(frames: Frames): Nest {
    if frames.Base? then Outside else Inside(Openers(frames.outer), frames.opener)
  }

  lemma {:induction false} OpenersUnwind(frames: Frames, d: nat)
    ensures Openers(Unwind(frames, d)) == Peel(Openers(frames), d)
    ensures Height(frames) == Depth(Openers(frames))
  {
    if frames.Frame? {
      OpenersUnwind(frames.outer, if d == 0 then 0 else d - 1);
    }
  }

  /** The labels entered at run time are the ones the text puts around the position. */
  ghost predicate Aligned<W>(code: seq<Instr>, s: State<W>) {
    s.pc <= |code| && Openers(s.frames) == Labels(code, s.pc)
  }

  /** Control arrives by falling through, or right behind an `end`, an `else` or the start of a loop. */
  ghost predicate Lands(code: seq<Instr>, from: nat, pc: nat) {
    || pc == from + 1
    || (0 < pc <= |code| && (code[pc - 1].End? || code[pc - 1].Else? || (code[pc - 1].Open? && code[pc - 1].kind.Loop?)))
  }

  /** A step stays aligned, follows a control-flow edge and lands where edges may land. */
  ghost predicate Follows<W>(code: seq<Instr>, s: State<W>, c: Config<W>)
    requires s.pc < |code|
  {
    c.Running? ==> Aligned(code, c.state) && Lands(code, s.pc, c.state.pc) && c.state.pc in Succs(code, s.pc)
  }

  lemma BranchAligned<W>(code: seq<Instr>, env: Env<W>, s: State<W>, vals: Operands, depth: nat)
    requires Closed(code) && Aligned(code, s) && s.pc < |code|
    ensures var c := Branch(code, env, s, vals, depth);
            c.Running? ==>
              Aligned(code, c.state) && Lands(code, s.pc, c.state.pc) && c.state.pc == BranchTarget(code, s.pc, depth)
  {
    OpenersUnwind(s.frames, depth);
    if Unwind(s.frames, depth).Frame? {
      LabelsShape(code, s.pc, depth);
      PeelHas(Labels(code, s.pc), depth);
      EndFollows(code, Unwind(s.frames, depth).opener, s.pc);
    }
  }

  lemma LabelsOfElse(code: seq<Instr>, l: nat)
    requires l < |code| && ElseOf(code, l) < |code|
    ensures Labels(code, ElseOf(code, l) + 1) == Labels(code, l + 1)
  {
    LabelsShape(code, ElseOf(code, l), 0);
  }

  lemma OpenAligned<W>(code: seq<Instr>, env: Env<W>, s: State<W>)
    requires Closed(code) && Aligned(code, s) && s.pc < |code| && code[s.pc].Open?
    ensures Follows(code, s, Step(code, env, s))
  {
    if ElseOf(code, s.pc) < |code| {
      LabelsOfElse(code, s.pc);
    }
    EndFollows(code, s.pc, s.pc + 1);
  }

  lemma StepAligned<W>(code: seq<Instr>, env: Env<W>, s: State<W>)
    requires Closed(code) && Aligned(code, s) && s.pc < |code|
    ensures Follows(code, s, Step(code, env, s))
  {
    match code[s.pc]
    case Open(_, _) => OpenAligned(code, env, s);
    case Else =>
      if s.frames.Frame? {
        EndFollows(code, s.frames.opener, s.pc);
        LabelsShape(code, s.pc, 0);
      }
    case Br(depth) => BranchAligned(code, env, s, s.vals, depth);
    case BrIf(depth) =>
      if Pop(s.vals).Some? {
        BranchAligned(code, env, s, Pop(s.vals).value.1, depth);
      }
    case BrTable(targets, default) =>
      if Pop(s.vals).Some? {
        var k := Pop(s.vals).value.0;
        BranchAligned(code, env, s, Pop(s.vals).value.1, if k < |targets| then targets[k] else default);
      }
    case _ =>
  }

  // ----- the dispatcher's header -----

  /** The labels of the header were entered without operands below them. */
  predicate CleanFrames(head: nat, sel: nat, frames: Frames) {
    frames.Frame? ==>
      (head < frames.opener < sel ==> frames.below.Empty?) && CleanFrames(head, sel, frames.outer)
  }

  /** Inside the header no operands are in flight. */
  ghost predicate Clean<W>(head: nat, sel: nat, s: State<W>) {
    (head < s.pc <= sel ==> s.vals.Empty?) && CleanFrames(head, sel, s.frames)
  }

  lemma {:induction false} CleanUnwind(head: nat, sel: nat, frames: Frames, d: nat)
    requires CleanFrames(head, sel, frames)
    ensures CleanFrames(head, sel, Unwind(frames, d))
  {
    if frames.Frame? && d > 0 {
      CleanUnwind(head, sel, frames.outer, d - 1);
    }
  }

  lemma BranchClean<W>(code: seq<Instr>, env: Env<W>, head: nat, sel: nat, s: State<W>, vals: Operands, depth: nat)
    requires Header(code, head, sel) && Clean(head, sel, s)
    ensures var c := Branch(code, env, s, vals, depth);
            c.Running? ==> CleanFrames(head, sel, c.state.frames)
  {
    CleanUnwind(head, sel, s.frames, depth);
  }

  lemma StepCleanFrames<W>(code: seq<Instr>, env: Env<W>, head: nat, sel: nat, s: State<W>)
    requires Header(code, head, sel) && Clean(head, sel, s) && s.pc < |code|
    ensures var c := Step(code, env, s); c.Running? ==> CleanFrames(head, sel, c.state.frames)
  {
    match code[s.pc]
    case Br(depth) => BranchClean(code, env, head, sel, s, s.vals, depth);
    case BrIf(depth) =>
      if Pop(s.vals).Some? {
        BranchClean(code, env, head, sel, s, Pop(s.vals).value.1, depth);
      }
    case BrTable(targets, default) =>
      if Pop(s.vals).Some? {
        var k := Pop(s.vals).value.0;
        BranchClean(code, env, head, sel, s, Pop(s.vals).value.1, if k < |targets| then targets[k] else default);
      }
    case _ =>
  }

  lemma BranchCleanVals<W>(code: seq<Instr>, env: Env<W>, head: nat, sel: nat, s: State<W>, vals: Operands, depth: nat)
    requires Closed(code) && Header(code, head, sel) && Aligned(code, s) && s.pc < |code| && !code[s.pc].Open?
    ensures var c := Branch(code, env, s, vals, depth);
            c.Running? && head < c.state.pc <= sel ==> c.state.vals.Empty?
  {
    BranchAligned(code, env, s, vals, depth);
  }

  /** The header is entered through its loop, and everything in it takes no operands. */
  lemma StepCleanVals<W>(code: seq<Instr>, env: Env<W>, head: nat, sel: nat, s: State<W>)
    requires Closed(code) && Header(code, head, sel) && Aligned(code, s) && s.pc < |code|
    requires Step(code, env, s).Running? && head < Step(code, env, s).state.pc <= sel
    ensures Step(code, env, s).state.vals.Empty?
  {
    hide Branch;
    StepAligned(code, env, s);
    var pc := Step(code, env, s).state.pc;
    assert code[pc - 1] == Open(if pc - 1 == head then Loop else Block, EMPTY_TYPE);
    match code[s.pc]
    case Br(depth) => BranchCleanVals(code, env, head, sel, s, s.vals, depth);
    case BrIf(depth) => BranchCleanVals(code, env, head, sel, s, Pop(s.vals).value.1, depth);
    case BrTable(targets, default) =>
      var k := Pop(s.vals).value.0;
      BranchCleanVals(code, env, head, sel, s, Pop(s.vals).value.1, if k < |targets| then targets[k] else default);
    case _ =>
  }

  lemma StepClean<W>(code: seq<Instr>, env: Env<W>, head: nat, sel: nat, s: State<W>)
    requires Closed(code) && Header(code, head, sel)
    requires Aligned(code, s) && Clean(head, sel, s) && s.pc < |code|
    ensures var c := Step(code, env, s); c.Running? ==> Clean(head, sel, c.state)
  {
    var c := Step(code, env, s);
    if c.Running? {
      StepCleanFrames(code, env, head, sel, s);
      if head < c.state.pc <= sel {
        StepCleanVals(code, env, head, sel, s);
      }
    }
  }

  // ----- one step of the original is one step of the threaded code -----

  function MovedFrames(code: seq<Instr>, plan: Plan, frames: Frames): Frames {
    if frames.Base? then Base
    else Frame(MovedFrames(code, plan, frames.outer), Place(code, plan, frames.opener), frames.below)
  }

  /** Same place, labels, operands and world; locals aside. */
  ghost predicate Shadows<W>(code: seq<Instr>, plan: Plan, s: State<W>, t: State<W>) {
    && t.pc == Place(code, plan, s.pc) && t.frames == MovedFrames(code, plan, s.frames)
    && t.vals == s.vals && t.world == s.world
  }

  ghost predicate Agree<W>(code: seq<Instr>, plan: Plan, c: Config<W>, ct: Config<W>) {
    if c.Running? then ct.Running? && Shadows(code, plan, c.state, ct.state) else ct == c
  }

  ghost predicate KeepLocals<W>(s: State<W>, c: Config<W>) {
    c.Running? ==> c.state.locals == s.locals
  }

  lemma {:induction false} MovedUnwind(code: seq<Instr>, plan: Plan, frames: Frames, d: nat)
    ensures Unwind(MovedFrames(code, plan, frames), d) == MovedFrames(code, plan, Unwind(frames, d))
    ensures Height(MovedFrames(code, plan, frames)) == Height(frames)
  {
    if frames.Frame? {
      MovedUnwind(code, plan, frames.outer, if d == 0 then 0 else d - 1);
    }
  }

  /** An open label keeps its operation and continues at the place of its old continuation. */
  lemma LabelMoves(code: seq<Instr>, plan: Plan, l: nat, i: nat)
    requires Shaped(code, plan) && Closed(code) && i <= |code| && Has(Labels(code, i), l)
    ensures l < |code| && Place(code, plan, l) < |Rewritten(code, plan)|
    ensures Rewritten(code, plan)[Place(code, plan, l)] == code[l]
    ensures Place(code, plan, l + 1) == Place(code, plan, l) + 1
    ensures EndOf(code, l) < |code|
    ensures Place(code, plan, EndOf(code, l) + 1) == EndOf(Rewritten(code, plan), Place(code, plan, l)) + 1
  {
    HasShape(code, i, l);
    KeptStructure(code, plan, l);
    PlaceOf(code, plan, l);
    EndFollows(code, l, i);
    EndCarriesOver(code, plan, l);
  }

  lemma BranchShadows<W>(code: seq<Instr>, plan: Plan, env: Env<W>, s: State<W>, t: State<W>, vals: Operands, depth: nat)
    requires Shaped(code, plan) && Closed(code) && Aligned(code, s) && Shadows(code, plan, s, t)
    ensures Agree(code, plan, Branch(code, env, s, vals, depth), Branch(Rewritten(code, plan), env, t, vals, depth))
    ensures KeepLocals(s, Branch(code, env, s, vals, depth))
    ensures KeepLocals(t, Branch(Rewritten(code, plan), env, t, vals, depth))
  {
    hide Place, Labels, EndOf;
    MovedUnwind(code, plan, s.frames, depth);
    OpenersUnwind(s.frames, depth);
    if Unwind(s.frames, depth).Frame? {
      PeelHas(Labels(code, s.pc), depth);
      LabelMoves(code, plan, Unwind(s.frames, depth).opener, s.pc);
    }
  }

  predicate TouchesLocals(instr: Instr) {
    instr.Get? || instr.Set? || instr.Tee?
  }

  lemma OpenShadows<W>(code: seq<Instr>, plan: Plan, env: Env<W>, s: State<W>, t: State<W>)
    requires Shaped(code, plan) && WellNested(code) && Aligned(code, s) && Shadows(code, plan, s, t)
    requires s.pc < |code| && code[s.pc].Open?
    ensures Agree(code, plan, Step(code, env, s), Step(Rewritten(code, plan), env, t))
    ensures KeepLocals(s, Step(code, env, s)) && KeepLocals(t, Step(Rewritten(code, plan), env, t))
  {
    hide Rewrite, EndOf, ElseOf;
    LabelMoves(code, plan, s.pc, s.pc + 1);
    if code[s.pc].kind.If? {
      ElseCarriesOver(code, plan, s.pc);
    }
  }

  lemma StepShadows<W>(code: seq<Instr>, plan: Plan, env: Env<W>, s: State<W>, t: State<W>)
    requires Shaped(code, plan) && WellNested(code) && Aligned(code, s) && Shadows(code, plan, s, t)
    requires s.pc < |code| && s.pc !in plan && !Dropped(plan, s.pc) && !TouchesLocals(code[s.pc])
    ensures Agree(code, plan, Step(code, env, s), Step(Rewritten(code, plan), env, t))
    ensures KeepLocals(s, Step(code, env, s)) && KeepLocals(t, Step(Rewritten(code, plan), env, t))
  {
    hide Branch, Rewrite, EndOf, ElseOf;
    PlaceOf(code, plan, s.pc);
    match code[s.pc]
    case Open(_, _) => OpenShadows(code, plan, env, s, t);
    case Else =>
      if s.frames.Frame? {
        LabelMoves(code, plan, s.frames.opener, s.pc);
      }
    case Br(depth) => BranchShadows(code, plan, env, s, t, s.vals, depth);
    case BrIf(depth) =>
      if Pop(s.vals).Some? {
        BranchShadows(code, plan, env, s, t, Pop(s.vals).value.1, depth);
      }
    case BrTable(targets, default) =>
      if Pop(s.vals).Some? {
        var k := Pop(s.vals).value.0;
        BranchShadows(code, plan, env, s, t, Pop(s.vals).value.1, if k < |targets| then targets[k] else default);
      }
    case _ =>
  }

  // ----- locals -----

  /** All locals agree, the selector only where `selector` says so. */
  ghost predicate SameLocals(a: seq<Val>, b: seq<Val>, selector: bool) {
    |a| == |b| && forall x :: 0 <= x < |a| && (x != SELECTOR || selector) ==> a[x] == b[x]
  }

  /** No step starts inside a replaced triple. */
  predicate BetweenTriples(plan: Plan, pc: nat) {
    pc !in plan && pc + 1 !in plan
  }

  /** The simulation relation. */
  ghost predicate Related<W>(code: seq<Instr>, plan: Plan, s: State<W>, t: State<W>) {
    && Aligned(code, s) && Shadows(code, plan, s, t)
    && SameLocals(s.locals, t.locals, Live(code, s.pc)) && BetweenTriples(plan, s.pc)
  }

  lemma LandsOutside(code: seq<Instr>, plan: Plan, from: nat, pc: nat)
    requires Shaped(code, plan) && Lands(code, from, pc) && from !in plan && from + 1 !in plan && from + 2 !in plan
    ensures BetweenTriples(plan, pc)
  {
  }

  /** Liveness stops exactly at operations that overwrite the selector without reading it: whatever it was
      before, the step ends in the same state. */
  lemma KillsOverwrites<W>(code: seq<Instr>, env: Env<W>, s: State<W>, v: Val)
    requires s.pc < |code| && SELECTOR < |s.locals| && v != s.locals[SELECTOR] && Step(code, env, s).Running?
    ensures Kills(code[s.pc]) <==> Step(code, env, s) == Step(code, env, s.(locals := s.locals[SELECTOR := v]))
  {
    hide Unwind, Top, Below, Onto, EndOf, ElseOf;
    var t := s.(locals := s.locals[SELECTOR := v]);
    assert t.locals[SELECTOR] != s.locals[SELECTOR];
    if code[s.pc].Set? || code[s.pc].Tee? {
      var x := code[s.pc].x;
      assert x == SELECTOR ==> s.locals[x := s.vals.top] == t.locals[x := s.vals.top];
      assert x != SELECTOR ==> s.locals[x := s.vals.top][SELECTOR] != t.locals[x := s.vals.top][SELECTOR];
    }
  }

  lemma LocalStepRelated<W>(code: seq<Instr>, plan: Plan, env: Env<W>, s: State<W>, t: State<W>)
    requires Shaped(code, plan) && Related(code, plan, s, t)
    requires s.pc < |code| && s.pc + 2 !in plan && TouchesLocals(code[s.pc])
    ensures var c, ct := Step(code, env, s), Step(Rewritten(code, plan), env, t);
            Agree(code, plan, c, ct) && (c.Running? ==> SameLocals(c.state.locals, ct.state.locals, Live(code, c.state.pc)))
  {
    hide Live, Place;
    PlaceOf(code, plan, s.pc);
    if Live(code, s.pc + 1) && !Kills(code[s.pc]) {
      LiveBackwards(code, s.pc, s.pc + 1);
    }
    if code[s.pc] == Get(SELECTOR) {
      LiveAtRead(code, s.pc);
    }
  }

  /** Away from replaced triples the two codes move in lockstep. */
  lemma StepRelated<W>(code: seq<Instr>, plan: Plan, env: Env<W>, s: State<W>, t: State<W>)
    requires Shaped(code, plan) && WellNested(code) && Related(code, plan, s, t)
    requires s.pc < |code| && s.pc + 2 !in plan
    ensures var c, ct := Step(code, env, s), Step(Rewritten(code, plan), env, t);
            Agree(code, plan, c, ct) && (c.Running? ==> Related(code, plan, c.state, ct.state))
  {
    StepAligned(code, env, s);
    var c := Step(code, env, s);
    if TouchesLocals(code[s.pc]) {
      LocalStepRelated(code, plan, env, s, t);
    } else {
      StepShadows(code, plan, env, s, t);
      if c.Running? && Live(code, c.state.pc) {
        LiveBackwards(code, s.pc, c.state.pc);
      }
    }
    if c.Running? {
      LandsOutside(code, plan, s.pc, c.state.pc);
    }
  }
}
