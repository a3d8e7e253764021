/** What the dispatching loop does once it is re-entered with a selector value, and why a direct branch
    from inside the loop ends up in the same state. */
module DispatchRuns {
  import opened Wrappers
  import opened Leb128
  import opened WasmCode
  import opened WasmMachine
  import opened CodeRewrite
  import opened DispatchPlan
  import opened DispatchSimulation

  // ----- finding a label's frame -----

  /** The innermost entry of label `l`, with everything around it. */
  function SubChain(frames: Frames, l: nat): Frames {
    if frames.Base? || frames.opener == l then frames else SubChain(frames.outer, l)
  }

  lemma OuterOpeners(code: seq<Instr>, frames: Frames, i: nat)
    requires i <= |code| && frames.Frame? && Openers(frames) == Labels(code, i)
    ensures frames.opener < i && Openers(frames.outer) == Labels(code, frames.opener)
  {
    LabelsShape(code, i, 0);
  }

  lemma {:induction false} UnwindSub(code: seq<Instr>, frames: Frames, i: nat, d: nat)
    requires i <= |code| && Openers(frames) == Labels(code, i) && Unwind(frames, d).Frame?
    ensures Unwind(frames, d) == SubChain(frames, Unwind(frames, d).opener)
  {
    if d > 0 {
      OuterOpeners(code, frames, i);
      UnwindSub(code, frames.outer, frames.opener, d - 1);
      OpenersUnwind(frames.outer, d - 1);
      PeelHas(Labels(code, frames.opener), d - 1);
      HasShape(code, frames.opener, Unwind(frames, d).opener);
    }
  }

  lemma {:induction false} SubSub(code: seq<Instr>, frames: Frames, i: nat, l: nat, m: nat)
    requires i <= |code| && Openers(frames) == Labels(code, i) && Has(Labels(code, i), l)
    ensures m < l ==> SubChain(SubChain(frames, l), m) == SubChain(frames, m)
    ensures SubChain(frames, l).Frame? && SubChain(frames, l).opener == l
    ensures l < i && Openers(SubChain(frames, l)) == Inside(Labels(code, l), l)
  {
    OuterOpeners(code, frames, i);
    if frames.opener != l {
      HasShape(code, frames.opener, l);
      SubSub(code, frames.outer, frames.opener, l, m);
    }
  }

  // ----- the header -----

  /** The labels of the header entered one after the other without operands. */
  function Nested(frames: Frames, i: nat, sel: nat): Frames
    decreases sel - i
  {
    if i >= sel then frames else Nested(Frame(frames, i, Empty), i + 1, sel)
  }

  lemma {:induction false} NestedLast(frames: Frames, i: nat, sel: nat)
    requires i <= sel
    ensures Nested(frames, i, sel + 1) == Frame(Nested(frames, i, sel), sel, Empty)
    decreases sel - i
  {
    if i < sel {
      NestedLast(Frame(frames, i, Empty), i + 1, sel);
    }
  }

  lemma {:induction false} NestedOpeners(code: seq<Instr>, head: nat, sel: nat, frames: Frames, i: nat)
    requires Header(code, head, sel) && head < i <= sel && Openers(frames) == Labels(code, i)
    ensures Openers(Nested(frames, i, sel)) == Labels(code, sel)
    decreases sel - i
  {
    if i < sel {
      NestedOpeners(code, head, sel, Frame(frames, i, Empty), i + 1);
    }
  }

  lemma {:induction false} NestedSub(frames: Frames, i: nat, sel: nat, l: nat)
    requires i <= sel
    ensures i <= l < sel ==> SubChain(Nested(frames, i, sel), l) == Frame(Nested(frames, i, l), l, Empty)
    ensures l < i ==> SubChain(Nested(frames, i, sel), l) == SubChain(frames, l)
    decreases sel
  {
    if i < sel {
      NestedLast(frames, i, sel - 1);
      if l != sel - 1 {
        NestedSub(frames, i, sel - 1, l);
      }
    }
  }

  /** Clean labels of the header are nested the way the header nests them. */
  lemma {:induction false} CleanIsNested(code: seq<Instr>, head: nat, sel: nat, frames: Frames, i: nat)
    requires Header(code, head, sel) && head < i <= sel
    requires Openers(frames) == Labels(code, i) && CleanFrames(head, sel, frames)
    ensures frames == Nested(SubChain(frames, head), head + 1, i)
    decreases i
  {
    if head + 1 < i {
      CleanIsNested(code, head, sel, frames.outer, i - 1);
      NestedLast(SubChain(frames, head), head + 1, i - 1);
    }
  }

  lemma {:induction false} HeaderRun<W>(code: seq<Instr>, env: Env<W>, head: nat, sel: nat, r: State<W>)
    requires Header(code, head, sel) && head < r.pc <= sel && r.vals.Empty?
    ensures Run(code, env, Running(r), sel - r.pc)
            == Running(r.(pc := sel, frames := Nested(r.frames, r.pc, sel)))
    decreases sel - r.pc
  {
    if r.pc < sel {
      var next := r.(pc := r.pc + 1, frames := Frame(r.frames, r.pc, Empty));
      assert code[r.pc] == Open(Block, EMPTY_TYPE);
      assert Step(code, env, r) == Running(next);
      HeaderRun(code, env, head, sel, next);
    }
  }

  // ----- from the selector to the block -----

  /** A state that has branched out of block `l`, whose entry was `f`. */
  function Left<W>(code: seq<Instr>, r: State<W>, l: nat, f: Frames): State<W>
    requires l < |code| && f.Frame?
  {
    r.(pc := EndOf(code, l) + 1, frames := f.outer, vals := f.below)
  }

  /** Branching to a plain block leaves the innermost entry of it, whatever the operands. */
  lemma BranchToBlock<W>(code: seq<Instr>, env: Env<W>, s: State<W>, i: nat, vals: Operands, depth: nat, l: nat)
    requires i <= |code| && Openers(s.frames) == Labels(code, i)
    requires LabelAt(Labels(code, i), depth) == Some(l) && IsPlainBlock(code, Some(l))
    ensures SubChain(s.frames, l).Frame?
    ensures Branch(code, env, s, vals, depth) == Running(Left(code, s, l, SubChain(s.frames, l)))
  {
    OpenersUnwind(s.frames, depth);
    UnwindSub(code, s.frames, i, depth);
  }

  lemma RunOn<W>(code: seq<Instr>, env: Env<W>, r: State<W>, n: nat, next: Config<W>)
    requires Step(code, env, r) == next
    ensures Run(code, env, Running(r), n + 1) == Run(code, env, next, n)
  {
  }

  lemma SingleRun<W>(code: seq<Instr>, env: Env<W>, d: Dispatcher, r: State<W>, k: u32)
    requires d.Single? && Valid(code, d) && r.pc == d.sel && Openers(r.frames) == Labels(code, d.sel)
    requires |r.locals| > SELECTOR && r.locals[SELECTOR] == I32(k) && IsPlainBlock(code, Reached(code, d, k))
    ensures var l := Reached(code, d, k).value;
            SubChain(r.frames, l).Frame? &&
            Run(code, env, Running(r), 2) == Running(Left(code, r, l, SubChain(r.frames, l)))
  {
    var t := code[d.sel + 1];
    var read := r.(pc := d.sel + 1, vals := Push(r.vals, I32(k)));
    RunOn(code, env, r, 1, Running(read));
    var depth := if k < |t.targets| then t.targets[k] else t.default;
    BranchToBlock(code, env, read, d.sel + 1, r.vals, depth, Reached(code, d, k).value);
    RunOn(code, env, read, 0, Step(code, env, read));
  }

  /** The labels inside the window: one `if` more than in front of it. */
  lemma WindowLabels(code: seq<Instr>, sel: nat, base: nat)
    requires Window(code, sel, base) && NestedUpTo(code, |code|)
    ensures Labels(code, sel + 7) == Labels(code, sel + 10) == Inside(Labels(code, sel), sel + 3)
    ensures ElseOf(code, sel + 3) == sel + 8
  {
    assert Labels(code, sel + 3) == Labels(code, sel + 2) == Labels(code, sel + 1) == Labels(code, sel);
    var inside := Inside(Labels(code, sel), sel + 3);
    assert Labels(code, sel + 7) == Labels(code, sel + 6) == Labels(code, sel + 5) == Labels(code, sel + 4) == inside;
    assert Labels(code, sel + 10) == Labels(code, sel + 9) == Labels(code, sel + 8) == inside;
    ElseIs(code, sel + 3, sel + 8);
  }

  /** Comparing the selector with the base picks the page. */
  lemma PageEntry<W>(code: seq<Instr>, env: Env<W>, sel: nat, base: nat, r: State<W>, k: u32)
    returns (page: Config<W>, n: nat)
    requires Window(code, sel, base) && NestedUpTo(code, |code|) && r.pc == sel && r.vals.Empty?
    requires |r.locals| > SELECTOR && r.locals[SELECTOR] == I32(k)
    ensures Run(code, env, Running(r), n) == page
    ensures page.Stuck? ||
            page == Running(r.(pc := if k >= base then sel + 4 else sel + 9, frames := Frame(r.frames, sel + 3, Empty)))
  {
    WindowLabels(code, sel, base);
    var read := r.(pc := sel + 1, vals := Push(Empty, I32(k)));
    RunOn(code, env, r, 3, Running(read));
    var bound := r.(pc := sel + 2, vals := Push(Push(Empty, I32(k)), I32(base)));
    RunOn(code, env, read, 2, Running(bound));
    var flag := r.(pc := sel + 3, vals := Push(Empty, Flag(k >= base)));
    RunOn(code, env, bound, 1, Running(flag));
    page := Step(code, env, flag);
    RunOn(code, env, flag, 0, page);
    n := 4;
  }

  lemma HighRun<W>(code: seq<Instr>, env: Env<W>, d: Dispatcher, r: State<W>, k: u32)
    requires d.Paged? && Valid(code, d) && NestedUpTo(code, |code|)
    requires r.pc == d.sel + 4 && r.vals.Empty? && Openers(r.frames) == Labels(code, d.sel + 7) && k >= d.base
    requires |r.locals| > SELECTOR && r.locals[SELECTOR] == I32(k) && IsPlainBlock(code, Reached(code, d, k))
    ensures var l := Reached(code, d, k).value;
            SubChain(r.frames, l).Frame? &&
            Run(code, env, Running(r), 4) == Running(Left(code, r, l, SubChain(r.frames, l)))
  {
    hide Labels, Branch;
    var sel, base := d.sel, d.base;
    assert Window(code, sel, base);
    var read := r.(pc := sel + 5, vals := Push(Empty, I32(k)));
    RunOn(code, env, r, 3, Running(read));
    var bound := r.(pc := sel + 6, vals := Push(Push(Empty, I32(k)), I32(base)));
    RunOn(code, env, read, 2, Running(bound));
    var rest := r.(pc := sel + 7, vals := Push(Empty, I32(k - base)));
    RunOn(code, env, bound, 1, Running(rest));
    var t := code[sel + 7];
    var depth := if k - base < |t.targets| then t.targets[k - base] else t.default;
    BranchToBlock(code, env, rest, sel + 7, Empty, depth, Reached(code, d, k).value);
    RunOn(code, env, rest, 0, Step(code, env, rest));
  }

  lemma LowRun<W>(code: seq<Instr>, env: Env<W>, d: Dispatcher, r: State<W>, k: u32)
    requires d.Paged? && Valid(code, d)
    requires r.pc == d.sel + 9 && r.vals.Empty? && Openers(r.frames) == Labels(code, d.sel + 10) && k < d.base
    requires |r.locals| > SELECTOR && r.locals[SELECTOR] == I32(k) && IsPlainBlock(code, Reached(code, d, k))
    ensures var l := Reached(code, d, k).value;
            SubChain(r.frames, l).Frame? &&
            Run(code, env, Running(r), 2) == Running(Left(code, r, l, SubChain(r.frames, l)))
  {
    var sel := d.sel;
    assert Window(code, sel, d.base);
    var read := r.(pc := sel + 10, vals := Push(Empty, I32(k)));
    RunOn(code, env, r, 1, Running(read));
    var t := code[sel + 10];
    var depth := if k < |t.targets| then t.targets[k] else t.default;
    BranchToBlock(code, env, read, sel + 10, Empty, depth, Reached(code, d, k).value);
    RunOn(code, env, read, 0, Step(code, env, read));
  }

  /** Both pages leave to the recorded block, dropping the window's own label. */
  lemma PageRun<W>(code: seq<Instr>, env: Env<W>, d: Dispatcher, r: State<W>, k: u32) returns (n: nat)
    requires d.Paged? && Valid(code, d) && NestedUpTo(code, |code|)
    requires r.vals.Empty? && Openers(r.frames) == Labels(code, d.sel)
    requires |r.locals| > SELECTOR && r.locals[SELECTOR] == I32(k) && IsPlainBlock(code, Reached(code, d, k))
    ensures var l := Reached(code, d, k).value;
            var page := r.(pc := if k >= d.base then d.sel + 4 else d.sel + 9, frames := Frame(r.frames, d.sel + 3, Empty));
            SubChain(r.frames, l).Frame? &&
            Run(code, env, Running(page), n) == Running(Left(code, r, l, SubChain(r.frames, l)))
  {
    var page := r.(pc := if k >= d.base then d.sel + 4 else d.sel + 9, frames := Frame(r.frames, d.sel + 3, Empty));
    WindowLabels(code, d.sel, d.base);
    if k >= d.base {
      HighRun(code, env, d, page, k);
      n := 4;
    } else {
      LowRun(code, env, d, page, k);
      n := 2;
    }
  }

  lemma PagedRun<W>(code: seq<Instr>, env: Env<W>, d: Dispatcher, r: State<W>, k: u32) returns (n: nat)
    requires d.Paged? && Valid(code, d) && NestedUpTo(code, |code|)
    requires r.pc == d.sel && r.vals.Empty? && Openers(r.frames) == Labels(code, d.sel)
    requires |r.locals| > SELECTOR && r.locals[SELECTOR] == I32(k) && IsPlainBlock(code, Reached(code, d, k))
    ensures Run(code, env, Running(r), n).Stuck? || Reaches(code, env, d, r, k, n)
  {
    var page, entry := PageEntry(code, env, d.sel, d.base, r, k);
    n := entry;
    if !page.Stuck? {
      var m := PageRun(code, env, d, r, k);
      RunSplit(code, env, Running(r), entry, m);
      n := entry + m;
    }
  }

  /** In `n` steps the dispatcher leaves the block it reaches for `k`. */
  ghost predicate Reaches<W>(code: seq<Instr>, env: Env<W>, d: Dispatcher, r: State<W>, k: nat, n: nat)
    requires Valid(code, d) && !d.NoDispatcher? && IsPlainBlock(code, Reached(code, d, k))
  {
    var l := Reached(code, d, k).value;
    && SubChain(r.frames, l).Frame?
    && Run(code, env, Running(r), n) == Running(Left(code, r, l, SubChain(r.frames, l)))
  }

  /** The whole dispatcher, from the start of the loop: the block reached is left with the world, the
      locals and the labels around it untouched. */
  lemma DispatcherRun<W>(code: seq<Instr>, env: Env<W>, d: Dispatcher, r: State<W>, k: u32) returns (n: nat)
    requires Valid(code, d) && !d.NoDispatcher? && NestedUpTo(code, |code|)
    requires r.pc == d.head + 1 && r.vals.Empty? && Openers(r.frames) == Labels(code, d.head + 1)
    requires |r.locals| > SELECTOR && r.locals[SELECTOR] == I32(k) && IsPlainBlock(code, Reached(code, d, k))
    ensures Run(code, env, Running(r), n).Stuck? ||
            var l, inner := Reached(code, d, k).value, Nested(r.frames, d.head + 1, d.sel);
            SubChain(inner, l).Frame? &&
            Run(code, env, Running(r), n) == Running(Left(code, r, l, SubChain(inner, l)))
  {
    hide Step, Labels, Branch;
    assert Header(code, d.head, d.sel);
    HeaderRun(code, env, d.head, d.sel, r);
    NestedOpeners(code, d.head, d.sel, r.frames, d.head + 1);
    var inner := r.(pc := d.sel, frames := Nested(r.frames, d.head + 1, d.sel));
    var m;
    if d.Single? {
      SingleRun(code, env, d, inner, k);
      m := 2;
    } else {
      m := PagedRun(code, env, d, inner, k);
    }
    n := d.sel - r.pc + m;
    RunSplit(code, env, Running(r), d.sel - r.pc, m);
  }
}
