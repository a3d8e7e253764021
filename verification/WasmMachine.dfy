/** Small-step execution of a function body, section 4.4.8 of the WebAssembly Core Specification 2.0.
    A label keeps the operand values that were below it when it was entered. */
module WasmMachine {
  import opened Wrappers
  import opened Leb128
  import opened WasmCode

  datatype Val = I32(bits: u32) | I64(wide: nat) | F32(single: nat) | F64(double: nat)

  /** The operands of one label, innermost last. */
  datatype Operands = Empty | Push(rest: Operands, top: Val)

  /** What an opaque operation does to the operands of the innermost label and to the rest of the world. */
  datatype Outcome<+W> = Next(vals: Operands, world: W) | Trap(world: W)

  /** The module around the body: opaque operations, block types and the number of function results. */
  datatype Env<!W> = Env(
    plain: (seq<byte>, Operands, W) -> Outcome<W>,
    params: seq<byte> -> nat,
    results: seq<byte> -> nat,
    arity: nat)

  /** The labels entered so far, innermost last. */
  datatype Frames = Base | Frame(outer: Frames, opener: nat, below: Operands)

  datatype State<+W> = State(pc: nat, frames: Frames, vals: Operands, locals: seq<Val>, world: W)

  /** `Stuck` is what validation (section 3.3) rules out: missing operands, labels or locals. */
  datatype Config<+W> = Running(state: State<W>) | Done(vals: Operands, world: W) | Trapped(world: W) | Stuck

  function Params<W>(env: Env<W>, blockType: seq<byte>): nat {
    if blockType == EMPTY_TYPE then 0 else env.params(blockType)
  }

  function Results<W>(env: Env<W>, blockType: seq<byte>): nat {
    if blockType == EMPTY_TYPE then 0 else env.results(blockType)
  }

  function Size(vals: Operands): nat {
    if vals.Empty? then 0 else 1 + Size(vals.rest)
  }

  /** The `n` innermost operands. */
  function Top(vals: Operands, n: nat): Operands {
    if n == 0 || vals.Empty? then Empty else Push(Top(vals.rest, n - 1), vals.top)
  }

  /** The operands below the `n` innermost ones. */
  function Below(vals: Operands, n: nat): Operands {
    if n == 0 || vals.Empty? then vals else Below(vals.rest, n - 1)
  }

  function Onto(below: Operands, vals: Operands): Operands {
    if vals.Empty? then below else Push(Onto(below, vals.rest), vals.top)
  }

  function Finish<W>(env: Env<W>, vals: Operands, world: W): Config<W> {
    if Size(vals) < env.arity then Stuck else Done(Top(vals, env.arity), world)
  }

  /** Enter the block opened at `s.pc` and go on at `pc`. */
  function Enter<W>(env: Env<W>, s: State<W>, blockType: seq<byte>, vals: Operands, pc: nat): Config<W> {
    var n := Params(env, blockType);
    if Size(vals) < n then Stuck
    else Running(s.(pc := pc, frames := Frame(s.frames, s.pc, Below(vals, n)), vals := Top(vals, n)))
  }

  /** Leave the innermost label and go on at `pc`. */
  function Leave<W>(s: State<W>, pc: nat): Config<W>
    requires s.frames.Frame?
  {
    Running(s.(pc := pc, frames := s.frames.outer, vals := Onto(s.frames.below, s.vals)))
  }

  function Height(frames: Frames): nat {
    if frames.Base? then 0 else 1 + Height(frames.outer)
  }

  /** What is left without the `d` innermost labels. */
  function Unwind(frames: Frames, d: nat): Frames {
    if d == 0 || frames.Base? then frames else Unwind(frames.outer, d - 1)
  }

  function Branch<W>(code: seq<Instr>, env: Env<W>, s: State<W>, vals: Operands, depth: nat): Config<W> {
    var f := Unwind(s.frames, depth);
    if f.Base? then
      if depth == Height(s.frames) then Finish(env, vals, s.world) else Stuck
    else if f.opener >= |code| || !code[f.opener].Open? then Stuck
    else if code[f.opener].kind.Loop? then
      var n := Params(env, code[f.opener].blockType);
      if Size(vals) < n then Stuck
      else Running(s.(pc := f.opener + 1, frames := f, vals := Top(vals, n)))
    else
      var n := Results(env, code[f.opener].blockType);
      if Size(vals) < n then Stuck
      else Running(s.(pc := EndOf(code, f.opener) + 1, frames := f.outer, vals := Onto(f.below, Top(vals, n))))
  }

  function Pop(vals: Operands): Option<(u32, Operands)> {
    if vals.Empty? || !vals.top.I32? then None else Some((vals.top.bits, vals.rest))
  }

  function Flag(b: bool): Val {
    I32(if b then 1 else 0)
  }

  function Step<W>(code: seq<Instr>, env: Env<W>, s: State<W>): Config<W> {
    if s.pc >= |code| then Finish(env, s.vals, s.world)
    else
      var next := s.(pc := s.pc + 1);
      match code[s.pc]
      case Open(kind, blockType) =>
        if !kind.If? then Enter(env, s, blockType, s.vals, s.pc + 1)
        else
          var c := Pop(s.vals);
          if c.None? then Stuck
          else if c.value.0 != 0 then Enter(env, s, blockType, c.value.1, s.pc + 1)
          else if ElseOf(code, s.pc) < |code| then Enter(env, s, blockType, c.value.1, ElseOf(code, s.pc) + 1)
          else Running(s.(pc := EndOf(code, s.pc) + 1, vals := c.value.1))
      case Else =>
        if s.frames.Base? || s.frames.opener >= |code| then Stuck
        else Leave(s, EndOf(code, s.frames.opener) + 1)
      case End => if s.frames.Base? then Running(next) else Leave(s, s.pc + 1)
      case Br(depth) => Branch(code, env, s, s.vals, depth)
      case BrIf(depth) =>
        var c := Pop(s.vals);
        if c.None? then Stuck
        else if c.value.0 != 0 then Branch(code, env, s, c.value.1, depth)
        else Running(next.(vals := c.value.1))
      case BrTable(targets, default) =>
        var c := Pop(s.vals);
        if c.None? then Stuck
        else Branch(code, env, s, c.value.1, if c.value.0 < |targets| then targets[c.value.0] else default)
      case Return => Finish(env, s.vals, s.world)
      case Unreachable => Trapped(s.world)
      case Get(x) =>
        if x >= |s.locals| then Stuck else Running(next.(vals := Push(s.vals, s.locals[x])))
      case Set(x) =>
        if x >= |s.locals| || s.vals.Empty? then Stuck
        else Running(next.(vals := s.vals.rest, locals := s.locals[x := s.vals.top]))
      case Tee(x) =>
        if x >= |s.locals| || s.vals.Empty? then Stuck
        else Running(next.(locals := s.locals[x := s.vals.top]))
      case Const(value) => Running(next.(vals := Push(s.vals, I32(Bits(value)))))
      case GeU =>
        var r := Pop(s.vals);
        if r.None? then Stuck
        else
          var l := Pop(r.value.1);
          if l.None? then Stuck else Running(next.(vals := Push(l.value.1, Flag(l.value.0 >= r.value.0))))
      case Sub =>
        var r := Pop(s.vals);
        if r.None? then Stuck
        else
          var l := Pop(r.value.1);
          if l.None? then Stuck
          else Running(next.(vals := Push(l.value.1, I32((l.value.0 - r.value.0) % 0x1_0000_0000))))
      case Plain(raw) =>
        match env.plain(raw, s.vals, s.world)
        case Next(vals, world) => Running(next.(vals := vals, world := world))
        case Trap(world) => Trapped(world)
  }

  function StepConfig<W>(code: seq<Instr>, env: Env<W>, c: Config<W>): Config<W> {
    if c.Running? then Step(code, env, c.state) else c
  }

  /** `n` steps; a finished run stays as it is. */
  function Run<W>(code: seq<Instr>, env: Env<W>, c: Config<W>, n: nat): Config<W>
    decreases n
  {
    if n == 0 then c else Run(code, env, StepConfig(code, env, c), n - 1)
  }

  lemma {:induction false} RunSplit<W>(code: seq<Instr>, env: Env<W>, c: Config<W>, m: nat, n: nat)
    ensures Run(code, env, c, m + n) == Run(code, env, Run(code, env, c, m), n)
    decreases m
  {
    if m > 0 {
      RunSplit(code, env, StepConfig(code, env, c), m - 1, n);
    }
  }

  lemma {:induction false} RunFinal<W>(code: seq<Instr>, env: Env<W>, c: Config<W>, n: nat)
    requires !c.Running?
    ensures Run(code, env, c, n) == c
    decreases n
  {
    if n > 0 {
      RunFinal(code, env, c, n - 1);
    }
  }
}
