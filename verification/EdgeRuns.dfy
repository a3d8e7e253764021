/** The edges of the control flow are exact: there is one for every step (the simulation shows that), and for
    every edge there is a step that takes it. */
module EdgeRuns {
  import opened WasmCode
  import opened WasmMachine
  import opened DispatchPlan
  import opened EdgeScan

  /** Blocks without parameters or results, and opaque operations that do nothing. */
  function World(): Env<()> {
    Env((raw, vals, w) => Next(vals, w), t => 0, t => 0, 0)
  }

  /** The labels of a position, entered with no operands. */
  function Entered(nest: Nest): Frames {
    if nest.Outside? then Base else Frame(Entered(nest.outer), nest.opener, Empty)
  }

  lemma {:induction false} UnwindEntered(nest: Nest, d: nat)
    ensures Unwind(Entered(nest), d) == Entered(Peel(nest, d))
    ensures Height(Entered(nest)) == Depth(nest)
    decreases nest
  {
    if nest.Inside? {
      UnwindEntered(nest.outer, if d > 0 then d - 1 else 0);
    }
  }

  function Locals(n: nat): (r: seq<Val>)
    ensures |r| == n
  {
    seq(n, i => I32(0))
  }

  /** At operation `i`, with these operands. */
  function Standing(code: seq<Instr>, i: nat, vals: Operands, locals: nat): State<()>
    requires i <= |code|
  {
    State(i, Entered(Labels(code, i)), vals, Locals(locals), ())
  }

  ghost predicate Takes(code: seq<Instr>, s: State<()>, j: nat) {
    var c := Step(code, World(), s);
    if c.Running? then c.state.pc == j else c.Done? && j == |code|
  }

  lemma BranchTaken(code: seq<Instr>, i: nat, s: State<()>, depth: nat)
    requires i < |code| && depth <= Depth(Labels(code, i)) && s.frames == Entered(Labels(code, i))
    ensures var c, j := Branch(code, World(), s, Empty, depth), BranchTarget(code, i, depth);
            if c.Running? then c.state.pc == j else c.Done? && j == |code|
  {
    hide EndOf, Labels;
    var nest := Labels(code, i);
    UnwindEntered(nest, depth);
    if Peel(nest, depth).Inside? {
      LabelsShape(code, i, depth);
    } else {
      PeelAll(nest, depth);
    }
  }

  lemma {:induction false} PeelAll(nest: Nest, d: nat)
    requires Peel(nest, d).Outside? && d <= Depth(nest)
    ensures d == Depth(nest)
    decreases nest
  {
    if d > 0 {
      PeelAll(nest.outer, d - 1);
    }
  }

  lemma TableTaken(code: seq<Instr>, i: nat, j: nat) returns (s: State<()>)
    requires i < |code| && code[i].BrTable? && DepthsFit(code, i) && j in Succs(code, i) && |code[i].targets| < 0x1_0000_0000
    ensures s.pc == i && s.frames == Entered(Labels(code, i)) && Takes(code, s, j)
  {
    hide Labels, BranchTarget;
    var t, n := code[i].targets, |code[i].targets|;
    var k := n;
    if m :| 0 <= m < n && BranchTarget(code, i, t[m]) == j {
      k := m;
    }
    s := Standing(code, i, Push(Empty, I32(k)), 0);
    BranchTaken(code, i, s, if k < n then t[k] else code[i].default);
  }

  /** Every edge is taken by some step, from a state whose labels are those around the operation. */
  lemma EdgeTaken(code: seq<Instr>, i: nat, j: nat) returns (s: State<()>)
    requires i < |code| && DepthsFit(code, i) && j in Succs(code, i)
    requires code[i].BrTable? ==> |code[i].targets| < 0x1_0000_0000
    ensures s.pc == i && s.frames == Entered(Labels(code, i)) && Takes(code, s, j)
  {
    hide Labels, EndOf, ElseOf, Branch, BranchTarget;
    var one, none := Push(Empty, I32(1)), Push(Empty, I32(0));
    match code[i]
    case Open(kind, _) => s := Standing(code, i, if j == i + 1 then one else none, 0);
    case Br(d) =>
      s := Standing(code, i, Empty, 0);
      BranchTaken(code, i, s, d);
    case BrIf(d) =>
      s := Standing(code, i, if j == i + 1 then none else one, 0);
      BranchTaken(code, i, s, d);
    case BrTable(_, _) => s := TableTaken(code, i, j);
    case Get(x) => s := Standing(code, i, Empty, x + 1);
    case Set(x) => s := Standing(code, i, one, x + 1);
    case Tee(x) => s := Standing(code, i, one, x + 1);
    case GeU => s := Standing(code, i, Push(one, I32(0)), 0);
    case Sub => s := Standing(code, i, Push(one, I32(0)), 0);
    case _ => s := Standing(code, i, Empty, 0);
  }
}
