/** Why the low page must not reach past the base: a whole function body the pass accepts, whose low table
    has one entry too many, ends normally as written and traps once threaded. */
module PagedOverlap {
  import opened Wrappers
  import opened Leb128
  import opened WasmCode
  import opened WasmMachine
  import opened CodeRewrite
  import opened DispatchPlan
  import opened DispatchScan
  import opened EdgeScan
  import opened SecondPass
  import opened DispatchSimulation
  import opened DispatchRuns
  import opened ThreadingTheorem

  /** Two blocks around a loop; inside, a header block and a dispatcher with base 1 and two low entries.
      Operation 24 ends the function. */
  function At(i: nat): Instr {
    match i
    case 0 => Open(Block, EMPTY_TYPE)
    case 1 => Open(Block, EMPTY_TYPE)
    case 2 => Open(Loop, EMPTY_TYPE)
    case 3 => Open(Block, EMPTY_TYPE)
    case 4 => Get(3)
    case 5 => Const(1)
    case 6 => GeU
    case 7 => Open(If, EMPTY_TYPE)
    case 8 => Get(3)
    case 9 => Const(1)
    case 10 => Sub
    case 11 => BrTable([4], 4)
    case 12 => Else
    case 13 => Get(3)
    case 14 => BrTable([1, 3], 1)
    case 17 => Const(1)
    case 18 => Set(3)
    case 19 => Br(0)
    case 22 => Unreachable
    case _ => End
  }

  function Body(): seq<Instr> {
    seq(25, i requires i >= 0 => At(i))
  }

  const D := Paged(2, 4, 1)

  function Outer(): Nest { Inside(Outside, 0) }
  function Middle(): Nest { Inside(Outer(), 1) }
  function InLoop(): Nest { Inside(Middle(), 2) }
  function InHeader(): Nest { Inside(InLoop(), 3) }
  function InPage(): Nest { Inside(InHeader(), 7) }

  /** The labels around every operation. */
  function Around(i: nat): Nest {
    if i == 0 || i >= 24 then Outside else if i == 1 || i >= 22 then Outer() else if i == 2 || i == 21 then Middle()
    else if i == 3 || i >= 17 then InLoop() else if i <= 7 || i == 16 then InHeader() else InPage()
  }

  lemma {:induction false} LabelsAround(i: nat)
    requires i <= 25
    ensures Labels(Body(), i) == Around(i)
  {
    if i > 0 {
      LabelsAround(i - 1);
    }
  }

  lemma ClosesIs(e: nat, l: nat)
    requires e < 25 && Body()[e].End? && Around(e).Inside? && Around(e).opener == l
    ensures l < 25 && EndOf(Body(), l) == e
  {
    LabelsAround(e);
    EndIs(Body(), l, e);
  }

  lemma BodyNested()
    ensures WellNested(Body())
  {
    LabelsAround(25);
    forall j | 0 <= j < 25 ensures NestedAt(Body(), j) {
      LabelsAround(j);
      if j == 12 {
        forall i | 0 <= i < 12 ensures !Splits(Body(), i, 7) {
        }
      }
    }
  }

  lemma DispatcherFound()
    ensures FoundAt(Body(), 11, D) && Chosen(Body(), D)
  {
    LabelsAround(4);
    assert NoIfs(Body(), InHeader()) by {
      assert NoIfs(Body(), Outer()) && NoIfs(Body(), Middle()) && NoIfs(Body(), InLoop());
    }
    assert Header(Body(), 2, 4) && Window(Body(), 4, 1);
    assert FoundAt(Body(), 11, D);
    forall j: nat, e | j < 11 ensures !FoundAt(Body(), j, e) {
      if FoundAt(Body(), j, e) {
        FoundMeans(Body(), j, e);
      }
    }
  }

  /** The entry recorded for selector 1 is the low table's, while the dispatcher takes the high one's. */
  lemma EntriesDiffer()
    ensures Valid(Body(), D) && EntriesFit(Body(), D) && !TableSound(Body(), D)
    ensures Entry(Body(), D, 1) == Some(1) && Reached(Body(), D, 1) == Some(0)
  {
    DispatcherFound();
    LabelsAround(11);
    LabelsAround(14);
    PeelPage();
    forall k | 0 <= k < 1 ensures EntryPlain(Body(), 11, k) {
    }
    forall k | 0 <= k < 2 ensures EntryPlain(Body(), 14, k) {
    }
    assert Entry(Body(), D, 1) == LabelAt(InPage(), 3) && Reached(Body(), D, 1) == LabelAt(InPage(), 4);
  }

  lemma PeelPage()
    ensures Peel(InPage(), 1) == InHeader() && Peel(InPage(), 3) == Middle() && Peel(InPage(), 4) == Outer()
  {
    assert Peel(InPage(), 3) == Peel(InHeader(), 2) == Peel(InLoop(), 1) == Peel(Middle(), 0);
    assert Peel(InPage(), 4) == Peel(InHeader(), 3) == Peel(InLoop(), 2) == Peel(Middle(), 1) == Peel(Outer(), 0);
  }

  lemma DeadBehindMiddle()
    ensures !Live(Body(), 22)
  {
    hide Labels, EndOf, ElseOf;
    forall path | ReadPath(Body(), path) && path[0] == 22 ensures false {
      if |path| > 1 {
        PathNext(Body(), path);
      }
    }
  }

  lemma OnlyBranch(b: nat)
    requires Valid(Body(), D) && Threadable(Body(), D, b)
    ensures b == 19
  {
  }

  lemma BranchThreadable()
    requires Valid(Body(), D) && Entry(Body(), D, 1) == Some(1)
    ensures Threadable(Body(), D, 19) && NewDepth(Body(), D, 19) == 1
  {
    LabelsAround(19);
    ClosesIs(21, 1);
    DeadBehindMiddle();
    assert Peel(InLoop(), 0).opener == 2 && DepthOf(Middle(), 1) == 0;
  }

  lemma BranchOverlapped()
    ensures Valid(Body(), D) && Overlapped(Body(), D, 19) && !PlanSound(Body(), D)
  {
    hide Labels, Live, Destination, Threadable, Entry, Reached, Valid;
    EntriesDiffer();
    BranchThreadable();
    assert Body()[17] == Const(1) && Body()[14] == BrTable([1, 3], 1);
  }

  /** The one branch back to the loop is redirected to the second block. */
  lemma PlanIs()
    ensures Valid(Body(), D) && PlanOf(Body(), D) == map[19 := 1]
  {
    EntriesDiffer();
    BranchThreadable();
    forall b | b in PlanOf(Body(), D) ensures b == 19 {
      OnlyBranch(b);
    }
  }

  // ----- the runs -----

  function F1(): Frames { Frame(Base, 0, Empty) }
  function F2(): Frames { Frame(F1(), 1, Empty) }
  function F3(): Frames { Frame(F2(), 2, Empty) }
  function F4(): Frames { Frame(F3(), 3, Empty) }
  function F5(): Frames { Frame(F4(), 7, Empty) }

  function Selector(k: u32): seq<Val> {
    [I32(0), I32(0), I32(0), I32(k)]
  }

  function One(v: u32): Operands { Push(Empty, I32(v)) }
  function Two(v: u32, w: u32): Operands { Push(One(v), I32(w)) }

  /** The original's states, number by number: once round the loop, then out through the high table. */
  function Visited(m: nat): State<()> {
    if m == 0 then State(0, Base, Empty, Selector(0), ())
    else if m == 1 then State(1, F1(), Empty, Selector(0), ())
    else if m == 2 then State(2, F2(), Empty, Selector(0), ())
    else if m == 3 then State(3, F3(), Empty, Selector(0), ())
    else if m == 4 then State(4, F4(), Empty, Selector(0), ())
    else if m == 5 then State(5, F4(), One(0), Selector(0), ())
    else if m == 6 then State(6, F4(), Two(0, 1), Selector(0), ())
    else if m == 7 then State(7, F4(), One(0), Selector(0), ())
    else if m == 8 then State(13, F5(), Empty, Selector(0), ())
    else if m == 9 then State(14, F5(), One(0), Selector(0), ())
    else if m == 10 then State(17, F3(), Empty, Selector(0), ())
    else if m == 11 then State(18, F3(), One(1), Selector(0), ())
    else if m == 12 then State(19, F3(), Empty, Selector(1), ())
    else if m == 13 then State(3, F3(), Empty, Selector(1), ())
    else if m == 14 then State(4, F4(), Empty, Selector(1), ())
    else if m == 15 then State(5, F4(), One(1), Selector(1), ())
    else if m == 16 then State(6, F4(), Two(1, 1), Selector(1), ())
    else if m == 17 then State(7, F4(), One(1), Selector(1), ())
    else if m == 18 then State(8, F5(), Empty, Selector(1), ())
    else if m == 19 then State(9, F5(), One(1), Selector(1), ())
    else if m == 20 then State(10, F5(), Two(1, 1), Selector(1), ())
    else if m == 21 then State(11, F5(), One(0), Selector(1), ())
    else if m == 22 then State(24, Base, Empty, Selector(1), ())
    else State(25, Base, Empty, Selector(1), ())
  }

  function World(): Env<()> {
    Env((raw, vals, w) => Trap(w), t => 0, t => 0, 0)
  }

  /** The next step is what the code says. */
  ghost predicate Steps(m: nat) {
    Step(Body(), World(), Visited(m)) == Running(Visited(m + 1))
  }

  lemma EntersFirst(m: nat)
    requires m < 7
    ensures Steps(m)
  {
  }

  lemma EntersLow()
    ensures Steps(7)
  {
    LabelsAround(12);
    BodyNested();
    ElseIs(Body(), 7, 12);
  }

  lemma EntersAgain(m: nat)
    requires 13 <= m < 18
    ensures Steps(m)
  {
  }

  lemma TakesTable(pc: nat, k: nat, depth: nat, next: State<()>)
    requires pc < 25 && Body()[pc].BrTable? && k < |Body()[pc].targets| && Body()[pc].targets[k] == depth
    requires Branch(Body(), World(), State(pc, F5(), One(k), next.locals, ()), Empty, depth) == Running(next)
    ensures Step(Body(), World(), State(pc, F5(), One(k), next.locals, ())) == Running(next)
  {
  }

  lemma LeavesLow()
    ensures Steps(9)
  {
    ClosesIs(16, 3);
    assert Unwind(F5(), 1) == F4();
    TakesTable(14, 0, 1, Visited(10));
  }

  lemma Returns(m: nat)
    requires m == 8 || 10 <= m < 13
    ensures Steps(m)
  {
    if m == 12 {
      assert Unwind(F3(), 0) == F3();
    }
  }

  lemma ReadsHigh(m: nat)
    requires 18 <= m < 21
    ensures Steps(m)
  {
  }

  lemma OutermostFrame()
    ensures Unwind(F5(), 4) == F1()
  {
    assert Unwind(F5(), 4) == Unwind(F4(), 3) == Unwind(F3(), 2) == Unwind(F2(), 1) == F1();
  }

  lemma LeavesHigh()
    ensures Steps(21)
  {
    hide EndOf, Labels, Peel;
    ClosesIs(23, 0);
    OutermostFrame();
    TakesTable(11, 0, 4, Visited(22));
  }

  lemma LeavesFunction()
    ensures Steps(22)
  {
  }

  lemma AllSteps(m: nat)
    requires m < 23
    ensures Steps(m)
  {
    if m < 7 {
      EntersFirst(m);
    } else if m == 7 {
      EntersLow();
    } else if m == 9 {
      LeavesLow();
    } else if m < 13 {
      Returns(m);
    } else if m < 18 {
      EntersAgain(m);
    } else if m < 21 {
      ReadsHigh(m);
    } else if m == 21 {
      LeavesHigh();
    } else {
      LeavesFunction();
    }
  }

  lemma {:induction false} RunVisits(m: nat)
    requires m <= 23
    ensures Run(Body(), World(), Running(Visited(0)), m) == Running(Visited(m))
  {
    hide Step, Visited;
    if m > 0 {
      RunVisits(m - 1);
      LastStep(Body(), World(), Running(Visited(0)), m - 1);
      AllSteps(m - 1);
    }
  }

  lemma OriginalEnds()
    ensures Ends(Body(), World(), Start(Selector(0), ()), Done(Empty, ()))
  {
    RunVisits(23);
    LastStep(Body(), World(), Start(Selector(0), ()), 23);
    assert Run(Body(), World(), Start(Selector(0), ()), 24) == Done(Empty, ());
  }

  lemma StartsInStep()
    ensures Shaped(Body(), map[19 := 1])
    ensures Simulates(Body(), map[19 := 1], D, Start(Selector(0), ()), Start(Selector(0), ()))
  {
  }

  lemma AtTriple() returns (t: State<()>)
    ensures var plan: Plan := map[19 := 1];
            && Shaped(Body(), plan) && Related(Body(), plan, Visited(10), t)
            && Run(Rewritten(Body(), plan), World(), Start(Selector(0), ()), 10) == Running(t)
  {
    var plan: Plan, start := map[19 := 1], Start(Selector(0), ());
    BodyNested();
    assert Header(Body(), 2, 4);
    StartsInStep();
    forall m | 0 <= m < 10 ensures Avoids(Body(), plan, World(), start, m) {
      RunVisits(m);
    }
    Lockstep(Body(), plan, World(), D, start, start, 10);
    RunVisits(10);
    t := Run(Rewritten(Body(), plan), World(), start, 10).state;
  }

  lemma MiddleIsOne()
    ensures Labels(Body(), 17) == Labels(Body(), 19) == InLoop()
    ensures Has(InLoop(), 1) && DepthOf(InLoop(), 1) == 1 && SubChain(F3(), 1) == F2()
  {
    LabelsAround(17);
    LabelsAround(19);
    assert Has(Middle(), 1) && DepthOf(Middle(), 1) == 0;
    assert SubChain(F3(), 1) == SubChain(F2(), 1);
  }

  /** From the triple the threaded code leaves the second block, onto the trap. */
  lemma ShortcutTraps(t: State<()>)
    requires Shaped(Body(), map[19 := 1]) && Related(Body(), map[19 := 1], Visited(10), t)
    ensures var threaded := Rewritten(Body(), map[19 := 1]);
            var next := Step(threaded, World(), t);
            next.Running? && next.state.world == () && next.state.pc < |threaded| && threaded[next.state.pc] == Unreachable
  {
    hide Step, Branch, EndOf, Labels, Rewrite, Run;
    var plan: Plan := map[19 := 1];
    BodyNested();
    MiddleIsOne();
    ClosesIs(21, 1);
    Shortcut(Body(), plan, World(), Visited(10), t, 19, 1);
    PlaceOf(Body(), plan, 22);
  }

  lemma EndsAfter<W>(code: seq<Instr>, env: Env<W>, c: Config<W>, n: nat, s: State<W>, u: State<W>)
    requires Run(code, env, c, n) == Running(s) && Step(code, env, s) == Running(u)
    requires u.pc < |code| && code[u.pc] == Unreachable
    ensures Ends(code, env, c, Trapped(u.world))
  {
    LastStep(code, env, c, n);
    LastStep(code, env, c, n + 1);
  }

  lemma ThreadedEnds()
    ensures Ends(Rewritten(Body(), map[19 := 1]), World(), Start(Selector(0), ()), Trapped(()))
  {
    var t := AtTriple();
    ShortcutTraps(t);
    var threaded := Rewritten(Body(), map[19 := 1]);
    EndsAfter(threaded, World(), Start(Selector(0), ()), 10, t, Step(threaded, World(), t).state);
  }

  lemma BodyDepths(i: nat)
    requires i < 25
    ensures DepthsFit(Body(), i)
  {
    hide Labels;
    LabelsAround(i);
  }

  /** The pass refuses nothing of the body, however its operations are written as bytes. */
  lemma BodyAccepted(limit: nat)
    requires limit >= |Body()|
    ensures Accepted(Body(), limit)
  {
    hide Labels, WellNested, Chosen, DepthsFit, EntriesPlain;
    BodyNested();
    EntriesDiffer();
    forall i | 0 <= i < 25 ensures DepthsFit(Body(), i) {
      BodyDepths(i);
    }
    forall d | Chosen(Body(), d) ensures d == D {
      DispatcherFound();
      ChosenOnce(Body(), D, d);
    }
  }

  /** The body is accepted, its dispatcher the chosen one, and still threading changes its outcome: exactly
      the overlap that makes its table unsound. */
  lemma OverlapBreaksThreading(limit: nat)
    requires limit >= |Body()|
    ensures Accepted(Body(), limit) && Chosen(Body(), D) && Valid(Body(), D)
    ensures !PlanSound(Body(), D) && Overlapped(Body(), D, 19)
    ensures Ends(Body(), World(), Start(Selector(0), ()), Done(Empty, ()))
    ensures Ends(Rewritten(Body(), PlanOf(Body(), D)), World(), Start(Selector(0), ()), Trapped(()))
  {
    hide Body, Labels, Live, Valid, Accepted, Chosen, PlanSound, Overlapped, PlanOf, Ends, Rewritten, Start;
    BodyAccepted(limit);
    DispatcherFound();
    BranchOverlapped();
    PlanIs();
    OriginalEnds();
    ThreadedEnds();
  }
}
