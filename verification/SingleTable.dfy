/** Threading a function with one branch table: the whole body is accepted, and its branch back to the loop
    becomes the branch to its block. */
module SingleTable {
  import opened Wrappers
  import opened WasmCode
  import opened CodeRewrite
  import opened DispatchPlan
  import opened DispatchScan
  import opened EdgeScan
  import opened SecondPass

  /** A loop around two blocks; the dispatcher is the first thing in the inner one. */
  const BODY: seq<Instr> := [
    Open(Loop, EMPTY_TYPE), Open(Block, EMPTY_TYPE), Open(Block, EMPTY_TYPE), Get(3), BrTable([0, 1], 1), End,
    Const(1), Set(3), Br(1), End, Return, End, End]

  const THREADED: seq<Instr> := [
    Open(Loop, EMPTY_TYPE), Open(Block, EMPTY_TYPE), Open(Block, EMPTY_TYPE), Get(3), BrTable([0, 1], 1), End,
    Br(0), End, Return, End, End]

  const D := Single(0, 3)

  function InLoop(): Nest { Inside(Outside, 0) }
  function InOuter(): Nest { Inside(InLoop(), 1) }
  function InInner(): Nest { Inside(InOuter(), 2) }

  /** The labels around every operation. */
  function Around(i: nat): Nest {
    if i == 0 || i >= 12 then Outside else if i == 1 || i >= 10 then InLoop() else if i == 2 || i >= 6 then InOuter() else InInner()
  }

  lemma {:induction false} LabelsAround(i: nat)
    requires i <= |BODY|
    ensures Labels(BODY, i) == Around(i)
  {
    if i > 0 {
      LabelsAround(i - 1);
    }
  }

  lemma Nested()
    ensures WellNested(BODY)
  {
    LabelsAround(|BODY|);
    forall j | 0 <= j < |BODY| ensures NestedAt(BODY, j) {
      LabelsAround(j);
    }
  }

  lemma Found()
    ensures FoundAt(BODY, 4, D) && Chosen(BODY, D) && Valid(BODY, D)
  {
    LabelsAround(3);
    assert NoIfs(BODY, InInner()) by {
      assert NoIfs(BODY, InLoop()) && NoIfs(BODY, InOuter());
    }
    assert Header(BODY, 0, 3) && FoundAt(BODY, 4, D);
    forall j: nat, e | j < 4 ensures !FoundAt(BODY, j, e) {
      if FoundAt(BODY, j, e) {
        FoundMeans(BODY, j, e);
      }
    }
  }

  lemma Depths(i: nat)
    requires i < |BODY|
    ensures DepthsFit(BODY, i)
  {
    hide Labels;
    LabelsAround(i);
  }

  lemma Fits(limit: nat)
    requires limit >= |BODY|
    ensures Valid(BODY, D) && DispatcherFits(BODY, D, limit)
  {
    Found();
    LabelsAround(4);
    assert Peel(InInner(), 0) == InInner() && Peel(InInner(), 1) == InOuter();
    forall k | 0 <= k < 2 ensures EntryPlain(BODY, 4, k) {
    }
  }

  lemma BodyAccepted(limit: nat)
    requires limit >= |BODY|
    ensures Accepted(BODY, limit)
  {
    hide Labels, WellNested, Chosen, DepthsFit, DispatcherFits, Valid;
    Nested();
    forall i | 0 <= i < |BODY| ensures DepthsFit(BODY, i) {
      Depths(i);
    }
    forall d | Chosen(BODY, d) ensures Valid(BODY, d) && DispatcherFits(BODY, d, limit) {
      Found();
      ChosenOnce(BODY, D, d);
      Fits(limit);
    }
  }

  lemma EndOfOuter()
    ensures Destination(BODY, Some(1)) == 10
  {
    LabelsAround(9);
    EndIs(BODY, 1, 9);
  }

  lemma Straight()
    ensures Valid(BODY, D) && 8 in PlanOf(BODY, D) && PlanOf(BODY, D)[8] == 0
  {
    hide Live, Destination, Valid;
    Found();
    EndOfOuter();
    LabelsAround(4);
    LabelsAround(8);
    assert Peel(InInner(), 1) == InOuter() && Peel(InOuter(), 1) == InLoop() && Peel(InOuter(), 0) == InOuter();
    assert Entry(BODY, D, 1) == Some(1);
    NotLive();
    assert Threadable(BODY, D, 8);
  }

  lemma NotLive()
    ensures !Live(BODY, 10)
  {
    forall path | ReadPath(BODY, path) && path[0] == 10 ensures false {
      if |path| > 1 {
        PathNext(BODY, path);
      }
    }
  }

  lemma PlanIs()
    ensures Valid(BODY, D) && PlanOf(BODY, D) == map[8 := 0]
  {
    hide Live, Destination, Valid, Labels;
    Straight();
    forall b | b in PlanOf(BODY, D) ensures b == 8 {
    }
  }

  /** The body comes back with exactly the one triple replaced. */
  lemma SingleTableThreaded(limit: nat)
    requires limit >= |BODY|
    ensures Accepted(BODY, limit) && Chosen(BODY, D) && Valid(BODY, D)
    ensures Rewritten(BODY, PlanOf(BODY, D)) == THREADED
  {
    hide Accepted, Chosen, Valid, PlanOf;
    BodyAccepted(limit);
    Found();
    PlanIs();
    RewrittenBody(|BODY|);
  }

  lemma {:induction false} RewrittenBody(i: nat)
    requires i <= |BODY|
    ensures Rewrite(BODY, map[8 := 0], i) == if i <= 6 then THREADED[..i] else if i <= 8 then THREADED[..6] else THREADED[..i - 2]
  {
    if i > 0 {
      RewrittenBody(i - 1);
    }
  }
}
