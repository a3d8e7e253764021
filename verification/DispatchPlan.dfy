/** What dispatch threading looks for: the loop that dispatches on the selector local, the block each
    selector value reaches, and the branches back to that loop that can go straight to their block. */
module DispatchPlan {
  import opened Wrappers
  import opened Leb128
  import opened WasmCode
  import opened CodeRewrite

  // ----- control flow and liveness of the selector -----

  /** Where a branch to a label continues; `|code|` stands for leaving the function. */
  function Destination(code: seq<Instr>, target: Option<nat>): nat {
    if target.None? || target.value >= |code| then |code|
    else if code[target.value].Open? && code[target.value].kind.Loop? then target.value + 1
    else EndOf(code, target.value) + 1
  }

  function BranchTarget(code: seq<Instr>, i: nat, depth: nat): nat
    requires i <= |code|
  {
    Destination(code, LabelAt(Labels(code, i), depth))
  }

  /** The positions control may reach next from operation `i`. */
  function Succs(code: seq<Instr>, i: nat): set<nat>
    requires i < |code|
  {
    match code[i]
    case Open(kind, _) =>
      if !kind.If? then {i + 1}
      else if ElseOf(code, i) < |code| then {i + 1, ElseOf(code, i) + 1}
      else {i + 1, EndOf(code, i) + 1}
    case Else =>
      if Labels(code, i).Outside? || Labels(code, i).opener >= |code| then {}
      else {EndOf(code, Labels(code, i).opener) + 1}
    case Br(d) => {BranchTarget(code, i, d)}
    case BrIf(d) => {BranchTarget(code, i, d), i + 1}
    case BrTable(targets, default) =>
      (set k | 0 <= k < |targets| :: BranchTarget(code, i, targets[k])) + {BranchTarget(code, i, default)}
    case Return => {}
    case Unreachable => {}
    case _ => {i + 1}
  }

  predicate Kills(instr: Instr) {
    instr == Set(SELECTOR) || instr == Tee(SELECTOR)
  }

  /** A control-flow path that ends at a read of the selector and passes no write of it. */
  ghost predicate ReadPath(code: seq<Instr>, path: seq<nat>) {
    && path != []
    && (forall k :: 0 <= k < |path| ==> path[k] < |code|)
    && (forall k :: 0 <= k < |path| - 1 ==> path[k + 1] in Succs(code, path[k]) && !Kills(code[path[k]]))
    && code[path[|path| - 1]] == Get(SELECTOR)
  }

  /** The selector is live in front of operation `i`. */
  ghost predicate Live(code: seq<Instr>, i: nat) {
    exists path :: ReadPath(code, path) && path[0] == i
  }

  lemma PathNext(code: seq<Instr>, path: seq<nat>)
    requires ReadPath(code, path) && |path| > 1
    ensures path[1] in Succs(code, path[0])
  {
    assert path[0 + 1] in Succs(code, path[0]);
  }

  lemma LiveAtRead(code: seq<Instr>, i: nat)
    requires i < |code| && code[i] == Get(SELECTOR)
    ensures Live(code, i)
  {
    assert ReadPath(code, [i]);
  }

  lemma LiveBackwards(code: seq<Instr>, i: nat, j: nat)
    requires i < |code| && j in Succs(code, i) && Live(code, j) && !Kills(code[i])
    ensures Live(code, i)
  {
    var path :| ReadPath(code, path) && path[0] == j;
    var longer := [i] + path;
    forall k | 0 <= k < |longer| - 1
      ensures longer[k + 1] in Succs(code, longer[k]) && !Kills(code[longer[k]])
    {
      assert longer[k + 1] == path[k];
      if k > 0 {
        assert longer[k] == path[k - 1];
      }
    }
    assert ReadPath(code, longer);
  }

  // ----- dispatchers -----

  /** The loop at `head` reads the selector at `sel`, in one table or, above `base`, in a second one. */
  datatype Dispatcher =
    | NoDispatcher
    | Single(head: nat, sel: nat)
    | Paged(head: nat, sel: nat, base: nat)

  /** Between the loop and the selector there is nothing but blocks without parameters or results. */
  ghost predicate Header(code: seq<Instr>, head: nat, sel: nat) {
    && head < sel <= |code|
    && code[head] == Open(Loop, EMPTY_TYPE)
    && forall i :: head < i < sel ==> code[i] == Open(Block, EMPTY_TYPE)
  }

  predicate NoIfs(code: seq<Instr>, nest: Nest) {
    nest.Inside? ==>
      && nest.opener < |code| && code[nest.opener].Open? && !code[nest.opener].kind.If?
      && NoIfs(code, nest.outer)
  }

  ghost predicate SingleAt(code: seq<Instr>, head: nat, sel: nat) {
    && Header(code, head, sel) && sel + 1 < |code|
    && code[sel] == Get(SELECTOR) && code[sel + 1].BrTable?
    && NoIfs(code, Labels(code, sel))
  }

  /** The twelve operations that split the selector at `base`. */
  predicate Window(code: seq<Instr>, sel: nat, base: nat) {
    && sel + 11 < |code| && 0 < base < 0x8000_0000
    && code[sel] == Get(SELECTOR) && code[sel + 1] == Const(base) && code[sel + 2].GeU?
    && code[sel + 3].Open? && code[sel + 3].kind.If?
    && code[sel + 4] == Get(SELECTOR) && code[sel + 5] == Const(base) && code[sel + 6].Sub?
    && code[sel + 7].BrTable? && code[sel + 8].Else?
    && code[sel + 9] == Get(SELECTOR) && code[sel + 10].BrTable? && code[sel + 11].End?
  }

  ghost predicate PagedAt(code: seq<Instr>, head: nat, sel: nat, base: nat) {
    Header(code, head, sel) && Window(code, sel, base) && NoIfs(code, Labels(code, sel))
  }

  /** The dispatcher is recognised at its (first) branch table, operation `i`. */
  ghost predicate FoundAt(code: seq<Instr>, i: nat, d: Dispatcher) {
    match d
    case NoDispatcher => false
    case Single(head, sel) => i == sel + 1 && SingleAt(code, head, sel)
    case Paged(head, sel, base) => i == sel + 7 && PagedAt(code, head, sel, base)
  }

  ghost predicate Chosen(code: seq<Instr>, d: Dispatcher) {
    if d.NoDispatcher? then forall i: nat, e :: i < |code| ==> !FoundAt(code, i, e)
    else exists i: nat :: i < |code| && FoundAt(code, i, d) && forall j: nat, e :: j < i ==> !FoundAt(code, j, e)
  }

  ghost predicate Valid(code: seq<Instr>, d: Dispatcher) {
    d.NoDispatcher? || exists i :: FoundAt(code, i, d)
  }

  function Low(code: seq<Instr>, d: Dispatcher): seq<u32>
    requires d.Paged? && d.sel + 10 < |code| && code[d.sel + 10].BrTable?
  {
    code[d.sel + 10].targets
  }

  function High(code: seq<Instr>, d: Dispatcher): seq<u32>
    requires d.Paged? && d.sel + 7 < |code| && code[d.sel + 7].BrTable?
  {
    code[d.sel + 7].targets
  }

  /** The label recorded for selector value `k`: the low page is recorded last and wins. */
  ghost function Entry(code: seq<Instr>, d: Dispatcher, k: nat): Option<nat>
    requires Valid(code, d)
  {
    match d
    case NoDispatcher => None
    case Single(head, sel) =>
      var t := code[sel + 1].targets;
      if k < |t| then LabelAt(Labels(code, sel + 1), t[k]) else None
    case Paged(head, sel, base) =>
      if k < |Low(code, d)| then LabelAt(Labels(code, sel + 10), Low(code, d)[k])
      else if base <= k < base + |High(code, d)| then LabelAt(Labels(code, sel + 7), High(code, d)[k - base])
      else None
  }

  /** The label the dispatcher itself branches to for selector value `k`. */
  ghost function Reached(code: seq<Instr>, d: Dispatcher, k: nat): Option<nat>
    requires Valid(code, d) && !d.NoDispatcher?
  {
    match d
    case Single(head, sel) =>
      var t := code[sel + 1];
      LabelAt(Labels(code, sel + 1), if k < |t.targets| then t.targets[k] else t.default)
    case Paged(head, sel, base) =>
      if k >= base then
        var t := code[sel + 7];
        LabelAt(Labels(code, sel + 7), if k - base < |t.targets| then t.targets[k - base] else t.default)
      else
        var t := code[sel + 10];
        LabelAt(Labels(code, sel + 10), if k < |t.targets| then t.targets[k] else t.default)
  }

  predicate IsPlainBlock(code: seq<Instr>, l: Option<nat>) {
    l.Some? && l.value < |code| && code[l.value] == Open(Block, EMPTY_TYPE)
  }

  predicate EntryPlain(code: seq<Instr>, index: nat, k: nat)
    requires index < |code| && code[index].BrTable? && k < |code[index].targets|
  {
    IsPlainBlock(code, LabelAt(Labels(code, index), code[index].targets[k]))
  }

  ghost predicate EntriesPlain(code: seq<Instr>, index: nat, e: nat)
    requires index < |code| && code[index].BrTable? && e <= |code[index].targets|
  {
    forall k :: 0 <= k < e ==> EntryPlain(code, index, k)
  }

  /** Every recorded label is a block without parameters or results; anything else is refused. */
  ghost predicate EntriesFit(code: seq<Instr>, d: Dispatcher)
    requires Valid(code, d)
  {
    match d
    case NoDispatcher => true
    case Single(head, sel) => EntriesPlain(code, sel + 1, |code[sel + 1].targets|)
    case Paged(head, sel, base) =>
      EntriesPlain(code, sel + 10, |Low(code, d)|) && EntriesPlain(code, sel + 7, |High(code, d)|)
  }

  /** Every recorded label is the one the dispatcher branches to. */
  ghost predicate TableSound(code: seq<Instr>, d: Dispatcher)
    requires Valid(code, d)
  {
    d.NoDispatcher? || forall k: nat :: Entry(code, d, k).Some? ==> Entry(code, d, k) == Reached(code, d, k)
  }

  /** A single table is always sound. A paged one is, exactly when the low table does not reach past
      the base, or agrees with the high one where it does. */
  lemma TableSoundness(code: seq<Instr>, d: Dispatcher)
    requires Valid(code, d) && EntriesFit(code, d)
    ensures TableSound(code, d) <==>
            (d.Paged? ==> forall k: nat :: d.base <= k < |Low(code, d)| ==>
              LabelAt(Labels(code, d.sel + 10), Low(code, d)[k]) == Reached(code, d, k))
    ensures d.Paged? && |Low(code, d)| <= d.base ==> TableSound(code, d)
  {
    if d.Paged? {
      forall k: nat | d.base <= k < |Low(code, d)|
        ensures Entry(code, d, k) == LabelAt(Labels(code, d.sel + 10), Low(code, d)[k]) && Entry(code, d, k).Some?
      {
        assert EntryPlain(code, d.sel + 10, k);
      }
    }
  }

  // ----- the plan -----

  /** A branch back to the dispatching loop, right after storing a constant whose block is open here
      and behind whose end the selector is dead. */
  ghost predicate Threadable(code: seq<Instr>, d: Dispatcher, b: nat)
    requires Valid(code, d)
  {
    && !d.NoDispatcher? && 2 <= b < |code|
    && code[b].Br? && LabelAt(Labels(code, b), code[b].depth) == Some(d.head)
    && code[b - 1] == Set(SELECTOR) && code[b - 2].Const? && code[b - 2].value >= 0
    && var entry := Entry(code, d, code[b - 2].value);
       && entry.Some? && Has(Labels(code, b), entry.value)
       && !(Destination(code, entry) < |code| && Live(code, Destination(code, entry)))
  }

  /** What the plan uses of the table is what the dispatcher branches to. */
  ghost predicate PlanSound(code: seq<Instr>, d: Dispatcher)
    requires Valid(code, d)
  {
    forall b :: Threadable(code, d, b) ==> Entry(code, d, code[b - 2].value) == Reached(code, d, code[b - 2].value)
  }

  /** A branch that stores a value at or above the base, for which the low table has an entry. */
  ghost predicate Overlapped(code: seq<Instr>, d: Dispatcher, b: nat)
    requires Valid(code, d)
  {
    d.Paged? && Threadable(code, d, b) && d.base <= code[b - 2].value < |Low(code, d)|
  }

  /** Only overlapped branches matter: the low table has to agree with the high one about each of them. */
  lemma PlanSoundness(code: seq<Instr>, d: Dispatcher)
    requires Valid(code, d)
    ensures PlanSound(code, d) <==>
            forall b :: Overlapped(code, d, b) ==>
              LabelAt(Labels(code, d.sel + 10), Low(code, d)[code[b - 2].value]) == Reached(code, d, code[b - 2].value)
    ensures TableSound(code, d) ==> PlanSound(code, d)
  {
    hide Labels, Live, Destination;
    forall b | Threadable(code, d, b) && !Overlapped(code, d, b)
      ensures Entry(code, d, code[b - 2].value) == Reached(code, d, code[b - 2].value)
    {
    }
    forall b | Overlapped(code, d, b)
      ensures Threadable(code, d, b)
      ensures Entry(code, d, code[b - 2].value) == LabelAt(Labels(code, d.sel + 10), Low(code, d)[code[b - 2].value])
    {
    }
  }

  /** How many labels lie between branch `b` and its block. */
  ghost function NewDepth(code: seq<Instr>, d: Dispatcher, b: nat): nat
    requires Valid(code, d) && Threadable(code, d, b)
  {
    DepthOf(Labels(code, b), Entry(code, d, code[b - 2].value).value)
  }

  ghost function PlanOf(code: seq<Instr>, d: Dispatcher): (plan: Plan)
    requires Valid(code, d)
    ensures Shaped(code, plan)
    ensures forall b :: b in plan <==> Threadable(code, d, b)
  {
    map b | 2 <= b < |code| && Threadable(code, d, b) :: NewDepth(code, d, b)
  }

  // ----- nothing is left out -----

  /** The dispatcher's tables themselves (not their defaults) name block `l` for selector value `k`: one page
      has an entry for `k`, and every page that has one names `l`. */
  ghost predicate Names(code: seq<Instr>, d: Dispatcher, k: nat, l: nat)
    requires Valid(code, d)
  {
    match d
    case NoDispatcher => false
    case Single(head, sel) => EntryNames(code, sel + 1, k, l)
    case Paged(head, sel, base) =>
      var low, high := k < |code[sel + 10].targets|, base <= k < base + |code[sel + 7].targets|;
      (low || high) && (low ==> EntryNames(code, sel + 10, k, l)) && (high ==> EntryNames(code, sel + 7, k - base, l))
  }

  predicate EntryNames(code: seq<Instr>, index: nat, k: nat, l: nat) {
    && index < |code| && code[index].BrTable? && k < |code[index].targets|
    && LabelAt(Labels(code, index), code[index].targets[k]) == Some(l)
  }

  lemma NamesEntry(code: seq<Instr>, d: Dispatcher, k: nat, l: nat)
    requires Valid(code, d) && Names(code, d, k, l)
    ensures Entry(code, d, k) == Some(l)
  {
  }

  /** Every label is open once. */
  lemma {:induction false} OpenOnce(code: seq<Instr>, i: nat, m: nat, l: nat)
    requires i <= |code| && LabelAt(Labels(code, i), m) == Some(l)
    ensures Has(Labels(code, i), l) && DepthOf(Labels(code, i), l) == m
    decreases i
  {
    var nest := Labels(code, i);
    if m > 0 {
      LabelsShape(code, i, 0);
      PeelHas(nest.outer, m - 1);
      HasShape(code, nest.opener, l);
      OpenOnce(code, nest.opener, m - 1, l);
    }
  }

  /** Completeness of threading, for one table and for two: a branch back to the dispatching loop, right after
      storing a constant for which the tables name a block that is open here and from behind which no path
      reads the selector, is replaced by a branch of exactly the depth at which that block is open, and the
      two operations before it are gone. */
  lemma BranchesGoStraight(code: seq<Instr>, d: Dispatcher, b: nat, k: nat, l: nat, m: nat)
    requires Valid(code, d) && !d.NoDispatcher? && 2 <= b < |code|
    requires code[b - 2].Const? && code[b - 2].value == k && code[b - 1] == Set(SELECTOR) && code[b].Br?
    requires LabelAt(Labels(code, b), code[b].depth) == Some(d.head)
    requires Names(code, d, k, l) && LabelAt(Labels(code, b), m) == Some(l)
    requires forall path :: ReadPath(code, path) ==> path[0] != Destination(code, Some(l))
    ensures var plan := PlanOf(code, d);
            && Place(code, plan, b) == Place(code, plan, b - 1) == Place(code, plan, b - 2) < |Rewritten(code, plan)|
            && Rewritten(code, plan)[Place(code, plan, b)] == Br(m)
  {
    hide Labels, Destination, ReadPath, Entry, Names, Valid;
    NamesEntry(code, d, k, l);
    OpenOnce(code, b, m, l);
    assert Threadable(code, d, b);
    var plan := PlanOf(code, d);
    NotDropped(code, plan, b);
    PlaceOf(code, plan, b);
  }

  lemma NotDropped(code: seq<Instr>, plan: Plan, b: nat)
    requires Shaped(code, plan) && b in plan
    ensures !Dropped(plan, b) && Dropped(plan, b - 1) && Dropped(plan, b - 2)
  {
  }
}
