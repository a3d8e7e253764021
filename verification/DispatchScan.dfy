/** Recognising the dispatcher while scanning the body: which branch tables are accepted, given what
    was accepted before. */
module DispatchScan {
  import opened Wrappers
  import opened Leb128
  import opened WasmCode
  import opened CodeRewrite
  import opened DispatchPlan
  import opened ControlFlow

  // ----- what a branch table has to look like -----

  /** The offset of a branch table's first selector value: 0 behind a plain read, the page base in a window. */
  function SelectorBase(ops: seq<Op>, index: nat): Option<nat>
    requires index < |ops|
  {
    if index > 0 && ops[index - 1].op == 0x20 && ops[index - 1].imm == 3 then Some(0)
    else if index < 7 || index + 4 >= |ops| then None
    else if ops[index - 7].op != 0x20 || ops[index - 7].imm != 3 || ops[index - 6].op != 0x41
         || ops[index - 6].imm <= 0 || ops[index - 5].op != 0x4f || ops[index - 4].op != 0x04
         || ops[index - 3].op != 0x20 || ops[index - 3].imm != 3 || ops[index - 2].op != 0x41
         || ops[index - 2].imm != ops[index - 6].imm || ops[index - 1].op != 0x6b || ops[index + 1].op != 0x05
         || ops[index + 2].op != 0x20 || ops[index + 2].imm != 3 || ops[index + 3].op != 0x0e || ops[index + 4].op != 0x0b
    then None
    else Some(ops[index - 6].imm)
  }

  lemma SelectorBaseMeans(ops: seq<Op>, code: seq<Instr>, index: nat)
    requires Reads(ops, code) && index < |ops| && code[index].BrTable?
    ensures SelectorBase(ops, index) == Some(0) <==> index > 0 && code[index - 1] == Get(SELECTOR)
    ensures var base := SelectorBase(ops, index);
            base.Some? && base.value > 0 ==> index >= 7 && Window(code, index - 7, base.value)
  {
    if index > 0 {
      assert OpMatches(ops[index - 1], code[index - 1]);
    }
    var base := SelectorBase(ops, index);
    if base.Some? && base.value > 0 {
      WindowReads(ops, code, index - 7);
    }
  }

  lemma SelectorBaseFinds(ops: seq<Op>, code: seq<Instr>, index: nat, base: nat)
    requires Reads(ops, code) && 7 <= index < |ops| && Window(code, index - 7, base)
    ensures SelectorBase(ops, index) == Some(base)
  {
    WindowReads(ops, code, index - 7);
  }

  lemma WindowReads(ops: seq<Op>, code: seq<Instr>, sel: nat)
    requires Reads(ops, code) && sel + 11 < |ops|
    ensures forall i :: sel <= i < sel + 12 ==> OpMatches(ops[i], code[i])
  {
  }

  function InnermostLoop(code: seq<Instr>, nest: Nest): Option<nat> {
    if nest.Outside? then None
    else if nest.opener < |code| && code[nest.opener].Open? && code[nest.opener].kind.Loop? then Some(nest.opener)
    else InnermostLoop(code, nest.outer)
  }

  /** Around the table no `if` but the page's own. */
  predicate IfsAllowed(code: seq<Instr>, nest: Nest, page: u32, own: Option<nat>) {
    nest.Inside? ==>
      && (nest.opener < |code| && code[nest.opener].Open? && code[nest.opener].kind.If? ==>
            nest.opener == page || own == Some(nest.opener))
      && IfsAllowed(code, nest.outer, page, own)
  }

  function OwnIf(index: nat, base: nat): Option<nat> {
    if base > 0 && index >= 4 then Some(index - 4) else None
  }

  /** Where the selector is read for the table at `index`. */
  function SelectorStart(code: seq<Instr>, index: nat, base: nat, page: u32): int
    requires index <= |code|
  {
    if base > 0 then index - 7 else if page != ABSENT && Has(Labels(code, index), page) then page - 3 else index - 1
  }

  /** The table at `index` is accepted for the loop at `l`. */
  ghost predicate Suitable(code: seq<Instr>, index: nat, base: nat, l: nat, loop: u32, page: u32)
    requires index <= |code|
  {
    && InnermostLoop(code, Labels(code, index)) == Some(l)
    && IfsAllowed(code, Labels(code, index), page, OwnIf(index, base))
    && (loop == ABSENT || loop == l)
    && SelectorStart(code, index, base, page) >= 0
    && Header(code, l, SelectorStart(code, index, base, page))
  }

  // ----- what has been recognised so far -----

  ghost predicate NothingFound(code: seq<Instr>, n: nat) {
    forall i: nat, e :: i < n ==> !FoundAt(code, i, e)
  }

  /** The scan's variables after `n` operations; a page's low table comes three operations after the high one. */
  ghost predicate ScanState(code: seq<Instr>, n: nat, d: Dispatcher, loop: u32, page: u32) {
    match d
    case NoDispatcher => loop == ABSENT && page == ABSENT && NothingFound(code, n)
    case Single(head, sel) =>
      && loop == head && page == ABSENT && sel + 1 < n <= |code| < ABSENT && SingleAt(code, head, sel)
      && NothingFound(code, sel + 1)
    case Paged(head, sel, base) =>
      && loop == head && page == sel + 3 && sel + 7 < n <= |code| < ABSENT && PagedAt(code, head, sel, base)
      && NothingFound(code, sel + 7)
  }

  lemma {:induction false} NoIfsAllowed(code: seq<Instr>, i: nat, page: u32, own: Option<nat>)
    requires i <= |code| && (own.Some? ==> own.value >= i) && page >= i
    ensures IfsAllowed(code, Labels(code, i), page, own) <==> NoIfs(code, Labels(code, i))
    decreases i
  {
    if Labels(code, i).Inside? {
      LabelsShape(code, i, 0);
      NoIfsAllowed(code, Labels(code, i).opener, page, own);
    }
  }

  lemma {:induction false} HeaderLoop(code: seq<Instr>, head: nat, sel: nat, i: nat)
    requires Header(code, head, sel) && head < i <= sel
    ensures InnermostLoop(code, Labels(code, i)) == Some(head)
    ensures NoIfs(code, Labels(code, i)) <==> NoIfs(code, Labels(code, head))
    decreases i
  {
    if head + 1 < i {
      HeaderLoop(code, head, sel, i - 1);
    }
  }

  lemma InnermostIsLoop(code: seq<Instr>, nest: Nest)
    requires InnermostLoop(code, nest).Some?
    ensures var l := InnermostLoop(code, nest).value;
            Has(nest, l) && l < |code| && code[l].Open? && code[l].kind.Loop?
  {
  }

  lemma LabelsBeforeWindow(code: seq<Instr>, sel: nat, base: nat)
    requires Window(code, sel, base)
    ensures Labels(code, sel + 7) == Labels(code, sel + 10) == Inside(Labels(code, sel), sel + 3)
    ensures Labels(code, sel + 12) == Labels(code, sel)
  {
    assert Labels(code, sel + 3) == Labels(code, sel + 2) == Labels(code, sel + 1) == Labels(code, sel);
    var inside := Inside(Labels(code, sel), sel + 3);
    assert Labels(code, sel + 7) == Labels(code, sel + 6) == Labels(code, sel + 5) == Labels(code, sel + 4) == inside;
    assert Labels(code, sel + 11) == Labels(code, sel + 10) == Labels(code, sel + 9) == Labels(code, sel + 8) == inside;
  }

  /** Before anything is recognised, the accepted tables are exactly the dispatchers. */
  lemma SuitableFirst(code: seq<Instr>, index: nat, base: nat, l: nat)
    requires index < |code| < ABSENT && code[index].BrTable?
    requires base == 0 ==> index > 0 && code[index - 1] == Get(SELECTOR)
    requires base > 0 ==> index >= 7 && Window(code, index - 7, base)
    ensures Suitable(code, index, base, l, ABSENT, ABSENT)
            <==> FoundAt(code, index, if base == 0 then Single(l, index - 1) else Paged(l, index - 7, base))
  {
    var sel := if base == 0 then index - 1 else index - 7;
    NoIfsAllowed(code, sel, ABSENT, OwnIf(index, base));
    if base > 0 {
      LabelsBeforeWindow(code, sel, base);
    }
    if Header(code, l, sel) {
      HeaderLoop(code, l, sel, sel);
    }
  }

  /** A dispatcher is recognised at one table only, and for one loop and base. */
  lemma FoundMeans(code: seq<Instr>, index: nat, d: Dispatcher)
    requires FoundAt(code, index, d)
    ensures index < |code| && code[index].BrTable?
    ensures d.Single? ==> index > 0 && code[index - 1] == Get(SELECTOR) && d.sel == index - 1
    ensures d.Paged? ==> index >= 7 && Window(code, index - 7, d.base) && d.sel == index - 7 && d.base > 0
    ensures code[index - 1] == Get(SELECTOR) ==> d.Single?
  {
  }

  lemma FoundOnce(code: seq<Instr>, index: nat, d: Dispatcher, e: Dispatcher)
    requires FoundAt(code, index, d) && FoundAt(code, index, e)
    ensures d == e
  {
    FoundMeans(code, index, d);
    FoundMeans(code, index, e);
    assert Header(code, d.head, d.sel) && Header(code, e.head, e.sel);
    OnlyBlocksInside(code, d.head, d.sel, e.head);
    OnlyBlocksInside(code, e.head, e.sel, d.head);
  }

  lemma OnlyBlocksInside(code: seq<Instr>, head: nat, sel: nat, i: nat)
    requires Header(code, head, sel) && i < |code| && code[i] != Open(Block, EMPTY_TYPE)
    ensures i <= head || sel <= i
  {
  }

  lemma ChosenOnce(code: seq<Instr>, d: Dispatcher, e: Dispatcher)
    requires Chosen(code, d) && Chosen(code, e)
    ensures d == e
  {
    if !d.NoDispatcher? && !e.NoDispatcher? {
      var i: nat :| i < |code| && FoundAt(code, i, d) && forall k: nat, f :: k < i ==> !FoundAt(code, k, f);
      var j: nat :| j < |code| && FoundAt(code, j, e) && forall k: nat, f :: k < j ==> !FoundAt(code, k, f);
      FoundOnce(code, i, d, e);
    }
  }

  /** Two headers of one loop end at the same selector. */
  lemma OneHeader(code: seq<Instr>, head: nat, sel: nat, other: nat)
    requires Header(code, head, sel) && Header(code, head, other)
    requires sel < |code| && other < |code| && code[sel] == Get(SELECTOR) && code[other] == Get(SELECTOR)
    ensures sel == other
  {
    OnlyBlocksInside(code, head, sel, other);
    OnlyBlocksInside(code, head, other, sel);
  }

  /** Afterwards only the low table of the recognised page is accepted. */
  lemma SuitableLater(code: seq<Instr>, index: nat, base: nat, l: nat, d: Dispatcher, loop: u32, page: u32)
    requires !d.NoDispatcher? && ScanState(code, index, d, loop, page)
    requires index < |code| && code[index].BrTable?
    requires base == 0 ==> index > 0 && code[index - 1] == Get(SELECTOR)
    requires base > 0 ==> index >= 7 && Window(code, index - 7, base)
    requires Suitable(code, index, base, l, loop, page)
    ensures d.Paged? && index == d.sel + 10 && base == 0 && l == d.head
  {
    var start := SelectorStart(code, index, base, page);
    assert Header(code, d.head, d.sel) && Header(code, l, start);
    if base > 0 || d.Single? || !Has(Labels(code, index), page) {
      OneHeader(code, l, d.sel, start);
      assert false;
    } else {
      LabelsBeforeWindow(code, d.sel, d.base);
      if index >= d.sel + 12 {
        if Has(Labels(code, d.sel), d.sel + 3) {
          HasShape(code, d.sel, d.sel + 3);
        }
        Gone(code, d.sel + 3, d.sel + 12, index);
        assert false;
      }
    }
  }

  /** The low table of a recognised page is accepted. */
  lemma LowSuitable(code: seq<Instr>, d: Dispatcher, loop: u32, page: u32)
    requires d.Paged? && ScanState(code, d.sel + 10, d, loop, page)
    ensures Suitable(code, d.sel + 10, 0, d.head, loop, page)
  {
    LabelsBeforeWindow(code, d.sel, d.base);
    HeaderLoop(code, d.head, d.sel, d.sel);
    NoIfsAllowed(code, d.sel, page, None);
    assert IfsAllowed(code, Labels(code, d.sel), page, None);
  }
}
