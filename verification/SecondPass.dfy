/** The second pass as a whole: all edges, the label of every branch, and the dispatch table. */
module SecondPass {
  import opened Wrappers
  import opened Leb128
  import opened WasmCode
  import opened DispatchPlan
  import opened ControlFlow
  import opened DispatchScan
  import opened EdgeScan
  import opened DispatchTables

  // ----- which bodies are accepted -----

  /** The dispatcher's tables hold plain blocks only and fit the body. */
  ghost predicate DispatcherFits(code: seq<Instr>, d: Dispatcher, limit: nat)
    requires Valid(code, d)
  {
    match d
    case NoDispatcher => true
    case Single(head, sel) => TableFits(code, sel + 1, 0, limit)
    case Paged(head, sel, base) => TableFits(code, sel + 7, base, limit) && TableFits(code, sel + 10, 0, limit)
  }

  ghost predicate DepthsFitUpTo(code: seq<Instr>, n: nat)
    requires n <= |code|
  {
    forall i :: 0 <= i < n ==> DepthsFit(code, i)
  }

  /** Everything else is refused as invalid code. */
  ghost predicate Accepted(code: seq<Instr>, limit: nat) {
    && WellNested(code) && DepthsFitUpTo(code, |code|)
    && forall d :: Chosen(code, d) ==> Valid(code, d) && DispatcherFits(code, d, limit)
  }

  lemma FitsMeansEntries(code: seq<Instr>, d: Dispatcher, limit: nat)
    requires Valid(code, d) && DispatcherFits(code, d, limit)
    ensures EntriesFit(code, d)
  {
  }

  lemma AcceptedReady(code: seq<Instr>, d: Dispatcher, limit: nat)
    requires Accepted(code, limit) && Chosen(code, d)
    ensures WellNested(code) && Valid(code, d) && EntriesFit(code, d)
  {
    FitsMeansEntries(code, d, limit);
  }

  // ----- the dispatcher's state after each operation -----

  /** What the dispatch table holds after `n` operations: the low page is recorded last. */
  ghost function RecordedAt(code: seq<Instr>, n: nat, d: Dispatcher, k: nat): Option<nat>
    requires Valid(code, d)
  {
    if d.Paged? && n <= d.sel + 10 then
      if d.base <= k < d.base + |High(code, d)| then LabelAt(Labels(code, d.sel + 7), High(code, d)[k - d.base]) else None
    else Entry(code, d, k)
  }

  ghost predicate TableState(code: seq<Instr>, n: nat, d: Dispatcher, limit: nat, table: seq<u32>) {
    && Valid(code, d)
    && (forall k: nat :: At(table, k) == RecordedAt(code, n, d, k))
    && match d
       case NoDispatcher => true
       case Single(head, sel) => TableFits(code, sel + 1, 0, limit)
       case Paged(head, sel, base) =>
         TableFits(code, sel + 7, base, limit) && (n > sel + 10 ==> TableFits(code, sel + 10, 0, limit))
  }

  lemma NotFoundHere(ops: seq<Op>, code: seq<Instr>, n: nat)
    requires Reads(ops, code) && n < |code| && NothingFound(code, n)
    requires code[n].BrTable? ==>
               var base := SelectorBase(ops, n);
               base.None? || forall m :: !Suitable(code, n, base.value, m, ABSENT, ABSENT)
    ensures NothingFound(code, n + 1)
  {
    forall e ensures !FoundAt(code, n, e) {
      if FoundAt(code, n, e) {
        FoundMeans(code, n, e);
        SelectorBaseMeans(ops, code, n);
        if e.Paged? {
          SelectorBaseFinds(ops, code, n, e.base);
        }
        SuitableFirst(code, n, if e.Paged? then e.base else 0, e.head);
      }
    }
  }

  /** An operation that is not an accepted table leaves the state as it is. */
  lemma StateSkips(ops: seq<Op>, code: seq<Instr>, n: nat, d: Dispatcher, loop: u32, page: u32, limit: nat, table: seq<u32>)
    requires Reads(ops, code) && n < |code|
    requires ScanState(code, n, d, loop, page) && TableState(code, n, d, limit, table)
    requires code[n].BrTable? ==>
               var base := SelectorBase(ops, n);
               base.None? || forall m :: !Suitable(code, n, base.value, m, loop, page)
    ensures ScanState(code, n + 1, d, loop, page) && TableState(code, n + 1, d, limit, table)
  {
    match d
    case NoDispatcher => NotFoundHere(ops, code, n);
    case Single(_, _) =>
    case Paged(head, sel, _) =>
      if n == sel + 10 {
        SelectorBaseMeans(ops, code, n);
        LowSuitable(code, d, loop, page);
        assert false;
      }
  }

  /** The dispatcher an accepted table makes it. */
  function After(d: Dispatcher, n: nat, base: nat, l: nat): Dispatcher {
    if !d.NoDispatcher? then d
    else if base == 0 then (if n >= 1 then Single(l, n - 1) else d)
    else if n >= 7 then Paged(l, n - 7, base) else d
  }

  lemma StateAccepts(ops: seq<Op>, code: seq<Instr>, n: nat, d: Dispatcher, loop: u32, page: u32, base: nat, l: u32)
    requires Reads(ops, code) && n < |code| && code[n].BrTable? && l != ABSENT
    requires ScanState(code, n, d, loop, page) && Valid(code, d)
    requires SelectorBase(ops, n) == Some(base) && Suitable(code, n, base, l, loop, page)
    ensures ScanState(code, n + 1, After(d, n, base, l), l, if base != 0 then n - 4 else page)
    ensures Valid(code, After(d, n, base, l))
    ensures d.NoDispatcher? ==> FoundAt(code, n, After(d, n, base, l)) && NothingFound(code, n)
    ensures !d.NoDispatcher? ==> d.Paged? && n == d.sel + 10 && base == 0
    ensures base != 0 ==> n >= 4
  {
    SelectorBaseMeans(ops, code, n);
    if d.NoDispatcher? {
      SuitableFirst(code, n, base, l);
      assert FoundAt(code, n, After(d, n, base, l));
    } else {
      SuitableLater(code, n, base, l, d, loop, page);
    }
  }

  lemma TableAccepts(code: seq<Instr>, n: nat, d: Dispatcher, base: nat, l: nat, limit: nat, was: seq<u32>, table: seq<u32>)
    requires n < |code| && code[n].BrTable? && TableState(code, n, d, limit, was)
    requires Valid(code, After(d, n, base, l)) && TableFits(code, n, base, limit)
    requires d.NoDispatcher? ==> FoundAt(code, n, After(d, n, base, l))
    requires !d.NoDispatcher? ==> d.Paged? && n == d.sel + 10 && base == 0
    requires Extended(code, n, base, |code[n].targets|, was, table)
    ensures TableState(code, n + 1, After(d, n, base, l), limit, table)
  {
    var e := After(d, n, base, l);
    forall k: nat ensures At(table, k) == RecordedAt(code, n + 1, e, k) {
      assert ExtendedAt(code, n, base, |code[n].targets|, was, table, k);
      assert At(was, k) == RecordedAt(code, n, d, k);
    }
  }

  /** At the end the state's dispatcher is the chosen one. */
  lemma StateChosen(code: seq<Instr>, d: Dispatcher, loop: u32, page: u32)
    requires ScanState(code, |code|, d, loop, page)
    ensures Chosen(code, d)
  {
    match d
    case NoDispatcher =>
    case Single(_, sel) => assert FoundAt(code, sel + 1, d);
    case Paged(_, sel, _) => assert FoundAt(code, sel + 7, d);
  }

  /** A recognised dispatcher whose table does not fit makes the body invalid. */
  lemma Refused(code: seq<Instr>, n: nat, d: Dispatcher, limit: nat)
    requires n < |code| && FoundAt(code, n, d) && NothingFound(code, n)
    requires !DispatcherFits(code, d, limit)
    ensures !Accepted(code, limit)
  {
    assert Chosen(code, d);
  }

  // ----- the pass -----

  /** The variables the pass carries from one branch table to the next. */
  datatype Tables = Tables(loop: u32, page: u32, table: seq<u32>)

  ghost predicate PassState(code: seq<Instr>, n: nat, d: Dispatcher, limit: nat, t: Tables) {
    ScanState(code, n, d, t.loop, t.page) && TableState(code, n, d, limit, t.table)
  }

  /** One branch table. */
  method ScanTable(body: seq<byte>, ghost start: nat, ops: seq<Op>, ghost code: seq<Instr>, index: nat, stack: seq<nat>,
                   ends: array<u32>, alternatives: array<u32>, edges: seq<Edge>, heads: array<u32>,
                   ghost d: Dispatcher, t: Tables)
    returns (ok: bool, after: seq<Edge>, next: Tables, ghost e: Dispatcher)
    requires BytesFit(body, start, ops, code) && index < |ops| && code[index].BrTable?
    requires ends.Length == |ops| && ends != heads && alternatives != heads && stack == Listed(Labels(code, index))
    requires Matched(code, ends[..], alternatives[..])
    requires EdgesKnown(code, index, {}, edges, heads[..]) && |edges| <= ops[index].at
    requires PassState(code, index, d, |body|, t)
    modifies heads
    ensures ok ==> DepthsFit(code, index) && PassState(code, index + 1, e, |body|, next)
    ensures ok ==> EdgesKnown(code, index + 1, {}, after, heads[..]) && |after| <= ops[index].at + ops[index].len
    ensures !ok ==> !Accepted(code, |body|)
  {
    hide Labels;
    var base := SelectorBase(ops, index);
    var suitable, l := TestTable(body, start, ops, code, index, stack, base, d, t.loop, t.page);
    var first := if suitable then base.value else 0;
    next, e := t, d;
    var recorded;
    ok, after, recorded := TableEdges(body, start, ops, code, index, stack, ends, alternatives, edges, heads,
                                      suitable, first, t.table);
    if suitable {
      StateAccepts(ops, code, index, d, t.loop, t.page, first, l);
      e := After(d, index, first, l);
      next := Tables(l, if first != 0 then index - 4 else t.page, recorded);
      if ok {
        TableAccepts(code, index, d, first, l, |body|, t.table, recorded);
      } else if DepthsFit(code, index) {
        Refused(code, if d.NoDispatcher? then index else d.sel + 7, e, |body|);
      }
    } else if ok {
      StateSkips(ops, code, index, d, t.loop, t.page, |body|, t.table);
    }
  }

  ghost predicate BranchKnown(code: seq<Instr>, branchLabels: seq<u32>, i: nat)
    requires i < |code| == |branchLabels|
  {
    code[i].Br? ==> Lift(branchLabels[i]) == LabelAt(Labels(code, i), code[i].depth)
  }

  ghost predicate BranchesKnown(code: seq<Instr>, branchLabels: seq<u32>, n: nat)
    requires n <= |code| == |branchLabels|
  {
    forall i :: 0 <= i < n ==> BranchKnown(code, branchLabels, i)
  }

  /** The label stack behind an operation. */
  function NextStack(op: Op, index: nat, stack: seq<nat>): seq<nat> {
    if op.op == 0x02 || op.op == 0x03 || op.op == 0x04 then stack + [index]
    else if op.op == 0x0b && stack != [] then stack[..|stack| - 1]
    else stack
  }

  lemma NextStackMeans(ops: seq<Op>, code: seq<Instr>, index: nat)
    requires Reads(ops, code) && index < |ops|
    ensures NextStack(ops[index], index, Listed(Labels(code, index))) == Listed(Labels(code, index + 1))
  {
    assert OpMatches(ops[index], code[index]);
  }

  /** One operation that is no branch table. */
  method ScanPlain(body: seq<byte>, ghost start: nat, ops: seq<Op>, ghost code: seq<Instr>, index: nat, stack: seq<nat>,
                   ends: array<u32>, alternatives: array<u32>, edges: seq<Edge>, heads: array<u32>, branchLabels: array<u32>)
    returns (ok: bool, after: seq<Edge>)
    requires BytesFit(body, start, ops, code) && index < |ops| && !code[index].BrTable?
    requires ends.Length == alternatives.Length == branchLabels.Length == |ops|
    requires heads !in {ends, alternatives, branchLabels} && branchLabels !in {ends, alternatives}
    requires stack == Listed(Labels(code, index)) && Matched(code, ends[..], alternatives[..])
    requires EdgesKnown(code, index, {}, edges, heads[..]) && |edges| <= ops[index].at
    requires BranchesKnown(code, branchLabels[..], index)
    modifies heads, branchLabels
    ensures ok <==> DepthsFit(code, index)
    ensures ok ==> EdgesKnown(code, index + 1, {}, after, heads[..]) && |after| <= ops[index].at + ops[index].len
    ensures ok ==> BranchesKnown(code, branchLabels[..], index + 1)
  {
    DecodedFits(body, start, ops, code, index);
    ghost var was := branchLabels[..];
    var r;
    r, after := PlainEdges(ops, code, index, stack, ends, alternatives, edges, heads);
    ok := r.Success?;
    if ok {
      branchLabels[index] := r.value;
      forall i | 0 <= i < index + 1 ensures BranchKnown(code, branchLabels[..], i) {
        assert i < index ==> BranchKnown(code, was, i);
      }
    }
  }

  lemma BranchesSkip(code: seq<Instr>, branchLabels: seq<u32>, n: nat)
    requires n < |code| == |branchLabels| && BranchesKnown(code, branchLabels, n) && !code[n].Br?
    ensures BranchesKnown(code, branchLabels, n + 1)
  {
    forall i | 0 <= i < n + 1 ensures BranchKnown(code, branchLabels, i) {
    }
  }

  /** One operation of the second pass. */
  method ScanOp(body: seq<byte>, ghost start: nat, ops: seq<Op>, ghost code: seq<Instr>, index: nat, stack: seq<nat>,
                ends: array<u32>, alternatives: array<u32>, edges: seq<Edge>, heads: array<u32>, branchLabels: array<u32>,
                ghost d: Dispatcher, t: Tables)
    returns (ok: bool, after: seq<Edge>, next: Tables, ghost e: Dispatcher)
    requires BytesFit(body, start, ops, code) && index < |ops|
    requires ends.Length == alternatives.Length == branchLabels.Length == |ops|
    requires heads !in {ends, alternatives, branchLabels} && branchLabels !in {ends, alternatives}
    requires stack == Listed(Labels(code, index)) && Matched(code, ends[..], alternatives[..])
    requires EdgesKnown(code, index, {}, edges, heads[..]) && |edges| <= ops[index].at
    requires BranchesKnown(code, branchLabels[..], index) && PassState(code, index, d, |body|, t)
    modifies heads, branchLabels
    ensures ok ==> DepthsFit(code, index) && PassState(code, index + 1, e, |body|, next)
    ensures ok ==> EdgesKnown(code, index + 1, {}, after, heads[..]) && |after| <= ops[index].at + ops[index].len
    ensures ok ==> BranchesKnown(code, branchLabels[..], index + 1)
    ensures !ok ==> !Accepted(code, |body|)
  {
    assert OpMatches(ops[index], code[index]);
    if ops[index].op == 0x0e {
      BranchesSkip(code, branchLabels[..], index);
      ok, after, next, e := ScanTable(body, start, ops, code, index, stack, ends, alternatives, edges, heads, d, t);
    } else {
      ok, after := ScanPlain(body, start, ops, code, index, stack, ends, alternatives, edges, heads, branchLabels);
      next, e := t, d;
      StateSkips(ops, code, index, d, t.loop, t.page, |body|, t.table);
    }
  }

  lemma NothingScanned(code: seq<Instr>, limit: nat)
    ensures Listed(Labels(code, 0)) == []
    ensures PassState(code, 0, NoDispatcher, limit, Tables(ABSENT, ABSENT, []))
  {
  }

  lemma AllScanned(code: seq<Instr>, d: Dispatcher, limit: nat, t: Tables)
    requires WellNested(code) && DepthsFitUpTo(code, |code|) && PassState(code, |code|, d, limit, t)
    ensures Chosen(code, d) && Accepted(code, limit)
  {
    StateChosen(code, d, t.loop, t.page);
    forall e | Chosen(code, e) ensures Valid(code, e) && DispatcherFits(code, e, limit) {
      ChosenOnce(code, d, e);
    }
  }

  /** Second pass: a label stack resolves every branch, edges are listed by target, and the first
      dispatcher's tables are collected. */
  method ScanBody(body: seq<byte>, ghost start: nat, ops: seq<Op>, ghost code: seq<Instr>,
                  ends: array<u32>, alternatives: array<u32>)
    returns (ok: bool, heads: array<u32>, edges: seq<Edge>, branchLabels: array<u32>, t: Tables, ghost d: Dispatcher)
    requires BytesFit(body, start, ops, code) && WellNested(code)
    requires ends.Length == alternatives.Length == |ops| && Matched(code, ends[..], alternatives[..])
    ensures fresh(heads) && fresh(branchLabels) && heads.Length == branchLabels.Length == |ops|
    ensures ok <==> Accepted(code, |body|)
    ensures ok ==> EdgesKnown(code, |code|, {}, edges, heads[..]) && BranchesKnown(code, branchLabels[..], |code|)
    ensures ok ==> Chosen(code, d) && PassState(code, |code|, d, |body|, t)
  {
    hide PassState, Labels;
    heads := new u32[|ops|](_ => ABSENT);
    branchLabels := new u32[|ops|](_ => ABSENT);
    edges, t, d, ok := [], Tables(ABSENT, ABSENT, []), NoDispatcher, true;
    var stack: seq<nat> := [];
    forall i | 0 <= i < |ops| ensures HeadKnown(code, 0, {}, edges, heads[..][i], i) {
    }
    NothingScanned(code, |body|);
    for index := 0 to |ops|
      invariant stack == Listed(Labels(code, index)) && DepthsFitUpTo(code, index)
      invariant EdgesKnown(code, index, {}, edges, heads[..]) && |edges| <= AtOf(start, ops, index)
      invariant BranchesKnown(code, branchLabels[..], index)
      invariant PassState(code, index, d, |body|, t)
    {
      OpBounds(body, start, ops, code, index);
      ok, edges, t, d := ScanOp(body, start, ops, code, index, stack, ends, alternatives, edges, heads, branchLabels, d, t);
      if !ok {
        return;
      }
      NextStackMeans(ops, code, index);
      stack := NextStack(ops[index], index, stack);
    }
    AllScanned(code, d, |body|, t);
  }
}
