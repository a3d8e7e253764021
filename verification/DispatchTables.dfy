/** Branch tables in the second pass: whether one belongs to the dispatcher, its edges, and the blocks
    it contributes to the dispatch table. */
module DispatchTables {
  import opened Wrappers
  import opened Leb128
  import opened WasmCode
  import opened CodeRewrite
  import opened DispatchPlan
  import opened ControlFlow
  import opened DispatchScan
  import opened EdgeScan

  // ----- is the table suitable? -----

  /** The first `k` entries of the label stack are the outer labels. */
  lemma {:induction false} ListedPrefix(nest: Nest, k: nat)
    requires k < Depth(nest)
    ensures |Listed(nest)| == Depth(nest)
    ensures var inner := Peel(nest, Depth(nest) - 1 - k);
            inner.Inside? && inner.opener == Listed(nest)[k] && inner.outer == Peel(nest, Depth(nest) - k)
  {
    ListedAt(nest, 0);
    if k < Depth(nest) - 1 {
      ListedPrefix(nest.outer, k);
    }
  }

  lemma {:induction false} PeelAll(nest: Nest)
    ensures Peel(nest, Depth(nest)).Outside?
  {
    if nest.Inside? {
      PeelAll(nest.outer);
    }
  }

  /** The innermost loop around a table, and whether no foreign `if` is around it. */
  method SurveyLabels(ops: seq<Op>, ghost code: seq<Instr>, index: nat, stack: seq<nat>, base: nat, page: u32)
    returns (loop: u32, allowed: bool)
    requires Reads(ops, code) && index < |ops| && stack == Listed(Labels(code, index))
    requires base > 0 ==> index >= 4
    ensures Lift(loop) == InnermostLoop(code, Labels(code, index))
    ensures allowed <==> IfsAllowed(code, Labels(code, index), page, OwnIf(index, base))
  {
    ghost var nest := Labels(code, index);
    loop, allowed := ABSENT, true;
    PeelAll(nest);
    ListedAt(nest, 0);
    ListedSmall(code, index);
    for k := 0 to |stack|
      invariant Lift(loop) == InnermostLoop(code, Peel(nest, Depth(nest) - k))
      invariant allowed <==> IfsAllowed(code, Peel(nest, Depth(nest) - k), page, OwnIf(index, base))
    {
      var l := stack[k];
      ListedPrefix(nest, k);
      LabelsShape(code, index, Depth(nest) - 1 - k);
      assert OpMatches(ops[l], code[l]);
      if ops[l].op == 0x03 {
        loop := l;
      }
      if ops[l].op == 0x04 && l != page && (base == 0 || l != index - 4) {
        allowed := false;
      }
    }
  }

  ghost predicate BytesFit(body: seq<byte>, start: nat, ops: seq<Op>, code: seq<Instr>) {
    Reads(ops, code) && |body| < ABSENT && Decoded(body, start, ops, code)
  }

  /** The opcode and block type bytes tell a block without parameters and results. */
  lemma BlockBytes(body: seq<byte>, start: nat, ops: seq<Op>, code: seq<Instr>, i: nat)
    requires BytesFit(body, start, ops, code) && i < |ops|
    ensures ops[i].op in {0x02, 0x03} ==> ops[i].at + 1 < |body|
    ensures ops[i].op == 0x02 && body[ops[i].at + 1] == 0x40 <==> code[i] == Open(Block, EMPTY_TYPE)
    ensures ops[i].op == 0x03 && body[ops[i].at + 1] == 0x40 <==> code[i] == Open(Loop, EMPTY_TYPE)
  {
    DecodedFits(body, start, ops, code, i);
  }

  /** The header test: a plain loop, then nothing but plain blocks up to the selector. */
  method CheckHeader(body: seq<byte>, ghost start: nat, ops: seq<Op>, ghost code: seq<Instr>, l: nat, sel: nat)
    returns (ok: bool)
    requires BytesFit(body, start, ops, code) && l < sel <= |ops| && code[l].Open? && code[l].kind.Loop?
    ensures ok <==> Header(code, l, sel)
  {
    BlockBytes(body, start, ops, code, l);
    assert OpMatches(ops[l], code[l]);
    ok := body[ops[l].at + 1] == 0x40;
    for i := l + 1 to sel
      invariant ok <==> code[l] == Open(Loop, EMPTY_TYPE) && forall j :: l < j < i ==> code[j] == Open(Block, EMPTY_TYPE)
    {
      BlockBytes(body, start, ops, code, i);
      if ops[i].op != 0x02 || body[ops[i].at + 1] != 0x40 {
        ok := false;
      }
    }
  }

  /** The selector stands behind the loop, whatever the page state. */
  lemma SelectorBehindLoop(code: seq<Instr>, index: nat, base: nat, l: nat, d: Dispatcher, loop: u32, page: u32)
    requires index < |code| && code[index].BrTable? && ScanState(code, index, d, loop, page)
    requires base == 0 ==> index > 0 && code[index - 1] == Get(SELECTOR)
    requires base > 0 ==> index >= 7 && Window(code, index - 7, base)
    requires InnermostLoop(code, Labels(code, index)) == Some(l) && (loop == ABSENT || loop == l)
    ensures l < SelectorStart(code, index, base, page)
  {
    InnermostIsLoop(code, Labels(code, index));
    HasShape(code, index, l);
    if base == 0 && page != ABSENT && Has(Labels(code, index), page) {
      assert Header(code, d.head, d.sel);
    }
  }

  /** The pass's test of one branch table. */
  method TestTable(body: seq<byte>, ghost start: nat, ops: seq<Op>, ghost code: seq<Instr>, index: nat, stack: seq<nat>,
                   base: Option<nat>, ghost d: Dispatcher, loop: u32, page: u32)
    returns (suitable: bool, l: u32)
    requires BytesFit(body, start, ops, code) && index < |ops| && code[index].BrTable?
    requires stack == Listed(Labels(code, index)) && base == SelectorBase(ops, index)
    requires ScanState(code, index, d, loop, page)
    ensures suitable ==> base.Some? && l != ABSENT && Suitable(code, index, base.value, l, loop, page)
    ensures !suitable ==> base.None? || forall m :: !Suitable(code, index, base.value, m, loop, page)
  {
    SelectorBaseMeans(ops, code, index);
    if base.None? {
      return false, ABSENT;
    }
    var allowed;
    l, allowed := SurveyLabels(ops, code, index, stack, base.value, page);
    suitable := allowed && l != ABSENT && (loop == ABSENT || loop == l);
    if suitable {
      InnermostIsLoop(code, Labels(code, index));
      SelectorBehindLoop(code, index, base.value, l, d, loop, page);
      var inPage := page != ABSENT && InStack(stack, page);
      InStackMeans(Labels(code, index), page);
      var sel := if base.value != 0 then index - 7 else if inPage then page - 3 else index - 1;
      suitable := CheckHeader(body, start, ops, code, l, sel);
    }
  }

  predicate InStack(stack: seq<nat>, l: nat) {
    l in stack
  }

  lemma {:induction false} InStackMeans(nest: Nest, l: nat)
    ensures InStack(Listed(nest), l) <==> Has(nest, l)
  {
    if nest.Inside? {
      InStackMeans(nest.outer, l);
    }
  }

  // ----- its edges and its blocks -----

  function TargetSet(code: seq<Instr>, index: nat, all: seq<u32>, e: nat): set<nat>
    requires index <= |code| && e <= |all|
  {
    if e == 0 then {} else TargetSet(code, index, all, e - 1) + {BranchTarget(code, index, all[e - 1])}
  }

  lemma {:induction false} TargetSetHas(code: seq<Instr>, index: nat, all: seq<u32>, e: nat, t: nat)
    requires index <= |code| && e <= |all|
    ensures t in TargetSet(code, index, all, e) <==> exists k :: 0 <= k < e && t == BranchTarget(code, index, all[k])
  {
    if e > 0 {
      TargetSetHas(code, index, all, e - 1, t);
      assert t == BranchTarget(code, index, all[e - 1]) ==> exists k :: 0 <= k < e && t == BranchTarget(code, index, all[k]);
    }
  }

  lemma TargetSetIsSuccs(code: seq<Instr>, index: nat)
    requires index < |code| && code[index].BrTable?
    ensures var t := code[index].targets;
            TargetSet(code, index, t + [code[index].default], |t| + 1) == Succs(code, index)
  {
    var targets, default := code[index].targets, code[index].default;
    var all := targets + [default];
    forall t: nat ensures t in TargetSet(code, index, all, |all|) <==> t in Succs(code, index) {
      TargetSetHas(code, index, all, |all|, t);
      if t in TargetSet(code, index, all, |all|) {
        var k :| 0 <= k < |all| && t == BranchTarget(code, index, all[k]);
        if k < |targets| {
          assert BranchTarget(code, index, targets[k]) in Succs(code, index);
        }
      }
      if t in Succs(code, index) {
        if t == BranchTarget(code, index, default) {
          assert all[|targets|] == default;
        } else {
          var k :| 0 <= k < |targets| && t == BranchTarget(code, index, targets[k]);
          assert all[k] == targets[k];
        }
      }
    }
  }

  /** The block recorded for selector value `k`. */
  function At(table: seq<u32>, k: nat): Option<nat> {
    if k < |table| then Lift(table[k]) else None
  }

  /** The dispatch table after this branch table's entries from `base` on, `e` of them so far. */
  ghost predicate ExtendedAt(code: seq<Instr>, index: nat, base: nat, e: nat, was: seq<u32>, table: seq<u32>, k: nat)
    requires index < |code| && code[index].BrTable? && e <= |code[index].targets|
  {
    At(table, k) == if base <= k < base + e then LabelAt(Labels(code, index), code[index].targets[k - base]) else At(was, k)
  }

  ghost predicate Extended(code: seq<Instr>, index: nat, base: nat, e: nat, was: seq<u32>, table: seq<u32>)
    requires index < |code| && code[index].BrTable? && e <= |code[index].targets|
  {
    forall k: nat :: ExtendedAt(code, index, base, e, was, table, k)
  }

  /** Entries of a dispatcher's table are plain blocks and not too many for the body. */
  ghost predicate TableFits(code: seq<Instr>, index: nat, base: nat, limit: nat)
    requires index < |code| && code[index].BrTable?
  {
    base + |code[index].targets| <= limit && EntriesPlain(code, index, |code[index].targets|)
  }

  method Resize(table: seq<u32>, size: nat) returns (r: seq<u32>)
    ensures |r| == if size > |table| then size else |table|
    ensures forall k: nat :: At(r, k) == At(table, k)
  {
    r := if size > |table| then table + seq(size - |table|, _ => ABSENT) else table;
  }

  /** Put one entry of an accepted table into the dispatch table, unless it is no plain block. */
  method RecordEntry(body: seq<byte>, ghost start: nat, ops: seq<Op>, ghost code: seq<Instr>, index: nat,
                     base: nat, e: nat, l: u32, ghost was: seq<u32>, table: seq<u32>)
    returns (ok: bool, after: seq<u32>)
    requires BytesFit(body, start, ops, code) && index < |ops| && code[index].BrTable? && e < |code[index].targets|
    requires Lift(l) == LabelAt(Labels(code, index), code[index].targets[e]) && (l != ABSENT ==> l < |ops|)
    requires base + e < |table| && Extended(code, index, base, e, was, table)
    ensures ok <==> EntryPlain(code, index, e)
    ensures ok ==> |after| == |table| && Extended(code, index, base, e + 1, was, after)
  {
    ok, after := false, table;
    if l != ABSENT {
      BlockBytes(body, start, ops, code, l);
      ok := ops[l].op == 0x02 && body[ops[l].at + 1] == 0x40;
    }
    if ok {
      after := table[base + e := l];
      ghost var f := e + 1;
      forall k: nat ensures ExtendedAt(code, index, base, f, was, after, k) {
        assert ExtendedAt(code, index, base, e, was, table, k);
      }
    }
  }

  ghost predicate DepthFits(code: seq<Instr>, index: nat, all: seq<u32>, k: nat)
    requires index < |code| && k < |all|
  {
    all[k] <= Depth(Labels(code, index))
  }

  lemma TableDepths(code: seq<Instr>, index: nat, all: seq<u32>)
    requires index < |code| && code[index].BrTable? && all == code[index].targets + [code[index].default]
    ensures DepthsFit(code, index) <==> forall k :: 0 <= k < |all| ==> DepthFits(code, index, all, k)
  {
    var targets := code[index].targets;
    if DepthsFit(code, index) {
      forall k | 0 <= k < |all| ensures DepthFits(code, index, all, k) {
        assert k < |targets| ==> all[k] == targets[k];
      }
    } else {
      if code[index].default > Depth(Labels(code, index)) {
        assert !DepthFits(code, index, all, |targets|);
      } else {
        var k :| 0 <= k < |targets| && targets[k] > Depth(Labels(code, index));
        assert !DepthFits(code, index, all, k);
      }
    }
  }

  /** What is done after `e` of the indices: edges for all, recorded blocks for all but the default. */
  ghost predicate Progress(code: seq<Instr>, index: nat, e: nat, edges: seq<Edge>, heads: seq<u32>,
                           suitable: bool, base: nat, was: seq<u32>, table: seq<u32>)
    requires index < |code| && code[index].BrTable? && e <= |code[index].targets| + 1
  {
    var targets := code[index].targets;
    var all, done := targets + [code[index].default], if e < |targets| then e else |targets|;
    && EdgesKnown(code, index, TargetSet(code, index, all, e), edges, heads)
    && (forall k :: 0 <= k < e ==> DepthFits(code, index, all, k))
    && (suitable ==>
          EntriesPlain(code, index, done) && |table| >= base + |targets| && Extended(code, index, base, done, was, table))
    && (!suitable ==> table == was)
  }

  /** The index `target`, number `e` of the table. */
  method OneTarget(body: seq<byte>, ghost start: nat, ops: seq<Op>, ghost code: seq<Instr>, index: nat, stack: seq<nat>,
                   ends: array<u32>, alternatives: array<u32>, edges: seq<Edge>, heads: array<u32>,
                   suitable: bool, base: nat, ghost was: seq<u32>, table: seq<u32>, e: nat, n: nat, target: u32)
    returns (ok: bool, after: seq<Edge>, recorded: seq<u32>)
    requires BytesFit(body, start, ops, code) && index < |ops| && code[index].BrTable?
    requires ends.Length == |ops| && ends != heads && alternatives != heads && stack == Listed(Labels(code, index))
    requires Matched(code, ends[..], alternatives[..]) && |edges| + 1 < ABSENT
    requires n == |code[index].targets| && e <= n && target == (code[index].targets + [code[index].default])[e]
    requires Progress(code, index, e, edges, heads[..], suitable, base, was, table)
    modifies heads
    ensures ok <==> target <= Depth(Labels(code, index)) && (suitable && e < n ==> EntryPlain(code, index, e))
    ensures ok ==> Progress(code, index, e + 1, after, heads[..], suitable, base, was, recorded)
    ensures ok ==> |after| <= |edges| + 1
  {
    ghost var all := code[index].targets + [code[index].default];
    var r;
    r, after := BranchEdge(ops, code, TargetSet(code, index, all, e), index, stack, target, ends, alternatives[..],
                           edges, heads);
    ok, recorded := r.Success?, table;
    assert ok ==> DepthFits(code, index, all, e);
    if ok && suitable && e < n {
      ok, recorded := RecordEntry(body, start, ops, code, index, base, e, r.value, was, table);
    }
  }

  /** All entries of a branch table: an edge each, and for an accepted table a recorded block each but the default. */
  method TableEdges(body: seq<byte>, ghost start: nat, ops: seq<Op>, ghost code: seq<Instr>, index: nat, stack: seq<nat>,
                    ends: array<u32>, alternatives: array<u32>, edges: seq<Edge>, heads: array<u32>,
                    suitable: bool, base: nat, table: seq<u32>)
    returns (ok: bool, after: seq<Edge>, recorded: seq<u32>)
    requires BytesFit(body, start, ops, code) && index < |ops| && code[index].BrTable?
    requires ends.Length == |ops| && ends != heads && alternatives != heads && stack == Listed(Labels(code, index))
    requires Matched(code, ends[..], alternatives[..])
    requires EdgesKnown(code, index, {}, edges, heads[..]) && |edges| <= ops[index].at
    modifies heads
    ensures ok <==> DepthsFit(code, index) && (suitable ==> TableFits(code, index, base, |body|))
    ensures ok ==> EdgesKnown(code, index + 1, {}, after, heads[..]) && |after| <= ops[index].at + ops[index].len
    ensures ok ==> if suitable then Extended(code, index, base, |code[index].targets|, table, recorded) else recorded == table
  {
    DecodedFits(body, start, ops, code, index);
    ghost var all, end := code[index].targets + [code[index].default], ops[index].at + ops[index].len;
    TableDepths(code, index, all);
    ok, after, recorded := false, edges, table;
    var cursor: nat, count;
    count, cursor := ReadIndex(body, ops[index].at + 1);
    var n: nat := count.value;
    if suitable {
      if base + n > |body| {
        return;
      }
      recorded := Resize(table, base + n);
      forall k: nat ensures ExtendedAt(code, index, base, 0, table, recorded, k) {
      }
    }
    for e := 0 to n + 1
      invariant ReadsFrom(body, cursor, all, e, end) && |after| + 1 <= cursor <= |body|
      invariant Progress(code, index, e, after, heads[..], suitable, base, table, recorded)
    {
      var target;
      target, cursor := ReadIndex(body, cursor);
      ok, after, recorded := OneTarget(body, start, ops, code, index, stack, ends, alternatives, after, heads,
                                       suitable, base, table, recorded, e, n, target.value);
      if !ok {
        assert (suitable && e < n && !EntryPlain(code, index, e)) || !DepthFits(code, index, all, e);
        return;
      }
    }
    ok := true;
    TargetSetIsSuccs(code, index);
    EdgesNext(code, index, after, heads[..]);
  }
}
