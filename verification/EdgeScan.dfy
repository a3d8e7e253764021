/** The second pass of dispatch threading: control-flow edges of every operation, and the table from
    selector values to blocks. */
module EdgeScan {
  import opened Wrappers
  import opened Leb128
  import opened WasmCode
  import opened DispatchPlan
  import opened ControlFlow

  // ----- input -----

  /** How many bytes an operation takes at least. */
  function LeastSize(instr: Instr): nat {
    if instr.Open? || instr.Br? || instr.BrIf? || instr.BrTable? then 2 else 1
  }

  /** From `cursor` on, the bytes up to `end` are the indices `all` from number `e` on. */
  ghost predicate ReadsFrom(bytes: seq<byte>, cursor: nat, all: seq<u32>, e: nat, end: nat)
    requires e <= |all|
    decreases |all| - e
  {
    if e == |all| then cursor == end
    else
      var first := Index(bytes, cursor);
      first.Some? && first.value.0 == all[e] && ReadsFrom(bytes, first.value.1, all, e + 1, end)
  }

  /** A branch table's indices fill its bytes. */
  ghost predicate TableReads(body: seq<byte>, op: Op, instr: Instr) {
    instr.BrTable? ==>
      var count := Index(body, op.at + 1);
      && count.Some? && count.value.0 == |instr.targets|
      && ReadsFrom(body, count.value.1, instr.targets + [instr.default], 0, op.at + op.len)
  }

  /** What the pass relies on about one operation. */
  ghost predicate OpFits(body: seq<byte>, start: nat, ops: seq<Op>, code: seq<Instr>, i: nat)
    requires i < |ops| == |code|
  {
    && ops[i].at == AtOf(start, ops, i) && ops[i].at + ops[i].len <= |body|
    && OpMatches(ops[i], code[i]) && LeastSize(code[i]) <= ops[i].len
    && (code[i].Open? ==> (body[ops[i].at + 1] == 0x40 <==> code[i].blockType == EMPTY_TYPE))
    && TableReads(body, ops[i], code[i])
  }

  lemma {:induction false} ReadsInside(body: seq<byte>, at: nat, raw: seq<byte>, cursor: nat, all: seq<u32>, e: nat, end: nat)
    requires Holds(body, at, raw) && e <= |all| && ReadsFrom(raw, cursor, all, e, end)
    ensures ReadsFrom(body, at + cursor, all, e, at + end)
    decreases |all| - e
  {
    if e < |all| {
      UnsignedInside(body, at, raw, cursor, 0);
      ReadsInside(body, at, raw, Index(raw, cursor).value.1, all, e + 1, end);
    }
  }

  predicate EntryIs(all: seq<u32>, e: nat, targets: seq<u32>, k: nat) {
    e + k < |all| && k < |targets| && all[e + k] == targets[k]
  }

  lemma {:induction false} IndicesRead(bytes: seq<byte>, cursor: nat, count: nat, all: seq<u32>, e: nat, end: nat)
    requires e + count <= |all| && Indices(bytes, cursor, count).Some?
    requires var r := Indices(bytes, cursor, count).value;
             (forall k :: 0 <= k < count ==> EntryIs(all, e, r.0, k)) && ReadsFrom(bytes, r.1, all, e + count, end)
    ensures ReadsFrom(bytes, cursor, all, e, end)
    decreases count
  {
    if count > 0 {
      var r := Indices(bytes, cursor, count).value;
      var next := Index(bytes, cursor).value.1;
      var rest := Indices(bytes, next, count - 1).value.0;
      var f := e + 1;
      assert EntryIs(all, e, r.0, 0);
      forall k | 0 <= k < count - 1 ensures EntryIs(all, f, rest, k) {
        assert EntryIs(all, e, r.0, k + 1);
      }
      IndicesRead(bytes, next, count - 1, all, e + 1, end);
    }
  }

  lemma RawHolds(body: seq<byte>, op: Op)
    requires op.at + op.len <= |body|
    ensures Holds(body, op.at, Raw(body, op)) && |Raw(body, op)| == op.len
  {
    forall k | 0 <= k < op.len ensures body[op.at + k] == Raw(body, op)[k] {
      PartAt(body, op.at, op.at + op.len, k);
    }
  }

  lemma TableShape(raw: seq<byte>, instr: Instr)
    requires Decode(raw) == Some(instr) && instr.BrTable?
    ensures var count := Index(raw, 1);
            && count.Some? && count.value.0 == |instr.targets|
            && ReadsFrom(raw, count.value.1, instr.targets + [instr.default], 0, |raw|)
  {
    var all, n := instr.targets + [instr.default], |instr.targets|;
    var next := Index(raw, 1).value.1;
    var last := Indices(raw, next, n).value.1;
    assert all[n] == instr.default;
    assert ReadsFrom(raw, Index(raw, last).value.1, all, n + 1, |raw|);
    assert ReadsFrom(raw, last, all, n, |raw|);
    forall k | 0 <= k < n ensures EntryIs(all, 0, instr.targets, k) {
    }
    IndicesRead(raw, next, n, all, 0, |raw|);
  }

  lemma TableInBody(body: seq<byte>, op: Op, raw: seq<byte>, instr: Instr)
    requires Holds(body, op.at, raw) && |raw| == op.len && Decode(raw) == Some(instr)
    ensures TableReads(body, op, instr)
  {
    if instr.BrTable? {
      TableShape(raw, instr);
      UnsignedInside(body, op.at, raw, 1, 0);
      ReadsInside(body, op.at, raw, Index(raw, 1).value.1, instr.targets + [instr.default], 0, |raw|);
    }
  }

  lemma DecodedSize(raw: seq<byte>, instr: Instr)
    requires Decode(raw) == Some(instr)
    ensures LeastSize(instr) <= |raw|
    ensures instr.Open? ==> (raw[1] == 0x40 <==> instr.blockType == EMPTY_TYPE)
  {
  }

  lemma DecodedFits(body: seq<byte>, start: nat, ops: seq<Op>, code: seq<Instr>, i: nat)
    requires Decoded(body, start, ops, code) && i < |ops|
    ensures OpFits(body, start, ops, code, i)
  {
    assert OpDecoded(body, start, ops, code, i);
    var op, raw := ops[i], Raw(body, ops[i]);
    RawHolds(body, op);
    AgreesMatches(op, raw, code[i]);
    TableInBody(body, op, raw, code[i]);
    DecodedSize(raw, code[i]);
  }

  lemma OpBounds(body: seq<byte>, start: nat, ops: seq<Op>, code: seq<Instr>, i: nat)
    requires Decoded(body, start, ops, code) && i < |ops|
    ensures ops[i].at == AtOf(start, ops, i) && ops[i].at + ops[i].len <= |body| && 1 <= ops[i].len
  {
    assert OpDecoded(body, start, ops, code, i);
  }

  lemma {:induction false} PositionsGrow(body: seq<byte>, start: nat, ops: seq<Op>, code: seq<Instr>, i: nat)
    requires Decoded(body, start, ops, code) && i <= |ops|
    ensures i <= AtOf(start, ops, i) <= |body|
  {
    if i > 0 {
      PositionsGrow(body, start, ops, code, i - 1);
      OpBounds(body, start, ops, code, i - 1);
    } else if |ops| > 0 {
      OpBounds(body, start, ops, code, 0);
    }
  }

  lemma DecodedReads(body: seq<byte>, start: nat, ops: seq<Op>, code: seq<Instr>)
    requires Decoded(body, start, ops, code) && |body| < ABSENT
    ensures Reads(ops, code)
  {
    PositionsGrow(body, start, ops, code, |ops|);
    forall i | 0 <= i < |ops| ensures OpMatches(ops[i], code[i]) {
      DecodedFits(body, start, ops, code, i);
    }
  }

  // ----- labels and destinations -----

  function Lift(l: u32): Option<nat> {
    if l == ABSENT then None else Some(l)
  }

  function BranchLabel(stack: seq<nat>, depth: nat): Result<u32>
    requires forall k :: 0 <= k < |stack| ==> stack[k] < ABSENT
  {
    if depth > |stack| then InvalidCode
    else if depth == |stack| then Success(ABSENT)
    else Success(stack[|stack| - 1 - depth])
  }

  /** The label stack holds positions. */
  lemma {:induction false} ListedSmall(code: seq<Instr>, i: nat)
    requires i <= |code| < ABSENT
    ensures forall k :: 0 <= k < |Listed(Labels(code, i))| ==> Listed(Labels(code, i))[k] < i
    decreases i
  {
    if Labels(code, i).Inside? {
      LabelsShape(code, i, 0);
      ListedSmall(code, Labels(code, i).opener);
    }
  }

  lemma BranchLabelMeans(code: seq<Instr>, i: nat, depth: nat)
    requires i <= |code| < ABSENT
    ensures forall k :: 0 <= k < |Listed(Labels(code, i))| ==> Listed(Labels(code, i))[k] < ABSENT
    ensures var r := BranchLabel(Listed(Labels(code, i)), depth);
            && (r.Success? <==> depth <= Depth(Labels(code, i)))
            && (r.Success? ==> Lift(r.value) == LabelAt(Labels(code, i), depth))
            && (r.Success? && r.value != ABSENT ==> r.value < i && code[r.value].Open?)
  {
    ListedSmall(code, i);
    ListedAt(Labels(code, i), depth);
    if depth < Depth(Labels(code, i)) {
      LabelsShape(code, i, depth);
    }
  }

  /** Branch targets and table entries name labels that exist. */
  predicate DepthsFit(code: seq<Instr>, i: nat)
    requires i < |code|
  {
    var limit := Depth(Labels(code, i));
    match code[i]
    case Br(d) => d <= limit
    case BrIf(d) => d <= limit
    case BrTable(targets, default) => (forall k :: 0 <= k < |targets| ==> targets[k] <= limit) && default <= limit
    case _ => true
  }

  function DestinationOf(ops: seq<Op>, ends: array<u32>, l: u32): nat
    requires ends.Length == |ops| && (l == ABSENT || l < |ops|)
    reads ends
  {
    if l == ABSENT then |ops| else if ops[l].op == 0x03 then (l as nat) + 1 else (ends[l] as nat) + 1
  }

  lemma DestinationMeans(ops: seq<Op>, code: seq<Instr>, ends: array<u32>, alternatives: seq<u32>, l: u32)
    requires Reads(ops, code) && Matched(code, ends[..], alternatives) && ends.Length == |ops|
    requires l == ABSENT || (l < |code| && code[l].Open?)
    ensures DestinationOf(ops, ends, l) == Destination(code, Lift(l)) <= |code|
  {
    if l != ABSENT {
      assert OpMatches(ops[l], code[l]) && OpenerMatched(code, ends[..], alternatives, l);
    }
  }

  /** One branch's edge. */
  method BranchEdge(ops: seq<Op>, ghost code: seq<Instr>, ghost targets: set<nat>, index: nat, stack: seq<nat>,
                    depth: nat, ends: array<u32>, ghost alternatives: seq<u32>, edges: seq<Edge>, heads: array<u32>)
    returns (r: Result<u32>, after: seq<Edge>)
    requires Reads(ops, code) && index < |ops| && ends.Length == |ops| && ends != heads
    requires Matched(code, ends[..], alternatives) && stack == Listed(Labels(code, index))
    requires EdgesKnown(code, index, targets, edges, heads[..]) && |edges| + 1 < ABSENT
    modifies heads
    ensures r.Success? <==> depth <= Depth(Labels(code, index))
    ensures r.Success? ==>
              && Lift(r.value) == LabelAt(Labels(code, index), depth) && (r.value != ABSENT ==> r.value < index)
              && EdgesKnown(code, index, targets + {BranchTarget(code, index, depth)}, after, heads[..])
              && |after| <= |edges| + 1
  {
    BranchLabelMeans(code, index, depth);
    r, after := BranchLabel(stack, depth), edges;
    if r.Success? {
      DestinationMeans(ops, code, ends, alternatives, r.value);
      after := AddEdge(code, targets, edges, heads, index, DestinationOf(ops, ends, r.value));
    }
  }

  /** A block, loop or `if` is followed by its body, an `if` also by its `else` or its end. */
  method OpenEdges(ops: seq<Op>, ghost code: seq<Instr>, index: nat,
                   ends: array<u32>, alternatives: array<u32>, edges: seq<Edge>, heads: array<u32>)
    returns (after: seq<Edge>)
    requires Reads(ops, code) && index < |ops| && code[index].Open?
    requires ends.Length == alternatives.Length == |ops| && ends != heads && alternatives != heads
    requires Matched(code, ends[..], alternatives[..])
    requires EdgesKnown(code, index, {}, edges, heads[..]) && |edges| + 2 < ABSENT
    modifies heads
    ensures EdgesKnown(code, index, Succs(code, index), after, heads[..]) && |after| <= |edges| + 2
  {
    assert OpMatches(ops[index], code[index]) && OpenerMatched(code, ends[..], alternatives[..], index);
    var other: nat := if alternatives[index] == ABSENT then ends[index] as nat else alternatives[index] as nat;
    after := AddEdge(code, {}, edges, heads, index, index + 1);
    if ops[index].op == 0x04 {
      after := AddEdge(code, {} + {index + 1}, after, heads, index, other + 1);
      assert {} + {index + 1} + {other + 1} == Succs(code, index);
    } else {
      assert {} + {index + 1} == Succs(code, index);
    }
  }

  /** A branch is followed by its destination, a conditional one also by the next operation. */
  method BranchEdges(ops: seq<Op>, ghost code: seq<Instr>, index: nat, stack: seq<nat>,
                     ends: array<u32>, ghost alternatives: seq<u32>, edges: seq<Edge>, heads: array<u32>)
    returns (r: Result<u32>, after: seq<Edge>)
    requires Reads(ops, code) && index < |ops| && (code[index].Br? || code[index].BrIf?)
    requires ends.Length == |ops| && ends != heads
    requires Matched(code, ends[..], alternatives) && stack == Listed(Labels(code, index))
    requires EdgesKnown(code, index, {}, edges, heads[..]) && |edges| + 2 < ABSENT
    modifies heads
    ensures r.Success? <==> DepthsFit(code, index)
    ensures r.Success? ==>
              && EdgesKnown(code, index, Succs(code, index), after, heads[..]) && |after| <= |edges| + 2
              && Lift(r.value) == LabelAt(Labels(code, index), code[index].depth) && (r.value != ABSENT ==> r.value < index)
  {
    var item := ops[index];
    assert OpMatches(item, code[index]);
    var depth := Bits(item.imm);
    r, after := BranchEdge(ops, code, {}, index, stack, depth, ends, alternatives, edges, heads);
    if r.Success? {
      if item.op == 0x0d {
        after := AddEdge(code, {} + {BranchTarget(code, index, depth)}, after, heads, index, index + 1);
        assert {} + {BranchTarget(code, index, depth)} + {index + 1} == Succs(code, index);
      } else {
        assert {} + {BranchTarget(code, index, depth)} == Succs(code, index);
      }
    }
  }

  /** The edges of an operation that is no branch table; branches also report their label. */
  method PlainEdges(ops: seq<Op>, ghost code: seq<Instr>, index: nat, stack: seq<nat>,
                    ends: array<u32>, alternatives: array<u32>, edges: seq<Edge>, heads: array<u32>)
    returns (r: Result<u32>, after: seq<Edge>)
    requires Reads(ops, code) && index < |ops| && !code[index].BrTable?
    requires ends.Length == alternatives.Length == |ops| && ends != heads && alternatives != heads
    requires Matched(code, ends[..], alternatives[..]) && stack == Listed(Labels(code, index))
    requires EdgesKnown(code, index, {}, edges, heads[..]) && |edges| + LeastSize(code[index]) < ABSENT
    modifies heads
    ensures r.Success? <==> DepthsFit(code, index)
    ensures r.Success? ==> EdgesKnown(code, index + 1, {}, after, heads[..])
    ensures r.Success? && code[index].Br? ==> Lift(r.value) == LabelAt(Labels(code, index), code[index].depth)
    ensures r.Success? && r.value != ABSENT ==> r.value < |ops|
    ensures r.Success? ==> |after| <= |edges| + LeastSize(code[index])
  {
    var item := ops[index];
    assert OpMatches(item, code[index]);
    r, after := Success(ABSENT), edges;
    if item.op == 0x02 || item.op == 0x03 || item.op == 0x04 {
      after := OpenEdges(ops, code, index, ends, alternatives, edges, heads);
    } else if item.op == 0x0c || item.op == 0x0d {
      r, after := BranchEdges(ops, code, index, stack, ends, alternatives[..], edges, heads);
    } else if item.op != 0x00 && item.op != 0x0f {
      assert ElseMatched(code, ends[..], index);
      var next: nat := if item.op == 0x05 then ends[index] as nat else index;
      after := AddEdge(code, {}, edges, heads, index, next + 1);
      assert {} + {next + 1} == Succs(code, index);
    }
    if r.Success? {
      EdgesNext(code, index, after, heads[..]);
    }
  }
}
