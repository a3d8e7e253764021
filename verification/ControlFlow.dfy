/** The analysis half of dispatch threading: matching ends, control-flow edges and backward liveness,
    computed in place on arrays indexed by operation. */
module ControlFlow {
  import opened Wrappers
  import opened Leb128
  import opened WasmCode
  import opened DispatchPlan

  const ABSENT: u32 := 0xFFFF_FFFF

  /** The opcodes the pass tests for stand for the instructions it takes them for. */
  predicate OpMatches(op: Op, instr: Instr) {
    match instr
    case Open(kind, _) => op.op == (if kind.Block? then 0x02 else if kind.Loop? then 0x03 else 0x04)
    case Else => op.op == 0x05
    case End => op.op == 0x0b
    case Br(d) => op.op == 0x0c && Bits(op.imm) == d
    case BrIf(d) => op.op == 0x0d && Bits(op.imm) == d
    case BrTable(_, _) => op.op == 0x0e
    case Return => op.op == 0x0f
    case Unreachable => op.op == 0x00
    case Get(x) => op.op == 0x20 && Bits(op.imm) == x
    case Set(x) => op.op == 0x21 && Bits(op.imm) == x
    case Tee(x) => op.op == 0x22 && Bits(op.imm) == x
    case Const(v) => op.op == 0x41 && op.imm == v
    case GeU => op.op == 0x4f
    case Sub => op.op == 0x6b
    case Plain(_) =>
      op.op !in {0x00, 0x02, 0x03, 0x04, 0x05, 0x0b, 0x0c, 0x0d, 0x0e, 0x0f, 0x20, 0x21, 0x22, 0x41, 0x4f, 0x6b}
  }

  ghost predicate Reads(ops: seq<Op>, code: seq<Instr>) {
    |ops| == |code| < ABSENT && forall i :: 0 <= i < |ops| ==> OpMatches(ops[i], code[i])
  }

  lemma AgreesMatches(op: Op, raw: seq<byte>, instr: Instr)
    requires Agrees(op, raw, instr)
    ensures OpMatches(op, instr)
  {
  }

  /** The label stack as the pass keeps it: innermost last. */
  function Listed(nest: Nest): seq<nat> {
    if nest.Outside? then [] else Listed(nest.outer) + [nest.opener]
  }

  lemma {:induction false} ListedAt(nest: Nest, depth: nat)
    ensures |Listed(nest)| == Depth(nest)
    ensures LabelAt(nest, depth)
            == if depth < Depth(nest) then Some(Listed(nest)[Depth(nest) - 1 - depth]) else None
  {
    if nest.Inside? {
      ListedAt(nest.outer, if depth == 0 then 0 else depth - 1);
    }
  }

  // ----- matching ends -----

  ghost predicate EndKnown(code: seq<Instr>, ends: seq<u32>, e: nat)
    requires e < |code| == |ends|
  {
    code[e].End? && Labels(code, e).Inside? ==> Labels(code, e).opener < e && ends[Labels(code, e).opener] == e
  }

  ghost predicate EndsKnown(code: seq<Instr>, ends: seq<u32>, n: nat)
    requires n <= |code| == |ends|
  {
    forall e :: 0 <= e < n ==> EndKnown(code, ends, e)
  }

  ghost predicate ElseEndKnown(code: seq<Instr>, ends: seq<u32>, a: nat, e: nat)
    requires a < e < |code| == |ends|
  {
    code[a].Else? && Labels(code, a).Inside? && Closes(code, e, Labels(code, a).opener) ==> ends[a] == e
  }

  ghost predicate ElseEndsKnown(code: seq<Instr>, ends: seq<u32>, n: nat)
    requires n <= |code| == |ends|
  {
    forall a, e :: 0 <= a < e < n ==> ElseEndKnown(code, ends, a, e)
  }

  ghost predicate AlternativeFits(code: seq<Instr>, alternatives: seq<u32>, l: nat, n: nat)
    requires l < |code| == |alternatives| < ABSENT
  {
    alternatives[l] != ABSENT ==> alternatives[l] < n && Splits(code, alternatives[l], l)
  }

  ghost predicate AlternativeKnown(code: seq<Instr>, alternatives: seq<u32>, a: nat)
    requires a < |code| == |alternatives| < ABSENT
  {
    code[a].Else? && Labels(code, a).Inside? ==> Labels(code, a).opener < a && alternatives[Labels(code, a).opener] == a
  }

  ghost predicate AlternativesKnown(code: seq<Instr>, alternatives: seq<u32>, n: nat)
    requires n <= |code| == |alternatives| < ABSENT
  {
    && (forall l :: 0 <= l < |code| ==> AlternativeFits(code, alternatives, l, n))
    && (forall a :: 0 <= a < n ==> AlternativeKnown(code, alternatives, a))
  }

  /** What the two tables say once all operations up to `n` are seen. */
  ghost predicate MatchedUpTo(code: seq<Instr>, ends: seq<u32>, alternatives: seq<u32>, n: nat)
    requires n <= |code| == |ends| == |alternatives| < ABSENT
  {
    EndsKnown(code, ends, n) && ElseEndsKnown(code, ends, n) && AlternativesKnown(code, alternatives, n)
  }

  ghost predicate OpenerMatched(code: seq<Instr>, ends: seq<u32>, alternatives: seq<u32>, l: nat)
    requires l < |code| == |ends| == |alternatives|
  {
    code[l].Open? ==>
      ends[l] == EndOf(code, l) < |code| && alternatives[l] == if ElseOf(code, l) < |code| then ElseOf(code, l) else ABSENT
  }

  ghost predicate ElseMatched(code: seq<Instr>, ends: seq<u32>, a: nat)
    requires a < |code| == |ends|
  {
    code[a].Else? ==>
      Labels(code, a).Inside? && Labels(code, a).opener < a && ends[a] == EndOf(code, Labels(code, a).opener) < |code|
  }

  /** The finished tables: every opener knows its `end` and `else`, every `else` its `end`. */
  ghost predicate Matched(code: seq<Instr>, ends: seq<u32>, alternatives: seq<u32>) {
    && |code| == |ends| == |alternatives| < ABSENT
    && forall i :: 0 <= i < |code| ==> OpenerMatched(code, ends, alternatives, i) && ElseMatched(code, ends, i)
  }

  lemma MatchingDone(code: seq<Instr>, ends: seq<u32>, alternatives: seq<u32>)
    requires |code| == |ends| == |alternatives| < ABSENT && WellNested(code)
    requires MatchedUpTo(code, ends, alternatives, |code|)
    ensures Matched(code, ends, alternatives)
  {
    forall i | 0 <= i < |code|
      ensures OpenerMatched(code, ends, alternatives, i) && ElseMatched(code, ends, i)
    {
      if code[i].Open? {
        EndFollows(code, i, i + 1);
        assert EndKnown(code, ends, EndOf(code, i));
        assert AlternativeFits(code, alternatives, i, |code|);
        if alternatives[i] != ABSENT {
          ElseIs(code, i, alternatives[i]);
        } else if ElseOf(code, i) < |code| {
          assert AlternativeKnown(code, alternatives, ElseOf(code, i));
        }
      }
      if code[i].Else? {
        assert NestedAt(code, i);
        LabelsShape(code, i, 0);
        EndFollows(code, Labels(code, i).opener, i);
        assert ElseEndKnown(code, ends, i, EndOf(code, Labels(code, i).opener));
      }
    }
  }

  lemma MatchElse(code: seq<Instr>, alternatives: seq<u32>, n: nat)
    requires n < |code| == |alternatives| < ABSENT && AlternativesKnown(code, alternatives, n)
    requires code[n].Else? && Labels(code, n).Inside? && Labels(code, n).opener < n
    requires alternatives[Labels(code, n).opener] == ABSENT
    ensures AlternativesKnown(code, alternatives[Labels(code, n).opener := n], n + 1)
    ensures forall i :: 0 <= i < n ==> !Splits(code, i, Labels(code, n).opener)
  {
    var l := Labels(code, n).opener;
    var after, next := alternatives[l := n], n + 1;
    forall i | 0 <= i < |code| ensures AlternativeFits(code, after, i, next) {
      assert AlternativeFits(code, alternatives, i, n);
    }
    forall i | 0 <= i < n + 1
      ensures AlternativeKnown(code, after, i) && (i < n ==> !Splits(code, i, l))
    {
      if i < n {
        assert AlternativeKnown(code, alternatives, i);
      }
    }
  }

  lemma MatchEnd(code: seq<Instr>, ends: seq<u32>, n: nat, after: seq<u32>)
    requires n < |code| == |ends| == |after| && EndsKnown(code, ends, n)
    requires code[n].End? && Labels(code, n).Inside? && Labels(code, n).opener < n
    requires after[Labels(code, n).opener] == n
    requires forall i :: 0 <= i < |code| && i != Labels(code, n).opener && code[i].Open? ==> after[i] == ends[i]
    ensures EndsKnown(code, after, n + 1)
  {
    var l := Labels(code, n).opener;
    forall e | 0 <= e < n ensures EndKnown(code, after, e) {
      assert EndKnown(code, ends, e);
      if Labels(code, e).Inside? && code[e].End? {
        LabelsShape(code, e, 0);
        if Labels(code, e).opener == l {
          GoneAfterEnd(code, l, e, n);
        }
      }
    }
  }

  lemma MatchElseEnd(code: seq<Instr>, ends: seq<u32>, alternatives: seq<u32>, n: nat, after: seq<u32>)
    requires n < |code| == |ends| == |alternatives| == |after| < ABSENT
    requires ElseEndsKnown(code, ends, n) && AlternativesKnown(code, alternatives, n)
    requires code[n].End? && Labels(code, n).Inside? && Labels(code, n).opener < n
    requires var a := alternatives[Labels(code, n).opener];
             && (a < n ==> after[a] == n)
             && forall i :: 0 <= i < |code| && i != a && code[i].Else? ==> after[i] == ends[i]
    ensures ElseEndsKnown(code, after, n + 1)
  {
    var l := Labels(code, n).opener;
    forall a, e | 0 <= a < e < n + 1 ensures ElseEndKnown(code, after, a, e) {
      assert AlternativeKnown(code, alternatives, a);
      if e < n {
        assert ElseEndKnown(code, ends, a, e);
        assert AlternativeFits(code, alternatives, l, n);
        if a == alternatives[l] && Closes(code, e, l) {
          GoneAfterEnd(code, l, e, n);
        }
      }
    }
  }

  lemma MatchPlain(code: seq<Instr>, ends: seq<u32>, alternatives: seq<u32>, n: nat)
    requires n < |code| == |ends| == |alternatives| < ABSENT && MatchedUpTo(code, ends, alternatives, n)
    requires !code[n].Else? && (Labels(code, n).Inside? ==> !code[n].End?)
    ensures MatchedUpTo(code, ends, alternatives, n + 1)
  {
    MatchKeepsEnds(code, ends, n);
    MatchKeepsAlternatives(code, alternatives, n);
  }

  lemma MatchKeepsAlternatives(code: seq<Instr>, alternatives: seq<u32>, n: nat)
    requires n < |code| == |alternatives| < ABSENT && AlternativesKnown(code, alternatives, n) && !code[n].Else?
    ensures AlternativesKnown(code, alternatives, n + 1)
  {
    var next := n + 1;
    forall l | 0 <= l < |code| ensures AlternativeFits(code, alternatives, l, next) {
      assert AlternativeFits(code, alternatives, l, n);
    }
    forall a | 0 <= a < n + 1 ensures AlternativeKnown(code, alternatives, a) {
    }
  }

  lemma MatchKeepsEnds(code: seq<Instr>, ends: seq<u32>, n: nat)
    requires n < |code| == |ends| && EndsKnown(code, ends, n) && ElseEndsKnown(code, ends, n)
    requires Labels(code, n).Inside? ==> !code[n].End?
    ensures EndsKnown(code, ends, n + 1) && ElseEndsKnown(code, ends, n + 1)
  {
    forall e | 0 <= e < n + 1 ensures EndKnown(code, ends, e) {
    }
    forall a, e | 0 <= a < e < n + 1 ensures ElseEndKnown(code, ends, a, e) {
      assert e < n ==> ElseEndKnown(code, ends, a, e);
    }
  }

  /** An `else`: refused unless its label is an `if` still without one. */
  method OnElse(ops: seq<Op>, ghost code: seq<Instr>, index: nat, stack: seq<nat>, alternatives: array<u32>)
    returns (ok: bool)
    requires Reads(ops, code) && index < |ops| == alternatives.Length && code[index].Else?
    requires stack == Listed(Labels(code, index)) && AlternativesKnown(code, alternatives[..], index)
    modifies alternatives
    ensures ok <==> ElseFits(code, index)
    ensures ok ==> AlternativesKnown(code, alternatives[..], index + 1)
  {
    if |stack| == 0 {
      return false;
    }
    LabelsShape(code, index, 0);
    var l := stack[|stack| - 1];
    assert l == Labels(code, index).opener;
    assert OpMatches(ops[l], code[l]) && AlternativeFits(code, alternatives[..], l, index);
    if ops[l].op != 0x04 || alternatives[l] != ABSENT {
      return false;
    }
    ghost var was := alternatives[..];
    MatchElse(code, was, index);
    alternatives[l] := index;
    assert alternatives[..] == was[l := index as u32];
    return true;
  }

  /** An `end` inside a label closes it, together with its `else`. */
  method OnEnd(ghost code: seq<Instr>, index: nat, l: nat, ends: array<u32>, alternatives: array<u32>)
    requires index < |code| == ends.Length == alternatives.Length < ABSENT && ends != alternatives
    requires code[index].End? && Labels(code, index).Inside? && l == Labels(code, index).opener
    requires MatchedUpTo(code, ends[..], alternatives[..], index)
    modifies ends
    ensures MatchedUpTo(code, ends[..], alternatives[..], index + 1)
  {
    LabelsShape(code, index, 0);
    ghost var was, others := ends[..], alternatives[..];
    assert AlternativeFits(code, others, l, index);
    ends[l] := index;
    if alternatives[l] != ABSENT {
      ends[alternatives[l]] := index;
    }
    MatchEnd(code, was, index, ends[..]);
    MatchElseEnd(code, was, others, index, ends[..]);
    MatchKeepsAlternatives(code, others, index);
  }

  /** One operation of the first pass. */
  method MatchOne(ops: seq<Op>, ghost code: seq<Instr>, index: nat, stack: seq<nat>,
                  ends: array<u32>, alternatives: array<u32>)
    returns (ok: bool, after: seq<nat>)
    requires Reads(ops, code) && index < |ops| && ends.Length == alternatives.Length == |ops| && ends != alternatives
    requires stack == Listed(Labels(code, index)) && NestedUpTo(code, index)
    requires MatchedUpTo(code, ends[..], alternatives[..], index)
    modifies ends, alternatives
    ensures ok <==> NestedUpTo(code, index + 1)
    ensures ok ==> after == Listed(Labels(code, index + 1)) && MatchedUpTo(code, ends[..], alternatives[..], index + 1)
  {
    var item := ops[index];
    ok, after := true, stack;
    assert OpMatches(item, code[index]);
    if item.op == 0x05 {
      ok := OnElse(ops, code, index, stack, alternatives);
      MatchKeepsEnds(code, ends[..], index);
    } else if item.op == 0x0b && |stack| != 0 {
      after := stack[..|stack| - 1];
      OnEnd(code, index, stack[|stack| - 1], ends, alternatives);
    } else {
      MatchPlain(code, ends[..], alternatives[..], index);
      if item.op == 0x02 || item.op == 0x03 || item.op == 0x04 {
        after := stack + [index];
      } else if item.op == 0x0b {
        ok := index + 1 == |ops|;
      }
    }
    assert NestedUpTo(code, index + 1) <==> NestedAt(code, index);
  }

  /** First pass: a label stack pairs every block, loop and `if` with its `else` and `end`. */
  method MatchEnds(ops: seq<Op>, ghost code: seq<Instr>) returns (ok: bool, ends: array<u32>, alternatives: array<u32>)
    requires Reads(ops, code)
    ensures fresh(ends) && fresh(alternatives) && ends != alternatives
    ensures ok <==> WellNested(code)
    ensures ok ==> Matched(code, ends[..], alternatives[..])
  {
    ends := new u32[|ops|](_ => ABSENT);
    alternatives := new u32[|ops|](_ => ABSENT);
    var stack: seq<nat> := [];
    for index := 0 to |ops|
      invariant stack == Listed(Labels(code, index))
      invariant NestedUpTo(code, index)
      invariant MatchedUpTo(code, ends[..], alternatives[..], index)
    {
      ok, stack := MatchOne(ops, code, index, stack, ends, alternatives);
      if !ok {
        return;
      }
    }
    ok := |stack| == 0;
    if ok {
      MatchingDone(code, ends[..], alternatives[..]);
    }
  }

  // ----- edges -----

  /** A control-flow edge in the list of edges with the same target. */
  datatype Edge = Edge(source: u32, next: u32)

  predicate LinkFits(edges: seq<Edge>, k: nat)
    requires k < |edges|
  {
    edges[k].next == ABSENT || edges[k].next < k
  }

  predicate Linked(edges: seq<Edge>) {
    |edges| < ABSENT && forall k :: 0 <= k < |edges| ==> LinkFits(edges, k)
  }

  /** The sources listed from edge `e` on. */
  function Chain(edges: seq<Edge>, e: u32): set<nat>
    requires Linked(edges) && (e == ABSENT || e < |edges|)
    decreases if e == ABSENT then 0 else e + 1
  {
    if e == ABSENT then {} else assert LinkFits(edges, e); {edges[e].source as nat} + Chain(edges, edges[e].next)
  }

  lemma {:induction false} ChainGrows(edges: seq<Edge>, added: Edge, e: u32)
    requires Linked(edges) && Linked(edges + [added]) && (e == ABSENT || e < |edges|)
    ensures Chain(edges + [added], e) == Chain(edges, e)
    decreases if e == ABSENT then 0 else e + 1
  {
    if e != ABSENT {
      assert LinkFits(edges, e);
      ChainGrows(edges, added, edges[e].next);
    }
  }

  /** `i` is an edge source for `t` among the operations before `n`, or `n` itself with `targets` so far. */
  ghost predicate EdgeSeen(code: seq<Instr>, n: nat, targets: set<nat>, i: nat, t: nat) {
    (i < n && i < |code| && t in Succs(code, i)) || (i == n && t in targets)
  }

  ghost predicate HeadKnown(code: seq<Instr>, n: nat, targets: set<nat>, edges: seq<Edge>, e: u32, t: nat) {
    && Linked(edges) && (e == ABSENT || e < |edges|)
    && forall i: nat :: i in Chain(edges, e) <==> EdgeSeen(code, n, targets, i, t)
  }

  ghost predicate EdgesKnown(code: seq<Instr>, n: nat, targets: set<nat>, edges: seq<Edge>, heads: seq<u32>) {
    |heads| == |code| && Linked(edges) &&
    forall t :: 0 <= t < |heads| ==> HeadKnown(code, n, targets, edges, heads[t], t)
  }

  /** Record that control can pass from `source` to `target`; leaving the function is not recorded. */
  method AddEdge(ghost code: seq<Instr>, ghost targets: set<nat>, edges: seq<Edge>, heads: array<u32>,
                 source: nat, target: nat)
    returns (after: seq<Edge>)
    requires source < ABSENT && |edges| + 1 < ABSENT
    requires EdgesKnown(code, source, targets, edges, heads[..])
    modifies heads
    ensures EdgesKnown(code, source, targets + {target}, after, heads[..])
    ensures |after| <= |edges| + 1
  {
    ghost var was := heads[..];
    if target >= heads.Length {
      forall t | 0 <= t < |was| ensures HeadKnown(code, source, targets + {target}, edges, was[t], t) {
        assert HeadKnown(code, source, targets, edges, was[t], t);
      }
      return edges;
    }
    assert HeadKnown(code, source, targets, edges, was[target], target);
    var added := Edge(source, heads[target]);
    heads[target] := |edges|;
    after := edges + [added];
    forall k | 0 <= k < |after| ensures LinkFits(after, k) {
      assert k < |edges| ==> LinkFits(edges, k);
    }
    forall t | 0 <= t < |was| ensures HeadKnown(code, source, targets + {target}, after, heads[..][t], t) {
      assert HeadKnown(code, source, targets, edges, was[t], t);
      ChainGrows(edges, added, was[t]);
      if t == target {
        assert Chain(after, |edges|) == {source} + Chain(after, was[t]);
      }
    }
  }

  /** All edges of operation `n` are in: go on with the next. */
  lemma EdgesNext(code: seq<Instr>, n: nat, edges: seq<Edge>, heads: seq<u32>)
    requires n < |code| && EdgesKnown(code, n, Succs(code, n), edges, heads)
    ensures EdgesKnown(code, n + 1, {}, edges, heads)
  {
    forall t | 0 <= t < |heads| ensures HeadKnown(code, n + 1, {}, edges, heads[t], t) {
      assert HeadKnown(code, n, Succs(code, n), edges, heads[t], t);
      forall i: nat ensures EdgeSeen(code, n + 1, {}, i, t) <==> EdgeSeen(code, n, Succs(code, n), i, t) {
      }
    }
  }
}
