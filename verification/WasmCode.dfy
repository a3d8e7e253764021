/** Function bodies of section 5.4 of the WebAssembly Core Specification 2.0 as the linker sees them:
    a flat list of operations with byte ranges, their structured labels and their control-flow edges. */
module WasmCode {
  import opened Wrappers
  import opened Leb128

  /** A decoded operation: byte range, class, opcode and 32-bit immediate. */
  datatype Op = Op(at: u32, len: nat, cls: nat, op: byte, imm: i32)

  datatype Kind = Block | Loop | If

  datatype Instr =
    | Open(kind: Kind, blockType: seq<byte>)
    | Else
    | End
    | Br(depth: nat)
    | BrIf(depth: nat)
    | BrTable(targets: seq<u32>, default: u32)
    | Return
    | Unreachable
    | Get(x: u32)
    | Set(x: u32)
    | Tee(x: u32)
    | Const(value: i32)
    | GeU
    | Sub
    | Plain(raw: seq<byte>)

  const EMPTY_TYPE: seq<byte> := [0x40]

  function Indices(bytes: seq<byte>, cursor: nat, count: nat): (r: Option<(seq<u32>, nat)>)
    ensures r.Some? ==> |r.value.0| == count && cursor + count <= r.value.1
    ensures r.Some? && count > 0 ==> r.value.1 <= |bytes|
    decreases count
  {
    if count == 0 then Some(([], cursor))
    else
      var first := Index(bytes, cursor);
      if first.None? then None
      else
        var rest := Indices(bytes, first.value.1, count - 1);
        if rest.None? then None else Some(([first.value.0] + rest.value.0, rest.value.1))
  }

  /** The index that makes up the whole immediate of `raw`. */
  function Immediate(raw: seq<byte>): Option<u32> {
    var r := Index(raw, 1);
    if r.Some? && r.value.1 == |raw| then Some(r.value.0) else None
  }

  /** What the bytes of one operation mean; operations without control or local effects stay opaque. */
  function Decode(raw: seq<byte>): Option<Instr> {
    if |raw| == 0 then None
    else if raw[0] in {0x02, 0x03, 0x04} then
      if |raw| < 2 || (raw[1] < 128 && |raw| != 2) then None
      else Some(Open(if raw[0] == 0x02 then Block else if raw[0] == 0x03 then Loop else If, raw[1..]))
    else if raw[0] == 0x0e then
      var count := Index(raw, 1);
      if count.None? then None
      else
        var targets := Indices(raw, count.value.1, count.value.0);
        if targets.None? then None
        else
          var default := Index(raw, targets.value.1);
          if default.None? || default.value.1 != |raw| then None
          else Some(BrTable(targets.value.0, default.value.0))
    else if raw[0] in {0x0c, 0x0d, 0x20, 0x21, 0x22} then
      var v := Immediate(raw);
      if v.None? then None
      else if raw[0] == 0x0c then Some(Br(v.value))
      else if raw[0] == 0x0d then Some(BrIf(v.value))
      else if raw[0] == 0x20 then Some(Get(v.value))
      else if raw[0] == 0x21 then Some(Set(v.value))
      else Some(Tee(v.value))
    else if raw[0] == 0x41 then
      var v := Signed(raw, 1, 0);
      if v.None? || v.value.1 != |raw| then None else Some(Const(v.value.0))
    else if raw[0] in {0x00, 0x05, 0x0b, 0x0f, 0x4f, 0x6b} then
      if |raw| != 1 then None
      else if raw[0] == 0x00 then Some(Unreachable)
      else if raw[0] == 0x05 then Some(Else)
      else if raw[0] == 0x0b then Some(End)
      else if raw[0] == 0x0f then Some(Return)
      else if raw[0] == 0x4f then Some(GeU)
      else Some(Sub)
    else Some(Plain(raw))
  }

  /** The record's opcode and immediate repeat what the bytes say. */
  predicate Agrees(op: Op, raw: seq<byte>, instr: Instr) {
    && |raw| > 0 && op.op == raw[0]
    && Decode(raw) == Some(instr)
    && match instr
       case Br(d) => Bits(op.imm) == d
       case BrIf(d) => Bits(op.imm) == d
       case Get(x) => Bits(op.imm) == x
       case Set(x) => Bits(op.imm) == x
       case Tee(x) => Bits(op.imm) == x
       case Const(v) => op.imm == v
       case _ => true
  }

  function Raw(body: seq<byte>, op: Op): seq<byte>
    requires op.at + op.len <= |body|
  {
    Part(body, op.at, op.at + op.len)
  }

  /** Where operation `i` has to begin: at the end of the one before. */
  ghost function AtOf(start: nat, ops: seq<Op>, i: nat): nat
    requires i <= |ops|
  {
    if i == 0 then start else ops[i - 1].at + ops[i - 1].len
  }

  ghost predicate OpDecoded(body: seq<byte>, start: nat, ops: seq<Op>, code: seq<Instr>, i: nat)
    requires i < |ops| == |code|
  {
    && ops[i].at == AtOf(start, ops, i) && ops[i].at + ops[i].len <= |body|
    && Agrees(ops[i], Raw(body, ops[i]), code[i])
  }

  /** `ops` tiles `body` from `start` to its end and reads as `code`. */
  ghost predicate Decoded(body: seq<byte>, start: nat, ops: seq<Op>, code: seq<Instr>) {
    && |ops| == |code| && AtOf(start, ops, |ops|) == |body|
    && forall i :: 0 <= i < |ops| ==> OpDecoded(body, start, ops, code, i)
  }

  // ----- structured labels -----

  /** The labels open at some position, innermost last, each named by the operation opening it. */
  datatype Nest = Outside | Inside(outer: Nest, opener: nat)

  function Depth(nest: Nest): nat {
    if nest.Outside? then 0 else 1 + Depth(nest.outer)
  }

  predicate Has(nest: Nest, l: nat) {
    nest.Inside? && (nest.opener == l || Has(nest.outer, l))
  }

  /** What is left without the `d` innermost labels. */
  function Peel(nest: Nest, d: nat): Nest {
    if d == 0 || nest.Outside? then nest else Peel(nest.outer, d - 1)
  }

  /** The label a branch of this depth names; none for the function itself. */
  function LabelAt(nest: Nest, depth: nat): Option<nat> {
    if Peel(nest, depth).Inside? then Some(Peel(nest, depth).opener) else None
  }

  /** How many labels lie inside `l`. */
  function DepthOf(nest: Nest, l: nat): nat {
    if nest.Outside? || nest.opener == l then 0 else 1 + DepthOf(nest.outer, l)
  }

  /** The labels open in front of operation `i`. */
  function Labels(code: seq<Instr>, i: nat): Nest
    requires i <= |code|
  {
    if i == 0 then Outside
    else
      var before := Labels(code, i - 1);
      if code[i - 1].Open? then Inside(before, i - 1)
      else if code[i - 1].End? && before.Inside? then before.outer
      else before
  }

  predicate Closes(code: seq<Instr>, j: nat, l: nat) {
    j < |code| && code[j].End? && Labels(code, j).Inside? && Labels(code, j).opener == l
  }

  predicate Splits(code: seq<Instr>, j: nat, l: nat) {
    j < |code| && code[j].Else? && Labels(code, j).Inside? && Labels(code, j).opener == l
  }

  function EndFrom(code: seq<Instr>, l: nat, j: nat): (r: nat)
    requires j <= |code|
    ensures j <= r <= |code|
    ensures r < |code| ==> Closes(code, r, l)
    decreases |code| - j
  {
    if j == |code| || Closes(code, j, l) then j else EndFrom(code, l, j + 1)
  }

  /** The `end` closing the label `l`; `|code|` when there is none. */
  function EndOf(code: seq<Instr>, l: nat): nat
    requires l < |code|
  {
    EndFrom(code, l, l + 1)
  }

  function ElseFrom(code: seq<Instr>, l: nat, j: nat): (r: nat)
    requires j <= |code|
    ensures j <= r <= |code|
    ensures r < |code| ==> Splits(code, r, l)
    decreases |code| - j
  {
    if j == |code| || Splits(code, j, l) then j else ElseFrom(code, l, j + 1)
  }

  /** The `else` of the `if` at the label `l`; `|code|` when there is none. */
  function ElseOf(code: seq<Instr>, l: nat): nat
    requires l < |code|
  {
    ElseFrom(code, l, l + 1)
  }

  lemma {:induction false} EndFirst(code: seq<Instr>, l: nat, j: nat, i: nat)
    requires j <= i < |code| && Closes(code, i, l)
    ensures EndFrom(code, l, j) <= i
    decreases i - j
  {
    if j < i {
      EndFirst(code, l, j + 1, i);
    }
  }

  lemma {:induction false} ElseFirst(code: seq<Instr>, l: nat, j: nat, i: nat)
    requires j <= i < |code| && Splits(code, i, l)
    ensures ElseFrom(code, l, j) <= i
    decreases i - j
  {
    if j < i {
      ElseFirst(code, l, j + 1, i);
    }
  }

  /** No label stays open. */
  ghost predicate Closed(code: seq<Instr>) {
    Labels(code, |code|).Outside?
  }

  /** An `else` belongs to an `if` that has no other. */
  ghost predicate ElseFits(code: seq<Instr>, j: nat)
    requires j < |code|
  {
    && Labels(code, j).Inside?
    && var l := Labels(code, j).opener;
       && l < |code| && code[l].Open? && code[l].kind.If?
       && forall i :: 0 <= i < j ==> !Splits(code, i, l)
  }

  ghost predicate NestedAt(code: seq<Instr>, j: nat)
    requires j < |code|
  {
    && (code[j].End? && Labels(code, j).Outside? ==> j + 1 == |code|)
    && (code[j].Else? ==> ElseFits(code, j))
  }

  /** Every `end` but a final one closes a label, and every `else` fits. */
  ghost predicate NestedUpTo(code: seq<Instr>, n: nat)
    requires n <= |code|
  {
    forall j :: 0 <= j < n ==> NestedAt(code, j)
  }

  ghost predicate WellNested(code: seq<Instr>) {
    NestedUpTo(code, |code|) && Closed(code)
  }

  /** An open label was opened earlier, inside exactly the labels around it. */
  lemma {:induction false} LabelsShape(code: seq<Instr>, i: nat, d: nat)
    requires i <= |code| && Peel(Labels(code, i), d).Inside?
    ensures var n := Peel(Labels(code, i), d);
            n.opener < i && code[n.opener].Open? && Labels(code, n.opener) == n.outer && Labels(code, n.opener + 1) == n
  {
    var before := Labels(code, i - 1);
    if code[i - 1].Open? {
      if d > 0 {
        LabelsShape(code, i - 1, d - 1);
      }
    } else if code[i - 1].End? && before.Inside? {
      assert Peel(before.outer, d) == Peel(before, d + 1);
      LabelsShape(code, i - 1, d + 1);
    } else {
      LabelsShape(code, i - 1, d);
    }
  }

  lemma {:induction false} HasPeel(nest: Nest, l: nat)
    requires Has(nest, l)
    ensures Peel(nest, DepthOf(nest, l)).Inside? && Peel(nest, DepthOf(nest, l)).opener == l
    ensures DepthOf(nest, l) < Depth(nest)
  {
    if nest.opener != l {
      HasPeel(nest.outer, l);
    }
  }

  lemma {:induction false} PeelHas(nest: Nest, d: nat)
    requires Peel(nest, d).Inside?
    ensures Has(nest, Peel(nest, d).opener) && d < Depth(nest)
  {
    if d > 0 {
      PeelHas(nest.outer, d - 1);
    }
  }

  lemma HasShape(code: seq<Instr>, i: nat, l: nat)
    requires i <= |code| && Has(Labels(code, i), l)
    ensures l < i && code[l].Open? && Peel(Labels(code, i), DepthOf(Labels(code, i), l)) == Inside(Labels(code, l), l)
  {
    HasPeel(Labels(code, i), l);
    LabelsShape(code, i, DepthOf(Labels(code, i), l));
  }

  lemma {:induction false} Gone(code: seq<Instr>, l: nat, i: nat, j: nat)
    requires l < i <= j <= |code| && !Has(Labels(code, i), l)
    ensures !Has(Labels(code, j), l)
  {
    if i < j {
      Gone(code, l, i, j - 1);
    }
  }

  lemma GoneAfterEnd(code: seq<Instr>, l: nat, e: nat, j: nat)
    requires Closes(code, e, l) && e < j <= |code|
    ensures !Has(Labels(code, j), l)
  {
    LabelsShape(code, e, 0);
    if Has(Labels(code, l), l) {
      HasShape(code, l, l);
    }
    Gone(code, l, e + 1, j);
  }

  /** At most one `end` closes a label. */
  lemma EndIs(code: seq<Instr>, l: nat, e: nat)
    requires Closes(code, e, l)
    ensures l < e && EndOf(code, l) == e
  {
    LabelsShape(code, e, 0);
    EndFirst(code, l, l + 1, e);
    var found := EndFrom(code, l, l + 1);
    if found < e {
      GoneAfterEnd(code, l, found, e);
    }
  }

  /** A label that is open and later no longer is has its `end` in between. */
  lemma {:induction false} EndFollows(code: seq<Instr>, l: nat, i: nat)
    requires i <= |code| && Has(Labels(code, i), l) && !Has(Labels(code, |code|), l)
    ensures l < i && i <= EndOf(code, l) < |code| && code[EndOf(code, l)].End?
    ensures Labels(code, EndOf(code, l)) == Inside(Labels(code, l), l)
    ensures Labels(code, EndOf(code, l) + 1) == Labels(code, l)
    decreases |code| - i
  {
    HasShape(code, i, l);
    if Closes(code, i, l) {
      EndIs(code, l, i);
    } else {
      EndFollows(code, l, i + 1);
    }
  }

  lemma ElseIs(code: seq<Instr>, l: nat, a: nat)
    requires NestedUpTo(code, |code|) && Splits(code, a, l)
    ensures l < a && ElseOf(code, l) == a
  {
    LabelsShape(code, a, 0);
    assert NestedAt(code, a);
    ElseFirst(code, l, l + 1, a);
  }
}
