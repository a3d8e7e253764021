/** IR functions of a snapshot: the records they are written as, section by section. */
module SnapshotIr {
  import opened Leb128
  import opened WireBytes
  import opened StringTable

  type u16 = n: nat | n < 0x1_0000
  type u64 = n: nat | n < 0x1_0000_0000_0000_0000

  datatype Op = Op(kind: byte, index: u32)
  datatype Inst = Inst(cmd: byte, uses: u16, ops: seq<Op>)

  datatype Block = Block(kind: byte, flags: byte, uses: u16, start: u32, finish: u32, sortKey: u32, chainKey: u32,
                         next: u32, startPc: u32)

  datatype Const = Int(i: int) | Int64(l: int) | Uint(u: u32) | Double(bits: u64) | Tag(t: byte) | Import(m: u32)
  datatype Mapping = Mapping(ir: u32, asm: u32)

  datatype Fn = Fn(entry: u32, variadic: bool, blocks: seq<Block>, insts: seq<Inst>, consts: seq<Const>, mapping: seq<Mapping>)

  function Kind(c: Const): byte {
    match c
    case Int(_) => 0
    case Int64(_) => 1
    case Uint(_) => 2
    case Double(_) => 3
    case Tag(_) => 4
    case Import(_) => 5
  }

  /** Signed constants are extended to 64 bits. */
  function Payload(c: Const): u64 {
    match c
    case Int(i) => i % 0x1_0000_0000_0000_0000
    case Int64(l) => l % 0x1_0000_0000_0000_0000
    case Uint(u) => u
    case Double(bits) => bits
    case Tag(t) => t as nat
    case Import(m) => m
  }

  // ----- records -----

  datatype InstRecord = InstRecord(cmd: byte, uses: u16, start: nat, count: nat)
  datatype FnRecord = FnRecord(id: nat, entry: u32, variadic: bool, blocks: nat, blockCount: nat, insts: nat, instCount: nat,
                               ops: nat, opCount: nat, consts: nat, constCount: nat, mapping: nat, mappingCount: nat)

  const ZEROS4: seq<byte> := [0, 0, 0, 0]
  const ZEROS8: seq<byte> := [0, 0, 0, 0, 0, 0, 0, 0]

  function EncBlock(x: Block): (r: seq<byte>)
    ensures |r| == 32
  {
    [x.kind, x.flags] + Le2(x.uses) + Le4(x.start) + Le4(x.finish) + Le4(x.sortKey) + Le4(x.chainKey) + Le4(x.next)
    + Le4(x.startPc) + ZEROS4
  }

  function EncInst(x: InstRecord): (r: seq<byte>)
    ensures |r| == 24
  {
    [x.cmd, 0] + Le2(x.uses) + Le4(NO_ID) + Le4(x.start) + Le4(x.count) + ZEROS8
  }

  function EncOp(x: Op): (r: seq<byte>)
    ensures |r| == 8
  {
    [x.kind, 0, 0, 0] + Le4(x.index)
  }

  function EncConst(x: Const): (r: seq<byte>)
    ensures |r| == 16
  {
    [Kind(x), 0, 0, 0, 0, 0, 0, 0] + Le8(Payload(x))
  }

  function EncMapping(x: Mapping): (r: seq<byte>)
    ensures |r| == 8
  {
    Le4(x.ir) + Le4(x.asm)
  }

  function EncFn(x: FnRecord): (r: seq<byte>)
    ensures |r| == 64
  {
    Le4(x.id) + Le4(x.id) + Le4(x.entry) + [if x.variadic then 1 else 0, 0, 0, 0] + Le4(x.blocks) + Le4(x.blockCount)
    + Le4(x.insts) + Le4(x.instCount) + Le4(x.ops) + Le4(x.opCount) + Le4(x.consts) + Le4(x.constCount) + Le4(x.mapping)
    + Le4(x.mappingCount) + ZEROS8
  }

  /** Records one behind the other. */
  function Recs<T>(enc: T -> seq<byte>, xs: seq<T>): seq<byte>
    decreases |xs|
  {
    if xs == [] then [] else Recs(enc, xs[..|xs| - 1]) + enc(xs[|xs| - 1])
  }

  ghost predicate Sized<T(!new)>(enc: T -> seq<byte>, size: nat) {
    forall x :: |enc(x)| == size
  }

  lemma RecsAppend<T>(enc: T -> seq<byte>, xs: seq<T>, x: T)
    ensures Recs(enc, xs + [x]) == Recs(enc, xs) + enc(x)
  {
    assert (xs + [x])[..|xs|] == xs;
  }

  lemma {:induction false} RecsSize<T(!new)>(enc: T -> seq<byte>, size: nat, xs: seq<T>)
    requires Sized(enc, size)
    ensures |Recs(enc, xs)| == size * |xs|
    decreases |xs|
  {
    if xs != [] {
      RecsSize(enc, size, xs[..|xs| - 1]);
      assert size * |xs| == size * (|xs| - 1) + size;
    }
  }

  /** The record with a number stands at its place. */
  lemma {:induction false} RecAt<T(!new)>(enc: T -> seq<byte>, size: nat, xs: seq<T>, i: nat)
    requires Sized(enc, size) && i < |xs|
    ensures size * i + size <= |Recs(enc, xs)| && Recs(enc, xs)[size * i..size * i + size] == enc(xs[i])
    decreases |xs|
  {
    var rest := xs[..|xs| - 1];
    RecsSize(enc, size, rest);
    if i < |rest| {
      RecAt(enc, size, rest, i);
      assert Recs(enc, xs)[..|Recs(enc, rest)|] == Recs(enc, rest);
      assert Recs(enc, xs)[size * i..size * i + size] == Recs(enc, xs)[..|Recs(enc, rest)|][size * i..size * i + size];
    } else {
      assert i == |rest|;
    }
  }

  // ----- what the sections hold -----

  /** What the first `n` functions have of something, one behind the other. */
  function All<T>(get: Fn -> seq<T>, fs: seq<Fn>, n: nat): seq<T>
    requires n <= |fs|
  {
    if n == 0 then [] else All(get, fs, n - 1) + get(fs[n - 1])
  }

  function BlocksOf(f: Fn): seq<Block> { f.blocks }
  function ConstsOf(f: Fn): seq<Const> { f.consts }
  function MappingOf(f: Fn): seq<Mapping> { f.mapping }
  function OpsOf(f: Fn): seq<Op> { OpsUpTo(f.insts, |f.insts|) }

  function OpsUpTo(insts: seq<Inst>, m: nat): seq<Op>
    requires m <= |insts|
  {
    if m == 0 then [] else OpsUpTo(insts, m - 1) + insts[m - 1].ops
  }

  /** Instruction records of one function whose operands start at `base`. */
  function InstRecords(base: nat, insts: seq<Inst>, m: nat): (r: seq<InstRecord>)
    requires m <= |insts|
    ensures |r| == m
    ensures forall i :: 0 <= i < m ==> r[i] == InstRecord(insts[i].cmd, insts[i].uses, base + |OpsUpTo(insts, i)|, |insts[i].ops|)
  {
    if m == 0 then []
    else
      InstRecords(base, insts, m - 1)
      + [InstRecord(insts[m - 1].cmd, insts[m - 1].uses, base + |OpsUpTo(insts, m - 1)|, |insts[m - 1].ops|)]
  }

  function AllInsts(fs: seq<Fn>, n: nat): seq<InstRecord>
    requires n <= |fs|
  {
    if n == 0 then [] else AllInsts(fs, n - 1) + InstRecords(|All(OpsOf, fs, n - 1)|, fs[n - 1].insts, |fs[n - 1].insts|)
  }

  function FnRecordOf(fs: seq<Fn>, k: nat): FnRecord
    requires k < |fs|
  {
    FnRecord(k, fs[k].entry, fs[k].variadic, |All(BlocksOf, fs, k)|, |fs[k].blocks|, |AllInsts(fs, k)|, |fs[k].insts|,
             |All(OpsOf, fs, k)|, |OpsOf(fs[k])|, |All(ConstsOf, fs, k)|, |fs[k].consts|, |All(MappingOf, fs, k)|, |fs[k].mapping|)
  }

  function FnRecords(fs: seq<Fn>, n: nat): (r: seq<FnRecord>)
    requires n <= |fs|
    ensures |r| == n && forall k :: 0 <= k < n ==> r[k] == FnRecordOf(fs, k)
  {
    if n == 0 then [] else FnRecords(fs, n - 1) + [FnRecordOf(fs, n - 1)]
  }

  /** The `i`-th of function `k` lies behind those of the functions before. */
  lemma {:induction false} AllAt<T>(get: Fn -> seq<T>, fs: seq<Fn>, n: nat, k: nat, i: nat)
    requires k < n <= |fs| && i < |get(fs[k])|
    ensures |All(get, fs, k)| + i < |All(get, fs, n)| && All(get, fs, n)[|All(get, fs, k)| + i] == get(fs[k])[i]
    decreases n
  {
    if k < n - 1 {
      AllAt(get, fs, n - 1, k, i);
    }
  }

  lemma {:induction false} AllInstsAt(fs: seq<Fn>, n: nat, k: nat, i: nat)
    requires k < n <= |fs| && i < |fs[k].insts|
    ensures |AllInsts(fs, k)| + i < |AllInsts(fs, n)|
    ensures var x := fs[k].insts[i];
            AllInsts(fs, n)[|AllInsts(fs, k)| + i]
            == InstRecord(x.cmd, x.uses, |All(OpsOf, fs, k)| + |OpsUpTo(fs[k].insts, i)|, |x.ops|)
    decreases n
  {
    hide All, OpsUpTo, InstRecords;
    var before, last := AllInsts(fs, n - 1), InstRecords(|All(OpsOf, fs, n - 1)|, fs[n - 1].insts, |fs[n - 1].insts|);
    assert AllInsts(fs, n) == before + last;
    if k < n - 1 {
      AllInstsAt(fs, n - 1, k, i);
    } else {
      assert (before + last)[|before| + i] == last[i];
    }
  }

  lemma {:induction false} OpsAt(insts: seq<Inst>, m: nat, i: nat, j: nat)
    requires i < m <= |insts| && j < |insts[i].ops|
    ensures |OpsUpTo(insts, i)| + j < |OpsUpTo(insts, m)| && OpsUpTo(insts, m)[|OpsUpTo(insts, i)| + j] == insts[i].ops[j]
    decreases m
  {
    if i < m - 1 {
      OpsAt(insts, m - 1, i, j);
    }
  }

  // ----- writing -----

  const MAX_INSTRUCTIONS := 0x10_0000
  const MAX_BLOCKS := 32768
  const MAX_BLOCK_INSTRUCTIONS := 65536
  const DEAD: byte := 5

  function LiveBlocks(blocks: seq<Block>, n: nat): nat
    requires n <= |blocks|
  {
    if n == 0 then 0 else LiveBlocks(blocks, n - 1) + if blocks[n - 1].kind != DEAD then 1 else 0
  }

  /** Lengths of blocks are taken in 32 bits. */
  function LengthOf(x: Block): nat {
    (x.finish - x.start) % 0x1_0000_0000
  }

  predicate BlocksFit(f: Fn) {
    && LiveBlocks(f.blocks, |f.blocks|) < MAX_BLOCKS
    && forall i :: 0 <= i < |f.blocks| ==> LengthOf(f.blocks[i]) < MAX_BLOCK_INSTRUCTIONS
  }

  function Instructions(fs: seq<Fn>, n: nat): nat
    requires n <= |fs|
  {
    if n == 0 then 0 else Instructions(fs, n - 1) + |fs[n - 1].insts|
  }

  ghost predicate WithinLimits(fs: seq<Fn>) {
    forall k :: 0 <= k < |fs| ==> FnFits(fs, k)
  }

  ghost predicate FnFits(fs: seq<Fn>, k: nat)
    requires k < |fs|
  {
    Instructions(fs, k) + |fs[k].insts| < MAX_INSTRUCTIONS && BlocksFit(fs[k])
  }

  class IrSections {
    var functions: seq<byte>
    var blocks: seq<byte>
    var instructions: seq<byte>
    var operands: seq<byte>
    var constants: seq<byte>
    var mapping: seq<byte>

    /** The sections hold the records of the first `n` functions. */
    ghost predicate Holds(fs: seq<Fn>, n: nat)
      requires n <= |fs|
      reads this
    {
      && functions == Recs(EncFn, FnRecords(fs, n)) && blocks == Recs(EncBlock, All(BlocksOf, fs, n))
      && instructions == Recs(EncInst, AllInsts(fs, n)) && operands == Recs(EncOp, All(OpsOf, fs, n))
      && constants == Recs(EncConst, All(ConstsOf, fs, n)) && mapping == Recs(EncMapping, All(MappingOf, fs, n))
    }

    constructor ()
      ensures Holds([], 0) && functions == blocks == instructions == operands == constants == mapping == []
    {
      functions, blocks, instructions, operands, constants, mapping := [], [], [], [], [], [];
    }

    method WriteBlocks(fs: seq<Fn>, k: nat)
      requires k < |fs| && blocks == Recs(EncBlock, All(BlocksOf, fs, k))
      modifies this`blocks
      ensures blocks == Recs(EncBlock, All(BlocksOf, fs, k + 1))
    {
      hide EncBlock, Recs, All;
      ghost var before := All(BlocksOf, fs, k);
      var f := fs[k];
      assert before + f.blocks[..0] == before;
      for i := 0 to |f.blocks|
        invariant blocks == Recs(EncBlock, before + f.blocks[..i])
      {
        RecsAppend(EncBlock, before + f.blocks[..i], f.blocks[i]);
        assert before + f.blocks[..i + 1] == before + f.blocks[..i] + [f.blocks[i]];
        blocks := blocks + EncBlock(f.blocks[i]);
      }
      AllNext(BlocksOf, fs, k);
      assert f.blocks[..|f.blocks|] == f.blocks;
    }

    method WriteConstants(fs: seq<Fn>, k: nat)
      requires k < |fs| && constants == Recs(EncConst, All(ConstsOf, fs, k))
      modifies this`constants
      ensures constants == Recs(EncConst, All(ConstsOf, fs, k + 1))
    {
      hide EncConst, Recs, All;
      ghost var before := All(ConstsOf, fs, k);
      var f := fs[k];
      assert before + f.consts[..0] == before;
      for i := 0 to |f.consts|
        invariant constants == Recs(EncConst, before + f.consts[..i])
      {
        RecsAppend(EncConst, before + f.consts[..i], f.consts[i]);
        assert before + f.consts[..i + 1] == before + f.consts[..i] + [f.consts[i]];
        constants := constants + EncConst(f.consts[i]);
      }
      AllNext(ConstsOf, fs, k);
      assert f.consts[..|f.consts|] == f.consts;
    }

    method WriteMapping(fs: seq<Fn>, k: nat)
      requires k < |fs| && mapping == Recs(EncMapping, All(MappingOf, fs, k))
      modifies this`mapping
      ensures mapping == Recs(EncMapping, All(MappingOf, fs, k + 1))
    {
      hide EncMapping, Recs, All;
      ghost var before := All(MappingOf, fs, k);
      var f := fs[k];
      assert before + f.mapping[..0] == before;
      for i := 0 to |f.mapping|
        invariant mapping == Recs(EncMapping, before + f.mapping[..i])
      {
        RecsAppend(EncMapping, before + f.mapping[..i], f.mapping[i]);
        assert before + f.mapping[..i + 1] == before + f.mapping[..i] + [f.mapping[i]];
        mapping := mapping + EncMapping(f.mapping[i]);
      }
      AllNext(MappingOf, fs, k);
      assert f.mapping[..|f.mapping|] == f.mapping;
    }

    /** The operands of one instruction. */
    method WriteOperands(ghost before: seq<Op>, ops: seq<Op>)
      requires operands == Recs(EncOp, before)
      modifies this`operands
      ensures operands == Recs(EncOp, before + ops)
    {
      hide EncOp, Recs;
      assert before + ops[..0] == before;
      for i := 0 to |ops|
        invariant operands == Recs(EncOp, before + ops[..i])
      {
        RecsAppend(EncOp, before + ops[..i], ops[i]);
        assert before + ops[..i + 1] == before + ops[..i] + [ops[i]];
        operands := operands + EncOp(ops[i]);
      }
      assert ops[..|ops|] == ops;
    }

    /** One instruction: its record names the operands that follow. */
    method WriteInstruction(ghost records: seq<InstRecord>, ghost before: seq<Op>, x: Inst)
      requires instructions == Recs(EncInst, records) && operands == Recs(EncOp, before)
      modifies this`instructions, this`operands
      ensures instructions == Recs(EncInst, records + [InstRecord(x.cmd, x.uses, |before|, |x.ops|)])
      ensures operands == Recs(EncOp, before + x.ops)
    {
      hide EncInst, EncOp, Recs;
      OpSized();
      RecsSize(EncOp, 8, before);
      var record := InstRecord(x.cmd, x.uses, |operands| / 8, |x.ops|);
      RecsAppend(EncInst, records, record);
      instructions := instructions + EncInst(record);
      WriteOperands(before, x.ops);
    }

    method WriteInstructions(fs: seq<Fn>, k: nat)
      requires k < |fs| && instructions == Recs(EncInst, AllInsts(fs, k)) && operands == Recs(EncOp, All(OpsOf, fs, k))
      modifies this`instructions, this`operands
      ensures instructions == Recs(EncInst, AllInsts(fs, k + 1)) && operands == Recs(EncOp, All(OpsOf, fs, k + 1))
    {
      hide EncInst, EncOp, Recs, All, OpsUpTo, InstRecords;
      ghost var base, before := All(OpsOf, fs, k), AllInsts(fs, k);
      var insts := fs[k].insts;
      NoInsts(base, before, insts);
      for i := 0 to |insts|
        invariant instructions == Recs(EncInst, before + InstRecords(|base|, insts, i))
        invariant operands == Recs(EncOp, base + OpsUpTo(insts, i))
      {
        NextInst(base, before, insts, i);
        WriteInstruction(before + InstRecords(|base|, insts, i), base + OpsUpTo(insts, i), insts[i]);
      }
      AllNext(OpsOf, fs, k);
    }

    /** Everything of one function; its record says where. */
    method WriteFunction(fs: seq<Fn>, k: nat)
      requires k < |fs| && Holds(fs, k)
      modifies this
      ensures Holds(fs, k + 1)
    {
      hide EncFn, EncBlock, EncInst, EncOp, EncConst, EncMapping, Recs, All, AllInsts, FnRecords;
      AllSized();
      RecsSize(EncBlock, 32, All(BlocksOf, fs, k));
      RecsSize(EncInst, 24, AllInsts(fs, k));
      RecsSize(EncOp, 8, All(OpsOf, fs, k));
      RecsSize(EncConst, 16, All(ConstsOf, fs, k));
      RecsSize(EncMapping, 8, All(MappingOf, fs, k));
      RecsSize(EncOp, 8, All(OpsOf, fs, k + 1));
      AllNext(OpsOf, fs, k);
      var f := fs[k];
      var firstBlock, firstInst, firstOp := |blocks| / 32, |instructions| / 24, |operands| / 8;
      var firstConst, firstMapping := |constants| / 16, |mapping| / 8;
      WriteBlocks(fs, k);
      WriteInstructions(fs, k);
      WriteConstants(fs, k);
      WriteMapping(fs, k);
      var record := FnRecord(k, f.entry, f.variadic, firstBlock, |f.blocks|, firstInst, |f.insts|, firstOp, |operands| / 8 - firstOp,
                             firstConst, |f.consts|, firstMapping, |f.mapping|);
      FnNext(fs, k);
      RecsAppend(EncFn, FnRecords(fs, k), record);
      functions := functions + EncFn(record);
    }

    /** The limits of one function's blocks. */
    method CheckBlocks(f: Fn) returns (ok: bool)
      ensures ok <==> BlocksFit(f)
    {
      var live, most := 0, 0;
      for i := 0 to |f.blocks|
        invariant live == LiveBlocks(f.blocks, i)
        invariant forall j :: 0 <= j < i ==> LengthOf(f.blocks[j]) <= most
        invariant most > 0 ==> exists j :: 0 <= j < i && LengthOf(f.blocks[j]) == most
      {
        if f.blocks[i].kind != DEAD {
          live := live + 1;
        }
        if LengthOf(f.blocks[i]) > most {
          most := LengthOf(f.blocks[i]);
        }
      }
      return live < MAX_BLOCKS && most < MAX_BLOCK_INSTRUCTIONS;
    }

    /** Refused when functions as built are beyond the limits; otherwise the sections hold the records of all
        functions as the passes after building leave them. */
    method SerializeIr(built: seq<Fn>, fs: seq<Fn>) returns (ok: bool)
      requires |built| == |fs| && functions == blocks == instructions == operands == constants == mapping == []
      modifies this
      ensures ok <==> WithinLimits(built)
      ensures ok ==> Holds(fs, |fs|)
    {
      hide FnRecords, Recs, AllInsts, All, BlocksFit, EncFn, EncBlock, EncInst, EncOp, EncConst, EncMapping;
      NothingHeld(fs);
      var total := 0;
      for k := 0 to |fs|
        invariant total == Instructions(built, k) && Holds(fs, k)
        invariant forall j :: 0 <= j < k ==> FnFits(built, j)
      {
        if total + |built[k].insts| >= MAX_INSTRUCTIONS {
          assert !FnFits(built, k);
          return false;
        }
        total := total + |built[k].insts|;
        var fit := CheckBlocks(built[k]);
        if !fit {
          assert !FnFits(built, k);
          return false;
        }
        WriteFunction(fs, k);
      }
      return true;
    }
  }

  lemma NothingHeld(fs: seq<Fn>)
    ensures FnRecords(fs, 0) == [] && AllInsts(fs, 0) == [] && All(BlocksOf, fs, 0) == [] && All(OpsOf, fs, 0) == []
    ensures All(ConstsOf, fs, 0) == [] && All(MappingOf, fs, 0) == []
    ensures Recs(EncFn, []) == Recs(EncBlock, []) == Recs(EncInst, []) == Recs(EncOp, []) == Recs(EncConst, []) == Recs(EncMapping, []) == []
  {
  }

  lemma FnNext(fs: seq<Fn>, k: nat)
    requires k < |fs|
    ensures FnRecords(fs, k + 1) == FnRecords(fs, k) + [FnRecordOf(fs, k)]
  {
  }

  lemma AllSized()
    ensures Sized(EncFn, 64) && Sized(EncBlock, 32) && Sized(EncInst, 24) && Sized(EncOp, 8) && Sized(EncConst, 16) && Sized(EncMapping, 8)
  {
  }

  lemma NoInsts(base: seq<Op>, before: seq<InstRecord>, insts: seq<Inst>)
    ensures base + OpsUpTo(insts, 0) == base && before + InstRecords(|base|, insts, 0) == before
  {
  }

  lemma OneMore(base: nat, insts: seq<Inst>, i: nat)
    requires i < |insts|
    ensures OpsUpTo(insts, i + 1) == OpsUpTo(insts, i) + insts[i].ops
    ensures InstRecords(base, insts, i + 1)
            == InstRecords(base, insts, i) + [InstRecord(insts[i].cmd, insts[i].uses, base + |OpsUpTo(insts, i)|, |insts[i].ops|)]
  {
  }

  lemma NextInst(base: seq<Op>, before: seq<InstRecord>, insts: seq<Inst>, i: nat)
    requires i < |insts|
    ensures base + OpsUpTo(insts, i + 1) == base + OpsUpTo(insts, i) + insts[i].ops
    ensures before + InstRecords(|base|, insts, i + 1)
            == before + InstRecords(|base|, insts, i)
               + [InstRecord(insts[i].cmd, insts[i].uses, |base + OpsUpTo(insts, i)|, |insts[i].ops|)]
  {
    OneMore(|base|, insts, i);
    hide OpsUpTo, InstRecords;
    var a, b := OpsUpTo(insts, i), InstRecords(|base|, insts, i);
    var record := InstRecord(insts[i].cmd, insts[i].uses, |base| + |a|, |insts[i].ops|);
    assert base + (a + insts[i].ops) == base + a + insts[i].ops;
    assert before + (b + [record]) == before + b + [record];
  }

  lemma AllNext<T>(get: Fn -> seq<T>, fs: seq<Fn>, k: nat)
    requires k < |fs|
    ensures All(get, fs, k + 1) == All(get, fs, k) + get(fs[k])
  {
  }

  lemma OpSized()
    ensures Sized(EncOp, 8)
  {
  }
}
