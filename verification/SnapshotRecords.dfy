/** The records of a snapshot field by field: decoders by the offsets of the format, and that whole functions
    are found again in an image, field by field. */
module SnapshotRecords {
  import opened Wrappers
  import opened Leb128
  import opened WireBytes
  import opened StringTable
  import opened SnapshotImage
  import opened SnapshotIr
  import opened SnapshotReader

  function BlockFrom(r: seq<byte>): Block
    requires |r| == 32
  {
    Block(r[0], r[1], Read2(r, 2), Read4(r, 4), Read4(r, 8), Read4(r, 12), Read4(r, 16), Read4(r, 20), Read4(r, 24))
  }

  function InstFrom(r: seq<byte>): InstRecord
    requires |r| == 24
  {
    InstRecord(r[0], Read2(r, 2), Read4(r, 8), Read4(r, 12))
  }

  function OpFrom(r: seq<byte>): Op
    requires |r| == 8
  {
    Op(r[0], Read4(r, 4))
  }

  function MappingFrom(r: seq<byte>): Mapping
    requires |r| == 8
  {
    Mapping(Read4(r, 0), Read4(r, 4))
  }

  function Signed(bits: nat): int {
    if bits >= 0x8000_0000_0000_0000 then bits - 0x1_0000_0000_0000_0000 else bits
  }

  /** The number a constant stands for, by its kind. */
  function ConstFrom(r: seq<byte>): Option<Const>
    requires |r| == 16
  {
    var bits := Read8(r, 8);
    match r[0] as int
    case 0 => Some(Int(Signed(bits)))
    case 1 => Some(Int64(Signed(bits)))
    case 2 => if bits < 0x1_0000_0000 then Some(Uint(bits)) else None
    case 3 => if bits < 0x1_0000_0000_0000_0000 then Some(Double(bits)) else None
    case 4 => if bits < 256 then Some(Tag(bits as byte)) else None
    case 5 => if bits < 0x1_0000_0000 then Some(Import(bits)) else None
    case _ => None
  }

  function FnFrom(r: seq<byte>): FnRecord
    requires |r| == 64
  {
    FnRecord(Read4(r, 4), Read4(r, 8), r[12] != 0, Read4(r, 16), Read4(r, 20), Read4(r, 24), Read4(r, 28), Read4(r, 32), Read4(r, 36),
             Read4(r, 40), Read4(r, 44), Read4(r, 48), Read4(r, 52))
  }

  // ----- round trips -----

  lemma FieldReads(r: seq<byte>, at: nat, v: nat)
    requires at + 4 <= |r| && r[at..at + 4] == Le4(v) && v < 0x1_0000_0000
    ensures Read4(r, at) == v
  {
    NumReads(r, at, v);
  }

  lemma HalfFieldReads(r: seq<byte>, at: nat, v: nat)
    requires at + 2 <= |r| && r[at..at + 2] == Le2(v) && v < 0x1_0000
    ensures Read2(r, at) == v
  {
    HalfReads(r, at, v);
  }

  lemma BlockSlices(x: Block)
    ensures var r := EncBlock(x);
            && r[0] == x.kind && r[1] == x.flags && r[2..4] == Le2(x.uses) && r[4..8] == Le4(x.start) && r[8..12] == Le4(x.finish)
            && r[12..16] == Le4(x.sortKey) && r[16..20] == Le4(x.chainKey) && r[20..24] == Le4(x.next) && r[24..28] == Le4(x.startPc)
  {
    hide Le2, Le4;
  }

  lemma BlockRoundTrip(x: Block)
    ensures BlockFrom(EncBlock(x)) == x
  {
    hide EncBlock, Le2, Le4, Read2, Read4;
    var r := EncBlock(x);
    BlockSlices(x);
    HalfFieldReads(r, 2, x.uses);
    FieldReads(r, 4, x.start);
    FieldReads(r, 8, x.finish);
    FieldReads(r, 12, x.sortKey);
    FieldReads(r, 16, x.chainKey);
    FieldReads(r, 20, x.next);
    FieldReads(r, 24, x.startPc);
  }

  lemma InstSlices(x: InstRecord)
    ensures var r := EncInst(x);
            && r[0] == x.cmd && r[2..4] == Le2(x.uses) && r[4..8] == Le4(NO_ID) && r[8..12] == Le4(x.start) && r[12..16] == Le4(x.count)
  {
    hide Le2, Le4;
  }

  /** Last uses are not known yet. */
  lemma InstRoundTrip(x: InstRecord)
    requires x.start < 0x1_0000_0000 && x.count < 0x1_0000_0000
    ensures InstFrom(EncInst(x)) == x && Read4(EncInst(x), 4) == NO_ID
  {
    hide EncInst, Le2, Le4, Read2, Read4;
    var r := EncInst(x);
    InstSlices(x);
    HalfFieldReads(r, 2, x.uses);
    FieldReads(r, 4, NO_ID);
    FieldReads(r, 8, x.start);
    FieldReads(r, 12, x.count);
  }

  lemma OpRoundTrip(x: Op)
    ensures OpFrom(EncOp(x)) == x
  {
    hide Le4, Read4;
    assert EncOp(x)[4..8] == Le4(x.index);
    FieldReads(EncOp(x), 4, x.index);
  }

  lemma MappingRoundTrip(x: Mapping)
    ensures MappingFrom(EncMapping(x)) == x
  {
    hide Le4, Read4;
    assert EncMapping(x)[0..4] == Le4(x.ir) && EncMapping(x)[4..8] == Le4(x.asm);
    FieldReads(EncMapping(x), 0, x.ir);
    FieldReads(EncMapping(x), 4, x.asm);
  }

  /** Integers have at most 64 bits. */
  predicate Wide(x: Const) {
    match x
    case Int(i) => -0x8000_0000 <= i < 0x8000_0000
    case Int64(l) => -0x8000_0000_0000_0000 <= l < 0x8000_0000_0000_0000
    case _ => true
  }

  lemma ConstRoundTrip(x: Const)
    requires Wide(x)
    ensures ConstFrom(EncConst(x)) == Some(x)
  {
    hide Le8, Read8;
    var r := EncConst(x);
    assert r[0] == Kind(x) && r[8..16] == Le8(Payload(x));
    EightReads(r, 8, Payload(x));
  }

  ghost predicate Small(x: FnRecord) {
    && x.id < 0x1_0000_0000 && x.blocks < 0x1_0000_0000 && x.blockCount < 0x1_0000_0000 && x.insts < 0x1_0000_0000
    && x.instCount < 0x1_0000_0000 && x.ops < 0x1_0000_0000 && x.opCount < 0x1_0000_0000 && x.consts < 0x1_0000_0000
    && x.constCount < 0x1_0000_0000 && x.mapping < 0x1_0000_0000 && x.mappingCount < 0x1_0000_0000
  }

  lemma FnSlices(x: FnRecord)
    ensures var r := EncFn(x);
            && r[0..4] == r[4..8] == Le4(x.id) && r[8..12] == Le4(x.entry) && r[12] == (if x.variadic then 1 else 0)
            && r[16..20] == Le4(x.blocks) && r[20..24] == Le4(x.blockCount) && r[24..28] == Le4(x.insts) && r[28..32] == Le4(x.instCount)
            && r[32..36] == Le4(x.ops) && r[36..40] == Le4(x.opCount) && r[40..44] == Le4(x.consts) && r[44..48] == Le4(x.constCount)
            && r[48..52] == Le4(x.mapping) && r[52..56] == Le4(x.mappingCount)
  {
    hide Le4;
  }

  /** A function has the number of its prototype. */
  lemma FnRoundTrip(x: FnRecord)
    requires Small(x)
    ensures FnFrom(EncFn(x)) == x && Read4(EncFn(x), 0) == x.id
  {
    hide EncFn, Le4, Read4;
    var r := EncFn(x);
    FnSlices(x);
    FieldReads(r, 0, x.id);
    FieldReads(r, 4, x.id);
    FieldReads(r, 8, x.entry);
    FieldReads(r, 16, x.blocks);
    FieldReads(r, 20, x.blockCount);
    FieldReads(r, 24, x.insts);
    FieldReads(r, 28, x.instCount);
    FieldReads(r, 32, x.ops);
    FieldReads(r, 36, x.opCount);
    FieldReads(r, 40, x.consts);
    FieldReads(r, 44, x.constCount);
    FieldReads(r, 48, x.mapping);
    FieldReads(r, 52, x.mappingCount);
  }

  // ----- in an image -----

  function RecordOf(b: seq<byte>, ref: Ref, size: nat, i: nat): (r: seq<byte>)
    requires ref.offset + i * ref.recordSize + size <= |b|
    ensures |r| == size
  {
    b[ref.offset + i * ref.recordSize..ref.offset + i * ref.recordSize + size]
  }

  /** Every field of every block, constant, instruction and function is found in the image, at its number
      behind those of the functions before. */
  lemma {:induction false} BlockInImage(b: seq<byte>, at: map<nat, Ref>, fs: seq<Fn>, k: nat, i: nat)
    requires IrStands(b, at, fs) && k < |fs| && i < |fs[k].blocks|
    ensures var n := |All(BlocksOf, fs, k)| + i;
            && at[16].offset + n * at[16].recordSize + 32 <= |b|
            && BlockFrom(RecordOf(b, at[16], 32, n)) == fs[k].blocks[i]
  {
    hide EncFn, EncInst, EncOp, EncConst, Recs, All, AllInsts, FnRecords, Sized, EncBlock, BlockFrom;
    AllAt(BlocksOf, fs, |fs|, k, i);
    RecordStands(b, at[16], EncBlock, 32, All(BlocksOf, fs, |fs|), |All(BlocksOf, fs, k)| + i);
    BlockRoundTrip(fs[k].blocks[i]);
  }

  lemma {:induction false} ConstInImage(b: seq<byte>, at: map<nat, Ref>, fs: seq<Fn>, k: nat, i: nat)
    requires IrStands(b, at, fs) && k < |fs| && i < |fs[k].consts| && Wide(fs[k].consts[i])
    ensures var n := |All(ConstsOf, fs, k)| + i;
            && at[19].offset + n * at[19].recordSize + 16 <= |b|
            && ConstFrom(RecordOf(b, at[19], 16, n)) == Some(fs[k].consts[i])
  {
    hide EncFn, EncInst, EncOp, EncBlock, Recs, All, AllInsts, FnRecords, Sized, EncConst, ConstFrom;
    AllAt(ConstsOf, fs, |fs|, k, i);
    RecordStands(b, at[19], EncConst, 16, All(ConstsOf, fs, |fs|), |All(ConstsOf, fs, k)| + i);
    ConstRoundTrip(fs[k].consts[i]);
  }

  lemma {:induction false} InstInImage(b: seq<byte>, at: map<nat, Ref>, fs: seq<Fn>, k: nat, i: nat)
    requires IrStands(b, at, fs) && k < |fs| && i < |fs[k].insts|
    ensures var n, x := |AllInsts(fs, k)| + i, fs[k].insts[i];
            && at[17].offset + n * at[17].recordSize + 24 <= |b|
            && InstFrom(RecordOf(b, at[17], 24, n)) == InstRecord(x.cmd, x.uses, |All(OpsOf, fs, k)| + |OpsUpTo(fs[k].insts, i)|, |x.ops|)
  {
    hide EncFn, EncConst, EncOp, EncBlock, Recs, All, AllInsts, FnRecords, Sized, EncInst, InstFrom, OpsUpTo;
    AllInstsAt(fs, |fs|, k, i);
    OpsFit(b, at, fs, k, i);
    RecordStands(b, at[17], EncInst, 24, AllInsts(fs, |fs|), |AllInsts(fs, k)| + i);
    InstRoundTrip(AllInsts(fs, |fs|)[|AllInsts(fs, k)| + i]);
  }

  lemma {:induction false} FnInImage(b: seq<byte>, at: map<nat, Ref>, fs: seq<Fn>, k: nat)
    requires IrStands(b, at, fs) && k < |fs| && Small(FnRecordOf(fs, k))
    ensures at[15].offset + k * at[15].recordSize + 64 <= |b| && FnFrom(RecordOf(b, at[15], 64, k)) == FnRecordOf(fs, k)
  {
    hide EncFn, EncConst, EncOp, EncBlock, EncInst, Recs, All, AllInsts, FnRecords, Sized, FnFrom, OpsUpTo;
    RecordStands(b, at[15], EncFn, 64, FnRecords(fs, |fs|), k);
    FnRoundTrip(FnRecordOf(fs, k));
  }
}
