/** Reading the IR functions of a snapshot image, and the round trip: what the walk visits is what was written. */
module SnapshotReader {
  import opened Wrappers
  import opened Leb128
  import opened WireBytes
  import opened StringTable
  import opened SnapshotImage
  import opened SnapshotIr

  // ----- what a walk visits -----

  /** A byte outside the image reads as nothing. */
  datatype ConstView = ConstView(kind: Option<byte>, bits: nat)
  datatype OpView = OpView(kind: Option<byte>, value: nat, constant: Option<ConstView>)

  datatype Visit =
    | BlockSeen(fn: nat, block: nat, kind: Option<byte>)
    | OpSeen(fn: nat, inst: nat, op: nat, view: OpView)
    | InstSeen(fn: nat, inst: nat, cmd: Option<byte>, ops: seq<OpView>)

  const CONSTANT: byte := 2

  /** Operands that name constants name some of their own function. */
  ghost predicate Closed(f: Fn) {
    forall i :: 0 <= i < |f.insts| ==> ClosedInst(f, f.insts[i])
  }

  ghost predicate ClosedInst(f: Fn, x: Inst) {
    forall j :: 0 <= j < |x.ops| ==> ClosedOp(f, x.ops[j])
  }

  predicate ClosedOp(f: Fn, op: Op) {
    op.kind == CONSTANT ==> op.index < |f.consts|
  }

  function View(f: Fn, op: Op): OpView {
    OpView(Some(op.kind), op.index,
           if op.kind == CONSTANT && op.index < |f.consts|
           then Some(ConstView(Some(Kind(f.consts[op.index])), Payload(f.consts[op.index]))) else None)
  }

  function Views(f: Fn, ops: seq<Op>, n: nat): (r: seq<OpView>)
    requires n <= |ops|
    ensures |r| == n
  {
    if n == 0 then [] else Views(f, ops, n - 1) + [View(f, ops[n - 1])]
  }

  function BlockVisits(f: Fn, k: nat, n: nat): seq<Visit>
    requires n <= |f.blocks|
  {
    if n == 0 then [] else BlockVisits(f, k, n - 1) + [BlockSeen(k, n - 1, Some(f.blocks[n - 1].kind))]
  }

  function OpVisits(f: Fn, k: nat, i: nat, ops: seq<Op>, n: nat): seq<Visit>
    requires n <= |ops|
  {
    if n == 0 then [] else OpVisits(f, k, i, ops, n - 1) + [OpSeen(k, i, n - 1, View(f, ops[n - 1]))]
  }

  /** Operands first, then their instruction. */
  function InstVisit(f: Fn, k: nat, i: nat): seq<Visit>
    requires i < |f.insts|
  {
    var x := f.insts[i];
    OpVisits(f, k, i, x.ops, |x.ops|) + [InstSeen(k, i, Some(x.cmd), Views(f, x.ops, |x.ops|))]
  }

  function InstVisits(f: Fn, k: nat, n: nat): seq<Visit>
    requires n <= |f.insts|
  {
    if n == 0 then [] else InstVisits(f, k, n - 1) + InstVisit(f, k, n - 1)
  }

  /** Everything of the first `n` functions, in order. */
  function Visits(fs: seq<Fn>, n: nat): seq<Visit>
    requires n <= |fs|
  {
    if n == 0 then []
    else Visits(fs, n - 1) + (BlockVisits(fs[n - 1], n - 1, |fs[n - 1].blocks|) + InstVisits(fs[n - 1], n - 1, |fs[n - 1].insts|))
  }

  // ----- records in the image -----

  /** Records of a type stand where the directory says. */
  ghost predicate Lies<T(!new)>(b: seq<byte>, ref: Ref, enc: T -> seq<byte>, size: nat, xs: seq<T>) {
    ref.recordSize == size && Sized(enc, size) && |b| <= MAX_BYTES && Stands(b, ref.offset, Recs(enc, xs))
  }

  /** The image holds the records of the functions. */
  ghost predicate IrStands(b: seq<byte>, at: map<nat, Ref>, fs: seq<Fn>) {
    && 15 in at && 16 in at && 17 in at && 18 in at && 19 in at && at[15].count == |fs|
    && Lies(b, at[15], EncFn, 64, FnRecords(fs, |fs|)) && Lies(b, at[16], EncBlock, 32, All(BlocksOf, fs, |fs|))
    && Lies(b, at[17], EncInst, 24, AllInsts(fs, |fs|)) && Lies(b, at[18], EncOp, 8, All(OpsOf, fs, |fs|))
    && Lies(b, at[19], EncConst, 16, All(ConstsOf, fs, |fs|))
  }

  lemma SliceOfSlice(b: seq<byte>, at: nat, size: nat, k: nat, n: nat)
    requires at + size <= |b| && k + n <= size
    ensures b[at..at + size][k..k + n] == b[at + k..at + k + n]
  {
    var part, same := b[at..at + size][k..k + n], b[at + k..at + k + n];
    assert forall j :: 0 <= j < n ==> part[j] == same[j];
  }

  /** A part of what stands there stands there too. */
  lemma PartStands(b: seq<byte>, at: nat, chunk: seq<byte>, k: nat, part: seq<byte>)
    requires Stands(b, at, chunk) && k + |part| <= |chunk| && chunk[k..k + |part|] == part
    ensures Stands(b, at + k, part)
  {
    SliceOfSlice(b, at, |chunk|, k, |part|);
    assert b[at + k..at + k + |part|] == part;
    assert (at + k) + |part| <= |b|;
  }

  /** The image holds a record at its number. */
  lemma RecordStands<T(!new)>(b: seq<byte>, ref: Ref, enc: T -> seq<byte>, size: nat, xs: seq<T>, i: nat)
    requires Lies(b, ref, enc, size, xs) && i < |xs|
    ensures Stands(b, ref.offset + i * ref.recordSize, enc(xs[i]))
  {
    hide Recs, Stands;
    RecAt(enc, size, xs, i);
    PartStands(b, ref.offset, Recs(enc, xs), size * i, enc(xs[i]));
    assert size * i == i * ref.recordSize;
  }

  /** All numbers of records fit into 32 bits. */
  lemma NumberFits<T(!new)>(b: seq<byte>, ref: Ref, enc: T -> seq<byte>, size: nat, xs: seq<T>)
    requires Lies(b, ref, enc, size, xs) && size > 0
    ensures |xs| < 0x1_0000_0000
  {
    RecsSize(enc, size, xs);
    ProductFits(|xs|, size);
    assert |xs| * size == size * |xs|;
  }

  lemma NumberAt(b: seq<byte>, at: nat, chunk: seq<byte>, k: nat, v: nat)
    requires Stands(b, at, chunk) && k + 4 <= |chunk| && chunk[k..k + 4] == Le4(v) && v < 0x1_0000_0000
    ensures at + k + 4 <= |b| && Read4(b, at + k) == v
  {
    PartStands(b, at, chunk, k, Le4(v));
    NumReads(b, at + k, v);
  }

  lemma FnFields(x: FnRecord)
    ensures var e := EncFn(x);
            && e[16..20] == Le4(x.blocks) && e[20..24] == Le4(x.blockCount) && e[24..28] == Le4(x.insts) && e[28..32] == Le4(x.instCount)
            && e[40..44] == Le4(x.consts)
  {
    hide Le4;
  }

  lemma InstFields(x: InstRecord)
    ensures var e := EncInst(x);
            e[0] == x.cmd && e[8..12] == Le4(x.start) && e[12..16] == Le4(x.count)
  {
    hide Le4;
  }

  lemma OpFields(x: Op)
    ensures EncOp(x)[0] == x.kind && EncOp(x)[4..8] == Le4(x.index)
  {
    hide Le4;
  }

  lemma ConstFields(x: Const)
    ensures EncConst(x)[0] == Kind(x) && EncConst(x)[8..16] == Le8(Payload(x))
  {
    hide Le8;
  }

  // ----- reading one record -----

  function ByteAt(b: seq<byte>, at: nat): Option<byte> {
    if at < |b| then Some(b[at]) else None
  }

  lemma FirstByte(b: seq<byte>, at: nat, chunk: seq<byte>)
    requires Stands(b, at, chunk) && chunk != []
    ensures ByteAt(b, at) == Some(chunk[0])
  {
    assert b[at..at + |chunk|][0] == chunk[0];
  }

  /** The numbers the walk reads of function `k`. */
  lemma {:induction false} FnReads(b: seq<byte>, at: map<nat, Ref>, fs: seq<Fn>, k: nat)
    requires IrStands(b, at, fs) && k < |fs|
    ensures var r := at[15].offset + k * at[15].recordSize;
            && r + 44 <= |b| && Read4(b, r + 16) == |All(BlocksOf, fs, k)| && Read4(b, r + 20) == |fs[k].blocks|
            && Read4(b, r + 24) == |AllInsts(fs, k)| && Read4(b, r + 28) == |fs[k].insts| && Read4(b, r + 40) == |All(ConstsOf, fs, k)|
  {
    hide EncFn, EncBlock, EncInst, EncOp, EncConst, Recs, All, AllInsts, FnRecords, Le4, Read4, Sized;
    var x, r := FnRecordOf(fs, k), at[15].offset + k * at[15].recordSize;
    RecordStands(b, at[15], EncFn, 64, FnRecords(fs, |fs|), k);
    Totals(b, at, fs, k);
    FnFields(x);
    NumberAt(b, r, EncFn(x), 16, x.blocks);
    NumberAt(b, r, EncFn(x), 20, x.blockCount);
    NumberAt(b, r, EncFn(x), 24, x.insts);
    NumberAt(b, r, EncFn(x), 28, x.instCount);
    NumberAt(b, r, EncFn(x), 40, x.consts);
  }

  lemma {:induction false} AllGrows<T>(get: Fn -> seq<T>, fs: seq<Fn>, k: nat, n: nat)
    requires k < n <= |fs|
    ensures |All(get, fs, k)| + |get(fs[k])| <= |All(get, fs, n)|
    decreases n
  {
    if k < n - 1 {
      AllGrows(get, fs, k, n - 1);
    }
  }

  lemma {:induction false} AllInstsGrows(fs: seq<Fn>, k: nat, n: nat)
    requires k < n <= |fs|
    ensures |AllInsts(fs, k)| + |fs[k].insts| <= |AllInsts(fs, n)|
    decreases n
  {
    hide All, InstRecords;
    var last := InstRecords(|All(OpsOf, fs, n - 1)|, fs[n - 1].insts, |fs[n - 1].insts|);
    assert AllInsts(fs, n) == AllInsts(fs, n - 1) + last;
    if k < n - 1 {
      AllInstsGrows(fs, k, n - 1);
    }
  }

  lemma {:induction false} Totals(b: seq<byte>, at: map<nat, Ref>, fs: seq<Fn>, k: nat)
    requires IrStands(b, at, fs) && k < |fs|
    ensures |All(BlocksOf, fs, k)| + |fs[k].blocks| < 0x1_0000_0000 && |AllInsts(fs, k)| + |fs[k].insts| < 0x1_0000_0000
    ensures |All(ConstsOf, fs, k)| + |fs[k].consts| < 0x1_0000_0000 && |All(OpsOf, fs, |fs|)| < 0x1_0000_0000
  {
    hide EncFn, EncBlock, EncInst, EncOp, EncConst, Recs, All, AllInsts, FnRecords, Sized;
    NumberFits(b, at[16], EncBlock, 32, All(BlocksOf, fs, |fs|));
    NumberFits(b, at[17], EncInst, 24, AllInsts(fs, |fs|));
    NumberFits(b, at[18], EncOp, 8, All(OpsOf, fs, |fs|));
    NumberFits(b, at[19], EncConst, 16, All(ConstsOf, fs, |fs|));
    AllGrows(BlocksOf, fs, k, |fs|);
    AllInstsGrows(fs, k, |fs|);
    AllGrows(ConstsOf, fs, k, |fs|);
  }

  lemma {:induction false} BlockReads(b: seq<byte>, at: map<nat, Ref>, fs: seq<Fn>, k: nat, i: nat)
    requires IrStands(b, at, fs) && k < |fs| && i < |fs[k].blocks|
    ensures ByteAt(b, at[16].offset + (|All(BlocksOf, fs, k)| + i) * at[16].recordSize) == Some(fs[k].blocks[i].kind)
  {
    hide EncFn, EncInst, EncOp, EncConst, Recs, All, AllInsts, FnRecords, Sized, Stands;
    AllAt(BlocksOf, fs, |fs|, k, i);
    RecordStands(b, at[16], EncBlock, 32, All(BlocksOf, fs, |fs|), |All(BlocksOf, fs, k)| + i);
    FirstByte(b, at[16].offset + (|All(BlocksOf, fs, k)| + i) * at[16].recordSize, EncBlock(fs[k].blocks[i]));
  }

  lemma {:induction false} InstReads(b: seq<byte>, at: map<nat, Ref>, fs: seq<Fn>, k: nat, i: nat)
    requires IrStands(b, at, fs) && k < |fs| && i < |fs[k].insts|
    ensures var r, x := at[17].offset + (|AllInsts(fs, k)| + i) * at[17].recordSize, fs[k].insts[i];
            && r + 16 <= |b| && ByteAt(b, r) == Some(x.cmd)
            && Read4(b, r + 8) == |All(OpsOf, fs, k)| + |OpsUpTo(fs[k].insts, i)| && Read4(b, r + 12) == |x.ops|
  {
    hide EncFn, EncBlock, EncInst, EncOp, EncConst, Recs, All, AllInsts, FnRecords, Sized, Stands, Le4, Read4, OpsUpTo;
    AllInstsAt(fs, |fs|, k, i);
    var x, r := AllInsts(fs, |fs|)[|AllInsts(fs, k)| + i], at[17].offset + (|AllInsts(fs, k)| + i) * at[17].recordSize;
    RecordStands(b, at[17], EncInst, 24, AllInsts(fs, |fs|), |AllInsts(fs, k)| + i);
    InstFields(x);
    FirstByte(b, r, EncInst(x));
    OpsFit(b, at, fs, k, i);
    NumberAt(b, r, EncInst(x), 8, x.start);
    NumberAt(b, r, EncInst(x), 12, x.count);
  }

  lemma {:induction false} OpsGrow(insts: seq<Inst>, i: nat, n: nat)
    requires i < n <= |insts|
    ensures |OpsUpTo(insts, i)| + |insts[i].ops| <= |OpsUpTo(insts, n)|
    decreases n
  {
    if i < n - 1 {
      OpsGrow(insts, i, n - 1);
    }
  }

  lemma {:induction false} OpsFit(b: seq<byte>, at: map<nat, Ref>, fs: seq<Fn>, k: nat, i: nat)
    requires IrStands(b, at, fs) && k < |fs| && i < |fs[k].insts|
    ensures |All(OpsOf, fs, k)| + |OpsUpTo(fs[k].insts, i)| + |fs[k].insts[i].ops| < 0x1_0000_0000
  {
    hide EncFn, EncBlock, EncInst, EncOp, EncConst, Recs, All, AllInsts, FnRecords, Sized, Stands, OpsUpTo;
    Totals(b, at, fs, k);
    AllGrows(OpsOf, fs, k, |fs|);
    OpsGrow(fs[k].insts, i, |fs[k].insts|);
  }

  lemma {:induction false} OpReads(b: seq<byte>, at: map<nat, Ref>, fs: seq<Fn>, k: nat, i: nat, j: nat)
    requires IrStands(b, at, fs) && k < |fs| && i < |fs[k].insts| && j < |fs[k].insts[i].ops|
    ensures var r, x := at[18].offset + (|All(OpsOf, fs, k)| + |OpsUpTo(fs[k].insts, i)| + j) * at[18].recordSize, fs[k].insts[i].ops[j];
            r + 8 <= |b| && ByteAt(b, r) == Some(x.kind) && Read4(b, r + 4) == x.index
  {
    hide EncFn, EncBlock, EncInst, EncOp, EncConst, Recs, All, AllInsts, FnRecords, Sized, Stands, Le4, Read4, OpsUpTo;
    var insts, at18 := fs[k].insts, |All(OpsOf, fs, k)| + |OpsUpTo(fs[k].insts, i)| + j;
    OpsAt(insts, |insts|, i, j);
    AllAt(OpsOf, fs, |fs|, k, |OpsUpTo(insts, i)| + j);
    var x, r := insts[i].ops[j], at[18].offset + at18 * at[18].recordSize;
    RecordStands(b, at[18], EncOp, 8, All(OpsOf, fs, |fs|), at18);
    OpFields(x);
    FirstByte(b, r, EncOp(x));
    NumberAt(b, r, EncOp(x), 4, x.index);
  }

  lemma {:induction false} ConstReads(b: seq<byte>, at: map<nat, Ref>, fs: seq<Fn>, k: nat, i: nat)
    requires IrStands(b, at, fs) && k < |fs| && i < |fs[k].consts|
    ensures var r, x := at[19].offset + (|All(ConstsOf, fs, k)| + i) * at[19].recordSize, fs[k].consts[i];
            r + 16 <= |b| && ByteAt(b, r) == Some(Kind(x)) && Read8(b, r + 8) == Payload(x)
  {
    hide EncFn, EncBlock, EncInst, EncOp, EncConst, Recs, All, AllInsts, FnRecords, Sized, Le8, Read8;
    AllAt(ConstsOf, fs, |fs|, k, i);
    var x, r := fs[k].consts[i], at[19].offset + (|All(ConstsOf, fs, k)| + i) * at[19].recordSize;
    RecordStands(b, at[19], EncConst, 16, All(ConstsOf, fs, |fs|), |All(ConstsOf, fs, k)| + i);
    ConstFields(x);
    FirstByte(b, r, EncConst(x));
    PartStands(b, r, EncConst(x), 8, Le8(Payload(x)));
    EightReads(b, r + 8, Payload(x));
  }

  // ----- walking -----

  /** The operand whose record begins at `at`; none when it reaches beyond the image. */
  function OpAt(b: seq<byte>, at: nat, constants: Ref, firstConst: nat): Option<OpView> {
    if at + 8 > |b| then None
    else
      var value := Read4(b, at + 4);
      var constant := constants.offset + (firstConst + value) * constants.recordSize;
      if b[at] != CONSTANT then Some(OpView(Some(b[at]), value, None))
      else if constant + 16 > |b| then None
      else Some(OpView(Some(b[at]), value, Some(ConstView(ByteAt(b, constant), Read8(b, constant + 8)))))
  }

  ghost predicate AllClosed(fs: seq<Fn>) {
    forall k :: 0 <= k < |fs| ==> Closed(fs[k])
  }

  lemma {:induction false} OpViewed(b: seq<byte>, at: map<nat, Ref>, fs: seq<Fn>, k: nat, i: nat, j: nat)
    requires IrStands(b, at, fs) && AllClosed(fs) && k < |fs| && i < |fs[k].insts| && j < |fs[k].insts[i].ops|
    ensures var r := at[18].offset + (|All(OpsOf, fs, k)| + |OpsUpTo(fs[k].insts, i)| + j) * at[18].recordSize;
            OpAt(b, r, at[19], |All(ConstsOf, fs, k)|) == Some(View(fs[k], fs[k].insts[i].ops[j]))
  {
    hide EncFn, EncBlock, EncInst, EncOp, EncConst, Recs, All, AllInsts, FnRecords, Lies, Read4, Read8, OpsUpTo;
    OpReads(b, at, fs, k, i, j);
    var op := fs[k].insts[i].ops[j];
    assert Closed(fs[k]) && ClosedInst(fs[k], fs[k].insts[i]) && ClosedOp(fs[k], op);
    if op.kind == CONSTANT {
      ConstReads(b, at, fs, k, op.index);
    }
  }

  /** The blocks of a function are the records from number `first` on. */
  ghost predicate BlocksAre(b: seq<byte>, blocks: Ref, first: nat, f: Fn) {
    forall i :: 0 <= i < |f.blocks| ==> ByteAt(b, blocks.offset + (first + i) * blocks.recordSize) == Some(f.blocks[i].kind)
  }

  ghost predicate OpsAre(b: seq<byte>, operands: Ref, constants: Ref, first: nat, firstConst: nat, f: Fn, ops: seq<Op>) {
    forall j :: 0 <= j < |ops| ==>
      OpAt(b, operands.offset + (first + j) * operands.recordSize, constants, firstConst) == Some(View(f, ops[j]))
  }

  ghost predicate InstIs(b: seq<byte>, operands: Ref, constants: Ref, firstConst: nat, f: Fn, r: nat, x: Inst) {
    && r + 16 <= |b| && b[r] == x.cmd && Read4(b, r + 12) == |x.ops|
    && OpsAre(b, operands, constants, Read4(b, r + 8), firstConst, f, x.ops)
  }

  ghost predicate InstsAre(b: seq<byte>, instructions: Ref, operands: Ref, constants: Ref, first: nat, firstConst: nat, f: Fn) {
    forall i :: 0 <= i < |f.insts| ==>
      InstIs(b, operands, constants, firstConst, f, instructions.offset + (first + i) * instructions.recordSize, f.insts[i])
  }

  ghost predicate FnIs(b: seq<byte>, at: map<nat, Ref>, f: Fn, r: nat) {
    && 16 in at && 17 in at && 18 in at && 19 in at
    && r + 44 <= |b| && Read4(b, r + 20) == |f.blocks| && Read4(b, r + 28) == |f.insts|
    && BlocksAre(b, at[16], Read4(b, r + 16), f)
    && InstsAre(b, at[17], at[18], at[19], Read4(b, r + 24), Read4(b, r + 40), f)
  }

  ghost predicate FnsAre(b: seq<byte>, at: map<nat, Ref>, fs: seq<Fn>) {
    && 15 in at && 16 in at && 17 in at && 18 in at && 19 in at && at[15].count == |fs|
    && forall k :: 0 <= k < |fs| ==> FnIs(b, at, fs[k], at[15].offset + k * at[15].recordSize)
  }

  lemma {:induction false} InstStands(b: seq<byte>, at: map<nat, Ref>, fs: seq<Fn>, k: nat, i: nat)
    requires IrStands(b, at, fs) && AllClosed(fs) && k < |fs| && i < |fs[k].insts|
    ensures InstIs(b, at[18], at[19], |All(ConstsOf, fs, k)|, fs[k], at[17].offset + (|AllInsts(fs, k)| + i) * at[17].recordSize, fs[k].insts[i])
  {
    hide EncFn, EncBlock, EncInst, EncOp, EncConst, Recs, All, AllInsts, FnRecords, Lies, Read4, OpsUpTo, AllClosed, OpAt, View;
    InstReads(b, at, fs, k, i);
    var x, first := fs[k].insts[i], |All(OpsOf, fs, k)| + |OpsUpTo(fs[k].insts, i)|;
    forall j | 0 <= j < |x.ops|
      ensures OpAt(b, at[18].offset + (first + j) * at[18].recordSize, at[19], |All(ConstsOf, fs, k)|) == Some(View(fs[k], x.ops[j]))
    {
      OpViewed(b, at, fs, k, i, j);
    }
  }

  lemma {:induction false} FnStands(b: seq<byte>, at: map<nat, Ref>, fs: seq<Fn>, k: nat)
    requires IrStands(b, at, fs) && AllClosed(fs) && k < |fs|
    ensures FnIs(b, at, fs[k], at[15].offset + k * at[15].recordSize)
  {
    hide EncFn, EncBlock, EncInst, EncOp, EncConst, Recs, All, AllInsts, FnRecords, Lies, Read4, AllClosed, InstIs, ByteAt;
    FnReads(b, at, fs, k);
    forall i | 0 <= i < |fs[k].blocks|
      ensures ByteAt(b, at[16].offset + (|All(BlocksOf, fs, k)| + i) * at[16].recordSize) == Some(fs[k].blocks[i].kind)
    {
      BlockReads(b, at, fs, k, i);
    }
    forall i | 0 <= i < |fs[k].insts|
      ensures InstIs(b, at[18], at[19], |All(ConstsOf, fs, k)|, fs[k], at[17].offset + (|AllInsts(fs, k)| + i) * at[17].recordSize, fs[k].insts[i])
    {
      InstStands(b, at, fs, k, i);
    }
  }

  /** Records that stand in the image read as the functions they were written for. */
  lemma {:induction false} FunctionsStand(b: seq<byte>, at: map<nat, Ref>, fs: seq<Fn>)
    requires IrStands(b, at, fs) && AllClosed(fs)
    ensures FnsAre(b, at, fs)
  {
    hide FnIs, AllClosed, Lies, FnRecords, All, AllInsts;
    forall k | 0 <= k < |fs| ensures FnIs(b, at, fs[k], at[15].offset + k * at[15].recordSize) {
      FnStands(b, at, fs, k);
    }
  }

  method WalkBlocks(b: seq<byte>, blocks: Ref, k: nat, first: nat, count: nat, ghost f: Fn) returns (seen: seq<Visit>)
    ensures BlocksAre(b, blocks, first, f) && count == |f.blocks| ==> seen == BlockVisits(f, k, count)
  {
    seen := [];
    for i := 0 to count
      invariant BlocksAre(b, blocks, first, f) && count == |f.blocks| ==> seen == BlockVisits(f, k, i)
    {
      seen := seen + [BlockSeen(k, i, ByteAt(b, blocks.offset + (first + i) * blocks.recordSize))];
    }
  }

  method WalkOps(b: seq<byte>, operands: Ref, constants: Ref, k: nat, i: nat, first: nat, count: nat, firstConst: nat,
                 ghost f: Fn, ghost ops: seq<Op>)
    returns (views: seq<OpView>, seen: Option<seq<Visit>>)
    ensures OpsAre(b, operands, constants, first, firstConst, f, ops) && count == |ops| ==>
              views == Views(f, ops, count) && seen == Some(OpVisits(f, k, i, ops, count))
  {
    hide OpAt, View;
    views := [];
    var passed: seq<Visit> := [];
    for j := 0 to count
      invariant OpsAre(b, operands, constants, first, firstConst, f, ops) && count == |ops| ==>
                  views == Views(f, ops, j) && passed == OpVisits(f, k, i, ops, j)
    {
      var view := OpAt(b, operands.offset + (first + j) * operands.recordSize, constants, firstConst);
      assert OpsAre(b, operands, constants, first, firstConst, f, ops) && count == |ops| ==> view == Some(View(f, ops[j]));
      if view.None? {
        return views, None;
      }
      views, passed := views + [view.value], passed + [OpSeen(k, i, j, view.value)];
    }
    return views, Some(passed);
  }

  method WalkInsts(b: seq<byte>, instructions: Ref, operands: Ref, constants: Ref, k: nat, first: nat, count: nat, firstConst: nat,
                   ghost f: Fn)
    returns (seen: Option<seq<Visit>>)
    ensures InstsAre(b, instructions, operands, constants, first, firstConst, f) && count == |f.insts| ==>
              seen == Some(InstVisits(f, k, count))
  {
    hide Read4, OpsAre, InstsAre, InstVisit;
    ghost var good := InstsAre(b, instructions, operands, constants, first, firstConst, f) && count == |f.insts|;
    var passed: seq<Visit> := [];
    for i := 0 to count
      invariant good ==> passed == InstVisits(f, k, i)
    {
      var r := instructions.offset + (first + i) * instructions.recordSize;
      if good {
        InstAgain(b, instructions, operands, constants, first, firstConst, f, i);
      }
      if r + 16 > |b| {
        return None;
      }
      var views, ops := WalkOps(b, operands, constants, k, i, Read4(b, r + 8), Read4(b, r + 12), firstConst, f, if good then f.insts[i].ops else []);
      if ops.None? {
        return None;
      }
      if good {
        InstSeenAs(f, k, i);
      }
      passed := passed + (ops.value + [InstSeen(k, i, ByteAt(b, r), views)]);
    }
    return Some(passed);
  }

  lemma InstAgain(b: seq<byte>, instructions: Ref, operands: Ref, constants: Ref, first: nat, firstConst: nat, f: Fn, i: nat)
    requires InstsAre(b, instructions, operands, constants, first, firstConst, f) && i < |f.insts|
    ensures InstIs(b, operands, constants, firstConst, f, instructions.offset + (first + i) * instructions.recordSize, f.insts[i])
  {
  }

  lemma InstSeenAs(f: Fn, k: nat, i: nat)
    requires i < |f.insts|
    ensures var x := f.insts[i];
            InstVisit(f, k, i) == OpVisits(f, k, i, x.ops, |x.ops|) + [InstSeen(k, i, Some(x.cmd), Views(f, x.ops, |x.ops|))]
  {
  }

  /** The walk over the functions of an image: without one of the sections, or when a record that is read as a
      number lies outside the image, there is none. */
  method Walk(b: seq<byte>, parsed: Parsed, ghost fs: seq<Fn>) returns (seen: Option<seq<Visit>>)
    ensures IrStands(b, parsed.sections, fs) && AllClosed(fs) ==> seen == Some(Visits(fs, |fs|))
  {
    hide Read4, IrStands, AllClosed, BlocksAre, InstsAre, BlockVisits, InstVisits;
    var at := parsed.sections;
    ghost var good := IrStands(b, at, fs) && AllClosed(fs);
    if good {
      FunctionsStand(b, at, fs);
    }
    if 15 !in at || 16 !in at || 17 !in at || 18 !in at || 19 !in at {
      return None;
    }
    var passed: seq<Visit> := [];
    for k := 0 to at[15].count
      invariant good ==> passed == Visits(fs, k)
    {
      var r := at[15].offset + k * at[15].recordSize;
      if good {
        assert FnIs(b, at, fs[k], r);
      }
      if r + 44 > |b| {
        return None;
      }
      ghost var f := if good then fs[k] else Fn(0, false, [], [], [], []);
      var blocks := WalkBlocks(b, at[16], k, Read4(b, r + 16), Read4(b, r + 20), f);
      var insts := WalkInsts(b, at[17], at[18], at[19], k, Read4(b, r + 24), Read4(b, r + 28), Read4(b, r + 40), f);
      if insts.None? {
        return None;
      }
      passed := passed + (blocks + insts.value);
    }
    return Some(passed);
  }
}
