/** A whole snapshot: the image the frontend writes of a module, and what a reader of that image gets back. */
module FrontendSnapshot {
  import opened Wrappers
  import opened Leb128
  import opened WireBytes
  import opened StringTable
  import opened SnapshotImage
  import opened SnapshotIr
  import opened SnapshotReader

  const MAX_PROTOS := 4096
  const KINDS := 21
  const SIZES: seq<nat> := [16, 1, 128, 4, 4, 40, 8, 20, 4, 1, 1, 4, 1, 12, 64, 32, 24, 8, 16, 8, 1]

  /** One section of every kind, with the record size of its kind. */
  function Sections(contents: seq<seq<byte>>): (r: seq<Section>)
    requires |contents| == KINDS
    ensures |r| == KINDS && forall i :: 0 <= i < KINDS ==> r[i] == Section(i + 1, SIZES[i], contents[i])
  {
    seq(KINDS, i requires 0 <= i < KINDS => Section(i + 1, SIZES[i], contents[i]))
  }

  /** Strings, the twelve sections of prototype data, the IR functions and the bytecode. */
  ghost function Contents(values: seq<seq<byte>>, metadata: seq<seq<byte>>, fs: seq<Fn>, bytecode: seq<byte>): (r: seq<seq<byte>>)
    requires |metadata| == 12
    ensures |r| == KINDS
  {
    [Records(values), Bytes(values)] + metadata
    + [Recs(EncFn, FnRecords(fs, |fs|)), Recs(EncBlock, All(BlocksOf, fs, |fs|)), Recs(EncInst, AllInsts(fs, |fs|)),
       Recs(EncOp, All(OpsOf, fs, |fs|)), Recs(EncConst, All(ConstsOf, fs, |fs|)), Recs(EncMapping, All(MappingOf, fs, |fs|)), bytecode]
  }

  /** The image of a module. */
  ghost predicate Snapshot(b: seq<byte>, values: seq<seq<byte>>, metadata: seq<seq<byte>>, fs: seq<Fn>, bytecode: seq<byte>) {
    && |metadata| == 12 && |fs| <= MAX_PROTOS
    && ImageOf(b, Sections(Contents(values, metadata, fs, bytecode)), |fs|, |values|)
  }

  lemma SizesPositive()
    ensures forall i :: 0 <= i < KINDS ==> 0 < SIZES[i] <= 128
  {
  }

  /** Refused when a string did not fit, an IR limit is passed, a record is incomplete or the image would be too
      long; otherwise the image of the module. */
  method BuildSnapshot(strings: Strings, metadata: seq<seq<byte>>, built: seq<Fn>, fs: seq<Fn>, bytecode: seq<byte>, digests: seq<byte>)
    returns (image: Option<seq<byte>>)
    requires strings.Valid() && |metadata| == 12 && |built| == |fs| <= MAX_PROTOS && |digests| == 160
    ensures var sections := Sections(Contents(strings.values, metadata, fs, bytecode));
            image.Some? <==> !strings.failed && WithinLimits(built) && Complete(sections) && OffsetOf(sections, KINDS) <= MAX_BYTES
    ensures image.Some? ==> Snapshot(image.value, strings.values, metadata, fs, bytecode) && Stands(image.value, 24, digests)
  {
    hide Recs, All, AllInsts, FnRecords, Records, Bytes, WithinLimits, ImageOf, Complete, OffsetOf, Stands;
    if strings.failed {
      return None;
    }
    var ir := new IrSections();
    var ok := ir.SerializeIr(built, fs);
    if !ok {
      return None;
    }
    var contents := [strings.records, strings.bytes] + metadata
                    + [ir.functions, ir.blocks, ir.instructions, ir.operands, ir.constants, ir.mapping, bytecode];
    assert contents == Contents(strings.values, metadata, fs, bytecode);
    SizesPositive();
    image := BuildWireImage(Sections(contents), |fs|, |strings.values|, digests);
  }

  lemma {:induction false} IrContents(values: seq<seq<byte>>, metadata: seq<seq<byte>>, fs: seq<Fn>, bytecode: seq<byte>)
    requires |metadata| == 12
    ensures var c := Contents(values, metadata, fs, bytecode);
            && c[14] == Recs(EncFn, FnRecords(fs, |fs|)) && c[15] == Recs(EncBlock, All(BlocksOf, fs, |fs|))
            && c[16] == Recs(EncInst, AllInsts(fs, |fs|)) && c[17] == Recs(EncOp, All(OpsOf, fs, |fs|))
            && c[18] == Recs(EncConst, All(ConstsOf, fs, |fs|))
  {
    hide Recs, All, AllInsts, FnRecords, Records, Bytes;
  }

  /** Sections have the widths and the kinds of the format. */
  lemma SectionsTyped(contents: seq<seq<byte>>, protos: nat)
    requires |contents| == KINDS && protos <= MAX_PROTOS
    ensures Typed(Sections(contents), protos)
  {
    SizesPositive();
  }

  /** What the directory says of each kind. */
  ghost predicate Found(at: map<nat, Ref>, sections: seq<Section>) {
    forall i :: 0 <= i < |sections| ==>
      sections[i].recordSize > 0 && sections[i].kind in at && at[sections[i].kind] == RefOf(sections, i)
  }

  lemma LiesThere<T(!new)>(b: seq<byte>, sections: seq<Section>, protos: nat, strings: nat, at: map<nat, Ref>, i: nat,
                           enc: T -> seq<byte>, size: nat, xs: seq<T>)
    requires ImageOf(b, sections, protos, strings) && Found(at, sections) && i < |sections|
    requires sections[i].recordSize == size && sections[i].bytes == Recs(enc, xs) && Sized(enc, size)
    ensures sections[i].kind in at && Lies(b, at[sections[i].kind], enc, size, xs)
  {
    hide Recs, Stands, OffsetOf, EntryStands, Sized;
    assert SectionStands(b, sections, i);
  }

  lemma {:induction false} FnCount(sections: seq<Section>, at: map<nat, Ref>, fs: seq<Fn>)
    requires Found(at, sections) && |sections| == KINDS && sections[14].kind == 15 && sections[14].recordSize == 64
    requires sections[14].bytes == Recs(EncFn, FnRecords(fs, |fs|)) && Sized(EncFn, 64)
    ensures 15 in at && at[15].count == |fs|
  {
    hide Recs, OffsetOf, Sized;
    RecsSize(EncFn, 64, FnRecords(fs, |fs|));
    assert at[sections[14].kind] == RefOf(sections, 14);
  }

  /** The image of a module holds the records of its functions where the directory says. */
  lemma {:induction false} SnapshotHoldsIr(b: seq<byte>, values: seq<seq<byte>>, metadata: seq<seq<byte>>, fs: seq<Fn>, bytecode: seq<byte>, at: map<nat, Ref>)
    requires Snapshot(b, values, metadata, fs, bytecode) && Found(at, Sections(Contents(values, metadata, fs, bytecode)))
    ensures IrStands(b, at, fs)
  {
    hide ImageOf, Found, Lies, Sized, Recs, All, AllInsts, Contents, Records, Bytes;
    var sections := Sections(Contents(values, metadata, fs, bytecode));
    IrContents(values, metadata, fs, bytecode);
    AllSized();
    FnCount(sections, at, fs);
    LiesThere(b, sections, |fs|, |values|, at, 14, EncFn, 64, FnRecords(fs, |fs|));
    LiesThere(b, sections, |fs|, |values|, at, 15, EncBlock, 32, All(BlocksOf, fs, |fs|));
    LiesThere(b, sections, |fs|, |values|, at, 16, EncInst, 24, AllInsts(fs, |fs|));
    LiesThere(b, sections, |fs|, |values|, at, 17, EncOp, 8, All(OpsOf, fs, |fs|));
    LiesThere(b, sections, |fs|, |values|, at, 18, EncConst, 16, All(ConstsOf, fs, |fs|));
  }

  /** Reading a snapshot: of the image of a module, the walk sees every block, instruction and operand of every
      function as it was written, constants included, in order. */
  method ReadSnapshot(b: seq<byte>, ghost values: seq<seq<byte>>, ghost metadata: seq<seq<byte>>, ghost fs: seq<Fn>, ghost bytecode: seq<byte>)
    returns (seen: Option<seq<Visit>>)
    ensures Snapshot(b, values, metadata, fs, bytecode) && AllClosed(fs) ==> seen == Some(Visits(fs, |fs|))
  {
    hide ImageOf, Typed, IrStands, AllClosed, Visits, Contents, Read2, Read4;
    ghost var good := Snapshot(b, values, metadata, fs, bytecode) && AllClosed(fs);
    ghost var sections := if good then Sections(Contents(values, metadata, fs, bytecode)) else [];
    if good {
      SectionsTyped(Contents(values, metadata, fs, bytecode), |fs|);
      SizesPositive();
    }
    var parsed := ParseSnapshot(b, sections, |fs|, |values|);
    if parsed.None? {
      return None;
    }
    if good {
      SnapshotHoldsIr(b, values, metadata, fs, bytecode, parsed.value.sections);
    }
    seen := Walk(b, parsed.value, fs);
  }

  lemma {:induction false} StringSections(b: seq<byte>, values: seq<seq<byte>>, metadata: seq<seq<byte>>, fs: seq<Fn>, bytecode: seq<byte>)
    requires Snapshot(b, values, metadata, fs, bytecode)
    ensures var sections := Sections(Contents(values, metadata, fs, bytecode));
            Stands(b, OffsetOf(sections, 0), Records(values)) && Stands(b, OffsetOf(sections, 1), Bytes(values))
  {
    hide Recs, All, AllInsts, FnRecords, Records, Bytes, OffsetOf, EntryStands, Stands;
    var sections := Sections(Contents(values, metadata, fs, bytecode));
    assert sections[0].bytes == Records(values) && sections[1].bytes == Bytes(values);
    assert SectionStands(b, sections, 0) && SectionStands(b, sections, 1);
  }

  lemma RecordFound(b: seq<byte>, at: nat, values: seq<seq<byte>>, k: nat)
    requires Stands(b, at, Records(values)) && k < |values|
    ensures Stands(b, at + RECORD * k, Record(StartOf(values, k), |values[k]|))
  {
    hide Records, Stands, Record, StartOf, Bytes;
    StringAt(values, k);
    PartStands(b, at, Records(values), RECORD * k, Record(StartOf(values, k), |values[k]|));
  }

  lemma BytesFound(b: seq<byte>, at: nat, values: seq<seq<byte>>, k: nat)
    requires Stands(b, at, Bytes(values)) && k < |values|
    ensures Stands(b, at + StartOf(values, k), values[k])
  {
    hide Records, Stands, Record, StartOf, Bytes;
    StringAt(values, k);
    PartStands(b, at, Bytes(values), StartOf(values, k), values[k]);
  }

  /** A string is found by its number: its record says where, and there it stands. */
  lemma {:induction false} StringStands(b: seq<byte>, values: seq<seq<byte>>, metadata: seq<seq<byte>>, fs: seq<Fn>, bytecode: seq<byte>, k: nat)
    requires Snapshot(b, values, metadata, fs, bytecode) && k < |values|
    ensures var sections := Sections(Contents(values, metadata, fs, bytecode));
            && Stands(b, OffsetOf(sections, 0) + RECORD * k, Record(StartOf(values, k), |values[k]|))
            && Stands(b, OffsetOf(sections, 1) + StartOf(values, k), values[k])
  {
    hide Contents, Sections, ImageOf, Recs, All, AllInsts, FnRecords, Records, Bytes, OffsetOf, Stands, Record, StartOf;
    StringSections(b, values, metadata, fs, bytecode);
    var sections := Sections(Contents(values, metadata, fs, bytecode));
    RecordFound(b, OffsetOf(sections, 0), values, k);
    BytesFound(b, OffsetOf(sections, 1), values, k);
  }
}
