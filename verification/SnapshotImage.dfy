/** The snapshot image: a header, a directory and the sections one behind the other, as it is written and as
    it is read. */
module SnapshotImage {
  import opened Wrappers
  import opened Leb128
  import opened WireBytes
  import opened StringTable

  datatype Section = Section(kind: nat, recordSize: nat, bytes: seq<byte>)

  const HEADER := 224
  const ENTRY := 32
  const MAGIC: seq<byte> := [0x4c, 0x55, 0x41, 0x55, 0x43, 0x49, 0x52, 0]

  function CountOf(s: Section): nat
    requires s.recordSize > 0
  {
    |s.bytes| / s.recordSize
  }

  /** Where section `i` begins in an image of `n` sections. */
  function OffsetOf(sections: seq<Section>, i: nat): (r: nat)
    requires i <= |sections|
    ensures r >= HEADER + ENTRY * |sections|
  {
    if i == 0 then HEADER + ENTRY * |sections| else OffsetOf(sections, i - 1) + |sections[i - 1].bytes|
  }

  lemma {:induction false} OffsetGrows(sections: seq<Section>, i: nat, j: nat)
    requires i <= j <= |sections|
    ensures OffsetOf(sections, i) <= OffsetOf(sections, j)
    ensures i < j ==> OffsetOf(sections, i) + |sections[i].bytes| <= OffsetOf(sections, j)
    decreases j
  {
    if i < j {
      OffsetGrows(sections, i, j - 1);
    }
  }

  ghost predicate Complete(sections: seq<Section>) {
    forall i :: 0 <= i < |sections| ==> WholeRecords(sections[i])
  }

  predicate WholeRecords(s: Section) {
    s.recordSize > 0 && |s.bytes| % s.recordSize == 0
  }

  /** A directory entry names its section's place, length and records. */
  ghost predicate EntryStands(b: seq<byte>, sections: seq<Section>, i: nat)
    requires i < |sections|
  {
    var at, s := HEADER + ENTRY * i, sections[i];
    && s.recordSize > 0
    && Stands(b, at, Le2(s.kind)) && Stands(b, at + 4, Le4(s.recordSize)) && Stands(b, at + 8, Le8(OffsetOf(sections, i)))
    && Stands(b, at + 16, Le8(|s.bytes|)) && Stands(b, at + 24, Le4(CountOf(s)))
  }

  ghost predicate SectionStands(b: seq<byte>, sections: seq<Section>, i: nat)
    requires i < |sections|
  {
    Stands(b, OffsetOf(sections, i), sections[i].bytes)
  }

  /** The image of sections: they fill it without gaps behind header and directory. */
  ghost predicate ImageOf(b: seq<byte>, sections: seq<Section>, protos: nat, strings: nat) {
    && Complete(sections) && |b| == OffsetOf(sections, |sections|) <= MAX_BYTES
    && Stands(b, 0, MAGIC) && Stands(b, 8, Le2(1)) && Stands(b, 10, Le2(HEADER)) && Stands(b, 12, Le4(1)) && Stands(b, 16, Le8(|b|))
    && Stands(b, 184, Le4(1)) && Stands(b, 188, Le4(protos)) && Stands(b, 192, Le4(protos)) && Stands(b, 196, Le4(strings))
    && Stands(b, 200, Le4(0)) && Stands(b, 204, Le4(|sections|))
    && (forall i :: 0 <= i < |sections| ==> EntryStands(b, sections, i))
    && forall i :: 0 <= i < |sections| ==> SectionStands(b, sections, i)
  }

  // ----- writing -----

  /** Everything written so far still stands. */
  ghost predicate Written(b: seq<byte>, sections: seq<Section>, protos: nat, strings: nat, n: nat)
    requires n <= |sections|
  {
    && Stands(b, 0, MAGIC) && Stands(b, 8, Le2(1)) && Stands(b, 10, Le2(HEADER)) && Stands(b, 12, Le4(1)) && Stands(b, 16, Le8(|b|))
    && Stands(b, 184, Le4(1)) && Stands(b, 188, Le4(protos)) && Stands(b, 192, Le4(protos)) && Stands(b, 196, Le4(strings))
    && Stands(b, 200, Le4(0)) && Stands(b, 204, Le4(|sections|))
    && (forall i :: 0 <= i < n ==> EntryStands(b, sections, i))
    && forall i :: 0 <= i < n ==> SectionStands(b, sections, i)
  }

  method PutHeader(out: array<byte>, sections: seq<Section>, protos: nat, strings: nat, digests: seq<byte>)
    requires out.Length >= HEADER && |digests| == 160
    modifies out
    ensures Written(out[..], sections, protos, strings, 0) && Stands(out[..], 24, digests)
  {
    hide Stands, Kept, Le2, Le4, Le8;
    Put(out, 0, MAGIC);
    Put(out, 8, Le2(1));
    Put(out, 10, Le2(HEADER));
    Put(out, 12, Le4(1));
    Put(out, 16, Le8(out.Length));
    Put(out, 24, digests);
    Put(out, 184, Le4(1));
    Put(out, 188, Le4(protos));
    Put(out, 192, Le4(protos));
    Put(out, 196, Le4(strings));
    Put(out, 200, Le4(0));
    Put(out, 204, Le4(|sections|));
  }

  lemma EntryKept(was: seq<byte>, now: seq<byte>, from: nat, stop: nat, sections: seq<Section>, i: nat)
    requires Kept(was, now, from, stop) && i < |sections| && EntryStands(was, sections, i)
    requires HEADER + ENTRY * (i + 1) <= from || stop <= HEADER + ENTRY * i
    ensures EntryStands(now, sections, i)
  {
    hide Stands, Kept, Le2, Le4, Le8;
    var at, s := HEADER + ENTRY * i, sections[i];
    StandsKept(was, now, from, stop, at, Le2(s.kind));
    StandsKept(was, now, from, stop, at + 4, Le4(s.recordSize));
    StandsKept(was, now, from, stop, at + 8, Le8(OffsetOf(sections, i)));
    StandsKept(was, now, from, stop, at + 16, Le8(|s.bytes|));
    StandsKept(was, now, from, stop, at + 24, Le4(CountOf(s)));
  }

  lemma HeaderKept(was: seq<byte>, now: seq<byte>, from: nat, stop: nat, sections: seq<Section>, protos: nat, strings: nat, digests: seq<byte>)
    requires Kept(was, now, from, stop) && HEADER <= from && |digests| == 160
    requires Written(was, sections, protos, strings, 0) && Stands(was, 24, digests)
    ensures Written(now, sections, protos, strings, 0) && Stands(now, 24, digests)
  {
    hide Stands, Le2, Le4, Le8;
    forall o: nat, c | Stands(was, o, c) && o + |c| <= from ensures Stands(now, o, c) {
      StandsKept(was, now, from, stop, o, c);
    }
  }

  /** Writing elsewhere keeps what is written. */
  lemma WrittenKept(was: seq<byte>, now: seq<byte>, from: nat, stop: nat, sections: seq<Section>, protos: nat, strings: nat,
                    digests: seq<byte>, n: nat)
    requires Kept(was, now, from, stop) && n <= |sections| && |digests| == 160
    requires Written(was, sections, protos, strings, n) && Stands(was, 24, digests)
    requires HEADER + ENTRY * n <= from && (stop <= HEADER + ENTRY * |sections| || OffsetOf(sections, n) <= from)
    ensures Written(now, sections, protos, strings, n) && Stands(now, 24, digests)
  {
    hide Stands, Kept, EntryStands, OffsetOf;
    HeaderKept(was, now, from, stop, sections, protos, strings, digests);
    forall i | 0 <= i < n ensures EntryStands(now, sections, i) && SectionStands(now, sections, i) {
      EntryKept(was, now, from, stop, sections, i);
      assert SectionStands(was, sections, i);
      OffsetGrows(sections, i, n);
      StandsKept(was, now, from, stop, OffsetOf(sections, i), sections[i].bytes);
    }
  }

  method PutEntry(out: array<byte>, sections: seq<Section>, i: nat)
    requires i < |sections| && sections[i].recordSize > 0 && HEADER + ENTRY * |sections| <= out.Length
    modifies out
    ensures EntryStands(out[..], sections, i) && Kept(old(out[..]), out[..], HEADER + ENTRY * i, HEADER + ENTRY * i + ENTRY)
  {
    hide Stands, Le2, Le4, Le8;
    var at, s := HEADER + ENTRY * i, sections[i];
    Put(out, at, Le2(s.kind));
    Put(out, at + 4, Le4(s.recordSize));
    Put(out, at + 8, Le8(OffsetOf(sections, i)));
    Put(out, at + 16, Le8(|s.bytes|));
    Put(out, at + 24, Le4(|s.bytes| / s.recordSize));
  }

  method PutSection(out: array<byte>, sections: seq<Section>, protos: nat, strings: nat, digests: seq<byte>, i: nat, offset: nat)
    requires i < |sections| && WholeRecords(sections[i]) && |digests| == 160
    requires offset == OffsetOf(sections, i) && offset + |sections[i].bytes| <= out.Length
    requires Written(out[..], sections, protos, strings, i) && Stands(out[..], 24, digests)
    modifies out
    ensures Written(out[..], sections, protos, strings, i + 1) && Stands(out[..], 24, digests)
  {
    hide Stands, Kept, EntryStands, OffsetOf;
    ghost var was := out[..];
    PutEntry(out, sections, i);
    ghost var mid := out[..];
    WrittenKept(was, mid, HEADER + ENTRY * i, HEADER + ENTRY * i + ENTRY, sections, protos, strings, digests, i);
    Put(out, offset, sections[i].bytes);
    WrittenKept(mid, out[..], offset, offset + |sections[i].bytes|, sections, protos, strings, digests, i);
    EntryKept(mid, out[..], offset, offset + |sections[i].bytes|, sections, i);
  }

  /** Refused for incomplete records and beyond 256 MiB; otherwise the image of the sections. */
  method BuildWireImage(sections: seq<Section>, protos: nat, strings: nat, digests: seq<byte>) returns (out: Option<seq<byte>>)
    requires |digests| == 160 && forall i :: 0 <= i < |sections| ==> sections[i].recordSize > 0
    requires HEADER + ENTRY * |sections| <= MAX_BYTES
    ensures out.Some? <==> Complete(sections) && OffsetOf(sections, |sections|) <= MAX_BYTES
    ensures out.Some? ==> ImageOf(out.value, sections, protos, strings) && Stands(out.value, 24, digests)
  {
    hide Stands, EntryStands, SectionStands;
    var total := HEADER + ENTRY * |sections|;
    for i := 0 to |sections|
      invariant total == OffsetOf(sections, i) <= MAX_BYTES
      invariant forall k :: 0 <= k < i ==> WholeRecords(sections[k])
    {
      if |sections[i].bytes| % sections[i].recordSize != 0 || total + |sections[i].bytes| > MAX_BYTES {
        OffsetGrows(sections, i + 1, |sections|);
        assert !WholeRecords(sections[i]) || OffsetOf(sections, i + 1) > MAX_BYTES;
        return None;
      }
      total := total + |sections[i].bytes|;
    }
    var bytes := new byte[total](i => 0);
    PutHeader(bytes, sections, protos, strings, digests);
    var offset := HEADER + ENTRY * |sections|;
    for i := 0 to |sections|
      invariant offset == OffsetOf(sections, i)
      invariant Written(bytes[..], sections, protos, strings, i) && Stands(bytes[..], 24, digests)
    {
      OffsetGrows(sections, i + 1, |sections|);
      PutSection(bytes, sections, protos, strings, digests, i, offset);
      offset := offset + |sections[i].bytes|;
    }
    return Some(bytes[..]);
  }

  // ----- reading -----

  /** What the directory says of a section. */
  datatype Ref = Ref(recordSize: nat, offset: nat, count: nat)
  datatype Parsed = Parsed(protos: nat, functions: nat, sections: map<nat, Ref>)

  function Read8(b: seq<byte>, at: nat): nat
    requires at + 8 <= |b|
  {
    Read4(b, at) + Read4(b, at + 4) * 0x1_0000_0000
  }

  lemma EightReads(b: seq<byte>, at: nat, v: nat)
    requires Stands(b, at, Le8(v)) && v < 0x1_0000_0000_0000_0000
    ensures Read8(b, at) == v
  {
    var low, high := v % 0x1_0000_0000, v / 0x1_0000_0000;
    assert b[at..at + 8][..4] == b[at..at + 4] && b[at..at + 8][4..] == b[at + 4..at + 8];
    NumReads(b, at, low);
    NumReads(b, at + 4, high);
  }

  /** The sections' fields have the widths of the format, and no two have one kind. */
  ghost predicate Typed(sections: seq<Section>, protos: nat) {
    && protos < 0x1_0000_0000 && |sections| < 0x1_0000_0000
    && (forall i :: 0 <= i < |sections| ==> sections[i].kind < 0x1_0000 && 0 < sections[i].recordSize < 0x1_0000_0000)
    && forall i, j :: 0 <= i < j < |sections| ==> sections[i].kind != sections[j].kind
  }

  function RefOf(sections: seq<Section>, i: nat): Ref
    requires i < |sections| && sections[i].recordSize > 0
  {
    Ref(sections[i].recordSize, OffsetOf(sections, i), CountOf(sections[i]))
  }

  lemma {:induction false} ProductFits(q: nat, d: nat)
    requires d > 0
    ensures q <= q * d
  {
    if q > 0 {
      ProductFits(q - 1, d);
      assert q * d == (q - 1) * d + d;
    }
  }

  lemma QuotientFits(n: nat, d: nat)
    requires d > 0
    ensures n / d <= n
  {
    ProductFits(n / d, d);
    assert n == n / d * d + n % d;
  }

  lemma CountFits(s: Section, n: nat)
    requires s.recordSize > 0 && |s.bytes| <= n
    ensures CountOf(s) <= n
  {
    QuotientFits(|s.bytes|, s.recordSize);
  }

  /** One entry reads as what it names. */
  lemma EntryReads(b: seq<byte>, sections: seq<Section>, protos: nat, strings: nat, i: nat)
    requires ImageOf(b, sections, protos, strings) && Typed(sections, protos) && i < |sections|
    ensures var at := HEADER + ENTRY * i;
            && at + ENTRY <= |b| && Read2(b, at) == sections[i].kind
            && Ref(Read4(b, at + 4), Read8(b, at + 8), Read4(b, at + 24)) == RefOf(sections, i)
  {
    hide Stands, SectionStands, Le2, Le4, Le8, Read2, Read4, Read8;
    var at, s := HEADER + ENTRY * i, sections[i];
    assert EntryStands(b, sections, i);
    OffsetGrows(sections, i, |sections|);
    CountFits(s, |b|);
    HalfReads(b, at, s.kind);
    NumReads(b, at + 4, s.recordSize);
    EightReads(b, at + 8, OffsetOf(sections, i));
    NumReads(b, at + 24, CountOf(s));
  }

  lemma HeaderReads(b: seq<byte>, sections: seq<Section>, protos: nat, strings: nat)
    requires ImageOf(b, sections, protos, strings) && Typed(sections, protos)
    ensures |b| >= HEADER + ENTRY * |sections| && b[..8] == MAGIC && Read2(b, 8) == 1 && Read2(b, 10) == HEADER
    ensures Read4(b, 188) == protos && Read4(b, 192) == protos && Read4(b, 204) == |sections|
  {
    hide EntryStands, SectionStands, Le2, Le4, Le8, Read2, Read4;
    HalfReads(b, 8, 1);
    HalfReads(b, 10, HEADER);
    NumReads(b, 188, protos);
    NumReads(b, 192, protos);
    NumReads(b, 204, |sections|);
  }

  /** Reading the image of sections gives back where each of them lies; what is too short or has another
      head is refused. */
  method ParseSnapshot(b: seq<byte>, ghost sections: seq<Section>, ghost protos: nat, ghost strings: nat) returns (r: Option<Parsed>)
    ensures r.Some? ==> |b| >= 208 && b[..8] == MAGIC && Read2(b, 8) == 1 && Read2(b, 10) == HEADER
    ensures ImageOf(b, sections, protos, strings) && Typed(sections, protos) ==>
              && r.Some? && r.value.protos == r.value.functions == protos
              && forall i :: 0 <= i < |sections| ==> sections[i].kind in r.value.sections && r.value.sections[sections[i].kind] == RefOf(sections, i)
  {
    hide ImageOf, Typed, Stands, Read2, Read4, Read8, OffsetOf;
    ghost var good := ImageOf(b, sections, protos, strings) && Typed(sections, protos);
    if good {
      HeaderReads(b, sections, protos, strings);
      RecordsTyped(sections, protos);
    }
    if |b| < 208 || b[..8] != MAGIC || Read2(b, 8) != 1 || Read2(b, 10) != HEADER {
      return None;
    }
    var count := Read4(b, 204);
    var found: map<nat, Ref> := map[];
    for index := 0 to count
      invariant good ==> forall i :: 0 <= i < index ==> sections[i].kind in found && found[sections[i].kind] == RefOf(sections, i)
    {
      if good {
        EntryReads(b, sections, protos, strings, index);
      }
      var at := HEADER + index * ENTRY;
      if at + 28 > |b| {
        return None;
      }
      found := found[Read2(b, at) := Ref(Read4(b, at + 4), Read8(b, at + 8), Read4(b, at + 24))];
    }
    return Some(Parsed(Read4(b, 188), Read4(b, 192), found));
  }

  lemma RecordsTyped(sections: seq<Section>, protos: nat)
    requires Typed(sections, protos)
    ensures forall i :: 0 <= i < |sections| ==> sections[i].recordSize > 0
    ensures forall i, j :: 0 <= i < j < |sections| ==> sections[i].kind != sections[j].kind
  {
  }
}
