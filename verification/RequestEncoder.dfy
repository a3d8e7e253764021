/** Writing a request into a zeroed buffer, as the host does. */
module RequestEncoder {
  import opened Wrappers
  import opened Leb128
  import opened WireBytes
  import opened SourceRequest

  ghost predicate Zero(b: seq<byte>, from: nat, stop: nat) {
    forall k :: from <= k < stop && k < |b| ==> b[k] == 0
  }

  lemma ZeroNum(b: seq<byte>, at: nat)
    requires at + 4 <= |b| && Zero(b, at, at + 4)
    ensures Num(b, at, 0)
  {
    NumReads(b, at, 0);
  }

  lemma NumKept(was: seq<byte>, now: seq<byte>, from: nat, stop: nat, at: nat, v: nat)
    requires Kept(was, now, from, stop) && Num(was, at, v) && (at + 4 <= from || stop <= at)
    ensures Num(now, at, v)
  {
    StandsKept(was, now, from, stop, at, Le4(v));
  }

  method PutNum(a: array<byte>, at: nat, v: nat)
    requires at + 4 <= a.Length && U32(v)
    modifies a
    ensures Num(a[..], at, v) && Kept(old(a[..]), a[..], at, at + 4)
    ensures forall o: nat, c :: Stands(old(a[..]), o, c) && (o + |c| <= at || at + 4 <= o) ==> Stands(a[..], o, c)
  {
    Put(a, at, Le4(v));
  }

  // ----- one module -----

  method WriteRecord(f: Format, a: array<byte>, record: nat, at: nat, m: Module)
    requires record + RECORD <= a.Length && Zero(a[..], record, record + RECORD)
    requires U32(at + PayloadSize(m))
    modifies a
    ensures RecordAt(f, a[..], record, at, m) && Kept(old(a[..]), a[..], record, record + RECORD)
  {
    hide Le4, Stands;
    var source, content := at + |m.name|, at + |m.name| + |m.sourceName|;
    ZeroNum(a[..], record + 56);
    ZeroNum(a[..], record + 60);
    PutNum(a, record, at);
    PutNum(a, record + 4, |m.name|);
    PutNum(a, record + 8, source);
    PutNum(a, record + 12, |m.sourceName|);
    PutNum(a, record + 16, content);
    PutNum(a, record + 20, |m.content|);
    Put(a, record + 24, f.hash(m.content));
    if m.plans != [] {
      PutNum(a, record + 56, content + |m.content|);
      PutNum(a, record + 60, |m.plans|);
    }
  }

  lemma PlanKept(was: seq<byte>, now: seq<byte>, from: nat, stop: nat, at: nat, plans: seq<Plan>, k: nat)
    requires Kept(was, now, from, stop) && k < |plans| && PlanStands(was, at, plans, k)
    requires at + 16 * k + 16 <= from || stop <= at + 16 * k
    ensures PlanStands(now, at, plans, k)
  {
    var o := at + 16 * k;
    NumKept(was, now, from, stop, o, plans[k].caller);
    NumKept(was, now, from, stop, o + 4, plans[k].slot);
    NumKept(was, now, from, stop, o + 8, plans[k].target);
    NumKept(was, now, from, stop, o + 12, 0);
  }

  method WritePlans(a: array<byte>, at: nat, plans: seq<Plan>)
    requires at + 16 * |plans| <= a.Length && Zero(a[..], at, at + 16 * |plans|)
    requires forall k :: 0 <= k < |plans| ==> ValidPlan(plans[k])
    modifies a
    ensures PlansAt(a[..], at, plans) && Kept(old(a[..]), a[..], at, at + 16 * |plans|)
  {
    hide Le4;
    ghost var first := a[..];
    for n := 0 to |plans|
      invariant Kept(first, a[..], at, at + 16 * n)
      invariant forall k :: 0 <= k < n ==> PlanStands(a[..], at, plans, k)
    {
      var o := at + 16 * n;
      ghost var was := a[..];
      ZeroNum(a[..], o + 12);
      PutNum(a, o, plans[n].caller);
      PutNum(a, o + 4, plans[n].slot);
      PutNum(a, o + 8, plans[n].target);
      forall k | 0 <= k < n ensures PlanStands(a[..], at, plans, k) {
        PlanKept(was, a[..], o, o + 16, at, plans, k);
      }
    }
  }

  method WritePayload(a: array<byte>, at: nat, m: Module)
    requires at + PayloadSize(m) <= a.Length && Zero(a[..], at, at + PayloadSize(m))
    requires forall k :: 0 <= k < |m.plans| ==> ValidPlan(m.plans[k])
    modifies a
    ensures PayloadAt(a[..], at, m) && Kept(old(a[..]), a[..], at, at + PayloadSize(m))
  {
    hide Stands, PlansAt;
    var source, content, plans := at + |m.name|, at + |m.name| + |m.sourceName|, at + |m.name| + |m.sourceName| + |m.content|;
    Put(a, at, m.name);
    Put(a, source, m.sourceName);
    Put(a, content, m.content);
    ghost var was := a[..];
    WritePlans(a, plans, m.plans);
    StandsKept(was, a[..], plans, plans + 16 * |m.plans|, at, m.name);
    StandsKept(was, a[..], plans, plans + 16 * |m.plans|, source, m.sourceName);
    StandsKept(was, a[..], plans, plans + 16 * |m.plans|, content, m.content);
  }

  // ----- what later writes keep -----

  lemma RecordKept(f: Format, was: seq<byte>, now: seq<byte>, from: nat, stop: nat, record: nat, at: nat, m: Module)
    requires Kept(was, now, from, stop) && RecordAt(f, was, record, at, m) && (record + RECORD <= from || stop <= record)
    ensures RecordAt(f, now, record, at, m)
  {
    hide Le4;
    var source, content, plans := at + |m.name|, at + |m.name| + |m.sourceName|, at + |m.name| + |m.sourceName| + |m.content|;
    NumKept(was, now, from, stop, record, at);
    NumKept(was, now, from, stop, record + 4, |m.name|);
    NumKept(was, now, from, stop, record + 8, source);
    NumKept(was, now, from, stop, record + 12, |m.sourceName|);
    NumKept(was, now, from, stop, record + 16, content);
    NumKept(was, now, from, stop, record + 20, |m.content|);
    StandsKept(was, now, from, stop, record + 24, f.hash(m.content));
    NumKept(was, now, from, stop, record + 56, if m.plans == [] then 0 else plans);
    NumKept(was, now, from, stop, record + 60, |m.plans|);
  }

  lemma PayloadKept(was: seq<byte>, now: seq<byte>, from: nat, stop: nat, at: nat, m: Module)
    requires Kept(was, now, from, stop) && PayloadAt(was, at, m) && (at + PayloadSize(m) <= from || stop <= at)
    ensures PayloadAt(now, at, m)
  {
    StandsKept(was, now, from, stop, at, m.name);
    StandsKept(was, now, from, stop, at + |m.name|, m.sourceName);
    StandsKept(was, now, from, stop, at + |m.name| + |m.sourceName|, m.content);
    var plans := at + |m.name| + |m.sourceName| + |m.content|;
    forall k | 0 <= k < |m.plans| ensures PlanStands(now, plans, m.plans, k) {
      assert PlanStands(was, plans, m.plans, k);
      PlanKept(was, now, from, stop, plans, m.plans, k);
    }
  }

  lemma StandsAllKept(was: seq<byte>, now: seq<byte>, from: nat, stop: nat)
    requires Kept(was, now, from, stop)
    ensures forall o: nat, c :: Stands(was, o, c) && (o + |c| <= from || stop <= o) ==> Stands(now, o, c)
  {
    forall o: nat, c | Stands(was, o, c) && (o + |c| <= from || stop <= o) ensures Stands(now, o, c) {
      StandsKept(was, now, from, stop, o, c);
    }
  }

  lemma HeaderKept(f: Format, was: seq<byte>, now: seq<byte>, from: nat, stop: nat, r: Request)
    requires Kept(was, now, from, stop) && HeaderAt(f, was, r) && from >= HEADER
    ensures HeaderAt(f, now, r)
  {
    hide Le4, Le2, Start, Stands, RequestId, ManifestDigest;
    StandsAllKept(was, now, from, stop);
  }

  // ----- the whole request -----

  /** The widths of the fields; the host's types guarantee them. */
  ghost predicate Typed(r: Request) {
    && U32(r.coverage) && U32(r.options.imports) && U32(r.options.features) && U32(r.options.instructions)
    && U32(r.options.functions) && U32(r.options.bytes) && U32(r.options.optimization) && U32(r.options.debug)
    && r.entry < |r.modules| && forall m, k :: 0 <= m < |r.modules| && 0 <= k < |r.modules[m].plans| ==> ValidPlan(r.modules[m].plans[k])
  }

  method WriteCounts(a: array<byte>, r: Request)
    requires a.Length == Start(r.modules, |r.modules|) && U32(a.Length) && a.Length >= HEADER
    requires Typed(r) && U32(|r.modules|)
    modifies a
    ensures CountsAt(a[..], r) && Kept(old(a[..]), a[..], 0, 32)
  {
    hide Le4, Le2, Start, Stands;
    Put(a, 0, MAGIC);
    Put(a, 8, Le2(1));
    Put(a, 10, Le2(HEADER));
    PutNum(a, 12, a.Length);
    PutNum(a, 16, |r.modules|);
    PutNum(a, 20, r.entry);
    PutNum(a, 24, RECORD);
    PutNum(a, 28, r.coverage);
  }

  method WriteOptions(a: array<byte>, o: Options)
    requires a.Length >= HEADER && Zero(a[..], 208, HEADER)
    requires U32(o.imports) && U32(o.features) && U32(o.instructions) && U32(o.functions) && U32(o.bytes)
    requires U32(o.optimization) && U32(o.debug)
    modifies a
    ensures OptionsAt(a[..], o) && Kept(old(a[..]), a[..], 176, HEADER)
  {
    hide Le4, Le2;
    assert Stands(a[..], 208, ZEROS);
    hide Stands;
    PutNum(a, 176, 0);
    PutNum(a, 180, o.imports);
    PutNum(a, 184, o.features);
    PutNum(a, 188, o.instructions);
    PutNum(a, 192, o.functions);
    PutNum(a, 196, o.bytes);
    PutNum(a, 200, o.optimization);
    PutNum(a, 204, o.debug);
  }

  method WriteDigests(f: Format, a: array<byte>, r: Request)
    requires a.Length >= HEADER
    modifies a
    ensures DigestsAt(f, a[..], r) && Kept(old(a[..]), a[..], 32, 176)
  {
    hide RequestId, ManifestDigest, Stands;
    Put(a, 32, RequestId(f, r));
    Put(a, 48, r.contract);
    Put(a, 80, r.profile);
    Put(a, 112, r.pack);
    Put(a, 144, ManifestDigest(f, r));
  }

  method WriteHeader(f: Format, a: array<byte>, r: Request)
    requires a.Length == Start(r.modules, |r.modules|) && U32(a.Length) && a.Length >= HEADER && Zero(a[..], 0, a.Length)
    requires Typed(r) && U32(|r.modules|)
    modifies a
    ensures HeaderAt(f, a[..], r) && Kept(old(a[..]), a[..], 0, HEADER)
  {
    hide Le4, Le2, Start, Stands, RequestId, ManifestDigest;
    WriteCounts(a, r);
    ghost var counted := a[..];
    WriteOptions(a, r.options);
    StandsAllKept(counted, a[..], 176, HEADER);
    ghost var opted := a[..];
    WriteDigests(f, a, r);
    StandsAllKept(opted, a[..], 32, 176);
  }

  /** Modules before `n` stand, everything behind is still zero. */
  ghost predicate Written(f: Format, b: seq<byte>, r: Request, n: nat)
    requires n <= |r.modules|
  {
    && |b| == Start(r.modules, |r.modules|) && HeaderAt(f, b, r)
    && (forall id :: 0 <= id < n ==> ModuleAt(f, b, r.modules, id))
    && Zero(b, HEADER + RECORD * n, HEADER + RECORD * |r.modules|) && Zero(b, Start(r.modules, n), |b|)
  }

  /** An earlier module still stands after its successor `n` has been written. */
  lemma EarlierKept(f: Format, was: seq<byte>, mid: seq<byte>, now: seq<byte>, modules: seq<Module>, n: nat, id: nat)
    requires id < n < |modules| && ModuleAt(f, was, modules, id)
    requires Kept(was, mid, HEADER + RECORD * n, HEADER + RECORD * n + RECORD)
    requires Kept(mid, now, Start(modules, n), Start(modules, n) + PayloadSize(modules[n]))
    ensures ModuleAt(f, now, modules, id)
  {
    hide RecordAt, PayloadAt;
    var at, record, size := Start(modules, n), HEADER + RECORD * n, PayloadSize(modules[n]);
    StartGrows(modules, 0, id);
    StartGrows(modules, id + 1, n);
    RecordKept(f, was, mid, record, record + RECORD, HEADER + RECORD * id, Start(modules, id), modules[id]);
    RecordKept(f, mid, now, at, at + size, HEADER + RECORD * id, Start(modules, id), modules[id]);
    PayloadKept(was, mid, record, record + RECORD, Start(modules, id), modules[id]);
    PayloadKept(mid, now, at, at + size, Start(modules, id), modules[id]);
  }

  lemma ModulesKept(f: Format, was: seq<byte>, mid: seq<byte>, now: seq<byte>, r: Request, n: nat)
    requires n < |r.modules| && Written(f, was, r, n)
    requires var at := Start(r.modules, n);
             && Kept(was, mid, HEADER + RECORD * n, HEADER + RECORD * n + RECORD)
             && Kept(mid, now, at, at + PayloadSize(r.modules[n]))
    requires RecordAt(f, mid, HEADER + RECORD * n, Start(r.modules, n), r.modules[n])
    requires PayloadAt(now, Start(r.modules, n), r.modules[n])
    ensures Written(f, now, r, n + 1)
  {
    hide RecordAt, PayloadAt, HeaderAt, ModuleAt, Start;
    var at, record, size := Start(r.modules, n), HEADER + RECORD * n, PayloadSize(r.modules[n]);
    NextStart(r.modules, n);
    StartGrows(r.modules, 0, n);
    StartGrows(r.modules, n + 1, |r.modules|);
    HeaderKept(f, was, mid, record, record + RECORD, r);
    HeaderKept(f, mid, now, at, at + size, r);
    RecordKept(f, mid, now, at, at + size, record, at, r.modules[n]);
    NewStands(f, now, r.modules, n);
    forall id | 0 <= id < n + 1 ensures ModuleAt(f, now, r.modules, id) {
      if id < n {
        EarlierKept(f, was, mid, now, r.modules, n, id);
      }
    }
    ZeroKept(was, mid, record, record + RECORD, HEADER + RECORD * (n + 1), HEADER + RECORD * |r.modules|);
    ZeroKept(mid, now, at, at + size, HEADER + RECORD * (n + 1), HEADER + RECORD * |r.modules|);
    ZeroKept(was, mid, record, record + RECORD, at + size, |now|);
    ZeroKept(mid, now, at, at + size, at + size, |now|);
  }

  lemma NextStart(modules: seq<Module>, n: nat)
    requires n < |modules|
    ensures Start(modules, n + 1) == Start(modules, n) + PayloadSize(modules[n])
  {
  }

  lemma NewStands(f: Format, b: seq<byte>, modules: seq<Module>, n: nat)
    requires n < |modules| && RecordAt(f, b, HEADER + RECORD * n, Start(modules, n), modules[n])
    requires PayloadAt(b, Start(modules, n), modules[n])
    ensures ModuleAt(f, b, modules, n)
  {
  }

  lemma ZeroKept(was: seq<byte>, now: seq<byte>, from: nat, stop: nat, zero: nat, end: nat)
    requires Kept(was, now, from, stop) && Zero(was, zero, end) && (end <= from || stop <= zero)
    ensures Zero(now, zero, end)
  {
  }

  /** The bytes of a request; refused only when they are too many to count. */
  method Encode(f: Format, r: Request) returns (out: Option<seq<byte>>)
    requires Typed(r)
    ensures out.Some? <==> U32(Start(r.modules, |r.modules|))
    ensures out.Some? ==> Encodes(f, out.value, r)
  {
    hide RecordAt, PayloadAt, HeaderAt, ModuleAt;
    var total := HEADER + RECORD * |r.modules|;
    for id := 0 to |r.modules|
      invariant total == Start(r.modules, id)
    {
      total := total + PayloadSize(r.modules[id]);
    }
    if total >= 0x1_0000_0000 {
      return None;
    }
    StartGrows(r.modules, 0, |r.modules|);
    var a := new byte[total](i => 0);
    WriteHeader(f, a, r);
    var cursor := HEADER + RECORD * |r.modules|;
    for id := 0 to |r.modules|
      invariant cursor == Start(r.modules, id) && Written(f, a[..], r, id)
    {
      StartGrows(r.modules, 0, id);
      StartGrows(r.modules, id + 1, |r.modules|);
      ghost var was := a[..];
      WriteRecord(f, a, HEADER + RECORD * id, cursor, r.modules[id]);
      ghost var mid := a[..];
      WritePayload(a, cursor, r.modules[id]);
      ModulesKept(f, was, mid, a[..], r, id);
      cursor := cursor + PayloadSize(r.modules[id]);
    }
    out := Some(a[..]);
  }
}
