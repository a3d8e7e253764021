/** Reading a request back, check by check, as the compiler does. */
module RequestParser {
  import opened Wrappers
  import opened Leb128
  import opened WireBytes
  import opened SourceRequest

  // ----- plans -----

  function PlanRead(b: seq<byte>, at: nat): Plan
    requires at + 16 <= |b|
  {
    Plan(Read4(b, at), Read4(b, at + 4), Read4(b, at + 8))
  }

  function PlansRead(b: seq<byte>, at: nat, n: nat): (r: seq<Plan>)
    requires at + 16 * n <= |b|
    ensures |r| == n
    ensures forall k :: 0 <= k < n ==> r[k] == PlanRead(b, at + 16 * k)
  {
    if n == 0 then [] else PlansRead(b, at, n - 1) + [PlanRead(b, at + 16 * (n - 1))]
  }

  predicate ReservedZero(b: seq<byte>, at: nat, n: nat)
    requires at + 16 * n <= |b|
  {
    forall k :: 0 <= k < n ==> ReservedAt(b, at, k)
  }

  predicate ReservedAt(b: seq<byte>, at: nat, k: nat) {
    at + 16 * k + 16 <= |b| && Read4(b, at + 16 * k + 12) == 0
  }

  lemma PlanReads(b: seq<byte>, at: nat, plans: seq<Plan>, k: nat)
    requires k < |plans| && at + 16 * |plans| <= |b|
    ensures PlanStands(b, at, plans, k) <==> PlanRead(b, at + 16 * k) == plans[k] && ReservedAt(b, at, k)
  {
    hide Num;
    var o := at + 16 * k;
    NumReads(b, o, plans[k].caller);
    NumReads(b, o + 4, plans[k].slot);
    NumReads(b, o + 8, plans[k].target);
    NumReads(b, o + 12, 0);
  }

  /** Plans stand there exactly if reading gives them, with nothing reserved in use. */
  lemma PlansReads(b: seq<byte>, at: nat, plans: seq<Plan>)
    requires at + 16 * |plans| <= |b|
    ensures PlansAt(b, at, plans) <==> PlansRead(b, at, |plans|) == plans && ReservedZero(b, at, |plans|)
  {
    hide PlanStands, PlanRead, ReservedAt, PlansRead;
    forall k | 0 <= k < |plans|
      ensures PlanStands(b, at, plans, k) <==> PlanRead(b, at + 16 * k) == plans[k] && ReservedAt(b, at, k)
    {
      PlanReads(b, at, plans, k);
    }
    if PlansAt(b, at, plans) {
      forall k | 0 <= k < |plans| ensures PlansRead(b, at, |plans|)[k] == plans[k] {
        assert PlanStands(b, at, plans, k);
      }
    }
    if PlansRead(b, at, |plans|) == plans && ReservedZero(b, at, |plans|) {
      forall k | 0 <= k < |plans| ensures PlanStands(b, at, plans, k) {
        assert ReservedAt(b, at, k);
        assert PlansRead(b, at, |plans|)[k] == plans[k];
      }
    }
  }

  lemma PlansInside(b: seq<byte>, at: nat, plans: seq<Plan>)
    requires PlansAt(b, at, plans)
    ensures at + 16 * |plans| <= |b|
  {
  }

  // ----- one module -----

  /** The record tiles the payload from `cursor` on. */
  predicate Tiles(b: seq<byte>, record: nat, cursor: nat)
    requires record + RECORD <= |b|
  {
    var nameEnd := cursor + Read4(b, record + 4);
    var sourceEnd := nameEnd + Read4(b, record + 12);
    var contentEnd := sourceEnd + Read4(b, record + 20);
    var count := Read4(b, record + 60);
    && 0 < Read4(b, record + 4) <= 1024 && Read4(b, record) == cursor && nameEnd <= |b|
    && 0 < Read4(b, record + 12) <= 4096 && Read4(b, record + 8) == nameEnd && sourceEnd <= |b|
    && 0 < Read4(b, record + 20) && Read4(b, record + 16) == sourceEnd && contentEnd <= |b| && count <= 4096
    && Read4(b, record + 56) == (if count == 0 then 0 else contentEnd)
    && contentEnd + 16 * count <= |b|
  }

  function ModuleRead(b: seq<byte>, record: nat, cursor: nat): Module
    requires record + RECORD <= |b| && Tiles(b, record, cursor)
  {
    var nameEnd := cursor + Read4(b, record + 4);
    var sourceEnd := nameEnd + Read4(b, record + 12);
    var contentEnd := sourceEnd + Read4(b, record + 20);
    Module(b[cursor..nameEnd], b[nameEnd..sourceEnd], b[sourceEnd..contentEnd], PlansRead(b, contentEnd, Read4(b, record + 60)))
  }

  /** A valid module with this record and payload. */
  ghost predicate Candidate(f: Format, b: seq<byte>, record: nat, cursor: nat, m: Module) {
    ValidModule(f, m) && RecordAt(f, b, record, cursor, m) && PayloadAt(b, cursor, m)
  }

  function PlansOffset(b: seq<byte>, record: nat, cursor: nat): nat
    requires record + RECORD <= |b|
  {
    cursor + Read4(b, record + 4) + Read4(b, record + 12) + Read4(b, record + 20)
  }

  /** The numbers of a record, read. */
  lemma RecordReads(f: Format, b: seq<byte>, record: nat, cursor: nat, m: Module)
    requires record + RECORD <= |b|
    ensures var source, content, plans := cursor + |m.name|, cursor + |m.name| + |m.sourceName|, cursor + |m.name| + |m.sourceName| + |m.content|;
            RecordAt(f, b, record, cursor, m) <==>
            && Read4(b, record) == cursor && Read4(b, record + 4) == |m.name|
            && Read4(b, record + 8) == source && Read4(b, record + 12) == |m.sourceName|
            && Read4(b, record + 16) == content && Read4(b, record + 20) == |m.content|
            && Stands(b, record + 24, f.hash(m.content))
            && Read4(b, record + 56) == (if m.plans == [] then 0 else plans) && Read4(b, record + 60) == |m.plans|
  {
    hide Num, Read4, Stands;
    var source, content, plans := cursor + |m.name|, cursor + |m.name| + |m.sourceName|, cursor + |m.name| + |m.sourceName| + |m.content|;
    NumReads(b, record, cursor);
    NumReads(b, record + 4, |m.name|);
    NumReads(b, record + 8, source);
    NumReads(b, record + 12, |m.sourceName|);
    NumReads(b, record + 16, content);
    NumReads(b, record + 20, |m.content|);
    NumReads(b, record + 56, if m.plans == [] then 0 else plans);
    NumReads(b, record + 60, |m.plans|);
  }

  /** Whatever candidate there is, reading finds it. */
  lemma CandidateReads(f: Format, b: seq<byte>, record: nat, cursor: nat, m: Module)
    requires record + RECORD <= |b| && Candidate(f, b, record, cursor, m)
    ensures Tiles(b, record, cursor) && ModuleRead(b, record, cursor) == m
    ensures ReservedZero(b, PlansOffset(b, record, cursor), Read4(b, record + 60)) && Stands(b, record + 24, f.hash(m.content))
  {
    hide RecordAt, PlansRead, Read4, ReservedZero, PlansAt;
    RecordReads(f, b, record, cursor, m);
    PlansInside(b, cursor + |m.name| + |m.sourceName| + |m.content|, m.plans);
    PlansReads(b, cursor + |m.name| + |m.sourceName| + |m.content|, m.plans);
  }

  /** And what reading finds is one, if it is valid. */
  lemma ReadIsCandidate(f: Format, b: seq<byte>, record: nat, cursor: nat)
    requires record + RECORD <= |b| && Tiles(b, record, cursor)
    requires var m := ModuleRead(b, record, cursor);
             ValidModule(f, m) && Stands(b, record + 24, f.hash(m.content))
    requires ReservedZero(b, PlansOffset(b, record, cursor), Read4(b, record + 60))
    ensures Candidate(f, b, record, cursor, ModuleRead(b, record, cursor))
  {
    hide RecordAt, PlansRead, Read4, ReservedZero, PlansAt;
    var m := ModuleRead(b, record, cursor);
    RecordReads(f, b, record, cursor, m);
    PlansReads(b, PlansOffset(b, record, cursor), m.plans);
  }

  method CheckReserved(b: seq<byte>, at: nat, n: nat) returns (ok: bool)
    requires at + 16 * n <= |b|
    ensures ok <==> ReservedZero(b, at, n)
  {
    for k := 0 to n
      invariant forall j :: 0 <= j < k ==> ReservedAt(b, at, j)
    {
      if Read4(b, at + 16 * k + 12) != 0 {
        assert !ReservedAt(b, at, k);
        return false;
      }
    }
    return true;
  }

  /** Read and check one module. */
  method ParseModule(f: Format, b: seq<byte>, record: nat, cursor: nat) returns (r: Option<Module>)
    requires record + RECORD <= |b|
    ensures r.Some? ==> Candidate(f, b, record, cursor, r.value)
    ensures forall m :: Candidate(f, b, record, cursor, m) ==> r == Some(m)
  {
    hide Candidate, RecordAt, PayloadAt, ValidModule, ReservedZero;
    r := None;
    if Tiles(b, record, cursor) {
      var m := ModuleRead(b, record, cursor);
      var reserved := CheckReserved(b, PlansOffset(b, record, cursor), Read4(b, record + 60));
      if ValidModule(f, m) && Stands(b, record + 24, f.hash(m.content)) && reserved {
        ReadIsCandidate(f, b, record, cursor);
        r := Some(m);
      }
    }
    forall m | Candidate(f, b, record, cursor, m) ensures r == Some(m) {
      CandidateReads(f, b, record, cursor, m);
      CandidateValid(f, b, record, cursor, m);
    }
  }

  lemma CandidateValid(f: Format, b: seq<byte>, record: nat, cursor: nat, m: Module)
    requires Candidate(f, b, record, cursor, m)
    ensures ValidModule(f, m)
  {
  }

  // ----- the whole request -----

  lemma {:induction false} OffsetPrefix(count: nat, a: seq<Module>, b: seq<Module>, id: nat)
    requires id <= |a| && id <= |b| && a[..id] == b[..id]
    ensures Offset(count, a, id) == Offset(count, b, id)
  {
    if id > 0 {
      assert a[id - 1] == a[..id][id - 1] == b[..id][id - 1] == b[id - 1];
      assert a[..id - 1] == a[..id][..id - 1] == b[..id][..id - 1] == b[..id - 1];
      OffsetPrefix(count, a, b, id - 1);
    }
  }

  /** What the first loop has read: `id` modules of `count`, in order. */
  ghost predicate Prefix(f: Format, b: seq<byte>, count: nat, modules: seq<Module>) {
    && |modules| <= count && HEADER + RECORD * count <= |b| && Ordered(modules)
    && forall k :: 0 <= k < |modules| ==> Candidate(f, b, HEADER + RECORD * k, Offset(count, modules, k), modules[k])
  }

  /** A request these bytes encode, under the expected digests. */
  ghost predicate Meant(f: Format, b: seq<byte>, contract: Digest, profile: Digest, pack: Digest, q: Request) {
    Valid(f, q) && Encodes(f, b, q) && q.contract == contract && q.profile == profile && q.pack == pack
  }

  lemma MeantCandidate(f: Format, b: seq<byte>, contract: Digest, profile: Digest, pack: Digest, q: Request, modules: seq<Module>)
    requires Meant(f, b, contract, profile, pack, q) && |modules| < |q.modules| && q.modules[..|modules|] == modules
    ensures Candidate(f, b, HEADER + RECORD * |modules|, Offset(|q.modules|, modules, |modules|), q.modules[|modules|])
    ensures modules != [] ==> Less(modules[|modules| - 1].name, q.modules[|modules|].name)
  {
    hide RecordAt, PayloadAt, ValidModule, HeaderAt, Less;
    var id := |modules|;
    assert ModuleAt(f, b, q.modules, id);
    OffsetPrefix(|q.modules|, q.modules, modules, id);
    if id > 0 {
      assert q.modules[id - 1] == q.modules[..id][id - 1];
    }
  }

  lemma OffsetKept(count: nat, modules: seq<Module>, m: Module, k: nat)
    requires k <= |modules|
    ensures Offset(count, modules + [m], k) == Offset(count, modules, k)
  {
    assert modules[..k] == (modules + [m])[..k];
    OffsetPrefix(count, modules, modules + [m], k);
  }

  lemma OffsetNext(count: nat, modules: seq<Module>, m: Module)
    ensures Offset(count, modules + [m], |modules| + 1) == Offset(count, modules, |modules|) + PayloadSize(m)
  {
    OffsetKept(count, modules, m, |modules|);
  }

  lemma PrefixNext(f: Format, b: seq<byte>, count: nat, modules: seq<Module>, m: Module)
    requires Prefix(f, b, count, modules) && |modules| < count
    requires Candidate(f, b, HEADER + RECORD * |modules|, Offset(count, modules, |modules|), m)
    requires modules != [] ==> Less(modules[|modules| - 1].name, m.name)
    ensures Prefix(f, b, count, modules + [m])
  {
    hide Candidate, Less, Offset;
    forall k | 0 <= k < |modules| + 1
      ensures Candidate(f, b, HEADER + RECORD * k, Offset(count, modules + [m], k), (modules + [m])[k])
    {
      OffsetKept(count, modules, m, k);
    }
  }

  lemma LongerPrefix(modules: seq<Module>, all: seq<Module>)
    requires |modules| < |all| && all[..|modules|] == modules
    ensures all[..|modules| + 1] == modules + [all[|modules|]]
  {
  }

  /** Every request meant begins with the modules read so far. */
  ghost predicate AllStart(f: Format, b: seq<byte>, contract: Digest, profile: Digest, pack: Digest, count: nat, modules: seq<Module>) {
    forall q :: Meant(f, b, contract, profile, pack, q) && |q.modules| == count ==> StartsWith(q, modules)
  }

  predicate StartsWith(q: Request, modules: seq<Module>) {
    |modules| <= |q.modules| && q.modules[..|modules|] == modules
  }

  /** The module read next is the one every request meant has there. */
  lemma AllNext(f: Format, b: seq<byte>, contract: Digest, profile: Digest, pack: Digest, count: nat, modules: seq<Module>,
                m: Option<Module>)
    requires AllStart(f, b, contract, profile, pack, count, modules) && |modules| < count
    requires forall c :: Candidate(f, b, HEADER + RECORD * |modules|, Offset(count, modules, |modules|), c) ==> m == Some(c)
    ensures m.Some? && (modules != [] ==> Less(modules[|modules| - 1].name, m.value.name))
            ==> AllStart(f, b, contract, profile, pack, count, modules + [m.value])
    ensures !(m.Some? && (modules != [] ==> Less(modules[|modules| - 1].name, m.value.name)))
            ==> forall q :: Meant(f, b, contract, profile, pack, q) ==> |q.modules| != count
  {
    hide Candidate, Meant, Less;
    forall q | Meant(f, b, contract, profile, pack, q) && |q.modules| == count
      ensures m == Some(q.modules[|modules|]) && (modules != [] ==> Less(modules[|modules| - 1].name, q.modules[|modules|].name))
      ensures StartsWith(q, modules + [q.modules[|modules|]])
    {
      assert StartsWith(q, modules);
      MeantCandidate(f, b, contract, profile, pack, q, modules);
      LongerPrefix(modules, q.modules);
    }
  }

  lemma WholeStart(f: Format, b: seq<byte>, contract: Digest, profile: Digest, pack: Digest, modules: seq<Module>)
    requires AllStart(f, b, contract, profile, pack, |modules|, modules)
    ensures forall q :: Meant(f, b, contract, profile, pack, q) && |q.modules| == |modules| ==> q.modules == modules
  {
    hide Meant;
    forall q | Meant(f, b, contract, profile, pack, q) && |q.modules| == |modules| ensures q.modules == modules {
      assert StartsWith(q, modules);
      assert q.modules[..|q.modules|] == q.modules;
    }
  }

  /** All modules: each where the previous one ended, in strict name order. */
  method ParseModules(f: Format, b: seq<byte>, count: nat, ghost contract: Digest, ghost profile: Digest, ghost pack: Digest)
    returns (r: Option<(seq<Module>, nat)>)
    requires HEADER + RECORD * count <= |b|
    ensures r.Some? ==> Prefix(f, b, count, r.value.0) && |r.value.0| == count && r.value.1 == Offset(count, r.value.0, count)
    ensures forall q :: Meant(f, b, contract, profile, pack, q) && |q.modules| == count ==> r.Some? && q.modules == r.value.0
  {
    hide Candidate, Meant, Less, Offset, AllStart, ValidModule, Prefix;
    var modules, cursor := [], HEADER + RECORD * count;
    NothingRead(f, b, contract, profile, pack, count);
    for id := 0 to count
      invariant |modules| == id && Prefix(f, b, count, modules) && cursor == Offset(count, modules, id)
      invariant AllStart(f, b, contract, profile, pack, count, modules)
    {
      var m := ParseModule(f, b, HEADER + RECORD * id, cursor);
      AllNext(f, b, contract, profile, pack, count, modules, m);
      if m.None? || (id > 0 && !Less(modules[id - 1].name, m.value.name)) {
        return None;
      }
      PrefixNext(f, b, count, modules, m.value);
      OffsetNext(count, modules, m.value);
      modules, cursor := modules + [m.value], cursor + PayloadSize(m.value);
    }
    WholeStart(f, b, contract, profile, pack, modules);
    return Some((modules, cursor));
  }

  lemma NothingRead(f: Format, b: seq<byte>, contract: Digest, profile: Digest, pack: Digest, count: nat)
    requires HEADER + RECORD * count <= |b|
    ensures Prefix(f, b, count, []) && Offset(count, [], 0) == HEADER + RECORD * count
    ensures AllStart(f, b, contract, profile, pack, count, [])
  {
  }

  /** The checks on the header that do not need the modules. */
  predicate HeaderFits(b: seq<byte>, contract: Digest, profile: Digest, pack: Digest) {
    && HEADER <= |b| <= MAX_REQUEST && Stands(b, 0, MAGIC) && Read2(b, 8) == 1 && Read2(b, 10) == HEADER
    && Read4(b, 12) == |b| && Read4(b, 24) == RECORD && Read4(b, 28) <= 2 && Read4(b, 176) == 0
    && Stands(b, 208, ZEROS) && 0 < Read4(b, 16) <= 128 && Read4(b, 20) < Read4(b, 16)
    && Stands(b, 48, contract) && Stands(b, 80, profile) && Stands(b, 112, pack)
    && Read4(b, 180) != 0 && Read4(b, 188) != 0 && Read4(b, 192) != 0 && Read4(b, 196) != 0
    && HEADER + RECORD * Read4(b, 16) <= |b|
  }

  function OptionsRead(b: seq<byte>): Options
    requires |b| >= HEADER
  {
    Options(Read4(b, 180), Read4(b, 184), Read4(b, 188), Read4(b, 192), Read4(b, 196), Read4(b, 200), Read4(b, 204))
  }

  lemma CountsRead(b: seq<byte>, r: Request)
    requires |b| >= HEADER
    ensures CountsAt(b, r) <==>
            && Stands(b, 0, MAGIC) && Read2(b, 8) == 1 && Read2(b, 10) == HEADER
            && Read4(b, 12) == Start(r.modules, |r.modules|) && Read4(b, 16) == |r.modules| && Read4(b, 20) == r.entry
            && Read4(b, 24) == RECORD && Read4(b, 28) == r.coverage
  {
    hide Num, Read4, Read2, Stands, Start, Le2;
    HalfReads(b, 8, 1);
    HalfReads(b, 10, HEADER);
    NumReads(b, 12, Start(r.modules, |r.modules|));
    NumReads(b, 16, |r.modules|);
    NumReads(b, 20, r.entry);
    NumReads(b, 24, RECORD);
    NumReads(b, 28, r.coverage);
  }

  lemma OptionsReads(b: seq<byte>, o: Options)
    requires |b| >= HEADER
    ensures OptionsAt(b, o) <==> Read4(b, 176) == 0 && Stands(b, 208, ZEROS) && o == OptionsRead(b)
  {
    hide Num, Read4, Stands;
    NumReads(b, 176, 0);
    NumReads(b, 180, o.imports);
    NumReads(b, 184, o.features);
    NumReads(b, 188, o.instructions);
    NumReads(b, 192, o.functions);
    NumReads(b, 196, o.bytes);
    NumReads(b, 200, o.optimization);
    NumReads(b, 204, o.debug);
  }

  lemma MeantHeader(f: Format, b: seq<byte>, contract: Digest, profile: Digest, pack: Digest, q: Request)
    requires Meant(f, b, contract, profile, pack, q)
    ensures HeaderFits(b, contract, profile, pack) && |q.modules| == Read4(b, 16)
    ensures q == Request(Read4(b, 28), OptionsRead(b), contract, profile, pack, Read4(b, 20), q.modules)
    ensures |b| == Start(q.modules, |q.modules|)
    ensures Stands(b, 32, RequestId(f, q)) && Stands(b, 144, ManifestDigest(f, q))
  {
    hide ModuleAt, Read4, Read2, Stands, CountsAt, OptionsAt, RequestId, ManifestDigest, ValidModule, Ordered, Start;
    StartGrows(q.modules, 0, |q.modules|);
    assert Start(q.modules, 0) == HEADER + RECORD * |q.modules| by {
      StartIs(q.modules);
    }
    CountsRead(b, q);
    OptionsReads(b, q.options);
  }

  lemma StartIs(modules: seq<Module>)
    ensures Start(modules, 0) == HEADER + RECORD * |modules|
  {
  }

  lemma ParsedIsMeant(f: Format, b: seq<byte>, contract: Digest, profile: Digest, pack: Digest, modules: seq<Module>)
    requires HeaderFits(b, contract, profile, pack) && |modules| == Read4(b, 16) && Prefix(f, b, |modules|, modules)
    requires |b| == Start(modules, |modules|)
    requires var r := Request(Read4(b, 28), OptionsRead(b), contract, profile, pack, Read4(b, 20), modules);
             Stands(b, 32, RequestId(f, r)) && Stands(b, 144, ManifestDigest(f, r))
    ensures Meant(f, b, contract, profile, pack, Request(Read4(b, 28), OptionsRead(b), contract, profile, pack, Read4(b, 20), modules))
  {
    hide Read4, Read2, Stands, CountsAt, OptionsAt, RequestId, ManifestDigest, ValidModule, Less, RecordAt, PayloadAt;
    var r := Request(Read4(b, 28), OptionsRead(b), contract, profile, pack, Read4(b, 20), modules);
    CountsRead(b, r);
    OptionsReads(b, r.options);
    forall id | 0 <= id < |modules| ensures ModuleAt(f, b, modules, id) && ValidModule(f, modules[id]) {
      assert Candidate(f, b, HEADER + RECORD * id, Offset(|modules|, modules, id), modules[id]);
    }
  }

  /** The bytes are accepted exactly if they encode a valid request under the expected digests, and then
      that request is the result. */
  method Parse(f: Format, b: seq<byte>, contract: Digest, profile: Digest, pack: Digest) returns (r: Option<Request>)
    ensures r.Some? ==> Meant(f, b, contract, profile, pack, r.value)
    ensures forall q :: Meant(f, b, contract, profile, pack, q) ==> r == Some(q)
  {
    hide Meant, HeaderFits, RequestId, ManifestDigest, Stands;
    forall q | Meant(f, b, contract, profile, pack, q) ensures HeaderFits(b, contract, profile, pack) {
      MeantHeader(f, b, contract, profile, pack, q);
    }
    if !HeaderFits(b, contract, profile, pack) {
      return None;
    }
    HeaderInside(b, contract, profile, pack);
    var count := Read4(b, 16);
    forall q | Meant(f, b, contract, profile, pack, q) ensures |q.modules| == count {
      MeantHeader(f, b, contract, profile, pack, q);
    }
    var modules := ParseModules(f, b, count, contract, profile, pack);
    if modules.None? {
      return None;
    }
    var q0 := Request(Read4(b, 28), OptionsRead(b), contract, profile, pack, Read4(b, 20), modules.value.0);
    forall q | Meant(f, b, contract, profile, pack, q)
      ensures q == q0 && modules.value.1 == |b| && Stands(b, 144, ManifestDigest(f, q0)) && Stands(b, 32, RequestId(f, q0))
    {
      MeantHeader(f, b, contract, profile, pack, q);
    }
    if modules.value.1 == |b| && Stands(b, 144, ManifestDigest(f, q0)) && Stands(b, 32, RequestId(f, q0)) {
      ParsedIsMeant(f, b, contract, profile, pack, modules.value.0);
      return Some(q0);
    }
    return None;
  }

  lemma HeaderInside(b: seq<byte>, contract: Digest, profile: Digest, pack: Digest)
    requires HeaderFits(b, contract, profile, pack)
    ensures HEADER + RECORD * Read4(b, 16) <= |b|
  {
  }

  lemma {:induction false} SameModules(f: Format, b: seq<byte>, contract: Digest, profile: Digest, pack: Digest,
                                       p: Request, q: Request, id: nat)
    requires Meant(f, b, contract, profile, pack, p) && Meant(f, b, contract, profile, pack, q)
    requires |p.modules| == |q.modules| && id <= |p.modules|
    ensures p.modules[..id] == q.modules[..id]
  {
    hide Meant, Candidate, Tiles, ModuleRead, HeaderFits, ReservedZero, Read4, Offset;
    if id > 0 {
      SameModules(f, b, contract, profile, pack, p, q, id - 1);
      var modules := p.modules[..id - 1];
      MeantCandidate(f, b, contract, profile, pack, p, modules);
      MeantCandidate(f, b, contract, profile, pack, q, modules);
      var at := Offset(|p.modules|, modules, id - 1);
      MeantHeader(f, b, contract, profile, pack, p);
      HeaderInside(b, contract, profile, pack);
      CandidateReads(f, b, HEADER + RECORD * (id - 1), at, p.modules[id - 1]);
      CandidateReads(f, b, HEADER + RECORD * (id - 1), at, q.modules[id - 1]);
      LongerPrefix(modules, p.modules);
      LongerPrefix(modules, q.modules);
    }
  }

  /** Bytes encode at most one valid request; and a request has one encoding (EncodingUnique). */
  lemma DecodingUnique(f: Format, b: seq<byte>, contract: Digest, profile: Digest, pack: Digest, p: Request, q: Request)
    requires Meant(f, b, contract, profile, pack, p) && Meant(f, b, contract, profile, pack, q)
    ensures p == q
  {
    hide Meant;
    MeantHeader(f, b, contract, profile, pack, p);
    MeantHeader(f, b, contract, profile, pack, q);
    SameModules(f, b, contract, profile, pack, p, q, |p.modules|);
    assert p.modules[..|p.modules|] == p.modules && q.modules[..|q.modules|] == q.modules;
  }
}
