/** The canonical source request: a fixed header, one record per module in name order, and the payload of
    every module, without gaps. */
module SourceRequest {
  import opened Leb128
  import opened WireBytes

  const ZEROS: seq<byte> := [0, 0, 0, 0, 0, 0, 0, 0, 0, 0, 0, 0, 0, 0, 0, 0, 0, 0, 0, 0, 0, 0, 0, 0, 0, 0, 0, 0, 0, 0, 0, 0]
  type Digest = d: seq<byte> | |d| == 32 witness ZEROS

  /** Hashing and UTF-8 validation. */
  datatype Format = Format(hash: seq<byte> -> Digest, utf8: seq<byte> -> bool)

  datatype Plan = Plan(caller: nat, slot: nat, target: nat)
  datatype Module = Module(name: seq<byte>, sourceName: seq<byte>, content: seq<byte>, plans: seq<Plan>)
  datatype Options = Options(imports: nat, features: nat, instructions: nat, functions: nat, bytes: nat, optimization: nat, debug: nat)

  datatype Request = Request(coverage: nat, options: Options, contract: Digest, profile: Digest, pack: Digest,
                             entry: nat, modules: seq<Module>)

  const HEADER: nat := 240
  const RECORD: nat := 64
  const MAX_REQUEST: nat := 16 * 1024 * 1024
  /** "LUAUCS1" and a zero byte. */
  const MAGIC: seq<byte> := [0x4c, 0x55, 0x41, 0x55, 0x43, 0x53, 0x31, 0]

  // ----- what is valid -----

  predicate U32(v: nat) {
    v < 0x1_0000_0000
  }

  /** Lexicographic order of byte strings. */
  predicate Less(a: seq<byte>, b: seq<byte>) {
    if b == [] then false
    else if a == [] then true
    else a[0] < b[0] || (a[0] == b[0] && Less(a[1..], b[1..]))
  }

  predicate NameByte(c: byte) {
    0x61 <= c <= 0x7a || 0x30 <= c <= 0x39 || c == 0x5f || c == 0x2d || c == 0x2e || c == 0x2f
  }

  predicate ValidName(name: seq<byte>) {
    && name != [] && name[0] != 0x2f && name[|name| - 1] != 0x2f
    && (forall k :: 0 <= k < |name| ==> NameByte(name[k]))
    && forall k :: 0 <= k < |name| - 1 ==> !(name[k] == 0x2e && name[k + 1] == 0x2e)
  }

  /** The name between "@" and ".luau". */
  function SourceName(name: seq<byte>): seq<byte> {
    [0x40] + name + [0x2e, 0x6c, 0x75, 0x61, 0x75]
  }

  predicate PlanBefore(p: Plan, q: Plan) {
    p.caller < q.caller || (p.caller == q.caller && p.slot < q.slot)
  }

  predicate ValidPlan(p: Plan) {
    U32(p.caller) && U32(p.slot) && U32(p.target)
  }

  predicate ValidPlans(plans: seq<Plan>) {
    && |plans| <= 4096
    && (forall k :: 0 <= k < |plans| ==> ValidPlan(plans[k]))
    && forall k :: 0 < k < |plans| ==> PlanBefore(plans[k - 1], plans[k])
  }

  predicate ValidModule(f: Format, m: Module) {
    && 0 < |m.name| <= 1024 && 0 < |m.sourceName| <= 4096 && 0 < |m.content|
    && f.utf8(m.name) && f.utf8(m.sourceName) && f.utf8(m.content)
    && ValidName(m.name) && m.sourceName == SourceName(m.name) && ValidPlans(m.plans)
  }

  predicate ValidOptions(o: Options) {
    && U32(o.imports) && U32(o.features) && U32(o.instructions) && U32(o.functions) && U32(o.bytes)
    && U32(o.optimization) && U32(o.debug)
    && o.imports != 0 && o.instructions != 0 && o.functions != 0 && o.bytes != 0
  }

  predicate Ordered(modules: seq<Module>) {
    forall k :: 0 < k < |modules| ==> Less(modules[k - 1].name, modules[k].name)
  }

  predicate Valid(f: Format, r: Request) {
    && 0 < |r.modules| <= 128 && r.entry < |r.modules| && r.coverage <= 2 && ValidOptions(r.options)
    && (forall k :: 0 <= k < |r.modules| ==> ValidModule(f, r.modules[k])) && Ordered(r.modules)
    && Start(r.modules, |r.modules|) <= MAX_REQUEST
  }

  // ----- layout -----

  function PayloadSize(m: Module): nat {
    |m.name| + |m.sourceName| + |m.content| + 16 * |m.plans|
  }

  /** Where the payload of module `id` starts, among `count` modules. */
  function Offset(count: nat, modules: seq<Module>, id: nat): nat {
    if id == 0 || id > |modules| then HEADER + RECORD * count
    else Offset(count, modules, id - 1) + PayloadSize(modules[id - 1])
  }

  function Start(modules: seq<Module>, id: nat): nat {
    Offset(|modules|, modules, id)
  }

  predicate PlanAt(b: seq<byte>, at: nat, p: Plan) {
    Num(b, at, p.caller) && Num(b, at + 4, p.slot) && Num(b, at + 8, p.target) && Num(b, at + 12, 0)
  }

  predicate PlansAt(b: seq<byte>, at: nat, plans: seq<Plan>) {
    at + 16 * |plans| <= |b| && forall k :: 0 <= k < |plans| ==> PlanStands(b, at, plans, k)
  }

  predicate PlanStands(b: seq<byte>, at: nat, plans: seq<Plan>, k: nat)
    requires k < |plans|
  {
    PlanAt(b, at + 16 * k, plans[k])
  }

  /** The record of a module whose payload starts at `at`. */
  predicate RecordAt(f: Format, b: seq<byte>, record: nat, at: nat, m: Module) {
    var source, content, plans := at + |m.name|, at + |m.name| + |m.sourceName|, at + |m.name| + |m.sourceName| + |m.content|;
    && Num(b, record, at) && Num(b, record + 4, |m.name|)
    && Num(b, record + 8, source) && Num(b, record + 12, |m.sourceName|)
    && Num(b, record + 16, content) && Num(b, record + 20, |m.content|)
    && Stands(b, record + 24, f.hash(m.content))
    && Num(b, record + 56, if m.plans == [] then 0 else plans) && Num(b, record + 60, |m.plans|)
  }

  predicate PayloadAt(b: seq<byte>, at: nat, m: Module) {
    && Stands(b, at, m.name) && Stands(b, at + |m.name|, m.sourceName)
    && Stands(b, at + |m.name| + |m.sourceName|, m.content)
    && PlansAt(b, at + |m.name| + |m.sourceName| + |m.content|, m.plans)
  }

  predicate ModuleAt(f: Format, b: seq<byte>, modules: seq<Module>, id: nat)
    requires id < |modules|
  {
    RecordAt(f, b, HEADER + RECORD * id, Start(modules, id), modules[id]) && PayloadAt(b, Start(modules, id), modules[id])
  }

  // ----- digests -----

  function PlanBytes(plans: seq<Plan>, n: nat): seq<byte>
    requires n <= |plans|
  {
    if n == 0 then []
    else PlanBytes(plans, n - 1) + Le4(plans[n - 1].caller) + Le4(plans[n - 1].slot) + Le4(plans[n - 1].target) + Le4(0)
  }

  function ManifestEntry(f: Format, m: Module): seq<byte> {
    Le4(|m.name|) + m.name + Le4(|m.sourceName|) + m.sourceName + f.hash(m.content)
    + Le4(|m.plans|) + PlanBytes(m.plans, |m.plans|)
  }

  /** The bytes hashed for the manifest. */
  function Manifest(f: Format, count: nat, entry: nat, modules: seq<Module>, n: nat): seq<byte>
    requires n <= |modules|
  {
    if n == 0 then Le4(count) + Le4(entry) else Manifest(f, count, entry, modules, n - 1) + ManifestEntry(f, modules[n - 1])
  }

  function OptionBytes(o: Options): seq<byte> {
    Le4(0) + Le4(o.imports) + Le4(o.features) + Le4(o.instructions) + Le4(o.functions) + Le4(o.bytes)
    + Le4(o.optimization) + Le4(o.debug)
  }

  /** "luauc-source-request-v1" and a zero byte. */
  const DOMAIN: seq<byte> := [0x6c, 0x75, 0x61, 0x75, 0x63, 0x2d, 0x73, 0x6f, 0x75, 0x72, 0x63, 0x65, 0x2d, 0x72, 0x65,
                              0x71, 0x75, 0x65, 0x73, 0x74, 0x2d, 0x76, 0x31, 0]

  function PlanLists(modules: seq<Module>, n: nat): seq<byte>
    requires n <= |modules|
  {
    if n == 0 then []
    else PlanLists(modules, n - 1) + Le4(|modules[n - 1].plans|) + PlanBytes(modules[n - 1].plans, |modules[n - 1].plans|)
  }

  function ManifestDigest(f: Format, r: Request): Digest {
    f.hash(Manifest(f, |r.modules|, r.entry, r.modules, |r.modules|))
  }

  /** The bytes hashed for the identity of a request. */
  function IdBytes(f: Format, r: Request): seq<byte> {
    DOMAIN + Le4(r.coverage) + r.contract + r.profile + r.pack + ManifestDigest(f, r) + OptionBytes(r.options)
    + PlanLists(r.modules, |r.modules|)
  }

  /** The first half of the digest that identifies the request. */
  function RequestId(f: Format, r: Request): (id: seq<byte>)
    ensures |id| == 16
  {
    f.hash(IdBytes(f, r))[..16]
  }

  predicate CountsAt(b: seq<byte>, r: Request) {
    && Stands(b, 0, MAGIC) && Stands(b, 8, Le2(1)) && Stands(b, 10, Le2(HEADER))
    && Num(b, 12, Start(r.modules, |r.modules|)) && Num(b, 16, |r.modules|) && Num(b, 20, r.entry)
    && Num(b, 24, RECORD) && Num(b, 28, r.coverage)
  }

  predicate DigestsAt(f: Format, b: seq<byte>, r: Request) {
    && Stands(b, 32, RequestId(f, r)) && Stands(b, 48, r.contract) && Stands(b, 80, r.profile) && Stands(b, 112, r.pack)
    && Stands(b, 144, ManifestDigest(f, r))
  }

  predicate OptionsAt(b: seq<byte>, o: Options) {
    && Num(b, 176, 0) && Num(b, 180, o.imports) && Num(b, 184, o.features)
    && Num(b, 188, o.instructions) && Num(b, 192, o.functions) && Num(b, 196, o.bytes)
    && Num(b, 200, o.optimization) && Num(b, 204, o.debug)
    && Stands(b, 208, ZEROS)
  }

  predicate HeaderAt(f: Format, b: seq<byte>, r: Request) {
    CountsAt(b, r) && DigestsAt(f, b, r) && OptionsAt(b, r.options)
  }

  /** The bytes are the request, whole and in its only layout. */
  ghost predicate Encodes(f: Format, b: seq<byte>, r: Request) {
    && |b| == Start(r.modules, |r.modules|) && HeaderAt(f, b, r)
    && forall id :: 0 <= id < |r.modules| ==> ModuleAt(f, b, r.modules, id)
  }

  // ----- the layout leaves no byte open -----

  lemma HeaderUnique(f: Format, a: seq<byte>, b: seq<byte>, r: Request, k: nat)
    requires HeaderAt(f, a, r) && HeaderAt(f, b, r) && k < HEADER
    ensures k < |a| && k < |b| && a[k] == b[k]
  {
    hide Start, Manifest, PlanLists, Le4, Le2;
    if k < 8 { SameByte(a, b, 0, MAGIC, k); }
    else if k < 10 { SameByte(a, b, 8, Le2(1), k); }
    else if k < 12 { SameByte(a, b, 10, Le2(HEADER), k); }
    else if k < 16 { SameByte(a, b, 12, Le4(Start(r.modules, |r.modules|)), k); }
    else if k < 20 { SameByte(a, b, 16, Le4(|r.modules|), k); }
    else if k < 24 { SameByte(a, b, 20, Le4(r.entry), k); }
    else if k < 28 { SameByte(a, b, 24, Le4(RECORD), k); }
    else if k < 32 { SameByte(a, b, 28, Le4(r.coverage), k); }
    else if k < 48 { SameByte(a, b, 32, RequestId(f, r), k); }
    else if k < 80 { SameByte(a, b, 48, r.contract, k); }
    else if k < 112 { SameByte(a, b, 80, r.profile, k); }
    else if k < 144 { SameByte(a, b, 112, r.pack, k); }
    else if k < 176 { SameByte(a, b, 144, ManifestDigest(f, r), k); }
    else if k < 180 { SameByte(a, b, 176, Le4(0), k); }
    else if k < 184 { SameByte(a, b, 180, Le4(r.options.imports), k); }
    else if k < 188 { SameByte(a, b, 184, Le4(r.options.features), k); }
    else if k < 192 { SameByte(a, b, 188, Le4(r.options.instructions), k); }
    else if k < 196 { SameByte(a, b, 192, Le4(r.options.functions), k); }
    else if k < 200 { SameByte(a, b, 196, Le4(r.options.bytes), k); }
    else if k < 204 { SameByte(a, b, 200, Le4(r.options.optimization), k); }
    else if k < 208 { SameByte(a, b, 204, Le4(r.options.debug), k); }
    else { SameByte(a, b, 208, ZEROS, k); }
  }

  lemma RecordUnique(f: Format, a: seq<byte>, b: seq<byte>, record: nat, at: nat, m: Module, k: nat)
    requires RecordAt(f, a, record, at, m) && RecordAt(f, b, record, at, m) && record <= k < record + RECORD
    ensures k < |a| && k < |b| && a[k] == b[k]
  {
    hide Le4;
    var source, content, plans := at + |m.name|, at + |m.name| + |m.sourceName|, at + |m.name| + |m.sourceName| + |m.content|;
    if k < record + 4 { SameByte(a, b, record, Le4(at), k); }
    else if k < record + 8 { SameByte(a, b, record + 4, Le4(|m.name|), k); }
    else if k < record + 12 { SameByte(a, b, record + 8, Le4(source), k); }
    else if k < record + 16 { SameByte(a, b, record + 12, Le4(|m.sourceName|), k); }
    else if k < record + 20 { SameByte(a, b, record + 16, Le4(content), k); }
    else if k < record + 24 { SameByte(a, b, record + 20, Le4(|m.content|), k); }
    else if k < record + 56 { SameByte(a, b, record + 24, f.hash(m.content), k); }
    else if k < record + 60 { SameByte(a, b, record + 56, Le4(if m.plans == [] then 0 else plans), k); }
    else { SameByte(a, b, record + 60, Le4(|m.plans|), k); }
  }

  lemma PlansUnique(a: seq<byte>, b: seq<byte>, at: nat, plans: seq<Plan>, k: nat)
    requires PlansAt(a, at, plans) && PlansAt(b, at, plans) && at <= k < at + 16 * |plans|
    ensures k < |a| && k < |b| && a[k] == b[k]
  {
    hide Le4;
    var n := (k - at) / 16;
    assert PlanStands(a, at, plans, n) && PlanStands(b, at, plans, n);
    var o := at + 16 * n;
    if k < o + 4 { SameByte(a, b, o, Le4(plans[n].caller), k); }
    else if k < o + 8 { SameByte(a, b, o + 4, Le4(plans[n].slot), k); }
    else if k < o + 12 { SameByte(a, b, o + 8, Le4(plans[n].target), k); }
    else { SameByte(a, b, o + 12, Le4(0), k); }
  }

  lemma PayloadUnique(a: seq<byte>, b: seq<byte>, at: nat, m: Module, k: nat)
    requires PayloadAt(a, at, m) && PayloadAt(b, at, m) && at <= k < at + PayloadSize(m)
    ensures k < |a| && k < |b| && a[k] == b[k]
  {
    if k < at + |m.name| {
      SameByte(a, b, at, m.name, k);
    } else if k < at + |m.name| + |m.sourceName| {
      SameByte(a, b, at + |m.name|, m.sourceName, k);
    } else if k < at + |m.name| + |m.sourceName| + |m.content| {
      SameByte(a, b, at + |m.name| + |m.sourceName|, m.content, k);
    } else {
      PlansUnique(a, b, at + |m.name| + |m.sourceName| + |m.content|, m.plans, k);
    }
  }

  lemma {:induction false} StartGrows(modules: seq<Module>, i: nat, j: nat)
    requires i <= j <= |modules|
    ensures HEADER + RECORD * |modules| <= Start(modules, i) <= Start(modules, j)
    decreases j
  {
    if i < j {
      StartGrows(modules, i, j - 1);
    } else if i > 0 {
      StartGrows(modules, i - 1, i - 1);
    }
  }

  /** Every byte behind the records lies in the payload of one module. */
  lemma {:induction false} PayloadOf(modules: seq<Module>, n: nat, k: nat) returns (id: nat)
    requires n <= |modules| && HEADER + RECORD * |modules| <= k < Start(modules, n)
    ensures id < n && Start(modules, id) <= k < Start(modules, id) + PayloadSize(modules[id])
  {
    if k < Start(modules, n - 1) {
      id := PayloadOf(modules, n - 1, k);
    } else {
      id := n - 1;
    }
  }

  /** A request has one encoding. */
  lemma EncodingUnique(f: Format, a: seq<byte>, b: seq<byte>, r: Request)
    requires Encodes(f, a, r) && Encodes(f, b, r)
    ensures a == b
  {
    hide RecordAt, PayloadAt, HeaderAt, Start;
    forall k | 0 <= k < |a| ensures a[k] == b[k] {
      if k < HEADER {
        HeaderUnique(f, a, b, r, k);
      } else if k < HEADER + RECORD * |r.modules| {
        var id := (k - HEADER) / RECORD;
        assert ModuleAt(f, a, r.modules, id) && ModuleAt(f, b, r.modules, id);
        RecordUnique(f, a, b, HEADER + RECORD * id, Start(r.modules, id), r.modules[id], k);
      } else {
        var id := PayloadOf(r.modules, |r.modules|, k);
        assert ModuleAt(f, a, r.modules, id) && ModuleAt(f, b, r.modules, id);
        PayloadUnique(a, b, Start(r.modules, id), r.modules[id], k);
      }
    }
  }
}
