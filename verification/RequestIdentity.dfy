/** What the two digests of a request identify: bytes hashed for them leave no field of the request open. */
module RequestIdentity {
  import opened Leb128
  import opened WireBytes
  import opened SourceRequest

  // ----- reading concatenations -----

  lemma StandsSplit(w: seq<byte>, o: nat, a: seq<byte>, b: seq<byte>)
    requires Stands(w, o, a + b)
    ensures Stands(w, o, a) && Stands(w, o + |a|, b)
  {
    assert w[o..o + |a + b|][..|a|] == w[o..o + |a|] && w[o..o + |a + b|][|a|..] == w[o + |a|..o + |a| + |b|];
    assert (a + b)[..|a|] == a && (a + b)[|a|..] == b;
  }

  lemma SameNumber(w: seq<byte>, o: nat, v: nat, u: nat)
    requires Stands(w, o, Le4(v)) && Stands(w, o, Le4(u)) && U32(v) && U32(u)
    ensures v == u
  {
    NumReads(w, o, v);
    NumReads(w, o, u);
  }

  lemma SameChunk(w: seq<byte>, o: nat, a: seq<byte>, b: seq<byte>)
    requires Stands(w, o, a) && Stands(w, o, b) && |a| == |b|
    ensures a == b
  {
  }

  // ----- plans -----

  lemma PlanSplit(w: seq<byte>, o: nat, plans: seq<Plan>, n: nat)
    requires 0 < n <= |plans| && Stands(w, o, PlanBytes(plans, n))
    ensures |PlanBytes(plans, n)| == |PlanBytes(plans, n - 1)| + 16 && Stands(w, o, PlanBytes(plans, n - 1))
    ensures var at, p := o + |PlanBytes(plans, n - 1)|, plans[n - 1];
            Stands(w, at, Le4(p.caller)) && Stands(w, at + 4, Le4(p.slot)) && Stands(w, at + 8, Le4(p.target))
  {
    hide Le4, Stands;
    var head, p := PlanBytes(plans, n - 1), plans[n - 1];
    StandsSplit(w, o, head + Le4(p.caller) + Le4(p.slot) + Le4(p.target), Le4(0));
    StandsSplit(w, o, head + Le4(p.caller) + Le4(p.slot), Le4(p.target));
    StandsSplit(w, o, head + Le4(p.caller), Le4(p.slot));
    StandsSplit(w, o, head, Le4(p.caller));
  }

  lemma {:induction false} PlanSize(plans: seq<Plan>, n: nat)
    requires n <= |plans|
    ensures |PlanBytes(plans, n)| == 16 * n
  {
    if n > 0 {
      PlanSize(plans, n - 1);
    }
  }

  /** As many plans with the same bytes are the same plans. */
  lemma {:induction false} PlansOnce(w: seq<byte>, o: nat, a: seq<Plan>, b: seq<Plan>, n: nat)
    requires n <= |a| && n <= |b| && Stands(w, o, PlanBytes(a, n)) && Stands(w, o, PlanBytes(b, n))
    requires forall k :: 0 <= k < n ==> ValidPlan(a[k]) && ValidPlan(b[k])
    ensures a[..n] == b[..n]
  {
    hide Stands, Le4, PlanBytes;
    if n > 0 {
      PlanSplit(w, o, a, n);
      PlanSplit(w, o, b, n);
      PlanSize(a, n - 1);
      PlanSize(b, n - 1);
      PlansOnce(w, o, a, b, n - 1);
      var at := o + 16 * (n - 1);
      SameNumber(w, at, a[n - 1].caller, b[n - 1].caller);
      SameNumber(w, at + 4, a[n - 1].slot, b[n - 1].slot);
      SameNumber(w, at + 8, a[n - 1].target, b[n - 1].target);
      assert a[..n] == a[..n - 1] + [a[n - 1]] && b[..n] == b[..n - 1] + [b[n - 1]];
    }
  }

  lemma AllPlansOnce(w: seq<byte>, o: nat, a: seq<Plan>, b: seq<Plan>)
    requires Stands(w, o, Le4(|a|)) && Stands(w, o, Le4(|b|)) && ValidPlans(a) && ValidPlans(b)
    requires Stands(w, o + 4, PlanBytes(a, |a|)) && Stands(w, o + 4, PlanBytes(b, |b|))
    ensures a == b
  {
    SameNumber(w, o, |a|, |b|);
    PlansOnce(w, o + 4, a, b, |a|);
    assert a == a[..|a|] && b == b[..|b|];
  }

  // ----- the manifest -----

  /** What a manifest says of a module. */
  ghost predicate SameModule(f: Format, a: Module, b: Module) {
    a.name == b.name && a.sourceName == b.sourceName && f.hash(a.content) == f.hash(b.content) && a.plans == b.plans
  }

  lemma EntrySplit(f: Format, w: seq<byte>, o: nat, m: Module)
    requires Stands(w, o, ManifestEntry(f, m))
    ensures Stands(w, o, Le4(|m.name|)) && Stands(w, o + 4, m.name)
    ensures var at := o + 4 + |m.name|;
            && Stands(w, at, Le4(|m.sourceName|)) && Stands(w, at + 4, m.sourceName)
            && Stands(w, at + 4 + |m.sourceName|, f.hash(m.content)) && Stands(w, at + 36 + |m.sourceName|, Le4(|m.plans|))
            && Stands(w, at + 40 + |m.sourceName|, PlanBytes(m.plans, |m.plans|))
  {
    hide Le4, Stands, PlanBytes;
    var a, b := Le4(|m.name|), Le4(|m.sourceName|);
    StandsSplit(w, o, a + m.name + b + m.sourceName + f.hash(m.content) + Le4(|m.plans|), PlanBytes(m.plans, |m.plans|));
    StandsSplit(w, o, a + m.name + b + m.sourceName + f.hash(m.content), Le4(|m.plans|));
    StandsSplit(w, o, a + m.name + b + m.sourceName, f.hash(m.content));
    StandsSplit(w, o, a + m.name + b, m.sourceName);
    StandsSplit(w, o, a + m.name, b);
    StandsSplit(w, o, a, m.name);
  }

  /** An entry of the manifest ends where its fields say. */
  lemma EntryOnce(f: Format, w: seq<byte>, o: nat, a: Module, b: Module)
    requires Stands(w, o, ManifestEntry(f, a)) && Stands(w, o, ManifestEntry(f, b)) && ValidModule(f, a) && ValidModule(f, b)
    ensures SameModule(f, a, b)
  {
    hide Le4, Stands, PlanBytes, ManifestEntry, ValidName, ValidPlans;
    EntrySplit(f, w, o, a);
    EntrySplit(f, w, o, b);
    SameNumber(w, o, |a.name|, |b.name|);
    SameChunk(w, o + 4, a.name, b.name);
    var at := o + 4 + |a.name|;
    SameNumber(w, at, |a.sourceName|, |b.sourceName|);
    SameChunk(w, at + 4, a.sourceName, b.sourceName);
    SameChunk(w, at + 4 + |a.sourceName|, f.hash(a.content), f.hash(b.content));
    AllPlansOnce(w, at + 36 + |a.sourceName|, a.plans, b.plans);
  }

  ghost predicate ValidModules(f: Format, modules: seq<Module>) {
    forall k :: 0 <= k < |modules| ==> ValidModule(f, modules[k])
  }

  /** Equal beginnings of two manifests name equal modules. */
  lemma {:induction false} EntriesOnce(f: Format, w: seq<byte>, count: nat, entry: nat, a: seq<Module>, b: seq<Module>, n: nat)
    requires n <= |a| && n <= |b| && ValidModules(f, a) && ValidModules(f, b)
    requires Stands(w, 0, Manifest(f, count, entry, a, n)) && Stands(w, 0, Manifest(f, count, entry, b, n))
    ensures Manifest(f, count, entry, a, n) == Manifest(f, count, entry, b, n)
    ensures forall k :: 0 <= k < n ==> SameModule(f, a[k], b[k])
  {
    hide Stands, ManifestEntry, SameModule, ValidModule;
    if n > 0 {
      var s, t := Manifest(f, count, entry, a, n - 1), Manifest(f, count, entry, b, n - 1);
      StandsSplit(w, 0, s, ManifestEntry(f, a[n - 1]));
      StandsSplit(w, 0, t, ManifestEntry(f, b[n - 1]));
      EntriesOnce(f, w, count, entry, a, b, n - 1);
      EntryOnce(f, w, |s|, a[n - 1], b[n - 1]);
      SameEntry(f, a[n - 1], b[n - 1]);
    }
  }

  lemma SameEntry(f: Format, a: Module, b: Module)
    requires SameModule(f, a, b)
    ensures ManifestEntry(f, a) == ManifestEntry(f, b)
  {
  }

  lemma {:induction false} ManifestHead(f: Format, w: seq<byte>, count: nat, entry: nat, modules: seq<Module>, n: nat)
    requires n <= |modules| && Stands(w, 0, Manifest(f, count, entry, modules, n))
    ensures Stands(w, 0, Le4(count)) && Stands(w, 4, Le4(entry))
  {
    hide Stands, ManifestEntry, Le4;
    if n > 0 {
      StandsSplit(w, 0, Manifest(f, count, entry, modules, n - 1), ManifestEntry(f, modules[n - 1]));
      ManifestHead(f, w, count, entry, modules, n - 1);
    } else {
      StandsSplit(w, 0, Le4(count), Le4(entry));
    }
  }

  function ManifestBytes(f: Format, r: Request): seq<byte> {
    Manifest(f, |r.modules|, r.entry, r.modules, |r.modules|)
  }

  lemma Whole(w: seq<byte>)
    ensures Stands(w, 0, w)
  {
  }

  /** The manifest of a valid request determines its modules, up to their contents' digests, and its entry. */
  lemma ManifestDetermines(f: Format, r: Request, s: Request)
    requires Valid(f, r) && Valid(f, s) && ManifestBytes(f, r) == ManifestBytes(f, s)
    ensures |r.modules| == |s.modules| && r.entry == s.entry
    ensures forall k :: 0 <= k < |r.modules| ==> SameModule(f, r.modules[k], s.modules[k])
  {
    hide Manifest, Stands, Le4, ValidModule, SameModule, Ordered, Start;
    var w := ManifestBytes(f, r);
    Whole(w);
    ManifestHead(f, w, |r.modules|, r.entry, r.modules, |r.modules|);
    ManifestHead(f, w, |s.modules|, s.entry, s.modules, |s.modules|);
    SameNumber(w, 0, |r.modules|, |s.modules|);
    SameNumber(w, 4, r.entry, s.entry);
    EntriesOnce(f, w, |r.modules|, r.entry, r.modules, s.modules, |r.modules|);
  }

  // ----- the identity -----

  lemma ListsSplit(w: seq<byte>, o: nat, modules: seq<Module>, n: nat)
    requires 0 < n <= |modules| && Stands(w, o, PlanLists(modules, n))
    ensures Stands(w, o, PlanLists(modules, n - 1)) && |PlanLists(modules, n)| > |PlanLists(modules, n - 1)|
    ensures var at, plans := o + |PlanLists(modules, n - 1)|, modules[n - 1].plans;
            Stands(w, at, Le4(|plans|)) && Stands(w, at + 4, PlanBytes(plans, |plans|))
  {
    hide Le4, Stands, PlanBytes;
    var head, plans := PlanLists(modules, n - 1), modules[n - 1].plans;
    StandsSplit(w, o, head + Le4(|plans|), PlanBytes(plans, |plans|));
    StandsSplit(w, o, head, Le4(|plans|));
  }

  lemma {:induction false} ListsOnce(f: Format, w: seq<byte>, o: nat, a: seq<Module>, b: seq<Module>, n: nat)
    requires n <= |a| && n <= |b| && ValidModules(f, a) && ValidModules(f, b)
    requires Stands(w, o, PlanLists(a, n)) && Stands(w, o, PlanLists(b, n))
    ensures |PlanLists(a, n)| == |PlanLists(b, n)| && forall k :: 0 <= k < n ==> a[k].plans == b[k].plans
  {
    hide Stands, Le4, PlanBytes, ValidPlans, ValidName;
    if n > 0 {
      ListsSplit(w, o, a, n);
      ListsSplit(w, o, b, n);
      ListsOnce(f, w, o, a, b, n - 1);
      assert ValidModule(f, a[n - 1]) && ValidModule(f, b[n - 1]);
      AllPlansOnce(w, o + |PlanLists(a, n - 1)|, a[n - 1].plans, b[n - 1].plans);
    }
  }

  lemma {:induction false} ListsGrow(w: seq<byte>, o: nat, modules: seq<Module>, i: nat, j: nat)
    requires i <= j <= |modules| && Stands(w, o, PlanLists(modules, j))
    ensures Stands(w, o, PlanLists(modules, i)) && (i < j ==> |PlanLists(modules, i)| < |PlanLists(modules, j)|)
    decreases j
  {
    hide Stands, PlanLists;
    if i < j {
      ListsSplit(w, o, modules, j);
      ListsGrow(w, o, modules, i, j - 1);
    }
  }

  /** The same bytes are as many lists of the same plans. */
  lemma AllListsOnce(f: Format, w: seq<byte>, o: nat, a: seq<Module>, b: seq<Module>)
    requires ValidModules(f, a) && ValidModules(f, b) && PlanLists(a, |a|) == PlanLists(b, |b|) && Stands(w, o, PlanLists(a, |a|))
    ensures |a| == |b| && forall k :: 0 <= k < |a| ==> a[k].plans == b[k].plans
  {
    hide Stands, PlanLists, ValidModule;
    var n := if |a| <= |b| then |a| else |b|;
    ListsGrow(w, o, a, n, |a|);
    ListsGrow(w, o, b, n, |b|);
    ListsOnce(f, w, o, a, b, n);
  }

  lemma OptionsOnce(w: seq<byte>, o: nat, a: Options, b: Options)
    requires Stands(w, o, OptionBytes(a)) && Stands(w, o, OptionBytes(b)) && ValidOptions(a) && ValidOptions(b)
    ensures a == b
  {
    hide Stands, Le4, OptionBytes;
    OptionsSplit(w, o, a);
    OptionsSplit(w, o, b);
    SameNumber(w, o + 4, a.imports, b.imports);
    SameNumber(w, o + 8, a.features, b.features);
    SameNumber(w, o + 12, a.instructions, b.instructions);
    SameNumber(w, o + 16, a.functions, b.functions);
    SameNumber(w, o + 20, a.bytes, b.bytes);
    SameNumber(w, o + 24, a.optimization, b.optimization);
    SameNumber(w, o + 28, a.debug, b.debug);
  }

  lemma OptionsSplit(w: seq<byte>, o: nat, a: Options)
    requires Stands(w, o, OptionBytes(a))
    ensures Stands(w, o + 4, Le4(a.imports)) && Stands(w, o + 8, Le4(a.features)) && Stands(w, o + 12, Le4(a.instructions))
    ensures Stands(w, o + 16, Le4(a.functions)) && Stands(w, o + 20, Le4(a.bytes)) && Stands(w, o + 24, Le4(a.optimization))
    ensures Stands(w, o + 28, Le4(a.debug))
  {
    hide Stands, Le4;
    var x := Le4(0) + Le4(a.imports) + Le4(a.features) + Le4(a.instructions);
    StandsSplit(w, o, x + Le4(a.functions) + Le4(a.bytes) + Le4(a.optimization), Le4(a.debug));
    StandsSplit(w, o, x + Le4(a.functions) + Le4(a.bytes), Le4(a.optimization));
    StandsSplit(w, o, x + Le4(a.functions), Le4(a.bytes));
    StandsSplit(w, o, x, Le4(a.functions));
    StandsSplit(w, o, Le4(0) + Le4(a.imports) + Le4(a.features), Le4(a.instructions));
    StandsSplit(w, o, Le4(0) + Le4(a.imports), Le4(a.features));
    StandsSplit(w, o, Le4(0), Le4(a.imports));
  }

  lemma IdSplit(f: Format, w: seq<byte>, r: Request)
    requires Stands(w, 0, IdBytes(f, r))
    ensures Stands(w, 24, Le4(r.coverage)) && Stands(w, 28, r.contract) && Stands(w, 60, r.profile) && Stands(w, 92, r.pack)
    ensures Stands(w, 124, ManifestDigest(f, r)) && Stands(w, 156, OptionBytes(r.options)) && |OptionBytes(r.options)| == 32
    ensures Stands(w, 188, PlanLists(r.modules, |r.modules|)) && |IdBytes(f, r)| == 188 + |PlanLists(r.modules, |r.modules|)|
  {
    hide Stands, Le4, ManifestDigest, PlanLists;
    var x, d, o, l := DOMAIN + Le4(r.coverage) + r.contract + r.profile, ManifestDigest(f, r), OptionBytes(r.options),
                      PlanLists(r.modules, |r.modules|);
    StandsSplit(w, 0, x + r.pack + d + o, l);
    StandsSplit(w, 0, x + r.pack + d, o);
    StandsSplit(w, 0, x + r.pack, d);
    StandsSplit(w, 0, x, r.pack);
    StandsSplit(w, 0, DOMAIN + Le4(r.coverage) + r.contract, r.profile);
    StandsSplit(w, 0, DOMAIN + Le4(r.coverage), r.contract);
    StandsSplit(w, 0, DOMAIN, Le4(r.coverage));
  }

  /** The bytes under the identity determine everything that is not a module's text, and the manifest's digest. */
  lemma IdDetermines(f: Format, r: Request, s: Request)
    requires Valid(f, r) && Valid(f, s) && IdBytes(f, r) == IdBytes(f, s)
    ensures r.coverage == s.coverage && r.contract == s.contract && r.profile == s.profile && r.pack == s.pack
    ensures ManifestDigest(f, r) == ManifestDigest(f, s) && r.options == s.options
    ensures |r.modules| == |s.modules| && forall k :: 0 <= k < |r.modules| ==> r.modules[k].plans == s.modules[k].plans
  {
    hide IdBytes, ManifestDigest, OptionBytes, PlanLists, Stands, Le4, ValidModule, ValidOptions, Ordered, Start;
    var w := IdBytes(f, r);
    Whole(w);
    IdSplit(f, w, r);
    IdSplit(f, w, s);
    SameNumber(w, 24, r.coverage, s.coverage);
    SameChunk(w, 28, r.contract, s.contract);
    SameChunk(w, 60, r.profile, s.profile);
    SameChunk(w, 92, r.pack, s.pack);
    SameChunk(w, 124, ManifestDigest(f, r), ManifestDigest(f, s));
    OptionsOnce(w, 156, r.options, s.options);
    SameChunk(w, 188, PlanLists(r.modules, |r.modules|), PlanLists(s.modules, |s.modules|));
    AllListsOnce(f, w, 188, r.modules, s.modules);
  }

  /** The digests of two requests, or of two of their modules' texts, agree for different bytes. */
  ghost predicate Collide(f: Format, r: Request, s: Request) {
    || (IdBytes(f, r) != IdBytes(f, s) && f.hash(IdBytes(f, r))[..16] == f.hash(IdBytes(f, s))[..16])
    || (ManifestBytes(f, r) != ManifestBytes(f, s) && f.hash(ManifestBytes(f, r)) == f.hash(ManifestBytes(f, s)))
    || exists k :: 0 <= k < |r.modules| && k < |s.modules| && SameDigest(f, r.modules[k], s.modules[k])
  }

  ghost predicate SameDigest(f: Format, a: Module, b: Module) {
    a.content != b.content && f.hash(a.content) == f.hash(b.content)
  }

  /** The identity identifies: valid requests with the same one are the same, contents included, but for
      collisions of the digest. */
  lemma IdIdentifies(f: Format, r: Request, s: Request)
    requires Valid(f, r) && Valid(f, s) && RequestId(f, r) == RequestId(f, s)
    ensures r == s || Collide(f, r, s)
  {
    hide IdBytes, Manifest, ValidModule, ValidOptions, Ordered, Start;
    if !Collide(f, r, s) {
      IdDetermines(f, r, s);
      ManifestDetermines(f, r, s);
      forall k | 0 <= k < |r.modules| ensures r.modules[k] == s.modules[k] {
        assert SameModule(f, r.modules[k], s.modules[k]) && !SameDigest(f, r.modules[k], s.modules[k]);
      }
      assert r.modules == s.modules;
    }
  }

  /** The identity is separated from other digests by its text. */
  lemma IdDomain(f: Format, r: Request, k: nat)
    ensures var text := "luauc-source-request-v1";
            |IdBytes(f, r)| > |text| && (k < |text| ==> IdBytes(f, r)[k] as int == text[k] as int) && IdBytes(f, r)[|text|] == 0
  {
    hide Le4, ManifestDigest, OptionBytes, PlanLists;
    assert IdBytes(f, r)[..|DOMAIN|] == DOMAIN;
  }
}
