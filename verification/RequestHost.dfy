/** The host's side: modules in any order become the one canonical request. */
module RequestHost {
  import opened Wrappers
  import opened Leb128
  import opened SourceRequest
  import opened RequestEncoder
  import opened RequestParser
  import opened Sorting

  // ----- the order of names -----

  lemma {:induction false} LessTotal(a: seq<byte>, b: seq<byte>)
    ensures Less(a, b) || a == b || Less(b, a)
    ensures !(Less(a, b) && Less(b, a)) && !Less(a, a)
    decreases |a|
  {
    if a != [] {
      LessTotal(a[1..], a[1..]);
      if b != [] && a[0] == b[0] {
        LessTotal(a[1..], b[1..]);
        assert a == [a[0]] + a[1..] && b == [b[0]] + b[1..];
      }
    }
  }

  lemma {:induction false} LessTransitive(a: seq<byte>, b: seq<byte>, c: seq<byte>)
    requires Less(a, b) && Less(b, c)
    ensures Less(a, c)
    decreases |a|
  {
    if a != [] && a[0] == b[0] == c[0] {
      LessTransitive(a[1..], b[1..], c[1..]);
    }
  }

  // ----- the request -----

  function SortPlans(plans: seq<Plan>): seq<Plan> {
    Sort(PlanBefore, plans)
  }

  predicate NameBefore(m: Module, n: Module) {
    Less(m.name, n.name)
  }

  function SortModules(modules: seq<Module>): seq<Module> {
    Sort(NameBefore, modules)
  }

  function WithPlansSorted(modules: seq<Module>): (r: seq<Module>)
    ensures |r| == |modules|
    ensures forall k :: 0 <= k < |r| ==> r[k] == modules[k].(plans := SortPlans(modules[k].plans))
    decreases |modules|
  {
    if modules == [] then [] else [modules[0].(plans := SortPlans(modules[0].plans))] + WithPlansSorted(modules[1..])
  }

  /** The modules of the request: plans sorted by call site, modules by name. */
  function Canonical(modules: seq<Module>): seq<Module> {
    SortModules(WithPlansSorted(modules))
  }

  predicate SameSite(p: Plan, q: Plan) {
    p.caller == q.caller && p.slot == q.slot
  }

  /** No call site has two plans. */
  predicate SitesUnique(m: Module) {
    forall i, j :: 0 <= i < j < |m.plans| ==> !SameSite(m.plans[i], m.plans[j])
  }

  predicate NamesUnique(modules: seq<Module>) {
    forall i, j :: 0 <= i < j < |modules| ==> modules[i].name != modules[j].name
  }

  /** What the host tests once all is sorted: neighbours only. */
  predicate SitesDistinct(m: Module) {
    forall k :: 0 < k < |m.plans| ==> !SameSite(m.plans[k - 1], m.plans[k])
  }

  predicate NamesDistinct(modules: seq<Module>) {
    forall k :: 0 < k < |modules| ==> modules[k - 1].name != modules[k].name
  }

  /** The neighbour tests find every duplicate. */
  lemma NeighbourSites(m: Module)
    ensures SitesDistinct(m.(plans := SortPlans(m.plans))) <==> SitesUnique(m)
  {
    hide Sort;
    SortedNeighbours(PlanBefore, m.plans);
  }

  lemma NameTies(m: Module, n: Module)
    ensures Tie(NameBefore, m, n) <==> m.name == n.name
  {
    LessTotal(m.name, n.name);
  }

  lemma NamesOrder()
    ensures Asymmetric(NameBefore) && Transitive(NameBefore)
  {
    forall m, n ensures NameBefore(m, n) ==> !NameBefore(n, m) {
      LessTotal(m.name, n.name);
    }
    forall l, m, n | NameBefore(l, m) && NameBefore(m, n) ensures NameBefore(l, n) {
      LessTransitive(l.name, m.name, n.name);
    }
  }

  lemma NeighboursNamed(modules: seq<Module>)
    ensures NamesDistinct(modules) <==> NeighboursApart(NameBefore, modules)
  {
    hide Tie;
    forall k | 0 < k < |modules| ensures Tie(NameBefore, modules[k - 1], modules[k]) <==> modules[k - 1].name == modules[k].name {
      NameTies(modules[k - 1], modules[k]);
    }
  }

  lemma PairsNamed(modules: seq<Module>)
    ensures NamesUnique(WithPlansSorted(modules)) <==> AllApart(NameBefore, WithPlansSorted(modules))
    ensures NamesUnique(WithPlansSorted(modules)) <==> NamesUnique(modules)
  {
    hide Tie;
    var plain := WithPlansSorted(modules);
    forall i, j | 0 <= i < j < |plain|
      ensures Tie(NameBefore, plain[i], plain[j]) <==> plain[i].name == plain[j].name
      ensures plain[i].name == modules[i].name && plain[j].name == modules[j].name
    {
      NameTies(plain[i], plain[j]);
    }
  }

  lemma NeighbourNames(modules: seq<Module>)
    ensures NamesDistinct(Canonical(modules)) <==> NamesUnique(modules)
  {
    hide NamesDistinct, NamesUnique, NeighboursApart, AllApart, Transitive, Asymmetric;
    NamesOrder();
    SortedNeighbours(NameBefore, WithPlansSorted(modules));
    NeighboursNamed(Canonical(modules));
    PairsNamed(modules);
  }

  /** The request's modules are the caller's, each with its plans sorted. */
  lemma CanonicalHas(modules: seq<Module>, m: Module)
    ensures m in Canonical(modules) <==> exists i :: 0 <= i < |modules| && m == modules[i].(plans := SortPlans(modules[i].plans))
  {
    SortKeeps(NameBefore, WithPlansSorted(modules), m);
  }

  lemma CanonicalSites(modules: seq<Module>)
    ensures (exists m :: m in Canonical(modules) && !SitesDistinct(m)) <==> exists m :: m in modules && !SitesUnique(m)
  {
    hide Canonical, SortPlans, SitesDistinct, SitesUnique;
    if m :| m in Canonical(modules) && !SitesDistinct(m) {
      CanonicalHas(modules, m);
      var i :| 0 <= i < |modules| && m == modules[i].(plans := SortPlans(modules[i].plans));
      NeighbourSites(modules[i]);
      assert modules[i] in modules;
    }
    if m :| m in modules && !SitesUnique(m) {
      NeighbourSites(m);
      CanonicalHas(modules, m.(plans := SortPlans(m.plans)));
    }
  }

  lemma CanonicalNames(modules: seq<Module>, name: seq<byte>)
    ensures (exists m :: m in Canonical(modules) && m.name == name) <==> exists m :: m in modules && m.name == name
  {
    hide Canonical, SortPlans;
    if m :| m in Canonical(modules) && m.name == name {
      CanonicalHas(modules, m);
      var i :| 0 <= i < |modules| && m == modules[i].(plans := SortPlans(modules[i].plans));
      assert modules[i] in modules;
    }
    if m :| m in modules && m.name == name {
      CanonicalHas(modules, m.(plans := SortPlans(m.plans)));
    }
  }

  const DEFAULTS := Options(64, 0, 1_048_576, 4096, 16_777_216, 0, 0)

  function RequestOf(modules: seq<Module>, entry: nat, contract: Digest, profile: Digest, pack: Digest): Request {
    Request(0, DEFAULTS, contract, profile, pack, entry, modules)
  }

  method Position(modules: seq<Module>, name: seq<byte>) returns (r: Option<nat>)
    ensures r.Some? ==> r.value < |modules| && modules[r.value].name == name
    ensures r.None? ==> forall k :: 0 <= k < |modules| ==> modules[k].name != name
  {
    for k := 0 to |modules|
      invariant forall j :: 0 <= j < k ==> modules[j].name != name
    {
      if modules[k].name == name {
        return Some(k);
      }
    }
    return None;
  }

  lemma CanonicalOrdered(modules: seq<Module>)
    requires NamesDistinct(Canonical(modules))
    ensures Ordered(Canonical(modules))
  {
    hide Less;
    var sorted := Canonical(modules);
    NamesOrder();
    SortSorts(NameBefore, WithPlansSorted(modules));
    forall k | 0 < k < |sorted| ensures Less(sorted[k - 1].name, sorted[k].name) {
      assert !NameBefore(sorted[k], sorted[k - 1]);
      LessTotal(sorted[k - 1].name, sorted[k].name);
    }
  }

  /** The fields have the widths of the host's types. */
  predicate PlansTyped(modules: seq<Module>) {
    forall m :: m in modules ==> forall p :: p in m.plans ==> ValidPlan(p)
  }

  lemma CanonicalTyped(modules: seq<Module>, m: Module, k: nat)
    requires PlansTyped(modules) && m in Canonical(modules) && k < |m.plans|
    ensures ValidPlan(m.plans[k])
  {
    var sorted := WithPlansSorted(modules);
    SortKeeps(NameBefore, sorted, m);
    var i :| 0 <= i < |sorted| && sorted[i] == m;
    SortKeeps(PlanBefore, modules[i].plans, m.plans[k]);
    assert m.plans[k] in modules[i].plans && modules[i] in modules;
  }

  /** Build the request for an entry module. It is refused for two plans at one call site, two modules of one
      name, no modules, an absent entry, or bytes beyond counting; otherwise its bytes encode the canonical modules, and the
      compiler reads back exactly these if they are valid. */
  method BuildRequest(f: Format, modules: seq<Module>, entryName: seq<byte>, contract: Digest, profile: Digest, pack: Digest)
    returns (out: Option<seq<byte>>, ghost entry: nat)
    requires PlansTyped(modules) && |modules| < 0x1_0000_0000
    ensures out.Some? ==>
              && entry < |modules| == |Canonical(modules)| && Canonical(modules)[entry].name == entryName && Ordered(Canonical(modules))
              && Encodes(f, out.value, RequestOf(Canonical(modules), entry, contract, profile, pack))
    ensures out.Some? && Valid(f, RequestOf(Canonical(modules), entry, contract, profile, pack)) ==>
              Meant(f, out.value, contract, profile, pack, RequestOf(Canonical(modules), entry, contract, profile, pack))
    ensures out.None? <==>
              || (exists m :: m in modules && !SitesUnique(m)) || modules == [] || !NamesUnique(modules)
              || (forall m :: m in modules ==> m.name != entryName)
              || !U32(Start(Canonical(modules), |modules|))
  {
    hide Encodes, Less, Valid, Offset, SitesDistinct, SitesUnique, NamesUnique, ValidPlan, SortModules, WithPlansSorted;
    var sorted := Canonical(modules);
    entry := 0;
    SameLength(modules);
    CanonicalSites(modules);
    NeighbourNames(modules);
    CanonicalNames(modules, entryName);
    if exists m :: m in sorted && !SitesDistinct(m) {
      return None, 0;
    }
    if sorted == [] || !NamesDistinct(sorted) {
      return None, 0;
    }
    var at := Position(sorted, entryName);
    if at.None? {
      return None, 0;
    }
    CanonicalOrdered(modules);
    var r := RequestOf(sorted, at.value, contract, profile, pack);
    forall m, k | 0 <= m < |sorted| && 0 <= k < |sorted[m].plans| ensures ValidPlan(sorted[m].plans[k]) {
      CanonicalTyped(modules, sorted[m], k);
    }
    out := RequestEncoder.Encode(f, r);
    entry := at.value;
  }

  lemma SameLength(modules: seq<Module>)
    ensures |Canonical(modules)| == |modules|
  {
    assert |multiset(Canonical(modules))| == |multiset(WithPlansSorted(modules))|;
  }
}
