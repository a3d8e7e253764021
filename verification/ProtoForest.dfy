/** Function prototypes as a list in preorder with parent numbers, and the child arrays the runtime builds
    from it: nothing of the tree is lost. */
module ProtoForest {
  import opened Wrappers

  /** A prototype and its children, in order. */
  datatype Tree = Node(name: nat, children: Forest)
  datatype Forest = NoTrees | Trees(first: Tree, rest: Forest)

  /** One flattened prototype; a root has no parent. */
  datatype Flat = Flat(name: nat, parent: Option<nat>)

  function Size(t: Tree): nat {
    1 + Sizes(t.children)
  }

  function Sizes(f: Forest): nat {
    if f.NoTrees? then 0 else Size(f.first) + Sizes(f.rest)
  }

  // ----- flattening -----

  /** The prototypes of a tree whose root gets number `id`, in preorder. */
  function Flatten(t: Tree, parent: Option<nat>, id: nat): (r: seq<Flat>)
    ensures |r| == Size(t) && r[0] == Flat(t.name, parent)
    decreases t
  {
    [Flat(t.name, parent)] + FlattenAll(t.children, id, id + 1)
  }

  function FlattenAll(f: Forest, parent: nat, id: nat): (r: seq<Flat>)
    ensures |r| == Sizes(f)
    decreases f
  {
    if f.NoTrees? then []
    else Flatten(f.first, Some(parent), id) + FlattenAll(f.rest, parent, id + Size(f.first))
  }

  /** Every prototype is listed once. */
  ghost predicate Unique(flat: seq<Flat>) {
    forall i, j :: 0 <= i < j < |flat| ==> flat[i].name != flat[j].name
  }

  /** Parents come before their children: every non-root names an earlier prototype. */
  ghost predicate ParentsFirst(flat: seq<Flat>) {
    forall k :: 0 <= k < |flat| ==> ParentBefore(flat, k)
  }

  ghost predicate ParentBefore(flat: seq<Flat>, k: nat)
    requires k < |flat|
  {
    flat[k].parent.Some? ==> flat[k].parent.value < k
  }

  /** A list the runtime can take: every prototype once, behind its parent, and not too many. */
  ghost predicate Proper(flat: seq<Flat>, limit: nat) {
    Unique(flat) && ParentsFirst(flat) && |flat| <= limit
  }

  lemma UniquePrefix(a: seq<Flat>, b: seq<Flat>)
    requires Unique(a + b)
    ensures Unique(a)
  {
    assert forall k :: 0 <= k < |a| ==> (a + b)[k] == a[k];
  }

  /** The front end's collector: it appends a prototype and then its children, unless the prototype is
      listed already; it gives up beyond the limit. */
  class Collector {
    const limit: nat
    var output: seq<Flat>

    constructor (limit: nat)
      ensures output == [] && this.limit == limit
    {
      this.limit := limit;
      output := [];
    }

    method Listed(name: nat) returns (found: bool)
      ensures found <==> exists k :: 0 <= k < |output| && output[k].name == name
    {
      for k := 0 to |output|
        invariant forall i :: 0 <= i < k ==> output[i].name != name
      {
        if output[k].name == name {
          return true;
        }
      }
      return false;
    }

    /** Whatever is shared, the list stays proper and keeps what it had; a tree none of whose prototypes is
        shared comes out in preorder, exactly if it fits. */
    method Collect(t: Tree, parent: Option<nat>) returns (ok: bool)
      requires Proper(output, limit) && (parent.Some? ==> parent.value < |output|)
      modifies `output
      ensures Proper(output, limit) && old(output) <= output
      ensures ok ==> exists k :: 0 <= k < |output| && output[k].name == t.name
      ensures var all := old(output) + Flatten(t, parent, |old(output)|);
              Unique(all) ==> (ok <==> |all| <= limit) && (ok ==> output == all)
      decreases t
    {
      ghost var flat := Flatten(t, parent, |output|);
      var found := Listed(t.name);
      if found {
        ghost var k :| 0 <= k < |output| && output[k].name == t.name;
        assert (output + flat)[k].name == (output + flat)[|output|].name;
        return true;
      }
      if |output| >= limit {
        return false;
      }
      ghost var before := output;
      output := output + [Flat(t.name, parent)];
      assert ParentsFirst(output) by {
        forall k | 0 <= k < |output| ensures ParentBefore(output, k) {
          assert k < |before| ==> ParentBefore(before, k);
        }
      }
      var current := |output| - 1;
      assert before + flat == output + FlattenAll(t.children, current, |output|);
      ok := CollectChildren(t.children, current);
      assert output[current].name == t.name;
    }

    method CollectChildren(f: Forest, parent: nat) returns (ok: bool)
      requires Proper(output, limit) && parent < |output|
      modifies `output
      ensures Proper(output, limit) && old(output) <= output
      ensures var all := old(output) + FlattenAll(f, parent, |old(output)|);
              Unique(all) ==> (ok <==> |all| <= limit) && (ok ==> output == all)
      decreases f
    {
      ok := true;
      if f.Trees? {
        ghost var before := output;
        ghost var first := Flatten(f.first, Some(parent), |output|);
        ghost var rest := FlattenAll(f.rest, parent, |output| + Size(f.first));
        assert before + FlattenAll(f, parent, |before|) == before + first + rest;
        if Unique(before + first + rest) {
          UniquePrefix(before + first, rest);
        }
        ok := Collect(f.first, Some(parent));
        if ok {
          ok := CollectChildren(f.rest, parent);
        }
      }
    }
  }

  // ----- numbers of children -----

  /** The numbers of the trees of a forest that starts at `id`. */
  function Roots(f: Forest, id: nat): seq<nat> {
    if f.NoTrees? then [] else [id] + Roots(f.rest, id + Size(f.first))
  }

  /** The prototypes before `n` whose parent is `p`, in order. */
  function ChildrenOf(flat: seq<Flat>, p: nat, n: nat): seq<nat>
    requires n <= |flat|
  {
    if n == 0 then []
    else if flat[n - 1].parent == Some(p) then ChildrenOf(flat, p, n - 1) + [n - 1]
    else ChildrenOf(flat, p, n - 1)
  }

  /** A stretch of the list, flattened from a forest whose first number is `id`. */
  ghost predicate Holds(flat: seq<Flat>, id: nat, f: Forest, parent: nat) {
    id + Sizes(f) <= |flat| && flat[id..id + Sizes(f)] == FlattenAll(f, parent, id)
  }

  ghost predicate HoldsTree(flat: seq<Flat>, id: nat, t: Tree, parent: Option<nat>) {
    id + Size(t) <= |flat| && flat[id..id + Size(t)] == Flatten(t, parent, id)
  }

  lemma SplitTree(flat: seq<Flat>, id: nat, t: Tree, parent: Option<nat>)
    requires HoldsTree(flat, id, t, parent)
    ensures flat[id] == Flat(t.name, parent) && Holds(flat, id + 1, t.children, id)
  {
    var whole := Flatten(t, parent, id);
    assert flat[id] == flat[id..id + Size(t)][0] == whole[0];
    assert flat[id + 1..id + Size(t)] == flat[id..id + Size(t)][1..] == whole[1..] == FlattenAll(t.children, id, id + 1);
  }

  lemma SplitForest(flat: seq<Flat>, id: nat, f: Forest, parent: nat)
    requires Holds(flat, id, f, parent) && f.Trees?
    ensures HoldsTree(flat, id, f.first, Some(parent)) && Holds(flat, id + Size(f.first), f.rest, parent)
  {
    var n, whole := Size(f.first), FlattenAll(f, parent, id);
    assert flat[id..id + n] == flat[id..id + Sizes(f)][..n] == whole[..n] == Flatten(f.first, Some(parent), id);
    assert flat[id + n..id + Sizes(f)] == flat[id..id + Sizes(f)][n..] == whole[n..] == FlattenAll(f.rest, parent, id + n);
  }

  /** Inside a flattened tree, all parents lie inside it, except the root's own. */
  lemma {:induction false} ParentsInside(flat: seq<Flat>, id: nat, t: Tree, parent: Option<nat>, k: nat)
    requires HoldsTree(flat, id, t, parent) && id < k < id + Size(t)
    ensures flat[k].parent.Some? && id <= flat[k].parent.value < k
    decreases t
  {
    SplitTree(flat, id, t, parent);
    ForestParents(flat, id + 1, t.children, id, k);
  }

  lemma {:induction false} ForestParents(flat: seq<Flat>, id: nat, f: Forest, parent: nat, k: nat)
    requires Holds(flat, id, f, parent) && parent < id <= k < id + Sizes(f)
    ensures flat[k].parent.Some? && (flat[k].parent.value == parent || id <= flat[k].parent.value < k)
    decreases f
  {
    SplitForest(flat, id, f, parent);
    SplitTree(flat, id, f.first, Some(parent));
    if id < k < id + Size(f.first) {
      ParentsInside(flat, id, f.first, Some(parent), k);
    } else if k >= id + Size(f.first) {
      ForestParents(flat, id + Size(f.first), f.rest, parent, k);
    }
  }

  /** Scanning for a parent inside another tree finds nothing. */
  lemma {:induction false} NoneInside(flat: seq<Flat>, id: nat, t: Tree, p: nat, n: nat)
    requires HoldsTree(flat, id, t, Some(p)) && p < id && id + 1 <= n <= id + Size(t)
    ensures ChildrenOf(flat, p, n) == ChildrenOf(flat, p, id) + [id]
    decreases n
  {
    SplitTree(flat, id, t, Some(p));
    if n > id + 1 {
      ParentsInside(flat, id, t, Some(p), n - 1);
      NoneInside(flat, id, t, p, n - 1);
    }
  }

  /** Scanning over a forest finds its trees, in order. */
  lemma {:induction false} ForestChildren(flat: seq<Flat>, id: nat, f: Forest, p: nat)
    requires Holds(flat, id, f, p) && p < id
    ensures ChildrenOf(flat, p, id + Sizes(f)) == ChildrenOf(flat, p, id) + Roots(f, id)
    decreases f
  {
    if f.Trees? {
      SplitForest(flat, id, f, p);
      NoneInside(flat, id, f.first, p, id + Size(f.first));
      ForestChildren(flat, id + Size(f.first), f.rest, p);
    }
  }

  /** Nothing before a tree has its root as parent, and nothing behind it. */
  lemma {:induction false} NoneOutside(flat: seq<Flat>, p: nat, from: nat, n: nat)
    requires from <= n <= |flat| && forall k :: from <= k < n ==> flat[k].parent != Some(p)
    ensures ChildrenOf(flat, p, n) == ChildrenOf(flat, p, from)
    decreases n
  {
    if from < n {
      NoneOutside(flat, p, from, n - 1);
    }
  }

  // ----- rebuilding -----

  /** The tree the child arrays describe, read from number `id` down. */
  ghost predicate Describes(names: seq<nat>, children: seq<seq<nat>>, id: nat, t: Tree)
    decreases t
  {
    && id < |names| == |children| && names[id] == t.name
    && DescribesAll(names, children, children[id], 0, t.children)
  }

  ghost predicate DescribesAll(names: seq<nat>, children: seq<seq<nat>>, ids: seq<nat>, k: nat, f: Forest)
    decreases f
  {
    if f.NoTrees? then k == |ids|
    else k < |ids| && Describes(names, children, ids[k], f.first) && DescribesAll(names, children, ids, k + 1, f.rest)
  }

  /** The runtime's child arrays: first counted, then filled by scanning all prototypes again. */
  method Rebuild(flat: seq<Flat>) returns (children: seq<seq<nat>>)
    requires ParentsFirst(flat)
    ensures |children| == |flat| && forall p :: 0 <= p < |flat| ==> children[p] == ChildrenOf(flat, p, |flat|)
  {
    var counts := new nat[|flat|](i => 0);
    for id := 0 to |flat|
      invariant forall p :: 0 <= p < |flat| ==> counts[p] == |ChildrenOf(flat, p, id)|
    {
      assert ParentBefore(flat, id);
      if flat[id].parent.Some? {
        counts[flat[id].parent.value] := counts[flat[id].parent.value] + 1;
      }
    }
    var sizes := counts[..];
    children := seq(|flat|, i => []);
    for id := 0 to |flat|
      invariant |children| == |flat|
      invariant forall p :: 0 <= p < |flat| ==> children[p] == ChildrenOf(flat, p, id) && |children[p]| <= sizes[p]
    {
      assert ParentBefore(flat, id);
      forall p | 0 <= p < |flat| ensures |ChildrenOf(flat, p, id + 1)| <= sizes[p] {
        ChildrenGrow(flat, p, id + 1, |flat|);
      }
      if flat[id].parent.Some? {
        var p := flat[id].parent.value;
        children := children[p := children[p] + [id]];
      }
    }
  }

  lemma {:induction false} ChildrenGrow(flat: seq<Flat>, p: nat, m: nat, n: nat)
    requires m <= n <= |flat|
    ensures |ChildrenOf(flat, p, m)| <= |ChildrenOf(flat, p, n)|
    decreases n
  {
    if m < n {
      ChildrenGrow(flat, p, m, n - 1);
    }
  }

  // ----- the round trip -----

  /** Nothing behind a stretch has its parent inside it. */
  ghost predicate Apart(flat: seq<Flat>, id: nat, end: nat) {
    forall k :: end <= k < |flat| ==> ParentOutside(flat, k, id, end)
  }

  ghost predicate ParentOutside(flat: seq<Flat>, k: nat, id: nat, end: nat)
    requires k < |flat|
  {
    flat[k].parent.Some? ==> !(id <= flat[k].parent.value < end)
  }

  function NamesOf(flat: seq<Flat>): (r: seq<nat>)
    ensures |r| == |flat| && forall k :: 0 <= k < |r| ==> r[k] == flat[k].name
  {
    if flat == [] then [] else NamesOf(flat[..|flat| - 1]) + [flat[|flat| - 1].name]
  }

  ghost predicate AllChildren(flat: seq<Flat>, children: seq<seq<nat>>) {
    |children| == |flat| && forall p :: 0 <= p < |flat| ==> children[p] == ChildrenOf(flat, p, |flat|)
  }

  lemma ChildrenAre(flat: seq<Flat>, children: seq<seq<nat>>, id: nat, t: Tree, parent: Option<nat>)
    requires ParentsFirst(flat) && AllChildren(flat, children) && HoldsTree(flat, id, t, parent) && Apart(flat, id, id + Size(t))
    ensures children[id] == Roots(t.children, id + 1)
  {
    SplitTree(flat, id, t, parent);
    forall k | 0 <= k < id + 1 ensures flat[k].parent != Some(id) {
      assert ParentBefore(flat, k);
    }
    NoneOutside(flat, id, 0, id + 1);
    ForestChildren(flat, id + 1, t.children, id);
    forall k | id + Size(t) <= k < |flat| ensures flat[k].parent != Some(id) {
      assert ParentOutside(flat, k, id, id + Size(t));
    }
    NoneOutside(flat, id, id + Size(t), |flat|);
  }

  lemma {:induction false} TreeDescribed(flat: seq<Flat>, children: seq<seq<nat>>, id: nat, t: Tree, parent: Option<nat>)
    requires ParentsFirst(flat) && AllChildren(flat, children) && HoldsTree(flat, id, t, parent) && Apart(flat, id, id + Size(t))
    ensures Describes(NamesOf(flat), children, id, t)
    decreases t
  {
    hide ChildrenOf;
    ChildrenAre(flat, children, id, t, parent);
    SplitTree(flat, id, t, parent);
    var first, end := id + 1, id + Size(t);
    forall k | end <= k < |flat| ensures ParentOutside(flat, k, first, end) {
      assert ParentOutside(flat, k, id, end);
    }
    ForestDescribed(flat, children, first, t.children, id, children[id], 0);
  }

  lemma RootsNext(ids: seq<nat>, k: nat, f: Forest, id: nat)
    requires k <= |ids| && ids[k..] == Roots(f, id) && f.Trees?
    ensures k < |ids| && ids[k] == id && ids[k + 1..] == Roots(f.rest, id + Size(f.first))
  {
    assert ids[k..][0] == id && ids[k..][1..] == ids[k + 1..];
  }

  lemma {:induction false} ForestDescribed(flat: seq<Flat>, children: seq<seq<nat>>, id: nat, f: Forest, p: nat, ids: seq<nat>, k: nat)
    requires ParentsFirst(flat) && AllChildren(flat, children) && Holds(flat, id, f, p) && p < id && Apart(flat, id, id + Sizes(f))
    requires k <= |ids| && ids[k..] == Roots(f, id)
    ensures DescribesAll(NamesOf(flat), children, ids, k, f)
    decreases f
  {
    hide AllChildren, ParentsFirst, Holds, HoldsTree;
    hide ChildrenOf;
    if f.Trees? {
      var next, end := id + Size(f.first), id + Sizes(f);
      SplitForest(flat, id, f, p);
      RootsNext(ids, k, f, id);
      forall j | next <= j < |flat| ensures ParentOutside(flat, j, id, next) {
        if j < end {
          ForestParents(flat, next, f.rest, p, j);
        } else {
          assert ParentOutside(flat, j, id, end);
        }
      }
      forall j | end <= j < |flat| ensures ParentOutside(flat, j, next, end) {
        assert ParentOutside(flat, j, id, end);
      }
      TreeDescribed(flat, children, id, f.first, Some(p));
      ForestDescribed(flat, children, next, f.rest, p, ids, k + 1);
    }
  }

  // ----- whole programs -----

  /** One tree per module, one behind the other. */
  function Program(modules: seq<Tree>, n: nat): seq<Flat>
    requires n <= |modules|
  {
    if n == 0 then [] else Program(modules, n - 1) + Flatten(modules[n - 1], None, |Program(modules, n - 1)|)
  }

  lemma {:induction false} ProgramHolds(modules: seq<Tree>, n: nat, m: nat)
    requires m < n <= |modules|
    ensures |Program(modules, m)| + Size(modules[m]) <= |Program(modules, n)|
    ensures HoldsTree(Program(modules, n), |Program(modules, m)|, modules[m], None)
  {
    if m < n - 1 {
      ProgramHolds(modules, n - 1, m);
      var id, size := |Program(modules, m)|, Size(modules[m]);
      assert Program(modules, n)[id..id + size] == Program(modules, n - 1)[id..id + size];
    }
  }

  /** Where a prototype's parent lies: in the same module. */
  lemma {:induction false} ProgramParents(modules: seq<Tree>, n: nat, k: nat) returns (m: nat)
    requires n <= |modules| && k < |Program(modules, n)|
    ensures m < n && |Program(modules, m)| <= k < |Program(modules, m)| + Size(modules[m]) <= |Program(modules, n)|
    ensures var parent := Program(modules, n)[k].parent;
            if k == |Program(modules, m)| then parent.None? else parent.Some? && |Program(modules, m)| <= parent.value < k
    decreases n
  {
    if k < |Program(modules, n - 1)| {
      m := ProgramParents(modules, n - 1, k);
    } else {
      m := n - 1;
      ProgramHolds(modules, n, m);
      SplitTree(Program(modules, n), |Program(modules, m)|, modules[m], None);
      if k > |Program(modules, m)| {
        ParentsInside(Program(modules, n), |Program(modules, m)|, modules[m], None, k);
      }
    }
  }

  /** The list the runtime is given has every parent before its children. */
  lemma ProgramParentsFirst(modules: seq<Tree>)
    ensures ParentsFirst(Program(modules, |modules|))
  {
    forall k | 0 <= k < |Program(modules, |modules|)| ensures ParentBefore(Program(modules, |modules|), k) {
      var m := ProgramParents(modules, |modules|, k);
    }
  }

  /** The first number of every module, and their roots. */
  function RootIds(modules: seq<Tree>, n: nat): (r: seq<nat>)
    requires n <= |modules|
    ensures |r| == n && forall m :: 0 <= m < n ==> r[m] == |Program(modules, m)|
  {
    if n == 0 then [] else RootIds(modules, n - 1) + [|Program(modules, n - 1)|]
  }

  /** The runtime's checks: the roots increase from number 0, exactly they have no parent, and all others
      come behind theirs. */
  ghost predicate ForestChecks(flat: seq<Flat>, roots: seq<nat>) {
    && (forall m :: 0 <= m < |roots| ==> roots[m] < |flat| && (m == 0 ==> roots[m] == 0))
    && (forall m :: 0 < m < |roots| ==> roots[m - 1] < roots[m])
    && forall k :: 0 <= k < |flat| ==> RootedAt(flat, roots, k)
  }

  ghost predicate RootedAt(flat: seq<Flat>, roots: seq<nat>, k: nat)
    requires k < |flat|
  {
    if k in roots then flat[k].parent.None? else flat[k].parent.Some? && flat[k].parent.value < k
  }

  lemma RootsClimb(modules: seq<Tree>, m: nat)
    requires m < |modules|
    ensures |Program(modules, m)| < |Program(modules, |modules|)|
    ensures m > 0 ==> |Program(modules, m - 1)| < |Program(modules, m)|
  {
    hide Flatten;
    ProgramHolds(modules, |modules|, m);
    if m > 0 {
      ProgramHolds(modules, m, m - 1);
    }
  }

  lemma RootAlone(modules: seq<Tree>, m: nat)
    requires m < |modules| && |Program(modules, m)| < |Program(modules, |modules|)|
    ensures Program(modules, |modules|)[|Program(modules, m)|].parent.None?
  {
    hide Flatten, Program;
    ProgramHolds(modules, |modules|, m);
    SplitTree(Program(modules, |modules|), |Program(modules, m)|, modules[m], None);
  }

  /** The flattened program passes them. */
  lemma ProgramAccepted(modules: seq<Tree>)
    ensures ForestChecks(Program(modules, |modules|), RootIds(modules, |modules|))
  {
    hide Flatten, Program;
    var n := |modules|;
    var flat, roots := Program(modules, n), RootIds(modules, n);
    forall m | 0 <= m < n ensures roots[m] < |flat| && (m > 0 ==> roots[m - 1] < roots[m]) && (m == 0 ==> roots[m] == 0) {
      RootsClimb(modules, m);
      NoProgram(modules);
    }
    forall k | 0 <= k < |flat| ensures RootedAt(flat, roots, k) {
      var m := ProgramParents(modules, n, k);
      assert roots[m] == |Program(modules, m)|;
      if k in roots {
        var i :| 0 <= i < n && roots[i] == k;
        RootAlone(modules, i);
      }
    }
  }

  lemma NoProgram(modules: seq<Tree>)
    ensures Program(modules, 0) == []
  {
  }

  lemma {:induction false} ProgramGrows(modules: seq<Tree>, a: nat, b: nat)
    requires a <= b <= |modules|
    ensures |Program(modules, a)| <= |Program(modules, b)|
    decreases b
  {
    if a < b {
      ProgramGrows(modules, a, b - 1);
    }
  }

  /** Flattening a program and rebuilding its child arrays gives back the tree of every module, with the
      children in the same order. */
  lemma ProgramRoundTrip(modules: seq<Tree>, children: seq<seq<nat>>, m: nat)
    requires m < |modules| && AllChildren(Program(modules, |modules|), children)
    ensures Describes(NamesOf(Program(modules, |modules|)), children, |Program(modules, m)|, modules[m])
  {
    hide ChildrenOf, Describes;
    var flat, id := Program(modules, |modules|), |Program(modules, m)|;
    ProgramParentsFirst(modules);
    ProgramHolds(modules, |modules|, m);
    var end := id + Size(modules[m]);
    forall k | end <= k < |flat| ensures ParentOutside(flat, k, id, end) {
      var j := ProgramParents(modules, |modules|, k);
      if j < m {
        ProgramGrows(modules, j + 1, m);
      } else if j > m {
        ProgramGrows(modules, m + 1, j);
      }
    }
    TreeDescribed(flat, children, id, modules[m], None);
  }

  /** What child arrays describe is determined by them. */
  lemma {:induction false} DescribesOne(names: seq<nat>, children: seq<seq<nat>>, id: nat, a: Tree, b: Tree)
    requires Describes(names, children, id, a) && Describes(names, children, id, b)
    ensures a == b
    decreases a
  {
    DescribesOneForest(names, children, children[id], 0, a.children, b.children);
  }

  lemma {:induction false} DescribesOneForest(names: seq<nat>, children: seq<seq<nat>>, ids: seq<nat>, k: nat, a: Forest, b: Forest)
    requires DescribesAll(names, children, ids, k, a) && DescribesAll(names, children, ids, k, b)
    ensures a == b
    decreases a
  {
    if a.Trees? && b.Trees? {
      DescribesOne(names, children, ids[k], a.first, b.first);
      DescribesOneForest(names, children, ids, k + 1, a.rest, b.rest);
    }
  }
}
