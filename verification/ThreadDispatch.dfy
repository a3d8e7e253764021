/** Dispatch threading as the linker runs it: analyse, collect the replacements, copy the body around them. */
module ThreadDispatch {
  import opened Wrappers
  import opened Leb128
  import opened WasmCode
  import opened CodeRewrite
  import opened DispatchPlan
  import opened ControlFlow
  import opened EdgeScan
  import opened DispatchTables
  import opened SecondPass
  import opened Liveness
  import opened ThreadingTheorem
  import opened WasmMachine

  /** A stretch of body bytes to replace by a branch of the given depth. */
  datatype Replacement = Replacement(start: nat, finish: nat, depth: nat)

  // ----- third pass: which branches to replace -----

  lemma {:induction false} DepthSplits(code: seq<Instr>, i: nat, l: nat)
    requires i <= |code| && Has(Labels(code, i), l)
    ensures l < i && Depth(Labels(code, i)) == DepthOf(Labels(code, i), l) + 1 + Depth(Labels(code, l))
    decreases i
  {
    HasShape(code, i, l);
    LabelsShape(code, i, 0);
    if Labels(code, i).opener != l {
      DepthSplits(code, Labels(code, i).opener, l);
    }
  }

  /** The table of open labels: how deep each is nested, `ABSENT` when it is not open. */
  ghost predicate ActiveAt(code: seq<Instr>, index: nat, active: seq<u32>, l: nat)
    requires index <= |code| == |active| < ABSENT && l < |code|
  {
    active[l] == if Has(Labels(code, index), l) then Depth(Labels(code, l)) else ABSENT
  }

  ghost predicate Active(code: seq<Instr>, index: nat, active: seq<u32>)
    requires index <= |code| == |active| < ABSENT
  {
    forall l :: 0 <= l < |code| ==> ActiveAt(code, index, active, l)
  }

  lemma {:induction false} DepthBound(code: seq<Instr>, i: nat)
    requires i <= |code|
    ensures Depth(Labels(code, i)) <= i
  {
    if i > 0 {
      DepthBound(code, i - 1);
    }
  }

  /** Keep the table of open labels up to date across one operation. */
  method TrackLabels(ops: seq<Op>, ghost code: seq<Instr>, index: nat, stack: seq<nat>, active: array<u32>)
    returns (after: seq<nat>)
    requires Reads(ops, code) && index < |ops| == active.Length
    requires stack == Listed(Labels(code, index)) && Active(code, index, active[..])
    modifies active
    ensures after == Listed(Labels(code, index + 1)) && Active(code, index + 1, active[..])
  {
    var item := ops[index];
    assert OpMatches(item, code[index]);
    ghost var was, nest := active[..], Labels(code, index);
    after := stack;
    ListedAt(nest, 0);
    DepthBound(code, index);
    if item.op == 0x02 || item.op == 0x03 || item.op == 0x04 {
      active[index] := |stack|;
      after := stack + [index];
    } else if item.op == 0x0b && |stack| != 0 {
      LabelsShape(code, index, 0);
      if Has(nest.outer, nest.opener) {
        HasShape(code, nest.opener, nest.opener);
      }
      active[stack[|stack| - 1]] := ABSENT;
      after := stack[..|stack| - 1];
    }
    ghost var now, next := active[..], index + 1;
    forall l | 0 <= l < |code| ensures ActiveAt(code, next, now, l) {
      assert ActiveAt(code, index, was, l);
      if Has(nest, l) {
        HasShape(code, index, l);
      }
    }
  }

  /** The replaced branches among the first `n` operations, in order. */
  function Sites(plan: Plan, n: nat): seq<nat> {
    if n == 0 then [] else Sites(plan, n - 1) + if n - 1 in plan then [n - 1] else []
  }

  ghost predicate Replaces(ops: seq<Op>, plan: Plan, b: nat, r: Replacement) {
    2 <= b < |ops| && b in plan && r == Replacement(ops[b - 2].at, ops[b].at + ops[b].len, plan[b])
  }

  ghost predicate ReplacesAll(ops: seq<Op>, plan: Plan, sites: seq<nat>, rs: seq<Replacement>) {
    |sites| == |rs| && forall k :: 0 <= k < |rs| ==> Replaces(ops, plan, sites[k], rs[k])
  }

  ghost predicate LiveKnown(code: seq<Instr>, live: seq<bool>) {
    |live| == |code| && forall i :: 0 <= i < |code| ==> LiveKnownAt(code, live, i)
  }

  ghost predicate LiveKnownAt(code: seq<Instr>, live: seq<bool>, i: nat)
    requires i < |code| == |live|
  {
    live[i] <==> Live(code, i)
  }

  lemma EntryInside(code: seq<Instr>, d: Dispatcher, k: nat)
    requires Valid(code, d) && !d.NoDispatcher? && Entry(code, d, k).Some?
    ensures Entry(code, d, k).value < |code|
  {
    match d
    case Single(_, sel) => LabelsShape(code, sel + 1, code[sel + 1].targets[k]);
    case Paged(_, sel, base) =>
      if k < |Low(code, d)| {
        LabelsShape(code, sel + 10, Low(code, d)[k]);
      } else {
        LabelsShape(code, sel + 7, High(code, d)[k - base]);
      }
  }

  /** The finished dispatch table holds the dispatcher's entries, every one a label of the code. */
  lemma TableHolds(code: seq<Instr>, d: Dispatcher, limit: nat, t: Tables, k: nat)
    requires !d.NoDispatcher? && PassState(code, |code|, d, limit, t)
    ensures Valid(code, d) && t.loop == d.head && At(t.table, k) == Entry(code, d, k)
    ensures Entry(code, d, k).Some? ==> Entry(code, d, k).value < |code|
  {
    assert At(t.table, k) == RecordedAt(code, |code|, d, k);
    if Entry(code, d, k).Some? {
      EntryInside(code, d, k);
    }
  }

  lemma LoopKnown(code: seq<Instr>, d: Dispatcher, limit: nat, t: Tables)
    requires !d.NoDispatcher? && PassState(code, |code|, d, limit, t)
    ensures Valid(code, d) && t.loop == d.head && d.head < |code|
  {
  }

  /** Can operation `index` branch to block `l`, and is the selector dead behind it? */
  method TestBlock(ops: seq<Op>, ghost code: seq<Instr>, index: nat, stack: seq<nat>, ends: array<u32>,
                   ghost alternatives: seq<u32>, live: array<bool>, active: array<u32>, l: nat)
    returns (open: bool, depth: nat)
    requires Reads(ops, code) && index < |ops| == ends.Length == live.Length == active.Length && l < |ops|
    requires Matched(code, ends[..], alternatives) && LiveKnown(code, live[..]) && Active(code, index, active[..])
    requires stack == Listed(Labels(code, index))
    ensures open <==> Has(Labels(code, index), l) &&
                      !(Destination(code, Some(l)) < |code| && Live(code, Destination(code, Some(l))))
    ensures open ==> depth == DepthOf(Labels(code, index), l)
  {
    assert ActiveAt(code, index, active[..], l);
    if active[l] == ABSENT {
      if Has(Labels(code, index), l) {
        DepthBound(code, l);
      }
      return false, 0;
    }
    HasShape(code, index, l);
    DestinationMeans(ops, code, ends, alternatives, l);
    var target := DestinationOf(ops, ends, l);
    if target < |ops| {
      assert LiveKnownAt(code, live[..], target);
      if live[target] {
        return false, 0;
      }
    }
    DepthSplits(code, index, l);
    ListedAt(Labels(code, index), 0);
    return true, |stack| - 1 - active[l];
  }

  lemma ReadsTriple(ops: seq<Op>, code: seq<Instr>, index: nat)
    requires Reads(ops, code) && index < |ops|
    ensures |ops| == |code| < ABSENT
    ensures ops[index].op == 0x0c <==> code[index].Br?
    ensures 2 <= index ==> (ops[index - 1].op == 0x21 && ops[index - 1].imm == 3 <==> code[index - 1] == Set(SELECTOR))
    ensures 2 <= index ==> (ops[index - 2].op == 0x41 <==> code[index - 2].Const?)
    ensures 2 <= index && code[index - 2].Const? ==> code[index - 2].value == ops[index - 2].imm
  {
    assert OpMatches(ops[index], code[index]);
    if 2 <= index {
      assert OpMatches(ops[index - 1], code[index - 1]) && OpMatches(ops[index - 2], code[index - 2]);
    }
  }

  /** Test one branch against the dispatch table. */
  method TestBranch(ops: seq<Op>, ghost code: seq<Instr>, index: nat, stack: seq<nat>, ends: array<u32>,
                    ghost alternatives: seq<u32>, branchLabels: array<u32>, live: array<bool>, active: array<u32>,
                    t: Tables, ghost d: Dispatcher, ghost limit: nat)
    returns (found: bool, depth: nat)
    requires Reads(ops, code) && index < |ops| == ends.Length == branchLabels.Length == live.Length == active.Length
    requires Matched(code, ends[..], alternatives) && BranchesKnown(code, branchLabels[..], |code|)
    requires LiveKnown(code, live[..]) && Active(code, index, active[..])
    requires stack == Listed(Labels(code, index))
    requires !d.NoDispatcher? && PassState(code, |code|, d, limit, t)
    ensures found <==> Threadable(code, d, index)
    ensures found ==> depth == NewDepth(code, d, index)
  {
    hide PassState, Reads, Active, Matched, LiveKnown;
    ReadsTriple(ops, code, index);
    assert BranchKnown(code, branchLabels[..], index);
    LoopKnown(code, d, limit, t);
    if ops[index].op != 0x0c || branchLabels[index] != t.loop || index < 2 {
      return false, 0;
    }
    var store, value := ops[index - 1], ops[index - 2];
    if store.op != 0x21 || store.imm != 3 || value.op != 0x41 || value.imm < 0 {
      return false, 0;
    }
    TableHolds(code, d, limit, t, value.imm);
    if value.imm >= |t.table| || t.table[value.imm] == ABSENT {
      return false, 0;
    }
    var l: u32 := t.table[value.imm];
    found, depth := TestBlock(ops, code, index, stack, ends, alternatives, live, active, l);
  }

  /** The list after testing one more operation. */
  function Noted(ops: seq<Op>, rs: seq<Replacement>, index: nat, found: bool, depth: nat): seq<Replacement>
    requires index < |ops| && (found ==> 2 <= index)
  {
    if found then rs + [Replacement(ops[index - 2].at, ops[index].at + ops[index].len, depth)] else rs
  }

  lemma NotedReplaces(ops: seq<Op>, plan: Plan, rs: seq<Replacement>, index: nat, found: bool, depth: nat)
    requires index < |ops| && (found <==> index in plan) && (found ==> 2 <= index && depth == plan[index])
    requires ReplacesAll(ops, plan, Sites(plan, index), rs)
    ensures ReplacesAll(ops, plan, Sites(plan, index + 1), Noted(ops, rs, index, found, depth))
  {
    var sites, after := Sites(plan, index), Noted(ops, rs, index, found, depth);
    forall k | 0 <= k < |after| ensures Replaces(ops, plan, Sites(plan, index + 1)[k], after[k]) {
      assert k < |rs| ==> Replaces(ops, plan, sites[k], rs[k]);
    }
  }

  ghost predicate PlanAt(code: seq<Instr>, d: Dispatcher, plan: Plan, b: nat)
    requires Valid(code, d)
  {
    (b in plan <==> Threadable(code, d, b)) && (b in plan ==> plan[b] == NewDepth(code, d, b))
  }

  ghost predicate PlanFor(code: seq<Instr>, d: Dispatcher, plan: Plan) {
    Valid(code, d) && forall b: nat :: PlanAt(code, d, plan, b)
  }

  lemma NoneOpen(code: seq<Instr>, active: seq<u32>)
    requires |code| == |active| < ABSENT && forall l :: 0 <= l < |active| ==> active[l] == ABSENT
    ensures Listed(Labels(code, 0)) == [] && Active(code, 0, active)
  {
  }

  /** Third pass: every branch of the plan, in order, with its bytes and new depth. */
  method CollectReplacements(ops: seq<Op>, ghost code: seq<Instr>, ends: array<u32>, ghost alternatives: seq<u32>,
                             branchLabels: array<u32>, live: array<bool>, t: Tables, ghost d: Dispatcher, ghost limit: nat,
                             ghost plan: Plan)
    returns (rs: seq<Replacement>)
    requires Reads(ops, code) && ends.Length == branchLabels.Length == live.Length == |ops|
    requires Matched(code, ends[..], alternatives) && BranchesKnown(code, branchLabels[..], |code|)
    requires LiveKnown(code, live[..]) && !d.NoDispatcher? && PassState(code, |code|, d, limit, t)
    requires PlanFor(code, d, plan)
    ensures ReplacesAll(ops, plan, Sites(plan, |ops|), rs)
  {
    hide Labels, Listed;
    var active := new u32[|ops|](_ => ABSENT);
    var stack: seq<nat> := [];
    rs := [];
    NoneOpen(code, active[..]);
    for index := 0 to |ops|
      invariant stack == Listed(Labels(code, index)) && Active(code, index, active[..])
      invariant ReplacesAll(ops, plan, Sites(plan, index), rs)
    {
      var found, depth := TestBranch(ops, code, index, stack, ends, alternatives, branchLabels, live, active, t, d, limit);
      assert PlanAt(code, d, plan, index);
      NotedReplaces(ops, plan, rs, index, found, depth);
      rs := Noted(ops, rs, index, found, depth);
      stack := TrackLabels(ops, code, index, stack, active);
    }
  }

  // ----- output -----

  function BranchBytes(depth: nat): seq<byte> {
    [0x0c] + Encode(depth)
  }

  /** The output for the first `n` operations. */
  ghost function Emitted(body: seq<byte>, start: nat, ops: seq<Op>, plan: Plan, n: nat): seq<byte>
    requires n <= |ops| && AllIn(body, start, ops)
  {
    if n == 0 then Part(body, 0, start)
    else
      var before := Emitted(body, start, ops, plan, n - 1);
      assert InBody(body, ops, n - 1);
      if Dropped(plan, n - 1) then before
      else if n - 1 in plan then before + BranchBytes(plan[n - 1])
      else before + Raw(body, ops[n - 1])
  }

  predicate InBody(body: seq<byte>, ops: seq<Op>, i: nat)
    requires i < |ops|
  {
    ops[i].at + ops[i].len <= |body|
  }

  ghost predicate AllIn(body: seq<byte>, start: nat, ops: seq<Op>) {
    start <= |body| && forall i :: 0 <= i < |ops| ==> InBody(body, ops, i)
  }

  lemma AllInBody(body: seq<byte>, start: nat, ops: seq<Op>, code: seq<Instr>)
    requires Decoded(body, start, ops, code)
    ensures AllIn(body, start, ops)
  {
    PositionsGrow(body, start, ops, code, 0);
    forall i | 0 <= i < |ops| ensures InBody(body, ops, i) {
      OpBounds(body, start, ops, code, i);
    }
  }

  predicate UntouchedAt(plan: Plan, k: nat) {
    k !in plan && !Dropped(plan, k)
  }

  predicate Untouched(plan: Plan, i: nat, j: nat) {
    forall k :: i <= k < j ==> UntouchedAt(plan, k)
  }

  lemma NothingMore(bytes: seq<byte>)
    ensures bytes + [] == bytes
  {
  }

  /** Between replacements the body is copied as it is. */
  lemma {:induction false} EmittedCopies(body: seq<byte>, start: nat, ops: seq<Op>, code: seq<Instr>, plan: Plan, i: nat, j: nat)
    requires Decoded(body, start, ops, code) && i <= j <= |ops| && Untouched(plan, i, j)
    requires AllIn(body, start, ops)
    ensures AtOf(start, ops, i) <= AtOf(start, ops, j) <= |body|
    ensures Emitted(body, start, ops, plan, j)
            == Emitted(body, start, ops, plan, i) + Part(body, AtOf(start, ops, i), AtOf(start, ops, j))
  {
    hide Emitted, Part;
    if i == j {
      PositionsGrow(body, start, ops, code, j);
      NothingMore(Emitted(body, start, ops, plan, i));
    } else {
      EmittedCopies(body, start, ops, code, plan, i, j - 1);
      OpBounds(body, start, ops, code, j - 1);
      assert UntouchedAt(plan, j - 1);
      EmittedKept(body, start, ops, plan, j - 1);
      CopyStep(Emitted(body, start, ops, plan, i), Emitted(body, start, ops, plan, j - 1), Emitted(body, start, ops, plan, j),
               body, AtOf(start, ops, i), AtOf(start, ops, j - 1), AtOf(start, ops, j));
    }
  }

  lemma CopyStep(head: seq<byte>, before: seq<byte>, after: seq<byte>, body: seq<byte>, a: nat, b: nat, c: nat)
    requires a <= b <= c <= |body| && before == head + Part(body, a, b) && after == before + Part(body, b, c)
    ensures after == head + Part(body, a, c)
  {
    Appended(head, body, a, b, c);
  }

  lemma Appended(head: seq<byte>, body: seq<byte>, a: nat, b: nat, c: nat)
    requires a <= b <= c <= |body|
    ensures (head + Part(body, a, b)) + Part(body, b, c) == head + Part(body, a, c)
  {
    PartJoin(body, a, b, c);
    Associates(head, Part(body, a, b), Part(body, b, c));
  }

  lemma Associates(a: seq<byte>, b: seq<byte>, c: seq<byte>)
    ensures (a + b) + c == a + (b + c)
  {
  }

  lemma EmittedKept(body: seq<byte>, start: nat, ops: seq<Op>, plan: Plan, i: nat)
    requires AllIn(body, start, ops) && i < |ops| && UntouchedAt(plan, i)
    ensures ops[i].at + ops[i].len <= |body|
    ensures Emitted(body, start, ops, plan, i + 1) == Emitted(body, start, ops, plan, i) + Part(body, ops[i].at, ops[i].at + ops[i].len)
  {
    assert InBody(body, ops, i);
  }

  /** A replaced triple is emitted as one branch. */
  lemma EmittedSite(body: seq<byte>, start: nat, ops: seq<Op>, plan: Plan, b: nat)
    requires AllIn(body, start, ops)
    requires 2 <= b < |ops| && b in plan && !Dropped(plan, b)
    ensures Emitted(body, start, ops, plan, b + 1) == Emitted(body, start, ops, plan, b - 2) + BranchBytes(plan[b])
  {
    assert Emitted(body, start, ops, plan, b) == Emitted(body, start, ops, plan, b - 1) == Emitted(body, start, ops, plan, b - 2);
  }

  ghost predicate SiteListed(plan: Plan, n: nat, x: nat) {
    x in Sites(plan, n) <==> x < n && x in plan
  }

  lemma {:induction false} SitesListed(plan: Plan, n: nat, x: nat)
    ensures SiteListed(plan, n, x)
  {
    if n > 0 {
      SitesListed(plan, n - 1, x);
    }
  }

  lemma {:induction false} SitesSorted(plan: Plan, n: nat, j: nat, k: nat)
    requires j < k < |Sites(plan, n)|
    ensures Sites(plan, n)[j] < Sites(plan, n)[k]
  {
    SitesListed(plan, n - 1, Sites(plan, n)[j]);
    if k < |Sites(plan, n - 1)| {
      SitesSorted(plan, n - 1, j, k);
    } else {
      assert Sites(plan, n)[j] in Sites(plan, n - 1);
    }
  }

  /** The operation behind the first `k` sites. */
  function Behind(sites: seq<nat>, k: nat): nat
    requires k <= |sites|
  {
    if k == 0 then 0 else sites[k - 1] + 1
  }

  /** Nothing is replaced between one site and the next. */
  lemma GapUntouched(code: seq<Instr>, plan: Plan, n: nat, k: nat, i: nat)
    requires Shaped(code, plan) && n == |code| && k <= |Sites(plan, n)|
    requires var sites := Sites(plan, n);
             Behind(sites, k) <= i && (if k < |sites| then i + 2 < sites[k] else i < n)
    ensures UntouchedAt(plan, i)
  {
    forall x | i <= x <= i + 2 && x in plan ensures false {
      SitesListed(plan, n, x);
      var sites := Sites(plan, n);
      var j :| 0 <= j < |sites| && sites[j] == x;
      if k < j && k < |sites| {
        SitesSorted(plan, n, k, j);
      } else if j + 1 < k {
        SitesSorted(plan, n, j, k - 1);
      }
    }
  }

  lemma SitesApart(code: seq<Instr>, plan: Plan, k: nat)
    requires Shaped(code, plan) && k < |Sites(plan, |code|)|
    ensures var b := Sites(plan, |code|)[k];
            b in plan && 2 <= b < |code| && !Dropped(plan, b) && Behind(Sites(plan, |code|), k) <= b - 2
  {
    var sites := Sites(plan, |code|);
    var b := sites[k];
    assert b in sites;
    SitesListed(plan, |code|, b);
    if k > 0 {
      SitesSorted(plan, |code|, k - 1, k);
      assert sites[k - 1] in sites;
      SitesListed(plan, |code|, sites[k - 1]);
    }
  }

  lemma GapCopies(body: seq<byte>, start: nat, ops: seq<Op>, code: seq<Instr>, plan: Plan, k: nat)
    requires Decoded(body, start, ops, code) && AllIn(body, start, ops) && Shaped(code, plan)
    requires k <= |Sites(plan, |ops|)|
    ensures var sites := Sites(plan, |ops|);
            var i, j := Behind(sites, k), if k < |sites| then sites[k] - 2 else |ops|;
            && i <= j <= |ops| && AtOf(start, ops, i) <= AtOf(start, ops, j) <= |body|
            && Emitted(body, start, ops, plan, j)
               == Emitted(body, start, ops, plan, i) + Part(body, AtOf(start, ops, i), AtOf(start, ops, j))
  {
    var sites := Sites(plan, |ops|);
    if k < |sites| {
      SitesApart(code, plan, k);
    } else if k > 0 {
      SitesApart(code, plan, k - 1);
    }
    var i, j := Behind(sites, k), if k < |sites| then sites[k] - 2 else |ops|;
    forall m | i <= m < j ensures UntouchedAt(plan, m) {
      GapUntouched(code, plan, |ops|, k, m);
    }
    EmittedCopies(body, start, ops, code, plan, i, j);
  }

  /** The output so far, once the bytes from `cursor` to the next boundary are copied. */
  ghost predicate CopiedTo(body: seq<byte>, start: nat, ops: seq<Op>, plan: Plan, output: seq<byte>, cursor: nat, n: nat)
    requires n <= |ops| && AllIn(body, start, ops)
  {
    && cursor <= AtOf(start, ops, n) <= |body|
    && Emitted(body, start, ops, plan, n) == output + Part(body, cursor, AtOf(start, ops, n))
  }

  /** Copying up to a site and writing its branch. */
  lemma CopyOne(body: seq<byte>, start: nat, ops: seq<Op>, code: seq<Instr>, plan: Plan, k: nat, output: seq<byte>, cursor: nat)
    requires Decoded(body, start, ops, code) && AllIn(body, start, ops) && Shaped(code, plan)
    requires k < |Sites(plan, |ops|)| && Behind(Sites(plan, |ops|), k) <= |ops|
    requires CopiedTo(body, start, ops, plan, output, cursor, Behind(Sites(plan, |ops|), k))
    ensures var b := Sites(plan, |ops|)[k];
            && 2 <= b < |ops| && b in plan && cursor <= ops[b - 2].at <= |body| && ops[b].at + ops[b].len <= |body|
            && CopiedTo(body, start, ops, plan, (output + body[cursor..ops[b - 2].at]) + BranchBytes(plan[b]),
                        ops[b].at + ops[b].len, b + 1)
  {
    hide Sites, Emitted, Part;
    var i, b := Behind(Sites(plan, |ops|), k), Sites(plan, |ops|)[k];
    SitesApart(code, plan, k);
    GapCopies(body, start, ops, code, plan, k);
    OpBounds(body, start, ops, code, b - 2);
    OpBounds(body, start, ops, code, b);
    EmittedSite(body, start, ops, plan, b);
    CopyOneBytes(output, body, cursor, AtOf(start, ops, i), ops[b - 2].at, Emitted(body, start, ops, plan, i),
                 Emitted(body, start, ops, plan, b - 2), Emitted(body, start, ops, plan, b + 1), BranchBytes(plan[b]));
    NothingMore(Emitted(body, start, ops, plan, b + 1));
  }

  lemma CopyOneBytes(output: seq<byte>, body: seq<byte>, cursor: nat, a: nat, at: nat,
                     reached: seq<byte>, copied: seq<byte>, after: seq<byte>, branch: seq<byte>)
    requires cursor <= a <= at <= |body| && reached == output + Part(body, cursor, a)
    requires copied == reached + Part(body, a, at) && after == copied + branch
    ensures after == (output + body[cursor..at]) + branch
  {
    Appended(output, body, cursor, a, at);
    PartIsSlice(body, cursor, at);
  }

  /** Copying what is left. */
  lemma CopyRest(body: seq<byte>, start: nat, ops: seq<Op>, code: seq<Instr>, plan: Plan, output: seq<byte>, cursor: nat)
    requires Decoded(body, start, ops, code) && AllIn(body, start, ops) && Shaped(code, plan)
    requires var sites := Sites(plan, |ops|);
             Behind(sites, |sites|) <= |ops| && CopiedTo(body, start, ops, plan, output, cursor, Behind(sites, |sites|))
    ensures cursor <= |body| && output + body[cursor..] == Emitted(body, start, ops, plan, |ops|)
  {
    var sites := Sites(plan, |ops|);
    GapCopies(body, start, ops, code, plan, |sites|);
    Appended(output, body, cursor, AtOf(start, ops, Behind(sites, |sites|)), |body|);
    PartIsSlice(body, cursor, |body|);
    assert body[cursor..|body|] == body[cursor..];
  }

  /** Write the body with every replacement in place. */
  method CopyAround(body: seq<byte>, ghost start: nat, ops: seq<Op>, ghost code: seq<Instr>, ghost plan: Plan,
                    rs: seq<Replacement>)
    returns (output: seq<byte>)
    requires Decoded(body, start, ops, code) && AllIn(body, start, ops) && Shaped(code, plan)
    requires ReplacesAll(ops, plan, Sites(plan, |ops|), rs) && forall b :: b in plan ==> plan[b] < 0x1_0000_0000
    ensures output == Emitted(body, start, ops, plan, |ops|)
  {
    output := [];
    var cursor := 0;
    ghost var sites := Sites(plan, |ops|);
    PositionsGrow(body, start, ops, code, 0);
    NothingBefore(Part(body, 0, start));
    for k := 0 to |rs|
      invariant cursor >= 0 && Behind(sites, k) <= |ops| && CopiedTo(body, start, ops, plan, output, cursor, Behind(sites, k))
    {
      assert Replaces(ops, plan, sites[k], rs[k]);
      CopyOne(body, start, ops, code, plan, k, output, cursor);
      ghost var copied := output + body[cursor..rs[k].start];
      Associates(copied, [0x0c], Encode(rs[k].depth));
      output := output + body[cursor..rs[k].start];
      output := output + [0x0c];
      output := AppendIndex(output, rs[k].depth);
      cursor := rs[k].finish;
    }
    CopyRest(body, start, ops, code, plan, output, cursor);
    output := output + body[cursor..];
  }

  lemma NothingBefore(bytes: seq<byte>)
    ensures [] + bytes == bytes
  {
  }

  // ----- the output is the threaded body -----

  ghost predicate SmallDepths(plan: Plan) {
    forall b :: b in plan ==> plan[b] < 0x1_0000_0000
  }

  lemma BranchDecodes(depth: u32)
    ensures var raw := BranchBytes(depth);
            Agrees(Op(0, |raw|, 0, 0x0c, Unbits(depth)), raw, Br(depth)) && |raw| <= 6
  {
    EncodeRoundTrip([0x0c], depth, [], 0);
    NothingMore(BranchBytes(depth));
    EncodeSize(depth, 0);
  }

  lemma TripleSize(raw: seq<byte>, instr: Instr)
    requires Decode(raw) == Some(instr) && (instr.Const? || instr.Set? || instr.Br?)
    ensures |raw| >= 2
  {
  }

  lemma OpSize(body: seq<byte>, start: nat, ops: seq<Op>, code: seq<Instr>, i: nat)
    requires Decoded(body, start, ops, code) && i < |ops| && (code[i].Const? || code[i].Set? || code[i].Br?)
    ensures ops[i].len >= 2
  {
    assert OpDecoded(body, start, ops, code, i);
    TripleSize(Raw(body, ops[i]), code[i]);
  }

  /** A triple takes at least six bytes. */
  lemma TripleBytes(body: seq<byte>, start: nat, ops: seq<Op>, code: seq<Instr>, plan: Plan, b: nat)
    requires Decoded(body, start, ops, code) && Shaped(code, plan) && b in plan
    ensures 2 <= b < |ops| && AtOf(start, ops, b - 2) + 6 <= AtOf(start, ops, b + 1)
  {
    OpBounds(body, start, ops, code, b);
    OpBounds(body, start, ops, code, b - 1);
    OpBounds(body, start, ops, code, b - 2);
    OpSize(body, start, ops, code, b);
    OpSize(body, start, ops, code, b - 1);
    OpSize(body, start, ops, code, b - 2);
  }

  /** The output never outgrows the body. */
  lemma {:induction false} EmittedSize(body: seq<byte>, start: nat, ops: seq<Op>, code: seq<Instr>, plan: Plan, n: nat)
    requires Decoded(body, start, ops, code) && AllIn(body, start, ops) && Shaped(code, plan) && SmallDepths(plan)
    requires n <= |ops|
    ensures |Emitted(body, start, ops, plan, n)| <= AtOf(start, ops, n) <= |body|
  {
    PositionsGrow(body, start, ops, code, n);
    if n > 0 {
      OpBounds(body, start, ops, code, n - 1);
      if n - 1 in plan {
        TripleBytes(body, start, ops, code, plan, n - 1);
        EmittedSize(body, start, ops, code, plan, n - 3);
        EmittedSite(body, start, ops, plan, n - 1);
        BranchDecodes(plan[n - 1]);
      } else {
        EmittedSize(body, start, ops, code, plan, n - 1);
      }
    }
  }

  /** One more operation at the end. */
  lemma AppendOp(bytes: seq<byte>, start: nat, ops: seq<Op>, code: seq<Instr>, op: Op, raw: seq<byte>, instr: Instr)
    requires Decoded(bytes, start, ops, code) && Agrees(op, raw, instr) && op.at == |bytes| && op.len == |raw|
    ensures Decoded(bytes + raw, start, ops + [op], code + [instr])
  {
    var all, more, longer := bytes + raw, ops + [op], code + [instr];
    forall i | 0 <= i < |more| ensures OpDecoded(all, start, more, longer, i) {
      if i < |ops| {
        assert OpDecoded(bytes, start, ops, code, i);
        PartOfPrefix(bytes, raw, ops[i].at, ops[i].at + ops[i].len);
      } else {
        PartOfSuffix(bytes, raw);
      }
    }
  }

  /** The output decodes as the threaded code. */
  lemma {:induction false} EmittedDecodes(body: seq<byte>, start: nat, ops: seq<Op>, code: seq<Instr>, plan: Plan, n: nat)
    returns (emitted: seq<Op>)
    requires Decoded(body, start, ops, code) && AllIn(body, start, ops) && Shaped(code, plan) && SmallDepths(plan)
    requires n <= |ops| && |body| < ABSENT
    ensures Decoded(Emitted(body, start, ops, plan, n), start, emitted, Rewrite(code, plan, n))
  {
    if n == 0 {
      emitted := [];
    } else {
      var i := n - 1;
      var before := EmittedDecodes(body, start, ops, code, plan, i);
      EmittedSize(body, start, ops, code, plan, i);
      var at := |Emitted(body, start, ops, plan, i)|;
      if Dropped(plan, i) {
        emitted := before;
        NothingMoreCode(Rewrite(code, plan, i));
      } else if i in plan {
        BranchDecodes(plan[i]);
        var raw := BranchBytes(plan[i]);
        var op := Op(at, |raw|, 0, 0x0c, Unbits(plan[i]));
        AppendOp(Emitted(body, start, ops, plan, i), start, before, Rewrite(code, plan, i), op, raw, Br(plan[i]));
        emitted := before + [op];
      } else {
        assert OpDecoded(body, start, ops, code, i);
        var op := ops[i].(at := at);
        AppendOp(Emitted(body, start, ops, plan, i), start, before, Rewrite(code, plan, i), op, Raw(body, ops[i]), code[i]);
        emitted := before + [op];
      }
    }
  }

  lemma NothingMoreCode(code: seq<Instr>)
    ensures code + [] == code
  {
  }

  lemma PlanSmall(code: seq<Instr>, d: Dispatcher)
    requires Valid(code, d) && |code| < ABSENT
    ensures SmallDepths(PlanOf(code, d))
  {
    var plan := PlanOf(code, d);
    forall b | b in plan ensures plan[b] < 0x1_0000_0000 {
      DepthBound(code, b);
      HasPeel(Labels(code, b), Entry(code, d, code[b - 2].value).value);
    }
  }

  /** Without a dispatcher nothing is replaced. */
  lemma {:induction false} NothingThreaded(code: seq<Instr>, n: nat)
    requires n <= |code|
    ensures Rewrite(code, map[], n) == code[..n]
  {
    if n > 0 {
      NothingThreaded(code, n - 1);
    }
  }

  /** What threading an accepted body means for its runs: results, traps, effects and divergence stay the
      same, provided the two pages agree about every overlapped branch; with a low table that does not
      reach past the base no branch is overlapped. */
  lemma ThreadedRunsAlike<W>(code: seq<Instr>, limit: nat, d: Dispatcher, env: Env<W>, locals: seq<Val>, world: W,
                             result: Config<W>)
    requires Accepted(code, limit) && Chosen(code, d) && Valid(code, d)
    requires forall b :: Overlapped(code, d, b) ==>
               LabelAt(Labels(code, d.sel + 10), Low(code, d)[code[b - 2].value]) == Reached(code, d, code[b - 2].value)
    requires Safe(code, env, Start(locals, world))
    ensures Ends(code, env, Start(locals, world), result)
            <==> Ends(Rewritten(code, PlanOf(code, d)), env, Start(locals, world), result)
  {
    AcceptedReady(code, d, limit);
    PlanSoundness(code, d);
    ThreadingPreservesMeaning(code, env, d, locals, world, result);
  }

  /** Dispatch threading: the body is refused exactly when it is not accepted code, and otherwise comes
      back as the bytes of the code with every threadable branch replaced, never longer than before. */
  method Thread(body: seq<byte>, ghost start: nat, ops: seq<Op>, ghost code: seq<Instr>)
    returns (r: Result<seq<byte>>, ghost d: Dispatcher, ghost threaded: seq<Op>)
    requires Decoded(body, start, ops, code) && |body| < ABSENT
    ensures r.Success? <==> Accepted(code, |body|)
    ensures r.Success? ==> Chosen(code, d) && Valid(code, d)
    ensures r.Success? ==> Decoded(r.value, start, threaded, Rewritten(code, PlanOf(code, d))) && |r.value| <= |body|
  {
    DecodedReads(body, start, ops, code);
    AllInBody(body, start, ops, code);
    d, threaded, r := NoDispatcher, ops, InvalidCode;
    var ok, ends, alternatives := MatchEnds(ops, code);
    if !ok {
      return;
    }
    var heads, edges, branchLabels, t;
    ok, heads, edges, branchLabels, t, d := ScanBody(body, start, ops, code, ends, alternatives);
    if !ok {
      return;
    }
    if t.loop == ABSENT {
      assert PlanOf(code, d) == map[];
      NothingThreaded(code, |code|);
      assert code[..|code|] == code;
      return Success(body), d, ops;
    }
    var live, entered := ComputeLive(ops, code, edges, heads);
    forall i | 0 <= i < |code| ensures LiveKnownAt(code, live[..], i) {
    }
    ghost var plan := PlanOf(code, d);
    PlanSmall(code, d);
    forall b: nat ensures PlanAt(code, d, plan, b) {
    }
    var rs := CollectReplacements(ops, code, ends, alternatives[..], branchLabels, live, t, d, |body|, plan);
    var output := CopyAround(body, start, ops, code, plan, rs);
    EmittedSize(body, start, ops, code, plan, |ops|);
    threaded := EmittedDecodes(body, start, ops, code, plan, |ops|);
    r := Success(output);
  }
}
