/** Backward liveness of the selector local by a worklist: each operation enters it at most once, and
    the result is exact. */
module Liveness {
  import opened Leb128
  import opened WasmCode
  import opened CodeRewrite
  import opened DispatchPlan
  import opened ControlFlow

  ghost predicate PassesOn(code: seq<Instr>, live: seq<bool>, j: nat, i: nat)
    requires |live| == |code|
  {
    i < |code| && j in Succs(code, i) && !Kills(code[i]) ==> live[i]
  }

  /** Liveness at `j` has reached every operation it can come from. */
  ghost predicate PassedOn(code: seq<Instr>, live: seq<bool>, j: nat)
    requires |live| == |code|
  {
    forall i: nat :: PassesOn(code, live, j, i)
  }

  ghost predicate ReadSeen(code: seq<Instr>, live: seq<bool>, i: nat)
    requires i < |code| == |live|
  {
    code[i] == Get(SELECTOR) ==> live[i]
  }

  ghost predicate TrulyLive(code: seq<Instr>, live: seq<bool>, i: nat)
    requires i < |code| == |live|
  {
    live[i] ==> Live(code, i)
  }

  ghost predicate Sound(code: seq<Instr>, live: seq<bool>)
    requires |live| == |code|
  {
    forall i :: 0 <= i < |code| ==> TrulyLive(code, live, i)
  }

  ghost predicate PendingOr(code: seq<Instr>, live: seq<bool>, work: seq<nat>, j: nat)
    requires j < |code| == |live|
  {
    live[j] && j !in work ==> PassedOn(code, live, j)
  }

  /** The worklist holds what is still to be passed on; `entered` is everything it ever held. */
  ghost predicate WorkState(code: seq<Instr>, live: seq<bool>, work: seq<nat>, entered: seq<nat>) {
    && |live| == |code| && Sound(code, live)
    && (forall i :: 0 <= i < |code| ==> ReadSeen(code, live, i))
    && (forall j :: 0 <= j < |code| ==> PendingOr(code, live, work, j))
    && EnteredAre(live, entered)
    && forall j :: j in work ==> j < |code| && live[j]
  }

  ghost predicate EnteredAre(live: seq<bool>, entered: seq<nat>) {
    && (forall i, j :: 0 <= i < j < |entered| ==> entered[i] != entered[j])
    && (forall i: nat :: i in entered <==> i < |live| && live[i])
  }

  /** A set that holds all reads and is passed on everywhere holds every live operation. */
  lemma {:induction false} PathLive(code: seq<Instr>, live: seq<bool>, path: seq<nat>)
    requires |live| == |code| && ReadPath(code, path)
    requires forall i :: 0 <= i < |code| ==> ReadSeen(code, live, i)
    requires forall j :: 0 <= j < |code| && live[j] ==> PassedOn(code, live, j)
    ensures live[path[0]]
    decreases |path|
  {
    assert ReadSeen(code, live, path[0]);
    if |path| > 1 {
      var rest := path[1..];
      forall k | 0 <= k < |rest| - 1 ensures rest[k + 1] in Succs(code, rest[k]) && !Kills(code[rest[k]]) {
        assert path[(k + 1) + 1] in Succs(code, path[k + 1]);
      }
      PathLive(code, live, rest);
      assert path[0 + 1] in Succs(code, path[0]) && !Kills(code[path[0]]);
      assert PassesOn(code, live, path[1], path[0]);
    }
  }

  lemma Complete(code: seq<Instr>, live: seq<bool>, entered: seq<nat>)
    requires WorkState(code, live, [], entered)
    ensures forall i :: 0 <= i < |code| ==> (live[i] <==> Live(code, i))
  {
    forall j | 0 <= j < |code| && live[j] ensures PassedOn(code, live, j) {
      assert PendingOr(code, live, [], j);
    }
    forall i | 0 <= i < |code| ensures live[i] <==> Live(code, i) {
      assert TrulyLive(code, live, i);
      if Live(code, i) {
        var path :| ReadPath(code, path) && path[0] == i;
        PathLive(code, live, path);
      }
    }
  }

  lemma MarkEntered(live: seq<bool>, entered: seq<nat>, i: nat)
    requires i < |live| && !live[i] && EnteredAre(live, entered)
    ensures EnteredAre(live[i := true], entered + [i])
  {
    assert i !in entered;
    forall j: nat ensures j in entered + [i] <==> j < |live| && live[i := true][j] {
    }
  }

  /** Marking one more operation live keeps what was passed on. */
  lemma MarkLive(code: seq<Instr>, live: seq<bool>, work: seq<nat>, entered: seq<nat>, i: nat)
    requires WorkState(code, live, work, entered) && i < |code| && !live[i] && Live(code, i)
    ensures WorkState(code, live[i := true], work + [i], entered + [i])
  {
    var after := live[i := true];
    MarkEntered(live, entered, i);
    forall j | 0 <= j < |code| ensures TrulyLive(code, after, j) && ReadSeen(code, after, j) {
      assert TrulyLive(code, live, j) && ReadSeen(code, live, j);
    }
    forall j | 0 <= j < |code| ensures PendingOr(code, after, work + [i], j) {
      assert PendingOr(code, live, work, j);
      if live[j] && j !in work {
        forall m: nat ensures PassesOn(code, after, j, m) {
          assert PassesOn(code, live, j, m);
        }
      }
    }
  }

  /** The initial worklist: every read of the selector. */
  method SeedReads(ops: seq<Op>, ghost code: seq<Instr>) returns (live: array<bool>, work: seq<nat>)
    requires Reads(ops, code)
    ensures fresh(live) && live.Length == |ops|
    ensures WorkState(code, live[..], work, work)
  {
    live := new bool[|ops|](_ => false);
    work := [];
    for index := 0 to |ops|
      invariant Sound(code, live[..])
      invariant forall i :: 0 <= i < index ==> ReadSeen(code, live[..], i)
      invariant forall i :: index <= i < |ops| ==> !live[i]
      invariant EnteredAre(live[..], work)
    {
      assert OpMatches(ops[index], code[index]);
      ghost var was := live[..];
      if ops[index].op == 0x20 && ops[index].imm == 3 {
        LiveAtRead(code, index);
        MarkEntered(was, work, index);
        live[index] := true;
        assert live[..] == was[index := true];
        work := work + [index];
      }
      forall i | 0 <= i < |code| ensures TrulyLive(code, live[..], i) {
        assert TrulyLive(code, was, i);
      }
      forall i | 0 <= i < index + 1 ensures ReadSeen(code, live[..], i) {
        assert i < index ==> ReadSeen(code, was, i);
      }
    }
    forall j | 0 <= j < |code| ensures PendingOr(code, live[..], work, j) {
    }
  }

  /** The popped operation is the only one whose sources are still being visited. */
  ghost predicate Visiting(code: seq<Instr>, live: seq<bool>, work: seq<nat>, entered: seq<nat>, index: nat) {
    WorkState(code, live, work + [index], entered) && index < |code|
  }

  ghost predicate SourceDone(code: seq<Instr>, live: seq<bool>, rest: set<nat>, index: nat, i: nat)
    requires |live| == |code|
  {
    i !in rest ==> PassesOn(code, live, index, i)
  }

  lemma VisitDone(code: seq<Instr>, live: seq<bool>, work: seq<nat>, entered: seq<nat>, index: nat)
    requires Visiting(code, live, work, entered, index) && forall i: nat :: SourceDone(code, live, {}, index, i)
    ensures WorkState(code, live, work, entered)
  {
    forall i: nat ensures PassesOn(code, live, index, i) {
      assert SourceDone(code, live, {}, index, i);
    }
    forall j | 0 <= j < |code| ensures PendingOr(code, live, work, j) {
      assert PendingOr(code, live, work + [index], j);
    }
    forall j | j in work ensures j < |code| && live[j] {
      assert j in work + [index];
    }
  }

  /** Visit the sources of the edges into `index`. */
  method Visit(ops: seq<Op>, ghost code: seq<Instr>, edges: seq<Edge>, heads: array<u32>, live: array<bool>,
               work: seq<nat>, index: nat, ghost entered: seq<nat>)
    returns (after: seq<nat>, ghost enteredAfter: seq<nat>)
    requires Reads(ops, code) && heads.Length == live.Length == |ops|
    requires EdgesKnown(code, |code|, {}, edges, heads[..])
    requires Visiting(code, live[..], work, entered, index)
    modifies live
    ensures WorkState(code, live[..], after, enteredAfter)
    ensures entered <= enteredAfter && (enteredAfter == entered ==> after == work)
  {
    assert HeadKnown(code, |code|, {}, edges, heads[..][index], index);
    var e: u32 := heads[index];
    after, enteredAfter := work, entered;
    ghost var known := Chain(edges, e);
    forall i: nat ensures SourceDone(code, live[..], known, index, i) {
      assert i in known <==> EdgeSeen(code, |code|, {}, i, index);
    }
    while e != ABSENT
      invariant e == ABSENT || e < |edges|
      invariant Chain(edges, e) <= known && known == Chain(edges, heads[index])
      invariant Visiting(code, live[..], after, enteredAfter, index) && live[index]
      invariant entered <= enteredAfter && (enteredAfter == entered ==> after == work)
      invariant forall i: nat :: SourceDone(code, live[..], Chain(edges, e), index, i)
      decreases if e == ABSENT then 0 else e + 1
    {
      assert LinkFits(edges, e);
      var edge := edges[e];
      var source: nat := edge.source;
      assert source in known && EdgeSeen(code, |code|, {}, source, index);
      assert OpMatches(ops[source], code[source]);
      ghost var was := live[..];
      var kills := (ops[source].op == 0x21 || ops[source].op == 0x22) && ops[source].imm == 3;
      if !live[source] && !kills {
        assert TrulyLive(code, was, index);
        LiveBackwards(code, source, index);
        MarkLive(code, was, after + [index], enteredAfter, source);
        live[source] := true;
        assert live[..] == was[source := true];
        Reorder(code, live[..], after, index, source, enteredAfter + [source]);
        after, enteredAfter := after + [source], enteredAfter + [source];
      }
      forall i: nat ensures SourceDone(code, live[..], Chain(edges, edge.next), index, i) {
        assert SourceDone(code, was, Chain(edges, e), index, i);
        assert Chain(edges, e) == {source} + Chain(edges, edge.next);
        assert i != source ==> (PassesOn(code, was, index, i) ==> PassesOn(code, live[..], index, i));
      }
      e := edge.next;
    }
    VisitDone(code, live[..], after, enteredAfter, index);
  }

  /** The order of the worklist does not matter. */
  lemma Reorder(code: seq<Instr>, live: seq<bool>, work: seq<nat>, index: nat, source: nat, entered: seq<nat>)
    requires WorkState(code, live, (work + [index]) + [source], entered)
    ensures WorkState(code, live, (work + [source]) + [index], entered)
  {
    var before, after := (work + [index]) + [source], (work + [source]) + [index];
    assert forall j :: j in before <==> j in after;
    forall j | 0 <= j < |code| ensures PendingOr(code, live, after, j) {
      assert PendingOr(code, live, before, j);
    }
  }

  function Elements(s: seq<nat>): set<nat> {
    set i: nat | i in s
  }

  function Below(n: nat): set<nat> {
    if n == 0 then {} else Below(n - 1) + {n - 1}
  }

  lemma EnteredBound(live: seq<bool>, entered: seq<nat>)
    requires EnteredAre(live, entered)
    ensures |entered| <= |live|
  {
    BelowSize(|live|);
    Distinct(entered);
    forall i | i in Elements(entered) ensures i in Below(|live|) {
      BelowHas(|live|, i);
    }
    SubsetSize(Elements(entered), Below(|live|));
  }

  lemma {:induction false} BelowHas(n: nat, i: nat)
    ensures i in Below(n) <==> i < n
  {
    if n > 0 {
      BelowHas(n - 1, i);
    }
  }

  lemma {:induction false} BelowSize(n: nat)
    ensures |Below(n)| == n
  {
    if n > 0 {
      BelowSize(n - 1);
      BelowHas(n - 1, n - 1);
    }
  }

  lemma {:induction false} Distinct(s: seq<nat>)
    requires forall i, j :: 0 <= i < j < |s| ==> s[i] != s[j]
    ensures |Elements(s)| == |s|
    decreases |s|
  {
    if |s| > 0 {
      var front, last := s[..|s| - 1], s[|s| - 1];
      Distinct(front);
      assert s == front + [last];
      assert Elements(s) == Elements(front) + {last};
      assert last !in front;
    }
  }

  lemma {:induction false} SubsetSize(a: set<nat>, b: set<nat>)
    requires a <= b
    ensures |a| <= |b|
  {
    if a != {} {
      var x :| x in a;
      SubsetSize(a - {x}, b - {x});
    }
  }

  /** Liveness of the selector in front of every operation. `entered` lists what went through the worklist. */
  method ComputeLive(ops: seq<Op>, ghost code: seq<Instr>, edges: seq<Edge>, heads: array<u32>)
    returns (live: array<bool>, ghost entered: seq<nat>)
    requires Reads(ops, code) && heads.Length == |ops| && EdgesKnown(code, |code|, {}, edges, heads[..])
    ensures fresh(live) && live.Length == |ops|
    ensures forall i :: 0 <= i < |ops| ==> (live[i] <==> Live(code, i))
    ensures EnteredAre(live[..], entered)
  {
    var work;
    live, work := SeedReads(ops, code);
    entered := work;
    EnteredBound(live[..], entered);
    while work != []
      invariant WorkState(code, live[..], work, entered) && |entered| <= |ops|
      decreases |ops| - |entered|, |work|
    {
      var index := work[|work| - 1];
      ghost var before := work;
      assert index in before;
      work := work[..|work| - 1];
      assert before == work + [index];
      work, entered := Visit(ops, code, edges, heads, live, work, index, entered);
      EnteredBound(live[..], entered);
    }
    Complete(code, live[..], entered);
  }
}
