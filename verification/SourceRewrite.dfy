/** The rewrite on source text: edits are sorted, outermost first, and applied in place; a blanked stretch
    keeps its line breaks. */
module SourceRewrite {
  import opened Sorting

  datatype Edit = Edit(start: nat, end: nat, text: string)

  predicate LineBreak(c: char) {
    c == '\n' || c == '\r'
  }

  /** An edit the rewrite accepts: its text fits, and covers and contains no line break. */
  predicate Fits(source: string, e: Edit) {
    && e.start < e.end <= |source| && |e.text| <= e.end - e.start
    && forall k :: e.start <= k < e.start + |e.text| ==> !LineBreak(source[k]) && !LineBreak(e.text[k - e.start])
  }

  /** Earlier first; of those that start together the longest first. */
  predicate Before(a: Edit, b: Edit) {
    if a.start == b.start then a.end > b.end else a.start < b.start
  }

  function Order(edits: seq<Edit>): seq<Edit> {
    Sort(Before, edits)
  }

  // ----- which edits are applied -----

  /** Of sorted edits, those that start at or after the end of the last one applied. */
  function Applied(edits: seq<Edit>, n: nat): (r: seq<Edit>)
    requires n <= |edits|
  {
    if n == 0 then []
    else
      var before := Applied(edits, n - 1);
      if edits[n - 1].start < LastEnd(before) then before else before + [edits[n - 1]]
  }

  function LastEnd(applied: seq<Edit>): nat {
    if applied == [] then 0 else applied[|applied| - 1].end
  }

  predicate Inside(e: Edit, k: nat) {
    e.start <= k < e.end
  }

  /** What the byte at `k` of an applied edit becomes. */
  function EditedChar(source: string, e: Edit, k: nat): char
    requires k < |source| && Inside(e, k)
  {
    if k < e.start + |e.text| then e.text[k - e.start] else if LineBreak(source[k]) then source[k] else ' '
  }

  /** The rewritten text, position by position. */
  ghost predicate Rewritten(source: string, applied: seq<Edit>, result: string) {
    |result| == |source| && forall k :: 0 <= k < |source| ==> CharRight(source, applied, result, k)
  }

  ghost predicate CharRight(source: string, applied: seq<Edit>, result: string, k: nat)
    requires k < |source| == |result|
  {
    && (forall i :: 0 <= i < |applied| && Inside(applied[i], k) ==> result[k] == EditedChar(source, applied[i], k))
    && (Untouched(applied, k) ==> result[k] == source[k])
  }

  ghost predicate Untouched(applied: seq<Edit>, k: nat) {
    forall i :: 0 <= i < |applied| ==> !Inside(applied[i], k)
  }

  // ----- properties of the applied edits -----

  ghost predicate InSequence(applied: seq<Edit>) {
    forall i, j :: 0 <= i < j < |applied| ==> applied[i].end <= applied[j].start
  }

  /** Applied edits are pairwise disjoint, in text order, and among the candidates. */
  lemma {:induction false} AppliedDisjoint(edits: seq<Edit>, n: nat)
    requires n <= |edits| && Solid(edits)
    ensures InSequence(Applied(edits, n))
    ensures forall e :: e in Applied(edits, n) ==> e in edits && e.end <= LastEnd(Applied(edits, n))
  {
    if n > 0 {
      AppliedDisjoint(edits, n - 1);
    }
  }

  /** Two edits nest when they are disjoint or one contains the other. */
  predicate Nest(a: Edit, b: Edit) {
    a.end <= b.start || b.end <= a.start || Within(a, b) || Within(b, a)
  }

  predicate Within(a: Edit, b: Edit) {
    b.start <= a.start && a.end <= b.end
  }

  lemma {:induction false} SortedPairs(edits: seq<Edit>, i: nat, j: nat)
    requires Sorted(Before, edits) && i <= j < |edits|
    ensures !Before(edits[j], edits[i])
    decreases j - i
  {
    if i < j {
      SortedPairs(edits, i, j - 1);
      assert !Before(edits[j], edits[j - 1]);
    }
  }

  ghost predicate AllNest(edits: seq<Edit>) {
    forall i, j :: 0 <= i < |edits| && 0 <= j < |edits| ==> Nest(edits[i], edits[j])
  }

  predicate Solid(edits: seq<Edit>) {
    forall k :: 0 <= k < |edits| ==> edits[k].start < edits[k].end
  }

  /** An edit that starts before an earlier one has ended lies inside it. */
  lemma LaterInside(edits: seq<Edit>, k: nat, i: nat)
    requires k <= i < |edits| && Sorted(Before, edits) && AllNest(edits) && Solid(edits) && edits[i].start < edits[k].end
    ensures Within(edits[i], edits[k])
  {
    SortedPairs(edits, k, i);
    assert Nest(edits[k], edits[i]);
  }

  /** For properly nested edits, every candidate lies inside an applied one. */
  lemma {:induction false} CoveredByApplied(edits: seq<Edit>, n: nat, i: nat) returns (j: nat)
    requires i < n <= |edits| && Sorted(Before, edits) && AllNest(edits) && Solid(edits)
    ensures j < |Applied(edits, n)| && Within(edits[i], Applied(edits, n)[j])
  {
    hide Sorted, AllNest, Nest, Solid;
    var before := Applied(edits, n - 1);
    if i < n - 1 {
      j := CoveredByApplied(edits, n - 1, i);
    } else if edits[i].start < LastEnd(before) {
      j := |before| - 1;
      var k := IndexOf(edits, n - 1, j);
      LaterInside(edits, k, i);
    } else {
      j := |before|;
    }
  }

  /** Applied edits come from the list, in order. */
  lemma {:induction false} IndexOf(edits: seq<Edit>, n: nat, j: nat) returns (k: nat)
    requires n <= |edits| && j < |Applied(edits, n)|
    ensures k < n && edits[k] == Applied(edits, n)[j]
  {
    if j < |Applied(edits, n - 1)| {
      k := IndexOf(edits, n - 1, j);
    } else {
      k := n - 1;
    }
  }

  /** Only one applied edit contains a given one. */
  lemma ContainerUnique(applied: seq<Edit>, e: Edit, i: nat, j: nat)
    requires InSequence(applied) && e.start < e.end && i < |applied| && j < |applied|
    requires Within(e, applied[i]) && Within(e, applied[j])
    ensures i == j
  {
  }

  /** Every candidate of properly nested edits lies inside exactly one applied edit, and that is the
      outermost: no candidate properly contains it. */
  lemma OutermostApplied(edits: seq<Edit>, e: Edit) returns (outer: Edit)
    requires e in edits && AllNest(edits) && Solid(edits)
    ensures var applied := Applied(Order(edits), |Order(edits)|);
            && outer in applied && Within(e, outer)
            && (forall a :: a in applied && Within(e, a) ==> a == outer)
            && forall c :: c in edits && Within(outer, c) ==> c.start == outer.start && c.end == outer.end
  {
    hide Applied, AllNest, Sorted, Solid, InSequence;
    var sorted := Order(edits);
    BeforeAsymmetric();
    SortSorts(Before, edits);
    OrderKeeps(edits);
    AppliedDisjoint(sorted, |sorted|);
    var applied := Applied(sorted, |sorted|);
    var i := PositionOf(sorted, e);
    var j := CoveredByApplied(sorted, |sorted|, i);
    outer := applied[j];
    SolidAt(sorted, i);
    forall a | a in applied && Within(e, a) ensures a == outer {
      var m := PositionOf(applied, a);
      ContainerUnique(applied, e, m, j);
    }
    forall c | c in edits && Within(outer, c) ensures c.start == outer.start && c.end == outer.end {
      var n := PositionOf(sorted, c);
      var m := CoveredByApplied(sorted, |sorted|, n);
      ContainerUnique(applied, e, m, j);
    }
  }

  lemma PositionOf(edits: seq<Edit>, e: Edit) returns (i: nat)
    requires e in edits
    ensures i < |edits| && edits[i] == e
  {
    i :| 0 <= i < |edits| && edits[i] == e;
  }

  lemma SolidAt(edits: seq<Edit>, i: nat)
    requires Solid(edits) && i < |edits|
    ensures edits[i].start < edits[i].end
  {
  }

  lemma BeforeAsymmetric()
    ensures Asymmetric(Before)
  {
  }

  lemma OrderKeeps(edits: seq<Edit>)
    requires AllNest(edits) && Solid(edits)
    ensures AllNest(Order(edits)) && Solid(Order(edits)) && forall e :: e in Order(edits) <==> e in edits
  {
    var sorted := Order(edits);
    forall e ensures e in sorted <==> e in edits {
      SortKeeps(Before, edits, e);
    }
    forall k | 0 <= k < |sorted| ensures sorted[k].start < sorted[k].end {
      assert sorted[k] in edits;
    }
    forall i, j | 0 <= i < |sorted| && 0 <= j < |sorted| ensures Nest(sorted[i], sorted[j]) {
      assert sorted[i] in edits && sorted[j] in edits;
    }
  }

  // ----- what the rewrite keeps -----

  /** Line breaks stay where they are, and everything outside the applied edits stays as it is. */
  lemma LinesKept(source: string, applied: seq<Edit>, result: string, k: nat)
    requires Rewritten(source, applied, result) && k < |source|
    requires forall i :: 0 <= i < |applied| ==> Fits(source, applied[i])
    ensures LineBreak(source[k]) || LineBreak(result[k]) ==> result[k] == source[k]
  {
    assert CharRight(source, applied, result, k);
    if !Untouched(applied, k) {
      var i :| 0 <= i < |applied| && Inside(applied[i], k);
      var e := applied[i];
      assert Fits(source, e) && result[k] == EditedChar(source, e, k);
      if k < e.start + |e.text| {
        assert !LineBreak(source[k]) && !LineBreak(e.text[k - e.start]);
      }
    }
  }

  /** Blank one edit and write its text over it. */
  method ApplyEdit(a: array<char>, e: Edit)
    requires Fits(a[..], e)
    modifies a
    ensures forall k :: 0 <= k < a.Length ==> a[k] == Edited(old(a[..]), e, k)
  {
    ghost var was := a[..];
    for cursor := e.start to e.end
      invariant forall k :: 0 <= k < a.Length ==> a[k] == Blanked(was, e, cursor, k)
    {
      if !LineBreak(a[cursor]) {
        a[cursor] := ' ';
      }
    }
    for n := 0 to |e.text|
      invariant forall k :: 0 <= k < a.Length ==> a[k] == Overwritten(was, e, n, k)
    {
      a[e.start + n] := e.text[n];
    }
  }

  function Edited(was: string, e: Edit, k: nat): char
    requires k < |was|
  {
    if Inside(e, k) then EditedChar(was, e, k) else was[k]
  }

  /** Blanked up to `cursor`. */
  function Blanked(was: string, e: Edit, cursor: nat, k: nat): char
    requires k < |was|
  {
    if e.start <= k < cursor && !LineBreak(was[k]) then ' ' else was[k]
  }

  /** Blanked, and the first `n` characters of the text written over it. */
  function Overwritten(was: string, e: Edit, n: nat, k: nat): char
    requires k < |was| && n <= |e.text|
  {
    if e.start <= k < e.start + n then e.text[k - e.start] else Blanked(was, e, e.end, k)
  }

  lemma OrderFits(source: string, edits: seq<Edit>)
    requires forall k :: 0 <= k < |edits| ==> Fits(source, edits[k])
    ensures Solid(Order(edits)) && forall k :: 0 <= k < |Order(edits)| ==> Fits(source, Order(edits)[k])
  {
    var sorted := Order(edits);
    forall k | 0 <= k < |sorted| ensures Fits(source, sorted[k]) {
      SortKeeps(Before, edits, sorted[k]);
    }
  }

  lemma AppliedFit(source: string, edits: seq<Edit>, n: nat)
    requires n <= |edits| && Solid(edits) && forall k :: 0 <= k < |edits| ==> Fits(source, edits[k])
    ensures forall i :: 0 <= i < |Applied(edits, n)| ==> Fits(source, Applied(edits, n)[i])
  {
    forall i | 0 <= i < |Applied(edits, n)| ensures Fits(source, Applied(edits, n)[i]) {
      var k := IndexOf(edits, n, i);
    }
  }

  lemma AppliedNext(list: seq<Edit>, i: nat)
    requires i < |list|
    ensures Applied(list, 0) == []
    ensures Applied(list, i + 1) == if list[i].start < LastEnd(Applied(list, i)) then Applied(list, i) else Applied(list, i) + [list[i]]
  {
  }

  /** Apply sorted edits in place, skipping those inside an edit applied before. */
  method ApplyAll(a: array<char>, list: seq<Edit>)
    requires Solid(list) && forall k :: 0 <= k < |list| ==> Fits(a[..], list[k])
    modifies a
    ensures Rewritten(old(a[..]), Applied(list, |list|), a[..])
  {
    hide Rewritten, Fits, Solid, InSequence, Applied, Edited;
    ghost var source := a[..];
    var end := 0;
    NothingApplied(source, list);
    for i := 0 to |list|
      invariant end == LastEnd(Applied(list, i)) && Rewritten(source, Applied(list, i), a[..])
    {
      AppliedDisjoint(list, i);
      AppliedNext(list, i);
      if list[i].start < end {
        continue;
      }
      ghost var was := a[..];
      StillOriginal(source, Applied(list, i), was, list[i]);
      ApplyEdit(a, list[i]);
      OneMore(source, Applied(list, i), was, list[i], a[..]);
      end := list[i].end;
    }
  }

  lemma NothingApplied(source: string, list: seq<Edit>)
    ensures Rewritten(source, Applied(list, 0), source) && LastEnd(Applied(list, 0)) == 0
  {
  }

  /** Rewrite a source by the candidate edits: same length, same line breaks. */
  method Rewrite(source: string, edits: seq<Edit>) returns (result: string)
    requires forall k :: 0 <= k < |edits| ==> Fits(source, edits[k])
    ensures Rewritten(source, Applied(Order(edits), |Order(edits)|), result)
    ensures |result| == |source|
    ensures forall k :: 0 <= k < |source| && (LineBreak(source[k]) || LineBreak(result[k])) ==> result[k] == source[k]
  {
    hide Fits, Solid, Applied;
    var list := Order(edits);
    OrderFits(source, edits);
    var a := new char[|source|](k requires 0 <= k < |source| => source[k]);
    assert a[..] == source;
    ApplyAll(a, list);
    result := a[..];
    AppliedFit(source, list, |list|);
    AllLinesKept(source, Applied(list, |list|), result);
  }

  lemma AllLinesKept(source: string, applied: seq<Edit>, result: string)
    requires Rewritten(source, applied, result) && forall i :: 0 <= i < |applied| ==> Fits(source, applied[i])
    ensures forall k :: 0 <= k < |source| && (LineBreak(source[k]) || LineBreak(result[k])) ==> result[k] == source[k]
  {
    forall k | 0 <= k < |source| && (LineBreak(source[k]) || LineBreak(result[k])) ensures result[k] == source[k] {
      LinesKept(source, applied, result, k);
    }
  }

  /** Where the next edit goes the text is still the source. */
  lemma StillOriginal(source: string, applied: seq<Edit>, was: string, e: Edit)
    requires Rewritten(source, applied, was) && Fits(source, e) && (forall a :: a in applied ==> a.end <= e.start)
    ensures Fits(was, e) && forall k :: e.start <= k < e.end ==> was[k] == source[k]
  {
    forall k | e.start <= k < e.end ensures was[k] == source[k] {
      assert Untouched(applied, k) && CharRight(source, applied, was, k);
    }
  }

  lemma OneMore(source: string, applied: seq<Edit>, was: string, e: Edit, now: string)
    requires Rewritten(source, applied, was) && Fits(source, e) && |now| == |source|
    requires forall a :: a in applied ==> a.end <= e.start
    requires forall k :: e.start <= k < e.end ==> was[k] == source[k]
    requires forall k :: 0 <= k < |now| ==> now[k] == Edited(was, e, k)
    ensures Rewritten(source, applied + [e], now)
  {
    var all := applied + [e];
    forall k | 0 <= k < |source| ensures CharRight(source, all, now, k) {
      assert CharRight(source, applied, was, k);
      forall i | 0 <= i < |all| && Inside(all[i], k) ensures now[k] == EditedChar(source, all[i], k) {
        if i < |applied| {
          assert all[i] in applied;
        }
      }
      if Untouched(all, k) {
        UntouchedBefore(applied, e, k);
      }
    }
  }

  lemma UntouchedBefore(applied: seq<Edit>, e: Edit, k: nat)
    requires Untouched(applied + [e], k)
    ensures !Inside(e, k) && Untouched(applied, k)
  {
    var all := applied + [e];
    assert all[|applied|] == e;
    forall i | 0 <= i < |applied| ensures !Inside(applied[i], k) {
      assert all[i] == applied[i];
    }
  }
}
