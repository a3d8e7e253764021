/** Sorting by a strict order; what compares equal may end up in any order. */
module Sorting {
  ghost predicate Asymmetric<T(!new)>(before: (T, T) -> bool) {
    forall x, y :: before(x, y) ==> !before(y, x)
  }

  predicate Sorted<T>(before: (T, T) -> bool, s: seq<T>) {
    forall k :: 0 < k < |s| ==> !before(s[k], s[k - 1])
  }

  function Insert<T>(before: (T, T) -> bool, x: T, s: seq<T>): (r: seq<T>)
    ensures multiset(r) == multiset([x] + s) && r != []
    ensures r[0] == x || (s != [] && r[0] == s[0])
    decreases |s|
  {
    if s == [] || !before(s[0], x) then [x] + s
    else
      assert s == [s[0]] + s[1..];
      [s[0]] + Insert(before, x, s[1..])
  }

  lemma {:induction false} InsertSorted<T(!new)>(before: (T, T) -> bool, x: T, s: seq<T>)
    requires Asymmetric(before) && Sorted(before, s)
    ensures Sorted(before, Insert(before, x, s))
    decreases |s|
  {
    if s != [] && before(s[0], x) {
      forall k | 0 < k < |s[1..]| ensures !before(s[1..][k], s[1..][k - 1]) {
        assert s[1..][k] == s[k + 1] && s[1..][k - 1] == s[k];
      }
      InsertSorted(before, x, s[1..]);
    }
  }

  function Sort<T>(before: (T, T) -> bool, s: seq<T>): (r: seq<T>)
    ensures multiset(r) == multiset(s)
    decreases |s|
  {
    if s == [] then []
    else
      assert s == [s[0]] + s[1..];
      Insert(before, s[0], Sort(before, s[1..]))
  }

  lemma {:induction false} SortSorts<T(!new)>(before: (T, T) -> bool, s: seq<T>)
    requires Asymmetric(before)
    ensures Sorted(before, Sort(before, s)) && |Sort(before, s)| == |s|
    decreases |s|
  {
    if s != [] {
      SortSorts(before, s[1..]);
      InsertSorted(before, s[0], Sort(before, s[1..]));
    }
    assert |multiset(Sort(before, s))| == |multiset(s)|;
  }

  lemma SortKeeps<T>(before: (T, T) -> bool, s: seq<T>, x: T)
    ensures x in Sort(before, s) <==> x in s
  {
    assert x in Sort(before, s) <==> x in multiset(Sort(before, s));
    assert x in s <==> x in multiset(s);
  }

  // ----- ties -----

  ghost predicate Transitive<T(!new)>(before: (T, T) -> bool) {
    forall x, y, z :: before(x, y) && before(y, z) ==> before(x, z)
  }

  predicate Tie<T>(before: (T, T) -> bool, x: T, y: T) {
    !before(x, y) && !before(y, x)
  }

  ghost predicate TiesNone<T>(before: (T, T) -> bool, x: T, s: seq<T>) {
    forall y :: y in s ==> !Tie(before, x, y)
  }

  /** No two elements compare equal. */
  ghost predicate NoTies<T>(before: (T, T) -> bool, s: seq<T>)
    decreases |s|
  {
    s != [] ==> TiesNone(before, s[0], s[1..]) && NoTies(before, s[1..])
  }

  lemma NoneFirst<T>(before: (T, T) -> bool, x: T, s: seq<T>)
    requires s != []
    ensures TiesNone(before, x, s) <==> !Tie(before, x, s[0]) && TiesNone(before, x, s[1..])
  {
    assert s == [s[0]] + s[1..];
  }

  lemma NoneSame<T>(before: (T, T) -> bool, x: T, s: seq<T>, t: seq<T>)
    requires forall z :: z in s <==> z in t
    ensures TiesNone(before, x, s) <==> TiesNone(before, x, t)
  {
  }

  lemma NoneInserted<T>(before: (T, T) -> bool, x: T, y: T, s: seq<T>)
    ensures TiesNone(before, x, Insert(before, y, s)) <==> !Tie(before, x, y) && TiesNone(before, x, s)
  {
    hide Tie, Insert;
    var r, t := Insert(before, y, s), [y] + s;
    forall z ensures z in r <==> z in t {
      assert z in r <==> z in multiset(r);
      assert z in t <==> z in multiset(t);
    }
    NoneSame(before, x, r, t);
    NoneFirst(before, x, t);
    assert t[1..] == s;
  }

  lemma {:induction false} InsertTies<T>(before: (T, T) -> bool, x: T, s: seq<T>)
    ensures NoTies(before, Insert(before, x, s)) <==> TiesNone(before, x, s) && NoTies(before, s)
    decreases |s|
  {
    hide TiesNone;
    var r := Insert(before, x, s);
    if s == [] || !before(s[0], x) {
      assert r[1..] == s;
    } else {
      InsertTies(before, x, s[1..]);
      NoneInserted(before, s[0], x, s[1..]);
      NoneFirst(before, x, s);
      assert r[1..] == Insert(before, x, s[1..]) && r[0] == s[0];
    }
  }

  /** Sorting neither makes nor removes ties. */
  lemma {:induction false} SortTies<T>(before: (T, T) -> bool, s: seq<T>)
    ensures NoTies(before, Sort(before, s)) <==> NoTies(before, s)
    decreases |s|
  {
    hide TiesNone, Tie, Insert;
    if s != [] {
      var rest := Sort(before, s[1..]);
      SortTies(before, s[1..]);
      InsertTies(before, s[0], rest);
      forall y ensures y in rest <==> y in s[1..] {
        SortKeeps(before, s[1..], y);
      }
      NoneSame(before, s[0], rest, s[1..]);
    }
  }

  ghost predicate NeighboursApart<T>(before: (T, T) -> bool, s: seq<T>) {
    forall k :: 0 < k < |s| ==> !Tie(before, s[k - 1], s[k])
  }

  ghost predicate AllApart<T>(before: (T, T) -> bool, s: seq<T>) {
    forall i, j :: 0 <= i < j < |s| ==> !Tie(before, s[i], s[j])
  }

  lemma {:induction false} TiesPairwise<T>(before: (T, T) -> bool, s: seq<T>)
    ensures NoTies(before, s) <==> AllApart(before, s)
    decreases |s|
  {
    hide Tie;
    if s != [] {
      var rest := s[1..];
      TiesPairwise(before, rest);
      assert forall k :: 0 <= k < |rest| ==> rest[k] == s[k + 1];
      if NoTies(before, s) {
        forall i, j | 0 <= i < j < |s| ensures !Tie(before, s[i], s[j]) {
          assert s[j] == rest[j - 1] && (i > 0 ==> s[i] == rest[i - 1]);
        }
      } else if TiesNone(before, s[0], rest) {
        var i, j :| 0 <= i < j < |rest| && Tie(before, rest[i], rest[j]);
        var m, n := i + 1, j + 1;
        assert Tie(before, s[m], s[n]);
      } else {
        var j :| 0 <= j < |rest| && Tie(before, s[0], rest[j]);
        var n := j + 1;
        assert Tie(before, s[0], s[n]);
      }
    }
  }

  ghost predicate Climbs<T>(before: (T, T) -> bool, s: seq<T>) {
    forall k :: 0 < k < |s| ==> before(s[k - 1], s[k])
  }

  /** In a list that climbs step by step the first element comes before all others. */
  lemma {:induction false} FirstBefore<T(!new)>(before: (T, T) -> bool, s: seq<T>, k: nat)
    requires Transitive(before) && Climbs(before, s) && 0 < k < |s|
    ensures before(s[0], s[k])
    decreases k
  {
    if k > 1 {
      FirstBefore(before, s, k - 1);
    }
  }

  /** Neighbours of a sorted list tell whether there are ties at all. */
  lemma {:induction false} NeighboursTie<T(!new)>(before: (T, T) -> bool, s: seq<T>)
    requires Transitive(before) && Asymmetric(before) && Sorted(before, s)
    ensures NoTies(before, s) <==> NeighboursApart(before, s)
    decreases |s|
  {
    if s != [] {
      var rest := s[1..];
      assert forall k :: 0 < k < |rest| ==> rest[k - 1] == s[k] && rest[k] == s[k + 1];
      NeighboursTie(before, rest);
      if forall k :: 0 < k < |s| ==> !Tie(before, s[k - 1], s[k]) {
        forall y | y in rest ensures !Tie(before, s[0], y) {
          var k :| 0 <= k < |rest| && rest[k] == y;
          FirstBefore(before, s, k + 1);
        }
        forall k | 0 < k < |rest| ensures !Tie(before, rest[k - 1], rest[k]) {
          var n := k + 1;
          assert !Tie(before, s[n - 1], s[n]);
        }
      } else {
        var k :| 0 < k < |s| && Tie(before, s[k - 1], s[k]);
        if k == 1 {
          assert s[1] in rest;
        } else {
          var m := k - 1;
          assert rest[m - 1] == s[k - 1] && rest[m] == s[k];
          assert Tie(before, rest[m - 1], rest[m]);
        }
      }
    }
  }

  /** Looking at the neighbours of a sorted list finds every pair that compares equal, wherever it was. */
  lemma SortedNeighbours<T(!new)>(before: (T, T) -> bool, s: seq<T>)
    requires Transitive(before) && Asymmetric(before)
    ensures NeighboursApart(before, Sort(before, s)) <==> AllApart(before, s)
  {
    hide NoTies, NeighboursApart, AllApart, Transitive, Asymmetric;
    SortSorts(before, s);
    NeighboursTie(before, Sort(before, s));
    SortTies(before, s);
    TiesPairwise(before, s);
  }
}
