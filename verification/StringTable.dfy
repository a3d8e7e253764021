/** Strings of a snapshot: every string that is written once, under a dense number. */
module StringTable {
  import opened Wrappers
  import opened Leb128
  import opened WireBytes

  const NO_ID := 0xffff_ffff
  const RECORD := 16
  const MAX_STRINGS := 0x10_0000
  const MAX_BYTES := 0x1000_0000

  function Le8(v: nat): (r: seq<byte>)
    ensures |r| == 8
  {
    Le4(v % 0x1_0000_0000) + Le4(v / 0x1_0000_0000)
  }

  function Record(at: nat, size: nat): (r: seq<byte>)
    ensures |r| == RECORD
  {
    Le8(at) + Le4(size) + [0, 0, 0, 0]
  }

  /** Where string `k` begins. */
  function StartOf(values: seq<seq<byte>>, k: nat): nat
    requires k <= |values|
  {
    if k == 0 then 0 else StartOf(values, k - 1) + |values[k - 1]|
  }

  function Bytes(values: seq<seq<byte>>): (r: seq<byte>)
    ensures |r| == StartOf(values, |values|)
    decreases |values|
  {
    if values == [] then []
    else
      SamePrefix(values, |values| - 1);
      Bytes(values[..|values| - 1]) + values[|values| - 1]
  }

  lemma SamePrefix(values: seq<seq<byte>>, k: nat)
    requires k <= |values|
    ensures StartOf(values[..k], k) == StartOf(values, k)
  {
    StartGrows(values[..k], values, k);
  }

  lemma {:induction false} StartGrows(few: seq<seq<byte>>, many: seq<seq<byte>>, k: nat)
    requires few <= many && k <= |few|
    ensures StartOf(few, k) == StartOf(many, k)
    decreases k
  {
    if k > 0 {
      StartGrows(few, many, k - 1);
    }
  }

  function Records(values: seq<seq<byte>>): (r: seq<byte>)
    ensures |r| == RECORD * |values|
    decreases |values|
  {
    if values == [] then []
    else
      var k := |values| - 1;
      Records(values[..k]) + Record(StartOf(values, k), |values[k]|)
  }

  ghost predicate Distinct(values: seq<seq<byte>>) {
    forall i, j :: 0 <= i < j < |values| ==> values[i] != values[j]
  }

  /** A reader finds each string by its number. */
  lemma {:induction false} StringAt(values: seq<seq<byte>>, k: nat)
    requires k < |values|
    ensures StartOf(values, k) + |values[k]| <= |Bytes(values)|
    ensures Bytes(values)[StartOf(values, k)..StartOf(values, k) + |values[k]|] == values[k]
    ensures Records(values)[RECORD * k..RECORD * k + RECORD] == Record(StartOf(values, k), |values[k]|)
    decreases |values|
  {
    var n := |values| - 1;
    SamePrefix(values, n);
    if k < n {
      StringAt(values[..n], k);
      StartGrows(values[..n], values, k);
      assert Bytes(values)[..|Bytes(values[..n])|] == Bytes(values[..n]);
      assert Records(values)[..|Records(values[..n])|] == Records(values[..n]);
      var at, size := StartOf(values, k), |values[k]|;
      assert Bytes(values)[at..at + size] == Bytes(values)[..|Bytes(values[..n])|][at..at + size];
      assert Records(values)[RECORD * k..RECORD * k + RECORD]
          == Records(values)[..|Records(values[..n])|][RECORD * k..RECORD * k + RECORD];
    }
  }

  class Strings {
    var values: seq<seq<byte>>
    var bytes: seq<byte>
    var records: seq<byte>
    var failed: bool

    /** The two sections list exactly the interned strings, none twice. */
    ghost predicate Valid()
      reads this
    {
      && Distinct(values) && |values| <= MAX_STRINGS && |bytes| <= MAX_BYTES
      && bytes == Bytes(values) && records == Records(values)
    }

    constructor ()
      ensures Valid() && values == [] && !failed
    {
      values, bytes, records, failed := [], [], [], false;
    }

    /** The number of a string, new or old. Two strings get the same number exactly if they are equal, since
        numbers are positions and none is given twice. */
    method Intern(data: Option<seq<byte>>) returns (id: nat)
      requires Valid()
      modifies this
      ensures Valid() && old(values) <= values
      ensures data.None? ==> id == NO_ID && values == old(values) && failed == old(failed)
      ensures data.Some? && data.value in old(values) ==> values == old(values) && failed == old(failed)
      ensures data.Some? && data.value !in old(values) && values == old(values) ==>
                failed && id == NO_ID && (|values| == MAX_STRINGS || |bytes| + |data.value| > MAX_BYTES)
      ensures values != old(values) ==> values == old(values) + [data.value] && failed == old(failed)
      ensures data.Some? && data.value in values ==> id < |values| && values[id] == data.value
    {
      if data.None? {
        return NO_ID;
      }
      for index := 0 to |values|
        invariant forall i :: 0 <= i < index ==> values[i] != data.value
        invariant unchanged(this)
      {
        if values[index] == data.value {
          return index;
        }
      }
      if |values| >= MAX_STRINGS || |bytes| + |data.value| > MAX_BYTES {
        failed := true;
        return NO_ID;
      }
      var at := |bytes|;
      ghost var was := values;
      values := values + [data.value];
      assert values[..|was|] == was;
      SamePrefix(values, |was|);
      bytes := bytes + data.value;
      records := records + Record(at, |data.value|);
      return |values| - 1;
    }
  }

  /** Numbers given at different times: equal exactly for equal strings. */
  lemma NumbersMatch(early: seq<seq<byte>>, late: seq<seq<byte>>, i: nat, j: nat)
    requires early <= late && Distinct(late) && i < |early| && j < |late|
    ensures i == j <==> early[i] == late[j]
  {
    assert early[i] == late[i];
    assert i < j ==> late[i] != late[j];
    assert j < i ==> late[j] != late[i];
  }
}
