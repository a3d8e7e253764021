/** Variable-length indices and integers of the WebAssembly binary format
    (section 5.2.2 of the WebAssembly Core Specification 2.0), as the linker reads and writes them. */
module Leb128 {
  import opened Wrappers

  newtype byte = x: int | 0 <= x < 0x100
  type u32 = x: int | 0 <= x < 0x1_0000_0000
  type i32 = x: int | -0x8000_0000 <= x < 0x8000_0000

  /** The unsigned reading of a signed 32-bit immediate. */
  function Bits(v: i32): u32 {
    if v < 0 then v + 0x1_0000_0000 else v
  }

  /** The bytes from `a` up to `b`, one at a time. */
  function Part(bytes: seq<byte>, a: nat, b: nat): (r: seq<byte>)
    requires a <= b <= |bytes|
    ensures |r| == b - a
    decreases b
  {
    if a == b then [] else Part(bytes, a, b - 1) + [bytes[b - 1]]
  }

  lemma {:induction false} PartAt(bytes: seq<byte>, a: nat, b: nat, k: nat)
    requires a <= b <= |bytes| && k < b - a
    ensures Part(bytes, a, b)[k] == bytes[a + k]
    decreases b
  {
    if k < b - 1 - a {
      PartAt(bytes, a, b - 1, k);
    }
  }

  lemma PartIsSlice(bytes: seq<byte>, a: nat, b: nat)
    requires a <= b <= |bytes|
    ensures Part(bytes, a, b) == bytes[a..b]
  {
    forall k | 0 <= k < b - a ensures Part(bytes, a, b)[k] == bytes[a..b][k] {
      PartAt(bytes, a, b, k);
    }
  }

  lemma {:induction false} PartJoin(bytes: seq<byte>, a: nat, b: nat, c: nat)
    requires a <= b <= c <= |bytes|
    ensures Part(bytes, a, b) + Part(bytes, b, c) == Part(bytes, a, c)
    decreases c
  {
    if b < c {
      PartJoin(bytes, a, b, c - 1);
    }
  }

  lemma {:induction false} PartOfPrefix(bytes: seq<byte>, more: seq<byte>, a: nat, b: nat)
    requires a <= b <= |bytes|
    ensures Part(bytes + more, a, b) == Part(bytes, a, b)
    decreases b
  {
    if a < b {
      PartOfPrefix(bytes, more, a, b - 1);
    }
  }

  predicate SameAt(x: seq<byte>, a: nat, y: seq<byte>, c: nat, k: nat) {
    a + k < |x| && c + k < |y| && x[a + k] == y[c + k]
  }

  lemma {:induction false} PartSame(x: seq<byte>, a: nat, y: seq<byte>, c: nat, n: nat)
    requires a + n <= |x| && c + n <= |y| && forall k :: 0 <= k < n ==> SameAt(x, a, y, c, k)
    ensures Part(x, a, a + n) == Part(y, c, c + n)
  {
    if n > 0 {
      PartSame(x, a, y, c, n - 1);
      assert SameAt(x, a, y, c, n - 1);
    }
  }

  lemma PartWhole(bytes: seq<byte>)
    ensures Part(bytes, 0, |bytes|) == bytes
  {
    PartIsSlice(bytes, 0, |bytes|);
  }

  lemma PartOfSuffix(bytes: seq<byte>, more: seq<byte>)
    ensures Part(bytes + more, |bytes|, |bytes| + |more|) == more
  {
    PartSame(bytes + more, |bytes|, more, 0, |more|);
    PartWhole(more);
  }

  function Unbits(v: u32): i32 {
    if v >= 0x8000_0000 then v - 0x1_0000_0000 else v
  }

  /** One more than the largest value the groups from `ordinal` on may contribute. */
  function Limit(ordinal: nat): nat {
    if ordinal == 0 then 0x1_0000_0000
    else if ordinal == 1 then 0x200_0000
    else if ordinal == 2 then 0x4_0000
    else if ordinal == 3 then 0x800
    else if ordinal == 4 then 16
    else 1
  }

  /** Meaning of the groups from `ordinal` on, least significant first: the value and the next cursor. */
  function Unsigned(bytes: seq<byte>, cursor: nat, ordinal: nat): (r: Option<(nat, nat)>)
    requires ordinal <= 5
    ensures r.Some? ==> r.value.0 < Limit(ordinal) && cursor < r.value.1 <= |bytes|
    decreases |bytes| - cursor
  {
    if ordinal == 5 || cursor >= |bytes| || (ordinal == 4 && bytes[cursor] > 15) then None
    else if bytes[cursor] < 128 then Some((bytes[cursor] as int, cursor + 1))
    else
      var rest := Unsigned(bytes, cursor + 1, ordinal + 1);
      if rest.None? then None else Some((bytes[cursor] as int - 128 + 128 * rest.value.0, rest.value.1))
  }

  /** A whole 32-bit index. */
  function Index(bytes: seq<byte>, cursor: nat): (r: Option<(u32, nat)>)
    ensures r.Some? ==> cursor < r.value.1 <= |bytes|
  {
    Unsigned(bytes, cursor, 0)
  }

  /** A signed 32-bit immediate; only four bits of a fifth group count. */
  function Signed(bytes: seq<byte>, cursor: nat, ordinal: nat): (r: Option<(int, nat)>)
    requires ordinal <= 5
    ensures r.Some? && ordinal < 5 ==> -(Limit(ordinal) as int) <= 2 * r.value.0 < Limit(ordinal)
    ensures r.Some? ==> cursor < r.value.1 <= |bytes|
    decreases |bytes| - cursor
  {
    if ordinal == 5 || cursor >= |bytes| then None
    else
      var group := bytes[cursor] as int;
      if ordinal == 4 then
        if group >= 128 then None
        else Some((if group % 16 >= 8 then group % 16 - 16 else group % 16, cursor + 1))
      else if group < 128 then Some((if group >= 64 then group - 128 else group, cursor + 1))
      else
        var rest := Signed(bytes, cursor + 1, ordinal + 1);
        if rest.None? then None else Some((group - 128 + 128 * rest.value.0, rest.value.1))
  }

  /** The canonical encoding. */
  function Encode(value: nat): (r: seq<byte>)
    ensures |r| >= 1
  {
    if value < 128 then [value as byte] else [(value % 128 + 128) as byte] + Encode(value / 128)
  }

  lemma {:induction false} EncodeSize(value: nat, ordinal: nat)
    requires ordinal < 5 && value < Limit(ordinal)
    ensures |Encode(value)| <= 5 - ordinal
    decreases 5 - ordinal
  {
    if value >= 128 {
      EncodeSize(value / 128, ordinal + 1);
    }
  }

  /** `raw` stands in `bytes` at position `at`. */
  predicate Holds(bytes: seq<byte>, at: nat, raw: seq<byte>) {
    at + |raw| <= |bytes| && forall k :: 0 <= k < |raw| ==> bytes[at + k] == raw[k]
  }

  /** An index read inside a part is the index read at the same place in the whole. */
  lemma {:induction false} UnsignedInside(bytes: seq<byte>, at: nat, raw: seq<byte>, cursor: nat, ordinal: nat)
    requires ordinal <= 5 && Holds(bytes, at, raw) && Unsigned(raw, cursor, ordinal).Some?
    ensures var r := Unsigned(raw, cursor, ordinal).value;
            Unsigned(bytes, at + cursor, ordinal) == Some((r.0, at + r.1))
    decreases 5 - ordinal
  {
    if raw[cursor] >= 128 {
      UnsignedInside(bytes, at, raw, cursor + 1, ordinal + 1);
    }
  }

  /** Reading undoes writing, whatever surrounds the encoding. */
  lemma {:induction false} EncodeRoundTrip(before: seq<byte>, value: nat, after: seq<byte>, ordinal: nat)
    requires ordinal < 5 && value < Limit(ordinal)
    ensures Unsigned(before + Encode(value) + after, |before|, ordinal)
            == Some((value, |before| + |Encode(value)|))
    decreases 5 - ordinal
  {
    var bytes := before + Encode(value) + after;
    assert bytes[|before|] == Encode(value)[0];
    if value >= 128 {
      var head := before + [(value % 128 + 128) as byte];
      assert bytes == head + Encode(value / 128) + after;
      EncodeRoundTrip(head, value / 128, after, ordinal + 1);
    }
  }

  /** `v` shifted left by `groups` seven-bit groups. */
  function Shift(v: nat, groups: nat): nat
    decreases groups
  {
    if groups == 0 then v else Shift(128 * v, groups - 1)
  }

  lemma {:induction false} ShiftAdds(v: nat, w: nat, groups: nat)
    ensures Shift(v + w, groups) == Shift(v, groups) + Shift(w, groups)
    decreases groups
  {
    if groups > 0 {
      ShiftAdds(128 * v, 128 * w, groups - 1);
      assert 128 * (v + w) == 128 * v + 128 * w;
    }
  }

  /** A partly read index: what the groups so far amount to, plus the rest shifted past them. */
  ghost function Total(low: nat, groups: nat, rest: Option<(nat, nat)>): Option<(nat, nat)> {
    if rest.None? then None else Some((low + Shift(rest.value.0, groups), rest.value.1))
  }

  lemma TotalStep(low: nat, bytes: seq<byte>, cursor: nat, ordinal: nat)
    requires ordinal < 4 && cursor < |bytes| && bytes[cursor] >= 128
    ensures Total(low, ordinal, Unsigned(bytes, cursor, ordinal))
            == Total(low + Shift(bytes[cursor] as int - 128, ordinal), ordinal + 1, Unsigned(bytes, cursor + 1, ordinal + 1))
  {
    var rest := Unsigned(bytes, cursor + 1, ordinal + 1);
    if rest.Some? {
      ShiftAdds(bytes[cursor] as int - 128, 128 * rest.value.0, ordinal);
    }
  }

  /** The linker's reader: groups are or-ed in at growing shifts, the fifth one limited to four bits. */
  method ReadIndex(bytes: seq<byte>, start: nat) returns (r: Result<u32>, cursor: nat)
    ensures r.Success? <==> Index(bytes, start).Some?
    ensures r.Success? ==> Index(bytes, start) == Some((r.value, cursor))
  {
    var result: nat, ordinal := 0, 0;
    cursor := start;
    while ordinal < 5
      invariant 0 <= ordinal <= 5
      invariant Index(bytes, start) == Total(result, ordinal, Unsigned(bytes, cursor, ordinal))
    {
      if cursor >= |bytes| {
        return InvalidCode, cursor;
      }
      var group := bytes[cursor] as int;
      if ordinal == 4 && group > 15 {
        return InvalidCode, cursor + 1;
      }
      if group < 128 {
        assert Index(bytes, start) == Some((result + Shift(group, ordinal), cursor + 1));
        return Success(result + Shift(group, ordinal)), cursor + 1;
      }
      TotalStep(result, bytes, cursor, ordinal);
      result := result + Shift(group - 128, ordinal);
      cursor, ordinal := cursor + 1, ordinal + 1;
    }
    return InvalidCode, cursor;
  }

  /** The linker's writer. */
  method AppendIndex(output: seq<byte>, value: u32) returns (r: seq<byte>)
    ensures r == output + Encode(value)
  {
    var remaining: int := value;
    r := output;
    while true
      invariant 0 <= remaining
      invariant r + Encode(remaining) == output + Encode(value)
      decreases remaining
    {
      var group := remaining % 128;
      var rest := remaining / 128;
      if rest == 0 {
        return r + [group as byte];
      }
      assert r + ([(group + 128) as byte] + Encode(rest)) == (r + [(group + 128) as byte]) + Encode(rest);
      r := r + [(group + 128) as byte];
      remaining := rest;
    }
  }
}
