/** Little-endian numbers and byte strings at fixed offsets of a request. */
module WireBytes {
  import opened Leb128

  function Le2(v: nat): (r: seq<byte>)
    ensures |r| == 2
  {
    [(v % 256) as byte, (v / 256 % 256) as byte]
  }

  function Le4(v: nat): (r: seq<byte>)
    ensures |r| == 4
  {
    [(v % 256) as byte, (v / 256 % 256) as byte, (v / 0x1_0000 % 256) as byte, (v / 0x100_0000 % 256) as byte]
  }

  function Read2(b: seq<byte>, at: nat): nat
    requires at + 2 <= |b|
  {
    b[at] as nat + b[at + 1] as nat * 256
  }

  function Read4(b: seq<byte>, at: nat): (v: nat)
    requires at + 4 <= |b|
    ensures v < 0x1_0000_0000
  {
    b[at] as nat + b[at + 1] as nat * 256 + b[at + 2] as nat * 0x1_0000 + b[at + 3] as nat * 0x100_0000
  }

  /** The chunk stands at that offset. */
  predicate Stands(b: seq<byte>, at: nat, chunk: seq<byte>) {
    at + |chunk| <= |b| && b[at..at + |chunk|] == chunk
  }

  predicate Num(b: seq<byte>, at: nat, v: nat) {
    v < 0x1_0000_0000 && Stands(b, at, Le4(v))
  }

  lemma Le4Reads(x: byte, y: byte, z: byte, w: byte, v: nat)
    requires v < 0x1_0000_0000
    ensures Le4(v) == [x, y, z, w] <==> v == x as nat + y as nat * 256 + z as nat * 0x1_0000 + w as nat * 0x100_0000
  {
    if v == x as nat + y as nat * 256 + z as nat * 0x1_0000 + w as nat * 0x100_0000 {
      assert v / 256 == y as nat + z as nat * 256 + w as nat * 0x1_0000;
      assert v / 0x1_0000 == z as nat + w as nat * 256;
      assert v / 0x100_0000 == w as nat;
    }
  }

  /** A number stands there exactly if reading gives it. */
  lemma NumReads(b: seq<byte>, at: nat, v: nat)
    ensures Num(b, at, v) <==> at + 4 <= |b| && Read4(b, at) == v
  {
    if at + 4 <= |b| {
      assert b[at..at + 4] == [b[at], b[at + 1], b[at + 2], b[at + 3]];
      if v < 0x1_0000_0000 {
        Le4Reads(b[at], b[at + 1], b[at + 2], b[at + 3], v);
      }
    }
  }

  lemma HalfReads(b: seq<byte>, at: nat, v: nat)
    requires v < 0x1_0000
    ensures Stands(b, at, Le2(v)) <==> at + 2 <= |b| && Read2(b, at) == v
  {
    if at + 2 <= |b| {
      assert b[at..at + 2] == [b[at], b[at + 1]];
    }
  }

  lemma SameByte(a: seq<byte>, b: seq<byte>, at: nat, chunk: seq<byte>, k: nat)
    requires Stands(a, at, chunk) && Stands(b, at, chunk) && at <= k < at + |chunk|
    ensures k < |a| && k < |b| && a[k] == b[k]
  {
    assert a[at..at + |chunk|][k - at] == b[at..at + |chunk|][k - at];
  }

  /** Bytes outside a range are untouched. */
  ghost predicate Kept(was: seq<byte>, now: seq<byte>, from: nat, stop: nat) {
    |was| == |now| && forall k :: 0 <= k < |was| && (k < from || k >= stop) ==> now[k] == was[k]
  }

  lemma StandsKept(was: seq<byte>, now: seq<byte>, from: nat, stop: nat, at: nat, chunk: seq<byte>)
    requires Kept(was, now, from, stop) && Stands(was, at, chunk) && (at + |chunk| <= from || stop <= at)
    ensures Stands(now, at, chunk)
  {
    assert was[at..at + |chunk|] == now[at..at + |chunk|];
  }

  /** Write a chunk; everything that stands elsewhere still stands. */
  method Put(a: array<byte>, at: nat, chunk: seq<byte>)
    requires at + |chunk| <= a.Length
    modifies a
    ensures Stands(a[..], at, chunk) && Kept(old(a[..]), a[..], at, at + |chunk|)
    ensures forall o: nat, c :: Stands(old(a[..]), o, c) && (o + |c| <= at || at + |chunk| <= o) ==> Stands(a[..], o, c)
  {
    ghost var was := a[..];
    for k := 0 to |chunk|
      invariant a[at..at + k] == chunk[..k] && Kept(was, a[..], at, at + |chunk|)
    {
      a[at + k] := chunk[k];
    }
    forall o: nat, c | Stands(was, o, c) && (o + |c| <= at || at + |chunk| <= o) ensures Stands(a[..], o, c) {
      StandsKept(was, a[..], at, at + |chunk|, o, c);
    }
  }
}
