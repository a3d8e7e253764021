/** Frames of compiled calls on the value stack: how arguments reach registers, how extra arguments are kept
    below a relocated frame, and how results get back to the caller. */
module VarargFrames {
  datatype Value = Nil | Other(id: nat)

  /** What the frame operations read of a function. */
  datatype Proto = Proto(params: nat, vararg: bool, registers: nat)

  /** A negative result count asks for all results. */
  datatype Call = Call(func: nat, base: nat, limit: nat, results: int, proto: Proto)

  datatype Stack = Stack(slots: seq<Value>, calls: seq<Call>, top: nat)

  const MULTRET: int := -1

  function Nils(n: nat): (r: seq<Value>)
    ensures |r| == n && forall k :: 0 <= k < n ==> r[k] == Nil
  {
    seq(n, i => Nil)
  }

  /** The first `n` values, missing ones nil. */
  function Padded(vs: seq<Value>, n: nat): (r: seq<Value>)
    ensures |r| == n
  {
    if n <= |vs| then vs[..n] else vs + Nils(n - |vs|)
  }

  /** What a caller that asked for `n` results gets. */
  function Adjusted(vs: seq<Value>, n: int): seq<Value> {
    if n < 0 then vs else Padded(vs, n)
  }

  /** The arguments behind the fixed parameters. */
  function Extras(args: seq<Value>, params: nat): seq<Value> {
    if params <= |args| then args[params..] else []
  }

  // ----- pieces of the stack -----

  /** `vs` written at `at`. */
  function Put(slots: seq<Value>, at: nat, vs: seq<Value>): (r: seq<Value>)
    requires at + |vs| <= |slots|
    ensures |r| == |slots|
  {
    slots[..at] + vs + slots[at + |vs|..]
  }

  /** Enough room for `n` more values above the top; new slots are nil. */
  function Room(slots: seq<Value>, top: nat, n: nat): (r: seq<Value>)
    requires top <= |slots|
    ensures slots <= r && top + n <= |r|
  {
    if top + n <= |slots| then slots else slots + Nils(if n <= |slots| then |slots| else n)
  }

  function Current(s: Stack): Call
    requires s.calls != []
  {
    s.calls[|s.calls| - 1]
  }

  /** The running frame lies on the stack, and its caller's below it. */
  ghost predicate Framed(s: Stack) {
    && s.calls != [] && s.top <= |s.slots|
    && var c := Current(s); c.func < c.base && c.base + c.proto.registers <= |s.slots| && c.proto.params <= c.proto.registers
  }

  /** One more value behind those written. */
  lemma PutOne(slots: seq<Value>, at: nat, vs: seq<Value>, v: Value)
    requires at + |vs| < |slots|
    ensures Put(slots, at, vs + [v]) == Put(slots, at, vs)[at + |vs| := v]
  {
  }

  lemma PutNone(slots: seq<Value>, at: nat)
    requires at <= |slots|
    ensures Put(slots, at, []) == slots
  {
  }

  /** Two stretches side by side are one. */
  lemma PutBoth(slots: seq<Value>, at: nat, vs: seq<Value>, ws: seq<Value>)
    requires at + |vs| + |ws| <= |slots|
    ensures Put(Put(slots, at, vs), at + |vs|, ws) == Put(slots, at, vs + ws)
  {
  }

  /** What is copied next has not been written yet. */
  lemma CopyNext(slots: seq<Value>, source: nat, to: nat, k: nat)
    requires source + k < |slots| && to + k < |slots| && (to <= source || source + k < to)
    ensures var done := Put(slots, to, slots[source..source + k]);
            && done[source + k] == slots[source + k]
            && Put(slots, to, slots[source..source + k + 1]) == done[to + k := slots[source + k]]
  {
    assert slots[source..source + k + 1] == slots[source..source + k] + [slots[source + k]];
    PutOne(slots, to, slots[source..source + k], slots[source + k]);
  }

  /** Copying what there is and filling up with nil. */
  lemma PutPadded(slots: seq<Value>, at: nat, vs: seq<Value>, n: nat)
    requires at + n <= |slots|
    ensures var m := if |vs| < n then |vs| else n;
            Put(Put(slots, at, vs[..m]), at + m, Nils(n - m)) == Put(slots, at, Padded(vs, n))
  {
    hide Put;
    var m := if |vs| < n then |vs| else n;
    PutBoth(slots, at, vs[..m], Nils(n - m));
    if n <= |vs| {
      assert vs[..m] + Nils(0) == Padded(vs, n);
    } else {
      assert vs[..m] == vs;
    }
  }

  lemma NilsGrow(n: nat)
    ensures Nils(n + 1) == Nils(n) + [Nil] && Nils(0) == []
  {
  }

  // ----- the operations on states -----

  /** A function at `func` is entered with the arguments above it. */
  function Entered(s: Stack, func: nat, results: int, proto: Proto): Stack
    requires func < s.top <= |s.slots| && proto.params <= proto.registers
  {
    var base, room := func + 1, Room(s.slots, s.top, proto.registers);
    var filled := if s.top < base + proto.params then base + proto.params else s.top;
    Stack(Put(room, s.top, Nils(filled - s.top)), s.calls + [Call(func, base, s.top + proto.registers, results, proto)],
          if proto.vararg then filled else s.top + proto.registers)
  }

  /** The frame is still where it was entered, with all fixed parameters below the top. */
  predicate Fresh(s: Stack, fixed: nat)
    requires s.calls != []
  {
    var c := Current(s);
    c.proto.vararg && fixed == c.proto.params && c.base == c.func + 1 && s.top >= c.base + fixed
  }

  /** The frame moves above its arguments; the fixed parameters move along. */
  function Relocated(s: Stack): Stack
    requires Framed(s) && Fresh(s, Current(s).proto.params)
  {
    var c := Current(s);
    var n, room := c.proto.params, Room(s.slots, s.top, c.proto.registers + c.proto.params);
    var moved := Put(Put(room, s.top, room[c.base..c.base + n]), c.base, Nils(n));
    Stack(moved, s.calls[|s.calls| - 1 := c.(base := s.top, limit := s.top + c.proto.registers)], s.top + c.proto.registers)
  }

  /** How many extra arguments lie below the frame. */
  function Extra(s: Stack): int
    requires s.calls != []
  {
    Current(s).base - Current(s).func - Current(s).proto.params - 1
  }

  function GotFixed(s: Stack, to: nat, count: nat): Stack
    requires Framed(s) && 0 <= Extra(s) && to + count <= Current(s).proto.registers
  {
    var base := Current(s).base;
    s.(slots := Put(s.slots, base + to, Padded(s.slots[base - Extra(s)..base], count)))
  }

  function GotAll(s: Stack, to: nat): Stack
    requires Framed(s) && 0 <= Extra(s) && to <= Current(s).proto.registers
  {
    var base := Current(s).base;
    var at := base + to;
    var need := if at < s.top then s.top else at;
    var room := Room(s.slots, need, Extra(s));
    s.(slots := Put(room, at, s.slots[base - Extra(s)..base]), top := at + Extra(s))
  }

  /** The results move to the frame's start. */
  function Returned(s: Stack, source: nat, count: nat): Stack
    requires Framed(s) && Current(s).base + source + count <= |s.slots|
  {
    var base := Current(s).base;
    s.(slots := Put(s.slots, base, s.slots[base + source..base + source + count]), top := base + count)
  }

  /** The results from `first` on go to the function's slot and up, as many as were asked for; the frame goes. */
  function Finished(s: Stack, first: nat): Stack
    requires |s.calls| >= 2 && first <= s.top <= |s.slots| && Current(s).func < first
    requires Current(s).results < 0 || Current(s).func + Current(s).results <= |s.slots|
  {
    var c, vs := Current(s), Adjusted(s.slots[first..s.top], Current(s).results);
    var calls := s.calls[..|s.calls| - 1];
    Stack(Put(s.slots, c.func, vs), calls, if c.results < 0 then c.func + |vs| else calls[|calls| - 1].limit)
  }

  // ----- a whole call -----

  function Arguments(s: Stack, func: nat): seq<Value>
    requires func < s.top <= |s.slots|
  {
    s.slots[func + 1..s.top]
  }

  /** The state in which the function's body starts. */
  function Begun(s: Stack, func: nat, results: int, proto: Proto): Stack
    requires func < s.top <= |s.slots| && proto.params <= proto.registers
  {
    EnteredWell(s, func, results, proto);
    var e := Entered(s, func, results, proto);
    if proto.vararg then Relocated(e) else e
  }

  lemma EnteredWell(s: Stack, func: nat, results: int, proto: Proto)
    requires func < s.top <= |s.slots| && proto.params <= proto.registers
    ensures var e := Entered(s, func, results, proto);
            && Framed(e) && Current(e) == Call(func, func + 1, s.top + proto.registers, results, proto)
            && (proto.vararg ==> Fresh(e, proto.params))
  {
  }

  /** Equal beginnings have equal parts. */
  lemma SamePart(a: seq<Value>, b: seq<Value>, n: nat, i: nat, j: nat)
    requires i <= j <= n <= |a| && n <= |b| && a[..n] == b[..n]
    ensures a[i..j] == b[i..j]
  {
    assert a[i..j] == a[..n][i..j] && b[i..j] == b[..n][i..j];
  }

  lemma PutKeeps(slots: seq<Value>, at: nat, vs: seq<Value>, i: nat, j: nat)
    requires at + |vs| <= |slots| && i <= j <= |slots| && (j <= at || at + |vs| <= i)
    ensures Put(slots, at, vs)[i..j] == slots[i..j]
  {
  }

  lemma RoomKeeps(slots: seq<Value>, top: nat, n: nat, i: nat, j: nat)
    requires top <= |slots| && i <= j <= |slots|
    ensures Room(slots, top, n)[i..j] == slots[i..j]
  {
  }

  lemma PutReads(slots: seq<Value>, at: nat, vs: seq<Value>)
    requires at + |vs| <= |slots|
    ensures Put(slots, at, vs)[at..at + |vs|] == vs && Put(slots, at, vs)[..at] == slots[..at]
    ensures Put(slots, at, vs)[at + |vs|..] == slots[at + |vs|..]
  {
  }

  /** After entering, the arguments stand above the function, filled up with nil to the parameters. */
  lemma EnteredHolds(s: Stack, func: nat, results: int, proto: Proto)
    requires func < s.top <= |s.slots| && proto.params <= proto.registers
    ensures var e, args := Entered(s, func, results, proto), Arguments(s, func);
            && e.slots[..func + 1] == s.slots[..func + 1] && e.calls == s.calls + [Current(e)]
            && e.slots[func + 1..func + 1 + proto.params] == Padded(args, proto.params)
            && var n := if |args| < proto.params then proto.params else |args|;
               func + 1 + n <= |e.slots| && e.slots[func + 1 + proto.params..func + 1 + n] == Extras(args, proto.params)
               && (proto.vararg ==> e.top == func + 1 + n)
  {
    hide Put, Room, Nils;
    var e, args, base, n := Entered(s, func, results, proto), Arguments(s, func), func + 1, proto.params;
    var room := Room(s.slots, s.top, proto.registers);
    var more := if s.top < base + n then base + n - s.top else 0;
    PutReads(room, s.top, Nils(more));
    PutKeeps(room, s.top, Nils(more), 0, base);
    PutKeeps(room, s.top, Nils(more), base, s.top);
    RoomKeeps(s.slots, s.top, proto.registers, 0, base);
    RoomKeeps(s.slots, s.top, proto.registers, base, s.top);
    if more == 0 {
      assert e.slots[base..base + n] == e.slots[base..s.top][..n];
      assert e.slots[base + n..s.top] == e.slots[base..s.top][n..];
    } else {
      assert e.slots[base..base + n] == e.slots[base..s.top] + e.slots[s.top..base + n];
    }
  }

  /** What the body of a call finds: registers with the parameters, extra arguments right below them, and
      nothing changed up to the function. */
  ghost predicate Delivered(s: Stack, b: Stack, func: nat, results: int, proto: Proto)
    requires func < s.top <= |s.slots|
  {
    var args := Arguments(s, func);
    && Framed(b) && b.calls == s.calls + [Current(b)] && func < |b.slots| && b.slots[..func + 1] == s.slots[..func + 1]
    && var c := Current(b);
       && c.func == func && c.results == results && c.proto == proto
       && b.slots[c.base..c.base + proto.params] == Padded(args, proto.params)
       && (proto.vararg ==> Extra(b) == |Extras(args, proto.params)| && b.slots[c.base - Extra(b)..c.base] == Extras(args, proto.params))
  }

  lemma CallDelivers(s: Stack, func: nat, results: int, proto: Proto)
    requires func < s.top <= |s.slots| && proto.params <= proto.registers
    ensures Delivered(s, Begun(s, func, results, proto), func, results, proto)
  {
    hide Room, Padded, Extras, Arguments, Put;
    EnteredWell(s, func, results, proto);
    EnteredHolds(s, func, results, proto);
    if proto.vararg {
      RelocatedHolds(s, func, results, proto);
    }
  }

  /** Moving `n` values from `base` to the top. */
  lemma Moved(slots: seq<Value>, top: nat, base: nat, n: nat, need: nat)
    requires base + n <= top <= |slots| && n <= need
    ensures var room := Room(slots, top, need);
            var moved := Put(Put(room, top, room[base..base + n]), base, Nils(n));
            && top + need <= |moved| && moved[top..top + n] == slots[base..base + n] && moved[base + n..top] == slots[base + n..top]
            && moved[..base] == slots[..base]
  {
    hide Put, Room;
    var room := Room(slots, top, need);
    var fixed := room[base..base + n];
    var once := Put(room, top, fixed);
    PutReads(room, top, fixed);
    RoomKeeps(slots, top, need, base, base + n);
    PutKeeps(once, base, Nils(n), top, top + n);
    PutKeeps(once, base, Nils(n), base + n, top);
    PutKeeps(room, top, fixed, base + n, top);
    RoomKeeps(slots, top, need, base + n, top);
    PutKeeps(once, base, Nils(n), 0, base);
    PutKeeps(room, top, fixed, 0, base);
    RoomKeeps(slots, top, need, 0, base);
  }

  lemma RelocatedHolds(s: Stack, func: nat, results: int, proto: Proto)
    requires func < s.top <= |s.slots| && proto.params <= proto.registers && proto.vararg
    ensures Delivered(s, Begun(s, func, results, proto), func, results, proto)
  {
    hide Padded, Extras, Arguments, Put, Entered, Room;
    EnteredWell(s, func, results, proto);
    EnteredHolds(s, func, results, proto);
    var e, n := Entered(s, func, results, proto), proto.params;
    Moved(e.slots, e.top, func + 1, n, proto.registers + n);
    Repointed(s.calls, Current(e), e.top);
  }

  lemma Repointed(calls: seq<Call>, c: Call, top: nat)
    ensures var d := c.(base := top, limit := top + c.proto.registers);
            (calls + [c])[|calls + [c]| - 1 := d] == calls + [d]
  {
  }

  /** While the body runs it may write registers, call and grow the stack; what is below its registers stays. */
  ghost predicate Continues(b: Stack, t: Stack) {
    && Framed(b) && Framed(t) && t.calls == b.calls && |b.slots| <= |t.slots|
    && t.slots[..Current(b).base] == b.slots[..Current(b).base]
  }

  /** At any point of the body the extra arguments can be fetched, in order, as many as wanted or all, and
      nothing else changes. */
  lemma ExtrasArrive(s: Stack, b: Stack, t: Stack, func: nat, results: int, proto: Proto, to: nat, count: nat)
    requires func < s.top <= |s.slots| && proto.vararg && Delivered(s, b, func, results, proto) && Continues(b, t)
    requires to + count <= proto.registers
    ensures 0 <= Extra(t)
    ensures var extras, at := Extras(Arguments(s, func), proto.params), Current(t).base + to;
            var one, all := GotFixed(t, to, count), GotAll(t, to);
            && one.slots[at..at + count] == Padded(extras, count)
            && one.slots[..at] == t.slots[..at] && one.slots[at + count..] == t.slots[at + count..] && one.top == t.top
            && at + |extras| == all.top <= |all.slots| && all.slots[at..all.top] == extras && all.slots[..at] == t.slots[..at]
            && Continues(b, one) && Continues(b, all)
  {
    hide Padded, Extras, Arguments, Put, Room;
    var base, n := Current(t).base, Extra(t);
    SamePart(t.slots, b.slots, base, base - n, base);
    var at := base + to;
    var extras := t.slots[base - n..base];
    PutReads(t.slots, at, Padded(extras, count));
    var above := if at < t.top then t.top else at;
    var room := Room(t.slots, above, n);
    PutReads(room, at, extras);
    RoomKeeps(t.slots, above, n, 0, at);
    PutKeeps(t.slots, at, Padded(extras, count), 0, base);
    PutKeeps(room, at, extras, 0, base);
    RoomKeeps(t.slots, above, n, 0, base);
  }

  /** When the body returns `count` values from register `source` on, the caller finds as many of them as it
      asked for from the function's slot up, and everything below as it was before the call. */
  lemma CallReturns(s: Stack, b: Stack, t: Stack, func: nat, results: int, proto: Proto, source: nat, count: nat)
    requires func < s.top <= |s.slots| && s.calls != [] && Delivered(s, b, func, results, proto) && Continues(b, t)
    requires Current(t).base + source + count <= |t.slots| && (results < 0 || func + results <= |t.slots|)
    ensures var r, base := Returned(t, source, count), Current(t).base;
            var f, vs := Finished(r, base), Adjusted(t.slots[base + source..base + source + count], results);
            && f.calls == s.calls && f.slots[..func] == s.slots[..func]
            && func + |vs| <= |f.slots| && f.slots[func..func + |vs|] == vs
            && f.top == if results < 0 then func + |vs| else Current(s).limit
  {
    hide Padded, Extras, Arguments, Put;
    var base := Current(t).base;
    var vs, r := t.slots[base + source..base + source + count], Returned(t, source, count);
    PutReads(t.slots, base, vs);
    assert r.slots[base..r.top] == vs;
    PutReads(r.slots, func, Adjusted(vs, results));
    var f := Finished(r, base);
    assert f.slots[..func] == r.slots[..base][..func] == t.slots[..base][..func] == b.slots[..func + 1][..func] == s.slots[..func];
  }

  // ----- the operations in place -----

  class LuaStack {
    var slots: array<Value>
    var calls: seq<Call>
    var top: nat

    function Now(): Stack
      reads this, slots
    {
      Stack(slots[..], calls, top)
    }

    constructor (size: nat, host: Call)
      requires host.func < host.base && host.base + host.proto.registers <= size && host.proto.params <= host.proto.registers
      ensures Framed(Now()) && calls == [host] && fresh(slots) && slots[..] == Nils(size)
    {
      slots := new Value[size](i => Nil);
      calls, top := [host], host.base;
    }

    /** Grow the stack; the values move to a new block. */
    method CheckStack(above: nat, n: nat)
      requires above <= slots.Length
      modifies this`slots
      ensures slots[..] == Room(old(slots[..]), above, n) && (slots == old(slots) || fresh(slots))
    {
      if above + n <= slots.Length {
        return;
      }
      var block, size := slots, slots.Length;
      var more := new Value[size + if n <= size then size else n](i => Nil);
      for k := 0 to size
        invariant forall i :: 0 <= i < k ==> more[i] == block[i]
        invariant forall i :: k <= i < more.Length ==> more[i] == Nil
      {
        more[k] := block[k];
      }
      assert more[..] == block[..] + Nils(more.Length - size);
      slots := more;
    }

    method FillNils(at: nat, n: nat)
      requires at + n <= slots.Length
      modifies slots
      ensures slots[..] == Put(old(slots[..]), at, Nils(n))
    {
      hide Put, Nils;
      ghost var was := slots[..];
      PutNone(was, at);
      NilsGrow(0);
      for k := 0 to n
        invariant slots[..] == Put(was, at, Nils(k))
      {
        PutOne(was, at, Nils(k), Nil);
        NilsGrow(k);
        slots[at + k] := Nil;
      }
    }

    /** Copy upwards one by one: right if the target begins below the source or behind it. */
    method Copy(source: nat, to: nat, n: nat)
      requires source + n <= slots.Length && to + n <= slots.Length && (to <= source || source + n <= to)
      modifies slots
      ensures slots[..] == Put(old(slots[..]), to, old(slots[..])[source..source + n])
    {
      ghost var was := slots[..];
      PutNone(was, to);
      for k := 0 to n
        invariant slots[..] == Put(was, to, was[source..source + k])
      {
        CopyNext(was, source, to, k);
        assert slots[source + k] == slots[..][source + k];
        slots[to + k] := slots[source + k];
      }
    }

    /** Copy as many of the `n` values as are wanted, and fill up with nil. */
    method CopyPadded(source: nat, n: nat, to: nat, wanted: nat)
      requires source + n <= slots.Length && to + wanted <= slots.Length && (to <= source || source + n <= to)
      modifies slots
      ensures slots[..] == Put(old(slots[..]), to, Padded(old(slots[..])[source..source + n], wanted))
    {
      hide Put, Nils, Padded;
      ghost var was, vs := slots[..], slots[..][source..source + n];
      var copied := if n < wanted then n else wanted;
      assert vs[..copied] == was[source..source + copied];
      PutPadded(was, to, vs, wanted);
      Copy(source, to, copied);
      FillNils(to + copied, wanted - copied);
    }

    method Precall(func: nat, results: int, proto: Proto)
      requires func < top <= slots.Length && proto.params <= proto.registers
      modifies this, slots
      ensures Now() == Entered(old(Now()), func, results, proto)
    {
      hide Put, Nils, Room;
      var args, base := top, func + 1;
      calls := calls + [Call(func, base, args + proto.registers, results, proto)];
      CheckStack(top, proto.registers);
      var filled := if args < base + proto.params then base + proto.params else args;
      FillNils(args, filled - args);
      top := if proto.vararg then filled else args + proto.registers;
    }

    /** Grow the stack, move `n` values from `from` to the top and leave nils. */
    method MoveUp(from: nat, n: nat, room: nat)
      requires from + n <= top <= slots.Length && n <= room
      modifies this`slots, slots
      ensures var all := Room(old(slots[..]), top, room);
              slots[..] == Put(Put(all, top, all[from..from + n]), from, Nils(n))
    {
      hide Put, Nils, Room;
      CheckStack(top, room);
      Copy(from, top, n);
      FillNils(from, n);
    }

    method PrepVarargs(fixed: nat) returns (ok: bool)
      requires Framed(Now())
      modifies this, slots
      ensures ok <==> Fresh(old(Now()), fixed)
      ensures Now() == if ok then Relocated(old(Now())) else old(Now())
    {
      hide Put, Nils, Room;
      var c := calls[|calls| - 1];
      if !c.proto.vararg || fixed != c.proto.params || c.base != c.func + 1 || top < c.base + fixed {
        return false;
      }
      MoveUp(c.base, fixed, c.proto.registers + fixed);
      calls := calls[|calls| - 1 := c.(base := top, limit := top + c.proto.registers)];
      top := top + c.proto.registers;
      return true;
    }

    method GetVarargsFixed(to: nat, count: nat) returns (ok: bool)
      requires Framed(Now())
      modifies slots
      ensures var s := old(Now());
              && (ok <==> Current(s).proto.vararg && to + count <= Current(s).proto.registers && 0 <= Extra(s))
              && Now() == if ok then GotFixed(s, to, count) else s
    {
      hide Put, Padded;
      var c := calls[|calls| - 1];
      var extra := c.base - c.func - c.proto.params - 1;
      if !c.proto.vararg || to + count > c.proto.registers || extra < 0 {
        return false;
      }
      CopyPadded(c.base - extra, extra, c.base + to, count);
      return true;
    }

    /** Grow the stack, and copy `n` values from `from` behind everything in use. */
    method CopyUp(from: nat, n: nat, at: nat, above: nat)
      requires from + n <= at <= above <= slots.Length
      modifies this`slots, slots
      ensures slots[..] == Put(Room(old(slots[..]), above, n), at, old(slots[..])[from..from + n])
    {
      hide Put, Nils;
      ghost var was := slots[..];
      CheckStack(above, n);
      assert slots[..][from..from + n] == was[from..from + n];
      Copy(from, at, n);
    }

    method GetVarargsMultret(to: nat) returns (ok: bool)
      requires Framed(Now())
      modifies this`slots, this`top, slots
      ensures var s := old(Now());
              && (ok <==> Current(s).proto.vararg && to <= Current(s).proto.registers && 0 <= Extra(s))
              && Now() == if ok then GotAll(s, to) else s
    {
      hide Put, Room;
      var c := calls[|calls| - 1];
      var extra := c.base - c.func - c.proto.params - 1;
      if !c.proto.vararg || to > c.proto.registers || extra < 0 {
        return false;
      }
      var at := c.base + to;
      CopyUp(c.base - extra, extra, at, if at < top then top else at);
      top := at + extra;
      return true;
    }

    /** Return `count` values, or all up to the top, from register `source` on. */
    method Return(source: nat, count: int) returns (ok: bool)
      requires Framed(Now())
      modifies this`top, slots
      ensures var s := old(Now());
              var c := Current(s);
              && (ok <==> count >= MULTRET && source <= c.proto.registers
                          && if count == MULTRET then c.base + source <= s.top else source + count <= c.proto.registers)
              && Now() == if ok then Returned(s, source, if count == MULTRET then s.top - c.base - source else count) else s
    {
      hide Put;
      var c := calls[|calls| - 1];
      if count < MULTRET || source > c.proto.registers {
        return false;
      }
      var n := count;
      if count == MULTRET {
        if c.base + source > top {
          return false;
        }
        n := top - c.base - source;
      } else if source + count > c.proto.registers {
        return false;
      }
      Copy(c.base + source, c.base, n);
      top := c.base + n;
      return true;
    }

    method Poscall(first: nat)
      requires |calls| >= 2 && first <= top <= slots.Length && calls[|calls| - 1].func < first
      requires calls[|calls| - 1].results < 0 || calls[|calls| - 1].func + calls[|calls| - 1].results <= slots.Length
      modifies this`calls, this`top, slots
      ensures Now() == Finished(old(Now()), first)
    {
      hide Put, Padded;
      var c := calls[|calls| - 1];
      var n := top - first;
      if c.results < 0 {
        Copy(first, c.func, n);
      } else {
        CopyPadded(first, n, c.func, c.results);
      }
      calls := calls[..|calls| - 1];
      top := if c.results < 0 then c.func + n else calls[|calls| - 1].limit;
    }
  }
}
