/** Compiler contexts behind 32-bit handles: a slot number and a 16-bit generation that skips zero. */
module ContextHandles {
  import opened Wrappers

  const MAX_CONTEXTS: nat := 8
  /** A slot's generation runs through this many values, from 1 on. */
  const PERIOD: nat := 65535

  datatype Content = Content(profile: seq<nat>, pack: seq<nat>)
  datatype Slot = Slot(generation: nat, content: Option<Content>)

  type Slots = seq<Slot>

  datatype Status = Ok(handle: nat) | InvalidArgument | InvalidRequest | ResourceLimit | InvalidContext | Destroyed

  function Handle(index: nat, generation: nat): nat {
    generation * 256 + index + 1
  }

  /** The slot a handle resolves to; its upper byte is ignored. */
  function SlotFor(slots: Slots, handle: nat): Option<nat> {
    var low := handle % 256;
    if low == 0 || low > |slots| then None
    else if slots[low - 1].content.None? || slots[low - 1].generation != (handle / 256) % 65536 then None
    else Some(low - 1)
  }

  function Resolve(slots: Slots, handle: nat): Option<Content> {
    match SlotFor(slots, handle)
    case None => None
    case Some(i) => slots[i].content
  }

  function FirstFree(slots: Slots, i: nat): (r: Option<nat>)
    ensures r.Some? ==> i <= r.value < |slots| && slots[r.value].content.None?
    decreases |slots| - i
  {
    if i >= |slots| then None else if slots[i].content.None? then Some(i) else FirstFree(slots, i + 1)
  }

  /** What is too large or empty to try. */
  predicate Sized(c: Content) {
    0 < |c.profile| <= 256 * 1024 && 0 < |c.pack| <= 32 * 1024 * 1024
  }

  /** One request; `valid` is what parsing and validation say of a profile and pack. */
  datatype Request = Create(content: Content, valid: bool) | Destroy(handle: nat)

  function NextGeneration(g: nat): nat {
    var g1 := (g + 1) % 65536;
    if g1 == 0 then 1 else g1
  }

  function After(slots: Slots, r: Request): (Slots, Status) {
    match r
    case Create(content, valid) =>
      if !Sized(content) then (slots, InvalidArgument)
      else if !valid then (slots, InvalidRequest)
      else
        (match FirstFree(slots, 0)
         case None => (slots, ResourceLimit)
         case Some(i) => (slots[i := slots[i].(content := Some(content))], Ok(Handle(i, slots[i].generation))))
    case Destroy(handle) =>
      match SlotFor(slots, handle)
      case None => (slots, InvalidContext)
      case Some(i) => (slots[i := Slot(NextGeneration(slots[i].generation), None)], Destroyed)
  }

  /** The slots in place, as the compiler keeps them. */
  class Contexts {
    const slots: array<Slot>

    constructor ()
      ensures slots.Length == MAX_CONTEXTS && fresh(slots) && slots[..] == Fresh()
    {
      slots := new Slot[MAX_CONTEXTS](i => Slot(1, None));
    }

    method ContextFor(handle: nat) returns (r: Option<nat>)
      ensures r == SlotFor(slots[..], handle)
    {
      var low := handle % 256;
      if low == 0 || low > slots.Length {
        return None;
      }
      if slots[low - 1].content.None? || slots[low - 1].generation != (handle / 256) % 65536 {
        return None;
      }
      return Some(low - 1);
    }

    method ContextCreate(content: Content, valid: bool) returns (status: Status)
      modifies slots
      ensures (slots[..], status) == After(old(slots[..]), Create(content, valid))
    {
      if !Sized(content) {
        return InvalidArgument;
      }
      if !valid {
        return InvalidRequest;
      }
      var index := 0;
      while index < slots.Length && slots[index].content.Some?
        invariant index <= slots.Length && FirstFree(slots[..], 0) == FirstFree(slots[..], index)
      {
        index := index + 1;
      }
      if index == slots.Length {
        return ResourceLimit;
      }
      slots[index] := slots[index].(content := Some(content));
      return Ok(Handle(index, slots[index].generation));
    }

    method ContextDestroy(handle: nat) returns (status: Status)
      modifies slots
      ensures (slots[..], status) == After(old(slots[..]), Destroy(handle))
    {
      var slot := ContextFor(handle);
      if slot.None? {
        return InvalidContext;
      }
      var g := (slots[slot.value].generation + 1) % 65536;
      if g == 0 {
        g := 1;
      }
      slots[slot.value] := Slot(g, None);
      return Destroyed;
    }
  }

  function Fresh(): (r: Slots)
    ensures |r| == MAX_CONTEXTS && forall i :: 0 <= i < |r| ==> r[i] == Slot(1, None)
  {
    [Slot(1, None), Slot(1, None), Slot(1, None), Slot(1, None), Slot(1, None), Slot(1, None), Slot(1, None), Slot(1, None)]
  }

  // ----- histories -----

  function Run(slots: Slots, requests: seq<Request>): Slots
    decreases |requests|
  {
    if requests == [] then slots else Run(After(slots, requests[0]).0, requests[1..])
  }

  /** How many requests destroyed the context of slot `i`. */
  function Destroys(slots: Slots, requests: seq<Request>, i: nat): nat
    decreases |requests|
  {
    if requests == [] then 0
    else
      var r := requests[0];
      (if r.Destroy? && SlotFor(slots, r.handle) == Some(i) then 1 else 0) + Destroys(After(slots, r).0, requests[1..], i)
  }

  predicate Valid(slots: Slots) {
    |slots| == MAX_CONTEXTS && forall i :: 0 <= i < |slots| ==> 1 <= slots[i].generation <= PERIOD
  }

  lemma StepValid(slots: Slots, r: Request)
    requires Valid(slots)
    ensures Valid(After(slots, r).0)
  {
  }

  /** The generation counts the destroys of its slot, modulo its period; and while there is none, a
      context stays what it is. */
  lemma {:induction false} GenerationCounts(slots: Slots, requests: seq<Request>, i: nat)
    requires Valid(slots) && i < MAX_CONTEXTS
    ensures Valid(Run(slots, requests))
    ensures (Run(slots, requests)[i].generation - 1) % PERIOD == (slots[i].generation - 1 + Destroys(slots, requests, i)) % PERIOD
    ensures slots[i].content.Some? && Destroys(slots, requests, i) == 0 ==> Run(slots, requests)[i] == slots[i]
    decreases |requests|
  {
    if requests != [] {
      var next := After(slots, requests[0]).0;
      StepValid(slots, requests[0]);
      GenerationCounts(next, requests[1..], i);
      var d := if requests[0].Destroy? && SlotFor(slots, requests[0].handle) == Some(i) then 1 else 0;
      assert (next[i].generation - 1) % PERIOD == (slots[i].generation - 1 + d) % PERIOD;
      Congruent(next[i].generation - 1, slots[i].generation - 1 + d, Destroys(next, requests[1..], i));
    }
  }

  lemma Congruent(a: int, b: int, d: int)
    requires a % PERIOD == b % PERIOD
    ensures (a + d) % PERIOD == (b + d) % PERIOD
  {
    var q := a / PERIOD - b / PERIOD;
    assert a + d == b + d + q * PERIOD;
    Multiple(b + d, q);
  }

  lemma {:induction false} Multiple(n: int, q: int)
    ensures (n + q * PERIOD) % PERIOD == n % PERIOD
    decreases if q < 0 then -q else q
  {
    if q > 0 {
      Multiple(n, q - 1);
      assert n + q * PERIOD == n + (q - 1) * PERIOD + PERIOD;
    } else if q < 0 {
      Multiple(n, q + 1);
      assert n + q * PERIOD == n + (q + 1) * PERIOD - PERIOD;
    }
  }

  lemma HandleParts(index: nat, generation: nat)
    requires index < MAX_CONTEXTS && generation <= PERIOD
    ensures Handle(index, generation) % 256 == index + 1 && (Handle(index, generation) / 256) % 65536 == generation
    ensures Handle(index, generation) < 0x100_0000
  {
  }

  /** When a handle issued now resolves later: exactly when its slot then holds a context and the slot's
      contexts have been destroyed a multiple of 65535 times since. */
  lemma HandleResolves(slots: Slots, content: Content, requests: seq<Request>)
    requires Valid(slots) && After(slots, Create(content, true)).1.Ok?
    ensures var (now, status) := After(slots, Create(content, true));
            var i := FirstFree(slots, 0).value;
            var later := Run(now, requests);
            && Resolve(now, status.handle) == Some(content) && Valid(later)
            && (SlotFor(later, status.handle).Some?
                <==> later[i].content.Some? && Destroys(now, requests, i) % PERIOD == 0)
            && (Destroys(now, requests, i) == 0 ==> Resolve(later, status.handle) == Some(content))
  {
    var (now, status) := After(slots, Create(content, true));
    var i := FirstFree(slots, 0).value;
    StepValid(slots, Create(content, true));
    GenerationCounts(now, requests, i);
    HandleParts(i, now[i].generation);
    var later, d := Run(now, requests), Destroys(now, requests, i);
    SameGeneration(now[i].generation, later[i].generation, d);
  }

  lemma SameGeneration(a: nat, b: nat, d: nat)
    requires 1 <= a <= PERIOD && 1 <= b <= PERIOD && (b - 1) % PERIOD == (a - 1 + d) % PERIOD
    ensures a == b <==> d % PERIOD == 0
  {
    var q := (a - 1 + d) / PERIOD;
    assert a - 1 + d == b - 1 + q * PERIOD;
    if a == b {
      Multiple(0, q);
    } else if d % PERIOD == 0 {
      var k := d / PERIOD;
      assert d == k * PERIOD;
      Multiple(a - 1, k);
    }
  }

  /** So with fewer than 65535 destroys of its slot, a handle resolves exactly until it is destroyed, to
      the content it was created with. */
  lemma FreshHandles(slots: Slots, content: Content, requests: seq<Request>)
    requires Valid(slots) && After(slots, Create(content, true)).1.Ok?
    requires Destroys(After(slots, Create(content, true)).0, requests, FirstFree(slots, 0).value) < PERIOD
    ensures var (now, status) := After(slots, Create(content, true));
            var d := Destroys(now, requests, FirstFree(slots, 0).value);
            Resolve(Run(now, requests), status.handle) == if d == 0 then Some(content) else None
  {
    HandleResolves(slots, content, requests);
  }

  // ----- when there is room -----

  /** How many of the first `n` slots hold a context. */
  function Live(slots: Slots, n: nat): (r: nat)
    requires n <= |slots|
    ensures r <= n
  {
    if n == 0 then 0 else Live(slots, n - 1) + if slots[n - 1].content.Some? then 1 else 0
  }

  lemma {:induction false} LiveFull(slots: Slots, n: nat)
    requires n <= |slots|
    ensures Live(slots, n) == n <==> forall k :: 0 <= k < n ==> slots[k].content.Some?
  {
    if n > 0 {
      LiveFull(slots, n - 1);
    }
  }

  /** The first free slot: everything before it is taken, and there is none exactly if all are taken. */
  lemma {:induction false} FirstFreeMeans(slots: Slots, i: nat)
    requires i <= |slots|
    ensures forall k :: i <= k < |slots| && (FirstFree(slots, i).Some? ==> k < FirstFree(slots, i).value) ==> slots[k].content.Some?
    decreases |slots| - i
  {
    if i < |slots| && slots[i].content.Some? {
      FirstFreeMeans(slots, i + 1);
    }
  }

  /** Contexts created and not destroyed, by the answers to the requests alone. */
  function Outstanding(slots: Slots, requests: seq<Request>): int
    decreases |requests|
  {
    if requests == [] then 0
    else
      var (next, status) := After(slots, requests[0]);
      (if status.Ok? then 1 else if status.Destroyed? then -1 else 0) + Outstanding(next, requests[1..])
  }

  lemma {:induction false} LiveChanges(was: Slots, now: Slots, i: nat, n: nat)
    requires i < |was| == |now| && n <= |was| && forall k :: 0 <= k < |was| && k != i ==> now[k] == was[k]
    requires was[i].content.Some? != now[i].content.Some?
    ensures Live(now, n) == Live(was, n) + if i >= n then 0 else if now[i].content.Some? then 1 else -1
  {
    if n > 0 {
      LiveChanges(was, now, i, n - 1);
    }
  }

  lemma StepLive(slots: Slots, r: Request)
    ensures var (next, status) := After(slots, r);
            |next| == |slots| && Live(next, |next|) == Live(slots, |slots|) + if status.Ok? then 1 else if status.Destroyed? then -1 else 0
  {
    var (next, status) := After(slots, r);
    if status.Ok? {
      LiveChanges(slots, next, FirstFree(slots, 0).value, |slots|);
    } else if status.Destroyed? {
      LiveChanges(slots, next, SlotFor(slots, r.handle).value, |slots|);
    }
  }

  lemma {:induction false} LiveCounts(slots: Slots, requests: seq<Request>)
    ensures var later := Run(slots, requests);
            |later| == |slots| && Live(later, |later|) == Live(slots, |slots|) + Outstanding(slots, requests)
    decreases |requests|
  {
    if requests != [] {
      StepLive(slots, requests[0]);
      LiveCounts(After(slots, requests[0]).0, requests[1..]);
    }
  }

  lemma {:induction false} NoneLive(n: nat)
    requires n <= MAX_CONTEXTS
    ensures Live(Fresh(), n) == 0
  {
    if n > 0 {
      NoneLive(n - 1);
    }
  }

  /** After any history, valid content of the right size gets a handle exactly while fewer than eight
      contexts are created and not destroyed. */
  lemma CreateSucceeds(requests: seq<Request>, content: Content)
    ensures After(Run(Fresh(), requests), Create(content, true)).1.Ok?
            <==> Sized(content) && Outstanding(Fresh(), requests) < MAX_CONTEXTS
  {
    var slots := Run(Fresh(), requests);
    NoneLive(MAX_CONTEXTS);
    LiveCounts(Fresh(), requests);
    LiveFull(slots, |slots|);
    FirstFreeMeans(slots, 0);
  }

  // ----- nothing resolves that was not issued -----

  /** A request in the history created the context a handle resolves to, and answered with that handle. */
  ghost predicate IssuedAt(requests: seq<Request>, k: nat, handle: nat, content: Content) {
    && k < |requests|
    && requests[k] == Create(content, true)
    && After(Run(Fresh(), requests[..k]), requests[k]).1 == Ok(handle)
  }

  lemma {:induction false} RunSplit(slots: Slots, requests: seq<Request>, k: nat)
    requires k < |requests|
    ensures Run(slots, requests[..k + 1]) == After(Run(slots, requests[..k]), requests[k]).0
    decreases |requests|
  {
    if k > 0 {
      var next := After(slots, requests[0]).0;
      RunSplit(next, requests[1..], k - 1);
      assert requests[..k + 1][1..] == requests[1..][..k] && requests[..k][1..] == requests[1..][..k - 1];
    }
  }

  lemma NoneYet(requests: seq<Request>)
    ensures Run(Fresh(), requests[..0]) == Fresh()
  {
    assert requests[..0] == [];
  }

  /** Every live context was created by some request, under the handle its slot and generation form. */
  lemma {:induction false} LiveWasIssued(requests: seq<Request>, n: nat, i: nat) returns (k: nat)
    requires n <= |requests| && i < MAX_CONTEXTS && Valid(Run(Fresh(), requests[..n]))
    requires Run(Fresh(), requests[..n])[i].content.Some?
    ensures var slot := Run(Fresh(), requests[..n])[i];
            k < n && IssuedAt(requests, k, Handle(i, slot.generation), slot.content.value)
  {
    k := 0;
    NoneYet(requests);
    GenerationCounts(Fresh(), requests[..n], i);
    if n > 0 {
      var before := Run(Fresh(), requests[..n - 1]);
      GenerationCounts(Fresh(), requests[..n - 1], i);
      RunSplit(Fresh(), requests, n - 1);
      if before[i] == Run(Fresh(), requests[..n])[i] {
        k := LiveWasIssued(requests, n - 1, i);
      } else {
        k := n - 1;
      }
    }
  }

  /** A handle below 2^24 that resolves was issued for exactly what it resolves to. */
  lemma OnlyIssuedResolve(requests: seq<Request>, handle: nat) returns (k: nat)
    requires handle < 0x100_0000 && Resolve(Run(Fresh(), requests), handle).Some?
    ensures IssuedAt(requests, k, handle, Resolve(Run(Fresh(), requests), handle).value)
  {
    var slots := Run(Fresh(), requests);
    var i := SlotFor(slots, handle).value;
    assert requests[..|requests|] == requests;
    GenerationCounts(Fresh(), requests, 0);
    k := LiveWasIssued(requests, |requests|, i);
    assert handle == Handle(i, slots[i].generation);
  }

  // ----- after a whole period a stale handle is valid again -----

  /** Destroy the context in slot 0 and create another one, `n` times. */
  function Recycle(slots: Slots, content: Content, n: nat): seq<Request>
    requires |slots| > 0
    decreases n
  {
    if n == 0 then []
    else
      var destroy := Destroy(Handle(0, slots[0].generation));
      var next := [Slot(NextGeneration(slots[0].generation), Some(content))] + slots[1..];
      [destroy, Create(content, true)] + Recycle(next, content, n - 1)
  }

  lemma {:induction false} Recycled(slots: Slots, content: Content, n: nat)
    requires Valid(slots) && slots[0].content.Some? && Sized(content)
    ensures var later := Run(slots, Recycle(slots, content, n));
            && Valid(later) && Destroys(slots, Recycle(slots, content, n), 0) == n
            && later[0].content == if n == 0 then slots[0].content else Some(content)
    decreases n
  {
    if n > 0 {
      var destroy, create := Destroy(Handle(0, slots[0].generation)), Create(content, true);
      HandleParts(0, slots[0].generation);
      var emptied := After(slots, destroy).0;
      StepValid(slots, destroy);
      var next := After(emptied, create).0;
      StepValid(emptied, create);
      var rest := Recycle(next, content, n - 1);
      assert next == [Slot(NextGeneration(slots[0].generation), Some(content))] + slots[1..];
      Recycled(next, content, n - 1);
      var all := Recycle(slots, content, n);
      assert all == [destroy, create] + rest && all[1..] == [create] + rest && all[1..][1..] == rest;
      assert Run(slots, all) == Run(emptied, all[1..]) == Run(next, rest);
      assert Destroys(slots, all, 0) == 1 + Destroys(emptied, all[1..], 0);
      assert Destroys(emptied, all[1..], 0) == Destroys(next, rest, 0);
    }
  }

  /** A destroyed handle does alias a later context: the one created after 65535 destroys of its slot. */
  lemma StaleHandleAliases(a: Content, b: Content) returns (requests: seq<Request>)
    requires Sized(a) && Sized(b)
    ensures var (now, status) := After(Fresh(), Create(a, true));
            && status.Ok? && Resolve(now, status.handle) == Some(a)
            && Destroys(now, requests, 0) == PERIOD
            && Resolve(Run(now, requests), status.handle) == Some(b)
  {
    var (now, status) := After(Fresh(), Create(a, true));
    StepValid(Fresh(), Create(a, true));
    var n: nat := PERIOD;
    requests := Recycle(now, b, n);
    Recycled(now, b, n);
    HandleResolves(Fresh(), a, requests);
    HandleParts(0, 1);
  }
}
