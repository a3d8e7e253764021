/** Protected calls across the guest and its host: the guest passes its thunk through two globals, a raise
    pushes its code and traps, and the host turns the trap of a dispatched thunk back into a status. */
module ProtectedCalls {
  import opened Wrappers

  /** Guest code, run with a context: notes in a log, nested protected calls whose status later code may
      test or raise again, raises and real traps. */
  datatype Code =
    | Skip
    | Then(first: Code, second: Code)
    | Note(n: nat)
    | Protect(thunk: Option<Code>, context: nat)
    | IfStatus(status: nat, yes: Code, no: Code)
    | Raise(code: nat)
    | RaiseStatus
    | Crash

  /** What code leaves behind: the log, with the context of each note, and the last status. */
  datatype World = World(log: seq<(nat, nat)>, status: nat)

  // ----- structured exceptions -----

  datatype Ending = Normal(world: World) | Raised(code: nat, world: World) | Crashed(world: World)

  /** The intended meaning: the innermost protected call consumes a raise, a crash passes all of them. */
  function Meaning(c: Code, context: nat, w: World): Ending
    decreases c
  {
    match c
    case Skip => Normal(w)
    case Then(first, second) =>
      (match Meaning(first, context, w)
       case Normal(w1) => Meaning(second, context, w1)
       case e => e)
    case Note(n) => Normal(w.(log := w.log + [(context, n)]))
    case Protect(thunk, inner) =>
      if thunk.None? then Normal(w.(status := 0))
      else
        (match Meaning(thunk.value, inner, w)
         case Normal(w1) => Normal(w1.(status := 0))
         case Raised(code, w1) => Normal(w1.(status := code))
         case Crashed(w1) => Crashed(w1))
    case IfStatus(k, yes, no) => Meaning(if w.status == k then yes else no, context, w)
    case Raise(code) => Raised(code, w)
    case RaiseStatus => Raised(w.status, w)
    case Crash => Crashed(w)
  }

  // ----- the bridge -----

  /** The guest's two globals, the host's stack of pending throw codes, and the world. */
  datatype Machine = Machine(thunk: Option<Code>, context: nat, throws: seq<nat>, world: World)

  /** A WebAssembly call returns or traps. */
  datatype Return = Back(machine: Machine) | Trap(machine: Machine)

  function Pushed(m: Machine, code: nat): Return {
    Trap(m.(throws := m.throws + [code]))
  }

  function WithStatus(m: Machine, status: nat): Machine {
    m.(world := m.world.(status := status))
  }

  /** The host's answer to the trap of a dispatched thunk: a pending code becomes the status. */
  function Caught(r: Return): Return {
    match r
    case Back(m) => Back(WithStatus(m, 0))
    case Trap(m) =>
      if m.throws == [] then Trap(m)
      else Back(WithStatus(m.(throws := m.throws[..|m.throws| - 1]), m.throws[|m.throws| - 1]))
  }

  /** The guest restores its globals only if the host returns. */
  function Restored(r: Return, thunk: Option<Code>, context: nat): Return {
    if r.Back? then Back(r.machine.(thunk := thunk, context := context)) else r
  }

  function Bridged(c: Code, context: nat, m: Machine): Return
    decreases c
  {
    match c
    case Skip => Back(m)
    case Then(first, second) =>
      (match Bridged(first, context, m)
       case Back(m1) => Bridged(second, context, m1)
       case Trap(m1) => Trap(m1))
    case Note(n) => Back(m.(world := m.world.(log := m.world.log + [(context, n)])))
    case Protect(thunk, inner) =>
      var entered := m.(thunk := thunk, context := inner);
      var run := match entered.thunk case None => Back(entered) case Some(t) => Bridged(t, entered.context, entered);
      Restored(Caught(run), m.thunk, m.context)
    case IfStatus(k, yes, no) => Bridged(if m.world.status == k then yes else no, context, m)
    case Raise(code) => Pushed(m, code)
    case RaiseStatus => Pushed(m, m.world.status)
    case Crash => Trap(m)
  }

  /** The same, as the guest and the host run it: globals and throw codes changed in place. */
  class Bridge {
    var activeThunk: Option<Code>
    var activeContext: nat
    var throwCodes: seq<nat>
    var world: World

    constructor ()
      ensures Now() == Machine(None, 0, [], World([], 0))
    {
      activeThunk, activeContext, throwCodes, world := None, 0, [], World([], 0);
    }

    function Now(): Machine
      reads this
    {
      Machine(activeThunk, activeContext, throwCodes, world)
    }

    /** Run guest code; false stands for a trap. */
    method Run(c: Code, context: nat) returns (ok: bool)
      modifies this
      ensures (if ok then Back(Now()) else Trap(Now())) == Bridged(c, context, old(Now()))
      decreases c, 3
    {
      ok := true;
      match c
      case Skip =>
      case Then(first, second) =>
        ok := Run(first, context);
        if ok {
          ok := Run(second, context);
        }
      case Note(n) => world := world.(log := world.log + [(context, n)]);
      case Protect(thunk, inner) =>
        var status;
        ok, status := ProtectedCall(thunk, inner, c);
        if ok {
          world := world.(status := status);
        }
      case IfStatus(k, yes, no) => ok := Run(if world.status == k then yes else no, context);
      case Raise(code) => ok := RaiseCode(code);
      case RaiseStatus => ok := RaiseCode(world.status);
      case Crash => ok := false;
    }

    /** Raising never returns: the code is left with the host and the guest traps. */
    method RaiseCode(code: nat) returns (ok: bool)
      modifies this`throwCodes
      ensures !ok && throwCodes == old(throwCodes) + [code]
    {
      throwCodes := throwCodes + [code];
      ok := false;
    }

    /** The guest's side of a protected call. */
    method ProtectedCall(thunk: Option<Code>, context: nat, ghost c: Code) returns (ok: bool, status: nat)
      requires c == Protect(thunk, context)
      modifies this
      ensures (if ok then Back(WithStatus(Now(), status)) else Trap(Now())) == Bridged(c, 0, old(Now()))
      decreases c, 2
    {
      var savedThunk, savedContext := activeThunk, activeContext;
      activeThunk := thunk;
      activeContext := context;
      ok, status := HostProtectedCall(c);
      if ok {
        activeThunk := savedThunk;
        activeContext := savedContext;
      }
    }

    /** The host's side: dispatch, and give a pending throw code back as status. */
    method HostProtectedCall(ghost c: Code) returns (ok: bool, status: nat)
      requires c.Protect? && activeThunk == c.thunk
      modifies this
      ensures (if ok then Back(WithStatus(Now(), status)) else Trap(Now())) == Caught(Dispatched(old(Now())))
      decreases c, 1
    {
      ok := Dispatch(c);
      status := 0;
      if !ok && throwCodes != [] {
        status := throwCodes[|throwCodes| - 1];
        throwCodes := throwCodes[..|throwCodes| - 1];
        ok := true;
      }
    }

    /** The dispatcher the host calls back. */
    method Dispatch(ghost c: Code) returns (ok: bool)
      requires c.Protect? && activeThunk == c.thunk
      modifies this
      ensures (if ok then Back(Now()) else Trap(Now())) == Dispatched(old(Now()))
      decreases c, 0
    {
      ok := true;
      if activeThunk.Some? {
        ok := Run(activeThunk.value, activeContext);
      }
    }
  }

  function Dispatched(m: Machine): Return {
    match m.thunk
    case None => Back(m)
    case Some(t) => Bridged(t, m.context, m)
  }

  // ----- the bridge implements structured exceptions -----

  /** The same ending, seen from a machine whose pending codes were `throws`: on return globals and codes
      are as on entry, a raise has left exactly its code, a crash none. */
  predicate Implements(m: Machine, r: Return, e: Ending) {
    match e
    case Normal(w) => r == Back(m.(world := w))
    case Raised(code, w) => r.Trap? && r.machine.world == w && r.machine.throws == m.throws + [code]
    case Crashed(w) => r.Trap? && r.machine.world == w && r.machine.throws == m.throws
  }

  lemma {:induction false} BridgeImplements(c: Code, context: nat, m: Machine)
    requires m.throws == []
    ensures Implements(m, Bridged(c, context, m), Meaning(c, context, m.world))
    decreases c
  {
    match c
    case Then(first, second) =>
      BridgeImplements(first, context, m);
      var e := Meaning(first, context, m.world);
      if e.Normal? {
        BridgeImplements(second, context, m.(world := e.world));
      }
    case Protect(thunk, inner) =>
      if thunk.Some? {
        BridgeImplements(thunk.value, inner, m.(thunk := thunk, context := inner));
      }
    case IfStatus(k, yes, no) => BridgeImplements(if m.world.status == k then yes else no, context, m);
    case _ =>
  }

  /** Whatever is pending, a protected call that returns leaves globals and pending codes as it found
      them, unless it mistook a crash for a code that was pending before. */
  lemma {:induction false} RaisesBalance(c: Code, context: nat, m: Machine)
    requires !Crashes(c, context, m.world)
    ensures Implements(m, Bridged(c, context, m), Meaning(c, context, m.world))
    decreases c
  {
    match c
    case Then(first, second) =>
      RaisesBalance(first, context, m);
      var e := Meaning(first, context, m.world);
      if e.Normal? {
        RaisesBalance(second, context, m.(world := e.world));
      }
    case Protect(thunk, inner) =>
      if thunk.Some? {
        RaisesBalance(thunk.value, inner, m.(thunk := thunk, context := inner));
      }
    case IfStatus(k, yes, no) => RaisesBalance(if m.world.status == k then yes else no, context, m);
    case _ =>
  }

  predicate Crashes(c: Code, context: nat, w: World) {
    Meaning(c, context, w).Crashed?
  }

  /** With a code left over from an earlier raise that no protected call consumed, the bridge is right
      about every code exactly if nothing is pending. */
  lemma PendingExactly(throws: seq<nat>, thunk: Option<Code>, context: nat, w: World)
    ensures throws == [] <==>
            forall c, k :: Implements(Machine(thunk, context, throws, w), Bridged(c, k, Machine(thunk, context, throws, w)), Meaning(c, k, w))
  {
    var m := Machine(thunk, context, throws, w);
    if throws == [] {
      forall c, k ensures Implements(m, Bridged(c, k, m), Meaning(c, k, w)) {
        BridgeImplements(c, k, m);
      }
    } else {
      var c := Protect(Some(Crash), 0);
      assert Bridged(c, 0, m).Back?;
      assert !Implements(m, Bridged(c, 0, m), Meaning(c, 0, w));
    }
  }
}
