/** Static requires: the records of all modules and the initialisers that are running, as one state that
    requires, finished initialisers and caught errors move along. */
module ModuleRegistry {
  import opened Wrappers

  datatype Status = Uninitialized | Initializing | Initialized | Failed
  /** An error: its own text, or the failure of a module because of another error. */
  datatype Fault = Text(text: string) | Within(id: nat, cause: Fault)
  datatype Cached = Nothing | Held(value: int) | Message(fault: Fault)
  datatype Record = Record(status: Status, cached: Cached)

  /** What the running code sees: it goes on, after a require with that require's value, or an error
      travels through it. */
  datatype Control = Running(got: Option<int>) | Raising(fault: Fault)

  /** `stack` holds the modules whose initialisers were started by a require, innermost last; below them
      runs the entry module's own code. */
  datatype State = State(records: seq<Record>, stack: seq<nat>, control: Control)

  /** How an initialiser ends. */
  datatype Ending = One(value: int) | Many | Yielded | Error(fault: Fault)

  const CYCLE := Text("static require cycle")

  function Put(s: State, id: nat, r: Record): State
    requires id < |s.records|
  {
    s.(records := s.records[id := r])
  }

  function Raise(s: State, fault: Fault): State {
    s.(control := Raising(fault))
  }

  function Cause(c: Cached): Fault {
    if c.Message? then c.fault else Text("unknown error")
  }

  /** Raise the cached error; the next require may try again. */
  function RaiseCached(s: State, id: nat): State
    requires id < |s.records|
  {
    var r := s.records[id];
    Raise(Put(s, id, r.(status := Uninitialized)), Within(id, Cause(r.cached)))
  }

  /** Cache an error and raise it; a module found in a cycle stays failed while it unwinds. */
  function CacheAndRaise(s: State, id: nat, fault: Fault, active: bool): State
    requires id < |s.records|
  {
    Raise(Put(s, id, Record(if active then Failed else Uninitialized, Message(fault))), Within(id, fault))
  }

  function Reason(e: Ending): Fault
    requires !e.One?
  {
    match e
    case Many => Text("module must return a single value")
    case Yielded => Text("module yielded without a continuation contract")
    case Error(fault) => fault
  }

  // ----- the three operations on states -----

  function AfterRequire(s: State, roots: set<nat>, id: nat): State {
    if id >= |s.records| then Raise(s, Text("rejected module"))
    else
      match s.records[id].status
      case Initialized => s.(control := Running(if s.records[id].cached.Held? then Some(s.records[id].cached.value) else None))
      case Failed => RaiseCached(s, id)
      case Initializing => CacheAndRaise(s, id, CYCLE, true)
      case Uninitialized =>
        if id !in roots then Raise(s, Text("module has no compiled root closure"))
        else Put(s, id, Record(Initializing, Nothing)).(stack := s.stack + [id], control := Running(None))
  }

  function AfterInitializer(s: State, e: Ending): State
    requires s.stack != [] && s.stack[|s.stack| - 1] < |s.records|
  {
    var id := s.stack[|s.stack| - 1];
    var popped := s.(stack := s.stack[..|s.stack| - 1]);
    var status := s.records[id].status;
    if status.Failed? then RaiseCached(popped, id)
    else if !e.One? then CacheAndRaise(popped, id, Reason(e), false)
    else if !status.Initializing? then Raise(popped, Text("module changed initialization state while executing"))
    else Put(popped, id, Record(Initialized, Held(e.value))).(control := Running(Some(e.value)))
  }

  function AfterEntry(s: State, entry: nat, e: Ending): State
    requires entry < |s.records| && (e.One? || e.Many?)
  {
    var status := s.records[entry].status;
    if status.Failed? then RaiseCached(s, entry)
    else if !status.Initializing? then Raise(s, Text("entry module has invalid completion state"))
    else Put(s, entry, Record(Initialized, if e.One? then Held(e.value) else Nothing)).(control := Running(None))
  }

  /** The registry as the runtime keeps it: records changed in place, one slot at a time. */
  class Registry {
    const entry: nat
    const roots: set<nat>
    var records: array<Record>
    var stack: seq<nat>
    var control: Control

    ghost predicate Valid()
      reads this, records
    {
      entry < records.Length && forall k :: 0 <= k < |stack| ==> stack[k] < records.Length
    }

    ghost function Now(): State
      reads this, records
    {
      State(records[..], stack, control)
    }

    constructor (count: nat, entry: nat, roots: set<nat>)
      requires entry < count
      ensures Valid() && this.entry == entry && this.roots == roots && fresh(records)
      ensures Now() == Begin(count, entry)
    {
      this.entry, this.roots := entry, roots;
      records := new Record[count](id => if id == entry then Record(Initializing, Nothing) else Record(Uninitialized, Nothing));
      stack, control := [], Running(None);
    }

    /** The error cached for a module, raised; its status is reset where the caller says so. */
    method RaiseCachedFailure(id: nat, reset: bool)
      requires id < records.Length
      modifies this`control, records
      ensures Now() == (if reset then RaiseCached(old(Now()), id) else Raise(old(Now()), Within(id, Cause(old(records[id].cached)))))
    {
      var cause := Cause(records[id].cached);
      if reset {
        records[id] := records[id].(status := Uninitialized);
      }
      control := Raising(Within(id, cause));
    }

    method CacheFailure(id: nat, fault: Fault, active: bool)
      requires id < records.Length
      modifies this`control, records
      ensures Now() == CacheAndRaise(old(Now()), id, fault, active)
    {
      records[id] := records[id].(cached := Message(fault));
      records[id] := records[id].(status := if active then Failed else Uninitialized);
      RaiseCachedFailure(id, false);
    }

    /** A require, up to the point where its initialiser starts to run. */
    method Require(id: nat)
      requires Valid() && control.Running?
      modifies this`stack, this`control, records
      ensures Valid() && Now() == AfterRequire(old(Now()), roots, id)
    {
      if id >= records.Length {
        control := Raising(Text("rejected module"));
        return;
      }
      var status := records[id].status;
      if status.Initialized? {
        control := Running(if records[id].cached.Held? then Some(records[id].cached.value) else None);
      } else if status.Failed? {
        RaiseCachedFailure(id, true);
      } else if status.Initializing? {
        CacheFailure(id, CYCLE, true);
      } else if id !in roots {
        control := Raising(Text("module has no compiled root closure"));
      } else {
        records[id] := records[id].(cached := Nothing);
        records[id] := records[id].(status := Initializing);
        stack, control := stack + [id], Running(None);
      }
    }

    /** The rest of a require, after its initialiser has ended. */
    method FinishRequire(e: Ending)
      requires Valid() && stack != []
      modifies this`stack, this`control, records
      ensures Valid() && Now() == AfterInitializer(old(Now()), e)
    {
      var id := stack[|stack| - 1];
      stack := stack[..|stack| - 1];
      if !e.One? {
        if records[id].status.Failed? {
          RaiseCachedFailure(id, true);
        } else {
          CacheFailure(id, Reason(e), false);
        }
      } else if records[id].status.Failed? {
        RaiseCachedFailure(id, true);
      } else if !records[id].status.Initializing? {
        control := Raising(Text("module changed initialization state while executing"));
      } else {
        records[id] := records[id].(cached := Held(e.value));
        records[id] := records[id].(status := Initialized);
        control := Running(Some(e.value));
      }
    }

    /** The entry module's own code has returned. */
    method FinishEntry(e: Ending)
      requires Valid() && stack == [] && (e.One? || e.Many?)
      modifies this`control, records
      ensures Valid() && Now() == AfterEntry(old(Now()), entry, e)
    {
      if records[entry].status.Failed? {
        RaiseCachedFailure(entry, true);
      } else if !records[entry].status.Initializing? {
        control := Raising(Text("entry module has invalid completion state"));
      } else {
        records[entry] := records[entry].(cached := if e.One? then Held(e.value) else Nothing);
        records[entry] := records[entry].(status := Initialized);
        control := Running(None);
      }
    }
  }

  function Records(count: nat, entry: nat): (r: seq<Record>)
    ensures |r| == count
    ensures forall id :: 0 <= id < count ==> r[id] == Record(if id == entry then Initializing else Uninitialized, Nothing)
  {
    if count == 0 then []
    else Records(count - 1, entry) + [Record(if count - 1 == entry then Initializing else Uninitialized, Nothing)]
  }

  function Begin(count: nat, entry: nat): State {
    State(Records(count, entry), [], Running(None))
  }

  // ----- runs -----

  /** What the code does next: require a module, end an initialiser, let an error through or catch it. */
  datatype Event = Requires(id: nat) | Ends(how: Ending) | Lets | Catches | EntryEnds(how: Ending)

  /** The program: how many modules, which is the entry, which have compiled roots. */
  datatype Program = Program(count: nat, entry: nat, roots: set<nat>)

  predicate Possible(p: Program, s: State, e: Event) {
    match e
    case Requires(_) => s.control.Running?
    case Ends(_) => s.control.Running? && s.stack != [] && s.stack[|s.stack| - 1] < |s.records|
    case Lets => s.control.Raising? && s.stack != [] && s.stack[|s.stack| - 1] < |s.records|
    case Catches => s.control.Raising?
    case EntryEnds(how) => s.control.Running? && s.stack == [] && (how.One? || how.Many?) && p.entry < |s.records|
  }

  function After(p: Program, s: State, e: Event): State
    requires Possible(p, s, e)
  {
    match e
    case Requires(id) => AfterRequire(s, p.roots, id)
    case Ends(how) => AfterInitializer(s, how)
    case Lets => AfterInitializer(s, Error(s.control.fault))
    case Catches => s.(control := Running(None))
    case EntryEnds(how) => AfterEntry(s, p.entry, how)
  }

  /** Where a run from `s` leads, if every event is possible. */
  function RunFrom(p: Program, s: State, events: seq<Event>): Option<State>
    decreases |events|
  {
    if events == [] then Some(s)
    else if Possible(p, s, events[0]) then RunFrom(p, After(p, s, events[0]), events[1..])
    else None
  }

  // ----- what every run keeps -----

  /** Only a module whose initialiser is running, or the entry, is initialising; an initialised required
      module holds its value, and the entry its value or nothing. */
  ghost predicate Kept(p: Program, s: State) {
    && p.entry < p.count == |s.records| && (forall k :: 0 <= k < |s.stack| ==> s.stack[k] < p.count)
    && (s.records[p.entry].status.Initialized? ==> !s.records[p.entry].cached.Message?)
    && forall id :: 0 <= id < p.count && id != p.entry ==>
         (s.records[id].status.Initializing? ==> id in s.stack) && (s.records[id].status.Initialized? ==> s.records[id].cached.Held?)
  }

  predicate Has(s: State, id: nat, r: Record) {
    id < |s.records| && s.records[id] == r
  }

  /** No record but that of `id` differs. */
  ghost predicate Elsewhere(s: State, t: State, id: nat) {
    |t.records| == |s.records| && forall k :: 0 <= k < |s.records| && k != id ==> Has(t, k, s.records[k])
  }

  /** What the end of an initialiser touches. */
  lemma EndTouches(s: State, how: Ending) returns (top: nat)
    requires s.stack != [] && s.stack[|s.stack| - 1] < |s.records|
    ensures var t := AfterInitializer(s, how);
            && top < |s.records| && t.stack == s.stack[..|s.stack| - 1] && s.stack == t.stack + [top]
            && Elsewhere(s, t, top) && !t.records[top].status.Initializing?
            && (t.records[top].status.Initialized? ==> t.records[top].cached.Held? || t.records[top] == s.records[top])
  {
    top := s.stack[|s.stack| - 1];
    assert s.stack == s.stack[..|s.stack| - 1] + [top];
  }

  lemma EndKeeps(p: Program, s: State, how: Ending)
    requires Kept(p, s) && s.stack != []
    ensures Kept(p, AfterInitializer(s, how))
  {
    hide AfterInitializer;
    var top := EndTouches(s, how);
    var t := AfterInitializer(s, how);
    forall k | 0 <= k < |t.stack| ensures t.stack[k] < p.count {
      assert t.stack[k] == s.stack[k];
    }
    assert p.entry != top ==> Has(t, p.entry, s.records[p.entry]);
    forall id | 0 <= id < p.count && id != p.entry
      ensures (t.records[id].status.Initializing? ==> id in t.stack) && (t.records[id].status.Initialized? ==> t.records[id].cached.Held?)
    {
      assert id != top ==> Has(t, id, s.records[id]) && (id in s.stack ==> id in t.stack);
    }
  }

  lemma RequireKeeps(p: Program, s: State, id: nat)
    requires Kept(p, s)
    ensures Kept(p, AfterRequire(s, p.roots, id))
  {
    var t := AfterRequire(s, p.roots, id);
    assert forall i :: 0 <= i < p.count && i != id ==> t.records[i] == s.records[i];
    assert forall i :: i in s.stack ==> i in t.stack;
  }

  lemma StepKeeps(p: Program, s: State, e: Event)
    requires Kept(p, s) && Possible(p, s, e)
    ensures Kept(p, After(p, s, e))
  {
    hide AfterRequire, AfterInitializer;
    match e
    case Requires(id) => RequireKeeps(p, s, id);
    case Ends(how) => EndKeeps(p, s, how);
    case Lets => EndKeeps(p, s, Error(s.control.fault));
    case _ =>
  }

  /** Over every run from such a state, whatever is caught. */
  lemma {:induction false} RunKeeps(p: Program, s: State, events: seq<Event>)
    requires Kept(p, s) && RunFrom(p, s, events).Some?
    ensures Kept(p, RunFrom(p, s, events).value)
    decreases |events|
  {
    if events != [] {
      StepKeeps(p, s, events[0]);
      RunKeeps(p, After(p, s, events[0]), events[1..]);
    }
  }

  lemma BeginKept(p: Program)
    requires p.entry < p.count
    ensures Kept(p, Begin(p.count, p.entry))
  {
  }

  /** At any point of any run of a program. */
  lemma ProgramKeeps(p: Program, events: seq<Event>)
    requires p.entry < p.count && RunFrom(p, Begin(p.count, p.entry), events).Some?
    ensures Kept(p, RunFrom(p, Begin(p.count, p.entry), events).value)
  {
    BeginKept(p);
    RunKeeps(p, Begin(p.count, p.entry), events);
  }

  /** A require that returns normally, at once or when its initialiser ends, yields what is cached in the
      initialised record: a value, or nothing where the entry returned several. */
  lemma ReturnsCached(p: Program, s: State, e: Event)
    requires Kept(p, s) && Possible(p, s, e) && After(p, s, e).control.Running? && (e.Requires? || e.Ends?)
    ensures var t := After(p, s, e);
            var id := if e.Requires? then e.id else s.stack[|s.stack| - 1];
            && id < p.count
            && if e.Requires? && !s.records[id].status.Initialized?
               then t.stack == s.stack + [id] && t.records[id] == Record(Initializing, Nothing)
               else (t.control.got.None? ==> id == p.entry && e.Requires?)
                    && t.records[id] == Record(Initialized, if t.control.got.Some? then Held(t.control.got.value) else Nothing)
  {
  }

  // ----- restarts -----

  /** The require would start an initialiser that is already running further out. */
  predicate Restarts(p: Program, s: State, e: Event) {
    e.Requires? && e.id < |s.records| && s.records[e.id].status.Uninitialized? && e.id in p.roots && e.id in s.stack
  }

  ghost predicate NeverRestarts(p: Program, s: State, events: seq<Event>)
    decreases |events|
  {
    events != [] && Possible(p, s, events[0]) ==>
      !Restarts(p, s, events[0]) && NeverRestarts(p, After(p, s, events[0]), events[1..])
  }

  /** Without restarts no module runs twice at once, and none that runs is initialised. */
  ghost predicate Single(s: State) {
    && (forall i, j :: 0 <= i < j < |s.stack| ==> s.stack[i] != s.stack[j])
    && forall k :: 0 <= k < |s.stack| && s.stack[k] < |s.records| ==> !s.records[s.stack[k]].status.Initialized?
  }

  /** Every initialised record is still there. */
  ghost predicate Remain(s: State, t: State) {
    forall id :: 0 <= id < |s.records| && s.records[id].status.Initialized? ==> Has(t, id, s.records[id])
  }

  lemma EndSingle(p: Program, s: State, how: Ending)
    requires Kept(p, s) && Single(s) && s.stack != []
    ensures Single(AfterInitializer(s, how)) && Remain(s, AfterInitializer(s, how))
  {
    hide AfterInitializer;
    var n := |s.stack| - 1;
    var top := EndTouches(s, how);
    var t := AfterInitializer(s, how);
    assert s.stack[n] == top && !s.records[top].status.Initialized?;
    forall k | 0 <= k < |t.stack| && t.stack[k] < |t.records| ensures !t.records[t.stack[k]].status.Initialized? {
      assert t.stack[k] == s.stack[k] != top;
    }
  }

  lemma RequireSingle(p: Program, s: State, id: nat)
    requires Kept(p, s) && Single(s) && s.control.Running? && !Restarts(p, s, Requires(id))
    ensures Single(AfterRequire(s, p.roots, id)) && Remain(s, AfterRequire(s, p.roots, id))
  {
  }

  lemma StepSingle(p: Program, s: State, e: Event)
    requires Kept(p, s) && Single(s) && Possible(p, s, e) && !Restarts(p, s, e)
    ensures Single(After(p, s, e)) && Remain(s, After(p, s, e))
  {
    hide AfterRequire, AfterInitializer;
    match e
    case Requires(id) => RequireSingle(p, s, id);
    case Ends(how) => EndSingle(p, s, how);
    case Lets => EndSingle(p, s, Error(s.control.fault));
    case _ =>
  }

  /** How often the body of a module completes. */
  function Completions(p: Program, s: State, events: seq<Event>, id: nat): nat
    decreases |events|
  {
    if events == [] || !Possible(p, s, events[0]) then 0
    else
      var t := After(p, s, events[0]);
      (if events[0].Ends? && s.stack[|s.stack| - 1] == id && t.control.Running? then 1 else 0) + Completions(p, t, events[1..], id)
  }

  /** Once initialised, always initialised with the same value, and no body completes twice, in every run
      that restarts no running initialiser. */
  lemma {:induction false} InitializedForGood(p: Program, s: State, events: seq<Event>, id: nat)
    requires Kept(p, s) && Single(s) && id < p.count && NeverRestarts(p, s, events) && RunFrom(p, s, events).Some?
    ensures s.records[id].status.Initialized? ==> Has(RunFrom(p, s, events).value, id, s.records[id])
    ensures Completions(p, s, events, id) <= if s.records[id].status.Initialized? then 0 else 1
    decreases |events|
  {
    if events != [] {
      StepKeeps(p, s, events[0]);
      StepSingle(p, s, events[0]);
      InitializedForGood(p, After(p, s, events[0]), events[1..], id);
    }
  }

  // ----- initialisers that catch nothing -----

  /** Only code outside all initialisers catches errors of requires. */
  ghost predicate Calm(p: Program, s: State, events: seq<Event>)
    decreases |events|
  {
    events != [] && Possible(p, s, events[0]) ==>
      (events[0].Catches? ==> s.stack == []) && Calm(p, After(p, s, events[0]), events[1..])
  }

  /** Then running initialisers are initialising, or failed while an error unwinds them, and the rest is at rest. */
  ghost predicate AtRest(p: Program, s: State) {
    Kept(p, s) && Single(s) && Rests(p, s)
  }

  ghost predicate Underway(s: State, id: nat) {
    id < |s.records| && (s.records[id].status.Initializing? || (s.control.Raising? && s.records[id].status.Failed?))
  }

  ghost predicate Settled(s: State, id: nat) {
    id < |s.records| && (s.records[id].status.Uninitialized? || s.records[id].status.Initialized?)
  }

  lemma StepAtRest(p: Program, s: State, e: Event)
    requires AtRest(p, s) && Possible(p, s, e) && (e.Catches? ==> s.stack == [])
    ensures AtRest(p, After(p, s, e)) && !Restarts(p, s, e)
  {
    hide Kept, Single;
    NoRestart(p, s, e);
    StepKeeps(p, s, e);
    StepSingle(p, s, e);
    match e
    case Requires(id) => RequireAtRest(p, s, id);
    case Ends(how) => EndAtRest(p, s, how);
    case Lets => EndAtRest(p, s, Error(s.control.fault));
    case Catches => forall id | 0 <= id < p.count && id != p.entry ensures Settled(After(p, s, e), id) { assert Settled(s, id); }
    case EntryEnds(_) =>
      forall id | 0 <= id < p.count && id != p.entry ensures Settled(After(p, s, e), id) {
        assert Settled(s, id);
      }
  }

  lemma NoRestart(p: Program, s: State, e: Event)
    requires AtRest(p, s) && Possible(p, s, e)
    ensures !Restarts(p, s, e)
  {
    forall k | 0 <= k < |s.stack| ensures Underway(s, s.stack[k]) {
    }
  }

  /** What the modules on and off the stack look like, the rest of AtRest aside. */
  ghost predicate Rests(p: Program, s: State) {
    && (forall k :: 0 <= k < |s.stack| ==> Underway(s, s.stack[k]))
    && forall id :: 0 <= id < p.count && id != p.entry && id !in s.stack ==> Settled(s, id)
  }

  lemma RequireAtRest(p: Program, s: State, id: nat)
    requires AtRest(p, s) && s.control.Running?
    ensures Rests(p, AfterRequire(s, p.roots, id))
  {
    var t := AfterRequire(s, p.roots, id);
    forall k | 0 <= k < |t.stack| ensures Underway(t, t.stack[k]) {
      assert k < |s.stack| ==> Underway(s, s.stack[k]) && t.stack[k] == s.stack[k];
    }
    forall i | 0 <= i < p.count && i != p.entry && i !in t.stack ensures Settled(t, i) {
      assert i !in s.stack;
      assert Settled(s, i);
    }
  }

  lemma EndAtRest(p: Program, s: State, how: Ending)
    requires AtRest(p, s) && s.stack != [] && (how.One? ==> s.control.Running?)
    ensures Rests(p, AfterInitializer(s, how))
  {
    var t, n := AfterInitializer(s, how), |s.stack| - 1;
    assert Underway(s, s.stack[n]);
    forall k | 0 <= k < |t.stack| ensures Underway(t, t.stack[k]) {
      assert Underway(s, s.stack[k]) && t.stack[k] == s.stack[k] != s.stack[n];
    }
    forall i | 0 <= i < p.count && i != p.entry && i !in t.stack ensures Settled(t, i) {
      if i != s.stack[n] {
        assert i !in s.stack && Settled(s, i);
      }
    }
  }

  /** When no initialiser catches an error, nothing is restarted, and an error that leaves the outermost
      require leaves no module but the entry failed or half initialised. */
  lemma {:induction false} CalmRuns(p: Program, s: State, events: seq<Event>)
    requires AtRest(p, s) && Calm(p, s, events) && RunFrom(p, s, events).Some?
    ensures NeverRestarts(p, s, events) && AtRest(p, RunFrom(p, s, events).value)
    ensures var t := RunFrom(p, s, events).value;
            t.stack == [] ==> forall id :: 0 <= id < p.count && id != p.entry ==> Settled(t, id)
    decreases |events|
  {
    if events != [] {
      StepAtRest(p, s, events[0]);
      CalmRuns(p, After(p, s, events[0]), events[1..]);
    }
  }

  lemma BeginAtRest(p: Program)
    requires p.entry < p.count
    ensures AtRest(p, Begin(p.count, p.entry))
  {
  }

  lemma {:induction false} RunOn(p: Program, s: State, a: seq<Event>, b: seq<Event>)
    requires RunFrom(p, s, a).Some?
    ensures RunFrom(p, s, a + b) == RunFrom(p, RunFrom(p, s, a).value, b)
    decreases |a|
  {
    if a == [] {
      assert a + b == b;
    } else {
      assert (a + b)[1..] == a[1..] + b;
      RunOn(p, After(p, s, a[0]), a[1..], b);
    }
  }

  /** Both parts of a calm run are calm. */
  lemma {:induction false} CalmSplit(p: Program, s: State, a: seq<Event>, b: seq<Event>)
    requires Calm(p, s, a + b) && RunFrom(p, s, a + b).Some?
    ensures Calm(p, s, a) && RunFrom(p, s, a).Some? && Calm(p, RunFrom(p, s, a).value, b)
    decreases |a|
  {
    if a == [] {
      assert a + b == b;
    } else {
      assert (a + b)[1..] == a[1..] + b;
      CalmSplit(p, After(p, s, a[0]), a[1..], b);
    }
  }

  /** The whole claim for programs whose initialisers catch nothing: from any point `a` of the run on, an
      initialised module keeps its record; no body completes twice; outside all requires every module but
      the entry is initialised or as if never required. */
  lemma RequiresAreTransactions(p: Program, a: seq<Event>, b: seq<Event>, id: nat)
    requires p.entry < p.count && id < p.count && Calm(p, Begin(p.count, p.entry), a + b)
    requires RunFrom(p, Begin(p.count, p.entry), a + b).Some?
    ensures RunFrom(p, Begin(p.count, p.entry), a).Some?
    ensures var s, t := RunFrom(p, Begin(p.count, p.entry), a).value, RunFrom(p, Begin(p.count, p.entry), a + b).value;
            && |s.records| == p.count
            && (s.records[id].status.Initialized? ==> Has(t, id, s.records[id]))
            && (t.stack == [] && id != p.entry ==> Settled(t, id))
    ensures Completions(p, Begin(p.count, p.entry), a + b, id) <= 1
  {
    hide Single, Rests, RunFrom, Calm, NeverRestarts, Completions;
    var begin := Begin(p.count, p.entry);
    BeginAtRest(p);
    CalmRuns(p, begin, a + b);
    InitializedForGood(p, begin, a + b, id);
    CalmSplit(p, begin, a, b);
    CalmRuns(p, begin, a);
    var s := RunFrom(p, begin, a).value;
    RunOn(p, begin, a, b);
    CalmRuns(p, s, b);
    InitializedForGood(p, s, b, id);
  }

  // ----- which failure travels -----

  /** Between the first and the last of these events the frame at depth `n` stays on the stack, and module `id`
      is not required. */
  ghost predicate Inside(p: Program, s: State, events: seq<Event>, n: nat, id: nat)
    decreases |events|
  {
    && |s.stack| > n
    && (events != [] && Possible(p, s, events[0]) ==>
          events[0] != Requires(id) && Inside(p, After(p, s, events[0]), events[1..], n, id))
  }

  /** The frame at depth `n` is the innermost one of `id`. */
  ghost predicate Innermost(s: State, n: nat, id: nat) {
    n < |s.stack| && s.stack[n] == id && forall m :: n < m < |s.stack| ==> s.stack[m] != id
  }

  lemma StepInside(p: Program, s: State, e: Event, n: nat, id: nat)
    requires Kept(p, s) && Innermost(s, n, id) && id < p.count && Possible(p, s, e)
    requires e != Requires(id) && |After(p, s, e).stack| > n
    ensures Innermost(After(p, s, e), n, id) && Has(After(p, s, e), id, s.records[id])
  {
    hide AfterInitializer;
    if e.Ends? || e.Lets? {
      var how := if e.Ends? then e.how else Error(s.control.fault);
      var top := EndTouches(s, how);
      assert top == s.stack[|s.stack| - 1] != id;
    }
  }

  /** While an initialiser runs and its module is not required again, nothing touches the module's record,
      whatever fails or is caught further in. */
  lemma {:induction false} RecordUntouched(p: Program, s: State, events: seq<Event>, n: nat, id: nat)
    requires Kept(p, s) && Innermost(s, n, id) && id < p.count && Inside(p, s, events, n, id) && RunFrom(p, s, events).Some?
    ensures Innermost(RunFrom(p, s, events).value, n, id) && Has(RunFrom(p, s, events).value, id, s.records[id])
    decreases |events|
  {
    if events != [] {
      var t := After(p, s, events[0]);
      StepInside(p, s, events[0], n, id);
      StepKeeps(p, s, events[0]);
      RecordUntouched(p, t, events[1..], n, id);
    }
  }

  /** The first failure is preserved. A require finds its module initialising further out: that is a cycle,
      and its error is raised. Whatever happens up to the end of that module's own initialiser (errors caught
      or let through, further requires and failures), and however the initialiser ends, the cycle's error is
      what it raises, and what the record says. */
  lemma FirstFailure(p: Program, s: State, events: seq<Event>, n: nat, id: nat, last: Event)
    requires Kept(p, s) && Possible(p, s, Requires(id)) && id < p.count && Is(s, id, Initializing) && Innermost(s, n, id)
    requires var t := After(p, s, Requires(id)); Inside(p, t, events, n, id) && RunFrom(p, t, events).Some?
    requires var u := RunFrom(p, After(p, s, Requires(id)), events).value;
             |u.stack| == n + 1 && (last.Ends? || last.Lets?) && Possible(p, u, last)
    ensures After(p, s, Requires(id)).control == Raising(Within(id, Text("static require cycle")))
    ensures var v := After(p, RunFrom(p, After(p, s, Requires(id)), events).value, last);
            && v.stack == s.stack[..n] && v.control == Raising(Within(id, Text("static require cycle")))
            && Has(v, id, Record(Uninitialized, Message(Text("static require cycle"))))
  {
    hide RunFrom, Inside;
    var t := After(p, s, Requires(id));
    StepKeeps(p, s, Requires(id));
    RecordUntouched(p, t, events, n, id);
    LowerKept(p, t, events, n, id);
    var u := RunFrom(p, t, events).value;
    assert u.stack[..n] == t.stack[..n] == s.stack[..n];
  }

  /** The frames below stay where they are. */
  lemma {:induction false} LowerKept(p: Program, s: State, events: seq<Event>, n: nat, id: nat)
    requires Kept(p, s) && Inside(p, s, events, n, id) && RunFrom(p, s, events).Some?
    ensures |RunFrom(p, s, events).value.stack| > n && RunFrom(p, s, events).value.stack[..n] == s.stack[..n]
    decreases |events|
  {
    if events != [] {
      var t := After(p, s, events[0]);
      StepKeeps(p, s, events[0]);
      LowerStep(p, s, events[0], n);
      LowerKept(p, t, events[1..], n, id);
    }
  }

  lemma LowerStep(p: Program, s: State, e: Event, n: nat)
    requires Possible(p, s, e) && |s.stack| > n && |After(p, s, e).stack| > n
    ensures After(p, s, e).stack[..n] == s.stack[..n]
  {
    hide AfterInitializer;
    if e.Ends? || e.Lets? {
      var top := EndTouches(s, if e.Ends? then e.how else Error(s.control.fault));
    }
  }

  /** The error as every module it passes through reports it, innermost first. */
  function Reported(modules: seq<nat>, fault: Fault): Fault
    decreases |modules|
  {
    if modules == [] then fault
    else Reported(modules[..|modules| - 1], Within(modules[|modules| - 1], fault))
  }

  function Unwinding(n: nat): (r: seq<Event>)
    ensures |r| == n && forall k :: 0 <= k < n ==> r[k] == Lets
  {
    if n == 0 then [] else [Lets] + Unwinding(n - 1)
  }

  lemma ReportedOnce(stack: seq<nat>, low: nat, fault: Fault)
    requires low < |stack|
    ensures Reported(stack[low..], fault) == Reported(stack[..|stack| - 1][low..], Within(stack[|stack| - 1], fault))
  {
    assert stack[low..][..|stack| - low - 1] == stack[..|stack| - 1][low..];
  }

  /** One initialiser that has not failed before lets an error through. */
  lemma LetsReports(p: Program, s: State)
    requires Kept(p, s) && Single(s) && s.control.Raising? && s.stack != [] && Is(s, s.stack[|s.stack| - 1], Initializing)
    ensures var u, top := After(p, s, Lets), s.stack[|s.stack| - 1];
            && Kept(p, u) && Single(u) && u.stack == s.stack[..|s.stack| - 1] && top !in u.stack
            && u.control == Raising(Within(top, s.control.fault)) && Elsewhere(s, u, top)
            && Has(u, top, Record(Uninitialized, Message(s.control.fault)))
  {
    StepKeeps(p, s, Lets);
    EndSingle(p, s, Error(s.control.fault));
  }

  /** From `s` to `t` the error has left all initialisers from depth `low` on: it is wrapped once per module,
      each of them caches it as it arrived, and nothing else has changed. */
  ghost predicate Unwound(s: State, t: State, low: nat) {
    && s.control.Raising? && low <= |s.stack| && |t.records| == |s.records|
    && t.stack == s.stack[..low] && t.control == Raising(Reported(s.stack[low..], s.control.fault))
    && (forall k :: low <= k < |s.stack| ==> Arrived(s, t, k))
    && forall id :: 0 <= id < |s.records| && id !in s.stack[low..] ==> Has(t, id, s.records[id])
  }

  ghost predicate Arrived(s: State, t: State, k: nat)
    requires k < |s.stack| && s.control.Raising?
  {
    Has(t, s.stack[k], Record(Uninitialized, Message(Reported(s.stack[k + 1..], s.control.fault))))
  }

  lemma NothingUnwound(s: State)
    requires s.control.Raising?
    ensures Unwound(s, s, |s.stack|)
  {
  }

  lemma UnwoundMore(s: State, u: State, t: State, low: nat)
    requires s.control.Raising? && low < |s.stack| && Unwound(u, t, low)
    requires var top := s.stack[|s.stack| - 1];
             && u.stack == s.stack[..|s.stack| - 1] && top !in u.stack && u.control == Raising(Within(top, s.control.fault))
             && Elsewhere(s, u, top) && Has(u, top, Record(Uninitialized, Message(s.control.fault)))
    ensures Unwound(s, t, low)
  {
    hide Reported;
    var n, top := |s.stack| - 1, s.stack[|s.stack| - 1];
    ReportedOnce(s.stack, low, s.control.fault);
    assert s.stack[..n][..low] == s.stack[..low];
    forall k | low <= k < |s.stack| ensures Arrived(s, t, k) {
      if k < n {
        assert Arrived(u, t, k);
        ReportedOnce(s.stack, k + 1, s.control.fault);
      } else {
        assert top !in u.stack[low..] by {
          assert forall x :: x in u.stack[low..] ==> x in u.stack;
        }
        assert Has(t, top, u.records[top]);
        NoneReported(s.stack, s.control.fault);
      }
    }
    forall id | 0 <= id < |s.records| && id !in s.stack[low..] ensures Has(t, id, s.records[id]) {
      assert s.stack[low..][n - low] == top;
      assert s.stack[low..] == u.stack[low..] + [top];
      assert Has(u, id, s.records[id]) && Has(t, id, u.records[id]);
    }
  }

  lemma NoneReported(stack: seq<nat>, fault: Fault)
    ensures Reported(stack[|stack|..], fault) == fault
  {
  }

  /** Any other error, let through by initialisers that have not failed before: what travels on, and what the
      records say. */
  lemma {:induction false} UnwindReports(p: Program, s: State, n: nat)
    requires Kept(p, s) && Single(s) && s.control.Raising? && n <= |s.stack|
    requires forall k :: |s.stack| - n <= k < |s.stack| ==> Is(s, s.stack[k], Initializing)
    ensures RunFrom(p, s, Unwinding(n)).Some? && Unwound(s, RunFrom(p, s, Unwinding(n)).value, |s.stack| - n)
    decreases n
  {
    hide Unwound, AfterInitializer, Kept, Single;
    if n == 0 {
      NothingUnwound(s);
    } else {
      var u := After(p, s, Lets);
      LetsReports(p, s);
      forall k | |s.stack| - n <= k < |s.stack| - 1 ensures Is(u, u.stack[k], Initializing) {
        StillInitializing(s, u, k);
      }
      UnwindReports(p, u, n - 1);
      assert Unwinding(n)[1..] == Unwinding(n - 1);
      UnwoundMore(s, u, RunFrom(p, u, Unwinding(n - 1)).value, |s.stack| - n);
    }
  }

  lemma StillInitializing(s: State, u: State, k: nat)
    requires k < |s.stack| - 1 && Is(s, s.stack[k], Initializing) && u.stack == s.stack[..|s.stack| - 1]
    requires Elsewhere(s, u, s.stack[|s.stack| - 1]) && s.stack[|s.stack| - 1] !in u.stack
    ensures u.stack[k] == s.stack[k] && Is(u, u.stack[k], Initializing)
  {
    assert u.stack[k] in u.stack;
    assert Has(u, s.stack[k], s.records[s.stack[k]]);
  }

  /** How an initialiser that has not failed before fails: what it raises, and that this is what is cached. */
  lemma FailureReported(p: Program, s: State, how: Ending)
    requires Kept(p, s) && Possible(p, s, Ends(how)) && !how.One? && !Is(s, s.stack[|s.stack| - 1], Failed)
    ensures var t, id := After(p, s, Ends(how)), s.stack[|s.stack| - 1];
            var cause := match how
              case Error(fault) => fault
              case Yielded => Text("module yielded without a continuation contract")
              case _ => Text("module must return a single value");
            t.control == Raising(Within(id, cause)) && Has(t, id, Record(Uninitialized, Message(cause)))
  {
  }

  /** A message stays until the module is required again. */
  lemma {:induction false} MessageStays(p: Program, s: State, events: seq<Event>, id: nat)
    requires Kept(p, s) && id < p.count && id != p.entry && id !in s.stack && RunFrom(p, s, events).Some?
    requires Requires(id) !in events
    ensures id !in RunFrom(p, s, events).value.stack && Has(RunFrom(p, s, events).value, id, s.records[id])
    decreases |events|
  {
    if events != [] {
      var t := After(p, s, events[0]);
      StepKeeps(p, s, events[0]);
      StepElsewhere(p, s, events[0], id);
      MessageStays(p, t, events[1..], id);
    }
  }

  lemma StepElsewhere(p: Program, s: State, e: Event, id: nat)
    requires Kept(p, s) && Possible(p, s, e) && id < p.count && id != p.entry && id !in s.stack && e != Requires(id)
    ensures id !in After(p, s, e).stack && Has(After(p, s, e), id, s.records[id])
  {
    hide AfterInitializer;
    if e.Ends? || e.Lets? {
      var top := EndTouches(s, if e.Ends? then e.how else Error(s.control.fault));
      assert top in s.stack;
    }
  }

  // ----- what a restart can do -----

  predicate Is(s: State, id: nat, status: Status) {
    id < |s.records| && s.records[id].status == status
  }

  /** An error on its way out undoes an initialised module that is still on the stack. */
  lemma {:induction false} UnwindUndoes(p: Program, s: State, id: nat) returns (events: seq<Event>)
    requires Kept(p, s) && s.control.Raising? && id in s.stack && s.records[id].status.Initialized?
    ensures RunFrom(p, s, events).Some? && Is(RunFrom(p, s, events).value, id, Uninitialized)
    decreases |s.stack|
  {
    var top, t := s.stack[|s.stack| - 1], After(p, s, Lets);
    StepKeeps(p, s, Lets);
    if top == id {
      events := [Lets];
    } else {
      var rest := UnwindUndoes(p, t, id);
      events := [Lets] + rest;
      assert events[1..] == rest;
    }
  }

  /** Conversely, wherever a running initialiser can be restarted, the module can become initialised and
      then uninitialised again. */
  lemma RestartUndoes(p: Program, s: State, id: nat) returns (up: seq<Event>, down: seq<Event>)
    requires Kept(p, s) && Possible(p, s, Requires(id)) && Restarts(p, s, Requires(id))
    ensures RunFrom(p, s, up).Some? && Is(RunFrom(p, s, up).value, id, Initialized)
    ensures RunFrom(p, s, up + down).Some? && Is(RunFrom(p, s, up + down).value, id, Uninitialized)
  {
    up := [Requires(id), Ends(One(0))];
    var a := After(p, s, Requires(id));
    var b := After(p, a, Ends(One(0)));
    assert up[1..] == [Ends(One(0))] && b.stack == s.stack;
    assert RunFrom(p, a, [Ends(One(0))]) == Some(b);
    assert RunFrom(p, s, up) == Some(b);
    StepKeeps(p, s, Requires(id));
    StepKeeps(p, a, Ends(One(0)));
    var top, c := s.stack[|s.stack| - 1], After(p, b, Ends(Many));
    StepKeeps(p, b, Ends(Many));
    if top == id {
      down := [Ends(Many)];
    } else {
      var rest := UnwindUndoes(p, c, id);
      down := [Ends(Many)] + rest;
      assert down[1..] == rest;
    }
    RunOn(p, s, up, down);
  }

  /** It happens: a module that requires itself three times, catching the first two errors, completes
      inside itself and is then undone by its own failure. */
  lemma CaughtCyclesRestart()
    ensures var p := Program(2, 0, {1});
            var twice := [Requires(1), Requires(1), Catches, Requires(1), Catches];
            var s := RunFrom(p, Begin(2, 0), twice);
            s.Some? && s.value.stack == [1] && Restarts(p, s.value, Requires(1))
  {
    var p := Program(2, 0, {1});
    var s0 := Begin(2, 0);
    var s1 := After(p, s0, Requires(1));
    var s2 := After(p, s1, Requires(1));
    var s3 := After(p, s2, Catches);
    var s4 := After(p, s3, Requires(1));
    var s5 := After(p, s4, Catches);
    assert RunFrom(p, s4, [Catches]) == Some(s5);
    assert RunFrom(p, s3, [Requires(1), Catches]) == Some(s5);
    assert RunFrom(p, s2, [Catches, Requires(1), Catches]) == Some(s5);
    assert RunFrom(p, s1, [Requires(1), Catches, Requires(1), Catches]) == Some(s5);
    assert RunFrom(p, s0, [Requires(1), Requires(1), Catches, Requires(1), Catches]) == Some(s5);
  }
}
