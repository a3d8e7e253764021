/** The main result on pruning: towards every host, a package and its pruned form behave the same. */
module PruneTheorem {
  import opened ClosureFacts
  import opened PackageMachine
  import opened Pruning
  import opened PruneSimulation
  import opened PruneValues
  import opened PruneRuns

  /** Two runs end alike: both with the same value, both in an error, or both cut off, after the same
      functions ran and the host observed the same events. */
  predicate EndAlike(r: Outcome<Value>, q: Outcome<Value>) {
    && r.heap.trace == q.heap.trace && r.heap.called == q.heap.called
    && match r
       case Ok(v, _) => q.Ok? && q.value == v
       case Failed(_) => q.Failed?
       case Spent(_) => q.Spent?
  }

  lemma StartAlike(c: Cut)
    requires Allowed(c)
    ensures Alike(c, PackageMachine.Start(c.p), PackageMachine.Start(Pruned(c)))
  {
  }

  /** Pruning preserves behaviour for every host and every length of run; in particular no function that
      is cut ever runs. */
  lemma PruningPreservesBehaviour(c: Cut, host: Host, fuel: nat)
    requires Allowed(c)
    ensures EndAlike(PackageMachine.Run(c.p, host, fuel), PackageMachine.Run(Pruned(c), host, fuel))
    ensures PackageMachine.Run(c.p, host, fuel).heap.called !! c.dead
  {
    var h, g := PackageMachine.Start(c.p), PackageMachine.Start(Pruned(c));
    StartAlike(c);
    ModuleSame(c, host, fuel, h, g, c.p.entry);
    var body := c.p.modules[c.p.entry].body;
    var r := PackageMachine.Finish(c.p.entry, Exec(c.p, host, fuel, map[], SetModule(h, c.p.entry, Loading), body));
    if r.Ok? {
      EscapesWithin(c, At(c.facts, OfModule(c.p.entry)));
      InWithin(c, r.heap.shape, r.value, At(c.facts, OfModule(c.p.entry)), ANY);
      HostKept(c, r.heap.shape, r.value);
    }
  }
}
