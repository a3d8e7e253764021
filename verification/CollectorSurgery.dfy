/** The repair as the front end runs it, in place on the vectors of a compiled function. */
module CollectorSurgery {
  import opened Wrappers
  import opened CollectorChecks

  /** Inserting first and renumbering everything afterwards gives the renumbered code around the check. */
  lemma Assembled(was: seq<Instr>, slot: nat, wide: seq<Instr>, now: seq<Instr>)
    requires slot <= |was| && wide == was[..slot] + [CHECK] + was[slot..] && |now| == |wide|
    requires forall j :: 0 <= j < |now| ==> now[j] == ShiftInstr(slot, wide[j])
    ensures now == InsertedInstrs(was, slot)
  {
    hide InsertedInstrs;
    forall j | 0 <= j < |now| ensures now[j] == InsertedInstrs(was, slot)[j] {
      if j < slot {
        assert InsertedInstrs(was, slot)[Shift(slot, j)] == ShiftInstr(slot, was[j]);
      } else if j > slot {
        assert InsertedInstrs(was, slot)[Shift(slot, j - 1)] == ShiftInstr(slot, was[j - 1]);
      }
    }
  }

  class IrFunction {
    var instrs: seq<Instr>
    var blocks: seq<Block>
    var mapping: seq<Option<nat>>

    constructor (c: Code)
      ensures Now() == c
    {
      instrs, blocks, mapping := c.instrs, c.blocks, c.mapping;
    }

    function Now(): Code
      reads this
    {
      Code(instrs, blocks, mapping)
    }

    /** The first block that holds a table and its publication. */
    method FindOwner(index: nat, published: nat) returns (owner: Option<nat>)
      ensures owner == Owner(blocks, index, published, 0)
    {
      owner := None;
      for b := 0 to |blocks|
        invariant Owner(blocks, index, published, 0) == Owner(blocks, index, published, b)
      {
        var block := blocks[b];
        if block.range.NoRange? || !Compilable(block) {
          continue;
        }
        if block.range.start <= index && published <= block.range.finish {
          return Some(b);
        }
      }
    }

    method BarePublishedTable(index: nat) returns (r: Option<Site>)
      ensures r == Bare(Now(), index)
    {
      var count := |instrs|;
      if index >= count || !instrs[index].cmd.NewTable? {
        return None;
      }
      if index + 1 >= count || !instrs[index + 1].cmd.StorePointer? {
        return None;
      }
      var slot := index + 2;
      if slot < count && instrs[slot].cmd.StoreTag? {
        slot := slot + 1;
      }
      if slot < count && instrs[slot].ops == [] && (instrs[slot].cmd.CheckGc? || instrs[slot].cmd.Nop?) {
        return None;
      }
      var owner := FindOwner(index, slot - 1);
      if owner.None? {
        return None;
      }
      var finish := blocks[owner.value].range.finish;
      r := ScanInitializers(slot, finish, owner.value);
    }

    /** From the publication on: the last initialiser of the run, unless any collector check follows. */
    method ScanInitializers(slot: nat, finish: nat, owner: nat) returns (r: Option<Site>)
      ensures var at := BehindLast(instrs, slot, RunEnd(instrs, slot, finish));
              r == if at.Some? && NoCheckFrom(instrs, slot) then Some(Site(at.value, owner)) else None
    {
      var cursor, insertAt, sawInitializer := slot, slot, false;
      while cursor <= finish && cursor < |instrs|
        invariant slot <= cursor && RunEnd(instrs, slot, finish) == RunEnd(instrs, cursor, finish)
        invariant BehindLast(instrs, slot, cursor) == if sawInitializer then Some(insertAt) else None
        invariant forall k :: slot <= k < cursor && k < |instrs| ==> !instrs[k].cmd.CheckGc?
        decreases |instrs| - cursor
      {
        var cmd := instrs[cursor].cmd;
        if cmd.CheckGc? {
          return None;
        }
        if cmd.NewTable? || cmd.DupTable? {
          break;
        }
        if Initializes(cmd) {
          sawInitializer, insertAt := true, cursor + 1;
        }
        cursor := cursor + 1;
      }
      if !sawInitializer {
        return None;
      }
      while cursor < |instrs|
        invariant forall k :: slot <= k < cursor && k < |instrs| ==> !instrs[k].cmd.CheckGc?
        decreases |instrs| - cursor
      {
        if instrs[cursor].cmd.CheckGc? {
          return None;
        }
        cursor := cursor + 1;
      }
      return Some(Site(insertAt, owner));
    }

    method RenumberOperands(ops: seq<Operand>, slot: nat) returns (r: seq<Operand>)
      ensures |r| == |ops| && forall k :: 0 <= k < |ops| ==> r[k] == ShiftOperand(slot, ops[k])
    {
      r := ops;
      for k := 0 to |ops|
        invariant |r| == |ops|
        invariant forall j :: 0 <= j < |ops| ==> r[j] == if j < k then ShiftOperand(slot, ops[j]) else ops[j]
      {
        if r[k].Inst? && r[k].index >= slot {
          r := r[k := Inst(r[k].index + 1)];
        }
      }
    }

    method RenumberInstructions(slot: nat)
      requires slot <= |instrs|
      modifies this`instrs
      ensures instrs == InsertedInstrs(old(instrs), slot)
    {
      hide InsertedInstrs;
      ghost var was := instrs;
      instrs := instrs[..slot] + [CHECK] + instrs[slot..];
      ghost var wide := instrs;
      for i := 0 to |instrs|
        invariant |instrs| == |wide|
        invariant forall j :: 0 <= j < |instrs| ==> instrs[j] == if j < i then ShiftInstr(slot, wide[j]) else wide[j]
      {
        var ops := RenumberOperands(instrs[i].ops, slot);
        var instr := instrs[i].(ops := ops);
        assert instr.ops == ShiftInstr(slot, wide[i]).ops;
        instrs := instrs[i := instr];
      }
      Assembled(was, slot, wide, instrs);
    }

    method RenumberBlocks(slot: nat, owner: nat)
      requires owner < |blocks| && blocks[owner].range.Range?
      modifies this`blocks
      ensures |blocks| == old(|blocks|)
      ensures forall b :: 0 <= b < |blocks| ==> blocks[b] == InsertedBlock(old(blocks)[b], slot, b == owner)
    {
      ghost var was := blocks;
      blocks := blocks[owner := blocks[owner].(range := Range(blocks[owner].range.start, blocks[owner].range.finish + 1))];
      for b := 0 to |blocks|
        invariant |blocks| == |was|
        invariant forall j :: 0 <= j < |blocks| ==>
          blocks[j] == if j < b || j == owner then InsertedBlock(was[j], slot, j == owner) else was[j]
      {
        if b == owner || blocks[b].range.NoRange? {
          continue;
        }
        var range := blocks[b].range;
        if range.start >= slot {
          blocks := blocks[b := blocks[b].(range := Range(range.start + 1, range.finish + 1))];
        } else if range.finish >= slot {
          blocks := blocks[b := blocks[b].(range := Range(range.start, range.finish + 1))];
        }
      }
    }

    method RenumberMapping(slot: nat)
      modifies this`mapping
      ensures |mapping| == old(|mapping|)
      ensures forall k :: 0 <= k < |mapping| ==> mapping[k] == ShiftMapping(slot, old(mapping)[k])
    {
      ghost var was := mapping;
      for k := 0 to |mapping|
        invariant |mapping| == |was|
        invariant forall j :: 0 <= j < |mapping| ==> mapping[j] == if j < k then ShiftMapping(slot, was[j]) else was[j]
      {
        if mapping[k].Some? && mapping[k].value >= slot {
          mapping := mapping[k := Some(mapping[k].value + 1)];
        }
      }
    }

    /** Insert one collector check and renumber everything that names instructions. */
    method InsertCollectorCheck(slot: nat, owner: nat)
      requires slot <= |instrs| && owner < |blocks| && blocks[owner].range.Range?
      modifies this
      ensures Now() == Inserted(old(Now()), slot, owner)
    {
      RenumberInstructions(slot);
      RenumberBlocks(slot, owner);
      RenumberMapping(slot);
    }

    /** Give the last bare table its check; afterwards no table is bare. */
    method RestoreStrippedTableOwnership()
      modifies this
      ensures Now() == Restored(old(Now())) && forall k :: Bare(Now(), k).None?
    {
      var last: Option<Site> := None;
      for index := 0 to |instrs|
        invariant last == LastBare(Now(), index) && Now() == old(Now())
      {
        var site := BarePublishedTable(index);
        if site.Some? {
          last := site;
        }
      }
      ghost var was := Now();
      if last.Some? {
        SiteFits(Now(), |instrs|);
        InsertCollectorCheck(last.value.insertAt, last.value.owner);
      }
      forall k ensures Bare(Now(), k).None? {
        RestoredHasNoBare(was, k);
      }
    }
  }
}
