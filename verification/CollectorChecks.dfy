/** The surgery on compiled functions that gives a table left without collector check its check back: one
    instruction is inserted, and everything that names instructions by number is renumbered. */
module CollectorChecks {
  import opened Wrappers

  datatype Cmd = NewTable | DupTable | StorePointer | StoreTag | CheckGc | Nop
               | Initializer(kind: nat) | Plain(kind: nat)

  /** An operand names an instruction, or something insertions do not move. */
  datatype Operand = Inst(index: nat) | Fixed(raw: nat)

  datatype Instr = Instr(cmd: Cmd, ops: seq<Operand>)

  datatype BlockKind = Bytecode | Internal | Linearized | Fallback | Dead

  /** The instructions of a block, first to last; a block without instructions has no range. */
  datatype Range = NoRange | Range(start: nat, finish: nat)
  datatype Block = Block(range: Range, kind: BlockKind)

  /** Code, blocks and the position of every bytecode instruction, if it has one. */
  datatype Code = Code(instrs: seq<Instr>, blocks: seq<Block>, mapping: seq<Option<nat>>)

  /** Field initialisers, among them the stores that publish a table. */
  predicate Initializes(cmd: Cmd) {
    cmd.Initializer? || cmd.StorePointer? || cmd.StoreTag?
  }

  predicate Compilable(b: Block) {
    b.range.Range? && (b.kind.Bytecode? || b.kind.Internal? || b.kind.Linearized?)
  }

  // ----- bare tables -----

  /** The position after the stores that publish the table made at `i`. */
  function Slot(instrs: seq<Instr>, i: nat): nat {
    if i + 2 < |instrs| && instrs[i + 2].cmd.StoreTag? then i + 3 else i + 2
  }

  /** A table is made at `i`, published at once, and not marked. */
  predicate Published(instrs: seq<Instr>, i: nat) {
    && i + 1 < |instrs| && instrs[i].cmd.NewTable? && instrs[i + 1].cmd.StorePointer?
    && var slot := Slot(instrs, i);
       slot < |instrs| && instrs[slot].ops == [] ==> !instrs[slot].cmd.CheckGc? && !instrs[slot].cmd.Nop?
  }

  predicate Holds(b: Block, i: nat, published: nat) {
    Compilable(b) && b.range.start <= i && published <= b.range.finish
  }

  /** The first block, from `b` on, that holds the table and its publication. */
  function Owner(blocks: seq<Block>, i: nat, published: nat, b: nat): (r: Option<nat>)
    ensures r.Some? ==> b <= r.value < |blocks| && Holds(blocks[r.value], i, published)
    decreases |blocks| - b
  {
    if b >= |blocks| then None
    else if Holds(blocks[b], i, published) then Some(b)
    else Owner(blocks, i, published, b + 1)
  }

  /** Where the initialisation that starts at `cursor` ends: at the next table or behind the block. */
  function RunEnd(instrs: seq<Instr>, cursor: nat, finish: nat): (r: nat)
    ensures r >= cursor
    decreases |instrs| - cursor
  {
    if cursor >= |instrs| || cursor > finish || instrs[cursor].cmd.NewTable? || instrs[cursor].cmd.DupTable? then cursor
    else RunEnd(instrs, cursor + 1, finish)
  }

  /** The position behind the last initialiser between `from` and `stop`. */
  function BehindLast(instrs: seq<Instr>, from: nat, stop: nat): (r: Option<nat>)
    ensures r.Some? ==> from < r.value <= stop && r.value <= |instrs|
  {
    if from >= stop || stop > |instrs| then None
    else if Initializes(instrs[stop - 1].cmd) then Some(stop)
    else BehindLast(instrs, from, stop - 1)
  }

  predicate NoCheckFrom(instrs: seq<Instr>, from: nat) {
    forall k :: from <= k < |instrs| ==> !instrs[k].cmd.CheckGc?
  }

  datatype Site = Site(insertAt: nat, owner: nat)

  /** Table `i` is bare: published, initialised, and followed by no collector check at all. */
  function Bare(c: Code, i: nat): Option<Site> {
    if !Published(c.instrs, i) then None
    else
      var slot := Slot(c.instrs, i);
      match Owner(c.blocks, i, slot - 1, 0)
      case None => None
      case Some(owner) =>
        var end := RunEnd(c.instrs, slot, c.blocks[owner].range.finish);
        match BehindLast(c.instrs, slot, end)
        case None => None
        case Some(at) => if NoCheckFrom(c.instrs, slot) then Some(Site(at, owner)) else None
  }

  /** The last bare table before `n`. */
  function LastBare(c: Code, n: nat): Option<Site> {
    if n == 0 then None
    else if Bare(c, n - 1).Some? then Bare(c, n - 1)
    else LastBare(c, n - 1)
  }

  // ----- what a bare table is, without scanning -----

  /** Control stays in the block and meets no other table from `slot` up to `k`. */
  ghost predicate InRun(instrs: seq<Instr>, slot: nat, finish: nat, k: nat) {
    && slot <= k < |instrs| && k <= finish
    && forall j :: slot <= j <= k ==> !instrs[j].cmd.NewTable? && !instrs[j].cmd.DupTable?
  }

  /** The table made at `i` is published and initialised and no check follows; the check belongs right behind
      its last initialiser, and into the first block that holds the table and its publication. */
  ghost predicate BareAt(c: Code, i: nat, s: Site) {
    && i + 1 < |c.instrs| && c.instrs[i].cmd.NewTable? && c.instrs[i + 1].cmd.StorePointer?
    && var slot := if i + 2 < |c.instrs| && c.instrs[i + 2].cmd.StoreTag? then i + 3 else i + 2;
       && (slot < |c.instrs| && c.instrs[slot].ops == [] ==> !c.instrs[slot].cmd.Nop?)
       && (forall k :: slot <= k < |c.instrs| ==> !c.instrs[k].cmd.CheckGc?)
       && s.owner < |c.blocks| && Spans(c.blocks[s.owner], i, slot)
       && (forall b :: 0 <= b < s.owner ==> !Spans(c.blocks[b], i, slot))
       && var finish := c.blocks[s.owner].range.finish;
          && slot < s.insertAt && InRun(c.instrs, slot, finish, s.insertAt - 1) && Fills(c.instrs[s.insertAt - 1].cmd)
          && forall k :: k >= s.insertAt && InRun(c.instrs, slot, finish, k) ==> !Fills(c.instrs[k].cmd)
  }

  predicate Spans(b: Block, i: nat, slot: nat) {
    b.range.Range? && b.kind in {Bytecode, Internal, Linearized} && b.range.start <= i && slot <= b.range.finish + 1
  }

  /** A store into a table, or of its pointer or tag. */
  predicate Fills(cmd: Cmd) {
    match cmd
    case StorePointer => true
    case StoreTag => true
    case Initializer(_) => true
    case _ => false
  }

  lemma {:induction false} RunMeans(instrs: seq<Instr>, cursor: nat, finish: nat, k: nat)
    ensures InRun(instrs, cursor, finish, k) <==> cursor <= k < RunEnd(instrs, cursor, finish)
    decreases |instrs| - cursor
  {
    if cursor < |instrs| && cursor <= finish && !instrs[cursor].cmd.NewTable? && !instrs[cursor].cmd.DupTable? {
      RunMeans(instrs, cursor + 1, finish, k);
    }
  }

  lemma {:induction false} LastMeans(instrs: seq<Instr>, from: nat, stop: nat, k: nat)
    requires stop <= |instrs|
    ensures var at := BehindLast(instrs, from, stop);
            && (at.Some? ==> Fills(instrs[at.value - 1].cmd))
            && (from <= k < stop && (at.Some? ==> k >= at.value) ==> !Fills(instrs[k].cmd))
    decreases stop
  {
    if from < stop && !Initializes(instrs[stop - 1].cmd) {
      LastMeans(instrs, from, stop - 1, k);
    }
  }

  lemma {:induction false} OwnerMeans(blocks: seq<Block>, i: nat, published: nat, b: nat, o: nat)
    requires b <= |blocks|
    ensures var r := Owner(blocks, i, published, b);
            && (r.Some? ==> Spans(blocks[r.value], i, published + 1))
            && (b <= o < |blocks| && (r.Some? ==> o < r.value) ==> !Spans(blocks[o], i, published + 1))
    decreases |blocks| - b
  {
    if b < |blocks| && !Holds(blocks[b], i, published) {
      OwnerMeans(blocks, i, published, b + 1, o);
    }
  }

  /** The two scans of the run of a table: the run ends inside the code, and its last initialiser is found. */
  lemma ScanMeans(instrs: seq<Instr>, slot: nat, finish: nat, at: nat)
    ensures BehindLast(instrs, slot, RunEnd(instrs, slot, finish)) == Some(at)
            <==> && slot < at && InRun(instrs, slot, finish, at - 1) && Fills(instrs[at - 1].cmd)
                 && forall k :: k >= at && InRun(instrs, slot, finish, k) ==> !Fills(instrs[k].cmd)
  {
    hide RunEnd, BehindLast, InRun;
    var end := RunEnd(instrs, slot, finish);
    forall k: nat ensures InRun(instrs, slot, finish, k) <==> slot <= k < end {
      RunMeans(instrs, slot, finish, k);
    }
    if end > slot {
      RunInside(instrs, slot, finish);
      forall k: nat ensures var last := BehindLast(instrs, slot, end);
                       && (last.Some? ==> Fills(instrs[last.value - 1].cmd))
                       && (slot <= k < end && (last.Some? ==> k >= last.value) ==> !Fills(instrs[k].cmd)) {
        LastMeans(instrs, slot, end, k);
      }
    }
  }

  lemma RunInside(instrs: seq<Instr>, slot: nat, finish: nat)
    requires RunEnd(instrs, slot, finish) > slot
    ensures RunEnd(instrs, slot, finish) <= |instrs|
  {
    RunMeans(instrs, slot, finish, RunEnd(instrs, slot, finish) - 1);
  }

  /** The scan finds exactly the bare tables, and for each the place of its check. */
  lemma BareMeans(c: Code, i: nat, s: Site)
    ensures Bare(c, i) == Some(s) <==> BareAt(c, i, s)
  {
    hide RunEnd, BehindLast, InRun, Owner, Spans, Fills;
    var slot := Slot(c.instrs, i);
    var o := Owner(c.blocks, i, slot - 1, 0);
    forall b: nat ensures && (o.Some? ==> Spans(c.blocks[o.value], i, slot))
                          && (b < |c.blocks| && (o.Some? ==> b < o.value) ==> !Spans(c.blocks[b], i, slot)) {
      OwnerMeans(c.blocks, i, slot - 1, 0, b);
    }
    if s.owner < |c.blocks| && c.blocks[s.owner].range.Range? {
      ScanMeans(c.instrs, slot, c.blocks[s.owner].range.finish, s.insertAt);
    }
    if o.Some? {
      ScanMeans(c.instrs, slot, c.blocks[o.value].range.finish, s.insertAt);
    }
  }

  // ----- inserting one instruction -----

  /** Where the instruction at `i` goes when one is inserted at `slot`. */
  function Shift(slot: nat, i: nat): nat {
    if i >= slot then i + 1 else i
  }

  function ShiftOperand(slot: nat, op: Operand): Operand {
    if op.Inst? then Inst(Shift(slot, op.index)) else op
  }

  function ShiftInstr(slot: nat, instr: Instr): Instr {
    instr.(ops := seq(|instr.ops|, k requires 0 <= k < |instr.ops| => ShiftOperand(slot, instr.ops[k])))
  }

  function ShiftRange(slot: nat, r: Range): Range {
    if r.NoRange? then r
    else if r.start >= slot then Range(r.start + 1, r.finish + 1)
    else if r.finish >= slot then Range(r.start, r.finish + 1)
    else r
  }

  function ShiftMapping(slot: nat, at: Option<nat>): Option<nat> {
    if at.Some? then Some(Shift(slot, at.value)) else at
  }

  const CHECK := Instr(CheckGc, [])

  function InsertedInstrs(instrs: seq<Instr>, slot: nat): (r: seq<Instr>)
    requires slot <= |instrs|
    ensures |r| == |instrs| + 1 && r[slot] == CHECK
    ensures forall i :: 0 <= i < |instrs| ==> r[Shift(slot, i)] == ShiftInstr(slot, instrs[i])
  {
    seq(|instrs| + 1, i requires 0 <= i <= |instrs| =>
      if i < slot then ShiftInstr(slot, instrs[i]) else if i == slot then CHECK else ShiftInstr(slot, instrs[i - 1]))
  }

  /** The owner's range grows by the new instruction at its end or inside; all others just move. */
  function InsertedBlock(b: Block, slot: nat, owner: bool): Block {
    if !owner then b.(range := ShiftRange(slot, b.range))
    else if b.range.Range? then b.(range := Range(b.range.start, b.range.finish + 1))
    else b
  }

  function Inserted(c: Code, slot: nat, owner: nat): Code
    requires slot <= |c.instrs|
  {
    Code(InsertedInstrs(c.instrs, slot),
         seq(|c.blocks|, b requires 0 <= b < |c.blocks| => InsertedBlock(c.blocks[b], slot, b == owner)),
         seq(|c.mapping|, k requires 0 <= k < |c.mapping| => ShiftMapping(slot, c.mapping[k])))
  }

  lemma {:induction false} SiteFits(c: Code, n: nat)
    requires n <= |c.instrs| && LastBare(c, n).Some?
    ensures var s := LastBare(c, n).value;
            s.insertAt <= |c.instrs| && s.owner < |c.blocks| && Compilable(c.blocks[s.owner])
  {
    if Bare(c, n - 1).None? {
      SiteFits(c, n - 1);
    }
  }

  /** The whole repair: at most one check, behind the initialisers of the last bare table. */
  function Restored(c: Code): Code {
    match LastBare(c, |c.instrs|)
    case None => c
    case Some(s) => SiteFits(c, |c.instrs|); Inserted(c, s.insertAt, s.owner)
  }

  // ----- the insertion is an order embedding -----

  predicate InRange(r: Range, i: nat) {
    r.Range? && r.start <= i <= r.finish
  }

  /** Every instruction keeps its command at its new place, its operands name the images of what they
      named, every block holds exactly the images of what it held, and bytecode positions move along.
      The new instruction lands in the owner, and in another block exactly if that block already held the
      instructions on both its sides. */
  lemma InsertionEmbeds(c: Code, slot: nat, owner: nat)
    requires slot <= |c.instrs| && owner < |c.blocks|
    requires c.blocks[owner].range.Range? && c.blocks[owner].range.start < slot <= c.blocks[owner].range.finish + 1
    ensures var d := Inserted(c, slot, owner);
            && |d.instrs| == |c.instrs| + 1 && d.instrs[slot] == CHECK
            && (forall i, j :: 0 <= i < j ==> Shift(slot, i) < Shift(slot, j))
            && (forall i :: 0 <= i < |c.instrs| ==> Moves(c, d, slot, i))
            && (forall b, i: nat :: 0 <= b < |c.blocks| ==> (InRange(d.blocks[b].range, Shift(slot, i)) <==> InRange(c.blocks[b].range, i)))
            && InRange(d.blocks[owner].range, slot)
            && (forall b :: 0 <= b < |c.blocks| && b != owner ==>
                  (InRange(d.blocks[b].range, slot)
                   <==> slot > 0 && InRange(c.blocks[b].range, slot - 1) && InRange(c.blocks[b].range, slot)))
            && (forall k :: 0 <= k < |c.mapping| ==> d.mapping[k] == ShiftMapping(slot, c.mapping[k]))
  {
    var d := Inserted(c, slot, owner);
    forall i | 0 <= i < |c.instrs| ensures Moves(c, d, slot, i) {
      assert d.instrs[Shift(slot, i)] == ShiftInstr(slot, c.instrs[i]);
    }
  }

  ghost predicate Moves(c: Code, d: Code, slot: nat, i: nat)
    requires i < |c.instrs| && |d.instrs| == |c.instrs| + 1
  {
    var was, now := c.instrs[i], d.instrs[Shift(slot, i)];
    && now.cmd == was.cmd && |now.ops| == |was.ops|
    && forall k :: 0 <= k < |was.ops| ==>
         if was.ops[k].Inst? then now.ops[k] == Inst(Shift(slot, was.ops[k].index)) else now.ops[k] == was.ops[k]
  }

  /** No two blocks share an instruction. */
  ghost predicate Disjoint(blocks: seq<Block>) {
    forall a, b, i: nat :: 0 <= a < b < |blocks| && InRange(blocks[a].range, i) ==> !InRange(blocks[b].range, i)
  }

  /** With disjoint blocks the new instruction lands in the owner only. */
  lemma OnlyOwnerGains(c: Code, slot: nat, owner: nat, b: nat)
    requires Disjoint(c.blocks) && slot <= |c.instrs| && owner < |c.blocks| && b < |c.blocks| && b != owner
    requires c.blocks[owner].range.Range? && c.blocks[owner].range.start < slot <= c.blocks[owner].range.finish + 1
    ensures !InRange(Inserted(c, slot, owner).blocks[b].range, slot)
  {
    assert InRange(c.blocks[owner].range, slot - 1);
    InsertionEmbeds(c, slot, owner);
  }

  // ----- after the repair no table is bare -----

  lemma {:induction false} RunHasNoTable(instrs: seq<Instr>, cursor: nat, finish: nat, k: nat)
    requires cursor <= k < RunEnd(instrs, cursor, finish)
    ensures k < |instrs| && k <= finish && !instrs[k].cmd.NewTable?
    decreases |instrs| - cursor
  {
    if cursor < k {
      RunHasNoTable(instrs, cursor + 1, finish, k);
    }
  }

  /** The insertion point lies behind the stores that publish the last bare table, and no table is made
      between that table and the insertion point. */
  lemma BareSite(c: Code, i: nat, k: nat)
    requires Bare(c, i).Some?
    ensures var at := Bare(c, i).value.insertAt;
            && Slot(c.instrs, i) < at <= |c.instrs|
            && (i < k < at ==> !c.instrs[k].cmd.NewTable?)
            && Bare(c, i).value.owner < |c.blocks|
            && var b := c.blocks[Bare(c, i).value.owner]; b.range.Range? && b.range.start <= i && at <= b.range.finish + 1
  {
    var slot := Slot(c.instrs, i);
    var owner := Owner(c.blocks, i, slot - 1, 0).value;
    var finish := c.blocks[owner].range.finish;
    var at := Bare(c, i).value.insertAt;
    RunHasNoTable(c.instrs, slot, finish, at - 1);
    if slot <= k < at {
      RunHasNoTable(c.instrs, slot, finish, k);
    }
  }

  lemma EarlyNotBare(c: Code, slot: nat, owner: nat, i: nat)
    requires slot <= |c.instrs| && i + 3 <= slot
    ensures Bare(Inserted(c, slot, owner), i).None?
  {
    var d := Inserted(c, slot, owner);
    assert !NoCheckFrom(d.instrs, Slot(d.instrs, i)) by {
      assert d.instrs[slot].cmd.CheckGc?;
    }
  }

  /** What stands from `slot` on, stands one further after the insertion. */
  lemma Later(instrs: seq<Instr>, slot: nat, k: nat)
    requires slot <= |instrs| && slot <= k < |instrs|
    ensures InsertedInstrs(instrs, slot)[k + 1].cmd == instrs[k].cmd
    ensures (InsertedInstrs(instrs, slot)[k + 1].ops == []) == (instrs[k].ops == [])
  {
    hide InsertedInstrs;
    assert InsertedInstrs(instrs, slot)[Shift(slot, k)] == ShiftInstr(slot, instrs[k]);
  }

  lemma {:induction false} LaterRun(instrs: seq<Instr>, slot: nat, cursor: nat, finish: nat)
    requires slot <= |instrs| && slot <= cursor
    ensures RunEnd(InsertedInstrs(instrs, slot), cursor + 1, finish + 1) == RunEnd(instrs, cursor, finish) + 1
    decreases |instrs| - cursor
  {
    hide InsertedInstrs;
    if cursor < |instrs| {
      Later(instrs, slot, cursor);
      if !(cursor > finish || instrs[cursor].cmd.NewTable? || instrs[cursor].cmd.DupTable?) {
        LaterRun(instrs, slot, cursor + 1, finish);
      }
    }
  }

  lemma {:induction false} LaterLast(instrs: seq<Instr>, slot: nat, from: nat, stop: nat)
    requires slot <= |instrs| && slot <= from
    ensures BehindLast(InsertedInstrs(instrs, slot), from + 1, stop + 1).Some? <==> BehindLast(instrs, from, stop).Some?
    decreases stop
  {
    hide InsertedInstrs;
    if from < stop <= |instrs| {
      Later(instrs, slot, stop - 1);
      if !Initializes(instrs[stop - 1].cmd) {
        LaterLast(instrs, slot, from, stop - 1);
      }
    }
  }

  lemma {:induction false} LaterOwner(c: Code, slot: nat, owner: nat, i: nat, published: nat, b: nat)
    requires slot <= |c.instrs| && owner < |c.blocks| && slot <= i <= published
    requires c.blocks[owner].range.Range? && c.blocks[owner].range.start < slot <= c.blocks[owner].range.finish + 1
    ensures Owner(Inserted(c, slot, owner).blocks, i + 1, published + 1, b) == Owner(c.blocks, i, published, b)
    decreases |c.blocks| - b
  {
    if b < |c.blocks| && !Holds(c.blocks[b], i, published) {
      LaterOwner(c, slot, owner, i, published, b + 1);
    }
  }

  lemma LateNotBare(c: Code, slot: nat, owner: nat, i: nat)
    requires slot <= |c.instrs| && owner < |c.blocks| && slot <= i < |c.instrs| && Bare(c, i).None?
    requires c.blocks[owner].range.Range? && c.blocks[owner].range.start < slot <= c.blocks[owner].range.finish + 1
    ensures Bare(Inserted(c, slot, owner), i + 1).None?
  {
    hide InsertedInstrs, RunEnd, BehindLast, Owner, NoCheckFrom;
    var d, s := Inserted(c, slot, owner), Slot(c.instrs, i);
    Later(c.instrs, slot, i);
    if i + 1 < |c.instrs| {
      Later(c.instrs, slot, i + 1);
    }
    if i + 2 < |c.instrs| {
      Later(c.instrs, slot, i + 2);
    }
    if s < |c.instrs| {
      Later(c.instrs, slot, s);
    }
    assert Slot(d.instrs, i + 1) == s + 1;
    if Published(c.instrs, i) {
      LaterOwner(c, slot, owner, i, s - 1, 0);
      var o := Owner(c.blocks, i, s - 1, 0);
      if o.Some? {
        LaterRun(c.instrs, slot, s, c.blocks[o.value].range.finish);
        LaterLast(c.instrs, slot, s, RunEnd(c.instrs, s, c.blocks[o.value].range.finish));
        if !NoCheckFrom(c.instrs, s) {
          LaterChecks(c.instrs, slot, s);
        }
      }
    }
  }

  lemma LaterChecks(instrs: seq<Instr>, slot: nat, from: nat)
    requires slot <= |instrs| && slot <= from && !NoCheckFrom(instrs, from)
    ensures !NoCheckFrom(InsertedInstrs(instrs, slot), from + 1)
  {
    hide InsertedInstrs;
    var k :| from <= k < |instrs| && instrs[k].cmd.CheckGc?;
    Later(instrs, slot, k);
  }

  lemma {:induction false} LastBareIs(c: Code, n: nat) returns (i: nat)
    requires LastBare(c, n).Some?
    ensures i < n && LastBare(c, n) == Bare(c, i) && Bare(c, i).Some?
    ensures forall k :: i < k < n ==> Bare(c, k).None?
  {
    if Bare(c, n - 1).Some? {
      i := n - 1;
    } else {
      i := LastBareIs(c, n - 1);
    }
  }

  lemma {:induction false} NoneBare(c: Code, n: nat, k: nat)
    requires LastBare(c, n).None? && k < n
    ensures Bare(c, k).None?
  {
    if k < n - 1 {
      NoneBare(c, n - 1, k);
    }
  }

  lemma BareIsTable(c: Code, i: nat)
    requires Bare(c, i).Some?
    ensures i < |c.instrs| && c.instrs[i].cmd.NewTable?
  {
  }

  /** One insertion repairs all tables: afterwards none is bare. */
  lemma RestoredHasNoBare(c: Code, k: nat)
    ensures Bare(Restored(c), k).None?
  {
    hide InsertedInstrs, Bare;
    if Bare(Restored(c), k).Some? {
      BareIsTable(Restored(c), k);
      if LastBare(c, |c.instrs|).None? {
        NoneBare(c, |c.instrs|, k);
      } else {
        var i := LastBareIs(c, |c.instrs|);
        BareSite(c, i, k);
        RepairedAt(c, i, k);
      }
    }
  }

  /** One position after inserting the check for the last bare table `i`. */
  lemma RepairedAt(c: Code, i: nat, k: nat)
    requires i < |c.instrs| && Bare(c, i).Some? && forall n :: i < n < |c.instrs| ==> Bare(c, n).None?
    requires var site := Bare(c, i).value; site.insertAt <= |c.instrs| && k <= |c.instrs|
    ensures var site := Bare(c, i).value;
            !Inserted(c, site.insertAt, site.owner).instrs[k].cmd.NewTable? || Bare(Inserted(c, site.insertAt, site.owner), k).None?
  {
    hide InsertedInstrs, Bare;
    var site := Bare(c, i).value;
    BareSite(c, i, k);
    if k <= i {
      EarlyNotBare(c, site.insertAt, site.owner, k);
    } else if k < site.insertAt {
      assert InsertedInstrs(c.instrs, site.insertAt)[Shift(site.insertAt, k)] == ShiftInstr(site.insertAt, c.instrs[k]);
    } else if site.insertAt < k {
      LateNotBare(c, site.insertAt, site.owner, k - 1);
    }
  }

  lemma {:induction false} LastBareNone(c: Code, n: nat)
    requires forall k :: 0 <= k < n ==> Bare(c, k).None?
    ensures LastBare(c, n).None?
  {
    if n > 0 {
      LastBareNone(c, n - 1);
    }
  }

  /** Repairing twice is repairing once. */
  lemma RestoreIdempotent(c: Code)
    ensures Restored(Restored(c)) == Restored(c)
  {
    var d := Restored(c);
    forall k | 0 <= k < |d.instrs| ensures Bare(d, k).None? {
      RestoredHasNoBare(c, k);
    }
    LastBareNone(d, |d.instrs|);
  }
}
