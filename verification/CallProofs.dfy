/** What CALL leaves behind at each stage it can stop in. */
module CallProofs {
  import opened Bits
  import opened CallUnit
  import opened Change
  import opened Checks
  import opened Fields
  import opened FrameChain
  import opened Memory
  import opened NsGate
  import opened Registers
  import opened Thread
  import opened Windows
  import M = MLoad

  /** The token checks pass and the first mLoad loads. */
  predicate Loads(c: Context, x: Operands, resident: bool)
    requires c.Ok() && x.Ok()
  {
    Begin(c, x).Go? && PhaseOne(c, Begin(c, x).gt, resident).Loaded?
  }

  /** A CALL asserts no register write exactly when it stops before its first mLoad loads, and
      it then leaves everything as it was. */
  lemma QuietExactlyBeforeLoads(c: Context, x: Operands, resident: bool)
    requires c.Ok() && x.Ok()
    ensures Trace(c, x, resident) == [] <==> !Loads(c, x, resident)
    ensures !Loads(c, x, resident) ==> Execute(c, x, resident).1 == c && !Execute(c, x, resident).0.Entered?
  {
  }

  /** Header or method refused, or no code resident: CR6 and CR14 hold the resolved lump, its G
      bit is clear, the Thread's copy of CR6 is written, and nothing else. */
  lemma StopsAfterLoads(c: Context, x: Operands, resident: bool)
    requires c.Ok() && x.Ok() && Loads(c, x, resident)
    requires var cap := PhaseOne(c, Begin(c, x).gt, resident).cap; !Publication(c.m, Second(cap), x.imm).Entered?
    ensures var cap, after := PhaseOne(c, Begin(c, x).gt, resident).cap, Execute(c, x, resident);
      && after.0 == Publication(c.m, Second(cap), x.imm) && after.1 == LoadedContext(c, cap)
      && Trace(c, x, resident) == [Cr(6, cap), Cr(14, Second(cap))]
  {
  }

  /** No room for the frame: the windows are published and the argument registers cleaned, but
      neither the stack nor the program counter has changed. */
  lemma StopsAfterPublication(c: Context, x: Operands, resident: bool)
    requires c.Ok() && x.Ok() && Loads(c, x, resident)
    requires var cap := PhaseOne(c, Begin(c, x).gt, resident).cap; Publication(c.m, Second(cap), x.imm).Entered?
    requires Room(c.m, c.cr[5], c.cr[12], x).Deny?
    ensures var cap := PhaseOne(c, Begin(c, x).gt, resident).cap;
      var r, after := Publication(c.m, Second(cap), x.imm), Execute(c, x, resident);
      && after.0 == Faulted(Room(c.m, c.cr[5], c.cr[12], x).code)
      && after.1 == PublishedContext(LoadedContext(c, cap), r, x.mask)
      && after.1.m == c.m && after.1.nia == c.nia && after.1.cr[14] == CallCode(Second(cap), r.header)
  {
  }

  lemma WitnessToken(gt: Word)
    requires gt == 0x4A00_0001
    ensures GtSlot(gt) == 1 && GtType(gt) == GT_INFORM && HasChurch(gt, E)
  {
  }

  lemma WitnessHeader(h: Word, authority: Word)
    requires h == 0xF800_0801 && authority == 63
    ensures CallAdmits(h, authority) && HdrCw(h) == 2 && HdrCc(h) == 1 && BodyWords(h) == 64
  {
  }

  lemma WitnessThread(h: Word)
    requires h == 0xF900_2A0C
    ensures ThreadHeader(h) && BodyWords(h) == 256
  {
  }

  lemma WitnessLoads(c: Context, x: Operands, gt: Word, e: Entry, header: Word)
    requires c.Ok() && x.Ok() && x.src == 0 && !x.indexed && x.imm == 1
    requires gt == 0x4A00_0001 && header == 0xF800_0801 && e == Entry(256, 0x4000_003F, 0, 0)
    requires c.m[64] == header && c.m[65] == 2 && c.table[1] == e
    requires c.cr[0].gt == gt && c.cr[15].authority == 1 && c.cr[5].gt == 0
    ensures Begin(c, x) == Go(gt) && PhaseOne(c, gt, false) == M.Loaded(Cap(gt, 256, e.authority))
    ensures Publication(c.m, Second(Cap(gt, 256, e.authority)), x.imm) == Entered(Cap(gt, 256, 63), header, 2)
    ensures Room(c.m, c.cr[5], c.cr[12], x) == Deny(F_NULL_CAP)
  {
    WitnessToken(gt);
    WitnessHeader(header, 63);
  }

  /** A CALL faults with both windows already changed, because CR5 is null. */
  lemma PublishesThenFaults() returns (c: Context, x: Operands)
    ensures c.Ok() && x.Ok() && Execute(c, x, false).0 == Faulted(F_NULL_CAP)
    ensures Execute(c, x, false).1.cr[14] != c.cr[14] && Execute(c, x, false).1.cr[6] != c.cr[6]
    ensures Execute(c, x, false).1.table != c.table
  {
    var gt: Word := 0x4A00_0001;
    var header: Word := 0xF800_0801;
    var m := seq(ADDRESS_SPACE, _ => 0)[64 := header][65 := 2];
    var cr := seq(CRS, _ => NULL_CAP_REG)[0 := Cap(gt, 0, 0)][15 := Cap(0, 0, 1)];
    var e := Entry(256, 0x4000_003F, 0, 0);
    c := Context(m, cr, seq(CRS, _ => 0), seq(M.SLOTS, _ => Entry(0, 0, 0, 0))[1 := e], 0);
    x := Operands(0, false, false, 1, 0, seq(ARGUMENTS, _ => false), 0, 0, false, 0, 0xF900_2A0C);
    WitnessThread(x.threadHdr);
    WitnessChanges(c, x, gt, e, header);
  }

  lemma WitnessChanges(c: Context, x: Operands, gt: Word, e: Entry, header: Word)
    requires c.Ok() && x.Ok() && x.src == 0 && !x.indexed && x.imm == 1 && !x.mask[6]
    requires gt == 0x4A00_0001 && header == 0xF800_0801 && e == Entry(256, 0x4000_003F, 0, 0)
    requires c.m[64] == header && c.m[65] == 2 && c.table[1] == e
    requires c.cr[0].gt == gt && c.cr[15].authority == 1 && c.cr[5].gt == 0
    requires c.cr[14].location == 0 && c.cr[6].location == 0
    ensures var after := Execute(c, x, false);
      && after.0 == Faulted(F_NULL_CAP) && after.1.cr[14] != c.cr[14] && after.1.cr[6] != c.cr[6]
      && after.1.table != c.table
  {
    WitnessLoads(c, x, gt, e, header);
    WitnessHeader(header, 63);
    WitnessToken(gt);
    StopsAfterPublication(c, x, false);
    var after := Execute(c, x, false).1;
    assert after.cr[14].location == 260 && after.cr[6].location == 508;
    assert after.table[1] == M.Touch(e) && c.table[1] == e;
  }
}
