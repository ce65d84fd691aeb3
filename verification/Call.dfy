/** CALL: token checks, window publication, register cleanup and the two-word frame push. */
module CallUnit {
  import opened Bits
  import opened Change
  import opened Checks
  import opened Fields
  import opened FrameChain
  import opened Memory
  import opened NsGate
  import opened Registers
  import opened Thread
  import opened Windows
  import M = MLoad

  const F_PERM_R := 0x1

  /** The operands and machine inputs CALL latches when it starts.  `root` tells a boot or reset
      call, which opens a fresh stack. */
  datatype Operands = Operands(src: nat, indexed: bool, cr6M: bool, imm: Word, index: Word, mask: seq<bool>,
                               callerPc: nat, flags: nat, root: bool, threadBase: Word, threadHdr: Word)
  {
    predicate Ok() {
      && src < 16 && |mask| == ARGUMENTS && callerPc < 0x8000 && flags < 16 && ThreadHeader(threadHdr)
      && threadBase % 4 == 0 && threadBase / 4 + BodyWords(threadHdr) <= ADDRESS_SPACE
    }
  }

  datatype Result =
    | Entered(cap: Cap, header: Word, entry: Word)
    | LazyLoad(slot: nat)
    | Dispatched(gt: Word)
    | Faulted(code: int)

  // ---- the source token

  /** CHECK_SRC to FETCH_INDEXED_GT: a register, or a bounded row of a c-list. */
  function Source(m: seq<Word>, regs: seq<Cap>, x: Operands): Checked<Word>
    requires |m| == ADDRESS_SPACE && |regs| == 16 && x.Ok()
  {
    var s := regs[x.src];
    :- Require(0 < x.imm <= 0x7FFF, F_INVALID_OP);
    :- Require(x.indexed || x.src <= 11, F_PERM_E);
    if !x.indexed then Accept(s.gt)
    else
      :- Require(GtType(s.gt) != GT_NULL, F_NULL_CAP);
      :- Require(HasChurch(s.gt, L) || (x.cr6M && x.src == 6), F_PERM_L);
      :- Require(x.index <= AuthLimit(s.authority) % 0x1_0000, F_BOUNDS);
      Accept(ReadAt(m, (s.location + x.index * 4) % 0x1_0000_0000))
  }

  function Enterable(gt: Word): Checked<Word> {
    if GtType(gt) == GT_NULL then Deny(F_NULL_CAP)
    else if GtType(gt) == GT_OUTFORM then Deny(F_OUTFORM_UNAUTH)
    else if !HasChurch(gt, E) then Deny(F_PERM_E)
    else Accept(gt)
  }

  function Phase(gt: Word, dst: nat): M.Request {
    M.Request(0, dst, 0, true, gt, false, false, true, false)
  }

  // ---- header and method table

  /** The method's table entry: a later word of the code, never the table itself. */
  function Method(m: seq<Word>, base: Word, h: Word, imm: Word): Checked<Word>
    requires |m| == ADDRESS_SPACE
  {
    var entry := ReadAt(m, (base + imm * 4) % 0x1_0000_0000);
    :- Require(imm <= HdrCw(h), F_BOUNDS);
    :- Require(entry != 0, F_PERM_E);
    :- Require(imm < entry <= HdrCw(h), F_BOUNDS);
    Accept(entry)
  }

  // ---- the frame

  datatype Push = Push(sto: nat, sz: bool, pc: nat)

  /** CR5 and CR12 as CALL latched them, then the stack bounds. */
  function Room(m: seq<Word>, cr5: Cap, cr12: Cap, x: Operands): Checked<Push>
    requires |m| == ADDRESS_SPACE && x.Ok()
  {
    var w := m[x.threadBase / 4 + STO_OFFSET];
    var sto := if x.root then (Caps(x.threadHdr) - 1) % 0x1000 else Sto(w);
    :- Require(GtType(cr5.gt) != GT_NULL, F_NULL_CAP);
    :- Require(!GtChurch(cr5.gt) && GtPerm(cr5.gt, 0), F_PERM_R);
    :- Require(GtType(cr12.gt) != GT_NULL, F_NULL_CAP);
    :- Require(sto <= Caps(x.threadHdr) - 1, F_STACK_CORRUPT);
    :- Require(x.root || StackLo(x.threadHdr) + 2 <= sto, F_STACK_OVERFLOW);
    if x.root then Accept(Push(sto, true, POISON_PC)) else Accept(Push(sto, Sz(w), (x.callerPc + 1) % 0x8000))
  }

  /** The frame lies above the heap and inside memory. */
  predicate InStack(p: Push, x: Operands) {
    STO_OFFSET < p.sto - 1 && p.sto < 0x1000 && x.threadBase / 4 + p.sto < ADDRESS_SPACE && p.pc < 0x8000
  }

  lemma RoomFits(m: seq<Word>, cr5: Cap, cr12: Cap, x: Operands)
    requires |m| == ADDRESS_SPACE && x.Ok()
    ensures Room(m, cr5, cr12, x).Accept? ==> InStack(Room(m, cr5, cr12, x).value, x)
  {
    Geometry(x.threadHdr);
    RootOffset(x.threadHdr);
  }

  lemma RootOffset(h: Word)
    requires ThreadHeader(h)
    ensures HEAP_OFFSET < (Caps(h) - 1) % 0x1000 <= Caps(h) - 1
  {
  }

  // ---- the whole instruction, stage by stage

  /** Everything CALL reads and writes. */
  datatype Context = Context(m: seq<Word>, cr: seq<Cap>, thread: seq<Word>, table: seq<Entry>, nia: Word)
  {
    predicate Ok() {
      |m| == ADDRESS_SPACE && |cr| == CRS && |thread| == CRS && |table| == M.SLOTS
    }
  }

  /** What the checks before the first mLoad make of the source token. */
  datatype Start = Go(gt: Word) | Stop(result: Result)

  function Begin(c: Context, x: Operands): Start
    requires c.Ok() && x.Ok()
  {
    match Source(c.m, c.cr, x)
    case Deny(f) => Stop(Faulted(f))
    case Accept(gt) =>
      if GtType(gt) == GT_ABSTRACT then Stop(Dispatched(gt))
      else
        match Enterable(gt)
        case Deny(f) => Stop(Faulted(f))
        case Accept(_) => Go(gt)
  }

  /** The first mLoad: the token into CR6. */
  function PhaseOne(c: Context, gt: Word, resident: bool): M.Outcome
    requires c.Ok()
  {
    M.ResolveToken(Phase(gt, 6), gt, c.cr[15], c.table[GtSlot(gt)], resident)
  }

  /** What the second mLoad puts into CR14: the same lump, its G bit already clear. */
  function Second(cap: Cap): Cap {
    cap.(authority := ClearG(cap.authority))
  }

  /** After both mLoads: CR6, CR14, the Thread's copy of CR6, and one G bit. */
  function LoadedContext(c: Context, cap: Cap): (d: Context)
    requires c.Ok()
    ensures d.Ok()
  {
    var slot := GtSlot(cap.gt);
    c.(cr := c.cr[6 := cap][14 := Second(cap)], thread := c.thread[6 := cap.gt],
       table := c.table[slot := M.Touch(c.table[slot])])
  }

  /** Header and method checks on the lump in CR14. */
  function Publication(m: seq<Word>, cap: Cap, imm: Word): Result
    requires |m| == ADDRESS_SPACE
  {
    var h := ReadAt(m, cap.location);
    if !CallHeaderOk(h, cap.authority) then Faulted(F_BOUNDS)
    else if HdrCw(h) == 0 then LazyLoad(GtSlot(cap.gt))
    else
      match Method(m, cap.location, h, imm)
      case Deny(f) => Faulted(f)
      case Accept(entry) => Entered(cap, h, entry)
  }

  /** Both windows published and the argument registers cleaned. */
  function PublishedContext(d: Context, r: Result, mask: seq<bool>): (e: Context)
    requires d.Ok() && r.Entered? && HdrCw(r.header) > 0 && |mask| == ARGUMENTS
    ensures e.Ok()
  {
    d.(cr := Cleaned(d.cr[14 := CallCode(r.cap, r.header)]
                         [6 := CallClist(d.cr[6], r.cap.location, r.header)], mask))
  }

  function EntryAddress(r: Result): Word
    requires r.Entered?
  {
    (r.cap.location + r.entry * 4) % 0x1_0000_0000
  }

  /** The companion token of the frame: the caller's, or the callee's at a root call. */
  function Companion(c: Context, x: Operands, r: Result): Word
    requires c.Ok() && r.Entered?
  {
    if x.root then r.cap.gt else EGt(c.cr[6].gt)
  }

  /** One CALL: its result and everything it leaves behind. */
  function Execute(c: Context, x: Operands, resident: bool): (Result, Context)
    requires c.Ok() && x.Ok()
  {
    match Begin(c, x)
    case Stop(r) => (r, c)
    case Go(gt) => Enter(c, x, gt, resident)
  }

  /** From the first mLoad on. */
  function Enter(c: Context, x: Operands, gt: Word, resident: bool): (Result, Context)
    requires c.Ok() && x.Ok()
  {
    match PhaseOne(c, gt, resident)
    case Loaded(cap) => AfterLoads(c, LoadedContext(c, cap), x, Publication(c.m, Second(cap), x.imm))
    case o => (Faulted(if o.Faulted? then o.fault else 0), c)
  }

  function AfterLoads(c: Context, d: Context, x: Operands, r: Result): (Result, Context)
    requires c.Ok() && d.Ok() && x.Ok() && (r.Entered? ==> HdrCw(r.header) > 0)
  {
    if !r.Entered? then (r, d)
    else
      match Room(c.m, c.cr[5], c.cr[12], x)
      case Deny(f) => (Faulted(f), PublishedContext(d, r, x.mask))
      case Accept(p) =>
        RoomFits(c.m, c.cr[5], c.cr[12], x);
        (r, PublishedContext(d, r, x.mask).(nia := EntryAddress(r),
          m := PushCall(c.m, x.threadBase / 4, p.sto, p.sz, p.pc, x.flags, Companion(c, x, r))))
  }

  /** The register writes CALL asserts, in order. */
  function Trace(c: Context, x: Operands, resident: bool): seq<RegWrite>
    requires c.Ok() && x.Ok()
  {
    match Begin(c, x)
    case Stop(_) => []
    case Go(gt) => EnterTrace(c, x, gt, resident)
  }

  function EnterTrace(c: Context, x: Operands, gt: Word, resident: bool): seq<RegWrite>
    requires c.Ok() && x.Ok()
  {
    match PhaseOne(c, gt, resident)
    case Loaded(cap) =>
      [Cr(6, cap), Cr(14, Second(cap))] + TraceAfter(c, cap, x, Publication(c.m, Second(cap), x.imm))
    case _ => []
  }

  function TraceAfter(c: Context, cap: Cap, x: Operands, r: Result): seq<RegWrite>
    requires c.Ok() && x.Ok() && (r.Entered? ==> HdrCw(r.header) > 0)
  {
    if !r.Entered? then []
    else
      [Cr(14, CallCode(r.cap, r.header)), Cr(6, CallClist(cap, r.cap.location, r.header)), Clean(x.mask)]
        + if Room(c.m, c.cr[5], c.cr[12], x).Accept? then [SetNia(EntryAddress(r))] else []
  }

  /** The stack stores of one push. */
  function PushStores(p: Push, x: Operands, egt: Word): seq<Store>
    requires x.Ok() && InStack(p, x)
  {
    var at := x.threadBase / 4;
    [Store(at + p.sto - 1, egt), Store(at + p.sto, Frame(p.sto, p.sz, p.pc, x.flags)),
     Store(at + STO_OFFSET, Frame(p.sto - 2, true, 0, x.flags))]
  }

  /** An entered CALL stored exactly the three words of one frame. */
  ghost predicate PushesOneFrame(c: Context, x: Operands, r: Result, before: seq<Store>, after: seq<Store>)
    requires c.Ok() && x.Ok() && r.Entered?
  {
    var room := Room(c.m, c.cr[5], c.cr[12], x);
    && room.Accept? && InStack(room.value, x)
    && after == before + PushStores(room.value, x, Companion(c, x, r))
  }

  class ChurchCall {
    const mload: M.ChurchMLoad

    ghost predicate Valid() {
      mload.Valid()
    }

    constructor (mload: M.ChurchMLoad)
      requires mload.Valid()
      ensures Valid() && this.mload == mload
    {
      this.mload := mload;
    }

    ghost function View(): (c: Context)
      requires Valid()
      reads mload.regs, mload.regs.cr, mload.thread, mload.table, mload.mem.cells
      ensures c.Ok()
    {
      Context(mload.mem.cells[..], mload.regs.cr[..], mload.thread[..], mload.table[..], mload.regs.nia)
    }

    /** Both mLoad phases: the token into CR6, then the token read back from CR6 into CR14. */
    method Resolve(gt: Word) returns (r: M.Outcome)
      requires Valid()
      modifies mload.regs.cr, mload.regs`log, mload.thread, mload.table
      ensures match PhaseOne(old(View()), gt, mload.resident)
        case Loaded(cap) =>
          && r.Loaded? && r.cap == Second(cap) && View() == LoadedContext(old(View()), cap)
          && mload.regs.log == old(mload.regs.log) + [Cr(6, cap), Cr(14, Second(cap))]
        case o => r == o && r.Faulted? && View() == old(View()) && mload.regs.log == old(mload.regs.log)
    {
      ghost var c := View();
      ghost var before := mload.regs.log;
      r := mload.Load(Phase(gt, 6));
      if r.Loaded? {
        PhaseTwo(gt, c.cr[15], c.table[GtSlot(gt)], mload.resident);
        ghost var cap := r.cap;
        r := mload.Load(Phase(mload.regs.cr[6].gt, 14));
        SameSlotTwice(c.table, GtSlot(gt));
        assert mload.regs.log == before + [Cr(6, cap)] + [Cr(14, Second(cap))];
      }
    }

    /** FETCH_LUMP to CLEAR_B: publishes both windows and cleans up, or does nothing. */
    method Publish(x: Operands) returns (r: Result)
      requires Valid() && x.Ok()
      modifies mload.regs.cr, mload.regs`log
      ensures r == Publication(old(View()).m, old(mload.regs.cr[14]), x.imm)
      ensures !r.Entered? ==> View() == old(View()) && mload.regs.log == old(mload.regs.log)
      ensures r.Entered? ==> HdrCw(r.header) > 0 && View() == PublishedContext(old(View()), r, x.mask)
      ensures r.Entered? ==>
        var clist := CallClist(old(mload.regs.cr[6]), r.cap.location, r.header);
        mload.regs.log == old(mload.regs.log) + [Cr(14, CallCode(r.cap, r.header)), Cr(6, clist), Clean(x.mask)]
    {
      var cap, m := mload.regs.cr[14], mload.mem.cells[..];
      var h := mload.mem.Read(cap.location);
      if !CallHeaderOk(h, cap.authority) {
        return Faulted(F_BOUNDS);
      }
      if HdrCw(h) == 0 {
        return LazyLoad(GtSlot(cap.gt));
      }
      var entry := Method(m, cap.location, h, x.imm);
      if entry.Deny? {
        return Faulted(entry.code);
      }
      r := Entered(cap, h, entry.value);
      ghost var before := mload.regs.log;
      var clist := CallClist(mload.regs.cr[6], cap.location, h);
      mload.regs.WriteCr(14, CallCode(cap, h));
      mload.regs.WriteCr(6, clist);
      mload.regs.CleanUp(x.mask);
      assert mload.regs.log == before + [Cr(14, CallCode(cap, h))] + [Cr(6, clist)] + [Clean(x.mask)];
    }

    /** STACK_WRITE_EGT, STACK_WRITE_FRAME and STACK_WRITE_SP. */
    method PushStack(p: Push, x: Operands, egt: Word)
      requires Valid() && x.Ok() && InStack(p, x)
      modifies mload.mem.cells, mload.mem`log
      ensures mload.mem.cells[..]
           == PushCall(old(mload.mem.cells[..]), x.threadBase / 4, p.sto, p.sz, p.pc, x.flags, egt)
      ensures mload.mem.log == old(mload.mem.log) + PushStores(p, x, egt)
    {
      var mem := mload.mem;
      ghost var before := mem.log;
      WordOffset(x.threadBase, p.sto - 1);
      WordOffset(x.threadBase, p.sto);
      WordOffset(x.threadBase, STO_OFFSET);
      mem.Write((x.threadBase + (p.sto - 1) * 4) % 0x1_0000_0000, egt);
      mem.Write((x.threadBase + p.sto * 4) % 0x1_0000_0000, Frame(p.sto, p.sz, p.pc, x.flags));
      mem.Write((x.threadBase + STO_OFFSET * 4) % 0x1_0000_0000, Frame(p.sto - 2, true, 0, x.flags));
      assert mem.log == before + PushStores(p, x, egt);
    }

    /** CHECK_CR5_CR12 to COMPLETE: the frame and the jump, or a fault that writes nothing more. */
    method Finish(entered: Result, x: Operands, room: Checked<Push>, egt: Word) returns (r: Result)
      requires Valid() && x.Ok() && entered.Entered? && (room.Accept? ==> InStack(room.value, x))
      modifies mload.regs`log, mload.regs`nia, mload.mem.cells, mload.mem`log
      ensures room.Deny? ==>
        && r == Faulted(room.code) && View() == old(View())
        && mload.regs.log == old(mload.regs.log) && mload.mem.log == old(mload.mem.log)
      ensures room.Accept? ==>
        var p := room.value;
        && r == entered && mload.regs.log == old(mload.regs.log) + [SetNia(EntryAddress(r))]
        && View() == old(View()).(nia := EntryAddress(r),
             m := PushCall(old(View()).m, x.threadBase / 4, p.sto, p.sz, p.pc, x.flags, egt))
        && mload.mem.log == old(mload.mem.log) + PushStores(p, x, egt)
    {
      if room.Deny? {
        return Faulted(room.code);
      }
      PushStack(room.value, x, egt);
      r := entered;
      mload.regs.WriteNia(EntryAddress(r));
    }

    /** PHASE1 to COMPLETE. */
    method EnterToken(x: Operands, gt: Word) returns (r: Result)
      requires Valid() && x.Ok()
      modifies mload.regs.cr, mload.regs`log, mload.regs`nia, mload.thread, mload.table
      modifies mload.mem.cells, mload.mem`log
      ensures (r, View()) == Enter(old(View()), x, gt, mload.resident)
      ensures mload.regs.log == old(mload.regs.log) + EnterTrace(old(View()), x, gt, mload.resident)
      ensures !r.Entered? ==> mload.mem.log == old(mload.mem.log)
      ensures r.Entered? ==> PushesOneFrame(old(View()), x, r, old(mload.mem.log), mload.mem.log)
    {
      hide M.ResolveToken, CallHeaderOk, Cleaned, CallCode, CallClist, Method, InStack, EGt, M.Touch, ClearBound, Room;
      var cr5, cr12, callerEgt := mload.regs.cr[5], mload.regs.cr[12], EGt(mload.regs.cr[6].gt);
      var m := mload.mem.cells[..];
      RoomFits(m, cr5, cr12, x);
      var resolved := Resolve(gt);
      if resolved.Faulted? {
        return Faulted(resolved.fault);
      }
      r := Publish(x);
      if r.Entered? {
        r := Finish(r, x, Room(m, cr5, cr12, x), if x.root then r.cap.gt else callerEgt);
      }
    }

    /** One CALL, exactly: its result, every register, table, Thread copy and memory word, the
        register writes it asserts and the stores it makes. */
    method Run(x: Operands) returns (r: Result)
      requires Valid() && x.Ok()
      modifies mload.regs.cr, mload.regs`log, mload.regs`nia, mload.thread, mload.table
      modifies mload.mem.cells, mload.mem`log
      ensures (r, View()) == Execute(old(View()), x, mload.resident)
      ensures mload.regs.log == old(mload.regs.log) + Trace(old(View()), x, mload.resident)
      ensures !r.Entered? ==> mload.mem.log == old(mload.mem.log)
      ensures r.Entered? ==> PushesOneFrame(old(View()), x, r, old(mload.mem.log), mload.mem.log)
    {
      var source := Source(mload.mem.cells[..], mload.regs.cr[..], x);
      if source.Deny? {
        return Faulted(source.code);
      }
      if GtType(source.value) == GT_ABSTRACT {
        return Dispatched(source.value);
      }
      var enterable := Enterable(source.value);
      if enterable.Deny? {
        return Faulted(enterable.code);
      }
      r := EnterToken(x, source.value);
    }
  }

  /** The second phase resolves like the first, on an entry whose G bit the first cleared. */
  lemma PhaseTwo(gt: Word, ns: Cap, e: Entry, resident: bool)
    requires M.ResolveToken(Phase(gt, 6), gt, ns, e, resident).Loaded?
    ensures var r := M.ResolveToken(Phase(gt, 6), gt, ns, e, resident);
      && r.cap.gt == gt
      && M.ResolveToken(Phase(gt, 14), gt, ns, M.Touch(e), resident) == M.Loaded(Second(r.cap))
  {
    M.TouchKeepsSeal(e, gt, !resident);
    SeqIsSealed(e.authority, ClearG(e.authority));
  }

  lemma SameSlotTwice(t: seq<Entry>, slot: nat)
    requires |t| == M.SLOTS && slot < M.SLOTS
    ensures var u := t[slot := M.Touch(t[slot])]; u[slot := M.Touch(u[slot])] == u
  {
  }
}
