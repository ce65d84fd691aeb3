/** Activation of the admitted boot Thread: every token resolved and every word buffered before
    the first register is written. */
module BootActivation {
  import opened Bits
  import opened BootProofs
  import opened BootValidation
  import opened Change
  import opened ChangeProofs
  import opened Checks
  import opened Fields
  import opened Integrity
  import opened Memory
  import opened NsGate
  import opened Registers
  import opened Thread
  import M = MLoad

  /** The descriptor a resident token names in the boot namespace, at address zero. */
  function ResidentCap(m: seq<Word>, gt: Word): Checked<Cap> {
    var e := EntryAt(m, GtSlot(gt) * 16);
    :- Require(GtSeq(gt) == AuthSeq(e.authority), F_VERSION);
    :- Require(SealOk(e), F_SEAL);
    :- Require(!AuthF(e.authority), F_BOUNDS);
    if e.location < M.RESIDENT_WORDS then
      :- Require(e.location + AuthLimit(e.authority) < M.RESIDENT_WORDS, F_BOUNDS);
      Accept(Cap(gt, e.location * 4, e.authority))
    else
      :- Require(e.location / 0x4000_0000 == 1 || e.location == M.M_BIT_PORT, F_BOUNDS);
      Accept(Cap(gt, e.location, e.authority))
  }

  /** A null token loses even its payload; a remote one is refused; an abstract one stays opaque. */
  function BootHome(m: seq<Word>, slots: nat, gt: Word): Checked<Cap> {
    if GtType(gt) == GT_NULL then Accept(NULL_CAP_REG)
    else if GtType(gt) == GT_OUTFORM then Deny(F_OUTFORM_UNAUTH)
    else if GtType(gt) == GT_ABSTRACT then Accept(Cap(gt, 0, 0))
    else
      :- Require(0 < GtSlot(gt) < slots, F_BOUNDS);
      ResidentCap(m, gt)
  }

  predicate Bootable(a: Admission) {
    a.baseWord < M.RESIDENT_WORDS && ThreadHeader(a.header)
  }

  function BootHomeRow(m: seq<Word>, slots: nat, a: Admission, k: nat): Checked<Cap>
    requires a.baseWord < M.RESIDENT_WORDS && k < CAP_WORDS
  {
    var gt := BodyWordAt(m, a.baseWord, Caps(a.header) + k);
    :- Require(!a.resume && k == 0 ==> gt == a.entryGt, F_STACK_CORRUPT);
    BootHome(m, slots, gt)
  }

  function BootHomes(m: seq<Word>, slots: nat, a: Admission, n: nat): (r: Checked<seq<Cap>>)
    requires a.baseWord < M.RESIDENT_WORDS && n <= CAP_WORDS
    ensures r.Accept? ==> |r.value| == n
  {
    if n == 0 then Accept([])
    else
      var before :- BootHomes(m, slots, a, n - 1);
      var home :- BootHomeRow(m, slots, a, n - 1);
      Accept(before + [home])
  }

  /** Data registers 1 to 15; register 0 is not restored. */
  function BootDrs(m: seq<Word>, a: Admission, dr0: Word): (r: seq<Word>)
    requires Bootable(a)
    ensures |r| == DR_WORDS
  {
    [dr0] + seq(DR_WORDS - 1, k requires 0 <= k < DR_WORDS - 1 => BodyWordAt(m, a.baseWord, k + 2))
  }

  function ThreadToken(version: nat): Word
    requires version < 0x200
  {
    0x200_0000 + 2 + version * 0x1_0000
  }

  function BootHeap(a: Admission, version: nat): Cap
    requires Bootable(a) && version < 0x200
  {
    Cap(0x3000_0000 + ThreadToken(version), (a.baseWord + HEAP_OFFSET) * 4,
        Limit(BodyWords(a.header) - HdrCw(a.header) - 31, version))
  }

  function BootThreadCap(a: Admission, version: nat): Cap
    requires Bootable(a) && version < 0x200
  {
    Cap(ThreadToken(version), a.baseWord * 4, a.authority)
  }

  function ActivatedRegs(regs: seq<Cap>, homes: seq<Cap>, a: Admission, version: nat): (r: seq<Cap>)
    requires |regs| == 16 && |homes| == CAP_WORDS && Bootable(a) && version < 0x200
    ensures |r| == 16
  {
    (homes + [BootThreadCap(a, version)] + regs[13..])[5 := BootHeap(a, version)]
  }

  // ---- the register writes of the commit

  const BOOT_WRITES := 30

  /** Homes, CR12, CR5, data registers 1 to 15, flags. */
  function BootWriteAt(homes: seq<Cap>, drs: seq<Word>, a: Admission, version: nat, j: nat): (w: RegWrite)
    requires |homes| == CAP_WORDS && |drs| == DR_WORDS && Bootable(a) && version < 0x200 && j < BOOT_WRITES
    ensures (w.Cr? || w.Dr? ==> w.k < 16) && !w.Clean? && !w.SetNia?
  {
    if j < 12 then Cr(j, homes[j])
    else if j == 12 then Cr(12, BootThreadCap(a, version))
    else if j == 13 then Cr(5, BootHeap(a, version))
    else if j < 29 then Dr(j - 13, drs[j - 13])
    else SetFlags(Flags(a.indicator))
  }

  function BootWrites(homes: seq<Cap>, drs: seq<Word>, a: Admission, version: nat, n: nat): (s: seq<RegWrite>)
    requires |homes| == CAP_WORDS && |drs| == DR_WORDS && Bootable(a) && version < 0x200 && n <= BOOT_WRITES
    ensures |s| == n
  {
    seq(n, j requires 0 <= j < n => BootWriteAt(homes, drs, a, version, j))
  }

  /** Capability registers after the first `n` writes. */
  function BootCr(regs: seq<Cap>, homes: seq<Cap>, a: Admission, version: nat, n: nat): (r: seq<Cap>)
    requires |regs| == 16 && |homes| == CAP_WORDS && Bootable(a) && version < 0x200
    ensures |r| == 16
  {
    if n <= 12 then homes[..n] + regs[n..]
    else if n == 13 then (homes + regs[12..])[12 := BootThreadCap(a, version)]
    else (homes + regs[12..])[12 := BootThreadCap(a, version)][5 := BootHeap(a, version)]
  }

  function BootDr(was: seq<Word>, drs: seq<Word>, n: nat): (r: seq<Word>)
    requires |was| == 16 && |drs| == 16
    ensures |r| == 16
  {
    if n <= 14 then [was[0]] + was[1..]
    else if n < 29 then [was[0]] + drs[1..n - 13] + was[n - 13..]
    else [was[0]] + drs[1..]
  }

  lemma BootWriteGrows(regs: seq<Cap>, was: seq<Word>, homes: seq<Cap>, drs: seq<Word>, a: Admission, version: nat,
                       n: nat)
    requires |regs| == 16 && |was| == 16 && |homes| == CAP_WORDS && |drs| == DR_WORDS && Bootable(a) && version < 0x200
    requires n < BOOT_WRITES
    ensures var w := BootWriteAt(homes, drs, a, version, n);
      && BootWrites(homes, drs, a, version, n + 1) == BootWrites(homes, drs, a, version, n) + [w]
      && BootCr(regs, homes, a, version, n + 1)
         == (if w.Cr? then BootCr(regs, homes, a, version, n)[w.k := w.cap] else BootCr(regs, homes, a, version, n))
      && BootDr(was, drs, n + 1) == (if w.Dr? then BootDr(was, drs, n)[w.k := w.data] else BootDr(was, drs, n))
      && (w.SetFlags? <==> n == 29)
  {
    hide BootHeap, BootThreadCap, Flags, Bootable;
    if n < 12 {
      assert homes[..n + 1] + regs[n + 1..] == (homes[..n] + regs[n..])[n := homes[n]];
    } else if n == 12 {
      assert homes[..12] + regs[12..] == homes + regs[12..];
    }
  }

  lemma AllBooted(regs: seq<Cap>, was: seq<Word>, homes: seq<Cap>, m: seq<Word>, a: Admission, version: nat)
    requires |regs| == 16 && |was| == 16 && |homes| == CAP_WORDS && Bootable(a) && version < 0x200
    ensures BootCr(regs, homes, a, version, BOOT_WRITES) == ActivatedRegs(regs, homes, a, version)
    ensures BootDr(was, BootDrs(m, a, was[0]), BOOT_WRITES) == BootDrs(m, a, was[0])
    ensures BootCr(regs, homes, a, version, 0) == regs && BootDr(was, BootDrs(m, a, was[0]), 0) == was
  {
    hide BootHeap, BootThreadCap, BodyWordAt;
  }

  // ---- the unit

  datatype BootState =
    | BOOT_IDLE | HOME | KIND | DESCRIPTOR | CHECK | NEXT | DR
    | COMMIT_CAPS | COMMIT_THREAD | COMMIT_HEAP | COMMIT_DR | FLAGS | BOOT_DONE | BOOT_FAULT

  /** What memory does in one clock: whether it answers, and what else is on the bus. */
  datatype Clock = Clock(valid: bool, noise: Word)

  class BootThreadActivation {
    const mem: Dmem
    const regs: RegFile
    const version: nat
    var a: Admission
    var slots: nat
    var state: BootState
    var row: nat
    var armed: bool
    var gt: Word
    var descriptor: seq<Word>
    var caps: seq<Cap>
    var drs: seq<Word>
    var code: int
    /** The registers as the start found them. */
    ghost var cr0: seq<Cap>
    ghost var dr0: seq<Word>
    ghost var flags0: nat
    ghost var written: seq<RegWrite>

    ghost predicate Shape()
      reads this, regs
    {
      && mem.cells.Length == ADDRESS_SPACE && regs.Valid() && regs.dr != mem.cells && version < 0x200
      && Bootable(a) && |cr0| == 16 && |dr0| == 16
    }

    ghost predicate Quiet()
      requires Shape()
      reads this, regs, regs.cr, regs.dr
    {
      regs.cr[..] == cr0 && regs.dr[..] == dr0 && regs.flags == flags0 && regs.log == written
    }

    constructor (mem: Dmem, regs: RegFile, version: nat)
      requires mem.cells.Length == ADDRESS_SPACE && regs.Valid() && regs.dr != mem.cells && version < 0x200
      ensures this.mem == mem && this.regs == regs && this.version == version && state.BOOT_IDLE?
    {
      this.mem, this.regs, this.version, state := mem, regs, version, BOOT_IDLE;
      a, slots, row, armed, gt := Admission(0, 0, 0, 0, 0, false), 0, 0, false, 0;
      descriptor, caps, drs, code := [], [], [], 0;
      cr0, dr0, flags0, written := [], [], 0, [];
    }

    predicate Admitting()
      reads this
    {
      state in {HOME, KIND, DESCRIPTOR, CHECK, NEXT, DR}
    }

    predicate Reading()
      reads this
    {
      state in {HOME, DESCRIPTOR, DR}
    }

    function Address(): Word
      requires a.baseWord < M.RESIDENT_WORDS && Caps(a.header) + row >= 0
      reads this
    {
      if state.HOME? then (a.baseWord + (Caps(a.header) + row)) * 4 % 0x1_0000_0000
      else if state.DR? then (a.baseWord + (1 + row)) * 4 % 0x1_0000_0000
      else Plus(GtSlot(gt) * 16, |descriptor| * 4)
    }

    ghost function Token(): Word
      requires a.baseWord < M.RESIDENT_WORDS && Caps(a.header) + row >= 0
      reads this, mem.cells
    {
      BodyWordAt(mem.cells[..], a.baseWord, Caps(a.header) + row)
    }

    ghost function Homes(n: nat): Checked<seq<Cap>>
      requires a.baseWord < M.RESIDENT_WORDS && n <= CAP_WORDS
      reads this, mem.cells
    {
      BootHomes(mem.cells[..], slots, a, n)
    }

    ghost predicate AtRow()
      requires Shape()
      reads this, regs, mem.cells
    {
      row < CAP_WORDS && Homes(row) == Accept(caps)
    }

    ghost predicate AtToken()
      requires Shape()
      reads this, regs, mem.cells
    {
      AtRow() && gt == Token() && (!a.resume && row == 0 ==> gt == a.entryGt)
    }

    ghost predicate AtDescriptor()
      requires Shape()
      reads this, regs, mem.cells
    {
      AtToken() && GtType(gt) == GT_INFORM && 0 < GtSlot(gt) < slots && Described()
    }

    /** What each state has found out, and in FAULT that the whole admission fails. */
    ghost predicate Found()
      requires Shape()
      reads this, regs, mem.cells
    {
      if state.HOME? then AtRow()
      else if state.KIND? then AtToken()
      else if state.DESCRIPTOR? then AtDescriptor() && |descriptor| < 3
      else if state.CHECK? then AtDescriptor() && |descriptor| == 3
      else if state.NEXT? then row < CAP_WORDS && Homes(row + 1) == Accept(caps)
      else if state.DR? then
        1 <= row < DR_WORDS && |drs| == row - 1 && Buffered() && Homes(CAP_WORDS) == Accept(caps)
      else if state.BOOT_FAULT? then Homes(CAP_WORDS) == Deny(code)
      else true
    }

    ghost predicate Described()
      reads this, mem.cells
    {
      && |descriptor| <= 3
      && forall k :: 0 <= k < |descriptor| ==> descriptor[k] == ReadAt(mem.cells[..], Plus(GtSlot(gt) * 16, k * 4))
    }

    ghost predicate Buffered()
      requires a.baseWord < M.RESIDENT_WORDS
      reads this, mem.cells
    {
      forall k :: 0 <= k < |drs| ==> drs[k] == BodyWordAt(mem.cells[..], a.baseWord, k + 2)
    }

    /** Unstalled clocks to the commit, counted from above. */
    ghost function Rank(): nat
      reads this
    {
      var rows := if row < CAP_WORDS then 40 + (CAP_WORDS - 1 - row) * 10 else 40;
      match state
      case HOME => rows + 9
      case KIND => rows + 8
      case DESCRIPTOR => rows + (if |descriptor| < 3 then 7 - |descriptor| else 4)
      case CHECK => rows + 4
      case NEXT => rows + 3
      case DR => if row < DR_WORDS then 20 + DR_WORDS - row else 20
      case _ => 0
    }

    method Start(a: Admission, slots: nat)
      requires mem.cells.Length == ADDRESS_SPACE && regs.Valid() && regs.dr != mem.cells && version < 0x200
      requires Bootable(a)
      modifies this
      ensures Shape() && Found() && Quiet() && state.HOME? && this.a == a && this.slots == slots
      ensures cr0 == regs.cr[..] && dr0 == regs.dr[..] && flags0 == regs.flags && written == regs.log
    {
      hide Found;
      this.a, this.slots, row, armed, caps, drs, state := a, slots, 0, false, [], [], HOME;
      cr0, dr0, flags0, written := regs.cr[..], regs.dr[..], regs.flags, regs.log;
      NothingFound();
    }

    lemma NothingFound()
      requires Shape() && state.HOME? && row == 0 && caps == []
      ensures Found()
    {
      hide BodyWordAt, ReadAt, BootHomeRow, Described, Buffered, Plus;
    }

    method Fail(code: int)
      requires Shape() && row < CAP_WORDS && Homes(row + 1) == Deny(code)
      modifies this`state, this`code
      ensures Found() && state.BOOT_FAULT? && Homes(CAP_WORDS) == Deny(code)
    {
      BootHomesStop(mem.cells[..], slots, a, row + 1, CAP_WORDS);
      state, this.code := BOOT_FAULT, code;
    }

    /** A home resolved. */
    method Keep(cap: Cap)
      requires Shape() && Found() && (state.KIND? || state.CHECK?)
      requires BootHomeRow(mem.cells[..], slots, a, row) == Accept(cap)
      modifies this`state, this`caps
      ensures Found() && state.NEXT?
    {
      hide BootHomeRow, BootHome;
      caps, state := caps + [cap], NEXT;
    }

    method HomeClock(data: Word)
      requires Shape() && Found() && state.HOME? && data == ReadAt(mem.cells[..], Address())
      modifies this`state, this`code, this`gt, this`armed
      ensures Found() && (state.KIND? || state.BOOT_FAULT?) && Rank() < old(Rank())
    {
      armed, gt := false, data;
      if !a.resume && row == 0 && data != a.entryGt {
        Fail(F_STACK_CORRUPT);
      } else {
        state := KIND;
      }
    }

    method KindClock()
      requires Shape() && Found() && state.KIND?
      modifies this`state, this`code, this`caps, this`descriptor
      ensures Found() && state in {DESCRIPTOR, NEXT, BOOT_FAULT} && Rank() < old(Rank())
    {
      hide ResidentCap;
      if GtType(gt) == GT_NULL {
        Keep(NULL_CAP_REG);
      } else if GtType(gt) == GT_OUTFORM {
        Fail(F_OUTFORM_UNAUTH);
      } else if GtType(gt) == GT_ABSTRACT {
        Keep(Cap(gt, 0, 0));
      } else if GtSlot(gt) == 0 || GtSlot(gt) >= slots {
        Fail(F_BOUNDS);
      } else {
        KindIsInform(gt);
        descriptor, state := [], DESCRIPTOR;
      }
    }

    method DescriptorClock(data: Word)
      requires Shape() && Found() && state.DESCRIPTOR? && data == ReadAt(mem.cells[..], Address())
      modifies this`state, this`descriptor, this`armed
      ensures Found() && (state.DESCRIPTOR? || state.CHECK?) && Rank() < old(Rank())
    {
      hide BootHomes, BodyWordAt, ReadAt, Plus;
      armed, descriptor := false, descriptor + [data];
      if |descriptor| == 3 {
        state := CHECK;
      }
    }

    method CheckClock()
      requires Shape() && Found() && state.CHECK?
      modifies this`state, this`code, this`caps
      ensures Found() && (state.NEXT? || state.BOOT_FAULT?) && Rank() < old(Rank())
    {
      hide BootHomes, BootHomeRow, BootHome, BodyWordAt, Described, Integrity32, GtSeq, AuthSeq, AuthF, AuthLimit;
      RowDecides();
      var location, authority := descriptor[0], descriptor[1];
      DescribedEntry();
      if GtSeq(gt) != AuthSeq(authority) {
        Fail(F_VERSION);
      } else if Integrity32(location, authority) != descriptor[2] {
        Fail(F_SEAL);
      } else if AuthF(authority) {
        Fail(F_BOUNDS);
      } else if location < M.RESIDENT_WORDS {
        if location + AuthLimit(authority) >= M.RESIDENT_WORDS {
          Fail(F_BOUNDS);
        } else {
          Keep(Cap(gt, location * 4, authority));
        }
      } else if location / 0x4000_0000 == 1 || location == M.M_BIT_PORT {
        Keep(Cap(gt, location, authority));
      } else {
        Fail(F_BOUNDS);
      }
    }

    lemma RowDecides()
      requires Shape() && Found() && state.CHECK?
      ensures var r := ResidentCap(mem.cells[..], gt);
        && BootHomeRow(mem.cells[..], slots, a, row) == r && (r.Deny? ==> Homes(row + 1) == Deny(r.code))
    {
      hide ResidentCap, BodyWordAt, Described;
    }

    lemma DescribedEntry()
      requires Shape() && Described() && |descriptor| == 3
      ensures var e := EntryAt(mem.cells[..], GtSlot(gt) * 16);
        e.location == descriptor[0] && e.authority == descriptor[1] && e.integrity == descriptor[2]
    {
    }

    method NextClock()
      requires Shape() && Found() && state.NEXT?
      modifies this`state, this`row, this`drs
      ensures Found() && (state.HOME? || state.DR?) && Rank() < old(Rank())
    {
      hide BootHomes, BodyWordAt;
      if row == CAP_WORDS - 1 {
        row, drs, state := 1, [], DR;
      } else {
        row, state := row + 1, HOME;
      }
    }

    method DrClock(data: Word)
      requires Shape() && Found() && state.DR? && data == ReadAt(mem.cells[..], Address())
      modifies this`state, this`row, this`drs, this`armed
      ensures state.DR? ==> Found()
      ensures state.DR? || (state.COMMIT_CAPS? && row == 0 && |drs| == DR_WORDS - 1 && Buffered())
      ensures Rank() < old(Rank())
    {
      hide BootHomes;
      armed, drs := false, drs + [data];
      if row == DR_WORDS - 1 {
        row, state := 0, COMMIT_CAPS;
      } else {
        row := row + 1;
      }
    }

    /** One clock of the admission; a valid word answers the read that is armed. */
    method AdmitStep(valid: bool, data: Word)
      requires Shape() && Found() && Quiet() && Admitting()
      requires Reading() && armed && valid ==> data == ReadAt(mem.cells[..], Address())
      modifies this`state, this`row, this`armed, this`gt, this`descriptor, this`caps, this`drs, this`code
      ensures Shape() && Quiet() && (Admitting() || state.BOOT_FAULT? ==> Found())
      ensures Admitting() || state.BOOT_FAULT? || Buffering()
      ensures Rank() < old(Rank()) || (Rank() == old(Rank()) && Reading() && armed)
      ensures valid ==> Rank() < old(Rank()) || (Rank() == old(Rank()) && old(!armed))
    {
      hide Found, Buffered, BodyWordAt, ReadAt;
      ghost var before := armed;
      if Reading() && !(armed && valid) {
        Arm();
      } else if state.HOME? {
        HomeClock(data);
      } else if state.KIND? {
        KindClock();
      } else if state.DESCRIPTOR? {
        DescriptorClock(data);
      } else if state.CHECK? {
        CheckClock();
      } else if state.NEXT? {
        NextClock();
      } else {
        DrHasHomes();
        DrClock(data);
      }
    }

    method Arm()
      requires Shape() && Found() && Reading()
      modifies this`armed
      ensures Found() && armed && Rank() == old(Rank())
    {
      armed := true;
    }

    lemma DrHasHomes()
      requires Shape() && Found() && state.DR?
      ensures Homes(CAP_WORDS) == Accept(caps)
    {
    }

    /** Everything resolved and buffered, nothing written. */
    ghost predicate Buffering()
      requires Shape()
      reads this, regs, mem.cells
    {
      state.COMMIT_CAPS? && row == 0 && |drs| == DR_WORDS - 1 && Buffered() && Homes(CAP_WORDS) == Accept(caps)
    }

    // ---- the commit

    ghost function Values(): (r: seq<Word>)
      requires Shape()
      reads this, regs, mem.cells
      ensures |r| == DR_WORDS
    {
      BootDrs(mem.cells[..], a, dr0[0])
    }

    ghost function Done(): nat
      reads this
    {
      match state
      case COMMIT_CAPS => if row < CAP_WORDS then row else 0
      case COMMIT_THREAD => 12
      case COMMIT_HEAP => 13
      case COMMIT_DR => if row < DR_WORDS then 13 + row else 0
      case FLAGS => 29
      case _ => BOOT_WRITES
    }

    /** The writes so far are the first of the list. */
    ghost predicate Writing()
      requires Shape()
      reads this, regs, regs.cr, regs.dr, mem.cells
    {
      && state in {COMMIT_CAPS, COMMIT_THREAD, COMMIT_HEAP, COMMIT_DR, FLAGS, BOOT_DONE}
      && (state.COMMIT_CAPS? ==> row < CAP_WORDS) && (state.COMMIT_DR? ==> 1 <= row < DR_WORDS)
      && Homes(CAP_WORDS) == Accept(caps) && |drs| == DR_WORDS - 1 && Buffered()
      && WrittenUpTo(Done())
    }

    ghost predicate WrittenUpTo(n: nat)
      requires Shape() && |caps| == CAP_WORDS && n <= BOOT_WRITES
      reads this, regs, regs.cr, regs.dr, mem.cells
    {
      && regs.cr[..] == BootCr(cr0, caps, a, version, n) && regs.dr[..] == BootDr(dr0, Values(), n)
      && regs.log == written + BootWrites(caps, Values(), a, version, n)
      && regs.flags == (if n == BOOT_WRITES then Flags(a.indicator) else flags0)
    }

    method Write(w: RegWrite, ghost n: nat)
      requires Shape() && |caps| == CAP_WORDS && n < BOOT_WRITES && WrittenUpTo(n)
      requires w == BootWriteAt(caps, Values(), a, version, n)
      modifies regs.cr, regs.dr, regs`flags, regs`log
      ensures Shape() && WrittenUpTo(n + 1)
    {
      hide BootCr, BootDr, BootWrites, BootWriteAt, BootDrs, Flags, Bootable;
      BootWriteGrows(cr0, dr0, caps, Values(), a, version, n);
      FlagsWritten(caps, Values(), a, version, n);
      match w
      case Cr(k, cap) => regs.WriteCr(k, cap);
      case Dr(k, data) => regs.WriteDr(k, data);
      case SetFlags(flags) => regs.WriteFlags(flags);
    }

    lemma ValueAt(k: nat)
      requires Shape() && |drs| == DR_WORDS - 1 && Buffered() && 1 <= k < DR_WORDS
      ensures Values()[k] == drs[k - 1]
    {
      hide BodyWordAt;
    }

    /** The register write of a commit state. */
    method WriteNext()
      requires Shape() && Writing() && !state.BOOT_DONE?
      modifies regs.cr, regs.dr, regs`flags, regs`log
      ensures Shape() && WrittenUpTo(Done() + 1)
    {
      hide WrittenUpTo, BootHomes, Bootable, Buffered;
      if state.COMMIT_CAPS? {
        Write(Cr(row, caps[row]), row);
      } else if state.COMMIT_THREAD? {
        Write(Cr(12, BootThreadCap(a, version)), 12);
      } else if state.COMMIT_HEAP? {
        Write(Cr(5, BootHeap(a, version)), 13);
      } else if state.COMMIT_DR? {
        ValueAt(row);
        Write(Dr(row, drs[row - 1]), 13 + row);
      } else {
        Write(SetFlags(Flags(a.indicator)), 29);
      }
    }

    /** One clock of the commit; none can fail or stall. */
    method CommitStep()
      requires Shape() && Writing() && !state.BOOT_DONE?
      modifies this`state, this`row, regs.cr, regs.dr, regs`flags, regs`log
      ensures Shape() && Writing() && Done() == old(Done()) + 1
    {
      hide BootHomes, BodyWordAt, Bootable, BootCr, BootDr, BootWrites, BootDrs, Flags;
      WriteNext();
      if state.COMMIT_CAPS? {
        row, state := row + 1, if row == CAP_WORDS - 1 then COMMIT_THREAD else COMMIT_CAPS;
      } else if state.COMMIT_THREAD? {
        state := COMMIT_HEAP;
      } else if state.COMMIT_HEAP? {
        row, state := 1, COMMIT_DR;
      } else if state.COMMIT_DR? {
        row, state := row + 1, if row == DR_WORDS - 1 then FLAGS else COMMIT_DR;
      } else {
        state := BOOT_DONE;
      }
    }

    /** The whole admission.  The registers are not in the frame: no write is possible. */
    method Decide(clocks: seq<Clock>)
      requires Shape() && Found() && Quiet() && state.HOME?
      modifies this`state, this`row, this`armed, this`gt, this`descriptor, this`caps, this`drs, this`code
      ensures Shape() && Quiet() && (Buffering() || (state.BOOT_FAULT? && Homes(CAP_WORDS) == Deny(code)))
    {
      hide Found, Quiet, Homes, Buffering;
      var rest := clocks;
      while Admitting()
        invariant Shape() && Quiet() && (Admitting() || state.BOOT_FAULT? ==> Found())
        invariant Admitting() || state.BOOT_FAULT? || Buffering()
        decreases |rest|, Rank(), if armed then 0 else 1
      {
        var k := if rest == [] then Clock(true, 0) else rest[0];
        rest := if rest == [] then [] else rest[1..];
        AddressFits();
        var data := if k.valid && Reading() then ReadAt(mem.cells[..], Address()) else k.noise;
        AdmitStep(k.valid, data);
      }
      FaultFound();
    }

    lemma AddressFits()
      requires Shape() && (Admitting() || state.BOOT_FAULT? ==> Found())
      ensures a.baseWord < M.RESIDENT_WORDS && Caps(a.header) + row >= 0
    {
    }

    lemma FaultFound()
      requires Shape() && (state.BOOT_FAULT? ==> Found())
      ensures state.BOOT_FAULT? ==> Homes(CAP_WORDS) == Deny(code)
    {
    }

    /** One activation, against a memory that answers as it likes for any number of clocks and
        then without delay.  It always ends.  A fault comes before any write; an admitted
        Thread is written whole, by exactly the thirty writes of the list. */
    method Run(a: Admission, slots: nat, clocks: seq<Clock>) returns (r: Checked<seq<Cap>>)
      requires mem.cells.Length == ADDRESS_SPACE && regs.Valid() && regs.dr != mem.cells && version < 0x200
      requires Bootable(a)
      modifies this, regs.cr, regs.dr, regs`flags, regs`log
      ensures r == BootHomes(mem.cells[..], slots, a, CAP_WORDS)
      ensures r.Deny? ==>
        && regs.cr[..] == old(regs.cr[..]) && regs.dr[..] == old(regs.dr[..]) && regs.flags == old(regs.flags)
        && regs.log == old(regs.log)
      ensures r.Accept? ==>
        var values := BootDrs(mem.cells[..], a, old(regs.dr[0]));
        && regs.cr[..] == ActivatedRegs(old(regs.cr[..]), r.value, a, version)
        && regs.dr[..] == values && regs.flags == Flags(a.indicator)
        && regs.log == old(regs.log) + BootWrites(r.value, values, a, version, BOOT_WRITES)
    {
      hide Found, BootHomes, Buffered, BootDrs, BootCr, BootDr, BootWrites, ActivatedRegs;
      Start(a, slots);
      Decide(clocks);
      if state.BOOT_FAULT? {
        return Deny(code);
      }
      AllBooted(cr0, dr0, caps, mem.cells[..], a, version);
      while !state.BOOT_DONE?
        invariant Shape() && Writing() && this.a == a && this.slots == slots
        invariant cr0 == old(regs.cr[..]) && dr0 == old(regs.dr[..]) && written == old(regs.log)
        decreases BOOT_WRITES - Done()
      {
        CommitStep();
      }
      AllBooted(cr0, dr0, caps, mem.cells[..], a, version);
      r := Accept(caps);
    }
  }

  lemma FlagsWritten(homes: seq<Cap>, drs: seq<Word>, a: Admission, version: nat, n: nat)
    requires |homes| == CAP_WORDS && |drs| == DR_WORDS && Bootable(a) && version < 0x200 && n < BOOT_WRITES
    ensures n == 29 ==>
      BootWriteAt(homes, drs, a, version, n) == SetFlags(Flags(a.indicator)) && Flags(a.indicator) < 16
  {
    FrameBounds(a.indicator);
  }

  lemma KindIsInform(gt: Word)
    ensures GtType(gt) in {GT_NULL, GT_INFORM, GT_OUTFORM, GT_ABSTRACT}
  {
  }

  lemma {:induction false} BootHomesStop(m: seq<Word>, slots: nat, a: Admission, k: nat, n: nat)
    requires a.baseWord < M.RESIDENT_WORDS && k <= n <= CAP_WORDS && BootHomes(m, slots, a, k).Deny?
    ensures BootHomes(m, slots, a, n) == BootHomes(m, slots, a, k)
    decreases n
  {
    if k < n {
      BootHomesStop(m, slots, a, k, n - 1);
    }
  }

  lemma BootHomeToken(m: seq<Word>, slots: nat, gt: Word)
    requires BootHome(m, slots, gt).Accept?
    ensures BootHome(m, slots, gt).value.gt == if GtType(gt) == GT_NULL then 0 else gt
  {
  }

  lemma {:induction false} BootHomesTokens(m: seq<Word>, slots: nat, a: Admission, n: nat, k: nat)
    requires a.baseWord < M.RESIDENT_WORDS && k < n <= CAP_WORDS && BootHomes(m, slots, a, n).Accept?
    ensures var gt := BodyWordAt(m, a.baseWord, Caps(a.header) + k);
      BootHomes(m, slots, a, n).value[k].gt == if GtType(gt) == GT_NULL then 0 else gt
  {
    if k < n - 1 {
      BootHomesTokens(m, slots, a, n - 1, k);
    } else {
      BootHomeToken(m, slots, BodyWordAt(m, a.baseWord, Caps(a.header) + k));
    }
  }

  /** What a boot leaves of a token: a null one loses its payload. */
  function AfterBoot(gt: Word): Word {
    if GtType(gt) == GT_NULL then 0 else gt
  }

  lemma HomesReactivated(c: Core, out: Outgoing, n: seq<Word>, slots: nat, a: Admission, homes: seq<Cap>)
    requires c.Ok() && out.Suspend? && Bootable(a) && a.header == out.header && |n| == ADDRESS_SPACE
    requires Recorded(c, out, n, Cap(0, a.baseWord * 4, 0))
    requires BootHomes(n, slots, a, CAP_WORDS) == Accept(homes)
    ensures forall k :: 0 <= k < CAP_WORDS ==> homes[k].gt == AfterBoot(c.regs[k].gt)
  {
    forall k | 0 <= k < CAP_WORDS
      ensures homes[k].gt == AfterBoot(c.regs[k].gt)
    {
      HomeReadBack(c, out, n, a, k);
      BootHomesTokens(n, slots, a, CAP_WORDS, k);
    }
  }

  lemma HomeReadBack(c: Core, out: Outgoing, n: seq<Word>, a: Admission, k: nat)
    requires c.Ok() && out.Suspend? && Bootable(a) && a.header == out.header && |n| == ADDRESS_SPACE
    requires Recorded(c, out, n, Cap(0, a.baseWord * 4, 0)) && k < CAP_WORDS
    ensures BodyWordAt(n, a.baseWord, Caps(a.header) + k) == c.regs[k].gt
  {
    Geometry(a.header);
    BootWord(n, a.baseWord, Caps(a.header) + k);
  }

  lemma DrsReactivated(c: Core, out: Outgoing, n: seq<Word>, a: Admission, dr0: Word, k: nat)
    requires c.Ok() && out.Suspend? && Bootable(a) && a.header == out.header && |n| == ADDRESS_SPACE
    requires Recorded(c, out, n, Cap(0, a.baseWord * 4, 0)) && 1 <= k < DR_WORDS
    ensures BootDrs(n, a, dr0)[k] == c.drs[k]
  {
    BootWord(n, a.baseWord, k + 1);
  }

  /** Suspend with CHANGE, boot, resume: activation restores data registers 1 to 15, the flags
      and every token that was not null, from the body CHANGE wrote. */
  lemma BootRestoresSuspension(c: Core, out: Outgoing, n: seq<Word>, slots: nat, version: nat,
                               homes: seq<Cap>, dr0: Word, regs: seq<Cap>)
    requires c.Ok() && OutgoingFits(out) && out.Suspend? && AdmitOutgoing(c) == Accept(out) && |regs| == 16
    requires |n| == ADDRESS_SPACE && SameBody(Saved(c, out), n, out.base, BodyWords(out.header))
    requires Describes(n, slots, version, out.base, BodyWords(out.header)) && version < 0x200
    requires Validate(n, slots, version).Accept?
    requires BootHomes(n, slots, Validate(n, slots, version).value, CAP_WORDS) == Accept(homes)
    ensures var a := Validate(n, slots, version).value;
      && (forall k :: 1 <= k < DR_WORDS ==> BootDrs(n, a, dr0)[k] == c.drs[k]) && Flags(a.indicator) == c.flags
      && (forall k :: 0 <= k < CAP_WORDS && k != 5 ==>
            ActivatedRegs(regs, homes, a, version)[k].gt == AfterBoot(c.regs[k].gt))
  {
    var a := Validate(n, slots, version).value;
    SuspendedBoots(c, out, n, slots, version);
    SuspensionIsRecorded(c, out, n, Cap(0, a.baseWord * 4, 0));
    HomesReactivated(c, out, n, slots, a, homes);
    forall k | 1 <= k < DR_WORDS
      ensures BootDrs(n, a, dr0)[k] == c.drs[k]
    {
      DrsReactivated(c, out, n, a, dr0, k);
    }
    ActivatedTokens(regs, homes, a, version);
  }

  lemma ActivatedTokens(regs: seq<Cap>, homes: seq<Cap>, a: Admission, version: nat)
    requires |regs| == 16 && |homes| == CAP_WORDS && Bootable(a) && version < 0x200
    ensures forall k :: 0 <= k < CAP_WORDS && k != 5 ==> ActivatedRegs(regs, homes, a, version)[k] == homes[k]
  {
  }
}
