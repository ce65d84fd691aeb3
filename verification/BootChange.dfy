/** The boot half of CHANGE: it activates a Thread that has never run, and writes three
    registers once everything has been checked. */
module BootChange {
  import opened Bits
  import opened BootProofs
  import opened BootValidation
  import opened Change
  import opened ChangeProofs
  import opened Checks
  import opened Fields
  import opened Integrity
  import opened Memory
  import opened NsGate
  import opened Provenance
  import opened Registers
  import opened Thread
  import G = NsGate
  import M = MLoad

  /** A resident token: of the right kind, named in the namespace, and passed by the gate. */
  function BootResolve(m: seq<Word>, ns: Cap, gt: Word): Checked<Cap> {
    var e := EntryOf(m, ns, gt);
    :- Require(GtType(gt) == GT_INFORM, F_NULL_CAP);
    :- Require(GtSlot(gt) <= AuthLimit(ns.authority), F_BOUNDS);
    match Decide(e, gt, false)
    case Refuse(f) => Deny(f)
    case Pass =>
      :- Require(!AuthF(e.authority) && e.location % 4 == 0, F_BOUNDS);
      Accept(Cap(gt, e.location, e.authority))
  }

  function BootThread(m: seq<Word>, ns: Cap, gt: Word): Checked<Cap> {
    if GtType(gt) == GT_INFORM && !NoPerms(gt) then Deny(F_PERM_S) else BootResolve(m, ns, gt)
  }

  function BootHeader(m: seq<Word>, t: Cap): Checked<Word> {
    var h := BodyAt(m, t, 0);
    :- Require(ThreadHeader(h) && AuthLimit(t.authority) == BodyWords(h) - 1
               && t.location + (BodyWords(h) - 1) * 4 < 0x1_0000_0000, F_BOUNDS);
    Accept(h)
  }

  /** The root form: indicator, E token and poison frame of a Thread that has never run. */
  function BootRoot(m: seq<Word>, t: Cap, h: Word): Checked<Word>
    requires ThreadHeader(h)
  {
    var caps := Caps(h);
    :- Require(BodyAt(m, t, STO_OFFSET) == RootIndicator(caps) && caps - 3 >= StackLo(h) && caps - 1 <= 0xFFF,
               F_STACK_CORRUPT);
    var root := BodyAt(m, t, caps - 2);
    :- Require(EntryTokenOk(root), F_STACK_CORRUPT);
    :- Require(BodyAt(m, t, caps - 1) == RootFrame(caps), F_STACK_CORRUPT);
    Accept(root)
  }

  /** What BootRoot asks of word 17. */
  predicate RootIndicatorFits(h: Word, indicator: Word)
    requires ThreadHeader(h)
  {
    indicator == RootIndicator(Caps(h)) && Caps(h) - 3 >= StackLo(h) && Caps(h) - 1 <= 0xFFF
  }

  /** A later row: empty and abstract rows are skipped, any other must resolve. */
  function SpareRow(m: seq<Word>, ns: Cap, gt: Word): Checked<Cap> {
    if gt == 0 || GtType(gt) == GT_ABSTRACT then Accept(NULL_CAP_REG) else BootResolve(m, ns, gt)
  }

  /** Row 0 must be the token already known; the result is what it resolves to. */
  function FirstRow(m: seq<Word>, ns: Cap, gt: Word, known: Word): Checked<Cap> {
    if gt != known then Deny(F_STACK_CORRUPT) else BootResolve(m, ns, gt)
  }

  /** Rows 0 to `n - 1` from offset `from` of a body. */
  function Rows(m: seq<Word>, ns: Cap, t: Cap, from: int, known: Word, n: nat): Checked<Cap>
    requires n > 0
  {
    if n == 1 then FirstRow(m, ns, BodyAt(m, t, from), known)
    else
      var first :- Rows(m, ns, t, from, known, n - 1);
      var spare :- SpareRow(m, ns, BodyAt(m, t, from + n - 1));
      Accept(first)
  }

  /** Where the executable's c-list starts, in fifteen bits. */
  function EntryCaps(h: Word): nat {
    (BodyWords(h) - HdrCc(h)) % 0x8000
  }

  predicate BootEntryFits(h: Word, e: Cap) {
    && HdrMagic(h) == MAGIC && HdrType(h) == 0 && HdrN(h) <= 7 && HdrCc(h) != 0 && HdrCw(h) != 0
    && HdrCw(h) < EntryCaps(h)
    && (AuthLimit(e.authority) == BodyWords(h) - 1 || AuthLimit(e.authority) == EntryCaps(h) - 1)
    && e.location + (BodyWords(h) - 1) * 4 < 0x1_0000_0000
  }

  function BootEntryHeader(m: seq<Word>, e: Cap): Checked<Word> {
    var h := BodyAt(m, e, 0);
    :- Require(BootEntryFits(h, e), F_BOUNDS);
    Accept(h)
  }

  datatype BootPlan = BootPlan(thread: Cap, header: Word, entry: Cap)

  function BootBody(m: seq<Word>, ns: Cap, gt: Word): Checked<BootPlan> {
    var thread :- BootThread(m, ns, gt);
    var h :- BootHeader(m, thread);
    var root :- BootRoot(m, thread, h);
    var entry :- Rows(m, ns, thread, Caps(h), root, CAP_WORDS);
    Accept(BootPlan(thread, h, entry))
  }

  /** The admission from each of its results on. */
  function AfterEntryHeader(m: seq<Word>, ns: Cap, p: BootPlan, eh: Word): Checked<BootPlan>
    requires HdrCc(eh) > 0
  {
    var first :- Rows(m, ns, p.entry, EntryCaps(eh), p.entry.gt, HdrCc(eh));
    Accept(p)
  }

  function AfterBody(m: seq<Word>, ns: Cap, p: BootPlan): Checked<BootPlan> {
    var eh :- BootEntryHeader(m, p.entry);
    AfterEntryHeader(m, ns, p, eh)
  }

  function AfterRoot(m: seq<Word>, ns: Cap, t: Cap, h: Word, root: Word): Checked<BootPlan> {
    var entry :- Rows(m, ns, t, Caps(h), root, CAP_WORDS);
    AfterBody(m, ns, BootPlan(t, h, entry))
  }

  function AfterHeader(m: seq<Word>, ns: Cap, t: Cap, h: Word): Checked<BootPlan>
    requires ThreadHeader(h)
  {
    var root :- BootRoot(m, t, h);
    AfterRoot(m, ns, t, h, root)
  }

  function AfterDescriptor(m: seq<Word>, ns: Cap, t: Cap): Checked<BootPlan> {
    var h :- BootHeader(m, t);
    AfterHeader(m, ns, t, h)
  }

  function BootAdmit(m: seq<Word>, ns: Cap, gt: Word): Checked<BootPlan> {
    var thread :- BootThread(m, ns, gt);
    AfterDescriptor(m, ns, thread)
  }

  /** A body is admitted, and its executable then checked. */
  lemma BodyThenEntry(m: seq<Word>, ns: Cap, gt: Word)
    ensures BootAdmit(m, ns, gt) ==
      if BootBody(m, ns, gt).Deny? then Deny(BootBody(m, ns, gt).code) else AfterBody(m, ns, BootBody(m, ns, gt).value)
  {
    hide BootThread, BootRoot, Rows, AfterBody;
  }

  function BootHeap(t: Cap, h: Word): Cap
    requires ThreadHeader(h)
  {
    Cap(WithPerms(t.gt, TURING_RW), Plus(t.location, HEAP_OFFSET * 4), Limit(BodyWords(h) - HdrCw(h) - 31, 0))
  }

  function BootedRegs(regs: seq<Cap>, p: BootPlan): (r: seq<Cap>)
    requires |regs| == 16 && ThreadHeader(p.header)
    ensures |r| == 16
  {
    regs[12 := p.thread][0 := p.entry][5 := BootHeap(p.thread, p.header)]
  }

  /** What an activation leaves in the registers, told from memory alone: CR12 over the lump that
      the asked token's sealed entry describes; CR0 over that of the token at its home 0, which
      only enters; CR5 over its heap, to read and write; every other register as it was. */
  ghost predicate Activates(m: seq<Word>, ns: Cap, gt: Word, was: seq<Cap>, now: seq<Cap>)
    requires |was| == |now| == 16
  {
    var t, x := now[12], now[0];
    var h := BodyAt(m, t, 0);
    && t.gt == gt && GtType(gt) == GT_INFORM && NoPerms(gt) && SealedBy(t, EntryOf(m, ns, gt), false)
    && ThreadHeader(h) && AuthLimit(t.authority) == BodyWords(h) - 1
    && x.gt == BodyAt(m, t, Caps(h)) && GtType(x.gt) == GT_INFORM && EntersOnly(x.gt)
    && SealedBy(x, EntryOf(m, ns, x.gt), false)
    && OpensHeap(now[5], t, h) && SameIdentity(now[5].gt, gt) && Rights(now[5].gt, false, true, true, false)
    && forall k :: 0 <= k < 16 && k != 0 && k != 5 && k != 12 ==> now[k] == was[k]
  }

  /** A token resolves exactly to the lump its sealed entry describes, by its byte address. */
  lemma ResolvedIsResident(m: seq<Word>, ns: Cap, gt: Word, cap: Cap)
    ensures BootResolve(m, ns, gt) == Accept(cap) <==>
      && cap.gt == gt && GtType(gt) == GT_INFORM && GtSlot(gt) <= AuthLimit(ns.authority)
      && SealedBy(cap, EntryOf(m, ns, gt), false)
  {
    hide Integrity32, GtSeq, AuthSeq, AuthF, AuthLimit, EntryOf;
  }

  lemma {:induction false} RowsResolve(m: seq<Word>, ns: Cap, t: Cap, from: int, known: Word, n: nat)
    requires n > 0 && Rows(m, ns, t, from, known, n).Accept?
    ensures BodyAt(m, t, from) == known && Rows(m, ns, t, from, known, n) == BootResolve(m, ns, known)
  {
    hide BodyAt, BootResolve;
    if n > 1 {
      RowsResolve(m, ns, t, from, known, n - 1);
    }
  }

  /** The parts of an admission. */
  lemma AdmitIsResolved(m: seq<Word>, ns: Cap, gt: Word)
    requires BootAdmit(m, ns, gt).Accept?
    ensures var p := BootAdmit(m, ns, gt).value;
      && BootThread(m, ns, gt) == Accept(p.thread) && BootHeader(m, p.thread) == Accept(p.header)
      && ThreadHeader(p.header) && BootRoot(m, p.thread, p.header).Accept?
      && Rows(m, ns, p.thread, Caps(p.header), BootRoot(m, p.thread, p.header).value, CAP_WORDS) == Accept(p.entry)
  {
    hide BootThread, BootRoot, Rows, BootEntryHeader, HdrCc, BodyAt, AuthLimit;
    HeaderIsThread(m, BootThread(m, ns, gt).value);
  }

  lemma HeaderIsThread(m: seq<Word>, t: Cap)
    ensures BootHeader(m, t).Accept? ==> ThreadHeader(BootHeader(m, t).value)
  {
    hide ThreadHeader, BodyAt;
  }

  /** The three writes of an admitted boot do exactly that. */
  lemma BootedActivates(m: seq<Word>, ns: Cap, gt: Word, regs: seq<Cap>)
    requires |regs| == 16 && BootAdmit(m, ns, gt).Accept?
    ensures var p := BootAdmit(m, ns, gt).value;
      ThreadHeader(p.header) && Activates(m, ns, gt, regs, BootedRegs(regs, p))
  {
    hide BootAdmit, BootResolve, BootRoot, Rows, SealedBy, EntryOf, GtType, NoPerms, EntersOnly, ThreadHeader,
         BodyWords, Caps, StackLo, HdrCw, BodyAt, AuthLimit, Limit, WithPerms, Rights, SameIdentity, Plus;
    var p := BootAdmit(m, ns, gt).value;
    AdmitIsResolved(m, ns, gt);
    var root := BootRoot(m, p.thread, p.header).value;
    RowsResolve(m, ns, p.thread, Caps(p.header), root, CAP_WORDS);
    RootEnters(m, p.thread, p.header);
    ResolvedIsResident(m, ns, gt, p.thread);
    ResolvedIsResident(m, ns, root, p.entry);
    HeapIsBooted(p.thread, p.header);
    WithPermsRights(p.thread.gt, TURING_RW);
  }

  /** A row that grants nothing, is opaque, or names a lump that the gate passes. */
  predicate RowSealed(m: seq<Word>, ns: Cap, gt: Word) {
    var e := EntryOf(m, ns, gt);
    gt == 0 || GtType(gt) == GT_ABSTRACT
    || (GtType(gt) == GT_INFORM && SealedBy(Cap(gt, e.location, e.authority), e, false))
  }

  lemma {:induction false} RowsAreSealed(m: seq<Word>, ns: Cap, t: Cap, from: int, known: Word, n: nat, k: nat)
    requires k < n && Rows(m, ns, t, from, known, n).Accept?
    ensures RowSealed(m, ns, BodyAt(m, t, from + k)) && (k == 0 ==> BodyAt(m, t, from) == known)
  {
    hide BodyAt, BootResolve, SealedBy, EntryOf, GtType;
    if n == 1 {
      RowIsSealed(m, ns, BodyAt(m, t, from));
    } else if k < n - 1 {
      RowsAreSealed(m, ns, t, from, known, n - 1, k);
    } else {
      RowIsSealed(m, ns, BodyAt(m, t, from + k));
    }
  }

  lemma RowIsSealed(m: seq<Word>, ns: Cap, gt: Word)
    ensures BootResolve(m, ns, gt).Accept? ==> RowSealed(m, ns, gt)
  {
    if BootResolve(m, ns, gt).Accept? {
      ResolvedIsResident(m, ns, gt, BootResolve(m, ns, gt).value);
    }
  }

  /** Before anything is published, every home of the Thread and every c-list row of its executable
      has been found sealed, and row 0 of the c-list names the executable itself.  These rows are
      the last of the lump, behind its code, exactly if its header counts no more rows than the
      lump has words: the header checks do not ask for that. */
  lemma BootedRowsAreSealed(m: seq<Word>, ns: Cap, gt: Word)
    requires BootAdmit(m, ns, gt).Accept?
    ensures var p := BootAdmit(m, ns, gt).value;
      var eh := BodyAt(m, p.entry, 0);
      && (forall k :: Caps(p.header) <= k < Caps(p.header) + CAP_WORDS ==> RowSealed(m, ns, BodyAt(m, p.thread, k)))
      && HdrMagic(eh) == MAGIC && HdrType(eh) == 0 && 0 < HdrCw(eh) < EntryCaps(eh) && 0 < HdrCc(eh)
      && (AuthLimit(p.entry.authority) == BodyWords(eh) - 1 || AuthLimit(p.entry.authority) == EntryCaps(eh) - 1)
      && BodyAt(m, p.entry, EntryCaps(eh)) == p.entry.gt
      && (forall k :: EntryCaps(eh) <= k < EntryCaps(eh) + HdrCc(eh) ==> RowSealed(m, ns, BodyAt(m, p.entry, k)))
      && (HdrCw(eh) < EntryCaps(eh) && EntryCaps(eh) + HdrCc(eh) == BodyWords(eh) <==> HdrCc(eh) <= BodyWords(eh))
  {
    hide BootAdmit, BootRoot, Rows, RowSealed, BodyAt, AuthLimit, BootThread, BootHeader, EntryCaps, BodyWords, HdrCc,
         HdrCw, HdrMagic, HdrType, Caps;
    var p := BootAdmit(m, ns, gt).value;
    AdmitIsResolved(m, ns, gt);
    BodyThenEntry(m, ns, gt);
    EntryIsChecked(m, ns, gt);
    var root := BootRoot(m, p.thread, p.header).value;
    var eh := BodyAt(m, p.entry, 0);
    RowsEndTheLump(eh);
    forall k | Caps(p.header) <= k < Caps(p.header) + CAP_WORDS
      ensures RowSealed(m, ns, BodyAt(m, p.thread, k))
    {
      RowsAreSealed(m, ns, p.thread, Caps(p.header), root, CAP_WORDS, k - Caps(p.header));
    }
    forall k | EntryCaps(eh) <= k < EntryCaps(eh) + HdrCc(eh)
      ensures RowSealed(m, ns, BodyAt(m, p.entry, k))
    {
      RowsAreSealed(m, ns, p.entry, EntryCaps(eh), p.entry.gt, HdrCc(eh), k - EntryCaps(eh));
    }
    RowsAreSealed(m, ns, p.entry, EntryCaps(eh), p.entry.gt, HdrCc(eh), 0);
  }

  lemma EntryIsChecked(m: seq<Word>, ns: Cap, gt: Word)
    requires BootAdmit(m, ns, gt).Accept?
    ensures var p := BootAdmit(m, ns, gt).value;
      var eh := BodyAt(m, p.entry, 0);
      && BootEntryFits(eh, p.entry) && HdrCc(eh) > 0
      && Rows(m, ns, p.entry, EntryCaps(eh), p.entry.gt, HdrCc(eh)).Accept?
  {
    hide BootThread, BootHeader, BootRoot, Rows, BodyAt, HdrCc, AuthLimit, EntryCaps, BodyWords, Caps, HdrCw;
  }

  /** Where the c-list starts is counted in fifteen bits, so its rows are the last ones of the lump
      exactly if there are no more rows than words. */
  lemma RowsEndTheLump(h: Word)
    requires HdrN(h) <= 7
    ensures EntryCaps(h) + HdrCc(h) == BodyWords(h) <==> HdrCc(h) <= BodyWords(h)
    ensures HdrCc(h) > BodyWords(h) ==> EntryCaps(h) == BodyWords(h) - HdrCc(h) + 0x8000 > BodyWords(h)
  {
    assert HdrCc(h) < 0x100 && 64 <= BodyWords(h) <= 8192;
  }

  lemma RootEnters(m: seq<Word>, t: Cap, h: Word)
    requires ThreadHeader(h) && BootRoot(m, t, h).Accept?
    ensures EntryTokenOk(BootRoot(m, t, h).value)
  {
    hide BodyAt, RootIndicator, RootFrame, EntryTokenOk;
  }

  lemma HeapIsBooted(t: Cap, h: Word)
    requires ThreadHeader(h) && t.location + (BodyWords(h) - 1) * 4 < 0x1_0000_0000
    ensures OpensHeap(BootHeap(t, h), t, h)
  {
    hide AuthLimit, Limit, BodyWords, HdrCw, WithPerms;
    Geometry(h);
    HeapFits(t.location, BodyWords(h));
    LimitFields(BodyWords(h) - HdrCw(h) - 31, 0);
  }

  // ---- the stages, one result at a time

  lemma HomesFail(m: seq<Word>, ns: Cap, t: Cap, h: Word, root: Word, k: nat)
    requires 0 < k <= CAP_WORDS && Rows(m, ns, t, Caps(h), root, k).Deny?
    ensures AfterRoot(m, ns, t, h, root) == Deny(Rows(m, ns, t, Caps(h), root, k).code)
  {
    hide Rows, AfterBody;
    RowsStop(m, ns, t, Caps(h), root, k, CAP_WORDS);
  }

  lemma HomesPass(m: seq<Word>, ns: Cap, t: Cap, h: Word, root: Word)
    requires Rows(m, ns, t, Caps(h), root, CAP_WORDS).Accept?
    ensures AfterRoot(m, ns, t, h, root)
         == AfterBody(m, ns, BootPlan(t, h, Rows(m, ns, t, Caps(h), root, CAP_WORDS).value))
  {
    hide Rows, AfterBody;
  }

  lemma ClistFail(m: seq<Word>, ns: Cap, p: BootPlan, eh: Word, k: nat)
    requires 0 < k <= HdrCc(eh) && Rows(m, ns, p.entry, EntryCaps(eh), p.entry.gt, k).Deny?
    ensures AfterEntryHeader(m, ns, p, eh) == Deny(Rows(m, ns, p.entry, EntryCaps(eh), p.entry.gt, k).code)
  {
    hide Rows;
    RowsStop(m, ns, p.entry, EntryCaps(eh), p.entry.gt, k, HdrCc(eh));
  }

  lemma FirstRowDecides(m: seq<Word>, ns: Cap, t: Cap, from: int, known: Word)
    ensures var gt := BodyAt(m, t, from);
      Rows(m, ns, t, from, known, 1) == if gt != known then Deny(F_STACK_CORRUPT) else BootResolve(m, ns, gt)
  {
    hide BootResolve, BodyAt;
  }

  lemma SpareRowDecides(m: seq<Word>, ns: Cap, t: Cap, from: int, known: Word, n: nat)
    requires n > 0 && Rows(m, ns, t, from, known, n).Accept?
    ensures var gt, first := BodyAt(m, t, from + n), Rows(m, ns, t, from, known, n);
      Rows(m, ns, t, from, known, n + 1) ==
        if gt == 0 || GtType(gt) == GT_ABSTRACT then first
        else if BootResolve(m, ns, gt).Deny? then Deny(BootResolve(m, ns, gt).code) else first
  {
    hide BootResolve, BodyAt, GtType;
    RowsStep(m, ns, t, from, known, n);
  }

  lemma RowsStep(m: seq<Word>, ns: Cap, t: Cap, from: int, known: Word, n: nat)
    requires n > 0 && Rows(m, ns, t, from, known, n).Accept?
    ensures var spare := SpareRow(m, ns, BodyAt(m, t, from + n));
      Rows(m, ns, t, from, known, n + 1) == if spare.Deny? then Deny(spare.code) else Rows(m, ns, t, from, known, n)
  {
  }

  lemma {:induction false} RowsStop(m: seq<Word>, ns: Cap, t: Cap, from: int, known: Word, k: nat, n: nat)
    requires 0 < k <= n && Rows(m, ns, t, from, known, k).Deny?
    ensures Rows(m, ns, t, from, known, n) == Rows(m, ns, t, from, known, k)
    decreases n
  {
    if k < n {
      RowsStop(m, ns, t, from, known, k, n - 1);
    }
  }

  // ---- the unit

  datatype BootState =
    | BOOT_IDLE | CHECK | GATE | WAIT | HEADER | HEADER_CHECK | INDICATOR | INDICATOR_CHECK | ROOT_GT | ROOT_FRAME
    | HOME | HOME_NEXT | ENTRY_HEADER | ENTRY_CHECK | CLIST | CLIST_NEXT
    | COMMIT_THREAD | COMMIT_ENTRY | COMMIT_HEAP | BOOT_DONE | BOOT_FAULT

  const DESCRIPTOR := 0
  const HOMES := 1
  const C_LIST := 2

  /** What memory does in one clock: whether it answers, and what else is on the bus. */
  datatype Clock = Clock(valid: bool, noise: Word)

  class BootChange {
    const mem: Dmem
    const regs: RegFile
    const gate: G.ChurchNSGate
    var state: BootState
    var phase: nat
    var row: nat
    var armed: bool
    var ns: Cap
    var gt: Word
    var thread: Cap
    var header: Word
    var indicator: Word
    var rootGt: Word
    var entry: Cap
    var entryHeader: Word
    var code: int
    /** The token at the start, and the registers with the writes they had seen. */
    ghost var gt0: Word
    ghost var cr0: seq<Cap>
    ghost var written: seq<RegWrite>

    constructor (mem: Dmem, regs: RegFile)
      ensures this.mem == mem && this.regs == regs && state.BOOT_IDLE? && fresh(gate) && gate.state.IDLE?
    {
      this.mem, this.regs, state, phase, row, armed := mem, regs, BOOT_IDLE, 0, 0, false;
      gate := new G.ChurchNSGate();
      ns, gt, thread, header, indicator, rootGt := NULL_CAP_REG, 0, NULL_CAP_REG, 0, 0, 0;
      entry, entryHeader, code, gt0, cr0, written := NULL_CAP_REG, 0, 0, 0, [], [];
    }

    ghost function M(): seq<Word>
      reads this, mem.cells
    {
      mem.cells[..]
    }

    ghost function Decision(): Checked<BootPlan>
      reads this, mem.cells
    {
      BootAdmit(M(), ns, gt0)
    }

    ghost function Homes(n: nat): Checked<Cap>
      requires n > 0
      reads this, mem.cells
    {
      Rows(M(), ns, thread, Caps(header), rootGt, n)
    }

    ghost function Clist(n: nat): Checked<Cap>
      requires n > 0
      reads this, mem.cells
    {
      Rows(M(), ns, entry, EntryCaps(entryHeader), entry.gt, n)
    }

    function Made(): BootPlan
      reads this
    {
      BootPlan(thread, header, entry)
    }

    ghost predicate Quiet()
      reads this, regs, regs.cr
    {
      regs.cr.Length == CRS && regs.cr[..] == cr0 && regs.log == written
    }

    /** The token that the gate, or CHECK before it, is to resolve. */
    ghost predicate AtToken()
      reads this, mem.cells
    {
      if phase == DESCRIPTOR then gt == gt0
      else if phase == HOMES then
        && InHomes() && row < CAP_WORDS && gt == BodyAt(M(), thread, Caps(header) + row)
        && if row == 0 then gt == rootGt else Homes(row) == Accept(entry) && gt != 0 && GtType(gt) != GT_ABSTRACT
      else
        && phase == C_LIST && InClist() && row < HdrCc(entryHeader)
        && gt == BodyAt(M(), entry, EntryCaps(entryHeader) + row)
        && if row == 0 then gt == entry.gt else Clist(row).Accept? && gt != 0 && GtType(gt) != GT_ABSTRACT
    }

    ghost predicate InHomes()
      reads this, mem.cells
    {
      EntryTokenOk(rootGt) && ThreadHeader(header) && Decision() == AfterRoot(M(), ns, thread, header, rootGt)
    }

    ghost predicate InClist()
      reads this, mem.cells
    {
      && ThreadHeader(header) && HdrCc(entryHeader) > 0
      && Decision() == AfterEntryHeader(M(), ns, Made(), entryHeader)
    }

    /** CHECK has let the token through. */
    ghost predicate Cleared()
      reads this
    {
      && GtType(gt) == GT_INFORM && GtSlot(gt) <= AuthLimit(ns.authority)
      && (phase == DESCRIPTOR ==> NoPerms(gt))
    }

    ghost predicate InHeader()
      reads this, mem.cells
    {
      ThreadHeader(header) && Decision() == AfterHeader(M(), ns, thread, header)
    }

    ghost predicate InRoot()
      reads this, mem.cells
    {
      InHeader() && indicator == BodyAt(M(), thread, STO_OFFSET) && RootIndicatorFits(header, indicator)
    }

    ghost predicate AtEntry()
      reads this, mem.cells
    {
      ThreadHeader(header) && Decision() == AfterBody(M(), ns, Made())
    }

    /** What each state knows. */
    ghost predicate Found()
      reads this, mem.cells
    {
      if state.CHECK? then AtToken()
      else if state.GATE? || state.WAIT? then AtToken() && Cleared()
      else if state.HEADER? then Decision() == AfterDescriptor(M(), ns, thread)
      else if state.HEADER_CHECK? then
        Decision() == AfterDescriptor(M(), ns, thread) && header == BodyAt(M(), thread, 0)
      else if state.INDICATOR? then InHeader()
      else if state.INDICATOR_CHECK? then InHeader() && indicator == BodyAt(M(), thread, STO_OFFSET)
      else if state.ROOT_GT? then InRoot()
      else if state.ROOT_FRAME? then
        InRoot() && rootGt == BodyAt(M(), thread, Caps(header) - 2) && EntryTokenOk(rootGt)
      else if state.HOME? then
        phase == HOMES && InHomes() && row < CAP_WORDS && (row > 0 ==> Homes(row) == Accept(entry))
      else if state.HOME_NEXT? then
        phase == HOMES && InHomes() && row < CAP_WORDS && Homes(row + 1) == Accept(entry)
      else if state.ENTRY_HEADER? then AtEntry()
      else if state.ENTRY_CHECK? then AtEntry() && entryHeader == BodyAt(M(), entry, 0)
      else if state.CLIST? then
        phase == C_LIST && InClist() && row < HdrCc(entryHeader) && (row > 0 ==> Clist(row).Accept?)
      else if state.CLIST_NEXT? then
        phase == C_LIST && InClist() && row < HdrCc(entryHeader) && Clist(row + 1).Accept?
      else if state.BOOT_FAULT? then Decision() == Deny(code)
      else if state.BOOT_IDLE? then true
      else ThreadHeader(header) && Decision() == Accept(Made())
    }

    predicate Admitting()
      reads this`state
    {
      state !in {BOOT_IDLE, COMMIT_THREAD, COMMIT_ENTRY, COMMIT_HEAP, BOOT_DONE, BOOT_FAULT}
    }

    predicate Reading()
      reads this`state
    {
      state in {HEADER, INDICATOR, ROOT_GT, ROOT_FRAME, HOME, ENTRY_HEADER, CLIST}
    }

    function Address(): Word
      reads this
    {
      if state.INDICATOR? then (thread.location + STO_OFFSET * 4) % 0x1_0000_0000
      else if state.ROOT_GT? then (thread.location + (Caps(header) - 2) * 4) % 0x1_0000_0000
      else if state.ROOT_FRAME? then (thread.location + (Caps(header) - 1) * 4) % 0x1_0000_0000
      else if state.HOME? then (thread.location + (Caps(header) + row) * 4) % 0x1_0000_0000
      else if state.ENTRY_HEADER? then entry.location
      else if state.CLIST? then (entry.location + (EntryCaps(entryHeader) + row) * 4) % 0x1_0000_0000
      else thread.location
    }

    ghost predicate Waiting()
      reads this, gate, mem.cells
    {
      if state.WAIT? then gate.Follows(M(), false) && gate.gtLatched == gt && gate.nsBase == ns.location
      else gate.state.IDLE?
    }

    method Start(ns: Cap, gt: Word)
      requires regs.cr.Length == CRS && gate.state.IDLE?
      modifies this
      ensures Found() && Quiet() && Waiting() && state.CHECK? && this.ns == ns && gt0 == gt
      ensures cr0 == regs.cr[..] && written == regs.log
    {
      this.ns, this.gt, gt0, phase, row, armed, state := ns, gt, gt, DESCRIPTOR, 0, false, CHECK;
      cr0, written := regs.cr[..], regs.log;
    }

    // ---- tokens

    /** What the token at hand resolves to. */
    ghost function Resolution(): Checked<Cap>
      reads this, mem.cells
    {
      if phase == DESCRIPTOR then BootThread(M(), ns, gt) else BootResolve(M(), ns, gt)
    }

    /** A token that does not resolve ends the admission. */
    method Refuse(code: int)
      requires AtToken() && Resolution() == Deny(code)
      modifies this`state, this`code
      ensures Found() && state.BOOT_FAULT?
    {
      TokenRefused();
      state, this.code := BOOT_FAULT, code;
    }

    lemma TokenRefused()
      requires AtToken() && Resolution().Deny?
      ensures Decision() == Deny(Resolution().code)
    {
      hide BootThread, BootResolve, BodyAt, Rows, EntryTokenOk, ThreadHeader, AfterDescriptor, AfterRoot,
           AfterEntryHeader;
      if phase == DESCRIPTOR {
      } else if phase == HOMES {
        HomeDecides();
        HomesFail(M(), ns, thread, header, rootGt, row + 1);
      } else {
        ClistDecides();
        ClistFail(M(), ns, Made(), entryHeader, row + 1);
      }
    }

    lemma HomeDecides()
      requires AtToken() && phase == HOMES
      ensures var r := BootResolve(M(), ns, gt);
        Homes(row + 1) == if r.Deny? then Deny(r.code) else if row == 0 then r else Accept(entry)
    {
      hide BootResolve, BodyAt, Rows, AfterRoot, EntryTokenOk, ThreadHeader, GtType;
      if row == 0 {
        FirstRowDecides(M(), ns, thread, Caps(header), rootGt);
      } else {
        SpareRowDecides(M(), ns, thread, Caps(header), rootGt, row);
      }
    }

    lemma ClistDecides()
      requires AtToken() && phase == C_LIST
      ensures var r := BootResolve(M(), ns, gt);
        && (r.Deny? ==> Clist(row + 1) == Deny(r.code)) && (r.Accept? ==> Clist(row + 1).Accept?)
    {
      hide BootResolve, BodyAt, Rows, AfterEntryHeader, ThreadHeader, GtType;
      if row == 0 {
        FirstRowDecides(M(), ns, entry, EntryCaps(entryHeader), entry.gt);
      } else {
        SpareRowDecides(M(), ns, entry, EntryCaps(entryHeader), entry.gt, row);
      }
    }

    ghost function Rank(): nat
      reads this
    {
      match state
      case CHECK => if phase == DESCRIPTOR then 4012 else RowRank() + 6
      case GATE => if phase == DESCRIPTOR then 4011 else RowRank() + 5
      case WAIT => if phase == DESCRIPTOR then 4010 else RowRank() + 4
      case HEADER => 4008
      case HEADER_CHECK => 4007
      case INDICATOR => 4006
      case INDICATOR_CHECK => 4005
      case ROOT_GT => 4004
      case ROOT_FRAME => 4003
      case HOME => HomeRank() + 7
      case HOME_NEXT => HomeRank() + 3
      case ENTRY_HEADER => 2100
      case ENTRY_CHECK => 2099
      case CLIST => ClistRank() + 7
      case CLIST_NEXT => ClistRank() + 3
      case _ => 0
    }

    ghost function HomeRank(): nat
      reads this
    {
      if row < CAP_WORDS then 3000 + (CAP_WORDS - 1 - row) * 8 else 3000
    }

    ghost function ClistRank(): nat
      reads this
    {
      if row < 0x100 then 20 + (0xFF - row) * 8 else 20
    }

    ghost function RowRank(): nat
      reads this
    {
      if phase == HOMES then HomeRank() else ClistRank()
    }

    method CheckClock()
      requires Found() && state.CHECK?
      modifies this`state, this`code
      ensures Found() && (state.GATE? || state.BOOT_FAULT?) && Rank() < old(Rank())
    {
      hide Rows, BodyAt, BootAdmit, AfterRoot, AfterEntryHeader, EntryTokenOk, ThreadHeader, Decide, NoPerms, GtType,
           GtSlot, AuthLimit, AuthF, EntryOf;
      if GtType(gt) != GT_INFORM {
        Refuse(F_NULL_CAP);
      } else if phase == DESCRIPTOR && !NoPerms(gt) {
        Refuse(F_PERM_S);
      } else if GtSlot(gt) > AuthLimit(ns.authority) {
        Refuse(F_BOUNDS);
      } else {
        state := GATE;
      }
    }

    /** The token moves on to where it was wanted. */
    method Accepted(cap: Cap)
      requires AtToken() && Resolution() == Accept(cap) && cap.gt == gt
      modifies this`state, this`thread, this`entry, this`armed
      ensures Found() && state in {HEADER, HOME_NEXT, CLIST_NEXT} && phase == old(phase) && row == old(row)
      ensures phase == DESCRIPTOR <==> state.HEADER?
      ensures phase == HOMES <==> state.HOME_NEXT?
    {
      hide Caps, EntryCaps, HdrCc, NoPerms, AuthLimit, GtSlot, Rows, BodyAt, BootAdmit, BootThread, BootResolve,
           AfterDescriptor, AfterRoot, AfterEntryHeader, EntryTokenOk, ThreadHeader;
      if phase == DESCRIPTOR {
        DescriptorAccepted();
        thread, armed, state := cap, false, HEADER;
      } else if phase == HOMES {
        HomeDecides();
        // row 0 is the root token, whose form ROOT_GT has checked
        entry, state := if row == 0 then cap else entry, HOME_NEXT;
      } else {
        ClistDecides();
        state := CLIST_NEXT;
      }
    }

    lemma DescriptorAccepted()
      requires AtToken() && phase == DESCRIPTOR && Resolution().Accept?
      ensures Decision() == AfterDescriptor(M(), ns, Resolution().value)
    {
      hide BootThread, AfterDescriptor;
    }

    method GateClock()
      requires Found() && Waiting() && state.GATE?
      modifies this`state, gate
      ensures Found() && Waiting() && state.WAIT? && Rank() < old(Rank())
    {
      hide Rows, BodyAt, BootAdmit, AfterRoot, AfterEntryHeader, EntryTokenOk, ThreadHeader, Decide, NoPerms, GtType;
      gate.Start(gt, ns.location);
      state := WAIT;
    }

    /** The gate has answered. */
    method Answered()
      requires Found() && Waiting() && state.WAIT? && gate.Settled()
      modifies this`state, this`code, this`thread, this`entry, this`armed, gate
      ensures Found() && gate.state.IDLE? && state in {HEADER, HOME_NEXT, CLIST_NEXT, BOOT_FAULT}
      ensures Rank() < old(Rank())
    {
      hide Found, AtToken, Cleared, Resolution, Decision, Decide, Rows, BodyAt, ThreadHeader;
      var e := Entry(gate.rawBase, gate.rawW2, gate.rawIntegrity, gate.cacheToken);
      var fault := gate.faultType;
      var refused := gate.state.FAULT?;
      AnswerDecides();
      gate.Step(false, false, 0);
      if refused {
        Refuse(fault);
      } else if AuthF(e.authority) || e.location % 4 != 0 {
        Refuse(F_BOUNDS);
      } else {
        Accepted(Cap(gt, e.location, e.authority));
      }
    }

    lemma AnswerDecides()
      requires Found() && Waiting() && state.WAIT? && gate.Settled()
      ensures AtToken()
      ensures var e := Entry(gate.rawBase, gate.rawW2, gate.rawIntegrity, gate.cacheToken);
        Resolution() == if gate.state.FAULT? then Deny(gate.faultType)
                        else if AuthF(e.authority) || e.location % 4 != 0 then Deny(F_BOUNDS)
                        else Accept(Cap(gt, e.location, e.authority))
    {
      hide Rows, BodyAt, BootAdmit, AfterRoot, AfterEntryHeader, EntryTokenOk, ThreadHeader;
    }

    method WaitClock(valid: bool, data: Word)
      requires Found() && Waiting() && state.WAIT? && gate.Answers(M(), valid, data)
      modifies this`state, this`code, this`thread, this`entry, this`armed, gate
      ensures Found() && Waiting() && (state.WAIT? || state.BOOT_FAULT? || state in {HEADER, HOME_NEXT, CLIST_NEXT})
      ensures Rank() < old(Rank()) || (state.WAIT? && Rank() == old(Rank()) && gate.Left() <= old(gate.Left()))
      ensures valid || !old(gate.RdEn() && gate.rdArmed) ==> Rank() < old(Rank()) || gate.Left() < old(gate.Left())
    {
      if !gate.Settled() {
        gate.Clock(M(), false, valid, data);
      } else {
        Answered();
      }
    }

    // ---- the Thread body

    method Fail(code: int)
      requires Decision() == Deny(code)
      modifies this`state, this`code
      ensures Found() && state.BOOT_FAULT?
    {
      hide Rows, BodyAt, BootAdmit, AfterRoot, AfterEntryHeader, EntryTokenOk, ThreadHeader;
      state, this.code := BOOT_FAULT, code;
    }

    /** HEADER and HEADER_CHECK. */
    method HeaderClock(data: Word)
      requires Found() && (state.HEADER? || state.HEADER_CHECK?)
      requires Reading() ==> data == ReadAt(M(), Address())
      modifies this`state, this`code, this`header, this`armed
      ensures Found() && state in {HEADER_CHECK, INDICATOR, BOOT_FAULT} && Rank() < old(Rank())
    {
      hide Rows, BootAdmit, AfterRoot, AfterEntryHeader, AfterBody, AfterDescriptor, AfterHeader, EntryTokenOk,
           ThreadHeader, RootIndicatorFits, BodyWords, BodyAt, ReadAt;
      if state.HEADER? {
        BodyReads(M(), thread, 0);
        armed, header, state := false, data, HEADER_CHECK;
      } else {
        HeaderDecides();
        if ThreadHeader(header) && AuthLimit(thread.authority) == BodyWords(header) - 1
           && thread.location + (BodyWords(header) - 1) * 4 < 0x1_0000_0000 {
          state := INDICATOR;
        } else {
          Fail(F_BOUNDS);
        }
      }
    }

    /** INDICATOR and INDICATOR_CHECK. */
    method IndicatorClock(data: Word)
      requires Found() && (state.INDICATOR? || state.INDICATOR_CHECK?)
      requires Reading() ==> data == ReadAt(M(), Address())
      modifies this`state, this`code, this`indicator, this`armed
      ensures Found() && state in {INDICATOR_CHECK, ROOT_GT, BOOT_FAULT} && Rank() < old(Rank())
    {
      hide Rows, BootAdmit, AfterRoot, AfterEntryHeader, AfterBody, AfterDescriptor, AfterHeader, EntryTokenOk,
           ThreadHeader, RootIndicatorFits, BodyWords, BodyAt, ReadAt;
      if state.INDICATOR? {
        BodyReads(M(), thread, STO_OFFSET);
        armed, indicator, state := false, data, INDICATOR_CHECK;
      } else {
        RootDecides(0);
        if RootIndicatorFits(header, indicator) {
          state := ROOT_GT;
        } else {
          Fail(F_STACK_CORRUPT);
        }
      }
    }

    lemma HeaderDecides()
      requires Found() && state.HEADER_CHECK?
      ensures var h := header;
        Decision() == if ThreadHeader(h) && AuthLimit(thread.authority) == BodyWords(h) - 1
                         && thread.location + (BodyWords(h) - 1) * 4 < 0x1_0000_0000
                      then AfterHeader(M(), ns, thread, h) else Deny(F_BOUNDS)
    {
      hide BootAdmit, AfterHeader, BodyAt;
    }

    /** BootRoot, one check at a time; `gt` is what the E token slot holds. */
    lemma RootDecides(gt: Word)
      requires ThreadHeader(header) && Decision() == AfterHeader(M(), ns, thread, header)
      requires indicator == BodyAt(M(), thread, STO_OFFSET)
      ensures !RootIndicatorFits(header, indicator) ==> Decision() == Deny(F_STACK_CORRUPT)
      ensures RootIndicatorFits(header, indicator) && gt == BodyAt(M(), thread, Caps(header) - 2) ==>
        && (!EntryTokenOk(gt) || BodyAt(M(), thread, Caps(header) - 1) != RootFrame(Caps(header)) ==>
              Decision() == Deny(F_STACK_CORRUPT))
        && (EntryTokenOk(gt) && BodyAt(M(), thread, Caps(header) - 1) == RootFrame(Caps(header)) ==>
              Decision() == AfterRoot(M(), ns, thread, header, gt))
    {
      hide BootAdmit, AfterRoot, BodyAt, EntryTokenOk, RootIndicator, RootFrame;
    }

    method RootGtClock(data: Word)
      requires Found() && state.ROOT_GT? && data == ReadAt(M(), Address())
      modifies this`state, this`code, this`rootGt, this`armed
      ensures Found() && (state.ROOT_FRAME? || state.BOOT_FAULT?) && Rank() < old(Rank())
    {
      hide Rows, BootAdmit, AfterRoot, AfterEntryHeader, AfterBody, AfterDescriptor, AfterHeader, EntryTokenOk,
           ThreadHeader, RootIndicatorFits, BodyWords, BodyAt, ReadAt, RootFrame;
      BodyReads(M(), thread, Caps(header) - 2);
      RootDecides(data);
      armed := false;
      if EntryTokenOk(data) {
        rootGt, state := data, ROOT_FRAME;
      } else {
        Fail(F_STACK_CORRUPT);
      }
    }

    method RootFrameClock(data: Word)
      requires Found() && state.ROOT_FRAME? && data == ReadAt(M(), Address())
      modifies this`state, this`phase, this`row, this`code, this`armed
      ensures Found() && (state.HOME? || state.BOOT_FAULT?) && Rank() < old(Rank())
    {
      hide Rows, BootAdmit, AfterRoot, AfterEntryHeader, AfterBody, AfterDescriptor, AfterHeader, EntryTokenOk,
           ThreadHeader, RootIndicatorFits, BodyWords, BodyAt, ReadAt, RootFrame;
      BodyReads(M(), thread, Caps(header) - 1);
      RootDecides(rootGt);
      CapsInRange();
      armed := false;
      if data == RootFrame(Caps(header)) {
        row, phase, state := 0, HOMES, HOME;
      } else {
        Fail(F_STACK_CORRUPT);
      }
    }

    lemma CapsInRange()
      requires ThreadHeader(header)
      ensures 3 <= Caps(header) < 0x2000
    {
      Geometry(header);
    }

    // ---- rows

    /** HOME: row 0 must be the root token; empty and abstract rows are skipped. */
    method HomeClock(data: Word)
      requires Found() && state.HOME? && data == ReadAt(M(), Address())
      modifies this`state, this`code, this`gt, this`armed
      ensures Found() && state in {CHECK, HOME_NEXT, BOOT_FAULT} && Rank() < old(Rank())
    {
      hide InClist, Clist, InRoot, InHeader, Cleared,
           Caps, HdrCc, Rows, BootAdmit, AfterRoot, AfterEntryHeader, AfterBody, EntryTokenOk, ThreadHeader, BodyAt,
           ReadAt, GtType;
      BodyReads(M(), thread, Caps(header) + row);
      HomeRow(data);
      armed, gt := false, data;
      if row == 0 && data != rootGt {
        Fail(F_STACK_CORRUPT);
      } else if row != 0 && (data == 0 || GtType(data) == GT_ABSTRACT) {
        state := HOME_NEXT;
      } else {
        state := CHECK;
      }
    }

    lemma HomeRow(gt: Word)
      requires Found() && state.HOME? && gt == BodyAt(M(), thread, Caps(header) + row)
      ensures row == 0 && gt != rootGt ==> Decision() == Deny(F_STACK_CORRUPT)
      ensures row != 0 && (gt == 0 || GtType(gt) == GT_ABSTRACT) ==> Homes(row + 1) == Accept(entry)
    {
      hide Rows, BootAdmit, BootResolve, AfterRoot, EntryTokenOk, ThreadHeader, BodyAt, GtType;
      if row == 0 {
        FirstRowDecides(M(), ns, thread, Caps(header), rootGt);
        if gt != rootGt {
          HomesFail(M(), ns, thread, header, rootGt, 1);
        }
      } else {
        SpareRowDecides(M(), ns, thread, Caps(header), rootGt, row);
      }
    }

    method HomeNextClock()
      requires Found() && state.HOME_NEXT?
      modifies this`state, this`row, this`armed
      ensures Found() && (state.HOME? || state.ENTRY_HEADER?) && Rank() < old(Rank())
    {
      hide InClist, Clist, InRoot, InHeader, Cleared,
           Caps, HdrCc, Rows, BootAdmit, AfterRoot, AfterEntryHeader, AfterBody, EntryTokenOk, ThreadHeader, BodyAt;
      armed := false;
      if row == CAP_WORDS - 1 {
        HomesPass(M(), ns, thread, header, rootGt);
        row, state := row + 1, ENTRY_HEADER;
      } else {
        row, state := row + 1, HOME;
      }
    }

    // ---- the executable

    /** ENTRY_HEADER and ENTRY_CHECK. */
    method EntryClock(data: Word)
      requires Found() && (state.ENTRY_HEADER? || state.ENTRY_CHECK?)
      requires Reading() ==> data == ReadAt(M(), Address())
      modifies this`state, this`phase, this`row, this`code, this`entryHeader, this`armed
      ensures Found() && state in {ENTRY_CHECK, CLIST, BOOT_FAULT} && Rank() < old(Rank())
    {
      hide Rows, BootAdmit, AfterRoot, AfterEntryHeader, AfterBody, EntryTokenOk, ThreadHeader, BodyAt, ReadAt,
           BootEntryFits;
      if state.ENTRY_HEADER? {
        BodyReads(M(), entry, 0);
        armed, entryHeader, state := false, data, ENTRY_CHECK;
      } else {
        EntryDecides();
        if BootEntryFits(entryHeader, entry) {
          row, phase, state := 0, C_LIST, CLIST;
        } else {
          Fail(F_BOUNDS);
        }
      }
    }

    lemma EntryDecides()
      requires Found() && state.ENTRY_CHECK?
      ensures BootEntryFits(entryHeader, entry) ==>
        HdrCc(entryHeader) > 0 && Decision() == AfterEntryHeader(M(), ns, Made(), entryHeader)
      ensures !BootEntryFits(entryHeader, entry) ==> Decision() == Deny(F_BOUNDS)
    {
      hide BootAdmit, AfterEntryHeader, BodyAt, ThreadHeader;
    }

    /** CLIST: row 0 must be the executable's own token. */
    method ClistClock(data: Word)
      requires Found() && state.CLIST? && data == ReadAt(M(), Address())
      modifies this`state, this`code, this`gt, this`armed
      ensures Found() && state in {CHECK, CLIST_NEXT, BOOT_FAULT} && Rank() < old(Rank())
    {
      hide InHomes, Homes, InRoot, InHeader, AtEntry, Cleared,
           HdrCc, EntryCaps, Caps, Rows, BootAdmit, AfterRoot, AfterEntryHeader, AfterBody, EntryTokenOk, ThreadHeader,
           BodyAt, ReadAt, GtType;
      BodyReads(M(), entry, EntryCaps(entryHeader) + row);
      ClistRow(data);
      assert HdrCc(entryHeader) < 0x100 by { RowFits(); }
      assert InClist() && phase == C_LIST;
      armed, gt := false, data;
      assert Decision() == AfterEntryHeader(M(), ns, Made(), entryHeader);
      if row == 0 && data != entry.gt {
        Fail(F_STACK_CORRUPT);
      } else if row != 0 && (data == 0 || GtType(data) == GT_ABSTRACT) {
        state := CLIST_NEXT;
        assert InClist();
      } else {
        state := CHECK;
        assert AtToken();
      }
    }

    lemma RowFits()
      ensures HdrCc(entryHeader) < 0x100
    {
    }

    lemma ClistRow(gt: Word)
      requires Found() && state.CLIST? && gt == BodyAt(M(), entry, EntryCaps(entryHeader) + row)
      ensures row == 0 && gt != entry.gt ==> Decision() == Deny(F_STACK_CORRUPT)
      ensures row != 0 && (gt == 0 || GtType(gt) == GT_ABSTRACT) ==> Clist(row + 1).Accept?
    {
      hide Rows, BootAdmit, BootResolve, AfterEntryHeader, ThreadHeader, BodyAt, GtType;
      if row == 0 {
        FirstRowDecides(M(), ns, entry, EntryCaps(entryHeader), entry.gt);
        if gt != entry.gt {
          ClistFail(M(), ns, Made(), entryHeader, 1);
        }
      } else {
        SpareRowDecides(M(), ns, entry, EntryCaps(entryHeader), entry.gt, row);
      }
    }

    method ClistNextClock()
      requires Found() && state.CLIST_NEXT?
      modifies this`state, this`row, this`armed
      ensures Found() && (state.CLIST? || state.COMMIT_THREAD?) && Rank() < old(Rank())
    {
      hide InHomes, Homes, InRoot, InHeader, AtEntry, Cleared,
           HdrCc, EntryCaps, Caps, Rows, BootAdmit, AfterRoot, AfterBody, AfterEntryHeader, EntryTokenOk, ThreadHeader,
           BodyAt;
      RowFits();
      ClistPasses();
      armed := false;
      if row + 1 >= HdrCc(entryHeader) {
        state := COMMIT_THREAD;
      } else {
        row, state := row + 1, CLIST;
      }
    }

    lemma ClistPasses()
      requires InClist() && row < HdrCc(entryHeader) && Clist(row + 1).Accept?
      ensures row + 1 >= HdrCc(entryHeader) ==> Decision() == Accept(Made())
    {
      hide Rows, BootAdmit, ThreadHeader;
    }

    // ---- whole runs

    ghost predicate Answers(valid: bool, data: Word)
      reads this, gate, mem.cells
    {
      && (Reading() && armed && valid ==> data == ReadAt(M(), Address()))
      && (state.WAIT? ==> gate.Answers(M(), valid, data))
    }

    ghost function Inner(): nat
      reads this, gate
    {
      if state.WAIT? then gate.Left() else if Reading() && !armed then 1 else 0
    }

    method Arm()
      requires Found() && Waiting() && Reading()
      modifies this`armed
      ensures Found() && Waiting() && armed && state == old(state) && Rank() == old(Rank())
    {
      hide Rows, BootAdmit, AfterRoot, AfterEntryHeader, AfterBody, AfterDescriptor, AfterHeader, EntryTokenOk,
           ThreadHeader, BodyAt, GtType;
      armed := true;
    }

    /** One clock of the admission. */
    method AdmitStep(valid: bool, data: Word)
      requires Found() && Waiting() && Admitting() && Answers(valid, data)
      modifies this`state, this`phase, this`row, this`armed, this`gt, this`thread, this`header, this`indicator
      modifies this`rootGt, this`entry, this`entryHeader, this`code, gate
      ensures Found() && Waiting() && (Admitting() || state.COMMIT_THREAD? || state.BOOT_FAULT?)
      ensures Rank() < old(Rank()) || (Rank() == old(Rank()) && Inner() <= old(Inner()))
      ensures valid ==> Rank() < old(Rank()) || Inner() < old(Inner())
    {
      hide Found, ReadAt, Rank;
      if state.WAIT? {
        WaitClock(valid, data);
      } else if state.GATE? {
        GateClock();
      } else if Reading() && !(armed && valid) {
        Arm();
      } else {
        Latch(data);
      }
    }

    /** A state that has what it needs. */
    method Latch(data: Word)
      requires Found() && Admitting() && state !in {GATE, WAIT}
      requires Reading() ==> data == ReadAt(M(), Address())
      modifies this`state, this`phase, this`row, this`armed, this`gt, this`thread, this`header, this`indicator
      modifies this`rootGt, this`entry, this`entryHeader, this`code
      ensures Found() && (Admitting() || state.COMMIT_THREAD? || state.BOOT_FAULT?) && !state.WAIT?
      ensures Rank() < old(Rank())
    {
      hide Found, ReadAt, Rank, Address;
      if state.CHECK? {
        CheckClock();
      } else if state.HEADER? || state.HEADER_CHECK? {
        HeaderClock(data);
      } else if state.INDICATOR? || state.INDICATOR_CHECK? {
        IndicatorClock(data);
      } else if state.ROOT_GT? {
        RootGtClock(data);
      } else if state.ROOT_FRAME? {
        RootFrameClock(data);
      } else if state.HOME? {
        HomeClock(data);
      } else if state.HOME_NEXT? {
        HomeNextClock();
      } else if state.ENTRY_HEADER? || state.ENTRY_CHECK? {
        EntryClock(data);
      } else if state.CLIST? {
        ClistClock(data);
      } else {
        ClistNextClock();
      }
    }

    /** The whole admission.  The registers are not in the frame: no write is possible. */
    method AdmitAll(clocks: seq<Clock>)
      requires Found() && Waiting() && state.CHECK?
      modifies this`state, this`phase, this`row, this`armed, this`gt, this`thread, this`header, this`indicator
      modifies this`rootGt, this`entry, this`entryHeader, this`code, gate
      ensures gate.state.IDLE? && (state.COMMIT_THREAD? || state.BOOT_FAULT?)
      ensures state.BOOT_FAULT? ==> Decision() == Deny(code)
      ensures state.COMMIT_THREAD? ==> ThreadHeader(header) && Decision() == Accept(Made())
    {
      hide Found, ReadAt, Rank, Address;
      var rest := clocks;
      while Admitting()
        invariant Found() && Waiting() && (Admitting() || state.COMMIT_THREAD? || state.BOOT_FAULT?)
        decreases |rest|, Rank(), Inner()
      {
        var k := if rest == [] then Clock(true, 0) else rest[0];
        rest := if rest == [] then [] else rest[1..];
        var data := k.noise;
        if k.valid && Reading() {
          data := ReadAt(mem.cells[..], Address());
        } else if k.valid && state.WAIT? {
          data := ReadAt(mem.cells[..], gate.Address());
        }
        AdmitStep(k.valid, data);
      }
      EndFound();
    }

    lemma EndFound()
      requires Found()
      ensures state.BOOT_FAULT? ==> Decision() == Deny(code)
      ensures state.COMMIT_THREAD? ==> ThreadHeader(header) && Decision() == Accept(Made())
    {
    }

    /** One boot CHANGE, against a memory that answers as it likes for any number of clocks and
        then without delay.  It always ends.  A fault comes before any register write; an
        admitted Thread gets exactly three, of CR12, CR0 and CR5. */
    method Run(ns: Cap, gt: Word, clocks: seq<Clock>) returns (r: Checked<BootPlan>)
      requires regs.cr.Length == CRS && gate.state.IDLE?
      modifies this, gate, regs.cr, regs`log
      ensures r == BootAdmit(mem.cells[..], ns, gt)
      ensures r.Deny? ==> regs.cr[..] == old(regs.cr[..]) && regs.log == old(regs.log)
      ensures r.Accept? ==>
        && ThreadHeader(r.value.header) && regs.cr[..] == BootedRegs(old(regs.cr[..]), r.value)
        && Activates(mem.cells[..], ns, gt, old(regs.cr[..]), regs.cr[..])
        && regs.log == old(regs.log) + [Cr(12, regs.cr[12]), Cr(0, regs.cr[0]), Cr(5, regs.cr[5])]
    {
      hide Activates, BootAdmit, Found, ThreadHeader, BootHeap, Waiting;
      Start(ns, gt);
      AdmitAll(clocks);
      if state.BOOT_FAULT? {
        return Deny(code);
      }
      regs.WriteCr(12, thread);
      state := COMMIT_ENTRY;
      regs.WriteCr(0, entry);
      state := COMMIT_HEAP;
      regs.WriteCr(5, BootHeap(thread, header));
      state := BOOT_DONE;
      r := Accept(Made());
      BootedActivates(mem.cells[..], ns, gt, old(regs.cr[..]));
    }
  }

  lemma BodyReads(m: seq<Word>, t: Cap, offset: int)
    ensures ReadAt(m, (t.location + offset * 4) % 0x1_0000_0000) == BodyAt(m, t, offset)
    ensures ReadAt(m, t.location) == BodyAt(m, t, 0)
  {
  }

  // ---- agreement with the other boot units

  lemma {:induction false} RowsEnter(m: seq<Word>, ns: Cap, t: Cap, from: int, known: Word, n: nat)
    requires n > 0 && Rows(m, ns, t, from, known, n).Accept?
    ensures BodyAt(m, t, from) == known && Rows(m, ns, t, from, known, n).value.gt == known
  {
    if n > 1 {
      RowsEnter(m, ns, t, from, known, n - 1);
    }
  }

  /** Every Thread boot CHANGE admits is in root form.  Boot validation of the same body, under
      a descriptor that covers it, admits it as a fresh start exactly when its stack has five
      words, two more than boot CHANGE asks for. */
  lemma BootChangeMeetsValidation(m: seq<Word>, ns: Cap, gt: Word, n: seq<Word>, slots: nat, version: nat)
    requires |m| == |n| == ADDRESS_SPACE && BootAdmit(m, ns, gt).Accept?
    requires var p := BootAdmit(m, ns, gt).value;
      && Describes(n, slots, version, p.thread.location, BodyWords(p.header))
      && p.thread.location / 4 + BodyWords(p.header) <= ADDRESS_SPACE
      && SameBody(m, n, p.thread.location, BodyWords(p.header))
    ensures var p, r := BootAdmit(m, ns, gt).value, Validate(n, slots, version);
      && 3 <= HdrCw(p.header)
      && (r.Accept? <==> HdrCw(p.header) >= 5)
      && (r.Accept? ==> !r.value.resume && r.value.entryGt == p.entry.gt && r.value.header == p.header)
  {
    hide BootBody, BootAdmit, AfterBody, Body, BodyAt, Descriptor, BootRoot, BootHeader, AuthLimit, ThreadHeader,
         SameBody, Caps, BodyWords, HdrCw;
    BodyThenEntry(m, ns, gt);
    EntryKeepsBody(m, ns, BootBody(m, ns, gt).value);
    BodyRoot(m, ns, gt);
    DescriptorIsLocal(n, slots, version);
    var p, d := BootBody(m, ns, gt).value, Descriptor(n, slots, version).value;
    RootFormBoots(m, n, p.thread, p.header, d);
  }

  lemma DescriptorIsLocal(m: seq<Word>, slots: nat, version: nat)
    ensures Descriptor(m, slots, version).Accept? ==> Descriptor(m, slots, version).value.location < M.RESIDENT_WORDS
  {
  }

  lemma EntryKeepsBody(m: seq<Word>, ns: Cap, p: BootPlan)
    ensures AfterBody(m, ns, p).Accept? ==> AfterBody(m, ns, p).value == p
  {
  }

  /** The parts of an admitted body. */
  lemma BodyRoot(m: seq<Word>, ns: Cap, gt: Word)
    requires BootBody(m, ns, gt).Accept?
    ensures var p := BootBody(m, ns, gt).value;
      && BootHeader(m, p.thread) == Accept(p.header) && ThreadHeader(p.header)
      && BootRoot(m, p.thread, p.header) == Accept(p.entry.gt) && BodyAt(m, p.thread, Caps(p.header)) == p.entry.gt
  {
    hide BootThread, BootRoot, Rows, BodyAt;
    var p := BootBody(m, ns, gt).value;
    RowsEnter(m, ns, p.thread, Caps(p.header), BootRoot(m, p.thread, p.header).value, CAP_WORDS);
  }

  lemma RootFormBoots(m: seq<Word>, n: seq<Word>, t: Cap, h: Word, d: Entry)
    requires |m| == |n| == ADDRESS_SPACE && BootHeader(m, t) == Accept(h) && BootRoot(m, t, h).Accept?
    requires d.location < M.RESIDENT_WORDS && d.location * 4 == t.location && AuthLimit(d.authority) == BodyWords(h) - 1
    requires d.location + BodyWords(h) <= ADDRESS_SPACE && SameBody(m, n, t.location, BodyWords(h))
    requires BodyAt(m, t, Caps(h)) == BootRoot(m, t, h).value
    ensures HdrCw(h) >= 3 && (Body(n, d).Accept? <==> HdrCw(h) >= 5)
    ensures Body(n, d).Accept? ==>
      var a := Body(n, d).value; !a.resume && a.entryGt == BootRoot(m, t, h).value && a.header == h
  {
    Geometry(h);
    SizeSteps(h);
    BodyWord(m, t, 0);
    BodyWord(m, t, STO_OFFSET);
    BodyWord(m, t, Caps(h) - 2);
    BodyWord(m, t, Caps(h) - 1);
    BodyWord(m, t, Caps(h));
    RootBodyBoots(n, 0, 0, d, h, BootRoot(m, t, h).value);
  }
}
