/** mLoad: a token from a c-list or an operand, checked, resolved against the namespace
    table, and its G bit cleared. */
module MLoad {
  import opened Bits
  import opened Fields
  import opened Integrity
  import opened Memory
  import opened NsGate
  import opened Registers

  const M_BIT_PORT: Word := 0xFFFFFF1C
  const RESIDENT_WORDS := 16384
  const SLOTS := 0x1_0000

  datatype Request = Request(
    src: nat,             // source register, a c-list capability
    dst: nat,             // destination register
    index: Word,
    direct: bool,         // take the token from the operand instead of the c-list
    directGt: Word,
    nullClear: bool,
    validateOnly: bool,
    elevated: bool,
    cr6L: bool)

  datatype Outcome =
    | Loaded(cap: Cap)
    | Cleared
    | Validated(cap: Cap)
    | Faulted(fault: int)

  datatype Token = Token(gt: Word) | NoToken(fault: int)

  /** The c-list walk; `word` is what memory holds at the row. */
  function Walk(q: Request, src: Cap, word: Word): Token {
    if q.direct then Token(q.directGt)
    else if GtType(src.gt) == GT_NULL && !q.elevated then NoToken(F_NULL_CAP)
    else if !HasChurch(src.gt, L) && !(q.cr6L && q.src == 6) && !q.elevated then NoToken(F_PERM_L)
    else if q.index > AuthLimit(src.authority) % 0x1_0000 && !q.elevated then NoToken(F_BOUNDS)
    else if GtType(word) == GT_ABSTRACT then NoToken(F_INVALID_OP)
    else if GtType(word) == GT_OUTFORM then NoToken(F_OUTFORM_UNAUTH)
    else Token(word)
  }

  function RowAddress(q: Request, src: Cap): Word {
    (src.location + q.index * 4) % 0x1_0000_0000
  }

  predicate SlotInBounds(gt: Word, ns: Cap, resident: bool) {
    if resident then GtSlot(gt) != 0 && GtSlot(gt) * 4 + 3 <= AuthLimit(ns.authority)
    else GtSlot(gt) <= AuthLimit(ns.authority) % 0x1_0000
  }

  function ResolvedBase(e: Entry, resident: bool): Word {
    if resident && e.location < RESIDENT_WORDS then e.location * 4 else e.location
  }

  predicate InvalidDescriptor(e: Entry, resident: bool) {
    resident && (AuthF(e.authority) ||
      if e.location < RESIDENT_WORDS then e.location + AuthLimit(e.authority) >= RESIDENT_WORDS
      else e.location / 0x4000_0000 != 1 && e.location != M_BIT_PORT)
  }

  /** The whole decision on a request. */
  function Resolve(q: Request, src: Cap, ns: Cap, word: Word, table: seq<Entry>, resident: bool): Outcome
    requires |table| == SLOTS
  {
    if q.nullClear && q.direct && q.directGt == 0 then Cleared
    else
      match Walk(q, src, word)
      case NoToken(f) => Faulted(f)
      case Token(gt) => ResolveToken(q, gt, ns, table[GtSlot(gt)], resident)
  }

  function ResolveToken(q: Request, gt: Word, ns: Cap, e: Entry, resident: bool): Outcome {
    if !SlotInBounds(gt, ns, resident) && (resident || !q.elevated) then Faulted(F_BOUNDS)
    else
      match Decide(e, gt, q.elevated && !resident)
      case Refuse(f) => Faulted(f)
      case Pass =>
        if InvalidDescriptor(e, resident) then Faulted(F_BOUNDS)
        else
          var cap := Cap(gt, ResolvedBase(e, resident), e.authority);
          if q.validateOnly then Validated(cap) else Loaded(cap)
  }

  function Touch(e: Entry): Entry {
    e.(authority := ClearG(e.authority))
  }

  /** The table after a request. */
  function After(table: seq<Entry>, r: Outcome): (t: seq<Entry>)
    requires |table| == SLOTS
    ensures |t| == SLOTS
  {
    if r.Loaded? then table[GtSlot(r.cap.gt) := Touch(table[GtSlot(r.cap.gt)])] else table
  }

  /** Clearing G changes neither version nor seal. */
  lemma TouchKeepsSeal(e: Entry, gt: Word, elevated: bool)
    ensures SealOk(Touch(e)) == SealOk(e)
    ensures Decide(Touch(e), gt, elevated) == Decide(e, gt, elevated)
  {
    SeqIsSealed(e.authority, ClearG(e.authority));
  }

  /** A load without elevation yields a capability only through a token that the walk and the
      gate both admit, over the very lump its entry seals. */
  lemma LoadedIsSealed(q: Request, src: Cap, ns: Cap, word: Word, table: seq<Entry>, resident: bool)
    requires |table| == SLOTS && (!q.elevated || resident)
    requires Resolve(q, src, ns, word, table, resident).Loaded?
    ensures var cap := Resolve(q, src, ns, word, table, resident).cap;
      && Walk(q, src, word) == Token(cap.gt)
      && Admitted(cap, table[GtSlot(cap.gt)], ns, resident)
  {
    var gt := Walk(q, src, word).gt;
    PassedIsSealed(q, gt, ns, table[GtSlot(gt)], resident);
  }

  /** A lump wholly inside the resident words, or a device port. */
  predicate Reachable(e: Entry) {
    && !AuthF(e.authority)
    && (e.location + AuthLimit(e.authority) < 0x4000
        || 0x4000_0000 <= e.location < 0x8000_0000 || e.location == 0xFFFF_FF1C)
  }

  /** What the namespace says of a capability in a register. */
  predicate Admitted(cap: Cap, e: Entry, ns: Cap, resident: bool) {
    && SlotInBounds(cap.gt, ns, resident)
    && GtSeq(cap.gt) == AuthSeq(e.authority) && SealOk(e) && (resident ==> Reachable(e))
    && cap.authority == e.authority && cap.location == ResolvedBase(e, resident)
  }

  lemma PassedIsSealed(q: Request, gt: Word, ns: Cap, e: Entry, resident: bool)
    requires !q.elevated || resident
    ensures ResolveToken(q, gt, ns, e, resident).Loaded? || ResolveToken(q, gt, ns, e, resident).Validated? <==>
      && SlotInBounds(gt, ns, resident) && Decide(e, gt, false) == Pass && !InvalidDescriptor(e, resident)
    ensures ResolveToken(q, gt, ns, e, resident).Loaded? ==>
      Admitted(ResolveToken(q, gt, ns, e, resident).cap, e, ns, resident)
  {
  }

  /** The walk yields the word of a row inside the c-list that the source may load, and no
      abstract or remote token. */
  lemma WalkAdmits(q: Request, src: Cap, word: Word)
    requires !q.direct && !q.elevated && Walk(q, src, word).Token?
    ensures Walk(q, src, word).gt == word && GtType(word) in {GT_NULL, GT_INFORM}
    ensures q.index <= AuthLimit(src.authority)
    ensures GtType(src.gt) != GT_NULL && (HasChurch(src.gt, L) || (q.cr6L && q.src == 6))
  {
  }

  /** The register writes of an outcome. */
  function Writes(q: Request, r: Outcome): seq<RegWrite> {
    match r
    case Loaded(cap) => [Cr(q.dst, cap)]
    case Cleared => [Cr(q.dst, NULL_CAP_REG)]
    case _ => []
  }

  /** The Thread's copies of the tokens after an outcome. */
  function Copied(thread: seq<Word>, q: Request, r: Outcome): (t: seq<Word>)
    requires |thread| == CRS && q.dst < CRS
    ensures |t| == CRS
  {
    if !CopiesRow(q) then thread
    else
      match r
      case Loaded(cap) => thread[q.dst := cap.gt]
      case Cleared => thread[q.dst := 0]
      case _ => thread
  }

  function Registered(cr: seq<Cap>, q: Request, r: Outcome): (s: seq<Cap>)
    requires |cr| == CRS && q.dst < CRS
    ensures |s| == CRS
  {
    match r
    case Loaded(cap) => cr[q.dst := cap]
    case Cleared => cr[q.dst := NULL_CAP_REG]
    case _ => cr
  }

  /** The Thread's copies of CR0 to CR7 are the tokens of those registers. */
  predicate Mirrors(thread: seq<Word>, cr: seq<Cap>)
    requires |thread| == |cr| == CRS
  {
    forall k :: 0 <= k <= 7 ==> thread[k] == cr[k].gt
  }

  /** A request keeps the mirror, whatever it loads where; the copies of CR8 to CR11 follow their
      registers exactly on null-clearing requests, and those from CR12 on never change. */
  lemma LoadsKeepMirror(thread: seq<Word>, cr: seq<Cap>, q: Request, r: Outcome)
    requires |thread| == |cr| == CRS && q.dst < CRS
    ensures Mirrors(thread, cr) ==> Mirrors(Copied(thread, q, r), Registered(cr, q, r))
    ensures forall k :: 8 <= k < CRS && Copied(thread, q, r)[k] != thread[k] ==>
      k <= 11 && q.nullClear && k == q.dst && Copied(thread, q, r)[k] == Registered(cr, q, r)[k].gt
    ensures q.nullClear && q.dst <= 11 && (r.Loaded? || r.Cleared?) ==>
      Copied(thread, q, r)[q.dst] == Registered(cr, q, r)[q.dst].gt
  {
  }

  class ChurchMLoad {
    const resident: bool
    const regs: RegFile
    const thread: array<Word>
    const table: array<Entry>
    const mem: Dmem

    ghost predicate Valid() {
      && regs.cr.Length == CRS && thread.Length == CRS && table.Length == SLOTS
      && mem.cells.Length == ADDRESS_SPACE && thread != mem.cells && thread != regs.dr
    }

    constructor (resident: bool, regs: RegFile, thread: array<Word>, table: array<Entry>, mem: Dmem)
      requires regs.cr.Length == CRS && thread.Length == CRS && table.Length == SLOTS
      requires mem.cells.Length == ADDRESS_SPACE && thread != mem.cells && thread != regs.dr
      ensures Valid() && this.regs == regs && this.thread == thread && this.table == table
      ensures this.resident == resident && this.mem == mem
    {
      this.resident, this.regs, this.thread, this.table, this.mem := resident, regs, thread, table, mem;
    }

    /** One request.  A fault or a validation asserts no write; a load changes one G bit, one
        register and, for CR0 to CR7, the Thread's copy of the token. */
    method Load(q: Request) returns (r: Outcome)
      requires Valid() && q.src < CRS && q.dst < CRS
      modifies regs.cr, regs`log, thread, table
      ensures r == Resolve(q, old(regs.cr[q.src]), old(regs.cr[15]),
        if q.direct then 0 else old(mem.cells[..])[RowAddress(q, old(regs.cr[q.src])) / 4], old(table[..]), resident)
      ensures table[..] == After(old(table[..]), r)
      ensures regs.cr[..] == Registered(old(regs.cr[..]), q, r) && regs.log == old(regs.log) + Writes(q, r)
      ensures thread[..] == Copied(old(thread[..]), q, r)
    {
      if q.nullClear && q.direct && q.directGt == 0 {
        Commit(q, NULL_CAP_REG);
        return Cleared;
      }
      var word: Word := 0;
      if !q.direct {
        word := mem.Read(RowAddress(q, regs.cr[q.src]));
      }
      match Walk(q, regs.cr[q.src], word)
      case NoToken(f) =>
        return Faulted(f);
      case Token(gt) =>
        r := ResolveToken(q, gt, regs.cr[15], table[GtSlot(gt)], resident);
        if r.Loaded? {
          table[GtSlot(gt)] := Touch(table[GtSlot(gt)]);
          Commit(q, r.cap);
        }
    }

    method Commit(q: Request, cap: Cap)
      requires Valid() && q.dst < CRS
      modifies regs.cr, regs`log, thread
      ensures regs.cr[..] == old(regs.cr[..])[q.dst := cap] && regs.log == old(regs.log) + [Cr(q.dst, cap)]
      ensures thread[..] == if CopiesRow(q) then old(thread[..])[q.dst := cap.gt] else old(thread[..])
    {
      if CopiesRow(q) {
        thread[q.dst] := cap.gt;
      }
      regs.WriteCr(q.dst, cap);
    }
  }

  predicate CopiesRow(q: Request) {
    q.dst <= 7 || (q.nullClear && q.dst <= 11)
  }
}
