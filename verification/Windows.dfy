/** The code and c-list windows that CALL, cLoad and CHANGE each derive from one lump header,
    and cLoad itself. */
module Windows {
  import opened Bits
  import opened Change
  import opened Checks
  import opened Fields
  import opened Integrity
  import opened Memory
  import opened NsGate
  import opened Registers
  import opened Thread
  import M = MLoad

  // ---- CALL

  /** The header checks of CALL; a lump without code passes them too. */
  predicate CallHeaderOk(h: Word, authority: Word) {
    && HdrMagic(h) == MAGIC && HdrType(h) == 0 && HdrN(h) <= 8
    && BodyWords(h) <= AuthLimit(authority) + 1 && HdrCw(h) + HdrCc(h) + 1 <= BodyWords(h)
  }

  /** What CALL publishes windows over: a checked lump with code. */
  predicate CallAdmits(h: Word, authority: Word) {
    CallHeaderOk(h, authority) && HdrCw(h) > 0
  }

  /** X is forced, W cleared, R taken from the low permission of the source. */
  function CallCodeGt(gt: Word): Word {
    gt % 0x800_0000 + (if GtPerm(gt, 0) then 10 else 8) * 0x800_0000 + gt / 0x8000_0000 * 0x8000_0000
  }

  function CallCode(c: Cap, h: Word): Cap
    requires HdrCw(h) > 0
  {
    Cap(CallCodeGt(c.gt), Plus(c.location, 4), Limit(HdrCw(h) - 1, AuthSeq(c.authority)))
  }

  function CallClist(c: Cap, base: Word, h: Word): Cap {
    if HdrCc(h) == 0 then NULL_CAP_REG
    else Cap(c.gt, (base + (BodyWords(h) - HdrCc(h)) * 4) % 0x1_0000_0000,
             Limit(HdrCc(h) - 1, AuthSeq(c.authority)))
  }

  // ---- cLoad

  /** A lump's size in the unit's fifteen bits. */
  function CloadSize(h: Word): nat {
    BodyWords(h) % 0x8000
  }

  function CloadCode(gt: Word, base: Word, h: Word): Cap {
    Cap(gt % 0x800_0000 + 0x5000_0000, Plus(base, 4), Limit((HdrCw(h) + 0x1F_FFFF) % 0x20_0000, GtSeq(gt)))
  }

  function CloadClist(gt: Word, base: Word, h: Word): Cap {
    if HdrCc(h) == 0 then NULL_CAP_REG
    else Cap(gt, (base + (CloadSize(h) - HdrCc(h)) * 4) % 0x1_0000_0000, Limit(HdrCc(h) - 1, GtSeq(gt)))
  }

  /** The extra header checks of a machine whose namespace holds word addresses. */
  predicate CloadHeaderOk(h: Word, base: Word, authority: Word) {
    var caps := CloadSize(h) - HdrCc(h);
    && HdrMagic(h) == MAGIC && HdrType(h) == 0 && HdrN(h) <= 7 && HdrCc(h) != 0 && HdrCw(h) != 0
    && HdrCw(h) < caps && (AuthLimit(authority) == CloadSize(h) - 1 || AuthLimit(authority) == caps - 1)
    && base / 4 + CloadSize(h) <= M.RESIDENT_WORDS
  }

  /** What cLoad resolves: the base of the lump and the header there. */
  datatype Resolved = Resolved(base: Word, header: Word)

  function CloadResolve(m: seq<Word>, ns: Cap, gt: Word, same: bool, codeLocation: Word, resident: bool)
    : Checked<Resolved>
  {
    var e := EntryOf(m, ns, gt);
    :- Require((GtType(gt) == GT_INFORM || GtType(gt) == GT_ABSTRACT) && HasChurch(gt, E), F_PERM_E);
    :- Require(resident ==> GtSlot(gt) != 0 && GtSlot(gt) * 4 + 3 <= AuthLimit(ns.authority), F_BOUNDS);
    match Decide(e, gt, false)
    case Refuse(f) => Deny(f)
    case Pass => CloadHeader(m, e, same, codeLocation, resident)
  }

  function CloadHeader(m: seq<Word>, e: Entry, same: bool, codeLocation: Word, resident: bool): Checked<Resolved> {
    var base := Base(e, resident);
    :- Require(resident ==> e.location < M.RESIDENT_WORDS && !AuthF(e.authority), F_BOUNDS);
    :- Require(same ==> base + 4 == codeLocation, F_STACK_CORRUPT);
    var h := ReadAt(m, base);
    :- Require(resident ==> CloadHeaderOk(h, base, e.authority), F_BOUNDS);
    Accept(Resolved(base, h))
  }

  class ChurchCLoad {
    const resident: bool
    const mem: Dmem
    const regs: RegFile

    constructor (resident: bool, mem: Dmem, regs: RegFile)
      ensures this.resident == resident && this.mem == mem && this.regs == regs
    {
      this.resident, this.mem, this.regs := resident, mem, regs;
    }

    /** CHECK_TYPE to FETCH_HDR: nothing is written. */
    method Fetch(ns: Cap, gt: Word, same: bool, codeLocation: Word) returns (r: Checked<Resolved>)
      ensures r == CloadResolve(mem.cells[..], ns, gt, same, codeLocation, resident)
    {
      if !(GtType(gt) == GT_INFORM || GtType(gt) == GT_ABSTRACT) || !HasChurch(gt, E) {
        return Deny(F_PERM_E);
      }
      if resident && (GtSlot(gt) == 0 || GtSlot(gt) * 4 + 3 > AuthLimit(ns.authority)) {
        return Deny(F_BOUNDS);
      }
      var e := EntryOf(mem.cells[..], ns, gt);
      if GtSeq(gt) != AuthSeq(e.authority) {
        return Deny(F_VERSION);
      }
      if Integrity32(e.location, e.authority) != e.integrity {
        return Deny(F_SEAL);
      }
      r := FetchHeader(e, same, codeLocation);
    }

    method FetchHeader(e: Entry, same: bool, codeLocation: Word) returns (r: Checked<Resolved>)
      ensures r == CloadHeader(mem.cells[..], e, same, codeLocation, resident)
    {
      if resident && (e.location >= M.RESIDENT_WORDS || AuthF(e.authority)) {
        return Deny(F_BOUNDS);
      }
      var base := Base(e, resident);
      if same && base as int + 4 != codeLocation {
        return Deny(F_STACK_CORRUPT);
      }
      var h := ReadAt(mem.cells[..], base);
      r := if resident && !CloadHeaderOk(h, base, e.authority) then Deny(F_BOUNDS) else Accept(Resolved(base, h));
    }

    /** Rebuilds CR14 and then CR6 from an E token; a refused one asserts no write.  With
        `same`, the token must name the code already in place, and CR14 is left alone. */
    method Load(gt: Word, same: bool, codeLocation: Word) returns (r: Checked<Resolved>)
      requires regs.cr.Length == CRS
      modifies regs.cr, regs`log
      ensures r == CloadResolve(mem.cells[..], old(regs.cr[15]), gt, same, codeLocation, resident)
      ensures r.Deny? ==> regs.cr[..] == old(regs.cr[..]) && regs.log == old(regs.log)
      ensures r.Accept? ==>
        var code, clist := CloadCode(gt, r.value.base, r.value.header), CloadClist(gt, r.value.base, r.value.header);
        && regs.cr[..] == (if same then old(regs.cr[..]) else old(regs.cr[..])[14 := code])[6 := clist]
        && regs.log == old(regs.log) + (if same then [] else [Cr(14, code)]) + [Cr(6, clist)]
    {
      r := Fetch(regs.cr[15], gt, same, codeLocation);
      if r.Accept? {
        if !same {
          regs.WriteCr(14, CloadCode(gt, r.value.base, r.value.header));
        }
        regs.WriteCr(6, CloadClist(gt, r.value.base, r.value.header));
      }
    }
  }

  /** A cLoad gets only as far as the header of a lump its token may enter: the token grants E,
      its version is the entry's, and the entry's seal holds. */
  lemma CloadIsSealed(m: seq<Word>, ns: Cap, gt: Word, same: bool, codeLocation: Word, resident: bool)
    requires CloadResolve(m, ns, gt, same, codeLocation, resident).Accept?
    ensures var r, e := CloadResolve(m, ns, gt, same, codeLocation, resident).value, EntryOf(m, ns, gt);
      && HasChurch(gt, E) && GtSeq(gt) == AuthSeq(e.authority) && SealOk(e)
      && r == Resolved(Base(e, resident), ReadAt(m, Base(e, resident)))
      && (same ==> CloadCode(gt, r.base, r.header).location == codeLocation)
      && (resident ==>
            && GtSlot(gt) >= 1 && GtSlot(gt) * 4 + 3 <= AuthLimit(ns.authority) && !AuthF(e.authority)
            && HdrMagic(r.header) == 0x1F && HdrType(r.header) == 0 && HdrN(r.header) <= 7
            && 1 <= HdrCw(r.header) && 1 <= HdrCc(r.header)
            && 1 + HdrCw(r.header) <= CloadSize(r.header) - HdrCc(r.header)
            && r.base / 4 + CloadSize(r.header) <= M.RESIDENT_WORDS)
  {
    var e := EntryOf(m, ns, gt);
    PassesSealed(e, gt);
    CloadHeaderFits(m, e, same, codeLocation, resident);
    CodeIsNext(gt, Base(e, resident), ReadAt(m, Base(e, resident)));
  }

  lemma PassesSealed(e: Entry, gt: Word)
    ensures Decide(e, gt, false) == Pass <==> GtSeq(gt) == AuthSeq(e.authority) && SealOk(e)
  {
  }

  lemma CodeIsNext(gt: Word, base: Word, h: Word)
    ensures base + 4 < 0x1_0000_0000 ==> CloadCode(gt, base, h).location == base + 4
  {
  }

  lemma CloadHeaderFits(m: seq<Word>, e: Entry, same: bool, codeLocation: Word, resident: bool)
    requires CloadHeader(m, e, same, codeLocation, resident).Accept?
    ensures var r := CloadHeader(m, e, same, codeLocation, resident).value;
      && r == Resolved(Base(e, resident), ReadAt(m, Base(e, resident))) && (same ==> r.base + 4 == codeLocation)
      && (resident ==>
            && HdrMagic(r.header) == 0x1F && HdrType(r.header) == 0 && HdrN(r.header) <= 7
            && 1 <= HdrCw(r.header) && 1 <= HdrCc(r.header)
            && 1 + HdrCw(r.header) <= CloadSize(r.header) - HdrCc(r.header)
            && r.base / 4 + CloadSize(r.header) <= M.RESIDENT_WORDS)
  {
  }

  // ---- agreement

  /** Two capabilities open the same window: location, limit and version, whatever their rights. */
  predicate SameWindow(a: Cap, b: Cap) {
    a.location == b.location && a.authority == b.authority
  }

  /** For one token that the gate passed, one descriptor and one header, the three units derive
      the same code window and the same c-list window whenever each admits the header. */
  lemma WindowsAgree(gt: Word, base: Word, authority: Word, g: Word, h: Word)
    requires GtSeq(gt) == AuthSeq(authority) && Sealed(g) == Sealed(authority)
    requires CallAdmits(h, g) && EntryHeaderOk(h) && base + (BodyWords(h) - 1) * 4 < 0x1_0000_0000
    ensures var call, change := Cap(gt, base, g), Cap(gt, base, authority);
      && SameWindow(CallCode(call, h), CodeCap(change, h)) && SameWindow(CallCode(call, h), CloadCode(gt, base, h))
      && SameWindow(CallClist(call, base, h), ClistCap(change, h))
      && SameWindow(CallClist(call, base, h), CloadClist(gt, base, h))
  {
    hide CallCode, CodeCap, CloadCode, CallClist, ClistCap, CloadClist, BodyWords, HdrCw, HdrCc, Sealed, AuthSeq, GtSeq;
    SeqIsSealed(authority, g);
    HeaderIsSmall(h, g);
    SizeFits(h);
    CodesAgree(gt, base, authority, g, h);
    ClistsAgree(gt, base, authority, g, h);
  }

  lemma CodesAgree(gt: Word, base: Word, authority: Word, g: Word, h: Word)
    requires GtSeq(gt) == AuthSeq(authority) == AuthSeq(g) && EntryHeaderOk(h) && 1 <= HdrCw(h) < 0x2000
    ensures SameWindow(CallCode(Cap(gt, base, g), h), CodeCap(Cap(gt, base, authority), h))
    ensures SameWindow(CallCode(Cap(gt, base, g), h), CloadCode(gt, base, h))
  {
    hide EntryHeaderOk, HdrCw, AuthSeq, GtSeq, CallCodeGt, WithPerms;
  }

  lemma ClistsAgree(gt: Word, base: Word, authority: Word, g: Word, h: Word)
    requires GtSeq(gt) == AuthSeq(authority) == AuthSeq(g) && EntryHeaderOk(h)
    requires 1 <= HdrCc(h) <= BodyWords(h) && CloadSize(h) == BodyWords(h)
    ensures SameWindow(CallClist(Cap(gt, base, g), base, h), ClistCap(Cap(gt, base, authority), h))
    ensures SameWindow(CallClist(Cap(gt, base, g), base, h), CloadClist(gt, base, h))
  {
    hide EntryHeaderOk, HdrCc, AuthSeq, GtSeq, BodyWords, CloadSize, WithPerms;
  }

  lemma HeaderIsSmall(h: Word, g: Word)
    requires CallAdmits(h, g) && EntryHeaderOk(h)
    ensures HdrN(h) <= 8 && 1 <= HdrCw(h) < 0x2000 && 1 <= HdrCc(h) < 0x100 && HdrCc(h) <= BodyWords(h)
  {
  }

  lemma SizeFits(h: Word)
    requires HdrN(h) <= 8
    ensures CloadSize(h) == BodyWords(h) <= 0x4000
  {
  }

  lemma CloadBase(m: seq<Word>, ns: Cap, gt: Word, c: Resolved, d: Entry, resident: bool)
    requires CloadResolve(m, ns, gt, false, 0, resident) == Accept(c) && d == EntryOf(m, ns, gt)
    ensures c == Resolved(Base(d, resident), ReadAt(m, Base(d, resident))) && GtSeq(gt) == AuthSeq(d.authority)
  {
  }

  lemma ChangeBase(m: seq<Word>, ns: Cap, gt: Word, e: Cap, d: Entry, resident: bool)
    requires AdmitEntry(m, ns, gt, resident) == Accept(e) && d == EntryOf(m, ns, gt)
    ensures e == Cap(gt, Base(d, resident), d.authority) && (resident ==> d.location < M.RESIDENT_WORDS)
  {
  }

  lemma CallBase(q: M.Request, ns: Cap, gt: Word, cap: Cap, d: Entry, resident: bool)
    requires M.ResolveToken(q, gt, ns, d, resident) == M.Loaded(cap)
    ensures cap == Cap(gt, M.ResolvedBase(d, resident), d.authority)
  {
  }

  /** The units resolve the token to one base, CALL through mLoad, cLoad and CHANGE through the
      gate, whether the namespace holds byte or word addresses. */
  lemma BasesAgree(m: seq<Word>, ns: Cap, gt: Word, q: M.Request, cap: Cap, e: Cap, c: Resolved, resident: bool)
    requires CloadResolve(m, ns, gt, false, 0, resident) == Accept(c)
    requires AdmitEntry(m, ns, gt, resident) == Accept(e)
    requires M.ResolveToken(q, gt, ns, EntryOf(m, ns, gt), resident) == M.Loaded(cap)
    ensures cap == e && cap.gt == gt && cap.location == c.base && c.header == ReadAt(m, c.base)
    ensures GtSeq(gt) == AuthSeq(e.authority)
  {
    var d := EntryOf(m, ns, gt);
    CloadBase(m, ns, gt, c, d, resident);
    ChangeBase(m, ns, gt, e, d, resident);
    CallBase(q, ns, gt, cap, d, resident);
    OneBase(d, resident);
  }

  lemma OneBase(d: Entry, resident: bool)
    requires resident ==> d.location < M.RESIDENT_WORDS
    ensures M.ResolvedBase(d, resident) == Base(d, resident)
  {
  }

  /** Inside an admitted lump the code window, the word before it and the c-list window are
      disjoint and all lie in the lump. */
  lemma WindowsAreDisjoint(h: Word, authority: Word)
    requires CallAdmits(h, authority) || EntryHeaderOk(h)
    ensures var codeEnd, clist := 1 + HdrCw(h), BodyWords(h) - HdrCc(h);
      1 < codeEnd <= clist <= BodyWords(h)
  {
  }
}
