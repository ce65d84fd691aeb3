/** Agreement between units that never call each other: one window from one token, and one
    stack discipline behind CALL, LAMBDA, CHANGE and boot. */
module UnitProofs {
  import opened Bits
  import opened BootValidation
  import opened Change
  import opened ChangeProofs
  import opened Checks
  import opened Fields
  import opened FrameChain
  import opened Memory
  import opened NsGate
  import opened Provenance
  import opened Registers
  import opened Thread
  import opened Windows
  import BootActivation
  import BootChange
  import CallProofs
  import CallUnit
  import LambdaUnit
  import M = MLoad

  // ---- windows

  /** When CALL, cLoad and CHANGE each admit one E token over one memory, they read one header
      and open the same code window and the same c-list window. */
  lemma UnitsOpenOneWindow(m: seq<Word>, ns: Cap, gt: Word, cap: Cap, c: Resolved, e: Cap, r: Resume, h: Word,
                             resident: bool)
    requires M.ResolveToken(CallUnit.Phase(gt, 6), gt, ns, EntryOf(m, ns, gt), resident) == M.Loaded(cap)
    requires CallAdmits(ReadAt(m, cap.location), ClearG(cap.authority))
    requires CloadResolve(m, ns, gt, false, 0, resident) == Accept(c)
    requires AdmitEntry(m, ns, gt, resident) == Accept(e) && EntryHeader(m, e, r) == Accept(h)
    ensures h == c.header == ReadAt(m, cap.location) && EntryHeaderOk(h)
    ensures var published := cap.(authority := ClearG(cap.authority));
      SameWindow(CallCode(published, h), CodeCap(e, h)) && SameWindow(CallCode(published, h), CloadCode(gt, c.base, h))
    ensures SameWindow(CallClist(cap, cap.location, h), ClistCap(e, h))
    ensures SameWindow(CallClist(cap, cap.location, h), CloadClist(gt, c.base, h))
  {
    BasesAgree(m, ns, gt, CallUnit.Phase(gt, 6), cap, e, c, resident);
    EntryParts(m, e, r, h);
    SameLimit(cap.authority, ClearG(cap.authority), h);
    WindowsAgree(gt, cap.location, e.authority, ClearG(cap.authority), h);
    WindowsAgree(gt, cap.location, e.authority, cap.authority, h);
  }

  /** CALL's header checks look at sealed bits only. */
  lemma SameLimit(x: Word, y: Word, h: Word)
    requires Sealed(x) == Sealed(y)
    ensures CallAdmits(h, x) <==> CallAdmits(h, y)
  {
    SeqIsSealed(x, y);
  }

  lemma EntryParts(m: seq<Word>, e: Cap, r: Resume, h: Word)
    requires EntryHeader(m, e, r) == Accept(h)
    ensures h == ReadAt(m, e.location) && EntryHeaderOk(h)
    ensures e.location + (BodyWords(h) - 1) * 4 < 0x1_0000_0000
  {
  }

  /** Where an entered CALL goes on, told from memory alone: at the lump's base plus four times the
      word the method table holds for it, a word of the lump's code past that table entry.
      Unless the lump wraps around the address space, that lies inside the window that the CALL
      has put into CR14. */
  lemma CallEntersMethod(c: CallUnit.Context, x: CallUnit.Operands, resident: bool)
    requires c.Ok() && x.Ok() && CallUnit.Execute(c, x, resident).0.Entered?
    ensures var (r, d) := CallUnit.Execute(c, x, resident);
      var base := r.cap.location;
      var h, word := ReadAt(c.m, base), ReadAt(c.m, (base + x.imm * 4) % 0x1_0000_0000);
      && 1 <= x.imm < word <= HdrCw(h) && HdrCw(h) + HdrCc(h) < BodyWords(h)
      && d.nia == (base + word * 4) % 0x1_0000_0000 && (d.nia + 0x1_0000_0000 - base) % 0x1_0000_0000 == word * 4
      && d.cr[14].location == (base + 4) % 0x1_0000_0000 && AuthLimit(d.cr[14].authority) == HdrCw(h) - 1
      && (base + HdrCw(h) * 4 < 0x1_0000_0000 ==>
            d.cr[14].location <= d.nia <= d.cr[14].location + AuthLimit(d.cr[14].authority) * 4)
  {
    hide HdrCw, HdrCc, BodyWords, AuthLimit, CallUnit.Execute, CallUnit.Source, CallUnit.Enterable, M.ResolveToken,
         ReadAt, CallHeaderOk, Limit, CallCodeGt, CallClist;
    EnteredPublishes(c, x, resident);
    var gt := CallUnit.Begin(c, x).gt;
    var cap := CallUnit.PhaseOne(c, gt, resident).cap;
    var r := CallUnit.Publication(c.m, CallUnit.Second(cap), x.imm);
    CodeIsShort(r.header);
    BackToOffset(cap.location, r.entry * 4);
    LimitFields(HdrCw(r.header) - 1, AuthSeq(CallUnit.Second(cap).authority));
  }

  /** The lump an entered CALL enters: that of the token in its source register or c-list row,
      which grants E; on resident words the gate has passed it. */
  lemma CallEntersSealed(c: CallUnit.Context, x: CallUnit.Operands, resident: bool)
    requires c.Ok() && x.Ok() && CallUnit.Execute(c, x, resident).0.Entered?
    ensures var cap, s := CallUnit.Execute(c, x, resident).0.cap, c.cr[x.src];
      && cap.gt == (if x.indexed then ReadAt(c.m, (s.location + x.index * 4) % 0x1_0000_0000) else s.gt)
      && GtType(cap.gt) == GT_INFORM && HasChurch(cap.gt, E)
      && var e := c.table[GtSlot(cap.gt)];
         && cap.authority == ClearG(e.authority) && cap.location == M.ResolvedBase(e, resident)
         && (resident ==> GtSeq(cap.gt) == AuthSeq(e.authority) && SealOk(e) && M.Reachable(e))
  {
    hide AuthLimit, CallUnit.Execute, SealOk, ClearG, GtSeq, AuthSeq, M.Reachable, HasChurch, GtSlot, ReadAt;
    EnteredPublishes(c, x, resident);
    var gt := CallUnit.Begin(c, x).gt;
    SourceEnters(c, x);
    PhaseOneHolds(c, gt, resident);
  }

  /** What an entered CALL had asked of the machine: a numbered method; for a c-list row the right to
      load and the row inside the limit, for a register one of the arguments; a CR5 that reads and a
      CR12 that is not null; and of the lump a whole header inside its descriptor. */
  lemma CallNeeds(c: CallUnit.Context, x: CallUnit.Operands, resident: bool)
    requires c.Ok() && x.Ok() && CallUnit.Execute(c, x, resident).0.Entered?
    ensures 1 <= x.imm <= 0x7FFF
    ensures var s := c.cr[x.src];
      if x.indexed then (HasChurch(s.gt, L) || (x.cr6M && x.src == 6)) && GtType(s.gt) != GT_NULL
                        && x.index <= AuthLimit(s.authority) % 0x1_0000
      else x.src <= 11
    ensures GtType(c.cr[5].gt) != GT_NULL && !GtChurch(c.cr[5].gt) && GtPerm(c.cr[5].gt, 0)
    ensures GtType(c.cr[12].gt) != GT_NULL
    ensures var r := CallUnit.Execute(c, x, resident).0;
      && HdrMagic(r.header) == 0x1F && HdrType(r.header) == 0 && HdrN(r.header) <= 8
      && BodyWords(r.header) <= AuthLimit(r.cap.authority) + 1
  {
    hide CallUnit.Execute, HasChurch, GtType, GtChurch, GtPerm, AuthLimit, ReadAt, HdrMagic, HdrType, HdrN,
         HdrCw, HdrCc;
    EnteredPublishes(c, x, resident);
    EnteredHadRoom(c, x, resident);
  }

  lemma EnteredHadRoom(c: CallUnit.Context, x: CallUnit.Operands, resident: bool)
    requires c.Ok() && x.Ok() && CallUnit.Execute(c, x, resident).0.Entered?
    ensures CallUnit.Room(c.m, c.cr[5], c.cr[12], x).Accept?
  {
    hide CallUnit.Room, CallUnit.Source, CallUnit.Enterable, PushCall, EGt, M.ResolveToken, CallUnit.PublishedContext,
         CallUnit.InStack, CallUnit.Method;
  }

  lemma SourceEnters(c: CallUnit.Context, x: CallUnit.Operands)
    requires c.Ok() && x.Ok() && CallUnit.Begin(c, x).Go?
    ensures var gt, s := CallUnit.Begin(c, x).gt, c.cr[x.src];
      && gt == (if x.indexed then ReadAt(c.m, (s.location + x.index * 4) % 0x1_0000_0000) else s.gt)
      && GtType(gt) == GT_INFORM && HasChurch(gt, E)
  {
    hide AuthLimit, HasChurch, ReadAt;
    BootActivation.KindIsInform(CallUnit.Begin(c, x).gt);
  }

  lemma PhaseOneHolds(c: CallUnit.Context, gt: Word, resident: bool)
    requires c.Ok() && CallUnit.PhaseOne(c, gt, resident).Loaded?
    ensures var cap, e := CallUnit.PhaseOne(c, gt, resident).cap, c.table[GtSlot(gt)];
      && cap.gt == gt && cap.authority == e.authority && cap.location == M.ResolvedBase(e, resident)
      && (resident ==> GtSeq(gt) == AuthSeq(e.authority) && SealOk(e) && M.Reachable(e))
  {
    hide AuthLimit, SealOk, GtSeq, AuthSeq, AuthF, GtSlot, M.SlotInBounds;
  }

  /** What an entered CALL leaves in the other registers: a masked argument register is null, an
      unmasked one has lost its B bit and nothing else, and CR5, CR12, CR13 and CR15 stay.  CR14
      executes the code and CR6 keeps the token it was called by. */
  lemma CallLeavesRegisters(c: CallUnit.Context, x: CallUnit.Operands, resident: bool)
    requires c.Ok() && x.Ok() && CallUnit.Execute(c, x, resident).0.Entered?
    ensures var (r, d) := CallUnit.Execute(c, x, resident);
      && (forall k :: 0 <= k < ARGUMENTS && k != 5 && k != 6 ==>
            if x.mask[k] then d.cr[k] == NULL_CAP_REG
            else d.cr[k].location == c.cr[k].location && d.cr[k].authority == c.cr[k].authority
                 && Unbound(d.cr[k].gt, c.cr[k].gt))
      && d.cr[5] == c.cr[5] && d.cr[12] == c.cr[12] && d.cr[13] == c.cr[13] && d.cr[15] == c.cr[15]
      && SameIdentity(d.cr[14].gt, r.cap.gt) && Rights(d.cr[14].gt, false, GtPerm(r.cap.gt, 0), false, true)
      && (HdrCc(r.header) > 0 && !x.mask[6] ==>
            && Unbound(d.cr[6].gt, r.cap.gt) && AuthLimit(d.cr[6].authority) == HdrCc(r.header) - 1
            && d.cr[6].location
               == (r.cap.location + (BodyWords(r.header) - HdrCc(r.header)) * 4) % 0x1_0000_0000)
      && (HdrCc(r.header) == 0 || x.mask[6] ==> d.cr[6] == NULL_CAP_REG)
  {
    hide HdrCw, HdrCc, BodyWords, AuthLimit, CallUnit.Execute, Limit, CallCodeGt, Rights, SameIdentity,
         CallUnit.Publication, CallUnit.PhaseOne, CallUnit.Begin, CallUnit.Method, M.Touch, Unbound, ClearBound, Plus;
    EnteredPublishes(c, x, resident);
    var r := CallUnit.Execute(c, x, resident).0;
    var cap := CallUnit.PhaseOne(c, CallUnit.Begin(c, x).gt, resident).cap;
    CallRights(r.cap.gt);
    if HdrCc(r.header) > 0 {
      RowsAreFew(r.header);
      LimitFields(HdrCc(r.header) - 1, AuthSeq(cap.authority));
    } else {
      assert ClearBound(NULL_CAP_REG) == NULL_CAP_REG by { NullIsUnbound(); }
    }
    forall k | 0 <= k < ARGUMENTS
      ensures ClearBound(c.cr[k]).location == c.cr[k].location && ClearBound(c.cr[k]).authority == c.cr[k].authority
      ensures Unbound(ClearBound(c.cr[k]).gt, c.cr[k].gt)
    {
      BoundCleared(c.cr[k]);
    }
    BoundCleared(CallClist(cap, r.cap.location, r.header));
  }

  lemma RowsAreFew(h: Word)
    ensures HdrCc(h) < 0x100
  {
  }

  lemma NullIsUnbound()
    ensures ClearBound(NULL_CAP_REG) == NULL_CAP_REG
  {
  }

  /** The rights cLoad publishes: code to read and execute, without B, and the c-list under the E
      token itself. */
  lemma CloadRights(gt: Word, base: Word, h: Word)
    ensures var code := CloadCode(gt, base, h).gt;
      && GtSlot(code) == GtSlot(gt) && GtSeq(code) == GtSeq(gt) && GtType(code) == GtType(gt) && !GtBound(code)
      && Rights(code, false, true, false, true)
    ensures HdrCc(h) > 0 ==> CloadClist(gt, base, h).gt == gt
  {
    hide Rights, GtSlot, GtSeq, GtType, GtBound;
    var lo := gt % 0x800_0000;
    IdentityFields(gt, lo, gt / 0x800_0000);
    IdentityFields(lo + 0x5000_0000, lo, 10);
    PermBits(lo, 10, 0);
  }

  /** The same token without its B bit. */
  predicate Unbound(x: Word, y: Word) {
    && GtSlot(x) == GtSlot(y) && GtSeq(x) == GtSeq(y) && GtType(x) == GtType(y) && !GtBound(x)
    && Rights(x, GtChurch(y), GtPerm(y, 0), GtPerm(y, 1), GtPerm(y, 2))
  }

  lemma BoundCleared(cap: Cap)
    ensures ClearBound(cap).location == cap.location && ClearBound(cap).authority == cap.authority
    ensures Unbound(ClearBound(cap).gt, cap.gt)
  {
    hide Rights, GtSlot, GtSeq, GtType, GtBound;
    var lo, k := cap.gt % 0x800_0000, cap.gt / 0x800_0000;
    IdentityFields(cap.gt, lo, k);
    IdentityFields(cap.gt % 0x8000_0000, lo, k % 16);
    PermBits(lo, k % 16, k / 16);
    PermBits(lo, k % 16, 0);
    assert Rights(cap.gt, GtChurch(cap.gt), GtPerm(cap.gt, 0), GtPerm(cap.gt, 1), GtPerm(cap.gt, 2)) by {
      OwnRights(cap.gt);
    }
    SameRights(cap.gt, cap.gt % 0x8000_0000);
  }

  lemma OwnRights(gt: Word)
    ensures Rights(gt, GtChurch(gt), GtPerm(gt, 0), GtPerm(gt, 1), GtPerm(gt, 2))
  {
  }

  lemma SameRights(x: Word, y: Word)
    ensures forall c, r, w, e :: Rights(x, c, r, w, e) && Rights(y, c, r, w, e) ==>
      Rights(y, GtChurch(x), GtPerm(x, 0), GtPerm(x, 1), GtPerm(x, 2))
  {
  }

  lemma CallRights(gt: Word)
    ensures SameIdentity(CallCodeGt(gt), gt) && Rights(CallCodeGt(gt), false, GtPerm(gt, 0), false, true)
  {
    hide WithPerms, Rights, SameIdentity, GtPerm;
    var perms := if GtPerm(gt, 0) then 10 else 8;
    WithPermsRights(gt, perms);
    CallCodeIsWithPerms(gt);
  }

  lemma CallCodeIsWithPerms(gt: Word)
    ensures CallCodeGt(gt) == WithPerms(gt, if GtPerm(gt, 0) then 10 else 8)
  {
  }

  /** The stages behind an entered CALL. */
  lemma EnteredPublishes(c: CallUnit.Context, x: CallUnit.Operands, resident: bool)
    requires c.Ok() && x.Ok() && CallUnit.Execute(c, x, resident).0.Entered?
    ensures CallUnit.Begin(c, x).Go? && CallUnit.PhaseOne(c, CallUnit.Begin(c, x).gt, resident).Loaded?
    ensures var cap := CallUnit.PhaseOne(c, CallUnit.Begin(c, x).gt, resident).cap;
      var r, d := CallUnit.Execute(c, x, resident).0, CallUnit.Execute(c, x, resident).1;
      && r == CallUnit.Publication(c.m, CallUnit.Second(cap), x.imm) && HdrCw(r.header) > 0
      && d.nia == CallUnit.EntryAddress(r)
      && d.cr == CallUnit.PublishedContext(CallUnit.LoadedContext(c, cap), r, x.mask).cr
      && CallUnit.Method(c.m, cap.location, r.header, x.imm) == Accept(r.entry) && r.header == ReadAt(c.m, cap.location)
      && HdrCw(r.header) + HdrCc(r.header) < BodyWords(r.header) && r.cap == CallUnit.Second(cap) && 0 < x.imm
  {
    hide HdrCw, AuthLimit, CallUnit.Room, CallUnit.Enterable, M.ResolveToken, PushCall, ReadAt,
         CallUnit.InStack, CallUnit.EntryAddress, CallUnit.PublishedContext, CallUnit.LoadedContext, CallUnit.Method,
         HdrCc, BodyWords;
  }

  lemma CodeIsShort(h: Word)
    ensures HdrCw(h) < 0x2000
  {
  }

  lemma BackToOffset(base: Word, offset: nat)
    requires offset < 0x1_0000_0000
    ensures ((base + offset) % 0x1_0000_0000 + 0x1_0000_0000 - base) % 0x1_0000_0000 == offset
  {
    if base + offset < 0x1_0000_0000 {
      DivModUnique(offset + 0x1_0000_0000, 0x1_0000_0000, 1, offset);
    } else {
      DivModUnique(base + offset, 0x1_0000_0000, 1, base + offset - 0x1_0000_0000);
    }
  }

  /** CHANGE, boot activation and boot CHANGE each open exactly the heap as CR5. */
  lemma HeapIsOpened(t: Cap, h: Word, a: Admission, version: nat)
    requires ThreadHeader(h) && t.location + (BodyWords(h) - 1) * 4 < 0x1_0000_0000
    requires a.header == h && a.baseWord < M.RESIDENT_WORDS && a.baseWord * 4 == t.location && version < 0x200
    ensures OpensHeap(HeapCap(t, h), t, h)
    ensures OpensHeap(BootActivation.BootHeap(a, version), t, h)
    ensures OpensHeap(BootChange.BootHeap(t, h), t, h)
  {
    hide AuthLimit, Limit, BodyWords, HdrCw, WithPerms;
    var limit := BodyWords(h) - HdrCw(h) - 31;
    Geometry(h);
    HeapFits(t.location, BodyWords(h));
    LimitFields(limit, AuthSeq(t.authority));
    LimitFields(limit, version);
    LimitFields(limit, 0);
  }

  /** A completed CHANGE continues inside the code window it opens. */
  lemma ChangeEntersCode(c: Core, p: Plan)
    requires c.Ok() && EntryHeader(c.m, p.entry, p.resume) == Accept(p.entryHeader)
    ensures EntryHeaderOk(p.entryHeader)
    ensures var code := CodeCap(p.entry, p.entryHeader);
      code.location <= EntryNia(p) <= code.location + AuthLimit(code.authority) * 4
  {
    var pc := if p.resume.root then 0 else Pc(p.resume.frame);
    EntryPc(c.m, p, pc);
    LimitFields(HdrCw(p.entryHeader) - 1, AuthSeq(p.entry.authority));
    ResumedAddress(c.m, p, pc);
  }

  lemma EntryPc(m: seq<Word>, p: Plan, pc: nat)
    requires EntryHeader(m, p.entry, p.resume) == Accept(p.entryHeader)
    requires pc == if p.resume.root then 0 else Pc(p.resume.frame)
    ensures EntryHeaderOk(p.entryHeader) && 0 <= pc < HdrCw(p.entryHeader)
  {
    hide BodyAt, BodyWords, AuthLimit, Pc;
  }

  /** A completed CHANGE leaves CR6 and CR14 naming one lump, the admitted entry: the token a
      later suspension derives from CR6 is the entry's, and it records the word after the
      resumed one. */
  lemma SwitchIsResumable(c: Core, p: Plan, handoff: bool)
    requires c.Ok() && PlanOk(p) && EntersOnly(p.entry.gt)
    requires EntryHeader(c.m, p.entry, p.resume) == Accept(p.entryHeader)
    ensures var d := Switched(c, p, handoff);
      && EGt(d.regs[6].gt) == p.entry.gt && d.regs[14].location == p.entry.location + 4
      && d.regs[12] == p.thread
      && SuspendPc(d) == ((if p.resume.root then 0 else Pc(p.resume.frame)) + 1) % 0x8000
  {
    var d, pc := Switched(c, p, handoff), if p.resume.root then 0 else Pc(p.resume.frame);
    CommittedWindows(c.regs, p, handoff);
    EntryToken(p.entry.gt);
    ResumedAddress(c.m, p, pc);
    NextWord(d, p.entry.location, pc);
  }

  lemma CommittedWindows(regs: seq<Cap>, p: Plan, handoff: bool)
    requires |regs| == 16 && PlanOk(p)
    ensures var r := CommittedRegs(regs, p, handoff);
      && r[6] == ClistCap(p.entry, p.entryHeader) && r[14] == CodeCap(p.entry, p.entryHeader)
      && r[12] == p.thread && r[5] == HeapCap(p.thread, p.header) && r[13] == regs[13]
      && r[15] == if handoff then p.ns else regs[15]
  {
  }

  lemma ResumedAddress(m: seq<Word>, p: Plan, pc: nat)
    requires EntryHeader(m, p.entry, p.resume) == Accept(p.entryHeader)
    requires pc == if p.resume.root then 0 else Pc(p.resume.frame)
    ensures EntryNia(p) == p.entry.location + 4 + pc * 4 && Plus(p.entry.location, 4) == p.entry.location + 4
    ensures p.entryHeader == ReadAt(m, p.entry.location) && EntryHeaderOk(p.entryHeader)
  {
    EntryParts(m, p.entry, p.resume, p.entryHeader);
    WindowsAreDisjoint(p.entryHeader, 0);
    NoWrapInside(p.entry.location, pc, BodyWords(p.entryHeader));
  }

  lemma NextWord(d: Core, base: Word, pc: nat)
    requires d.Ok() && d.regs[14].location == base + 4 && d.nia == base + 4 + pc * 4
    ensures SuspendPc(d) == (pc + 1) % 0x8000
  {
  }

  /** The code windows that CHANGE, CALL and cLoad open over a lump with code words end before
      word 32766.  cLoad of byte-addressed lumps alone opens one over a header without any, and
      that one does not. */
  lemma WindowsEndEarly(e: Cap, gt: Word, base: Word, h: Word)
    ensures EntryHeaderOk(h) ==> AuthLimit(CodeCap(e, h).authority) < 0x7FFE
    ensures HdrCw(h) > 0 ==> AuthLimit(CallCode(e, h).authority) < 0x7FFE
    ensures AuthLimit(CloadCode(gt, base, h).authority) < 0x7FFE <==> HdrCw(h) > 0
  {
    hide AuthLimit, AuthSeq, GtSeq, HdrCw, EntryHeaderOk, Limit, WithPerms, CallCodeGt;
    CodeIsShort(h);
    VersionsAreShort(gt, e.authority);
    CloadLimit(HdrCw(h));
    LimitFields((HdrCw(h) + 0x1F_FFFF) % 0x20_0000, GtSeq(gt));
    if HdrCw(h) > 0 {
      LimitFields(HdrCw(h) - 1, AuthSeq(e.authority));
    }
    assert EntryHeaderOk(h) ==> HdrCw(h) > 0 by { HasCode(h); }
  }

  lemma VersionsAreShort(gt: Word, authority: Word)
    ensures GtSeq(gt) < 0x200 && AuthSeq(authority) < 0x200
  {
  }

  lemma HasCode(h: Word)
    ensures EntryHeaderOk(h) ==> HdrCw(h) > 0
  {
    hide BodyWords, HdrCw;
  }

  lemma CloadLimit(cw: nat)
    requires cw < 0x2000
    ensures (cw + 0x1F_FFFF) % 0x20_0000 == if cw == 0 then 0x1F_FFFF else cw - 1
  {
  }

  /** After a completed CHANGE the resumed Thread is fenced: a suspension there always comes back
      in full. */
  lemma SwitchIsFenced(c: Core, p: Plan, handoff: bool)
    requires c.Ok() && PlanOk(p) && EntryHeader(c.m, p.entry, p.resume) == Accept(p.entryHeader)
    ensures Fenced(Switched(c, p, handoff))
  {
    hide EntryHeader, PlanOk, CodeCap, EntryNia, Saved, Popped, AuthLimit, CommittedRegs;
    CommittedWindows(c.regs, p, handoff);
    ChangeEntersCode(c, p);
    WindowsEndEarly(p.entry, 0, 0, p.entryHeader);
  }

  lemma EntryToken(gt: Word)
    requires EntersOnly(gt)
    ensures EGt(WithPerms(gt, CHURCH_L)) == gt
  {
    var lo, b := gt % 0x800_0000, gt / 0x8000_0000;
    var w := WithPerms(gt, CHURCH_L);
    DivModUnique(w, 0x800_0000, CHURCH_L + 16 * b, lo);
    DivModUnique(w, 0x8000_0000, b, lo + CHURCH_L * 0x800_0000);
    EntersOnlyWord(gt);
  }

  lemma EntersOnlyWord(gt: Word)
    requires EntersOnly(gt)
    ensures gt == gt % 0x800_0000 + 0x4800_0000 + gt / 0x8000_0000 * 0x8000_0000
  {
    var k := gt / 0x800_0000;
    assert k / 2 == gt / 0x1000_0000 && k / 4 == gt / 0x2000_0000 && k / 8 == gt / 0x4000_0000;
    assert k / 16 == gt / 0x8000_0000;
  }

  lemma NoWrapInside(base: Word, pc: nat, size: nat)
    requires pc + 1 < size && base + (size - 1) * 4 < 0x1_0000_0000
    ensures (base + 4 + pc * 4) % 0x1_0000_0000 == base + 4 + pc * 4
  {
  }

  /** The word LAMBDA saves leads RETURN back to its continuation. */
  lemma LambdaReturns(target: Cap, code: Cap, continuation: Word, h: Word)
    requires LambdaUnit.CheckTarget(target, code, continuation, h).Accept?
    ensures var pc := LambdaUnit.CheckTarget(target, code, continuation, h).value;
      code.location % 4 == 0 ==> code.location + pc * 4 == continuation && pc <= AuthLimit(code.authority)
  {
  }

  // ---- the stack discipline

  /** CALL's room and stores are the chain's push. */
  lemma CallIsChainPush(m: seq<Word>, cr5: Cap, cr12: Cap, x: CallUnit.Operands, egt: Word)
    requires |m| == ADDRESS_SPACE && x.Ok() && !x.root && CallUnit.Room(m, cr5, cr12, x).Accept?
    ensures var p, at := CallUnit.Room(m, cr5, cr12, x).value, x.threadBase / 4;
      var op := Call(p.pc, x.flags, egt);
      && p.pc == (x.callerPc + 1) % 0x8000 && op.Ok() && Admits(m, at, x.threadHdr, op) && CallUnit.InStack(p, x)
      && Exec(m, at, x.threadHdr, op) == PushCall(m, at, p.sto, p.sz, p.pc, x.flags, egt)
  {
    CallUnit.RoomFits(m, cr5, cr12, x);
  }

  lemma EnteredHasRoom(c: CallUnit.Context, x: CallUnit.Operands, resident: bool)
    requires c.Ok() && x.Ok() && !x.root && CallUnit.Execute(c, x, resident).0.Entered?
    ensures CallUnit.Room(c.m, c.cr[5], c.cr[12], x).Accept?
    ensures var p := CallUnit.Room(c.m, c.cr[5], c.cr[12], x).value;
      && CallUnit.InStack(p, x)
      && CallUnit.Execute(c, x, resident).1.m
         == PushCall(c.m, x.threadBase / 4, p.sto, p.sz, p.pc, x.flags, EGt(c.cr[6].gt))
  {
    hide PushCall, EGt, CallUnit.Room, CallUnit.Source, CallUnit.Enterable, CallUnit.Publication, CallUnit.InStack,
         CallUnit.PublishedContext, CallUnit.AfterLoads, M.ResolveToken;
    var gt := CallUnit.Begin(c, x).gt;
    var cap := CallUnit.PhaseOne(c, gt, resident).cap;
    CodeWhenEntered(c.m, CallUnit.Second(cap), x.imm);
    LoadedHasRoom(c, CallUnit.LoadedContext(c, cap), x, CallUnit.Publication(c.m, CallUnit.Second(cap), x.imm));
  }

  lemma CodeWhenEntered(m: seq<Word>, cap: Cap, imm: Word)
    requires |m| == ADDRESS_SPACE
    ensures var r := CallUnit.Publication(m, cap, imm); r.Entered? ==> HdrCw(r.header) > 0
  {
  }

  lemma LoadedHasRoom(c: CallUnit.Context, d: CallUnit.Context, x: CallUnit.Operands, r: CallUnit.Result)
    requires c.Ok() && d.Ok() && x.Ok() && !x.root && (r.Entered? ==> HdrCw(r.header) > 0)
    requires CallUnit.AfterLoads(c, d, x, r).0.Entered?
    ensures CallUnit.Room(c.m, c.cr[5], c.cr[12], x).Accept?
    ensures var p := CallUnit.Room(c.m, c.cr[5], c.cr[12], x).value;
      && CallUnit.InStack(p, x)
      && CallUnit.AfterLoads(c, d, x, r).1.m
         == PushCall(c.m, x.threadBase / 4, p.sto, p.sz, p.pc, x.flags, EGt(c.cr[6].gt))
  {
    hide PushCall, EGt, CallUnit.Room, HdrCw;
    CallUnit.RoomFits(c.m, c.cr[5], c.cr[12], x);
  }

  /** An entered CALL leaves the stack it found with its caller on top: the word after the CALL,
      the flags, and the E token of the caller's c-list. */
  lemma CallPushesChain(c: CallUnit.Context, x: CallUnit.Operands, resident: bool, ks: seq<Kont>)
    requires c.Ok() && x.Ok() && !x.root && CallUnit.Execute(c, x, resident).0.Entered?
    requires Holds(c.m, x.threadBase / 4, x.threadHdr, ks)
    ensures var caller := Kont(true, (x.callerPc + 1) % 0x8000, x.flags, EGt(c.cr[6].gt));
      Holds(CallUnit.Execute(c, x, resident).1.m, x.threadBase / 4, x.threadHdr, [caller] + ks)
  {
    hide Holds, PushCall, EGt, Admits, CallUnit.Execute, CallUnit.Room;
    EnteredHasRoom(c, x, resident);
    HoldsBody(c.m, x.threadBase / 4, x.threadHdr, ks);
    var egt := EGt(c.cr[6].gt);
    CallIsChainPush(c.m, c.cr[5], c.cr[12], x, egt);
    var p := CallUnit.Room(c.m, c.cr[5], c.cr[12], x).value;
    CallKeeps(c.m, x.threadBase / 4, x.threadHdr, ks, Call(p.pc, x.flags, egt));
  }

  /** A root CALL always leaves the chain of the one poison continuation.  It does not look at
      the stack floor: its offset stays inside the stack exactly from three stack words on, and
      with one stack word its companion token lands in the heap. */
  lemma RootCallOpensStack(m: seq<Word>, cr5: Cap, cr12: Cap, x: CallUnit.Operands, egt: Word)
    requires |m| == ADDRESS_SPACE && x.Ok() && x.root && CallUnit.Room(m, cr5, cr12, x).Accept?
    requires BodyWords(x.threadHdr) <= 4096 && m[x.threadBase / 4] == x.threadHdr
    ensures CallUnit.InStack(CallUnit.Room(m, cr5, cr12, x).value, x)
    ensures var p, at, h := CallUnit.Room(m, cr5, cr12, x).value, x.threadBase / 4, x.threadHdr;
      var n, root := PushCall(m, at, p.sto, p.sz, p.pc, x.flags, egt), [Kont(true, POISON_PC, x.flags, egt)];
      && Sto(n[at + STO_OFFSET]) == Caps(h) - 3 && Chain(n, at, Caps(h), Caps(h) - 3, true, root)
      && (Holds(n, at, h, root) <==> HdrCw(h) >= 3)
      && n[at + Caps(h) - 2] == egt && (Caps(h) - 2 < StackLo(h) <==> HdrCw(h) == 1)
  {
    var h, at := x.threadHdr, x.threadBase / 4;
    Geometry(h);
    CallUnit.RoomFits(m, cr5, cr12, x);
    RootIsLastWord(h);
    CallWords(m, at, Caps(h) - 1, true, POISON_PC, x.flags, egt);
  }

  /** The header of a Thread of 256 words with one stack word, or two. */
  function SmallThread(cw: nat): Word {
    if cw == 1 then 0xF900_060C else 0xF900_0A0C
  }

  lemma SmallThreadFields(cw: nat)
    requires 1 <= cw <= 2
    ensures ThreadHeader(SmallThread(cw)) && BodyWords(SmallThread(cw)) == 256 && HdrCw(SmallThread(cw)) == cw
  {
  }

  /** Root CALLs that are entered and leave the stack, on Threads of one and of two stack words. */
  lemma RootCallLeavesStack(cw: nat) returns (c: CallUnit.Context, x: CallUnit.Operands)
    requires 1 <= cw <= 2
    ensures c.Ok() && x.Ok() && x.root && HdrCw(x.threadHdr) == cw && CallUnit.Execute(c, x, false).0.Entered?
    ensures var h, at, n := x.threadHdr, x.threadBase / 4, CallUnit.Execute(c, x, false).1.m;
      && Sto(n[at + STO_OFFSET]) < StackLo(h) && (forall ks :: !Holds(n, at, h, ks))
      && n[at + Caps(h) - 2] == c.cr[0].gt && (Caps(h) - 2 < StackLo(h) <==> cw == 1)
  {
    hide CallUnit.Execute, CallUnit.Room, PushCall, Chain, ThreadHeader, BodyWords, HdrCw, SmallThread;
    var gt: Word := 0x4A00_0001;
    var e := Entry(256, 0x4000_003F, 0, 0);
    var h := SmallThread(cw);
    var m := seq(ADDRESS_SPACE, _ => 0)[64 := 0xF800_0801][65 := 2][256 := h];
    var cr := seq(CRS, _ => NULL_CAP_REG)[0 := Cap(gt, 0, 0)][5 := Cap(0x1200_0000, 0, 0)]
      [12 := Cap(SLOT2_TOKEN, 1024, 255)][15 := Cap(0, 0, 1)];
    c := CallUnit.Context(m, cr, seq(CRS, _ => 0), seq(M.SLOTS, _ => Entry(0, 0, 0, 0))[1 := e], 0);
    x := CallUnit.Operands(0, false, false, 1, 0, seq(ARGUMENTS, _ => false), 0, 0, true, 1024, h);
    SmallThreadFields(cw);
    RootCallEnters(c, x, gt, e);
    RootCallOpensStack(c.m, c.cr[5], c.cr[12], x, gt);
  }

  lemma RootCallEnters(c: CallUnit.Context, x: CallUnit.Operands, gt: Word, e: Entry)
    requires c.Ok() && x.Ok() && x.root && x.src == 0 && !x.indexed && x.imm == 1 && BodyWords(x.threadHdr) == 256
    requires gt == 0x4A00_0001 && e == Entry(256, 0x4000_003F, 0, 0)
    requires c.m[64] == 0xF800_0801 && c.m[65] == 2 && c.table[1] == e
    requires c.cr[0].gt == gt && c.cr[15].authority == 1
    requires c.cr[5].gt == 0x1200_0000 && c.cr[12].gt == SLOT2_TOKEN
    ensures CallUnit.Room(c.m, c.cr[5], c.cr[12], x) == Accept(CallUnit.Push(243, true, POISON_PC))
    ensures var p := CallUnit.Push(243, true, POISON_PC);
      && CallUnit.InStack(p, x) && CallUnit.Execute(c, x, false).0.Entered?
      && CallUnit.Execute(c, x, false).1.m
         == PushCall(c.m, x.threadBase / 4, p.sto, p.sz, p.pc, x.flags, c.cr[0].gt)
  {
    CallProofs.WitnessToken(gt);
    CallProofs.WitnessHeader(0xF800_0801, 63);
  }

  /** The root frame sits in the last stack word exactly up to 4096 words; in the largest body
      the twelve-bit offset puts it 4096 words lower. */
  lemma RootIsLastWord(h: Word)
    requires ThreadHeader(h)
    ensures (Caps(h) - 1) % 0x1000 == Caps(h) - 1 <==> BodyWords(h) <= 4096
    ensures BodyWords(h) > 4096 ==> (Caps(h) - 1) % 0x1000 == Caps(h) - 1 - 0x1000
  {
  }

  /** With no flags set, the words a root CALL writes are the root form that boot looks for. */
  lemma RootCallIsRootForm(m: seq<Word>, cr5: Cap, cr12: Cap, x: CallUnit.Operands, egt: Word)
    requires |m| == ADDRESS_SPACE && x.Ok() && x.root && CallUnit.Room(m, cr5, cr12, x).Accept?
    requires BodyWords(x.threadHdr) <= 4096 && x.flags == 0
    ensures var p, at := CallUnit.Room(m, cr5, cr12, x).value, x.threadBase / 4;
      && CallUnit.InStack(p, x)
      && var n := PushCall(m, at, p.sto, p.sz, p.pc, 0, egt);
         && n[at + STO_OFFSET] == RootIndicator(Caps(x.threadHdr)) && n[at + Caps(x.threadHdr) - 2] == egt
         && n[at + Caps(x.threadHdr) - 1] == RootFrame(Caps(x.threadHdr))
  {
    Geometry(x.threadHdr);
    CallUnit.RoomFits(m, cr5, cr12, x);
    RootIsLastWord(x.threadHdr);
    assert (Caps(x.threadHdr) - 3) % 0x1000 == Caps(x.threadHdr) - 3;
  }

  /** CHANGE resumes a Thread by the chain's pop: what it reads is the top continuation, and it
      never pops the root. */
  lemma ChangeIsChainPop(c: Core, q: Operand, p: Plan, ks: seq<Kont>)
    requires c.Ok() && ThreadHeader(p.header) && !p.resume.root
    requires Continuation(c, q, p.thread, p.header, false) == Accept(p.resume)
    requires p.thread.location % 4 == 0 && p.thread.location / 4 + BodyWords(p.header) <= ADDRESS_SPACE
    requires Holds(c.m, p.thread.location / 4, p.header, ks)
    ensures |ks| > 1 && ks[0].two && ks[0].pc == Pc(p.resume.frame) && ks[0].flags == Flags(p.resume.frame)
    ensures ks[0].egt == p.resume.gt
    ensures Holds(Popped(c.m, p), p.thread.location / 4, p.header, ks[1..])
  {
    var at := p.thread.location / 4;
    Geometry(p.header);
    ResumeAdmits(c, q, p.thread, p.header, p.resume);
    TopIsPopped(c.m, at, p.header, ks, p.resume.frame, p.resume.gt);
    PoppedWord(c.m, p);
  }

  lemma TopIsPopped(m: seq<Word>, at: nat, h: Word, ks: seq<Kont>, f: Word, gt: Word)
    requires Holds(m, at, h, ks) && Admits(m, at, h, Resumed)
    requires var w := m[at + STO_OFFSET]; f == m[at + Sto(w) + 2] && gt == m[at + Sto(w) + 1]
    ensures |ks| > 1 && ks[0].two && ks[0].pc == Pc(f) && ks[0].flags == Flags(f) && ks[0].egt == gt
    ensures Holds(PopFrame(m, at, f), at, h, ks[1..])
  {
    PopKeeps(m, at, h, ks, Resumed);
  }

  lemma ResumeAdmits(c: Core, q: Operand, t: Cap, h: Word, r: Resume)
    requires c.Ok() && ThreadHeader(h) && Continuation(c, q, t, h, false) == Accept(r) && !r.root
    requires t.location % 4 == 0 && t.location / 4 + BodyWords(h) <= ADDRESS_SPACE
    ensures var at := t.location / 4; var w := c.m[at + STO_OFFSET];
      && Admits(c.m, at, h, Resumed) && Sz(w)
      && r.frame == c.m[at + Sto(w) + 2] && r.gt == c.m[at + Sto(w) + 1]
  {
    Geometry(h);
    BodyWord(c.m, t, STO_OFFSET);
    var w := BodyAt(c.m, t, STO_OFFSET);
    if Sto(w) + 2 <= Caps(h) - 1 {
      BodyWord(c.m, t, Sto(w) + 2);
      BodyWord(c.m, t, Sto(w) + 1);
    }
  }
}
