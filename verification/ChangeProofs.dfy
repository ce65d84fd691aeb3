/** What a suspended Thread's body holds, and that a later CHANGE back restores it. */
module ChangeProofs {
  import opened Bits
  import opened Change
  import opened Checks
  import opened Fields
  import opened Memory
  import opened Stores
  import opened Thread

  // ---- the footprint of the save

  /** The words of a body the save writes: data homes, word 17, the two frame words, capability homes. */
  predicate InFootprint(h: Word, sto: nat, o: int) {
    1 <= o <= STO_OFFSET || o == sto - 1 || o == sto || Caps(h) <= o < BodyWords(h)
  }

  lemma PutIsInFootprint(c: Core, h: Word, indicator: Word, k: nat)
    requires c.Ok() && ThreadHeader(h) && StackLo(h) + 2 <= Sto(indicator) <= Caps(h) - 1 && k < SAVE_WORDS
    ensures InFootprint(h, Sto(indicator), SavePut(c, h, indicator, k).offset)
  {
    Geometry(h);
  }

  /** Thirty-one different words. */
  lemma SaveIsDistinct(c: Core, h: Word, indicator: Word)
    requires c.Ok() && ThreadHeader(h) && StackLo(h) + 2 <= Sto(indicator) <= Caps(h) - 1
    ensures Distinct(SavePuts(c, h, indicator))
  {
    Geometry(h);
    forall i, j | 0 <= i < j < SAVE_WORDS
      ensures SavePut(c, h, indicator, i).offset != SavePut(c, h, indicator, j).offset
    {
      PutsDiffer(c, h, indicator, i, j);
    }
  }

  lemma PutsDiffer(c: Core, h: Word, indicator: Word, i: nat, j: nat)
    requires c.Ok() && ThreadHeader(h) && StackLo(h) + 2 <= Sto(indicator) <= Caps(h) - 1
    requires i < j < SAVE_WORDS && HEAP_OFFSET < StackLo(h)
    ensures SavePut(c, h, indicator, i).offset != SavePut(c, h, indicator, j).offset
  {
  }

  /** A word the save names holds exactly what it stored. */
  lemma SavedWord(c: Core, out: Outgoing, k: nat)
    requires c.Ok() && OutgoingFits(out) && out.Suspend? && k < SAVE_WORDS
    ensures var p := SavePut(c, out.header, out.indicator, k);
      out.base / 4 + p.offset < ADDRESS_SPACE && Saved(c, out)[out.base / 4 + p.offset] == p.value
  {
    PutsFit(c, out);
    SaveIsDistinct(c, out.header, out.indicator);
    Stored(c.m, out.base / 4, SavePuts(c, out.header, out.indicator), k);
    PutsInBody(c, out.header, out.indicator, k);
  }

  /** Header, heap, the stack below and above the two frame words, and everything outside the
      body stay as they were. */
  lemma SaveTouchesNothingElse(c: Core, out: Outgoing, j: nat)
    requires c.Ok() && OutgoingFits(out) && out.Suspend? && j < ADDRESS_SPACE
    requires !InFootprint(out.header, Sto(out.indicator), j - out.base / 4)
    ensures Saved(c, out)[j] == c.m[j]
  {
    PutsFit(c, out);
    var puts := SavePuts(c, out.header, out.indicator);
    forall k | 0 <= k < SAVE_WORDS
      ensures out.base / 4 + puts[k].offset != j
    {
      PutIsInFootprint(c, out.header, out.indicator, k);
    }
    Untouched(c.m, out.base / 4, puts, j);
  }

  // ---- reading a body back

  /** Two memories hold the same body. */
  ghost predicate SameBody(m: seq<Word>, n: seq<Word>, base: Word, words: nat)
    requires |m| == |n| == ADDRESS_SPACE && base / 4 + words <= ADDRESS_SPACE
  {
    forall j :: base / 4 <= j < base / 4 + words ==> m[j] == n[j]
  }

  lemma BodyWord(m: seq<Word>, t: Cap, offset: nat)
    requires |m| == ADDRESS_SPACE && t.location % 4 == 0 && t.location / 4 + offset < ADDRESS_SPACE
    ensures BodyAt(m, t, offset) == m[t.location / 4 + offset]
  {
    WordOffset(t.location, offset);
  }

  /** A word of a saved body, read back through any memory that kept the body. */
  lemma SavedWordRead(c: Core, out: Outgoing, n: seq<Word>, t: Cap, k: nat)
    requires c.Ok() && OutgoingFits(out) && out.Suspend? && k < SAVE_WORDS
    requires |n| == ADDRESS_SPACE && SameBody(Saved(c, out), n, out.base, BodyWords(out.header))
    requires t.location == out.base
    ensures var put := SavePut(c, out.header, out.indicator, k); BodyAt(n, t, put.offset) == put.value
  {
    SavedWord(c, out, k);
    PutsInBody(c, out.header, out.indicator, k);
    BodyWord(n, t, SavePut(c, out.header, out.indicator, k).offset);
  }

  lemma HeaderReadBack(c: Core, out: Outgoing, n: seq<Word>, t: Cap)
    requires c.Ok() && OutgoingFits(out) && out.Suspend? && out.base == c.regs[12].location
    requires out.header == BodyAt(c.m, c.regs[12], 0)
    requires |n| == ADDRESS_SPACE && SameBody(Saved(c, out), n, out.base, BodyWords(out.header))
    requires t.location == out.base
    ensures BodyAt(n, t, 0) == out.header
  {
    Geometry(out.header);
    SaveTouchesNothingElse(c, out, out.base / 4);
    BodyWord(n, t, 0);
    BodyWord(c.m, c.regs[12], 0);
  }

  // ---- the round trip

  /** What a suspension recorded: everything CHANGE back to the Thread will read. */
  ghost predicate Recorded(c: Core, out: Outgoing, n: seq<Word>, t: Cap)
    requires c.Ok() && out.Suspend? && ThreadHeader(out.header)
  {
    && BodyAt(n, t, 0) == out.header
    && 2 <= Sto(out.indicator)
    && BodyAt(n, t, STO_OFFSET) == Frame(Sto(out.indicator) - 2, true, 0, c.flags)
    && BodyAt(n, t, Sto(out.indicator)) == Frame(Sto(out.indicator), Sz(out.indicator), SuspendPc(c), c.flags)
    && BodyAt(n, t, Sto(out.indicator) - 1) == EGt(c.regs[6].gt)
    && (forall k {:trigger c.regs[k]} :: 0 <= k < CAP_WORDS ==> BodyAt(n, t, Caps(out.header) + k) == c.regs[k].gt)
    && (forall k {:trigger c.drs[k]} :: 0 <= k < DR_WORDS ==> BodyAt(n, t, k + 1) == c.drs[k])
  }

  lemma SuspensionIsRecorded(c: Core, out: Outgoing, n: seq<Word>, t: Cap)
    requires c.Ok() && OutgoingFits(out) && out.Suspend? && AdmitOutgoing(c) == Accept(out)
    requires |n| == ADDRESS_SPACE && SameBody(Saved(c, out), n, out.base, BodyWords(out.header))
    requires t.location == out.base
    ensures Recorded(c, out, n, t)
  {
    Geometry(out.header);
    HeaderReadBack(c, out, n, t);
    SavedWordRead(c, out, n, t, 12);
    SavedWordRead(c, out, n, t, 13);
    SavedWordRead(c, out, n, t, 14);
    forall k | 0 <= k < CAP_WORDS
      ensures BodyAt(n, t, Caps(out.header) + k) == c.regs[k].gt
    {
      SavedWordRead(c, out, n, t, k);
    }
    forall k | 0 <= k < DR_WORDS
      ensures BodyAt(n, t, k + 1) == c.drs[k]
    {
      SavedWordRead(c, out, n, t, k + 15);
    }
  }

  /** The context of a Thread, as the program sees it. */
  ghost predicate SameContext(c: Core, d: Core)
    requires c.Ok() && d.Ok()
  {
    && d.drs == c.drs && d.flags == c.flags
    && forall k :: 0 <= k < 12 && k != 5 && k != 6 ==> d.regs[k].gt == c.regs[k].gt
  }

  lemma ResumeReadsFrame(c: Core, out: Outgoing, d: Core, q: Operand, t: Cap)
    requires c.Ok() && d.Ok() && out.Suspend? && ThreadHeader(out.header) && Recorded(c, out, d.m, t)
    requires Continuation(d, q, t, out.header, false).Accept?
    ensures var r := Continuation(d, q, t, out.header, false).value;
      && r.frame == Frame(Sto(out.indicator), Sz(out.indicator), SuspendPc(c), c.flags)
      && r.gt == EGt(c.regs[6].gt)
  {
    FrameFields(Sto(out.indicator) - 2, true, 0, c.flags);
  }

  /** A frame that records the suspension of `c` under stack indicator `indicator`. */
  predicate Recording(f: Word, c: Core, indicator: Word)
    requires c.Ok()
  {
    Sto(f) == Sto(indicator) && Sz(f) == Sz(indicator) && Pc(f) == SuspendPc(c) && Flags(f) == c.flags
  }

  lemma SuspendFrameRecords(c: Core, indicator: Word)
    requires c.Ok()
    ensures Recording(Frame(Sto(indicator), Sz(indicator), SuspendPc(c), c.flags), c, indicator)
  {
    FrameFields(Sto(indicator), Sz(indicator), SuspendPc(c), c.flags);
  }

  /** A plan that will restore the context of `c`, suspended under stack indicator `indicator`. */
  ghost predicate Carries(p: Plan, c: Core, indicator: Word)
    requires c.Ok()
  {
    && |p.homes| == CAP_WORDS && p.drs == c.drs
    && p.resume.gt == EGt(c.regs[6].gt) && Recording(p.resume.frame, c, indicator)
    && forall k :: 0 <= k < CAP_WORDS ==> p.homes[k].gt == c.regs[k].gt
  }

  lemma CarriedRegisters(regs: seq<Cap>, p: Plan, c: Core, indicator: Word, handoff: bool)
    requires c.Ok() && Carries(p, c, indicator) && |regs| == 16 && PlanOk(p)
    ensures forall k :: 0 <= k < 12 && k != 5 && k != 6 ==> CommittedRegs(regs, p, handoff)[k].gt == c.regs[k].gt
  {
  }

  /** Where the resumed Thread continues. */
  function ResumeNia(entry: Cap, pc: nat): Word {
    (entry.location + 4 + pc * 4) % 0x1_0000_0000
  }

  /** Word 17 of a resumed Thread: the stack as it was suspended, and its flags. */
  predicate ResumedIndicator(w: Word, indicator: Word, flags: nat) {
    Sto(w) == Sto(indicator) && Sz(w) == Sz(indicator) && Pc(w) == 0 && Flags(w) == flags
  }

  lemma CarriedState(d: Core, p: Plan, c: Core, indicator: Word, handoff: bool)
    requires c.Ok() && d.Ok() && Carries(p, c, indicator) && PlanOk(p)
    ensures SameContext(c, Switched(d, p, handoff))
    ensures !p.resume.root ==> Switched(d, p, handoff).nia == ResumeNia(p.entry, SuspendPc(c))
  {
    hide Popped, Saved, ResumeNia;
    CarriedRegisters(d.regs, p, c, indicator, handoff);
    CarriedNia(p, SuspendPc(c));
  }

  lemma CarriedNia(p: Plan, pc: nat)
    requires Pc(p.resume.frame) == pc
    ensures !p.resume.root ==> EntryNia(p) == ResumeNia(p.entry, pc)
    ensures p.resume.root ==> EntryNia(p) == ResumeNia(p.entry, 0)
  {
  }

  lemma NeverTheRootAddress(entry: Cap)
    ensures ResumeNia(entry, 0) != ResumeNia(entry, POISON_PC)
  {
  }

  lemma CarriedIndicator(m: seq<Word>, p: Plan, c: Core, indicator: Word)
    requires c.Ok() && |m| == ADDRESS_SPACE && Carries(p, c, indicator) && !p.resume.root
    requires p.thread.location % 4 == 0 && p.thread.location / 4 + STO_OFFSET < ADDRESS_SPACE
    ensures Popped(m, p) == m[p.thread.location / 4 + STO_OFFSET := Popped(m, p)[p.thread.location / 4 + STO_OFFSET]]
    ensures ResumedIndicator(Popped(m, p)[p.thread.location / 4 + STO_OFFSET], indicator, c.flags)
  {
    PoppedWord(m, p);
    FrameFields(Sto(indicator), Sz(indicator), 0, c.flags);
  }

  lemma PoppedWord(m: seq<Word>, p: Plan)
    requires |m| == ADDRESS_SPACE && !p.resume.root
    requires p.thread.location % 4 == 0 && p.thread.location / 4 + STO_OFFSET < ADDRESS_SPACE
    ensures var f := p.resume.frame;
      Popped(m, p) == m[p.thread.location / 4 + STO_OFFSET := Frame(Sto(f), Sz(f), 0, Flags(f))]
  {
    WordOffset(p.thread.location, STO_OFFSET);
  }

  /** A suspension whose frame and indicator read as the root form when the namespace is handed
      over: the poison return address, clear flags, and the stack offset of the last word. */
  predicate ReadsAsRoot(c: Core, out: Outgoing, handoff: bool)
    requires c.Ok() && out.Suspend?
  {
    && handoff && SuspendPc(c) == POISON_PC && c.flags == 0
    && Sz(out.indicator) && Sto(out.indicator) == (Caps(out.header) - 1) % 0x1000
  }

  lemma RootExactlyWhenRead(c: Core, out: Outgoing, d: Core, q: Operand, t: Cap)
    requires c.Ok() && d.Ok() && out.Suspend? && ThreadHeader(out.header) && Recorded(c, out, d.m, t)
    requires Sto(out.indicator) <= Caps(out.header) - 1 && Continuation(d, q, t, out.header, false).Accept?
    ensures Continuation(d, q, t, out.header, false).value.root <==> ReadsAsRoot(c, out, q.handoff)
  {
    hide Frame;
    var caps, sto := Caps(out.header), Sto(out.indicator);
    var w, f := BodyAt(d.m, t, STO_OFFSET), BodyAt(d.m, t, sto);
    Geometry(out.header);
    FrameFields(sto - 2, true, 0, c.flags);
    FrameFields(sto, Sz(out.indicator), SuspendPc(c), c.flags);
    FrameFields((caps - 1) % 0x1000, true, POISON_PC, 0);
    FrameFields((caps - 3) % 0x1000, true, 0, 0);
    LastOffset(caps, sto);
  }

  lemma LastOffset(caps: nat, sto: nat)
    requires 3 <= caps < 0x2000 && 2 <= sto < 0x1000
    ensures sto == (caps - 1) % 0x1000 ==> sto - 2 == (caps - 3) % 0x1000
  {
  }

  lemma SuspendedIsCarried(c: Core, out: Outgoing, d: Core, q: Operand, p: Plan, resident: bool)
    requires c.Ok() && OutgoingFits(out) && out.Suspend? && AdmitOutgoing(c) == Accept(out)
    requires d.Ok() && q.Ok() && SameBody(Saved(c, out), d.m, out.base, BodyWords(out.header))
    requires Admit(d, q, resident) == Accept(p)
    requires p.thread.location == out.base && !p.self
    ensures Carries(p, c, out.indicator) && (p.resume.root <==> ReadsAsRoot(c, out, q.handoff))
  {
    hide Admit, Saved, Homes, AdmitEntry, EntryHeader;
    var t := p.thread;
    SuspensionIsRecorded(c, out, d.m, t);
    AdmitParts(d, q, p, resident);
    ResumeReadsFrame(c, out, d, q, t);
    RootExactlyWhenRead(c, out, d, q, t);
    SuspendFrameRecords(c, out.indicator);
    HomesReadBack(c, out, d, q, p, resident);
    DrsReadBack(c, out, d, t);
  }

  lemma DrsReadBack(c: Core, out: Outgoing, d: Core, t: Cap)
    requires c.Ok() && d.Ok() && out.Suspend? && ThreadHeader(out.header) && Recorded(c, out, d.m, t)
    ensures IncomingDrs(d, t, false) == c.drs
  {
    forall k | 0 <= k < DR_WORDS
      ensures IncomingDrs(d, t, false)[k] == c.drs[k]
    {
    }
  }

  /** The Thread goes on where it was suspended, with its stack as it was. */
  ghost predicate Resumed(d: Core, p: Plan, c: Core, out: Outgoing)
    requires c.Ok() && out.Suspend? && |d.m| == ADDRESS_SPACE && out.base / 4 + STO_OFFSET < ADDRESS_SPACE
  {
    && d.nia == ResumeNia(p.entry, SuspendPc(c))
    && ResumedIndicator(d.m[out.base / 4 + STO_OFFSET], out.indicator, c.flags)
  }

  /** Context-switch round trip.  A Thread suspended in `c` and found unchanged in memory by a
      later completed CHANGE to it, in `d`, gets back its data registers, flags and tokens, and
      resumes at the suspended instruction plus one word with its stack offset and size bit,
      unless its namespace is handed over while its frame reads as the root form. */
  lemma RoundTrip(c: Core, out: Outgoing, d: Core, q: Operand, p: Plan, resident: bool)
    requires c.Ok() && OutgoingFits(out) && out.Suspend? && AdmitOutgoing(c) == Accept(out)
    requires d.Ok() && q.Ok() && SameBody(Saved(c, out), d.m, out.base, BodyWords(out.header))
    requires Admit(d, q, resident) == Accept(p) && PlanOk(p)
    requires p.thread.location == out.base && !p.self
    ensures SameContext(c, Switched(d, p, q.handoff)) && p.resume.gt == EGt(c.regs[6].gt)
    ensures out.base / 4 + STO_OFFSET < ADDRESS_SPACE
    ensures Resumed(Switched(d, p, q.handoff), p, c, out) <==> !ReadsAsRoot(c, out, q.handoff)
  {
    hide Admit, Saved, AdmitOutgoing, ResumeNia, CommittedRegs;
    SuspendedIsCarried(c, out, d, q, p, resident);
    CarriedState(d, p, c, out.indicator, q.handoff);
    Geometry(out.header);
    if p.resume.root {
      CarriedNia(p, POISON_PC);
      NeverTheRootAddress(p.entry);
    } else {
      CarriedIndicator(Saved(d, p.out), p, c, out.indicator);
    }
  }

  /** The instruction lies in the code window, and the window ends before the last word but one
      that fifteen bits count. */
  predicate Fenced(c: Core)
    requires c.Ok()
  {
    var code := c.regs[14];
    code.location <= c.nia <= code.location + AuthLimit(code.authority) * 4 && AuthLimit(code.authority) < 0x7FFE
  }

  lemma FencedNeverReadsAsRoot(c: Core, out: Outgoing, handoff: bool)
    requires c.Ok() && out.Suspend? && Fenced(c)
    ensures !ReadsAsRoot(c, out, handoff) && SuspendPc(c) < POISON_PC
  {
    hide AuthLimit;
  }

  /** A Thread suspended inside such a window always gets everything back. */
  lemma FencedRoundTrip(c: Core, out: Outgoing, d: Core, q: Operand, p: Plan, resident: bool)
    requires c.Ok() && OutgoingFits(out) && out.Suspend? && AdmitOutgoing(c) == Accept(out) && Fenced(c)
    requires d.Ok() && q.Ok() && SameBody(Saved(c, out), d.m, out.base, BodyWords(out.header))
    requires Admit(d, q, resident) == Accept(p) && PlanOk(p)
    requires p.thread.location == out.base && !p.self
    ensures SameContext(c, Switched(d, p, q.handoff)) && p.resume.gt == EGt(c.regs[6].gt)
    ensures out.base / 4 + STO_OFFSET < ADDRESS_SPACE && Resumed(Switched(d, p, q.handoff), p, c, out)
  {
    hide Admit, Saved, AdmitOutgoing, ResumeNia, CommittedRegs, ReadsAsRoot, Fenced, OutgoingFits;
    FencedNeverReadsAsRoot(c, out, q.handoff);
    RoundTrip(c, out, d, q, p, resident);
  }

  lemma HomesReadBack(c: Core, out: Outgoing, d: Core, q: Operand, p: Plan, resident: bool)
    requires c.Ok() && d.Ok() && q.Ok() && out.Suspend? && ThreadHeader(out.header)
    requires Recorded(c, out, d.m, p.thread) && p.header == out.header && !p.self
    requires Homes(d, p.ns, p.thread, p.header, false, resident, CAP_WORDS) == Accept(p.homes)
    ensures forall k :: 0 <= k < CAP_WORDS ==> p.homes[k].gt == c.regs[k].gt
  {
    forall k | 0 <= k < CAP_WORDS
      ensures p.homes[k].gt == c.regs[k].gt
    {
      HomesKeepTokens(d, p.ns, p.thread, p.header, false, resident, CAP_WORDS, k);
    }
  }

  /** The parts of an admitted plan. */
  lemma AdmitParts(c: Core, q: Operand, p: Plan, resident: bool)
    requires c.Ok() && q.Ok() && Admit(c, q, resident) == Accept(p)
    ensures p.header == BodyAt(c.m, p.thread, 0) && ThreadHeader(p.header)
    ensures p.self <==> !q.handoff && c.owned && p.thread.location == c.regs[12].location
    ensures Continuation(c, q, p.thread, p.header, p.self) == Accept(p.resume)
    ensures Homes(c, p.ns, p.thread, p.header, p.self, resident, CAP_WORDS) == Accept(p.homes)
    ensures p.drs == IncomingDrs(c, p.thread, p.self)
    ensures AdmitOutgoing(c) == Accept(p.out)
    ensures EntryHeader(c.m, p.entry, p.resume) == Accept(p.entryHeader)
    ensures AdmitEntry(c.m, p.ns, p.resume.gt, resident) == Accept(p.entry)
  {
    hide ResolveGt, Lookup, Home, Homes, StoredResume, SelfResume, BodyAt, EntryHeaderOk, Named, EntersOnly;
  }

  /** The resumed program counter is the suspended instruction plus one word, when the code
      register and the c-list register named one lump. */
  lemma ResumesAfterChange(c: Core, entry: Cap)
    requires c.Ok() && c.regs[14].location == entry.location + 4
    requires c.nia >= c.regs[14].location && (c.nia - c.regs[14].location) % 4 == 0
    requires (c.nia - c.regs[14].location) / 4 + 1 < 0x8000 && c.nia + 4 < 0x1_0000_0000
    ensures ResumeNia(entry, SuspendPc(c)) == c.nia + 4
  {
    var words := (c.nia - c.regs[14].location) / 4;
    assert SuspendPc(c) == words + 1 && c.nia == c.regs[14].location + words * 4;
  }

  // ---- CHANGE to the running Thread

  lemma SelfResumeRecords(c: Core, q: Operand, t: Cap, h: Word)
    requires c.Ok() && ThreadHeader(h) && Continuation(c, q, t, h, true).Accept?
    ensures var r := Continuation(c, q, t, h, true).value;
      r.gt == EGt(c.regs[6].gt) && !r.root && Recording(r.frame, c, BodyAt(c.m, t, STO_OFFSET))
  {
    SuspendFrameRecords(c, BodyAt(c.m, t, STO_OFFSET));
  }

  lemma SelfNeverRoot(c: Core, q: Operand, p: Plan, resident: bool)
    requires c.Ok() && q.Ok() && Admit(c, q, resident) == Accept(p) && p.self
    ensures !p.resume.root && p.resume.gt == EGt(c.regs[6].gt)
  {
    hide Admit, Homes, AdmitEntry, EntryHeader, AdmitOutgoing;
    AdmitParts(c, q, p, resident);
    SelfResumeRecords(c, q, p.thread, p.header);
  }

  lemma SelfIsCarried(c: Core, q: Operand, p: Plan, resident: bool)
    requires c.Ok() && q.Ok() && Admit(c, q, resident) == Accept(p) && p.self
    ensures p.out.Suspend? && p.thread.location == p.out.base && Carries(p, c, p.out.indicator)
  {
    AdmitParts(c, q, p, resident);
    OutgoingParts(c, p.out);
    SameLocation(c.m, p.thread, c.regs[12], STO_OFFSET);
    SelfCarries(c, q, p, resident, p.out.indicator);
  }

  lemma SameLocation(m: seq<Word>, t: Cap, u: Cap, o: int)
    requires t.location == u.location
    ensures BodyAt(m, t, o) == BodyAt(m, u, o)
  {
  }

  lemma OutgoingParts(c: Core, out: Outgoing)
    requires c.Ok() && c.owned && AdmitOutgoing(c) == Accept(out)
    ensures out == Suspend(c.regs[12].location, BodyAt(c.m, c.regs[12], 0), BodyAt(c.m, c.regs[12], STO_OFFSET))
  {
  }

  lemma SelfCarries(c: Core, q: Operand, p: Plan, resident: bool, indicator: Word)
    requires c.Ok() && BodyAt(c.m, p.thread, STO_OFFSET) == indicator
    requires ThreadHeader(p.header) && |p.homes| == CAP_WORDS && p.drs == c.drs
    requires Continuation(c, q, p.thread, p.header, true) == Accept(p.resume)
    requires Homes(c, p.ns, p.thread, p.header, true, resident, CAP_WORDS) == Accept(p.homes)
    ensures Carries(p, c, indicator)
  {
    SelfResumeRecords(c, q, p.thread, p.header);
    forall k | 0 <= k < CAP_WORDS
      ensures p.homes[k].gt == c.regs[k].gt
    {
      HomesKeepTokens(c, p.ns, p.thread, p.header, true, resident, CAP_WORDS, k);
    }
  }

  /** A completed CHANGE to the running Thread keeps its context and its stack offset and size
      bit, and goes on at the next word. */
  lemma SelfChange(c: Core, q: Operand, p: Plan, resident: bool)
    requires c.Ok() && q.Ok() && Admit(c, q, resident) == Accept(p) && PlanOk(p) && p.self && p.out.Suspend?
    ensures SameContext(c, Switched(c, p, q.handoff))
    ensures p.resume.gt == EGt(c.regs[6].gt)
    ensures Switched(c, p, q.handoff).nia == ResumeNia(p.entry, SuspendPc(c))
    ensures ResumedIndicator(Switched(c, p, q.handoff).m[p.out.base / 4 + STO_OFFSET], p.out.indicator, c.flags)
  {
    hide Admit, Saved, Popped, CommittedRegs, EntryNia, Carries, ResumeNia, ThreadHeader, BodyWords, Caps, StackLo;
    SelfIsCarried(c, q, p, resident);
    SelfNeverRoot(c, q, p, resident);
    Geometry(p.out.header);
    CarriedState(c, p, c, p.out.indicator, q.handoff);
    CarriedIndicator(Saved(c, p.out), p, c, p.out.indicator);
  }

  /** It also keeps the header, the heap and every live frame, and all memory outside the body. */
  lemma SelfChangeKeepsBody(c: Core, q: Operand, p: Plan, resident: bool, j: nat)
    requires c.Ok() && q.Ok() && Admit(c, q, resident) == Accept(p) && PlanOk(p) && p.self && p.out.Suspend?
    requires j < ADDRESS_SPACE && !InFootprint(p.out.header, Sto(p.out.indicator), j - p.out.base / 4)
    ensures Switched(c, p, q.handoff).m[j] == c.m[j]
  {
    hide Admit, Saved, Popped, CommittedRegs, EntryNia, Carries, ThreadHeader, BodyWords, Caps, StackLo;
    SelfIsCarried(c, q, p, resident);
    SelfNeverRoot(c, q, p, resident);
    Geometry(p.out.header);
    CarriedIndicator(Saved(c, p.out), p, c, p.out.indicator);
    SaveTouchesNothingElse(c, p.out, j);
  }

  // ---- buffers and disjoint bodies

  /** When the two bodies do not overlap, every word the incoming context was buffered from
      still stands when it is committed. */
  lemma BuffersStillMatch(c: Core, q: Operand, p: Plan, resident: bool, o: nat)
    requires c.Ok() && q.Ok() && Admit(c, q, resident) == Accept(p) && PlanOk(p) && p.out.Suspend?
    requires p.thread.location % 4 == 0 && o < BodyWords(p.header)
    requires p.thread.location / 4 + BodyWords(p.header) <= p.out.base / 4
          || p.out.base / 4 + BodyWords(p.out.header) <= p.thread.location / 4
    requires p.thread.location / 4 + BodyWords(p.header) <= ADDRESS_SPACE
    ensures BodyAt(Saved(c, p.out), p.thread, o) == BodyAt(c.m, p.thread, o)
  {
    AdmitParts(c, q, p, resident);
    Geometry(p.out.header);
    BodyWord(Saved(c, p.out), p.thread, o);
    BodyWord(c.m, p.thread, o);
    SaveTouchesNothingElse(c, p.out, p.thread.location / 4 + o);
  }
}
