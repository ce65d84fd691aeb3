/** Where the registers that the units publish come from: which token, which sealed namespace
    entry, which words of memory, and with which rights. */
module Provenance {
  import opened Bits
  import opened BootActivation
  import opened BootValidation
  import opened Change
  import opened ChangeProofs
  import opened Checks
  import opened Fields
  import opened Integrity
  import opened Memory
  import opened NsGate
  import opened Thread
  import opened Validation
  import M = MLoad

  /** The register holds the lump that entry `e` seals, under a token of the entry's version. */
  predicate SealedBy(cap: Cap, e: Entry, resident: bool) {
    && GtSeq(cap.gt) == AuthSeq(e.authority) && Integrity32(e.location, e.authority) == e.integrity
    && !AuthF(e.authority) && cap.authority == e.authority
    && cap.location == (if resident && e.location < M.RESIDENT_WORDS then e.location * 4 else e.location)
    && cap.location % 4 == 0 && (resident ==> M.Reachable(e))
  }

  /** Such a register is one whose token the gate passes. */
  lemma SealedPasses(cap: Cap, e: Entry, resident: bool)
    requires SealedBy(cap, e, resident)
    ensures Decide(e, cap.gt, false) == Pass
  {
  }

  // ---- CHANGE

  /** A token resolves to a register exactly if that is the lump its sealed entry describes. */
  lemma ResolvedIsSealed(m: seq<Word>, ns: Cap, gt: Word, resident: bool, cap: Cap)
    ensures ResolveGt(m, ns, gt, resident) == Accept(cap) <==>
      && cap.gt == gt && SealedBy(cap, EntryOf(m, ns, gt), resident)
      && (resident ==> EntryOf(m, ns, gt).location < M.RESIDENT_WORDS)
  {
    hide Integrity32, GtSeq, AuthSeq, AuthF, AuthLimit, EntryOf;
  }

  /** The token CHANGE is asked for: slot 2's on a handoff, the word of a c-list row for an
      indexed operand, and otherwise that of the source register. */
  predicate Asked(c: Core, q: Operand, ns: Cap, gt: Word, resident: bool)
    requires c.Ok() && q.Ok()
  {
    if q.handoff then gt == 0x0200_0002
    else if q.dst == 12 && q.src == 6 && q.index < 0x8000 then
      var s, at := c.regs[6], c.regs[6].location + q.index * 4;
      && at < 0x1_0000_0000 && gt == ReadAt(c.m, at) && FromClist(c.m, ns, s, at, resident)
      && (HasChurch(s.gt, L) || q.cr6M)
    else q.dst == 0 && q.index == 0 && q.src != 13 && gt == c.regs[q.src].gt
  }

  /** A word of a c-list: inside the register's limit, and inside the lump that the c-list's own
      sealed entry describes. */
  predicate FromClist(m: seq<Word>, ns: Cap, s: Cap, at: Word, resident: bool) {
    var e := EntryOf(m, ns, s.gt);
    var base := if resident then e.location * 4 else e.location;
    && GtType(s.gt) == GT_INFORM && !AuthF(s.authority) && at % 4 == 0
    && GtSlot(s.gt) >= 1 && GtSlot(s.gt) * 4 + 3 <= AuthLimit(ns.authority)
    && s.location <= at <= s.location + AuthLimit(s.authority) * 4
    && (resident ==> e.location < M.RESIDENT_WORDS) && base < 0x1_0000_0000
    && SealedBy(Cap(s.gt, base, e.authority), e, resident)
    && base <= at <= base + AuthLimit(e.authority) * 4
  }

  lemma TargetIsAsked(c: Core, q: Operand, resident: bool)
    requires c.Ok() && q.Ok() && TargetGt(c, q, Namespace(c, q), resident).Accept?
    ensures Asked(c, q, Namespace(c, q), TargetGt(c, q, Namespace(c, q), resident).value, resident)
  {
    hide Integrity32, GtSeq, AuthSeq, AuthF, AuthLimit, EntryOf, ReadAt, ResolveGt, HasChurch;
    if !q.handoff && q.Indexed() {
      LookupIsFromClist(c, q, Namespace(c, q), resident, TargetGt(c, q, Namespace(c, q), resident).value);
    }
  }

  /** An indexed operand reads a token exactly if its address is such a word, through a register
      that may be loaded from. */
  lemma LookupIsFromClist(c: Core, q: Operand, ns: Cap, resident: bool, gt: Word)
    requires c.Ok() && q.Ok() && q.Indexed()
    ensures var s, at := c.regs[6], c.regs[6].location + q.index * 4;
      Lookup(c, q, ns, resident) == Accept(gt) <==>
        && at < 0x1_0000_0000 && gt == ReadAt(c.m, at)
        && FromClist(c.m, ns, s, at, resident) && (HasChurch(s.gt, L) || q.cr6M)
  {
    hide Integrity32, GtSeq, AuthSeq, AuthF, AuthLimit, EntryOf, ReadAt, ResolveGt, HasChurch, GtType, GtSlot, SealedBy;
    var s, e := c.regs[6], EntryOf(c.m, ns, c.regs[6].gt);
    var base := if resident then e.location * 4 else e.location;
    if base < 0x1_0000_0000 {
      ResolvedIsSealed(c.m, ns, s.gt, resident, Cap(s.gt, base, e.authority));
    }
    var r := ResolveGt(c.m, ns, s.gt, resident);
    if r.Accept? {
      ResolvedIsSealed(c.m, ns, s.gt, resident, r.value);
      SealedIsThere(r.value, e, resident);
    }
  }

  lemma SealedIsThere(cap: Cap, e: Entry, resident: bool)
    requires SealedBy(cap, e, resident) && (resident ==> e.location < M.RESIDENT_WORDS)
    ensures cap == Cap(cap.gt, if resident then e.location * 4 else e.location, e.authority)
  {
  }

  /** The tokens behind an admitted plan. */
  lemma AdmitTokens(c: Core, q: Operand, p: Plan, resident: bool)
    requires c.Ok() && q.Ok() && Admit(c, q, resident) == Accept(p)
    ensures p.ns == (if q.handoff then q.incoming else c.regs[15])
    ensures TargetGt(c, q, p.ns, resident) == Accept(p.thread.gt)
    ensures AdmitThread(c.m, p.ns, p.thread.gt, resident) == Accept(p.thread)
    ensures IncomingHeader(c.m, p.thread) == Accept(p.header)
  {
    hide Lookup, Home, Homes, Continuation, BodyAt, EntryHeaderOk, Named, EntersOnly, AdmitEntry, EntryHeader,
         AdmitOutgoing, IncomingDrs, HomeToken, ResolveGt, ReadAt, IncomingHeader;
    ThreadKeepsToken(c.m, Namespace(c, q), TargetGt(c, q, Namespace(c, q), resident).value, resident);
  }

  lemma ThreadKeepsToken(m: seq<Word>, ns: Cap, gt: Word, resident: bool)
    ensures AdmitThread(m, ns, gt, resident).Accept? ==> AdmitThread(m, ns, gt, resident).value.gt == gt
  {
  }

  /** The token's descriptor is a whole one of the namespace, and not its first. */
  predicate InNamespace(ns: Cap, gt: Word) {
    && GtSlot(gt) >= 1 && GtSlot(gt) * 4 + 3 <= AuthLimit(ns.authority)
    && ns.location + GtSlot(gt) * 16 + 16 <= 0x1_0000_0000
  }

  /** The Thread, its executable and every home that holds a lump passed the gate: an admitted
      CHANGE switches to nothing stale and nothing whose entry has been tampered with. */
  lemma ChangePassesGate(c: Core, q: Operand, p: Plan, resident: bool)
    requires c.Ok() && q.Ok() && Admit(c, q, resident) == Accept(p)
    ensures p.ns == (if q.handoff then q.incoming else c.regs[15])
    ensures Asked(c, q, p.ns, p.thread.gt, resident)
    ensures InNamespace(p.ns, p.thread.gt) && InNamespace(p.ns, p.entry.gt)
    ensures GtType(p.thread.gt) == GT_INFORM && NoPerms(p.thread.gt)
    ensures SealedBy(p.thread, EntryOf(c.m, p.ns, p.thread.gt), resident)
    ensures p.entry.gt == p.resume.gt && GtType(p.entry.gt) == GT_INFORM && EntersOnly(p.entry.gt)
    ensures SealedBy(p.entry, EntryOf(c.m, p.ns, p.entry.gt), resident)
    ensures |p.homes| == CAP_WORDS && forall k :: 0 <= k < CAP_WORDS ==> HomeSealed(c.m, p.ns, p.homes[k], resident)
  {
    hide Admit, TargetGt, ResolveGt, SealedBy, Asked, HomeSealed, EntryOf, NoPerms, EntersOnly, IncomingHeader,
         GtSlot, AuthLimit, Continuation, Homes, EntryHeader, AdmitOutgoing, IncomingDrs, BodyAt;
    AdmitTokens(c, q, p, resident);
    AdmitParts(c, q, p, resident);
    TargetIsAsked(c, q, resident);
    ResolvedIsSealed(c.m, p.ns, p.thread.gt, resident, p.thread);
    ResolvedIsSealed(c.m, p.ns, p.resume.gt, resident, p.entry);
    forall k | 0 <= k < CAP_WORDS
      ensures HomeSealed(c.m, p.ns, p.homes[k], resident)
    {
      HomesSealed(c, p.ns, p.thread, p.header, p.self, resident, CAP_WORDS, k);
    }
  }

  /** A running Thread is suspended only with two words of room in an orderly body of its own. */
  lemma OutgoingHasRoom(c: Core, out: Outgoing)
    requires c.Ok()
    ensures AdmitOutgoing(c) == Accept(out) <==>
      if !c.owned then out == NoThread
      else
        var t := c.regs[12];
        var h, w := BodyAt(c.m, t, 0), BodyAt(c.m, t, 17);
        && out == Suspend(t.location, h, w) && ThreadHeader(h) && Pc(w) == 0
        && StackLo(h) + 2 <= Sto(w) < Caps(h)
  {
    hide BodyAt, ThreadHeader, StackLo, Caps, Sto, Pc;
  }

  /** The Thread and the executable are whole lumps that their descriptors cover exactly, inside the
      address space; the executable's header keeps code and c-list apart, and row 0 of its c-list
      is its own token. */
  lemma ChangeAdmitsWholeLumps(c: Core, q: Operand, p: Plan, resident: bool)
    requires c.Ok() && q.Ok() && Admit(c, q, resident) == Accept(p)
    ensures p.header == BodyAt(c.m, p.thread, 0) && ThreadHeader(p.header)
    ensures AuthLimit(p.thread.authority) == BodyWords(p.header) - 1
    ensures p.thread.location + (BodyWords(p.header) - 1) * 4 < 0x1_0000_0000
    ensures var h := p.entryHeader;
      && h == BodyAt(c.m, p.entry, 0) && HdrMagic(h) == 0x1F && HdrType(h) == 0 && HdrN(h) <= 8
      && 1 <= HdrCw(h) && 1 <= HdrCc(h) && HdrCw(h) + HdrCc(h) < BodyWords(h)
      && AuthLimit(p.entry.authority) == BodyWords(h) - 1
      && p.entry.location + (BodyWords(h) - 1) * 4 < 0x1_0000_0000
      && BodyAt(c.m, p.entry, BodyWords(h) - HdrCc(h)) == p.entry.gt
      && (p.resume.root || Pc(p.resume.frame) < HdrCw(h))
  {
    hide Admit, AuthLimit, BodyAt, Continuation, Homes, IncomingDrs, AdmitOutgoing, AdmitEntry, ThreadHeader, HdrCw,
         HdrCc, BodyWords, HdrMagic, HdrType, HdrN, TargetGt, AdmitThread, Pc;
    AdmitTokens(c, q, p, resident);
    AdmitParts(c, q, p, resident);
    HasCodeAndRows(p.entryHeader);
  }

  lemma HasCodeAndRows(h: Word)
    ensures EntryHeaderOk(h) ==> 1 <= HdrCw(h) && 1 <= HdrCc(h)
  {
    hide BodyWords;
  }

  /** A home is null or abstract with nothing behind it, or an Inform token over its sealed lump. */
  predicate HomeSealed(m: seq<Word>, ns: Cap, cap: Cap, resident: bool) {
    if GtType(cap.gt) == GT_INFORM then InNamespace(ns, cap.gt) && SealedBy(cap, EntryOf(m, ns, cap.gt), resident)
    else GtType(cap.gt) in {GT_NULL, GT_ABSTRACT} && cap.location == 0 && cap.authority == 0
  }

  lemma HomeIsSealed(m: seq<Word>, ns: Cap, gt: Word, resident: bool, cap: Cap)
    ensures Home(m, ns, gt, resident) == Accept(cap) <==>
      cap.gt == gt && HomeSealed(m, ns, cap, resident) && (GtType(gt) == GT_INFORM ==> SlotCounted(ns, gt, resident))
  {
    hide Integrity32, GtSeq, AuthSeq, AuthF, EntryOf, GtSlot, HomeNamespace, M.SlotInBounds;
    HomeSlotFits(ns, gt, resident);
  }

  /** A namespace of byte addresses has its slots counted in sixteen bits: every slot it holds, as
      long as its limit is below 0x40000. */
  predicate SlotCounted(ns: Cap, gt: Word, resident: bool) {
    resident || GtSlot(gt) <= AuthLimit(ns.authority) / 4 % 0x1_0000
  }

  lemma HomeSlotFits(ns: Cap, gt: Word, resident: bool)
    ensures GtSlot(gt) >= 1 && GtSlot(gt) * 4 + 3 <= AuthLimit(ns.authority) ==>
      (M.SlotInBounds(gt, HomeNamespace(ns, resident), resident) <==> SlotCounted(ns, gt, resident))
    ensures AuthLimit(ns.authority) < 0x4_0000 && GtSlot(gt) * 4 + 3 <= AuthLimit(ns.authority) ==>
      SlotCounted(ns, gt, resident)
  {
    hide GtSlot;
    QuarterLimit(ns.authority);
  }

  /** A namespace of 65537 slots, of which no home may name the first. */
  lemma WideNamespace()
    ensures InNamespace(Cap(0, 0, 0x4_0003), 0x200_0001) && !SlotCounted(Cap(0, 0, 0x4_0003), 0x200_0001, false)
  {
  }

  lemma QuarterLimit(authority: Word)
    ensures var limit := AuthLimit(authority);
      0 <= authority - limit + limit / 4 < 0x1_0000_0000 && AuthLimit(authority - limit + limit / 4) == limit / 4
  {
    var limit, k := AuthLimit(authority), authority / 0x20_0000;
    DivModUnique(k * 0x20_0000 + limit / 4, 0x20_0000, k, limit / 4);
  }

  lemma {:induction false} HomesSealed(c: Core, ns: Cap, t: Cap, h: Word, self: bool, resident: bool, n: nat, k: nat)
    requires c.Ok() && k < n <= CAP_WORDS && Homes(c, ns, t, h, self, resident, n).Accept?
    ensures HomeSealed(c.m, ns, Homes(c, ns, t, h, self, resident, n).value[k], resident)
  {
    hide Home, HomeSealed;
    if k < n - 1 {
      HomesSealed(c, ns, t, h, self, resident, n - 1, k);
    } else {
      HomeIsSealed(c.m, ns, HomeToken(c, t, h, self, k), resident, Homes(c, ns, t, h, self, resident, n).value[k]);
    }
  }

  // ---- windows and rights

  /** The words from 18 up to the stack floor of the body at `t`, and no others. */
  predicate OpensHeap(heap: Cap, t: Cap, h: Word) {
    && heap.location == t.location + HEAP_OFFSET * 4
    && heap.location + (AuthLimit(heap.authority) + 1) * 4 == t.location + StackLo(h) * 4
  }

  lemma HeapFits(base: Word, words: nat)
    requires 256 <= words && base + (words - 1) * 4 < 0x1_0000_0000
    ensures Plus(base, HEAP_OFFSET * 4) == base + HEAP_OFFSET * 4
  {
  }

  lemma LimitFields(limit: nat, version: nat)
    requires limit < 0x20_0000 && version < 0x200
    ensures AuthLimit(Limit(limit, version)) == limit && AuthSeq(Limit(limit, version)) == version
  {
  }

  /** The access bits of a token: domain, then the three permissions. */
  predicate Rights(gt: Word, church: bool, p0: bool, p1: bool, p2: bool) {
    GtChurch(gt) == church && GtPerm(gt, 0) == p0 && GtPerm(gt, 1) == p1 && GtPerm(gt, 2) == p2
  }

  /** The same lump under the same version, kind and B bit, whatever the rights. */
  predicate SameIdentity(x: Word, y: Word) {
    GtSlot(x) == GtSlot(y) && GtSeq(x) == GtSeq(y) && GtType(x) == GtType(y) && GtBound(x) == GtBound(y)
  }

  lemma WithPermsRights(gt: Word, perms: nat)
    requires perms < 16
    ensures SameIdentity(WithPerms(gt, perms), gt)
    ensures Rights(WithPerms(gt, perms), perms % 2 == 1, perms / 2 % 2 == 1, perms / 4 % 2 == 1, perms / 8 == 1)
  {
    var lo, b := gt % 0x800_0000, gt / 0x8000_0000;
    IdentityFields(gt, lo, gt / 0x800_0000);
    IdentityFields(WithPerms(gt, perms), lo, perms + 16 * b);
    PermBits(lo, perms, b);
  }

  lemma PermBits(lo: nat, perms: nat, b: nat)
    requires lo < 0x800_0000 && perms < 16 && b < 2
    ensures var w := lo + perms * 0x800_0000 + b * 0x8000_0000;
      && Rights(w, perms % 2 == 1, perms / 2 % 2 == 1, perms / 4 % 2 == 1, perms / 8 == 1) && GtBound(w) == (b == 1)
  {
    hide Rights, GtBound;
    TopBits(lo, perms + 16 * b);
    NibbleBits(perms, b);
    BitsAreRights(lo + perms * 0x800_0000 + b * 0x8000_0000, perms + 16 * b);
  }

  lemma NibbleBits(perms: nat, b: nat)
    requires perms < 16 && b < 2
    ensures var k := perms + 16 * b;
      && k % 2 == perms % 2 && k / 2 % 2 == perms / 2 % 2 && k / 4 % 2 == perms / 4 % 2 && k / 8 % 2 == perms / 8
      && k / 16 == b
  {
  }

  lemma BitsAreRights(w: Word, k: nat)
    requires w / 0x800_0000 == k && w / 0x1000_0000 == k / 2 && w / 0x2000_0000 == k / 4
    requires w / 0x4000_0000 == k / 8 && w / 0x8000_0000 == k / 16
    ensures Rights(w, k % 2 == 1, k / 2 % 2 == 1, k / 4 % 2 == 1, k / 8 % 2 == 1) && GtBound(w) == (k / 16 == 1)
  {
  }

  lemma TopBits(lo: nat, k: nat)
    requires lo < 0x800_0000 && k < 32
    ensures var w := lo + k * 0x800_0000;
      && w / 0x800_0000 == k && w / 0x1000_0000 == k / 2 && w / 0x2000_0000 == k / 4
      && w / 0x4000_0000 == k / 8 && w / 0x8000_0000 == k / 16
  {
    var w := lo + k * 0x800_0000;
    DivModUnique(w, 0x800_0000, k, lo);
    DivModUnique(w, 0x1000_0000, k / 2, lo + k % 2 * 0x800_0000);
    DivModUnique(w, 0x2000_0000, k / 4, lo + k % 4 * 0x800_0000);
    DivModUnique(w, 0x4000_0000, k / 8, lo + k % 8 * 0x800_0000);
    DivModUnique(w, 0x8000_0000, k / 16, lo + k % 16 * 0x800_0000);
  }

  /** The windows that a completed CHANGE publishes: code to read and execute, the words after the
      header; a c-list to load from, the last rows of the lump; a heap to read and write; each
      under the identity of its lump's own token.  CR13 stays, and CR15 too unless it is handed
      over. */
  lemma SwitchedWindows(c: Core, p: Plan, handoff: bool)
    requires c.Ok() && PlanOk(p)
    ensures var d := Switched(c, p, handoff);
      && Rights(d.regs[14].gt, false, true, false, true) && SameIdentity(d.regs[14].gt, p.entry.gt)
      && Rights(d.regs[6].gt, true, true, false, false) && SameIdentity(d.regs[6].gt, p.entry.gt)
      && Rights(d.regs[5].gt, false, true, true, false) && SameIdentity(d.regs[5].gt, p.thread.gt)
      && d.regs[12] == p.thread && d.regs[13] == c.regs[13]
      && d.regs[15] == (if handoff then p.ns else c.regs[15])
      && (forall k :: 0 <= k < CAP_WORDS && k != 5 && k != 6 ==> d.regs[k] == p.homes[k])
      && d.regs[14].location == (p.entry.location + 4) % 0x1_0000_0000
      && AuthLimit(d.regs[14].authority) == HdrCw(p.entryHeader) - 1
      && d.regs[6].location
         == (p.entry.location + (BodyWords(p.entryHeader) - HdrCc(p.entryHeader)) * 4) % 0x1_0000_0000
      && AuthLimit(d.regs[6].authority) == HdrCc(p.entryHeader) - 1
      && (p.thread.location + (BodyWords(p.header) - 1) * 4 < 0x1_0000_0000 ==>
            OpensHeap(d.regs[5], p.thread, p.header))
  {
    hide WithPerms, Rights, SameIdentity, PlanOk, Popped, Saved, BodyWords, Limit, HdrCw, HdrCc, EntryNia, AuthLimit,
         EntryHeaderOk;
    PlanParts(p);
    CodeAndRows(p.entryHeader);
    Geometry(p.header);
    LimitFields(HdrCw(p.entryHeader) - 1, AuthSeq(p.entry.authority));
    LimitFields(HdrCc(p.entryHeader) - 1, AuthSeq(p.entry.authority));
    LimitFields(BodyWords(p.header) - HdrCw(p.header) - 31, AuthSeq(p.thread.authority));
    if p.thread.location + (BodyWords(p.header) - 1) * 4 < 0x1_0000_0000 {
      HeapFits(p.thread.location, BodyWords(p.header));
    }
    WithPermsRights(p.entry.gt, TURING_RX);
    WithPermsRights(p.entry.gt, CHURCH_L);
    WithPermsRights(p.thread.gt, TURING_RW);
  }

  lemma CodeAndRows(h: Word)
    requires EntryHeaderOk(h)
    ensures 1 <= HdrCw(h) < 0x2000 && 1 <= HdrCc(h) < 0x100 && HdrCc(h) < BodyWords(h)
  {
  }

  lemma PlanParts(p: Plan)
    requires PlanOk(p)
    ensures |p.homes| == CAP_WORDS && ThreadHeader(p.header) && EntryHeaderOk(p.entryHeader)
  {
  }

  // ---- boot activation

  /** What boot activation makes of a home: of an Inform token exactly the lump its sealed entry
      describes, of a null or abstract one nothing but, at most, the token, of a remote one a
      refusal. */
  lemma BootHomeIsSealed(m: seq<Word>, slots: nat, gt: Word, cap: Cap)
    ensures BootHome(m, slots, gt) == Accept(cap) <==>
      if GtType(gt) == GT_INFORM then
        cap.gt == gt && 0 < GtSlot(gt) < slots && OverEntry(cap, EntryAt(m, GtSlot(gt) * 16))
      else cap == Cap(if GtType(gt) == GT_NULL then 0 else gt, 0, 0) && GtType(gt) != GT_OUTFORM
  {
    hide Integrity32, GtSeq, AuthSeq, AuthF, AuthLimit, GtSlot, EntryAt;
    KindIsInform(gt);
  }

  /** A resident lump at its byte address, or a port as it is. */
  predicate OverEntry(cap: Cap, e: Entry) {
    && GtSeq(cap.gt) == AuthSeq(e.authority) && Integrity32(e.location, e.authority) == e.integrity
    && !AuthF(e.authority) && cap.authority == e.authority
    && cap.location == (if e.location < M.RESIDENT_WORDS then e.location * 4 else e.location) && M.Reachable(e)
  }

  /** Boot activation and CHANGE make one register of one home token, whenever both admit it: the
      two units resolve it independently, one by three descriptor reads, one by a validating
      mLoad. */
  lemma BootHomeIsChangeHome(m: seq<Word>, ns: Cap, slots: nat, gt: Word)
    requires GtType(gt) != GT_NULL && ns.location == 0
    requires BootHome(m, slots, gt).Accept? && Home(m, ns, gt, true).Accept?
    ensures BootHome(m, slots, gt) == Home(m, ns, gt, true)
  {
    hide Integrity32, GtSeq, AuthSeq, AuthF, AuthLimit, EntryAt;
    KindIsInform(gt);
    BootHomeIsSealed(m, slots, gt, BootHome(m, slots, gt).value);
    HomeIsSealed(m, ns, gt, true, Home(m, ns, gt, true).value);
    HomeKeepsToken(m, ns, gt, true);
    SlotAddress(gt);
  }

  lemma SlotAddress(gt: Word)
    ensures Plus(0, GtSlot(gt) * 16) == GtSlot(gt) * 16
  {
  }

  /** The registers boot activation leaves: the sealed homes, CR12 over the admitted body, CR5
      over its heap to read and write, both under the slot-2 token of the boot version. */
  lemma ActivatedRegisters(m: seq<Word>, slots: nat, a: Admission, version: nat, homes: seq<Cap>, regs: seq<Cap>)
    requires Bootable(a) && version < 0x200 && |regs| == 16 && BootHomes(m, slots, a, CAP_WORDS) == Accept(homes)
    ensures var r := ActivatedRegs(regs, homes, a, version);
      && (forall k :: 0 <= k < CAP_WORDS && k != 5 ==>
            BootHome(m, slots, BodyWordAt(m, a.baseWord, Caps(a.header) + k)) == Accept(r[k]))
      && GtSlot(r[12].gt) == 2 && GtSeq(r[12].gt) == version && GtType(r[12].gt) == GT_INFORM && NoPerms(r[12].gt)
      && r[12].location == a.baseWord * 4 && r[12].authority == a.authority
      && SameIdentity(r[5].gt, r[12].gt) && Rights(r[5].gt, false, true, true, false)
      && r[13..] == regs[13..]
      && (!a.resume ==> r[0].gt == AfterBoot(a.entryGt))
  {
    hide BootHome, BodyWordAt, Limit, Rights, SameIdentity, ThreadHeader, BodyWords, HdrCw, GtSlot, GtSeq, GtType,
         NoPerms;
    Geometry(a.header);
    forall k | 0 <= k < CAP_WORDS
      ensures BootHome(m, slots, BodyWordAt(m, a.baseWord, Caps(a.header) + k)) == Accept(homes[k])
    {
      BootRows(m, slots, a, CAP_WORDS, k);
    }
    ThreadTokenFields(version);
    BootRows(m, slots, a, CAP_WORDS, 0);
    BootHomeToken(m, slots, BodyWordAt(m, a.baseWord, Caps(a.header)));
  }

  lemma ThreadTokenFields(version: nat)
    requires version < 0x200
    ensures var t, w := ThreadToken(version), 0x3000_0000 + ThreadToken(version);
      && GtSlot(t) == 2 && GtSeq(t) == version && GtType(t) == GT_INFORM && NoPerms(t)
      && SameIdentity(w, t) && Rights(w, false, true, true, false)
  {
    hide Rights, GtBound, GtSlot, GtSeq, GtType, GtChurch, GtPerm;
    var t := ThreadToken(version);
    TokenFields(version);
    PermBits(t, 6, 0);
    PermBits(t, 0, 0);
    RightsAre(t);
    IdentityFields(0x3000_0000 + t, t, 6);
  }

  lemma TokenFields(version: nat)
    requires version < 0x200
    ensures var t := ThreadToken(version); GtSlot(t) == 2 && GtSeq(t) == version && GtType(t) == GT_INFORM
  {
  }

  lemma RightsAre(gt: Word)
    ensures Rights(gt, false, false, false, false) ==> NoPerms(gt)
  {
  }

  lemma {:induction false} BootRows(m: seq<Word>, slots: nat, a: Admission, n: nat, k: nat)
    requires a.baseWord < M.RESIDENT_WORDS && k < n <= CAP_WORDS && BootHomes(m, slots, a, n).Accept?
    ensures var gt := BodyWordAt(m, a.baseWord, Caps(a.header) + k);
      && BootHome(m, slots, gt) == Accept(BootHomes(m, slots, a, n).value[k])
      && (!a.resume && k == 0 ==> gt == a.entryGt)
  {
    hide BootHome, BodyWordAt;
    if k < n - 1 {
      BootRows(m, slots, a, n - 1, k);
    }
  }
}
