/** What CHANGE admits and what it then does, on snapshots of memory and registers.  Every
    admission read precedes the first write. */
module Change {
  import opened Bits
  import opened Checks
  import opened Fields
  import opened Memory
  import opened NsGate
  import opened Stores
  import opened Thread
  import opened Validation
  import M = MLoad

  const F_PERMISSIONS := 0x1E
  const SLOT2_TOKEN: Word := 0x0200_0002

  /** The machine context CHANGE reads and replaces; `owned` tells that a Thread is running. */
  datatype Core = Core(m: seq<Word>, regs: seq<Cap>, drs: seq<Word>, flags: nat, nia: Word, owned: bool)
  {
    predicate Ok() {
      |m| == ADDRESS_SPACE && |regs| == 16 && |drs| == 16 && flags < 16
    }
  }

  datatype Operand = Operand(src: nat, dst: nat, index: nat, cr6M: bool, handoff: bool, incoming: Cap)
  {
    predicate Ok() {
      src < 16 && dst < 16 && index < 0x1_0000
    }

    predicate Indexed() {
      dst == 12 && src == 6 && index < 0x8000
    }
  }

  function Namespace(c: Core, q: Operand): Cap
    requires c.Ok()
  {
    if q.handoff then q.incoming else c.regs[15]
  }

  // ---- tokens

  /** A token's descriptor lies inside the namespace. */
  predicate Named(ns: Cap, gt: Word) {
    && GtSlot(gt) != 0 && GtSlot(gt) * 4 + 3 <= AuthLimit(ns.authority)
    && ns.location + GtSlot(gt) * 16 + 15 < 0x1_0000_0000
  }

  function EntryOf(m: seq<Word>, ns: Cap, gt: Word): Entry {
    EntryAt(m, Plus(ns.location, GtSlot(gt) * 16))
  }

  function Base(e: Entry, resident: bool): Word {
    if resident then e.location * 4 % 0x1_0000_0000 else e.location
  }

  predicate Unusable(e: Entry, resident: bool) {
    || (resident && (e.location >= M.RESIDENT_WORDS || e.location + AuthLimit(e.authority) >= M.RESIDENT_WORDS))
    || AuthF(e.authority) || Base(e, resident) % 4 != 0
  }

  /** Resolves a token through the gate; the gate never gets elevated authority. */
  function ResolveGt(m: seq<Word>, ns: Cap, gt: Word, resident: bool): Checked<Cap> {
    var e := EntryOf(m, ns, gt);
    :- Require(Decide(e, gt, false) == Pass && !Unusable(e, resident), F_THREAD_CONTEXT);
    Accept(Cap(gt, Base(e, resident), e.authority))
  }

  /** The indexed form: a bounded read of a c-list row, its own token validated first. */
  function Lookup(c: Core, q: Operand, ns: Cap, resident: bool): Checked<Word>
    requires c.Ok() && q.Ok()
  {
    var s, row := c.regs[q.src], q.index % 0x8000;
    var address := s.location + row * 4;
    :- Require(GtType(s.gt) == GT_INFORM, F_NULL_CAP);
    :- Require(HasChurch(s.gt, L) || q.cr6M, F_PERM_L);
    :- Require(row <= AuthLimit(s.authority) && address < 0x1_0000_0000 && address % 4 == 0
               && !AuthF(s.authority) && GtSlot(s.gt) != 0
               && GtSlot(s.gt) * 4 + 3 <= AuthLimit(ns.authority), F_BOUNDS);
    var src :- ResolveGt(c.m, ns, s.gt, resident);
    :- Require(src.location <= address <= src.location + AuthLimit(src.authority) * 4, F_BOUNDS);
    Accept(ReadAt(c.m, address))
  }

  function TargetGt(c: Core, q: Operand, ns: Cap, resident: bool): Checked<Word>
    requires c.Ok() && q.Ok()
  {
    if q.handoff then Accept(SLOT2_TOKEN)
    else if q.Indexed() then Lookup(c, q, ns, resident)
    else if q.dst != 0 || q.index != 0 || q.src == 13 then Deny(F_INVALID_OP)
    else Accept(c.regs[q.src].gt)
  }

  function NoPerms(gt: Word): bool {
    !GtPerm(gt, 0) && !GtPerm(gt, 1) && !GtPerm(gt, 2)
  }

  function AdmitThread(m: seq<Word>, ns: Cap, gt: Word, resident: bool): Checked<Cap> {
    if GtType(gt) != GT_INFORM then Deny(F_THREAD_CONTEXT)
    else if !NoPerms(gt) then Deny(F_PERMISSIONS)
    else if !Named(ns, gt) then Deny(F_THREAD_CONTEXT)
    else ResolveGt(m, ns, gt, resident)
  }

  function AdmitEntry(m: seq<Word>, ns: Cap, gt: Word, resident: bool): Checked<Cap> {
    if GtType(gt) == GT_INFORM && EntersOnly(gt) && Named(ns, gt) then ResolveGt(m, ns, gt, resident)
    else Deny(F_THREAD_CONTEXT)
  }

  // ---- the incoming body

  function BodyAt(m: seq<Word>, t: Cap, offset: int): Word {
    ReadAt(m, (t.location + offset * 4) % 0x1_0000_0000)
  }

  /** The header of a body the descriptor covers exactly. */
  function IncomingHeader(m: seq<Word>, t: Cap): Checked<Word> {
    var h := BodyAt(m, t, 0);
    :- Require(ThreadHeader(h) && AuthLimit(t.authority) == BodyWords(h) - 1
               && t.location + (BodyWords(h) - 1) * 4 < 0x1_0000_0000, F_THREAD_CONTEXT);
    Accept(h)
  }

  /** Where a Thread resumes: its frame, its E token, and whether it has never run. */
  datatype Resume = Resume(frame: Word, gt: Word, root: bool)

  /** The word after the one at `nia`, counted from the code base, in fifteen bits. */
  function NextPc(nia: Word, code: Cap): nat {
    ((nia - code.location) / 4 + 1) % 0x8000
  }

  /** The program counter a suspended Thread resumes at, in words from its code base. */
  function SuspendPc(c: Core): nat
    requires c.Ok()
  {
    NextPc(c.nia, c.regs[14])
  }

  function SelfResume(c: Core, indicator: Word): Resume
    requires c.Ok()
  {
    Resume(Frame(Sto(indicator), Sz(indicator), SuspendPc(c), c.flags), EGt(c.regs[6].gt), false)
  }

  function StoredResume(m: seq<Word>, t: Cap, h: Word, indicator: Word, handoff: bool): Checked<Resume>
    requires ThreadHeader(h)
  {
    var frame := BodyAt(m, t, Sto(indicator) + 2);
    :- Require(Sz(indicator) && Sto(indicator) + 2 <= Caps(h) - 1, F_THREAD_CONTEXT);
    var root := handoff && frame == RootFrame(Caps(h)) && indicator == RootIndicator(Caps(h));
    :- Require(root || (Pc(frame) != POISON_PC && Sto(frame) == Sto(indicator) + 2), F_THREAD_CONTEXT);
    Accept(Resume(frame, BodyAt(m, t, Sto(indicator) + 1), root))
  }

  function Continuation(c: Core, q: Operand, t: Cap, h: Word, self: bool): Checked<Resume>
    requires c.Ok() && ThreadHeader(h)
  {
    var indicator := BodyAt(c.m, t, STO_OFFSET);
    :- Require(Pc(indicator) == 0 && StackLo(h) <= Sto(indicator) <= Caps(h) - 1, F_THREAD_CONTEXT);
    if self then Accept(SelfResume(c, indicator)) else StoredResume(c.m, t, h, indicator, q.handoff)
  }

  // ---- the executable

  predicate EntryHeaderOk(h: Word) {
    && HdrMagic(h) == MAGIC && HdrType(h) == 0 && HdrN(h) <= 8
    && HdrCc(h) != 0 && HdrCw(h) != 0 && HdrCw(h) < BodyWords(h) - HdrCc(h)
  }

  /** Word offset of the c-list's first row, which names the executable itself. */
  function SelfRow(h: Word): int {
    BodyWords(h) - HdrCc(h)
  }

  function EntryHeader(m: seq<Word>, e: Cap, r: Resume): Checked<Word> {
    var h := BodyAt(m, e, 0);
    :- Require(r.root || Pc(r.frame) != POISON_PC, F_THREAD_CONTEXT);
    :- Require(EntryHeaderOk(h) && AuthLimit(e.authority) == BodyWords(h) - 1
               && e.location + (BodyWords(h) - 1) * 4 < 0x1_0000_0000
               && (r.root || Pc(r.frame) < HdrCw(h)), F_THREAD_CONTEXT);
    :- Require(BodyAt(m, e, SelfRow(h)) == e.gt, F_THREAD_CONTEXT);
    Accept(h)
  }

  // ---- homes

  /** The namespace limit as the home loader counts it: in slots unless words are resident. */
  function HomeNamespace(ns: Cap, resident: bool): Cap {
    var limit := AuthLimit(ns.authority);
    if resident then ns else ns.(authority := ns.authority - limit + limit / 4)
  }

  /** One capability home.  Null and abstract tokens stay as they are, with nothing behind them. */
  function Home(m: seq<Word>, ns: Cap, gt: Word, resident: bool): Checked<Cap> {
    if GtType(gt) == GT_NULL || GtType(gt) == GT_ABSTRACT then Accept(Cap(gt, 0, 0))
    else
      :- Require(GtType(gt) == GT_INFORM && Named(ns, gt), F_THREAD_CONTEXT);
      ResidentHome(M.ResolveToken(HOME_REQUEST, gt, HomeNamespace(ns, resident), EntryOf(m, ns, gt), resident))
  }

  function ResidentHome(r: M.Outcome): Checked<Cap> {
    if r.Validated? && !AuthF(r.cap.authority) && r.cap.location % 4 == 0 then Accept(r.cap)
    else Deny(F_THREAD_CONTEXT)
  }

  lemma HomeKeepsToken(m: seq<Word>, ns: Cap, gt: Word, resident: bool)
    requires Home(m, ns, gt, resident).Accept?
    ensures Home(m, ns, gt, resident).value.gt == gt
  {
  }

  /** Where row `k` comes from: the register itself if the target is the running Thread. */
  function HomeToken(c: Core, t: Cap, h: Word, self: bool, k: nat): Word
    requires c.Ok() && k < CAP_WORDS
  {
    if self then c.regs[k].gt else BodyAt(c.m, t, Caps(h) + k)
  }

  function Homes(c: Core, ns: Cap, t: Cap, h: Word, self: bool, resident: bool, n: nat): (r: Checked<seq<Cap>>)
    requires c.Ok() && n <= CAP_WORDS
    ensures r.Accept? ==> |r.value| == n
  {
    if n == 0 then Accept([])
    else
      var before :- Homes(c, ns, t, h, self, resident, n - 1);
      var home :- Home(c.m, ns, HomeToken(c, t, h, self, n - 1), resident);
      Accept(before + [home])
  }

  lemma {:induction false} HomesKeepTokens(c: Core, ns: Cap, t: Cap, h: Word, self: bool, resident: bool,
                                           n: nat, k: nat)
    requires c.Ok() && k < n <= CAP_WORDS && Homes(c, ns, t, h, self, resident, n).Accept?
    ensures Homes(c, ns, t, h, self, resident, n).value[k].gt == HomeToken(c, t, h, self, k)
  {
    if k < n - 1 {
      HomesKeepTokens(c, ns, t, h, self, resident, n - 1, k);
    } else {
      HomeKeepsToken(c.m, ns, HomeToken(c, t, h, self, k), resident);
    }
  }

  function IncomingDrs(c: Core, t: Cap, self: bool): (r: seq<Word>)
    requires c.Ok()
    ensures |r| == DR_WORDS
  {
    if self then c.drs else seq(DR_WORDS, k requires 0 <= k < DR_WORDS => BodyAt(c.m, t, k + 1))
  }

  // ---- the outgoing body

  datatype Outgoing = NoThread | Suspend(base: Word, header: Word, indicator: Word)

  /** CR12 names the running Thread; its body must have room for the two frame words. */
  function AdmitOutgoing(c: Core): Checked<Outgoing>
    requires c.Ok()
  {
    if !c.owned then Accept(NoThread)
    else
      var t := c.regs[12];
      var h, indicator := BodyAt(c.m, t, 0), BodyAt(c.m, t, STO_OFFSET);
      :- Require(ThreadHeader(h), F_THREAD_CONTEXT);
      :- Require(Pc(indicator) == 0 && Sto(indicator) <= Caps(h) - 1, F_THREAD_CONTEXT);
      :- Require(Sto(indicator) >= StackLo(h) + 2, F_THREAD_CONTEXT);
      Accept(Suspend(t.location, h, indicator))
  }

  // ---- the whole admission

  datatype Plan = Plan(ns: Cap, thread: Cap, header: Word, self: bool, resume: Resume, entry: Cap,
                       entryHeader: Word, homes: seq<Cap>, drs: seq<Word>, out: Outgoing)

  datatype Place = Place(thread: Cap, header: Word, self: bool, resume: Resume)

  predicate IsSelf(c: Core, q: Operand, thread: Cap)
    requires c.Ok()
  {
    !q.handoff && c.owned && thread.location == c.regs[12].location
  }

  predicate Sized(r: Checked<Plan>) {
    r.Accept? ==> |r.value.homes| == CAP_WORDS && |r.value.drs| == DR_WORDS
  }

  function AfterHomes(c: Core, ns: Cap, p: Place, entry: Cap, eh: Word, homes: seq<Cap>): (r: Checked<Plan>)
    requires c.Ok() && |homes| == CAP_WORDS
    ensures Sized(r)
  {
    var out :- AdmitOutgoing(c);
    Accept(Plan(ns, p.thread, p.header, p.self, p.resume, entry, eh, homes, IncomingDrs(c, p.thread, p.self), out))
  }

  function AfterEntry(c: Core, ns: Cap, p: Place, entry: Cap, eh: Word, resident: bool): (r: Checked<Plan>)
    requires c.Ok()
    ensures Sized(r)
  {
    var first := HomeToken(c, p.thread, p.header, p.self, 0);
    :- Require(p.resume.root ==> first == entry.gt, F_THREAD_CONTEXT);
    var homes :- Homes(c, ns, p.thread, p.header, p.self, resident, CAP_WORDS);
    AfterHomes(c, ns, p, entry, eh, homes)
  }

  function AfterPlace(c: Core, ns: Cap, p: Place, resident: bool): (r: Checked<Plan>)
    requires c.Ok()
    ensures Sized(r)
  {
    var entry :- AdmitEntry(c.m, ns, p.resume.gt, resident);
    var eh :- EntryHeader(c.m, entry, p.resume);
    AfterEntry(c, ns, p, entry, eh, resident)
  }

  function AfterThread(c: Core, q: Operand, thread: Cap, resident: bool): (r: Checked<Plan>)
    requires c.Ok()
    ensures Sized(r)
  {
    var header :- IncomingHeader(c.m, thread);
    var resume :- Continuation(c, q, thread, header, IsSelf(c, q, thread));
    AfterPlace(c, Namespace(c, q), Place(thread, header, IsSelf(c, q, thread), resume), resident)
  }

  /** The admission from the target's token on. */
  function AfterTarget(c: Core, q: Operand, gt: Word, resident: bool): (r: Checked<Plan>)
    requires c.Ok()
    ensures Sized(r)
  {
    var thread :- AdmitThread(c.m, Namespace(c, q), gt, resident);
    AfterThread(c, q, thread, resident)
  }

  function Admit(c: Core, q: Operand, resident: bool): (r: Checked<Plan>)
    requires c.Ok() && q.Ok()
    ensures Sized(r)
  {
    var gt :- TargetGt(c, q, Namespace(c, q), resident);
    AfterTarget(c, q, gt, resident)
  }

  // ---- the save

  const SAVE_WORDS := 31

  /** The stores of the save, in order: capability homes, E token, frame, word 17, data homes. */
  function SavePut(c: Core, h: Word, indicator: Word, k: nat): Put
    requires c.Ok() && ThreadHeader(h) && Sto(indicator) >= 2 && k < SAVE_WORDS
  {
    var sto := Sto(indicator);
    if k < 12 then Put(Caps(h) + k, c.regs[k].gt)
    else if k == 12 then Put(sto - 1, EGt(c.regs[6].gt))
    else if k == 13 then Put(sto, Frame(sto, Sz(indicator), SuspendPc(c), c.flags))
    else if k == 14 then Put(STO_OFFSET, Frame(sto - 2, true, 0, c.flags))
    else Put(k - 14, c.drs[k - 15])
  }

  function SavePuts(c: Core, h: Word, indicator: Word): (s: seq<Put>)
    requires c.Ok() && ThreadHeader(h) && Sto(indicator) >= 2
    ensures |s| == SAVE_WORDS
  {
    seq(SAVE_WORDS, k requires 0 <= k < SAVE_WORDS => SavePut(c, h, indicator, k))
  }

  /** The outgoing body lies inside memory on word boundaries. */
  predicate OutgoingFits(out: Outgoing) {
    out.Suspend? ==>
      && ThreadHeader(out.header) && StackLo(out.header) + 2 <= Sto(out.indicator) <= Caps(out.header) - 1
      && out.base % 4 == 0 && out.base / 4 + BodyWords(out.header) <= ADDRESS_SPACE
  }

  function Saved(c: Core, out: Outgoing): (m: seq<Word>)
    requires c.Ok() && OutgoingFits(out)
    ensures |m| == ADDRESS_SPACE
  {
    if out.NoThread? then c.m
    else
      PutsFit(c, out);
      StoreAll(c.m, out.base / 4, SavePuts(c, out.header, out.indicator))
  }

  lemma PutsInBody(c: Core, h: Word, indicator: Word, k: nat)
    requires c.Ok() && ThreadHeader(h) && StackLo(h) + 2 <= Sto(indicator) <= Caps(h) - 1 && k < SAVE_WORDS
    ensures 0 < SavePut(c, h, indicator, k).offset < BodyWords(h)
  {
    Geometry(h);
  }

  lemma PutsFit(c: Core, out: Outgoing)
    requires c.Ok() && OutgoingFits(out) && out.Suspend?
    ensures Fits(c.m, out.base / 4, SavePuts(c, out.header, out.indicator))
  {
    forall k | 0 <= k < SAVE_WORDS
      ensures out.base / 4 + SavePuts(c, out.header, out.indicator)[k].offset < |c.m|
    {
      PutsInBody(c, out.header, out.indicator, k);
    }
  }

  /** The pop of the incoming frame: word 17 takes the stack offset and flags it records. */
  function Popped(m: seq<Word>, p: Plan): (n: seq<Word>)
    requires |m| == ADDRESS_SPACE
    ensures |n| == ADDRESS_SPACE
  {
    if p.resume.root then m
    else
      var f := p.resume.frame;
      m[(p.thread.location + STO_OFFSET * 4) % 0x1_0000_0000 / 4 := Frame(Sto(f), Sz(f), 0, Flags(f))]
  }

  // ---- the commit

  function Limit(limit: nat, seqNo: nat): Word
    requires limit < 0x20_0000 && seqNo < 0x200
  {
    limit + seqNo * 0x20_0000
  }

  function WithPerms(gt: Word, perms: nat): Word
    requires perms < 16
  {
    gt % 0x800_0000 + perms * 0x800_0000 + gt / 0x8000_0000 * 0x8000_0000
  }

  const TURING_RW := 6
  const TURING_RX := 10
  const CHURCH_L := 3

  function HeapCap(t: Cap, h: Word): Cap
    requires ThreadHeader(h)
  {
    Cap(WithPerms(t.gt, TURING_RW), Plus(t.location, HEAP_OFFSET * 4),
        Limit(BodyWords(h) - HdrCw(h) - 31, AuthSeq(t.authority)))
  }

  function CodeCap(e: Cap, h: Word): Cap
    requires EntryHeaderOk(h)
  {
    Cap(WithPerms(e.gt, TURING_RX), Plus(e.location, 4), Limit(HdrCw(h) - 1, AuthSeq(e.authority)))
  }

  function ClistCap(e: Cap, h: Word): Cap
    requires EntryHeaderOk(h)
  {
    Cap(WithPerms(e.gt, CHURCH_L), Plus(e.location, SelfRow(h) * 4),
        Limit(HdrCc(h) - 1, AuthSeq(e.authority)))
  }

  predicate PlanOk(p: Plan) {
    && |p.homes| == CAP_WORDS && |p.drs| == DR_WORDS
    && ThreadHeader(p.header) && EntryHeaderOk(p.entryHeader) && OutgoingFits(p.out)
  }

  function EntryNia(p: Plan): Word {
    (p.entry.location + 4 + (if p.resume.root then 0 else Pc(p.resume.frame) * 4)) % 0x1_0000_0000
  }

  function CommittedRegs(regs: seq<Cap>, p: Plan, handoff: bool): (r: seq<Cap>)
    requires |regs| == 16 && PlanOk(p)
    ensures |r| == 16
  {
    (p.homes + [p.thread] + [regs[13], regs[14]] + [if handoff then p.ns else regs[15]])
      [5 := HeapCap(p.thread, p.header)][14 := CodeCap(p.entry, p.entryHeader)]
      [6 := ClistCap(p.entry, p.entryHeader)]
  }

  /** The machine after a completed CHANGE. */
  function Switched(c: Core, p: Plan, handoff: bool): (d: Core)
    requires c.Ok() && PlanOk(p)
    ensures d.Ok()
  {
    Core(Popped(Saved(c, p.out), p), CommittedRegs(c.regs, p, handoff), p.drs, Flags(p.resume.frame),
         EntryNia(p), true)
  }
}
