/** One small machine with two Threads and one executable.  CHANGE really suspends its running
    Thread, whatever that Thread's header and stack offset: the inputs for what boot and a
    handoff then make of the body. */
module TwoThreads {
  import opened Bits
  import opened BootProofs
  import opened BootValidation
  import opened Change
  import opened ChangeProofs
  import opened Checks
  import opened Fields
  import opened Integrity
  import opened Memory
  import opened NsGate
  import opened Thread
  import opened Validation
  import opened Windows
  import M = MLoad

  // word addresses: slot 2 is the running Thread, slot 3 the executable, slot 4 the other Thread
  const EXEC := 128
  const OTHER := 256
  const RUNNING := 1024

  const NS_CAP := Cap(0x200_0001, 0, 31)
  const ENTRY: Word := 0x4A00_0003
  const CLIST_GT: Word := 0x1A00_0003
  const OTHER_GT: Word := 0x200_0004
  /** Sixty-four words, eight of code, one c-list row. */
  const EXEC_HEADER: Word := 0xF800_2001
  /** A Thread of 256 words whose five stack words start at 239. */
  const FIVE_WORDS: Word := 0xF900_160C

  /** A location as the namespace holds it, in words or in bytes. */
  function Loc(word: nat, resident: bool): Word
    requires word < M.RESIDENT_WORDS
  {
    if resident then word else word * 4
  }

  /** Slot `s` seals the `limit + 1` words from `word`. */
  predicate Names(m: seq<Word>, resident: bool, s: nat, word: nat, limit: nat)
    requires |m| == ADDRESS_SPACE
  {
    && 2 <= s <= 7 && word + limit < M.RESIDENT_WORDS
    && m[4 * s] == Loc(word, resident) && m[4 * s + 1] == limit
    && m[4 * s + 2] == SealWord(Loc(word, resident), limit)
  }

  /** What every memory of the machine holds: the namespace, the executable, and a header for
      the other Thread. */
  predicate Laid(m: seq<Word>, resident: bool, h: Word)
    requires |m| == ADDRESS_SPACE && ThreadHeader(h)
  {
    Geometry(h);
    && Names(m, resident, 2, RUNNING, BodyWords(h) - 1) && Names(m, resident, 3, EXEC, 63)
    && Names(m, resident, 4, OTHER, 255)
    && m[EXEC] == EXEC_HEADER && m[EXEC + 63] == ENTRY && m[OTHER] == FIVE_WORDS
  }

  function TableWord(j: int, resident: bool, h: Word): Word
    requires ThreadHeader(h)
  {
    Geometry(h);
    if j == 8 then Loc(RUNNING, resident) else if j == 9 then BodyWords(h) - 1
    else if j == 10 then SealWord(Loc(RUNNING, resident), BodyWords(h) - 1)
    else if j == 12 then Loc(EXEC, resident) else if j == 13 then 63
    else if j == 14 then SealWord(Loc(EXEC, resident), 63)
    else if j == 16 then Loc(OTHER, resident) else if j == 17 then 255
    else if j == 18 then SealWord(Loc(OTHER, resident), 255)
    else 0
  }

  /** The other Thread is suspended at the start of the code. */
  function BodyWord0(j: int, h: Word, sto: nat): Word
    requires sto < 0x1000
  {
    if j == EXEC then EXEC_HEADER else if j == EXEC + 63 then ENTRY
    else if j == OTHER then FIVE_WORDS else if j == OTHER + STO_OFFSET then Frame(241, true, 0, 0)
    else if j == OTHER + 242 then ENTRY else if j == OTHER + 243 then Frame(243, true, 0, 0)
    else if j == RUNNING then h else if j == RUNNING + STO_OFFSET then Frame(sto, true, 0, 0)
    else 0
  }

  function World(resident: bool, h: Word, sto: nat): (m: seq<Word>)
    requires ThreadHeader(h) && sto < 0x1000
    ensures |m| == ADDRESS_SPACE
  {
    seq(ADDRESS_SPACE, j => if j < 32 then TableWord(j, resident, h) else BodyWord0(j, h, sto))
  }

  /** The running Thread: CR0 holds the E token of the executable that CR6 names, CR1 the token
      of the other Thread. */
  function Running(resident: bool, h: Word, sto: nat, code: Cap, nia: Word): (c: Core)
    requires ThreadHeader(h) && sto < 0x1000
    ensures c.Ok()
  {
    Geometry(h);
    var regs := seq(16, _ => NULL_CAP_REG)[0 := Cap(ENTRY, EXEC * 4, 63)][1 := Cap(OTHER_GT, OTHER * 4, 255)]
      [6 := Cap(CLIST_GT, (EXEC + 63) * 4, 0)][12 := Cap(SLOT2_TOKEN, RUNNING * 4, BodyWords(h) - 1)]
      [14 := code][15 := NS_CAP];
    Core(World(resident, h, sto), regs, seq(16, _ => 0), 0, nia, true)
  }

  /** CHANGE to the Thread whose token is in CR1, and a handoff to slot 2. */
  const TO_OTHER := Operand(1, 0, 0, false, false, NULL_CAP_REG)
  const HANDOFF := Operand(0, 0, 0, false, true, NS_CAP)

  /** The stack has the room that CHANGE asks for. */
  predicate HasRoom(h: Word, sto: nat) {
    ThreadHeader(h) && StackLo(h) + 2 <= sto <= Caps(h) - 1 && sto < 0x1000
  }

  function Left(h: Word, sto: nat): Outgoing
    requires sto < 0x1000
  {
    Suspend(RUNNING * 4, h, Frame(sto, true, 0, 0))
  }

  // ---- tokens

  lemma TokenFields()
    ensures GtSlot(ENTRY) == 3 && GtSeq(ENTRY) == 0 && GtType(ENTRY) == GT_INFORM && EntersOnly(ENTRY)
    ensures GtSlot(CLIST_GT) == 3 && GtSeq(CLIST_GT) == 0 && GtType(CLIST_GT) == GT_INFORM
    ensures EGt(CLIST_GT) == ENTRY
    ensures GtSlot(OTHER_GT) == 4 && GtSeq(OTHER_GT) == 0 && GtType(OTHER_GT) == GT_INFORM && NoPerms(OTHER_GT)
    ensures GtSlot(SLOT2_TOKEN) == 2 && GtSeq(SLOT2_TOKEN) == 0 && GtType(SLOT2_TOKEN) == GT_INFORM
    ensures NoPerms(SLOT2_TOKEN) && AuthLimit(31) == 31
  {
  }

  lemma HeaderFields()
    ensures ThreadHeader(FIVE_WORDS) && BodyWords(FIVE_WORDS) == 256 && HdrCw(FIVE_WORDS) == 5
    ensures Caps(FIVE_WORDS) == 244 && StackLo(FIVE_WORDS) == 239
    ensures EntryHeaderOk(EXEC_HEADER) && BodyWords(EXEC_HEADER) == 64 && HdrCw(EXEC_HEADER) == 8
    ensures SelfRow(EXEC_HEADER) == 63
  {
  }

  lemma SmallLimit(limit: nat)
    requires limit < M.RESIDENT_WORDS
    ensures AuthLimit(limit) == limit && AuthSeq(limit) == 0 && !AuthF(limit)
  {
  }

  lemma EntryThere(m: seq<Word>, gt: Word)
    requires |m| == ADDRESS_SPACE && GtSlot(gt) <= 7
    ensures var j := 4 * GtSlot(gt); EntryOf(m, NS_CAP, gt) == Entry(m[j], m[j + 1], m[j + 2], m[j + 3])
  {
    hide GtSlot;
  }

  /** A token of version 0 resolves to the lump its slot seals. */
  lemma Resolves(m: seq<Word>, resident: bool, gt: Word, word: nat, limit: nat)
    requires |m| == ADDRESS_SPACE && Names(m, resident, GtSlot(gt), word, limit)
    requires GtSeq(gt) == 0 && GtType(gt) == GT_INFORM
    ensures Named(NS_CAP, gt) && ResolveGt(m, NS_CAP, gt, resident) == Accept(Cap(gt, word * 4, limit))
    ensures Home(m, NS_CAP, gt, resident).Accept?
  {
    hide Integrity32, GtSlot, GtSeq, GtType, AuthLimit, AuthSeq, AuthF, EntryOf;
    EntryThere(m, gt);
    SmallLimit(limit);
    SmallLimit(31);
    HomeResolves(m, resident, gt, word, limit);
  }

  lemma HomeResolves(m: seq<Word>, resident: bool, gt: Word, word: nat, limit: nat)
    requires |m| == ADDRESS_SPACE && Names(m, resident, GtSlot(gt), word, limit)
    requires GtSeq(gt) == 0 && GtType(gt) == GT_INFORM && Named(NS_CAP, gt)
    ensures Home(m, NS_CAP, gt, resident).Accept?
  {
    hide Integrity32, GtSlot, GtSeq, GtType, AuthSeq, AuthLimit, AuthF, EntryOf, Named;
    EntryThere(m, gt);
    SmallLimit(limit);
    SmallLimit(31);
    SmallLimit(7);
  }

  lemma NullHome(m: seq<Word>, resident: bool)
    ensures Home(m, NS_CAP, 0, resident).Accept?
  {
  }

  /** Rows that all resolve. */
  lemma {:induction false} HomesResolve(c: Core, t: Cap, h: Word, resident: bool, n: nat)
    requires c.Ok() && n <= CAP_WORDS
    requires forall k :: 0 <= k < n ==> Home(c.m, NS_CAP, HomeToken(c, t, h, false, k), resident).Accept?
    ensures Homes(c, NS_CAP, t, h, false, resident, n).Accept?
  {
    hide Home;
    if n > 0 {
      HomesResolve(c, t, h, resident, n - 1);
    }
  }

  // ---- the other Thread

  /** A suspended or fresh Thread whose frame, executable and homes are all in order. */
  lemma EntersExecutable(c: Core, resident: bool, h: Word, r: Resume)
    requires c.Ok() && ThreadHeader(h) && Laid(c.m, resident, h) && r.gt == ENTRY
    requires r.root || Pc(r.frame) == 0
    ensures AdmitEntry(c.m, NS_CAP, ENTRY, resident) == Accept(Cap(ENTRY, EXEC * 4, 63))
    ensures EntryHeader(c.m, Cap(ENTRY, EXEC * 4, 63), r) == Accept(EXEC_HEADER)
  {
    hide Names, SealWord, ResolveGt, Home, Named, EntersOnly, GtType, EntryHeaderOk, BodyWords, HdrCw, SelfRow, BodyAt,
         Pc, AuthLimit, ThreadHeader;
    TokenFields();
    HeaderFields();
    SmallLimit(63);
    Resolves(c.m, resident, ENTRY, EXEC, 63);
    BodyWord(c.m, Cap(ENTRY, EXEC * 4, 63), 0);
    BodyWord(c.m, Cap(ENTRY, EXEC * 4, 63), 63);
  }

  /** What the stages of an admission add up to. */
  lemma StagesAdmit(c: Core, q: Operand, resident: bool, h: Word, gt: Word, t: Cap, hd: Word, r: Resume, out: Outgoing)
    requires c.Ok() && q.Ok() && ThreadHeader(h) && Laid(c.m, resident, h) && Namespace(c, q) == NS_CAP
    requires TargetGt(c, q, NS_CAP, resident) == Accept(gt) && AdmitThread(c.m, NS_CAP, gt, resident) == Accept(t)
    requires IncomingHeader(c.m, t) == Accept(hd) && !IsSelf(c, q, t)
    requires Continuation(c, q, t, hd, false) == Accept(r) && r.gt == ENTRY && (r.root || Pc(r.frame) == 0)
    requires r.root ==> BodyAt(c.m, t, Caps(hd)) == ENTRY
    requires Homes(c, NS_CAP, t, hd, false, resident, CAP_WORDS).Accept? && AdmitOutgoing(c) == Accept(out)
    ensures Admit(c, q, resident).Accept?
    ensures var p := Admit(c, q, resident).value;
      && p.ns == NS_CAP && p.thread == t && p.header == hd && !p.self && p.resume == r && p.out == out
      && p.entry == Cap(ENTRY, EXEC * 4, 63) && p.entryHeader == EXEC_HEADER
  {
    hide Laid, TargetGt, AdmitThread, IncomingHeader, Continuation, Homes, AdmitOutgoing, AdmitEntry, EntryHeader, Caps,
         Pc, ThreadHeader, BodyAt, IncomingDrs;
    EntersExecutable(c, resident, h, r);
  }

  lemma WorldIsLaid(resident: bool, h: Word, sto: nat)
    requires ThreadHeader(h) && sto < 0x1000
    ensures Laid(World(resident, h, sto), resident, h)
  {
    hide SealWord, ThreadHeader, BodyWords, Frame;
    Geometry(h);
  }

  lemma WorldBodies(resident: bool, h: Word, sto: nat)
    requires ThreadHeader(h) && sto < 0x1000
    ensures var m := World(resident, h, sto);
      && m[OTHER + STO_OFFSET] == Frame(241, true, 0, 0)
      && m[OTHER + 242] == ENTRY && m[OTHER + 243] == Frame(243, true, 0, 0)
      && (forall j :: OTHER + 244 <= j < OTHER + 256 ==> m[j] == 0)
      && m[RUNNING] == h && m[RUNNING + STO_OFFSET] == Frame(sto, true, 0, 0)
  {
    hide TableWord, ThreadHeader, Frame;
  }

  /** The namespace names both Threads. */
  lemma ThreadsResolve(m: seq<Word>, resident: bool, h: Word)
    requires |m| == ADDRESS_SPACE && ThreadHeader(h) && Laid(m, resident, h)
    ensures AdmitThread(m, NS_CAP, OTHER_GT, resident) == Accept(Cap(OTHER_GT, OTHER * 4, 255))
    ensures AdmitThread(m, NS_CAP, SLOT2_TOKEN, resident)
         == Accept(Cap(SLOT2_TOKEN, RUNNING * 4, BodyWords(h) - 1))
  {
    hide Names, ResolveGt, Home, Named, GtType, GtSlot, GtSeq, NoPerms, ThreadHeader, BodyWords;
    TokenFields();
    Geometry(h);
    Resolves(m, resident, OTHER_GT, OTHER, 255);
    Resolves(m, resident, SLOT2_TOKEN, RUNNING, BodyWords(h) - 1);
  }

  /** The descriptor covers the body exactly. */
  lemma HeaderCovers(m: seq<Word>, t: Cap, h: Word, word: nat)
    requires |m| == ADDRESS_SPACE && ThreadHeader(h) && word < M.RESIDENT_WORDS && m[word] == h
    requires t.location == word * 4 && t.authority == BodyWords(h) - 1
    ensures IncomingHeader(m, t) == Accept(h)
  {
    hide ThreadHeader, BodyWords, BodyAt, AuthLimit;
    Geometry(h);
    SmallLimit(BodyWords(h) - 1);
    BodyWord(m, t, 0);
  }

  /** A stored frame that names its own offset. */
  lemma StoredContinues(c: Core, q: Operand, t: Cap, h: Word, indicator: Word, f: Word)
    requires c.Ok() && ThreadHeader(h) && t.location % 4 == 0 && t.location / 4 + BodyWords(h) <= ADDRESS_SPACE
    requires c.m[t.location / 4 + STO_OFFSET] == indicator && Sz(indicator) && Pc(indicator) == 0
    requires StackLo(h) <= Sto(indicator) && Sto(indicator) + 2 <= Caps(h) - 1
    requires c.m[t.location / 4 + Sto(indicator) + 2] == f && c.m[t.location / 4 + Sto(indicator) + 1] == ENTRY
    requires Sto(f) == Sto(indicator) + 2
    requires var root := q.handoff && f == RootFrame(Caps(h)) && indicator == RootIndicator(Caps(h));
      root || Pc(f) != POISON_PC
    ensures Continuation(c, q, t, h, false)
      == Accept(Resume(f, ENTRY, q.handoff && f == RootFrame(Caps(h)) && indicator == RootIndicator(Caps(h))))
  {
    hide ThreadHeader, BodyWords, BodyAt, RootFrame, RootIndicator, Sto, Sz, Pc, StackLo;
    Geometry(h);
    BodyWord(c.m, t, STO_OFFSET);
    BodyWord(c.m, t, Sto(indicator) + 2);
    BodyWord(c.m, t, Sto(indicator) + 1);
  }

  // ---- the running Thread is suspended

  lemma RunningLeaves(resident: bool, h: Word, sto: nat, code: Cap, nia: Word)
    requires HasRoom(h, sto)
    ensures AdmitOutgoing(Running(resident, h, sto, code, nia)) == Accept(Left(h, sto)) && OutgoingFits(Left(h, sto))
  {
    hide ThreadHeader, BodyWords, Caps, StackLo, Frame, Sto, Sz, Pc, TableWord, BodyAt, World;
    var c := Running(resident, h, sto, code, nia);
    Geometry(h);
    FrameFields(sto, true, 0, 0);
    WorldBodies(resident, h, sto);
    BodyWord(c.m, c.regs[12], 0);
    BodyWord(c.m, c.regs[12], STO_OFFSET);
  }

  lemma OtherContinues(resident: bool, h: Word, sto: nat, code: Cap, nia: Word, t: Cap)
    requires ThreadHeader(h) && sto < 0x1000 && t.location == OTHER * 4
    ensures ThreadHeader(FIVE_WORDS)
    ensures var r := Continuation(Running(resident, h, sto, code, nia), TO_OTHER, t, FIVE_WORDS, false);
      r == Accept(Resume(Frame(243, true, 0, 0), ENTRY, false))
    ensures Homes(Running(resident, h, sto, code, nia), NS_CAP, t, FIVE_WORDS, false, resident, CAP_WORDS).Accept?
  {
    hide ThreadHeader, BodyWords, Caps, StackLo, HdrCw, Frame, Sto, Sz, Pc, BodyAt, World, Home, Homes, Continuation,
         RootFrame, RootIndicator;
    var c := Running(resident, h, sto, code, nia);
    HeaderFields();
    FrameFields(241, true, 0, 0);
    FrameFields(243, true, 0, 0);
    WorldBodies(resident, h, sto);
    StoredContinues(c, TO_OTHER, t, FIVE_WORDS, Frame(241, true, 0, 0), Frame(243, true, 0, 0));
    forall k | 0 <= k < CAP_WORDS
      ensures Home(c.m, NS_CAP, HomeToken(c, t, FIVE_WORDS, false, k), resident).Accept?
    {
      BodyWord(c.m, t, 244 + k);
      assert c.m[OTHER + (244 + k)] == 0;
      NullHome(c.m, resident);
    }
    HomesResolve(c, t, FIVE_WORDS, resident, CAP_WORDS);
  }

  /** For every Thread header and every stack offset that leaves the room CHANGE asks for, this
      CHANGE is admitted as a whole and suspends the running Thread there. */
  lemma ChangeSuspends(resident: bool, h: Word, sto: nat, code: Cap, nia: Word)
    requires HasRoom(h, sto)
    ensures var r := Admit(Running(resident, h, sto, code, nia), TO_OTHER, resident);
      && r.Accept? && PlanOk(r.value) && r.value.out == Left(h, sto) && !r.value.self && !r.value.resume.root
      && r.value.thread == Cap(OTHER_GT, OTHER * 4, 255) && r.value.ns == NS_CAP
      && r.value.resume.frame == Frame(243, true, 0, 0)
      && r.value.entry == Cap(ENTRY, EXEC * 4, 63) && r.value.entryHeader == EXEC_HEADER
      && r.value.header == FIVE_WORDS
  {
    hide ThreadHeader, BodyWords, Caps, StackLo, HdrCw, Frame, Sto, Sz, Pc, BodyAt, World, Home, Homes, Continuation,
         RootFrame, RootIndicator, Laid, AdmitThread, AdmitOutgoing, IncomingHeader, Admit, OutgoingFits, EntryHeaderOk,
         SelfRow, Left;
    var c, t := Running(resident, h, sto, code, nia), Cap(OTHER_GT, OTHER * 4, 255);
    HeaderFields();
    FrameFields(243, true, 0, 0);
    WorldIsLaid(resident, h, sto);
    ThreadsResolve(c.m, resident, h);
    OtherHeader(c.m, resident, h, t);
    OtherContinues(resident, h, sto, code, nia, t);
    RunningLeaves(resident, h, sto, code, nia);
    StagesAdmit(c, TO_OTHER, resident, h, OTHER_GT, t, FIVE_WORDS, Resume(Frame(243, true, 0, 0), ENTRY, false),
                Left(h, sto));
  }

  lemma OtherHeader(m: seq<Word>, resident: bool, h: Word, t: Cap)
    requires |m| == ADDRESS_SPACE && ThreadHeader(h) && Laid(m, resident, h) && t == Cap(OTHER_GT, OTHER * 4, 255)
    ensures IncomingHeader(m, t) == Accept(FIVE_WORDS)
  {
    hide ThreadHeader, IncomingHeader, Names;
    HeaderFields();
    HeaderCovers(m, t, FIVE_WORDS, OTHER);
  }

  /** The machine after that CHANGE: the other Thread runs. */
  function Suspended(resident: bool, h: Word, sto: nat, code: Cap, nia: Word): (d: Core)
    requires HasRoom(h, sto)
    ensures d.Ok()
  {
    var c := Running(resident, h, sto, code, nia);
    ChangeSuspends(resident, h, sto, code, nia);
    Switched(c, Admit(c, TO_OTHER, resident).value, false)
  }

  /** Its memory: the save, and one popped frame of the other Thread. */
  lemma SuspendedMemory(resident: bool, h: Word, sto: nat, code: Cap, nia: Word)
    requires HasRoom(h, sto)
    ensures OutgoingFits(Left(h, sto))
    ensures var c, d := Running(resident, h, sto, code, nia), Suspended(resident, h, sto, code, nia);
      && d.m == Saved(c, Left(h, sto))[OTHER + STO_OFFSET := Frame(243, true, 0, 0)]
      && SameBody(Saved(c, Left(h, sto)), d.m, RUNNING * 4, BodyWords(h))
  {
    hide ThreadHeader, BodyWords, Frame, Sto, Sz, Pc, Flags, Popped, Saved, Admit, Running, CommittedRegs, EntryNia,
         PlanOk, StackLo, Caps, OutgoingFits;
    var c := Running(resident, h, sto, code, nia);
    Geometry(h);
    FrameFields(243, true, 0, 0);
    ChangeSuspends(resident, h, sto, code, nia);
    RunningLeaves(resident, h, sto, code, nia);
    PoppedWord(Saved(c, Left(h, sto)), Admit(c, TO_OTHER, resident).value);
  }

  /** What the save leaves outside the suspended body. */
  lemma SuspendedKeeps(resident: bool, h: Word, sto: nat, code: Cap, nia: Word, j: nat)
    requires HasRoom(h, sto) && j < RUNNING && j != OTHER + STO_OFFSET
    ensures Suspended(resident, h, sto, code, nia).m[j] == World(resident, h, sto)[j]
  {
    hide ThreadHeader, BodyWords, Frame, Sto, Saved, World, Suspended, Caps, StackLo, OutgoingFits;
    Geometry(h);
    FrameFields(sto, true, 0, 0);
    SuspendedMemory(resident, h, sto, code, nia);
    SaveTouchesNothingElse(Running(resident, h, sto, code, nia), Left(h, sto), j);
  }

  lemma SuspendedIsLaid(resident: bool, h: Word, sto: nat, code: Cap, nia: Word)
    requires HasRoom(h, sto)
    ensures Laid(Suspended(resident, h, sto, code, nia).m, resident, h)
  {
    hide ThreadHeader, BodyWords, Frame, World, Suspended, Caps, StackLo, SealWord;
    var d := Suspended(resident, h, sto, code, nia);
    WorldIsLaid(resident, h, sto);
    forall j: nat | j < RUNNING && j != OTHER + STO_OFFSET
      ensures d.m[j] == World(resident, h, sto)[j]
    {
      SuspendedKeeps(resident, h, sto, code, nia, j);
    }
  }

  /** Boot reads the same descriptor. */
  lemma SlotTwoDescribes(m: seq<Word>, h: Word)
    requires |m| == ADDRESS_SPACE && ThreadHeader(h) && Laid(m, true, h)
    ensures Describes(m, 8, 0, RUNNING * 4, BodyWords(h))
  {
    hide ThreadHeader, BodyWords, Integrity32, AuthLimit, AuthSeq, AuthF;
    Geometry(h);
    SmallLimit(BodyWords(h) - 1);
  }

  /** CHANGE suspends a Thread whenever its stack has two words left; boot then resumes the body
      exactly if it had four words left and at most 4096 in all, and refuses any other. */
  lemma SuspendThenBoot(h: Word, sto: nat)
    requires HasRoom(h, sto)
    ensures Admit(Running(true, h, sto, NULL_CAP_REG, 0), TO_OTHER, true).Accept?
    ensures var r := Validate(Suspended(true, h, sto, NULL_CAP_REG, 0).m, 8, 0);
      && (r.Accept? <==> sto >= StackLo(h) + 4 && BodyWords(h) <= 4096)
      && (r.Accept? ==> r.value.resume)
  {
    hide ThreadHeader, BodyWords, Frame, World, Suspended, Caps, StackLo, Saved, Describes, Admit, Validate,
         AdmitOutgoing, OutgoingFits, Laid, PlanOk, Sto;
    var c, d := Running(true, h, sto, NULL_CAP_REG, 0), Suspended(true, h, sto, NULL_CAP_REG, 0);
    TokenFields();
    FrameFields(sto, true, 0, 0);
    ChangeSuspends(true, h, sto, NULL_CAP_REG, 0);
    RunningLeaves(true, h, sto, NULL_CAP_REG, 0);
    SuspendedMemory(true, h, sto, NULL_CAP_REG, 0);
    SuspendedIsLaid(true, h, sto, NULL_CAP_REG, 0);
    SlotTwoDescribes(d.m, h);
    SuspendedBoots(c, Left(h, sto), d.m, 8, 0);
  }

  /** A Thread suspended with two words left, which boot refuses. */
  lemma SuspensionThatBootRefuses()
    ensures HasRoom(FIVE_WORDS, 241) && 241 == StackLo(FIVE_WORDS) + 2
    ensures Admit(Running(true, FIVE_WORDS, 241, NULL_CAP_REG, 0), TO_OTHER, true).Accept?
    ensures Validate(Suspended(true, FIVE_WORDS, 241, NULL_CAP_REG, 0).m, 8, 0).Deny?
  {
    hide Admit, Validate, Suspended;
    HeaderFields();
    SuspendThenBoot(FIVE_WORDS, 241);
  }

  /** A Thread of 8192 words with five thousand stack words. */
  const LARGEST: Word := 0xFBCE_220C

  /** The largest body, suspended with plenty of room, which boot refuses. */
  lemma LargestBodyNeverBoots()
    ensures HasRoom(LARGEST, 4000) && BodyWords(LARGEST) == 8192 && 4000 >= StackLo(LARGEST) + 4
    ensures Admit(Running(true, LARGEST, 4000, NULL_CAP_REG, 0), TO_OTHER, true).Accept?
    ensures Validate(Suspended(true, LARGEST, 4000, NULL_CAP_REG, 0).m, 8, 0).Deny?
  {
    hide Admit, Validate, Suspended;
    SuspendThenBoot(LARGEST, 4000);
  }

  // ---- a handoff that starts a suspended Thread afresh

  /** The window a cLoad of byte-addressed lumps opens over a header without code words. */
  const NO_CODE: Word := 0xF800_0001
  const WIDE := CloadCode(ENTRY, EXEC * 4, NO_CODE)

  /** The last but one word that fifteen bits count. */
  const LATE := (EXEC * 4 + 4 + 0x7FFE * 4) as Word

  function Strayed(): (c: Core)
    ensures c.Ok()
  {
    HeaderFields();
    Running(false, FIVE_WORDS, 243, WIDE, LATE)
  }

  function StrayedAway(): (d: Core)
    ensures d.Ok()
  {
    HeaderFields();
    Suspended(false, FIVE_WORDS, 243, WIDE, LATE)
  }

  lemma WideWindow()
    ensures WIDE.location == EXEC * 4 + 4 && AuthLimit(WIDE.authority) == 0x1F_FFFF
    ensures NextPc(LATE, WIDE) == POISON_PC
    ensures WIDE.location <= LATE <= WIDE.location + AuthLimit(WIDE.authority) * 4
  {
    hide HdrCw, GtSeq, AuthLimit;
    assert HdrCw(NO_CODE) == 0 by { NoCode(NO_CODE); }
    TokenFields();
    FullLimit(WIDE.authority);
    LatePc(LATE, WIDE);
  }

  lemma NoCode(h: Word)
    requires h == 0xF800_0001
    ensures HdrCw(h) == 0
  {
  }

  lemma FullLimit(authority: Word)
    requires authority == 0x1F_FFFF
    ensures AuthLimit(authority) == 0x1F_FFFF
  {
  }

  lemma LatePc(nia: Word, code: Cap)
    requires nia == code.location + 0x7FFE * 4
    ensures NextPc(nia, code) == POISON_PC
  {
  }

  /** The registers of the running Thread. */
  lemma RunningRegs(resident: bool, h: Word, sto: nat, code: Cap, nia: Word)
    requires ThreadHeader(h) && sto < 0x1000
    ensures var c := Running(resident, h, sto, code, nia);
      && c.nia == nia && c.regs[14] == code && c.flags == 0
      && c.regs[0].gt == ENTRY && c.regs[1].gt == OTHER_GT && c.regs[6].gt == CLIST_GT
      && forall k :: 2 <= k < CAP_WORDS && k != 6 ==> c.regs[k].gt == 0
  {
    hide World, ThreadHeader, BodyWords;
  }

  lemma StrayedAddress()
    ensures SuspendPc(Strayed()) == POISON_PC && Strayed().flags == 0
  {
    hide Running, ThreadHeader, NextPc;
    HeaderFields();
    WideWindow();
    RunningRegs(false, FIVE_WORDS, 243, WIDE, LATE);
  }

  /** What a later CHANGE finds of the suspended body. */
  lemma StrayedIsRecorded(t: Cap)
    requires t.location == RUNNING * 4
    ensures HasRoom(FIVE_WORDS, 243) && Recorded(Strayed(), Left(FIVE_WORDS, 243), StrayedAway().m, t)
    ensures OutgoingFits(Left(FIVE_WORDS, 243)) && AdmitOutgoing(Strayed()) == Accept(Left(FIVE_WORDS, 243))
    ensures SameBody(Saved(Strayed(), Left(FIVE_WORDS, 243)), StrayedAway().m, RUNNING * 4, 256)
    ensures Sto(Left(FIVE_WORDS, 243).indicator) == 243
  {
    hide Frame, Sto, Saved, AdmitOutgoing, OutgoingFits, Suspended, Running, Recorded, SameBody;
    HeaderFields();
    FrameFields(243, true, 0, 0);
    RunningLeaves(false, FIVE_WORDS, 243, WIDE, LATE);
    SuspendedMemory(false, FIVE_WORDS, 243, WIDE, LATE);
    SuspensionIsRecorded(Strayed(), Left(FIVE_WORDS, 243), StrayedAway().m, t);
  }

  /** Its words: the root form. */
  lemma StrayedBody(t: Cap)
    requires t.location == RUNNING * 4
    ensures var m := StrayedAway().m;
      && m[RUNNING] == FIVE_WORDS && m[RUNNING + STO_OFFSET] == Frame(241, true, 0, 0)
      && m[RUNNING + 242] == ENTRY && m[RUNNING + 243] == Frame(243, true, POISON_PC, 0)
  {
    hide Frame, Sto, Saved, AdmitOutgoing, OutgoingFits, StrayedAway, BodyAt, SameBody, SuspendPc, World, EGt;
    var m := StrayedAway().m;
    HeaderFields();
    TokenFields();
    FrameFields(243, true, 0, 0);
    StrayedAddress();
    StrayedIsRecorded(t);
    BodyWord(m, t, 0);
    BodyWord(m, t, STO_OFFSET);
    BodyWord(m, t, 242);
    BodyWord(m, t, 243);
  }

  /** Its homes: the tokens of the registers. */
  lemma StrayedHome(t: Cap, k: nat)
    requires t.location == RUNNING * 4 && k < CAP_WORDS
    ensures BodyAt(StrayedAway().m, t, 244 + k) == Strayed().regs[k].gt
  {
    hide Frame, Sto, Saved, AdmitOutgoing, OutgoingFits, StrayedAway, BodyAt, SameBody, SuspendPc, World, EGt;
    HeaderFields();
    StrayedIsRecorded(t);
  }

  lemma StrayedHomes(t: Cap)
    requires t.location == RUNNING * 4
    ensures ThreadHeader(FIVE_WORDS)
    ensures Homes(StrayedAway(), NS_CAP, t, FIVE_WORDS, false, false, CAP_WORDS).Accept?
    ensures BodyAt(StrayedAway().m, t, 244) == ENTRY
  {
    hide StrayedAway, Running, BodyAt, Home, Homes, ThreadHeader, BodyWords, Caps, HdrCw, StackLo;
    var d := StrayedAway();
    HeaderFields();
    RunningRegs(false, FIVE_WORDS, 243, WIDE, LATE);
    StrayedHome(t, 0);
    forall k | 0 <= k < CAP_WORDS
      ensures Home(d.m, NS_CAP, HomeToken(d, t, FIVE_WORDS, false, k), false).Accept?
    {
      StrayedHome(t, k);
      StrayedTokens(k);
    }
    HomesResolve(d, t, FIVE_WORDS, false, CAP_WORDS);
  }

  lemma LaidHomes(m: seq<Word>, resident: bool, h: Word, gt: Word)
    requires |m| == ADDRESS_SPACE && ThreadHeader(h) && Laid(m, resident, h)
    requires gt == ENTRY || gt == CLIST_GT || gt == OTHER_GT || gt == 0
    ensures Home(m, NS_CAP, gt, resident).Accept?
  {
    hide Home, Names, GtSlot, GtSeq, GtType, ThreadHeader, BodyWords, Named, ResolveGt;
    TokenFields();
    if gt == 0 {
      NullHome(m, resident);
    } else if gt == OTHER_GT {
      Resolves(m, resident, gt, OTHER, 255);
    } else {
      Resolves(m, resident, gt, EXEC, 63);
    }
  }

  lemma StrayedTokens(k: nat)
    requires k < CAP_WORDS
    ensures Home(StrayedAway().m, NS_CAP, Strayed().regs[k].gt, false).Accept?
  {
    hide Home, Laid, Running, Suspended, ThreadHeader, BodyWords;
    HeaderFields();
    RunningRegs(false, FIVE_WORDS, 243, WIDE, LATE);
    SuspendedIsLaid(false, FIVE_WORDS, 243, WIDE, LATE);
    LaidHomes(StrayedAway().m, false, FIVE_WORDS, Strayed().regs[k].gt);
  }

  /** The other Thread, running since, has room for its own suspension. */
  const BACK := Suspend(OTHER * 4, FIVE_WORDS, Frame(243, true, 0, 0))

  lemma OtherRuns(resident: bool, h: Word, sto: nat, code: Cap, nia: Word)
    requires HasRoom(h, sto)
    ensures var d := Suspended(resident, h, sto, code, nia);
      d.owned && d.regs[12] == Cap(OTHER_GT, OTHER * 4, 255)
  {
    hide ThreadHeader, BodyWords, Caps, StackLo, Frame, Admit, Saved, Popped, Running, HeapCap, CodeCap, ClistCap,
         EntryHeaderOk;
    ChangeSuspends(resident, h, sto, code, nia);
  }

  lemma OtherLeaves()
    ensures AdmitOutgoing(StrayedAway()) == Accept(BACK) && OutgoingFits(BACK)
    ensures StrayedAway().owned && Sto(BACK.indicator) == 243
  {
    hide ThreadHeader, BodyWords, Caps, StackLo, HdrCw, Frame, Sto, Sz, Pc, BodyAt, Suspended, Saved, Running, SealWord;
    var d := StrayedAway();
    HeaderFields();
    FrameFields(243, true, 0, 0);
    OtherRuns(false, FIVE_WORDS, 243, WIDE, LATE);
    SuspendedMemory(false, FIVE_WORDS, 243, WIDE, LATE);
    SuspendedIsLaid(false, FIVE_WORDS, 243, WIDE, LATE);
    BodyWord(d.m, d.regs[12], 0);
    BodyWord(d.m, d.regs[12], STO_OFFSET);
  }

  lemma HandoffIsAdmitted()
    ensures var r := Admit(StrayedAway(), HANDOFF, false);
      && r.Accept? && PlanOk(r.value) && r.value.resume.root && r.value.out == BACK && !r.value.self
      && r.value.thread == Cap(SLOT2_TOKEN, RUNNING * 4, 255) && r.value.entry == Cap(ENTRY, EXEC * 4, 63)
  {
    hide ThreadHeader, BodyWords, Caps, StackLo, HdrCw, Frame, Sto, Sz, Pc, BodyAt, Homes, Continuation, Laid,
         AdmitThread, AdmitOutgoing, IncomingHeader, Admit, OutgoingFits, EntryHeaderOk, SelfRow, Suspended;
    var d, t := StrayedAway(), Cap(SLOT2_TOKEN, RUNNING * 4, 255);
    HeaderFields();
    TokenFields();
    FrameFields(241, true, 0, 0);
    FrameFields(243, true, POISON_PC, 0);
    SuspendedIsLaid(false, FIVE_WORDS, 243, WIDE, LATE);
    ThreadsResolve(d.m, false, FIVE_WORDS);
    StrayedBody(t);
    StrayedHomes(t);
    OtherLeaves();
    HeaderCovers(d.m, t, FIVE_WORDS, RUNNING);
    StoredContinues(d, HANDOFF, t, FIVE_WORDS, Frame(241, true, 0, 0), Frame(243, true, POISON_PC, 0));
    StagesAdmit(d, HANDOFF, false, FIVE_WORDS, SLOT2_TOKEN, t, FIVE_WORDS,
                Resume(Frame(243, true, POISON_PC, 0), ENTRY, true), BACK);
  }

  /** A Thread suspended on its way past 32766 words of code, by a CHANGE that is admitted; and
      an admitted handoff back to it.  Its registers come back, but it starts at the first word of
      the code, and its stack offset stays two words too low. */
  lemma HandoffStartsAfresh()
    ensures Admit(Strayed(), TO_OTHER, false).Accept? && Admit(StrayedAway(), HANDOFF, false).Accept?
    ensures HasRoom(FIVE_WORDS, 243) && ReadsAsRoot(Strayed(), Left(FIVE_WORDS, 243), true)
    ensures var p := Admit(StrayedAway(), HANDOFF, false).value;
      && p.resume.root && PlanOk(p) && SameContext(Strayed(), Switched(StrayedAway(), p, true))
      && Switched(StrayedAway(), p, true).nia == p.entry.location + 4
      && Sto(Switched(StrayedAway(), p, true).m[RUNNING + STO_OFFSET]) == 241
      && !Resumed(Switched(StrayedAway(), p, true), p, Strayed(), Left(FIVE_WORDS, 243))
  {
    hide ThreadHeader, BodyWords, Caps, StackLo, HdrCw, Frame, Sto, Sz, Pc, Flags, BodyAt, Saved, AdmitOutgoing, Admit,
         OutgoingFits, StrayedAway, Running, CommittedRegs, SameContext, SuspendPc, ResumeNia;
    var c, d, out := Strayed(), StrayedAway(), Left(FIVE_WORDS, 243);
    HeaderFields();
    HandoffIsAdmitted();
    StrayedIsRecorded(Cap(SLOT2_TOKEN, RUNNING * 4, 255));
    ChangeSuspends(false, FIVE_WORDS, 243, WIDE, LATE);
    var p := Admit(d, HANDOFF, false).value;
    StrayedAddress();
    RoundTrip(c, out, d, HANDOFF, p, false);
    FrameFields(243, true, 0, 0);
    FrameFields(241, true, 0, 0);
    StrayedBody(p.thread);
    OtherLeaves();
    SaveTouchesNothingElse(d, BACK, RUNNING + STO_OFFSET);
  }
}
