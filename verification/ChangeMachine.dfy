/** The CHANGE unit's own registers and its state transitions, one clock at a time, with the
    data each state reads as an input. */
module ChangeMachine {
  import opened Bits
  import opened Change
  import opened Checks
  import opened Fields
  import opened Memory
  import opened Thread
  import opened Validation
  import M = MLoad

  datatype State =
    | IDLE | LOOKUP_CHECK | LOOKUP_READ | CHECK | HOME_LOAD | HOME_WAIT | GATE | WAIT
    | HEADER | HEADER_CHECK | INDICATOR | INDICATOR_CHECK | FRAME | FRAME_CHECK | EGT
    | ENTRY_HEADER | ENTRY_CHECK | CLIST | CLIST_NEXT | HOME | HOME_NEXT | DR
    | OUT_HEADER | OUT_HEADER_CHECK | OUT_INDICATOR | OUT_CHECK | SNAPSHOT
    | SAVE_HOMES | SAVE_EGT | SAVE_FRAME | SAVE_INDICATOR | SAVE_DR
    | NAMESPACE | POP | COMMIT_HOMES | COMMIT_DR | COMMIT_THREAD | COMMIT_HEAP | COMMIT_CODE | COMMIT_CLIST
    | DONE | FAULT

  /** The source of an indexed target, latched at the start. */
  datatype Lookup = Lookup(cap: Cap, row: nat, cr6M: bool)
  {
    function Address(): nat {
      cap.location + row * 4
    }
  }

  /** What is known of the incoming Thread. */
  datatype Incoming = Incoming(thread: Cap, self: bool, header: Word, indicator: Word, frame: Word, root: bool)

  /** What is known of the outgoing Thread, with its latched registers. */
  datatype Leaving = Leaving(base: Word, pc: nat, flags: nat, header: Word, indicator: Word, egt: Word,
                             homes: seq<Word>, drs: seq<Word>)

  const TARGET := 0
  const HOMES := 1
  const EXECUTABLE := 2
  const SELF_ROW := 3

  datatype Latches = Latches(state: State, phase: nat, row: nat, armed: bool, pending: bool, code: int,
                             ns: Cap, handoff: bool, owned: bool, gt: Word, lookup: Lookup, t: Incoming,
                             entry: Cap, entryHeader: Word, homes: seq<Cap>, drs: seq<Word>, out: Leaving)
  {
    /** A word latched by a read state. */
    function Go(state: State): Latches {
      this.(state := state, armed := false)
    }

    // the states by what they work on

    predicate TokenState() {
      state.LOOKUP_CHECK? || state.LOOKUP_READ? || state.CHECK? || state.GATE? || state.WAIT?
    }

    predicate ThreadState() {
      state.HEADER? || state.HEADER_CHECK? || state.INDICATOR?
    }

    predicate FrameState() {
      state.FRAME? || state.FRAME_CHECK? || state.EGT?
    }

    predicate EntryState() {
      state.ENTRY_HEADER? || state.ENTRY_CHECK? || state.CLIST? || state.CLIST_NEXT?
    }

    predicate OutState() {
      state.OUT_HEADER? || state.OUT_HEADER_CHECK? || state.OUT_INDICATOR? || state.OUT_CHECK?
    }

    predicate HomeState() {
      (state.HOME? || state.HOME_LOAD? || state.HOME_WAIT? || state.HOME_NEXT?) || (state.CHECK? && phase == HOMES)
    }

    predicate Ok() {
      out.pc < 0x8000 && out.flags < 16 && (state.FAULT? || RowsOk())
    }

    predicate RowsOk() {
      && (HomeState() ==> row < CAP_WORDS && |homes| == if state.HOME_NEXT? then row + 1 else row)
      && ((state.GATE? || state.WAIT?) ==> phase != HOMES)
      && (pending ==> (state.GATE? || state.WAIT?) && phase == TARGET)
      && ((state.LOOKUP_CHECK? || state.LOOKUP_READ?) ==> phase == TARGET)
      && (state.CLIST? ==> phase == SELF_ROW)
      && (OutState() ==> owned)
      && (state.DR? ==> |homes| == CAP_WORDS && row < DR_WORDS && |drs| == row)
    }

    /** Still before the last check. */
    predicate Admitting() {
      match state
      case LOOKUP_CHECK | LOOKUP_READ | CHECK | HOME_LOAD | HOME_WAIT | GATE | WAIT
        | HEADER | HEADER_CHECK | INDICATOR | INDICATOR_CHECK | FRAME | FRAME_CHECK | EGT
        | ENTRY_HEADER | ENTRY_CHECK | CLIST | CLIST_NEXT | HOME | HOME_NEXT | DR
        | OUT_HEADER | OUT_HEADER_CHECK | OUT_INDICATOR | OUT_CHECK => true
      case _ => false
    }

    /** Waits for the word it reads; a CHANGE to the running Thread takes homes and data from
        the registers instead. */
    predicate Reading() {
      || state.LOOKUP_READ? || state.HEADER? || state.INDICATOR? || state.FRAME? || state.EGT?
      || state.ENTRY_HEADER? || state.CLIST? || state.OUT_HEADER? || state.OUT_INDICATOR?
      || ((state.HOME? || state.DR?) && !t.self)
    }

    function Address(): Word {
      match state
      case LOOKUP_READ => lookup.Address() % 0x1_0000_0000
      case INDICATOR => BodyAddress(t.thread.location, STO_OFFSET)
      case FRAME => BodyAddress(t.thread.location, Sto(t.indicator) + 2)
      case EGT => BodyAddress(t.thread.location, Sto(t.indicator) + 1)
      case ENTRY_HEADER => entry.location
      case CLIST => BodyAddress(entry.location, SelfRow(entryHeader))
      case HOME => BodyAddress(t.thread.location, Caps(t.header) + row)
      case DR => BodyAddress(t.thread.location, row + 1)
      case OUT_HEADER => out.base
      case OUT_INDICATOR => BodyAddress(out.base, STO_OFFSET)
      case _ => t.thread.location
    }

    function Resume(): Change.Resume {
      Change.Resume(t.frame, gt, t.root)
    }

    /** Unstalled clocks to the end, counted from above. */
    function Rank(): (r: nat)
      ensures Admitting() ==> r >= 82
      ensures state.FAULT? ==> r == 0
    {
      if Admitting() then 82 + AdmitRank() else WriteRank()
    }

    function AdmitRank(): nat {
      match state
      case LOOKUP_CHECK => 103
      case GATE => if pending then 102 else Within(98, 88, 82)
      case WAIT => if pending then 101 else Within(97, 87, 81)
      case LOOKUP_READ => 100
      case CHECK => if phase == HOMES then HomeRank() + 3 else Within(99, 89, 83)
      case HEADER => 96
      case HEADER_CHECK => 95
      case INDICATOR => 94
      case INDICATOR_CHECK => 93
      case FRAME => 92
      case FRAME_CHECK => 91
      case EGT => 90
      case ENTRY_HEADER => 86
      case ENTRY_CHECK => 85
      case CLIST => 84
      case CLIST_NEXT => 80
      case HOME => HomeRank() + 4
      case HOME_LOAD => HomeRank() + 2
      case HOME_WAIT => HomeRank() + 1
      case HOME_NEXT => HomeRank()
      case DR => 4 + Below(DR_WORDS)
      case OUT_HEADER => 3
      case OUT_HEADER_CHECK => 2
      case OUT_INDICATOR => 1
      case _ => 0
    }

    /** The part past the last check. */
    function WriteRank(): nat {
      if state.SNAPSHOT? then 66 + Below(DR_WORDS)
      else if Saving() then SaveRank()
      else if state.NAMESPACE? then 34
      else if state.POP? then 33
      else PublishRank()
    }

    function PublishRank(): nat {
      if state.COMMIT_HOMES? then 21 + Below(CAP_WORDS)
      else if state.COMMIT_DR? then 5 + Below(DR_WORDS)
      else if state.COMMIT_THREAD? then 4
      else if state.COMMIT_HEAP? then 3
      else if state.COMMIT_CODE? then 2
      else if state.COMMIT_CLIST? then 1
      else 0
    }

    predicate Saving() {
      state.SAVE_HOMES? || state.SAVE_EGT? || state.SAVE_FRAME? || state.SAVE_INDICATOR? || state.SAVE_DR?
    }

    function SaveRank(): nat {
      if state.SAVE_HOMES? then 54 + Below(CAP_WORDS)
      else if state.SAVE_EGT? then 53
      else if state.SAVE_FRAME? then 52
      else if state.SAVE_INDICATOR? then 51
      else 35 + Below(DR_WORDS)
    }

    function Within(target: nat, executable: nat, selfRow: nat): nat {
      if phase == TARGET then target else if phase == EXECUTABLE then executable else selfRow
    }

    /** Rows after this one. */
    function Below(rows: nat): nat {
      if row < rows then rows - 1 - row else 0
    }

    function HomeRank(): nat {
      20 + Below(CAP_WORDS) * 5
    }
  }

  function BodyAddress(base: Word, offset: int): Word {
    (base + offset * 4) % 0x1_0000_0000
  }

  function Reset(): Latches {
    Latches(IDLE, TARGET, 0, false, false, 0, NULL_CAP_REG, false, false, 0, Lookup(NULL_CAP_REG, 0, false),
            Incoming(NULL_CAP_REG, false, 0, 0, 0, false), NULL_CAP_REG, 0, [], [], Leaving(0, 0, 0, 0, 0, 0, [], []))
  }

  /** The clock in which the unit starts. */
  function Begin(c: Core, q: Operand): Latches
    requires c.Ok() && q.Ok()
  {
    var gt := if q.handoff then SLOT2_TOKEN else c.regs[q.src].gt;
    var u := Reset().(state := CHECK, ns := Namespace(c, q), handoff := q.handoff, owned := c.owned, gt := gt,
                      lookup := Lookup(c.regs[q.src], q.index % 0x8000, q.cr6M),
                      out := Leaving(c.regs[12].location, SuspendPc(c), c.flags, 0, 0, 0, [], []));
    if q.handoff then u
    else if q.Indexed() then u.(state := LOOKUP_CHECK)
    else if q.dst != 0 || q.index != 0 || q.src == 13 then u.(state := FAULT, code := F_INVALID_OP)
    else u
  }

  // ---- the checks

  /** The check a state makes, with the word it reads and what the gate or the home load
      answers; a state without one is met. */
  function Check(u: Latches, word: Word, cap: Checked<Cap>): Guard {
    if u.state.LOOKUP_CHECK? then CheckLookup(u)
    else if u.state.CHECK? then CheckToken(u)
    else if u.state.WAIT? || u.state.HOME_WAIT? then CheckAnswer(u, cap)
    else Require(Holds(u, word), F_THREAD_CONTEXT)
  }

  function CheckLookup(u: Latches): Guard {
    var s := u.lookup.cap;
    if GtType(s.gt) != GT_INFORM then Unmet(F_NULL_CAP)
    else if !HasChurch(s.gt, L) && !u.lookup.cr6M then Unmet(F_PERM_L)
    else
      Require(u.lookup.row <= AuthLimit(s.authority) && u.lookup.Address() < 0x1_0000_0000
              && u.lookup.Address() % 4 == 0 && !AuthF(s.authority) && GtSlot(s.gt) != 0
              && GtSlot(s.gt) * 4 + 3 <= AuthLimit(u.ns.authority), F_BOUNDS)
  }

  function CheckToken(u: Latches): Guard {
    if GtType(u.gt) != GT_INFORM then Unmet(F_THREAD_CONTEXT)
    else if u.phase == TARGET && !NoPerms(u.gt) then Unmet(F_PERMISSIONS)
    else Require((u.phase == EXECUTABLE ==> EntersOnly(u.gt)) && Named(u.ns, u.gt), F_THREAD_CONTEXT)
  }

  function CheckAnswer(u: Latches, cap: Checked<Cap>): Guard {
    if cap.Deny? then Unmet(cap.code)
    else
      Require(u.state.WAIT? && u.pending ==>
        cap.value.location <= u.lookup.Address() <= cap.value.location + AuthLimit(cap.value.authority) * 4, F_BOUNDS)
  }

  /** The checks that all raise the Thread context fault. */
  predicate Holds(u: Latches, word: Word) {
    match u.state
    case HEADER_CHECK => CoveredBy(u.t.header, u.t.thread)
    case INDICATOR_CHECK => IndicatorOk(u.t.header, u.t.indicator, u.t.self)
    case FRAME_CHECK => RootForm(u) || (Pc(u.t.frame) != POISON_PC && Sto(u.t.frame) == Sto(u.t.indicator) + 2)
    case ENTRY_CHECK => EntryFits(u)
    case CLIST => word == u.entry.gt
    case HOME => u.t.root && !u.t.self && u.row == 0 ==> word == u.entry.gt
    case OUT_HEADER_CHECK => ThreadHeader(u.out.header)
    case OUT_CHECK => HasRoom(u.out.header, u.out.indicator)
    case _ => true
  }

  /** A Thread header over exactly the descriptor's words. */
  predicate CoveredBy(h: Word, t: Cap) {
    && ThreadHeader(h) && AuthLimit(t.authority) == BodyWords(h) - 1
    && t.location + (BodyWords(h) - 1) * 4 < 0x1_0000_0000
  }

  predicate IndicatorOk(h: Word, indicator: Word, self: bool) {
    && Pc(indicator) == 0 && StackLo(h) <= Sto(indicator) <= Caps(h) - 1
    && (self || (Sz(indicator) && Sto(indicator) + 2 <= Caps(h) - 1))
  }

  /** A handoff to a body that has never run. */
  predicate RootForm(u: Latches) {
    && u.handoff && ThreadHeader(u.t.header)
    && u.t.frame == RootFrame(Caps(u.t.header)) && u.t.indicator == RootIndicator(Caps(u.t.header))
  }

  predicate EntryFits(u: Latches) {
    var h := u.entryHeader;
    && (u.t.root || Pc(u.t.frame) != POISON_PC)
    && EntryHeaderOk(h) && AuthLimit(u.entry.authority) == BodyWords(h) - 1
    && u.entry.location + (BodyWords(h) - 1) * 4 < 0x1_0000_0000 && (u.t.root || Pc(u.t.frame) < HdrCw(h))
  }

  predicate HasRoom(h: Word, indicator: Word) {
    Pc(indicator) == 0 && StackLo(h) + 2 <= Sto(indicator) <= Caps(h) - 1
  }

  // ---- the moves

  predicate Follows(u: Latches, v: Latches) {
    v.Ok() && v.Rank() < u.Rank()
  }

  /** One clock of an admitting state whose check is met. */
  function Move(u: Latches, word: Word, cap: Cap): (v: Latches)
    requires u.Admitting() && u.Ok()
    ensures Follows(u, v)
  {
    if u.HomeState() then MoveHome(u, word, cap)
    else if u.TokenState() then MoveToken(u, word, cap)
    else if u.ThreadState() then MoveThread(u, word)
    else if u.state.INDICATOR_CHECK? then MoveIndicator(u, word)
    else if u.FrameState() then MoveFrame(u, word, RootForm(u))
    else if u.EntryState() then MoveEntry(u, word)
    else if u.state.DR? then MoveDr(u, word)
    else MoveOut(u, word)
  }

  function MoveToken(u: Latches, word: Word, cap: Cap): (v: Latches)
    requires u.TokenState() && !u.HomeState() && u.Ok()
    ensures Follows(u, v)
  {
    if u.state.LOOKUP_CHECK? then u.(gt := u.lookup.cap.gt, pending := true, state := GATE)
    else if u.state.LOOKUP_READ? then u.(gt := word).Go(CHECK)
    else if u.state.GATE? then u.(state := WAIT)
    else if u.state.CHECK? then u.(state := GATE)
    else MoveAnswer(u, cap)
  }

  function MoveAnswer(u: Latches, cap: Cap): (v: Latches)
    requires u.state.WAIT? && u.Ok()
    ensures Follows(u, v)
  {
    if u.pending then u.(pending := false, state := LOOKUP_READ)
    else if u.phase == TARGET then
      u.(t := u.t.(thread := cap, self := !u.handoff && u.owned && cap.location == u.out.base)).Go(HEADER)
    else if u.phase == EXECUTABLE then u.(entry := cap, state := ENTRY_HEADER)
    else u.(state := CLIST_NEXT)
  }

  function MoveThread(u: Latches, word: Word): (v: Latches)
    requires u.ThreadState() && u.Ok()
    ensures Follows(u, v)
  {
    if u.state.HEADER? then u.(t := u.t.(header := word)).Go(HEADER_CHECK)
    else if u.state.HEADER_CHECK? then u.(state := INDICATOR)
    else u.(t := u.t.(indicator := word)).Go(INDICATOR_CHECK)
  }

  function MoveFrame(u: Latches, word: Word, root: bool): (v: Latches)
    requires u.FrameState() && u.Ok()
    ensures Follows(u, v)
  {
    if u.state.FRAME? then u.(t := u.t.(frame := word)).Go(FRAME_CHECK)
    else if u.state.FRAME_CHECK? then u.(t := u.t.(root := root), state := EGT)
    else u.(gt := word, phase := EXECUTABLE).Go(CHECK)
  }

  /** `word` is the c-list token, for the continuation of the running Thread. */
  function MoveIndicator(u: Latches, word: Word): (v: Latches)
    requires u.state.INDICATOR_CHECK? && u.Ok()
    ensures Follows(u, v)
  {
    if u.t.self then
      u.(gt := EGt(word), t := u.t.(frame := Captured(u.t.indicator, u.out)), phase := EXECUTABLE, state := CHECK)
    else u.(state := FRAME)
  }

  /** The frame that records the running Thread under an indicator. */
  function Captured(indicator: Word, out: Leaving): Word
    requires out.pc < 0x8000 && out.flags < 16
  {
    Frame(Sto(indicator), Sz(indicator), out.pc, out.flags)
  }

  function MoveEntry(u: Latches, word: Word): (v: Latches)
    requires u.EntryState() && u.Ok()
    ensures Follows(u, v)
  {
    if u.state.ENTRY_HEADER? then u.(entryHeader := word).Go(ENTRY_CHECK)
    else if u.state.ENTRY_CHECK? then u.(row := 0, phase := SELF_ROW, state := CLIST)
    else if u.state.CLIST? then u.(gt := word).Go(CHECK)
    else u.(row := 0, phase := HOMES, homes := [], state := HOME)
  }

  function MoveHome(u: Latches, word: Word, cap: Cap): (v: Latches)
    requires u.HomeState() && u.Ok()
    ensures Follows(u, v)
  {
    if u.state.HOME? then TakeHome(u, word)
    else if u.state.CHECK? then u.(state := HOME_LOAD)
    else if u.state.HOME_LOAD? then u.(state := HOME_WAIT)
    else if u.state.HOME_WAIT? then u.(homes := u.homes + [cap], state := HOME_NEXT)
    else MoveRow(u)
  }

  function MoveRow(u: Latches): (v: Latches)
    requires u.state.HOME_NEXT? && u.Ok()
    ensures Follows(u, v)
  {
    if u.row == CAP_WORDS - 1 then u.(row := 0, drs := [], state := DR) else u.(row := u.row + 1, state := HOME)
  }

  function TakeHome(u: Latches, word: Word): (v: Latches)
    requires u.state.HOME? && u.Ok()
    ensures Follows(u, v)
  {
    var v := u.(gt := word, armed := false);
    if Bare(word) then v.(homes := u.homes + [Cap(word, 0, 0)], state := HOME_NEXT)
    else v.(state := CHECK, phase := HOMES)
  }

  predicate Bare(gt: Word) {
    GtType(gt) == GT_NULL || GtType(gt) == GT_ABSTRACT
  }

  function MoveDr(u: Latches, word: Word): (v: Latches)
    requires u.state.DR? && u.Ok()
    ensures Follows(u, v)
  {
    var v := u.(drs := u.drs + [word], armed := false);
    if u.row < DR_WORDS - 1 then v.(row := u.row + 1)
    else v.(row := 0, state := if u.owned then OUT_HEADER else NAMESPACE)
  }

  function MoveOut(u: Latches, word: Word): (v: Latches)
    requires u.OutState() && u.Ok()
    ensures Follows(u, v)
  {
    if u.state.OUT_HEADER? then u.(out := u.out.(header := word)).Go(OUT_HEADER_CHECK)
    else if u.state.OUT_HEADER_CHECK? then u.(state := OUT_INDICATOR)
    else if u.state.OUT_INDICATOR? then u.(out := u.out.(indicator := word)).Go(OUT_CHECK)
    else u.(row := 0, out := u.out.(homes := [], drs := []), state := SNAPSHOT)
  }

  function Next(u: Latches, word: Word, cap: Checked<Cap>): (v: Latches)
    requires u.Admitting() && u.Ok()
    ensures Follows(u, v)
  {
    var g := Check(u, word, cap);
    if g.Unmet? then Failed(u, g.code) else Move(u, word, if cap.Accept? then cap.value else NULL_CAP_REG)
  }

  function Failed(u: Latches, code: int): (v: Latches)
    requires u.Admitting() && u.out.pc < 0x8000 && u.out.flags < 16
    ensures v.Ok() && v.state.FAULT? && v.code == code
  {
    u.(state := FAULT, code := code)
  }

  // ---- the decision still to come

  /** What the start latched. */
  predicate Latched(c: Core, q: Operand, u: Latches)
    requires c.Ok()
  {
    && u.Ok() && u.ns == Namespace(c, q) && u.handoff == q.handoff && u.owned == c.owned
    && u.out.base == c.regs[12].location && u.out.pc == SuspendPc(c) && u.out.flags == c.flags
  }

  /** What a state reads, from memory or from a register. */
  function WordFor(c: Core, u: Latches): Word
    requires c.Ok() && u.Ok()
  {
    if u.Reading() then ReadAt(c.m, u.Address())
    else if u.state.HOME? then c.regs[u.row].gt
    else if u.state.DR? then c.drs[u.row]
    else if u.state.INDICATOR_CHECK? then c.regs[6].gt
    else 0
  }

  /** What the gate or the home load answers. */
  function CapFor(c: Core, resident: bool, u: Latches): Checked<Cap> {
    if u.state.HOME_WAIT? then
      ResidentHome(
        M.ResolveToken(HOME_REQUEST, u.gt, HomeNamespace(u.ns, resident), EntryOf(c.m, u.ns, u.gt), resident))
    else if u.state.WAIT? then ResolveGt(c.m, u.ns, u.gt, resident)
    else Deny(0)
  }

  /** What the unit plans in a state past the last check. */
  function Planned(u: Latches): Plan {
    Plan(u.ns, u.t.thread, u.t.header, u.t.self, Change.Resume(u.t.frame, u.entry.gt, u.t.root), u.entry, u.entryHeader,
         u.homes, u.drs, if u.owned then Suspend(u.out.base, u.out.header, u.out.indicator) else NoThread)
  }

  /** The decision that the rest of the run reaches over the core as it is. */
  function Rest(c: Core, resident: bool, u: Latches): Checked<Plan>
    requires c.Ok() && u.Ok()
    decreases u.Rank()
  {
    if u.state.FAULT? then Deny(u.code)
    else if !u.Admitting() then Accept(Planned(u))
    else Rest(c, resident, Next(u, WordFor(c, u), CapFor(c, resident, u)))
  }
}
