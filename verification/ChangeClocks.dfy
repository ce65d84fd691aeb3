/** What one clock of each admitting state leaves to be decided. */
module ChangeClocks {
  import opened Bits
  import opened Change
  import opened ChangeMachine
  import opened Checks
  import opened Fields
  import opened Memory
  import opened Thread
  import opened Validation
  import M = MLoad

  /** One clock of what remains. */
  lemma Unfold(c: Core, resident: bool, u: Latches)
    requires c.Ok() && u.Ok() && u.Admitting()
    ensures var word, cap := WordFor(c, u), CapFor(c, resident, u);
      var g := Check(u, word, cap);
      Rest(c, resident, u) == if g.Unmet? then Deny(g.code)
                              else Rest(c, resident, Move(u, word, if cap.Accept? then cap.value else NULL_CAP_REG))
  {
  }

  lemma AtEnd(c: Core, resident: bool, u: Latches)
    requires c.Ok() && u.Ok() && !u.Admitting()
    ensures Rest(c, resident, u) == if u.state.FAULT? then Deny(u.code) else Accept(Planned(u))
  {
  }

  lemma BodyRead(m: seq<Word>, t: Cap, offset: int)
    ensures ReadAt(m, BodyAddress(t.location, offset)) == BodyAt(m, t, offset)
    ensures ReadAt(m, t.location) == BodyAt(m, t, 0)
  {
  }

  // ---- tokens

  lemma AtLookupCheck(c: Core, resident: bool, u: Latches)
    requires c.Ok() && u.Ok() && u.state.LOOKUP_CHECK? && !u.pending
    ensures Rest(c, resident, u) == if CheckLookup(u).Unmet? then Deny(CheckLookup(u).code)
                                    else Rest(c, resident, u.(gt := u.lookup.cap.gt, pending := true, state := GATE))
  {
    hide Rest, Latches.Rank, BodyAt, CapFor;
    Unfold(c, resident, u);
  }

  lemma AtLookupGate(c: Core, resident: bool, u: Latches)
    requires c.Ok() && u.Ok() && u.state.GATE? && u.pending
    ensures var cap := ResolveGt(c.m, u.ns, u.gt, resident);
      Rest(c, resident, u) == if CheckAnswer(u.(state := WAIT), cap).Unmet?
                              then Deny(CheckAnswer(u.(state := WAIT), cap).code)
                              else Rest(c, resident, u.(pending := false, state := LOOKUP_READ))
  {
    hide Rest, Latches.Rank, BodyAt, ResolveGt, ResidentHome, M.ResolveToken, EntryOf, HomeNamespace;
    Unfold(c, resident, u);
    Unfold(c, resident, u.(state := WAIT));
  }

  lemma AtLookupRead(c: Core, resident: bool, u: Latches)
    requires c.Ok() && u.Ok() && u.state.LOOKUP_READ? && !u.pending
    ensures var gt := ReadAt(c.m, u.lookup.Address() % 0x1_0000_0000);
      Rest(c, resident, u) == Rest(c, resident, u.(gt := gt).Go(CHECK))
  {
    hide Rest, Latches.Rank, BodyAt, CapFor;
    Unfold(c, resident, u);
  }

  function Waiting(u: Latches): (v: Latches)
    requires u.Ok() && u.state.CHECK? && u.phase != HOMES && !u.pending
    ensures v.Ok() && v.state.WAIT? && !v.pending
  {
    u.(state := WAIT)
  }

  /** CHECK, GATE and WAIT of a token that is no home. */
  lemma AtCheck(c: Core, resident: bool, u: Latches)
    requires c.Ok() && u.Ok() && u.state.CHECK? && u.phase != HOMES && !u.pending
    ensures var cap := ResolveGt(c.m, u.ns, u.gt, resident);
      Rest(c, resident, u) == if CheckToken(u).Unmet? then Deny(CheckToken(u).code)
                              else if cap.Deny? then Deny(cap.code)
                              else Rest(c, resident, MoveToken(Waiting(u), 0, cap.value))
  {
    hide Rest, Latches.Rank, BodyAt, CapFor;
    Unfold(c, resident, u);
    if CheckToken(u).Met? {
      Unfold(c, resident, u.(state := GATE));
      AtWait(c, resident, u.(state := WAIT));
    }
  }

  lemma AtWait(c: Core, resident: bool, u: Latches)
    requires c.Ok() && u.Ok() && u.state.WAIT? && !u.pending
    ensures var cap := ResolveGt(c.m, u.ns, u.gt, resident);
      Rest(c, resident, u) == if cap.Deny? then Deny(cap.code) else Rest(c, resident, MoveToken(u, 0, cap.value))
  {
    hide Rest, Latches.Rank, BodyAt, ResolveGt, ResidentHome, M.ResolveToken, EntryOf, HomeNamespace;
    Unfold(c, resident, u);
  }

  // ---- the incoming Thread

  lemma AtHeader(c: Core, resident: bool, u: Latches)
    requires c.Ok() && u.Ok() && u.state.HEADER? && !u.pending
    ensures var v := u.(t := u.t.(header := BodyAt(c.m, u.t.thread, 0))).Go(HEADER_CHECK);
      Rest(c, resident, u) == if CoveredBy(v.t.header, u.t.thread) then Rest(c, resident, v.(state := INDICATOR))
                              else Deny(F_THREAD_CONTEXT)
  {
    hide Rest, Latches.Rank, BodyAt, CapFor;
    BodyRead(c.m, u.t.thread, 0);
    var v := u.(t := u.t.(header := BodyAt(c.m, u.t.thread, 0))).Go(HEADER_CHECK);
    Unfold(c, resident, u);
    Unfold(c, resident, v);
  }

  lemma AtIndicator(c: Core, resident: bool, u: Latches)
    requires c.Ok() && u.Ok() && u.state.INDICATOR? && !u.pending
    ensures var v := u.(t := u.t.(indicator := BodyAt(c.m, u.t.thread, STO_OFFSET))).Go(INDICATOR_CHECK);
      Rest(c, resident, u) ==
        if IndicatorOk(v.t.header, v.t.indicator, v.t.self) then Rest(c, resident, MoveIndicator(v, c.regs[6].gt))
        else Deny(F_THREAD_CONTEXT)
  {
    hide Rest, Latches.Rank, BodyAt, CapFor;
    BodyRead(c.m, u.t.thread, STO_OFFSET);
    var v := u.(t := u.t.(indicator := BodyAt(c.m, u.t.thread, STO_OFFSET))).Go(INDICATOR_CHECK);
    Unfold(c, resident, u);
    Unfold(c, resident, v);
  }

  /** What FRAME_CHECK asks of a frame it has read. */
  predicate FrameOk(u: Latches) {
    RootForm(u) || (Pc(u.t.frame) != POISON_PC && Sto(u.t.frame) == Sto(u.t.indicator) + 2)
  }

  lemma AtFrame(c: Core, resident: bool, u: Latches)
    requires c.Ok() && u.Ok() && u.state.FRAME? && !u.pending
    ensures var v := u.(t := u.t.(frame := BodyAt(c.m, u.t.thread, Sto(u.t.indicator) + 2))).Go(FRAME_CHECK);
      Rest(c, resident, u) == if FrameOk(v) then Rest(c, resident, v.(t := v.t.(root := RootForm(v)), state := EGT))
                              else Deny(F_THREAD_CONTEXT)
  {
    hide Rest, Latches.Rank, BodyAt, CapFor;
    BodyRead(c.m, u.t.thread, Sto(u.t.indicator) + 2);
    var v := u.(t := u.t.(frame := BodyAt(c.m, u.t.thread, Sto(u.t.indicator) + 2))).Go(FRAME_CHECK);
    Unfold(c, resident, u);
    Unfold(c, resident, v);
  }

  lemma AtEgt(c: Core, resident: bool, u: Latches)
    requires c.Ok() && u.Ok() && u.state.EGT? && !u.pending
    ensures var gt := BodyAt(c.m, u.t.thread, Sto(u.t.indicator) + 1);
      Rest(c, resident, u) == Rest(c, resident, u.(gt := gt, phase := EXECUTABLE).Go(CHECK))
  {
    hide Rest, Latches.Rank, BodyAt, CapFor;
    BodyRead(c.m, u.t.thread, Sto(u.t.indicator) + 1);
    Unfold(c, resident, u);
  }

  // ---- the executable

  lemma AtEntryHeader(c: Core, resident: bool, u: Latches)
    requires c.Ok() && u.Ok() && u.state.ENTRY_HEADER? && !u.pending
    ensures var v := u.(entryHeader := BodyAt(c.m, u.entry, 0)).Go(ENTRY_CHECK);
      Rest(c, resident, u) == if EntryFits(v) then Rest(c, resident, v.(row := 0, phase := SELF_ROW, state := CLIST))
                              else Deny(F_THREAD_CONTEXT)
  {
    hide Rest, Latches.Rank, BodyAt, CapFor;
    BodyRead(c.m, u.entry, 0);
    var v := u.(entryHeader := BodyAt(c.m, u.entry, 0)).Go(ENTRY_CHECK);
    Unfold(c, resident, u);
    Unfold(c, resident, v);
  }

  lemma AtClist(c: Core, resident: bool, u: Latches)
    requires c.Ok() && u.Ok() && u.state.CLIST? && !u.pending
    ensures var gt := BodyAt(c.m, u.entry, SelfRow(u.entryHeader));
      Rest(c, resident, u) == if gt == u.entry.gt then Rest(c, resident, u.(gt := gt).Go(CHECK))
                              else Deny(F_THREAD_CONTEXT)
  {
    hide Rest, Latches.Rank, BodyAt, CapFor;
    BodyRead(c.m, u.entry, SelfRow(u.entryHeader));
    Unfold(c, resident, u);
  }

  lemma AtClistNext(c: Core, resident: bool, u: Latches)
    requires c.Ok() && u.Ok() && u.state.CLIST_NEXT? && !u.pending
    ensures Rest(c, resident, u) == Rest(c, resident, u.(row := 0, phase := HOMES, homes := [], state := HOME))
  {
    hide Rest, Latches.Rank, BodyAt, CapFor;
    Unfold(c, resident, u);
  }

  // ---- homes and data

  lemma AtHome(c: Core, resident: bool, u: Latches)
    requires c.Ok() && u.Ok() && u.state.HOME? && !u.pending
    ensures var gt := HomeToken(c, u.t.thread, u.t.header, u.t.self, u.row);
      Rest(c, resident, u) == if u.t.root && !u.t.self && u.row == 0 && gt != u.entry.gt then Deny(F_THREAD_CONTEXT)
                              else Rest(c, resident, MoveHome(u, gt, NULL_CAP_REG))
  {
    hide Rest, Latches.Rank, CheckLookup, CheckToken, CheckAnswer, Bare, HomeToken, WordFor, CapFor;
    HomeWord(c, u);
    Unfold(c, resident, u);
  }

  lemma HomeWord(c: Core, u: Latches)
    requires c.Ok() && u.Ok() && u.state.HOME?
    ensures WordFor(c, u) == HomeToken(c, u.t.thread, u.t.header, u.t.self, u.row)
  {
    BodyRead(c.m, u.t.thread, Caps(u.t.header) + u.row);
  }

  /** CHECK, HOME_LOAD and HOME_WAIT of a home. */
  lemma AtHomeCheck(c: Core, resident: bool, u: Latches)
    requires c.Ok() && u.Ok() && u.state.CHECK? && u.phase == HOMES && !u.pending
    ensures var r := ResidentHome(
        M.ResolveToken(HOME_REQUEST, u.gt, HomeNamespace(u.ns, resident), EntryOf(c.m, u.ns, u.gt), resident));
      Rest(c, resident, u) == if CheckToken(u).Unmet? then Deny(CheckToken(u).code)
                              else if r.Deny? then Deny(r.code)
                              else Rest(c, resident, u.(homes := u.homes + [r.value], state := HOME_NEXT))
  {
    hide Rest, Latches.Rank, BodyAt, CapFor;
    Unfold(c, resident, u);
    if CheckToken(u).Met? {
      Unfold(c, resident, u.(state := HOME_LOAD));
      AtHomeWait(c, resident, u.(state := HOME_WAIT));
    }
  }

  lemma AtHomeWait(c: Core, resident: bool, u: Latches)
    requires c.Ok() && u.Ok() && u.state.HOME_WAIT? && !u.pending
    ensures var r := ResidentHome(
        M.ResolveToken(HOME_REQUEST, u.gt, HomeNamespace(u.ns, resident), EntryOf(c.m, u.ns, u.gt), resident));
      Rest(c, resident, u) == if r.Deny? then Deny(r.code)
                              else Rest(c, resident, u.(homes := u.homes + [r.value], state := HOME_NEXT))
  {
    hide Rest, Latches.Rank, BodyAt, ResolveGt, ResidentHome, M.ResolveToken, EntryOf, HomeNamespace;
    Unfold(c, resident, u);
  }

  lemma AtHomeNext(c: Core, resident: bool, u: Latches)
    requires c.Ok() && u.Ok() && u.state.HOME_NEXT? && !u.pending
    ensures Rest(c, resident, u) ==
      if u.row == CAP_WORDS - 1 then Rest(c, resident, u.(row := 0, drs := [], state := DR))
      else Rest(c, resident, u.(row := u.row + 1, state := HOME))
  {
    hide Rest, Latches.Rank, BodyAt, CapFor;
    Unfold(c, resident, u);
  }

  lemma AtDr(c: Core, resident: bool, u: Latches)
    requires c.Ok() && u.Ok() && u.state.DR? && !u.pending
    ensures var v := u.(drs := u.drs + [IncomingDrs(c, u.t.thread, u.t.self)[u.row]], armed := false);
      Rest(c, resident, u) ==
        if u.row < DR_WORDS - 1 then Rest(c, resident, v.(row := u.row + 1))
        else Rest(c, resident, v.(row := 0, state := if u.owned then OUT_HEADER else NAMESPACE))
  {
    hide Rest, Latches.Rank, BodyAt, CapFor;
    BodyRead(c.m, u.t.thread, u.row + 1);
    assert WordFor(c, u) == IncomingDrs(c, u.t.thread, u.t.self)[u.row];
    Unfold(c, resident, u);
  }

  // ---- the outgoing Thread

  lemma AtOutHeader(c: Core, resident: bool, u: Latches)
    requires c.Ok() && u.Ok() && u.state.OUT_HEADER? && !u.pending
    ensures var v := u.(out := u.out.(header := ReadAt(c.m, u.out.base))).Go(OUT_HEADER_CHECK);
      Rest(c, resident, u) == if ThreadHeader(v.out.header) then Rest(c, resident, v.(state := OUT_INDICATOR))
                              else Deny(F_THREAD_CONTEXT)
  {
    hide Rest, Latches.Rank, BodyAt, CapFor;
    var v := u.(out := u.out.(header := ReadAt(c.m, u.out.base))).Go(OUT_HEADER_CHECK);
    Unfold(c, resident, u);
    Unfold(c, resident, v);
  }

  lemma AtOutIndicator(c: Core, resident: bool, u: Latches)
    requires c.Ok() && u.Ok() && u.state.OUT_INDICATOR? && !u.pending
    ensures var x := ReadAt(c.m, BodyAddress(u.out.base, STO_OFFSET));
      Rest(c, resident, u) == if HasRoom(u.out.header, x) then Accept(Planned(u.(out := u.out.(indicator := x))))
                              else Deny(F_THREAD_CONTEXT)
  {
    hide Rest, Latches.Rank, BodyAt, Planned, CapFor;
    var v := u.(out := u.out.(indicator := ReadAt(c.m, BodyAddress(u.out.base, STO_OFFSET))));
    Unfold(c, resident, u);
    AtOutCheck(c, resident, v.Go(OUT_CHECK));
    SamePlan(v, Snapshot(v.Go(OUT_CHECK)));
  }

  lemma AtOutCheck(c: Core, resident: bool, u: Latches)
    requires c.Ok() && u.Ok() && u.state.OUT_CHECK? && !u.pending
    ensures Rest(c, resident, u) == if HasRoom(u.out.header, u.out.indicator)
                                    then Accept(Planned(Snapshot(u)))
                                    else Deny(F_THREAD_CONTEXT)
  {
    hide Rest, Latches.Rank, BodyAt, Planned, CapFor;
    Unfold(c, resident, u);
    if HasRoom(u.out.header, u.out.indicator) {
      AtEnd(c, resident, Snapshot(u));
    }
  }

  function Snapshot(u: Latches): Latches {
    u.(row := 0, out := u.out.(homes := [], drs := []), state := SNAPSHOT)
  }

  /** State, row and the latched registers are no part of the plan. */
  lemma SamePlan(u: Latches, v: Latches)
    requires v == u.(state := v.state, row := v.row, armed := v.armed, out := v.out)
    requires v.out == u.out.(homes := v.out.homes, drs := v.out.drs, egt := v.out.egt)
    ensures Planned(u) == Planned(v)
  {
  }

  // ---- single clocks

  /** An admitting clock keeps what the start latched and the decision to come; the gate and the
      home load are waited for only in the clock after their start. */
  lemma NextKeeps(c: Core, q: Operand, resident: bool, u: Latches)
    requires c.Ok() && Latched(c, q, u) && u.Admitting()
    ensures var v := Next(u, WordFor(c, u), CapFor(c, resident, u));
      && Latched(c, q, v) && Rest(c, resident, v) == Rest(c, resident, u) && v.Rank() < u.Rank()
      && (v.state.WAIT? <==> u.state.GATE?) && (v.state.HOME_WAIT? <==> u.state.HOME_LOAD?)
      && (v.Admitting() || Settling(v))
  {
    var word, cap := WordFor(c, u), CapFor(c, resident, u);
    NextCarries(u, word, cap);
    NextDecides(c, resident, u);
  }

  lemma NextDecides(c: Core, resident: bool, u: Latches)
    requires c.Ok() && u.Ok() && u.Admitting()
    ensures Rest(c, resident, Next(u, WordFor(c, u), CapFor(c, resident, u))) == Rest(c, resident, u)
  {
    hide Latches.Rank, Latches.Ok, WordFor, CapFor, Next;
  }

  predicate Carries(u: Latches, v: Latches) {
    && v.ns == u.ns && v.handoff == u.handoff && v.owned == u.owned && v.out.base == u.out.base
    && v.out.pc == u.out.pc && v.out.flags == u.out.flags
    && (v.state.WAIT? <==> u.state.GATE?) && (v.state.HOME_WAIT? <==> u.state.HOME_LOAD?)
    && (v.Admitting() || Settling(v))
  }

  lemma NextCarries(u: Latches, word: Word, cap: Checked<Cap>)
    requires u.Ok() && u.Admitting()
    ensures Carries(u, Next(u, word, cap))
  {
    hide Latches.Rank, Latches.Ok, Check, MoveHome, MoveToken, MoveThread, MoveIndicator, MoveFrame, MoveEntry, MoveDr,
         MoveOut;
    if u.state.GATE? || u.state.HOME_LOAD? {
      NoCheck(u, word, cap);
    }
    MoveCarries(u, word, if cap.Accept? then cap.value else NULL_CAP_REG);
  }

  lemma NoCheck(u: Latches, word: Word, cap: Checked<Cap>)
    requires u.state.GATE? || u.state.HOME_LOAD?
    ensures Check(u, word, cap).Met?
  {
  }

  lemma MoveCarries(u: Latches, word: Word, cap: Cap)
    requires u.Ok() && u.Admitting()
    ensures Carries(u, Move(u, word, cap))
  {
    hide Latches.Rank, Latches.Ok, MoveHome, MoveToken, MoveThread, MoveIndicator, MoveFrame, MoveEntry, MoveDr,
         MoveOut,
         Carries, RootForm;
    if u.HomeState() {
      HomeCarries(u, word, cap);
    } else if u.TokenState() {
      TokenCarries(u, word, cap);
    } else if u.ThreadState() || u.state.INDICATOR_CHECK? || u.FrameState() {
      ThreadCarries(u, word);
      FrameCarries(u, word, RootForm(u));
    } else {
      RestCarries(u, word);
      OutCarries(u, word);
    }
  }

  lemma HomeCarries(u: Latches, word: Word, cap: Cap)
    requires u.Ok() && u.HomeState()
    ensures Carries(u, MoveHome(u, word, cap))
  {
    hide Latches.Rank, Latches.Ok, Bare;
  }

  lemma TokenCarries(u: Latches, word: Word, cap: Cap)
    requires u.Ok() && u.TokenState() && !u.HomeState()
    ensures Carries(u, MoveToken(u, word, cap))
  {
    hide Latches.Rank, Latches.Ok;
  }

  lemma ThreadCarries(u: Latches, word: Word)
    requires u.Ok()
    ensures u.ThreadState() ==> Carries(u, MoveThread(u, word))
    ensures u.state.INDICATOR_CHECK? ==> Carries(u, MoveIndicator(u, word))
  {
    hide Latches.Rank, Latches.Ok, EGt, Captured;
  }

  lemma FrameCarries(u: Latches, word: Word, root: bool)
    requires u.Ok()
    ensures u.FrameState() ==> Carries(u, MoveFrame(u, word, root))
  {
    hide Latches.Rank, Latches.Ok;
  }

  lemma RestCarries(u: Latches, word: Word)
    requires u.Ok()
    ensures u.EntryState() ==> Carries(u, MoveEntry(u, word))
    ensures u.state.DR? ==> Carries(u, MoveDr(u, word))
  {
    hide Latches.Rank, Latches.Ok;
  }

  lemma OutCarries(u: Latches, word: Word)
    requires u.Ok()
    ensures u.OutState() ==> Carries(u, MoveOut(u, word))
  {
    hide Latches.Rank;
  }

  /** Arming a read changes nothing to come. */
  lemma ArmedKeeps(c: Core, q: Operand, resident: bool, u: Latches)
    requires c.Ok() && Latched(c, q, u) && u.Reading()
    ensures var v := u.(armed := true);
      Latched(c, q, v) && v.Rank() == u.Rank() && Rest(c, resident, v) == Rest(c, resident, u)
  {
    hide Rest, Move, Check, WordFor, CapFor;
    var v := u.(armed := true);
    Unfold(c, resident, u);
    Unfold(c, resident, v);
    assert WordFor(c, v) == WordFor(c, u) && CapFor(c, resident, v) == CapFor(c, resident, u) by {
      ArmedReads(c, resident, u);
    }
    ArmedMoves(u, WordFor(c, u), CapFor(c, resident, u));
  }

  lemma ArmedReads(c: Core, resident: bool, u: Latches)
    requires c.Ok() && u.Ok() && u.Reading()
    ensures WordFor(c, u.(armed := true)) == WordFor(c, u)
    ensures CapFor(c, resident, u.(armed := true)) == CapFor(c, resident, u)
  {
    hide Latches.Rank, BodyAddress, ReadAt, ResolveGt, ResidentHome, Latches.Ok, Latches.RowsOk, Sto, SelfRow, Caps;
  }

  lemma ArmedMoves(u: Latches, word: Word, cap: Checked<Cap>)
    requires u.Ok() && u.Reading()
    ensures Check(u.(armed := true), word, cap) == Check(u, word, cap)
    ensures var c := if cap.Accept? then cap.value else NULL_CAP_REG;
      Move(u.(armed := true), word, c) == Move(u, word, c)
  {
    hide Latches.Rank, CoveredBy, IndicatorOk, EntryFits, HasRoom, ThreadHeader, EGt, Bare, RootForm, CheckToken;
  }

  /** How an admission can end. */
  predicate Settling(u: Latches) {
    || u.state.FAULT?
    || (u.state.SNAPSHOT? && u.owned && u.row == 0 && u.out.homes == [] && u.out.drs == [])
    || (u.state.NAMESPACE? && !u.owned && u.row == 0)
  }

  lemma GateKeepsToken(u: Latches, word: Word, cap: Checked<Cap>)
    requires u.Ok() && u.Admitting()
    ensures (u.state.GATE? || u.state.HOME_LOAD?) ==> Next(u, word, cap).gt == u.gt
  {
    hide Latches.Rank, Latches.Ok;
    if (u.state.GATE? || u.state.HOME_LOAD?) {
      NoCheck(u, word, cap);
    }
  }

  /** Past the last check the decision stands, whatever state and row come next. */
  lemma PlanStands(c: Core, resident: bool, u: Latches, v: Latches)
    requires c.Ok() && u.Ok() && v.Ok() && !u.Admitting() && !v.Admitting()
    requires !u.state.FAULT? && !v.state.FAULT?
    requires v == u.(state := v.state, row := v.row, armed := v.armed, out := v.out)
    requires v.out == u.out.(homes := v.out.homes, drs := v.out.drs, egt := v.out.egt)
    ensures Rest(c, resident, v) == Rest(c, resident, u) == Accept(Planned(u)) && Planned(v) == Planned(u)
  {
    hide Latches.Rank, Latches.Ok, Latches.Admitting, Planned;
    SamePlan(u, v);
  }
}
