/** The clocks of CHANGE reach the decision that the admission of the whole core states. */
module ChangeDecision {
  import opened Bits
  import opened Change
  import opened ChangeClocks
  import opened ChangeMachine
  import opened Checks
  import opened Fields
  import opened MLoad
  import opened Memory
  import opened NsGate
  import opened Thread
  import opened Validation
  import M = MLoad

  function PlaceOf(u: Latches, gt: Word): Place {
    Place(u.t.thread, u.t.header, u.t.self, Change.Resume(u.t.frame, gt, u.t.root))
  }

  // ---- the outgoing Thread

  lemma OutDecides(c: Core, q: Operand, resident: bool, u: Latches)
    requires c.Ok() && Latched(c, q, u) && !u.pending && u.state == (if u.owned then OUT_HEADER else NAMESPACE)
    ensures var r := AdmitOutgoing(c);
      Rest(c, resident, u) == if r.Deny? then Deny(r.code) else Accept(Planned(u).(out := r.value))
  {
    hide Rest, ThreadHeader, Latches.Rank, BodyAt, BodyAddress, ReadAt, Sto, Pc, StackLo, Caps;
    if !u.owned {
      AtEnd(c, resident, u);
    } else {
      BodyRead(c.m, c.regs[12], STO_OFFSET);
      AtOutHeader(c, resident, u);
      var v := u.(out := u.out.(header := ReadAt(c.m, u.out.base))).Go(OUT_HEADER_CHECK);
      if ThreadHeader(v.out.header) {
        AtOutIndicator(c, resident, v.(state := OUT_INDICATOR));
      }
    }
  }

  // ---- homes and data

  lemma {:induction false} DrDecides(c: Core, q: Operand, resident: bool, u: Latches)
    requires c.Ok() && Latched(c, q, u) && !u.pending && u.state.DR?
    requires u.drs == IncomingDrs(c, u.t.thread, u.t.self)[..u.row]
    ensures Rest(c, resident, u) == AfterHomes(c, u.ns, PlaceOf(u, u.entry.gt), u.entry, u.entryHeader, u.homes)
    decreases DR_WORDS - u.row
  {
    hide Rest, Latches.Rank, Latches.Ok, AfterHomes, IncomingDrs;
    DrStaysOk(u, IncomingDrs(c, u.t.thread, u.t.self));
    var drs := IncomingDrs(c, u.t.thread, u.t.self);
    AtDr(c, resident, u);
    assert drs[..u.row] + [drs[u.row]] == drs[..u.row + 1];
    var v := u.(drs := drs[..u.row + 1], armed := false);
    if u.row < DR_WORDS - 1 {
      DrDecides(c, q, resident, v.(row := u.row + 1));
    } else {
      assert drs[..DR_WORDS] == drs;
      OutFollows(c, q, resident, v.(row := 0, state := if u.owned then OUT_HEADER else NAMESPACE));
    }
  }

  lemma DrStaysOk(u: Latches, drs: seq<Word>)
    requires u.Ok() && u.state.DR? && !u.pending && |drs| == DR_WORDS
    ensures u.row < DR_WORDS && |u.homes| == CAP_WORDS
    ensures var v := u.(drs := drs[..u.row + 1], armed := false);
      && (u.row < DR_WORDS - 1 ==> v.(row := u.row + 1).Ok())
      && v.(row := 0, state := if u.owned then OUT_HEADER else NAMESPACE).Ok()
  {
    hide Latches.Rank;
  }

  lemma OutFollows(c: Core, q: Operand, resident: bool, u: Latches)
    requires c.Ok() && Latched(c, q, u) && !u.pending && u.state == (if u.owned then OUT_HEADER else NAMESPACE)
    requires |u.homes| == CAP_WORDS && u.drs == IncomingDrs(c, u.t.thread, u.t.self)
    ensures Rest(c, resident, u) == AfterHomes(c, u.ns, PlaceOf(u, u.entry.gt), u.entry, u.entryHeader, u.homes)
  {
    hide Rest, Latches.Rank, AdmitOutgoing, IncomingDrs;
    OutDecides(c, q, resident, u);
  }

  function HomeNext(u: Latches, home: Cap): Latches {
    u.(gt := home.gt, armed := false, phase := HOMES, homes := u.homes + [home], state := HOME_NEXT)
  }

  function TokenOf(c: Core, u: Latches): Word
    requires c.Ok() && u.row < CAP_WORDS
  {
    HomeToken(c, u.t.thread, u.t.header, u.t.self, u.row)
  }

  predicate RootHomeOk(c: Core, u: Latches)
    requires c.Ok()
  {
    u.t.root && !u.t.self ==> HomeToken(c, u.t.thread, u.t.header, u.t.self, 0) == u.entry.gt
  }

  /** HOME to HOME_NEXT: one capability home. */
  lemma HomeStep(c: Core, q: Operand, resident: bool, u: Latches)
    requires c.Ok() && Latched(c, q, u) && !u.pending && u.state.HOME? && u.phase == HOMES
    requires u.row == 0 ==> RootHomeOk(c, u)
    ensures var r := Home(c.m, u.ns, TokenOf(c, u), resident);
      Rest(c, resident, u) == if r.Deny? then Deny(r.code) else Rest(c, resident, HomeNext(u, r.value))
  {
    hide Rest, Latches.Rank, HomeToken, Home, CheckToken;
    AtHome(c, resident, u);
    var gt := TokenOf(c, u);
    HomeByKind(c, u.ns, gt, resident);
    if !Bare(gt) {
      var checking := u.(gt := gt, armed := false, state := CHECK);
      AtHomeCheck(c, resident, checking);
      CheckHome(checking);
    }
  }

  lemma CheckHome(u: Latches)
    requires u.phase == HOMES
    ensures CheckToken(u) == Require(GtType(u.gt) == GT_INFORM && Named(u.ns, u.gt), F_THREAD_CONTEXT)
  {
    hide Named, GtType, EntersOnly, NoPerms;
  }

  lemma HomeByKind(c: Core, ns: Cap, gt: Word, resident: bool)
    ensures Bare(gt) ==> Home(c.m, ns, gt, resident) == Accept(Cap(gt, 0, 0))
    ensures !Bare(gt) ==>
      var r := ResidentHome(
        M.ResolveToken(HOME_REQUEST, gt, HomeNamespace(ns, resident), EntryOf(c.m, ns, gt), resident));
      && Home(c.m, ns, gt, resident) ==
        (if GtType(gt) == GT_INFORM && Named(ns, gt) then r else Deny(F_THREAD_CONTEXT))
      && (r.Accept? ==> r.value.gt == gt)
  {
    hide Named, GtType, SealOk, SlotInBounds, InvalidDescriptor, EntryOf, HomeNamespace;
  }

  /** The rows from this one on. */
  lemma {:induction false} HomesDecide(c: Core, q: Operand, resident: bool, u: Latches)
    requires c.Ok() && Latched(c, q, u) && !u.pending && u.state.HOME? && u.phase == HOMES
    requires u.row == 0 ==> RootHomeOk(c, u)
    requires Homes(c, u.ns, u.t.thread, u.t.header, u.t.self, resident, u.row) == Accept(u.homes)
    ensures var r := Homes(c, u.ns, u.t.thread, u.t.header, u.t.self, resident, CAP_WORDS);
      Rest(c, resident, u) == if r.Deny? then Deny(r.code)
                              else AfterHomes(c, u.ns, PlaceOf(u, u.entry.gt), u.entry, u.entryHeader, r.value)
    decreases CAP_WORDS - u.row
  {
    hide Rest, Latches.Rank, Latches.Ok, Homes, Home, HomeToken, RootHomeOk, AfterHomes;
    RowInRange(u);
    HomeStep(c, q, resident, u);
    HomesGrow(c, u.ns, u.t.thread, u.t.header, u.t.self, resident, u.row);
    var r := Home(c.m, u.ns, TokenOf(c, u), resident);
    if r.Deny? {
      HomesStop(c, u.ns, u.t.thread, u.t.header, u.t.self, resident, u.row + 1, CAP_WORDS);
    } else {
      var v := HomeNext(u, r.value);
      RowStaysOk(u, r.value);
      if u.row == CAP_WORDS - 1 {
        LastHome(c, q, resident, v);
      } else {
        AtHomeNext(c, resident, v);
        HomesDecide(c, q, resident, v.(row := u.row + 1, state := HOME));
      }
    }
  }

  lemma RowInRange(u: Latches)
    requires u.Ok() && u.state.HOME?
    ensures u.row < CAP_WORDS && |u.homes| == u.row
  {
  }

  lemma RowStaysOk(u: Latches, home: Cap)
    requires u.Ok() && u.state.HOME? && !u.pending
    ensures var v := HomeNext(u, home);
      v.Ok() && (u.row < CAP_WORDS - 1 ==> v.(row := u.row + 1, state := HOME).Ok())
  {
    hide Latches.Rank;
  }

  lemma LastHome(c: Core, q: Operand, resident: bool, u: Latches)
    requires c.Ok() && Latched(c, q, u) && !u.pending && u.state.HOME_NEXT? && u.row == CAP_WORDS - 1
    ensures Rest(c, resident, u) == AfterHomes(c, u.ns, PlaceOf(u, u.entry.gt), u.entry, u.entryHeader, u.homes)
  {
    hide Rest, Latches.Rank, AfterHomes;
    AtHomeNext(c, resident, u);
    DrDecides(c, q, resident, u.(row := 0, drs := [], state := DR));
  }

  lemma HomesGrow(c: Core, ns: Cap, t: Cap, h: Word, self: bool, resident: bool, n: nat)
    requires c.Ok() && n < CAP_WORDS && Homes(c, ns, t, h, self, resident, n).Accept?
    ensures var r := Home(c.m, ns, HomeToken(c, t, h, self, n), resident);
      Homes(c, ns, t, h, self, resident, n + 1) == if r.Deny? then Deny(r.code)
        else Accept(Homes(c, ns, t, h, self, resident, n).value + [r.value])
  {
    hide Home, HomeToken;
  }

  lemma {:induction false} HomesStop(c: Core, ns: Cap, t: Cap, h: Word, self: bool, resident: bool, k: nat, n: nat)
    requires c.Ok() && k <= n <= CAP_WORDS && Homes(c, ns, t, h, self, resident, k).Deny?
    ensures Homes(c, ns, t, h, self, resident, n) == Homes(c, ns, t, h, self, resident, k)
    decreases n
  {
    hide Home, HomeToken;
    if k < n {
      HomesStop(c, ns, t, h, self, resident, k, n - 1);
    }
  }

  // ---- the executable

  lemma HomesFollow(c: Core, q: Operand, resident: bool, u: Latches)
    requires c.Ok() && Latched(c, q, u) && !u.pending && u.state.CLIST_NEXT?
    requires u.t.root ==> !u.t.self
    ensures Rest(c, resident, u) == AfterEntry(c, u.ns, PlaceOf(u, u.entry.gt), u.entry, u.entryHeader, resident)
  {
    hide Rest, Latches.Rank, HomeToken, AfterHomes;
    var v := u.(row := 0, phase := HOMES, homes := [], state := HOME);
    AtClistNext(c, resident, u);
    if RootHomeOk(c, v) {
      HomesDecide(c, q, resident, v);
    } else {
      AtHome(c, resident, v);
    }
  }

  /** The c-list's own row names the executable again, and the gate answers as before. */
  lemma SelfRowFollows(c: Core, q: Operand, resident: bool, u: Latches)
    requires c.Ok() && Latched(c, q, u) && !u.pending && u.state.CHECK? && u.phase == SELF_ROW
    requires GtType(u.gt) == GT_INFORM && Named(u.ns, u.gt) && ResolveGt(c.m, u.ns, u.gt, resident).Accept?
    ensures Rest(c, resident, u) == Rest(c, resident, u.(state := CLIST_NEXT))
  {
    hide Rest, Latches.Rank, ResolveGt, Named, GtType;
    AtCheck(c, resident, u);
  }

  lemma EntryFollows(c: Core, q: Operand, resident: bool, u: Latches)
    requires c.Ok() && Latched(c, q, u) && !u.pending && u.state.ENTRY_HEADER? && (u.t.root ==> !u.t.self)
    requires GtType(u.gt) == GT_INFORM && Named(u.ns, u.gt)
    requires ResolveGt(c.m, u.ns, u.gt, resident) == Accept(u.entry) && u.entry.gt == u.gt
    ensures var r := EntryHeader(c.m, u.entry, Change.Resume(u.t.frame, u.gt, u.t.root));
      Rest(c, resident, u) == if r.Deny? then Deny(r.code)
                              else AfterEntry(c, u.ns, PlaceOf(u, u.gt), u.entry, r.value, resident)
  {
    hide Rest, Latches.Rank, BodyAt, SelfRow, AfterEntry, ResolveGt, Named, GtType, EntryHeader, EntryFits;
    var h := BodyAt(c.m, u.entry, 0);
    AtEntryHeader(c, resident, u);
    EntryHeaderByFit(c.m, u.entry, u.(entryHeader := h).Go(ENTRY_CHECK));
    if EntryFits(u.(entryHeader := h).Go(ENTRY_CHECK)) {
      ClistFollows(c, q, resident, u.(entryHeader := h, row := 0, phase := SELF_ROW).Go(CLIST));
    }
  }

  lemma ClistFollows(c: Core, q: Operand, resident: bool, u: Latches)
    requires c.Ok() && Latched(c, q, u) && !u.pending && u.state.CLIST? && (u.t.root ==> !u.t.self)
    requires GtType(u.entry.gt) == GT_INFORM && Named(u.ns, u.entry.gt)
    requires ResolveGt(c.m, u.ns, u.entry.gt, resident).Accept?
    ensures Rest(c, resident, u) ==
      if BodyAt(c.m, u.entry, SelfRow(u.entryHeader)) != u.entry.gt then Deny(F_THREAD_CONTEXT)
      else AfterEntry(c, u.ns, PlaceOf(u, u.entry.gt), u.entry, u.entryHeader, resident)
  {
    hide Rest, Latches.Rank, BodyAt, SelfRow, AfterEntry, ResolveGt, Named, GtType;
    AtClist(c, resident, u);
    if BodyAt(c.m, u.entry, SelfRow(u.entryHeader)) == u.entry.gt {
      var v := u.(gt := u.entry.gt).Go(CHECK);
      SelfRowFollows(c, q, resident, v);
      HomesFollow(c, q, resident, v.(state := CLIST_NEXT));
    }
  }

  lemma EntryHeaderByFit(m: seq<Word>, entry: Cap, u: Latches)
    requires u.entry == entry && u.entryHeader == BodyAt(m, entry, 0)
    ensures var h := u.entryHeader;
      EntryHeader(m, entry, Change.Resume(u.t.frame, u.gt, u.t.root)) ==
        if EntryFits(u) && BodyAt(m, entry, SelfRow(h)) == entry.gt then Accept(h)
        else Deny(F_THREAD_CONTEXT)
  {
    hide BodyAt, BodyWords, SelfRow, HdrCw, Pc, EntryHeaderOk, AuthLimit;
  }

  lemma PlaceDecides(c: Core, q: Operand, resident: bool, u: Latches)
    requires c.Ok() && Latched(c, q, u) && !u.pending && u.state.CHECK? && u.phase == EXECUTABLE
    requires u.t.root ==> !u.t.self
    ensures Rest(c, resident, u) == AfterPlace(c, u.ns, PlaceOf(u, u.gt), resident)
  {
    hide Rest, Latches.Rank, EntryHeader, AfterEntry, ResolveGt, Named, EntersOnly, GtType, NoPerms;
    AtCheck(c, resident, u);
    var r := ResolveGt(c.m, u.ns, u.gt, resident);
    ResolvedToken(c.m, u.ns, u.gt, resident);
    if CheckToken(u).Met? && r.Accept? {
      EntryFollows(c, q, resident, u.(entry := r.value, state := ENTRY_HEADER));
    }
  }

  lemma ResolvedToken(m: seq<Word>, ns: Cap, gt: Word, resident: bool)
    ensures ResolveGt(m, ns, gt, resident).Accept? ==> ResolveGt(m, ns, gt, resident).value.gt == gt
    ensures ResolveGt(m, ns, gt, resident).Deny? ==> ResolveGt(m, ns, gt, resident).code == F_THREAD_CONTEXT
  {
    hide EntryOf, Unusable;
  }

  // ---- the incoming Thread

  lemma FrameDecides(c: Core, q: Operand, resident: bool, u: Latches)
    requires c.Ok() && Latched(c, q, u) && u.state.FRAME? && !u.pending && !u.t.self && !u.t.root
    requires ThreadHeader(u.t.header) && IndicatorOk(u.t.header, u.t.indicator, u.t.self)
    ensures var r := StoredResume(c.m, u.t.thread, u.t.header, u.t.indicator, q.handoff);
      Rest(c, resident, u) == if r.Deny? then Deny(r.code)
                              else AfterPlace(c, u.ns, Place(u.t.thread, u.t.header, false, r.value), resident)
  {
    hide Rest, Latches.Rank, BodyAt, AfterPlace, ThreadHeader, StoredResume, RootForm, FrameOk, IndicatorOk, Sto;
    var v := u.(t := u.t.(frame := BodyAt(c.m, u.t.thread, Sto(u.t.indicator) + 2))).Go(FRAME_CHECK);
    AtFrame(c, resident, u);
    StoredByFrame(c.m, v);
    if FrameOk(v) {
      EgtDecides(c, q, resident, v.(t := v.t.(root := RootForm(v)), state := EGT));
    }
  }

  lemma EgtDecides(c: Core, q: Operand, resident: bool, u: Latches)
    requires c.Ok() && Latched(c, q, u) && u.state.EGT? && !u.pending && !u.t.self
    ensures Rest(c, resident, u)
         == AfterPlace(c, u.ns, PlaceOf(u, BodyAt(c.m, u.t.thread, Sto(u.t.indicator) + 1)), resident)
  {
    hide Rest, Latches.Rank, BodyAt, AfterPlace, Sto;
    AtEgt(c, resident, u);
    var gt := BodyAt(c.m, u.t.thread, Sto(u.t.indicator) + 1);
    PlaceDecides(c, q, resident, u.(gt := gt, phase := EXECUTABLE).Go(CHECK));
  }

  lemma StoredByFrame(m: seq<Word>, u: Latches)
    requires ThreadHeader(u.t.header) && IndicatorOk(u.t.header, u.t.indicator, u.t.self) && !u.t.self
    requires u.t.frame == BodyAt(m, u.t.thread, Sto(u.t.indicator) + 2)
    ensures StoredResume(m, u.t.thread, u.t.header, u.t.indicator, u.handoff) ==
      if FrameOk(u) then Accept(Change.Resume(u.t.frame, BodyAt(m, u.t.thread, Sto(u.t.indicator) + 1), RootForm(u)))
      else Deny(F_THREAD_CONTEXT)
  {
    hide BodyAt, Sto, Pc, Sz, RootFrame, RootIndicator, Caps, StackLo;
  }

  lemma IndicatorDecides(c: Core, q: Operand, resident: bool, u: Latches)
    requires c.Ok() && Latched(c, q, u) && u.state.INDICATOR? && !u.pending && !u.t.root
    requires ThreadHeader(u.t.header) && u.t.self == IsSelf(c, q, u.t.thread)
    ensures var r := Continuation(c, q, u.t.thread, u.t.header, u.t.self);
      Rest(c, resident, u) == if r.Deny? then Deny(r.code)
                              else AfterPlace(c, u.ns, Place(u.t.thread, u.t.header, u.t.self, r.value), resident)
  {
    hide Rest, Latches.Rank, BodyAt, AfterPlace, ThreadHeader, Continuation, StoredResume, IndicatorOk, EGt;
    var v := u.(t := u.t.(indicator := BodyAt(c.m, u.t.thread, STO_OFFSET))).Go(INDICATOR_CHECK);
    AtIndicator(c, resident, u);
    ContinuationByIndicator(c, q, v);
    if IndicatorOk(u.t.header, v.t.indicator, u.t.self) {
      if u.t.self {
        PlaceDecides(c, q, resident, MoveIndicator(v, c.regs[6].gt));
      } else {
        FrameDecides(c, q, resident, v.(state := FRAME));
      }
    }
  }

  lemma ContinuationByIndicator(c: Core, q: Operand, u: Latches)
    requires c.Ok() && ThreadHeader(u.t.header) && u.t.indicator == BodyAt(c.m, u.t.thread, STO_OFFSET)
    requires u.out.pc == SuspendPc(c) && u.out.flags == c.flags
    ensures Continuation(c, q, u.t.thread, u.t.header, u.t.self) ==
      if !IndicatorOk(u.t.header, u.t.indicator, u.t.self) then Deny(F_THREAD_CONTEXT)
      else if u.t.self then Accept(Change.Resume(Captured(u.t.indicator, u.out), EGt(c.regs[6].gt), false))
      else StoredResume(c.m, u.t.thread, u.t.header, u.t.indicator, q.handoff)
  {
    hide BodyAt, Sto, Pc, Sz, RootFrame, RootIndicator, Caps, StackLo, Frame, SuspendPc, EGt;
  }

  lemma HeaderDecides(c: Core, q: Operand, resident: bool, u: Latches)
    requires c.Ok() && Latched(c, q, u) && u.state.HEADER? && !u.pending && !u.t.root
    requires u.t.self == IsSelf(c, q, u.t.thread)
    ensures Rest(c, resident, u) == AfterThread(c, q, u.t.thread, resident)
  {
    hide Rest, Latches.Rank, BodyAt, AfterPlace, Continuation, ThreadHeader, BodyWords, AuthLimit;
    var v := u.(t := u.t.(header := BodyAt(c.m, u.t.thread, 0))).Go(HEADER_CHECK);
    AtHeader(c, resident, u);
    if CoveredBy(v.t.header, u.t.thread) {
      IndicatorDecides(c, q, resident, v.(state := INDICATOR));
    }
  }

  lemma TargetDecides(c: Core, q: Operand, resident: bool, u: Latches)
    requires c.Ok() && Latched(c, q, u) && u.state.CHECK? && u.phase == TARGET && !u.pending && !u.t.root
    ensures Rest(c, resident, u) == AfterTarget(c, q, u.gt, resident)
  {
    hide Rest, Latches.Rank, AfterThread, ResolveGt, Named, GtType, NoPerms, EntersOnly;
    AtCheck(c, resident, u);
    var r := ResolveGt(c.m, u.ns, u.gt, resident);
    ResolvedToken(c.m, u.ns, u.gt, resident);
    if CheckToken(u).Met? && r.Accept? {
      HeaderDecides(c, q, resident, MoveToken(u.(state := WAIT), 0, r.value));
    }
  }

  lemma LookupDecides(c: Core, q: Operand, resident: bool, u: Latches)
    requires c.Ok() && q.Ok() && Latched(c, q, u) && u.state.LOOKUP_CHECK? && !u.pending && !u.t.root
    requires u.lookup == ChangeMachine.Lookup(c.regs[q.src], q.index % 0x8000, q.cr6M)
    ensures var r := Change.Lookup(c, q, u.ns, resident);
      Rest(c, resident, u) == if r.Deny? then Deny(r.code) else AfterTarget(c, q, r.value, resident)
  {
    hide Rest, Latches.Rank, ChangeMachine.Lookup.Address, AfterTarget, ResolveGt, ReadAt, CheckLookup, CheckAnswer,
         Change.Lookup;
    LookupByChecks(c, q, resident, u);
    AtLookupCheck(c, resident, u);
    if CheckLookup(u).Met? {
      GateDecides(c, q, resident, u.(gt := u.lookup.cap.gt, pending := true, state := GATE));
    }
  }

  lemma GateDecides(c: Core, q: Operand, resident: bool, u: Latches)
    requires c.Ok() && q.Ok() && Latched(c, q, u) && u.state.GATE? && u.pending && !u.t.root
    ensures var g := CheckAnswer(u.(state := WAIT), ResolveGt(c.m, u.ns, u.gt, resident));
      Rest(c, resident, u) == if g.Unmet? then Deny(g.code)
                              else AfterTarget(c, q, ReadAt(c.m, u.lookup.Address() % 0x1_0000_0000), resident)
  {
    hide Rest, Latches.Rank, ChangeMachine.Lookup.Address, AfterTarget, ResolveGt, ReadAt, CheckAnswer;
    AtLookupGate(c, resident, u);
    if CheckAnswer(u.(state := WAIT), ResolveGt(c.m, u.ns, u.gt, resident)).Met? {
      ReadDecides(c, q, resident, u.(pending := false, state := LOOKUP_READ));
    }
  }

  lemma ReadDecides(c: Core, q: Operand, resident: bool, u: Latches)
    requires c.Ok() && q.Ok() && Latched(c, q, u) && u.state.LOOKUP_READ? && !u.pending && !u.t.root
    ensures Rest(c, resident, u) == AfterTarget(c, q, ReadAt(c.m, u.lookup.Address() % 0x1_0000_0000), resident)
  {
    hide Rest, Latches.Rank, ChangeMachine.Lookup.Address, AfterTarget, ReadAt;
    AtLookupRead(c, resident, u);
    TargetDecides(c, q, resident, u.(gt := ReadAt(c.m, u.lookup.Address() % 0x1_0000_0000)).Go(CHECK));
  }

  lemma LookupByChecks(c: Core, q: Operand, resident: bool, u: Latches)
    requires c.Ok() && q.Ok() && u.state.LOOKUP_CHECK?
    requires u.lookup == ChangeMachine.Lookup(c.regs[q.src], q.index % 0x8000, q.cr6M)
    ensures var waiting := u.(gt := u.lookup.cap.gt, pending := true, state := WAIT);
      var r := ResolveGt(c.m, u.ns, u.lookup.cap.gt, resident);
      Change.Lookup(c, q, u.ns, resident) ==
        if CheckLookup(u).Unmet? then Deny(CheckLookup(u).code)
        else if CheckAnswer(waiting, r).Unmet? then Deny(CheckAnswer(waiting, r).code)
        else Accept(ReadAt(c.m, u.lookup.Address() % 0x1_0000_0000))
  {
    hide ResolveGt, GtType, HasChurch, AuthLimit, AuthF, GtSlot;
  }

  /** From the start clock on, the machine decides what the admission decides. */
  lemma RestIsAdmit(c: Core, q: Operand, resident: bool)
    requires c.Ok() && q.Ok()
    ensures Begin(c, q).Ok() && Rest(c, resident, Begin(c, q)) == Admit(c, q, resident)
  {
    hide Rest, Latches.Rank, AfterTarget, Change.Lookup;
    var u := Begin(c, q);
    if u.state.LOOKUP_CHECK? {
      LookupDecides(c, q, resident, u);
    } else if u.state.CHECK? {
      TargetDecides(c, q, resident, u);
    } else {
      AtEnd(c, resident, u);
    }
  }
}
