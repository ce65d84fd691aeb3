/** How far a CHANGE past its last check has come: the stores and register writes asserted so
    far, and what they have made of memory and registers. */
module ChangeCommit {
  import opened Bits
  import opened Change
  import opened ChangeMachine
  import opened Fields
  import opened Memory
  import opened Registers
  import opened Stores
  import opened Thread

  predicate Publishing(s: State) {
    s.COMMIT_HOMES? || s.COMMIT_DR? || s.COMMIT_THREAD? || s.COMMIT_HEAP? || s.COMMIT_CODE? || s.COMMIT_CLIST?
  }

  // ---- the snapshot

  function Tokens(c: Core): (s: seq<Word>)
    requires c.Ok()
    ensures |s| == CAP_WORDS
  {
    seq(CAP_WORDS, k requires 0 <= k < CAP_WORDS => c.regs[k].gt)
  }

  /** The first `n` clocks of the snapshot. */
  predicate Snapped(c: Core, out: Leaving, n: nat)
    requires c.Ok() && n <= DR_WORDS
  {
    && out.homes == Tokens(c)[..if n < CAP_WORDS then n else CAP_WORDS] && out.drs == c.drs[..n]
    && (n > 6 ==> out.egt == EGt(c.regs[6].gt))
  }

  // ---- the stores

  function SaveIndex(u: Latches): nat {
    if u.state.SAVE_HOMES? then u.row
    else if u.state.SAVE_EGT? then 12
    else if u.state.SAVE_FRAME? then 13
    else if u.state.SAVE_INDICATOR? then 14
    else 15 + u.row
  }

  predicate SaveRowOk(u: Latches) {
    && u.Saving() && (u.state.SAVE_HOMES? ==> u.row < CAP_WORDS) && (u.state.SAVE_DR? ==> u.row < DR_WORDS)
  }

  predicate LeavingOk(o: Leaving) {
    && |o.homes| == CAP_WORDS && |o.drs| == DR_WORDS && o.pc < 0x8000 && o.flags < 16
    && ThreadHeader(o.header) && 2 <= Sto(o.indicator)
  }

  /** What a save state stores, from what the unit has latched. */
  function SaveWord(u: Latches): Put
    requires SaveRowOk(u) && LeavingOk(u.out)
  {
    var o := u.out;
    if u.state.SAVE_HOMES? then Put(Caps(o.header) + u.row, o.homes[u.row])
    else if u.state.SAVE_EGT? then Put(Sto(o.indicator) - 1, o.egt)
    else if u.state.SAVE_FRAME? then Put(Sto(o.indicator), Captured(o.indicator, o))
    else if u.state.SAVE_INDICATOR? then Put(STO_OFFSET, Frame(Sto(o.indicator) - 2, true, 0, o.flags))
    else Put(u.row + 1, o.drs[u.row])
  }

  lemma SaveWordIsPut(c: Core, u: Latches)
    requires c.Ok() && SaveRowOk(u) && LeavingOk(u.out) && Snapped(c, u.out, DR_WORDS)
    requires u.out.pc == SuspendPc(c) && u.out.flags == c.flags
    ensures SaveIndex(u) < SAVE_WORDS && SaveWord(u) == SavePut(c, u.out.header, u.out.indicator, SaveIndex(u))
  {
    hide Sto, Caps, Frame, EGt, SuspendPc;
  }

  function AfterSave(u: Latches): (v: Latches)
    requires SaveRowOk(u)
    ensures v.state.NAMESPACE? || (SaveRowOk(v) && SaveIndex(v) == SaveIndex(u) + 1)
    ensures v.state.NAMESPACE? <==> SaveIndex(u) == SAVE_WORDS - 1
    ensures v.state.NAMESPACE? ==> v.row == 0
  {
    if u.state.SAVE_HOMES? then
      if u.row == CAP_WORDS - 1 then u.(row := 0, state := SAVE_EGT) else u.(row := u.row + 1)
    else if u.state.SAVE_EGT? then u.(state := SAVE_FRAME)
    else if u.state.SAVE_FRAME? then u.(state := SAVE_INDICATOR)
    else if u.state.SAVE_INDICATOR? then u.(row := 0, state := SAVE_DR)
    else if u.row == DR_WORDS - 1 then u.(row := 0, state := NAMESPACE) else u.(row := u.row + 1)
  }

  lemma AfterSaveRanks(u: Latches)
    requires SaveRowOk(u)
    ensures AfterSave(u).state == NAMESPACE || AfterSave(u).SaveRank() < u.SaveRank()
  {
    hide SaveIndex;
  }

  function StoreOf(base: Word, p: Put): Store {
    Store(base / 4 + p.offset, p.value)
  }

  /** The save as the memory sees it. */
  function SaveStores(c: Core, out: Outgoing): (s: seq<Store>)
    requires c.Ok() && OutgoingFits(out)
  {
    if out.NoThread? then []
    else
      var puts := SavePuts(c, out.header, out.indicator);
      seq(SAVE_WORDS, k requires 0 <= k < SAVE_WORDS => StoreOf(out.base, puts[k]))
  }

  function PopIndex(p: Plan): nat {
    (p.thread.location + STO_OFFSET * 4) % 0x1_0000_0000 / 4
  }

  function PopWord(p: Plan): Word {
    Frame(Sto(p.resume.frame), Sz(p.resume.frame), 0, Flags(p.resume.frame))
  }

  function PopStores(p: Plan): seq<Store> {
    if p.resume.root then [] else [Store(PopIndex(p), PopWord(p))]
  }

  /** All the stores of an admitted CHANGE, in order. */
  function ChangeStores(c: Core, p: Plan): seq<Store>
    requires c.Ok() && OutgoingFits(p.out)
  {
    SaveStores(c, p.out) + PopStores(p)
  }

  // ---- the register writes

  const REG_WRITES := 34

  function HeadWrites(p: Plan, handoff: bool): seq<RegWrite> {
    if handoff then [Cr(15, p.ns)] else []
  }

  /** The register writes after the namespace, in order. */
  function RegWriteAt(p: Plan, j: nat): (w: RegWrite)
    requires PlanOk(p) && j < REG_WRITES
    ensures (w.Cr? || w.Dr? ==> w.k < 16) && !w.Clean?
    ensures w == SetNia(EntryNia(p)) <==> j == 32
    ensures w == SetFlags(Flags(p.resume.frame)) <==> j == 33
    ensures (w.SetNia? <==> j == 32) && (w.SetFlags? <==> j == 33)
  {
    if j < 12 then Cr(j, p.homes[j])
    else if j < 28 then Dr(j - 12, p.drs[j - 12])
    else if j == 28 then Cr(12, p.thread)
    else if j == 29 then Cr(5, HeapCap(p.thread, p.header))
    else if j == 30 then Cr(14, CodeCap(p.entry, p.entryHeader))
    else if j == 31 then Cr(6, ClistCap(p.entry, p.entryHeader))
    else if j == 32 then SetNia(EntryNia(p))
    else SetFlags(Flags(p.resume.frame))
  }

  function TailWrites(p: Plan, n: nat): (s: seq<RegWrite>)
    requires PlanOk(p) && n <= REG_WRITES
    ensures |s| == n
  {
    seq(n, j requires 0 <= j < n => RegWriteAt(p, j))
  }

  /** All the register writes of an admitted CHANGE, in order. */
  function RegWrites(p: Plan, handoff: bool): seq<RegWrite>
    requires PlanOk(p)
  {
    HeadWrites(p, handoff) + TailWrites(p, REG_WRITES)
  }

  lemma TailStep(p: Plan, n: nat)
    requires PlanOk(p) && n < REG_WRITES
    ensures TailWrites(p, n + 1) == TailWrites(p, n) + [RegWriteAt(p, n)]
  {
    hide RegWriteAt;
  }

  /** How many of them a state has behind it. */
  function Published(u: Latches): (n: nat)
    ensures n <= REG_WRITES
  {
    if u.state.COMMIT_HOMES? then if u.row < CAP_WORDS then u.row else CAP_WORDS
    else if u.state.COMMIT_DR? then if u.row < DR_WORDS then 12 + u.row else 28
    else if u.state.COMMIT_THREAD? then 28
    else if u.state.COMMIT_HEAP? then 29
    else if u.state.COMMIT_CODE? then 30
    else if u.state.COMMIT_CLIST? then 31
    else REG_WRITES
  }

  /** Capability registers after the namespace and `n` further writes. */
  function CrAfter(regs: seq<Cap>, p: Plan, n: nat): (r: seq<Cap>)
    requires |regs| == 16 && PlanOk(p) && n <= REG_WRITES
    ensures |r| == 16
  {
    if n <= 12 then p.homes[..n] + regs[n..]
    else
      var homes := p.homes + regs[12..];
      if n <= 28 then homes
      else if n == 29 then homes[12 := p.thread]
      else if n == 30 then homes[12 := p.thread][5 := HeapCap(p.thread, p.header)]
      else if n == 31 then homes[12 := p.thread][5 := HeapCap(p.thread, p.header)]
                               [14 := CodeCap(p.entry, p.entryHeader)]
      else homes[12 := p.thread][5 := HeapCap(p.thread, p.header)][14 := CodeCap(p.entry, p.entryHeader)]
               [6 := ClistCap(p.entry, p.entryHeader)]
  }

  function DrAfter(drs: seq<Word>, p: Plan, n: nat): (r: seq<Word>)
    requires |drs| == 16 && PlanOk(p) && n <= REG_WRITES
    ensures |r| == 16
  {
    if n <= 12 then drs else if n < 28 then p.drs[..n - 12] + drs[n - 12..] else p.drs
  }

  /** The namespace register, if it is handed over. */
  function Handed(regs: seq<Cap>, p: Plan, handoff: bool): (r: seq<Cap>)
    requires |regs| == 16
    ensures |r| == 16
  {
    if handoff then regs[15 := p.ns] else regs
  }

  lemma AllPublished(c: Core, p: Plan, handoff: bool)
    requires c.Ok() && PlanOk(p)
    ensures CrAfter(Handed(c.regs, p, handoff), p, REG_WRITES) == CommittedRegs(c.regs, p, handoff)
    ensures DrAfter(c.drs, p, REG_WRITES) == p.drs
  {
    hide HeapCap, CodeCap, ClistCap, OutgoingFits, ThreadHeader, EntryHeaderOk;
    var r, s := CrAfter(Handed(c.regs, p, handoff), p, REG_WRITES), CommittedRegs(c.regs, p, handoff);
    forall k | 0 <= k < 16
      ensures r[k] == s[k]
    {
    }
  }

  lemma SaveStep(c: Core, out: Outgoing, k: nat)
    requires c.Ok() && OutgoingFits(out) && out.Suspend? && k < SAVE_WORDS
    ensures SaveStores(c, out)[..k + 1]
         == SaveStores(c, out)[..k] + [StoreOf(out.base, SavePut(c, out.header, out.indicator, k))]
  {
    hide SavePut;
  }

  // ---- snapshot and plan

  function AfterSnapshot(u: Latches, cap: Cap, data: Word): Latches {
    var homes := if u.row < CAP_WORDS then u.out.homes + [cap.gt] else u.out.homes;
    var egt := if u.row == 6 then EGt(cap.gt) else u.out.egt;
    var out := u.out.(homes := homes, drs := u.out.drs + [data], egt := egt);
    if u.row == DR_WORDS - 1 then u.(out := out, row := 0, state := SAVE_HOMES) else u.(out := out, row := u.row + 1)
  }

  lemma AfterSnapshotEnters(u: Latches, cap: Cap, data: Word)
    requires u.Ok() && u.state.SNAPSHOT? && u.row < DR_WORDS
    ensures var v := AfterSnapshot(u, cap, data);
      && v.Ok() && !v.Admitting() && !v.state.FAULT? && v.owned == u.owned
      && v == u.(state := v.state, row := v.row, out := v.out)
      && v.out == u.out.(homes := v.out.homes, drs := v.out.drs, egt := v.out.egt)
      && if u.row == DR_WORDS - 1 then v.state.SAVE_HOMES? && v.row == 0
         else v.state.SNAPSHOT? && v.row == u.row + 1
  {
    hide Latches.Rank, EGt;
  }

  lemma SnapshotGrows(c: Core, u: Latches)
    requires c.Ok() && u.row < DR_WORDS && Snapped(c, u.out, u.row)
    ensures Snapped(c, AfterSnapshot(u, c.regs[u.row], c.drs[u.row]).out, u.row + 1)
  {
    hide EGt;
    var n := if u.row < CAP_WORDS then u.row else CAP_WORDS;
    assert c.drs[..u.row + 1] == c.drs[..u.row] + [c.drs[u.row]];
    if u.row < CAP_WORDS {
      assert Tokens(c)[..n + 1] == Tokens(c)[..n] + [Tokens(c)[n]];
    }
  }

  /** Memory and record after the first `k` stores of the save. */
  function SavedFirst(c: Core, out: Outgoing, k: nat): (m: seq<Word>)
    requires c.Ok() && OutgoingFits(out) && out.Suspend? && k <= SAVE_WORDS
    ensures |m| == ADDRESS_SPACE
  {
    PutsFit(c, out);
    StoreAll(c.m, out.base / 4, SavePuts(c, out.header, out.indicator)[..k])
  }

  /** What one save state adds. */
  lemma SaveGrows(c: Core, u: Latches, out: Outgoing)
    requires c.Ok() && OutgoingFits(out) && out == Suspend(u.out.base, u.out.header, u.out.indicator)
    requires SaveRowOk(u) && LeavingOk(u.out) && Snapped(c, u.out, DR_WORDS)
    requires u.out.pc == SuspendPc(c) && u.out.flags == c.flags
    ensures var k, put := SaveIndex(u), SaveWord(u);
      var at := (u.out.base + put.offset * 4) % 0x1_0000_0000 / 4;
      && k < SAVE_WORDS && at < ADDRESS_SPACE
      && SavedFirst(c, out, k + 1) == SavedFirst(c, out, k)[at := put.value]
      && SaveStores(c, out)[..k + 1] == SaveStores(c, out)[..k] + [Store(at, put.value)]
  {
    hide SavePut, Snapped, SaveWord, SaveIndex, SuspendPc, SavedFirst, SaveStores, LeavingOk;
    SaveWordIsPut(c, u);
    PutGrows(c, out, SaveIndex(u));
  }

  lemma PutGrows(c: Core, out: Outgoing, k: nat)
    requires c.Ok() && OutgoingFits(out) && out.Suspend? && k < SAVE_WORDS
    ensures var put := SavePut(c, out.header, out.indicator, k);
      var at := (out.base + put.offset * 4) % 0x1_0000_0000 / 4;
      && at == out.base / 4 + put.offset < ADDRESS_SPACE
      && SavedFirst(c, out, k + 1) == SavedFirst(c, out, k)[at := put.value]
      && SaveStores(c, out)[..k + 1] == SaveStores(c, out)[..k] + [Store(at, put.value)]
  {
    hide SavePut, StoreAll;
    PutsFit(c, out);
    StoreStep(c.m, out.base / 4, SavePuts(c, out.header, out.indicator), k);
    SaveStep(c, out, k);
    PutsInBody(c, out.header, out.indicator, k);
    WordOffset(out.base, SavePut(c, out.header, out.indicator, k).offset);
  }

  lemma SavedWhole(c: Core, out: Outgoing)
    requires c.Ok() && OutgoingFits(out) && out.Suspend?
    ensures SavedFirst(c, out, SAVE_WORDS) == Saved(c, out) && SaveStores(c, out)[..SAVE_WORDS] == SaveStores(c, out)
    ensures SavedFirst(c, out, 0) == c.m && SaveStores(c, out)[..0] == []
  {
    hide SavePut;
    var puts := SavePuts(c, out.header, out.indicator);
    assert puts[..SAVE_WORDS] == puts && puts[..0] == [];
  }

  /** A next state past the last check is well formed. */
  lemma StaysOk(u: Latches, v: Latches)
    requires u.Ok() && !u.Admitting() && !u.state.FAULT? && !v.Admitting() && v == u.(state := v.state, row := v.row)
    ensures v.Ok()
  {
    hide Latches.Rank;
  }

  lemma AfterSaveEnters(u: Latches)
    requires SaveRowOk(u) && u.Ok()
    ensures var v := AfterSave(u);
      v.Ok() && !v.Admitting() && !v.state.FAULT? && v == u.(state := v.state, row := v.row)
  {
    hide Latches.Rank, SaveIndex, Latches.Ok, Latches.RowsOk;
    StaysOk(u, AfterSave(u));
  }

  lemma SavesNothing(c: Core)
    requires c.Ok()
    ensures Saved(c, NoThread) == c.m && SaveStores(c, NoThread) == [] && c.drs[..0] == [] && Tokens(c)[..0] == []
  {
  }

  // ---- one register write

  function Wrote(cr: seq<Cap>, w: RegWrite): (r: seq<Cap>)
    requires |cr| == 16 && (w.Cr? ==> w.k < 16)
    ensures |r| == 16
  {
    if w.Cr? then cr[w.k := w.cap] else cr
  }

  function WroteDr(dr: seq<Word>, w: RegWrite): (r: seq<Word>)
    requires |dr| == 16 && (w.Dr? ==> w.k < 16)
    ensures |r| == 16
  {
    if w.Dr? then dr[w.k := w.data] else dr
  }

  lemma PublishGrows(cr: seq<Cap>, dr: seq<Word>, p: Plan, n: nat)
    requires |cr| == 16 && |dr| == 16 && PlanOk(p) && n < REG_WRITES
    ensures CrAfter(cr, p, n + 1) == Wrote(CrAfter(cr, p, n), RegWriteAt(p, n))
    ensures DrAfter(dr, p, n + 1) == WroteDr(DrAfter(dr, p, n), RegWriteAt(p, n))
  {
    hide ThreadHeader, EntryHeaderOk, OutgoingFits, HeapCap, CodeCap, ClistCap, EntryNia, Flags;
    if n < 12 {
      HomePublished(cr, p, n);
    } else if n < 28 {
      DrPublished(dr, p, n - 12);
      assert n == 12 ==> p.homes[..12] + cr[12..] == p.homes + cr[12..];
    }
  }

  lemma HomePublished(cr: seq<Cap>, p: Plan, n: nat)
    requires |cr| == 16 && |p.homes| == CAP_WORDS && n < 12
    ensures p.homes[..n + 1] + cr[n + 1..] == (p.homes[..n] + cr[n..])[n := p.homes[n]]
  {
  }

  lemma DrPublished(dr: seq<Word>, p: Plan, n: nat)
    requires |dr| == 16 && |p.drs| == DR_WORDS && n < 16
    ensures n < 15 ==> p.drs[..n + 1] + dr[n + 1..] == (p.drs[..n] + dr[n..])[n := p.drs[n]]
    ensures p.drs == (p.drs[..15] + dr[15..])[15 := p.drs[15]] && p.drs[..0] + dr[0..] == dr
  {
  }

  lemma PublishNone(cr: seq<Cap>, dr: seq<Word>, p: Plan)
    requires |cr| == 16 && |dr| == 16 && PlanOk(p)
    ensures CrAfter(cr, p, 0) == cr && DrAfter(dr, p, 0) == dr
  {
    hide ThreadHeader, EntryHeaderOk, OutgoingFits, HeapCap, CodeCap, ClistCap;
  }

  // ---- the pop

  lemma PopGrows(c: Core, p: Plan)
    requires c.Ok() && OutgoingFits(p.out)
    ensures p.resume.root ==>
      Popped(Saved(c, p.out), p) == Saved(c, p.out) && ChangeStores(c, p) == SaveStores(c, p.out)
    ensures !p.resume.root ==>
      && PopIndex(p) < ADDRESS_SPACE && Popped(Saved(c, p.out), p) == Saved(c, p.out)[PopIndex(p) := PopWord(p)]
      && ChangeStores(c, p) == SaveStores(c, p.out) + [Store(PopIndex(p), PopWord(p))]
  {
    hide Saved, SaveStores, OutgoingFits, Frame, Sto, Sz, Flags;
  }

  // ---- the publishing states

  predicate PublishRowOk(u: Latches) {
    && Publishing(u.state) && (u.state.COMMIT_HOMES? ==> u.row < CAP_WORDS)
    && (u.state.COMMIT_DR? ==> u.row < DR_WORDS)
  }

  function AfterPublish(u: Latches): (v: Latches)
    requires PublishRowOk(u)
    ensures v.state.DONE? <==> u.state.COMMIT_CLIST?
    ensures v.state.DONE? || PublishRowOk(v)
  {
    if u.state.COMMIT_HOMES? then
      if u.row == CAP_WORDS - 1 then u.(row := 0, state := COMMIT_DR) else u.(row := u.row + 1)
    else if u.state.COMMIT_DR? then
      if u.row == DR_WORDS - 1 then u.(state := COMMIT_THREAD) else u.(row := u.row + 1)
    else if u.state.COMMIT_THREAD? then u.(state := COMMIT_HEAP)
    else if u.state.COMMIT_HEAP? then u.(state := COMMIT_CODE)
    else if u.state.COMMIT_CODE? then u.(state := COMMIT_CLIST)
    else u.(state := DONE)
  }

  lemma AfterPublishCounts(u: Latches)
    requires PublishRowOk(u)
    ensures Published(AfterPublish(u)) == if u.state.COMMIT_CLIST? then REG_WRITES else Published(u) + 1
  {
  }

  lemma AfterPublishEnters(u: Latches)
    requires PublishRowOk(u) && u.Ok()
    ensures var v := AfterPublish(u);
      v.Ok() && !v.Admitting() && !v.state.FAULT? && v == u.(state := v.state, row := v.row)
  {
    hide Latches.Rank, Published, Latches.Ok, Latches.RowsOk;
    StaysOk(u, AfterPublish(u));
  }

  lemma AfterPublishRanks(u: Latches)
    requires PublishRowOk(u)
    ensures AfterPublish(u).PublishRank() < u.PublishRank()
  {
    hide Published;
  }

  lemma PublishIsLast(u: Latches)
    requires PublishRowOk(u) || u.state.DONE?
    ensures u.WriteRank() == u.PublishRank()
  {
    hide Latches.PublishRank, Latches.SaveRank;
  }

  // ---- ranks past the last check

  lemma SnapshotRanks(u: Latches, v: Latches)
    requires u.state.SNAPSHOT? && u.row < DR_WORDS
    requires if u.row == DR_WORDS - 1 then v.state.SAVE_HOMES? else v.state.SNAPSHOT? && v.row == u.row + 1
    ensures v.Rank() < u.Rank()
  {
  }

  lemma SaveRanks(u: Latches)
    requires SaveRowOk(u)
    ensures AfterSave(u).Rank() < u.Rank()
  {
    hide SaveIndex, AfterSave, Latches.AdmitRank;
    AfterSaveRanks(u);
  }

  lemma NamespaceRanks(u: Latches, v: Latches)
    requires (u.state.NAMESPACE? && (v.state.POP? || v.state.COMMIT_HOMES?)) || (u.state.POP? && v.state.COMMIT_HOMES?)
    ensures v.Rank() < u.Rank()
  {
    hide Latches.AdmitRank;
  }

  lemma PublishRanks(u: Latches)
    requires PublishRowOk(u)
    ensures AfterPublish(u).Rank() < u.Rank()
  {
    hide Latches.AdmitRank, Published, Latches.WriteRank, Latches.PublishRank;
    AfterPublishRanks(u);
    PublishIsLast(u);
    PublishIsLast(AfterPublish(u));
  }
}
