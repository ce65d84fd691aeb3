/** The CHANGE unit, clock by clock: it reads and checks without being able to write, then
    saves, pops and publishes without being able to fail. */
module ChangeUnit {
  import opened Bits
  import opened Change
  import opened ChangeClocks
  import opened ChangeCommit
  import opened ChangeDecision
  import opened ChangeMachine
  import opened Checks
  import opened Fields
  import opened Memory
  import opened Registers
  import opened Stores
  import opened Thread
  import opened Validation
  import G = NsGate
  import M = MLoad

  /** What memory does in one clock: whether a read and a write are answered, and what is on
      the data lines of a read that is not. */
  datatype Clock = Clock(valid: bool, done: bool, noise: Word)

  class OrdinaryChange {
    const resident: bool
    const mem: Dmem
    const regs: RegFile
    const gate: G.ChurchNSGate
    const loader: ValidateOnly
    var u: Latches
    var owned: bool
    /** The operand, the core as the start found it, and the writes it had seen by then. */
    ghost var q: Operand
    ghost var start: Core
    ghost var stored: seq<Store>
    ghost var written: seq<RegWrite>

    ghost predicate Shape()
      reads this, regs
    {
      && mem.cells.Length == ADDRESS_SPACE && regs.Valid() && regs.dr != mem.cells
      && gate != loader.gate && loader.resident == resident
    }

    ghost function View(): (c: Core)
      requires Shape()
      reads this, regs, mem.cells, regs.cr, regs.dr
      ensures c.Ok()
    {
      Core(mem.cells[..], regs.cr[..], regs.dr[..], regs.flags, regs.nia, owned)
    }

    /** The decision, and what remains of it. */
    ghost predicate Decided()
      reads this
    {
      && start.Ok() && q.Ok() && Latched(start, q, u) && Rest(start, resident, u) == Admit(start, q, resident)
      && (AdmitOutgoing(start).Accept? ==> OutgoingFits(AdmitOutgoing(start).value))
    }

    /** Nothing has been written since the start. */
    ghost predicate Quiet()
      requires Shape()
      reads this, regs, mem, mem.cells, regs.cr, regs.dr
    {
      View() == start && mem.log == stored && regs.log == written
    }

    /** The gate and the home load work on the token at hand, or rest. */
    ghost predicate Helped()
      reads this, gate, loader, loader.gate
    {
      && (if u.state.WAIT?
          then gate.Follows(start.m, false) && gate.gtLatched == u.gt && gate.nsBase == u.ns.location
          else gate.state.IDLE?)
      && (if u.state.HOME_WAIT?
          then loader.Follows(start.m) && loader.gt == u.gt && loader.ns == HomeNamespace(u.ns, resident)
               && loader.state != LOAD_IDLE
          else loader.state == LOAD_IDLE && loader.gate.state.IDLE?)
    }

    /** A read that the unit would accept answers its own address. */
    ghost predicate Answers(valid: bool, data: Word)
      reads this, mem.cells, gate, loader, loader.gate
    {
      && (u.Reading() && u.armed && valid ==> data == ReadAt(mem.cells[..], u.Address()))
      && (u.state.WAIT? ==> gate.Answers(mem.cells[..], valid, data))
      && (u.state.HOME_WAIT? ==> loader.Answers(mem.cells[..], valid, data))
    }

    /** Clocks still to go if nothing stalls, inside a state. */
    ghost function Inner(): (n: nat)
      reads this, gate, loader, loader.gate
      ensures n < 16
    {
      if u.state.WAIT? then gate.Left()
      else if u.state.HOME_WAIT? then loader.Left()
      else if u.Reading() && !u.armed then 1 else 0
    }

    constructor (resident: bool, mem: Dmem, regs: RegFile, owned: bool)
      requires mem.cells.Length == ADDRESS_SPACE && regs.Valid() && regs.dr != mem.cells
      ensures Shape() && View() == Core(mem.cells[..], regs.cr[..], regs.dr[..], regs.flags, regs.nia, owned)
      ensures this.resident == resident && this.mem == mem && this.regs == regs && u.state.IDLE?
    {
      this.resident, this.mem, this.regs, this.owned := resident, mem, regs, owned;
      gate := new G.ChurchNSGate();
      loader := new ValidateOnly(resident);
      u, q, start := Reset(), Operand(0, 0, 0, false, false, NULL_CAP_REG),
        Core([], [], [], 0, 0, false);
      stored, written := [], [];
    }

    // ---- admission: memory and registers are outside the frame of every step

    method Start(q: Operand)
      requires Shape() && q.Ok() && u.state.IDLE? && gate.state.IDLE? && loader.state == LOAD_IDLE
      requires loader.gate.state.IDLE?
      requires AdmitOutgoing(View()).Accept? ==> OutgoingFits(AdmitOutgoing(View()).value)
      modifies this`u, this`q, this`start, this`stored, this`written
      ensures Shape() && this.q == q && start == View() && stored == mem.log && written == regs.log
      ensures Decided() && Helped() && Quiet() && (u.Admitting() || u.state.FAULT?)
    {
      start, stored, written, this.q := View(), mem.log, regs.log, q;
      u := Begin(Core(mem.cells[..], regs.cr[..], regs.dr[..], regs.flags, regs.nia, owned), q);
      RestIsAdmit(start, q, resident);
    }

    /** The gate's turn; `ready` once it has answered. */
    method AskGate(valid: bool, data: Word) returns (ready: bool, cap: Checked<Cap>)
      requires u.state.WAIT? && Helped() && gate.Answers(start.m, valid, data) && gate != loader.gate
      modifies gate
      ensures ready ==> cap == ResolveGt(start.m, u.ns, u.gt, resident) && gate.state.IDLE?
      ensures !ready ==> Helped() && gate.Left() <= old(gate.Left())
      ensures !ready && (valid || !old(gate.RdEn() && gate.rdArmed)) ==> gate.Left() < old(gate.Left())
    {
      ready, cap := gate.Settled(), Deny(F_THREAD_CONTEXT);
      if ready {
        var e := G.Entry(gate.rawBase, gate.rawW2, gate.rawIntegrity, gate.cacheToken);
        if gate.state.DONE? && !Unusable(e, resident) {
          cap := Accept(Cap(u.gt, Base(e, resident), e.authority));
        }
        gate.Step(false, false, 0);
      } else {
        gate.Clock(start.m, false, valid, data);
      }
    }

    /** The home load's turn. */
    method AskLoader(valid: bool, data: Word) returns (ready: bool, cap: Checked<Cap>)
      requires u.state.HOME_WAIT? && Helped() && loader.Answers(start.m, valid, data) && gate != loader.gate
      requires loader.resident == resident
      modifies loader, loader.gate
      ensures ready ==> cap == CapFor(start, resident, u) && loader.state == LOAD_IDLE && loader.gate.state.IDLE?
      ensures !ready ==> Helped() && loader.Left() <= old(loader.Left())
      ensures !ready && (valid || !old(loader.state == WAIT_GATE && loader.gate.RdEn() && loader.gate.rdArmed)) ==>
        loader.Left() < old(loader.Left())
    {
      ready, cap := loader.Settled(), Deny(F_THREAD_CONTEXT);
      if ready {
        var home := loader.result;
        if loader.state == VALIDATE_COMPLETE && !AuthF(home.authority) && home.location % 4 == 0 {
          cap := Accept(home);
        }
        loader.Settle();
      } else {
        loader.Clock(start.m, valid, data);
      }
    }

    /** The state moves on with what it has read. */
    method Take(word: Word, cap: Checked<Cap>)
      requires Decided() && u.Admitting() && word == WordFor(start, u) && cap == CapFor(start, resident, u)
      modifies this`u
      ensures Decided() && u.Rank() < old(u.Rank()) && (u.Admitting() || Settling(u))
      ensures (u.state.WAIT? <==> old(u.state.GATE?)) && (u.state.HOME_WAIT? <==> old(u.state.HOME_LOAD?))
      ensures u.ns == old(u.ns) && (old((u.state.GATE? || u.state.HOME_LOAD?)) ==> u.gt == old(u.gt))
    {
      NextKeeps(start, q, resident, u);
      GateKeepsToken(u, word, cap);
      u := Next(u, word, cap);
    }

    /** A read state that has no word yet. */
    method Arm()
      requires Decided() && u.Reading()
      modifies this`u
      ensures Decided() && u == old(u).(armed := true) && u.Rank() == old(u.Rank())
    {
      ArmedKeeps(start, q, resident, u);
      u := u.(armed := true);
    }

    /** One clock before the last check. */
    method AdmitStep(valid: bool, data: Word)
      requires Shape() && Decided() && Helped() && Quiet() && u.Admitting() && Answers(valid, data)
      modifies this`u, gate, loader, loader.gate
      ensures Shape() && Decided() && Helped() && Quiet() && (u.Admitting() || Settling(u))
      ensures u.Rank() < old(u.Rank()) || (u.Rank() == old(u.Rank()) && Inner() <= old(Inner()))
      ensures valid ==> u.Rank() < old(u.Rank()) || Inner() < old(Inner())
    {
      hide Rest, Admit, AdmitOutgoing, OutgoingFits, Latched, Latches.Rank, Latches.Address;
      if u.state.WAIT? || u.state.HOME_WAIT? {
        AskStep(valid, data);
      } else if u.state.GATE? || u.state.HOME_LOAD? {
        LaunchStep();
      } else if u.Reading() {
        if u.armed && valid {
          Take(data, Deny(0));
        } else {
          Arm();
        }
      } else {
        TakeRegister();
      }
    }

    method AskStep(valid: bool, data: Word)
      requires Shape() && Decided() && Helped() && Quiet() && Answers(valid, data)
      requires u.state.WAIT? || u.state.HOME_WAIT?
      modifies this`u, gate, loader, loader.gate
      ensures Decided() && Helped() && (u.Admitting() || Settling(u))
      ensures u.Rank() < old(u.Rank()) || (u.Rank() == old(u.Rank()) && Inner() <= old(Inner()))
      ensures valid ==> u.Rank() < old(u.Rank()) || Inner() < old(Inner())
    {
      hide Rest, Admit, AdmitOutgoing, OutgoingFits, Latched, Latches.Rank, Latches.Address, ResolveGt;
      var ready, cap;
      if u.state.WAIT? {
        ready, cap := AskGate(valid, data);
      } else {
        ready, cap := AskLoader(valid, data);
      }
      if ready {
        Take(0, cap);
      }
    }

    method LaunchStep()
      requires Shape() && Decided() && Helped() && (u.state.GATE? || u.state.HOME_LOAD?)
      modifies this`u, gate, loader
      ensures Decided() && Helped() && (u.Admitting() || Settling(u)) && u.Rank() < old(u.Rank())
    {
      hide Rest, Admit, AdmitOutgoing, OutgoingFits, Latched, Latches.Rank, Latches.Address;
      if u.state.GATE? {
        gate.Start(u.gt, u.ns.location);
      } else {
        loader.Start(u.gt, HomeNamespace(u.ns, resident));
      }
      Take(0, Deny(0));
    }

    /** A state that reads no memory. */
    method TakeRegister()
      requires Shape() && Decided() && Quiet() && u.Admitting() && !u.Reading()
      requires u.state !in {GATE, WAIT, HOME_LOAD, HOME_WAIT}
      modifies this`u
      ensures Decided() && u.Rank() < old(u.Rank()) && (u.Admitting() || Settling(u))
      ensures !u.state.WAIT? && !u.state.HOME_WAIT?
    {
      var word: Word := 0;
      if u.state.HOME? {
        word := regs.cr[u.row].gt;
      } else if u.state.DR? {
        word := regs.dr[u.row];
      } else if u.state.INDICATOR_CHECK? {
        word := regs.cr[6].gt;
      }
      Take(word, Deny(0));
    }

    // ---- past the last check: no step can fail

    ghost function Plan(): Plan
      reads this
    {
      Planned(u)
    }

    ghost predicate Standing()
      reads this
    {
      Decided() && !u.Admitting() && !u.state.FAULT? && PlanOk(Plan())
    }

    /** The registers are as at the start. */
    ghost predicate RegsQuiet()
      requires Shape()
      reads this, regs, regs.cr, regs.dr
    {
      && regs.cr[..] == start.regs && regs.dr[..] == start.drs && regs.flags == start.flags
      && regs.nia == start.nia && owned == start.owned && regs.log == written
    }

    /** The first `k` stores of the save have been made. */
    ghost predicate SavedUpTo(k: nat)
      requires Shape() && Standing() && u.owned && k <= SAVE_WORDS
      reads this, regs, mem, mem.cells
    {
      && mem.cells[..] == SavedFirst(start, Plan().out, k)
      && mem.log == stored + SaveStores(start, Plan().out)[..k]
    }

    ghost predicate SavedAll()
      requires Shape() && Standing()
      reads this, regs, mem, mem.cells
    {
      mem.cells[..] == Saved(start, Plan().out) && mem.log == stored + SaveStores(start, Plan().out)
    }

    ghost predicate Stored()
      requires Shape() && Standing()
      reads this, regs, mem, mem.cells
    {
      && mem.cells[..] == Popped(Saved(start, Plan().out), Plan())
      && mem.log == stored + ChangeStores(start, Plan())
    }

    /** The namespace and the first `n` further register writes have been made. */
    ghost predicate PublishedUpTo(n: nat)
      requires Shape() && Standing() && n <= REG_WRITES
      reads this, regs, regs.cr, regs.dr
    {
      && regs.cr[..] == CrAfter(Handed(start.regs, Plan(), u.handoff), Plan(), n)
      && regs.dr[..] == DrAfter(start.drs, Plan(), n)
      && regs.log == written + HeadWrites(Plan(), u.handoff) + TailWrites(Plan(), n)
      && regs.nia == (if n > 32 then EntryNia(Plan()) else start.nia)
      && regs.flags == (if n > 33 then Flags(Plan().resume.frame) else start.flags) && owned == start.owned
    }

    /** The next state: the decision stands, and the plan with it. */
    method Enter(v: Latches)
      requires Standing() && v.Ok() && !v.Admitting() && !v.state.FAULT?
      requires v == u.(state := v.state, row := v.row, armed := v.armed, out := v.out)
      requires v.out == u.out.(homes := v.out.homes, drs := v.out.drs, egt := v.out.egt)
      modifies this`u
      ensures u == v && Standing() && Plan() == old(Plan()) && u.owned == old(u.owned)
    {
      hide Rest, Admit, AdmitOutgoing, OutgoingFits, PlanOk, Planned, Latches.Rank;
      PlanStands(start, resident, u, v);
      u := v;
    }

    /** One clock of SNAPSHOT. */
    method SnapshotClock()
      requires Shape() && Standing() && Quiet() && u.state.SNAPSHOT? && u.row < DR_WORDS
      requires Snapped(start, u.out, u.row)
      modifies this`u
      ensures Standing() && Plan() == old(Plan()) && u.owned == old(u.owned)
      ensures Snapped(start, u.out, old(u.row) + 1)
      ensures if old(u.row) == DR_WORDS - 1 then u.state.SAVE_HOMES? && u.row == 0
              else u.state.SNAPSHOT? && u.row == old(u.row) + 1
    {
      hide Snapped, AfterSnapshot, Planned, Rest, Admit, AdmitOutgoing, OutgoingFits, PlanOk, Latches.Rank,
           Latches.Admitting, Latches.Ok;
      SnapshotGrows(start, u);
      AfterSnapshotEnters(u, regs.cr[u.row], regs.dr[u.row]);
      Enter(AfterSnapshot(u, regs.cr[u.row], regs.dr[u.row]));
    }

    lemma LeavingIsOk()
      requires Standing() && u.owned && Snapped(start, u.out, DR_WORDS)
      ensures LeavingOk(u.out) && u.out.pc == SuspendPc(start) && u.out.flags == start.flags
      ensures start.Ok() && u.Ok() && OutgoingFits(Plan().out)
      ensures Plan().out == Suspend(u.out.base, u.out.header, u.out.indicator)
    {
      hide Rest, Admit, AdmitOutgoing, Latches.Rank;
      Geometry(u.out.header);
    }

    /** One store of the save, once memory takes it. */
    method SaveClock()
      requires Shape() && Standing() && SaveRowOk(u) && u.owned && Snapped(start, u.out, DR_WORDS)
      requires SaveIndex(u) < SAVE_WORDS && SavedUpTo(SaveIndex(u))
      modifies mem.cells, mem`log, this`u
      ensures Standing() && Plan() == old(Plan()) && u == AfterSave(old(u))
      ensures u.owned && SavedUpTo(old(SaveIndex(u)) + 1)
    {
      hide Standing, Decided, Latches.Rank, PlanOk, OutgoingFits, Snapped, SaveWord, SaveIndex, LeavingOk,
           SavedFirst, SaveStores, SuspendPc, Saved, AfterSave, Latches.Ok, Latches.Admitting, Planned;
      LeavingIsOk();
      SaveGrows(start, u, Plan().out);
      AfterSaveEnters(u);
      var put := SaveWord(u);
      mem.Write((u.out.base + put.offset * 4) % 0x1_0000_0000, put.value);
      Enter(AfterSave(u));
    }

    /** NAMESPACE: the handed-over namespace, if any, is the first register write. */
    method NamespaceClock()
      requires Shape() && Standing() && u.state.NAMESPACE? && u.row == 0 && RegsQuiet()
      modifies regs.cr, regs`log, this`u
      ensures Shape() && Standing() && Plan() == old(Plan()) && PublishedUpTo(0)
      ensures u == old(u).(state := if u.t.root then COMMIT_HOMES else POP)
    {
      hide Rest, Admit, AdmitOutgoing, OutgoingFits, Latches.Rank, CrAfter, DrAfter, Saved, SaveStores, ThreadHeader,
           EntryHeaderOk;
      PublishNone(Handed(start.regs, Plan(), u.handoff), start.drs, Plan());
      if u.handoff {
        regs.WriteCr(15, u.ns);
      }
      Enter(u.(state := if u.t.root then COMMIT_HOMES else POP));
    }

    /** POP: word 17 of the incoming body takes back what its frame records. */
    method PopClock()
      requires Shape() && Standing() && u.state.POP? && !u.t.root && SavedAll()
      modifies mem.cells, mem`log, this`u
      ensures Shape() && Standing() && Plan() == old(Plan()) && Stored()
      ensures u == old(u).(state := COMMIT_HOMES)
    {
      hide Rest, Admit, AdmitOutgoing, OutgoingFits, Latches.Rank, Saved, SaveStores, Popped, ChangeStores, Frame, Sto,
           Sz, Flags, ThreadHeader, EntryHeaderOk;
      PopGrows(start, Plan());
      var f := u.t.frame;
      FrameBounds(f);
      mem.Write(BodyAddress(u.t.thread.location, STO_OFFSET), Frame(Sto(f), Sz(f), 0, Flags(f)));
      Enter(u.(state := COMMIT_HOMES));
    }

    /** One register write of the list. */
    method Publish(w: RegWrite, ghost n: nat)
      requires Shape() && Standing() && n < REG_WRITES && PublishedUpTo(n) && w == RegWriteAt(Plan(), n)
      modifies regs.cr, regs.dr, regs`flags, regs`nia, regs`log
      ensures Shape() && PublishedUpTo(n + 1)
    {
      hide Rest, Admit, AdmitOutgoing, OutgoingFits, CrAfter, DrAfter, RegWriteAt, TailWrites, HeadWrites, Handed,
           EntryNia, Flags, Latches.Admitting, Planned, PlanOk;
      PublishGrows(Handed(start.regs, Plan(), u.handoff), start.drs, Plan(), n);
      TailStep(Plan(), n);
      FrameBounds(Plan().resume.frame);
      match w
      case Cr(k, cap) => regs.WriteCr(k, cap);
      case Dr(k, data) => regs.WriteDr(k, data);
      case SetNia(nia) => regs.WriteNia(nia);
      case SetFlags(flags) => regs.WriteFlags(flags);
    }

    /** COMMIT_HOMES to COMMIT_CLIST; the last also sets program counter and flags. */
    method PublishClock()
      requires Shape() && Standing() && PublishRowOk(u) && PublishedUpTo(Published(u))
      modifies regs.cr, regs.dr, regs`flags, regs`nia, regs`log, this`u
      ensures Shape() && Standing() && Plan() == old(Plan()) && u == AfterPublish(old(u))
      ensures PublishedUpTo(Published(u))
    {
      hide Rest, Admit, AdmitOutgoing, OutgoingFits, ThreadHeader, EntryHeaderOk, CrAfter, DrAfter, TailWrites, Flags,
           HeadWrites, Handed, EntryNia, AfterPublish, PublishRowOk, Published, Latches.Admitting, Latches.Rank,
           Planned;
      AfterPublishEnters(u);
      AfterPublishCounts(u);
      PublishNext();
      Enter(AfterPublish(u));
    }

    method PublishNext()
      requires Shape() && Standing() && PublishRowOk(u) && PublishedUpTo(Published(u))
      modifies regs.cr, regs.dr, regs`flags, regs`nia, regs`log
      ensures Shape() && PublishedUpTo(if u.state.COMMIT_CLIST? then REG_WRITES else Published(u) + 1)
    {
      hide Decided, OutgoingFits, PublishedUpTo;
      if u.state.COMMIT_HOMES? {
        Publish(Cr(u.row, u.homes[u.row]), u.row);
      } else if u.state.COMMIT_DR? {
        Publish(Dr(u.row, u.drs[u.row]), 12 + u.row);
      } else if u.state.COMMIT_THREAD? {
        Publish(Cr(12, u.t.thread), 28);
      } else if u.state.COMMIT_HEAP? {
        Publish(Cr(5, HeapCap(u.t.thread, u.t.header)), 29);
      } else if u.state.COMMIT_CODE? {
        Publish(Cr(14, CodeCap(u.entry, u.entryHeader)), 30);
      } else {
        Publish(Cr(6, ClistCap(u.entry, u.entryHeader)), 31);
        Publish(SetNia(EntryNia(Planned(u))), 32);
        Publish(SetFlags(Flags(u.t.frame)), 33);
      }
    }

    // ---- whole runs

    predicate Ended()
      reads this
    {
      u.state.DONE? || u.state.FAULT?
    }

    ghost predicate Snapshotting()
      requires Shape() && Standing()
      reads this, regs, mem, mem.cells, regs.cr, regs.dr
    {
      u.state.SNAPSHOT? && u.owned && u.row < DR_WORDS && Snapped(start, u.out, u.row) && Quiet()
    }

    ghost predicate InSave()
      requires Shape() && Standing()
      reads this, regs, mem, mem.cells, regs.cr, regs.dr
    {
      && u.owned && SaveRowOk(u) && Snapped(start, u.out, DR_WORDS) && SaveIndex(u) < SAVE_WORDS
      && SavedUpTo(SaveIndex(u)) && RegsQuiet()
    }

    ghost predicate AtNamespace()
      requires Shape() && Standing()
      reads this, regs, mem, mem.cells, regs.cr, regs.dr
    {
      u.state.NAMESPACE? && u.row == 0 && SavedAll() && RegsQuiet()
    }

    ghost predicate AtPop()
      requires Shape() && Standing()
      reads this, regs, mem, mem.cells, regs.cr, regs.dr
    {
      u.state.POP? && u.row == 0 && !u.t.root && SavedAll() && PublishedUpTo(0)
    }

    ghost predicate InPublish()
      requires Shape() && Standing()
      reads this, regs, mem, mem.cells, regs.cr, regs.dr
    {
      PublishRowOk(u) && Stored() && PublishedUpTo(Published(u))
    }

    ghost predicate Finished()
      requires Shape() && Standing()
      reads this, regs, mem, mem.cells, regs.cr, regs.dr
    {
      u.state.DONE? && Stored() && PublishedUpTo(REG_WRITES)
    }

    ghost predicate Committing()
      requires Shape() && Standing()
      reads this, regs, mem, mem.cells, regs.cr, regs.dr
    {
      Snapshotting() || InSave() || AtNamespace() || AtPop() || InPublish() || Finished()
    }

    /** What holds in every clock: before the last check nothing has been written; past it the
        writes so far are a prefix of the plan's. */
    ghost predicate Valid()
      reads this, regs, mem, mem.cells, regs.cr, regs.dr, gate, loader, loader.gate
    {
      && Shape() && Helped()
      && if u.Admitting() || u.state.FAULT? then Decided() && Quiet() else Standing() && Committing()
    }

    /** The admission has been passed: the save, or the commit, may begin. */
    lemma Settled()
      requires Shape() && Decided() && Quiet() && Settling(u) && !u.state.FAULT?
      ensures Standing() && Committing()
    {
      hide Rest, Latches.Rank, ThreadHeader, EntryHeaderOk, Admit, AdmitOutgoing;
      AtEnd(start, resident, u);
      AdmittedIsOk(start, q, resident);
      SavesNothing(start);
    }

    method SaveStep(done: bool)
      requires Shape() && Standing() && InSave()
      modifies this`u, mem.cells, mem`log
      ensures Shape() && Standing() && (InSave() || AtNamespace()) && u.Rank() <= old(u.Rank())
      ensures done ==> u.Rank() < old(u.Rank())
    {
      hide Decided, PlanOk, Latches.Rank, SaveIndex, Snapped, SavedFirst, SaveStores, Saved, Planned, OutgoingFits;
      if done {
        ghost var before := u;
        SaveClock();
        SaveRanks(before);
        if u.state.NAMESPACE? {
          SaveEnds();
        }
      }
    }

    lemma SaveEnds()
      requires Shape() && Standing() && u.owned && SavedUpTo(SAVE_WORDS)
      ensures SavedAll()
    {
      hide Rest, Admit, AdmitOutgoing, Latches.Rank, SavedFirst, SaveStores, Saved;
      SavedWhole(start, Plan().out);
    }

    method SnapshotStep()
      requires Shape() && Standing() && Snapshotting()
      modifies this`u
      ensures Shape() && Standing() && (Snapshotting() || InSave()) && u.Rank() < old(u.Rank())
    {
      hide Decided, PlanOk, Latches.Rank, Snapped, SavedFirst, SaveStores, Saved, Planned, OutgoingFits;
      ghost var before := u;
      SnapshotClock();
      SnapshotRanks(before, u);
      if u.state.SAVE_HOMES? {
        SaveBegins();
      }
    }

    lemma SaveBegins()
      requires Shape() && Standing() && Quiet() && u.owned
      ensures SavedUpTo(0)
    {
      hide Rest, Admit, AdmitOutgoing, Latches.Rank, SavedFirst, SaveStores, Saved;
      SavedWhole(start, Plan().out);
    }

    method NamespaceStep()
      requires Shape() && Standing() && AtNamespace()
      modifies regs.cr, regs`log, this`u
      ensures Shape() && Standing() && (AtPop() || InPublish()) && u.Rank() < old(u.Rank())
    {
      hide Decided, PlanOk, Latches.Rank, SaveStores, Saved, Planned, OutgoingFits;
      ghost var before := u;
      NamespaceClock();
      NamespaceRanks(before, u);
      if u.t.root {
        NoPop();
      }
    }

    lemma NoPop()
      requires Shape() && Standing() && SavedAll() && u.t.root
      ensures Stored()
    {
      hide Rest, Admit, AdmitOutgoing, Latches.Rank, SaveStores, Saved;
      PopGrows(start, Plan());
    }

    method PopStep(done: bool)
      requires Shape() && Standing() && AtPop()
      modifies this`u, mem.cells, mem`log
      ensures Shape() && Standing() && (AtPop() || InPublish()) && u.Rank() <= old(u.Rank())
      ensures done ==> u.Rank() < old(u.Rank())
    {
      hide Decided, PlanOk, Latches.Rank, SaveStores, Saved, Planned, OutgoingFits;
      if done {
        ghost var before := u;
        PopClock();
        NamespaceRanks(before, u);
      }
    }

    method PublishStep()
      requires Shape() && Standing() && InPublish()
      modifies regs.cr, regs.dr, regs`flags, regs`nia, regs`log, this`u
      ensures Shape() && Standing() && (InPublish() || Finished()) && u.Rank() < old(u.Rank())
    {
      hide Decided, PlanOk, Latches.Rank, SaveStores, Saved, Planned, OutgoingFits;
      ghost var before := u;
      PublishClock();
      PublishRanks(before);
    }

    method CommitStep(done: bool)
      requires Shape() && Standing() && Committing() && !Ended()
      modifies this`u, mem.cells, mem`log, regs.cr, regs.dr, regs`flags, regs`nia, regs`log
      ensures Shape() && Standing() && Committing() && u.Rank() <= old(u.Rank())
      ensures done ==> u.Rank() < old(u.Rank())
    {
      hide Standing, Latches.Rank, Snapshotting, InSave, AtNamespace, AtPop, InPublish, Finished;
      StatesDiffer();
      if u.state.SNAPSHOT? {
        SnapshotStep();
      } else if u.Saving() {
        SaveStep(done);
      } else if u.state.NAMESPACE? {
        NamespaceStep();
      } else if u.state.POP? {
        PopStep(done);
      } else {
        PublishStep();
      }
    }

    lemma StatesDiffer()
      requires Shape() && Standing()
      ensures Snapshotting() ==> u.state.SNAPSHOT?
      ensures InSave() ==> u.Saving()
      ensures AtNamespace() ==> u.state.NAMESPACE?
      ensures AtPop() ==> u.state.POP?
      ensures InPublish() ==> Publishing(u.state)
      ensures Finished() ==> u.state.DONE?
    {
      hide Standing, Snapped, PublishedUpTo, SavedUpTo, Stored, Quiet, RegsQuiet, SavedAll;
    }

    /** What the bus answers to the read that is armed. */
    method Bus(noise: Word) returns (data: Word)
      requires mem.cells.Length == ADDRESS_SPACE
      ensures Answers(true, data)
    {
      data := noise;
      if u.Reading() {
        data := ReadAt(mem.cells[..], u.Address());
      } else if u.state.WAIT? {
        data := ReadAt(mem.cells[..], gate.Address());
      } else if u.state.HOME_WAIT? {
        data := ReadAt(mem.cells[..], loader.gate.Address());
      }
    }

    ghost predicate Idle()
      reads this, gate, loader, loader.gate
    {
      u.state.IDLE? && Resting()
    }

    /** The core after a run, and every write the run asserted. */
    ghost predicate Outcome(c: Core, stores: seq<Store>, writes: seq<RegWrite>, r: Checked<Change.Plan>)
      requires Shape() && c.Ok()
      reads this, regs, mem, mem.cells, regs.cr, regs.dr
    {
      match r
      case Deny(_) => View() == c && mem.log == stores && regs.log == writes
      case Accept(p) =>
        && PlanOk(p) && View() == Switched(c, p, u.handoff)
        && mem.log == stores + ChangeStores(c, p) && regs.log == writes + RegWrites(p, u.handoff)
    }

    /** DONE, or FAULT, and back to IDLE. */
    method Finish() returns (r: Checked<Change.Plan>)
      requires Valid() && Ended()
      modifies this`u, this`owned
      ensures Shape() && Idle() && r == Admit(start, q, resident) && u.handoff == q.handoff
      ensures Outcome(start, stored, written, r)
    {
      hide Rest, Admit, AdmitOutgoing, OutgoingFits, PlanOk, Committing, Finished, Latches.Rank, RegWrites,
           ChangeStores, Switched, Latches.Admitting;
      EndIsKnown();
      AtEnd(start, resident, u);
      if u.state.DONE? {
        FinishedCore();
        r := Accept(Planned(u));
        owned := true;
      } else {
        r := Deny(u.code);
      }
      u := u.(state := IDLE);
    }

    lemma EndIsKnown()
      requires Valid() && Ended()
      ensures !u.Admitting() && Resting() && Decided()
      ensures u.state.DONE? ==> Standing() && Finished()
      ensures u.state.FAULT? ==> Quiet()
    {
      hide Decided, PlanOk, Latches.Rank, Snapped, SavedUpTo, PublishedUpTo, SavedAll, Stored, Planned;
    }

    lemma FinishedCore()
      requires Shape() && Standing() && Finished()
      ensures View().(owned := true) == Switched(start, Plan(), u.handoff)
      ensures mem.log == stored + ChangeStores(start, Plan())
      ensures regs.log == written + RegWrites(Plan(), u.handoff)
    {
      hide Rest, Admit, AdmitOutgoing, OutgoingFits, CrAfter, DrAfter, CommittedRegs, Popped, Saved, SaveStores,
           PopStores, EntryNia, Flags, Handed, HeadWrites, TailWrites, Planned, Latches.Rank, ThreadHeader,
           EntryHeaderOk;
      AllPublished(start, Plan(), u.handoff);
    }

    /** All the clocks up to the last check.  Memory and registers are not in the frame, so no
        write is possible, not even one that is taken back. */
    method Decide(clocks: seq<Clock>) returns (rest: seq<Clock>)
      requires Shape() && Decided() && Helped() && Quiet() && (u.Admitting() || u.state.FAULT?)
      modifies this`u, gate, loader, loader.gate
      ensures Valid() && !u.Admitting()
    {
      hide Standing, Decided, Quiet, Latches.Rank, Latches.Address, Latches.Admitting;
      rest := clocks;
      while u.Admitting()
        invariant Shape() && Decided() && Helped() && Quiet() && (u.Admitting() || Settling(u))
        decreases |rest|, u.Rank(), Inner()
      {
        var k := if rest == [] then Clock(true, true, 0) else rest[0];
        rest := if rest == [] then [] else rest[1..];
        var data := k.noise;
        if k.valid {
          data := Bus(k.noise);
        }
        AdmitStep(k.valid, data);
      }
      if !u.state.FAULT? {
        Settled();
      }
    }

    /** All the clocks from there on: none of them can fail. */
    method Commit(clocks: seq<Clock>)
      requires Valid() && !u.Admitting() && !u.state.FAULT?
      modifies this`u, mem.cells, mem`log, regs.cr, regs.dr, regs`flags, regs`nia, regs`log
      ensures Valid() && u.state.DONE?
    {
      hide Standing, Committing, Resting, Latches.Rank;
      var rest := clocks;
      HelpersRest();
      while !Ended()
        invariant Shape() && Standing() && Committing() && Resting()
        decreases |rest|, u.Rank()
      {
        CommitStep(rest == [] || rest[0].done);
        rest := if rest == [] then [] else rest[1..];
      }
      DoneIsValid();
    }

    ghost predicate Resting()
      reads gate, loader, loader.gate
    {
      gate.state.IDLE? && loader.state == LOAD_IDLE && loader.gate.state.IDLE?
    }

    lemma HelpersRest()
      requires Valid() && !u.Admitting() && !u.state.FAULT?
      ensures Shape() && Standing() && Committing() && Resting()
    {
      hide Decided, Committing, PlanOk, Latches.Rank;
    }

    lemma DoneIsValid()
      requires Shape() && Standing() && Committing() && Resting() && Ended()
      ensures Valid() && u.state.DONE?
    {
      hide Decided, Committing, PlanOk, Latches.Rank;
    }

    /** One CHANGE, against a memory that answers as it likes for any number of clocks and
        then without delay.  It always ends.  A refused one has asserted no write at all; an
        admitted one has asserted exactly the planned ones, in order. */
    method Run(q: Operand, clocks: seq<Clock>) returns (r: Checked<Change.Plan>)
      requires Shape() && Idle() && q.Ok()
      requires AdmitOutgoing(View()).Accept? ==> OutgoingFits(AdmitOutgoing(View()).value)
      modifies this, gate, loader, loader.gate
      modifies mem.cells, mem`log, regs.cr, regs.dr, regs`flags, regs`nia, regs`log
      ensures Shape() && Idle() && r == Admit(old(View()), q, resident) && u.handoff == q.handoff
      ensures Outcome(old(View()), old(mem.log), old(regs.log), r)
    {
      hide Committing, Latches.Rank, Admit, AdmitOutgoing, OutgoingFits, Decided, Standing, Latches.Admitting, Outcome,
           Valid, Helped, Quiet;
      Start(q);
      var rest := Decide(clocks);
      if !u.state.FAULT? {
        Commit(rest);
      }
      r := Finish();
    }
  }

  lemma AdmittedIsOk(c: Core, q: Operand, resident: bool)
    requires c.Ok() && q.Ok() && Admit(c, q, resident).Accept?
    requires AdmitOutgoing(c).Accept? ==> OutgoingFits(AdmitOutgoing(c).value)
    ensures PlanOk(Admit(c, q, resident).value)
  {
    hide Change.Lookup, ResolveGt, Home, Homes, StoredResume, SelfResume, BodyAt, Named, EntersOnly, AdmitOutgoing,
         OutgoingFits, ThreadHeader, EntryHeaderOk;
  }
}
