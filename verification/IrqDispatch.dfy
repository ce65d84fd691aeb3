/** Interrupt dispatch: the handler fetch, the two argument registers, and the one-deep
    pending register that keeps the latest trigger.  One call of `Step` is one clock edge. */
module IrqDispatch {
  import opened Bits
  import opened Memory

  const IRQ_NS_SLOT := 8
  const IRQ_METHOD := 5

  datatype Trigger = Trigger(reason: nat, slot: nat)

  datatype Pulse = Quiet | Start(t: Trigger)

  /** What the bus answers in a clock. */
  datatype Answer = NotYet | Data(word: Word)

  /** What the handler finds when it is entered. */
  datatype Delivery = Delivery(dr0: nat, dr1: nat, nia: Word)

  datatype State = IDLE | FETCH_NS | NULL_BASE_FAULT | FETCH_METHOD | WRITE_DR0 | WRITE_DR1 | COMPLETE

  // ---- the history of a run

  /** All triggers so far; the numbers of those begun and of those delivered; what each
      delivery carried; how often the handler base read null. */
  datatype Log = Log(triggers: seq<Trigger>, begun: seq<nat>, delivered: seq<nat>, out: seq<Delivery>,
                     nullBases: nat)
  {
    function Arrive(pulse: Pulse): Log {
      match pulse
      case Quiet => this
      case Start(t) => this.(triggers := triggers + [t])
    }

    function Begin(k: nat): Log {
      this.(begun := begun + [k])
    }

    function Deliver(d: Delivery): Log
      requires begun != []
    {
      this.(delivered := delivered + [Last(begun)], out := out + [d])
    }
  }

  function Last(s: seq<nat>): nat
    requires s != []
  {
    s[|s| - 1]
  }

  ghost predicate Ascending(s: seq<nat>) {
    forall i, j :: 0 <= i < j < |s| ==> s[i] < s[j]
  }

  /** Deliveries are of triggers in their order, none twice, each with its own arguments. */
  ghost predicate Subsequence(g: Log) {
    && Ascending(g.delivered) && |g.out| == |g.delivered|
    && forall k :: 0 <= k < |g.out| ==>
         && g.delivered[k] < |g.triggers|
         && g.triggers[g.delivered[k]] == Trigger(g.out[k].dr0, g.out[k].dr1)
  }

  /** A pending trigger is the latest of all; with none pending the latest has been begun. */
  ghost predicate LastWins(g: Log, pend: Pulse) {
    match pend
    case Start(t) =>
      && g.triggers != [] && t == g.triggers[|g.triggers| - 1]
      && (g.begun != [] ==> Last(g.begun) < |g.triggers| - 1)
    case Quiet => g.triggers != [] ==> g.begun != [] && Last(g.begun) == |g.triggers| - 1
  }

  ghost predicate Good(g: Log, busy: bool, lat: Trigger, pend: Pulse) {
    && Subsequence(g) && LastWins(g, pend)
    && (g.delivered != [] ==> g.begun != [] && Last(g.delivered) <= Last(g.begun))
    && (g.begun != [] ==> Last(g.begun) < |g.triggers|)
    && (busy ==> g.begun != [] && g.triggers[Last(g.begun)] == lat)
    && (busy && g.delivered != [] ==> Last(g.delivered) < Last(g.begun))
    && (g.nullBases == 0 ==> if busy then g.begun == g.delivered + [Last(g.begun)] else g.begun == g.delivered)
  }

  lemma ArriveKeeps(g: Log, busy: bool, lat: Trigger, pend: Pulse, t: Trigger)
    requires Good(g, busy, lat, pend)
    ensures Good(g.Arrive(Start(t)), busy, lat, Start(t))
  {
  }

  lemma BeginPending(g: Log, lat: Trigger, t: Trigger, pulse: Pulse)
    requires Good(g, false, lat, Start(t))
    ensures Good(g.Begin(|g.triggers| - 1).Arrive(pulse), true, t, pulse)
  {
  }

  lemma BeginFresh(g: Log, lat: Trigger, t: Trigger)
    requires Good(g, false, lat, Quiet)
    ensures Good(g.Arrive(Start(t)).Begin(|g.triggers|), true, t, Quiet)
  {
  }

  lemma DeliverKeeps(g: Log, lat: Trigger, pend: Pulse, nia: Word)
    requires Good(g, true, lat, pend)
    ensures Good(g.Deliver(Delivery(lat.reason, lat.slot, nia)), false, lat, pend)
  {
    var h := g.Deliver(Delivery(lat.reason, lat.slot, nia));
    assert Last(h.delivered) == Last(g.begun);
  }

  function NextState(s: State, answer: Answer): State {
    match s
    case FETCH_NS =>
      if answer.NotYet? then FETCH_NS else if answer.word == 0 then NULL_BASE_FAULT else FETCH_METHOD
    case FETCH_METHOD => if answer.NotYet? then FETCH_METHOD else WRITE_DR0
    case WRITE_DR0 => WRITE_DR1
    case WRITE_DR1 => COMPLETE
    case _ => IDLE
  }

  /** The log after a busy clock. */
  function NextLog(g: Log, s: State, answer: Answer, d: Delivery): Log
    requires g.begun != []
  {
    if s == COMPLETE then g.Deliver(d)
    else if s == FETCH_NS && answer == Data(0) then g.(nullBases := g.nullBases + 1)
    else g
  }

  lemma NullKeeps(g: Log, lat: Trigger, pend: Pulse)
    requires Good(g, true, lat, pend)
    ensures Good(g.(nullBases := g.nullBases + 1), true, lat, pend)
    ensures g.nullBases > 0 ==> Good(g, false, lat, pend)
  {
  }

  /** The handler's lump: the location word of namespace slot 8. */
  function HandlerLump(mem: seq<Word>, nsBase: Word): Word {
    ReadAt(mem, (nsBase + 8 * 16) % 0x1_0000_0000)
  }

  /** Where the handler is entered: its lump's base plus four times word 5 of the lump. */
  function HandlerEntry(mem: seq<Word>, nsBase: Word): Word {
    var base := HandlerLump(mem, nsBase);
    (base + ReadAt(mem, (base + 20) % 0x1_0000_0000) * 4) % 0x1_0000_0000
  }

  // ---- the unit

  class ChurchIRQDispatch {
    const nsBase: Word
    var state: State
    var reasonLat: nat
    var slotLat: nat
    var handlerBase: Word
    var methodEntry: Word
    var pendValid: bool
    var pendReason: nat
    var pendSlot: nat
    var dr0: nat
    var dr1: nat
    ghost var log: Log

    constructor (nsBase: Word)
      ensures Valid() && state.IDLE? && log == Log([], [], [], [], 0) && this.nsBase == nsBase
    {
      this.nsBase := nsBase;
      state, pendValid, log := IDLE, false, Log([], [], [], [], 0);
    }

    ghost function Pending(): Pulse
      reads this`pendValid, this`pendReason, this`pendSlot
    {
      if pendValid then Start(Trigger(pendReason, pendSlot)) else Quiet
    }

    ghost predicate Valid()
      reads this
    {
      && Good(log, !state.IDLE?, Trigger(reasonLat, slotLat), Pending())
      && (state.WRITE_DR1? || state.COMPLETE? ==> dr0 == reasonLat)
      && (state.COMPLETE? ==> dr1 == slotLat)
      && (state.NULL_BASE_FAULT? ==> log.nullBases > 0)
    }

    function Address(): Word
      reads this`state, this`handlerBase
    {
      if state.FETCH_NS? then Plus(nsBase, IRQ_NS_SLOT * 16) else Plus(handlerBase, IRQ_METHOD * 4)
    }

    function Nia(): Word
      reads this`handlerBase, this`methodEntry
    {
      Plus(handlerBase, methodEntry * 4)
    }

    /** One clock edge. */
    method Step(pulse: Pulse, answer: Answer)
      requires Valid()
      modifies this
      ensures Valid()
      ensures log.triggers == old(log).Arrive(pulse).triggers
      ensures log.nullBases == old(log).nullBases + (if old(state) == FETCH_NS && answer == Data(0) then 1 else 0)
      ensures log.out == old(log).out
                         + (if old(state) == COMPLETE then [Delivery(old(dr0), old(dr1), old(Nia()))] else [])
      ensures old(log).delivered <= log.delivered
      ensures Left() < old(Left()) || pulse.Start? || answer.NotYet? || old(state.IDLE? && !pendValid)
      ensures state == if old(!state.IDLE?) then NextState(old(state), answer)
                       else if old(pendValid) || pulse.Start? then FETCH_NS else IDLE
      ensures handlerBase == if old(state.FETCH_NS?) && answer.Data? then answer.word else old(handlerBase)
      ensures methodEntry == if old(state.FETCH_METHOD?) && answer.Data? then answer.word else old(methodEntry)
    {
      hide Good, ChurchIRQDispatch.Nia;
      if state.IDLE? {
        StepIdle(pulse);
      } else {
        Advance(answer);
        if pulse.Start? {
          Capture(pulse.t);
        }
      }
    }

    /** A trigger that finds the unit busy replaces the pending one. */
    method Capture(t: Trigger)
      requires Valid()
      modifies this`pendValid, this`pendReason, this`pendSlot, this`log
      ensures Valid() && log == old(log).Arrive(Start(t)) && Pending() == Start(t)
    {
      ArriveKeeps(log, !state.IDLE?, Trigger(reasonLat, slotLat), Pending(), t);
      pendReason, pendSlot, pendValid := t.reason, t.slot, true;
      log := log.Arrive(Start(t));
    }

    method StepIdle(pulse: Pulse)
      requires Valid() && state.IDLE?
      modifies this`state, this`reasonLat, this`slotLat, this`pendValid, this`pendReason, this`pendSlot, this`log
      ensures Valid()
      ensures log == old(log).(triggers := log.triggers, begun := log.begun)
      ensures log.triggers == old(log).Arrive(pulse).triggers
      ensures state == if old(pendValid) || pulse.Start? then FETCH_NS else IDLE
      ensures pendValid <==> old(pendValid) && pulse.Start?
    {
      if pendValid {
        BeginPending(log, Trigger(reasonLat, slotLat), Trigger(pendReason, pendSlot), pulse);
        log := log.Begin(|log.triggers| - 1).Arrive(pulse);
        reasonLat, slotLat, pendValid, state := pendReason, pendSlot, false, FETCH_NS;
        if pulse.Start? {
          pendReason, pendSlot, pendValid := pulse.t.reason, pulse.t.slot, true;
        }
      } else if pulse.Start? {
        BeginFresh(log, Trigger(reasonLat, slotLat), pulse.t);
        log := log.Arrive(pulse).Begin(|log.triggers|);
        reasonLat, slotLat, state := pulse.t.reason, pulse.t.slot, FETCH_NS;
      }
    }

    /** The busy states, but for a trigger arriving in the same clock. */
    method Advance(answer: Answer)
      requires Valid() && !state.IDLE?
      modifies this`state, this`handlerBase, this`methodEntry, this`dr0, this`dr1, this`log
      ensures Valid()
      ensures log == NextLog(old(log), old(state), answer, Delivery(old(dr0), old(dr1), old(Nia())))
      ensures state == NextState(old(state), answer)
      ensures handlerBase == if old(state.FETCH_NS?) && answer.Data? then answer.word else old(handlerBase)
      ensures methodEntry == if old(state.FETCH_METHOD?) && answer.Data? then answer.word else old(methodEntry)
    {
      if state.FETCH_NS? || state.FETCH_METHOD? {
        Fetch(answer);
      } else {
        Write();
      }
    }

    method Fetch(answer: Answer)
      requires Valid() && (state.FETCH_NS? || state.FETCH_METHOD?)
      modifies this`state, this`handlerBase, this`methodEntry, this`log
      ensures Valid() && state == NextState(old(state), answer)
      ensures log == NextLog(old(log), old(state), answer, Delivery(0, 0, 0))
      ensures handlerBase == if old(state.FETCH_NS?) && answer.Data? then answer.word else old(handlerBase)
      ensures methodEntry == if old(state.FETCH_METHOD?) && answer.Data? then answer.word else old(methodEntry)
    {
      if answer.Data? {
        if state.FETCH_METHOD? {
          methodEntry, state := answer.word, WRITE_DR0;
        } else {
          handlerBase, state := answer.word, FETCH_METHOD;
          if answer.word == 0 {
            NullKeeps(log, Trigger(reasonLat, slotLat), Pending());
            state, log := NULL_BASE_FAULT, log.(nullBases := log.nullBases + 1);
          }
        }
      }
    }

    method Write()
      requires Valid() && state in {WRITE_DR0, WRITE_DR1, COMPLETE, NULL_BASE_FAULT}
      modifies this`state, this`dr0, this`dr1, this`log
      ensures Valid() && state == NextState(old(state), NotYet)
      ensures log == NextLog(old(log), old(state), NotYet, Delivery(old(dr0), old(dr1), old(Nia())))
    {
      ghost var lat := Trigger(reasonLat, slotLat);
      if state.WRITE_DR0? {
        dr0, state := reasonLat, WRITE_DR1;
      } else if state.WRITE_DR1? {
        dr1, state := slotLat, COMPLETE;
      } else if state.COMPLETE? {
        DeliverKeeps(log, lat, Pending(), Nia());
        log := log.Deliver(Delivery(dr0, dr1, Nia()));
        state := IDLE;
      } else {
        NullKeeps(log, lat, Pending());
        state := IDLE;
      }
    }

    ghost function Left(): nat
      reads this`state, this`pendValid
    {
      (if pendValid then 10 else 0) +
      match state
      case FETCH_NS => 5
      case FETCH_METHOD => 4
      case WRITE_DR0 => 3
      case WRITE_DR1 => 2
      case COMPLETE => 1
      case NULL_BASE_FAULT => 1
      case IDLE => 0
    }

    /** What the unit has fetched so far, it has fetched from this memory. */
    ghost predicate Fetches(mem: seq<Word>)
      reads this
    {
      && (state in {FETCH_METHOD, WRITE_DR0, WRITE_DR1, COMPLETE} ==> handlerBase == HandlerLump(mem, nsBase))
      && (state in {WRITE_DR0, WRITE_DR1, COMPLETE} ==>
            methodEntry == ReadAt(mem, (HandlerLump(mem, nsBase) + 20) % 0x1_0000_0000))
    }

    /** Once the pulses stop, a unit that never met a null handler base delivers every trigger
        it began, and the latest one last, however the memory delays its answers: `answered`
        tells of any number of clocks, and after them each read is answered.  Every delivery enters
        the handler where the memory's method table says. */
    method Drain(mem: seq<Word>, answered: seq<bool>)
      requires Valid() && log.nullBases == 0
      requires ReadAt(mem, Plus(nsBase, IRQ_NS_SLOT * 16)) != 0
      modifies this
      ensures Subsequence(log) && log.triggers == old(log).triggers
      ensures old(log).delivered <= log.delivered && old(log).out <= log.out
      ensures log.triggers != [] ==> log.delivered != [] && Last(log.delivered) == |log.triggers| - 1
      ensures old(Fetches(mem)) ==>
        forall k :: |old(log).out| <= k < |log.out| ==> log.out[k].nia == HandlerEntry(mem, nsBase)
    {
      hide Good, Subsequence, LastWins;
      var rest := answered;
      while !state.IDLE? || pendValid
        invariant Valid() && log.triggers == old(log).triggers && log.nullBases == 0
        invariant old(log).delivered <= log.delivered && old(log).out <= log.out
        invariant old(Fetches(mem)) ==> Fetches(mem)
        invariant old(Fetches(mem)) ==>
          forall k :: |old(log).out| <= k < |log.out| ==> log.out[k].nia == HandlerEntry(mem, nsBase)
        decreases |rest|, Left()
      {
        var answer := if rest == [] || rest[0] then Data(ReadAt(mem, Address())) else NotYet;
        rest := if rest == [] then [] else rest[1..];
        Step(Quiet, answer);
      }
      Drained();
    }

    lemma Drained()
      requires Valid() && log.nullBases == 0 && state.IDLE? && !pendValid
      ensures Subsequence(log)
      ensures log.triggers != [] ==> log.delivered != [] && Last(log.delivered) == |log.triggers| - 1
    {
    }
  }
}
