/** The namespace integrity gate: its decision on an entry, and the clocked fetch machine
    that reads the entry over a read bus shared with other masters. */
module NsGate {
  import opened Bits
  import opened Fields
  import opened Integrity
  import opened Memory

  /** The four words of a namespace entry. */
  datatype Entry = Entry(location: Word, authority: Word, integrity: Word, token: Word)

  predicate SealOk(e: Entry) {
    Integrity32(e.location, e.authority) == e.integrity
  }

  datatype Verdict = Pass | Refuse(fault: int)

  function Decide(e: Entry, gt: Word, elevated: bool): Verdict {
    if elevated then Pass
    else if GtSeq(gt) != AuthSeq(e.authority) then Refuse(F_VERSION)
    else if !SealOk(e) then Refuse(F_SEAL)
    else Pass
  }

  /** After a change to one of its sealed words, an entry that passed still passes exactly
      when the change touched nothing but the G and F bits. */
  lemma TamperRefused(e: Entry, f: Entry, gt: Word)
    requires Decide(e, gt, false) == Pass
    requires (f.location == e.location && f.authority == e.authority)
          || (f.location == e.location && f.integrity == e.integrity)
          || (f.authority == e.authority && f.integrity == e.integrity)
    ensures Decide(f, gt, false) == Pass <==>
      f.location == e.location && Sealed(f.authority) == Sealed(e.authority) && f.integrity == e.integrity
  {
    if f.authority != e.authority {
      AuthorityTamper(e, f.authority, gt);
      assert f == e.(authority := f.authority, token := f.token);
    } else if f.location != e.location {
      LocationTamper(e, f.location);
    }
  }

  lemma LocationTamper(e: Entry, x: Word)
    requires SealOk(e) && x != e.location
    ensures Integrity32(x, e.authority) != e.integrity
  {
    if Integrity32(x, e.authority) == e.integrity {
      LocationInjective(e.location, x, e.authority);
    }
  }

  lemma AuthorityTamper(e: Entry, x: Word, gt: Word)
    requires SealOk(e) && GtSeq(gt) == AuthSeq(e.authority)
    ensures Integrity32(e.location, x) == e.integrity <==> Sealed(x) == Sealed(e.authority)
    ensures Sealed(x) == Sealed(e.authority) ==> GtSeq(gt) == AuthSeq(x)
  {
    AuthorityInjective(e.location, e.authority, x);
    if Sealed(x) == Sealed(e.authority) {
      SeqIsSealed(e.authority, x);
    }
  }

  /** The version is among the sealed bits. */
  lemma SeqIsSealed(x: Word, y: Word)
    requires Sealed(x) == Sealed(y)
    ensures AuthSeq(x) == AuthSeq(y) && AuthLimit(x) == AuthLimit(y)
  {
    SeqOfSealed(x);
    SeqOfSealed(y);
  }

  lemma SeqOfSealed(x: Word)
    ensures AuthSeq(x) == Sealed(x) / 0x20_0000 && AuthLimit(x) == Sealed(x) % 0x20_0000
  {
  }

  // ---- the shared bus

  function EntryAt(mem: seq<Word>, address: Word): Entry {
    Entry(ReadAt(mem, address), ReadAt(mem, Plus(address, 4)), ReadAt(mem, Plus(address, 8)),
          ReadAt(mem, Plus(address, 12)))
  }

  /** Valid and data of a read come one clock after its enable, whoever raised it. */
  class ReadBus {
    const mem: seq<Word>
    var rdValid: bool
    var rdData: Word

    constructor (mem: seq<Word>, rdValid: bool, rdData: Word)
      ensures this.mem == mem && this.rdValid == rdValid && this.rdData == rdData
    {
      this.mem, this.rdValid, this.rdData := mem, rdValid, rdData;
    }

    method Clock(enable: bool, address: Word)
      modifies this
      ensures rdValid == enable && rdData == ReadAt(mem, address)
    {
      rdValid, rdData := enable, ReadAt(mem, address);
    }
  }

  datatype State = IDLE | FETCH_LOC | FETCH_W1 | FETCH_W2 | CHECK_INTEGRITY | FETCH_W3 | DONE | FAULT

  class ChurchNSGate {
    var nsBase: Word
    var state: State
    var gtLatched: Word
    var rdArmed: bool
    var rawBase: Word
    var rawW2: Word
    var rawIntegrity: Word
    var cacheToken: Word
    var faultType: int

    constructor ()
      ensures state == IDLE
    {
      state, nsBase, gtLatched, rdArmed := IDLE, 0, 0, false;
      rawBase, rawW2, rawIntegrity, cacheToken, faultType := 0, 0, 0, 0, 0;
    }

    function EntryAddress(): Word
      reads this`gtLatched, this`nsBase
    {
      Plus(nsBase, GtSlot(gtLatched) * 16)
    }

    predicate RdEn()
      reads this`state
    {
      state in {FETCH_LOC, FETCH_W1, FETCH_W2, FETCH_W3}
    }

    function Address(): Word
      reads this`state, this`gtLatched, this`nsBase
    {
      match state
      case FETCH_W1 => Plus(EntryAddress(), 4)
      case FETCH_W2 => Plus(EntryAddress(), 8)
      case FETCH_W3 => Plus(EntryAddress(), 12)
      case _ => EntryAddress()
    }

    /** One clock edge with `start` low: every read state discards its first valid. */
    method Step(elevated: bool, rdValid: bool, rdData: Word)
      modifies this`state, this`rdArmed, this`rawBase, this`rawW2, this`rawIntegrity, this`cacheToken, this`faultType
      ensures old(RdEn()) && !(rdValid && old(rdArmed)) ==>
        && rdArmed && state == old(state) && unchanged(`rawBase, `rawW2, `rawIntegrity, `cacheToken)
      ensures old(RdEn()) && rdValid && old(rdArmed) ==> !rdArmed && match old(state)
        case FETCH_LOC => state == FETCH_W1 && rawBase == rdData && unchanged(`rawW2, `rawIntegrity, `cacheToken)
        case FETCH_W1 => state == FETCH_W2 && rawW2 == rdData && unchanged(`rawBase, `rawIntegrity, `cacheToken)
        case FETCH_W2 => state == CHECK_INTEGRITY && rawIntegrity == rdData && unchanged(`rawBase, `rawW2, `cacheToken)
        case _ => state == DONE && cacheToken == rdData && unchanged(`rawBase, `rawW2, `rawIntegrity)
      ensures old(state) == CHECK_INTEGRITY ==>
        && rdArmed == old(rdArmed) && unchanged(`rawBase, `rawW2, `rawIntegrity, `cacheToken)
        && match Decide(Entry(rawBase, rawW2, rawIntegrity, 0), gtLatched, elevated)
           case Pass => state == FETCH_W3
           case Refuse(f) => state == FAULT && faultType == f
      ensures old(Settled()) ==> state == IDLE
    {
      if RdEn() && !(rdValid && rdArmed) {
        rdArmed := true;
      } else if state == FETCH_LOC {
        rawBase, rdArmed, state := rdData, false, FETCH_W1;
      } else if state == FETCH_W1 {
        rawW2, rdArmed, state := rdData, false, FETCH_W2;
      } else if state == FETCH_W2 {
        rawIntegrity, rdArmed, state := rdData, false, CHECK_INTEGRITY;
      } else if state == CHECK_INTEGRITY {
        if elevated {
          state := FETCH_W3;
        } else if GtSeq(gtLatched) != AuthSeq(rawW2) {
          state, faultType := FAULT, F_VERSION;
        } else if Integrity32(rawBase, rawW2) != rawIntegrity {
          state, faultType := FAULT, F_SEAL;
        } else {
          state := FETCH_W3;
        }
      } else if state == FETCH_W3 {
        cacheToken, rdArmed, state := rdData, false, DONE;
      } else {
        state := IDLE;
      }
    }

    /** The namespace base and the token stay wired in until the gate answers. */
    method Start(gt: Word, nsBase: Word)
      requires state == IDLE
      modifies this
      ensures state == FETCH_LOC && gtLatched == gt && this.nsBase == nsBase && !rdArmed
    {
      this.nsBase, gtLatched, rawBase, rawW2, cacheToken, rawIntegrity := nsBase, gt, 0, 0, 0, 0;
      faultType, rdArmed, state := 0, false, FETCH_LOC;
    }

    /** Latched words are those of the entry in memory. */
    ghost predicate Follows(m: seq<Word>, elevated: bool)
      reads this
    {
      var e := EntryAt(m, EntryAddress());
      && state != IDLE
      && (state == CHECK_INTEGRITY ==> !rdArmed)
      && (state != FETCH_LOC ==> rawBase == e.location)
      && (state != FETCH_LOC && state != FETCH_W1 ==> rawW2 == e.authority)
      && (state in {CHECK_INTEGRITY, FETCH_W3, DONE, FAULT} ==> rawIntegrity == e.integrity)
      && (state in {FETCH_W3, DONE} ==> Decide(e, gtLatched, elevated) == Pass)
      && (state == DONE ==> cacheToken == e.token)
      && (state == FAULT ==> Decide(e, gtLatched, elevated) == Refuse(faultType))
    }

    /** A valid word that the gate would accept answers its own address. */
    ghost predicate Answers(m: seq<Word>, rdValid: bool, rdData: Word)
      reads this
    {
      RdEn() && rdArmed && rdValid ==> rdData == ReadAt(m, Address())
    }

    predicate Settled()
      reads this`state
    {
      state in {IDLE, DONE, FAULT}
    }

    /** Clocks still to go before the gate answers, if it passes. */
    ghost function Left(): nat
      reads this
    {
      match state
      case FETCH_LOC => if rdArmed then 8 else 9
      case FETCH_W1 => if rdArmed then 6 else 7
      case FETCH_W2 => if rdArmed then 4 else 5
      case CHECK_INTEGRITY => 3
      case FETCH_W3 => if rdArmed then 1 else 2
      case _ => 0
    }

    /** One clock on a memory that answers when it likes. */
    method Clock(ghost m: seq<Word>, elevated: bool, rdValid: bool, rdData: Word)
      requires Follows(m, elevated) && !Settled() && Answers(m, rdValid, rdData)
      modifies this`state, this`rdArmed, this`rawBase, this`rawW2, this`rawIntegrity, this`cacheToken, this`faultType
      ensures Follows(m, elevated)
      ensures Left() <= old(Left())
      ensures rdValid || old(!RdEn() || !rdArmed) ==> Left() < old(Left())
    {
      Step(elevated, rdValid, rdData);
    }

    /** Resolves one token while holding the bus.  Whatever another master left on the bus,
        and whatever it drives in the start clock, the gate latches the four words of its own
        entry and decides on them, in nine clocks, or seven when it refuses. */
    method Resolve(bus: ReadBus, gt: Word, nsBase: Word, elevated: bool, otherEnable: bool, otherAddress: Word)
      returns (clocks: nat)
      requires state == IDLE
      modifies this, bus
      ensures gtLatched == gt && this.nsBase == nsBase
      ensures var e := EntryAt(bus.mem, Plus(nsBase, GtSlot(gt) * 16));
        match Decide(e, gt, elevated)
        case Pass => state == DONE && clocks == 9 && Entry(rawBase, rawW2, rawIntegrity, cacheToken) == e
        case Refuse(f) => state == FAULT && faultType == f && clocks == 7
    {
      Start(gt, nsBase);
      bus.Clock(otherEnable, otherAddress);
      clocks := 0;
      while state != DONE && state != FAULT
        invariant gtLatched == gt && this.nsBase == nsBase && Follows(bus.mem, elevated)
        invariant RdEn() && rdArmed ==> bus.rdValid && bus.rdData == ReadAt(bus.mem, Address())
        invariant clocks + Left() == if state == FAULT then 7 else 9
        decreases Left()
      {
        var enable, address := RdEn(), Address();
        var valid, data := bus.rdValid, bus.rdData;
        bus.Clock(enable, address);
        Step(elevated, valid, data);
        clocks := clocks + 1;
      }
    }
  }
}
