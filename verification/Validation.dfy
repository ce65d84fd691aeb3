/** mLoad as CHANGE uses it for a home: a direct token, resolved and checked clock by clock,
    with nothing written. */
module Validation {
  import opened Bits
  import opened Fields
  import opened Memory
  import opened MLoad
  import opened NsGate

  const HOME_REQUEST := Request(0, 0, 0, true, 0, false, true, false, false)

  datatype LoadState = LOAD_IDLE | FETCH_SRC | CHECK_NS | START_GATE | WAIT_GATE | VALIDATE_COMPLETE | LOAD_FAULT

  class ValidateOnly {
    const resident: bool
    const gate: ChurchNSGate
    var state: LoadState
    var gt: Word
    var ns: Cap
    var result: Cap
    var faultType: int

    constructor (resident: bool)
      ensures fresh(gate) && gate.state == IDLE && state == LOAD_IDLE && this.resident == resident
    {
      this.resident := resident;
      gate := new ChurchNSGate();
      state, gt, ns, result, faultType := LOAD_IDLE, 0, NULL_CAP_REG, NULL_CAP_REG, 0;
    }

    predicate Settled()
      reads this`state
    {
      state in {LOAD_IDLE, VALIDATE_COMPLETE, LOAD_FAULT}
    }

    /** What the load will find of the token. */
    ghost function Verdict(m: seq<Word>): Outcome
      reads this
    {
      ResolveToken(HOME_REQUEST, gt, ns, EntryAt(m, Plus(ns.location, GtSlot(gt) * 16)), resident)
    }

    ghost predicate Follows(m: seq<Word>)
      reads this, gate
    {
      && (state == WAIT_GATE ==> gate.Follows(m, false) && gate.gtLatched == gt && gate.nsBase == ns.location)
      && (state != WAIT_GATE ==> gate.state == IDLE)
      && (state in {START_GATE, WAIT_GATE} ==> SlotInBounds(gt, ns, resident))
      && (state == VALIDATE_COMPLETE ==> Verdict(m) == Validated(result))
      && (state == LOAD_FAULT ==> Verdict(m) == Faulted(faultType))
    }

    ghost predicate Answers(m: seq<Word>, valid: bool, data: Word)
      reads this, gate
    {
      state == WAIT_GATE ==> gate.Answers(m, valid, data)
    }

    ghost function Left(): nat
      reads this, gate
    {
      match state
      case FETCH_SRC => 13
      case CHECK_NS => 12
      case START_GATE => 11
      case WAIT_GATE => gate.Left() + 1
      case _ => 0
    }

    method Start(gt: Word, ns: Cap)
      requires state == LOAD_IDLE && gate.state == IDLE
      modifies this
      ensures state == FETCH_SRC && this.gt == gt && this.ns == ns
      ensures forall m :: Follows(m)
    {
      this.gt, this.ns, result, faultType, state := gt, ns, NULL_CAP_REG, 0, FETCH_SRC;
    }

    /** One clock: the register file and memory are only read. */
    method Clock(ghost m: seq<Word>, valid: bool, data: Word)
      requires Follows(m) && !Settled() && Answers(m, valid, data)
      modifies this`state, this`result, this`faultType, gate
      ensures Follows(m) && state != LOAD_IDLE
      ensures Left() <= old(Left())
      ensures valid || !old(state == WAIT_GATE && gate.RdEn() && gate.rdArmed) ==> Left() < old(Left())
    {
      match state
      case FETCH_SRC =>
        state := CHECK_NS;
      case CHECK_NS =>
        if SlotInBounds(gt, ns, resident) {
          state := START_GATE;
        } else {
          state, faultType := LOAD_FAULT, F_BOUNDS;
        }
      case START_GATE =>
        gate.Start(gt, ns.location);
        state := WAIT_GATE;
      case WAIT_GATE =>
        if gate.Settled() {
          Conclude(m);
        } else {
          gate.Clock(m, false, valid, data);
        }
    }

    method Conclude(ghost m: seq<Word>)
      requires Follows(m) && state == WAIT_GATE && gate.Settled()
      modifies this`state, this`result, this`faultType, gate
      ensures Follows(m) && (state == VALIDATE_COMPLETE || state == LOAD_FAULT)
    {
      var e := Entry(gate.rawBase, gate.rawW2, gate.rawIntegrity, gate.cacheToken);
      if gate.state == FAULT {
        state, faultType := LOAD_FAULT, gate.faultType;
      } else if InvalidDescriptor(e, resident) {
        state, faultType := LOAD_FAULT, F_BOUNDS;
      } else {
        result, state := Cap(gt, ResolvedBase(e, resident), e.authority), VALIDATE_COMPLETE;
      }
      gate.Step(false, false, 0);
    }

    /** The clock after the answer. */
    method Settle()
      requires state in {VALIDATE_COMPLETE, LOAD_FAULT}
      modifies this`state
      ensures state == LOAD_IDLE
    {
      state := LOAD_IDLE;
    }
  }
}
