/** LAMBDA: a call inside the current code window, pushing one frame word. */
module LambdaUnit {
  import opened Bits
  import opened Change
  import opened Checks
  import opened Fields
  import opened FrameChain
  import opened Memory
  import opened Thread

  predicate HasX(gt: Word) {
    !GtChurch(gt) && GtPerm(gt, 2)
  }

  /** A byte address inside the window of a code capability. */
  predicate InWindow(code: Cap, address: Word) {
    code.location <= address <= code.location + AuthLimit(code.authority) * 4
  }

  /** The stack floor, in twenty-two bits. */
  function Floor(h: Word): nat {
    (BodyWords(h) - CAP_WORDS - HdrCw(h)) % 0x40_0000
  }

  /** Neither the entry nor the continuation may leave the current code. */
  predicate ContextOk(target: Cap, code: Cap, continuation: Word, h: Word) {
    && GtType(target.gt) == GT_INFORM && GtType(code.gt) == GT_INFORM && HasX(code.gt)
    && HdrMagic(h) == MAGIC && HdrType(h) == 2 && HdrN(h) <= 6 && HdrCw(h) != 0 && Floor(h) > STO_OFFSET
    && InWindow(code, target.location) && InWindow(code, continuation) && continuation % 4 == 0
    && (continuation - code.location) / 4 < POISON_PC && target.location % 4 == 0
  }

  function CheckTarget(target: Cap, code: Cap, continuation: Word, h: Word): Checked<nat> {
    if GtType(target.gt) == GT_NULL then Deny(F_NULL_CAP)
    else if !HasX(target.gt) then Deny(F_PERM_X)
    else if !ContextOk(target, code, continuation, h) then Deny(F_BOUNDS)
    else Accept((continuation - code.location) / 4)
  }

  predicate StackOk(h: Word, indicator: Word) {
    Pc(indicator) == 0 && Floor(h) + 1 < Sto(indicator) <= BodyWords(h) - 13
  }

  /** The frame word, and word 17. */
  function LambdaStores(at: nat, sto: nat, sz: bool, pc: nat, flags: nat): seq<Store>
    requires 1 <= sto < 0x1000 && pc < 0x8000 && flags < 16
  {
    [Store(at + sto, Frame(sto, sz, pc, flags)), Store(at + STO_OFFSET, Frame(sto - 1, false, 0, flags))]
  }

  class ChurchLambda {
    const mem: Dmem
    var nia: Word

    constructor (mem: Dmem)
      ensures this.mem == mem
    {
      this.mem, nia := mem, 0;
    }

    /** Pushes the continuation and jumps, or faults with memory and program counter as they were. */
    method Run(target: Cap, code: Cap, continuation: Word, flags: nat, base: Word, h: Word)
      returns (r: Checked<nat>)
      requires mem.cells.Length == ADDRESS_SPACE && flags < 16
      requires base % 4 == 0 && base / 4 + BodyWords(h) <= ADDRESS_SPACE
      modifies this`nia, mem.cells, mem`log
      ensures r.Accept? <==> CheckTarget(target, code, continuation, h).Accept?
                             && StackOk(h, old(mem.cells[..])[base / 4 + STO_OFFSET])
      ensures r.Deny? ==> mem.cells[..] == old(mem.cells[..]) && mem.log == old(mem.log) && nia == old(nia)
      ensures r.Accept? ==>
        var w := old(mem.cells[..])[base / 4 + STO_OFFSET];
        && CheckTarget(target, code, continuation, h) == r && STO_OFFSET < Sto(w) - 1
        && base / 4 + Sto(w) < ADDRESS_SPACE && r.value < POISON_PC
        && mem.cells[..] == PushLambda(old(mem.cells[..]), base / 4, Sto(w), Sz(w), r.value, flags)
        && mem.log == old(mem.log) + LambdaStores(base / 4, Sto(w), Sz(w), r.value, flags)
        && nia == target.location
    {
      r := CheckTarget(target, code, continuation, h);
      if r.Accept? {
        WordOffset(base, STO_OFFSET);
        var indicator := mem.Read((base + STO_OFFSET * 4) % 0x1_0000_0000);
        if !StackOk(h, indicator) {
          return Deny(F_BOUNDS);
        }
        Push(base, indicator, r.value, flags);
        nia := target.location;
      }
    }

    method Push(base: Word, indicator: Word, pc: nat, flags: nat)
      requires mem.cells.Length == ADDRESS_SPACE && flags < 16 && pc < 0x8000 && base % 4 == 0
      requires STO_OFFSET < Sto(indicator) - 1 && base / 4 + Sto(indicator) < ADDRESS_SPACE
      modifies mem.cells, mem`log
      ensures mem.cells[..] == PushLambda(old(mem.cells[..]), base / 4, Sto(indicator), Sz(indicator), pc, flags)
      ensures mem.log == old(mem.log) + LambdaStores(base / 4, Sto(indicator), Sz(indicator), pc, flags)
    {
      var sto := Sto(indicator);
      WordOffset(base, sto);
      WordOffset(base, STO_OFFSET);
      mem.Write((base + sto * 4) % 0x1_0000_0000, Frame(sto, Sz(indicator), pc, flags));
      mem.Write((base + STO_OFFSET * 4) % 0x1_0000_0000, Frame(sto - 1, false, 0, flags));
    }
  }

  /** LAMBDA is admitted exactly with the right to execute, of the target and of the current code, a
      Thread header of at most 4096 words with a stack above word 17, and entry and continuation on
      word boundaries inside CR14's window, the continuation not at the poison return address. */
  lemma LambdaStaysInCode(target: Cap, code: Cap, continuation: Word, h: Word)
    ensures CheckTarget(target, code, continuation, h).Accept? <==>
      && GtType(target.gt) == GT_INFORM && !GtChurch(target.gt) && GtPerm(target.gt, 2)
      && GtType(code.gt) == GT_INFORM && !GtChurch(code.gt) && GtPerm(code.gt, 2)
      && HdrMagic(h) == 0x1F && HdrType(h) == 2 && HdrN(h) <= 6 && HdrCw(h) != 0 && Floor(h) > 17
      && 0 <= target.location - code.location <= AuthLimit(code.authority) * 4
      && 0 <= continuation - code.location <= AuthLimit(code.authority) * 4
      && target.location % 4 == 0 && continuation % 4 == 0 && (continuation - code.location) / 4 < 0x7FFF
  {
    hide HdrMagic, HdrType, HdrN, HdrCw, Floor, GtType, GtChurch, GtPerm, AuthLimit;
  }

  /** LAMBDA's stack bounds are those of the chain. */
  lemma StackIsChain(m: seq<Word>, at: nat, h: Word, pc: nat, flags: nat)
    requires |m| == ADDRESS_SPACE && ThreadHeader(h) && at + BodyWords(h) <= |m| && HdrN(h) <= 6
    ensures StackOk(h, m[at + STO_OFFSET]) <==> Admits(m, at, h, FrameChain.Lambda(pc, flags))
  {
    Geometry(h);
  }

  /** A LAMBDA with room leaves the stack it found with its continuation on top. */
  lemma LambdaPushesChain(m: seq<Word>, at: nat, h: Word, ks: seq<Kont>, pc: nat, flags: nat)
    requires Holds(m, at, h, ks) && StackOk(h, m[at + STO_OFFSET]) && pc < 0x8000 && flags < 16
    ensures var w := m[at + STO_OFFSET];
      && STO_OFFSET < Sto(w) - 1 && at + Sto(w) < |m|
      && Holds(PushLambda(m, at, Sto(w), Sz(w), pc, flags), at, h, [Kont(false, pc, flags, 0)] + ks)
  {
    hide StackOk, Chain, Sto, Sz, Pc;
    SmallBody(h);
    StackIsChain(m, at, h, pc, flags);
    Geometry(h);
    LambdaKeeps(m, at, h, ks, FrameChain.Lambda(pc, flags));
  }
}
