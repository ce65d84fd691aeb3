/** The Thread body: header, register homes, protected stack offset, heap, downward stack and
    capability homes, with the frame word all units share. */
module Thread {
  import opened Bits
  import opened Fields

  const STO_OFFSET := 17
  const HEAP_OFFSET := 18
  const CAP_WORDS := 12
  const DR_WORDS := 16
  const POISON_PC := 0x7FFF

  // ---- frame and indicator words: sto[11:0] sz[12] pc[27:13] flags[31:28]

  function Sto(w: Word): nat { w % 0x1000 }
  function Sz(w: Word): bool { w / 0x1000 % 2 == 1 }
  function Pc(w: Word): nat { w / 0x2000 % 0x8000 }
  function Flags(w: Word): nat { w / 0x1000_0000 }

  function Frame(sto: nat, sz: bool, pc: nat, flags: nat): (w: Word)
    requires sto < 0x1000 && pc < 0x8000 && flags < 16
  {
    sto + Bit(sz) * 0x1000 + pc * 0x2000 + flags * 0x1000_0000
  }

  lemma FrameFields(sto: nat, sz: bool, pc: nat, flags: nat)
    requires sto < 0x1000 && pc < 0x8000 && flags < 16
    ensures var w := Frame(sto, sz, pc, flags); Sto(w) == sto && Sz(w) == sz && Pc(w) == pc && Flags(w) == flags
  {
  }

  lemma FrameBounds(w: Word)
    ensures Sto(w) < 0x1000 && Pc(w) < 0x8000 && Flags(w) < 16
  {
  }

  // ---- geometry

  function BodyWords(h: Word): nat {
    LumpWords(HdrN(h))
  }

  /** Word offset of the first capability home. */
  function Caps(h: Word): int {
    BodyWords(h) - CAP_WORDS
  }

  /** Word offset of the stack floor. */
  function StackLo(h: Word): int {
    Caps(h) - HdrCw(h)
  }

  /** A Thread header every unit accepts: sizes 256 to 8192, a stack and a heap. */
  predicate ThreadHeader(h: Word) {
    && HdrMagic(h) == MAGIC && HdrType(h) == 2 && 2 <= HdrN(h) <= 7 && HdrCc(h) == CAP_WORDS
    && 0 < HdrCw(h) < BodyWords(h) - 30
  }

  lemma Geometry(h: Word)
    requires ThreadHeader(h)
    ensures 256 <= BodyWords(h) <= 8192 && HEAP_OFFSET < StackLo(h) < Caps(h) == BodyWords(h) - 12
  {
  }

  /** The E token every unit derives from a code or c-list token. */
  function EGt(gt: Word): (r: Word) {
    gt % 0x800_0000 + 0x4800_0000 + gt / 0x8000_0000 * 0x8000_0000
  }

  predicate EntersOnly(gt: Word) {
    GtChurch(gt) && GtPerm(gt, E) && !GtPerm(gt, S) && !GtPerm(gt, L)
  }

  lemma EGtEnters(gt: Word)
    ensures EntersOnly(EGt(gt)) && GtSlot(EGt(gt)) == GtSlot(gt) && GtSeq(EGt(gt)) == GtSeq(gt)
    ensures GtType(EGt(gt)) == GtType(gt) && GtBound(EGt(gt)) == GtBound(gt)
  {
    var lo, b := gt % 0x800_0000, gt / 0x8000_0000;
    IdentityFields(gt, lo, gt / 0x800_0000);
    IdentityFields(EGt(gt), lo, 9 + 16 * b);
    AccessFields(lo, b);
  }

  /** Slot, version and type lie in the low 27 bits. */
  lemma IdentityFields(w: Word, lo: nat, k: nat)
    requires lo < 0x800_0000 && w == lo + k * 0x800_0000
    ensures GtSlot(w) == GtSlot(lo) && GtSeq(w) == GtSeq(lo) && GtType(w) == GtType(lo)
  {
    var hi := lo / 0x1_0000;
    DivModUnique(w, 0x1_0000, hi + k * 0x800, lo % 0x1_0000);
    DivModUnique(hi + k * 0x800, 0x200, hi / 0x200 + k * 4, hi % 0x200);
    DivModUnique(w, 0x200_0000, lo / 0x200_0000 + k * 4, lo % 0x200_0000);
  }

  lemma AccessFields(lo: nat, b: nat)
    requires lo < 0x800_0000 && b < 2
    ensures var w := lo + 0x4800_0000 + b * 0x8000_0000; EntersOnly(w) && GtBound(w) == (b == 1)
  {
  }

  /** Word 17 and the top frame of a body that has never run. */
  function RootIndicator(caps: nat): Word
    requires 3 <= caps < 0x2000
  {
    Frame((caps - 3) % 0x1000, true, 0, 0)
  }

  function RootFrame(caps: nat): Word
    requires 3 <= caps < 0x2000
  {
    Frame((caps - 1) % 0x1000, true, POISON_PC, 0)
  }
}
