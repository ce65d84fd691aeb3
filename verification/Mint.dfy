/** Mint: checks a downloaded lump, publishes its namespace entry, copies its c-list and
    hands out an E token for it. */
module Mint {
  import opened Bits
  import opened Fields
  import opened Integrity
  import opened MLoad
  import opened MSave
  import opened Memory
  import opened NsGate

  const SCAN_MODULUS := 0x4000

  predicate HeaderOk(h: Word) {
    && HdrMagic(h) == MAGIC && HdrN(h) <= 8
    && HdrCc(h) <= LumpWords(HdrN(h)) - 2
    && HdrCw(h) <= LumpWords(HdrN(h)) - HdrCc(h) - 2
  }

  /** Word `i` of the lump at byte address `base`. */
  function LumpWord(m: seq<Word>, base: Word, i: nat): Word {
    ReadAt(m, Plus(base, i * 4))
  }

  /** The header checks in one: magic, a lump of at most 16384 words, and room for header, code,
      c-list and one word between them. */
  lemma HeaderOkIsRoom(h: Word)
    ensures HeaderOk(h) <==>
      && HdrMagic(h) == 0x1F && HdrN(h) <= 8 && 1 + HdrCw(h) + 1 + HdrCc(h) <= LumpWords(HdrN(h))
  {
    hide HdrMagic, HdrN, HdrCw, HdrCc;
  }

  /** The words between code and c-list are zero. */
  ghost predicate FreeSpaceZero(m: seq<Word>, base: Word, h: Word)
    requires HeaderOk(h)
  {
    forall i :: HdrCw(h) < i < LumpWords(HdrN(h)) - HdrCc(h) ==> LumpWord(m, base, i) == 0
  }

  /** The scan index is 14 bits wide, so it never passes the last word of a lump of 16384
      words without a c-list. */
  predicate ScanEnds(h: Word) {
    !(HdrN(h) == 8 && HdrCc(h) == 0)
  }

  function PublishedGt(slot: nat): (gt: Word)
    requires slot < 0x1_0000
  {
    0x4000_0000 + 0x800_0000 + 0x200_0000 + 0x1_0000 + slot
  }

  function PublishedAuthority(size: nat): (a: Word)
    requires 1 <= size <= 16384
  {
    0x20_0000 + size - 1
  }

  function PublishedEntry(base: Word, size: nat, slot: nat): Entry
    requires 1 <= size <= 16384 && slot < 0x1_0000
  {
    IntegrityIsWord(base, PublishedAuthority(size));
    Entry(base, PublishedAuthority(size), Integrity32(base, PublishedAuthority(size)), PublishedGt(slot))
  }

  /** A header the checks accept but the scan never passes, whatever the free space holds. */
  lemma LargestLumpRefused()
    ensures HeaderOk(0xFC00_0000) && LumpWords(HdrN(0xFC00_0000)) == 16384 && !ScanEnds(0xFC00_0000)
  {
  }

  /** Word index of the c-list rows of a slot. */
  function RowBase(slot: nat): nat {
    (slot + 3) * 64
  }

  /** The first `k` c-list words of the lump, copied to the slot's rows. */
  function CopiedRows(c: seq<Word>, slot: nat, m: seq<Word>, base: Word, from: nat, k: nat): (r: seq<Word>)
    requires slot < 0x1_0000 && |c| == ADDRESS_SPACE && k <= 0x100
    ensures |r| == |c|
  {
    if k == 0 then c
    else CopiedRows(c, slot, m, base, from, k - 1)[RowBase(slot) + k - 1 := LumpWord(m, base, from + k - 1)]
  }

  lemma {:induction false} CopiedRowsAt(c: seq<Word>, slot: nat, m: seq<Word>, base: Word, from: nat, k: nat, j: nat)
    requires slot < 0x1_0000 && |c| == ADDRESS_SPACE && k <= 0x100 && j < |c|
    ensures CopiedRows(c, slot, m, base, from, k)[j]
         == if RowBase(slot) <= j < RowBase(slot) + k then LumpWord(m, base, from + (j - RowBase(slot))) else c[j]
  {
    if k > 0 {
      CopiedRowsAt(c, slot, m, base, from, k - 1, j);
    }
  }

  /** Words of a slot's own row area. */
  predicate InSlot(slot: nat, j: nat) {
    RowBase(slot) <= j < RowBase(slot + 1)
  }

  /** What the copy does to the rows of later slots: row `i` of the slot `ahead` further on takes
      lump word `from + 64 * ahead + i` as far as the c-list reaches. */
  lemma LaterSlotRows(c: seq<Word>, slot: nat, m: seq<Word>, base: Word, from: nat, k: nat, ahead: nat, i: nat)
    requires slot < 0x1_0000 && |c| == ADDRESS_SPACE && k <= 0x100 && i < 64
    requires RowBase(slot + ahead) + i < |c|
    ensures CopiedRows(c, slot, m, base, from, k)[RowBase(slot + ahead) + i]
         == if 64 * ahead + i < k then LumpWord(m, base, from + 64 * ahead + i) else c[RowBase(slot + ahead) + i]
  {
    CopiedRowsAt(c, slot, m, base, from, k, RowBase(slot + ahead) + i);
  }

  /** The copy keeps to the slot's own rows, whatever they and the others hold, exactly for
      c-lists of at most 64 rows. */
  lemma RowsKeepToSlot(slot: nat, m: seq<Word>, base: Word, from: nat, k: nat)
    requires slot < 0x1_0000 && k <= 0x100
    ensures k <= 64 <==> forall c: seq<Word>, j: nat :: |c| == ADDRESS_SPACE && j < |c| && !InSlot(slot, j) ==>
      CopiedRows(c, slot, m, base, from, k)[j] == c[j]
  {
    if k <= 64 {
      forall c: seq<Word>, j: nat | |c| == ADDRESS_SPACE && j < |c| && !InSlot(slot, j)
        ensures CopiedRows(c, slot, m, base, from, k)[j] == c[j]
      {
        CopiedRowsAt(c, slot, m, base, from, k, j);
      }
    } else {
      var w := if LumpWord(m, base, from + 64) == 0 then 1 as Word else 0;
      var c: seq<Word> := seq(ADDRESS_SPACE, _ => w);
      var j := RowBase(slot + 1);
      LaterSlotRows(c, slot, m, base, from, k, 1, 0);
      assert !InSlot(slot, j) && CopiedRows(c, slot, m, base, from, k)[j] != c[j];
    }
  }

  /** A header that the checks admit and whose 65 rows reach into the next slot. */
  lemma OverlongClist()
    ensures HeaderOk(0xF900_0441) && HdrCc(0xF900_0441) == 65 && ScanEnds(0xF900_0441)
  {
  }

  class ChurchMint {
    const mem: Dmem
    const clist: Dmem
    const table: array<Entry>
    const baseReg: Word
    const slotId: nat
    const clistAddr: Word
    var scanIdx: nat
    var copyIdx: nat

    ghost predicate Valid() {
      && mem.cells != clist.cells && slotId < 0x1_0000
      && clist.cells.Length == ADDRESS_SPACE && table.Length == SLOTS
    }

    constructor (mem: Dmem, clist: Dmem, table: array<Entry>, baseReg: Word, slotId: nat, clistAddr: Word)
      requires mem.cells != clist.cells && slotId < 0x1_0000
      requires clist.cells.Length == ADDRESS_SPACE && table.Length == SLOTS
      ensures Valid() && this.mem == mem && this.clist == clist && this.table == table
      ensures this.baseReg == baseReg && this.slotId == slotId && this.clistAddr == clistAddr
    {
      this.mem, this.clist, this.table := mem, clist, table;
      this.baseReg, this.slotId, this.clistAddr := baseReg, slotId, clistAddr;
    }

    /** A word past the end of memory reads as zero. */
    method ReadWord(i: nat) returns (w: Word)
      ensures w == LumpWord(mem.cells[..], baseReg, i)
    {
      var address := Plus(baseReg, i * 4);
      if address / 4 < mem.cells.Length {
        w := mem.Read(address);
      } else {
        w := 0;
      }
    }

    /** MINT_SCAN_FS: whether every word of the free space reads zero. */
    method Scan(h: Word) returns (clean: bool)
      requires Valid() && HeaderOk(h) && h == LumpWord(mem.cells[..], baseReg, 0)
      modifies this`scanIdx
      ensures clean <==> ScanEnds(h) && FreeSpaceZero(mem.cells[..], baseReg, h)
    {
      var end := LumpWords(HdrN(h)) - HdrCc(h) - 1;
      scanIdx := HdrCw(h) + 1;
      while scanIdx <= end
        invariant HdrCw(h) < scanIdx <= end + 1 || (scanIdx == 0 && !ScanEnds(h))
        invariant scanIdx < SCAN_MODULUS
        invariant forall i :: HdrCw(h) < i < scanIdx ==> LumpWord(mem.cells[..], baseReg, i) == 0
        decreases if scanIdx == 0 then 0 else end + 2 - scanIdx
      {
        var w := ReadWord(scanIdx);
        if w != 0 {
          return false;
        }
        // past the last index the scan wraps to the header, which is never zero
        scanIdx := (scanIdx + 1) % SCAN_MODULUS;
      }
      return true;
    }

    /** MINT_COPY_CLIST: the lump's tail to the slot's rows. */
    method CopyRows(h: Word)
      requires Valid() && HeaderOk(h)
      modifies this`copyIdx, clist.cells, clist`log
      ensures clist.cells[..] == CopiedRows(old(clist.cells[..]), slotId, mem.cells[..], baseReg,
                                            LumpWords(HdrN(h)) - HdrCc(h), HdrCc(h))
      ensures |clist.log| == |old(clist.log)| + HdrCc(h)
    {
      copyIdx := 0;
      var from := LumpWords(HdrN(h)) - HdrCc(h);
      while copyIdx < HdrCc(h)
        invariant copyIdx <= HdrCc(h)
        invariant clist.cells[..] == CopiedRows(old(clist.cells[..]), slotId, mem.cells[..], baseReg, from, copyIdx)
        invariant |clist.log| == |old(clist.log)| + copyIdx
      {
        var w := ReadWord(from + copyIdx);
        clist.Write((slotId + 3) * 0x100 + copyIdx * 4, w);
        copyIdx := copyIdx + 1;
      }
    }

    /** Mints the lump at the base register, or changes nothing. */
    method Mint() returns (done: bool)
      requires Valid()
      modifies this, table, clist.cells, clist`log
      ensures var m, h := mem.cells[..], LumpWord(mem.cells[..], baseReg, 0);
        && (done <==> HeaderOk(h) && ScanEnds(h) && FreeSpaceZero(m, baseReg, h))
        && (!done ==> table[..] == old(table[..]) && clist.cells[..] == old(clist.cells[..])
                      && clist.log == old(clist.log))
        && (done ==>
              && table[..] == old(table[..])[slotId := PublishedEntry(baseReg, LumpWords(HdrN(h)), slotId)]
              && |clist.log| == |old(clist.log)| + HdrCc(h) + 1
              && clist.cells[..] == CopiedRows(old(clist.cells[..]), slotId, m, baseReg,
                   LumpWords(HdrN(h)) - HdrCc(h), HdrCc(h))[clistAddr / 4 := PublishedGt(slotId)])
    {
      hide FreeSpaceZero, ScanEnds, LumpWord, CopiedRows, PublishedEntry;
      var h := ReadWord(0);
      if !HeaderOk(h) {
        return false;
      }
      done := Scan(h);
      if done {
        Publish(h);
      }
    }

    /** MINT_WRITE_NS0 to MINT_WRITE_CLIST. */
    method Publish(h: Word)
      requires Valid() && HeaderOk(h)
      modifies this`copyIdx, table, clist.cells, clist`log
      ensures table[..] == old(table[..])[slotId := PublishedEntry(baseReg, LumpWords(HdrN(h)), slotId)]
      ensures clist.cells[..] == CopiedRows(old(clist.cells[..]), slotId, mem.cells[..], baseReg,
        LumpWords(HdrN(h)) - HdrCc(h), HdrCc(h))[clistAddr / 4 := PublishedGt(slotId)]
      ensures |clist.log| == |old(clist.log)| + HdrCc(h) + 1
    {
      table[slotId] := PublishedEntry(baseReg, LumpWords(HdrN(h)), slotId);
      CopyRows(h);
      clist.Write(clistAddr, PublishedGt(slotId));
    }
  }

  /** The published token names the published entry, carries E and nothing else, and passes
      the gate through it without elevation. */
  lemma PublishedPasses(base: Word, size: nat, slot: nat)
    requires 1 <= size <= 16384 && slot < 0x1_0000
    ensures var gt := PublishedGt(slot);
      && GtSlot(gt) == slot && GtType(gt) == GT_INFORM && HasChurch(gt, E)
      && !GtPerm(gt, L) && !GtPerm(gt, S) && !GtBound(gt)
      && Decide(PublishedEntry(base, size, slot), gt, false) == Pass
      && AuthLimit(PublishedEntry(base, size, slot).authority) == size - 1
  {
    PublishedFields(slot, size);
  }

  lemma PublishedFields(slot: nat, size: nat)
    requires slot < 0x1_0000 && 1 <= size <= 16384
    ensures var gt := PublishedGt(slot);
      && GtSlot(gt) == slot && GtSeq(gt) == 1 && GtType(gt) == GT_INFORM && HasChurch(gt, E)
      && !GtPerm(gt, L) && !GtPerm(gt, S) && !GtBound(gt)
    ensures AuthSeq(PublishedAuthority(size)) == 1 && AuthLimit(PublishedAuthority(size)) == size - 1
  {
  }
}
