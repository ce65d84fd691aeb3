/** The shared data memory: 32-bit words, addressed in bytes. */
module Memory {
  import opened Bits

  /** All 32-bit byte addresses. */
  const ADDRESS_SPACE := 0x4000_0000

  /** 32-bit address arithmetic. */
  function Plus(address: Word, n: nat): Word {
    (address + n) % 0x1_0000_0000
  }

  /** Memory as a read port sees it; addresses past its end read as zero. */
  function ReadAt(mem: seq<Word>, address: Word): Word {
    if address / 4 < |mem| then mem[address / 4] else 0
  }

  /** The word at a word offset from an aligned base. */
  lemma WordOffset(base: Word, o: nat)
    requires base % 4 == 0 && base / 4 + o < ADDRESS_SPACE
    ensures (base + o * 4) % 0x1_0000_0000 / 4 == base / 4 + o
  {
  }

  /** A store the memory has taken: the word it hit, and its data. */
  datatype Store = Store(index: nat, data: Word)

  class Dmem {
    const cells: array<Word>
    /** Every store so far, in order. */
    ghost var log: seq<Store>

    constructor (cells: array<Word>)
      ensures this.cells == cells && log == []
    {
      this.cells := cells;
      log := [];
    }

    method Write(address: Word, data: Word)
      requires address / 4 < cells.Length
      modifies cells, this`log
      ensures cells[..] == old(cells[..])[address / 4 := data]
      ensures log == old(log) + [Store(address / 4, data)]
    {
      cells[address / 4] := data;
      log := log + [Store(address / 4, data)];
    }

    method Read(address: Word) returns (data: Word)
      requires address / 4 < cells.Length
      ensures data == cells[..][address / 4]
    {
      data := cells[address / 4];
    }
  }
}
