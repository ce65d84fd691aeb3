/** The word writer both download engines carry: bytes in, little-endian words and a
    running CRC-32 out. */
module Writer {
  import opened Bits
  import opened Memory
  import opened Payload
  import Crc32

  class WordWriter {
    const mem: Dmem
    const baseReg: Word
    const totalWords: nat
    var wrWordCnt: nat
    var byteBuf: nat
    var byteBufCnt: nat
    var crcAcc: nat

    /** Everything emitted so far. */
    ghost var out: seq<byte>
    /** Memory and its stores before the first byte. */
    ghost const was: Before

    /** Memory holds the whole words of the output, each written once and in order, the
        byte buffer the rest, and the accumulator the checksum of everything. */
    ghost predicate Valid()
      reads this, mem, mem.cells
    {
      && Placed()
      && wrWordCnt <= totalWords && (wrWordCnt == totalWords ==> byteBufCnt == 0)
      && Unpacked(mem.cells[..], mem.log, was, baseReg / 4, out, wrWordCnt, byteBufCnt, byteBuf, crcAcc)
    }

    ghost predicate Placed() {
      && 1 <= totalWords <= 0x4000
      && baseReg % 4 == 0 && baseReg / 4 + totalWords <= mem.cells.Length <= 0x4000_0000
      && |was.cells| == mem.cells.Length
    }

    ghost function Limit(): nat {
      4 * totalWords
    }

    constructor (mem: Dmem, baseReg: Word, totalWords: nat)
      requires 1 <= totalWords <= 0x4000
      requires baseReg % 4 == 0 && baseReg / 4 + totalWords <= mem.cells.Length <= 0x4000_0000
      ensures Valid() && out == [] && was == Before(mem.cells[..], mem.log)
      ensures this.mem == mem && this.baseReg == baseReg && this.totalWords == totalWords
    {
      this.mem, this.baseReg, this.totalWords := mem, baseReg, totalWords;
      wrWordCnt, byteBuf, byteBufCnt, crcAcc := 0, 0, 0, Crc32.INIT;
      out, was := [], Before(mem.cells[..], mem.log);
    }

    /** Emits one byte; `full` tells that it completed the last word. */
    method Emit(b: byte) returns (full: bool)
      requires Valid() && |out| < Limit()
      modifies this, mem.cells, mem`log
      ensures Valid() && out == old(out) + [b]
      ensures full <==> |out| == Limit()
    {
      full := byteBufCnt == 3 && wrWordCnt + 1 == totalWords;
      if byteBufCnt == 3 {
        StoreWord(b);
      } else {
        HoldByte(b);
      }
    }

    /** Every word is written and no byte is held back. */
    method IsFull() returns (full: bool)
      requires Valid()
      ensures full <==> |out| == Limit()
    {
      full := wrWordCnt == totalWords && byteBufCnt == 0;
    }

    method StoreWord(b: byte)
      requires Valid() && |out| < Limit() && byteBufCnt == 3
      modifies this, mem.cells, mem`log
      ensures Valid() && out == old(out) + [b]
    {
      StoreStep(mem.cells[..], mem.log, was, baseReg / 4, out, wrWordCnt, byteBuf, crcAcc, b);
      var address := WriteAddress();
      mem.Write(address, byteBuf + 0x100_0000 * b);
      crcAcc := Crc32.UpdateByte(crcAcc, b);
      wrWordCnt, byteBufCnt, byteBuf := wrWordCnt + 1, 0, 0;
      out := out + [b];
    }

    /** The 32-bit write address never wraps. */
    method WriteAddress() returns (address: Word)
      requires Placed() && wrWordCnt < totalWords
      ensures address / 4 == baseReg / 4 + wrWordCnt < mem.cells.Length
    {
      address := (baseReg + (wrWordCnt * 4)) % 0x1_0000_0000;
    }

    method HoldByte(b: byte)
      requires Valid() && |out| < Limit() && byteBufCnt < 3
      modifies this
      ensures Valid() && out == old(out) + [b]
    {
      HoldStep(mem.cells[..], mem.log, was, baseReg / 4, out, wrWordCnt, byteBufCnt, byteBuf, crcAcc, b);
      crcAcc := Crc32.UpdateByte(crcAcc, b);
      byteBuf := PutByte(byteBuf, byteBufCnt, b);
      byteBufCnt := byteBufCnt + 1;
      out := out + [b];
    }

    /** The words of `all` below the write counter are in memory, each written once, in order. */
    ghost predicate Stored(all: seq<byte>)
      reads this, mem, mem.cells
    {
      && Placed() && wrWordCnt <= totalWords && |all| == Limit()
      && mem.log == was.log + Stores(baseReg / 4, all, wrWordCnt)
      && mem.cells[..] == Unpack(was.cells, baseReg / 4, all, wrWordCnt)
    }

    /** Zero-fills the next word. */
    method ScrubWord(ghost all: seq<byte>)
      requires Stored(all) && wrWordCnt < totalWords && WordAt(all, wrWordCnt) == 0
      modifies this`wrWordCnt, mem.cells, mem`log
      ensures Stored(all) && wrWordCnt == old(wrWordCnt) + 1
    {
      var address := WriteAddress();
      mem.Write(address, 0);
      wrWordCnt := wrWordCnt + 1;
    }
  }
}
