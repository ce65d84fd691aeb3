/** The running CRC-32 of the download engine: eight combinational stages per
    byte, against the table-driven form of section 8 of RFC 1952. */
module Crc32 {
  import opened Bits

  const POLY: Word := 0xEDB88320
  const INIT: Word := 0xFFFFFFFF
  const FINAL: Word := 0xFFFFFFFF

  /** One of the eight stages: `bit` is one bit of the incoming byte. */
  function Stage(crc: nat, bit: nat): nat {
    Xor(crc / 2, if crc % 2 != bit then POLY else 0)
  }

  /** The last `k` stages of the unrolled byte update, the byte shifted to its next bit. */
  function Stages(crc: nat, b: nat, k: nat): nat
    decreases k
  {
    if k == 0 then crc else Stages(Stage(crc, b % 2), b / 2, k - 1)
  }

  const BYTE_BITS: nat := 8

  function UpdateByte(crc: nat, b: byte): nat {
    Stages(crc, b, BYTE_BITS)
  }

  function Update(crc: nat, data: seq<byte>): nat {
    if data == [] then crc else UpdateByte(Update(crc, data[..|data| - 1]), data[|data| - 1])
  }

  /** One round of the table generator of RFC 1952. */
  function Round(c: nat): nat {
    if c % 2 == 1 then Xor(POLY, c / 2) else c / 2
  }

  function Rounds(c: nat, k: nat): nat
    decreases k
  {
    if k == 0 then c else Rounds(Round(c), k - 1)
  }

  /** Entry `n` of the CRC table of RFC 1952. */
  function TableEntry(n: nat): nat {
    Rounds(n, BYTE_BITS)
  }

  /** The checksum of RFC 1952: one table lookup per byte. */
  function TableUpdate(crc: nat, data: seq<byte>): nat {
    if data == [] then crc
    else
      var c := TableUpdate(crc, data[..|data| - 1]);
      Xor(TableEntry(Xor(c, data[|data| - 1]) % 256), c / 256)
  }

  /** The finished checksum of section 8 of RFC 1952. */
  function Checksum(data: seq<byte>): nat {
    Xor(TableUpdate(INIT, data), FINAL)
  }

  /** The engine's bit-serial accumulator is the table-driven CRC of RFC 1952. */
  lemma {:induction false} StagesAreTable(crc: nat, data: seq<byte>)
    ensures Update(crc, data) == TableUpdate(crc, data)
  {
    if data != [] {
      StagesAreTable(crc, data[..|data| - 1]);
      ByteIsLookup(Update(crc, data[..|data| - 1]), data[|data| - 1], BYTE_BITS);
    }
  }

  lemma ByteIsLookup(c: nat, b: byte, k: nat)
    requires k == 8
    ensures Stages(c, b, k) == Xor(Rounds(Xor(c, b) % 256, k), c / 256)
  {
    var x := Xor(c, b);
    ByteShift(x);
    ByteShift(b);
    ByteShift(c);
    StagesAreRounds(c, b, k);
    XorZero(Stages(c, b, k));
    XorSplit(x, k);
    RoundsShift(Low(x, k), Shr(x, k), k);
    XorShift(c, b, k);
    XorZero(Shr(c, k));
  }

  /** Feeding the byte bit by bit is xoring it in first. */
  lemma {:induction false} StagesAreRounds(crc: nat, b: nat, k: nat)
    ensures Xor(Stages(crc, b, k), Shr(b, k)) == Rounds(Xor(crc, b), k)
    decreases k
  {
    if k > 0 {
      StageIsRound(crc, b);
      StagesAreRounds(Stage(crc, b % 2), b / 2, k - 1);
    }
  }

  lemma StageIsRound(crc: nat, b: nat)
    ensures Xor(Stage(crc, b % 2), b / 2) == Round(Xor(crc, b))
  {
    var p: nat := if crc % 2 != b % 2 then POLY else 0;
    XorHalf(crc, b);
    XorAssociates(crc / 2, p, b / 2);
    XorCommutes(p, b / 2);
    XorAssociates(crc / 2, b / 2, p);
    XorCommutes(Xor(crc / 2, b / 2), p);
    XorZero(Xor(crc / 2, b / 2));
  }

  /** Bits above the ones the rounds consume are only shifted down. */
  lemma {:induction false} RoundsShift(x: nat, y: nat, k: nat)
    ensures Rounds(Xor(x, Shl(y, k)), k) == Xor(Rounds(x, k), y)
    decreases k
  {
    if k > 0 {
      RoundShift(x, Shl(y, k - 1));
      RoundsShift(Round(x), y, k - 1);
    }
  }

  lemma RoundShift(x: nat, z: nat)
    ensures Round(Xor(x, 2 * z)) == Xor(Round(x), z)
  {
    XorHalf(x, 2 * z);
    XorAssociates(POLY, x / 2, z);
  }

  lemma {:induction false} UpdateBound(crc: Word, data: seq<byte>)
    ensures Update(crc, data) < 0x1_0000_0000
  {
    if data != [] {
      UpdateBound(crc, data[..|data| - 1]);
      StagesBound(Update(crc, data[..|data| - 1]), data[|data| - 1], BYTE_BITS);
    }
  }

  lemma {:induction false} StagesBound(crc: Word, b: nat, k: nat)
    ensures Stages(crc, b, k) < 0x1_0000_0000
    decreases k
  {
    if k > 0 {
      Pow2Values();
      XorBound(crc / 2, if crc % 2 != b % 2 then POLY else 0, 32);
      StagesBound(Stage(crc, b % 2), b / 2, k - 1);
    }
  }
}
