/** The serial line and the reference meaning of the three payload methods. */
module Payload {
  import opened Bits
  import opened Deflate
  import opened Memory
  import opened StreamBits
  import Crc32

  const METHOD_STORE := 0
  const METHOD_DEFLATE := 8
  const METHOD_RLE := 16
  const FAULT_METHOD := 0x13
  const FAULT_RLE := 0x1A
  const FAULT_CRC32 := 0x15

  /** One clock of the line: `rx_valid` low, or high with a byte. */
  datatype Rx = Idle | Byte(data: byte)

  /** The bytes a line delivers, idle clocks left out. */
  function Data(rx: seq<Rx>): seq<byte> {
    if rx == [] then []
    else if rx[0].Idle? then Data(rx[1..])
    else [rx[0].data] + Data(rx[1..])
  }

  /** Four bytes, the first one least significant. */
  function LittleEndian(s: seq<byte>): nat {
    if s == [] then 0 else s[0] + 256 * LittleEndian(s[1..])
  }

  function WordAt(out: seq<byte>, i: nat): nat
    requires 4 * i + 4 <= |out|
  {
    LittleEndian(out[4 * i..4 * i + 4])
  }

  /** `out` followed by `n` copies of `v`, cut off at `limit`. */
  function Fill(out: seq<byte>, n: nat, v: byte, limit: nat): seq<byte>
    decreases n
  {
    if n == 0 || |out| >= limit then out else Fill(out + [v], n - 1, v, limit)
  }

  /** Pairs of a repeat count and a literal. */
  function Runs(p: seq<byte>, out: seq<byte>, limit: nat): Outcome
    decreases |p|, 0
  {
    if p == [] then if |out| == limit then Done(out) else Bad(FAULT_RLE)
    else RunLiteral(p[0], p[1..], out, limit)
  }

  function RunLiteral(n: byte, p: seq<byte>, out: seq<byte>, limit: nat): Outcome
    decreases |p|, 1
  {
    if p == [] then Bad(FAULT_RLE)
    else if n == 0 then Runs(p[1..], out, limit)
    else AfterRun(p[1..], Fill(out, n, p[0], limit), limit)
  }

  function AfterRun(p: seq<byte>, out: seq<byte>, limit: nat): Outcome
    decreases |p|, 2
  {
    if |out| == limit then Done(out) else Runs(p, out, limit)
  }

  /** What a payload unpacks to, by compression method. */
  function Reference(kind: nat, p: seq<byte>, out: seq<byte>, limit: nat): Outcome {
    if kind == METHOD_STORE then Done(out + p)
    else if kind == METHOD_DEFLATE then Blocks(StreamBits.Of(p), out, limit)
    else if kind == METHOD_RLE then Runs(p, out, limit)
    else Bad(FAULT_METHOD)
  }

  lemma {:induction false} LittleEndianSnoc(s: seq<byte>, b: byte)
    ensures LittleEndian(s + [b]) == LittleEndian(s) + b * Weight(|s|)
  {
    if s == [] {
      assert s + [b] == [b];
    } else {
      assert (s + [b])[0] == s[0] && (s + [b])[1..] == s[1..] + [b];
      LittleEndianSnoc(s[1..], b);
      assert b * Weight(|s|) == 256 * (b * Weight(|s| - 1));
    }
  }

  /** 256 to the power `n`. */
  function Weight(n: nat): nat {
    if n == 0 then 1 else 256 * Weight(n - 1)
  }

  lemma {:induction false} LittleEndianBound(s: seq<byte>)
    ensures LittleEndian(s) < Weight(|s|)
  {
    if s != [] {
      LittleEndianBound(s[1..]);
    }
  }

  lemma WordOfPrefix(out: seq<byte>, b: byte, i: nat)
    requires 4 * i + 4 <= |out|
    ensures WordAt(out + [b], i) == WordAt(out, i)
  {
    assert (out + [b])[4 * i..4 * i + 4] == out[4 * i..4 * i + 4];
  }

  lemma {:induction false} DataAppend(r: seq<Rx>, s: seq<Rx>)
    ensures Data(r + s) == Data(r) + Data(s)
  {
    if r == [] {
      assert r + s == s;
    } else {
      assert (r + s)[0] == r[0] && (r + s)[1..] == r[1..] + s;
      DataAppend(r[1..], s);
    }
  }

  /** Assigns byte lane `k` of the 24-bit byte buffer. */
  function PutByte(v: nat, k: nat, b: byte): int {
    if k == 0 then v - v % 256 + b
    else if k == 1 then v - (v / 256 % 256) * 256 + b * 256
    else v - (v / 0x1_0000 % 256) * 0x1_0000 + b * 0x1_0000
  }

  /** The byte buffer, and the word it completes, hold the bytes in stream order. */
  lemma PackByte(tail: seq<byte>, b: byte)
    requires |tail| <= 3
    ensures |tail| < 3 ==> PutByte(LittleEndian(tail), |tail|, b) == LittleEndian(tail + [b])
    ensures |tail| == 3 ==> LittleEndian(tail) + 0x100_0000 * b == LittleEndian(tail + [b]) < 0x1_0000_0000
  {
    LittleEndianSnoc(tail, b);
    LittleEndianBound(tail);
    assert Weight(1) == 256 && Weight(2) == 0x1_0000 && Weight(3) == 0x100_0000;
    PutAbove(LittleEndian(tail), |tail|, b);
  }

  lemma PutAbove(v: nat, k: nat, b: byte)
    requires k <= 3 && v < Weight(k)
    ensures k < 3 ==> PutByte(v, k, b) == v + b * Weight(k)
    ensures k == 3 ==> v + b * Weight(k) == v + 0x100_0000 * b < 0x1_0000_0000
  {
    assert Weight(0) == 1 && Weight(1) == 256 && Weight(2) == 0x1_0000 && Weight(3) == 0x100_0000;
    if k == 1 {
      assert v / 256 == 0;
    } else if k == 2 {
      assert v / 0x1_0000 == 0;
    }
  }

  /** `m0` with the first `n` words of `out` unpacked from index `base` on. */
  ghost function Unpack(m0: seq<Word>, base: nat, out: seq<byte>, n: nat): (m: seq<Word>)
    requires base + n <= |m0| && 4 * n <= |out|
    ensures |m| == |m0|
  {
    if n == 0 then m0
    else
      WordFits(out, n - 1);
      Unpack(m0, base, out, n - 1)[base + n - 1 := WordAt(out, n - 1)]
  }

  lemma WordFits(out: seq<byte>, i: nat)
    requires 4 * i + 4 <= |out|
    ensures WordAt(out, i) < 0x1_0000_0000
  {
    LittleEndianBound(out[4 * i..4 * i + 4]);
    assert Weight(4) == 0x1_0000_0000;
  }

  /** Every word of the region holds its four bytes; no other word changed. */
  lemma {:induction false} UnpackAt(m0: seq<Word>, base: nat, out: seq<byte>, n: nat, j: nat)
    requires base + n <= |m0| && 4 * n <= |out| && j < |m0|
    ensures Unpack(m0, base, out, n)[j] == if base <= j < base + n then WordAt(out, j - base) else m0[j]
  {
    if n > 0 {
      UnpackAt(m0, base, out, n - 1, j);
    }
  }

  lemma {:induction false} UnpackGrows(m0: seq<Word>, base: nat, out: seq<byte>, n: nat, b: byte)
    requires base + n <= |m0| && 4 * n <= |out|
    ensures Unpack(m0, base, out + [b], n) == Unpack(m0, base, out, n)
  {
    if n > 0 {
      UnpackGrows(m0, base, out, n - 1, b);
      WordOfPrefix(out, b, n - 1);
    }
  }

  /** The stores that unpack the first `n` words: one for each word, in order. */
  ghost function Stores(base: nat, out: seq<byte>, n: nat): (s: seq<Store>)
    requires 4 * n <= |out|
    ensures |s| == n && forall i :: 0 <= i < n ==> s[i].index == base + i && s[i].data == WordAt(out, i)
  {
    if n == 0 then []
    else
      WordFits(out, n - 1);
      Stores(base, out, n - 1) + [Store(base + n - 1, WordAt(out, n - 1))]
  }

  lemma {:induction false} StoresGrow(base: nat, out: seq<byte>, n: nat, b: byte)
    requires 4 * n <= |out|
    ensures Stores(base, out + [b], n) == Stores(base, out, n)
  {
    if n > 0 {
      StoresGrow(base, out, n - 1, b);
      WordOfPrefix(out, b, n - 1);
    }
  }

  /** Memory and its stores when a writer starts. */
  datatype Before = Before(cells: seq<Word>, log: seq<Store>)

  /** The word writer after emitting `out`: `n` whole words in memory, each stored once and
      in order, `held` bytes in the byte buffer, and the checksum of everything. */
  ghost predicate Unpacked(m: seq<Word>, log: seq<Store>, was: Before, base: nat, out: seq<byte>,
                           n: nat, held: nat, byteBuf: nat, crc: nat)
  {
    && held <= 3 && |out| == 4 * n + held
    && byteBuf == LittleEndian(out[4 * n..])
    && crc == Crc32.Update(Crc32.INIT, out)
    && log == was.log + Stores(base, out, n)
    && base + n <= |was.cells| && m == Unpack(was.cells, base, out, n)
  }

  lemma HoldStep(m: seq<Word>, log: seq<Store>, was: Before, base: nat, out: seq<byte>,
                 n: nat, held: nat, byteBuf: nat, crc: nat, b: byte)
    requires Unpacked(m, log, was, base, out, n, held, byteBuf, crc) && held < 3
    ensures 0 <= PutByte(byteBuf, held, b)
    ensures Unpacked(m, log, was, base, out + [b], n, held + 1, PutByte(byteBuf, held, b), Crc32.UpdateByte(crc, b))
  {
    var tail := out[4 * n..];
    assert (out + [b])[4 * n..] == tail + [b] && (out + [b])[..|out|] == out;
    PackByte(tail, b);
    UnpackGrows(was.cells, base, out, n, b);
    StoresGrow(base, out, n, b);
  }

  lemma StoreStep(m: seq<Word>, log: seq<Store>, was: Before, base: nat, out: seq<byte>,
                  n: nat, byteBuf: nat, crc: nat, b: byte)
    requires Unpacked(m, log, was, base, out, n, 3, byteBuf, crc) && base + n < |m|
    ensures byteBuf + 0x100_0000 * b < 0x1_0000_0000
    ensures var w: Word := byteBuf + 0x100_0000 * b;
      Unpacked(m[base + n := w], log + [Store(base + n, w)], was, base, out + [b], n + 1, 0, 0,
               Crc32.UpdateByte(crc, b))
  {
    var tail := out[4 * n..];
    assert (out + [b])[4 * n..4 * n + 4] == tail + [b] && (out + [b])[..|out|] == out;
    PackByte(tail, b);
    UnpackGrows(was.cells, base, out, n, b);
    StoresGrow(base, out, n, b);
  }
}
