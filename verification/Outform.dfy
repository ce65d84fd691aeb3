/** The download engine from the end of its header on: STORE, fixed-Huffman DEFLATE
    and RLE payloads, unpacked into little-endian words under a running CRC-32.
    One call of `Step` is one clock edge. */
module Outform {
  import opened Bits
  import opened Deflate
  import opened DeflateProofs
  import opened Machine
  import opened MachineProofs
  import opened Memory
  import opened Payload
  import opened Ring
  import opened StreamBits
  import opened Writer
  import Crc32

  class ChurchOutform {
    // fields of the header, latched before INFLATE
    const methodReg: nat
    const compSize: Word
    // word writer and ring window
    const w: WordWriter
    const ring: WindowMem
    var winRd: byte
    var state: State
    var faultType: int
    // bit buffer
    var deflBits: nat
    var deflBitCnt: nat
    var deflRxCount: nat
    // token in progress
    var bfinal: bool
    var symbol: nat
    var lenIdx: nat
    var distCode: nat
    var copyLen: nat
    var copyDist: nat
    var copyIdx: nat
    // run-length sub-machine
    var rleCount: byte
    var rleLiteral: byte
    var rleRemaining: nat
    var rleRxCount: nat
    // serial input, one entry per clock in which the machine listens
    var rx: seq<Rx>

    /** The bits held in the bit buffer, oldest first. */
    ghost var buf: seq<bool>

    ghost function Header(): Job {
      Job(methodReg, compSize, w.Limit())
    }

    /** The registers as ideal data. */
    ghost function View(): Regs
      reads this, w
    {
      Regs(state, faultType, rx, w.out, buf, deflRxCount, bfinal, symbol, lenIdx, distCode,
           copyLen, copyDist, copyIdx, winRd, rleRxCount, rleCount, rleLiteral, rleRemaining)
    }

    /** The 32-bit buffer register holds the buffered bits, first bit lowest. */
    ghost predicate Buffer()
      reads this
    {
      |buf| == deflBitCnt <= 32 && LsbVal(buf) == deflBits
    }

    ghost predicate Valid()
      reads this, w, w.mem.cells, w.mem, ring, ring.cells
    {
      && ring.cells.Length == WIN_SIZE
      && w.Valid() && Control(Header(), View())
      && (InDeflate(state) ==> ring.Valid(w.out) && Buffer())
    }

    /** The engine as SKIP_EXTRA leaves it: header latched, output empty. */
    constructor (mem: Dmem, methodReg: nat, compSize: Word, totalWords: nat, baseReg: Word, rx: seq<Rx>)
      requires 1 <= totalWords <= 0x4000
      requires baseReg % 4 == 0 && baseReg / 4 + totalWords <= mem.cells.Length <= 0x4000_0000
      ensures Valid() && state == INFLATE && fresh(w) && fresh(ring) && fresh(ring.cells)
      ensures w.out == [] && w.was == Before(mem.cells[..], mem.log) && w.mem == mem && this.rx == rx
      ensures w.totalWords == totalWords && w.baseReg == baseReg
      ensures this.methodReg == methodReg && this.compSize == compSize
    {
      this.methodReg, this.compSize, this.rx := methodReg, compSize, rx;
      w := new WordWriter(mem, baseReg, totalWords);
      ring := new WindowMem();
      state := INFLATE;
      buf := [];
    }

    // ---- the bit buffer

    method TakeByte(b: byte)
      requires Buffer() && deflBitCnt <= 24
      modifies this`deflBits, this`deflBitCnt, this`buf
      ensures Buffer() && buf == old(buf) + LsbBits(b, 8)
    {
      ByteOnTop(b, buf, deflBits);
      deflBits := Or(deflBits, Shl(b, deflBitCnt)) % 0x1_0000_0000;
      deflBitCnt, buf := deflBitCnt + 8, buf + LsbBits(b, 8);
    }

    /** One clock of waiting for bits: fault at the end of the payload, else take a byte. */
    method Wait()
      requires Buffer()
      modifies this`state, this`faultType, this`deflBits, this`deflBitCnt, this`deflRxCount, this`rx, this`buf
      ensures Buffer() && View() == Refill(Header(), old(View()))
    {
      if deflRxCount >= compSize {
        state, faultType := FAULT, FAULT_DEFL;
      } else if rx != [] {
        if rx[0].Byte? && deflBitCnt <= 24 {
          TakeByte(rx[0].data);
          deflRxCount := deflRxCount + 1;
        }
        rx := rx[1..];
      }
    }

    // ---- one method per state

    method StepStore()
      requires w.Valid() && |w.out| < w.Limit() && state == INFLATE && methodReg == METHOD_STORE
      modifies this`state, this`rx, w, w.mem.cells, w.mem`log
      ensures w.Valid() && !InDeflate(state)
      ensures View() == NextInflate(Header(), old(View()))
    {
      if rx != [] {
        if rx[0].Byte? {
          var full := w.Emit(rx[0].data);
          if full {
            state := CHECK_CRC32;
          }
        }
        rx := rx[1..];
      }
    }

    method StepInflate()
      requires methodReg != METHOD_STORE && w.out == [] && ring.cells.Length == WIN_SIZE
      modifies this, ring
      ensures View() == NextInflate(Header(), old(View()))
      ensures InDeflate(state) ==> ring.Valid(w.out) && Buffer()
    {
      if methodReg == METHOD_DEFLATE {
        deflBits, deflBitCnt, deflRxCount := 0, 0, 0;
        ring.Reset();
        buf := [];
        state := DEFL_BLOCK_HDR;
      } else if methodReg == METHOD_RLE {
        rleRxCount := 0;
        state := RLE_READ_COUNT;
      } else {
        state, faultType := FAULT, FAULT_METHOD;
      }
    }

    method StepBlockHdr()
      requires Buffer()
      modifies this
      ensures Buffer() && View() == NextBlockHdr(Header(), old(View()))
    {
      if deflBitCnt >= 3 {
        HeaderBits(buf);
        TakeHeaderBits(deflBits % 2 == 1, Low(Shr(deflBits, 1), 2) == 1, 3);
      } else {
        Wait();
      }
    }

    method TakeHeaderBits(final: bool, fixed: bool, n: nat)
      requires Buffer() && |buf| >= n
      modifies this`bfinal, this`state, this`faultType, this`deflBits, this`deflBitCnt, this`buf
      ensures Buffer() && View() == TakeHeader(old(View()), final, fixed, n)
    {
      LsbSplit(buf, n);
      deflBits, deflBitCnt, buf := Shr(deflBits, n), deflBitCnt - n, buf[n..];
      bfinal := final;
      assert View() == old(View()).(bfinal := final, bits := buf);
      if fixed {
        state := DEFL_DECODE;
      } else {
        state, faultType := FAULT, FAULT_DEFL;
      }
    }

    method StepDecode()
      requires Buffer() && w.Valid()
      modifies this
      ensures Buffer() && View() == NextDecode(Header(), old(View()))
    {
      CodeRegisters(buf);
      var code7 := Reverse(deflBits, 7);
      if deflBitCnt >= 7 && code7 <= 23 {
        if code7 == 0 {
          EndOfBlockSymbol(7);
        } else {
          LengthSymbol(256 + code7, code7 - 1, 7);
        }
      } else {
        DecodeLonger(Reverse(deflBits, 8), Reverse(deflBits, 9));
      }
    }

    /** The 8-bit and the 9-bit codes, and the wait for more bits. */
    method DecodeLonger(code8: nat, code9: nat)
      requires Buffer() && (|buf| >= 7 ==> MsbVal(buf[..7]) > 23)
      requires |buf| >= 8 ==> code8 == MsbVal(buf[..8])
      requires |buf| >= 9 ==> code9 == MsbVal(buf[..9])
      modifies this
      ensures Buffer() && View() == NextDecode(Header(), old(View()))
    {
      hide MsbVal, TakeSymbol;
      if deflBitCnt >= 8 && 48 <= code8 <= 191 {
        LiteralSymbol(code8 - 48, 8);
      } else if deflBitCnt >= 8 && 192 <= code8 <= 197 {
        LengthSymbol(code8 - 192 + 280, code8 - 192 + 23, 8);
      } else if deflBitCnt >= 8 && 198 <= code8 <= 199 {
        state, faultType := FAULT, FAULT_DEFL;
      } else if deflBitCnt >= 9 && 400 <= code9 <= 511 {
        LiteralSymbol(code9 - 400 + 144, 9);
      } else if deflBitCnt >= 9 {
        state, faultType := FAULT, FAULT_DEFL;
      } else {
        Wait();
      }
    }

    /** The 7-bit code 0: end of block. */
    method EndOfBlockSymbol(n: nat)
      requires Buffer() && w.Valid() && n <= |buf|
      modifies this`symbol, this`state, this`faultType, this`deflBits, this`deflBitCnt, this`buf
      ensures Buffer() && View() == TakeSymbol(Header(), old(View()), 256, n)
    {
      var full := w.IsFull();
      FinishBlock(full, n);
    }

    method FinishBlock(full: bool, n: nat)
      requires Buffer() && n <= |buf| && (full <==> |w.out| == w.Limit())
      modifies this`symbol, this`state, this`faultType, this`deflBits, this`deflBitCnt, this`buf
      ensures Buffer() && View() == TakeSymbol(Header(), old(View()), 256, n)
    {
      LsbSplit(buf, n);
      symbol := 256;
      deflBits, deflBitCnt, buf := Shr(deflBits, n), deflBitCnt - n, buf[n..];
      assert View() == old(View()).(symbol := 256, bits := buf);
      if !bfinal {
        state := DEFL_BLOCK_HDR;
      } else if full {
        state := DEFL_DRAIN;
      } else {
        state, faultType := FAULT, FAULT_DEFL;
      }
    }

    method LiteralSymbol(sym: nat, n: nat)
      requires Buffer() && n <= |buf| && sym < 256
      modifies this`symbol, this`state, this`deflBits, this`deflBitCnt, this`buf
      ensures Buffer() && View() == TakeSymbol(Header(), old(View()), sym, n)
    {
      LsbSplit(buf, n);
      deflBits, deflBitCnt := Shr(deflBits, n), deflBitCnt - n;
      symbol, state, buf := sym, DEFL_LIT_EMIT, buf[n..];
    }

    /** A length code: 257 to 279 in 7 bits, 280 to 285 in 8. */
    method LengthSymbol(sym: nat, idx: nat, n: nat)
      requires Buffer() && n <= |buf| && 257 <= sym <= 285 && idx == sym - 257
      modifies this`symbol, this`lenIdx, this`state, this`deflBits, this`deflBitCnt, this`buf
      ensures Buffer() && View() == TakeSymbol(Header(), old(View()), sym, n)
    {
      LsbSplit(buf, n);
      symbol, lenIdx := sym, idx;
      deflBits, deflBitCnt, buf := Shr(deflBits, n), deflBitCnt - n, buf[n..];
      state := DEFL_LEN_EXTRA;
    }

    method StepLenExtra()
      requires Buffer()
      modifies this
      ensures Buffer() && View() == NextLenExtra(Header(), old(View()))
    {
      var n := LenExtra(lenIdx);
      if deflBitCnt >= n {
        LsbSplit(buf, n);
        copyLen := LenBase(lenIdx) + Low(deflBits, n);
        deflBits, deflBitCnt, buf := Shr(deflBits, n), deflBitCnt - n, buf[n..];
        state := DEFL_DIST;
      } else {
        Wait();
      }
    }

    method StepDist()
      requires Buffer()
      modifies this
      ensures Buffer() && View() == NextDist(Header(), old(View()))
    {
      if deflBitCnt >= 5 {
        ReverseIsMsb(buf, 5);
        TakeDistanceBits(Reverse(deflBits, 5), 5);
      } else {
        Wait();
      }
    }

    method TakeDistanceBits(code: nat, n: nat)
      requires Buffer() && |buf| >= n
      modifies this`distCode, this`state, this`faultType, this`deflBits, this`deflBitCnt, this`buf
      ensures Buffer() && View() == TakeDistance(old(View()), code, n)
    {
      LsbSplit(buf, n);
      deflBits, deflBitCnt, buf := Shr(deflBits, n), deflBitCnt - n, buf[n..];
      distCode := code;
      assert View() == old(View()).(distCode := code, bits := buf);
      if code > 21 {
        state, faultType := FAULT, FAULT_WIN;
      } else {
        state := DEFL_DIST_EXTRA;
      }
    }

    method StepDistExtra()
      requires Buffer()
      modifies this
      ensures Buffer() && View() == NextDistExtra(Header(), old(View()))
    {
      var n := DistExtra(distCode);
      if deflBitCnt >= n {
        LsbSplit(buf, n);
        copyDist := DistBase(distCode) + Low(deflBits, n);
        deflBits, deflBitCnt, buf := Shr(deflBits, n), deflBitCnt - n, buf[n..];
        copyIdx := 0;
        state := DEFL_COPY_RD;
      } else {
        Wait();
      }
    }

    method StepCopyRd()
      requires ring.Valid(w.out) && (copyIdx > 0 ==> 0 < copyDist <= Min(WIN_SIZE, |w.out|))
      modifies this`state, this`faultType, this`winRd
      ensures View() == NextCopyRd(old(View()))
    {
      if copyIdx == 0 && (copyDist == 0 || copyDist > ring.Depth()) {
        state, faultType := FAULT, FAULT_WIN;
      } else {
        winRd := ring.Read(copyDist, w.out);
        state := DEFL_COPY_EMIT;
      }
    }

    /** Emits a byte into memory and into the window. */
    method EmitByte(b: byte, full: State, more: State)
      requires w.Valid() && |w.out| < w.Limit() && ring.Valid(w.out)
      modifies this`state, w, w.mem.cells, w.mem`log, ring, ring.cells
      ensures w.Valid() && ring.Valid(w.out)
      ensures View() == Emitted(Header(), old(View()), b, full, more)
    {
      ring.Push(b, w.out);
      var done := w.Emit(b);
      state := if done then full else more;
    }

    method StepDeflDrain()
      modifies this`state, this`rx, this`deflRxCount
      ensures View() == NextDeflDrain(Header(), old(View()))
    {
      if deflRxCount >= compSize {
        state := CHECK_CRC32;
      } else if rx != [] {
        if rx[0].Byte? {
          deflRxCount := deflRxCount + 1;
        }
        rx := rx[1..];
      }
    }

    method StepReadCount()
      requires w.Valid() && |w.out| <= w.Limit()
      modifies this
      ensures View() == NextReadCount(Header(), old(View()))
    {
      if rleRxCount >= compSize {
        var full := w.IsFull();
        if full {
          state := CHECK_CRC32;
        } else {
          state, faultType := FAULT, FAULT_RLE;
        }
      } else if rx != [] {
        if rx[0].Byte? {
          rleCount := rx[0].data;
          rleRxCount := rleRxCount + 1;
          state := RLE_READ_LIT;
        }
        rx := rx[1..];
      }
    }

    method StepReadLit()
      modifies this
      ensures View() == NextReadLit(Header(), old(View()))
    {
      if rleRxCount >= compSize {
        state, faultType := FAULT, FAULT_RLE;
      } else if rx != [] {
        if rx[0].Byte? {
          rleLiteral := rx[0].data;
          rleRemaining := rleCount;
          rleRxCount := rleRxCount + 1;
          state := if rleCount == 0 then RLE_READ_COUNT else RLE_EMIT;
        }
        rx := rx[1..];
      }
    }

    method StepRleEmit()
      requires w.Valid() && |w.out| < w.Limit() && rleRemaining > 0
      modifies this, w, w.mem.cells, w.mem`log
      ensures w.Valid() && View() == NextRleEmit(Header(), old(View()))
    {
      var done := w.Emit(rleLiteral);
      state := if done then RLE_DRAIN else if rleRemaining <= 1 then RLE_READ_COUNT else RLE_EMIT;
      rleRemaining := rleRemaining - 1;
    }

    method StepRleDrain()
      modifies this`state, this`rx, this`rleRxCount
      ensures View() == NextRleDrain(Header(), old(View()))
    {
      if rleRxCount >= compSize {
        state := CHECK_CRC32;
      } else if rx != [] {
        if rx[0].Byte? {
          rleRxCount := rleRxCount + 1;
        }
        rx := rx[1..];
      }
    }

    // ---- one clock, and a whole payload

    /** One clock edge: exactly what `Machine.Next` says, on registers, window and memory. */
    method Step()
      requires Valid() && !Finished(View())
      modifies this, w, w.mem.cells, w.mem`log, ring, ring.cells
      ensures View() == Next(Header(), old(View()))
      ensures ring.cells.Length == WIN_SIZE && w.Valid()
      ensures InDeflate(state) ==> ring.Valid(w.out) && Buffer()
    {
      if state.INFLATE? && methodReg == METHOD_STORE {
        StepStore();
      } else if state.INFLATE? {
        StepInflate();
      } else if InRuns(state) {
        StepRuns();
      } else if state in {DEFL_LIT_EMIT, DEFL_COPY_RD, DEFL_COPY_EMIT, DEFL_DRAIN} {
        StepOutput();
      } else {
        StepBits();
      }
    }

    /** The states that take bits. */
    method StepBits()
      requires Buffer() && w.Valid() && Control(Header(), View())
      requires state in {DEFL_BLOCK_HDR, DEFL_DECODE, DEFL_LEN_EXTRA, DEFL_DIST, DEFL_DIST_EXTRA}
      modifies this
      ensures Buffer() && View() == Next(Header(), old(View()))
    {
      if state == DEFL_BLOCK_HDR {
        StepBlockHdr();
      } else if state == DEFL_DECODE {
        StepDecode();
      } else if state == DEFL_LEN_EXTRA {
        StepLenExtra();
      } else if state == DEFL_DIST {
        StepDist();
      } else {
        StepDistExtra();
      }
    }

    /** The states that emit decoded bytes, and the one after the last byte. */
    method StepOutput()
      requires w.Valid() && ring.Valid(w.out) && Buffer() && Control(Header(), View())
      requires state in {DEFL_LIT_EMIT, DEFL_COPY_RD, DEFL_COPY_EMIT, DEFL_DRAIN}
      modifies this, w, w.mem.cells, w.mem`log, ring, ring.cells
      ensures w.Valid() && ring.Valid(w.out) && Buffer()
      ensures View() == Next(Header(), old(View()))
    {
      hide NextCopyRd, NextCopyEmit, NextDeflDrain, Rank, Residual;
      if state == DEFL_LIT_EMIT {
        EmitByte(symbol, DEFL_DRAIN, DEFL_DECODE);
      } else if state == DEFL_COPY_RD {
        StepCopyRd();
      } else if state == DEFL_COPY_EMIT {
        StepCopyEmit();
      } else {
        StepDeflDrain();
      }
    }

    method StepCopyEmit()
      requires w.Valid() && ring.Valid(w.out) && Buffer() && |w.out| < w.Limit()
      modifies this`state, this`copyIdx, w, w.mem.cells, w.mem`log, ring, ring.cells
      ensures w.Valid() && ring.Valid(w.out) && Buffer()
      ensures View() == NextCopyEmit(Header(), old(View()))
    {
      var more := if copyIdx + 1 >= copyLen then DEFL_DECODE else DEFL_COPY_RD;
      EmitByte(winRd, DEFL_DRAIN, more);
      copyIdx := copyIdx + 1;
    }

    method StepRuns()
      requires w.Valid() && InRuns(state) && Control(Header(), View())
      modifies this, w, w.mem.cells, w.mem`log
      ensures w.Valid() && View() == Next(Header(), old(View())) && !InDeflate(state)
    {
      hide NextReadCount, NextReadLit, NextRleEmit, NextRleDrain;
      RunsStay(Header(), View());
      if state == RLE_READ_COUNT {
        StepReadCount();
      } else if state == RLE_READ_LIT {
        StepReadLit();
      } else if state == RLE_EMIT {
        StepRleEmit();
      } else {
        StepRleDrain();
      }
    }

    /** Runs a payload to its end.  On every input the engine agrees with the reference
        decoder, byte for byte and fault for fault. */
    method Run()
      requires Valid() && Supplied(Header(), View())
      modifies this, w, w.mem.cells, w.mem`log, ring, ring.cells
      ensures w.Valid()
      ensures match old(Residual(Header(), View()))
              case Done(o) => state == CHECK_CRC32 && w.out == o
              case Bad(f) => state == FAULT && faultType == f
    {
      while !(state == CHECK_CRC32 || state == FAULT)
        invariant Valid() && Supplied(Header(), View())
        invariant Residual(Header(), View()) == old(Residual(Header(), View()))
        decreases Undecoded(Header(), View()), Rank(View()), |rx|
      {
        NextKeeps(Header(), View());
        UndecodedNat(Header(), View());
        Step();
        UndecodedNat(Header(), View());
      }
    }

    /** The last state before Mint: the stored checksum against that of the output. */
    method CheckCrc32(crc32Stored: Word) returns (mint: bool)
      requires w.Valid() && state == CHECK_CRC32
      modifies this`state, this`faultType
      ensures mint <==> crc32Stored == Crc32.Checksum(w.out)
      ensures if mint then state == CHECK_CRC32 else state == FAULT && faultType == FAULT_CRC32
    {
      Crc32.StagesAreTable(Crc32.INIT, w.out);
      mint := Xor(w.crcAcc, Crc32.FINAL) == crc32Stored;
      if !mint {
        state, faultType := FAULT, FAULT_CRC32;
      }
    }
  }

  lemma UndecodedNat(j: Job, a: Regs)
    requires Supplied(j, a)
    ensures Undecoded(j, a) >= 0
  {
  }

  /** A byte taken above the bits already held keeps the buffer's value and width. */
  lemma ByteOnTop(b: byte, buf: seq<bool>, bits: nat)
    requires |buf| <= 24 && LsbVal(buf) == bits
    ensures Or(bits, Shl(b, |buf|)) % 0x1_0000_0000 == LsbVal(buf + LsbBits(b, 8))
  {
    hide Or, Shl, LsbVal, LsbBits;
    LsbBound(buf);
    OrDisjoint(bits, b, |buf|);
    ByteBitsVal(b);
    LsbAppend(buf, LsbBits(b, 8));
    FitsWord(buf + LsbBits(b, 8));
  }

  lemma ByteBitsVal(b: byte)
    ensures LsbVal(LsbBits(b, 8)) == b
  {
    Pow2Values();
    LsbBitsVal(b, 8);
  }

  lemma FitsWord(s: seq<bool>)
    requires |s| <= 32
    ensures LsbVal(s) < 0x1_0000_0000
  {
    LsbBound(s);
    Pow2Mono(|s|, 32);
    Pow2Values();
  }

  /** The three header bits of a block, read off the bit buffer. */
  lemma HeaderBits(buf: seq<bool>)
    requires |buf| >= 3
    ensures (LsbVal(buf) % 2 == 1) == buf[0]
    ensures Low(Shr(LsbVal(buf), 1), 2) == Bit(buf[1]) + 2 * Bit(buf[2])
  {
    LsbSplit(buf, 1);
    LsbSplit(buf[1..], 2);
    assert buf[1..][..2] == [buf[1], buf[2]];
    assert LsbVal([buf[1], buf[2]]) == Bit(buf[1]) + 2 * LsbVal([buf[2]]);
  }

  /** The reversed code registers are the first 7, 8 and 9 bits as Huffman codes. */
  lemma CodeRegisters(buf: seq<bool>)
    ensures |buf| >= 7 ==> Reverse(LsbVal(buf), 7) == MsbVal(buf[..7])
    ensures |buf| >= 8 ==> Reverse(LsbVal(buf), 8) == MsbVal(buf[..8])
    ensures |buf| >= 9 ==> Reverse(LsbVal(buf), 9) == MsbVal(buf[..9])
  {
    if |buf| >= 7 { ReverseIsMsb(buf, 7); }
    if |buf| >= 8 { ReverseIsMsb(buf, 8); }
    if |buf| >= 9 { ReverseIsMsb(buf, 9); }
  }
}
