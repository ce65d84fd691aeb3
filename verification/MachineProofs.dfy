/** Every clock of the payload machine keeps what the payload decodes to, and the machine
    always finishes. */
module MachineProofs {
  import opened Bits
  import opened Deflate
  import opened DeflateProofs
  import opened Machine
  import opened Payload
  import opened StreamBits

  /** One clock from `a` to `b` that keeps the invariant and the decoded meaning. */
  ghost predicate Keeps(j: Job, a: Regs, b: Regs)
    requires Control(j, a) && Supplied(j, a)
  {
    Control(j, b) && Supplied(j, b) && Residual(j, b) == Residual(j, a) && Advances(j, a, b)
  }

  // ---- the line

  lemma LineHead(rx: seq<Rx>)
    requires Data(rx) != []
    ensures rx != []
    ensures Data(rx) == (if rx[0].Byte? then [rx[0].data] + Data(rx[1..]) else Data(rx[1..]))
  {
  }

  lemma RefillKeeps(j: Job, a: Regs)
    requires Supplied(j, a) && InDeflate(a.state) && j.kind == METHOD_DEFLATE && |a.bits| <= 24
    ensures var b := Refill(j, a);
      && Supplied(j, b) && |b.bits| <= 32 && b.out == a.out
      && (a.deflRxCount >= j.compSize ==> b == Fail(a, FAULT_DEFL) && Rest(j, a) == a.bits)
      && (a.deflRxCount < j.compSize ==>
            && Rest(j, b) == Rest(j, a) && |b.rx| < |a.rx| && Undecoded(j, b) == Undecoded(j, a)
            && b == a.(rx := b.rx, bits := b.bits, deflRxCount := b.deflRxCount))
  {
    if a.deflRxCount < j.compSize {
      LineHead(a.rx);
      if a.rx[0].Byte? {
        var d, more := a.rx[0].data, Data(a.rx[1..])[..Wanted(j, a) - 1];
        assert Pending(j, a) == [d] + more;
        OfCons(d, more);
        assert a.bits + (LsbBits(d, 8) + StreamBits.Of(more)) == a.bits + LsbBits(d, 8) + StreamBits.Of(more);
      }
    }
  }

  lemma OfCons(d: byte, p: seq<byte>)
    ensures StreamBits.Of([d] + p) == LsbBits(d, 8) + StreamBits.Of(p)
  {
    assert ([d] + p)[1..] == p;
  }

  // ---- block header and symbols

  lemma BlockHdrKeeps(j: Job, a: Regs)
    requires Control(j, a) && Supplied(j, a) && a.state.DEFL_BLOCK_HDR?
    ensures Keeps(j, a, NextBlockHdr(j, a))
  {
    if |a.bits| < 3 {
      RefillKeeps(j, a);
    } else {
      assert Rest(j, a)[3..] == a.bits[3..] + StreamBits.Of(Pending(j, a));
    }
  }

  lemma DecodeKeeps(j: Job, a: Regs)
    requires Control(j, a) && Supplied(j, a) && a.state.DEFL_DECODE?
    ensures Keeps(j, a, NextDecode(j, a))
  {
    if DecodeSym(a.bits).Short? {
      DecodeWaits(j, a);
    } else {
      DecodeTakes(j, a);
    }
  }

  lemma DecodeWaits(j: Job, a: Regs)
    requires Control(j, a) && Supplied(j, a) && a.state.DEFL_DECODE? && DecodeSym(a.bits).Short?
    ensures Keeps(j, a, NextDecode(j, a))
  {
    if |a.bits| >= 9 {
      NineBitsDecode(a.bits);
    }
    RefillKeeps(j, a);
  }

  lemma DecodeTakes(j: Job, a: Regs)
    requires Control(j, a) && Supplied(j, a) && a.state.DEFL_DECODE? && DecodeSym(a.bits).Sym?
    ensures Keeps(j, a, NextDecode(j, a))
  {
    DecodeStable(a.bits, StreamBits.Of(Pending(j, a)));
    DecodedIsCode(a.bits);
    var Sym(s, n) := DecodeSym(a.bits);
    SymbolStep(Rest(j, a), a.bfinal, a.out, j.limit, s, n);
    if s < 256 {
      LiteralKeeps(j, a, s, n);
    } else if s == 256 {
      EndKeeps(j, a, s, n);
    } else if s <= 285 {
      LengthKeeps(j, a, s, n);
    }
  }

  lemma TailSplit(j: Job, a: Regs, n: nat)
    requires Supplied(j, a) && n <= |a.bits|
    ensures Rest(j, a)[n..] == a.bits[n..] + StreamBits.Of(Pending(j, a))
  {
  }

  lemma LiteralKeeps(j: Job, a: Regs, s: nat, n: nat)
    requires Control(j, a) && Supplied(j, a) && a.state.DEFL_DECODE? && 7 <= n <= |a.bits| && s < 256
    requires Residual(j, a) == AfterSymbol(Rest(j, a)[n..], a.bfinal, a.out, j.limit, s)
    ensures Keeps(j, a, TakeSymbol(j, a, s, n))
  {
    TailSplit(j, a, n);
  }

  lemma LengthKeeps(j: Job, a: Regs, s: nat, n: nat)
    requires Control(j, a) && Supplied(j, a) && a.state.DEFL_DECODE? && 7 <= n <= |a.bits| && 256 < s <= 285
    requires Residual(j, a) == AfterSymbol(Rest(j, a)[n..], a.bfinal, a.out, j.limit, s)
    ensures Keeps(j, a, TakeSymbol(j, a, s, n))
  {
    TailSplit(j, a, n);
  }

  lemma EndKeeps(j: Job, a: Regs, s: nat, n: nat)
    requires Control(j, a) && Supplied(j, a) && a.state.DEFL_DECODE? && 7 <= n <= |a.bits| && s == 256
    requires Residual(j, a) == AfterSymbol(Rest(j, a)[n..], a.bfinal, a.out, j.limit, s)
    ensures Keeps(j, a, TakeSymbol(j, a, s, n))
  {
    TailSplit(j, a, n);
  }

  /** What the reference decoder does after one symbol. */
  function AfterSymbol(b: seq<bool>, final: bool, out: seq<byte>, limit: nat, s: nat): Outcome {
    if s < 256 then Continue(b, final, out + [s as byte], limit)
    else if s == 256 then
      if !final then Blocks(b, out, limit)
      else if |out| == limit then Done(out) else Bad(FAULT_DEFL)
    else if s <= 285 then Length(b, final, out, limit, s - 257)
    else Bad(FAULT_DEFL)
  }

  lemma SymbolStep(b: seq<bool>, final: bool, out: seq<byte>, limit: nat, s: nat, n: nat)
    requires DecodeSym(b) == Sym(s, n)
    ensures 7 <= n <= |b|
    ensures Tokens(b, final, out, limit) == AfterSymbol(b[n..], final, out, limit, s)
  {
  }

  lemma LitEmitKeeps(j: Job, a: Regs)
    requires Control(j, a) && Supplied(j, a) && a.state.DEFL_LIT_EMIT?
    ensures Keeps(j, a, NextLitEmit(j, a))
  {
  }

  // ---- lengths and distances

  lemma ExtraSplit(j: Job, a: Regs, n: nat)
    requires Supplied(j, a) && n <= |a.bits|
    ensures Rest(j, a)[..n] == a.bits[..n]
    ensures Rest(j, a)[n..] == a.bits[n..] + StreamBits.Of(Pending(j, a))
  {
  }

  lemma LenExtraKeeps(j: Job, a: Regs)
    requires Control(j, a) && Supplied(j, a) && a.state.DEFL_LEN_EXTRA?
    ensures Keeps(j, a, NextLenExtra(j, a))
  {
    hide Reference, Runs, RunLiteral, AfterRun, Blocks, Tokens, Fill;
    var n := LenExtra(a.lenIdx);
    if |a.bits| < n {
      RefillKeeps(j, a);
    } else {
      ExtraSplit(j, a, n);
      LengthBound(a.lenIdx, a.bits[..n]);
    }
  }

  lemma LengthBound(i: nat, extra: seq<bool>)
    requires i <= 28 && |extra| == LenExtra(i)
    ensures 3 <= LenBase(i) + LsbVal(extra) <= 258
  {
    LsbBound(extra);
    assert Pow2(5) == 32 && Pow2(4) == 16 && Pow2(3) == 8 && Pow2(2) == 4;
  }

  lemma DistKeeps(j: Job, a: Regs)
    requires Control(j, a) && Supplied(j, a) && a.state.DEFL_DIST?
    ensures Keeps(j, a, NextDist(j, a))
  {
    hide Reference, Runs, RunLiteral, AfterRun, Blocks, Tokens, Fill;
    if |a.bits| < 5 {
      RefillKeeps(j, a);
    } else {
      ExtraSplit(j, a, 5);
    }
  }

  lemma DistExtraKeeps(j: Job, a: Regs)
    requires Control(j, a) && Supplied(j, a) && a.state.DEFL_DIST_EXTRA?
    ensures Keeps(j, a, NextDistExtra(j, a))
  {
    hide Reference, Runs, RunLiteral, AfterRun, Blocks, Tokens, Fill;
    var n := DistExtra(a.distCode);
    if |a.bits| < n {
      RefillKeeps(j, a);
    } else {
      ExtraSplit(j, a, n);
      DistanceBound(a.distCode, a.bits[..n]);
    }
  }

  lemma DistanceBound(i: nat, extra: seq<bool>)
    requires i <= 21 && |extra| == DistExtra(i)
    ensures 1 <= DistBase(i) + LsbVal(extra) <= WIN_SIZE
  {
    LsbBound(extra);
    DistancePow(i);
  }

  lemma DistancePow(i: nat)
    requires i <= 21
    ensures DistBase(i) + Pow2(DistExtra(i)) <= WIN_SIZE + 1
  {
    Pow2Values();
    assert Pow2(9) == 2 * Pow2(8) && Pow2(8) == 2 * Pow2(7) && Pow2(7) == 2 * Pow2(6);
    assert Pow2(5) == 32 && Pow2(4) == 16 && Pow2(3) == 8 && Pow2(2) == 4;
  }

  // ---- copies

  lemma CopyRdKeeps(j: Job, a: Regs)
    requires Control(j, a) && Supplied(j, a) && a.state.DEFL_COPY_RD?
    ensures Keeps(j, a, NextCopyRd(a))
  {
  }

  lemma CopiedStep(out: seq<byte>, len: nat, dist: nat, limit: nat)
    requires 0 < dist <= |out| < limit && len > 0
    ensures var out' := out + [out[|out| - dist]];
      Copied(out, len, dist, limit) == if |out'| == limit || len == 1 then out' else Copied(out', len - 1, dist, limit)
  {
  }

  /** Emitting keeps the line and the buffer; the machine runs full exactly at the limit. */
  lemma EmittedKeeps(j: Job, a: Regs, b: byte, full: State, more: State)
    requires Supplied(j, a) && j.kind != METHOD_STORE && !a.state.INFLATE? && !full.INFLATE? && !more.INFLATE?
    ensures var n := Emitted(j, a, b, full, more);
      Supplied(j, n) && Pending(j, n) == Pending(j, a) && Undecoded(j, n) == Undecoded(j, a)
  {
  }

  lemma CopyEmitKeeps(j: Job, a: Regs)
    requires Control(j, a) && Supplied(j, a) && a.state.DEFL_COPY_EMIT?
    ensures Keeps(j, a, NextCopyEmit(j, a))
  {
    if |a.out| + 1 == j.limit {
      CopyFills(j, a);
    } else if a.copyIdx + 1 >= a.copyLen {
      CopyEnds(j, a);
    } else {
      CopyGoesOn(j, a);
    }
  }

  lemma CopyFills(j: Job, a: Regs)
    requires Control(j, a) && Supplied(j, a) && a.state.DEFL_COPY_EMIT? && |a.out| + 1 == j.limit
    ensures Keeps(j, a, NextCopyEmit(j, a))
  {
    hide Fill, Reference, Runs, StreamBits.Of, Data;
    CopiedStep(a.out, a.copyLen - a.copyIdx, a.copyDist, j.limit);
    EmittedKeeps(j, a.(copyIdx := a.copyIdx + 1), a.winRd, DEFL_DRAIN, DEFL_DECODE);
    EmittedKeeps(j, a.(copyIdx := a.copyIdx + 1), a.winRd, DEFL_DRAIN, DEFL_COPY_RD);
  }

  lemma CopyEnds(j: Job, a: Regs)
    requires Control(j, a) && Supplied(j, a) && a.state.DEFL_COPY_EMIT?
    requires |a.out| + 1 != j.limit && a.copyIdx + 1 >= a.copyLen
    ensures Keeps(j, a, NextCopyEmit(j, a))
  {
    hide Fill, Reference, Runs, StreamBits.Of, Data;
    CopiedStep(a.out, a.copyLen - a.copyIdx, a.copyDist, j.limit);
    EmittedKeeps(j, a.(copyIdx := a.copyIdx + 1), a.winRd, DEFL_DRAIN, DEFL_DECODE);
  }

  lemma CopyGoesOn(j: Job, a: Regs)
    requires Control(j, a) && Supplied(j, a) && a.state.DEFL_COPY_EMIT?
    requires |a.out| + 1 != j.limit && a.copyIdx + 1 < a.copyLen
    ensures Keeps(j, a, NextCopyEmit(j, a))
  {
    hide Continue, Copied, Fill, Reference, Runs, StreamBits.Of, Data;
    var n := NextCopyEmit(j, a);
    assert n == a.(copyIdx := a.copyIdx + 1, out := a.out + [a.winRd], state := DEFL_COPY_RD);
    assert Rest(j, n) == Rest(j, a) && Rank(n) < Rank(a);
    CopiedStep(a.out, a.copyLen - a.copyIdx, a.copyDist, j.limit);
    EmittedKeeps(j, a.(copyIdx := a.copyIdx + 1), a.winRd, DEFL_DRAIN, DEFL_COPY_RD);
  }

  // ---- stored and run-length payloads, draining

  lemma InflateKeeps(j: Job, a: Regs)
    requires Control(j, a) && Supplied(j, a) && a.state.INFLATE?
    ensures Keeps(j, a, NextInflate(j, a))
  {
    if j.kind == METHOD_STORE {
      StoreKeeps(j, a);
    } else if j.kind == METHOD_DEFLATE {
      var n := NextInflate(j, a);
      assert Pending(j, n) == Pending(j, a);
      assert Rest(j, n) == StreamBits.Of(Pending(j, a));
    }
  }

  lemma StoreKeeps(j: Job, a: Regs)
    requires Control(j, a) && Supplied(j, a) && a.state.INFLATE? && j.kind == METHOD_STORE
    ensures Keeps(j, a, NextInflate(j, a))
  {
    LineHead(a.rx);
    if a.rx[0].Byte? {
      var d, more := a.rx[0].data, Data(a.rx[1..])[..Wanted(j, a) - 1];
      assert Pending(j, a) == [d] + more;
      assert a.out + ([d] + more) == (a.out + [d]) + more;
    }
  }

  lemma DeflDrainKeeps(j: Job, a: Regs)
    requires Control(j, a) && Supplied(j, a) && a.state.DEFL_DRAIN?
    ensures Keeps(j, a, NextDeflDrain(j, a))
  {
    if Wanted(j, a) > 0 {
      LineHead(a.rx);
    }
  }

  lemma RleDrainKeeps(j: Job, a: Regs)
    requires Control(j, a) && Supplied(j, a) && a.state.RLE_DRAIN?
    ensures Keeps(j, a, NextRleDrain(j, a))
  {
    if Wanted(j, a) > 0 {
      LineHead(a.rx);
    }
  }

  lemma ReadCountKeeps(j: Job, a: Regs)
    requires Control(j, a) && Supplied(j, a) && a.state.RLE_READ_COUNT?
    ensures Keeps(j, a, NextReadCount(j, a))
  {
    if a.rleRxCount < j.compSize {
      PendingHead(j, a);
    }
  }

  lemma ReadLitKeeps(j: Job, a: Regs)
    requires Control(j, a) && Supplied(j, a) && a.state.RLE_READ_LIT?
    ensures Keeps(j, a, NextReadLit(j, a))
  {
    if a.rleRxCount < j.compSize {
      PendingHead(j, a);
    }
  }

  /** The next byte of a run-length payload is the next byte of the line. */
  lemma PendingHead(j: Job, a: Regs)
    requires Supplied(j, a) && InRuns(a.state) && j.kind == METHOD_RLE && a.rleRxCount < j.compSize
    ensures a.rx != []
    ensures a.rx[0].Byte? ==>
      Pending(j, a) == [a.rx[0].data] + Data(a.rx[1..])[..Wanted(j, a) - 1]
  {
    LineHead(a.rx);
  }

  lemma FillStep(out: seq<byte>, n: nat, v: byte, limit: nat)
    requires |out| < limit && n > 0
    ensures Fill(out, n, v, limit)
         == if |out| + 1 == limit || n == 1 then out + [v] else Fill(out + [v], n - 1, v, limit)
  {
  }

  lemma RleEmitKeeps(j: Job, a: Regs)
    requires Control(j, a) && Supplied(j, a) && a.state.RLE_EMIT?
    ensures Keeps(j, a, NextRleEmit(j, a))
  {
    FillStep(a.out, a.rleRemaining, a.rleLiteral, j.limit);
  }

  /** The simulation: every clock of an unfinished machine keeps the invariant and what the
      payload decodes to, and advances. */
  lemma NextKeeps(j: Job, a: Regs)
    requires Control(j, a) && Supplied(j, a) && !Finished(a)
    ensures Keeps(j, a, Next(j, a))
  {
    match a.state
    case INFLATE => InflateKeeps(j, a);
    case DEFL_BLOCK_HDR => BlockHdrKeeps(j, a);
    case DEFL_DECODE => DecodeKeeps(j, a);
    case DEFL_LIT_EMIT => LitEmitKeeps(j, a);
    case DEFL_LEN_EXTRA => LenExtraKeeps(j, a);
    case DEFL_DIST => DistKeeps(j, a);
    case DEFL_DIST_EXTRA => DistExtraKeeps(j, a);
    case DEFL_COPY_RD => CopyRdKeeps(j, a);
    case DEFL_COPY_EMIT => CopyEmitKeeps(j, a);
    case DEFL_DRAIN => DeflDrainKeeps(j, a);
    case RLE_DRAIN => RleDrainKeeps(j, a);
    case RLE_READ_COUNT => ReadCountKeeps(j, a);
    case RLE_READ_LIT => ReadLitKeeps(j, a);
    case RLE_EMIT => RleEmitKeeps(j, a);
  }
}
