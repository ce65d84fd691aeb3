/** The payload state machine over ideal data: the bit buffer as a sequence of bits, the
    history and the unpacked memory as the output itself.  `Next` is one clock. */
module Machine {
  import opened Bits
  import opened Deflate
  import opened Payload
  import opened StreamBits

  datatype State =
    | INFLATE
    | DEFL_BLOCK_HDR | DEFL_DECODE | DEFL_LIT_EMIT | DEFL_LEN_EXTRA | DEFL_DIST | DEFL_DIST_EXTRA
    | DEFL_COPY_RD | DEFL_COPY_EMIT | DEFL_DRAIN
    | RLE_READ_COUNT | RLE_READ_LIT | RLE_EMIT | RLE_DRAIN
    | CHECK_CRC32 | FAULT

  /** The header fields the payload states use; `limit` is four times `total_words`. */
  datatype Job = Job(kind: nat, compSize: nat, limit: nat)

  datatype Regs = Regs(
    state: State,
    faultType: int,
    rx: seq<Rx>,            // the line, one entry per clock in which the machine listens
    out: seq<byte>,
    bits: seq<bool>,        // the bit buffer, oldest bit first
    deflRxCount: nat,
    bfinal: bool,
    symbol: nat,
    lenIdx: nat,
    distCode: nat,
    copyLen: nat,
    copyDist: nat,
    copyIdx: nat,
    winRd: byte,
    rleRxCount: nat,
    rleCount: byte,
    rleLiteral: byte,
    rleRemaining: nat)

  function Fail(a: Regs, fault: int): Regs {
    a.(state := FAULT, faultType := fault)
  }

  /** One clock of waiting for bits. */
  function Refill(j: Job, a: Regs): Regs {
    if a.deflRxCount >= j.compSize then Fail(a, FAULT_DEFL)
    else if a.rx == [] then a
    else if a.rx[0].Idle? || |a.bits| > 24 then a.(rx := a.rx[1..])
    else a.(rx := a.rx[1..], bits := a.bits + LsbBits(a.rx[0].data, 8), deflRxCount := a.deflRxCount + 1)
  }

  function Drain(a: Regs, count: nat, size: nat): (Regs, nat) {
    if count >= size then (a.(state := CHECK_CRC32), count)
    else if a.rx == [] then (a, count)
    else (a.(rx := a.rx[1..]), if a.rx[0].Byte? then count + 1 else count)
  }

  /** Where the machine goes after emitting a byte. */
  function Emitted(j: Job, a: Regs, b: byte, full: State, more: State): Regs {
    a.(out := a.out + [b], state := if |a.out| + 1 == j.limit then full else more)
  }

  function NextInflate(j: Job, a: Regs): Regs {
    if j.kind == METHOD_STORE then
      if a.rx == [] then a
      else if a.rx[0].Idle? then a.(rx := a.rx[1..])
      else Emitted(j, a.(rx := a.rx[1..]), a.rx[0].data, CHECK_CRC32, INFLATE)
    else if j.kind == METHOD_DEFLATE then a.(state := DEFL_BLOCK_HDR, bits := [], deflRxCount := 0)
    else if j.kind == METHOD_RLE then a.(state := RLE_READ_COUNT, rleRxCount := 0)
    else Fail(a, FAULT_METHOD)
  }

  function NextBlockHdr(j: Job, a: Regs): Regs {
    if |a.bits| < 3 then Refill(j, a) else TakeHeader(a, a.bits[0], a.bits[1] && !a.bits[2], 3)
  }

  function TakeHeader(a: Regs, final: bool, fixed: bool, n: nat): Regs
    requires n <= |a.bits|
  {
    var a' := a.(bfinal := final, bits := a.bits[n..]);
    if fixed then a'.(state := DEFL_DECODE) else Fail(a', FAULT_DEFL)
  }

  function NextDecode(j: Job, a: Regs): Regs {
    match DecodeSym(a.bits)
    case Short => if |a.bits| >= 9 then Fail(a, FAULT_DEFL) else Refill(j, a)
    case Sym(s, n) => if s > 285 then Fail(a, FAULT_DEFL) else TakeSymbol(j, a, s, n)
  }

  function TakeSymbol(j: Job, a: Regs, s: nat, n: nat): Regs
    requires n <= |a.bits|
  {
    var a' := a.(symbol := s, bits := a.bits[n..]);
    if s < 256 then a'.(state := DEFL_LIT_EMIT)
    else if s > 256 then a'.(lenIdx := s - 257, state := DEFL_LEN_EXTRA)
    else if !a.bfinal then a'.(state := DEFL_BLOCK_HDR)
    else if |a.out| == j.limit then a'.(state := DEFL_DRAIN)
    else Fail(a', FAULT_DEFL)
  }

  function NextLitEmit(j: Job, a: Regs): Regs
    requires a.symbol < 256
  {
    Emitted(j, a, a.symbol, DEFL_DRAIN, DEFL_DECODE)
  }

  function NextLenExtra(j: Job, a: Regs): Regs {
    var n := LenExtra(a.lenIdx);
    if |a.bits| < n then Refill(j, a)
    else a.(copyLen := LenBase(a.lenIdx) + LsbVal(a.bits[..n]), bits := a.bits[n..], state := DEFL_DIST)
  }

  function NextDist(j: Job, a: Regs): Regs {
    if |a.bits| < 5 then Refill(j, a) else TakeDistance(a, MsbVal(a.bits[..5]), 5)
  }

  function TakeDistance(a: Regs, code: nat, n: nat): Regs
    requires n <= |a.bits|
  {
    var a' := a.(distCode := code, bits := a.bits[n..]);
    if code > 21 then Fail(a', FAULT_WIN) else a'.(state := DEFL_DIST_EXTRA)
  }

  function NextDistExtra(j: Job, a: Regs): Regs {
    var n := DistExtra(a.distCode);
    if |a.bits| < n then Refill(j, a)
    else a.(copyDist := DistBase(a.distCode) + LsbVal(a.bits[..n]), bits := a.bits[n..], copyIdx := 0,
            state := DEFL_COPY_RD)
  }

  function NextCopyRd(a: Regs): Regs
    requires a.copyIdx > 0 ==> 0 < a.copyDist <= |a.out|
  {
    if a.copyIdx == 0 && (a.copyDist == 0 || a.copyDist > Min(WIN_SIZE, |a.out|)) then Fail(a, FAULT_WIN)
    else a.(winRd := a.out[|a.out| - a.copyDist], state := DEFL_COPY_EMIT)
  }

  function NextCopyEmit(j: Job, a: Regs): Regs {
    var more := if a.copyIdx + 1 >= a.copyLen then DEFL_DECODE else DEFL_COPY_RD;
    Emitted(j, a.(copyIdx := a.copyIdx + 1), a.winRd, DEFL_DRAIN, more)
  }

  function NextDeflDrain(j: Job, a: Regs): Regs {
    var (a', n) := Drain(a, a.deflRxCount, j.compSize);
    a'.(deflRxCount := n)
  }

  function NextReadCount(j: Job, a: Regs): Regs {
    if a.rleRxCount >= j.compSize then
      if |a.out| == j.limit then a.(state := CHECK_CRC32) else Fail(a, FAULT_RLE)
    else if a.rx == [] then a
    else if a.rx[0].Idle? then a.(rx := a.rx[1..])
    else a.(rx := a.rx[1..], rleCount := a.rx[0].data, rleRxCount := a.rleRxCount + 1, state := RLE_READ_LIT)
  }

  function NextReadLit(j: Job, a: Regs): Regs {
    if a.rleRxCount >= j.compSize then Fail(a, FAULT_RLE)
    else if a.rx == [] then a
    else if a.rx[0].Idle? then a.(rx := a.rx[1..])
    else a.(rx := a.rx[1..], rleLiteral := a.rx[0].data, rleRemaining := a.rleCount,
            rleRxCount := a.rleRxCount + 1,
            state := if a.rleCount == 0 then RLE_READ_COUNT else RLE_EMIT)
  }

  function NextRleEmit(j: Job, a: Regs): Regs
    requires a.rleRemaining > 0
  {
    var more := if a.rleRemaining <= 1 then RLE_READ_COUNT else RLE_EMIT;
    Emitted(j, a.(rleRemaining := a.rleRemaining - 1), a.rleLiteral, RLE_DRAIN, more)
  }

  function NextRleDrain(j: Job, a: Regs): Regs {
    var (a', n) := Drain(a, a.rleRxCount, j.compSize);
    a'.(rleRxCount := n)
  }

  function Next(j: Job, a: Regs): Regs
    requires Control(j, a)
  {
    match a.state
    case INFLATE => NextInflate(j, a)
    case DEFL_BLOCK_HDR => NextBlockHdr(j, a)
    case DEFL_DECODE => NextDecode(j, a)
    case DEFL_LIT_EMIT => NextLitEmit(j, a)
    case DEFL_LEN_EXTRA => NextLenExtra(j, a)
    case DEFL_DIST => NextDist(j, a)
    case DEFL_DIST_EXTRA => NextDistExtra(j, a)
    case DEFL_COPY_RD => NextCopyRd(a)
    case DEFL_COPY_EMIT => NextCopyEmit(j, a)
    case DEFL_DRAIN => NextDeflDrain(j, a)
    case RLE_READ_COUNT => NextReadCount(j, a)
    case RLE_READ_LIT => NextReadLit(j, a)
    case RLE_EMIT => NextRleEmit(j, a)
    case RLE_DRAIN => NextRleDrain(j, a)
    case CHECK_CRC32 => a
    case FAULT => a
  }

  // ---- what every clock keeps

  predicate InDeflate(s: State) {
    s in {DEFL_BLOCK_HDR, DEFL_DECODE, DEFL_LIT_EMIT, DEFL_LEN_EXTRA, DEFL_DIST,
          DEFL_DIST_EXTRA, DEFL_COPY_RD, DEFL_COPY_EMIT, DEFL_DRAIN}
  }

  predicate InRuns(s: State) {
    s in {RLE_READ_COUNT, RLE_READ_LIT, RLE_EMIT, RLE_DRAIN}
  }

  predicate Full(s: State) {
    s in {DEFL_DRAIN, RLE_DRAIN, CHECK_CRC32}
  }

  predicate Copying(a: Regs) {
    a.copyIdx < a.copyLen <= 258 && 0 < a.copyDist <= Min(WIN_SIZE, |a.out|)
  }

  /** What each control state knows about the registers. */
  predicate Control(j: Job, a: Regs) {
    && |a.bits| <= 32
    && (InDeflate(a.state) ==> j.kind == METHOD_DEFLATE)
    && (InRuns(a.state) ==> j.kind == METHOD_RLE)
    && (if Full(a.state) then |a.out| == j.limit else a.state.FAULT? || |a.out| < j.limit)
    && (a.state.INFLATE? && j.kind != METHOD_STORE ==> a.out == [])
    && (a.state.DEFL_LIT_EMIT? ==> a.symbol < 256)
    && (a.state.DEFL_LEN_EXTRA? ==> a.lenIdx <= 28)
    && (a.state.DEFL_DIST? || a.state.DEFL_DIST_EXTRA? ==> 3 <= a.copyLen <= 258)
    && (a.state.DEFL_DIST_EXTRA? ==> a.distCode <= 21)
    && (a.state.DEFL_COPY_RD? ==> a.copyIdx < a.copyLen <= 258 && a.copyDist <= WIN_SIZE)
    && (a.state.DEFL_COPY_RD? && a.copyIdx > 0 ==> Copying(a))
    && (a.state.DEFL_COPY_EMIT? ==> Copying(a) && a.winRd == a.out[|a.out| - a.copyDist])
    && (a.state.RLE_EMIT? ==> a.rleRemaining > 0)
  }

  /** How many payload bytes are still to come. */
  function Wanted(j: Job, a: Regs): int {
    if j.kind == METHOD_STORE then j.limit - |a.out|
    else if a.state.INFLATE? then j.compSize
    else if j.kind == METHOD_DEFLATE then j.compSize - a.deflRxCount
    else if j.kind == METHOD_RLE then j.compSize - a.rleRxCount
    else j.compSize
  }

  /** The line will deliver as many bytes as the payload has. */
  predicate Supplied(j: Job, a: Regs) {
    0 <= Wanted(j, a) <= |Data(a.rx)|
  }

  function Pending(j: Job, a: Regs): seq<byte>
    requires Supplied(j, a)
  {
    Data(a.rx)[..Wanted(j, a)]
  }

  /** The bits not yet decoded: those in the buffer and those still on the line. */
  function Rest(j: Job, a: Regs): seq<bool>
    requires Supplied(j, a)
  {
    a.bits + StreamBits.Of(Pending(j, a))
  }

  /** What the payload still decodes to, by the reference decoders. */
  function Residual(j: Job, a: Regs): Outcome
    requires Supplied(j, a) && Control(j, a)
  {
    match a.state
    case INFLATE => Reference(j.kind, Pending(j, a), a.out, j.limit)
    case DEFL_BLOCK_HDR => Blocks(Rest(j, a), a.out, j.limit)
    case DEFL_DECODE => Tokens(Rest(j, a), a.bfinal, a.out, j.limit)
    case DEFL_LIT_EMIT => Continue(Rest(j, a), a.bfinal, a.out + [a.symbol], j.limit)
    case DEFL_LEN_EXTRA => Length(Rest(j, a), a.bfinal, a.out, j.limit, a.lenIdx)
    case DEFL_DIST => Distance(Rest(j, a), a.bfinal, a.out, j.limit, a.copyLen)
    case DEFL_DIST_EXTRA => DistanceExtra(Rest(j, a), a.bfinal, a.out, j.limit, a.copyLen, a.distCode)
    case DEFL_COPY_RD =>
      if a.copyIdx == 0 then Match(Rest(j, a), a.bfinal, a.out, j.limit, a.copyLen, a.copyDist)
      else Continue(Rest(j, a), a.bfinal, Copied(a.out, a.copyLen - a.copyIdx, a.copyDist, j.limit), j.limit)
    case DEFL_COPY_EMIT =>
      Continue(Rest(j, a), a.bfinal, Copied(a.out, a.copyLen - a.copyIdx, a.copyDist, j.limit), j.limit)
    case RLE_READ_COUNT => Runs(Pending(j, a), a.out, j.limit)
    case RLE_READ_LIT => RunLiteral(a.rleCount, Pending(j, a), a.out, j.limit)
    case RLE_EMIT => AfterRun(Pending(j, a), Fill(a.out, a.rleRemaining, a.rleLiteral, j.limit), j.limit)
    case DEFL_DRAIN => Done(a.out)
    case RLE_DRAIN => Done(a.out)
    case CHECK_CRC32 => Done(a.out)
    case FAULT => Bad(a.faultType)
  }

  /** Payload bits still to be decoded. */
  function Undecoded(j: Job, a: Regs): int {
    |a.bits| + 8 * Wanted(j, a)
  }

  /** Clocks left before more of the payload is decoded. */
  function Rank(a: Regs): nat {
    match a.state
    case INFLATE => 2000
    case DEFL_LEN_EXTRA => 1300
    case DEFL_DIST => 1200
    case DEFL_DIST_EXTRA => 1100
    case DEFL_COPY_RD => if a.copyIdx < a.copyLen then 2 * (a.copyLen - a.copyIdx) + 3 else 3
    case DEFL_COPY_EMIT => if a.copyIdx < a.copyLen then 2 * (a.copyLen - a.copyIdx) + 2 else 2
    case RLE_EMIT => a.rleRemaining + 3
    case DEFL_LIT_EMIT => 3
    case DEFL_DRAIN => 1
    case RLE_DRAIN => 1
    case CHECK_CRC32 => 0
    case FAULT => 0
    case _ => 2
  }

  /** Every clock decodes payload, or moves towards decoding it, or uses up a clock of the line. */
  predicate Advances(j: Job, a: Regs, b: Regs) {
    || Undecoded(j, b) < Undecoded(j, a)
    || (Undecoded(j, b) == Undecoded(j, a) && Rank(b) < Rank(a))
    || (Undecoded(j, b) == Undecoded(j, a) && Rank(b) == Rank(a) && |b.rx| < |a.rx|)
  }

  predicate Finished(a: Regs) {
    a.state.CHECK_CRC32? || a.state.FAULT?
  }

  /** A run state never leads into the DEFLATE states. */
  lemma RunsStay(j: Job, a: Regs)
    requires Control(j, a) && InRuns(a.state)
    ensures !InDeflate(Next(j, a).state)
  {
    hide Copying;
  }
}
