/** Reference decoder for fixed-Huffman DEFLATE (RFC 1951) into a buffer of a given
    length, and its inverse, the encoder of sections 3.2.3 to 3.2.6. */
module Deflate {
  import opened Bits

  const FAULT_DEFL := 0x18
  const FAULT_WIN := 0x19
  const WIN_SIZE := 2048

  // ---- the tables of section 3.2.5

  function LenBase(i: nat): nat {
    match i
    case 0 => 3 case 1 => 4 case 2 => 5 case 3 => 6 case 4 => 7 case 5 => 8 case 6 => 9 case 7 => 10
    case 8 => 11 case 9 => 13 case 10 => 15 case 11 => 17
    case 12 => 19 case 13 => 23 case 14 => 27 case 15 => 31
    case 16 => 35 case 17 => 43 case 18 => 51 case 19 => 59
    case 20 => 67 case 21 => 83 case 22 => 99 case 23 => 115
    case 24 => 131 case 25 => 163 case 26 => 195 case 27 => 227
    case _ => 258
  }

  function LenExtra(i: nat): nat {
    if i < 8 then 0 else if i < 12 then 1 else if i < 16 then 2 else if i < 20 then 3
    else if i < 24 then 4 else if i < 28 then 5 else 0
  }

  function DistBase(i: nat): nat {
    match i
    case 0 => 1 case 1 => 2 case 2 => 3 case 3 => 4 case 4 => 5 case 5 => 7 case 6 => 9 case 7 => 13
    case 8 => 17 case 9 => 25 case 10 => 33 case 11 => 49 case 12 => 65 case 13 => 97
    case 14 => 129 case 15 => 193 case 16 => 257 case 17 => 385 case 18 => 513 case 19 => 769
    case 20 => 1025 case 21 => 1537 case 22 => 2049 case 23 => 3073 case 24 => 4097 case 25 => 6145
    case 26 => 8193 case 27 => 12289 case 28 => 16385
    case _ => 24577
  }

  function DistExtra(i: nat): nat {
    if i < 4 then 0 else i / 2 - 1
  }

  // ---- the fixed code of section 3.2.6

  function CodeLength(sym: nat): nat {
    if sym < 144 then 8 else if sym < 256 then 9 else if sym < 280 then 7 else 8
  }

  function CodeValue(sym: nat): nat {
    if sym < 144 then 0x30 + sym
    else if sym < 256 then 0x190 + (sym - 144)
    else if sym < 280 then sym - 256
    else 0xC0 + (sym - 280)
  }

  function CodeBits(sym: nat): seq<bool> {
    MsbBits(CodeValue(sym), CodeLength(sym))
  }

  datatype Decoded = Short | Sym(sym: nat, len: nat)

  /** The engine's cascade of comparisons on 7, 8 and 9 reversed bits. */
  function DecodeSym(b: seq<bool>): Decoded {
    if |b| >= 7 && MsbVal(b[..7]) <= 23 then Sym(256 + MsbVal(b[..7]), 7)
    else if |b| >= 8 && 48 <= MsbVal(b[..8]) <= 191 then Sym(MsbVal(b[..8]) - 48, 8)
    else if |b| >= 8 && 192 <= MsbVal(b[..8]) <= 199 then Sym(MsbVal(b[..8]) - 192 + 280, 8)
    else if |b| >= 9 && 400 <= MsbVal(b[..9]) <= 511 then Sym(MsbVal(b[..9]) - 400 + 144, 9)
    else Short
  }

  // ---- copying out of the history

  /** Emits up to `len` bytes, each the one `dist` back, stopping at `limit`. */
  function Copied(out: seq<byte>, len: nat, dist: nat, limit: nat): seq<byte>
    requires 0 < dist <= |out|
    decreases len
  {
    if len == 0 || |out| >= limit then out
    else Copied(out + [out[|out| - dist]], len - 1, dist, limit)
  }

  // ---- the decoder

  datatype Outcome = Done(out: seq<byte>) | Bad(fault: int)

  function Blocks(b: seq<bool>, out: seq<byte>, limit: nat): Outcome
    decreases |b|, 0
  {
    if |b| < 3 || !b[1] || b[2] then Bad(FAULT_DEFL)
    else Tokens(b[3..], b[0], out, limit)
  }

  function Tokens(b: seq<bool>, final: bool, out: seq<byte>, limit: nat): Outcome
    decreases |b|, 1
  {
    match DecodeSym(b)
    case Short => Bad(FAULT_DEFL)
    case Sym(s, n) =>
      if s < 256 then Continue(b[n..], final, out + [s as byte], limit)
      else if s == 256 then
        if !final then Blocks(b[n..], out, limit)
        else if |out| == limit then Done(out) else Bad(FAULT_DEFL)
      else if s <= 285 then Length(b[n..], final, out, limit, s - 257)
      else Bad(FAULT_DEFL)
  }

  /** A full buffer ends decoding; the remaining input is drained unread. */
  function Continue(b: seq<bool>, final: bool, out: seq<byte>, limit: nat): Outcome
    decreases |b|, 2
  {
    if |out| == limit then Done(out) else Tokens(b, final, out, limit)
  }

  function Length(b: seq<bool>, final: bool, out: seq<byte>, limit: nat, i: nat): Outcome
    decreases |b|, 6
  {
    var n := LenExtra(i);
    if |b| < n then Bad(FAULT_DEFL)
    else Distance(b[n..], final, out, limit, LenBase(i) + LsbVal(b[..n]))
  }

  function Distance(b: seq<bool>, final: bool, out: seq<byte>, limit: nat, len: nat): Outcome
    decreases |b|, 5
  {
    if |b| < 5 then Bad(FAULT_DEFL)
    else if MsbVal(b[..5]) > 21 then Bad(FAULT_WIN)
    else DistanceExtra(b[5..], final, out, limit, len, MsbVal(b[..5]))
  }

  function DistanceExtra(b: seq<bool>, final: bool, out: seq<byte>, limit: nat, len: nat, d: nat): Outcome
    decreases |b|, 4
  {
    var n := DistExtra(d);
    if |b| < n then Bad(FAULT_DEFL)
    else Match(b[n..], final, out, limit, len, DistBase(d) + LsbVal(b[..n]))
  }

  function Match(b: seq<bool>, final: bool, out: seq<byte>, limit: nat, len: nat, dist: nat): Outcome
    decreases |b|, 3
  {
    if dist == 0 || dist > Min(WIN_SIZE, |out|) then Bad(FAULT_WIN)
    else Continue(b, final, Copied(out, len, dist, limit), limit)
  }

  function Min(a: nat, b: nat): nat {
    if a < b then a else b
  }

  // ---- the encoder

  datatype Token =
    | Literal(value: byte)
    | Copy(lenIdx: nat, lenBits: nat, distIdx: nat, distBits: nat)
  {
    predicate Valid() {
      Copy? ==>
        && lenIdx <= 28 && lenBits < Pow2(LenExtra(lenIdx))
        && distIdx <= 21 && distBits < Pow2(DistExtra(distIdx))
    }

    function Len(): nat
      requires Copy?
    {
      LenBase(lenIdx) + lenBits
    }

    function Dist(): nat
      requires Copy?
    {
      DistBase(distIdx) + distBits
    }

    function Encode(): seq<bool> {
      match this
      case Literal(v) => CodeBits(v)
      case Copy(l, lb, d, db) =>
        CodeBits(257 + l) + LsbBits(lb, LenExtra(l)) + MsbBits(d, 5) + LsbBits(db, DistExtra(d))
    }
  }

  /** Every token's copy stays inside the 2048-byte window and the history. */
  predicate InHistory(ts: seq<Token>, out: seq<byte>) {
    ts != [] ==>
      && ts[0].Valid()
      && (ts[0].Copy? ==> 0 < ts[0].Dist() <= Min(WIN_SIZE, |out|))
      && InHistory(ts[1..], Expand1(ts[0], out))
  }

  /** The meaning of one token: section 3.2.3 of RFC 1951. */
  function Expand1(t: Token, out: seq<byte>): seq<byte> {
    match t
    case Literal(v) => out + [v]
    case Copy(_, _, _, _) =>
      if 0 < t.Dist() <= |out| then Repeat(out, t.Len(), t.Dist()) else out
  }

  /** `out` continued for `len` bytes with period `dist`. */
  function Repeat(out: seq<byte>, len: nat, dist: nat): (r: seq<byte>)
    requires 0 < dist <= |out|
    ensures |r| == |out| + len
    ensures out <= r
    ensures forall i :: |out| <= i < |r| ==> r[i] == r[i - dist]
  {
    if len == 0 then out
    else
      var r := Repeat(out, len - 1, dist);
      r + [r[|r| - dist]]
  }

  function Expand(ts: seq<Token>, out: seq<byte>): seq<byte> {
    if ts == [] then out else Expand(ts[1..], Expand1(ts[0], out))
  }

  function EncodeTokens(ts: seq<Token>): seq<bool> {
    if ts == [] then [] else ts[0].Encode() + EncodeTokens(ts[1..])
  }

  /** A stream of fixed-Huffman blocks, the last one marked final. */
  function EncodeBlocks(bs: seq<seq<Token>>): seq<bool> {
    if bs == [] then []
    else [|bs| == 1, true, false] + EncodeTokens(bs[0]) + CodeBits(256) + EncodeBlocks(bs[1..])
  }

  function Concat(bs: seq<seq<Token>>): seq<Token> {
    if bs == [] then [] else bs[0] + Concat(bs[1..])
  }
}
