/** The reference decoder inverts the encoder, for every stream of tokens. */
module DeflateProofs {
  import opened Bits
  import opened Deflate

  // ---- the fixed Huffman code

  lemma CodeFits(sym: nat)
    requires sym <= 287
    ensures CodeValue(sym) < Pow2(CodeLength(sym))
    ensures MsbVal(CodeBits(sym)) == CodeValue(sym)
  {
    Pow2Values();
    assert Pow2(8) == 2 * Pow2(7) && Pow2(9) == 2 * Pow2(8);
    MsbBitsVal(CodeValue(sym), CodeLength(sym));
  }

  /** The values of the 7-, 8- and 9-bit prefixes determine each other. */
  lemma Prefixes(b: seq<bool>, n: nat)
    requires 0 < n <= |b|
    ensures MsbVal(b[..n]) == 2 * MsbVal(b[..n - 1]) + Bit(b[n - 1])
  {
    assert b[..n] == b[..n - 1] + [b[n - 1]];
    MsbSnoc(b[..n - 1], b[n - 1]);
  }

  /** The cascade recognises exactly the code of section 3.2.6 of RFC 1951. */
  lemma DecodeSymIff(b: seq<bool>, sym: nat)
    ensures DecodeSym(b) == Sym(sym, CodeLength(sym)) && sym <= 287
       <==> sym <= 287 && CodeBits(sym) <= b
  {
    if sym <= 287 && CodeBits(sym) <= b {
      DecodeCode(b, sym);
    }
    if sym <= 287 && DecodeSym(b) == Sym(sym, CodeLength(sym)) {
      DecodedIsCode(b);
    }
  }

  lemma DecodeCode(b: seq<bool>, sym: nat)
    requires sym <= 287 && CodeBits(sym) <= b
    ensures DecodeSym(b) == Sym(sym, CodeLength(sym))
  {
    var n := CodeLength(sym);
    assert b[..n] == CodeBits(sym);
    CodeFits(sym);
    if n >= 8 { Prefixes(b, 8); }
    if n == 9 { Prefixes(b, 9); }
  }

  lemma DecodedIsCode(b: seq<bool>)
    requires DecodeSym(b).Sym?
    ensures var Sym(s, n) := DecodeSym(b);
      s <= 287 && n == CodeLength(s) && CodeBits(s) <= b
  {
    var Sym(s, n) := DecodeSym(b);
    MsbBound(b[..n]);
    Pow2Values();
    assert MsbVal(b[..n]) == CodeValue(s);
    CodeFits(s);
    MsbInjective(b[..n], CodeBits(s));
  }

  /** Nine bits always hold a code: the engine's last fallback is never taken. */
  lemma NineBitsDecode(b: seq<bool>)
    requires |b| >= 9
    ensures DecodeSym(b).Sym?
  {
    Prefixes(b, 8);
    Prefixes(b, 9);
    MsbBound(b[..9]);
    Pow2Values();
    assert Pow2(9) == 2 * Pow2(8);
  }

  /** Bits that follow a code do not change what it decodes to. */
  lemma DecodeStable(b: seq<bool>, t: seq<bool>)
    requires DecodeSym(b).Sym?
    ensures DecodeSym(b + t) == DecodeSym(b)
  {
    DecodedIsCode(b);
    var s := DecodeSym(b).sym;
    assert b <= b + t;
    DecodeCode(b + t, s);
  }

  // ---- overlapping copies

  /** Byte-by-byte copying, overlapping or not, continues the output periodically. */
  lemma {:induction false} CopiedIsRepeat(out: seq<byte>, len: nat, dist: nat, limit: nat)
    requires 0 < dist <= |out| && |out| + len <= limit
    ensures Copied(out, len, dist, limit) == Repeat(out, len, dist)
    decreases len
  {
    if len > 0 {
      var out' := out + [out[|out| - dist]];
      CopiedIsRepeat(out', len - 1, dist, limit);
      var r, r' := Repeat(out, len, dist), Repeat(out', len - 1, dist);
      assert r[|out|] == r[|out| - dist] == out[|out| - dist];
      assert out' <= r;
      PeriodUnique(r, r', |out'|, dist);
    }
  }

  lemma {:induction false} PeriodUnique(r: seq<byte>, s: seq<byte>, k: nat, dist: nat)
    requires |r| == |s| && 0 < dist <= k <= |r| && r[..k] == s[..k]
    requires forall i :: k <= i < |r| ==> r[i] == r[i - dist] && s[i] == s[i - dist]
    ensures r == s
    decreases |r| - k
  {
    if k < |r| {
      assert r[k] == r[..k][k - dist] == s[..k][k - dist] == s[k];
      assert r[..k + 1] == r[..k] + [r[k]] && s[..k + 1] == s[..k] + [s[k]];
      PeriodUnique(r, s, k + 1, dist);
    }
  }

  // ---- one token

  lemma LiteralRoundTrip(v: byte, tail: seq<bool>, final: bool, out: seq<byte>, limit: nat)
    ensures Tokens(Literal(v).Encode() + tail, final, out, limit) == Continue(tail, final, out + [v], limit)
  {
    var b := CodeBits(v) + tail;
    DecodeCode(b, v);
    assert b[CodeLength(v)..] == tail;
  }

  lemma CopyRoundTrip(t: Token, tail: seq<bool>, final: bool, out: seq<byte>, limit: nat)
    requires t.Copy? && t.Valid() && 0 < t.Dist() <= Min(WIN_SIZE, |out|)
    ensures Tokens(t.Encode() + tail, final, out, limit)
         == Continue(tail, final, Copied(out, t.Len(), t.Dist(), limit), limit)
  {
    var e1, e2 := LsbBits(t.lenBits, LenExtra(t.lenIdx)), LsbBits(t.distBits, DistExtra(t.distIdx));
    var b3 := MsbBits(t.distIdx, 5) + (e2 + tail);
    Regroup(CodeBits(257 + t.lenIdx), e1, MsbBits(t.distIdx, 5), e2, tail);
    LengthRoundTrip(t, e1, b3, final, out, limit);
    DistanceRoundTrip(t, tail, e2 + tail, final, out, limit);
  }

  lemma LengthRoundTrip(t: Token, e1: seq<bool>, tail: seq<bool>, final: bool, out: seq<byte>, limit: nat)
    requires t.Copy? && t.Valid() && e1 == LsbBits(t.lenBits, LenExtra(t.lenIdx))
    ensures Tokens(CodeBits(257 + t.lenIdx) + (e1 + tail), final, out, limit)
         == Distance(tail, final, out, limit, t.Len())
  {
    LengthSymbol(t.lenIdx, e1 + tail, final, out, limit);
    LengthExtraRoundTrip(t.lenBits, t.lenIdx, tail, e1 + tail, final, out, limit);
  }

  lemma LengthExtraRoundTrip(v: nat, l: nat, tail: seq<bool>, b: seq<bool>, final: bool, out: seq<byte>, limit: nat)
    requires v < Pow2(LenExtra(l)) && b == LsbBits(v, LenExtra(l)) + tail
    ensures Length(b, final, out, limit, l) == Distance(tail, final, out, limit, LenBase(l) + v)
  {
    ExtraRoundTrip(v, LenExtra(l), tail);
    LengthStage(b, final, out, limit, l);
  }

  lemma Regroup<T>(a: seq<T>, b: seq<T>, c: seq<T>, d: seq<T>, e: seq<T>)
    ensures a + b + c + d + e == a + (b + (c + (d + e)))
  {
  }

  lemma LengthStage(b: seq<bool>, final: bool, out: seq<byte>, limit: nat, i: nat)
    requires |b| >= LenExtra(i)
    ensures Length(b, final, out, limit, i)
         == Distance(b[LenExtra(i)..], final, out, limit, LenBase(i) + LsbVal(b[..LenExtra(i)]))
  {
  }

  lemma DistanceStage(b: seq<bool>, final: bool, out: seq<byte>, limit: nat, len: nat)
    requires |b| >= 5 && MsbVal(b[..5]) <= 21
    ensures Distance(b, final, out, limit, len) == DistanceExtra(b[5..], final, out, limit, len, MsbVal(b[..5]))
  {
  }

  lemma DistanceExtraStage(b: seq<bool>, final: bool, out: seq<byte>, limit: nat, len: nat, d: nat)
    requires |b| >= DistExtra(d)
    ensures DistanceExtra(b, final, out, limit, len, d)
         == Match(b[DistExtra(d)..], final, out, limit, len, DistBase(d) + LsbVal(b[..DistExtra(d)]))
  {
  }

  lemma LengthSymbol(l: nat, tail: seq<bool>, final: bool, out: seq<byte>, limit: nat)
    requires l <= 28
    ensures Tokens(CodeBits(257 + l) + tail, final, out, limit) == Length(tail, final, out, limit, l)
  {
    var b := CodeBits(257 + l) + tail;
    DecodeCode(b, 257 + l);
    assert b[CodeLength(257 + l)..] == tail;
  }

  lemma DistanceRoundTrip(t: Token, tail: seq<bool>, b4: seq<bool>, final: bool, out: seq<byte>, limit: nat)
    requires t.Copy? && t.Valid() && 0 < t.Dist() <= Min(WIN_SIZE, |out|)
    requires b4 == LsbBits(t.distBits, DistExtra(t.distIdx)) + tail
    ensures Distance(MsbBits(t.distIdx, 5) + b4, final, out, limit, t.Len())
         == Continue(tail, final, Copied(out, t.Len(), t.Dist(), limit), limit)
  {
    DistCodeRoundTrip(t.distIdx, b4);
    DistanceStage(MsbBits(t.distIdx, 5) + b4, final, out, limit, t.Len());
    DistanceExtraRoundTrip(t.distBits, t.distIdx, tail, b4, final, out, limit, t.Len());
  }

  lemma DistanceExtraRoundTrip(v: nat, d: nat, tail: seq<bool>, b: seq<bool>, final: bool, out: seq<byte>,
                               limit: nat, len: nat)
    requires v < Pow2(DistExtra(d)) && b == LsbBits(v, DistExtra(d)) + tail
    ensures DistanceExtra(b, final, out, limit, len, d) == Match(tail, final, out, limit, len, DistBase(d) + v)
  {
    ExtraRoundTrip(v, DistExtra(d), tail);
    DistanceExtraStage(b, final, out, limit, len, d);
  }

  lemma ExtraRoundTrip(v: nat, n: nat, tail: seq<bool>)
    requires v < Pow2(n)
    ensures var b := LsbBits(v, n) + tail; LsbVal(b[..n]) == v && b[n..] == tail
  {
    LsbBitsVal(v, n);
    assert (LsbBits(v, n) + tail)[..n] == LsbBits(v, n);
  }

  lemma DistCodeRoundTrip(d: nat, tail: seq<bool>)
    requires d <= 21
    ensures var b := MsbBits(d, 5) + tail; MsbVal(b[..5]) == d && b[5..] == tail
  {
    assert Pow2(5) == 32;
    MsbBitsVal(d, 5);
    assert (MsbBits(d, 5) + tail)[..5] == MsbBits(d, 5);
  }

  lemma {:induction false} ExpandGrows(ts: seq<Token>, out: seq<byte>)
    ensures |Expand(ts, out)| >= |out|
  {
    if ts != [] {
      ExpandGrows(ts[1..], Expand1(ts[0], out));
    }
  }

  /** Decoding an encoded token list that fits appends its expansion and goes on. */
  lemma {:induction false} TokensRoundTrip(
    ts: seq<Token>, tail: seq<bool>, final: bool, out: seq<byte>, limit: nat)
    requires InHistory(ts, out) && |out| < limit && |Expand(ts, out)| <= limit
    ensures Tokens(EncodeTokens(ts) + tail, final, out, limit)
         == Continue(tail, final, Expand(ts, out), limit)
    decreases |ts|
  {
    if ts == [] {
      assert EncodeTokens(ts) + tail == tail;
    } else {
      var t, rest := ts[0], EncodeTokens(ts[1..]) + tail;
      var out' := Expand1(t, out);
      assert EncodeTokens(ts) + tail == t.Encode() + rest;
      ExpandGrows(ts[1..], out');
      if t.Literal? {
        LiteralRoundTrip(t.value, rest, final, out, limit);
      } else {
        CopyRoundTrip(t, rest, final, out, limit);
        CopiedIsRepeat(out, t.Len(), t.Dist(), limit);
      }
      if |out'| < limit {
        TokensRoundTrip(ts[1..], tail, final, out', limit);
      } else {
        FullStops(ts[1..], out', limit);
      }
    }
  }

  /** Nothing fits into a full buffer, so no tokens are left. */
  lemma FullStops(ts: seq<Token>, out: seq<byte>, limit: nat)
    requires InHistory(ts, out) && |out| == limit && |Expand(ts, out)| <= limit
    ensures ts == [] && Expand(ts, out) == out
  {
    if ts != [] {
      ExpandGrows(ts[1..], Expand1(ts[0], out));
    }
  }

  // ---- whole streams

  lemma {:induction false} ExpandAppend(s: seq<Token>, t: seq<Token>, out: seq<byte>)
    ensures Expand(s + t, out) == Expand(t, Expand(s, out))
    ensures InHistory(s + t, out) ==> InHistory(s, out) && InHistory(t, Expand(s, out))
  {
    if s == [] {
      assert s + t == t;
    } else {
      assert (s + t)[0] == s[0] && (s + t)[1..] == s[1..] + t;
      ExpandAppend(s[1..], t, Expand1(s[0], out));
    }
  }

  /** For every stream of one or more fixed-Huffman blocks whose expansion fills the
      buffer exactly, whatever follows it, decoding yields that expansion. */
  lemma {:induction false} StreamRoundTrip(bs: seq<seq<Token>>, pad: seq<bool>, out: seq<byte>, limit: nat)
    requires bs != [] && InHistory(Concat(bs), out)
    requires |out| < limit && |Expand(Concat(bs), out)| == limit
    ensures Blocks(EncodeBlocks(bs) + pad, out, limit) == Done(Expand(Concat(bs), out))
    decreases |bs|
  {
    var ts, more := bs[0], EncodeBlocks(bs[1..]) + pad;
    var final := |bs| == 1;
    var out' := Expand(ts, out);
    BlockHeader(bs, pad, out, limit);
    ExpandAppend(ts, Concat(bs[1..]), out);
    ExpandGrows(Concat(bs[1..]), out');
    TokensRoundTrip(ts, CodeBits(256) + more, final, out, limit);
    if |out'| < limit {
      EndOfBlock(more, out', limit);
      assert !final;
      StreamRoundTrip(bs[1..], pad, out', limit);
    } else {
      FullStops(Concat(bs[1..]), out', limit);
    }
  }

  lemma BlockHeader(bs: seq<seq<Token>>, pad: seq<bool>, out: seq<byte>, limit: nat)
    requires bs != []
    ensures Blocks(EncodeBlocks(bs) + pad, out, limit)
         == Tokens(EncodeTokens(bs[0]) + (CodeBits(256) + (EncodeBlocks(bs[1..]) + pad)), |bs| == 1, out, limit)
  {
    var rest := EncodeTokens(bs[0]) + (CodeBits(256) + (EncodeBlocks(bs[1..]) + pad));
    Regroup([|bs| == 1, true, false], EncodeTokens(bs[0]), CodeBits(256), EncodeBlocks(bs[1..]), pad);
    HeaderStage(|bs| == 1, rest, out, limit);
  }

  lemma HeaderStage(final: bool, rest: seq<bool>, out: seq<byte>, limit: nat)
    ensures Blocks([final, true, false] + rest, out, limit) == Tokens(rest, final, out, limit)
  {
    assert ([final, true, false] + rest)[3..] == rest;
  }

  lemma EndOfBlock(more: seq<bool>, out: seq<byte>, limit: nat)
    ensures Tokens(CodeBits(256) + more, false, out, limit) == Blocks(more, out, limit)
  {
    var b := CodeBits(256) + more;
    DecodeCode(b, 256);
    assert b[7..] == more;
  }

  // ---- the tables, in closed form

  /** The length table of section 3.2.5: eight single lengths, then four codes for every number of
      extra bits, and 258 on its own. */
  lemma LengthsInClosedForm(i: nat)
    requires i <= 28
    ensures i < 8 ==> LenExtra(i) == 0 && LenBase(i) == 3 + i
    ensures 8 <= i < 28 ==>
      LenExtra(i) == i / 4 - 1 && LenBase(i) == 3 + Pow2(i / 4 + 1) + i % 4 * Pow2(i / 4 - 1)
    ensures i == 28 ==> LenExtra(i) == 0 && LenBase(i) == 258
  {
    SmallPowers();
  }

  /** The distance table: two codes for every number of extra bits. */
  lemma DistancesInClosedForm(d: nat)
    requires d <= 29
    ensures d < 2 ==> DistExtra(d) == 0 && DistBase(d) == 1 + d
    ensures d >= 2 ==> DistExtra(d) == d / 2 - 1 && DistBase(d) == 1 + (2 + d % 2) * Pow2(d / 2 - 1)
  {
    SmallPowers();
  }

  lemma SmallPowers()
    ensures Pow2(0) == 1 && Pow2(1) == 2 && Pow2(2) == 4 && Pow2(3) == 8 && Pow2(4) == 16 && Pow2(5) == 32
    ensures Pow2(6) == 64 && Pow2(7) == 128 && Pow2(8) == 256 && Pow2(9) == 512 && Pow2(10) == 1024
    ensures Pow2(11) == 2048 && Pow2(12) == 4096 && Pow2(13) == 8192
  {
    assert Pow2(4) == 16 && Pow2(7) == 8 * Pow2(4) && Pow2(10) == 8 * Pow2(7) && Pow2(13) == 8 * Pow2(10);
  }

  /** How many symbols below `n` have codes of `len` bits. */
  function CountOf(len: nat, n: nat): nat {
    if n == 0 then 0 else CountOf(len, n - 1) + if CodeLength(n - 1) == len then 1 else 0
  }

  /** The smallest code of `len` bits, by the algorithm of section 3.2.2. */
  function FirstCode(len: nat): nat {
    if len == 0 then 0 else 2 * (FirstCode(len - 1) + CountOf(len - 1, 288))
  }

  lemma {:induction false} CountsOf(n: nat)
    requires n <= 288
    ensures CountOf(7, n) == if n <= 256 then 0 else if n <= 280 then n - 256 else 24
    ensures CountOf(8, n) == if n <= 144 then n else if n <= 280 then 144 else n - 136
    ensures CountOf(9, n) == if n <= 144 then 0 else if n <= 256 then n - 144 else 112
  {
    if n > 0 {
      CountsOf(n - 1);
    }
  }

  lemma {:induction false} NoShortCodes(len: nat, n: nat)
    requires len < 7
    ensures CountOf(len, n) == 0 && FirstCode(len) == 0
    decreases len, n
  {
    if n > 0 {
      NoShortCodes(len, n - 1);
    }
    if len > 0 {
      NoShortCodes(len - 1, 288);
    }
  }

  /** The fixed code is the canonical one of its lengths: within each length, consecutive codes in
      symbol order. */
  lemma FixedCodeIsCanonical(sym: nat)
    requires sym < 288
    ensures CodeValue(sym) == FirstCode(CodeLength(sym)) + CountOf(CodeLength(sym), sym)
  {
    NoShortCodes(6, 288);
    CountsOf(sym);
    CountsOf(288);
    assert FirstCode(7) == 0 && FirstCode(8) == 48 && FirstCode(9) == 400;
  }

  /** Every length from 3 to 258 and distance from 1 to 2048 has an encoding. */
  lemma EveryMatchHasACode(len: nat, dist: nat)
    requires 3 <= len <= 258 && 1 <= dist <= WIN_SIZE
    ensures exists t: Token :: t.Copy? && t.Valid() && t.Len() == len && t.Dist() == dist
  {
    var l, lb := LengthCode(len, 28);
    var d, db := DistanceCode(dist, 21);
    var t := Copy(l, lb, d, db);
    assert t.Valid() && t.Len() == len && t.Dist() == dist;
  }

  lemma {:induction false} LengthCode(len: nat, i: nat) returns (l: nat, lb: nat)
    requires i <= 28 && 3 <= len < LenBase(i) + Pow2(LenExtra(i))
    ensures l <= 28 && lb < Pow2(LenExtra(l)) && LenBase(l) + lb == len
  {
    if len >= LenBase(i) {
      l, lb := i, len - LenBase(i);
    } else {
      LengthTable(i);
      l, lb := LengthCode(len, i - 1);
    }
  }

  /** Each row of the length table ends where the next begins; the last but one runs over 258. */
  lemma LengthTable(i: nat)
    requires i <= 28
    ensures LenBase(0) == 3
    ensures 0 < i < 28 ==> LenBase(i) == LenBase(i - 1) + Pow2(LenExtra(i - 1))
    ensures i == 28 ==> LenBase(i) + 1 == LenBase(i - 1) + Pow2(LenExtra(i - 1))
  {
    SmallPowers();
  }

  lemma {:induction false} DistanceCode(dist: nat, i: nat) returns (d: nat, db: nat)
    requires i <= 21 && 1 <= dist < DistBase(i) + Pow2(DistExtra(i))
    ensures d <= 21 && db < Pow2(DistExtra(d)) && DistBase(d) + db == dist
  {
    if dist >= DistBase(i) {
      d, db := i, dist - DistBase(i);
    } else {
      DistanceTable(i);
      d, db := DistanceCode(dist, i - 1);
    }
  }

  lemma DistanceTable(i: nat)
    requires i <= 21
    ensures DistBase(0) == 1
    ensures i > 0 ==> DistBase(i) == DistBase(i - 1) + Pow2(DistExtra(i - 1))
  {
    SmallPowers();
  }
}
