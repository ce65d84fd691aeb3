/** The watermark allocator for downloaded lumps. */
module Allocator {
  import opened Bits

  const WATERMARK_INIT := 256
  const DMEM_WORDS := 2048

  datatype Block = Block(first: nat, words: nat)

  datatype Grant = Granted(base: Word) | Refused

  /** The first multiple of the block size at or above the watermark, by the mask expression. */
  function Aligned(watermark: nat, n: nat): nat {
    var mask := Pow2(n) - 1;
    AndNot((watermark + mask) % 0x1_0000_0000, mask)
  }

  /** The mask expression rounds up, and to no more than the next multiple. */
  lemma AlignedIsLeast(watermark: nat, n: nat, a: nat)
    requires watermark <= DMEM_WORDS && n <= 14
    ensures Aligned(watermark, n) % Pow2(n) == 0 && watermark <= Aligned(watermark, n)
    ensures a % Pow2(n) == 0 && watermark <= a ==> Aligned(watermark, n) <= a
  {
    AlignedRoundsUp(watermark, n);
    RoundUp(watermark, Pow2(n), a);
  }

  lemma AlignedRoundsUp(watermark: nat, n: nat)
    requires watermark <= DMEM_WORDS && n <= 14
    ensures Aligned(watermark, n) == RoundedDown(watermark + (Pow2(n) - 1), Pow2(n))
  {
    BlockSize(n);
    MaskRounds(watermark + (Pow2(n) - 1), n);
  }

  /** Below 32 bits the mask expression rounds down to a multiple of the block size. */
  lemma MaskRounds(top: nat, n: nat)
    requires top < 0x1_0000_0000
    ensures AndNot(top % 0x1_0000_0000, Pow2(n) - 1) == RoundedDown(top, Pow2(n))
  {
    assert top % 0x1_0000_0000 == top by {
      NoWrap(top);
    }
    AndNotMask(top, n);
  }

  lemma NoWrap(top: nat)
    requires top < 0x1_0000_0000
    ensures top % 0x1_0000_0000 == top
  {
  }

  function RoundedDown(top: nat, p: nat): int
    requires p > 0
  {
    top - top % p
  }

  lemma BlockSize(n: nat)
    requires n <= 14
    ensures Pow2(n) <= 0x4000
  {
    Pow2Mono(n, 14);
    Pow2Add(6, 8);
    Pow2Values();
  }

  lemma RoundUp(w: nat, p: nat, a: nat)
    requires p > 0
    ensures var r := RoundedDown(w + (p - 1), p);
      && r % p == 0 && w <= r && (a % p == 0 && w <= a ==> r <= a)
  {
    var top := w + (p - 1);
    var q, k := top / p, a / p;
    assert top == p * q + top % p;
    DivModUnique(p * q, p, q, 0);
    if a % p == 0 && w <= a && a < p * q {
      assert a == p * k;
      if k < q {
        ScaleStep(p, k, q);
      } else {
        Ascends(p, q, k);
      }
    }
  }

  lemma Ascends(p: nat, q: nat, k: nat)
    requires q <= k
    ensures p * q <= p * k
  {
    assert p * k == p * q + p * (k - q);
  }

  /** Every granted block is aligned to its size, inside the free words, and apart from all others. */
  ghost predicate Safe(blocks: seq<Block>, watermark: nat) {
    && WATERMARK_INIT <= watermark <= DMEM_WORDS
    && (forall i :: 0 <= i < |blocks| ==> Placed(blocks[i], watermark))
    && (forall i, j :: 0 <= i < j < |blocks| ==> blocks[i].first + blocks[i].words <= blocks[j].first)
  }

  ghost predicate Placed(b: Block, watermark: nat) {
    && WATERMARK_INIT <= b.first && b.first + b.words <= watermark
    && exists n | 6 <= n <= 14 :: b.words == Pow2(n) && b.first % Pow2(n) == 0
  }

  lemma GrantKeepsSafe(blocks: seq<Block>, watermark: nat, n: nat)
    requires Safe(blocks, watermark) && 6 <= n <= 14 && Aligned(watermark, n) + Pow2(n) <= DMEM_WORDS
    ensures Safe(blocks + [Block(Aligned(watermark, n), Pow2(n))], Aligned(watermark, n) + Pow2(n))
  {
    AlignedIsLeast(watermark, n, 0);
    var b := Block(Aligned(watermark, n), Pow2(n));
    assert Placed(b, b.first + b.words);
    forall i | 0 <= i < |blocks|
      ensures Placed(blocks[i], b.first + b.words)
    {
      assert Placed(blocks[i], watermark);
    }
  }

  lemma NoTruncation(aligned: nat, newWatermark: nat)
    requires aligned <= newWatermark <= DMEM_WORDS
    ensures newWatermark % 0x1_0000_0000 == newWatermark && aligned * 4 % 0x1_0000_0000 == aligned * 4
  {
  }

  class WatermarkAllocator {
    var watermark: nat
    ghost var blocks: seq<Block>

    constructor ()
      ensures watermark == WATERMARK_INIT && blocks == [] && Safe(blocks, watermark)
    {
      watermark, blocks := WATERMARK_INIT, [];
    }

    /** One request.  It is granted exactly when its size is allowed and the least aligned
        address above the watermark leaves room for it; a refusal changes nothing. */
    method Request(n: nat) returns (r: Grant)
      requires n < 32 && Safe(blocks, watermark)
      modifies this
      ensures Safe(blocks, watermark)
      ensures r.Granted? <==> 6 <= n <= 14 && Aligned(old(watermark), n) + Pow2(n) <= DMEM_WORDS
      ensures r.Refused? ==> watermark == old(watermark) && blocks == old(blocks)
      ensures r.Granted? ==>
        && r.base == 4 * Aligned(old(watermark), n)
        && blocks == old(blocks) + [Block(Aligned(old(watermark), n), Pow2(n))]
        && watermark == Aligned(old(watermark), n) + Pow2(n)
    {
      var aligned := Aligned(watermark, n);
      var newWatermark := aligned + Pow2(n);
      if newWatermark <= DMEM_WORDS && 6 <= n <= 14 {
        GrantKeepsSafe(blocks, watermark, n);
        NoTruncation(aligned, newWatermark);
        blocks := blocks + [Block(aligned, Pow2(n))];
        watermark := newWatermark % 0x1_0000_0000;
        r := Granted(aligned * 4 % 0x1_0000_0000);
      } else {
        r := Refused;
      }
    }
  }
}
