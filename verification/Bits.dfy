/** Machine words as integers, and the bit operations the hardware applies to
    them, defined on binary digits.  A sequence of bits is read least significant
    bit first (`LsbVal`) or most significant bit first (`MsbVal`). */
module Bits {

  type Word = x: int | 0 <= x < 0x1_0000_0000
  type byte = x: int | 0 <= x < 0x100

  function Pow2(n: nat): (p: nat)
    ensures p > 0
  {
    if n == 0 then 1 else 2 * Pow2(n - 1)
  }

  function Bit(b: bool): nat {
    if b then 1 else 0
  }

  function Shr(v: nat, n: nat): nat
    decreases n
  {
    if n == 0 then v else Shr(v / 2, n - 1)
  }

  function Shl(v: nat, n: nat): nat
    decreases n
  {
    if n == 0 then v else 2 * Shl(v, n - 1)
  }

  /** The low `n` bits of `v`. */
  function Low(v: nat, n: nat): nat
    decreases n
  {
    if n == 0 then 0 else v % 2 + 2 * Low(v / 2, n - 1)
  }

  function LsbVal(s: seq<bool>): nat {
    if s == [] then 0 else Bit(s[0]) + 2 * LsbVal(s[1..])
  }

  function MsbVal(s: seq<bool>): nat {
    if s == [] then 0 else Bit(s[0]) * Pow2(|s| - 1) + MsbVal(s[1..])
  }

  /** The low `n` bits of `v` in reverse order. */
  function Reverse(v: nat, n: nat): nat {
    if n == 0 then 0 else (v % 2) * Pow2(n - 1) + Reverse(v / 2, n - 1)
  }

  /** The low `n` binary digits of `v`, least significant first. */
  function LsbBits(v: nat, n: nat): (s: seq<bool>)
    ensures |s| == n
  {
    if n == 0 then [] else [v % 2 == 1] + LsbBits(v / 2, n - 1)
  }

  /** The low `n` binary digits of `v`, most significant first. */
  function MsbBits(v: nat, n: nat): (s: seq<bool>)
    ensures |s| == n
  {
    if n == 0 then [] else [v / Pow2(n - 1) % 2 == 1] + MsbBits(v % Pow2(n - 1), n - 1)
  }

  function Or(a: nat, b: nat): nat
    decreases a + b
  {
    if a == 0 && b == 0 then 0
    else (if a % 2 == 1 || b % 2 == 1 then 1 else 0) + 2 * Or(a / 2, b / 2)
  }

  function Xor(a: nat, b: nat): nat
    decreases a + b
  {
    if a == 0 && b == 0 then 0
    else (if a % 2 != b % 2 then 1 else 0) + 2 * Xor(a / 2, b / 2)
  }

  /** The bits of `a` that are not in `b`. */
  function AndNot(a: nat, b: nat): nat
    decreases a
  {
    if a == 0 then 0
    else (if a % 2 == 1 && b % 2 == 0 then 1 else 0) + 2 * AndNot(a / 2, b / 2)
  }

  lemma {:induction false} Pow2Add(a: nat, b: nat)
    ensures Pow2(a + b) == Pow2(a) * Pow2(b)
  {
    if a > 0 {
      Pow2Add(a - 1, b);
    }
  }

  lemma Pow2Values()
    ensures Pow2(8) == 0x100 && Pow2(16) == 0x1_0000 && Pow2(32) == 0x1_0000_0000
  {
    assert Pow2(2) == 4;
    Pow2Add(2, 2);
    Pow2Add(4, 4);
    Pow2Add(8, 8);
    Pow2Add(16, 16);
  }

  lemma {:induction false} Pow2Mono(a: nat, b: nat)
    requires a <= b
    ensures Pow2(a) <= Pow2(b)
  {
    if a < b {
      Pow2Mono(a, b - 1);
    }
  }

  lemma {:induction false} LsbBound(s: seq<bool>)
    ensures LsbVal(s) < Pow2(|s|)
  {
    if s != [] {
      LsbBound(s[1..]);
    }
  }

  lemma {:induction false} LsbAppend(s: seq<bool>, t: seq<bool>)
    ensures LsbVal(s + t) == LsbVal(s) + Shl(LsbVal(t), |s|)
  {
    if s == [] {
      assert s + t == t;
    } else {
      assert (s + t)[1..] == s[1..] + t;
      LsbAppend(s[1..], t);
    }
  }

  /** Shifting right drops the first bits; masking keeps them. */
  lemma {:induction false} LsbSplit(s: seq<bool>, n: nat)
    requires n <= |s|
    ensures Shr(LsbVal(s), n) == LsbVal(s[n..])
    ensures Low(LsbVal(s), n) == LsbVal(s[..n])
  {
    if n > 0 {
      LsbSplit(s[1..], n - 1);
      assert s[1..][n - 1..] == s[n..];
      assert s[..n][1..] == s[1..][..n - 1];
    }
  }

  /** Quotient and remainder are unique. */
  lemma DivModUnique(v: int, d: int, q: int, r: int)
    requires d > 0 && v == d * q + r && 0 <= r < d
    ensures v / d == q && v % d == r
  {
    EuclidUnique(d, v / d, v % d, q, r);
  }

  lemma EuclidUnique(d: int, q: int, r: int, q': int, r': int)
    requires 0 <= r < d && 0 <= r' < d
    requires d * q + r == d * q' + r'
    ensures q == q' && r == r'
  {
    if q < q' {
      ScaleStep(d, q, q');
    } else if q' < q {
      ScaleStep(d, q', q);
    }
  }

  lemma ScaleStep(d: int, a: int, b: int)
    requires d > 0 && a < b
    ensures d * b >= d * a + d
  {
    ScaleAtLeast(d, b - a);
    assert d * (b - a) == d * b - d * a;
  }

  lemma ScaleAtLeast(d: int, k: int)
    requires d > 0 && k >= 1
    ensures d * k >= d
  {
  }

  lemma {:induction false} ReverseIsMsb(s: seq<bool>, n: nat)
    requires n <= |s|
    ensures Reverse(LsbVal(s), n) == MsbVal(s[..n])
  {
    if n > 0 {
      ReverseIsMsb(s[1..], n - 1);
      assert s[..n][1..] == s[1..][..n - 1];
    }
  }

  lemma {:induction false} LsbBitsVal(v: nat, n: nat)
    requires v < Pow2(n)
    ensures LsbVal(LsbBits(v, n)) == v
  {
    if n > 0 {
      LsbBitsVal(v / 2, n - 1);
      assert LsbBits(v, n)[1..] == LsbBits(v / 2, n - 1);
    }
  }

  lemma {:induction false} MsbBitsVal(v: nat, n: nat)
    requires v < Pow2(n)
    ensures MsbVal(MsbBits(v, n)) == v
  {
    if n > 0 {
      var p := Pow2(n - 1);
      var top := v >= p;
      DivModUnique(v, p, Bit(top), if top then v - p else v);
      MsbBitsVal(v % p, n - 1);
      assert MsbBits(v, n) == [top] + MsbBits(v % p, n - 1);
      MsbCons(top, MsbBits(v % p, n - 1));
    }
  }

  lemma MsbCons(b: bool, s: seq<bool>)
    ensures MsbVal([b] + s) == (if b then Pow2(|s|) else 0) + MsbVal(s)
  {
    assert ([b] + s)[1..] == s;
  }

  lemma {:induction false} MsbBound(s: seq<bool>)
    ensures MsbVal(s) < Pow2(|s|)
  {
    if s != [] {
      MsbBound(s[1..]);
    }
  }

  lemma {:induction false} MsbSnoc(s: seq<bool>, b: bool)
    ensures MsbVal(s + [b]) == 2 * MsbVal(s) + Bit(b)
  {
    if s == [] {
      assert s + [b] == [b];
    } else {
      MsbSnoc(s[1..], b);
      assert s == [s[0]] + s[1..] && s + [b] == [s[0]] + (s[1..] + [b]);
      MsbCons(s[0], s[1..]);
      MsbCons(s[0], s[1..] + [b]);
    }
  }

  /** Equally long bit strings with one value are one string. */
  lemma {:induction false} MsbInjective(s: seq<bool>, t: seq<bool>)
    requires |s| == |t| && MsbVal(s) == MsbVal(t)
    ensures s == t
  {
    if s != [] {
      MsbBound(s[1..]);
      MsbBound(t[1..]);
      MsbInjective(s[1..], t[1..]);
      assert s == [s[0]] + s[1..] && t == [t[0]] + t[1..];
    }
  }

  /** Merging a byte above the bits already held is an addition. */
  lemma {:induction false} OrDisjoint(a: nat, b: nat, n: nat)
    requires a < Pow2(n)
    ensures Or(a, Shl(b, n)) == a + Shl(b, n)
  {
    if n == 0 {
      OrZero(b);
    } else {
      OrDisjoint(a / 2, b, n - 1);
    }
  }

  lemma {:induction false} OrZero(b: nat)
    ensures Or(0, b) == b
  {
    if b > 0 {
      OrZero(b / 2);
    }
  }

  lemma {:induction false} XorZero(a: nat)
    ensures Xor(a, 0) == a
  {
    if a > 0 {
      XorZero(a / 2);
    }
  }

  lemma {:induction false} XorCancel(a: nat, b: nat, c: nat)
    requires Xor(a, c) == Xor(b, c)
    ensures a == b
    decreases a + b + c
  {
    if a + b + c > 0 {
      XorCancel(a / 2, b / 2, c / 2);
    }
  }

  lemma {:induction false} XorCommutes(a: nat, b: nat)
    ensures Xor(a, b) == Xor(b, a)
    decreases a + b
  {
    if a + b > 0 {
      XorCommutes(a / 2, b / 2);
    }
  }

  lemma {:induction false} XorAssociates(a: nat, b: nat, c: nat)
    ensures Xor(Xor(a, b), c) == Xor(a, Xor(b, c))
    decreases a + b + c
  {
    if a + b + c > 0 {
      XorAssociates(a / 2, b / 2, c / 2);
      XorHalf(a, b);
      XorHalf(b, c);
      XorHalf(Xor(a, b), c);
      XorHalf(a, Xor(b, c));
    }
  }

  /** Shifting an exclusive or right by one, and its last digit. */
  lemma XorHalf(a: nat, b: nat)
    ensures Xor(a, b) / 2 == Xor(a / 2, b / 2)
    ensures Xor(a, b) % 2 == (if a % 2 != b % 2 then 1 else 0)
  {
  }

  /** A word is its low and its high part merged. */
  lemma {:induction false} XorSplit(x: nat, n: nat)
    ensures Xor(Low(x, n), Shl(Shr(x, n), n)) == x
  {
    if n == 0 {
      XorCommutes(0, x);
      XorZero(x);
    } else {
      XorSplit(x / 2, n - 1);
      XorLowBit(x % 2, Low(x / 2, n - 1), Shl(Shr(x / 2, n - 1), n - 1));
    }
  }

  lemma XorLowBit(r: nat, a: nat, b: nat)
    requires r < 2
    ensures Xor(r + 2 * a, 2 * b) == r + 2 * Xor(a, b)
  {
    XorHalf(r + 2 * a, 2 * b);
  }

  lemma {:induction false} XorShift(a: nat, b: nat, n: nat)
    ensures Shr(Xor(a, b), n) == Xor(Shr(a, n), Shr(b, n))
    decreases n
  {
    if n > 0 {
      XorHalf(a, b);
      XorShift(a / 2, b / 2, n - 1);
    }
  }

  /** Shifts and masks of a byte's width are division and remainder. */
  lemma ByteShift(x: nat)
    ensures Shr(x, 8) == x / 256
    ensures Low(x, 8) == x % 256
  {
    NibbleShift(x);
    ShrAdd(x, 4, 4);
    NibbleShift(x / 16);
    assert x / 16 / 16 == x / 256 && x % 256 == x % 16 + 16 * (x / 16 % 16);
  }

  lemma NibbleShift(x: nat)
    ensures Shr(x, 4) == x / 16
    ensures Low(x, 4) == x % 16
  {
    PairShift(x);
    ShrAdd(x, 2, 2);
    PairShift(x / 4);
    assert x / 4 / 4 == x / 16 && x % 16 == x % 4 + 4 * (x / 4 % 4);
  }

  lemma PairShift(x: nat)
    ensures Shr(x, 2) == x / 4
    ensures Low(x, 2) == x % 4
  {
    assert Shr(x, 2) == x / 2 / 2 && Low(x, 2) == x % 2 + 2 * (x / 2 % 2);
  }

  lemma {:induction false} ShrAdd(x: nat, m: nat, n: nat)
    ensures Shr(x, m + n) == Shr(Shr(x, m), n)
    ensures Low(x, m + n) == Low(x, m) + Shl(Low(Shr(x, m), n), m)
    decreases m
  {
    if m > 0 {
      ShrAdd(x / 2, m - 1, n);
    }
  }

  lemma {:induction false} XorBound(a: nat, b: nat, n: nat)
    requires a < Pow2(n) && b < Pow2(n)
    ensures Xor(a, b) < Pow2(n)
  {
    if n > 0 {
      XorBound(a / 2, b / 2, n - 1);
    }
  }

  /** Clearing the low `n` bits rounds down to a multiple of their weight. */
  lemma {:induction false} AndNotMask(a: nat, n: nat)
    ensures AndNot(a, Pow2(n) - 1) == a - a % Pow2(n)
    decreases n
  {
    if n == 0 {
      AndNotZero(a);
    } else {
      AndNotMask(a / 2, n - 1);
      AndNotMaskStep(a, Pow2(n - 1));
    }
  }

  lemma AndNotMaskStep(a: nat, h: nat)
    requires h > 0 && AndNot(a / 2, h - 1) == a / 2 - a / 2 % h
    ensures AndNot(a, 2 * h - 1) == a - a % (2 * h)
  {
    var m := 2 * h - 1;
    assert m % 2 == 1 && m / 2 == h - 1;
    AndNotStep(a, m);
    ModDouble(a, h);
  }

  lemma AndNotStep(a: nat, m: nat)
    ensures AndNot(a, m) == (if a % 2 == 1 && m % 2 == 0 then 1 else 0) + 2 * AndNot(a / 2, m / 2)
  {
  }

  lemma ModDouble(a: nat, h: nat)
    requires h > 0
    ensures a % (2 * h) == 2 * (a / 2 % h) + a % 2
  {
    var q, r := a / 2 / h, a / 2 % h;
    assert 2 * (h * q) == 2 * h * q;
    DivModUnique(a, 2 * h, q, 2 * r + a % 2);
  }

  lemma {:induction false} AndNotZero(a: nat)
    ensures AndNot(a, 0) == a
  {
    if a > 0 {
      AndNotZero(a / 2);
    }
  }
}
