/** Bit fields of Golden Tokens, authority words, lump headers and stack frames, with the
    fault codes. */
module Fields {
  import opened Bits

  // ---- Golden Token: slot[15:0] seq[24:16] type[26:25] dom[27] perm[30:28] b[31]

  function GtSlot(w: Word): nat { w % 0x1_0000 }
  function GtSeq(w: Word): nat { w / 0x1_0000 % 0x200 }
  function GtType(w: Word): nat { w / 0x200_0000 % 4 }
  function GtChurch(w: Word): bool { w / 0x800_0000 % 2 == 1 }
  function GtPerm(w: Word, i: nat): bool
    requires i < 3
  {
    (match i case 0 => w / 0x1000_0000 case 1 => w / 0x2000_0000 case _ => w / 0x4000_0000) % 2 == 1
  }
  function GtBound(w: Word): bool { w / 0x8000_0000 == 1 }

  const GT_NULL := 0
  const GT_INFORM := 1
  const GT_OUTFORM := 2
  const GT_ABSTRACT := 3

  // Church permissions by index; their Turing namesakes are R, W, X
  const L := 0
  const S := 1
  const E := 2

  predicate HasChurch(w: Word, i: nat)
    requires i < 3
  {
    GtChurch(w) && GtPerm(w, i)
  }

  // ---- authority: limit[20:0] seq[29:21] g[30] f[31]

  function AuthLimit(w: Word): nat { w % 0x20_0000 }
  function AuthSeq(w: Word): nat { w / 0x20_0000 % 0x200 }
  function AuthG(w: Word): bool { w / 0x4000_0000 % 2 == 1 }
  function AuthF(w: Word): bool { w / 0x8000_0000 == 1 }

  /** The bits the seal covers: all but G and F. */
  function Sealed(w: Word): nat { w % 0x4000_0000 }

  function SetG(w: Word): (r: Word)
    ensures AuthG(r) && Sealed(r) == Sealed(w) && AuthF(r) == AuthF(w)
  {
    if AuthG(w) then w else w + 0x4000_0000
  }

  function ClearG(w: Word): (r: Word)
    ensures !AuthG(r) && Sealed(r) == Sealed(w) && AuthF(r) == AuthF(w)
  {
    if AuthG(w) then w - 0x4000_0000 else w
  }

  /** A capability register: the token, the byte address and the authority behind it. */
  datatype Cap = Cap(gt: Word, location: Word, authority: Word)

  const NULL_CAP_REG := Cap(0, 0, 0)

  // ---- lump header: cc[7:0] type[9:8] cw[22:10] n_minus_6[26:23] magic[31:27]

  function HdrCc(w: Word): nat { w % 0x100 }
  function HdrType(w: Word): nat { w / 0x100 % 4 }
  function HdrCw(w: Word): nat { w / 0x400 % 0x2000 }
  function HdrN(w: Word): nat { w / 0x80_0000 % 16 }
  function HdrMagic(w: Word): nat { w / 0x800_0000 }

  const MAGIC := 0x1F

  /** 2 to the power `n + 6`, the word count of a lump with size field `n`. */
  function LumpWords(n: nat): nat
    requires n <= 15
  {
    match n
    case 0 => 64 case 1 => 128 case 2 => 256 case 3 => 512 case 4 => 1024 case 5 => 2048
    case 6 => 4096 case 7 => 8192 case 8 => 16384 case 9 => 32768 case 10 => 65536
    case 11 => 131072 case 12 => 262144 case 13 => 524288 case 14 => 1048576
    case _ => 2097152
  }

  // ---- faults

  const F_PERM_X := 0x3
  const F_PERM_L := 0x4
  const F_PERM_S := 0x5
  const F_PERM_E := 0x6
  const F_NULL_CAP := 0x7
  const F_BOUNDS := 0x8
  const F_VERSION := 0x9
  const F_SEAL := 0xA
  const F_INVALID_OP := 0xB
  const F_BIND := 0xE
  const F_F_BIT := 0xF
  const F_STACK_OVERFLOW := 0x10
  const F_STACK_CORRUPT := 0x12
  const F_OUTFORM_UNAUTH := 0x1A
  const F_IMMUTABLE_SELF_CAP := 0x1B
  const F_THREAD_CONTEXT := 0x1D
}
