/** The 32-bit seal over the location and authority of a namespace entry. */
module Integrity {
  import opened Bits
  import opened Fields

  const SEAL_CONST: Word := 0xDEADBEEF

  function Rol7(x: Word): (r: Word) {
    x % 0x200_0000 * 0x80 + x / 0x200_0000
  }

  function Rol13(x: Word): (r: Word) {
    x % 0x8_0000 * 0x2000 + x / 0x8_0000
  }

  function Integrity32(location: Word, authority: Word): (r: nat) {
    Xor(Xor(Rol7(location), Rol13(Sealed(authority))), SEAL_CONST)
  }

  lemma IntegrityIsWord(location: Word, authority: Word)
    ensures Integrity32(location, authority) < 0x1_0000_0000
  {
    Pow2Values();
    XorBound(Rol7(location), Rol13(Sealed(authority)), 32);
    XorBound(Xor(Rol7(location), Rol13(Sealed(authority))), SEAL_CONST, 32);
  }

  /** The seal as a memory word. */
  function SealWord(location: Word, authority: Word): Word {
    IntegrityIsWord(location, authority);
    Integrity32(location, authority)
  }

  /** Rotations lose nothing. */
  lemma RolInjective(x: Word, y: Word)
    ensures Rol7(x) == Rol7(y) ==> x == y
    ensures Rol13(x) == Rol13(y) ==> x == y
  {
    DivModUnique(Rol7(x), 0x80, x % 0x200_0000, x / 0x200_0000);
    DivModUnique(Rol7(y), 0x80, y % 0x200_0000, y / 0x200_0000);
    DivModUnique(Rol13(x), 0x2000, x % 0x8_0000, x / 0x8_0000);
    DivModUnique(Rol13(y), 0x2000, y % 0x8_0000, y / 0x8_0000);
  }

  /** Two locations under one authority never share a seal. */
  lemma LocationInjective(x: Word, y: Word, authority: Word)
    requires Integrity32(x, authority) == Integrity32(y, authority)
    ensures x == y
  {
    var a := Rol13(Sealed(authority));
    XorCancel(Xor(Rol7(x), a), Xor(Rol7(y), a), SEAL_CONST);
    XorCancel(Rol7(x), Rol7(y), a);
    RolInjective(x, y);
  }

  /** Two authorities at one location share a seal exactly when they differ in G and F at most. */
  lemma AuthorityInjective(location: Word, x: Word, y: Word)
    ensures Integrity32(location, x) == Integrity32(location, y) <==> Sealed(x) == Sealed(y)
  {
    if Integrity32(location, x) == Integrity32(location, y) {
      var l := Rol7(location);
      var rx, ry := Rol13(Sealed(x)), Rol13(Sealed(y));
      XorCancel(Xor(l, rx), Xor(l, ry), SEAL_CONST);
      XorCommutes(l, rx);
      XorCommutes(l, ry);
      XorCancel(rx, ry, l);
      RolInjective(Sealed(x), Sealed(y));
    }
  }

  /** An all-zero location and integrity word seal nothing whose version is below 128. */
  lemma SweptUnsealed(v: nat)
    requires v < 0x80
    ensures Integrity32(0, v * 0x20_0000) != 0
  {
    SweptRotation(v);
    NotConstant(4 * v);
  }

  lemma SweptRotation(v: nat)
    requires v < 0x80
    ensures Rol7(0) == 0 && Rol13(Sealed(v * 0x20_0000)) == 4 * v
  {
  }

  lemma NotConstant(r: Word)
    requires r < SEAL_CONST
    ensures Xor(Xor(0, r), SEAL_CONST) != 0
  {
    XorCommutes(0, r);
    XorZero(r);
    XorSelf(SEAL_CONST);
    if Xor(r, SEAL_CONST) == 0 {
      XorCancel(r, SEAL_CONST, SEAL_CONST);
    }
  }

  lemma {:induction false} XorSelf(a: nat)
    ensures Xor(a, a) == 0
  {
    if a > 0 {
      XorSelf(a / 2);
    }
  }
}
