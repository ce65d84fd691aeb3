/** The architectural registers, with a record of every write any unit asserts. */
module Registers {
  import opened Bits
  import opened Fields

  const CRS := 16
  const DRS := 16
  const ARGUMENTS := 12

  datatype RegWrite =
    | Cr(k: nat, cap: Cap)
    | Dr(k: nat, data: Word)
    | SetFlags(flags: nat)
    | SetNia(nia: Word)
    | Clean(mask: seq<bool>)

  function ClearBound(c: Cap): Cap {
    c.(gt := c.gt % 0x8000_0000)
  }

  /** A masked argument register becomes null; an unmasked one loses its B bit; CR5 stays. */
  function Cleaned(cr: seq<Cap>, mask: seq<bool>): (r: seq<Cap>)
    requires |cr| == CRS && |mask| == ARGUMENTS
    ensures |r| == CRS
  {
    seq(CRS, k requires 0 <= k < CRS =>
      if k >= ARGUMENTS || k == 5 then cr[k] else if mask[k] then NULL_CAP_REG else ClearBound(cr[k]))
  }

  class RegFile {
    const cr: array<Cap>
    const dr: array<Word>
    var flags: nat
    var nia: Word
    /** Every write so far, in order. */
    ghost var log: seq<RegWrite>

    ghost predicate Valid()
      reads this
    {
      cr.Length == CRS && dr.Length == DRS && flags < 16
    }

    constructor (cr: array<Cap>, dr: array<Word>, flags: nat, nia: Word)
      requires cr.Length == CRS && dr.Length == DRS && flags < 16
      ensures Valid() && this.cr == cr && this.dr == dr && this.flags == flags && this.nia == nia && log == []
    {
      this.cr, this.dr, this.flags, this.nia, log := cr, dr, flags, nia, [];
    }

    method WriteCr(k: nat, cap: Cap)
      requires k < cr.Length
      modifies cr, this`log
      ensures cr[..] == old(cr[..])[k := cap] && log == old(log) + [Cr(k, cap)]
    {
      cr[k] := cap;
      log := log + [Cr(k, cap)];
    }

    method WriteDr(k: nat, data: Word)
      requires k < dr.Length
      modifies dr, this`log
      ensures dr[..] == old(dr[..])[k := data] && log == old(log) + [Dr(k, data)]
    {
      dr[k] := data;
      log := log + [Dr(k, data)];
    }

    method WriteFlags(value: nat)
      modifies this`flags, this`log
      ensures flags == value && log == old(log) + [SetFlags(value)]
    {
      flags, log := value, log + [SetFlags(value)];
    }

    method WriteNia(value: Word)
      modifies this`nia, this`log
      ensures nia == value && log == old(log) + [SetNia(value)]
    {
      nia, log := value, log + [SetNia(value)];
    }

    /** The parallel null and B-clear masks of one clock. */
    method CleanUp(mask: seq<bool>)
      requires cr.Length == CRS && |mask| == ARGUMENTS
      modifies cr, this`log
      ensures cr[..] == Cleaned(old(cr[..]), mask) && log == old(log) + [Clean(mask)]
    {
      forall k | 0 <= k < ARGUMENTS && k != 5 {
        cr[k] := if mask[k] then NULL_CAP_REG else ClearBound(cr[k]);
      }
      log := log + [Clean(mask)];
    }
  }
}
