/** How long a revocation lasts: the life of one namespace slot under marks, loads, sweeps
    and mints. */
module Revocation {
  import opened Bits
  import opened Fields
  import opened Gc
  import opened Integrity
  import opened MLoad
  import opened Mint
  import opened NsGate

  datatype SlotEvent = Marked | Loaded | Swept | Minted(base: Word, size: nat)
  {
    predicate Ok() {
      Minted? ==> 1 <= size <= 16384
    }
  }

  function Apply(e: Entry, slot: nat, v: SlotEvent): Entry
    requires slot < 0x1_0000 && v.Ok()
  {
    match v
    case Marked => MarkEntry(e)
    case Loaded => Touch(e)
    case Swept => if AuthG(e.authority) then SweepEntry(e) else e
    case Minted(base, size) => PublishedEntry(base, size, slot)
  }

  function After(e: Entry, slot: nat, run: seq<SlotEvent>): Entry
    requires slot < 0x1_0000 && forall v :: v in run ==> v.Ok()
    decreases |run|
  {
    if run == [] then e else After(Apply(e, slot, run[0]), slot, run[1..])
  }

  /** The version whose tokens an entry passes, if any. */
  datatype Hold = Nothing | Lump(version: nat)

  function Holding(e: Entry): Hold {
    if SealOk(e) then Lump(AuthSeq(e.authority)) else Nothing
  }

  lemma Passes(e: Entry, gt: Word)
    ensures Decide(e, gt, false) == Pass <==> Holding(e) == Lump(GtSeq(gt))
  {
  }

  /** What the slot holds after the run: a mint gives it a lump of version one, and a sweep that
      finds G set takes any lump away. */
  function Held(s: Hold, g: bool, run: seq<SlotEvent>): Hold
    decreases |run|
  {
    if run == [] then s
    else
      match run[0]
      case Marked => Held(s, true, run[1..])
      case Loaded => Held(s, false, run[1..])
      case Swept => Held(if g then Nothing else s, false, run[1..])
      case Minted(_, _) => Held(Lump(1), false, run[1..])
  }

  /** A sweep leaves an entry that no token passes. */
  lemma SweepEmpties(e: Entry)
    ensures Holding(SweepEntry(e)) == Nothing && !AuthG(SweepEntry(e).authority)
  {
    var v := Sealed(SweepEntry(e).authority) / 0x20_0000;
    SweptFields(e);
    SweptUnsealed(v);
    SealedTwice(v * 0x20_0000);
    AuthorityInjective(0, SweepEntry(e).authority, v * 0x20_0000);
  }

  lemma SweptFields(e: Entry)
    ensures var s := SweepEntry(e);
      && s.location == 0 && s.integrity == 0 && !AuthG(s.authority)
      && Sealed(s.authority) % 0x20_0000 == 0 && Sealed(s.authority) / 0x20_0000 < 0x80
  {
  }

  lemma SealedTwice(w: Word)
    requires w < 0x4000_0000
    ensures Sealed(w) == w
  {
  }

  lemma MarkKeepsHold(e: Entry)
    ensures Holding(MarkEntry(e)) == Holding(e) == Holding(Touch(e))
    ensures AuthG(MarkEntry(e).authority) && !AuthG(Touch(e).authority)
  {
    SeqIsSealed(e.authority, SetG(e.authority));
    SeqIsSealed(e.authority, ClearG(e.authority));
    AuthorityInjective(e.location, e.authority, SetG(e.authority));
    AuthorityInjective(e.location, e.authority, ClearG(e.authority));
  }

  lemma MintHolds(base: Word, size: nat, slot: nat)
    requires 1 <= size <= 16384 && slot < 0x1_0000
    ensures var e := PublishedEntry(base, size, slot); Holding(e) == Lump(1) && !AuthG(e.authority)
  {
    PublishedFields(slot, size);
    PublishedUnmarked(size);
  }

  lemma PublishedUnmarked(size: nat)
    requires 1 <= size <= 16384
    ensures !AuthG(PublishedAuthority(size))
  {
  }

  /** One event, on the entry and on what it holds. */
  lemma ApplyHolds(e: Entry, slot: nat, v: SlotEvent)
    requires slot < 0x1_0000 && v.Ok()
    ensures var f, s := Apply(e, slot, v), Holding(e);
      match v
      case Marked => Holding(f) == s && AuthG(f.authority)
      case Loaded => Holding(f) == s && !AuthG(f.authority)
      case Swept =>
        && Holding(f) == (if AuthG(e.authority) then Nothing else s)
        && !AuthG(f.authority)
      case Minted(_, _) => Holding(f) == Lump(1) && !AuthG(f.authority)
  {
    hide Holding, AuthG, PublishedEntry;
    match v
    case Marked => MarkKeepsHold(e);
    case Loaded => MarkKeepsHold(e);
    case Swept => SweepEmpties(e);
    case Minted(base, size) => MintHolds(base, size, slot);
  }

  lemma {:induction false} AfterHolds(e: Entry, slot: nat, run: seq<SlotEvent>)
    requires slot < 0x1_0000 && forall v :: v in run ==> v.Ok()
    ensures Holding(After(e, slot, run)) == Held(Holding(e), AuthG(e.authority), run)
    decreases |run|
  {
    hide Holding, AuthG, Apply;
    if run != [] {
      assert run[0] in run && run[0].Ok();
      ApplyHolds(e, slot, run[0]);
      AfterHolds(Apply(e, slot, run[0]), slot, run[1..]);
    }
  }

  /** From any entry and over any run, a token passes the slot exactly if the slot still holds a
      lump of the token's version: the one it started with until the first mint or taking sweep,
      and version one, the version every mint publishes, from a mint to the next taking sweep. */
  lemma PassesExactlyIfHeld(e: Entry, slot: nat, run: seq<SlotEvent>, gt: Word)
    requires slot < 0x1_0000 && forall v :: v in run ==> v.Ok()
    ensures Decide(After(e, slot, run), gt, false) == Pass
       <==> Held(Holding(e), AuthG(e.authority), run) == Lump(GtSeq(gt))
  {
    hide Held, After, AuthG;
    AfterHolds(e, slot, run);
  }

  /** Only version one ever comes back: a refused token of any other version is refused for ever. */
  lemma OldVersionsStayDead(e: Entry, slot: nat, run: seq<SlotEvent>, gt: Word)
    requires slot < 0x1_0000 && (forall v :: v in run ==> v.Ok())
    requires Decide(e, gt, false) != Pass && GtSeq(gt) != 1
    ensures Decide(After(e, slot, run), gt, false) != Pass
  {
    hide Held, After, AuthG;
    PassesExactlyIfHeld(e, slot, run, gt);
    HeldStays(Holding(e), AuthG(e.authority), run, GtSeq(gt));
  }

  lemma {:induction false} HeldStays(s: Hold, g: bool, run: seq<SlotEvent>, version: nat)
    requires s != Lump(version) && version != 1
    ensures Held(s, g, run) != Lump(version)
    decreases |run|
  {
    if run != [] {
      match run[0]
      case Marked => HeldStays(s, true, run[1..], version);
      case Loaded => HeldStays(s, false, run[1..], version);
      case Swept => HeldStays(if g then Nothing else s, false, run[1..], version);
      case Minted(_, _) => HeldStays(Lump(1), false, run[1..], version);
    }
  }

  function Revoke(e: Entry): Entry {
    Apply(Apply(e, 0, SlotEvent.Marked), 0, SlotEvent.Swept)
  }

  function Remint(e: Entry, slot: nat, base: Word, size: nat): Entry
    requires slot < 0x1_0000 && 1 <= size <= 16384
  {
    Apply(Revoke(e), slot, Minted(base, size))
  }

  /** Minting into a swept slot brings a revoked token back. */
  lemma RemintRevives(slot: nat, size: nat, base: Word, base': Word)
    requires slot < 0x1_0000 && 1 <= size <= 16384
    ensures var gt, e := PublishedGt(slot), PublishedEntry(base, size, slot);
      && Decide(e, gt, false) == Pass
      && Decide(Revoke(e), gt, false) != Pass
      && Decide(Remint(e, slot, base', size), gt, false) == Pass
  {
    var gt, e := PublishedGt(slot), PublishedEntry(base, size, slot);
    hide Holding, PublishedEntry, AuthG;
    MintHolds(base, size, slot);
    MintHolds(base', size, slot);
    PublishedFields(slot, size);
    Passes(e, gt);
    Passes(Revoke(e), gt);
    Passes(Remint(e, slot, base', size), gt);
    MarkKeepsHold(e);
    SweepEmpties(MarkEntry(e));
  }
}
