/** Admission of the boot Thread: its slot-2 descriptor, header, stack indicator and top frame. */
module BootValidation {
  import opened Bits
  import opened Checks
  import opened Fields
  import opened Memory
  import opened NsGate
  import opened Thread
  import M = MLoad

  const DESCRIPTOR_ADDRESS: Word := 32
  const F_CORRUPT := F_STACK_CORRUPT

  datatype Admission = Admission(baseWord: nat, authority: Word, header: Word, indicator: Word,
                                 entryGt: Word, resume: bool)

  /** Word `o` of a body whose base is a word address. */
  function BodyWordAt(m: seq<Word>, base: nat, o: nat): Word
    requires base < M.RESIDENT_WORDS
  {
    ReadAt(m, (base + o) * 4 % 0x1_0000_0000)
  }

  /** The descriptor is current, sealed, local and past the namespace table. */
  function Descriptor(m: seq<Word>, slots: nat, version: nat): Checked<Entry> {
    var d := EntryAt(m, DESCRIPTOR_ADDRESS);
    :- Require(AuthSeq(d.authority) == version, F_VERSION);
    :- Require(SealOk(d), F_SEAL);
    :- Require(!AuthF(d.authority) && slots * 4 <= d.location < M.RESIDENT_WORDS
               && d.location + AuthLimit(d.authority) < M.RESIDENT_WORDS, F_BOUNDS);
    Accept(d)
  }

  predicate StackIndicatorOk(h: Word, indicator: Word) {
    && Sz(indicator) && Pc(indicator) == 0
    && StackLo(h) + 2 <= Sto(indicator) <= Caps(h) - 3 && Caps(h) - 1 <= 0xFFF
  }

  predicate EntryTokenOk(gt: Word) {
    GtType(gt) == GT_INFORM && EntersOnly(gt)
  }

  function Body(m: seq<Word>, d: Entry): Checked<Admission>
    requires d.location < M.RESIDENT_WORDS
  {
    var b := d.location;
    var h := BodyWordAt(m, b, 0);
    :- Require(ThreadHeader(h) && AuthLimit(d.authority) == BodyWords(h) - 1, F_BOUNDS);
    var indicator := BodyWordAt(m, b, STO_OFFSET);
    :- Require(StackIndicatorOk(h, indicator), F_CORRUPT);
    var entryGt := BodyWordAt(m, b, Sto(indicator) + 1);
    :- Require(EntryTokenOk(entryGt), F_CORRUPT);
    TopFrame(m, d, h, indicator, entryGt)
  }

  /** A frame with a real program counter resumes; the poison one must be the whole root form. */
  function TopFrame(m: seq<Word>, d: Entry, h: Word, indicator: Word, entryGt: Word): Checked<Admission>
    requires d.location < M.RESIDENT_WORDS && ThreadHeader(h)
  {
    var b := d.location;
    var frame := BodyWordAt(m, b, Sto(indicator) + 2);
    if Pc(frame) != POISON_PC then
      :- Require(Sto(frame) == Sto(indicator) + 2, F_CORRUPT);
      Accept(Admission(b, d.authority, h, indicator, entryGt, true))
    else
      :- Require(Sto(indicator) == Caps(h) - 3 && frame == RootFrame(Caps(h)), F_CORRUPT);
      :- Require(BodyWordAt(m, b, Caps(h)) == entryGt, F_CORRUPT);
      Accept(Admission(b, d.authority, h, indicator, entryGt, false))
  }

  function Validate(m: seq<Word>, slots: nat, version: nat): (r: Checked<Admission>)
    ensures r.Accept? ==> r.value.baseWord < M.RESIDENT_WORDS && ThreadHeader(r.value.header)
  {
    var d :- Descriptor(m, slots, version);
    Body(m, d)
  }

  class BootThreadValidation {
    const mem: Dmem
    const version: nat
    // latched words: descriptor 0 to 3, then header, indicator, entry token, frame, home 0
    const d: array<Word>
    var index: nat

    constructor (mem: Dmem, version: nat)
      ensures this.mem == mem && this.version == version && d.Length == 9 && fresh(d)
    {
      this.mem, this.version := mem, version;
      d := new Word[9];
    }

    method Fetch(address: Word)
      requires mem.cells.Length == ADDRESS_SPACE && d.Length == 9 && index < 9 && d != mem.cells
      modifies d, this`index
      ensures d[..] == old(d[..])[old(index) := ReadAt(mem.cells[..], address)] && index == old(index) + 1
    {
      d[index] := mem.Read(address);
      index := index + 1;
    }

    method Run(slots: nat) returns (r: Checked<Admission>)
      requires mem.cells.Length == ADDRESS_SPACE && d.Length == 9 && d != mem.cells
      modifies d, this`index
      ensures r == Validate(mem.cells[..], slots, version)
    {
      index := 0;
      while index < 4
        invariant 0 <= index <= 4
        invariant forall k :: 0 <= k < index ==> d[k] == ReadAt(mem.cells[..], DESCRIPTOR_ADDRESS + k * 4)
      {
        Fetch(DESCRIPTOR_ADDRESS + index * 4);
      }
      var e := Entry(d[0], d[1], d[2], d[3]);
      assert e == EntryAt(mem.cells[..], DESCRIPTOR_ADDRESS);
      :- Require(AuthSeq(e.authority) == version, F_VERSION);
      :- Require(SealOk(e), F_SEAL);
      :- Require(!AuthF(e.authority) && slots * 4 <= e.location < M.RESIDENT_WORDS
                 && e.location + AuthLimit(e.authority) < M.RESIDENT_WORDS, F_BOUNDS);
      r := RunBody(e);
    }

    method RunBody(e: Entry) returns (r: Checked<Admission>)
      requires mem.cells.Length == ADDRESS_SPACE && d.Length == 9 && d != mem.cells && index == 4
      requires e.location < M.RESIDENT_WORDS
      modifies d, this`index
      ensures r == Body(mem.cells[..], e)
    {
      var b := e.location;
      Fetch(b * 4 % 0x1_0000_0000);
      var h := d[4];
      :- Require(ThreadHeader(h) && AuthLimit(e.authority) == BodyWords(h) - 1, F_BOUNDS);
      Fetch((b + STO_OFFSET) * 4 % 0x1_0000_0000);
      var indicator := d[5];
      :- Require(StackIndicatorOk(h, indicator), F_CORRUPT);
      Fetch((b + (Sto(indicator) + 1)) * 4 % 0x1_0000_0000);
      var entryGt := d[6];
      :- Require(EntryTokenOk(entryGt), F_CORRUPT);
      Fetch((b + (Sto(indicator) + 2)) * 4 % 0x1_0000_0000);
      var frame := d[7];
      if Pc(frame) != POISON_PC {
        :- Require(Sto(frame) == Sto(indicator) + 2, F_CORRUPT);
        return Accept(Admission(b, e.authority, h, indicator, entryGt, true));
      }
      :- Require(Sto(indicator) == Caps(h) - 3 && frame == RootFrame(Caps(h)), F_CORRUPT);
      Fetch((b + Caps(h)) * 4 % 0x1_0000_0000);
      :- Require(d[8] == entryGt, F_CORRUPT);
      return Accept(Admission(b, e.authority, h, indicator, entryGt, false));
    }
  }
}
