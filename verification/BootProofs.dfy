/** Which bodies boot: those the fault stash writes, and those CHANGE suspends. */
module BootProofs {
  import opened Bits
  import opened BootValidation
  import opened Change
  import opened ChangeProofs
  import opened Checks
  import opened FaultStash
  import opened Fields
  import opened Integrity
  import opened Memory
  import opened NsGate
  import opened Stores
  import opened Thread
  import M = MLoad

  /** A word of a boot body, by its two addressings. */
  lemma BootWord(m: seq<Word>, b: nat, o: nat)
    requires |m| == ADDRESS_SPACE && b < M.RESIDENT_WORDS && o < 0x4000
    ensures BodyWordAt(m, b, o) == m[b + o] == BodyAt(m, Cap(0, b * 4, 0), o)
  {
  }

  /** The admission of a slot-2 descriptor that covers exactly this body. */
  ghost predicate Describes(m: seq<Word>, slots: nat, version: nat, base: Word, words: nat)
    requires |m| == ADDRESS_SPACE
  {
    var d := Descriptor(m, slots, version);
    d.Accept? && d.value.location * 4 == base && AuthLimit(d.value.authority) == words - 1
  }

  /** A root form body: what CALL, the stash and boot agree on. */
  lemma RootBodyBoots(m: seq<Word>, slots: nat, version: nat, d: Entry, h: Word, gt: Word)
    requires |m| == ADDRESS_SPACE && d.location < M.RESIDENT_WORDS
    requires ThreadHeader(h) && AuthLimit(d.authority) == BodyWords(h) - 1 && EntryTokenOk(gt)
    requires m[d.location] == h && m[d.location + STO_OFFSET] == RootIndicator(Caps(h))
    requires m[d.location + Caps(h) - 2] == gt && m[d.location + Caps(h)] == gt
    requires m[d.location + Caps(h) - 1] == RootFrame(Caps(h))
    ensures Body(m, d).Accept? <==> BodyWords(h) <= 4096 && HdrCw(h) >= 5
    ensures Body(m, d).Accept? ==>
      Body(m, d).value == Admission(d.location, d.authority, h, RootIndicator(Caps(h)), gt, false)
  {
    var b := d.location;
    Geometry(h);
    BootWord(m, b, 0);
    BootWord(m, b, STO_OFFSET);
    RootIndicatorOk(h);
    if BodyWords(h) <= 4096 && HdrCw(h) >= 5 {
      BootWord(m, b, Caps(h) - 2);
      RootTop(m, d, h, gt);
    }
  }

  lemma RootIndicatorOk(h: Word)
    requires ThreadHeader(h)
    ensures StackIndicatorOk(h, RootIndicator(Caps(h))) <==> BodyWords(h) <= 4096 && HdrCw(h) >= 5
    ensures BodyWords(h) <= 4096 ==> Sto(RootIndicator(Caps(h))) == Caps(h) - 3
  {
    var w := RootIndicator(Caps(h));
    SizeSteps(h);
    RootFields(Caps(h));
    assert StackIndicatorOk(h, w) <==> StackLo(h) + 2 <= Sto(w) <= Caps(h) - 3 && Caps(h) - 1 <= 0xFFF;
  }

  lemma SizeSteps(h: Word)
    requires ThreadHeader(h)
    ensures BodyWords(h) == 8192 || 256 <= BodyWords(h) <= 4096
  {
  }

  lemma RootFields(caps: nat)
    requires 3 <= caps < 0x2000
    ensures var w := RootIndicator(caps);
      Sz(w) && Pc(w) == 0 && Flags(w) == 0 && (caps <= 0x1000 ==> Sto(w) == caps - 3)
  {
    FrameFields((caps - 3) % 0x1000, true, 0, 0);
  }

  lemma RootTop(m: seq<Word>, d: Entry, h: Word, gt: Word)
    requires |m| == ADDRESS_SPACE && d.location < M.RESIDENT_WORDS && ThreadHeader(h) && BodyWords(h) <= 4096
    requires m[d.location + Caps(h)] == gt && m[d.location + Caps(h) - 1] == RootFrame(Caps(h))
    ensures TopFrame(m, d, h, RootIndicator(Caps(h)), gt)
         == Accept(Admission(d.location, d.authority, h, RootIndicator(Caps(h)), gt, false))
  {
    Geometry(h);
    RootIndicatorOk(h);
    BootWord(m, d.location, Caps(h) - 1);
    BootWord(m, d.location, Caps(h));
    FrameFields((Caps(h) - 1) % 0x1000, true, POISON_PC, 0);
  }

  lemma HandlerEnters(gt: Word)
    requires HandlerToken(gt)
    ensures EntryTokenOk(gt)
  {
  }

  /** A completed stash boots exactly when its root fits the twelve-bit stack offset and the
      stack has five words; it then starts afresh in the handler. */
  lemma StashBoots(m: seq<Word>, n: seq<Word>, slots: nat, version: nat, at: nat, h: Word, handler: Word, f: Facts)
    requires |m| == ADDRESS_SPACE && ThreadHeader(h) && at + BodyWords(h) <= M.RESIDENT_WORDS && m[at] == h
    requires HandlerToken(handler) && Fits(m, at, StashPuts(BodyWords(h), handler, f))
    requires n == StoreAll(m, at, StashPuts(BodyWords(h), handler, f))
    requires Describes(n, slots, version, at * 4, BodyWords(h))
    ensures var r := Validate(n, slots, version);
      && (r.Accept? <==> BodyWords(h) <= 4096 && HdrCw(h) >= 5)
      && (r.Accept? ==> r.value == Admission(at, r.value.authority, h, RootIndicator(Caps(h)), handler, false))
  {
    hide StoreAll, StashPuts, Fits, Describes, Validate, HandlerToken, HdrCw, StackLo;
    Geometry(h);
    StashRootWords(m, at, BodyWords(h), handler, f);
    StashedBodyBoots(n, slots, version, at, h, handler);
  }

  lemma StashedBodyBoots(n: seq<Word>, slots: nat, version: nat, at: nat, h: Word, handler: Word)
    requires |n| == ADDRESS_SPACE && ThreadHeader(h) && HandlerToken(handler)
    requires at + BodyWords(h) <= M.RESIDENT_WORDS && Describes(n, slots, version, at * 4, BodyWords(h))
    requires n[at] == h && n[at + STO_OFFSET] == RootIndicator(Caps(h)) && n[at + Caps(h) - 2] == handler
    requires n[at + Caps(h) - 1] == RootFrame(Caps(h)) && n[at + Caps(h)] == handler
    ensures var r := Validate(n, slots, version);
      && (r.Accept? <==> BodyWords(h) <= 4096 && HdrCw(h) >= 5)
      && (r.Accept? ==> r.value == Admission(at, r.value.authority, h, RootIndicator(Caps(h)), handler, false))
  {
    hide Body, HandlerToken, EntryTokenOk, RootIndicator, RootFrame, HdrCw, AuthLimit, SealOk, ThreadHeader, BodyWords;
    var d := Descriptor(n, slots, version).value;
    assert d.location == at;
    HandlerEnters(handler);
    RootBodyBoots(n, slots, version, d, h, handler);
  }

  lemma StashRootWords(m: seq<Word>, at: nat, words: nat, handler: Word, f: Facts)
    requires 256 <= words <= 8192 && Fits(m, at, StashPuts(words, handler, f)) && at + words <= |m|
    ensures var n, caps := StoreAll(m, at, StashPuts(words, handler, f)), words - CAP_WORDS;
      && n[at] == m[at] && n[at + STO_OFFSET] == RootIndicator(caps)
      && n[at + caps - 2] == handler && n[at + caps - 1] == RootFrame(caps) && n[at + caps] == handler
  {
    var puts := StashPuts(words, handler, f);
    StashIsBijection(words, handler, f);
    forall k | 0 <= k < STASH_WORDS
      ensures at + puts[k].offset != at
    {
      assert StashTarget(words, StashPut(words, handler, f, k).offset);
    }
    Untouched(m, at, puts, at);
    Stored(m, at, puts, 18);
    Stored(m, at, puts, 28);
    Stored(m, at, puts, 29);
    Stored(m, at, puts, 30);
  }

  /** The Thread that boot admits is the one that namespace slot 2 seals under the boot version,
      past the namespace table and wholly inside the resident words.  It resumes by a top frame that
      names its own offset, or it is a whole root form whose home 0 repeats its E token. */
  lemma ValidatedIsSealed(m: seq<Word>, slots: nat, version: nat)
    requires |m| == ADDRESS_SPACE && Validate(m, slots, version).Accept?
    ensures var a := Validate(m, slots, version).value;
      && a.baseWord == m[8] && a.authority == m[9] && Integrity32(m[8], m[9]) == m[10] && AuthSeq(m[9]) == version
      && !AuthF(m[9]) && slots * 4 <= a.baseWord && a.baseWord + AuthLimit(m[9]) < M.RESIDENT_WORDS
      && a.header == m[a.baseWord] && AuthLimit(m[9]) == BodyWords(a.header) - 1
      && a.indicator == m[a.baseWord + STO_OFFSET] && EntryTokenOk(a.entryGt)
      && StackLo(a.header) + 2 <= Sto(a.indicator) <= Caps(a.header) - 3
      && a.entryGt == m[a.baseWord + Sto(a.indicator) + 1]
      && var f := m[a.baseWord + Sto(a.indicator) + 2];
         if a.resume then Pc(f) != POISON_PC && Sto(f) == Sto(a.indicator) + 2
         else Sto(a.indicator) == Caps(a.header) - 3 && f == RootFrame(Caps(a.header))
              && m[a.baseWord + Caps(a.header)] == a.entryGt
  {
    hide Integrity32, AuthSeq, AuthF, AuthLimit, ThreadHeader, BodyWords, BodyWordAt, EntryTokenOk, RootFrame, Caps,
         StackLo, Sto, Pc;
    var d := Descriptor(m, slots, version).value;
    BootWord(m, d.location, 0);
    BootWord(m, d.location, STO_OFFSET);
    var a := Validate(m, slots, version).value;
    Geometry(a.header);
    BootWord(m, d.location, Sto(a.indicator) + 1);
    BootWord(m, d.location, Sto(a.indicator) + 2);
    BootWord(m, d.location, Caps(a.header));
  }

  // ---- suspended Threads

  /** The admitted body is the suspended one, with its flags and its E token. */
  ghost predicate Restarts(a: Admission, c: Core, out: Outgoing)
    requires c.Ok() && out.Suspend?
  {
    a.entryGt == EGt(c.regs[6].gt) && a.header == out.header && Flags(a.indicator) == c.flags
  }

  /** A body that CHANGE suspended boots and resumes exactly when its stack had two words more
      than CHANGE asked for, its root fits the twelve-bit offset, its c-list token was resident
      and its return address is not the poison one. */
  lemma SuspendedBoots(c: Core, out: Outgoing, n: seq<Word>, slots: nat, version: nat)
    requires c.Ok() && OutgoingFits(out) && out.Suspend? && AdmitOutgoing(c) == Accept(out)
    requires |n| == ADDRESS_SPACE && SameBody(Saved(c, out), n, out.base, BodyWords(out.header))
    requires Describes(n, slots, version, out.base, BodyWords(out.header))
    ensures var r := Validate(n, slots, version);
      (r.Accept? && r.value.resume) <==>
        && Sto(out.indicator) >= StackLo(out.header) + 4 && BodyWords(out.header) <= 4096
        && GtType(c.regs[6].gt) == GT_INFORM && SuspendPc(c) != POISON_PC
    ensures var r := Validate(n, slots, version);
      r.Accept? ==> Restarts(r.value, c, out) && r.value.baseWord * 4 == out.base
    ensures var r := Validate(n, slots, version);
      r.Accept? && !r.value.resume ==> SuspendPc(c) == POISON_PC
  {
    var d := Descriptor(n, slots, version).value;
    var t := Cap(0, d.location * 4, 0);
    SuspensionIsRecorded(c, out, n, t);
    RecordedBoots(c, out, n, d, t);
  }

  lemma RecordedBoots(c: Core, out: Outgoing, n: seq<Word>, d: Entry, t: Cap)
    requires c.Ok() && OutgoingFits(out) && out.Suspend? && |n| == ADDRESS_SPACE
    requires d.location < M.RESIDENT_WORDS && t == Cap(0, d.location * 4, 0)
    requires AuthLimit(d.authority) == BodyWords(out.header) - 1 && Recorded(c, out, n, t)
    ensures (Body(n, d).Accept? && Body(n, d).value.resume) <==>
        && Sto(out.indicator) >= StackLo(out.header) + 4 && BodyWords(out.header) <= 4096
        && GtType(c.regs[6].gt) == GT_INFORM && SuspendPc(c) != POISON_PC
    ensures Body(n, d).Accept? ==> Restarts(Body(n, d).value, c, out) && Body(n, d).value.baseWord == d.location
    ensures Body(n, d).Accept? && !Body(n, d).value.resume ==> SuspendPc(c) == POISON_PC
  {
    Geometry(out.header);
    var b, sto := d.location, Sto(out.indicator);
    var w, f := BodyAt(n, t, STO_OFFSET), BodyAt(n, t, sto);
    BootWord(n, b, 0);
    BootWord(n, b, STO_OFFSET);
    BootWord(n, b, sto - 1);
    BootWord(n, b, sto);
    FrameFields(sto - 2, true, 0, c.flags);
    SuspendFrameRecords(c, out.indicator);
    EGtEnters(c.regs[6].gt);
    FrameDecides(n, d, out.header, w, EGt(c.regs[6].gt), f);
  }

  /** A body whose top frame names its own offset: what its admission as a resume comes down to. */
  lemma FrameDecides(n: seq<Word>, d: Entry, h: Word, indicator: Word, gt: Word, f: Word)
    requires d.location < M.RESIDENT_WORDS && ThreadHeader(h) && AuthLimit(d.authority) == BodyWords(h) - 1
    requires BodyWordAt(n, d.location, 0) == h && BodyWordAt(n, d.location, STO_OFFSET) == indicator
    requires BodyWordAt(n, d.location, Sto(indicator) + 1) == gt && EntersOnly(gt)
    requires BodyWordAt(n, d.location, Sto(indicator) + 2) == f && Sto(f) == Sto(indicator) + 2
    requires Sz(indicator) && Pc(indicator) == 0
    ensures (Body(n, d).Accept? && Body(n, d).value.resume) <==>
        && StackLo(h) + 2 <= Sto(indicator) <= Caps(h) - 3 && Caps(h) - 1 <= 0xFFF
        && GtType(gt) == GT_INFORM && Pc(f) != POISON_PC
    ensures Body(n, d).Accept? ==> var a := Body(n, d).value;
      && a.entryGt == gt && a.header == h && a.indicator == indicator && a.baseWord == d.location
      && (!a.resume ==> Pc(f) == POISON_PC)
  {
  }
}
