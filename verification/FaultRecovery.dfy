/** From a fault to its handler: what the stash wrote is what the booted handler finds in its
    registers. */
module FaultRecovery {
  import opened Bits
  import opened BootActivation
  import opened BootProofs
  import opened BootValidation
  import opened Change
  import opened Checks
  import opened FaultStash
  import opened Fields
  import opened Memory
  import opened Stores
  import opened Thread
  import M = MLoad

  /** A stashed body, read word by word. */
  lemma StashedWord(m: seq<Word>, at: nat, words: nat, handler: Word, f: Facts, k: nat)
    requires |m| == ADDRESS_SPACE && 256 <= words <= 8192 && at + words <= M.RESIDENT_WORDS && k < STASH_WORDS
    requires Fits(m, at, StashPuts(words, handler, f))
    ensures var p, n := StashPut(words, handler, f, k), StoreAll(m, at, StashPuts(words, handler, f));
      p.offset < words && BodyWordAt(n, at, p.offset) == p.value
  {
    hide StashPut;
    StashIsBijection(words, handler, f);
    Stored(m, at, StashPuts(words, handler, f), k);
    StashFits(m, at * 4, words, handler, f);
    BootWord(StoreAll(m, at, StashPuts(words, handler, f)), at, StashPut(words, handler, f, k).offset);
  }

  /** Data homes of a stashed body: code, address and instruction of the fault in DR1, DR2 and DR4,
      and zero elsewhere. */
  lemma StashedData(m: seq<Word>, at: nat, words: nat, handler: Word, f: Facts, k: nat)
    requires |m| == ADDRESS_SPACE && 256 <= words <= 8192 && at + words <= M.RESIDENT_WORDS && k < DR_WORDS
    requires Fits(m, at, StashPuts(words, handler, f))
    ensures BodyWordAt(StoreAll(m, at, StashPuts(words, handler, f)), at, k + 1)
         == if k == 1 then f.code else if k == 2 then f.address else if k == 4 then f.instruction else 0
  {
    hide StoreAll, StashPuts, BodyWordAt, Fits;
    StashedWord(m, at, words, handler, f,
      if k == 0 then 5 else if k == 1 then 2 else if k == 2 then 3 else if k == 3 then 6
      else if k == 4 then 4 else if k == 5 then 7 else k + 2);
  }

  /** Capability homes: the handler, the faulting Thread and its namespace, and null. */
  lemma StashedToken(m: seq<Word>, at: nat, words: nat, handler: Word, f: Facts, k: nat)
    requires |m| == ADDRESS_SPACE && 256 <= words <= 8192 && at + words <= M.RESIDENT_WORDS && k < CAP_WORDS
    requires Fits(m, at, StashPuts(words, handler, f))
    ensures BodyWordAt(StoreAll(m, at, StashPuts(words, handler, f)), at, words - CAP_WORDS + k)
         == if k == 0 then handler else if k == 1 then f.threadGt else if k == 2 then f.namespaceGt else 0
  {
    hide StoreAll, StashPuts, BodyWordAt, Fits;
    StashedWord(m, at, words, handler, f, if k == 0 then 18 else if k == 1 then 0 else if k == 2 then 1 else k + 16);
  }

  /** A completed stash, booted and activated: the handler starts with the fault's code, address and
      instruction in DR1, DR2 and DR4 and every other data register but DR0 zero, with its own
      token in CR0, those of the faulting Thread and its namespace in CR1 and CR2, and null in
      CR3 to CR11 but for the heap. */
  lemma HandlerFindsFacts(m: seq<Word>, n: seq<Word>, slots: nat, version: nat, at: nat, h: Word, handler: Word,
                          f: Facts, homes: seq<Cap>, dr0: Word, regs: seq<Cap>)
    requires |m| == ADDRESS_SPACE && ThreadHeader(h) && at + BodyWords(h) <= M.RESIDENT_WORDS && m[at] == h
    requires HandlerToken(handler) && Fits(m, at, StashPuts(BodyWords(h), handler, f))
    requires n == StoreAll(m, at, StashPuts(BodyWords(h), handler, f))
    requires Describes(n, slots, version, at * 4, BodyWords(h)) && version < 0x200 && |regs| == 16
    requires Validate(n, slots, version).Accept?
    requires BootHomes(n, slots, Validate(n, slots, version).value, CAP_WORDS) == Accept(homes)
    ensures var a := Validate(n, slots, version).value;
      var dr, cr := BootDrs(n, a, dr0), ActivatedRegs(regs, homes, a, version);
      && dr[1] == f.code && dr[2] == f.address && dr[4] == f.instruction && dr[0] == dr0
      && (forall k :: 3 <= k < DR_WORDS && k != 4 ==> dr[k] == 0)
      && cr[0].gt == handler && cr[1].gt == AfterBoot(f.threadGt) && cr[2].gt == AfterBoot(f.namespaceGt)
      && (forall k :: 3 <= k < CAP_WORDS && k != 5 ==> cr[k].gt == 0)
      && Flags(a.indicator) == 0
  {
    hide Validate, StoreAll, StashPuts, Fits, Describes, BodyWordAt, BodyWords, BootHomes, ThreadHeader, Flags,
         HandlerToken, RootIndicator, BootHeap, BootThreadCap;
    var a := Validate(n, slots, version).value;
    Geometry(h);
    StashBoots(m, n, slots, version, at, h, handler, f);
    RootFields(Caps(h));
    forall k | 1 <= k < DR_WORDS
      ensures BootDrs(n, a, dr0)[k]
           == if k == 1 then f.code else if k == 2 then f.address else if k == 4 then f.instruction else 0
    {
      StashedData(m, at, BodyWords(h), handler, f, k);
    }
    forall k | 0 <= k < CAP_WORDS
      ensures homes[k].gt
           == AfterBoot(if k == 0 then handler else if k == 1 then f.threadGt else if k == 2 then f.namespaceGt else 0)
    {
      StashedToken(m, at, BodyWords(h), handler, f, k);
      BootHomesTokens(n, slots, a, CAP_WORDS, k);
    }
    HandlerIsInform(handler);
    ActivatedTokens(regs, homes, a, version);
  }

  lemma HandlerIsInform(gt: Word)
    requires HandlerToken(gt)
    ensures GtType(gt) == GT_INFORM && GtType(0) == GT_NULL
  {
  }
}
