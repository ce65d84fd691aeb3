/** The fault-entry writer: thirty-one words, each written, read back and compared, that turn
    a Thread body into one that boots into the fault handler. */
module FaultStash {
  import opened Bits
  import opened BootValidation
  import opened Checks
  import opened Fields
  import opened Memory
  import opened NsGate
  import opened Stores
  import opened Thread
  import M = MLoad

  const STASH_WORDS := 31

  /** What a fault reports. */
  datatype Facts = Facts(threadGt: Word, namespaceGt: Word, code: Word, address: Word, instruction: Word)

  /** An E-only Inform token without B, as the unit's build demands. */
  predicate HandlerToken(gt: Word) {
    gt / 0x200_0000 == 0x25 && GtSlot(gt) != 0
  }

  /** The stores in order. */
  function StashPut(words: nat, handler: Word, f: Facts, k: nat): Put
    requires 256 <= words <= 8192 && k < STASH_WORDS
  {
    var caps := words - CAP_WORDS;
    if k == 0 then Put(caps + 1, f.threadGt)
    else if k == 1 then Put(caps + 2, f.namespaceGt)
    else if k == 2 then Put(2, f.code)
    else if k == 3 then Put(3, f.address)
    else if k == 4 then Put(5, f.instruction)
    else if k == 5 then Put(1, 0)
    else if k == 6 then Put(4, 0)
    else if k == 7 then Put(6, 0)
    else if k < 18 then Put(k - 1, 0)
    else if k == 18 then Put(caps, handler)
    else if k < 28 then Put(caps + k - 16, 0)
    else if k == 28 then Put(caps - 2, handler)
    else if k == 29 then Put(caps - 1, RootFrame(caps))
    else Put(STO_OFFSET, RootIndicator(caps))
  }

  function StashPuts(words: nat, handler: Word, f: Facts): (s: seq<Put>)
    requires 256 <= words <= 8192
    ensures |s| == STASH_WORDS
  {
    seq(STASH_WORDS, k requires 0 <= k < STASH_WORDS => StashPut(words, handler, f, k))
  }

  /** Data homes, word 17, the root frame pair and the capability homes. */
  predicate StashTarget(words: nat, o: int) {
    1 <= o <= STO_OFFSET || words - CAP_WORDS - 2 <= o < words
  }

  /** Which store writes a target word. */
  function StashIndex(words: nat, o: nat): (k: nat)
    requires 256 <= words <= 8192 && StashTarget(words, o)
    ensures k < STASH_WORDS
  {
    var caps := words - CAP_WORDS;
    if o == 1 then 5 else if o == 2 then 2 else if o == 3 then 3 else if o == 4 then 6
    else if o == 5 then 4 else if o == 6 then 7 else if o < STO_OFFSET then o + 1
    else if o == STO_OFFSET then 30
    else if o == caps - 2 then 28 else if o == caps - 1 then 29 else if o == caps then 18
    else if o == caps + 1 then 0 else if o == caps + 2 then 1 else o - caps + 16
  }

  /** The offsets are a bijection onto the target words. */
  lemma StashIsBijection(words: nat, handler: Word, f: Facts)
    requires 256 <= words <= 8192
    ensures Distinct(StashPuts(words, handler, f))
    ensures forall k :: 0 <= k < STASH_WORDS ==> StashTarget(words, StashPut(words, handler, f, k).offset)
    ensures forall o: nat :: StashTarget(words, o) ==> StashPut(words, handler, f, StashIndex(words, o)).offset == o
  {
    forall k | 0 <= k < STASH_WORDS
      ensures StashTarget(words, StashPut(words, handler, f, k).offset)
      ensures StashIndex(words, StashPut(words, handler, f, k).offset) == k
    {
    }
  }

  /** The inputs of one write, read and verify round. */
  datatype Turn = Turn(safeWrite: bool, granted: bool, safeRead: bool, safeVerify: bool, readValid: bool)
  {
    predicate Good() {
      safeWrite && granted && safeRead && safeVerify && readValid
    }
  }

  class FaultStash {
    const mem: Dmem
    const base: Word
    const words: nat
    const handler: Word
    var index: nat
    var catastrophic: bool

    ghost predicate Valid() {
      && base % 4 == 0 && 256 <= words <= 8192 && base / 4 + words <= M.RESIDENT_WORDS
      && HandlerToken(handler) && mem.cells.Length == ADDRESS_SPACE
    }

    constructor (mem: Dmem, base: Word, words: nat, handler: Word)
      requires base % 4 == 0 && 256 <= words <= 8192 && base / 4 + words <= M.RESIDENT_WORDS
      requires HandlerToken(handler) && mem.cells.Length == ADDRESS_SPACE
      ensures Valid() && this.mem == mem && this.base == base && this.words == words && this.handler == handler
    {
      this.mem, this.base, this.words, this.handler := mem, base, words, handler;
    }

    /** Writes until it is done or a round goes wrong; done exactly when every round was good.
        Whatever happens, the first `n` words of the list have been stored, each once and in
        order, and nothing else. */
    method Run(safe: bool, f: Facts, turns: seq<Turn>) returns (done: bool, ghost n: nat)
      requires Valid() && |turns| == STASH_WORDS
      modifies this, mem.cells, mem`log
      ensures done <==> safe && forall k :: 0 <= k < STASH_WORDS ==> turns[k].Good()
      ensures catastrophic <==> !done
      ensures Fits(old(mem.cells[..]), base / 4, StashPuts(words, handler, f))
      ensures n <= STASH_WORDS && (done ==> n == STASH_WORDS)
      ensures Fits(old(mem.cells[..]), base / 4, StashPuts(words, handler, f)[..n])
      ensures mem.cells[..] == StoreAll(old(mem.cells[..]), base / 4, StashPuts(words, handler, f)[..n])
      ensures mem.log == old(mem.log) + StashStores(base, StashPuts(words, handler, f)[..n])
    {
      hide StashPut, HandlerToken;
      StashFits(mem.cells[..], base, words, handler, f);
      var puts := StashPuts(words, handler, f);
      index, catastrophic, n := 0, !safe, 0;
      while index < STASH_WORDS && !catastrophic
        invariant 0 <= index <= STASH_WORDS && n <= STASH_WORDS
        invariant !catastrophic ==> n == index && safe && forall k :: 0 <= k < index ==> turns[k].Good()
        invariant catastrophic ==> !safe || (index < STASH_WORDS && !turns[index].Good())
        invariant mem.cells[..] == StoreAll(old(mem.cells[..]), base / 4, puts[..n])
        invariant mem.log == old(mem.log) + StashStores(base, puts[..n])
        decreases STASH_WORDS - index, !catastrophic
      {
        var t := turns[index];
        if t.safeWrite && t.granted {
          var readData := StoreAndRead(old(mem.cells[..]), old(mem.log), puts, index);
          n := n + 1;
          if t.safeRead && t.safeVerify && t.readValid && readData == puts[index].value {
            index := index + 1;
          } else {
            catastrophic := true;
          }
        } else {
          catastrophic := true;
        }
      }
      assert puts[..STASH_WORDS] == puts;
      done := !catastrophic;
    }

    /** One word written and read back. */
    method StoreAndRead(ghost was: seq<Word>, ghost log: seq<Store>, puts: seq<Stores.Put>, k: nat)
      returns (readData: Word)
      requires Valid() && k < |puts| && puts[k].offset < words && |was| == ADDRESS_SPACE
      requires Fits(was, base / 4, puts) && mem.cells[..] == StoreAll(was, base / 4, puts[..k])
      requires mem.log == log + StashStores(base, puts[..k])
      modifies mem.cells, mem`log
      ensures mem.cells[..] == StoreAll(was, base / 4, puts[..k + 1]) && readData == puts[k].value
      ensures mem.log == log + StashStores(base, puts[..k + 1])
    {
      StoreStep(was, base / 4, puts, k);
      StashGrows(base, puts, k);
      WordAddress(base, puts[k].offset);
      var address: Word := base + puts[k].offset * 4;
      mem.Write(address, puts[k].value);
      readData := mem.Read(address);
    }
  }

  /** A run of puts as the memory sees it. */
  function StashStores(base: Word, puts: seq<Stores.Put>): (s: seq<Store>)
    ensures |s| == |puts|
  {
    seq(|puts|, k requires 0 <= k < |puts| => Store(base / 4 + puts[k].offset, puts[k].value))
  }

  lemma StashGrows(base: Word, puts: seq<Stores.Put>, k: nat)
    requires k < |puts|
    ensures StashStores(base, puts[..k + 1])
         == StashStores(base, puts[..k]) + [Store(base / 4 + puts[k].offset, puts[k].value)]
  {
  }

  lemma WordAddress(base: Word, offset: nat)
    requires base % 4 == 0 && base / 4 + offset < M.RESIDENT_WORDS
    ensures base + offset * 4 < 0x1_0000_0000 && (base + offset * 4) / 4 == base / 4 + offset
  {
  }

  lemma StashFits(m: seq<Word>, base: Word, words: nat, handler: Word, f: Facts)
    requires 256 <= words <= 8192 && base / 4 + words <= M.RESIDENT_WORDS && |m| == ADDRESS_SPACE
    ensures Fits(m, base / 4, StashPuts(words, handler, f))
    ensures forall k :: 0 <= k < STASH_WORDS ==> StashPuts(words, handler, f)[k].offset < words
  {
  }
}
