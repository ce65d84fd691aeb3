/** The lean download engine: a stored payload under a watchdog, and the zero-fill of the
    region when the line goes silent.  One call of `Step` is one clock edge. */
module OutformIot {
  import opened Bits
  import opened Memory
  import opened Payload
  import opened Writer
  import Crc32

  const FAULT_TIMEOUT := 0x19

  datatype State = RECV_PAYLOAD | SCRUB | CHECK_CRC32 | FAULT

  /** How many of the last clocks were idle. */
  function Trailing(seen: seq<Rx>): nat {
    if seen == [] || seen[|seen| - 1].Byte? then 0 else 1 + Trailing(seen[..|seen| - 1])
  }

  /** The watchdog fires on the last of these clocks. */
  predicate Expires(seen: seq<Rx>, limit: nat) {
    Trailing(seen) > 0 && Trailing(seen) >= limit
  }

  /** The first `n` clocks of a line that falls silent at its end. */
  function Clocks(line: seq<Rx>, n: nat): (s: seq<Rx>)
    ensures |s| == n
  {
    seq(n, i requires i >= 0 => if i < |line| then line[i] else Idle)
  }

  /** The whole words received, and zeros for the rest of the region. */
  function Scrubbed(data: seq<byte>, limit: nat): (all: seq<byte>)
    requires |data| <= limit
    ensures |all| == limit
  {
    data[..|data| / 4 * 4] + seq(limit - |data| / 4 * 4, _ => 0)
  }

  lemma DataSnoc(seen: seq<Rx>, c: Rx)
    ensures Data(seen + [c]) == Data(seen) + (if c.Byte? then [c.data] else [])
    ensures Trailing(seen + [c]) == if c.Byte? then 0 else 1 + Trailing(seen)
  {
    DataAppend(seen, [c]);
    assert [c][1..] == [];
    assert (seen + [c])[..|seen|] == seen;
  }

  lemma {:induction false} UnpackSame(m0: seq<Word>, base: nat, a: seq<byte>, b: seq<byte>, n: nat)
    requires base + n <= |m0| && 4 * n <= |a| && 4 * n <= |b| && a[..4 * n] == b[..4 * n]
    ensures Unpack(m0, base, a, n) == Unpack(m0, base, b, n)
    ensures Stores(base, a, n) == Stores(base, b, n)
  {
    if n > 0 {
      assert a[..4 * (n - 1)] == a[..4 * n][..4 * (n - 1)] && b[..4 * (n - 1)] == b[..4 * n][..4 * (n - 1)];
      UnpackSame(m0, base, a, b, n - 1);
      assert a[4 * (n - 1)..4 * n] == a[..4 * n][4 * (n - 1)..] && b[4 * (n - 1)..4 * n] == b[..4 * n][4 * (n - 1)..];
    }
  }

  lemma ScrubbedWord(data: seq<byte>, limit: nat, i: nat)
    requires |data| <= limit && |data| / 4 <= i && 4 * i + 4 <= limit
    ensures WordAt(Scrubbed(data, limit), i) == 0
  {
    var four := Scrubbed(data, limit)[4 * i..4 * i + 4];
    assert four == [0, 0, 0, 0];
    assert LittleEndian(four[1..]) == LittleEndian([0, 0, 0]);
    assert LittleEndian([0, 0, 0][1..]) == LittleEndian([0, 0]) && LittleEndian([0, 0][1..]) == 0;
    assert LittleEndian([0, 0, 0]) == 0;
  }

  /** The words written so far are the first words of the scrubbed region. */
  lemma KeptWords(m0: seq<Word>, base: nat, out: seq<byte>, n: nat, limit: nat)
    requires 4 * n <= |out| < 4 * n + 4 && |out| <= limit && base + n <= |m0|
    ensures Unpack(m0, base, out, n) == Unpack(m0, base, Scrubbed(out, limit), n)
    ensures Stores(base, out, n) == Stores(base, Scrubbed(out, limit), n)
  {
    assert |out| / 4 == n;
    assert Scrubbed(out, limit)[..4 * n] == out[..4 * n];
    UnpackSame(m0, base, out, Scrubbed(out, limit), n);
  }

  lemma StartScrub(w: WordWriter)
    requires w.Valid()
    ensures |w.out| <= w.Limit() && w.Stored(Scrubbed(w.out, w.Limit())) && |w.out| / 4 == w.wrWordCnt
  {
    KeptWords(w.was.cells, w.baseReg / 4, w.out, w.wrWordCnt, w.Limit());
  }

  /** No clock before the last of these ended the reception. */
  ghost predicate PatientUpTo(seen: seq<Rx>, timeoutLimit: nat, limit: nat) {
    forall p :: 0 <= p < |seen| ==> !Expires(seen[..p], timeoutLimit) && |Data(seen[..p])| < limit
  }

  lemma IdleClock(seen: seq<Rx>, timeoutLimit: nat, limit: nat)
    requires PatientUpTo(seen, timeoutLimit, limit) && !Expires(seen, timeoutLimit) && |Data(seen)| < limit
    ensures Data(seen + [Idle]) == Data(seen) && Trailing(seen + [Idle]) == Trailing(seen) + 1
    ensures PatientUpTo(seen + [Idle], timeoutLimit, limit)
  {
    DataSnoc(seen, Idle);
    OneMoreClock(seen, Idle, timeoutLimit, limit);
  }

  lemma OneMoreClock(seen: seq<Rx>, c: Rx, timeoutLimit: nat, limit: nat)
    requires PatientUpTo(seen, timeoutLimit, limit) && !Expires(seen, timeoutLimit) && |Data(seen)| < limit
    ensures PatientUpTo(seen + [c], timeoutLimit, limit)
  {
    forall p | 0 <= p <= |seen|
      ensures !Expires((seen + [c])[..p], timeoutLimit) && |Data((seen + [c])[..p])| < limit
    {
      assert (seen + [c])[..p] == seen[..p];
      assert seen[..|seen|] == seen;
    }
  }

  class ChurchOutformIoT {
    const w: WordWriter
    const timeoutLimit: nat
    var state: State
    var faultType: int
    var timeoutCnt: nat
    /** The clocks spent in RECV_PAYLOAD. */
    ghost var seen: seq<Rx>

    ghost predicate Received()
      reads this, w, w.mem.cells, w.mem
    {
      w.Valid() && w.out == Data(seen) && timeoutCnt == Trailing(seen)
    }

    /** No earlier clock ended the reception. */
    ghost predicate Patient()
      reads this
    {
      PatientUpTo(seen, timeoutLimit, w.Limit())
    }

    ghost predicate Valid()
      reads this, w, w.mem.cells, w.mem
    {
      && Patient()
      && match state
         case RECV_PAYLOAD => Received() && !Expires(seen, timeoutLimit) && |w.out| < w.Limit()
         case CHECK_CRC32 => Received() && |w.out| == w.Limit()
         case SCRUB => Late() && w.Stored(Scrubbed(Data(seen), w.Limit())) && |Data(seen)| / 4 <= w.wrWordCnt
         case FAULT => Late() && w.Stored(Scrubbed(Data(seen), w.Limit())) && w.wrWordCnt == w.totalWords
    }

    ghost predicate Late()
      reads this
    {
      faultType == FAULT_TIMEOUT && Expires(seen, timeoutLimit) && |Data(seen)| < w.Limit()
    }

    /** The engine as ALLOC leaves it. */
    constructor (mem: Dmem, baseReg: Word, totalWords: nat, timeoutLimit: nat)
      requires 1 <= totalWords <= 0x4000
      requires baseReg % 4 == 0 && baseReg / 4 + totalWords <= mem.cells.Length <= 0x4000_0000
      ensures Valid() && state == RECV_PAYLOAD && seen == [] && fresh(w)
      ensures w.mem == mem && w.was == Before(mem.cells[..], mem.log) && w.baseReg == baseReg
      ensures w.totalWords == totalWords
      ensures this.timeoutLimit == timeoutLimit
    {
      w := new WordWriter(mem, baseReg, totalWords);
      this.timeoutLimit := timeoutLimit;
      state, timeoutCnt, seen := RECV_PAYLOAD, 0, [];
    }

    /** One clock of RECV_PAYLOAD with a byte on the line. */
    method ReceiveByte(b: byte)
      requires Valid() && state == RECV_PAYLOAD
      modifies this`state, this`timeoutCnt, this`seen, w, w.mem.cells, w.mem`log
      ensures Valid() && state in {RECV_PAYLOAD, CHECK_CRC32}
      ensures seen == old(seen) + [Byte(b)] && w.out == old(w.out) + [b]
    {
      DataSnoc(seen, Byte(b));
      OneMoreClock(seen, Byte(b), timeoutLimit, w.Limit());
      seen := seen + [Byte(b)];
      timeoutCnt := 0;
      var full := w.Emit(b);
      if full {
        state := CHECK_CRC32;
      }
    }

    /** One idle clock of RECV_PAYLOAD. */
    method ReceiveNothing()
      requires Valid() && state == RECV_PAYLOAD
      modifies this`state, this`faultType, this`timeoutCnt, this`seen
      ensures Valid() && state in {RECV_PAYLOAD, SCRUB}
      ensures seen == old(seen) + [Idle]
      ensures state == RECV_PAYLOAD ==> timeoutCnt == old(timeoutCnt) + 1 < timeoutLimit
    {
      IdleClock(seen, timeoutLimit, w.Limit());
      if timeoutCnt + 1 >= timeoutLimit {
        StartScrub(w);
        state, faultType := SCRUB, FAULT_TIMEOUT;
      } else {
        timeoutCnt := timeoutCnt + 1;
      }
      seen := seen + [Idle];
      assert w.out == Data(seen);
    }

    /** One clock of SCRUB. */
    method Scrub()
      requires Valid() && state == SCRUB
      modifies this`state, w, w.mem.cells, w.mem`log
      ensures Valid() && state in {SCRUB, FAULT}
      ensures state == SCRUB ==> w.wrWordCnt == old(w.wrWordCnt) + 1
    {
      if w.wrWordCnt < w.totalWords {
        ScrubbedWord(Data(seen), w.Limit(), w.wrWordCnt);
        w.ScrubWord(Scrubbed(Data(seen), w.Limit()));
      } else {
        state := FAULT;
      }
    }

    /** RECV_PAYLOAD from its first clock to its last. */
    method RunReceive(line: seq<Rx>)
      requires Valid() && state == RECV_PAYLOAD && seen == []
      modifies this, w, w.mem.cells, w.mem`log
      ensures Valid() && state in {CHECK_CRC32, SCRUB} && seen == Clocks(line, |seen|)
    {
      var i := 0;
      while state == RECV_PAYLOAD
        invariant i == |seen| && Valid() && state != FAULT && seen == Clocks(line, |seen|)
        decreases state == RECV_PAYLOAD, w.Limit() - |w.out|, timeoutLimit - timeoutCnt
      {
        if i < |line| && line[i].Byte? {
          ReceiveByte(line[i].data);
        } else {
          ReceiveNothing();
        }
        i := i + 1;
      }
    }

    method RunScrub()
      requires Valid() && state == SCRUB
      modifies this`state, w, w.mem.cells, w.mem`log
      ensures Valid() && state == FAULT
    {
      while state == SCRUB
        invariant Valid() && state in {SCRUB, FAULT}
        decreases state == SCRUB, w.totalWords - w.wrWordCnt
      {
        Scrub();
      }
    }

    /** Downloads a payload.  It completes exactly when every byte arrives before the watchdog
        expires; otherwise the whole words received are kept and the rest of the region is
        zero.  Either way every word of the region is written once, in order. */
    method Run(line: seq<Rx>)
      requires Valid() && state == RECV_PAYLOAD && seen == []
      modifies this, w, w.mem.cells, w.mem`log
      ensures seen == Clocks(line, |seen|) && Patient()
      ensures |Data(seen)| <= w.Limit() && w.Stored(Scrubbed(Data(seen), w.Limit())) && w.wrWordCnt == w.totalWords
      ensures if |Data(seen)| == w.Limit() then state == CHECK_CRC32 else state == FAULT && Late()
      ensures state == CHECK_CRC32 ==> w.crcAcc == Crc32.TableUpdate(Crc32.INIT, Data(seen))
    {
      RunReceive(line);
      if state == CHECK_CRC32 {
        StartScrub(w);
        Crc32.StagesAreTable(Crc32.INIT, w.out);
      }
      if state == SCRUB {
        RunScrub();
      }
    }
  }
}
