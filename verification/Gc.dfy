/** Deterministic collection: a mark pass sets G over a slot range, loads clear it, and a
    sweep pass revokes every entry of the range whose G is still set. */
module Gc {
  import opened Bits
  import opened Fields
  import opened Integrity
  import opened MLoad
  import opened NsGate

  function MarkEntry(e: Entry): Entry {
    e.(authority := SetG(e.authority))
  }

  /** Everything cleared but the version, counted up in seven bits. */
  function SweepEntry(e: Entry): Entry {
    Entry(0, (AuthSeq(e.authority) + 1) % 0x80 * 0x20_0000, 0, 0)
  }

  /** The last slot a pass visits: the first is visited in any case. */
  function Last(start: nat, end: nat): nat {
    if start <= end then end else start
  }

  function Marked(t: seq<Entry>, lo: nat, n: nat): (r: seq<Entry>)
    ensures |r| == |t|
  {
    seq(|t|, i requires 0 <= i < |t| => if lo <= i < n then MarkEntry(t[i]) else t[i])
  }

  function Swept(t: seq<Entry>, lo: nat, n: nat): (r: seq<Entry>)
    ensures |r| == |t|
  {
    seq(|t|, i requires 0 <= i < |t| =>
      if lo <= i < n && AuthG(t[i].authority) then SweepEntry(t[i]) else t[i])
  }

  /** How many slots from `lo` below `n` have G set. */
  function CountG(t: seq<Entry>, lo: nat, n: nat): nat
    requires n <= |t|
  {
    if n <= lo then 0 else CountG(t, lo, n - 1) + Bit(AuthG(t[n - 1].authority))
  }

  class ChurchGCUnit {
    const table: array<Entry>
    var currentIndex: nat
    var markCounter: nat
    var garbageCounter: nat

    constructor (table: array<Entry>)
      ensures this.table == table
    {
      this.table := table;
    }

    /** MARK_READ and MARK_WRITE over the range; the loop tests its bound after each slot. */
    method MarkPass(start: nat, end: nat)
      requires table.Length == SLOTS && start < SLOTS && end < SLOTS
      modifies this`currentIndex, this`markCounter, table
      ensures table[..] == Marked(old(table[..]), start, Last(start, end) + 1)
      ensures markCounter + CountG(old(table[..]), start, Last(start, end) + 1) == Last(start, end) + 1 - start
    {
      currentIndex, markCounter := start, 0;
      var more := true;
      ghost var n := start;
      while more
        invariant start <= n <= Last(start, end) + 1 && (more <==> n <= Last(start, end))
        invariant more ==> currentIndex == n
        invariant table[..] == Marked(old(table[..]), start, n)
        invariant markCounter + CountG(old(table[..]), start, n) == n - start
        decreases Last(start, end) + 1 - n
      {
        var e := table[currentIndex];
        table[currentIndex] := MarkEntry(e);
        if !AuthG(e.authority) {
          markCounter := markCounter + 1;
        }
        more := currentIndex < end;
        currentIndex := (currentIndex + 1) % SLOTS;
        n := n + 1;
      }
    }

    /** SWEEP_READ, SWEEP_CHECK and SWEEP_WRITE over the range. */
    method SweepPass(start: nat, end: nat)
      requires table.Length == SLOTS && start < SLOTS && end < SLOTS
      modifies this`currentIndex, this`garbageCounter, table
      ensures table[..] == Swept(old(table[..]), start, Last(start, end) + 1)
      ensures garbageCounter == CountG(old(table[..]), start, Last(start, end) + 1)
    {
      currentIndex, garbageCounter := start, 0;
      var more := true;
      ghost var n := start;
      while more
        invariant start <= n <= Last(start, end) + 1 && (more <==> n <= Last(start, end))
        invariant more ==> currentIndex == n
        invariant table[..] == Swept(old(table[..]), start, n)
        invariant garbageCounter == CountG(old(table[..]), start, n)
        decreases Last(start, end) + 1 - n
      {
        var e := table[currentIndex];
        if AuthG(e.authority) {
          garbageCounter := garbageCounter + 1;
          table[currentIndex] := SweepEntry(e);
        }
        more := currentIndex < end;
        currentIndex := (currentIndex + 1) % SLOTS;
        n := n + 1;
      }
    }

    /** One start pulse: a mark pass, a sweep pass, or one after the other. */
    method Run(start: nat, end: nat, markEn: bool, sweepEn: bool)
      requires table.Length == SLOTS && start < SLOTS && end < SLOTS
      modifies this, table
      ensures var n := Last(start, end) + 1;
        var marked := if markEn then Marked(old(table[..]), start, n) else old(table[..]);
        && table[..] == (if sweepEn then Swept(marked, start, n) else marked)
        && (markEn || sweepEn ==> garbageCounter == if sweepEn then CountG(marked, start, n) else 0)
    {
      if markEn {
        MarkPass(start, end);
        garbageCounter := 0;
        if sweepEn {
          SweepPass(start, end);
        }
      } else if sweepEn {
        markCounter := 0;
        SweepPass(start, end);
      }
    }
  }

  // ---- a whole collection: mark, any loads, sweep

  /** A request with what its source register, CR15 and the c-list row held. */
  datatype Attempt = Attempt(q: Request, src: Cap, ns: Cap, word: Word)

  function Answer(t: seq<Entry>, a: Attempt, resident: bool): Outcome
    requires |t| == SLOTS
  {
    Resolve(a.q, a.src, a.ns, a.word, t, resident)
  }

  function AfterAll(t: seq<Entry>, s: seq<Attempt>, resident: bool): (r: seq<Entry>)
    requires |t| == SLOTS
    ensures |r| == SLOTS
    decreases |s|
  {
    if s == [] then t else AfterAll(After(t, Answer(t, s[0], resident)), s[1..], resident)
  }

  /** The slots that some request of the run loads. */
  function Accessed(t: seq<Entry>, s: seq<Attempt>, resident: bool): set<nat>
    requires |t| == SLOTS
    decreases |s|
  {
    if s == [] then {}
    else
      var r := Answer(t, s[0], resident);
      (if r.Loaded? then {GtSlot(r.cap.gt)} else {}) + Accessed(After(t, r), s[1..], resident)
  }

  lemma TouchTwice(e: Entry)
    ensures Touch(Touch(e)) == Touch(e)
  {
  }

  /** Loads clear the G bit of the slots they load and leave every other entry alone. */
  lemma {:induction false} LoadsTouch(t: seq<Entry>, s: seq<Attempt>, resident: bool, i: nat)
    requires |t| == SLOTS && i < SLOTS
    ensures AfterAll(t, s, resident)[i] == if i in Accessed(t, s, resident) then Touch(t[i]) else t[i]
    decreases |s|
  {
    if s != [] {
      LoadsTouch(After(t, Answer(t, s[0], resident)), s[1..], resident, i);
      TouchTwice(t[i]);
    }
  }

  lemma MarkThenTouch(e: Entry)
    ensures Touch(MarkEntry(e)) == Touch(e)
    ensures SweepEntry(MarkEntry(e)) == SweepEntry(e)
    ensures AuthG(MarkEntry(e).authority) && !AuthG(Touch(e).authority)
  {
    SeqIsSealed(e.authority, SetG(e.authority));
  }

  /** No token of any version passes the gate, without elevation, through a swept slot. */
  lemma SweptIsDead(e: Entry, gt: Word)
    ensures Decide(SweepEntry(e), gt, false) != Pass
  {
    Unsealed(SweepEntry(e), (AuthSeq(e.authority) + 1) % 0x80, gt);
  }

  /** What exactly the sweep does to a slot: location, limit, seal, token, G and F are zero, and the
      version has gone up by one in seven bits, so that it always differs from the one before.
      Tokens of the old version are refused for their version, those of the next for the seal. */
  lemma SweepCountsVersion(e: Entry, gt: Word)
    ensures var s, v := SweepEntry(e), AuthSeq(e.authority);
      && s.location == 0 && s.integrity == 0 && s.token == 0
      && AuthLimit(s.authority) == 0 && !AuthG(s.authority) && !AuthF(s.authority)
      && AuthSeq(s.authority) == (if v % 0x80 == 0x7F then 0 else v % 0x80 + 1) && AuthSeq(s.authority) != v
      && (GtSeq(gt) == v ==> Decide(s, gt, false) == Refuse(F_VERSION))
      && (GtSeq(gt) == AuthSeq(s.authority) ==> Decide(s, gt, false) == Refuse(F_SEAL))
  {
    hide AuthSeq, AuthLimit, AuthG, AuthF, Integrity32, GtSeq;
    var n := NextVersion(AuthSeq(e.authority));
    SmallVersion(n);
    SweptUnsealed(n);
  }

  lemma NextVersion(v: nat) returns (n: nat)
    ensures n == (v + 1) % 0x80 < 0x80 && n != v && n == if v % 0x80 == 0x7F then 0 else v % 0x80 + 1
  {
    n := (v + 1) % 0x80;
  }

  lemma SmallVersion(v: nat)
    requires v < 0x80
    ensures var a := v * 0x20_0000; AuthSeq(a) == v && AuthLimit(a) == 0 && !AuthG(a) && !AuthF(a)
  {
  }

  lemma Unsealed(e: Entry, v: nat, gt: Word)
    requires v < 0x80 && e.location == 0 && e.authority == v * 0x20_0000 && e.integrity == 0
    ensures Decide(e, gt, false) != Pass
  {
    SweptUnsealed(v);
  }

  /** After mark, any loads and sweep, the range holds exactly: accessed slots as they were
      with G clear, and every other slot revoked. */
  lemma CollectionIsExact(t: seq<Entry>, s: seq<Attempt>, resident: bool, lo: nat, n: nat, i: nat)
    requires |t| == SLOTS && n <= SLOTS && i < SLOTS
    ensures var marked := Marked(t, lo, n);
      var live := Accessed(marked, s, resident);
      Swept(AfterAll(marked, s, resident), lo, n)[i] ==
        if i in live && lo <= i < n then Touch(t[i])
        else if lo <= i < n then SweepEntry(t[i])
        else if i in live then Touch(t[i])
        else t[i]
  {
    LoadsTouch(Marked(t, lo, n), s, resident, i);
    MarkThenTouch(t[i]);
  }

  /** The sweep's garbage count is the number of slots of the range that no request loaded. */
  lemma {:induction false} GarbageIsUnaccessed(t: seq<Entry>, s: seq<Attempt>, resident: bool, lo: nat, n: nat, m: nat)
    requires |t| == SLOTS && lo <= m <= n <= SLOTS
    ensures var marked := Marked(t, lo, n);
      CountG(AfterAll(marked, s, resident), lo, m) ==
        |set i: nat | lo <= i < m && i !in Accessed(marked, s, resident)|
    decreases m
  {
    var live := Accessed(Marked(t, lo, n), s, resident);
    if lo < m {
      GarbageIsUnaccessed(t, s, resident, lo, n, m - 1);
      LoadsTouch(Marked(t, lo, n), s, resident, m - 1);
      MarkThenTouch(t[m - 1]);
      OneMore(live, lo, m);
    } else {
      assert (set i: nat | lo <= i < m && i !in live) == {};
    }
  }

  lemma OneMore(live: set<nat>, lo: nat, m: nat)
    requires lo < m
    ensures |set i: nat | lo <= i < m && i !in live|
         == |set i: nat | lo <= i < m - 1 && i !in live| + (if m - 1 in live then 0 else 1)
  {
    var dead, fewer := set i: nat | lo <= i < m && i !in live, set i: nat | lo <= i < m - 1 && i !in live;
    assert dead == if m - 1 in live then fewer else fewer + {m - 1};
  }

  /** A survivor keeps its location, version and seal: what passed the gate still passes. */
  lemma SurvivorsPass(t: seq<Entry>, s: seq<Attempt>, resident: bool, lo: nat, n: nat, i: nat, gt: Word)
    requires |t| == SLOTS && n <= SLOTS && i < SLOTS
    requires i in Accessed(Marked(t, lo, n), s, resident) || !(lo <= i < n)
    ensures Decide(Swept(AfterAll(Marked(t, lo, n), s, resident), lo, n)[i], gt, false) == Decide(t[i], gt, false)
  {
    CollectionIsExact(t, s, resident, lo, n, i);
    TouchKeepsSeal(t[i], gt, false);
  }
}
