/** mSave: exports a sealed token into a row of a c-list. */
module MSave {
  import opened Bits
  import opened Fields
  import opened Integrity
  import opened MLoad
  import opened Memory
  import opened NsGate

  datatype Export = Export(dst: Cap, gt: Word, index: Word, elevated: bool)

  datatype Saved = Written | Failed(fault: int)

  predicate SourceInBounds(gt: Word, ns: Cap) {
    GtSlot(gt) * 4 + 3 <= AuthLimit(ns.authority) && ns.location + GtSlot(gt) * 16 + 15 < 0x1_0000_0000
  }

  function Check(x: Export, ns: Cap, e: Entry): Saved {
    if x.index == 0 then Failed(F_IMMUTABLE_SELF_CAP)
    else if !GtBound(x.dst.gt) then Failed(F_BIND)
    else if !HasChurch(x.dst.gt, S) then Failed(F_PERM_S)
    else if AuthF(x.dst.authority) && !x.elevated then Failed(F_F_BIT)
    else if x.index > AuthLimit(x.dst.authority) % 0x1_0000 then Failed(F_BOUNDS)
    else if !SourceInBounds(x.gt, ns) then Failed(F_BOUNDS)
    else if !GtBound(x.gt) && !x.elevated then Failed(F_NULL_CAP)
    else
      match Decide(e, x.gt, false)
      case Refuse(f) => Failed(f)
      case Pass => Written
  }

  /** The word index of row `i` of a c-list. */
  function RowOf(dst: Cap, i: nat): nat {
    (dst.location + i * 4) % 0x1_0000_0000 / 4
  }

  function Row(x: Export): nat {
    RowOf(x.dst, x.index)
  }

  function Stored(m: seq<Word>, x: Export, r: Saved): (n: seq<Word>)
    requires |m| == ADDRESS_SPACE
    ensures |n| == |m|
  {
    if r.Written? then m[Row(x) := x.gt] else m
  }

  /** The destination may be saved through. */
  predicate Grants(x: Export) {
    GtBound(x.dst.gt) && HasChurch(x.dst.gt, S) && (AuthF(x.dst.authority) ==> x.elevated)
  }

  /** The source token may leave its register. */
  predicate Exportable(x: Export, ns: Cap, e: Entry) {
    SourceInBounds(x.gt, ns) && (GtBound(x.gt) || x.elevated) && Decide(e, x.gt, false) == Pass
  }

  function DestinationFault(x: Export): int {
    if !GtBound(x.dst.gt) then F_BIND
    else if !HasChurch(x.dst.gt, S) then F_PERM_S
    else if AuthF(x.dst.authority) && !x.elevated then F_F_BIT
    else F_BOUNDS
  }

  function SourceFault(x: Export, ns: Cap, e: Entry): int {
    if !SourceInBounds(x.gt, ns) then F_BOUNDS
    else if !GtBound(x.gt) && !x.elevated then F_NULL_CAP
    else if GtSeq(x.gt) != AuthSeq(e.authority) then F_VERSION
    else F_SEAL
  }

  /** The checks in one: a row past row 0 and inside the c-list, a destination that may be
      saved through, and a token that may leave. */
  lemma CheckIsStaged(x: Export, ns: Cap, e: Entry)
    ensures Check(x, ns, e).Written? <==>
      1 <= x.index <= AuthLimit(x.dst.authority) % 0x1_0000 && Grants(x) && Exportable(x, ns, e)
    ensures Check(x, ns, e).Failed? ==>
      Check(x, ns, e) == Failed(
        if x.index == 0 then F_IMMUTABLE_SELF_CAP
        else if !(Grants(x) && x.index <= AuthLimit(x.dst.authority) % 0x1_0000) then DestinationFault(x)
        else SourceFault(x, ns, e))
  {
  }

  class ChurchMSave {
    const table: array<Entry>
    const mem: Dmem

    constructor (table: array<Entry>, mem: Dmem)
      ensures this.table == table && this.mem == mem
    {
      this.table, this.mem := table, mem;
    }

    method Save(x: Export, ns: Cap) returns (r: Saved)
      requires table.Length == SLOTS && mem.cells.Length == ADDRESS_SPACE
      modifies mem.cells, mem`log
      ensures r == Check(x, ns, table[GtSlot(x.gt)])
      ensures mem.cells[..] == Stored(old(mem.cells[..]), x, r)
      ensures mem.log == old(mem.log) + if r.Written? then [Store(Row(x), x.gt)] else []
    {
      hide Check, Exportable, Grants, SourceFault, DestinationFault, Decide;
      CheckIsStaged(x, ns, table[GtSlot(x.gt)]);
      if x.index == 0 {
        return Failed(F_IMMUTABLE_SELF_CAP);
      }
      r := CheckDestination(x);
      if r.Failed? {
        return;
      }
      r := CheckSource(x, ns);
      if r.Written? {
        mem.Write((x.dst.location + x.index * 4) % 0x1_0000_0000, x.gt);
      }
    }

    /** CHECK_BIND to CHECK_BOUNDS. */
    method CheckDestination(x: Export) returns (r: Saved)
      ensures r.Written? <==> Grants(x) && x.index <= AuthLimit(x.dst.authority) % 0x1_0000
      ensures r.Failed? ==> r == Failed(DestinationFault(x))
    {
      if !GtBound(x.dst.gt) {
        return Failed(F_BIND);
      }
      if !HasChurch(x.dst.gt, S) {
        return Failed(F_PERM_S);
      }
      if AuthF(x.dst.authority) && !x.elevated {
        return Failed(F_F_BIT);
      }
      r := if x.index > AuthLimit(x.dst.authority) % 0x1_0000 then Failed(F_BOUNDS) else Written;
    }

    /** CHECK_SRC_BOUND to CHECK_VERSION. */
    method CheckSource(x: Export, ns: Cap) returns (r: Saved)
      requires table.Length == SLOTS
      ensures r.Written? <==> Exportable(x, ns, table[GtSlot(x.gt)])
      ensures r.Failed? ==> r == Failed(SourceFault(x, ns, table[GtSlot(x.gt)]))
    {
      if !SourceInBounds(x.gt, ns) {
        return Failed(F_BOUNDS);
      }
      if !GtBound(x.gt) && !x.elevated {
        return Failed(F_NULL_CAP);
      }
      var e := table[GtSlot(x.gt)];
      if GtSeq(x.gt) != AuthSeq(e.authority) {
        return Failed(F_VERSION);
      }
      r := if Integrity32(e.location, e.authority) != e.integrity then Failed(F_SEAL) else Written;
    }
  }

  // ---- row 0

  /** Words from the start of the c-list behind `dst` up to the word at `location`, around the
      address space. */
  function Ahead(dst: Cap, location: Word): (n: nat)
    ensures n < ADDRESS_SPACE
  {
    (location / 4 + ADDRESS_SPACE - dst.location / 4) % ADDRESS_SPACE
  }

  /** A row that saves through `dst` may address is the word at `location`. */
  predicate Overlaps(dst: Cap, location: Word) {
    1 <= Ahead(dst, location) <= AuthLimit(dst.authority) % 0x1_0000
  }

  lemma RowIsAhead(dst: Cap, location: Word, i: nat)
    requires i < ADDRESS_SPACE
    ensures RowOf(dst, i) == location / 4 <==> i == Ahead(dst, location)
  {
    var w, r, t := dst.location / 4, dst.location % 4, location / 4;
    var wrapped := if w + i < ADDRESS_SPACE then w + i else w + i - ADDRESS_SPACE;
    assert dst.location + i * 4 == (w + i) * 4 + r;
    DivModUnique(dst.location + i * 4, 0x1_0000_0000, if w + i < ADDRESS_SPACE then 0 else 1, wrapped * 4 + r);
    DivModUnique(wrapped * 4 + r, 4, wrapped, r);
    if w <= t {
      DivModUnique(t + ADDRESS_SPACE - w, ADDRESS_SPACE, 1, t - w);
    } else {
      DivModUnique(t + ADDRESS_SPACE - w, ADDRESS_SPACE, 0, t + ADDRESS_SPACE - w);
    }
  }

  /** Some save of the token through `x.dst` writes the word at `location`. */
  ghost predicate Reaches(x: Export, ns: Cap, e: Entry, location: Word) {
    exists i: Word :: RowOf(x.dst, i) == location / 4 && Check(x.(index := i), ns, e).Written?
  }

  /** With an exportable token, a capability reaches the word at `location` by some save
      exactly when it grants saving and one of its rows from row 1 on is that word.  Its own
      row 0 never is. */
  lemma ReachesExactlyOverlaps(x: Export, ns: Cap, e: Entry, location: Word)
    requires Exportable(x, ns, e)
    ensures Reaches(x, ns, e, location) <==> Grants(x) && Overlaps(x.dst, location)
    ensures !Overlaps(x.dst, x.dst.location)
  {
    hide Check, Exportable, Grants, RowOf, Ahead, AuthLimit;
    OwnRowZero(x.dst);
    RowIsAhead(x.dst, location, Ahead(x.dst, location));
    SavedRow(x, ns, e, Ahead(x.dst, location));
    if Reaches(x, ns, e, location) {
      ReachedOverlaps(x, ns, e, location);
    }
  }

  lemma OwnRowZero(dst: Cap)
    ensures !Overlaps(dst, dst.location)
  {
  }

  lemma ReachedOverlaps(x: Export, ns: Cap, e: Entry, location: Word)
    requires Exportable(x, ns, e) && Reaches(x, ns, e, location)
    ensures Grants(x) && Overlaps(x.dst, location)
  {
    hide Check, Exportable, Grants, RowOf, Ahead, AuthLimit;
    var i: Word :| RowOf(x.dst, i) == location / 4 && Check(x.(index := i), ns, e).Written?;
    SavedRow(x, ns, e, i);
    RowIsAhead(x.dst, location, i);
  }

  lemma SavedRow(x: Export, ns: Cap, e: Entry, i: Word)
    requires Exportable(x, ns, e)
    ensures Check(x.(index := i), ns, e).Written? <==> 1 <= i <= AuthLimit(x.dst.authority) % 0x1_0000 && Grants(x)
  {
    CheckIsStaged(x.(index := i), ns, e);
  }

  /** The saves of a run, each with CR15 and the source's entry as it finds them. */
  datatype Step = Step(x: Export, ns: Cap, e: Entry)

  function AfterSaves(m: seq<Word>, run: seq<Step>): (n: seq<Word>)
    requires |m| == ADDRESS_SPACE
    ensures |n| == ADDRESS_SPACE
    decreases |run|
  {
    if run == [] then m
    else AfterSaves(Stored(m, run[0].x, Check(run[0].x, run[0].ns, run[0].e)), run[1..])
  }

  /** Over any run of saves, row 0 of a c-list never changes unless a capability that grants
      saving has the word among its own later rows; a capability to the c-list itself has not. */
  lemma {:induction false} RowZeroIsImmutable(m: seq<Word>, run: seq<Step>, location: Word)
    requires |m| == ADDRESS_SPACE
    requires forall s :: s in run ==> !(Grants(s.x) && Overlaps(s.x.dst, location))
    ensures AfterSaves(m, run)[location / 4] == m[location / 4]
    decreases |run|
  {
    if run != [] {
      var s := run[0];
      var r := Check(s.x, s.ns, s.e);
      if r.Written? {
        RowIsAhead(s.x.dst, location, s.x.index);
      }
      RowZeroIsImmutable(Stored(m, s.x, r), run[1..], location);
    }
  }

  /** A bound c-list with S whose row 1 is the first word of the c-list at 0x104. */
  const OVERLAPPING := Cap(0xA800_0000, 0x100, 1)

  function SealedEntry(location: Word, authority: Word): (e: Entry)
    ensures SealOk(e) && e.location == location && e.authority == authority
  {
    IntegrityIsWord(location, authority);
    Entry(location, authority, Integrity32(location, authority), 0)
  }

  /** The bound token of slot 0, version 0, saved to row 1 of that c-list. */
  function OverlappingSave(location: Word, authority: Word): Step {
    Step(Export(OVERLAPPING, 0x8000_0000, 1, false), Cap(0, 0, 3), SealedEntry(location, authority))
  }

  lemma OverlappingIsWritten(location: Word, authority: Word)
    requires AuthSeq(authority) == 0
    ensures var s := OverlappingSave(location, authority);
      Grants(s.x) && Exportable(s.x, s.ns, s.e) && Check(s.x, s.ns, s.e).Written?
  {
    var s := OverlappingSave(location, authority);
    OverlapFields();
    assert Exportable(s.x, s.ns, s.e);
    CheckIsStaged(s.x, s.ns, s.e);
  }

  /** The save replaces row 0 of the c-list at 0x104. */
  lemma OverlappingSaveReachesRowZero(m: seq<Word>, location: Word, authority: Word)
    requires |m| == ADDRESS_SPACE && AuthSeq(authority) == 0
    ensures var s := OverlappingSave(location, authority);
      && Grants(s.x) && Overlaps(s.x.dst, 0x104)
      && AfterSaves(m, [s])[0x104 / 4] == 0x8000_0000
  {
    OverlapFields();
    OverlappingIsWritten(location, authority);
    OneSave(m, OverlappingSave(location, authority));
  }

  lemma OneSave(m: seq<Word>, s: Step)
    requires |m| == ADDRESS_SPACE
    ensures AfterSaves(m, [s]) == Stored(m, s.x, Check(s.x, s.ns, s.e))
  {
    assert [s][1..] == [];
  }

  lemma OverlapFields()
    ensures GtBound(OVERLAPPING.gt) && HasChurch(OVERLAPPING.gt, S) && AuthLimit(OVERLAPPING.authority) == 1
    ensures !AuthF(OVERLAPPING.authority) && Ahead(OVERLAPPING, 0x104) == 1 && RowOf(OVERLAPPING, 1) == 0x41
    ensures GtBound(0x8000_0000) && GtSlot(0x8000_0000) == 0 && GtSeq(0x8000_0000) == 0 && AuthLimit(3) == 3
  {
  }

  /** A token just exported is what a load of that row resolves, and the gate passes it. */
  lemma SaveThenLoad(x: Export, ns: Cap, q: Request, src: Cap, table: seq<Entry>, m: seq<Word>, resident: bool)
    requires |table| == SLOTS && |m| == ADDRESS_SPACE
    requires Check(x, ns, table[GtSlot(x.gt)]).Written?
    requires GtType(x.gt) == GT_INFORM || GtType(x.gt) == GT_NULL
    requires !q.direct && q.index == x.index && src.location == x.dst.location
    requires AuthLimit(src.authority) == AuthLimit(x.dst.authority)
    requires GtType(src.gt) != GT_NULL && HasChurch(src.gt, L)
    ensures RowAddress(q, src) / 4 == Row(x)
    ensures var word := Stored(m, x, Written)[Row(x)];
      && Resolve(q, src, ns, word, table, resident) == ResolveToken(q, x.gt, ns, table[GtSlot(x.gt)], resident)
      && Decide(table[GtSlot(x.gt)], x.gt, false) == Pass
  {
    assert Walk(q, src, x.gt) == Token(x.gt);
  }
}
