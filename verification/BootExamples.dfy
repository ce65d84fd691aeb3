/** Boot images that boot CHANGE activates: one that boot validation refuses, and one whose
    executable claims more c-list rows than it has words. */
module BootExamples {
  import opened Bits
  import opened BootChange
  import opened BootProofs
  import opened BootValidation
  import opened Change
  import opened ChangeProofs
  import opened Checks
  import opened Fields
  import opened Integrity
  import opened Memory
  import opened NsGate
  import opened Thread
  import opened Windows
  import M = MLoad

  /** One memory.  The boot descriptor at word 8 gives the body by its word address; the
      namespace at word 512 gives the same body in slot 2 and its executable in slot 3, by byte
      addresses.  The body of 256 words has three stack words and is in root form. */
  const IMAGE_NS := Cap(0, 2048, 15)
  const THREE_WORDS: Word := 0xF900_0E0C
  const ENTRY_TOKEN: Word := 0x4A00_0003
  /** Sixty-four words, eight of code, and one c-list row or sixty-five of them. */
  function EntryWord(rows: nat): Word {
    if rows == 1 then 0xF800_2001 else 0xF800_2041
  }

  /** Where row 0 is read: the last word of the lump, or 32767 words past its first. */
  function RowZero(rows: nat): nat {
    1024 + if rows == 1 then 63 else 0x7FFF
  }

  function ImageWord(j: int, rows: nat): Word {
    if j == 8 then 64 else if j == 9 then 255 else if j == 10 then SealWord(64, 255)
    else if j == 64 then THREE_WORDS else if j == 81 then RootIndicator(244)
    else if j == 306 || j == 308 then ENTRY_TOKEN else if j == 307 then RootFrame(244)
    else if j == 520 then 256 else if j == 521 then 255 else if j == 522 then SealWord(256, 255)
    else if j == 524 then 4096 else if j == 525 then 63 else if j == 526 then SealWord(4096, 63)
    else if j == 1024 then EntryWord(rows) else if j == RowZero(rows) then ENTRY_TOKEN
    else 0
  }

  function Image(rows: nat): (m: seq<Word>)
    ensures |m| == ADDRESS_SPACE
  {
    seq(ADDRESS_SPACE, j => ImageWord(j, rows))
  }

  const THREAD_CAP := Cap(SLOT2_TOKEN, 256, 255)
  const ENTRY_CAP := Cap(ENTRY_TOKEN, 4096, 63)

  /** Boot CHANGE admits the Thread of this image with its executable; boot validation refuses
      it. */
  lemma ThreeStackWords()
    ensures BootAdmit(Image(1), IMAGE_NS, SLOT2_TOKEN) == Accept(BootPlan(THREAD_CAP, THREE_WORDS, ENTRY_CAP))
    ensures HdrCw(THREE_WORDS) == 3 && Describes(Image(1), 16, 0, 256, 256) && Validate(Image(1), 16, 0).Deny?
  {
    hide Image, BootAdmit, BootBody, AfterBody, Validate, HdrCw, Describes, BodyWords;
    ImageIsAdmitted(1);
    ImageDescribes();
    ImageFields();
    BootChangeMeetsValidation(Image(1), IMAGE_NS, SLOT2_TOKEN, Image(1), 16, 0);
  }

  lemma ImageIsAdmitted(rows: nat)
    requires rows == 1 || rows == 65
    ensures BootAdmit(Image(rows), IMAGE_NS, SLOT2_TOKEN) == Accept(BootPlan(THREAD_CAP, THREE_WORDS, ENTRY_CAP))
  {
    hide Image, BootAdmit, BootBody, AfterBody;
    ImageBody(rows);
    ImageEntry(rows);
    BodyThenEntry(Image(rows), IMAGE_NS, SLOT2_TOKEN);
  }

  /** An executable of 64 words with 65 c-list rows, which boot CHANGE admits: it reads the rows
      32767 words past the header.  CALL refuses that header, and so does CHANGE. */
  lemma OverlongExecutable()
    ensures BootAdmit(Image(65), IMAGE_NS, SLOT2_TOKEN) == Accept(BootPlan(THREAD_CAP, THREE_WORDS, ENTRY_CAP))
    ensures var eh := BodyAt(Image(65), ENTRY_CAP, 0);
      && BodyWords(eh) == 64 && HdrCc(eh) == 65 && EntryCaps(eh) == 0x7FFF
      && !CallHeaderOk(eh, ENTRY_CAP.authority) && !EntryHeaderOk(eh)
  {
    hide Image, BootAdmit, BodyAt;
    ImageIsAdmitted(65);
    ImageHeader(65);
    EntryFields(65);
  }

  lemma ImageFields()
    ensures ThreadHeader(THREE_WORDS) && BodyWords(THREE_WORDS) == 256 && HdrCw(THREE_WORDS) == 3
    ensures Caps(THREE_WORDS) == 244 && StackLo(THREE_WORDS) == 241
    ensures EntryTokenOk(ENTRY_TOKEN) && GtSlot(ENTRY_TOKEN) == 3 && GtSeq(ENTRY_TOKEN) == 0
    ensures GtType(SLOT2_TOKEN) == GT_INFORM && NoPerms(SLOT2_TOKEN) && GtSlot(SLOT2_TOKEN) == 2
    ensures GtSeq(SLOT2_TOKEN) == 0 && AuthLimit(255) == 255 && AuthSeq(255) == 0 && AuthSeq(63) == 0
    ensures !AuthF(255) && !AuthF(63) && AuthLimit(15) == 15 && AuthLimit(63) == 63
  {
  }

  lemma ImageDescribes()
    ensures Describes(Image(1), 16, 0, 256, 256)
  {
    hide Integrity32, RootIndicator, RootFrame, AuthLimit, AuthSeq, AuthF;
    ImageFields();
  }

  lemma ImageTable(m: seq<Word>, gt: Word)
    requires |m| == ADDRESS_SPACE && GtSlot(gt) <= 3
    ensures var j := 512 + 4 * GtSlot(gt); EntryOf(m, IMAGE_NS, gt) == Entry(m[j], m[j + 1], m[j + 2], m[j + 3])
  {
    hide GtSlot;
  }

  lemma ImageResolves(rows: nat)
    ensures var m := Image(rows);
      && BootThread(m, IMAGE_NS, SLOT2_TOKEN) == Accept(THREAD_CAP)
      && BootResolve(m, IMAGE_NS, ENTRY_TOKEN) == Accept(ENTRY_CAP)
  {
    hide Integrity32, RootIndicator, RootFrame, GtSlot, GtSeq, GtType, NoPerms, AuthLimit, AuthSeq, AuthF, EntersOnly,
         EntryOf;
    ImageFields();
    ImageTable(Image(rows), SLOT2_TOKEN);
    ImageTable(Image(rows), ENTRY_TOKEN);
  }

  lemma ImageRoot(t: Cap, rows: nat)
    requires t.location == 256 && AuthLimit(t.authority) == 255
    ensures var m := Image(rows);
      && BootHeader(m, t) == Accept(THREE_WORDS) && ThreadHeader(THREE_WORDS) && Caps(THREE_WORDS) == 244
      && BootRoot(m, t, THREE_WORDS) == Accept(ENTRY_TOKEN)
      && BodyAt(m, t, 244) == ENTRY_TOKEN && forall o :: 245 <= o < 256 ==> BodyAt(m, t, o) == 0
  {
    hide SealWord, RootIndicator, RootFrame, AuthLimit, ThreadHeader, BodyWords, Caps, StackLo, EntryTokenOk;
    ImageFields();
    var m := Image(rows);
    BodyWord(m, t, 0);
    BodyWord(m, t, STO_OFFSET);
    BodyWord(m, t, 242);
    BodyWord(m, t, 243);
    BodyWord(m, t, 244);
    forall o | 245 <= o < 256
      ensures BodyAt(m, t, o) == 0
    {
      BodyWord(m, t, o);
    }
  }

  lemma {:induction false} EmptyRows(m: seq<Word>, ns: Cap, t: Cap, from: int, known: Word, n: nat)
    requires 1 <= n && Rows(m, ns, t, from, known, 1).Accept?
    requires forall o :: from < o < from + n ==> BodyAt(m, t, o) == 0
    ensures Rows(m, ns, t, from, known, n) == Rows(m, ns, t, from, known, 1)
  {
    hide BodyAt, BootResolve;
    if n > 1 {
      EmptyRows(m, ns, t, from, known, n - 1);
      SpareRowDecides(m, ns, t, from, known, n - 1);
    }
  }

  lemma ImageBody(rows: nat)
    ensures BootBody(Image(rows), IMAGE_NS, SLOT2_TOKEN) == Accept(BootPlan(THREAD_CAP, THREE_WORDS, ENTRY_CAP))
  {
    hide Image, BootThread, BootHeader, BootRoot, BootResolve, Rows, BodyAt, AuthLimit, Caps, ThreadHeader;
    var m := Image(rows);
    ImageFields();
    ImageResolves(rows);
    ImageRoot(THREAD_CAP, rows);
    FirstRowDecides(m, IMAGE_NS, THREAD_CAP, 244, ENTRY_TOKEN);
    EmptyRows(m, IMAGE_NS, THREAD_CAP, 244, ENTRY_TOKEN, CAP_WORDS);
  }

  lemma EntryFields(rows: nat)
    requires rows == 1 || rows == 65
    ensures var h := EntryWord(rows);
      && BootEntryFits(h, ENTRY_CAP) && HdrCc(h) == rows && BodyWords(h) == 64 && 1024 + EntryCaps(h) == RowZero(rows)
  {
    assert BodyWords(EntryWord(rows)) == 64 && HdrCc(EntryWord(rows)) == rows && HdrCw(EntryWord(rows)) == 8;
  }

  lemma ImageHeader(rows: nat)
    ensures BodyAt(Image(rows), ENTRY_CAP, 0) == EntryWord(rows)
  {
    hide SealWord, RootIndicator, RootFrame;
    BodyWord(Image(rows), ENTRY_CAP, 0);
  }

  lemma ImageRows(rows: nat)
    requires rows == 1 || rows == 65
    ensures var from := RowZero(rows) - 1024;
      && BodyAt(Image(rows), ENTRY_CAP, from) == ENTRY_TOKEN
      && forall o :: from < o < from + rows ==> BodyAt(Image(rows), ENTRY_CAP, o) == 0
  {
    hide SealWord, RootIndicator, RootFrame, BodyAt;
    var from := RowZero(rows) - 1024;
    BodyWord(Image(rows), ENTRY_CAP, from);
    forall o | from < o < from + rows
      ensures BodyAt(Image(rows), ENTRY_CAP, o) == 0
    {
      BodyWord(Image(rows), ENTRY_CAP, o);
    }
  }

  /** The executable passes: its header is admitted, row 0 of its c-list is its own token, and any
      other rows are empty. */
  lemma ImageEntry(rows: nat)
    requires rows == 1 || rows == 65
    ensures var p := BootPlan(THREAD_CAP, THREE_WORDS, ENTRY_CAP);
      AfterBody(Image(rows), IMAGE_NS, p) == Accept(p)
  {
    hide Image, BootResolve, Rows, BodyAt, BootEntryFits, EntryCaps, HdrCc, EntryWord, RowZero, BodyWords;
    var m := Image(rows);
    EntryFields(rows);
    ImageResolves(rows);
    ImageHeader(rows);
    ImageRows(rows);
    FirstRowDecides(m, IMAGE_NS, ENTRY_CAP, EntryCaps(EntryWord(rows)), ENTRY_TOKEN);
    EmptyRows(m, IMAGE_NS, ENTRY_CAP, EntryCaps(EntryWord(rows)), ENTRY_TOKEN, rows);
  }
}
