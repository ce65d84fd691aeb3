# Church Machine hardware: verified models

The repository describes a capability processor as state machines in Amaranth. This project models
the machines that carry its hardest guarantees and proves those guarantees for every input and every
run. Words are integers below 2 to the power 32, fields are quotients and remainders, and every
truncation the hardware makes is written out.

**Inflate engine** (`Outform`, `Writer`, `Ring`, `Machine`, `Download`, `OutformIot`). One call of `Step`
is one clock. The bit buffer, window, byte packer and checksum refine registers over ideal data
(`Machine`); every clock keeps what the rest of the payload decodes to under an independent reference
decoder (`Deflate`, `Payload`) and moves a lexicographic measure down, so every run ends, with the
reference result or the reference fault. The reference decoder is in turn the inverse of an encoder
for fixed-Huffman token blocks (RFC 1951, sections 3.2.3 to 3.2.6), and the checksum is the
table-driven CRC of section 8 of RFC 1952.

**Threads** (`Thread`, `Change`, `ChangeMachine`, `ChangeClocks`, `ChangeDecision`, `ChangeCommit`,
`ChangeUnit`, `Validation`, `ChangeProofs`, `BootValidation`, `FaultStash`, `BootProofs`,
`BootActivation`, `BootChange`, `TwoThreads`, `BootExamples`, `FaultRecovery`, `Provenance`,
`FrameChain`, `Call`, `CallProofs`, `Lambda`, `UnitProofs`). A Thread is one memory body. The units that
suspend, stash, validate, activate and resume it never call each other; here each is written from its
own source and their agreement is proved: a suspension round trip, a boot of a suspended or stashed
body, one stack discipline behind CALL, LAMBDA, CHANGE and RETURN. `Provenance` tells of every published
register which token, which sealed entry and which words of memory it comes from, and with which rights.
CHANGE, boot activation and boot CHANGE are stepped clock by clock, with the gate and the home load as
stepped machines inside them. Memory (`Memory`) and registers (`Registers`) record every write in the
store operation itself. The clocks up to the last check have neither in their frame; those past it
cannot fail; every run ends, whatever the memory's delays, and its writes are exactly the planned ones,
in order.

**Namespace** (`Integrity`, `NsGate`, `MLoad`, `Gc`, `MSave`, `Mint`, `Revocation`, `Allocator`). The seal, the
gate that checks it, the loads that clear G, the collector that revokes by it, the exports, the minting
of entries that pass it, and how long a revocation lasts.

**Windows and interrupts** (`Windows`, `IrqDispatch`). The code and c-list windows three units derive
independently, and last-wins delivery of interrupt triggers.

## What the proofs found

Each failing case has its exact condition. The inputs named below are whole machine states in which
the units involved really complete, or refuse, as described.

- Boot validation asks for two more stack words than CHANGE, and for at most 4096 words in all: the
  last stack word of a body of 8192 words does not fit the twelve-bit stack offset. For every header and
  offset, `TwoThreads.SuspendThenBoot` has a CHANGE that suspends that Thread, and boot's verdict on the
  body (`BootProofs.SuspendedBoots`, `BootProofs.StashBoots`; inputs `TwoThreads.SuspensionThatBootRefuses`
  and `TwoThreads.LargestBodyNeverBoots`).
- Boot CHANGE admits stacks of three and four words that boot validation refuses
  (`BootChange.BootChangeMeetsValidation`; input `BootExamples.ThreeStackWords`, one memory for both).
- A CHANGE that hands over the namespace takes a suspended Thread for one that has never run when its
  frame reads as the root form: it starts afresh and its stack offset stays two words too low
  (`ChangeProofs.RoundTrip`; input `TwoThreads.HandoffStartsAfresh`, both CHANGEs admitted). This needs a
  Thread past word 32765 of its code. No window over a lump with code words reaches that far
  (`UnitProofs.WindowsEndEarly`), and inside a shorter window the round trip is unconditional
  (`ChangeProofs.FencedRoundTrip`). The input's CR14 is the window that cLoad of byte-addressed lumps
  opens over a header without code words, while the lump its CR6 names has code when CHANGE reads it.
- CALL asks for two stack words, but the RETURN from its frame asks for two more: a CALL with two or
  three words left pushes a frame that RETURN refuses (`FrameChain.PopAfterPush`; input
  `FrameChain.CallWithoutReturn`).
- A root CALL does not look at the stack floor: with one or two stack words its offset leaves the stack,
  and with one its companion token lands in the heap (`UnitProofs.RootCallOpensStack`; input
  `UnitProofs.RootCallLeavesStack`).
- CALL loads CR6 and CR14, clears a G bit and publishes both windows before its CR5, CR12 and stack
  checks. It asserts no register write exactly when it stops before its first load
  (`CallProofs.QuietExactlyBeforeLoads`; input `CallProofs.PublishesThenFaults`).
- Every mint publishes version one, so minting into a swept slot brings old tokens of that version
  back (`Revocation.PassesExactlyIfHeld`; input `Revocation.RemintRevives`); those of any other version
  stay dead (`Revocation.OldVersionsStayDead`).
- Mint copies up to 255 c-list rows into an area of 64 rows a slot: the rows beyond overwrite the next
  slots' (`Mint.RowsKeepToSlot`, `Mint.LaterSlotRows`; input `Mint.OverlongClist`).
- Row 0 of a c-list is immutable to saves through its own capability, but not to saves through a c-list
  that overlaps it (`MSave.ReachesExactlyOverlaps`; input `MSave.OverlappingSaveReachesRowZero`).
- Mint never accepts a lump of 16384 words without a c-list, although its header checks do: the
  fourteen-bit scan index wraps to the header (`Mint.ChurchMint.Scan`, `Mint.LargestLumpRefused`).
- The branch of the decoder for nine bits that are no code is unreachable
  (`DeflateProofs.NineBitsDecode`), and so is a final end-of-block code with a full region: the last
  byte already leads to the drain state.
- With byte addresses CHANGE counts the slots of the namespace in sixteen bits for homes, though not for
  Thread and executable: from a limit of 0x40000 on, homes in sealed slots are refused
  (`Provenance.HomeIsSealed`; input `Provenance.WideNamespace`).
- Boot CHANGE counts the start of the executable's c-list in fifteen bits and never compares rows with
  words: a header with more rows than words passes, and its rows are read 32 thousand words on
  (`BootChange.BootedRowsAreSealed`; input `BootExamples.OverlongExecutable`).
- Boot activation does not restore data register 0 and drops the payload of null tokens
  (`BootActivation.BootRestoresSuspension`).

Where comments and code differ the models follow the code: the collector counts versions in seven
bits while entries hold nine, and boot CHANGE leaves the version of CR5 at zero while CHANGE copies it.

## Model

| member | source | states |
|---|---|---|
| Crc32.StagesAreTable | hardware/outform.py:114-123 | For every byte sequence the eight-stage accumulator equals the table-driven CRC of RFC 1952 |
| DeflateProofs.DecodeSymIff | hardware/outform.py:468-515 | The 7, 8 and 9 bit comparisons find a symbol exactly when the bits start with its code in the fixed table, of that length |
| DeflateProofs.FixedCodeIsCanonical | hardware/outform.py:468-515 | The fixed code is the canonical code of its lengths: consecutive in symbol order within each length |
| DeflateProofs.LengthsInClosedForm | hardware/outform.py:30-47 | Bases and extra bits of all 29 length codes: eight single lengths, four codes to every number of extra bits, and 258 |
| DeflateProofs.DistancesInClosedForm | hardware/outform.py:49-61 | Bases and extra bits of all 30 distance codes: two codes to every number of extra bits |
| DeflateProofs.NineBitsDecode | hardware/outform.py:513-515 | Nine bits always hold a code, so the fallback fault branch is unreachable |
| DeflateProofs.DecodeStable | hardware/outform.py:468-524 | Bits arriving later never change a decoded symbol |
| DeflateProofs.CopiedIsRepeat | hardware/outform.py:661-712 | Byte-by-byte copying is periodic extension, for overlapping copies too |
| DeflateProofs.TokensRoundTrip | hardware/outform.py:468-712 | Decoding the encoding of any in-history token list yields its expansion |
| DeflateProofs.StreamRoundTrip | hardware/outform.py:443-719 | Decoding one or more encoded blocks that fill the region exactly yields their expansion, whatever follows |
| DeflateProofs.EveryMatchHasACode | hardware/outform.py:30-62 | Every length 3 to 258 and distance 1 to 2048 has a token |
| Payload.PackByte | hardware/outform.py:406-424 | The byte buffer and the completed word hold the bytes little-endian |
| Payload.UnpackAt | hardware/outform.py:406-424 | Unpacked memory: each region word is its four bytes, every other word unchanged |
| Writer.WordWriter.Emit | hardware/outform.py:404-424 | One byte: output, memory, write log, byte buffer and checksum advance together; `full` exactly on the last byte |
| Ring.WindowMem.Push | hardware/outform.py:526-539 | The window stays the last 2048 output bytes, byte i in cell i modulo 2048 |
| Ring.WindowMem.Read | hardware/outform.py:661-670 | The masked read address yields the byte `dist` back for every admitted distance |
| Outform.ChurchOutform.Step | hardware/outform.py:401-794 | One clock refines the ideal machine, keeps memory, window and 32-bit buffer invariants |
| Outform.ChurchOutform.Run | hardware/outform.py:401-794 | Every supplied payload ends in the checksum state with the reference output, or in the reference fault |
| Outform.ChurchOutform.StepDecode | hardware/outform.py:468-524 | The reversed code registers decode, fault or wait as the reference code table says |
| Outform.ChurchOutform.StepCopyRd | hardware/outform.py:661-670 | A first read beyond the history faults; any other reads the history byte |
| Outform.ChurchOutform.CheckCrc32 | hardware/outform.py:798-806 | Mint is reached exactly when the stored checksum is that of the output |
| Outform.ByteOnTop | hardware/outform.py:461-466 | Merging a byte above at most 24 held bits never overflows 32 |
| MachineProofs.NextKeeps | hardware/outform.py:401-794 | Every clock keeps the invariant and what remains to be decoded, and lowers the measure |
| MachineProofs.RefillKeeps | hardware/outform.py:458-466 | A state short of bits takes a byte or faults at the payload's end; no bit is lost |
| MachineProofs.DecodeKeeps | hardware/outform.py:468-524 | Decoding a symbol keeps the remaining meaning, or faults where the reference does |
| MachineProofs.CopyEmitKeeps | hardware/outform.py:672-712 | Emitting a copied byte keeps the remaining meaning, up to the full region |
| MachineProofs.RleEmitKeeps | hardware/outform.py:754-787 | Emitting a run byte keeps the remaining meaning |
| Download.InflateStream | hardware/outform.py:401-806 | For every stream of fixed-Huffman blocks that fills the region: exactly its expansion in memory, each word written once in order, its CRC-32 in the accumulator |
| Download.RunsRoundTrip | hardware/outform.py:723-794 | Every list of runs that fills the region decodes to its expansion |
| OutformIot.ChurchOutformIoT.ReceiveByte | hardware/outform_iot.py:249-274 | A byte is emitted and resets the watchdog |
| OutformIot.ChurchOutformIoT.ReceiveNothing | hardware/outform_iot.py:275-279 | An idle clock counts, or starts the scrub when the watchdog expires |
| OutformIot.ChurchOutformIoT.Scrub | hardware/outform_iot.py:281-293 | Each scrub clock zeroes the next word, to the last |
| OutformIot.ChurchOutformIoT.Run | hardware/outform_iot.py:249-303 | Completes exactly when all bytes come before the watchdog; else whole words kept, the rest zero; every word written once |
| OutformIot.ScrubbedWord | hardware/outform_iot.py:281-293 | Every word from the first incomplete one on is zero after a scrub |
| Integrity.LocationInjective | hardware/integrity32.py:33-46 | Different locations never share a seal under one authority |
| Integrity.AuthorityInjective | hardware/integrity32.py:33-46 | Two authorities share a seal at one location exactly when they differ in G and F at most |
| Integrity.SweptUnsealed | hardware/integrity32.py:49-68 | An all-zero location and seal match no version below 128 |
| NsGate.TamperRefused | hardware/ns_gate.py:115-128 | After a change to one sealed word a passing entry passes exactly if only G or F changed |
| NsGate.ChurchNSGate.Step | hardware/ns_gate.py:146-222 | One clock: a first valid in a read state is discarded, a later one latched, the check decides |
| NsGate.ChurchNSGate.Resolve | hardware/ns_gate.py:131-222 | Whatever was left on the bus, the gate latches its own entry's four words and decides on them in nine clocks, or seven |
| MLoad.LoadedIsSealed | hardware/mload.py:237-389 | Without elevation a loaded capability went through walk and gate and lies over the sealed lump |
| MLoad.WalkAdmits | hardware/mload.py:249-332 | The c-list walk yields only rows inside a loadable c-list, never abstract or remote tokens |
| MLoad.TouchKeepsSeal | hardware/mload.py:377-389 | Clearing G changes neither seal nor version verdict |
| MLoad.ChurchMLoad.Load | hardware/mload.py:219-413 | Faults and validations change nothing; a load clears one G bit and writes one register and its Thread copy |
| MLoad.LoadsKeepMirror | hardware/mload.py:392-400 | Any request keeps the Thread's copies of CR0 to CR7 equal to those registers' tokens; those of CR8 to CR11 follow theirs exactly on null-clearing requests, the rest never change |
| Gc.ChurchGCUnit.MarkPass | hardware/gc_unit.py:71-104 | Sets G on exactly the visited range and counts those that were clear |
| Gc.ChurchGCUnit.SweepPass | hardware/gc_unit.py:106-143 | Revokes exactly the range's entries with G set and counts them |
| Gc.ChurchGCUnit.Run | hardware/gc_unit.py:55-147 | One start runs mark, sweep, or both |
| Gc.LoadsTouch | hardware/mload.py:377-389 | Over any run of requests exactly the loaded slots lose G |
| Gc.CollectionIsExact | hardware/gc_unit.py:71-143 | After mark, any loads and sweep: accessed slots survive, all others of the range are revoked, the rest is untouched |
| Gc.GarbageIsUnaccessed | hardware/gc_unit.py:114-117 | The garbage count is the number of slots of the range that nothing loaded |
| Gc.SurvivorsPass | hardware/gc_unit.py:106-143 | Survivors pass the gate exactly as before |
| Gc.SweptIsDead | hardware/gc_unit.py:125-143 | No token of any version passes the gate through a swept slot |
| Gc.SweepCountsVersion | hardware/gc_unit.py:106-143 | A swept entry is zero but for its version, one up in seven bits and never the old one; old tokens are refused for their version, those of the next for the seal |
| MSave.ReachesExactlyOverlaps | hardware/msave.py:91-205 | With a token that may leave, a capability reaches a word by some save exactly when it grants saving and has the word among its rows from row 1 on; never its own row 0 |
| MSave.RowIsAhead | hardware/msave.py:64-65 | A row is a given word exactly at one distance from the start of the c-list, around the address space |
| MSave.OverlappingSaveReachesRowZero | hardware/msave.py:103-113 | A c-list that overlaps another one's row 0 overwrites it |
| MSave.RowZeroIsImmutable | hardware/msave.py:103-113 | Over any run of saves row 0 of a c-list changes only if a capability that grants saving has it among its later rows |
| MSave.SaveThenLoad | hardware/msave.py:139-205 | A saved token is what a load of that row resolves, and it passes the gate |
| Allocator.AlignedIsLeast | hardware/core.py:2398-2402 | The mask expression is the least aligned address at or above the watermark |
| Allocator.GrantKeepsSafe | hardware/core.py:2398-2424 | A grant keeps all blocks disjoint, aligned and inside memory |
| Allocator.WatermarkAllocator.Request | hardware/core.py:2387-2424 | Granted exactly when size and space allow; a refusal changes nothing |
| Mint.HeaderOkIsRoom | hardware/core.py:2496-2509 | The header checks hold exactly with the magic word, at most 16384 words, and room for header, code, c-list and one word between |
| Mint.ChurchMint.Scan | hardware/core.py:2518-2534 | Passes exactly when the free space is zero and the scan index does not wrap |
| Mint.ChurchMint.CopyRows | hardware/core.py:2577-2609 | The lump's c-list words land in the slot's rows |
| Mint.CopiedRowsAt | hardware/core.py:2577-2609 | Each copied row holds its lump word, all other rows stay |
| Mint.RowsKeepToSlot | hardware/core.py:2577-2609 | The copy leaves every other slot's rows alone, whatever they hold, exactly for c-lists of at most 64 rows |
| Mint.LaterSlotRows | hardware/core.py:2577-2609 | Row i of the slot n further on takes lump word 64 n + i of the c-list as far as it reaches |
| Mint.OverlongClist | hardware/core.py:2496-2509 | A header the checks admit whose c-list has 65 rows |
| Mint.ChurchMint.Mint | hardware/core.py:2477-2635 | Done exactly for a good header over zero free space; publishes entry, rows and token, or changes nothing |
| Mint.PublishedPasses | hardware/core.py:2462-2473 | The published token carries E alone, names the published entry and passes the gate through it |
| Mint.LargestLumpRefused | hardware/core.py:2496-2534 | A header the checks admit for which the scan cannot end |
| Revocation.PassesExactlyIfHeld | hardware/core.py:2462-2473 | From any entry, over any run of marks, loads, sweeps and mints, a token passes exactly if the slot still holds a lump of its version: the starting one, or version one since a mint |
| Revocation.OldVersionsStayDead | hardware/gc_unit.py:125-143 | Over any run a refused token of a version other than one is never passed again |
| Revocation.RemintRevives | hardware/gc_unit.py:125-143 | A minted token, refused after mark and sweep, passes again after the next mint |
| Thread.FrameFields | hardware/call.py:231-241 | The packed frame gives back its four fields |
| Thread.Geometry | hardware/ordinary_change.py:157-162 | An admitted header puts heap, stack and homes in order, none empty |
| Thread.EGtEnters | hardware/ordinary_change.py:459-461 | The derived E token keeps identity and B and grants E alone |
| Validation.ValidateOnly.Clock | hardware/mload.py:219-413 | One clock of a validate-only load: it follows the entry in memory and writes nothing |
| ChangeDecision.RestIsAdmit | hardware/ordinary_change.py:165-453 | From the start clock, through all 25 states before the snapshot, the machine decides what the admission over the whole core states |
| ChangeDecision.HomesDecide | hardware/ordinary_change.py:385-420 | The row loop over homes, its gate runs included, decides as the recursive row rule |
| ChangeUnit.OrdinaryChange.AdmitStep | hardware/ordinary_change.py:165-453 | One clock before the last check: memory and registers are outside its frame, the decision to come stays, and a valid answer moves it on |
| ChangeUnit.OrdinaryChange.CommitStep | hardware/ordinary_change.py:454-566 | One clock past it: the writes so far are a prefix of the plan's, and FAULT is out of reach |
| ChangeUnit.OrdinaryChange.Run | hardware/ordinary_change.py:165-566 | Under any finite delays a refused CHANGE ends with no write asserted; an admitted one ends with exactly the 31 saves, the pop and the register writes of its plan, and the switched core |
| Provenance.ChangePassesGate | hardware/ordinary_change.py:240-300 | The token asked for is slot 2's, the c-list word or the register's; that token, the executable's, an indexed c-list's own and every Inform home passed the gate, each over the very lump its sealed entry describes |
| Provenance.ChangeAdmitsWholeLumps | hardware/ordinary_change.py:284-364 | Thread and executable are whole lumps that their descriptors cover exactly; code and c-list are apart, and row 0 of the c-list is the executable's own token |
| Provenance.ResolvedIsSealed | hardware/ordinary_change.py:255-283 | A token resolves to a register exactly if that is the lump its sealed entry describes |
| Provenance.LookupIsFromClist | hardware/ordinary_change.py:187-239 | An indexed operand reads a token exactly from a word inside the c-list register's limit and inside the lump of the c-list's own sealed entry, through a register that may be loaded from |
| Provenance.HomeIsSealed | hardware/ordinary_change.py:129-136 | A home is admitted exactly as nothing behind a null or abstract token, or as the sealed lump of an Inform token whose slot sixteen bits count |
| Provenance.WideNamespace | hardware/mload.py:143 | A namespace of 65537 slots whose first cannot be named by a home |
| Provenance.OutgoingHasRoom | hardware/ordinary_change.py:431-453 | The running Thread is suspended exactly with an orderly body and two words of room |
| Provenance.SwitchedWindows | hardware/ordinary_change.py:526-560 | The registers a CHANGE leaves: code to read and execute right after the header, the last rows of the lump to load from, the heap to read and write, under the lumps' identities |
| ChangeProofs.SaveIsDistinct | hardware/ordinary_change.py:467-496 | The save writes thirty-one different words |
| ChangeProofs.SavedWord | hardware/ordinary_change.py:467-496 | Each saved word holds what was stored there |
| ChangeProofs.SaveTouchesNothingElse | hardware/ordinary_change.py:446-496 | Header, heap, other stack words and all memory outside the body stay |
| ChangeProofs.BuffersStillMatch | hardware/ordinary_change.py:385-430 | With disjoint bodies the buffered incoming words still stand at commit |
| ChangeProofs.SuspensionIsRecorded | hardware/ordinary_change.py:467-496 | A suspended body holds indicator, frame, E token, tokens and data words |
| ChangeProofs.RoundTrip | hardware/ordinary_change.py:321-342 | A later completed CHANGE back restores data registers, flags and tokens; it goes on at the next instruction word with the suspended stack offset exactly unless a handoff reads the frame as the root form |
| ChangeProofs.FencedRoundTrip | hardware/ordinary_change.py:321-342 | Without exception if the suspended instruction lay in a code window that ends before word 32766 |
| UnitProofs.WindowsEndEarly | hardware/cload.py:126-159 | The windows of CHANGE and CALL end there, and cLoad's exactly if the header has code words |
| UnitProofs.SwitchIsFenced | hardware/ordinary_change.py:538-560 | After a completed CHANGE the resumed Thread is inside such a window |
| TwoThreads.HandoffStartsAfresh | hardware/ordinary_change.py:321-342 | A CHANGE away from a Thread and a handoff back, both admitted, after which it starts at its first code word with its stack offset two words too low |
| ChangeProofs.ResumesAfterChange | hardware/ordinary_change.py:556-557 | The resumed address is the suspended one plus four when code and c-list registers named one lump |
| ChangeProofs.SelfChange | hardware/ordinary_change.py:302-315 | CHANGE to the running Thread keeps its context and stack offset |
| ChangeProofs.SelfChangeKeepsBody | hardware/ordinary_change.py:467-510 | It also keeps header, heap, every live frame and all other memory |
| Change.HomesKeepTokens | hardware/ordinary_change.py:385-414 | Each buffered capability carries the token of its home or register |
| BootValidation.BootThreadValidation.Run | hardware/boot_thread_validation.py:54-166 | The nine indexed reads and their checks decide as the admission says |
| FaultStash.StashIsBijection | hardware/fault_stash.py:45-80 | The 31 offsets are a bijection onto data homes, word 17, root pair and capability homes |
| FaultStash.FaultStash.Run | hardware/fault_stash.py:81-114 | Done exactly when every write, read and verify was good; the stores made are always a prefix of the 31, each once |
| BootProofs.ValidatedIsSealed | hardware/boot_thread_validation.py:54-160 | The admitted Thread is the one slot 2 seals under the boot version, past the table and inside the resident words; it resumes by a frame that names its own offset, or is a whole root form |
| BootProofs.RootBodyBoots | hardware/boot_thread_validation.py:138-160 | A root form body is admitted exactly if it has at most 4096 words and five stack words, as a fresh start |
| BootProofs.StashBoots | hardware/fault_stash.py:45-114 | A completed stash boots into the handler exactly under that condition |
| BootProofs.SuspendedBoots | hardware/boot_thread_validation.py:94-160 | A body CHANGE suspended resumes at boot exactly if its offset, size, token type and return address allow |
| TwoThreads.SuspendThenBoot | hardware/boot_thread_validation.py:94-160 | For every Thread header and every offset with CHANGE's room, a CHANGE admitted as a whole suspends such a Thread; boot then resumes it exactly with four words left and at most 4096 in all, and refuses it otherwise |
| TwoThreads.SuspensionThatBootRefuses | hardware/boot_thread_validation.py:94-100 | A Thread suspended with two words left, and boot's refusal |
| TwoThreads.LargestBodyNeverBoots | hardware/boot_thread_validation.py:94-100 | A body of 8192 words suspended with ample room, and boot's refusal |
| BootActivation.BootThreadActivation.AdmitStep | hardware/boot_thread_activation.py:75-152 | One clock of the admission: registers are outside its frame, and each state keeps what it has found out |
| BootActivation.BootThreadActivation.Run | hardware/boot_thread_activation.py:75-194 | Under any finite delays a fault ends with no write asserted; an admitted Thread ends with exactly thirty register writes |
| Provenance.BootHomeIsSealed | hardware/boot_thread_activation.py:98-143 | An Inform home is admitted exactly as the lump its sealed entry describes, resident ones at four times the word address; null and abstract ones hold nothing, remote ones are refused |
| Provenance.BootHomeIsChangeHome | hardware/boot_thread_activation.py:112-143 | Boot activation and CHANGE make one register of one home token whenever both admit it |
| Provenance.ActivatedRegisters | hardware/boot_thread_activation.py:152-180 | The registers after activation: the homes, CR12 over the admitted body, CR5 over its heap to read and write |
| FaultRecovery.HandlerFindsFacts | hardware/fault_stash.py:45-80 | Stash, boot, activate: the handler finds code, address and instruction of the fault in DR1, DR2 and DR4, its own, the Thread's and the namespace's token in CR0 to CR2, and nothing else |
| BootActivation.BootRestoresSuspension | hardware/boot_thread_activation.py:85-188 | Suspend, boot, resume: data registers 1 to 15, flags and all tokens but null payloads come back |
| BootChange.BootChange.AdmitStep | hardware/boot_change.py:88-246 | One clock of the admission, gate included: registers are outside its frame, and each state keeps the decision to come |
| BootChange.BootChange.Run | hardware/boot_change.py:88-269 | Under any finite delays a refused boot ends with no write asserted; an admitted one ends with exactly three, none of CR8: CR12 over the sealed lump of the asked token, CR0 over that of the token at its home 0, CR5 over its heap |
| BootChange.ResolvedIsResident | hardware/boot_change.py:88-128 | A token resolves exactly to the lump its sealed entry describes, by its byte address |
| BootChange.BootedRowsAreSealed | hardware/boot_change.py:207-246 | Every home and every c-list row is empty, opaque or sealed, and row 0 names the executable; the rows are the last of the lump exactly if there are no more of them than words |
| BootExamples.OverlongExecutable | hardware/boot_change.py:72-74 | An executable of 64 words with 65 c-list rows that boot CHANGE admits, with a header CALL and CHANGE refuse |
| BootExamples.ThreeStackWords | hardware/boot_change.py:153-160 | One memory whose Thread with three stack words boot CHANGE admits, executable and all, and boot validation refuses |
| BootChange.BootChangeMeetsValidation | hardware/boot_change.py:153-185 | Every Thread boot CHANGE admits is a root form, and boot validation of the same body admits it exactly from five stack words on, as a fresh start |
| FrameChain.CallKeeps | hardware/call.py:774-810 | A CALL push adds its continuation on top of the chain |
| FrameChain.LambdaKeeps | hardware/lambda_unit.py:128-153 | A LAMBDA push adds a one-word continuation |
| FrameChain.SuspendKeeps | hardware/ordinary_change.py:475-488 | A suspension adds a two-word continuation |
| FrameChain.PopKeeps | hardware/ret.py:272-440 | A pop reads the top continuation, removes it, and is refused on the root |
| FrameChain.AdmitsIsAbstract | hardware/ret.py:272-290 | What the five operations admit is decided by the list of continuations and the stack size alone |
| FrameChain.PopAfterPush | hardware/call.py:191-197 | After a push, LAMBDA frames can be returned from and suspensions resumed; a CALL frame exactly when four words were left; whichever pop is admitted gives back the stack from before |
| FrameChain.CallWithoutReturn | hardware/ret.py:272-290 | A five-word stack on which CALL is admitted and the RETURN from it refused |
| FrameChain.StackIsLifo | hardware/call.py:752-810 | Over any run of pushes and pops the memory stack is the list that a machine on lists alone reaches, offsets rising to the poison root |
| FrameChain.RootHolds | hardware/fault_stash.py:70-80 | A root body is the list of one poison frame |
| FrameChain.PushFootprint | hardware/call.py:774-810 | Pushes touch word 17 and the stack only |
| LambdaUnit.ChurchLambda.Run | hardware/lambda_unit.py:69-163 | Jumps with one frame pushed by two stores, or faults with nothing stored |
| LambdaUnit.LambdaStaysInCode | hardware/lambda_unit.py:85-127 | An admitted LAMBDA executes by right and stays inside the current code window, entry and continuation |
| LambdaUnit.LambdaPushesChain | hardware/lambda_unit.py:128-153 | With room it leaves the list of continuations it found, with its own on top |
| CallUnit.ChurchCall.Resolve | hardware/call.py:565-610 | Both phases resolve one token, the second over the entry the first touched |
| CallUnit.ChurchCall.Publish | hardware/call.py:616-705 | Windows and method entry published together or not at all |
| CallUnit.ChurchCall.Run | hardware/call.py:458-816 | Exact result, registers, table, Thread copies, memory, register writes and stores of every CALL, whichever stage it stops in |
| CallProofs.QuietExactlyBeforeLoads | hardware/call.py:565-610 | No register write exactly when it stops before its first load; then nothing has changed |
| CallProofs.StopsAfterLoads | hardware/call.py:616-671 | Header or method refused, or lazy load: CR6, CR14, one G bit and one Thread copy have changed |
| CallProofs.StopsAfterPublication | hardware/call.py:673-758 | No room: the windows are published and arguments cleaned, stack and program counter as before |
| CallProofs.PublishesThenFaults | hardware/call.py:740-758 | A CALL that faults on a null CR5 with CR14, CR6 and the table changed |
| Windows.CloadIsSealed | hardware/cload.py:195-290 | A cLoad reaches a header only under an E token of the sealed entry's version; code and c-list then fit the lump |
| Windows.WindowsAgree | hardware/cload.py:126-159 | CALL, cLoad and CHANGE derive the same windows from one header |
| Windows.WindowsAreDisjoint | hardware/call.py:632-640 | Code and c-list windows are disjoint and inside the lump |
| UnitProofs.UnitsOpenOneWindow | hardware/ordinary_change.py:343-364 | For one token and memory, whenever the three units admit it, in either namespace form, location, limit and version of both windows agree |
| UnitProofs.CallEntersMethod | hardware/call.py:379-385 | An entered CALL goes on at the lump's base plus four times the word of the method table, past that table entry, and unless the lump wraps inside the window it has put into CR14 |
| UnitProofs.CallEntersSealed | hardware/call.py:565-610 | The lump entered is that of the token in the source register or c-list row, which grants E; on resident words the gate passed it |
| UnitProofs.CallNeeds | hardware/call.py:470-520 | An entered CALL had a numbered method, the right to load or an argument register, a CR5 that reads, a CR12, and a whole lump inside its descriptor |
| UnitProofs.CallLeavesRegisters | hardware/call.py:389-440 | Masked arguments are null, the others lose B alone, CR5, CR12, CR13 and CR15 stay; CR14 executes the code and CR6 covers the last rows of the lump |
| UnitProofs.CloadRights | hardware/cload.py:126-159 | The rights and identity of the two windows cLoad opens |
| UnitProofs.ChangeEntersCode | hardware/ordinary_change.py:538-560 | The resumed address lies in the code window CHANGE opens |
| UnitProofs.SwitchIsResumable | hardware/ordinary_change.py:526-560 | A completed CHANGE leaves CR6 and CR14 naming the admitted entry; suspending again records the word after the resumed one |
| UnitProofs.LambdaReturns | hardware/lambda_unit.py:137-144 | The saved word leads back to the continuation |
| UnitProofs.CallPushesChain | hardware/call.py:774-810 | An entered CALL leaves the list it found with its caller on top: next word, flags and E token |
| UnitProofs.HeapIsOpened | hardware/ordinary_change.py:528-536 | CHANGE, boot activation and boot CHANGE each open exactly the words from 18 to the stack floor as CR5 |
| UnitProofs.RootCallOpensStack | hardware/call.py:740-810 | A root CALL always leaves the chain of the one poison continuation; its offset stays in the stack exactly from three stack words on |
| UnitProofs.RootCallLeavesStack | hardware/call.py:740-810 | Root CALLs that are entered on Threads of one and of two stack words, and leave no list at all |
| UnitProofs.RootIsLastWord | hardware/call.py:182-197 | The root frame is the last stack word exactly for bodies of at most 4096 words |
| UnitProofs.RootCallIsRootForm | hardware/call.py:231-241 | With clear flags its words are the root form boot looks for |
| UnitProofs.ChangeIsChainPop | hardware/ordinary_change.py:321-342 | CHANGE resumes by the chain's pop and never pops the root |
| IrqDispatch.ChurchIRQDispatch.Step | hardware/irq_dispatch.py:102-181 | Every clock keeps deliveries an ordered subsequence of triggers and the pending one the latest |
| IrqDispatch.ChurchIRQDispatch.Drain | hardware/irq_dispatch.py:102-181 | Once pulses stop, with a non-null handler base and any finite delays, the final trigger is the last one delivered, and every delivery enters where word 5 of slot 8's lump says |

## Left out

- FrameChain.PopKeeps: of RETURN only the stack checks and the pop are modelled; its companion token, header and register checks are further refusals that change nothing.
- CallUnit.ChurchCall.Run: takes a valid Thread header as latched; the boot-window CALL before any header is cached, and the abstract-token dispatch into the M window, are not modelled beyond their outcome.
- Gc.CollectionIsExact: the namespace table is an array of entries of its own, so loads and sweeps through overlapping memory are not modelled; the same holds for mLoad, mSave and Mint. CHANGE and the boot units read the table from memory.
- MLoad.ChurchMLoad.Load: the Thread's copies of CR0 to CR11 are an array of their own, and the variant without seal checks is left out.
- ChangeUnit.OrdinaryChange.Run: takes the outgoing body as lying on word boundaries inside memory, which activation established.
- Clock-level timing of mLoad with a c-list walk, mSave, cLoad, CALL, LAMBDA, the collector, Mint and boot validation: memory answers at once, so their stale-valid guards are not visible.
- The download header, the request bytes and the Mint handshake of the inflate engines: the models start with the header fields latched and end before Mint.
- The scheduler path of `hardware/change.py`, the retired fused units and the dead download states of mLoad.
- The guarded build's Namespace header checks and slot-1 admission.
- Decoder, ALU, data reads and writes, bus multiplexing, fault priority and telemetry in `hardware/core.py`: mostly one-branch facts.
- Physical timing, synthesis and any cryptographic claim about the seal.
