# Verified models of the qualification checkers and the helper transport

Four parts of the repository decide whether evidence is believed or a helper is trusted. This project
models each at the level of bytes, tokens and steps, and proves what it promises.

* **FAT16 images.** `Fat16` says what the reader does with an image; `Fat16Reader` is the reader as the object
  it is, updating its fields in place, proved equal to it; `Fat16Proofs` shows what acceptance means: clusters
  partitioned among the entries, every byte at its place, all paths distinct. `EspImage`, `EspPlan`,
  `EspBuilder` and `EspBuild` are the builder of test images, `EspNames` and `EspRoundTrip` read its images
  back, `EspFound` says what can be found on any image, and `EspVerify` is the comparison built on the reader.
* **Serial transcripts.** `Transcript` is the bootstrap parser, `TranscriptVm` and `VmParser` the strict
  verifier of the guest-memory probe. `VmLanguage` and `VmNegative` say which transcripts it accepts without
  line numbers or counters, in both directions; `VmAccepted` says what an accepted run shows.
* **The helper transport.** `Frames` is the streaming decoder. `TransportModel` is one session as a state
  machine whose steps interleave in any order, `TransportProofs` its invariant, `TransportRuns` what holds over
  whole runs, `TransportTeardown` when one request disturbs another, `TransportEffects` what each routine means
  for its caller, and `Transport` the object with its fields and methods, each proved to perform its step with
  that effect.
* **Text grammars.** `Decimal`, `OpaqueId` and `GuestPath` relate hand-written scanners to patterns and
  grammars.

Bytes are integers from 0 to 255. Exceptions are results. A check that appends to a list of errors returns the
list, and its contract says when the list is empty.

Two findings. The claim that a late teardown of an older request never disturbs a newer one fails in three places:
* where `open` handles a failed hello while `close` has already started its shutdown request
  (`helper.ts:494-498`): `TransportTeardown.FailingOpenStopsShutdown` is such a run, and
  `TransportTeardown.FailingOpenDisturbs` says exactly when it happens;
* in the handler of a lost race (`helper.ts:589-606`), once `helper.ts:492` has set a closing session back to
  open: `TransportTeardown.ReopenedTeardownStopsRequest` is such a run;
* when the abort signal of an older request fires (`helper.ts:584-586`): `TransportTeardown.SignalStopsShutdown`.

For the events of a request, `TransportTeardown.RequestEventIsOwn` gives the exact condition and
`TransportTeardown.DisturbsOnlyAfterClose` what every run keeps of the claim. And the builder makes images its
reader does not read back: `EspFound.PrintedImageReadsBack` and `EspBuild.BuildAndRead` say exactly which, over
every map the builder accepts. `EspBuild.NestedIsBuiltAndRefused` (too deep), `EspBuild.SingleIsBuilt` with
`EspBuild.NotCanonical` (a name such as "A B") and `EspBuild.ClashIsBuilt` (a file that is also a folder) are such maps.

Check everything with `dafny verify dfyconfig.toml`.

## Model

| member | source | states |
|---|---|---|
| Fat16Reader.Reader.Init | scripts/qualify-native/fat16.py:63-102 | the whole constructor, field by field: it accepts with exactly the recorded claims, files, entries and paths of `Load`, or raises `Load`'s first failed check |
| Fat16Reader.Reader.Mount | scripts/qualify-native/fat16.py:95-102 | walk from the root, then the leak scan, agrees with `Contents` in every field and in the error |
| Fat16Reader.Reader.FollowChain | scripts/qualify-native/fat16.py:119-137 | the chain loop with its shared `claimed` map: same clusters, same claims, same error as `Chain` |
| Fat16Reader.Reader.ReadClusters | scripts/qualify-native/fat16.py:193-194 | payload and cluster positions are those of the chain |
| Fat16Reader.Reader.WalkDirectory | scripts/qualify-native/fat16.py:152-204 | the recursive directory loop, updating the four fields in place, agrees with `Walk` on every buffer |
| Fat16Reader.Reader.AddEntry | scripts/qualify-native/fat16.py:176-202 | one named entry with everything below it agrees with `Enter` |
| Fat16.Layout | scripts/qualify-native/fat16.py:63-90 | accepted geometry puts both FATs, the root and every data cluster inside the image |
| Fat16.Volume.OffsetInside | scripts/qualify-native/fat16.py:113-117 | a cluster that passes the region check lies inside the image |
| Fat16Proofs.ChainClaims | scripts/qualify-native/fat16.py:119-137 | a followed chain has distinct, unclaimed clusters that link to each other and end in an end mark; it claims these and nothing else; it never raises the second offset check |
| Fat16Proofs.WalkKeepsSound | scripts/qualify-native/fat16.py:152-204 | whatever the image, a walk that returns keeps the partition, the placement and the distinctness of what is recorded, and only adds to it |
| Fat16Proofs.LoadIsSound | scripts/qualify-native/fat16.py:95-102 | everything recorded of an accepted image is sound |
| Fat16Proofs.AcceptedImageIsPartitioned | scripts/qualify-native/fat16.py:95-102 | on acceptance: a data cluster has a nonzero FAT entry iff it is claimed, claims are exactly the recorded cluster lists, no cluster is in two lists, each list follows the links to an end mark |
| Fat16Proofs.AcceptedImagePlacesEveryByte | scripts/qualify-native/fat16.py:180-202 | every recorded `entry_offset` is the place of that same 32-byte entry; content length is the size field; byte i is the image byte at its cluster and remainder |
| Fat16Proofs.AcceptedPathsAreDistinct | scripts/qualify-native/fat16.py:176-178 | all recorded paths are distinct, so no entry of `files` is overwritten |
| Fat16Proofs.DeadChecksNeverFire | scripts/qualify-native/fat16.py:113-117 | on every byte string: never the end-of-image check after the region check, and never the global duplicate-path check |
| EspVerify.CanonicalKeepsEveryCharacter | scripts/qualify-native/fat16.py:52-59 | canonicalising is slashing and upper-casing of a path of more than one character; nothing is merged or dropped |
| EspVerify.Verify | scripts/qualify-native/fat16.py:214-244 | pass iff the image is accepted and every expected path is valid, distinct after canonicalising and holds exactly the external bytes; pass iff no error is reported |
| EspVerify.PassBindsImageBytes | scripts/qualify-native/fat16.py:226-239 | a pass binds each expected path to a file record whose chain stores exactly the expected bytes |
| EspPlan.CollectDirs | tests/native-qualification/esp_image.py:47-51 | the set of proper nonempty prefixes of the paths |
| EspPlan.SortDirs | tests/native-qualification/esp_image.py:52-52 | the same directories, each once, by depth and then by name, so parents come before children |
| EspPlan.Allocate | tests/native-qualification/esp_image.py:78-93 | directories and nonempty files get consecutive runs from cluster 2, in order and without overlap; empty files get 0 |
| EspPlan.Children | tests/native-qualification/esp_image.py:115-124 | exactly the directories, then the files, whose parent it is, in order |
| EspPlan.PlanIsTree | tests/native-qualification/esp_image.py:115-124 | what is written into the directories is a tree over all paths |
| EspNames.NameRoundTrip | tests/native-qualification/esp_image.py:17-28 | for every canonical 8.3 name the reader decodes the packed name to the same name, and it is never a dot name |
| EspNames.EntryRoundTrip | tests/native-qualification/esp_image.py:31-37 | the reader parses a built entry to the same attribute, name, cluster and size |
| EspNames.TextInjective | scripts/qualify-native/fat16.py:176-176 | slash-free names: paths of different names have different texts |
| EspBuilder.MakeEntry | tests/native-qualification/esp_image.py:31-37 | the packed entry, built in a buffer |
| EspBuilder.WriteBootSector | tests/native-qualification/esp_image.py:59-76 | every byte of the boot sector: jump, name, geometry, labels, signature, and zeros between them; nothing after it is touched |
| EspBuilder.SetFat | tests/native-qualification/esp_image.py:101-102 | one link changes, every other byte stays |
| EspBuilder.FillFat | tests/native-qualification/esp_image.py:97-109 | a cluster links to the next of its own run, the last to the end mark, and clusters of no run to 0 |
| EspBuilder.WriteDirectory | tests/native-qualification/esp_image.py:126-141 | dot entries and one entry per child at their offsets inside the directory's own window; it fails exactly when they do not fit or a child's name does not print |
| EspBuild.WriteDirectories | tests/native-qualification/esp_image.py:149-153 | it succeeds iff every directory fits its cluster and its names print; then all directory clusters are written and nothing else is disturbed |
| EspBuild.WriteFiles | tests/native-qualification/esp_image.py:155-160 | all file contents written at their clusters, nothing else disturbed |
| EspBuild.BuildEsp | tests/native-qualification/esp_image.py:45-162 | for every file map of split paths: it succeeds iff clusters, root and every directory have room and the capitals of every name, letters outside ASCII included, print as 8.3; then the image is a print of exactly these files, a file and a folder of one name included |
| EspFound.AcceptedNameIsCanonical | scripts/qualify-native/fat16.py:140-150 | every name the reader accepts, but for the two dot names, is an upper-case 8.3 name in its characters |
| EspFound.WalkFinds | scripts/qualify-native/fat16.py:152-204 | whatever the image: a walk that returns has led to every file through recorded folders of canonical names, at most 8 deep, none of them a file |
| EspFound.FoundIsReadable | scripts/qualify-native/fat16.py:63-204 | whatever the image: files that the accepting reader finds just as they are given have canonical names, none is also a folder, and they are inside the profile |
| EspRoundTrip.CanonicalImageReadsBack | scripts/qualify-native/fat16.py:63-204 | the reader accepts a print of canonical names iff it has at most 4096 paths and no directory deeper than 8; then the paths and files read are exactly those printed |
| EspFound.PrintedImageReadsBack | scripts/qualify-native/fat16.py:63-204 | for every print: the reader accepts it and finds exactly its files, byte for byte, iff their names are canonical, none is also a folder, and they are inside the profile |
| EspRoundTrip.WalkReads | scripts/qualify-native/fat16.py:152-204 | walking a printed directory records exactly what was printed below it, or the print is outside the profile |
| EspRoundTrip.ChainRun | scripts/qualify-native/fat16.py:119-137 | the chain of a printed run is the run, if it is unclaimed |
| EspBuild.BuildAndRead | tests/native-qualification/esp_image.py:45-162 | round trip over every map the builder accepts: the reader accepts the image with exactly these files, byte for byte, iff their names are canonical, no file is also a folder, and they are inside the profile |
| EspBuild.NestedIsBuiltAndRefused | scripts/qualify-native/fat16.py:152-204 | at every depth the profile excludes, up to the number of clusters: one empty file below that many nested folders is canonical, clashes with nothing and has room, but is outside the profile, so its image is built and refused |
| EspBuild.SingleIsBuilt | tests/native-qualification/esp_image.py:17-28 | one empty file of any name that prints has room, and is readable iff its name is canonical |
| EspBuild.NotCanonical | tests/native-qualification/esp_image.py:17-28 | a name with a space, a small letter and a letter of two capitals print and are not canonical |
| EspBuild.ClashIsBuilt | tests/native-qualification/esp_image.py:126-141 | a file and a folder of one name have room and canonical names, and are not readable |
| Transcript.ParseSerial | scripts/qualify-native/transcript.py:25-65 | no error iff the transcript is in the boot language: no failure line, and the marker and exit lines read the 18 markers in order with extra map-frozen lines only right after the first, then one exit 10; the counts it reports are the true ones |
| Transcript.CleanStep | scripts/qualify-native/transcript.py:33-54 | a line the cursor accepts keeps the reading a prefix of the language |
| Transcript.RejectedLine | scripts/qualify-native/transcript.py:33-54 | a line the cursor does not accept puts the transcript outside the language, whatever follows |
| Transcript.OtherMarkersOnce | scripts/qualify-native/transcript.py:45-54 | in an accepted transcript every marker but map-frozen occurs exactly once |
| TranscriptVm.CheckControl | scripts/qualify-native/transcript_vm.py:518-533 | no error iff masks, accounting and root frame are right |
| TranscriptVm.CheckBorrowedPdpt | scripts/qualify-native/transcript_vm.py:120-131 | no error iff present, supervisor, not huge, a frame and not the original root |
| TranscriptVm.CheckConstruct | scripts/qualify-native/transcript_vm.py:570-578 | no error iff the budgets are 26/4/16/6 and the root is a frame; the sum check adds nothing |
| TranscriptVm.CheckWalk | scripts/qualify-native/transcript_vm.py:586-598 | no error iff the counts match and the four leaves are distinct frames |
| TranscriptVm.CheckFault | scripts/qualify-native/transcript_vm.py:603-624 | no error iff code, address, generation and instruction pointer are the stage's |
| TranscriptVm.CheckControlRelations | scripts/qualify-native/transcript_vm.py:518-558 | no error iff template root, baseline, restore and destroy agree with the control line |
| TranscriptVm.CheckTemplateRelations | scripts/qualify-native/transcript_vm.py:559-569 | no error iff the borrowed entry is good and equals the baseline modulo accessed and dirty |
| TranscriptVm.CheckConstructRelations | scripts/qualify-native/transcript_vm.py:570-585 | no error iff the private root is new and is what the switch expects (and, in full mode, reads back) |
| TranscriptVm.CheckWalkRelations | scripts/qualify-native/transcript_vm.py:586-602 | no error iff the leaves are good and none is the private root |
| TranscriptVm.CheckFaults | scripts/qualify-native/transcript_vm.py:603-624 | no error iff every reported fault is good; the generations are collected in stage order |
| TranscriptVm.CheckCycle | scripts/qualify-native/transcript_vm.py:478-624 | no error iff the cycle's fields are good against the baseline; the new baseline is cycle 1's |
| TranscriptVm.GroupByCycle | scripts/qualify-native/transcript_vm.py:450-456 | no error iff no stage of a cycle repeats; the last line of a stage wins |
| TranscriptVm.CheckGenerations | scripts/qualify-native/transcript_vm.py:625-628 | no error iff the generations increase strictly |
| TranscriptVm.CheckCycleSemantics | scripts/qualify-native/transcript_vm.py:449-628 | no error iff no duplicates, pinned fixtures, complete cycles with good related fields, and increasing generations |
| TranscriptVm.SortByNumber | scripts/qualify-native/transcript_vm.py:298-303 | sorted by line number with the same elements |
| TranscriptVm.SortedUnique | scripts/qualify-native/transcript_vm.py:303-303 | two lists sorted by line number with the same elements are equal, so the merge is unique |
| VmParser.Collect | scripts/qualify-native/transcript_vm.py:160-190 | the ten lists hold exactly the lines of their kinds with their numbers; no error iff no line is bad by itself |
| VmParser.CheckPositiveOrder | scripts/qualify-native/transcript_vm.py:270-311 | no error iff the milestones are in order, all evidence is inside the window, and merged it is the 28 wanted lines |
| VmParser.RejectVmAfterTerminal | scripts/qualify-native/transcript_vm.py:256-267 | no error iff no probe line follows complete or the exit |
| VmParser.CheckN6Prefix | scripts/qualify-native/transcript_vm.py:314-341 | no error iff the lines before start read the sixteen boot markers in order |
| VmParser.CheckNegativeSequence | scripts/qualify-native/transcript_vm.py:344-415 | no error iff the evidence is the mode's stages of cycle 1 in order, with the mode's readback, then failure and exit |
| VmParser.CheckSkipSwitchObserved | scripts/qualify-native/transcript_vm.py:418-446 | no error iff the readback is the saved original root and not the private one |
| VmParser.ParseVmSerial | scripts/qualify-native/transcript_vm.py:134-253 | in each mode, no error iff all its checks hold; complete only for an error-free positive run |
| VmLanguage.FullCycleIsGoodRun | scripts/qualify-native/transcript_vm.py:478-624 | the scattered checks of a full cycle hold iff its thirteen field records form a good run that agrees with the baseline |
| VmLanguage.CyclesAreRuns | scripts/qualify-native/transcript_vm.py:449-628 | on two complete cycles the checks hold iff both runs are good, of one machine and increasing in generation |
| VmLanguage.PositiveChecksAreTheLanguage | scripts/qualify-native/transcript_vm.py:198-210 | for every transcript: the positive checks hold iff, up to noise, it reads sixteen boot markers (last not tabbed), start, fixture and thirteen good stages of cycles 1 and 2, complete, timer (not tabbed), bare done, exit 10 |
| VmNegative.NegativeChecksAreTheLanguage | scripts/qualify-native/transcript_vm.py:211-240 | for every transcript and failing mode: the checks hold iff the boot prefix precedes start, the probe and exit lines are start, fixture 1, the mode's stages with good fields, its one failure and exit 17, and no failure, timer or bare done line occurs |
| VmNegative.NoBoot | scripts/qualify-native/transcript_vm.py:212-213 | the separate requirement that the bootstrap parser fail is implied by the rest |
| VmAccepted.MemoryIsReturned | scripts/qualify-native/transcript_vm.py:536-558 | in an accepted positive transcript any two page-count lines agree, and total is free plus used |
| VmAccepted.RootIsRestored | scripts/qualify-native/transcript_vm.py:543-549 | every restore line shows the whole control register of every control line, across cycles |
| VmAccepted.PrivateTablesAreApart | scripts/qualify-native/transcript_vm.py:570-602 | in each cycle the private root and the four leaves are five different frames and the root is not the original one |
| VmAccepted.GenerationsRise | scripts/qualify-native/transcript_vm.py:625-628 | a later fault line has a larger generation, across cycles |
| VmAccepted.LastGeneration | scripts/qualify-native/transcript_vm.py:617-628 | the last fault has generation at least ten |
| Frames.ConcatBytes | packages/zig-sandbox-client/src/transports/helper.ts:140-145 | the two arrays one after the other |
| Frames.EncodeDecode | packages/zig-sandbox-client/src/transports/helper.ts:130-138 | encoding refuses exactly the payloads outside 1..maxFrame, and the decoder gives back what it accepts |
| Frames.FrameDecoder.Push | packages/zig-sandbox-client/src/transports/helper.ts:156-173 | bytes counted, flood before buffering, otherwise the buffer and the frames (or the oversize error) are those of draining old buffer plus chunk |
| Frames.FrameDecoder.ReadAll | packages/zig-sandbox-client/src/transports/helper.ts:627-648 | reading a stream chunk by chunk throws iff the whole string does, and what it delivered is a front of the whole string's frames |
| Frames.DrainTwice | packages/zig-sandbox-client/src/transports/helper.ts:160-171 | draining in two parts is draining at once, unless the first part is already bad |
| Frames.ChunkingIndependence | packages/zig-sandbox-client/src/transports/helper.ts:156-173 | for every cutting: whether some push throws depends on the whole string only; if none does, frames and remainder are those of one push; otherwise the delivered frames are a prefix of the ideal ones |
| Frames.CutsAgree | packages/zig-sandbox-client/src/transports/helper.ts:156-173 | two cuttings of the same bytes agree on the verdict and, if none throws, on everything |
| Frames.FrameRoundTrip | packages/zig-sandbox-client/src/transports/helper.ts:130-173 | any cutting of encoded frames within the caps gives the frames back with nothing pending; it fails iff their total exceeds the session cap |
| Frames.SessionConserves | packages/zig-sandbox-client/src/transports/helper.ts:175-181 | after successful pushes session bytes are the sum of 4 plus frame length plus pending, and pending is below 4 plus the frame cap |
| Transport.OwnedHelperTransport.RequestWithTimeout | packages/zig-sandbox-client/src/transports/helper.ts:553-586 | the new request is live iff nothing is pending, the signal has not fired, a helper is owned, numbers are left and the payload is between 1 and the frame limit; then pending entry, token and writer are its own and its number is new, otherwise they stay; every earlier request stays as it was |
| Transport.OwnedHelperTransport.NextId | packages/zig-sandbox-client/src/transports/helper.ts:619-625 | the next number, unless the sequence is exhausted |
| Transport.OwnedHelperTransport.DispatchFrame | packages/zig-sandbox-client/src/transports/helper.ts:684-710 | a frame with the pending id settles exactly that request, with its value or its error code, and clears the pending entry; any other frame signals one of four errors to the whole session; the window never exceeds 32 ids |
| Transport.OwnedHelperTransport.RejectPending | packages/zig-sandbox-client/src/transports/helper.ts:712-717 | afterwards nothing is pending: the pending request, if still waiting, is refused with this error, keeps every other field, and no other request changes |
| Transport.OwnedHelperTransport.SignalFailure | packages/zig-sandbox-client/src/transports/helper.ts:723-738 | afterwards nothing is pending and every request is exactly its disturbed self: writer aborted, token cancelled and reply refused where it held them, unchanged where it did not; unless closed with nothing owned, the session is disconnected, one cleanup is begun and the first failure is the one kept |
| Transport.OwnedHelperTransport.StartCleanup | packages/zig-sandbox-client/src/transports/helper.ts:740-765 | there is a cleanup afterwards and never a second one; a running one leaves everything alone; the first one refuses what is pending |
| Transport.OwnedHelperTransport.Teardown | packages/zig-sandbox-client/src/transports/helper.ts:589-606 | the request is never left waiting and ends or waits for the cleanup with its error; when not connected every other request and its pending entry, token and writer stay, when connected the others are exactly disturbed |
| Transport.OwnedHelperTransport.EndRequest | packages/zig-sandbox-client/src/transports/helper.ts:607-613 | its own phase is set and its token and writer are gone; other requests, the pending entry and a newer request's token and writer stay |
| Transport.OwnedHelperTransport.AfterHello | packages/zig-sandbox-client/src/transports/helper.ts:483-498 | open iff hello returned and was valid, and then no request changes; otherwise never connected, nothing pending, a cleanup begun, and every other request exactly disturbed with hello's own error or a version mismatch |
| Transport.OwnedHelperTransport.Request | packages/zig-sandbox-client/src/transports/helper.ts:501-515 | accepted iff open and nothing is in flight; otherwise nothing changes |
| Transport.OwnedHelperTransport.BeginClose | packages/zig-sandbox-client/src/transports/helper.ts:528-542 | afterwards never connected and what was pending is refused as closed; a shutdown request is added iff the helper runs and nothing has failed, and it is live iff it can be numbered and framed; otherwise a cleanup is begun |
| Transport.OwnedHelperTransport.FinishClose | packages/zig-sandbox-client/src/transports/helper.ts:543-551 | it throws iff a helper is owned without a confirmed exit, and then keeps handle and pid; otherwise it returns with the pid gone; no request changes |
| Transport.OwnedHelperTransport.AfterReaders | packages/zig-sandbox-client/src/transports/helper.ts:804-820 | the handle is kept iff a helper is owned whose exit is neither confirmed nor known; the cleanup is finished iff it is not, and a handle given up has its exit confirmed |
| Transport.OwnedHelperTransport.Handle | packages/zig-sandbox-client/src/transports/helper.ts:391-854 | every event performs exactly its step of the session and keeps the invariant |
| Transport.WriteAll | packages/zig-sandbox-client/src/transports/helper.ts:296-317 | for every sequence of answers of the sink: all is written iff it takes the whole frame and answers the flush before any abort; it is aborted iff the signal had fired already or an abort comes first; what was taken, in the aborting turn too, is exactly the front of the frame it was ready for; what the loop does to its request are write events of the session, each possible when it happens, with the flush last |
| TransportEffects.WriteIsRun | packages/zig-sandbox-client/src/transports/helper.ts:296-317 | any list of write events and aborts, taken as steps of a session whose writer it is, is possible exactly when the request can take it, and then the session differs in that request only |
| TransportProofs.StepKeepsInv | packages/zig-sandbox-client/src/transports/helper.ts:553-840 | every enabled step of every kind keeps the session invariant |
| TransportProofs.ReplayWindowSuffices | packages/zig-sandbox-client/src/transports/helper.ts:684-701 | the 32-id window decides every frame as the unbounded history would, and the duplicate branch is never reached |
| TransportRuns.RunKeepsInv | packages/zig-sandbox-client/src/transports/helper.ts:391-854 | the invariant holds in every state of every run of one session |
| TransportRuns.OwnershipOverRuns | packages/zig-sandbox-client/src/transports/helper.ts:740-840 | over every run: at most one cleanup is begun, and a started helper is owned until its exit is known |
| TransportRuns.CloseOverRuns | packages/zig-sandbox-client/src/transports/helper.ts:543-551 | close returns normally iff nothing was started or the exit is confirmed; otherwise it throws and keeps handle and pid |
| TransportRuns.EarlyCloseIsSafe | packages/zig-sandbox-client/src/transports/helper.ts:517-518 | the immediate return of close is only possible with nothing started or a confirmed exit |
| TransportRuns.OneOpenReply | packages/zig-sandbox-client/src/transports/helper.ts:560-576 | at most one request has an open reply and it is the pending one |
| TransportRuns.ReturnedMeansAnswered | packages/zig-sandbox-client/src/transports/helper.ts:584-588 | a request returns a value only if its whole frame was written and flushed and a good response with its own id and that value arrived while it was pending |
| TransportRuns.SettlesOnce | packages/zig-sandbox-client/src/transports/helper.ts:264-288 | a settled reply and an ended request are the same in every later state of the run |
| TransportRuns.ReplayOverRuns | packages/zig-sandbox-client/src/transports/helper.ts:684-701 | over every run the pending number is the last one issued, all completions are older, and the window decides like the whole history |
| TransportTeardown.RequestEventIsOwn | packages/zig-sandbox-client/src/transports/helper.ts:582-613 | every event of a request, its teardown included, leaves all other requests and their pending entry, token and writer alone iff it is not its abort signal nor a lost race while open or starting, or no other request is pending, cancellable or writing |
| TransportTeardown.DisturbsOnlyAfterClose | packages/zig-sandbox-client/src/transports/helper.ts:582-613 | over every run: an event of one request disturbs another only after close was called, one of the two is its shutdown, and a teardown does so only with the session open again |
| TransportTeardown.ReopenedTeardownStopsRequest | packages/zig-sandbox-client/src/transports/helper.ts:589-606 | a run of eleven steps in which it happens: open sets the state to open after close, and the teardown of the shutdown aborts and refuses a newer request |
| TransportTeardown.SignalStopsShutdown | packages/zig-sandbox-client/src/transports/helper.ts:582-586 | a run of three steps in which the abort signal of a racing hello refuses the pending shutdown |
| TransportTeardown.FailingOpenDisturbs | packages/zig-sandbox-client/src/transports/helper.ts:494-498 | a failing open leaves the requests as they are iff none is exposed |
| TransportTeardown.OpenDisturbsShutdownOnly | packages/zig-sandbox-client/src/transports/helper.ts:494-498 | and only a shutdown of a close that has been called can be exposed then |
| TransportTeardown.FailingOpenStopsShutdown | packages/zig-sandbox-client/src/transports/helper.ts:494-498 | a run of four steps in which it happens: a failing open refuses the newer shutdown request |
| Decimal.PrintIsCanonical | scripts/sandbox-schema-validate.py:271-285 | the print of a number is canonical and has its value |
| Decimal.CanonicalIsPrint | scripts/sandbox-schema-validate.py:271-285 | a canonical string is the print of its value |
| Decimal.DecimalPattern | schemas/decimal-u64.json:8-8 | the pattern is exactly the canonical decimals of 0 to 2^64-1; its length bounds add nothing; the generation pattern is the same without zero |
| Decimal.GenerationPattern | schemas/generation.json:8-8 | the pattern is exactly the canonical decimals of 1 to 2^64-1 |
| Decimal.ParseDecimalU64 | scripts/sandbox-schema-validate.py:271-285 | accepts exactly the language and returns the value whose print the string is; overflow is reported iff the string is canonical, has twenty digits and is too large |
| Decimal.IsCanonicalDecimalU64 | packages/zig-sandbox-client/src/types.ts:149-162 | accepts exactly the language |
| Decimal.SemanticGeneration | scripts/sandbox-schema-validate.py:410-412 | accepts exactly the generation pattern |
| Decimal.ThreeFormsAgree | scripts/sandbox-schema-validate.py:271-285 | the language is the set of prints of the 64-bit numbers, and printing is injective |
| OpaqueId.IsOpaqueId | packages/zig-sandbox-client/src/types.ts:130-147 | accepts exactly 1 to 128 allowed units of which one is not a digit |
| OpaqueId.ThreeScansAgree | scripts/sandbox-schema-validate.py:288-306 | the schema pattern, the scan of UTF-8 bytes and the scan of UTF-16 units accept the same strings |
| GuestPath.IsGuestPath | scripts/sandbox-schema-validate.py:321-348 | accepts exactly 1 to 4096 bytes that read a slash, then proper names with single slashes between and perhaps one trailing slash |
| GuestPath.AcceptedStaysBelowRoot | scripts/sandbox-schema-validate.py:321-348 | an accepted path resolves, from any directory, to that directory followed by exactly its names: it never steps up |

## Left out

- EspBuild.BuildEsp: a key is a volume path with one slash in front and none at its end, as the builder's own documentation has it, given as the list of its parts; keys written otherwise, which it splits alike but then lists in no directory or refuses for an empty name, are not modelled.
- EspPlan.SortDirs: an insertion sort stands for the library's `sorted`; only its result matters.
- EspVerify.Verify: takes the bytes of the image and of the external files; file reading, `resolve`, the read limit of an external file and the SHA-256 fields of the report are left out, and bytes are compared instead of digests. Upper-casing is of ASCII letters, since other characters are refused first.
- Transcript.ParseSerial: a line is a token that has already been classified (its marker and what follows it, exit text, failure, probe line with parsed fields, noise); splitting text into lines and matching the regular expressions are left out. Messages are constructors of an error type, so the texts of errors are not modelled.
- VmParser.ParseVmSerial: as for `Transcript.ParseSerial`; digit strings that must agree are compared as text, sixteen hexadecimal digits are 64-bit vectors; an unknown mode is excluded by the type.
- TranscriptVm.SortByNumber: an insertion sort stands for the library's `sort`.
- OpaqueId.IsOpaqueId: strings with unpaired surrogates do not exist in the model.
- Decimal.IsCanonicalDecimalU64: scans characters, not UTF-16 units; a character that takes two units is not a digit, so the verdicts are the same.
- Frames.FrameDecoder.Push: byte arrays are sequences, so views into shared buffers are not modelled.
- Transport.OwnedHelperTransport.Handle: promises are fields of a request record; a step may happen whenever its promises allow it, which admits every order the event loop can produce and more. The `kill` flag, `lastPid`, the two reader fields and the texts of errors are not kept, since no branch that is modelled depends on them; killing shows up as the process exiting.
- Transport.WriteAll: the sink's answers are a given list, and the outcome is still-writing when they run out; a sink that takes no byte is one whose answers are zeros.
- TransportRuns.RunKeepsInv: one session only. Opening a transport again after close, where old watchers share fields with the new session, is left out.
- A frame reaches the transport as a parsed response (id, ok, value) or as garbage; JSON and its shape checks, and the checks of the hello body beyond valid or not, are left out.
- The decoder and the transport are joined only through the events of the reader: frame read, stream ended, read error.
- Time: every timer is an event that may fire at any step while it is armed.
- Docker, QEMU, subprocesses, evidence directories, argument parsing, JSON reports, JSON Schema and OpenAPI resolution, base64, `remote.ts`, `local.ts` and `errors.ts`: plumbing around the checkers, or easy wrappers.
