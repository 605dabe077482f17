# Verified model of the OAMB evidence pipeline

OAMB runs memory-system benchmarks and keeps evidence that can be audited later. This project models
the parts of it that other parts rely on, and proves what they promise:

* **Publication.** A small file system with volatile and durable directory entries, inodes, `fsync`,
  `link`, `rename`, `unlink` and power loss (`FileSystem.dfy`), and the writers as a step machine over
  it (`Protocol*.dfy`): any number of processes, any interleaving of single system calls, any short
  write, a kill or a crash between any two steps. `ProtocolTheorems.dfy` has the promises over whole
  runs. On top of it stand marker-last publication (`Publication.dfy`), content-addressed receipts with
  a current pointer (`Receipts.dfy`), and the same programs in their sequential form
  (`Disk.dfy`, `Capsule.dfy`, `Directories.dfy`), which are proved to take exactly the machine's steps.
  `Checksums.dfy` and `Verifier.dfy` hold the checksum index and the directory verifier,
  `CheckpointNames.dfy`, `CheckpointRecords.dfy` and `Checkpoints.dfy` the append-only checkpoint
  chain, `CheckpointRuns.dfy`, `CheckpointTheorems.dfy` and `CheckpointLoss.dfy` what concurrent
  appenders and crashes do to it on the step machine.
* **The cell supervisor.** `Supervisor.dfy` is the bounded-concurrency scheduler against any
  environment: messages, exit codes, failed starts, interrupted waits and joins, failing closes and the
  moment a signal sets the stop flag are given in advance, the ready sets are open.
* **Canonical text and the frozen plan.** `CanonicalDecimal.dfy`, `Json.dfy`, `JsonText.dfy`,
  `JsonParser.dfy` (the grammar of sections 2 to 7 of RFC 8259) and `Normalise.dfy` are the canonical
  serialisation; `Records.dfy`, `Plan.dfy`, `PlanFormats.dfy`, `PlanLoader.dfy`, `PlanRecords.dfy`,
  `PlanDocuments.dfy`, `PlanTheorems.dfy`, `PlanBuilder.dfy` and `PlanFields.dfy` the plan's builder,
  printer and loader with their nested hashes.
* **Independent derivations that must agree.** Keyset pagination against the whole table
  (`Base64.dfy`, `Uuids.dfy`, `Inspector.dfy`, `ProjectionClient.dfy`), the run budget against the
  plan's closed forms (`Budget.dfy`, `BudgetValidator.dfy`), the execution state machines
  (`Words.dfy`, `States.dfy`, `StateWords.dfy`), resource sums and reservations (`Resources.dfy`, `Reservations.dfy`),
  the case manifest (`CaseManifest.dfy`), and the paired study with its worker pool (`Study.dfy`,
  `JudgePool.dfy`).

The digest is a function parameter. Where a result needs SHA-256 to be injective it says which two
contents must not collide; nothing assumes more. A crash keeps, for every entry changed since its
directory was last fsynced, any one of the values it has had since then.

Files that the source changes step by step are classes and methods with loops; code made of expressions
is functions. What the environment does is a parameter: of the step relation, or given to a class when it
is made (how much each call of `os.write` accepts, how each worker ends, how the judge replies). Methods
are proved against it in both directions, so that a failure has its cause; only schedules are open.

## Findings

Eight statements came out differently from what the code's own words or a first reading suggest.

* `append_checkpoint` reads the predecessor without fsyncing its directory entry
  (`src/oamb/artifacts/store.py:236-251`). Two appenders that follow every check and a crash can leave
  record 2 of an epoch without record 1 (`CheckpointLoss.CrashTearsChain`), and record 1 can then never
  be appended again (`CheckpointTheorems.GapsAreForever`). What remains is still linked
  (`CheckpointTheorems.AlwaysSound`). A crash leaves no gap exactly when every record that may survive
  stands on an fsynced one (`CheckpointTheorems.CrashKeepsWholeIff`); appenders that wait for that, or
  that replay the predecessor first, are safe (`CheckpointTheorems.FsyncedFirstKeepsWhole`,
  `CheckpointTheorems.ReplayFirstKeepsChain`).
* The plan's canonical text is documented as its sole accepted byte representation
  (`src/oamb/config/doctor.py:387`). It is not: the loader compares numbers with `==`, and in Python
  `True == 1`, so a plan document with `true` in place of `max_parallel_datasets: 1` is canonical JSON
  and loads to the same plan (`PlanTheorems.SecondAcceptedText`). An accepted text is the printed one
  exactly when it contains no boolean (`PlanTheorems.SoleTextIffNoBoolean`). The plan itself is still
  pinned by its hash.
* A payload path may contain a character at which `str.splitlines` breaks a line. Such a publication
  completes and never verifies; every other one does (`Verifier.PublishedAcceptedIff`,
  `Capsules.PublicationVerifies`); `Verifier.LineBreakIsRejected` has one such payload.
* `_ensure_durable_directory` fsyncs the parents of what it creates, not the nearest ancestor that was
  already there. The directory survives a crash exactly when that ancestor did
  (`Directories.SurvivesIffAncestorDid`, `Directories.UnsyncedParentIsNotRepaired`).
* The live budget knows the 30-question selection, the plan's limits do not
  (`src/oamb/live.py:1771-1778`, `src/oamb/config/doctor.py:666-673`,
  `Budgets.OnlyTheBudgetKnowsThirty`).
* The plan loader lets a cell name any role as its producer (`src/oamb/config/doctor.py:962-976`). If
  that is the embedding, answer or judge role, keys of the budget's dictionaries collide, the owner
  total falls short of the plan's, and no budget can be built unless there is nothing to ingest
  (`Budgets.LimitsAreTheSums`, `Budgets.BuildBudget`).
* The inspector gives its cursor bytes to `json.loads`, which detects UTF-16 and UTF-32
  (`provider-services/mem0/inspector.py:64-72`): an identifier has several accepted cursors
  (`Inspector.WideCursorDecodes`).
* States of different enumerations with the same text are equal dictionary keys in Python, because they
  are `StrEnum` members. `States.dfy` therefore has one constructor per text.

## Model

| member | source | states |
|---|---|---|
| ProtocolTheorems.VisibleIsComplete | src/oamb/artifacts/atomic.py:117-167 | at every moment of every run of interleaved writers and crashes, what is visible under a target or pointer is the complete content of one request |
| ProtocolTheorems.TargetNeverChanges | src/oamb/artifacts/atomic.py:152-169 | a visible create-only target keeps its inode and bytes at every step; only a crash before its directory was fsynced can remove it |
| ProtocolTheorems.DurableForever | src/oamb/artifacts/atomic.py:169-173 | a durable target stays durable with the same bytes for the rest of the run |
| ProtocolTheorems.ReturnedIsDurable | src/oamb/artifacts/atomic.py:111-180 | every create request that has returned has made exactly its bytes durable, then and later |
| ProtocolTheorems.OneCreator | src/oamb/artifacts/atomic.py:152-180 | of all returned requests for one target at most one reports `created` |
| ProtocolTheorems.RejectsExactlyDifferentBytes | src/oamb/artifacts/atomic.py:155-166 | a writer that finds the target occupied raises if and only if the bytes differ, and does not touch the file system in deciding |
| ProtocolTheorems.CollidedLeavesNothing | src/oamb/artifacts/atomic.py:163-166 | after a collision error no name leads to the rejected writer's inode, now or after a crash |
| ProtocolTheorems.UndisputedNeverCollide | src/oamb/artifacts/atomic.py:155-166 | a writer never raises the collision error when whoever else writes its targets writes the same bytes there, whatever other writers do and whatever crashed before |
| ProtocolTheorems.EveryStepCounts | src/oamb/artifacts/atomic.py:111-190 | each own step of a writer brings it strictly closer to its end, under arbitrary short writes |
| ProtocolTheorems.UnfinishedCanStep | src/oamb/artifacts/atomic.py:111-190 | at every moment of every run a writer can take a step if and only if it has not returned, raised or been killed |
| ProtocolTheorems.RunsToEnd | src/oamb/artifacts/atomic.py:111-190 | every run can be continued by one writer alone until it has returned or raised |
| Disks.Disk.WriteAll | src/oamb/artifacts/atomic.py:183-190 | the content is appended under arbitrary short writes; whether the write succeeds and how many calls of `os.write` it makes are fixed by what those calls accept |
| Disks.WriteFailsOnlyOnStall | src/oamb/artifacts/atomic.py:183-190 | a write fails if and only if some call accepts nothing before the calls ahead of it have accepted everything: short writes never fail |
| Disks.Disk.Stage | src/oamb/artifacts/atomic.py:139-150 | the temporary beside the target holds the whole content, fsynced, and no other name changed; it fails exactly when the write does |
| Disks.Disk.AtomicWriteBytes | src/oamb/artifacts/atomic.py:111-180 | success makes exactly the content durable and says whether it was created; no progress is reported exactly when the write stalls, and a collision only against different bytes; the call is a run of the machine's job |
| Disks.Disk.Publish | src/oamb/artifacts/atomic.py:152-174 | a vacant target is linked, an equal one kept, a different one rejected with the temporary removed |
| Disks.Disk.Withdraw | src/oamb/artifacts/atomic.py:163-166 | the collision path removes the temporary and fsyncs the directory |
| Disks.Disk.Settle | src/oamb/artifacts/atomic.py:169-174 | fsync, unlink and fsync again, as the machine's last three steps |
| Disks.Disk.AtomicReplaceBytes | src/oamb/artifacts/atomic.py:55-108 | success makes the new content durable under the pointer; it fails exactly when the write stalls, and leaves the old content; `created` tells whether there was none |
| Directories.DirectoryTree.FindMissing | src/oamb/artifacts/atomic.py:202-220 | the walk upwards collects exactly the components below the nearest thing that exists |
| Directories.DirectoryTree.MakeDirectory | src/oamb/artifacts/atomic.py:223-231 | a directory made here or meanwhile by someone else is durable afterwards; anything else in its place is an error |
| Directories.DirectoryTree.EnsureDurableDirectory | src/oamb/artifacts/atomic.py:193-232 | every component that was missing exists and is durable; shallower ones are as durable as before; it fails exactly when something other than a directory stands on the way, and changes nothing if that was so before |
| Directories.SurvivesIffAncestorDid | src/oamb/artifacts/atomic.py:193-232 | the directory survives a crash if and only if its nearest existing ancestor did |
| Directories.UnsyncedParentIsNotRepaired | src/oamb/artifacts/atomic.py:203-220 | a directory that existed without being durable is not made durable |
| Publication.MarkerMeansComplete | src/oamb/artifacts/capsule.py:85-110 | at every moment of every run a visible marker means that every payload and the index are durable with their bytes |
| Publication.DurableMarkerSeals | src/oamb/artifacts/capsule.py:105-110 | once the marker is durable the whole publication is, for the rest of the run |
| Publication.Republication | src/oamb/artifacts/capsule.py:85-115 | publishing again, after any crash and beside any writers that leave its files alone or write the same bytes there, never collides, and when it returns the same payloads, index and marker are durable |
| Capsules.Normalize | src/oamb/artifacts/capsule.py:67-77 | the checks pass exactly for nameable payloads and marker, the result is the payloads sorted by path, and a bad envelope is reported exactly for a marker or payload with a name already taken |
| Capsules.WritePayloads | src/oamb/artifacts/capsule.py:85-86 | after the loop every payload is durably in place and every other name is as before; it fails exactly as its attempts do, with the marker's name untouched |
| Capsules.PublishWithLastMarker | src/oamb/artifacts/capsule.py:58-115 | success leaves payloads, index and marker durable and nothing else changed; past the checks it ends exactly as the attempts in order end, first failure first; on any error the marker's name is as before |
| Capsules.AttemptSucceedsIff | src/oamb/artifacts/capsule.py:85-110 | the attempts succeed if and only if no file's name holds other bytes and no write on the way stalls |
| Capsules.PublicationVerifies | src/oamb/artifacts/capsule.py:58-149 | an uninterrupted publication into an empty directory leaves exactly its files, and verify accepts it if and only if no name contains a line break |
| Checksums.ParseOfIndex | src/oamb/artifacts/capsule.py:89-97 | the line parser undoes the index printer if and only if no path contains a line break |
| Checksums.IndexLists | src/oamb/artifacts/capsule.py:89-97 | the index lists every file but itself once, with its digest, in ascending order of paths |
| Checksums.FilesDistinct | src/oamb/artifacts/capsule.py:67-77 | the files of a publication have different names |
| Checksums.SplitGivesLines | src/oamb/artifacts/capsule.py:129 | splitting leaves no break inside a line |
| Verifier.ReadIndex | src/oamb/artifacts/capsule.py:128-139 | the loop succeeds exactly when every line parses, paths are distinct and every file matches its hash, and returns the set of paths |
| Verifier.CommittedFiles | src/oamb/artifacts/capsule.py:142-147 | the walk collects every file but the index |
| Verifier.VerifyPublishedDirectory | src/oamb/artifacts/capsule.py:118-149 | accepts exactly the directories that their index describes: file set equal to the index, marker included, every hash matching; which error the first two checks give |
| Verifier.PublishedAcceptedIff | src/oamb/artifacts/capsule.py:89-149 | a directory as a publication leaves it is accepted if and only if its names are free of line breaks |
| Verifier.LineBreakIsRejected | src/oamb/artifacts/capsule.py:89-149 | a concrete publication of one payload, at a path the publisher accepts, that the verifier rejects |
| Verifier.IndexPinsDirectory | src/oamb/artifacts/capsule.py:128-149 | two accepted directories with the same index text are the same directory, given no collision among their files |
| Receipts.PointerNamesDurableReceipt | provider-services/lib/service_receipt.py:144-227 | at every moment of every run in which this directory's pointer is moved by seals only, crashes and any other writers included, a visible pointer names a durable receipt whose bytes hash to that name |
| Receipts.SealsNeverCollide | provider-services/lib/service_receipt.py:193-227 | no seal into such a directory reports a collision, and a seal past its first write leaves its receipt durable |
| Receipts.ResolveSucceeds | src/oamb/live.py:447-489 | a reader resolves the receipt named by a visible pointer, even when seals, crashes and other writes happen between its two reads, and reports a missing pointer when none was visible |
| Receipts.ResolveCurrent | src/oamb/live.py:459-489 | without one the result is the receipt of the hash in the pointer at the first read, if it verifies at the second; a missing pointer and a malformed one are told apart |
| Receipts.ResolveBound | src/oamb/live.py:474-489 | with an expected hash the result is the receipt under that hash if and only if the hash is well formed and the file's bytes hash to it, whatever hash the pointer file holds; and which error otherwise |
| Receipts.BoundReceiptStays | src/oamb/live.py:474-489 | a cell bound to a durable receipt resolves that receipt for the rest of the run, wherever the pointer has moved |
| Checkpoints.CheckpointStore.VerifySourceEntries | src/oamb/artifacts/store.py:274-285 | accepts exactly when every entry is a safe path below `source/` whose bytes have the recorded hash |
| Checkpoints.CheckpointStore.CheckpointSequences | src/oamb/artifacts/store.py:313-328 | lists exactly the numbers that the names `<epoch>-<digits>.json` in the directory show for the epoch, other files included |
| CheckpointNames.SequenceOfFileName | src/oamb/artifacts/store.py:313-328 | the listing finds the file of a record under its own epoch with its own number, and under no other epoch |
| Checkpoints.CheckpointStore.CheckSequence | src/oamb/artifacts/store.py:229-235 | passes exactly when the file exists or the number is one more than the greatest listed |
| Checkpoints.CheckpointStore.CheckPredecessor | src/oamb/artifacts/store.py:236-246 | passes exactly when the stored predecessor is the one named; otherwise missing or different |
| Checkpoints.CheckpointStore.Check | src/oamb/artifacts/store.py:222-246 | the checks in order: passes exactly when the content hash, the source entries, the position and the predecessor are right, and which error the first and third give |
| Checkpoints.CheckpointStore.AppendCheckpoint | src/oamb/artifacts/store.py:221-251 | on any store, torn by a crash or not, and with other appenders running in between: stored records never change, every record stays genuine, in place and linked to the one below it, a store without gaps stays without gaps; it succeeds exactly when the checks pass on the store it first saw and its place is free or holds the same record at the final write; undisturbed, exactly for a replay or for the next number in the listing |
| Checkpoints.CheckpointStore.PowerLoss | src/oamb/artifacts/store.py:221-251 | losing any records keeps every remaining one genuine, in place and linked to the one below it if that is still there |
| Checkpoints.EpochIsContiguous | src/oamb/artifacts/store.py:229-246 | in a linked store without gaps each epoch's checkpoints are exactly `1..n`; which stores are such is said by the `CheckpointTheorems` rows |
| Checkpoints.AcceptsReplayOrNext | src/oamb/artifacts/store.py:231-246 | with `1..n` stored and nothing else listed, what is accepted is one of them exactly or number `n + 1` naming the hash of `n` |
| Checkpoints.HeadPinsChain | src/oamb/artifacts/store.py:222-246 | equal hashes in two stores, torn by crashes or not, mean the same position and the same records down to the first gap in either |
| Checkpoints.HeadPinsWholeChain | src/oamb/artifacts/store.py:222-246 | equal head hashes in two stores without gaps mean the same records all the way down |
| CheckpointRuns.ShelfIsProper | src/oamb/artifacts/store.py:230-328 | the file names and bytes of the real directory are as the following rows assume: different positions are different files, different records different bytes, and the listing reads each number back |
| CheckpointTheorems.DirectoryShows | src/oamb/artifacts/store.py:221-251 | at every moment of every run what stands at the checkpoint names is a store: one genuine record per taken position |
| CheckpointTheorems.AlwaysSound | src/oamb/artifacts/store.py:221-251 | on the step machine, in every state of every run of concurrent appenders, other writers, kills and crashes: every record in the directory is genuine, in its own place, and linked to the record below it if there is one |
| CheckpointTheorems.CalmKeepsWhole | src/oamb/artifacts/store.py:229-246 | until the next crash a directory without gaps stays without gaps, however appenders interleave and however slowly a listing is read |
| CheckpointLoss.CrashTearsChain | src/oamb/artifacts/store.py:236-251 | a run in which two appenders follow every check and a crash leaves record 2 without record 1, for every two successive records that do not collide |
| CheckpointTheorems.CrashKeepsWholeIff | src/oamb/artifacts/store.py:236-251 | every crash of a reachable state leaves no gap if and only if below every record that may survive the record is there and its directory entry was fsynced |
| CheckpointTheorems.FsyncedFirstKeepsWhole | src/oamb/artifacts/store.py:236-251 | if every append begins on a predecessor whose entry was fsynced, that condition holds at every moment of every run, so no crash makes a gap |
| CheckpointTheorems.ReplayFirstKeepsChain | src/oamb/artifacts/store.py:221-251 | if every appender appends or replays the predecessor earlier in its own life, the directory is linked and without gaps at every moment of every run and after every crash |
| CheckpointTheorems.GapsAreForever | src/oamb/artifacts/store.py:229-234 | once a durable record stands above a gap no run of appenders ever fills it: the lost record cannot be appended again |
| CheckpointRecords.TextBindsCheckpoint | src/oamb/artifacts/store.py:247-251 | the bytes of a checkpoint file determine every field of the record |
| CheckpointRecords.HashBindsCheckpoint | src/oamb/contracts/evidence.py:1457-1478 | the content hash binds every other field of a checkpoint |
| CheckpointRecords.FileFields | src/oamb/contracts/evidence.py:1457-1466 | what stands in a checkpoint file, key by key |
| CheckpointRecords.EntryFields | src/oamb/contracts/evidence.py:1286-1292 | a source entry, key by key |
| CheckpointRecords.HashCovers | src/oamb/artifacts/store.py:221-226 | the hash covers exactly the fields of the file other than itself |
| Supervisors.Supervisor.AdmitNext | src/oamb/live.py:956-996 | one admission: the cell runs, or never ran, and one error is recorded exactly when the start raised |
| Supervisors.Supervisor.AdmitCells | src/oamb/live.py:948-996 | admits nothing when an error is recorded or the flag is set; stops only at the cap, the end, an error or the flag; records an error only for a start that raised |
| Supervisors.Supervisor.FailCell | src/oamb/live.py:1018-1028 | one error, the flag, and a failed outcome with the root that exists at that moment; no other cell changes |
| Supervisors.Supervisor.Join | src/oamb/live.py:1032-1048 | the worker is joined once, and every interruption is one error |
| Supervisors.Supervisor.Close | src/oamb/live.py:1058-1072 | the worker is closed once; an error is recorded exactly when closing raised, and only the detail of the outcome changes |
| Supervisors.Supervisor.Judge | src/oamb/live.py:1073-1121 | the cell is completed, without an error, exactly when its worker exited with 0 after reporting its own id and root; otherwise it is failed with one error |
| Supervisors.Supervisor.Collect | src/oamb/live.py:1012-1048 | leaves the list, reads the pipe and joins; a missing message becomes a failure, and errors are those of the pipe and the joins |
| Supervisors.Supervisor.Settle | src/oamb/live.py:1009-1121 | a ready worker leaves the list, is joined once and closed once, its cell reaches its final outcome, and as many errors are recorded as things went wrong with it |
| Supervisors.Supervisor.Wait | src/oamb/live.py:1001-1006 | a nonempty set of workers; all of them, and one error, exactly when waiting itself raised |
| Supervisors.Supervisor.SettleReady | src/oamb/live.py:1009-1121 | every ready worker is settled and no other, before anything is admitted, and errors are recorded for these cells only |
| Supervisors.Supervisor.Run | src/oamb/live.py:934-1133 | terminates; returns normally exactly when every cell was admitted and nothing went wrong with any cell or wait, and then in input order; otherwise raises with one outcome per cell and one error for each thing that went wrong, or the single error of having been stopped, which happens only if the flag was set; every outcome, with its root and detail, is the one its cell earned; nothing is admitted after an error |
| Supervisors.NothingWrongIffClean | src/oamb/live.py:948-1133 | no error is due exactly when every admitted worker started, reported its own identity, exited with 0, and was joined and closed without interruption |
| CanonicalDecimals.SameTextIffEqual | src/oamb/contracts/base.py:37-45 | two non-negative decimals print the same text if and only if they are numerically equal |
| CanonicalDecimals.CanonicalTextSpells | src/oamb/contracts/base.py:37-45 | every non-negative finite decimal, negative zero included, prints as a canonical spelling of its value |
| CanonicalDecimals.CanonicalTextIff | src/oamb/contracts/base.py:37-45 | a text is the canonical text exactly when it is a canonical spelling of the amount; it fails exactly for amounts that are not finite or below zero |
| CanonicalDecimals.ParseOfCanonicalText | src/oamb/contracts/base.py:37-61 | parsing the canonical text returns the value |
| CanonicalDecimals.AcceptedIffPattern | src/oamb/contracts/base.py:21-61 | the validator accepts exactly the strings of the published pattern |
| CanonicalDecimals.OneStringPerValue | src/oamb/contracts/base.py:48-61 | for every value exactly one string is accepted: its canonical text |
| JsonParser.ParseOfPrint | src/oamb/contracts/ids.py:44-54 | reading canonical text gives back the value in canonical form |
| JsonParser.PrintIffSame | src/oamb/contracts/ids.py:44-54 | two trees print the same text if and only if they are the same up to the order of map entries |
| JsonParser.CanonicalIdempotent | src/oamb/contracts/ids.py:44-54 | canonical form is stable and denotes the same value |
| JsonParser.ParseIsWellFormed | src/oamb/config/doctor.py:1072-1082 | whatever the parser accepts has no repeated key |
| JsonText.EscapeSet | src/oamb/contracts/ids.py:44-54 | exactly the quotation mark, the backslash and the characters below the space are escaped, seven of them in short form, the others as four digits in lower case |
| JsonText.StringText | src/oamb/contracts/ids.py:44-54 | a string is its characters, escaped one by one, between quotation marks |
| JsonText.NumberText | src/oamb/contracts/ids.py:44-54 | a number is its decimal numeral, with a minus sign if negative |
| JsonText.ArrayText | src/oamb/contracts/ids.py:44-54 | an array is its items in order between brackets, with commas and no spaces |
| JsonText.ObjectText | src/oamb/contracts/ids.py:44-54 | an object is its entries in order between braces, key, colon and value, with commas and no spaces |
| JsonText.CanonicalIsOrdered | src/oamb/contracts/ids.py:44-54 | in what is printed every object, at any depth, has its keys in ascending order |
| JsonText.BeforeIff | src/oamb/contracts/ids.py:44-54 | that order is by the first character that differs, a prefix first |
| Normalise.NormalisationIdempotent | src/oamb/contracts/ids.py:18-41 | a normalised value normalises to itself |
| Normalise.NormalisedIffShown | src/oamb/contracts/ids.py:18-41 | a value is normalised to a tree if and only if the tree shows it, kind by kind: a record by its dump, an enumeration by its member, a decimal by the canonical spelling of its amount, times and dates by their text, mappings key by key and sequences item by item |
| Normalise.FailsIffDefect | src/oamb/contracts/ids.py:18-41 | normalisation fails if and only if a naive time, a float, a key that is no text, a bad decimal or an unsupported value occurs somewhere, and names one that does |
| Records.ReadOfCanonicalRecord | src/oamb/config/doctor.py:1059-1069 | reading a closed record by key gives back its values, whatever the field order |
| Records.RecordOfRead | src/oamb/config/doctor.py:1059-1069 | a record that was read is, up to field order, the record of its keys and values |
| Records.TaggedRecordIsBound | src/oamb/contracts/ids.py:57-58 | the hashed text of a tagged flat record determines every field |
| PlanTheorems.LoadOfPlanText | src/oamb/config/doctor.py:386-487 | loading the printed bytes of a closed plan gives back exactly that plan |
| PlanTheorems.LoadedIsOk | src/oamb/config/doctor.py:403-487 | every plan the loader returns has closed texts, derived limits, cross-bindings and hashes |
| PlanTheorems.SameHashSamePlan | src/oamb/config/doctor.py:457-487 | two accepted documents with one plan hash are the same plan |
| PlanTheorems.SoleTextIffNoBoolean | src/oamb/config/doctor.py:386-400 | an accepted text is the printed one if and only if no boolean occurs in it |
| PlanTheorems.SecondAcceptedText | src/oamb/config/doctor.py:857-895 | every plan has a second accepted text |
| PlanBuilder.BuiltPlanIsOk | src/oamb/config/doctor.py:296-383 | a plan built from an accepted configuration closes; building fails exactly when an external endpoint is given that is empty or has surrounding space |
| PlanBuilder.LoadOfBuiltPlan | src/oamb/config/doctor.py:296-487 | loading the printed bytes of a built plan gives back exactly that plan |
| PlanFields.BuiltPlanFrom | src/oamb/config/doctor.py:296-571 | every field of a built plan that is not a hash comes from the configuration, position by position: the roles with model, effort and recipient, the bindings, the cells with their four roles in order and the hash of each, the limits, and the endpoint, external exactly when one is given |
| PlanFields.BuiltIffFrom | src/oamb/config/doctor.py:296-571 | building yields a plan if and only if that plan closes and has its fields from the configuration: nothing else is left open |
| PlanFields.LimitsCount | src/oamb/config/doctor.py:674-705 | the base counts are the maxima without retries, the eligible operations those that one retry attempts again, and a comparison is three cells |
| PlanFormats.PlanColumns | src/oamb/config/doctor.py:583-611 | the plan document, key by key |
| PlanFormats.CellFields | src/oamb/config/doctor.py:550-580 | a cell record, key by key |
| PlanFormats.RoleFields | src/oamb/config/doctor.py:493-513 | a model role record, key by key |
| PlanFormats.BindingFields | src/oamb/config/doctor.py:519-532 | a retrieval binding record, key by key |
| PlanFormats.ExecutionFields | src/oamb/config/doctor.py:630-631 | the execution record, key by key |
| PlanFormats.DatasetFields | src/oamb/config/doctor.py:614-615 | the dataset record, key by key |
| PlanFormats.EndpointFields | src/oamb/config/doctor.py:599-601 | the embedding endpoint, key by key, ownership by its name |
| PlanFormats.AuthorizationCovers | src/oamb/config/doctor.py:634-651 | two executions have the same authorization document exactly when they agree on the ten limits it covers; concurrency and comparison totals are outside |
| Base64.UnpaddedRoundTrip | provider-services/mem0/inspector.py:61-84 | stripping the padding and restoring it before decoding loses nothing |
| Base64.DecodesIff | provider-services/mem0/inspector.py:64-69 | exactly the texts of whole blocks of symbols decode, with at most two characters of padding at the end |
| Base64.BlockBits | provider-services/mem0/inspector.py:64-69 | four symbols are the 24 bits of three bytes, and before padding of two or one |
| Uuids.ParseUuidExact | provider-services/mem0/inspector.py:44-54 | exactly the canonical text of a 128-bit value is accepted, as that value |
| Uuids.TextOrderIsNumeric | provider-services/mem0/inspector.py:178-180 | canonical UUID texts compare as their 128-bit values |
| Inspector.CursorRoundTrip | provider-services/mem0/inspector.py:57-84 | every cursor handed out decodes to the identifier it was made from |
| Inspector.WideCursorDecodes | provider-services/mem0/inspector.py:61-84 | for every identifier the UTF-16 and UTF-32 forms of its cursor are accepted too, as the same identifier |
| Inspector.MarkedCursorDecodes | provider-services/mem0/inspector.py:61-84 | and so are the five forms that begin with a byte order mark |
| Inspector.DecodeCursorIff | provider-services/mem0/inspector.py:57-78 | a cursor decodes to an identifier if and only if it carries it and the identifier is canonical; no cursor decodes to the first page, and nothing else does |
| Inspector.ReadPage | provider-services/mem0/inspector.py:165-196 | the row loop accepts exactly the ordered, complete pages and returns the first 256 rows with the next cursor |
| Inspector.QueryAccepted | provider-services/mem0/inspector.py:143-186 | on every table and for every cursor the backend checks pass: the text-order check never fires |
| Inspector.Inspect | provider-services/mem0/inspector.py:57-196 | a request on a fixed table fails exactly when its cursor does not decode, and otherwise returns the selected page |
| ProjectionClient.ParsePages | src/oamb/memory_systems/mem0/projection.py:106-188 | accepts exactly well-linked page lists whose points are of one run, distinct and complete, and returns all of them |
| ProjectionClient.CaptureProjection | src/oamb/memory_systems/mem0/adapter.py:801-868 | following the cursors of a fixed table terminates and yields every row of the run exactly once in identifier order, for every table within the point limit |
| Budgets.LimitsAreTheSums | src/oamb/config/doctor.py:674-691 | for all counts, retry limits and timeouts the plan's operation total is the budget's, and its owner total is the budget's exactly when the producer is an extraction role or there is nothing to ingest |
| Budgets.BuildBudget | src/oamb/live.py:1578-1768 | a lookup by role fails exactly when the four roles of the cell are not the keys of the dictionaries; otherwise it succeeds exactly when both totals of the dictionaries match the plan, and then attempts, output tokens and wall seconds are the sums over the ceilings that were built from the bindings |
| Budgets.SumTables | src/oamb/live.py:1724-1738 | the loop totals are the sums over the values of the operation, attempt and token dictionaries |
| Budgets.TablesTabulate | src/oamb/live.py:1592-1603 | whatever role the producer is, colliding keys included, the dictionaries hold every role of theirs with its own amount |
| Budgets.OwnerSums | src/oamb/live.py:1605-1738 | when the lookups succeed, the sums over the dictionaries are the sums over the separately built ceilings, in whatever order, attempts, tokens and wall seconds alike |
| Budgets.OnlyTheBudgetKnowsThirty | src/oamb/live.py:1771-1778 | the budget knows the selections of the plan with the same counts, and the 30-question one besides |
| Budgets.RoleCeilings | src/oamb/live.py:1592-1641 | one ceiling per bound role in order, from its dictionary entries; fails exactly when a bound role has none |
| Budgets.OperationCeilings | src/oamb/live.py:1642-1723 | one ceiling and one route per memory stage, with the internal roles of the stage |
| Budgets.StagesInFigures | src/oamb/live.py:1642-1683 | the eight stage ceilings by name: one resolution, an ingestion per source and attempt, and one operation per case for each of the others, each with its timeouts |
| Budgets.RoutesInFigures | src/oamb/live.py:1684-1723 | the ten routes by name, with producer and embedding inside ingestion and embedding inside queries |
| Budgets.RolesInFigures | src/oamb/live.py:1592-1641 | the role ceilings in figures: completions with 8192 output tokens each for answers and 1024 for judgements, ingestions and queries without tokens or wall time for the others |
| BudgetValidator.ValidateBudget | src/oamb/contracts/specifications.py:1122-1200 | accepts exactly budgets with distinct identities, known and matching routes and no orphan owner |
| BudgetValidator.BuiltBudgetCloses | src/oamb/contracts/specifications.py:1122-1200 | a built budget is accepted if and only if the workload has a case and a source and the producer is not the embedding role |
| BudgetValidator.PlanIdsAreGood | src/oamb/live.py:1508-1575 | the binding identifiers a cell takes from its plan, fixed for answer and judge and the binding hash otherwise, are distinct per role and cannot be mistaken for operations |
| States.ProgressTable | src/oamb/contracts/states.py:131-187 | the dictionary literal, entry by entry, is the progress relation of the four kinds of entity |
| States.AddFailures | src/oamb/contracts/states.py:190-230 | the loop adds exactly the failure rows of the active states |
| States.BuildTable | src/oamb/contracts/states.py:131-233 | the finished table is the progress relation plus the failure rows |
| States.CaseCompletedIff | src/oamb/contracts/states.py:236-257 | a case reaches completion by one exact word of six events and no other |
| States.PlanSealedIff | src/oamb/contracts/states.py:236-257 | an ingestion plan is sealed by one exact word of five events and no other |
| States.RunFinalizedIff | src/oamb/contracts/states.py:236-257 | a run is finalized exactly by the fixed prefix, any number of interrupts with resume-safe resumes, and the two closing events |
| States.TerminalAbsorbs | src/oamb/contracts/states.py:131-257 | no event leads out of a terminal state |
| States.FollowBounded | src/oamb/contracts/states.py:131-257 | every state reached is live or terminal, and a case or plan stops within its rank |
| StateWords.CaseAlong | src/oamb/contracts/states.py:131-257 | a case is `k` steps along its way after exactly the first `k` of the six events |
| StateWords.CaseFailsIff | src/oamb/contracts/states.py:131-257 | a case ends in a failure state exactly by going any part of its way short of completion and then meeting the event of that failure; an unknown outcome never befalls a case |
| StateWords.PlanAlong | src/oamb/contracts/states.py:131-257 | a plan is `k` steps along its way after exactly the first `k` of the five events |
| StateWords.PlanFailsIff | src/oamb/contracts/states.py:131-257 | a plan ends in a failure state exactly after one to four events of its way and the event of that failure |
| StateWords.RunIsRunning | src/oamb/contracts/states.py:131-257 | a run is running exactly after preflight, start and any number of interrupts with resume-safe resumes, and interrupted after one interrupt more |
| StateWords.RunRejectedIff | src/oamb/contracts/states.py:131-257 | a run is rejected by one exact word of two events |
| StateWords.RunStoppedIff | src/oamb/contracts/states.py:131-257 | a run is aborted exactly by an abort while running, and blocked exactly by a block while running |
| StateWords.ValidationDecidedIff | src/oamb/contracts/states.py:131-257 | a validation is validated by a pass, invalid by a failure, and by nothing else |
| Resources.SumAllocationResources | src/oamb/contracts/evidence.py:719-742 | fails exactly when the units of a dimension disagree; otherwise every dimension once, in first-seen order, with its unit and exact total |
| Resources.SumsAreUnique | src/oamb/contracts/evidence.py:719-742 | that description determines the result |
| Resources.SumsConserve | src/oamb/contracts/evidence.py:719-742 | the maxima of the result add up to all the maxima that went in |
| Reservations.ValidateReservation | src/oamb/contracts/evidence.py:649-716 | accepts exactly reservations with ordered distinct owners, one currency, and every aggregate equal to the sum over the owners |
| Reservations.SumIntAdds | src/oamb/contracts/evidence.py:684-716 | the sum over owners takes every owner once: nothing for none, the amount for one, and it adds up over lists |
| Reservations.SumRealAdds | src/oamb/contracts/evidence.py:684-716 | and so does the sum of amounts |
| Reservations.ReservationConserves | src/oamb/contracts/evidence.py:649-742 | an accepted reservation reserves, per dimension and in all, what its owners were allocated |
| Reservations.OwnersDetermineReservation | src/oamb/contracts/evidence.py:649-716 | two accepted reservations of the same owners have the same aggregate fields |
| Reservations.NoCostIsDropped | src/oamb/contracts/evidence.py:649-716 | in an accepted reservation an owner has a cost exactly when the reservation has one, so no cost is replaced by the default of zero |
| CaseManifests.ComparisonIsPartition | src/oamb/contracts/specifications.py:619-625 | with distinct ids, the length and set comparison accepts exactly when every id stands in one list at one position |
| CaseManifests.CheckPlan | src/oamb/contracts/specifications.py:607-616 | one turn of the loop accepts exactly plans of the workload with known members, each case beside its context |
| CaseManifests.CheckPlans | src/oamb/contracts/specifications.py:603-618 | the loop over the plans, and the flattened lists it leaves |
| CaseManifests.ValidateManifest | src/oamb/contracts/specifications.py:590-629 | accepts exactly manifests whose plans divide contexts and cases among themselves, each case in the plan of its context |
| CaseManifests.CaseAndContextShareOnePlan | src/oamb/contracts/specifications.py:605-625 | every case has one plan, the only one that lists it and the only one that lists its context, each at a single position |
| Studies.PairsPartition | scripts/evaluate_saved_lme_answers.py:428-479 | each paired question is in one cell of the table; the flips are the two mixed cells |
| Studies.DecisionByTable | scripts/evaluate_saved_lme_answers.py:413-472 | incomplete exactly when a list of unjudged questions is nonempty; otherwise parity if corrected-only is at least baseline-only, near parity if it falls short by 1 or 2, stop if by more |
| Studies.RetainedMeansNoWorse | scripts/evaluate_saved_lme_answers.py:444-448 | keeping every historical success means scoring at least the historical count |
| Studies.CategoriesPartition | scripts/evaluate_saved_lme_answers.py:404-464 | the counts of the categories of a summary add up to its overall counts, for history, baseline and corrected side |
| Studies.CategoriesCount | scripts/evaluate_saved_lme_answers.py:449-464 | there is one category for each of the six kinds in order, and it counts the answers of its kind, judged and correct |
| Studies.ListsOfSummary | scripts/evaluate_saved_lme_answers.py:428-492 | the flips, the flips against history and the two lists of unjudged questions hold exactly the answers they are about, in order |
| Studies.MinimumAndRetained | scripts/evaluate_saved_lme_answers.py:413-448 | the minimum is two below a baseline judged throughout; retained means that every answer correct in history is correct on a side judged throughout |
| Studies.SummaryExistsIff | scripts/evaluate_saved_lme_answers.py:396-402 | a summary is made exactly when every verdict is about one of the answers |
| Studies.JudgedOrListed | scripts/evaluate_saved_lme_answers.py:404-494 | every question is judged or listed as unjudged |
| JudgePools.LoadSaved | scripts/evaluate_saved_lme_answers.py:365-369 | reads back exactly the saved verdicts of the selected questions; a malformed one raises |
| JudgePools.JudgePool.Advance | scripts/evaluate_saved_lme_answers.py:370-376 | the shared iterator hands out the next answer without a verdict, never one handed out before, or ends |
| JudgePools.JudgePool.Settle | scripts/evaluate_saved_lme_answers.py:374-376 | the worker's answer gets the judge's verdict and no other verdict changes |
| JudgePools.JudgePool.Run | scripts/evaluate_saved_lme_answers.py:370-382 | under every schedule the pool terminates; each unsaved answer is dispatched at most once and in order and gets the judge's verdict; it raises exactly when the group was cancelled from outside or a judgement of a dispatched answer raised; otherwise each was dispatched exactly once and every answer has a verdict; nothing is dispatched after cancellation |
| JudgePools.JudgeAll | scripts/evaluate_saved_lme_answers.py:347-382 | a study gets to its summary unless a saved verdict is malformed, the group is cancelled or an unsaved judgement raises, and then has a verdict for exactly the selected answers: the saved one, or the judge's |

## Left out

- The digest: SHA-256 is a function parameter; injectivity is assumed only for the contents a statement names.
- Bytes: contents are texts, so UTF-8 encoding and decoding errors are not modelled; a cursor payload with characters beyond ASCII is an error without saying which, since no identifier has any.
- Symbolic links, non-regular files, inode identity and path containment: hardening around the protocol, not part of it. File and directory name clashes (payloads `a` and `a/b`) are not modelled; `Directories` treats directories on their own.
- `mkstemp`: a fresh temporary name, tagged with a number; orphaned temporaries after a crash are allowed to remain, so nothing is claimed about verifying a crashed publication.
- Fault hooks: a process may stop before any step, which covers every hook that raises.
- Directories.DirectoryTree.EnsureDurableDirectory: durability of ancestors that existed before the call is as it was; the crash theorems of the step machine assume that existing directories survive.
- Supervisors.Supervisor.Run: that a worker reports failures under its own id is taken from the worker's code (`src/oamb/live.py:1158-1170`); the wording of errors and details (their number and presence is), the single-cell path, the flat checks of `execute_live_cells`, signal installation and process spawning are not modelled; termination assumes that a join is interrupted finitely often.
- Supervisors.Supervisor.AdmitNext: `sender.close()` and `receiver.close()` (`src/oamb/live.py:984-995`, `src/oamb/live.py:1031`) do not raise here; in the source such an exception escapes the whole function. `Supervisors.Supervisor.Collect` and `Supervisors.Supervisor.Run` share this limit.
- Checkpoints.CheckpointStore.AppendCheckpoint: the final create-only write is one step here, with other appenders before it and `PowerLoss` between calls; the single system calls, and which records a crash can take, are in `CheckpointRuns` and `CheckpointTheorems`. Files under a checkpoint's own name that are no checkpoint records, non-regular files and names with digits beyond ASCII are not modelled.
- CheckpointTheorems.AlwaysSound: reading the predecessor and looking for the target are one step each; a listing may take any time.
- PlanTheorems.LoadOfPlanText: normal mode only; resume mode, which replaces the embedding endpoint, and the legacy document shape are not modelled.
- Configuration parsing (YAML, environment): `PlanBuilder.Accepted` says what it guarantees.
- CanonicalDecimals.AcceptedIffPattern: the part of Python's decimal grammar beyond sign, digits, fraction and exponent (underscores, surrounding spaces, non-ASCII digits) is not modelled; none of its strings is canonical.
- Decimal arithmetic in reservations is exact: rounding in a decimal context of 28 digits is not modelled.
- Reservations.ValidateReservation: the identity and content hashes of a reservation and of its allocations are not recomputed; field types (positive counts, non-negative decimals) are `AllocationOk`, which only `NoCostIsDropped` needs.
- BudgetValidator.ValidateBudget: the content hashes of ceilings and routes, the resource dimensions, and the cost and currency fields, which a live budget leaves empty, are not modelled.
- Budgets.BuildBudget: the binding of a role is reduced to its identifier.
- CaseManifests.ValidateManifest: the hash of the manifest's fields is a parameter, and each entry's own identity check is not modelled.
- ProjectionClient.ParsePages: run-id format and the contents of payloads are not checked here; HTTP, credentials and PostgreSQL are outside, and the table is fixed during a capture.
- Studies.DecisionByTable: the input checks of `prepare_study` are assumed as far as they fix 60 questions; token limits and report text are not in the summary.
- JudgePools.JudgePool.Run: asking the judge, its retries and the files it writes are one settling step; the judge's reply to each question is given in advance, which loses nothing since no question is asked twice.
- Capsule finalization, record versions 1 to 3 with the same shape, fake adapters, dataset download, reporting and the public-boundary scan.
