# Verification model of the event ledger

The ledger appends laboratory reports, revisions and revocations as numbered events. A sealer
signs checkpoints over the Merkle root of everything up to a sequence number and chains each
checkpoint to the one before. Clients fetch receipts that can be verified offline, page through
what a checkpoint newly covers, have audit packages exported, and acknowledge checkpoints one
after the other. This project models these parts in Dafny and proves what they promise, over
every input and every interleaving.

Reading order:

- `Hashing`, `Merkle`, `Consistency`, `ConsistencyProofs`: the tree of section 2.1 of RFC 6962,
  its audit paths and consistency proofs, and the two verifiers as loops. The consistency
  verifier shifts bits bottom-up; the generator recurses top-down; `JoinSides` and `ClimbSides`
  are the two shapes and `ClimbSidesMatch` is where they meet.
- `Wrappers`, `Lookup`, `LedgerDatabase`: options and results, finding a row by a column, and the
  mutable ledger tables.
- `Domain`, `Sealing`, `Protocol`, `ProtocolInvariants`, `Runs`: writers and sealers as
  interleaved transactions with a shared and exclusive lock. `Exec` runs any schedule of steps;
  `Inv` is what all of them keep.
- `Receipts`, `ReceiptProofs`, `Paging`, `Records`: what is read from the tables while they grow.
- `Verdicts`, `Corruption`: what verification says of any receipt, and what sealers and receipts do
  with tables that were tampered with.
- `SealerService`, `Reports`, `BatchProofs`, `RaceProofs`, `SuccessorRaces`, `Successors`,
  `CallRuns`, `Fingerprints`: the services as methods on mutable tables, what repeated or raced
  calls come to, that the calls, raced or not, are interleavings of the protocol's steps, and
  that an answer says what its request says.
- `Packages`, `PackageMachine`, `PackageRows`, `PackageBoundary`, `PackageInvariants`,
  `PackageRuns`, `PackageSafety`, `PackageMoves`, `PackageChoices`, `PackageService`,
  `PackageProgress`: the leased export queue, with crashes, lost leases, late workers,
  cancellation and retry.
- `Consumers`, `ConsumerRuns`, `ConsumerService`: the compare-and-set cursors.

Assumptions are hypotheses of the theorems that need them, never axioms:

- SHA-256 is an arbitrary function with 32-byte results, HMAC and canonical JSON are arbitrary
  functions. Completeness needs nothing of them. Soundness is stated against `CollisionFree` on
  the finite set of strings that are actually hashed, so each soundness theorem says: the claim
  holds, or two of these strings collide. Fingerprints of requests are treated in the same way
  (`DistinctFingerprints` on the contents that occur). Soundness of receipts also needs canonical JSON to be
  injective (`CanonicalJson`) and the checkpoints to be the sealer's own.
- Every keyring gives a key version the key it was issued with (`Agrees`); it may lack versions.
- Each request statement sees its own snapshot of the tables; snapshots of one request only
  grow (`Extends`), which every run guarantees (`RunReadsInOrder`, `WalkDuringRun`,
  `LoadDuringRun`).

Where the code and its documentation differ, the model follows the code:

- README.md:85 of the repository promises the first failing position of a rejected batch. The
  code checks in phases (src/ledger/service.py:184-206, then committed keys), so an earlier item
  may fail a later phase. `FirstFailureNotNamed` gives the input; `BatchErrorIndex` gives the
  exact condition.
- README.md:129 says the proof index binds an event to database sequence order. The index is
  bound (`ReceiptSound`), but the `sequence` field of a receipt is not: `SequenceIsNotBound`.
- README.md:372 says that idempotency keys make a retry safe even when the client did not observe
  the commit. A retry that comes after the commit is answered with the event. But a revision or
  revocation looks its key up only before it looks at its parent (src/ledger/service.py:371-407),
  so a retry that overlaps the original, and looks its key up before the original commits, is
  refused with EVENT_ALREADY_SUPERSEDED by the very row it asked for: `TwinIsRefused`.
  `RacedSuccessorIsSerial` gives the exact condition. Reports have no such case: an identical
  concurrent report is replayed (`RacedReportIsSerial`).
- A build that returns `ready` need not have written the archive: `WhatFinishReturns`,
  `LateWorkerIsToldReady`.
- The comment at src/ledger/audit/service.py:374-379 says that only a cancellation recorded for the
  current lease owner stops a build. The check compares no owner: `ChecksIgnoreOwners`.
- The state-shape constraint of src/ledger/models.py:98-123 is not kept by the transactions from
  an arbitrary row that meets it, only from the rows that runs produce: `ShapeIsNotInductive`,
  `ClaimCanBreakShape`.

## Model

| member | source | states |
|---|---|---|
| Merkle.SplitUnique | src/ledger/merkle.py:25-28 | the bit-length formula gives the one power of two k with k < n <= 2k |
| Merkle.SmallRoots | src/ledger/merkle.py:10-40 | the leaf prefix, the node prefix and the roots of the first sizes written out, the empty tree included |
| Merkle.InclusionComplete | src/ledger/merkle.py:49-61 | the audit path of any leaf is accepted for the tree's root, whatever the hash function |
| Merkle.VerifyInclusion | src/ledger/merkle.py:64-96 | the loop over the path accepts exactly when the sides, the hash lengths and the climbed root are right, for every index, size and path |
| Merkle.InclusionSound | src/ledger/merkle.py:64-96 | an accepted path is the generated path of the real leaf at that index, unless two hashed strings collide |
| Merkle.InclusionExact | src/ledger/merkle.py:49-96 | verification accepts if and only if leaf and path are the generated ones, unless two hashed strings collide |
| Merkle.InclusionProofShort | src/ledger/merkle.py:49-61 | an audit path has at most ceil(log2 n) steps |
| Merkle.RootBindsLeaves | src/ledger/merkle.py:31-40 | equal roots of equally many leaves have equal leaves, unless two hashed strings collide |
| Hashing.LeafIsNoNode | src/ledger/merkle.py:15-22 | the two prefixes keep leaf hashes and node hashes apart |
| Hashing.NodeHashInjective | src/ledger/merkle.py:21-22 | equal node hashes have equal children |
| Consistency.LowestRung | src/ledger/merkle.py:153-165 | halving the two last-leaf indices takes off the recursive sides exactly the lowest join, which their low bits and equality decide |
| Consistency.ClimbSidesMatch | src/ledger/merkle.py:99-167 | the sides the shifting verifier uses are those of the recursive split, for all sizes |
| Consistency.SkipOddEnd | src/ledger/merkle.py:136-140 | shifting both indices while the old one is odd changes neither the joins nor the choice of start: it climbs inside one perfect subtree |
| Consistency.StartAtEvenEnd | src/ledger/merkle.py:136-151 | once the old index is even the joins are the audit sides of the last old leaf, and the verifier starts from the old root exactly when that index is zero |
| Consistency.VerifyConsistency | src/ledger/merkle.py:120-167 | the nested loops over fn and sn accept exactly what the recursive specification accepts, for all sizes, roots and proofs |
| ConsistencyProofs.ConsistencyComplete | src/ledger/merkle.py:99-167 | the generated proof of any prefix is accepted for the two real roots, whatever the hash function |
| ConsistencyProofs.ConsistencyExact | src/ledger/merkle.py:99-167 | for the real new root an old root and a proof are accepted if and only if they are the prefix's root and the generated proof, unless two hashed strings collide |
| ConsistencyProofs.ConsistencySound | src/ledger/merkle.py:120-167 | an accepted old root is the root of the first m leaves and the proof is the generated one, unless two hashed strings collide |
| ConsistencyProofs.AcceptedMeansPrefix | src/ledger/merkle.py:120-167 | two trees whose roots are accepted as consistent have leaves of which the old are a prefix of the new |
| ConsistencyProofs.ConsistencyProofShort | src/ledger/merkle.py:99-117 | a consistency proof has at most ceil(log2 n) + 1 hashes |
| Domain.UptoIsCut | src/ledger/sealing.py:88-96 | the rows up to a sequence are a prefix of the table in key order |
| Domain.UptoBelowInserts | src/ledger/service.py:95-109 | rows inserted above a sequence do not change what lies at or below it |
| Sealing.BatchExtendsPrefix | src/ledger/sealing.py:74-96 | the batch and its target select exactly the next rows after the sealed prefix, gaps in the numbering or not |
| Sealing.SealOutcome | src/ledger/sealing.py:70-153 | on a sound chain an attempt is idle when nothing is pending, fails only for a missing key, and otherwise signs exactly prefix and batch |
| Sealing.SealIsLinked | src/ledger/sealing.py:118-151 | a new checkpoint names its predecessor and its root and covers more |
| Sealing.AppendKeepsChain | src/ledger/sealing.py:138-152 | adding it keeps the chain |
| Sealing.EarlierRootIsPrefixRoot | src/ledger/sealing.py:118-126 | every earlier checkpoint's root, not only the last, is the root of a prefix of every later checkpoint's leaves |
| Sealing.UniqueSuccessor | src/ledger/sealing.py:138-144 | there is one genesis, and only the next checkpoint names a checkpoint as its predecessor |
| Protocol.CommitKeepsChain | src/ledger/service.py:95-109 | committing rows numbered above the last boundary keeps the chain and every sealed prefix |
| ProtocolInvariants.DrawKeepsNumbering | src/ledger/service.py:95-109 | a drawn sequence number is above every boundary and nobody else's, in every interleaving |
| ProtocolInvariants.StoreKeepsNumbering | src/ledger/service.py:111-140 | storing a row keeps each writer's own rows numbered in order above every boundary and its leaf hash right |
| ProtocolInvariants.StoreKeepsUnique | src/ledger/models.py:36-38 | event ids, business keys and parents stay unique over all rows, committed or not |
| ProtocolInvariants.PrepareKeepsLineages | src/ledger/service.py:377-419 | a prepared successor continues the record of a committed event that is not a revocation |
| ProtocolInvariants.StoreKeepsLineages | src/ledger/service.py:409-422 | a stored row keeps the lineage it was prepared with while other transactions commit |
| Runs.StepKeepsInv | src/ledger/service.py:95-109 | every step of every writer and sealer keeps all invariants and only extends the tables |
| Runs.RunKeepsInv | src/ledger/sealing.py:59-153 | so does every run |
| Runs.SealedBoundaryClosed | src/ledger/service.py:96-102 | once a checkpoint commits, the events up to its boundary are exactly its leaves in all later states |
| Runs.NoRunReportsCorruption | src/ledger/sealing.py:97-136 | in every run the corruption and signature errors of the sealer are unreachable |
| SealerService.CheckpointSealer.Plan | src/ledger/sealing.py:70-151 | the loop over the prefix and the checks of the previous checkpoint reach the specified decision, for all tables and configurations |
| SealerService.CheckpointSealer.SealOnce | src/ledger/sealing.py:59-153 | one attempt is the protocol's lock, read and commit; what it returns and what it adds; everything else stays |
| SealerService.OneSeal | src/ledger/sealing.py:73-86 | an attempt seals exactly when events are pending and takes one batch off them |
| SealerService.SealingProgress | src/ledger/sealing.py:70-153 | repeated attempts seal ceil(pending / batch size) times, then stay idle, and the last root is the root of all leaves |
| SealerService.BatchSizeIrrelevant | src/ledger/sealing.py:73-96 | the last root does not depend on the batch size |
| Corruption.SealsOnSoundBase | src/ledger/sealing.py:70-153 | whatever the tables hold, an attempt is idle exactly when nothing is pending, and seals exactly when the last checkpoint counts and signs its rows, every row it would cover has the hash of its fields, and it has its keys |
| Corruption.WhatSealingRefuses | src/ledger/sealing.py:88-126 | why an attempt fails, whatever the tables hold: count, row hash, root, signature or key, in this order |
| Corruption.SealSays | src/ledger/sealing.py:127-152 | every field of a new checkpoint, whatever the tables hold |
| Corruption.SealingDetectsTampering | src/ledger/sealing.py:97-126 | nobody seals on top of sealed rows that were changed, removed or added to, unless two hashed strings collide |
| Receipts.VerifyReceipt | src/ledger/proofs.py:59-157 | the verdict on every well-typed receipt and keyring, branch by branch |
| Receipts.ValidatePrefix | src/ledger/proofs.py:160-215 | the loop over stored rows returns the validated prefix and its leaves or the first error |
| Receipts.IndexOfFirst | src/ledger/proofs.py:267-276 | the index is the first of the event, and missing only if the event is |
| ReceiptProofs.PrefixValidates | src/ledger/proofs.py:160-215 | a sealed prefix validates in every later state, or its key version is unknown |
| ReceiptProofs.BundleBuilt | src/ledger/proofs.py:289-323 | the adjacent-checkpoint bundle is the same in every later state |
| ReceiptProofs.TheReceiptVerifies | src/ledger/proofs.py:59-157 | the receipt of any covered event at any checkpoint verifies with the two keys |
| ReceiptProofs.ReceiptAtBuilt | src/ledger/proofs.py:258-286 | building at a pinned checkpoint gives the same receipt from any later snapshots, or lacks a key |
| ReceiptProofs.ReceiptRoundTrip | src/ledger/proofs.py:218-286 | for every committed event the built receipt verifies, witnessed exactly when some checkpoint covers it; it fails only for a missing key of the chosen checkpoint or its predecessor |
| ReceiptProofs.RunReadsInOrder | src/ledger/proofs.py:218-323 | the snapshots of any request during any run meet the hypotheses of the round trip |
| ReceiptProofs.ReceiptSound | src/ledger/proofs.py:59-157 | an accepted receipt of the sealer's checkpoints is, but for its sequence number, the ledger's own receipt of the committed leaf at its index, unless two hashed strings collide |
| ReceiptProofs.SequenceIsNotBound | src/ledger/domain.py:23-45 | verification does not depend on the sequence field |
| Verdicts.AcceptanceMeans | src/ledger/proofs.py:59-157 | any accepted receipt has the leaf hash of its own fields; it is accepted without a witness exactly when it is pending and brings neither checkpoint nor inclusion proof, and with one only when it brings both, signed with a key of the keyring |
| Verdicts.MoreKeysSameVerdict | src/ledger/proofs.py:42-56 | more keys change a verdict only where a key was missing |
| Verdicts.TamperedIsRefused | src/ledger/proofs.py:59-76 | an accepted receipt is refused once a field of its event is changed, pending or sealed; a sealed one also when the leaf hash is computed anew |
| Corruption.ValidationMeans | src/ledger/proofs.py:160-215 | whatever the tables hold, rows pass exactly when the checkpoint counts and signs them and each has the hash of its fields, with each failure exactly |
| Corruption.ValidationDetectsTampering | src/ledger/proofs.py:160-215 | rows that pass for a checkpoint of the chain are the sealed ones, unless two hashed strings collide |
| Corruption.BuiltReceiptsVerify | src/ledger/proofs.py:218-323 | whatever was done to stored hashes, event fields, roots and signatures, as long as no predecessor ends after its successor, a receipt that is handed out shows the row asked for and verifies with the keyring it was built with |
| Corruption.WhatReceiptRefuses | src/ledger/proofs.py:218-323 | when a receipt is not found, refused for its row, or pending |
| Corruption.WhatBundleRefuses | src/ledger/proofs.py:218-323 | when a predecessor breaks the chain, and that its own defects are reported as they are |
| Corruption.ReceiptOfStranger | src/ledger/proofs.py:280-288 | an event that its validated prefix lacks is a corrupt checkpoint |
| Paging.PageContents | src/ledger/proofs.py:337-412 | a page is the next receipts after the cursor, read in any later state, with the right cursor and has_more |
| Paging.NextCursor | src/ledger/proofs.py:408-411 | the returned cursor is valid and lies after exactly what has been returned |
| Paging.PagesPartition | src/ledger/proofs.py:337-412 | following the cursor terminates and returns every receipt of the increment once in order, for every limit, while the ledger grows |
| Paging.IncrementIsTail | src/ledger/proofs.py:356-369 | an increment is what the checkpoint covers beyond its predecessor |
| Paging.IncrementsCoverPrefix | src/ledger/proofs.py:346-351 | the increments along the chain concatenate to the whole sealed prefix |
| Paging.WalkReadsIncrement | src/ledger/proofs.py:337-412 | a whole walk shows exactly the increment's events and all its receipts verify |
| Paging.WalkDuringRun | src/ledger/proofs.py:337-412 | so does a walk taken during any run, whatever moments its statements read at |
| Paging.OtherCursorsRefused | src/ledger/proofs.py:370-393 | a cursor is refused if and only if it lies outside the increment |
| Paging.WhatPageRefuses | src/ledger/proofs.py:337-365 | a page is not found exactly when its checkpoint is not, and a missing predecessor breaks the chain |
| Records.RecordIsLinear | src/ledger/api/app.py:219-236 | in every run each record is a report, then successors each following the one before, with only the last unsucceeded, so the reported state is right |
| Records.OnlyLastOpen | src/ledger/service.py:389-401 | an event has a successor exactly when it is not the last of its record |
| Reports.EventService.AppendSingle | src/ledger/service.py:142-170 | result and table of one submission, with replay, conflict, what others commit before and after it draws its number, and the settling of a key that one of them took |
| Reports.EventService.AppendRevisionOrRevocation | src/ledger/service.py:306-441 | result and table of a revision or revocation, with its fingerprint, what others commit between its key look-up and its parent look-up and before its insertion, its refusals in order and the settling of a violated constraint |
| Reports.EventService.InsertReportBatch | src/ledger/service.py:255-292 | the loop with its resolved and appended maps equals inserting item by item |
| Reports.EventService.PrepareBatch | src/ledger/service.py:184-187 | every report prepared in order, or the first that cannot be rendered |
| Reports.EventService.FindBatchConflict | src/ledger/service.py:189-206 | the pass over first_index finds the first item whose key came before with other content |
| Reports.EventService.AppendReportBatch | src/ledger/service.py:172-224 | preparation, collision check and the retry loop equal the specification under any rivals |
| Reports.InsertedKey | src/ledger/service.py:285-287 | after an insert its key leads to the new row and every other key where it did |
| Successors.OnlyLastIsFollowed | src/ledger/service.py:377-408 | a successor is accepted exactly for the last event of a record that is not revoked, and for a revision of the same instrument |
| Successors.WhatIsRefused | src/ledger/service.py:377-408 | on any table, why nothing may follow an event, in the order in which it is looked at |
| Successors.SuccessorExtendsRecord | src/ledger/service.py:409-422 | a created successor becomes the last event and the state of its parent's record; other records stay |
| Successors.ReportBeginsRecord | src/ledger/service.py:142-164 | a created report is the one event of a new record in the state of a report; other records stay |
| CallRuns.RacedSuccessorIsARun | src/ledger/service.py:356-441 | with any rivals, early and late, the call is the interleaving of its steps with theirs, to the same table; refused, it ends at the look at its parent |
| CallRuns.RacedReportIsARun | src/ledger/service.py:142-170 | so is submitting a report, created or settled from a rival's row |
| CallRuns.RacedBatchIsARun | src/ledger/service.py:255-292 | so is a batch whose keys the rivals do not take: begin, three steps for each new key, the rivals' steps, commit |
| CallRuns.RunsLeaveSoundTables | src/ledger/models.py:38-46 | in every run the committed rows meet the unique constraints and are numbered below the next number, as the theorems on raced calls ask |
| CallRuns.RivalsRun | src/ledger/service.py:95-109 | prepared writers that draw, store and commit one after the other leave what the services' rivals leave, a clashing one nothing but its number |
| BatchProofs.BatchRefinesSingles | src/ledger/service.py:172-224 | without rivals a batch succeeds exactly when single submissions would, with the same results, order and table, and a failed one writes no event |
| BatchProofs.BatchErrorIndex | src/ledger/service.py:184-206 | the named index is never earlier than the first failing one, and equals it exactly when no item before the first unrenderable one, or else before the first in-batch clash, fails a later check |
| BatchProofs.FirstFailureNotNamed | README.md:83-86 | a table that one submission leaves behind and a batch whose first failing position is not the one named |
| BatchProofs.InsertStops | src/ledger/service.py:270-280 | insertion stops at the first item that does not fit |
| BatchProofs.BatchConflictNames | src/ledger/service.py:184-206 | the conflict inside a batch names the first place of the key that clashes |
| Fingerprints.NewEventSays | src/ledger/service.py:81-91 | a stored report says what its request says, with its uuid and time, and is fingerprinted from its own fields |
| Fingerprints.NewSuccessorSays | src/ledger/service.py:306-354 | so is a stored revision or revocation, in its parent's record and of its parent's instrument |
| Fingerprints.ReportAnswers | src/ledger/service.py:46-55 | however it races, a submission is answered with the event committed under its key exactly when that event has its instrument, operator and report digest, and with the conflict exactly when it differs in one of them |
| Fingerprints.SuccessorAnswers | src/ledger/service.py:356-441 | however it races, a revision or revocation that succeeds is answered with an event that follows its parent with its operator, instrument and digest or reason; its key is refused exactly when it leads to anything else where it is looked up |
| Fingerprints.BatchSays | src/ledger/service.py:172-292 | however it races, every answer of a batch says what its own request says; a refused batch names a report that cannot be rendered, the first place and a later place of a key with different contents, or a report whose key leads to a committed event that says something else |
| Fingerprints.HistoriesKeepOwn | src/ledger/service.py:81-91 | every table that submissions build from an empty one is one that these theorems speak of |
| RaceProofs.RacesKeepBatchAtomic | src/ledger/service.py:208-224 | whatever others commit during the attempts, a batch answers every item with a committed event of its key and content, created exactly at first occurrences of keys not committed before the last attempt, on top of the rivals' rows; or it adds no event |
| RaceProofs.RetriesRunOut | src/ledger/service.py:208-224 | the retries run out only when rivals take a new key with the promised content in every attempt, so never for a batch with fewer new keys than attempts |
| RaceProofs.FourRacesExhaust | src/ledger/service.py:208-224 | four such rivals with uuids of their own do exhaust a batch of four new keys |
| RaceProofs.RacedReportIsSerial | src/ledger/service.py:142-170 | whatever others commit before and after it draws its number, a submission answers and leaves the table as if it came before all of them, between the early and the late ones, or after all of them |
| SuccessorRaces.RacedSuccessorIsSerial | src/ledger/service.py:356-441 | a raced revision or revocation answers and leaves the table as it would alone at some moment among the rivals, exactly when it is not the case that a rival took its key after the look-up and its parent is refused for a reason that was not there before the key was taken |
| SuccessorRaces.TwinIsRefused | src/ledger/service.py:371-407 | every revision or revocation that can be created, submitted twice at once, is refused as superseded by its own row instead of replayed; that answer fits no serial order |
| Packages.ShapeIsNotInductive | src/ledger/models.py:98-123 | exactly which rows that meet the constraint a claim, retry or cancellation takes out of it, and that finishing, failing and requesting cancellation keep it always |
| Packages.ClaimCanBreakShape | src/ledger/models.py:98-123 | a created row meets the constraint, and one concrete row that meets it breaks it when claimed |
| Packages.WellShapedMeetsConstraint | src/ledger/models.py:98-123 | the rows that runs produce meet the constraint |
| Packages.CandidateIsFirst | src/ledger/audit/service.py:203-214 | the candidate is the eligible unlocked row with the smallest key, if there is one |
| PackageRows.FinishKeepsRows | src/ledger/audit/service.py:424-459 | finishing keeps shapes, uniqueness and archive-iff-ready, moves rows legally, and never meets the archive's key twice |
| PackageRows.ClaimKeepsRows | src/ledger/audit/service.py:184-223 | so does claiming, counting the attempt |
| PackageRows.LeaseExcludes | src/ledger/audit/service.py:203-223 | a claimed row can be taken again exactly when its lease has run out |
| PackageRows.SettleKeepsRows | src/ledger/audit/service.py:256-290 | so does settling stale cancellations |
| PackageRows.CancelledKeepsRows | src/ledger/audit/service.py:469-484 | so does confirming a cancellation |
| PackageRows.FailKeepsRows | src/ledger/audit/service.py:486-507 | so does recording a failure |
| PackageRows.RetryKeepsRows | src/ledger/audit/service.py:509-559 | so does a retry |
| PackageRows.CancelKeepsRows | src/ledger/audit/service.py:561-608 | so does a cancellation |
| PackageRows.InsertKeepsRows | src/ledger/audit/service.py:136-162 | so does creating |
| PackageRows.WhatFinishReturns | src/ledger/audit/service.py:424-459 | for each result of the last transaction of a build, exactly when it is returned and exactly when the archive was written by it |
| PackageRows.WhatFailReturns | src/ledger/audit/service.py:486-507 | a failure is recorded exactly by the holder of the lease; a worker that lost it changes nothing and is told the row's state |
| PackageRows.WhatCancelReturns | src/ledger/audit/service.py:469-484 | a cancellation is confirmed by the worker that saw it exactly while it holds the lease, with the result in every state |
| PackageRows.WhatRetryReturns | src/ledger/audit/service.py:509-559 | a package is retried exactly when it failed, and each other state has its own refusal |
| PackageRows.WhatCancelPackageReturns | src/ledger/audit/service.py:561-608 | a package is cancelled while it waits and asked to stop while it is built, keeping its lease; asking again changes nothing, ready and failed packages refuse |
| PackageRows.WhatDownloadReturns | src/ledger/audit/service.py:618-632 | a package that is not ready is refused, as retryable exactly when it failed |
| PackageRows.UnknownPackage | src/ledger/audit/service.py:610-616 | an id that no row has is refused as not found by retry, cancellation and download |
| PackageRows.GoneRowFails | src/ledger/audit/service.py:424-497 | a build whose row is gone reports failed and changes nothing |
| PackageRows.ArchiveNeverMissing | src/ledger/audit/service.py:618-641 | a download succeeds exactly when the archive row exists, however much later than the package it is read |
| PackageBoundary.BaseStays | src/ledger/audit/service.py:323-345 | what a package's boundary sealed never changes as the ledger grows |
| PackageBoundary.TheEventsAre | src/ledger/audit/service.py:333-345 | a package's events are exactly the instrument's events inside its boundary, in every later state |
| PackageBoundary.EntryMade | src/ledger/audit/service.py:358-362 | an entry is the same from any snapshots, or the worker lacks a key |
| PackageBoundary.TheEntryVerifies | src/ledger/audit/service.py:358-362 | every entry's receipt verifies offline and shows its own event |
| PackageRuns.AdvanceOk | src/ledger/audit/service.py:316-371 | every step of a build collects only what the boundary holds |
| PackageRuns.StepKeepsWorld | src/ledger/audit/service.py:113-608 | every step of ledger, creators, workers and clients keeps all package invariants |
| PackageSafety.RunKeepsWorld | src/ledger/audit/service.py:113-608 | so does every run, and settled rows and archives are frozen |
| PackageSafety.PackagesAreSound | src/ledger/models.py:98-126 | in every run each row meets the constraint, ids and keys are unique, and an archive exists exactly for ready rows with the row's digest and size |
| PackageSafety.DownloadsNeverMiss | src/ledger/audit/service.py:633-640 | in every run a download that reads the package at one moment and the archive at any later one never reports AUDIT_ARTIFACT_MISSING, and gets what was written |
| PackageSafety.SettledForEver | src/ledger/audit/service.py:509-602 | identity and boundary never change, ready and cancelled rows never change at all, archives are immutable |
| PackageSafety.ReadyArchiveHolds | src/ledger/audit/service.py:316-371 | in every run a ready archive renders one bundle with exactly the instrument's events in its boundary, counted, every receipt verifying |
| PackageSafety.EveryWorkerBuildsTheSame | src/ledger/audit/service.py:390-411 | any two workers at any two moments render the same bundle for a package |
| PackageSafety.OnlyKnownFailures | src/ledger/audit/service.py:346-355 | in every run a build fails only for a key it lacks or a defect of its own: AUDIT_BOUNDARY_EMPTY and corruption are unreachable |
| PackageSafety.CountNeverChanges | src/ledger/audit/service.py:74-85 | the events counted at creation are as many as the archive holds, and not none |
| PackageSafety.CountsAreExact | src/ledger/audit/service.py:217-223 | in every run the attempt count is the number of claims, and an archive is written once if ready and never otherwise |
| PackageMoves.WhoMovesRow | src/ledger/audit/service.py:184-608 | for each state of a row and each next state exactly the steps that take it there: only the lease holder makes a building row ready or failed, only a claim after expiry takes it away |
| PackageMoves.RunsMoveRows | src/ledger/audit/service.py:184-608 | so in every run |
| PackageMoves.LeaseProtects | src/ledger/audit/service.py:486-507 | over any stretch of a run without a cancellation of it, a claim after expiry or the end of its holder's build, a building row stays exactly as it is, whatever late workers do |
| PackageMoves.MovesAreStamped | src/ledger/audit/service.py:184-608 | every move is stamped with its time; a claim gives the row to its worker for its lease |
| PackageMoves.SeenCancelsAreReal | src/ledger/audit/service.py:373-411 | in every run a worker that saw its build cancelled is right for ever: the row is being cancelled or has been |
| PackageMoves.ChecksIgnoreOwners | src/ledger/audit/service.py:373-388 | a check stops the build exactly while the row is being cancelled, whoever holds the lease; a worker without the lease then leaves the row alone |
| PackageChoices.BoundaryIs | src/ledger/audit/service.py:49-71 | on any tables a package takes the checkpoint it names, or one that covers most, and is refused exactly when there is none |
| PackageChoices.WhatCreationReturns | src/ledger/audit/service.py:113-162 | each refusal of a new request exactly when checkpoints and events call for it, and otherwise the package bound to the last checkpoint, or the named one |
| PackageChoices.PackagesAreMeant | src/ledger/audit/service.py:49-71 | in every run every package is bound to the checkpoint its request meant when it was chosen: the one it named, or the last one committed by then |
| PackageService.LoadBundle | src/ledger/audit/service.py:316-371 | the loop over events with its cancellation checks equals the specification |
| PackageService.LoadOutcome | src/ledger/audit/service.py:316-371 | what a load returns depends only on the cancellation checks and the keyring, never on when it reads |
| PackageService.LoadDuringRun | src/ledger/audit/service.py:316-371 | so for any package of any run, whatever moments the load reads at |
| PackageService.WhatLoadRefuses | src/ledger/audit/service.py:316-371 | what stops a load, whatever its statements see, and with which code |
| PackageService.WhatStepsRefuse | src/ledger/audit/service.py:316-345 | the machine's steps break for the same two reasons, exactly |
| PackageProgress.RendersItsBundle | src/ledger/audit/service.py:404-411 | a worker that nobody disturbs and that has the keys renders the package's bundle |
| PackageProgress.UndisturbedBuildFinishes | src/ledger/audit/service.py:390-459 | from every reachable state an undisturbed build by the lease holder makes the package ready with its one archive |
| PackageProgress.LateWorkerIsToldReady | src/ledger/audit/service.py:438-440 | from every reachable state and for every claimable package there is a run in which a worker that lost its lease is told ready although nothing of its own is stored |
| PackageService.AuditPackageService.ClaimPackage | src/ledger/audit/service.py:184-223 | the first eligible unlocked row is leased, or there is none |
| PackageService.AuditPackageService.SettleStaleCancelling | src/ledger/audit/service.py:256-290 | exactly the stale cancelling rows are finalised and returned in order |
| PackageService.AuditPackageService.FinishBuild | src/ledger/audit/service.py:424-459 | row, archive and result in every state of the row |
| PackageService.AuditPackageService.FinishCancelled | src/ledger/audit/service.py:469-484 | row and result in every state of the row |
| PackageService.AuditPackageService.FailOrCancel | src/ledger/audit/service.py:486-507 | row and result in every state of the row, with the reason cut |
| PackageService.AuditPackageService.RequestRetry | src/ledger/audit/service.py:509-559 | row and result or error in every state of the row |
| PackageService.AuditPackageService.CancelPackage | src/ledger/audit/service.py:561-608 | row and result or error in every state of the row |
| PackageService.AuditPackageService.CreatePackage | src/ledger/audit/service.py:113-162 | replay, errors, the new row, and the settling when another creator inserted the key meanwhile |
| PackageService.CreationSteps | src/ledger/audit/service.py:113-152 | an undisturbed creation is the machine's three steps |
| PackageService.CreateIsIdempotent | src/ledger/audit/service.py:164-182 | however the queue moved on, the same request finds the same package and changes nothing; others conflict |
| Consumers.ClassifyIsExact | src/ledger/audit/consumers.py:136-150 | the reason in terms of the two places in the chain, for all pairs |
| ConsumerRuns.CompareOk | src/ledger/audit/consumers.py:166-183 | exactly the successor of the cursor that was read is accepted |
| ConsumerRuns.WhatComparisonTells | src/ledger/audit/consumers.py:136-183 | for all pairs of places in the chain what a submission is told: reason, current and submitted checkpoint, or that the checkpoint is unknown |
| ConsumerRuns.MoveOk | src/ledger/audit/consumers.py:185-200 | the update succeeds exactly when the cursor is where it was read, and moves it by one |
| ConsumerRuns.StepMovesCursor | src/ledger/audit/consumers.py:185-221 | a step moves a cursor only by acknowledging the checkpoint after it |
| ConsumerRuns.RunKeepsCursors | src/ledger/audit/consumers.py:45-221 | every run keeps every cursor on the chain and every pending acknowledgement at or behind it |
| ConsumerRuns.CursorWalksTheChain | src/ledger/audit/consumers.py:158-164 | in every run a consumer's acknowledgements are the first checkpoints of the chain in order, none skipped or repeated, and its cursor is the last |
| ConsumerRuns.LostRaceReason | src/ledger/audit/consumers.py:201-214 | in every run a lost race is a duplicate or a regression; the fallback reason is never used |
| ConsumerRuns.LossIsTold | src/ledger/audit/consumers.py:201-214 | on any tables a lost race is told the reason of the comparison, or not_successor when there is none |
| ConsumerRuns.ConsumersAreIndependent | src/ledger/audit/consumers.py:186-200 | a step changes at most the row of its own acknowledgement |
| ConsumerRuns.NextCheckpointIsTaken | src/ledger/audit/consumers.py:166-221 | undisturbed, a submitted checkpoint moves the cursor exactly when it is the next one |
| ConsumerService.AuditConsumerService.RegisterConsumer | src/ledger/audit/consumers.py:45-81 | replay, conflict, the new row, and the settling when another registration took the key meanwhile |
| ConsumerService.RacedRegisterIsSerial | src/ledger/audit/consumers.py:45-81 | whatever others register meanwhile, the answer is the one of coming last, ids and keys stay unique, a success returns a stored row of the name and key asked for, a new one without a cursor, and a taken id is refused only when the key is free |
| ConsumerService.AuditConsumerService.BeginAcknowledgement | src/ledger/audit/consumers.py:166-183 | the comparison with the cursor as read, or the error |
| ConsumerService.AuditConsumerService.CompleteAcknowledgement | src/ledger/audit/consumers.py:185-221 | the compare-and-set on whatever the table then holds, or the conflict with it |
| ConsumerService.RegisterIsIdempotent | src/ledger/audit/consumers.py:83-96 | registering again under a known key returns its consumer or a name conflict and changes nothing, whoever else registers |

## Left out

- HTTP routing, schemas, error envelopes, configuration, health checks, logging, the polling
  loops and signal handling of the sealer and the exporter, and the offline command line.
- SQL, sessions and migrations: tables are sequences in key order, one transaction under its
  lock is one step, and what a transaction has read or not yet committed is explicit local state.
  The PostgreSQL branches are modelled; the SQLite branches are not.
- SHA-256, HMAC, canonical JSON and ZIP bytes are arbitrary functions; hexadecimal text, uuids
  and timestamps are opaque values. Receipts are well typed: malformed JSON is not modelled.
- Error messages and detail dictionaries, except the indices, reasons and checkpoints they name.
- Locks are taken at once or a step changes nothing: waiting, deadlock and fairness are not
  modelled, nor is the order in which row keys are handed out to concurrent package creators.
- Collisions of freshly drawn uuids are modelled in the protocol and the package table, not in the
  submissions of the services (`NewId`, `FreshIds`, `OwnIds`).
- A rolled-back batch attempt counts as having drawn all its numbers, and its rivals commit after
  that; so RacedBatchIsARun is about the attempt that commits, the others leave no rows.
- In raced submissions a rival draws its number while the call is under way. Rivals that drew it
  earlier are covered by the invariants of all interleavings (`StepKeepsInv`), not there.
- PackageRuns.AdvanceOk: a cancellation check may see a committed cancellation at any step of a build and need not, which allows more than the code's fixed places.
- Liveness: that a pending package is eventually claimed or a stale cancellation settled depends
  on the polling loops.
- `verify_inclusion` and `verify_consistency` with roots of other lengths than 32 bytes are
  modelled as the code has them; callers decode 32-byte roots first.
