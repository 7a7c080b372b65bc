# Verified model of the context intelligence server's durable core

This project models, in Dafny, the parts of the context intelligence server whose
correctness depends on many steps at once, and proves what the server promises about
them. Nothing here runs the server; each module restates one component in Dafny's terms
and the verifier checks the claims for all inputs and all runs.

Where the server changes things in place, the model is a class whose methods are proved
against specification functions, or a step system whose runs are all finite sequences of
atomic steps, with crashes, cancellations and lost replies among the steps. Where it
computes values, the model is functions and lemmas.

| module | component |
|---|---|
| `ReceiptStates`, `RecoveryModel`, `RecoverySafety`, `RecoveryTasks`, `RecoveryTheorems`, `RecoveryLines`, `RecoveryOvertaking` | native recovery: receipts, queue lines, drainers, the outbox pass, operator retry and operator quarantine as one step system with crashes |
| `PermitGate`, `ReceiptLedger` | the one-permit admission gate and the receipt tables |
| `QueueFraming`, `DurableQueue`, `QueueDelivery`, `QueueBoot` | the newline-framed queue, its delivery over whole runs, and the boot passes |
| `KeyGuards` | reference-counted per-key guards under concurrency |
| `BlobPrune`, `BlobLease`, `BlobAddress`, `BlobStore` | crash-consistent pruning, the lease, blob names, and writes that never bring a pruned blob back |
| `SessionClaims` | session claims and the storage names they own |
| `Chunking`, `GraphTraversal`, `GraphFlush`, `GraphRestore` | bounded chunks, the owned-graph search and deletion, the buffered flush, and a retry after newer writes |
| `PruneScheduler`, `IdentityStore` | the unattended prune client and the identity map |
| `Options` | an optional value |

## Findings

Three properties that the source's comments suggest do not hold in general. Each has a
lemma with a concrete counterexample and a lemma with the condition under which the
property does hold.

- At most one unacknowledged queue line per recovery origin. The check before a flush asks
  only whether some line of the origin is queued, not whether it is the line the drainer
  holds, although the comment at `context_intelligence_server/recovery.py:1260-1289`
  describes the latter. An operator quarantine can acknowledge a line while a drainer still
  holds it; after a retry the drainer commits its own, older offset and the old line is
  pending again beside the new one (`RecoveryOvertaking.TwoUnacknowledgedLinesReachable`).
  It does harm if and only if the held record is a session end that is not flushed yet, or
  is the last line of its log (`RecoveryOvertaking.OvertakingDuplicatesIff`); without such
  an acknowledgement the property holds in every run (`RecoveryLines.OneUnacknowledgedLine`).
- A failed graph flush keeps everything it took. The taken buffer goes back under what was
  buffered since, whole entry by whole entry, so parts of a node or of a relationship that
  was buffered again meanwhile can be lost. `GraphRestore.RetryIsCleanIff` says exactly when
  the retry leaves what no failure would have left, wherever the first attempt stopped; the
  losses are `GraphRestore.RetryCanLoseAProperty`, `GraphRestore.RetryCanLoseTheWorkingDir`
  and `GraphRestore.RetryCanLoseARelationship`. Without such a write nothing is lost
  (`GraphFlush.FailuresThenSuccess`).
- The identity map serves the projection of what it stores. That fails if a latched store
  is attached again without a stop. See `IdentityStore.StepKeepsInvIff` and
  `IdentityStore.AttachWithoutStopForgets`.

Records appended after a torn tail are delivered joined to it, as the source documents;
`QueueDelivery.FaithfulIffNeverTorn` gives the exact condition.

## Model

| member | source | states |
|---|---|---|
| `RecoverySafety.InitInv` | context_intelligence_server/main.py:681-825 | every quiescent durable state, one left by an older server included, satisfies the recovery invariant |
| `RecoverySafety.FreeStepKeepsInv` | context_intelligence_server/registry.py:601-652 | every step a drainer takes while another activity holds the recovery lock keeps the invariant of ledger, logs, drainers and that activity |
| `RecoverySafety.FreeStep` | context_intelligence_server/registry.py:739-998 | what drainers may do to an origin under another activity: the rely relation each lock holder is proved against |
| `RecoveryTasks.PassStepKeepsInv` | context_intelligence_server/main.py:718-825 | each point of the outbox loop body, on its head item, keeps the invariant |
| `RecoveryTasks.AdmitKeepsInv` | context_intelligence_server/main.py:1165-1212 | admitting a new receipt keeps the invariant |
| `RecoveryTasks.RetryStepKeepsInv` | context_intelligence_server/main.py:938-996 | each step of an operator retry (fence, copy to audit, remove dead letter, requeue) keeps the invariant |
| `RecoveryTasks.OperatorStepKeepsInv` | context_intelligence_server/main.py:1035-1099 | each step of an operator quarantine keeps the invariant |
| `RecoveryTasks.AckKeepsInv` | context_intelligence_server/registry.py:1078-1191 | quarantining an exhausted batch and acknowledging it keeps the invariant |
| `RecoveryTasks.AbortKeepsInv` | context_intelligence_server/main.py:845-915 | an exception that leaves the lock at any point keeps the invariant |
| `RecoveryTasks.StepKeepsInv` | context_intelligence_server/main.py:681-996 | every step of the whole system, a crash included, keeps the invariant |
| `RecoveryTasks.RunKeepsInv` | context_intelligence_server/main.py:681-996 | the invariant holds after every run from a state that satisfies it |
| `RecoveryTheorems.StepEffect` | context_intelligence_server/recovery.py:1190-1258 | what any step does to the ledger: nothing, one allowed mark, one admission, or one requeue, and only a flush adds a delivery |
| `RecoveryTheorems.FlushedWasDelivered` | context_intelligence_server/registry.py:601-652 | the delivery history holds an origin only if some step of the run flushed it and no requeue followed |
| `RecoveryTheorems.WrittenOnlyAfterDelivery` | context_intelligence_server/main.py:681-825 | in every run with crashes anywhere a receipt is written only after its event was flushed since its last requeue; an acknowledged or quarantined line is never taken as proof |
| `RecoveryTheorems.ReceiptLaw` | context_intelligence_server/recovery.py:1190-1258 | no step changes a receipt's key or kind, leaves written, or leaves quarantined except by a requeue |
| `RecoveryTheorems.WrittenIsFinal` | context_intelligence_server/recovery.py:1190-1258 | a written receipt stays written in every continuation |
| `RecoveryTheorems.AtMostOnePending` | context_intelligence_server/recovery.py:1047-1133 | every reachable state has at most one pending receipt |
| `RecoveryTheorems.PassSettlesTheOutbox` | context_intelligence_server/main.py:718-825 | a pass that ends has examined every receipt pending at its start, and each is terminal, or enqueued with an unacknowledged line, or a retry it may not bridge, or its own claim was refused at a step of this pass, with drainers running in between |
| `RecoveryLines.LinesStayDistinct` | context_intelligence_server/main.py:630-678 | a run in which no operator acknowledgement is harmful keeps all unacknowledged lines of distinct origins, with where drainers, pass, retry and operator stand |
| `RecoveryLines.OneUnacknowledgedLine` | context_intelligence_server/main.py:630-678 | from a quiescent state no run without a harmful acknowledgement gives one origin two unacknowledged lines; harmful is exact, see `RecoveryOvertaking.OvertakingDuplicatesIff` |
| `RecoveryLines.StepKeepsLines` | context_intelligence_server/main.py:630-678 | every step but a harmful acknowledgement keeps the lines distinct and every activity in step with them |
| `RecoveryOvertaking.OvertakingDuplicatesIff` | context_intelligence_server/main.py:1035-1099 | an acknowledgement that overtakes a held record is harmful if and only if the record is a session end not yet flushed or the last line of its log, and if and only if some continuation, free of harm to any other record, ends with two unacknowledged lines of one origin |
| `RecoveryOvertaking.HarmContinues` | context_intelligence_server/registry.py:601-652 | from either harmful situation, plain and dead-lettered records included, retry rounds and the commit of the held record lead to the duplicate |
| `RecoveryOvertaking.HarmlessStaysClean` | context_intelligence_server/main.py:1035-1099 | after a harmless overtaking no such continuation duplicates a line |
| `RecoveryOvertaking.RunKeepsOneAtATime` | context_intelligence_server/recovery.py:1047-1133 | in every run without a harmful acknowledgement one receipt at most is pending and the lines stay distinct, so the condition applies wherever an overtaking can occur first |
| `RecoveryOvertaking.HarmfulReachable` | context_intelligence_server/main.py:1035-1099 | a harmful acknowledgement, of a session end or of a plain record, is reached from the empty ledger |
| `RecoveryOvertaking.TwoUnacknowledgedLinesReachable` | context_intelligence_server/recovery.py:1260-1289 | two unacknowledged lines of one origin are reachable from the empty ledger, for a session end and for a plain record |
| `PermitGate.RecoveryAdmissionGate.Issue` | context_intelligence_server/recovery.py:305-323 | an issued permit is the only one, for a new record, with no unexpired one left; until it expires exactly its own binding can consume it; a refusal loses no unexpired permit, and of a new record with the gate available means that one is stored |
| `PermitGate.RecoveryAdmissionGate.Consume` | context_intelligence_server/recovery.py:326-358 | acceptance if and only if the token is stored for exactly this binding, unexpired on entry, with the record new and the gate available; an accepted token is never accepted again, any other answer loses no unexpired permit |
| `PermitGate.RunKeepsInv` | context_intelligence_server/main.py:1215-1267 | gate, lock holder and live backlog stay consistent over every interleaving |
| `PermitGate.AtMostOnePermit` | context_intelligence_server/recovery.py:299-380 | at most one permit is stored in every reachable state |
| `PermitGate.TokensAreSingleUse` | context_intelligence_server/recovery.py:326-358 | each token is accepted at most once, only for its binding, and only if unexpired on entry |
| `PermitGate.AdmissionPrecedesLiveWork` | context_intelligence_server/main.py:1215-1267 | no live record is pending at any point of an accepted admission |
| `ReceiptLedger.RecoveryReceiptStore.RecordConflict` | context_intelligence_server/recovery.py:935-974 | keeps the ledger invariant and every row; one report per key, which keeps the first stored side and shows the last received one |
| `ReceiptLedger.RecoveryReceiptStore.ClassifySource` | context_intelligence_server/recovery.py:997-1045 | keeps the invariant, and predicts admission: duplicate and conflicting if and only if an admission now would find it admitted or refuse it, new means accepted exactly in an idle ledger, foreign means busy |
| `ReceiptLedger.RecoveryReceiptStore.AdmitSource` | context_intelligence_server/recovery.py:1047-1133 | keeps the invariant; after acceptance this receipt is the only pending one and the same request is already admitted; any other answer changes no row and no source |
| `ReceiptLedger.RecoveryReceiptStore.MarkReceipt` | context_intelligence_server/recovery.py:1190-1258 | keeps the invariant, never makes a receipt pending, and repeating a mark that changed the row changes nothing more |
| `ReceiptLedger.RecoveryReceiptStore.RequeueQuarantined` | context_intelligence_server/recovery.py:1382-1402 | keeps the invariant; after success this receipt is the only pending one, its payload is intact and no other can be requeued |
| `ReceiptLedger.RecoveryReceiptStore.QuarantineSelected` | context_intelligence_server/recovery.py:1457-1471 | keeps the invariant; if it was pending nothing is pending afterwards and it can be requeued, otherwise no row changes |
| `ReceiptLedger.RunKeepsLedger` | context_intelligence_server/recovery.py:1047-1258 | over every run: one pending receipt at most, a payload is empty exactly when written, written rows are frozen, hashes and owner of an ordinal never change |
| `ReceiptLedger.QuarantineLeftOnlyByRequeue` | context_intelligence_server/recovery.py:1382-1402 | a quarantined row changes if and only if it is requeued in an idle ledger |
| `ReceiptLedger.ClassificationPredictsAdmission` | context_intelligence_server/recovery.py:997-1133 | what classification said stays true at any later admission; acceptance happens exactly for a free ordinal, agreeing descriptor and idle ledger |
| `ReceiptLedger.AcceptedOnce` | context_intelligence_server/recovery.py:1047-1133 | an ordinal is accepted at most once in any run |
| `QueueFraming.FrameRoundTrip` | context_intelligence_server/queue_manager.py:507-516 | splitting a log into complete lines and a tail loses nothing |
| `DurableQueue.QueueFile.WriteAll` | context_intelligence_server/queue_manager.py:890-905 | the loop over short writes writes exactly what the calls took |
| `DurableQueue.QueueFile.WriteRecord` | context_intelligence_server/queue_manager.py:922-942 | a failed write is closed with a newline if that succeeds, and nothing is removed |
| `DurableQueue.QueueFile.Append` | context_intelligence_server/queue_manager.py:944-975 | the log after an append, and whether it succeeded |
| `DurableQueue.QueueFile.ReadBatch` | context_intelligence_server/queue_manager.py:977-1002 | a batch is the first complete lines from the offset and ends after the last of them |
| `DurableQueue.QueueFile.DeleteDrained` | context_intelligence_server/queue_manager.py:1094-1167 | a log goes exactly when every byte is acknowledged, and no reader can tell: a batch of any size reads the same before and after |
| `DurableQueue.ReadReturnsLines` | context_intelligence_server/queue_manager.py:977-1002 | from the offset of line n a read returns the next lines in order, byte for byte, and never the unterminated tail |
| `DurableQueue.AppendAddsLine` | context_intelligence_server/queue_manager.py:922-975 | a successful append completes one line: the torn tail it found, then the record |
| `DurableQueue.FailedAppendAdds` | context_intelligence_server/queue_manager.py:908-942 | a failed append keeps every complete line and adds one junk line or a longer tail |
| `DurableQueue.DeliveredVerbatimIff` | context_intelligence_server/queue_manager.py:907-942 | a record is delivered byte for byte if and only if the log ended with a newline before it |
| `QueueDelivery.RunKeepsInv` | context_intelligence_server/queue_manager.py:889-1059 | over every run the log holds the untrimmed lines in order and the offset stands after the acknowledged ones |
| `QueueDelivery.AckDeliversInOrder` | context_intelligence_server/queue_manager.py:977-1059 | an acknowledgement covers the next lines, in order, byte for byte |
| `QueueDelivery.DeliveredExactlyOnce` | context_intelligence_server/queue_manager.py:889-1059 | completed lines are the accepted records in order plus at most one junk line per failed write; acknowledged ones are an initial part, and all of them once every byte is acknowledged |
| `QueueDelivery.FaithfulIffNeverTorn` | context_intelligence_server/queue_manager.py:907-942 | over every run the completed records equal the accepted ones byte for byte if and only if no successful append found a torn tail |
| `QueueBoot.LastCompleteEnd` | context_intelligence_server/queue_manager.py:759-785 | the backward search in chunks finds the end of the last complete line, for every chunk size |
| `QueueBoot.StreamNewlines` | context_intelligence_server/queue_manager.py:792-826 | the chunked count equals the plain count of the range, for every chunk size and limit |
| `QueueBoot.NewlinesAreLines` | context_intelligence_server/queue_manager.py:828-832 | counting newlines counts complete lines |
| `QueueBoot.PendingScansAgree` | context_intelligence_server/queue_manager.py:1949-1982 | the two ways of scanning the pending part agree |
| `QueueBoot.ReconcileKey` | context_intelligence_server/queue_manager.py:2044-2103 | the loop computes the specified skip from any offset |
| `QueueBoot.ReconcileMovesOverDeadLines` | context_intelligence_server/queue_manager.py:2032-2105 | the offset moves over exactly the leading pending lines equal to dead letters and stops before the first other one |
| `QueueBoot.ReconcileIsIdempotent` | context_intelligence_server/queue_manager.py:2032-2105 | a second reconcile moves nothing |
| `QueueBoot.SeedCounts` | context_intelligence_server/queue_manager.py:1937-1984 | after seeding, accepted = written + queued + dead over all readable keys |
| `KeyGuards.RunKeepsInv` | context_intelligence_server/queue_manager.py:857-880 | reference counts, map and objects agree in every interleaving |
| `KeyGuards.OneGuardPerKey` | context_intelligence_server/queue_manager.py:857-975 | all holders of a key hold the object the map names, so file sections of one key never overlap |
| `KeyGuards.NoLostAppend` | context_intelligence_server/queue_manager.py:254-288 | a wait answers true if and only if an append of its key finished since it cleared |
| `BlobPrune.MoveKeepsSafe` | context_intelligence_server/blob_retention.py:583-628 | a prune step, a crash or another writer keeps every undoable removal backed by a pending tombstone |
| `BlobPrune.RemovedPayloadKeepsItsTombstone` | context_intelligence_server/blob_retention.py:521-628 | through any mix of prunes, crashes and writers a removed payload was older than the cutoff and keeps a tombstone with its exact fingerprint for ever |
| `BlobPrune.SettledStaysGone` | context_intelligence_server/blob_retention.py:554-656 | once a tombstone is settled no crash and no prune brings the payload back |
| `BlobPrune.CrashAnywhere` | context_intelligence_server/blob_retention.py:583-719 | a crash after any disk operation leaves a safe disk on which every missing payload has a committed exact tombstone |
| `BlobPrune.Page` | context_intelligence_server/blob_retention.py:638-643 | a page holds rows of the query and is empty only when there are none |
| `BlobPrune.PageSkipsNothing` | context_intelligence_server/blob_retention.py:638-643 | a page skips nothing before its last row |
| `BlobPrune.Prune.Unlink` | context_intelligence_server/blob_retention.py:583-628 | at most this payload goes, only with row and file fingerprints equal; its row is settled in the open transaction, or stays pending when a check fails after the removal; without an error it is settled or stuck |
| `BlobPrune.Prune.SyncDirs` | context_intelligence_server/blob_retention.py:554-574 | success means no removal in the pinned directories can be undone; a failure does not skip the others |
| `BlobPrune.Prune.Commit` | context_intelligence_server/blob_retention.py:513-519 | the committed rows are the transaction's, or unchanged, and a failed commit leaves no draft |
| `BlobPrune.Prune.Journal` | context_intelligence_server/blob_retention.py:521-527 | rows for all items are committed pending before it returns; existing tombstones are untouched |
| `BlobPrune.Prune.FinishBatch` | context_intelligence_server/blob_retention.py:707-710 | rows are settled only after the absence is synced; without an error every item is settled or stuck |
| `BlobPrune.Prune.Recover` | context_intelligence_server/blob_retention.py:631-656 | without an error every pending row under the cutoff is settled, unless its directory is missing or another file is there |
| `BlobPrune.Prune.Flush` | context_intelligence_server/blob_retention.py:695-711 | a URI with a tombstone is left alone, a changed file is left alone, everything else in the batch goes |
| `BlobPrune.Prune.Scan` | context_intelligence_server/blob_retention.py:301-343 | a file at or past the cutoff never becomes a candidate |
| `BlobPrune.Prune.Apply` | context_intelligence_server/blob_retention.py:659-719 | every disk state on the way satisfies the step rules, and without an error every listed regular payload under the cutoff is gone unless an earlier tombstone protects it |
| `BlobPrune.Prune.ApplyBatch` | context_intelligence_server/blob_retention.py:919-947 | an oversized batch or a too new candidate changes nothing at all; otherwise as for the offline prune |
| `BlobAddress.Truncate` | context_intelligence_server/utils.py:70-79 | dropping bytes until the prefix decodes gives the longest prefix of whole code points that fits |
| `BlobAddress.FoldFits` | context_intelligence_server/utils.py:31-81 | a folded name fits its budget and folding is idempotent |
| `BlobAddress.FoldedComponent` | context_intelligence_server/utils.py:31-81 | folding keeps a safe component safe |
| `BlobAddress.FoldsAlikeOnlyByDigest` | context_intelligence_server/utils.py:31-81 | two overlong names fold alike only if the digests of the whole names begin alike |
| `BlobAddress.UriRoundTrip` | context_intelligence_server/blob_keys.py:110-153 | every valid address is what its URI parses to |
| `BlobAddress.ParsedPrintsBack` | context_intelligence_server/blob_keys.py:144-153 | a URI parses only to a valid address that prints as that URI |
| `BlobAddress.NamespacesDisjoint` | context_intelligence_server/blob_keys.py:90-123 | two addresses with one URI are the same address, so ordinary and mapped never meet |
| `BlobAddress.FilenameRoundTrip` | context_intelligence_server/blob_keys.py:116-185 | every valid address is recognised from its filename |
| `BlobAddress.RecognisedPrintsBack` | context_intelligence_server/blob_keys.py:174-185 | a filename is recognised only as a valid address stored under it |
| `BlobAddress.OneFilePerAddress` | context_intelligence_server/blob_keys.py:116-123 | two addresses share a file only if they are equal |
| `BlobAddress.WriteAddressTotal` | context_intelligence_server/blob_keys.py:131-141 | a write name is refused only for an unsafe session or a reserved name; directory, file and temporary name fit 255 bytes; mapped exactly when not a plain component |
| `BlobAddress.WrittenUriReadsItsAddress` | context_intelligence_server/blob_keys.py:188-226 | the candidates of a written URI are exactly the written address |
| `BlobAddress.StoredUriIsACandidate` | context_intelligence_server/blob_keys.py:220-226 | whatever can be on disk is tried first at its own address |
| `BlobStore.AsyncDiskBlobStore.CheckExpiry` | context_intelligence_server/blob_store.py:289-293 | the first recorded expiry in the list is found |
| `BlobStore.AsyncDiskBlobStore.OpenFirst` | context_intelligence_server/blob_store.py:219-238 | the first present candidate is opened |
| `BlobStore.AsyncDiskBlobStore.Write` | context_intelligence_server/blob_store.py:266-326 | store and returned URI equal the specification; a failed write leaves no payload |
| `BlobStore.AsyncDiskBlobStore.Read` | context_intelligence_server/blob_store.py:328-362 | payload, expiry, absence or malformed URI as specified |
| `BlobStore.ReadAfterWrite` | context_intelligence_server/blob_store.py:266-362 | a new write is read back under its URI |
| `BlobStore.ExpiryBlocksWrite` | context_intelligence_server/blob_store.py:266-294 | an expiry under the canonical or any legacy address of a name blocks the write, changes nothing and returns an expired URI |
| `BlobStore.NoRehydration` | context_intelligence_server/blob_store.py:266-326 | over every run of writes and prunes tombstones stay and a removed payload is never created again |
| `BlobStore.ExpiredNameStaysExpired` | context_intelligence_server/blob_store.py:266-362 | once any address of a name, canonical or legacy, has expired: after every run a write of that name changes nothing and returns an expired URI, and reading an expired URI with no payload behind it reports that expiry |
| `BlobStore.ReadsLastWritten` | context_intelligence_server/blob_store.py:266-362 | a blob with no expiry reads as the last value written to its own address over every run |
| `BlobLease.Coordinator.PrecedingWriter` | context_intelligence_server/blob_coordination.py:44-48 | the loop finds whether a writer is queued before the token |
| `BlobLease.Coordinator.TryAdmit` | context_intelligence_server/blob_coordination.py:38-63 | an entry is admitted exactly when admissible, and otherwise nothing changes |
| `BlobLease.Coordinator.Release` | context_intelligence_server/blob_coordination.py:70-77 | a release gives back exactly what was held, shuts nobody out who was admissible, and the last one makes the head of the queue admissible |
| `BlobLease.RunKeepsInv` | context_intelligence_server/blob_coordination.py:25-77 | counters, order and fairness hold after every run with cancellation |
| `BlobLease.MutualExclusion` | context_intelligence_server/blob_coordination.py:25-77 | an exclusive lease excludes every other in every reachable state |
| `BlobLease.NoOvertaking` | context_intelligence_server/blob_coordination.py:43-55 | nobody who came after a queued writer is active, and nobody who came before an active writer still waits |
| `BlobLease.AdmittedWhenNobodyAhead` | context_intelligence_server/blob_coordination.py:43-63 | a waiter with no earlier arrival queued or active is admitted at its next attempt |
| `BlobLease.AheadShrinks` | context_intelligence_server/blob_coordination.py:34-77 | over every run the set of arrivals ahead of a waiter only shrinks |
| `SessionClaims.FoldedNamesAreCanonical` | context_intelligence_server/session_claims.py:16-25 | the blob name of a folded blob name is itself |
| `SessionClaims.SessionClaimStore.Backfill` | context_intelligence_server/session_claims.py:67-81 | the row loop builds the bindings defined without any order |
| `SessionClaims.BackfillIsUnique` | context_intelligence_server/session_claims.py:67-81 | those bindings are unique, so row order does not matter |
| `SessionClaims.BackfillEstablishesInv` | context_intelligence_server/session_claims.py:67-81 | a backfilled store satisfies the two-table invariant |
| `SessionClaims.SessionClaimStore.Bind` | context_intelligence_server/session_claims.py:97-114 | both names are taken or neither |
| `SessionClaims.SessionClaimStore.Claim` | context_intelligence_server/session_claims.py:116-145 | tables and result equal the specification |
| `SessionClaims.SessionClaimStore.ReserveRecovery` | context_intelligence_server/session_claims.py:147-189 | tables and result equal the specification |
| `SessionClaims.SessionClaimStore.FinalizeRecovery` | context_intelligence_server/session_claims.py:191-228 | tables and result equal the specification |
| `SessionClaims.SessionClaimStore.ReleaseRecovery` | context_intelligence_server/session_claims.py:230-256 | only the exact owner and token release it; the invariant is kept, every name it held unambiguously is free, and no other claim or binding changes |
| `SessionClaims.RunKeepsInv` | context_intelligence_server/session_claims.py:116-256 | every name of a live claim is bound to it or ambiguous, and every bound name belongs to a live claim, over every run |
| `SessionClaims.CommittedForEver` | context_intelligence_server/session_claims.py:116-256 | a committed claim keeps its contributor and workspace in every run |
| `SessionClaims.ReleaseUndoesReserve` | context_intelligence_server/session_claims.py:147-256 | releasing a new reservation restores both tables exactly |
| `SessionClaims.ReservationLife` | context_intelligence_server/session_claims.py:116-228 | the same request finds its reservation, another owner or token changes nothing, its workspace is not visible, and finalizing commits it |
| `SessionClaims.ClaimIsExclusive` | context_intelligence_server/session_claims.py:116-145 | a claim is visible, repeatable by its owner without change, and refused to everyone else |
| `SessionClaims.AmbiguityIsFixed` | context_intelligence_server/session_claims.py:67-256 | the ambiguous names of a store are exactly those it began with |
| `SessionClaims.AmbiguousNeverBound` | context_intelligence_server/session_claims.py:84-114 | a session with an ambiguous name is never claimed, reserved or finalized |
| `SessionClaims.NamesAreNotShared` | context_intelligence_server/session_claims.py:97-114 | two live claims share a name only where it was ambiguous from the start |
| `SessionClaims.FreshStoreNeverShares` | context_intelligence_server/session_claims.py:97-256 | in a store that began empty no two live claims share a queue or blob name |
| `SessionClaims.BlobWorkspaceIsOwn` | context_intelligence_server/session_claims.py:276-312 | in a store that began empty the blob lookup of a claimed session, in either spelling, equals its workspace |
| `SessionClaims.BlobWorkspaceIsUnambiguous` | context_intelligence_server/session_claims.py:276-296 | a workspace found by blob name belongs to the one committed claim with that name |
| `Chunking.Chunks` | context_intelligence_server/neo4j_store.py:1251-1309 | chunks concatenate to the rows in order, none is empty, each is within both bounds or one row, and none was closed early |
| `Chunking.OneWayToCut` | context_intelligence_server/neo4j_store.py:1251-1309 | that specification admits only one cutting |
| `GraphTraversal.Hop` | context_intelligence_server/neo4j_store.py:363-367 | a hop returns exactly the relationships from the frontier into the workspace |
| `GraphTraversal.PathStaysInside` | context_intelligence_server/neo4j_store.py:336-350 | once everything owned is expanded, no path without interior concept leaves the collected sets |
| `GraphTraversal.CollectGraphNodeIds` | context_intelligence_server/neo4j_store.py:1814-1856 | owned and owned-or-concept nodes are exactly those of the path definitions, the count is that of the relationships out of owned nodes, and each owned node is expanded once |
| `GraphTraversal.OwnedConceptIsSeed` | context_intelligence_server/neo4j_store.py:336-350 | a concept is owned only if it is a seed |
| `GraphTraversal.DeleteBatches` | context_intelligence_server/neo4j_store.py:2014-2019 | the batches together delete exactly the list |
| `GraphTraversal.DeleteSessionGraph` | context_intelligence_server/neo4j_store.py:1946-2053 | exactly the owned nodes and their relationships go, the reported numbers are right, concepts survive and both checks pass |
| `GraphFlush.NodeRowIdempotent` | context_intelligence_server/neo4j_store.py:1403-1456 | writing a node row twice is writing it once, fill-if-missing properties included |
| `GraphFlush.ProvenanceIsFinal` | context_intelligence_server/neo4j_store.py:1312-1440 | no sequence of flushes by any writers changes who created a node or where a session works, nor a status, unless some row carries one |
| `GraphFlush.Neo4jGraphStore.UpsertNode` | context_intelligence_server/neo4j_store.py:1664-1690 | later data wins, no label is lost, moved or listed twice, and no other buffered node changes |
| `GraphRestore.BufferedLikeFlushed` | context_intelligence_server/neo4j_store.py:1692-1701 | buffering a second piece of a relationship of the same type and flushing leaves what flushing both pieces in turn would have left |
| `GraphFlush.Neo4jGraphStore.WriteNodes` | context_intelligence_server/neo4j_store.py:2208-2215 | at any failure the database holds exactly the rows of the chunks that were written |
| `GraphFlush.Neo4jGraphStore.WriteEdges` | context_intelligence_server/neo4j_store.py:2224-2229 | likewise for relationships, all node rows being in |
| `GraphFlush.Neo4jGraphStore.Flush` | context_intelligence_server/neo4j_store.py:2150-2251 | success writes the whole snapshot and leaves only newer writes; failure restores every entry under newer ones |
| `GraphFlush.AttemptsAddUp` | context_intelligence_server/neo4j_store.py:2150-2251 | two attempts that stop anywhere write what one attempt at both would have written |
| `GraphFlush.FailuresThenSuccess` | context_intelligence_server/neo4j_store.py:2150-2251 | any number of failed attempts and a success end as one clean flush, if nothing is buffered meanwhile |
| `GraphRestore.RetryIsCleanIff` | context_intelligence_server/neo4j_store.py:2150-2251 | a flush stops anywhere, other writes are buffered, and the retry succeeds: the database is the one without a failure if and only if every node and every relationship buffered again misses nothing of its earlier row |
| `GraphRestore.NodeUnmissedIff` | context_intelligence_server/neo4j_store.py:1403-1456 | a node written from the later row alone equals one written from both in turn if and only if, property by property, the later row sets it, or the earlier left it as it was, or both fill in the same where nothing was; session-only properties included |
| `GraphRestore.EdgeUnmissedIff` | context_intelligence_server/neo4j_store.py:1503-1530 | the same for a relationship |
| `GraphRestore.RetryCanLoseAProperty` | context_intelligence_server/neo4j_store.py:2242-2251 | a failing flush and retry that lose a property of a node |
| `GraphRestore.RetryCanLoseTheWorkingDir` | context_intelligence_server/neo4j_store.py:2242-2251 | they lose the directory of any new session whose later row does not fill in the same |
| `GraphRestore.RetryCanLoseARelationship` | context_intelligence_server/neo4j_store.py:2242-2251 | they lose a whole relationship when the pair is buffered again with another type |
| `PruneScheduler.ScheduledRun.Observe` | context_intelligence_server/retention_scheduler.py:173-181 | only a valid job of the owned identity is taken over, and a confirmation is never withdrawn |
| `PruneScheduler.ScheduledRun.CleanUp` | context_intelligence_server/retention_scheduler.py:199-235 | true only if the owned job was seen to end; no request names another job |
| `PruneScheduler.ScheduledRun.OwnPreview` | context_intelligence_server/retention_scheduler.py:258-273 | one preview request; ownership only from a valid reply for this age and root; refusal is a busy skip |
| `PruneScheduler.ScheduledRun.AwaitReady` | context_intelligence_server/retention_scheduler.py:274-280 | ends without problem only on a ready, clean, unexpired, unconfirmed preview |
| `PruneScheduler.ScheduledRun.FinishDryRun` | context_intelligence_server/retention_scheduler.py:281-291 | success only if the owned job was seen cancelled and unconfirmed |
| `PruneScheduler.ScheduledRun.Prune` | context_intelligence_server/retention_scheduler.py:292-310 | one start; success only on a clean confirmed completion |
| `PruneScheduler.ScheduledRun.RunScheduled` | context_intelligence_server/retention_scheduler.py:133-335 | against all replies: at most one preview and one start, the start right after a startable preview; exit code 0 only as busy skip, cancelled dry run or clean completion; a failed owner saw its job end or says it is unconfirmed |
| `IdentityStore.IdentityMap.RebuildFlat` | context_intelligence_server/identity_store.py:381-391 | the served map is rebuilt as the projection |
| `IdentityStore.IdentityMap.Load` | context_intelligence_server/identity_store.py:189-252 | state and answer for a good, corrupt, absent, unreadable or lost file |
| `IdentityStore.IdentityMap.WriteAtomic` | context_intelligence_server/instance_lock.py:338-373 | file and latch after each of the ends of a replacement |
| `IdentityStore.IdentityMap.Put` | context_intelligence_server/identity_store.py:254-271 | file first, then memory; nothing else on failure |
| `IdentityStore.IdentityMap.Delete` | context_intelligence_server/identity_store.py:273-286 | file first, then memory; nothing else on failure |
| `IdentityStore.IdentityMap.Seed` | context_intelligence_server/identity_store.py:307-328 | file first, then memory; nothing else on failure |
| `IdentityStore.PatchedProjection` | context_intelligence_server/identity_store.py:254-286 | patching the served map at one key gives the projection of the patched store |
| `IdentityStore.BothOrNeitherOrLatched` | context_intelligence_server/identity_store.py:254-328 | from agreement a change reaches both file and memory, or neither, or latches with nothing served |
| `IdentityStore.AgreesOrLatched` | context_intelligence_server/identity_store.py:254-363 | after any run in service file and memory agree or the store is latched and serves nothing |
| `IdentityStore.LatchedStaysPut` | context_intelligence_server/identity_store.py:345-363 | a latched store changes nothing until stopped or attached anew |
| `IdentityStore.FileHoldsAcknowledged` | context_intelligence_server/identity_store.py:254-363 | after any run in service memory is the acknowledged changes replayed, and the file that or one change ahead, one whose end was not certain |
| `IdentityStore.RestartServesAcknowledged` | context_intelligence_server/identity_store.py:114-252 | after any run in service, stop, attach and load restore agreement and serve what was acknowledged, exactly so if the store was not latched |
| `IdentityStore.StepKeepsInvIff` | context_intelligence_server/identity_store.py:114-119 | every step keeps the served map right, except an attach, which does if and only if the store is not latched over stored identities |
| `IdentityStore.ServedIsProjection` | context_intelligence_server/identity_store.py:133-391 | in every orderly run the served map is the projection of the stored map, or empty when latched |
| `IdentityStore.AttachWithoutStopForgets` | context_intelligence_server/identity_store.py:114-119 | the run in which a second attach serves less than is stored |

## Left out

- GraphFlush.Neo4jGraphStore.WritePatches: says nothing about labels, because the database model holds properties only; label patches on terminal labels are not idempotent under retry.
- GraphFlush.Neo4jGraphStore.Flush: writes rows in any order, so the global lock order by sorted key is not captured; the results are proved for every order.
- PruneScheduler.ScheduledRun.RunScheduled: does not say which error code is reported.
- BlobPrune.Prune.Scan: does not model the online scan's change-time bound or its directory cookies.
- DurableQueue.QueueFile.Commit: the offset file's temporary name and rename are one step.
- Native recovery: receipts that hold a claim lease, origins in the legacy form, the migration of overlong worker keys, and the use of the raw session id in operator quarantine.
- Power loss of queue appends, which are not synced, and half-written appends across a crash.
- SHA-256 is any function to 64 hexadecimal digits, JSON encoding and regular expressions are not modelled, and text has no lone surrogates.
- File identity checks, symbolic links and lock files: a check may fail at any time and end the run, but the blob root, once locked, is changed by nobody else during a prune, and no directory vanishes in it.
- Only POSIX file names: a backslash is an ordinary character on disk.
- Blob URIs are ranks in the ledger's key order in `BlobPrune`, and strings in `BlobAddress` and `BlobStore`.
- Listing, sizing, dumping and deleting whole blob sessions.
- Waiting and timeouts: the lease and the guards are proved safe and free of overtaking, not live.
- Validation of single fields of a server reply, clocks and budgets: a reply validates or not, and a deadline may pass at any request.
- The unmanaged identity store, which has no lock, and the sidecar checks behind ownership.
- Queue statistics, purging of dead letters, spool reclaim and key migration beyond the guard protocol.
- Graph schema creation, temporal conversion, property sanitizing, queries and retries inside the database driver.
- HTTP routes, authentication, configuration, command line, event handlers, `idempotency.py`, `deletion.py` and `ownership.py`.
