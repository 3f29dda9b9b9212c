# A verified model of the document vault

The vault keeps encrypted documents for several tenants. It has a database (documents, versions, storage
rows, legal holds, retention policies, share links, an append-only audit table), a bucket of blobs, request
handlers and Celery tasks. Every repository or storage call opens its own session and commits
(`src/infrastructure/database/session.py:53-60`), so one such call is one atomic step, here a `Write`.

The project has two layers.

- **Values.** `Vault.State` is the database and the bucket. Each request has a plan: the writes it makes in
  order, and its answer. A run is a list of calls, and each call may stop after any number of its writes.
  Properties of single plans and of all runs are lemmas.
- **Objects.** `Repositories.Store`, the entity classes, `DocumentService`, the handlers and the task loops
  change fields in place, step by step, as the original does. Each method is proved to make exactly the
  writes of its plan, in order, and to give its answer. `Steps.EveryPointIsACrash` says that every point of
  a method's journal is then a state of the runs above.

Three regimes are used, and each result below belongs to one of them:

- *atomic*: requests run one at a time and complete;
- *crash*: requests run one at a time, and any of them may stop between two writes;
- *interleaved*: the steps of any number of requests mix (`AuditRace`, `ShareRace`, `VaultRace`, `DocumentRace`).
  In `VaultRace` uploads and packages run step by step beside each other; every write of any other request may be
  decided on rows, hold lists and last hashes read at different earlier points.

Where interleaving breaks a property, the failing run is shown, and the property is proved to hold exactly under a
condition on single steps: an insert whose draft still names the last hash, a write-back whose copy holds the
current count, no write by a download that read before a revocation, no write-back of a copy read before the
document was published, no flag cleared on what was read before, no write-back without the policy.

A request takes several readings of the clock (`Vault.Clock`); nothing is assumed of how they relate.

A reader can start with `Vault.dfy` (state, writes, plans, runs), then `Safety.dfy` (the invariant and what
a safe write is), `Requests.dfy` (every plan is safe) and the `...Theorems.dfy` files. `CanonicalJson.dfy`,
`JsonText.dfy`, `IntegrityChain.dfy` and `ObjectKeys.dfy` stand on their own. `Outcomes.dfy` and `TaskOutcomes.dfy` say
what each operation does to the tables without naming what the plans build.

| file | subject |
|---|---|
| `CanonicalJson.dfy`, `JsonText.dfy` | the text of `json.dumps(..., sort_keys=True)`; a reader of RFC 8259 that pins it, and what it determines |
| `IntegrityChain.dfy`, `AuditTable.dfy`, `AuditRace.dfy` | the hash chain, the audit queries, interleaved writers |
| `ObjectKeys.dfy`, `Entities.dfy` | bucket keys; rows and the decisions of the domain entities |
| `Vault.dfy`, `Safety.dfy`, `Requests.dfy`, `Progress.dfy` | state, plans and runs; the invariant; what later states keep |
| `ContentTheorems.dfy`, `HoldTheorems.dfy`, `RetentionTheorems.dfy`, `ChainTheorems.dfy`, `StorageTheorems.dfy`, `ShareTheorems.dfy`, `Isolation.dfy` | results over runs |
| `LifecycleTheorems.dfy`, `Tallies.dfy` | requests that undo one another; counting lemmas |
| `Outcomes.dfy`, `TaskOutcomes.dfy` | what each request and task leaves and answers, column by column, on any state |
| `ShareRace.dfy` | a share link under interleaving |
| `VaultRace.dfy`, `DocumentRace.dfy` | the whole vault under interleaving; content, holds and retention of documents in it |
| `Repositories.dfy`, `Service.dfy`, `Handlers.dfy`, `Tasks.dfy`, `Steps.dfy` | the imperative code |

Assumptions, all of them parameters or preconditions: decryption undoes encryption under the same key; the
HMAC yields 64 hexadecimal digits (nothing more: results that need it to be collision free name the two
colliding messages instead); identifiers drawn by `uuid4`, the one inside a package key among them, and share tokens are new; a query without
ORDER BY lists its rows once each in any order; JSON objects have distinct keys; `token_hash` is unique, as
the schema declares.

Where the code and its documentation differ, the model follows the code:

- `README.md:169` says that `Document.can_be_deleted` guards deletion. No operation calls it;
  `delete_document` has its own guard, which deletes a deleted document again. `HoldTheorems.CanBeDeletedDiffers`
  says exactly when the two disagree.
- `README.md:163` says that key rotation rewraps all data keys. `_rotate` only appends audit events
  (`StorageTheorems.RotationEffect`).
- `README.md:165` calls the chain verifiable. `verify_chain` checks each event against the predecessor hash
  the event itself stores, and never that neighbours link (`IntegrityChain.VerificationIgnoresOrder`).
  That chains do link is a theorem about serial writers (`ChainTheorems.RunsStayLinked`), and interleaved
  writers break it (`AuditRace.RacedWritersFork`), exactly when one inserts on an old last hash
  (`AuditRace.RacedTimelineLinkedIff`).
- `README.md:169` promises that holds block everything. This holds for serial runs
  (`HoldTheorems.HoldSafety`). An interleaved write-back of a stale row loses it
  (`HoldTheorems.RacedHoldIsLost`); `DocumentRace.RacedHoldsFlaggedIff` and `HeldStaysFlaggedIff` say exactly when.

## Model

| member | source | states |
|---|---|---|
| JsonText.DumpsIsTheText | src/infrastructure/crypto/integrity_chain.py:24 | The text of a payload is the one text that a strict RFC 8259 reader accepts, whose value is the payload's and whose keys ascend in every object; keys ascend as Python compares strings |
| JsonText.ReadsIffPrinted | src/infrastructure/crypto/integrity_chain.py:24 | The reader, written without the printer, accepts exactly the printed texts: separators, brackets, escapes and digits have one spelling |
| CanonicalJson.BeforeIsLess | src/infrastructure/crypto/integrity_chain.py:24 | The key order is that of Python strings: a proper prefix comes first, else the smaller code point where the two first differ |
| CanonicalJson.SortedIffAscend | src/infrastructure/crypto/integrity_chain.py:24 | Neighbouring keys in order means that all keys ascend, at every depth |
| JsonText.DumpsIffSameValue | src/infrastructure/crypto/integrity_chain.py:24 | Two payloads get the same text if and only if they are the same JSON value: the text loses nothing and ignores key order at every depth |
| CanonicalJson.SortedFormUnique | src/infrastructure/crypto/integrity_chain.py:24 | Payloads with sorted keys that denote the same value are identical, through nested objects and arrays |
| JsonText.PrintReadable | src/infrastructure/crypto/integrity_chain.py:24 | Whatever follows it, the printed text of a value can be read back in one way only: strings escaped, numbers and brackets delimited |
| IntegrityChain.MessageIffSame | src/infrastructure/crypto/integrity_chain.py:22-26 | The hashed message determines the predecessor hash (None and the empty string both read as GENESIS) and the payload value, and nothing else |
| IntegrityChain.HashIsOfTheMessage | src/infrastructure/crypto/integrity_chain.py:17-27 | The hash is that of one message: the predecessor's hash, or GENESIS where it is missing or empty, two bars, and the text that reads to the payload's value with ascending keys |
| IntegrityChain.FirstBroken | src/infrastructure/crypto/integrity_chain.py:33-40 | None exactly when every event carries its own right hash, else the first index that does not |
| IntegrityChain.IntegrityChainService.VerifyChain | src/infrastructure/crypto/integrity_chain.py:29-40 | The loop answers valid exactly when every event is authentic, and reports the first that is not |
| IntegrityChain.HashCommits | src/infrastructure/crypto/integrity_chain.py:17-27 | Equal hashes anywhere in two linked chains stand at the same position and after the same events, unless two hashed messages collide |
| IntegrityChain.HeadCommits | src/infrastructure/crypto/integrity_chain.py:17-27 | Two linked chains with the same head hash have the same length and the same events at every position up to key order, unless two of their messages collide |
| IntegrityChain.TamperedPayloadDetected | src/infrastructure/crypto/integrity_chain.py:33-39 | Rewriting one payload of a valid list is reported at that index, unless the value is the same or the messages collide |
| IntegrityChain.ReorderedKeysVerify | src/infrastructure/database/models/__init__.py:313-315 | Events read back from a column that reorders keys verify exactly as the written ones |
| IntegrityChain.VerificationIgnoresOrder | src/infrastructure/crypto/integrity_chain.py:33-40 | Verification does not look at neighbours: any selection of a valid list, in any order, is valid |
| AuditTable.InsertKeepsLinkedIff | src/application/use_cases/document_service.py:407-426 | An insert leaves the chain of its resource linked if and only if the chain was linked, the event carries its own hash and it names the last hash; no other chain notices |
| AuditTable.AppendKeepsLinked | src/application/use_cases/document_service.py:407-426 | Read last hash, hash, insert keeps the chain of every resource linked from GENESIS |
| AuditTable.TimelineRewritten | src/infrastructure/database/repositories/audit_repository.py:67-83 | Rewriting one row of the table rewrites one event of its own timeline, after those that came before it, and none of any other |
| AuditTable.IncreasingStampsFixAnswers | src/infrastructure/database/repositories/audit_repository.py:73-126 | With strictly increasing insert times, ordering by time gives the commit order and the last hash is that of the last commit |
| AuditRace.RacesStaySound | src/application/use_cases/document_service.py:407-426 | Interleaved: every stored event is authentic and names GENESIS or the hash of an event committed earlier on the same resource |
| AuditRace.RacedTimelinesVerify | src/infrastructure/database/repositories/audit_repository.py:67-83 | Interleaved: `verify_chain` accepts every timeline, under any time stamps, tie breaking and limit |
| AuditRace.EveryEventReachesGenesis | src/infrastructure/database/repositories/audit_repository.py:115-126 | Interleaved: following predecessors from any event reaches GENESIS through ever earlier rows of the same resource |
| AuditRace.RacedTimelineLinkedIff | src/application/use_cases/document_service.py:407-426 | Interleaved: after any moves the timeline of a resource is linked in commit order if and only if every event was inserted while its draft still named the last hash |
| AuditRace.RacedWritersFork | src/application/use_cases/document_service.py:407-426 | A reachable interleaving stores two first events of one resource |
| AuditRace.ForkVerifiesUnlinked | src/infrastructure/crypto/integrity_chain.py:33-40 | That forked timeline passes verification and is not linked |
| ObjectKeys.ObjectKeyInjective | src/infrastructure/storage/minio_storage.py:40-47 | Version keys are equal if and only if tenant, document, version and file name all are, for any file name |
| ObjectKeys.WatermarkKeyMeets | src/infrastructure/queue/tasks/apply_watermark_task.py:71 | A watermark key equals a version key only for the same version and the file name ending in the share suffix, hence never the key of an existing version |
| ObjectKeys.PackageKeyMeetsNoVersionKey | src/infrastructure/queue/tasks/generate_audit_package_task.py:195-198 | Package keys are disjoint from version and watermark keys |
| ObjectKeys.PackageKeyInjective | src/infrastructure/queue/tasks/generate_audit_package_task.py:195-198 | Package keys are equal if and only if all their four parts are |
| Entities.CanDelete | src/domain/entities/retention_policy.py:22-38 | In microseconds, a day being 86,400,000,000: COMPLIANCE allows deletion exactly after expiry and with permission, GOVERNANCE exactly after expiry or with permission; a refusal names the expiry |
| Entities.FirstAllowedIs | src/domain/entities/retention_policy.py:22-38 | There is a first instant at which deletion is allowed exactly where it waits for expiry, and it is creation plus the days |
| Entities.OneDayMore | src/domain/entities/retention_policy.py:22-23 | One day more in the policy delays the first allowed instant by exactly 86,400,000,000 microseconds |
| Entities.CanBeDeleted | src/domain/entities/document.py:32-41 | Allowed exactly when not already deleted and not held, a purge passing the hold |
| Entities.CanDownload | src/domain/entities/share_link.py:23-40 | Allowed exactly when not revoked, not expired and below the limit |
| Entities.RefusalIsFinal | src/domain/entities/share_link.py:35-46 | A link that refuses keeps refusing as time passes, the count grows and revocations stay |
| Safety.SafeKeepsInv | src/infrastructure/database/session.py:53-60 | Every safe single write keeps the whole invariant: holds flagged, chains linked, storage intact, keys apart, versions readable, documents and shares proper |
| Requests.UploadSafe | src/application/use_cases/document_service.py:70-142 | Every write of an upload is safe at its point: blob before row, row before version, version before publication |
| Requests.ReleaseHoldSafe | src/presentation/api/v1/legal_holds.py:87-99 | Every write of a release is safe at its point: the flag is cleared only after no active hold is left |
| Requests.PackageKeyUnused | src/infrastructure/queue/tasks/generate_audit_package_task.py:195-198 | A new identifier makes a package key that no blob has, so that no storage row names it |
| Requests.PackageSafe | src/infrastructure/queue/tasks/generate_audit_package_task.py:195-245 | A package overwrites no blob that a storage row names, and its row comes after its blob |
| Requests.WatermarkSafe | src/infrastructure/queue/tasks/apply_watermark_task.py:64-72 | A watermark never overwrites a blob that a storage row names |
| Requests.PlanSafe | src/infrastructure/database/session.py:53-60 | Every request and task writes only what is safe, at every one of its steps |
| Requests.CallSafe | src/infrastructure/database/session.py:53-60 | A call that stops anywhere leaves the invariant |
| Requests.RunKeepsInv | src/infrastructure/database/session.py:53-60 | Crash: the invariant holds in every state of every serial run |
| Progress.RunKeeps | src/infrastructure/database/repositories/document_repository.py:125-140 | Over any run rows are never lost, versions, storage rows, their blobs and policies never change, documents keep tenant, creation time and version, the audit table only grows |
| ContentTheorems.ContentReadableIffPublished | src/application/use_cases/document_service.py:194-216 | Crash: a document has readable content exactly when it has a version, with the checksum and size the version states |
| ContentTheorems.ContentIsFinal | src/application/use_cases/document_service.py:194-216 | Content once readable is the same after any run |
| Vault.PublicReadsContent | src/application/use_cases/document_service.py:202-216 | The two reading paths, written separately, return the same content or fail alike |
| ContentTheorems.DownloadAgreesWithPublic | src/application/use_cases/document_service.py:165-179 | A tenant's download answers what the public one does for its own documents, and not found for others |
| ContentTheorems.UploadRoundTrip | src/application/use_cases/document_service.py:70-131 | After an upload completes, and whatever requests and tasks follow, both downloads return exactly the uploaded bytes, name and type |
| ContentTheorems.RecomputedKeyAgrees | src/infrastructure/queue/tasks/ingest_document_task.py:51-101 | Crash: the storage row of every version holds the key a download recomputes; ingest reports integrity and decryption fine; both ways lead to the same content |
| HoldTheorems.DeleteSucceedsIff | src/application/use_cases/document_service.py:227-241 | When `delete_document` succeeds, as an if and only if in microseconds, and that it writes nothing when it fails |
| HoldTheorems.CanBeDeletedDiffers | src/domain/entities/document.py:32-41 | The unused guard agrees with `delete_document` on any document if and only if the hold stops both, or the document is already deleted exactly when the delete guard refuses |
| HoldTheorems.HeldDocumentRefusesDelete | src/application/use_cases/document_service.py:229-230 | Crash: an active hold means the flag is set and an unprivileged delete fails without a write |
| HoldTheorems.CallSparesHeldDocument | src/application/use_cases/document_service.py:229-241 | No call, stopped anywhere, deletes a held document, except a privileged purge of it |
| HoldTheorems.HoldSafety | src/presentation/api/v1/legal_holds.py:44-57 | Crash: in every reachable state an active hold implies the flag and the refusal of deletion |
| HoldTheorems.ReleasedHoldExactIff | src/presentation/api/v1/legal_holds.py:92-99 | After a completed release the flags are exact if and only if, before it, the releasing tenant owned the document, another hold was active, or the flag was not set |
| HoldTheorems.StoppedPlaceExactIff | src/presentation/api/v1/legal_holds.py:44-57 | Crash: a placement that stops after any number of writes leaves the flags exact if and only if it wrote nothing, did not stop between its two writes, or the document was already held |
| HoldTheorems.StoppedReleaseExactIff | src/presentation/api/v1/legal_holds.py:87-99 | Crash: a release that stops leaves the flags exact if and only if it wrote nothing, another hold is active, the flag was not set, or it came to its end with the owning tenant |
| HoldTheorems.CleanRunsHoldExact | src/presentation/api/v1/legal_holds.py:44-99 | In runs of complete calls whose releases come from the owning tenant, the flag is set if and only if an active hold exists |
| HoldTheorems.WriteBackKeepsHoldsIff | src/infrastructure/database/repositories/document_repository.py:125-140 | A write-back of a stale row keeps hold safety if and only if the copy is flagged or no hold is active |
| HoldTheorems.RacedHoldIsLost | src/infrastructure/database/repositories/document_repository.py:125-140 | The interleaving of an update with a placement that loses the hold: the held document is then deleted without privilege |
| HoldTheorems.MonitorCounts | src/infrastructure/queue/tasks/legal_hold_monitor_task.py:50-87 | On any state the counters are the unflagged held documents and the deletions under hold, one event is written for each of the latter, and the per-tenant counts sum to the holds whose document exists |
| HoldTheorems.MonitorTenantCounts | src/infrastructure/queue/tasks/legal_hold_monitor_task.py:58 | The count of each tenant is the number of active holds on its documents |
| HoldTheorems.MonitorIsExact | src/infrastructure/queue/tasks/legal_hold_monitor_task.py:43-102 | Over all active holds, in any order: exactly the holds on unflagged documents and the holds on deleted ones are counted |
| HoldTheorems.MonitorEffect | src/infrastructure/queue/tasks/legal_hold_monitor_task.py:60-84 | The chain of a deleted document grows by one event per active hold on it, and no other chain changes |
| HoldTheorems.MonitorFindsNothing | src/infrastructure/queue/tasks/legal_hold_monitor_task.py:50-102 | Crash: the monitor reports zero inconsistent holds and its counts sum to all active holds |
| RetentionTheorems.ComplianceOutlastsRuns | src/domain/entities/retention_policy.py:22-38 | Crash: a live document under COMPLIANCE survives every run that ends before its expiry, and every run at all if deletion after expiry is not permitted, barring a purge or another policy |
| RetentionTheorems.UploadOutlastsRuns | src/application/use_cases/document_service.py:95-131 | Crash: a document uploaded under COMPLIANCE stays live under the policy its request named, and no unprivileged delete goes through, in every run that ends before the policy allows it and neither purges nor re-applies |
| RetentionTheorems.UnlockedComplianceDeletes | src/application/use_cases/document_service.py:232-241 | The lock is exact: an unheld document is deleted on request if and only if it is not locked |
| RetentionTheorems.ScanAgreesWithDelete | src/infrastructure/queue/tasks/retention_expiry_scan_task.py:68-84 | The scan calls a document eligible if and only if it has expired and an unprivileged delete at that instant succeeds |
| RetentionTheorems.ScanCounts | src/infrastructure/queue/tasks/retention_expiry_scan_task.py:68-110 | The three counters count what their names say; expired is blocked plus eligible plus locked; one event per eligible row |
| RetentionTheorems.ScanIsExact | src/infrastructure/queue/tasks/retention_expiry_scan_task.py:58-110 | Over all rows of the join, in any order: exactly the expired live documents, the held ones among them, and those neither held nor locked |
| RetentionTheorems.ScanNotes | src/infrastructure/queue/tasks/retention_expiry_scan_task.py:87-110 | The chain of each eligible document grows by exactly one event about it, and no other chain changes |
| RetentionTheorems.ScanEffect | src/infrastructure/queue/tasks/retention_expiry_scan_task.py:47-122 | Both of the above for the rows the scan's own query lists |
| ChainTheorems.ReportIs | src/application/use_cases/document_service.py:368-385 | On any state `verify_integrity` reports the length of the timeline, 10000 at most, and exactly the first event within it whose hash is not its own |
| ChainTheorems.RewriteIsReported | src/application/use_cases/document_service.py:368-385 | A payload rewritten in the table of a document reported valid is reported at its position, if that is below 10000, unless the value is the same or the messages collide |
| ChainTheorems.RunsStayLinked | src/application/use_cases/document_service.py:362-426 | Crash: after any run of the service and all tasks every chain is linked from GENESIS, the last hash is its head, and `verify_integrity` reports the length of the timeline, 10000 at most, and nothing broken |
| ChainTheorems.LastHashCommitsToRun | src/application/use_cases/document_service.py:407-408 | Two runs that leave the same last hash of a resource leave the same history of it, or two messages collide |
| StorageTheorems.CheckCounts | src/infrastructure/queue/tasks/storage_consistency_check_task.py:35-49 | On any state the check counts the rows without a blob, the per-tenant counts sum to them, and there are none if and only if every listed row has its blob |
| StorageTheorems.CheckTenantCounts | src/infrastructure/queue/tasks/storage_consistency_check_task.py:41-42 | The count of each tenant is the number of its rows without a blob |
| StorageTheorems.CheckIsExact | src/infrastructure/queue/tasks/storage_consistency_check_task.py:32-49 | Over all storage rows, in any order: exactly the rows without a blob are counted, in total and of each tenant |
| StorageTheorems.RotationEffect | src/infrastructure/queue/tasks/rotate_keys_task.py:46-70 | Rotation adds one event to the chain of every storage row and changes nothing else |
| StorageTheorems.NoGhosts | src/infrastructure/queue/tasks/storage_consistency_check_task.py:35-49 | Crash: every storage row of every reachable state has its blob with the recorded checksum and size, and the check reports no ghost |
| StorageTheorems.FailedUploadLeavesBlob | src/application/use_cases/document_service.py:77-111 | An upload that names an unknown policy fails and leaves exactly one blob and one storage row more; every other table is as it was, and no ghost appears |
| StorageTheorems.UnusedForEver | src/application/use_cases/document_service.py:113-127 | Crash: a storage row that no version uses is used by no version in any later run |
| StorageTheorems.FailedUploadIsNeverUsed | src/application/use_cases/document_service.py:77-127 | Crash: the storage row that a failed upload leaves is used by no version in any run that follows |
| LifecycleTheorems.RestoreUndoesDeleteIff | src/domain/entities/document.py:43-51 | Deleting then restoring brings the row back exactly when the document was active; nothing else but the audit table changes, and its content is served throughout |
| LifecycleTheorems.ReleaseUndoesPlaceIff | src/presentation/api/v1/legal_holds.py:44-99 | After placing and releasing a hold the flag is set if and only if another hold is active, and is back to what it was if and only if it was exact before |
| ShareTheorems.FailedDownloadCostsNothing | src/presentation/api/v1/shares.py:114-132 | A shared download writes if and only if it serves content |
| ShareTheorems.SharedDownloadSucceedsIff | src/presentation/api/v1/shares.py:114-132 | It serves if and only if the link allows it and the document has content, and then serves what the public download does |
| ShareTheorems.CountsAreExact | src/presentation/api/v1/shares.py:114-132 | Atomic: the stored count grows by exactly the completed downloads and stays within the limit |
| ShareTheorems.RevokedIff | src/presentation/api/v1/shares.py:91-101 | Atomic: a link is revoked if and only if it was, or a request of the run revoked it |
| ShareTheorems.CreatedShareServesIff | src/presentation/api/v1/shares.py:54-132 | Atomic: from its creation on, at most the requested number of downloads complete, and the token serves if and only if nobody revoked it, the requested expiry is ahead, the document has content and fewer downloads than requested completed |
| ShareTheorems.RefusedForEver | src/domain/entities/share_link.py:35-40 | A link that refuses once refuses every later download of any run |
| ShareTheorems.RevokedRefuses | src/presentation/api/v1/shares.py:96-101 | A revoked link refuses at any later time |
| ShareRace.RacedCountsBounded | src/presentation/api/v1/shares.py:114-132 | Interleaved: the stored count never exceeds the limit nor the number of completed downloads |
| ShareRace.WriteExactIff | src/infrastructure/database/repositories/__init__.py:90-100 | A write-back, of a download or of a revocation, keeps an exact count exact if and only if its copy holds the current count |
| ShareRace.CountsExactIff | src/presentation/api/v1/shares.py:91-132 | Interleaved: the count equals the completed downloads at every point if and only if every write-back of either kind comes from a copy with the current count |
| ShareRace.DownloadsAreCountedOrLost | src/presentation/api/v1/shares.py:91-132 | Interleaved: completed downloads are the stored count plus what stale write-backs lost |
| ShareRace.ServedWithinLimitIff | src/presentation/api/v1/shares.py:121-132 | Interleaved: the downloads served stay within the limit at every point if and only if the write of each download finds room for one more in the row, what was lost before counted in |
| ShareRace.CurrentCountsKeepLimit | src/presentation/api/v1/shares.py:121-132 | Interleaved: while every write-back is current the downloads served stay within the limit, and the room the next write must find is what the row itself shows |
| ShareRace.WriteWithinLimitIff | src/presentation/api/v1/shares.py:121-132 | With an exact count, a download stays within the limit if and only if the row, not the copy, still leaves one when it is written |
| ShareRace.WriteKeepsRevocationIff | src/infrastructure/database/repositories/__init__.py:96-97 | A download's write-back leaves a revocation as it is if and only if its copy has it; every other step leaves the link revoked |
| ShareRace.RevokedReadStops | src/presentation/api/v1/shares.py:114-125 | Interleaved: a download that reads a link while it is revoked never gets past its check |
| ShareRace.RevocationSurvivesIff | src/presentation/api/v1/shares.py:91-132 | Interleaved: a revocation survives if and only if no download that read the link before it writes after it |
| ShareRace.LimitOverrun | src/presentation/api/v1/shares.py:121-132 | A reachable interleaving serves a one-download link twice and counts one |
| ShareRace.RevocationUndone | src/infrastructure/database/repositories/__init__.py:96-97 | A reachable interleaving in which a download's write-back clears a revocation |
| VaultRace.PlanDecides | src/application/use_cases/document_service.py:157-360 | Every write of every request and task but uploads, packages and watermarks is one that the rows read decide, on any state at all |
| VaultRace.AppendDecided | src/application/use_cases/document_service.py:407-426 | An event about a row read at one point may be chained on the last hash read at any other, and is still such a write |
| VaultRace.FlightStepForeign | src/infrastructure/storage/minio_storage.py:40-47 | No write of an upload or package touches what another one on its way drew |
| VaultRace.DecidedIsLoose | src/infrastructure/database/repositories/document_repository.py:125-140 | A write decided on any earlier rows and hold lists leaves stored content and authenticity alone when it is made later |
| VaultRace.MarkIsLoose | src/infrastructure/queue/tasks/apply_watermark_task.py:48-72 | A watermark of content read earlier lands on no storage row's blob |
| VaultRace.RacedContentSurvives | src/infrastructure/database/session.py:53-60 | Interleaved: with any number of uploads, packages, watermarks, tasks and other requests mixing and stopping anywhere, every storage row keeps its blob, keys stay apart, versions stay readable, events authentic, every upload on its way finds what it stored, and stored rows stay as they were |
| DocumentRace.WriteBackServesIff | src/infrastructure/database/repositories/document_repository.py:130-139 | A write-back leaves the content of a document readable if and only if its copy has a version, and the same if it has the same version |
| DocumentRace.RacedContentServedIff | src/application/use_cases/document_service.py:194-216 | Interleaved: a document published at some point is served from there on if and only if no later write-back comes from a copy read before that point, when it had no version |
| DocumentRace.UploadUnpublished | src/application/use_cases/document_service.py:99-131 | A run of an upload and an update: the update reads between insert and publication, the upload completes and is served, the update commits, and the document is not found |
| DocumentRace.WriteKeepsHoldsFlaggedIff | src/presentation/api/v1/legal_holds.py:44-57 | A single write keeps every active hold flagged if and only if it clears no flag of a held document and activates no hold on an unflagged one |
| DocumentRace.RacedHoldsFlaggedIff | src/presentation/api/v1/legal_holds.py:44-99 | Interleaved: every active hold is flagged at every point if and only if every move's write meets that condition |
| DocumentRace.DeleteKeepsFlagsIff | src/application/use_cases/document_service.py:229-241 | Interleaved: the write of an unprivileged delete meets that condition if and only if the document has no active hold when it is made |
| DocumentRace.HeldStaysFlaggedIff | src/presentation/api/v1/legal_holds.py:44-99 | Interleaved: a flagged document stays flagged while a hold is active if and only if nothing clears the flag on a row or a hold list read before |
| DocumentRace.RacedRetainedIff | src/presentation/api/v1/retention.py:102-115 | Interleaved: a live document under a policy stays so if and only if no write-back comes from a copy without the policy or deletes it |
| DocumentRace.AppliedPolicyIsDetached | src/presentation/api/v1/retention.py:102-115 | An update read before a policy was applied and committed after it detaches the policy, and an unprivileged delete then succeeds |
| Outcomes.UploadLeavesRows | src/application/use_cases/document_service.py:70-142 | A completed upload leaves the document with everything the request says of it, the policy included, one version, the file encrypted under its own key, one event, and nothing else; it completes unless the policy is unknown |
| Outcomes.PublicDownloadTells | src/application/use_cases/document_service.py:194-216 | On any state: which row or blob is missing, else exactly what the blob under the recomputed key decrypts to |
| Outcomes.DownloadLeavesEvent | src/application/use_cases/document_service.py:157-192 | A download that serves leaves one event naming the version; one that does not leaves nothing |
| Outcomes.DeleteLeavesRow | src/application/use_cases/document_service.py:218-252 | Refusals in order: another tenant, a hold, the policy, each with its error and no write; else the status alone changes, with one event saying whether it was a purge |
| Outcomes.RestoreLeavesRow | src/application/use_cases/document_service.py:254-277 | A deleted document becomes active, any other is refused; one event |
| Outcomes.UpdateLeavesRow | src/application/use_cases/document_service.py:334-360 | Exactly the named columns hold the requested values, and the event records them and no other |
| Outcomes.PlaceHoldLeavesRows | src/presentation/api/v1/legal_holds.py:44-57 | Another tenant is told not found and nothing is written; else the flag is set and one active hold with the caller and the reason is added |
| Outcomes.ReleaseHoldLeavesRows | src/presentation/api/v1/legal_holds.py:81-99 | The hold becomes inactive in any case; the flag is cleared exactly if no other hold is active and the tenant owns the document; the error of a foreign tenant comes after the first write |
| Outcomes.ApplyPolicyLeavesRow | src/presentation/api/v1/retention.py:109-114 | Another tenant or an unknown policy is told so and nothing is written; else the policy is attached |
| Outcomes.CreateShareLeavesRow | src/presentation/api/v1/shares.py:54-82 | The link that the token finds is on the requested document with the requested expiry, limit, password hash and watermark flag, count zero and no revocation |
| Outcomes.RevokeShareLeavesRow | src/presentation/api/v1/shares.py:91-101 | The revocation time alone changes; an unknown link is told so |
| Outcomes.SharedDownloadLeavesCount | src/presentation/api/v1/shares.py:114-132 | Revoked or expired is told apart from exhausted, neither writes; else the answer is the public download's and one is counted exactly if it serves |
| TaskOutcomes.MonitorWritesAlarms | src/infrastructure/queue/tasks/legal_hold_monitor_task.py:57-84 | One alarm for each hold on a deleted document, in row order, naming the hold and the issue |
| TaskOutcomes.ScanWritesNotes | src/infrastructure/queue/tasks/retention_expiry_scan_task.py:80-110 | One note for each eligible row, in row order, naming the policy, its mode and the expiry date |
| TaskOutcomes.RotationWritesNotes | src/infrastructure/queue/tasks/rotate_keys_task.py:46-83 | One note for each storage row, in row order, naming the key and whether the run was dry |
| TaskOutcomes.IngestTells | src/infrastructure/queue/tasks/ingest_document_task.py:46-101 | On any state: which row is missing, else integrity is fine if and only if the checksums agree, and decryption if and only if the blob decrypts |
| TaskOutcomes.StoredContentIs | src/infrastructure/queue/tasks/apply_watermark_task.py:48-66 | On any state: which row or blob is missing, else exactly what the blob decrypts to |
| TaskOutcomes.WatermarkLeavesBlob | src/infrastructure/queue/tasks/apply_watermark_task.py:64-72 | One blob beside the original, which opens to the stamped pages under the same data key, and nothing else |
| TaskOutcomes.SignatureLeavesRow | src/infrastructure/queue/tasks/verify_signature_task.py:56-159 | One record with all that was found, one event about the version naming the record, its status and its kind, and nothing else |
| TaskOutcomes.PackageListsAll | src/infrastructure/queue/tasks/generate_audit_package_task.py:69-130 | The versions and signatures of a package are those of the document, all of them and no other |
| TaskOutcomes.PackageLeavesArchive | src/infrastructure/queue/tasks/generate_audit_package_task.py:69-245 | The archive holds the row, the versions, the signatures and the whole timeline; its event says valid if and only if every event carries its own hash, and how many there are |
| Isolation.RemovingATenant | src/application/use_cases/document_service.py:387-393 | Crash: running without a tenant's service calls equals running with them and erasing that tenant's rows, blobs and chains |
| Isolation.RunsDifferInTenantOnly | src/application/use_cases/document_service.py:387-393 | From one state, the run without the tenant's calls is a proper run and differs in that tenant's things only |
| Isolation.OtherTenantsNotice | src/infrastructure/database/repositories/document_repository.py:60-68 | Another tenant's next answer, rows, content, chains and integrity reports are the same whether or not the calls were made |
| Steps.EveryPointKeepsInv | src/infrastructure/database/session.py:53-60 | Safe writes pass only through states with the invariant |
| Steps.EveryPointIsACrash | src/infrastructure/database/session.py:53-60 | Every point of the journal of a method that follows its plan is the state of a call stopped there, and the invariant holds in it |
| Repositories.Document.SoftDelete | src/domain/entities/document.py:43-45 | Sets the status and the update time and nothing else |
| Repositories.Document.Restore | src/domain/entities/document.py:47-51 | Succeeds exactly on deleted documents; changes nothing otherwise |
| Repositories.LegalHold.Release | src/domain/entities/retention_policy.py:52-54 | Deactivates the hold and stamps it, and nothing else |
| Repositories.ShareLink.Revoke | src/domain/entities/share_link.py:42-43 | Stamps the revocation and nothing else |
| Repositories.ShareLink.IncrementDownload | src/domain/entities/share_link.py:45-46 | Adds one to the count and changes nothing else |
| Repositories.Store.UpdateDocument | src/infrastructure/database/repositories/document_repository.py:125-147 | Writes back every changeable column from the entity, however stale; fails where the row is gone |
| Repositories.Store.CreateDocument | src/infrastructure/database/repositories/document_repository.py:105-123 | Inserts the row unless it names an unknown policy, and then changes nothing |
| Repositories.Store.ListActiveByDocument | src/infrastructure/database/repositories/__init__.py:197-205 | Lists exactly the active holds of the document, and nothing if and only if it has none |
| Repositories.Store.GetByTokenHash | src/infrastructure/database/repositories/__init__.py:73-79 | The one share with that token hash, or nothing if there is none |
| Repositories.Store.UpdateShare | src/infrastructure/database/repositories/__init__.py:90-100 | Writes back the count and the revocation and no other column |
| Repositories.Store.UpdateHold | src/infrastructure/database/repositories/__init__.py:207-217 | Writes back the activity and the release time and no other column |
| Repositories.Store.CreateSignature | src/infrastructure/database/repositories/signature_repository.py:38-60 | Inserts one signature record of an existing version, with its signer, certificate and report columns |
| Repositories.Store.WriteAudit | src/application/use_cases/document_service.py:395-426 | Appends exactly one event, hashed over the last hash of its resource |
| Service.DocumentService.UploadDocument | src/application/use_cases/document_service.py:58-155 | Makes the writes of the upload plan in order, with its answer, the foreign key failure included |
| Service.DocumentService.DownloadDocument | src/application/use_cases/document_service.py:157-192 | Answers the content and appends one event, or fails and writes nothing |
| Service.DocumentService.DownloadPublic | src/application/use_cases/document_service.py:194-216 | The content of a document without a tenant check; writes nothing |
| Service.DocumentService.DeleteDocument | src/application/use_cases/document_service.py:218-252 | Makes the writes of the delete plan in order, with its answer |
| Service.DocumentService.RestoreDocument | src/application/use_cases/document_service.py:254-277 | Makes the writes of the restore plan in order, with its answer |
| Service.DocumentService.UpdateDocument | src/application/use_cases/document_service.py:322-360 | Makes the writes of the update plan in order, with its answer |
| Service.DocumentService.VerifyIntegrity | src/application/use_cases/document_service.py:362-385 | The length and the first broken index of the document's first ten thousand events, to its own tenant only |
| Handlers.PlaceLegalHold | src/presentation/api/v1/legal_holds.py:38-60 | Sets the flag, then inserts the hold, as its plan says |
| Handlers.ReleaseLegalHold | src/presentation/api/v1/legal_holds.py:81-102 | Releases the hold, then clears the flag if no active hold is left, as its plan says; a foreign tenant's last release fails after the first write |
| Handlers.ApplyRetentionPolicy | src/presentation/api/v1/retention.py:102-115 | Attaches the policy, as its plan says |
| Handlers.CreateShareLink | src/presentation/api/v1/shares.py:54-82 | Inserts the link with its terms, its password hash and watermark flag among them, and count zero, as its plan says |
| Handlers.RevokeShareLink | src/presentation/api/v1/shares.py:91-101 | Revokes the link, as its plan says |
| Handlers.PublicShareDownload | src/presentation/api/v1/shares.py:108-140 | Check, serve, count, as its plan says |
| Tasks.MonitorLegalHolds | src/infrastructure/queue/tasks/legal_hold_monitor_task.py:32-102 | On any state: the numbers of active holds, of those on unflagged and of those on deleted documents, the tallies, and the appended events; with flagged holds nothing is inconsistent |
| Tasks.ScanRetentionExpiry | src/infrastructure/queue/tasks/retention_expiry_scan_task.py:35-122 | The loop's counters and appended events over the joined rows; expired is blocked plus eligible plus locked; one event per eligible document |
| Tasks.RotateKeys | src/infrastructure/queue/tasks/rotate_keys_task.py:33-73 | One event per storage row, and no change outside the audit table |
| Tasks.CheckStorageConsistency | src/infrastructure/queue/tasks/storage_consistency_check_task.py:26-49 | On any state: exactly the number of storage rows without a blob, in total and of each tenant |
| Tasks.CollectBundle | src/infrastructure/queue/tasks/generate_audit_package_task.py:69-192 | A package holds the document row, each version and signature once, the whole timeline, and says valid exactly when every event of it is authentic |
| Tasks.GenerateAuditPackage | src/infrastructure/queue/tasks/generate_audit_package_task.py:69-248 | Blob of that bundle, storage row and audit event in order, as its plan says; a missing document writes nothing |
| Tasks.IngestDocument | src/infrastructure/queue/tasks/ingest_document_task.py:39-101 | The report, and that on a state of a serial run it is always integrity and decryption fine |
| Tasks.ReadStored | src/infrastructure/queue/tasks/apply_watermark_task.py:48-66 | The content and key behind a version's storage row, each failure told apart |
| Tasks.ApplyWatermark | src/infrastructure/queue/tasks/apply_watermark_task.py:37-75 | Adds one blob under the derived key, as its plan says |
| Tasks.VerifySignature | src/infrastructure/queue/tasks/verify_signature_task.py:56-159 | Inserts the signature record, then appends one event about the version, as its plan says |

## Left out

- AuditTable.IncreasingStampsFixAnswers: strictly increasing insert times are an assumption of the serial results, because the database stamps rows itself and ties are possible
- Tasks.VerifySignature: the verifier itself; its whole finding, from which every column is filled, is an input
- Tasks.GenerateAuditPackage: the zip file is an abstract function of the bundle it holds
- Tasks.ApplyWatermark: stamping the pages is an abstract function of the content and the text
- Repositories.Store.CreateVersion: foreign keys other than the two that requests can fail (policy of a document, document of a share) are preconditions
- Repositories.Store.GetById: sessions, eager loading and list paging; an entity is a fresh copy of one row
- RetentionTheorems.ComplianceOutlastsRuns: dates are unbounded integers, so the overflow that very long retention periods cause in the original is absent
- Column widths, among them the 128 characters of `encryption_key_id`, which a wrapped data key exceeds
- HMAC, SHA-256, Fernet and token hashing are functions with the assumptions named above
- UTF-8: text is a sequence of characters, so lone surrogates do not fail to encode
- Floats and non-string keys in audit payloads, which the printer and JSONB may spell differently
- The order of keys in the update payload, which no hash depends on
- Event identifiers, IP addresses, user agents and trace identifiers of audit rows
- Password hashing, the password check that no request makes, and presigned URLs
- Bucket name, storage class, retries of the MinIO client, and `delete_object`, which nothing in the repository calls
- Prometheus counters and gauges
- Roles, login, sessions, DTO validation, exception mapping, headers, logging and list endpoints
- VaultRace.RacedContentSurvives: identifiers that different requests draw differ by assumption, and one share's count and revocation under interleaving are in `ShareRace`, with linked chains in `AuditRace`
