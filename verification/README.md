# Verified model of the proxy's stateful components

This project models, in Dafny, the parts of the DeltaGlider proxy whose
guarantees are about whole runs: the multipart upload store and its completion
registry, the config database sync, the event outbox with its dispatchers and
listeners, replication cycle detection, the authentication rate limiter, the
pagination machine of the background jobs, and the bucket usage counter.

Each component has the same shape. The operations are functions on values. Where
the source updates an object in place, a class with the same fields and the same
loops is proved method by method against those functions. Where requests, tasks
and sweepers interleave, a step machine has one step per section that holds a
lock (or per exchange with a server), and the theorems speak about every state of
every run of that machine. Clocks are integers given to the steps.

| files | component |
|---|---|
| `Common.dfy` | saturating and wrapping 64-bit arithmetic, sums over maps |
| `MultipartModel.dfy`, `MultipartStore.dfy` | the store and registry on values, and as a class |
| `MultipartSystem.dfy` | requests, completion tasks and sweepers as steps |
| `MultipartAccounting.dfy`, `MultipartProtocol.dfy`, `MultipartRetries.dfy`, `MultipartRelay.dfy`, `MultipartGuards.dfy`, `MultipartAssembly.dfy`, `MultipartRequests.dfy` | invariants and theorems over runs, and what requests are answered with |
| `MultipartTimely.dfy`, `MultipartSweeps.dfy`, `MultipartRestarts.dfy` | where their premises come from, and runs outside them |
| `ConfigSync.dfy`, `ConfigSyncRemote.dfy`, `ConfigSyncDelivery.dfy`, `ConfigSyncOrigin.dfy`, `ConfigSyncIam.dfy`, `ConfigSyncNode.dfy` | the sync machine, its theorems, and one node as a class |
| `Outbox.dfy`, `OutboxQueries.dfy`, `OutboxStore.dfy`, `OutboxSystem.dfy` | the outbox on values, what its queries return, as a class, and as a machine |
| `OutboxListeners.dfy`, `OutboxLosses.dfy`, `OutboxDelivery.dfy`, `OutboxAttempts.dfy`, `OutboxWaits.dfy`, `OutboxSole.dfy`, `OutboxRepeats.dfy` | theorems over runs, and runs outside their premises |
| `ReplicationCycles.dfy`, `RateLimiter.dfy`, `Pager.dfy`, `BucketUsage.dfy` | one component each |

## Premises

Some guarantees hold only under a condition the code does not enforce. The
conditions follow; lemmas show what each rules out and what a run that breaks it
loses.

- Multipart retries (`MultipartRetries.Benign`): no prune drops the in-flight
  slot of the upload for its age, and the task that finished the upload does not
  die before it has published. `AgedSlotRestarts` and `CrashedPublisherRestarts`
  show that otherwise an identical Complete becomes an owner again, and
  `StalledPublisherRestarts` and `DeadPublisherRestarts` are runs in which that
  happens to a finished upload.
- Multipart disk (`MultipartTimely.Timely`, for one upload): no promotion of the
  upload stops after its directory was made, and a scan that decides about the
  directory while the upload is tracked does so within its minimum age from its
  snapshot. `UncleanInTwoWaysOnly` shows that without these two no scan ever
  condemns the directory of the tracked upload, which is what the weaker premise
  `MultipartRelay.Clean` says (`CleanExactlyWhenUntracked`).
  `HalfPromotionLosesPart` and `LateScanLosesPart` are runs that lose a part in
  either way, and `SweptUploadIsRightExactlyInMemory` shows that after the deletion
  completions are right exactly when all parts are in memory.
- Multipart byte cap (`MultipartAccounting.Sound`): the global cap is below
  2^64 - 1, or nothing can be uploaded at all. `CountedExactlyWhenSound` shows that
  the counter is right in every run exactly then. `LargestCapWraps` is a short run
  with parts of at most 2^63 - 1 bytes in which it wraps.
- Upload ids are fresh, as drawn from random UUIDs. A task that dies while it
  holds an upload leaves it Completing; such ids are tracked as `orphaned`.
- Config sync (`ConfigSyncRemote.Calm`): between the file read of an upload and
  its ETag snapshot, a concurrent download of the same node commits no version
  with revocations the data lacks. The source reads the file first and the ETag
  second. `UncalmCommitLosesRevocations` and `RemoteCanDecrease` show the loss.
  An ETag stands for one content.
- Outbox listeners (`OutboxListeners.Attentive`): whenever an active tick or a
  purge computes its prune floor, the query succeeds and some active cursor stands
  at or below the listener's. The tick of a disabled dispatcher prunes nothing
  without a floor, so there it is enough that no cursor is active;
  `DisabledTickTakesUnreadExactlyWhen` gives the exact condition, and
  `SoleListenerIsSafeFromFloorPrunes` shows that a single listener always meets it.
  A comment at src/replication/event_consumer.rs:367-369 calls the ageing out of an
  idle, caught-up listener safe. `IdleListenerLosesEvents` is a run with that one
  listener in which the next event is delivered and then pruned by an active tick
  before the listener has read it.
- A listener's first cursor: a tick seeds the cursor while there is none
  (src/replication/event_consumer.rs:333-343), so events that arrive between an
  empty first tick and the next one are passed over unread. `SeedPassesOver` states
  it of every run and `EmptyFirstTickSkipsEvents` is one. Stored cursors are
  positive, so a listener that has one is never seeded again.
- Attempts and Slack posts (`OutboxSole.Sole`): one dispatcher, one configuration,
  ticks that do not die and marks that reach the table. `DeadTickPostsTwice`,
  `LostMarkPostsTwice`, `SecondDispatcherReopens` and `SmallerBudgetIsExceeded` are
  runs that break one of these each.
- Retry delays: a delay above the largest signed 64-bit number is cast to a
  negative one. `DelaysBehaveExactlyWhenTheyFit` says when none is, and
  `RetryLiesAheadExactlyWhenItFits` what becomes of the retry time.
- Rate limiter: `BoundedExactlyWhenLockoutCoversWindow`. The bound proved,
  max(1, 2 * max_attempts - 2), is sharper than 2 * max_attempts - 1 and is
  reached.
- Pager: a run drops its token on any error of its first listing
  (src/maintenance/worker.rs:434-447), not only on a bad token, and a run cut short
  right after the last page leaves no token. The next pages are then done over;
  `ChainCovers` shows that no gap ever appears, `ChainCoversOnceExactlyWhen` when
  each page is done once, and `RepeatingChain` two runs that do the first page
  twice. The truncation report is exact when the page budget is at least one; a
  budget of zero reports neither truncation nor work.
- Usage counter: mutations are reported as they happened, and a scan is atomic.

## Model

| member | source | states |
|---|---|---|
| `MultipartStore.MultipartStore.Create` | src/multipart.rs:397-447 | refuses at the upload limit, otherwise adds an Open upload without parts under the given relay policy; nothing else changes |
| `MultipartStore.MultipartStore.SumParts` | src/multipart.rs:503-507 | the loop over parts computes the sum of their sizes, whatever the order |
| `MultipartStore.MultipartStore.RelayEach` | src/multipart.rs:1285-1291 | moving parts to disk one by one, in any order, moves exactly the chosen in-memory parts and writes exactly their bytes |
| `MultipartStore.MultipartStore.PromoteToRelay` | src/multipart.rs:1280-1294 | a promotion switches the strategy only when every part is on disk; one that stops leaves the parts written so far as files |
| `MultipartStore.MultipartStore.CheckPart` | src/multipart.rs:450-531 | the refusals of upload_part in their order, with the cumulative size that `CumulativeIsSizeAfter` identifies |
| `MultipartStore.MultipartStore.StorePart` | src/multipart.rs:546-578 | records an accepted part with digest and size, on disk or in memory, and moves the counter by the size difference; a failed write changes no part |
| `MultipartStore.MultipartStore.UploadPart` | src/multipart.rs:450-579 | the whole call: refusal, promotion, write and record compose to the step on values, disk failures included |
| `MultipartStore.MultipartStore.ValidateParts` | src/multipart.rs:872-946 | the checks and the loop over requested parts give the first error in request order, or total, digests and bytes |
| `MultipartStore.MultipartStore.Assemble` | src/multipart.rs:621-624 | the loop concatenates the parts in order |
| `MultipartStore.MultipartStore.Complete` | src/multipart.rs:598-641 | refuses a second completion, changes nothing on a validation error, otherwise reserves the upload and returns bytes and ETag |
| `MultipartStore.MultipartStore.OrderedPaths` | src/multipart.rs:1336-1372 | the relay files in request order, each checked against its digest, or the first error |
| `MultipartStore.MultipartStore.CompletePassthrough` | src/multipart.rs:647-699 | the same reservation with chunks or relay files as payload and the total size |
| `MultipartStore.MultipartStore.Rollback` | src/multipart.rs:815-819 | a tracked upload is Open again; an unknown id changes nothing |
| `MultipartStore.MultipartStore.SetStoring` | src/multipart.rs:825-841 | sets or clears the guard flag of a tracked upload and nothing else |
| `MultipartStore.MultipartStore.Release` | src/multipart.rs:858-865 | gives back the part bytes and deletes the relay directory of a relayed upload |
| `MultipartStore.MultipartStore.Finish` | src/multipart.rs:849-854 | removes the upload, then releases it |
| `MultipartStore.MultipartStore.Abort` | src/multipart.rs:955-978 | refuses an unknown, foreign or Completing upload without effect, otherwise removes and releases it |
| `MultipartStore.MultipartStore.ReleaseBatch` | src/multipart.rs:1212-1222 | releasing a batch one by one, in any order, gives back all bytes and directories, and the report counts open, completing and bytes |
| `MultipartStore.MultipartStore.CountCompleting` | src/multipart.rs:1017-1020 | the number of Completing uploads of the bucket |
| `MultipartStore.MultipartStore.Purge` | src/multipart.rs:1010-1043 | all or nothing: refused without effect, with the number of Completing uploads of the bucket, if there is any; otherwise exactly the bucket's uploads go and their number is returned |
| `MultipartStore.MultipartStore.CleanupExpired` | src/multipart.rs:1172-1223 | prunes the registry and removes exactly the expired uploads: idle ones, and Completing ones past the timeout without a store guard |
| `MultipartStore.MultipartStore.BeginComplete` | src/multipart.rs:707-759 | Owner without a slot, Join on the same part list in flight, AlreadyDone on the same completed request, refusals otherwise |
| `MultipartStore.MultipartStore.PublishCompletion` | src/multipart.rs:761-789 | success leaves a tombstone, failure clears the slot |
| `MultipartStore.MultipartStore.ClearSlot` | src/multipart.rs:804-806 | the dropped publisher clears its slot |
| `MultipartStore.MultipartStore.PruneTombstones` | src/multipart.rs:794-801 | keeps exactly the slots younger than their bound |
| `MultipartStore.MultipartStore.SweepOrphans` | src/multipart.rs:1412-1451 | deletes exactly the old enough directories that belong to no relayed upload, and counts them |
| `MultipartStore.MultipartStore.DeleteDir` | src/multipart.rs:1374-1378 | a deleted directory takes its files along and no others |
| `MultipartSystem.ValidateEffect` | src/s3_adapter_s3s.rs:1861-1942 | a completion task either fails without effect or reserves an Open upload of its bucket and key |
| `MultipartSystem.PutPartEffect` | src/multipart.rs:450-579 | UploadPart touches at most the parts of one Open upload, never its lifecycle flags or a registry slot |
| `MultipartAccounting.BytesAreCounted` | src/multipart.rs:502-579 | under a sound configuration, in every state of every run, the counter is the bytes of tracked uploads plus those removed but not released; it respects the cap, every upload its own, and no release underflows |
| `MultipartAccounting.CountedPutPart` | src/multipart.rs:502-579 | one UploadPart keeps the count right, failed relay writes and a stale counter reading included |
| `MultipartAccounting.CountedTakeOut` | src/multipart.rs:1190-1207 | uploads leave the table while their bytes stay counted |
| `MultipartAccounting.AcceptCountsExactlyWhenItFits` | src/multipart.rs:518-576 | recording a part keeps the count right exactly when the new total is within the cap |
| `MultipartAccounting.CountedExactlyWhenSound` | src/multipart.rs:518-531 | the counter agrees with what it counts in every state of every run exactly when the cap is below 2^64 - 1 or nothing can be uploaded |
| `MultipartAccounting.LargestCapWraps` | src/multipart.rs:518-531 | at a cap of 2^64 - 1, a run over aborted but unreleased uploads ends with a wrapped counter |
| `MultipartRequests.CumulativeIsSizeAfter` | src/multipart.rs:494-509 | the size compared with the limits is that of the upload after the part, the replaced part taken out, up to saturation |
| `MultipartRequests.PartIsRefusedExactlyWhen` | src/multipart.rs:450-531 | each refusal of upload_part as an if-and-only-if on the part number, the upload and its size after the part |
| `MultipartRequests.PartIsAcceptedExactlyWhenItFits` | src/multipart.rs:494-531 | in every run of a sound configuration, a part of an Open upload is accepted exactly when the upload with it and all uploads together are within their limits |
| `MultipartRequests.PromotesExactlyWhenLarge` | src/multipart.rs:533-544 | an accepted part moves its upload to disk exactly when the upload with it exceeds the threshold |
| `MultipartRequests.AcceptedPartIsAnswered` | src/multipart.rs:574-578 | an accepted part is answered with its digest in hexadecimal, in quotes |
| `MultipartRequests.TrimTakesOuterQuotes` | src/multipart.rs:911-918 | an ETag of a request is compared without its outer quotes, all of them and nothing else |
| `MultipartRequests.CompletionsAreIntact` | src/multipart.rs:54-75 | whatever happened on disk, a completion succeeds only for an Open upload of its bucket and key and with unchanged files |
| `MultipartRequests.CompletionsAreRefused` | src/multipart.rs:598-612 | a second completion, and one for an unknown or foreign upload, are refused without effect |
| `MultipartRequests.AbortTakesExactly` | src/multipart.rs:955-978 | an abort takes exactly an Open upload of its id, bucket and key |
| `MultipartRequests.PurgeTakesExactly` | src/multipart.rs:1010-1043 | a purge takes exactly the uploads of the bucket, or none if one is Completing |
| `MultipartRequests.SweepTakesExactly` | src/multipart.rs:1172-1207 | an idle sweep takes exactly the Open uploads idle for the idle time or the maximum age, and the Completing ones past their timeout that are not being stored |
| `MultipartRequests.ReleaseLeavesNothing` | src/multipart.rs:858-865 | the directory of a released upload is gone with its files, and no other |
| `MultipartRequests.ActiveUploadsStay` | src/multipart.rs:1172-1207 | over any stretch of a run an upload that has taken a part stays unless it is aborted, purged or completed, or a sweep finds the part older than its bounds |
| `MultipartRequests.CreateIsRefusedExactlyAtTheLimit` | src/multipart.rs:397-447 | refused exactly at the limit; otherwise a fresh Open upload under the given bucket, key and policy |
| `MultipartRequests.UploadsAreLimited` | src/multipart.rs:397-447 | no run ever tracks more uploads than the limit |
| `MultipartProtocol.OneCompletionPerUpload` | src/multipart.rs:707-789 | at most one store per upload id ever succeeds, and every successful answer carries its part list and ETag |
| `MultipartProtocol.WinGained` | src/s3_adapter_s3s.rs:1875-1942 | a store that succeeds is the first of its upload id |
| `MultipartProtocol.CompletingMeansHeld` | src/multipart.rs:607-638 | a tracked upload is Completing exactly while one task is in its store phase, or after that task died; never two tasks |
| `MultipartProtocol.HeldPartsStayFixed` | src/multipart.rs:482-487 | while a task holds an upload no step changes its parts, and only its own finish or an idle sweep removes it |
| `MultipartProtocol.HeldPartsStayFixedThroughout` | src/s3_adapter_s3s.rs:1875-1943 | the same from validation to settlement over any stretch of a run |
| `MultipartProtocol.GoneStaysGone` | src/multipart.rs:849-854 | an upload id that left the table never comes back |
| `MultipartProtocol.JoinersAreAnswered` | src/multipart.rs:286-309 | a joiner's channel holds an outcome, or its task can step and every step brings it closer to sending one |
| `MultipartProtocol.TaskProgresses` | src/multipart.rs:286-309 | over any stretch of a run, whatever the others do, the steps a task takes come off what it has left before sending |
| `MultipartProtocol.JoinersAreAnsweredInTime` | src/multipart.rs:286-309 | at every later state the outcome is on the channel exactly when the joined task has no step left, and the task's own steps since, in any interleaving, come off what it had left |
| `MultipartProtocol.TasksTakeFewSteps` | src/s3_adapter_s3s.rs:1861-1943 | in no run does a task take more than eight steps, and no more than seven if it does not die |
| `MultipartRetries.RetryNeverRestarts` | src/multipart.rs:707-806 | from finish until the tombstone lapses an identical retry joins or gets the one ETag, never becomes owner |
| `MultipartRetries.AgedSlotRestarts` | src/multipart.rs:794-801 | where a prune drops the in-flight slot for its age, the next Complete becomes owner |
| `MultipartRetries.CrashedPublisherRestarts` | src/multipart.rs:300-309 | where the finishing task dies before publishing, the next Complete becomes owner |
| `MultipartRetries.PruneTakesExactly` | src/multipart.rs:794-801 | a prune drops a tombstone exactly when its time is over, an in-flight slot exactly when it is older than both bounds |
| `MultipartRetries.OtherRequestsAreRefused` | src/multipart.rs:707-759 | from finish until the tombstone lapses a Complete with other parts, and later one for another bucket or key, is refused without effect |
| `MultipartRetries.FailureCanBeRetried` | src/multipart.rs:783-806 | in every run, once a completion has failed and let go of its slot, until the next one begins every Complete of that upload becomes owner |
| `MultipartRelay.PutPartOnDisk` | src/multipart.rs:533-566 | after UploadPart, whatever the disk did, every part kept on disk is there with the accepted bytes, half-way promotions included |
| `MultipartRelay.OrphansAreUntracked` | src/multipart.rs:1412-1451 | an orphan scan under the premise condemns no directory of a tracked upload |
| `MultipartGuards.GuardProtects` | src/multipart.rs:821-841 | while a guard is held no abort, purge, idle sweep, orphan sweep or other task touches the upload or its relay files |
| `MultipartGuards.GuardProtectsThroughout` | src/multipart.rs:1194-1207 | the same over any stretch of a run in which the holder rests, under the weaker premise on scans |
| `MultipartAssembly.ReturnedETagMatches` | src/multipart.rs:911-918 | the quoted ETag an upload returned is what Complete compares with the part's digest |
| `MultipartAssembly.DecimalIsNumeral` | src/multipart.rs:936 | the part count in an ETag is written in decimal digits, without a leading zero, and reads back as that count |
| `MultipartAssembly.NumeralIsUnique` | src/multipart.rs:936 | a number is written in one way only |
| `MultipartAssembly.AscendingIsIncreasing` | src/multipart.rs:894-899 | comparing neighbours refuses exactly the part lists that are not increasing |
| `MultipartAssembly.GatherIsRequested` | src/multipart.rs:901-933 | the validation loop finds exactly the requested bytes, and its running total never passes the upload's own sum |
| `MultipartAssembly.PathsAreRequested` | src/multipart.rs:1336-1372 | the relay files read in request order are the requested bytes |
| `MultipartAssembly.PromotionIsInvisible` | src/multipart.rs:598-699 | both completions answer the reference, which is defined without the code's own functions for order and part count: same bytes in part order, same ETag with the number of parts, same size, same refusals, wherever the parts lie |
| `MultipartSweeps.CleanExactlyWhenUntracked` | src/multipart.rs:1412-1451 | the premise on an examined directory says exactly that no tracked upload owns it |
| `MultipartSweeps.SweptUploadIsRightExactlyInMemory` | src/multipart.rs:54-75 | once a sweep has deleted a tracked upload's directory, all its completions, plain and passthrough, are right exactly when all its parts are in memory; otherwise both refuse some request that is in order |
| `MultipartSweeps.HalfPromotionIsOrphaned` | src/multipart.rs:1280-1294 | a promotion that stops half-way leaves a directory an orphan sweep may take; until then every part still loads |
| `MultipartSweeps.LateScanLosesPart` | src/multipart.rs:1228-1243 | a run in which a scan past its minimum age deletes the part of an upload made since its snapshot |
| `MultipartSweeps.HalfPromotionLosesPart` | src/multipart.rs:1280-1294 | a run in which a sweep deletes the part of a tracked upload whose promotion stopped half-way |
| `MultipartTimely.BufferedHasNoDirectory` | src/multipart.rs:533-544 | in every run, unless a promotion of it stopped half-way, a tracked upload whose parts are in memory has no relay directory |
| `MultipartTimely.UncleanInTwoWaysOnly` | src/multipart.rs:1404-1451 | a scan condemns the directory of a tracked upload only after such a promotion, or by deciding past its minimum age |
| `MultipartTimely.GuardProtectsInTime` | src/multipart.rs:1194-1207 | with whole promotions and timely scans nothing touches a guarded upload or its relay files while its holder rests |
| `MultipartTimely.PromotionIsInvisibleInTime` | src/multipart.rs:598-699 | with whole promotions and timely scans both completions answer the reference, wherever the parts lie |
| `MultipartRestarts.StalledPublisherRestarts` | src/multipart.rs:794-801 | a run in which a finished upload's slot ages out before it is published, and the identical retry becomes owner |
| `MultipartRestarts.DeadPublisherRestarts` | src/multipart.rs:300-309 | a run in which the finishing task dies before it publishes, and the identical retry becomes owner |
| `ConfigSync.MaxMerge` | src/config_db/mod.rs:1040-1047 | the merged revocations include both sides |
| `ConfigSync.MaxMergeIsLeast` | src/config_db/mod.rs:1036-1047 | the merge is the least table above both sides |
| `ConfigSync.FetchStepKeeps` | src/config_db_sync.rs:199-314 | a download step keeps its node's database and ETag in step: the ETag is committed only for a merged version |
| `ConfigSync.CallStepKeeps` | src/config_db_sync.rs:330-394 | an upload step does too, conflicts and lost answers included |
| `ConfigSync.RememberedVersionIsHeld` | src/config_db_sync.rs:199-233 | in every run a node that remembers an ETag holds all revocations of the version it names |
| `ConfigSyncRemote.StepKeepsRevocations` | src/config_db_sync.rs:343-356 | a PUT the server takes loses no revocation of what it replaces |
| `ConfigSyncRemote.RemoteNeverDecreases` | src/config_db_sync.rs:738-803 | with any number of nodes uploading, polling and reconciling in any order, the revocations of the shared object never decrease |
| `ConfigSyncRemote.UncalmCommitLosesRevocations` | src/config_db_sync.rs:331-343 | a commit between file read and ETag snapshot that brings newer revocations makes the next PUT lose them |
| `ConfigSyncRemote.RemoteCanDecrease` | src/config_db_sync.rs:331-343 | a complete run in which the shared object loses a revocation |
| `ConfigSyncDelivery.RevocationsAreNeverDropped` | src/config_db_sync.rs:733-803 | at every moment a node's revocations are stored, or an upload on that node carries them or is queued |
| `ConfigSyncDelivery.QuietMeansStored` | src/startup.rs:1698-1715 | a node with no upload left and none queued has all its revocations stored |
| `ConfigSyncDelivery.SuccessMeansStored` | src/config_db_sync.rs:752-754 | a call that reports success stored every revocation its node held when it was made |
| `ConfigSyncDelivery.FailureMeansQueued` | src/config_db_sync.rs:800-802 | a call that reports failure queued the upload at that step |
| `ConfigSyncOrigin.NothingIsInvented` | src/config_db/mod.rs:1036-1047 | in every run a revocation held anywhere was held at the start or was issued with that very time |
| `ConfigSyncOrigin.RevokeSetsExactly` | src/config_db/mod.rs:1069-1078 | a revocation is held at its time or a later one already there; no other identity is touched |
| `ConfigSyncIam.PollWantsExactlyUnremembered` | src/config_db_sync.rs:199-233 | a poll goes on to download exactly a version its node does not remember |
| `ConfigSyncIam.MergeTakesIam` | src/config_db/mod.rs:1026-1035 | a merge leaves the node with the IAM tables of the version it merged |
| `ConfigSyncIam.MergedIamIsHeld` | src/config_db_sync.rs:825-857 | in every run a node that has merged a version, and neither changed its IAM tables nor merged since, holds those of that version, which its ETag names once committed |
| `ConfigSyncIam.UploadStoresFile` | src/config_db_sync.rs:330-356 | in every run a PUT the server takes stores the whole database its node had when the call last read the file |
| `ConfigSyncIam.UploadedIamIsHeld` | src/config_db_sync.rs:381-394 | a node whose upload is acknowledged, with no change or merge since the file read, holds the IAM tables of the version it remembers |
| `ConfigSyncNode.ConfigDbSync.Upload` | src/config_db_sync.rs:330-394 | the conditional PUT, its conflict, lost answer and success, the ETag each leaves behind, and that no effect loses a revocation |
| `ConfigSyncNode.ConfigDbSync.DownloadIfNewer` | src/config_db_sync.rs:199-306 | a download is the object seen at the HEAD, unchanged at the GET and not the remembered one; a quiet, readable, different object is always returned |
| `ConfigSyncNode.ConfigDbSync.Apply` | src/config_db_sync.rs:825-857 | merge first, commit the ETag only if the merge succeeded; then the IAM tables are the downloaded ones and no revocation is lost |
| `ConfigSyncNode.ConfigDbSync.UploadWithReconcile` | src/config_db_sync.rs:738-803 | at most three attempts, success with the current database stored or failure with the upload queued, no effect loses anything, and two attempts suffice once the peers are quiet, with the local IAM tables or those of the object in the way |
| `ConfigSyncNode.ConfigDbSync.TakeNeedsUpload` | src/config_db_sync.rs:125-132 | the flag is handed to one taker |
| `Outbox.OrderByIsOrdered` | src/event_outbox.rs:404-424 | selections are ordered by key, then by id |
| `OutboxQueries.ClaimTakesOldestDue` | src/event_outbox.rs:391-424 | a claim selects exactly the due rows with fewer due rows of older events before them than the limit, in that order |
| `OutboxQueries.PruneTakesOldestDelivered` | src/event_outbox.rs:544-568 | the age prune selects exactly the longest delivered of the old enough rows at or below the floor, up to the limit |
| `OutboxQueries.PruneKeepsNewest` | src/event_outbox.rs:574-601 | the count prune keeps the newest `keep` delivered rows at or below the floor and selects the others, lowest ids first, up to the limit |
| `OutboxQueries.PruneTakesOldestFailed` | src/event_outbox.rs:613-633 | the failed prune selects exactly the oldest of the old enough failed rows at or below the floor, up to the limit |
| `Outbox.FailedAbove` | src/event_outbox.rs:639-649 | the failed rows above the floor, exactly |
| `Outbox.AllFailed` | src/event_outbox.rs:654-660 | the failed rows at or below the floor, exactly |
| `OutboxQueries.OlderEventIsClaimedFirst` | src/event_outbox.rs:416-417 | of two due rows the one of the older event is claimed first |
| `OutboxQueries.EarlierDeliveredIsPrunedFirst` | src/event_outbox.rs:544-568 | of two rows past the retention the one delivered earlier goes first |
| `OutboxQueries.EarlierDeliveredIsSurplusFirst` | src/event_outbox.rs:592-593 | of two delivered rows the one delivered earlier is surplus first |
| `OutboxQueries.OlderFailedIsPrunedFirst` | src/event_outbox.rs:613-633 | of two failed rows past their age the one of the older event goes first |
| `OutboxQueries.FloorPruneTakesLowest` | src/event_outbox.rs:670-696 | the any-status prune selects exactly the lowest ids at or below a real floor, up to the limit, and nothing at the sentinel |
| `OutboxQueries.ReadTakesNext` | src/event_outbox.rs:724-742 | a read selects exactly the lowest ids after the cursor, up to the limit |
| `Outbox.MinPosition` | src/event_outbox.rs:843-859 | the smallest position, and none only without cursors |
| `Outbox.Handled` | src/replication/event_consumer.rs:198-211 | the rows before the first failed one |
| `OutboxStore.EventOutbox.InsertMany` | src/event_outbox.rs:225-250 | consecutive fresh ids, one pending row per event with its payload and time, no other row changes |
| `OutboxStore.EventOutbox.ClaimDue` | src/event_outbox.rs:391-455 | exactly the selected rows become in progress under the claimant at that time, each with one more attempt |
| `OutboxStore.EventOutbox.MarkDelivered` | src/event_outbox.rs:457-470 | the row is delivered at that time and its claim cleared, whoever claimed it; no other row changes |
| `OutboxStore.EventOutbox.MarkFailed` | src/event_outbox.rs:472-494 | pending with the given retry time or failed without one, the claim cleared; no other row changes |
| `OutboxStore.EventOutbox.RequeueFailed` | src/event_outbox.rs:512-537 | exactly the failed rows among the ids are pending again, due at the given time and with their attempts, each counted once |
| `OutboxStore.EventOutbox.Since` | src/event_outbox.rs:724-742 | the scan returns rows after the cursor in id order, at most the limit, and leaves a row out only beyond a full batch |
| `OutboxStore.EventOutbox.CursorAdvance` | src/event_outbox.rs:761-786 | the cursor never goes back and is touched only by a real advance |
| `OutboxStore.EventOutbox.ActiveFloor` | src/event_delivery.rs:491-496 | the loop finds the smallest active cursor; an error or no active cursor means no floor |
| `OutboxStore.EventOutbox.MarkEach` | src/event_delivery.rs:458-482 | every claimed row is marked by its own outcome and attempt count |
| `OutboxStore.EventOutbox.PruneTick` | src/event_delivery.rs:498-531 | the three prunes of a tick in order, under one floor |
| `OutboxStore.EventOutbox.DispatchOnce` | src/event_delivery.rs:431-543 | a whole tick is claim, marks and prunes composed |
| `OutboxStore.EventOutbox.PruneBelowFloor` | src/event_delivery.rs:419-429 | the tick of a disabled dispatcher |
| `OutboxStore.ResolveChannels` | src/slack_format.rs:85-107 | the channels of all matching routes, each once, in the order in which they first appear |
| `OutboxStore.DeliverSlack` | src/event_delivery.rs:255-321 | posts to every channel once and in order; the attempt fails only if every post failed, and then nothing was posted |
| `OutboxListeners.FloorProtectsExactlyWhenPinned` | src/event_outbox.rs:843-859 | the computed floor is at or below a listener's cursor exactly when the query succeeds and an active cursor stands at or below its own |
| `OutboxListeners.ActiveListenerIsPinned` | src/event_outbox.rs:843-859 | a listener whose own cursor is active satisfies that condition |
| `OutboxListeners.ReadIsComplete` | src/event_outbox.rs:724-742 | a drain reads every present row of its range |
| `OutboxListeners.NoEventIsPruned` | src/event_delivery.rs:491-531 | every row present or inserted since, above an attentive listener's cursor, is still there, even when cursors advance between floor and deletion |
| `OutboxListeners.NoEventIsSkipped` | src/replication/event_consumer.rs:351-534 | every such row the cursor has passed was read and handled |
| `OutboxListeners.NoFloorExactlyWhen` | src/event_delivery.rs:491-496 | there is no floor exactly when the query fails or no cursor is active |
| `OutboxListeners.SoleListenerIsSafeFromFloorPrunes` | src/event_delivery.rs:419-429 | the only listener meets the premise at every tick of a disabled dispatcher, aged out or not |
| `OutboxListeners.SeedPassesOver` | src/replication/event_consumer.rs:333-343 | in every run a cursor is seeded only for a listener that has none and has handled nothing, and passes over everything up to it |
| `OutboxLosses.DisabledTickTakesExactly` | src/event_delivery.rs:419-429 | a row goes exactly when the floor is real, the row at or below it, and fewer lower rows exist than the batch |
| `OutboxLosses.DisabledTickTakesUnreadExactlyWhen` | src/event_delivery.rs:419-429 | an unread row goes exactly when only cursors above the listener's are active and floor and batch reach that far |
| `OutboxLosses.CountPruneTakesExactly` | src/event_delivery.rs:521-531 | the count prune of a tick takes exactly the surplus up to its floor, lowest ids first |
| `OutboxLosses.DeliverAll` | src/event_delivery.rs:458-482 | from any reachable claim some run delivers and marks all of it |
| `OutboxLosses.IdleListenerLosesEvents` | src/event_delivery.rs:491-531 | a run in which the only listener, idle at the newest row, loses the next event to an active tick |
| `OutboxLosses.EmptyFirstTickSkipsEvents` | src/replication/event_consumer.rs:333-343 | a run in which an event after an empty first tick is seeded past and never read |
| `OutboxDelivery.OnlyDoneRowsAreRemoved` | src/event_delivery.rs:431-543 | outside floor prunes a removed row was delivered or failed for good and lay at or below the floor; pending and in-progress rows stay |
| `OutboxDelivery.NothingUnresolvedIsLost` | src/event_delivery.rs:532-543 | while every tick is active, every row ever inserted is there or was resolved |
| `OutboxDelivery.FloorsWereComputed` | src/event_delivery.rs:491-496 | a tick prunes under the floor it computed from the cursors of that moment |
| `OutboxAttempts.ClaimsAreExclusive` | src/event_outbox.rs:391-455 | a second claim of a row comes after a mark of the first, or after the second claimant's stale window |
| `OutboxAttempts.DelaysGrow` | src/event_delivery.rs:554-579 | delays never shrink with attempts and never exceed retry_max |
| `OutboxAttempts.DelaysDouble` | src/event_delivery.rs:576-577 | the first delay is the base, each further one twice the last, all capped, with the doubling stopped after twenty times |
| `OutboxAttempts.DelaysBehaveExactlyWhenTheyFit` | src/event_delivery.rs:576-579 | as added to the clock they behave exactly when the longest fits a signed 64-bit number |
| `OutboxWaits.DueExactlyWhen` | src/event_outbox.rs:402-417 | a pending row is due from its retry time on, a row in progress once its claim is stale, no other row ever |
| `OutboxWaits.RetryIsDueExactlyFrom` | src/event_delivery.rs:470-479 | in every run, from a failed attempt to the row's next mark or claim, the row is due exactly from the tick's time plus the delay on |
| `OutboxWaits.RetriesWait` | src/event_delivery.rs:554-579 | in every run the next claim after a failed attempt comes no earlier than the delay demands |
| `OutboxWaits.RetryLiesAheadExactlyWhenItFits` | src/event_delivery.rs:576-579 | the retry time is the tick's time plus the delay, and lies ahead exactly when the delay fits a signed 64-bit number |
| `OutboxWaits.GivesUpExactlyAfterAllowed` | src/event_delivery.rs:554-561 | a row is given up exactly after the allowed attempts, one at least |
| `OutboxWaits.RequeuedIsDueAtOnce` | src/event_outbox.rs:512-537 | a requeue makes exactly the failed rows among the ids pending and due from that moment on |
| `OutboxWaits.ClaimIsBounded` | src/event_delivery.rs:441-449 | a claim takes at most 500 rows and at most the batch |
| `OutboxWaits.PurgeTakesAllFailedOrNothing` | src/event_outbox.rs:639-660 | an operator purge removes every failed row, or nothing because one lies above the floor |
| `OutboxWaits.FreshRowsOutliveTicks` | src/event_delivery.rs:498-531 | the prunes of a tick take only rows past their retention, failed rows after a day at the earliest |
| `OutboxWaits.DrainAdvancesOverHandled` | src/replication/event_consumer.rs:198-211 | a drain leaves the cursor at the last row before the first failed one, touched by a real advance only |
| `OutboxWaits.IdleAdvanceTouchesNothing` | src/event_outbox.rs:761-786 | an advance to where the cursor stands, or before, leaves it untouched |
| `OutboxWaits.DeliveryIsStamped` | src/event_outbox.rs:457-470 | a row marked delivered carries the time of that mark and is never due again |
| `OutboxSole.NoRowIsGivenUpEarly` | src/event_delivery.rs:554-561 | a failed row has had all the attempts it is allowed |
| `OutboxSole.AttemptsAreBounded` | src/event_delivery.rs:554-561 | attempts never exceed the allowed number plus one per requeue |
| `OutboxSole.EachChannelAtMostOnce` | src/event_delivery.rs:268-321 | over all retries of a row every channel gets it at most once |
| `OutboxSole.DeliveredIsFinal` | src/event_outbox.rs:457-470 | once delivered a row never changes until it is pruned, and is posted nowhere again |
| `OutboxRepeats.DeadTickIsRepeatedExactlyWhenStale` | src/event_outbox.rs:402-424 | after a tick has died its row is claimed again exactly when the claim is stale and the batch reaches it, whatever was posted |
| `OutboxRepeats.MarkOverrules` | src/event_delivery.rs:462-478 | a mark goes by its own outcome and attempt count alone, whatever another dispatcher has marked before |
| `OutboxRepeats.DeadTickPostsTwice` | src/event_delivery.rs:458-482 | a run in which the only dispatcher dies after a post, and the retry posts to the same channel again |
| `OutboxRepeats.LostMarkPostsTwice` | src/event_delivery.rs:464-469 | a run in which a mark does not reach the table, with the same effect |
| `OutboxRepeats.SecondDispatcherReopens` | src/event_delivery.rs:471-478 | a run with two dispatchers in which a delivered row becomes pending again |
| `OutboxRepeats.SmallerBudgetIsExceeded` | src/event_delivery.rs:554-561 | a run in which a new configuration finds a row tried more often than it allows |
| `ReplicationCycles.BuildEdges` | src/config_sections.rs:2122-2133 | the edge map lists, per source endpoint, the destinations and names of its rules in order |
| `ReplicationCycles.Report` | src/config_sections.rs:2152-2163 | a closed path is reported unless its names were, and stays found |
| `ReplicationCycles.Expand` | src/config_sections.rs:2147-2167 | every rule out of a node leads back to the start and is reported, or is pushed with its path |
| `ReplicationCycles.SearchFrom` | src/config_sections.rs:2139-2168 | the search ends, and finds a cycle through its start if there is one |
| `ReplicationCycles.SearchIsComplete` | src/config_sections.rs:2139-2168 | a finished search has visited everything reachable and noticed every return |
| `ReplicationCycles.SameNamesSameKey` | src/config_sections.rs:2154-2157 | the same rule names in any order give the same key |
| `ReplicationCycles.SameKeyExactlyForSameNames` | src/config_sections.rs:2154-2157 | where no name has a bar in it, keys are equal exactly for the same names |
| `ReplicationCycles.DetectReplicationCycles` | src/config_sections.rs:2116-2172 | warnings exactly when there is a directed cycle, self-loops included; every warning is a real closed walk, no two of the same rules, and every endpoint on a cycle has a closed walk of the very rules of some warning, given the names validation admits |
| `ReplicationCycles.MirroredRulesFormCycle` | src/config_sections.rs:2122-2133 | two rules that copy back and forth, and a rule that copies a place onto itself, are a cycle |
| `ReplicationCycles.CyclesCopyBack` | src/config_sections.rs:2122-2133 | on any cycle some rule copies into a place that a rule copies from |
| `RateLimiter.CleanupIsInvisible` | src/rate_limiter.rs:292-323 | cleanups at any times change no later answer and no counting, for all keys, by simulation |
| `RateLimiter.FailuresAreBounded` | src/rate_limiter.rs:184-218 | any window-long stretch contains at most max(1, 2 * max_attempts - 2) counted failures of a key, cleanups interleaved |
| `RateLimiter.ShortLockoutBreaksBound` | src/rate_limiter.rs:194-203 | with lockout < window two full bursts fit into one window |
| `RateLimiter.BoundedExactlyWhenLockoutCoversWindow` | src/rate_limiter.rs:184-218 | the bound holds of every run exactly when lockout >= window |
| `RateLimiter.BoundIsReached` | src/rate_limiter.rs:184-218 | some run reaches the bound |
| `RateLimiter.AnswersAgree` | src/rate_limiter.rs:139-218 | a failure is answered as a query right after it would be |
| `RateLimiter.LockoutLastsExactly` | src/rate_limiter.rs:184-218 | the allowed number of failures locks a key out, exactly for the lockout, and one fewer does not |
| `RateLimiter.SuccessForgives` | src/rate_limiter.rs:221-223 | after a success a key has its full count again and no other key notices |
| `RateLimiter.RateLimiter.IsLimited` | src/rate_limiter.rs:139-156 | limited exactly during a lockout |
| `RateLimiter.RateLimiter.Record` | src/rate_limiter.rs:184-218 | the entry after a failure: refused in a lockout, otherwise counted in the running or a fresh window |
| `RateLimiter.RateLimiter.RecordFailure` | src/rate_limiter.rs:184-218 | updates the one entry and answers whether it is locked out |
| `RateLimiter.RateLimiter.RecordSuccess` | src/rate_limiter.rs:221-223 | forgets the entry |
| `RateLimiter.RateLimiter.IsLimitedAccount` | src/rate_limiter.rs:228-242 | the account twin; an empty subject is never limited |
| `RateLimiter.RateLimiter.RecordFailureAccount` | src/rate_limiter.rs:246-280 | the account twin; an empty subject is not recorded |
| `RateLimiter.RateLimiter.RecordSuccessAccount` | src/rate_limiter.rs:283-288 | the account twin |
| `RateLimiter.RateLimiter.Retain` | src/rate_limiter.rs:309-323 | the retain loop keeps exactly the entries locked out or within their window |
| `RateLimiter.RateLimiter.CleanupExpired` | src/rate_limiter.rs:292-301 | both tables, each under its own policy |
| `Pager.Pager.Resuming` | src/job_loop.rs:51-59 | a pager that knows whether it resumes |
| `Pager.Pager.BeginPage` | src/job_loop.rs:84-91 | the next index within the budget, or nothing |
| `Pager.Pager.RestartFresh` | src/job_loop.rs:112-117 | back to the first page, never resumed again |
| `Pager.Pager.Advance` | src/job_loop.rs:138-148 | more exactly when truncated with a token; otherwise the token is cleared |
| `Pager.TurnPage` | src/maintenance/worker.rs:427-459 | one turn: cancelled, listed, started over exactly when the first page of a resumed run fails to list, or processed with the token of the next page |
| `Pager.RunJob` | src/maintenance/worker.rs:416-467 | one stretch of pages in order, the token of the next one left behind, at most one restart and one page over the budget, truncation reported exactly when pages remain, errors only for a reason, and a restart exactly when the listing with the given token fails |
| `Pager.ChainCovers` | src/job_loop.rs:49-148 | since their last start at the first page, runs chained by their token have processed the pages from the first on, each once, in order, without a gap, and to the end exactly when they finished or were cut short right there |
| `Pager.ChainCoversOnceExactlyWhen` | src/maintenance/worker.rs:434-447 | over all its runs a chain processes each page at most once exactly when no run starts at the first page again, and does it, after pages were done |
| `Pager.RepeatingChain` | src/maintenance/worker.rs:434-447 | two runs of the worker in which one listing error makes the first page be done twice |
| `BucketUsage.NetDeltaIsTheChange` | src/bucket_usage.rs:304-336 | the net delta is what a scan's totals change by |
| `BucketUsage.MutateKeepsDrift` | src/bucket_usage.rs:304-336 | a reported change moves counter and truth together, in every counted bucket |
| `BucketUsage.DriftIsConstant` | src/bucket_usage.rs:167-197 | over any sequence of changes counter minus scan totals stays what it was |
| `BucketUsage.ScanClearsDriftExactlyWhenItFits` | src/bucket_usage.rs:244-267 | a scan overwrite makes the drift zero exactly when the totals fit the signed columns, and touches no other bucket |
| `BucketUsage.CounterAgreesAfterScan` | src/bucket_usage.rs:244-279 | from a scan on, reading the counter gives what a scan would find, and the counter fits its columns exactly as long as that does |
| `BucketUsage.TransientBucketsAreIgnored` | src/bucket_usage.rs:288-313 | no change ever makes or touches a row of a transient bucket |
| `BucketUsage.BucketUsage.ApplyDelta` | src/bucket_usage.rs:167-197 | adds the delta to the row, made if absent, and notices a negative column |
| `BucketUsage.BucketUsage.ApplyNet` | src/bucket_usage.rs:304-336 | one net delta, none for transient buckets or a delta of nothing |
| `BucketUsage.BucketUsage.ScanBucket` | src/deltaglider/savings.rs:66-97 | accumulating every object and reference in any order gives the saturated totals |
| `BucketUsage.BucketUsage.OverwriteFromScan` | src/bucket_usage.rs:244-267 | each column becomes the signed 64-bit number equal to its total modulo 2^64, the row is stamped, no other row changes |
| `BucketUsage.BucketUsage.Refresh` | src/bucket_usage.rs:244-267 | scan and overwrite compose to the step on values |
| `BucketUsage.BucketUsage.Read` | src/bucket_usage.rs:211-279 | counters clamped at zero, absent rows absent |

## Left out

- Multipart listings (ListParts and ListMultipartUploads return sorted pages of the tables), content types, user metadata and creation times are not modelled.
- MultipartStore.MultipartStore.SweepOrphans: models the directories of this process; the roots of other processes and stray files in the root, which the same sweep deletes by age, are left out because no upload of this process refers to them.
- The completion fingerprint is the part list itself; hash collisions are not modelled.
- MD5 and hex encoding are uninterpreted functions; the byte comparison of ETags is modelled.
- The S3 bucket checks, body streaming and response building around a completion are not modelled; a store is one step that succeeds or fails.
- A failed directory deletion leaves the whole directory; partial deletions are not modelled.
- Part sizes fit a signed 64-bit number; the casts of upload_part are the identity on them.
- Config sync: restarts of a process and cancelled requests, which lose the in-memory queued flag, are not modelled.
- Config sync: objects served without an ETag, deletion of the shared object, passphrase mismatches beyond a failed download, and the probe and witness logic are not modelled.
- IAM tables are one value that a merge replaces, as in the source; which of two concurrent changes wins is not claimed.
- Event kinds, payload formats, webhook delivery and which routes match an event are arguments.
- The replication consumer is modelled by what it reads, which rows it reports failed and how it advances its cursor; rules, leases and copies are not.
- Outbox listing, counting and status queries are not modelled.
- RateLimiter.FailuresAreBounded: progressive_delay is not covered, because it may read counts that a cleanup would have dropped.
- Client address extraction, header trust and address normalisation are not modelled.
- Pager.RunJob: a page is processed and its token persisted in one step; a crash between the two is not modelled.
- BucketUsage.BucketUsage.ApplyDelta: the columns are unbounded here, while the database adds 64-bit numbers; CounterAgreesAfterScan says until when the two agree.
- BucketUsage.CounterAgreesAfterScan: a scan is atomic; writes during a scan are not modelled. Sizes of single objects fit a signed 64-bit number.
- The savings percentage, the delta codec, IAM evaluation, bucket policies, metadata cache, HTTP, SQLite and file system plumbing are not modelled.
