# rusty-cat in Dafny

Models of the protocols at the centre of rusty-cat, a Rust transfer client, with proofs of what they promise over
every run or every input. `dafny verify dfyconfig.toml` checks the whole project with Dafny 4.11.

- **Binary executor** (`BinaryScheduler*.dfy`). The scheduler loop, its command queue, a dispatcher thread that can exit
  or die and be restarted, two kinds of permit and a retryable close, as a state machine with one event per stage of a
  turn. `BinarySchedulerLoop` is the loop's own code as a class, proved to stay in step with the machine under every
  interleaving. `BinaryBody` is the body accumulation loop.
- **Client lifecycle** (`ClientLifecycle*.dfy`, `ClientClose.dfy`). Any number of closers and admissions over one lock,
  the closed flag, two lazily built executors and a detached supervisor. A lock holder is stopped between any two of its
  writes. `ClientClose` is the code of one caller, proved equal to the machine's steps.
- **Callback dispatcher** (`CallbackDispatcher.dfy`). A bounded queue that may drop only sampling frames.
- **Download checkpoints** (`DownloadCheckpoint*.dfy`, `DownloadTarget.dfy`). Writers, serial stagers, timers and forced
  checkpoints write cell by cell through two mutexes; cells reach the disk at any time; a crash may happen between any
  two steps and the run goes on from what it left.
- **Target leases** (`TargetLease*.dfy`). Sorted multi-key try-locks, alone and racing.
- **Upload snapshots** (`UploadSnapshot.dfy`, `UploadReads.dfy`). The digest scan, and reads checked block by block
  against a file that may change at every read. Digests are parameters.
- **Multipart resume and commit** (`ChunkGrid.dfy`, `Oss*.dfy`, `Azure*.dfy`). Pagination against any server, session
  adoption, the chunk grid, block ids through base64, and the commit of a block list.
- **Scanners and canonical forms** (`Xml*.dfy`, `IdentityFraming.dfy`, `DownloadIdentity.dfy`, `PresignedQuery.dfy`,
  `OssCanonicalQuery.dfy`, `AzureCanonicalResource.dfy`).

A run is a sequence of events, each enabled when it happens; `Exec` gives the state after it. Whatever a network, a
clock, a scheduler or a server decides is an event or a parameter.

Four promises turned out not to hold as one might state them, and are given as what does hold:

- A task handed over after a `Close` command was sent can be dropped without a callback even though that close is then
  answered `Complete` (`LateTaskIsDiscarded`). Read before the hand-over, a task can be dropped so if and only if a close
  is in the queue, or received and not answered "retry" (`DiscardedExactlyAfterClose`). A client that hands over nothing
  after sending a close, as `MeowClient` does, loses nothing (`GatedClientLosesNothing`).
- Dropping the future of a non-mixed `close` while it awaits the transfer executor leaves the client in `Closing` and
  every waiting closer asleep forever (`DroppedCloseStrandsWaiter`, `StrandedForever`). A waiting closer can still be
  woken exactly unless that happened (`WakeableExactlyUnlessStranded`), and otherwise every run wakes it
  (`WaiterIsWoken`); a client with a binary executor cannot be stranded (`MixedWaiterIsWoken`).
- Block ids and their parser are inverse exactly for indices below 100 000 000 (`BlockIdRoundTrip`), far above the 50 000
  blocks a task may have.
- The OSS canonical query separates all queries except the blank ones: no component, or a single `=` (`CanonicalExact`,
  `BlankQueriesCollide`).

## Model

| member | source | states |
|---|---|---|
| BinarySchedulerRuns.StepKeepsInv | src/binary/executor.rs:508-745 | every step of clients, scheduler and dispatcher thread keeps the task, handshake, flag and permit invariants |
| BinarySchedulerRuns.OnePlaceAlways | src/binary/executor.rs:508-745 | in every reachable state an accepted task is in exactly one of queue, pending, active, terminal, in flight, called back, lost with a dead thread or discarded, so its callback runs at most once, and it stays registered until then |
| BinarySchedulerRuns.AtMostOneInFlight | src/binary/executor.rs:870-906 | at most one job is between scheduler and dispatcher, and the callback channel is never full |
| BinarySchedulerRuns.CompleteAccountsForEveryTask | src/binary/executor.rs:508-745 | in any run at all, a `Complete` answer leaves every task accepted before that close was sent either called back exactly once or lost exactly once |
| BinarySchedulerRuns.ReturnAccountsForEveryTask | src/binary/executor.rs:724-745 | after any run at all, when the scheduler has returned, every accepted task was called back, lost or left in the queue, exactly once in all |
| BinarySchedulerRuns.CompleteMeansCalledBack | src/binary/executor.rs:233-290 | unless a job was lost with a dying thread or executor, a `Complete` answer means that every task accepted before that close was sent has been called back exactly once, through any exits, panics between jobs, restarts and retried closes |
| BinarySchedulerRuns.RunLosesNothing | src/binary/executor.rs:547-575 | a run loses a job only by a dispatcher dying with one or by the fallback of a dropped executor; a panic between jobs loses none |
| BinarySchedulerRuns.CompleteIsOk | src/binary/executor.rs:727-744 | a `Complete` answer reports an error only if the dispatcher joined at the end had panicked |
| BinarySchedulerTurns.StepKeepsTurns | src/binary/executor.rs:544-646 | at each stage of a turn: a requested restart has been tried before the flush, a sendable job has been sent by it, the select is reached only if the loop cannot exit, and a live dispatcher is replaced only with nothing in flight |
| BinarySchedulerGate.GatedClientIsAccountedFor | src/binary/executor.rs:158-197 | if no task is handed over after a close is sent, then after any run at all every accepted task was called back or lost, exactly once |
| BinarySchedulerGate.GatedClientLosesNothing | src/binary/executor.rs:158-197 | if no task is handed over after a close is sent and no job is lost, every accepted task was called back exactly once |
| BinarySchedulerDiscard.DiscardedExactlyAfterClose | src/binary/executor.rs:158-197 | read before the hand-over, from every reachable state with all handed-over jobs accounted for: some continuation drops the task uncalled if and only if a close is in the queue, or received and not answered "retry" |
| BinarySchedulerDiscard.EarlyHandOverIsNeverDiscarded | src/binary/executor.rs:648-688 | from every reachable state without such a close, no continuation at all drops the task |
| BinarySchedulerDiscard.LateHandOverCanBeDiscarded | src/binary/executor.rs:638-646 | with such a close, a run of scheduler, worker and dispatcher steps is given that drops it |
| BinarySchedulerDiscard.UnderWayOnlyAfterSent | src/binary/executor.rs:233-290 | until a close has been sent or the executor dropped, no close is under way |
| BinarySchedulerClose.LateTaskIsDiscarded | src/binary/executor.rs:638-646 | a concrete run in which a task accepted before the `Complete` answer, but after the close was sent, is never called back |
| BinarySchedulerClose.StoppingIsPermanent | src/binary/executor.rs:547-636 | "closing or terminal failure" never becomes false again although each flag is reset, and no task is launched afterwards |
| BinarySchedulerClose.CloseEndsTasksAsClosed | src/binary/executor.rs:825-838 | every task pending or active when a close begins, by command, hang-up, unacknowledged job or failed restart, is called back with `ClientClosed` or not at all |
| BinarySchedulerClose.CanceledTaskNeverSucceeds | src/binary/executor.rs:794-823 | an acknowledged cancel ends as canceled or, overtaken by a close, as closed, in every continuation |
| BinarySchedulerClose.PermitsConserved | src/binary/executor.rs:1012-1050 | the outstanding count equals the admitted tasks not yet called back and is at most 1024; active tasks and undelivered successes hold at most two body permits |
| BinarySchedulerClose.LiveBodiesBounded | src/binary/executor.rs:747-792 | with every result collected by the body loop, the live body bytes never exceed twice the limit in any run |
| BinarySchedulerDrain.DrainStepLowersRank | src/binary/executor.rs:638-646 | after a close with a live dispatcher every step of any interleaving lowers a rank that weighs active tasks 6, terminal jobs 5, a job in the channel 4, then the steps of the dispatcher thread and of the turn |
| BinarySchedulerDrain.DrainNeverStuck | src/binary/executor.rs:648-723 | until it has returned, a draining scheduler always has an enabled step |
| BinarySchedulerDrain.DrainingEnds | src/binary/executor.rs:638-723 | a draining run has at most as many steps as the rank, and one that cannot go on has returned |
| BinarySchedulerDrain.DrainingAnswersTheClose | src/binary/executor.rs:724-745 | the close that started the draining is answered `Complete` by the time the scheduler returns |
| BinarySchedulerDrain.CloseStartsDraining | src/binary/executor.rs:668-683 | receiving a close while the dispatcher lives starts such a draining with that close to answer |
| BinarySchedulerLoop.Scheduler.LaunchAll | src/binary/executor.rs:747-792 | the launch loop equals the machine's launch: oldest first while a slot and a body permit are free |
| BinarySchedulerLoop.Scheduler.Withdraw | src/binary/executor.rs:794-823 | the cancel loop equals the machine's cancel and reports whether it was acknowledged |
| BinarySchedulerLoop.Scheduler.ClosePending | src/binary/executor.rs:825-838 | every pending task becomes a closed terminal job, in order |
| BinarySchedulerLoop.Scheduler.CloseActive | src/binary/executor.rs:825-838 | every active task, and no other, carries the close reason afterwards |
| BinarySchedulerLoop.Scheduler.CloseAll | src/binary/executor.rs:825-838 | both loops together equal the machine's begin-close |
| BinarySchedulerLoop.Scheduler.FlushJobs | src/binary/executor.rs:870-895 | hands over the first terminal job exactly when none is in flight and the receiver lives |
| BinarySchedulerLoop.Scheduler.DrainAcks | src/binary/executor.rs:897-906 | consumes all acknowledgements, with a saturating count |
| BinarySchedulerLoop.Scheduler.Reap | src/binary/executor.rs:547-575 | a finished dispatcher is replaced if its last job was acknowledged, else everything is closed over |
| BinarySchedulerLoop.Scheduler.Fail | src/binary/executor.rs:564-572 | an unacknowledged job sets the failure flags and closes over everything |
| BinarySchedulerLoop.Scheduler.Replace | src/binary/executor.rs:577-597 | a restart clears the failure; a failed one closes over everything |
| BinarySchedulerLoop.Scheduler.TakeClose | src/binary/executor.rs:668-683 | keeps the first responder, asks for a restart if there is no dispatcher, and closes over everything |
| BinarySchedulerLoop.Scheduler.EarlyStage | src/binary/executor.rs:544-597 | the code of each stage before the flush is the machine's event of that stage in any environment |
| BinarySchedulerLoop.Scheduler.LateStage | src/binary/executor.rs:599-646 | the same from the flush to the exit test |
| BinarySchedulerLoop.Scheduler.Handle | src/binary/executor.rs:648-723 | the code of each branch of the select, and of the shutdown, is the machine's event |
| BinarySchedulerLoop.Scheduler.Simulate | src/binary/executor.rs:508-745 | under every interleaving with clients, workers and the dispatcher thread the loop's own code stays in step with the machine, so every result above is about this code |
| BinaryBody.Collect | src/binary/download.rs:146-199 | for every chunking, announced length and ending, the loop returns exactly the simple form: everything, or too large, failed or canceled; the buffer never reserves more than the limit |
| BinaryBody.BoundedInitialCapacity | src/binary/download.rs:201-210 | the first reservation is at most the limit, 1 MiB and the announced length |
| ClientLifecycleRuns.StepKeepsInv | src/meow_client.rs:1141-1271 | every step of every thread keeps the lifecycle invariant |
| ClientLifecycleTheorems.ClosedFlagMirrorsLifecycle | src/meow_client.rs:355-366 | whenever the lock is free, the state is Open if and only if the closed flag is clear |
| ClientLifecycleTheorems.AtMostOneTeardown | src/meow_client.rs:1162-1195 | no two threads run a teardown at the same time |
| ClientLifecycleTheorems.ClosedMeansShutDown | src/meow_client.rs:1335-1356 | `Closed` is published only when every executor ever built is shut down |
| ClientLifecycleTheorems.NothingBuiltWhileClosing | src/meow_client.rs:255-337 | no step publishes an executor while the lifecycle is not Open |
| ClientLifecycleTheorems.MixedCloseIsFinal | src/meow_client.rs:1301-1396 | once a client with a binary executor starts closing, over any run: it never reopens or builds an executor, and an executor whose progress flag is set keeps it and is never closed again |
| ClientLifecycleTheorems.MixedClientNeverReopens | src/meow_client.rs:1141-1271 | the same clauses from the start over any run and any continuation |
| ClientLifecycleTheorems.TeardownAdvances | src/meow_client.rs:1197-1263 | every step of a teardown, whatever its outcome, brings it nearer its notification |
| ClientLifecycleTheorems.StepBringsWakeCloser | src/meow_client.rs:1155-1195 | no event of any thread raises what the teardown still owes a waiting closer, every step of the teardown or of its notification lowers it, and a notification under way stays so until it wakes the closer |
| ClientLifecycleTheorems.WaiterIsWoken | src/meow_client.rs:1155-1195 | in every run without a stranding drop, whatever all threads and executors do, a waiting closer has been woken once teardown and notification have taken the steps they owed |
| ClientLifecycleTheorems.MixedWaiterIsWoken | src/meow_client.rs:1216-1263 | in a client with a binary executor this holds in every run, and at most nine steps are owed |
| ClientLifecycleTheorems.WaiterCanBeWoken | src/meow_client.rs:1192-1195 | the wake-up is never blocked: from every non-stranded state a run of teardown and lock-holder steps wakes the waiter |
| ClientLifecycleTheorems.WakeableExactlyUnlessStranded | src/meow_client.rs:1192-1213 | with no notification under way, a waiting closer can still be woken if and only if no non-mixed close was dropped while it awaited the transfer executor |
| ClientLifecycleTheorems.StrandedForever | src/meow_client.rs:1197-1213 | after such a drop every continuation stays in Closing and leaves the waiter asleep |
| ClientLifecycleTheorems.DroppedCloseStrandsWaiter | src/meow_client.rs:1197-1213 | a concrete run into that state: the transfer executor is built, one closer awaits its close, a second waits, the first future is dropped |
| ClientClose.Client.Admit | src/meow_client.rs:255-366 | builds the executor exactly when Open; equal to the machine's check and creation for one thread |
| ClientClose.Client.Decide | src/meow_client.rs:1162-1190 | the plan for each lifecycle state; equal to the machine's decision under the lock |
| ClientClose.Client.Attempt | src/meow_client.rs:1322-1396 | closes exactly the executors not yet flagged and ends with flags equal to what is shut down; equal to the machine's two closes and reconciliation |
| ClientClose.Client.TearAlone | src/meow_client.rs:1197-1213 | the teardown without a binary executor; equal to the machine's steps up to the notification |
| ClientClose.Client.Close | src/meow_client.rs:1141-1271 | the resulting lifecycle, result and executor calls of one uncontended close for all outcomes |
| CallbackDispatcher.NothingButSamplingIsLost | src/inner/cb_dispatcher.rs:177-217 | at every moment delivered frames followed by those under way are a subsequence of the submitted ones with every non-sampling frame in order, and the queue holds at most 2048 |
| CallbackDispatcher.JoinMeansDelivered | src/inner/cb_dispatcher.rs:281-309 | after the sender is dropped and the thread joined, all non-sampling frames have been delivered, in order |
| CallbackDispatcher.DrainingEnds | src/inner/cb_dispatcher.rs:281-309 | after the sender is dropped the thread is never stuck and every move lowers the remaining work |
| CallbackDispatcher.ProgressNeverGoesBack | src/inner/cb_dispatcher.rs:177-203 | if a task's progress is submitted ascending it is delivered ascending, drops or not |
| CallbackDispatcher.Dispatcher.SubmitProgress | src/inner/cb_dispatcher.rs:177-203 | a sampling frame is dropped exactly when the queue is full; any other is appended after waiting for room |
| CallbackDispatcher.Dispatcher.SubmitComplete | src/inner/cb_dispatcher.rs:206-217 | a completion is always appended |
| CallbackDispatcher.Dispatcher.Send | src/inner/cb_dispatcher.rs:197-202 | the blocking send appends its frame after the thread has made room, losing nothing |
| CallbackDispatcher.Dispatcher.ReceiveOne | src/inner/cb_dispatcher.rs:281-309 | one turn delivers the oldest queued frame |
| CallbackDispatcher.Dispatcher.Join | src/inner/cb_dispatcher.rs:281-309 | the loop delivers the whole queue in order |
| DownloadCheckpointSafety.StepKeepsInv | src/transfer_task.rs:822-941 | every step, I/O error, write-back and crash keeps the checkpoint invariant |
| DownloadCheckpointSafety.CrashNeverExposesMissingBytes | src/transfer_task.rs:56-118 | after any interleaving of writers, stagers, timers, forced checkpoints, errors, write-backs and earlier crashes, every part of every snapshot a crash could leave is on the disk in full |
| DownloadCheckpointSafety.ForcedCheckpointIsComplete | src/transfer_task.rs:938-941 | when a forced checkpoint returns success, every part whose writer had returned is in every snapshot a crash could leave |
| DownloadCheckpointSafety.NoDeadlock | src/transfer_task.rs:719-731 | with the lock order barrier then file, some actor that has not returned can always step |
| DownloadCheckpointSafety.BarrierExcludes | src/transfer_task.rs:646-731 | at most one actor is inside the barrier and at most one touches the file |
| DownloadTarget.Target.WriteAt | src/transfer_task.rs:694-713 | the write loop changes exactly the part's cells to the received bytes and keeps the invariant |
| DownloadTarget.Target.SyncData | src/transfer_task.rs:902-913 | afterwards the disk holds everything written, and every surviving snapshot stays durable |
| DownloadTarget.Target.Checkpoint | src/transfer_task.rs:873-936 | success publishes exactly what was staged after a full sync; failure keeps it staged and adds at most the new snapshot as a survivor; a stale timer does nothing |
| DownloadTarget.Target.Stage | src/transfer_task.rs:822-871 | stages exactly the part; a part already staged is accepted only with a successful checkpoint; when a timer is asked for |
| DownloadTarget.Target.WriteAndStage | src/transfer_task.rs:646-717 | a truncated target is refused untouched; otherwise the bytes are written and the part staged or published |
| TargetLease.LockFiles.Acquire | src/target_lease.rs:26-86 | locks all keys or none, and fails exactly when another owner holds one |
| TargetLease.LockFiles.TakeAll | src/target_lease.rs:45-78 | the try-lock loop, giving back what it took on a conflict |
| TargetLease.LockFiles.Unlock | src/target_lease.rs:134-140 | releases exactly the given keys |
| TargetLease.SortKeys | src/target_lease.rs:142-173 | the keys strictly ascending, and the same keys |
| TargetLease.Dedup | src/target_lease.rs:142-173 | removing repeats from sorted keys leaves them strictly ascending with the same members |
| TargetLeaseRace.LiveLeasesAreDisjoint | src/target_lease.rs:26-86 | over all interleavings two live leases share no key |
| TargetLeaseRace.FailedHoldsNothing | src/target_lease.rs:44-86 | a failed acquisition holds no key |
| TargetLeaseRace.SomeContenderWins | src/target_lease.rs:26-86 | among contenders racing from a free state without I/O errors at least one wins once all are through |
| UploadSnapshot.ReadExactAt | src/upload_file.rs:861-883 | for any short reads, interruptions and rewriting: exactly the requested number of bytes, each seen at its own position; on an unchanged file without faults, success exactly when the file has them |
| UploadSnapshot.FeedBlocks | src/upload_file.rs:831-841 | the inner loop keeps "every whole block digested, the rest in the hasher" for block sizes that need not divide the buffer |
| UploadSnapshot.ScanFileAt | src/upload_file.rs:795-855 | whatever the file does meanwhile, an accepted scan is the scan of one content, the bytes its reads returned: entry i is the digest of block i, there are ceil(len/block) entries with the partial tail, and both whole-file digests cover all bytes once; on an unchanged file that content is the file; the size limits are errors |
| UploadReads.ReadBlock | src/upload_file.rs:498-539 | an accepted block is the original block whatever the file did, if the digest is collision-free |
| UploadReads.CopyBlock | src/upload_file.rs:498-546 | one turn extends the output by exactly the block's share of the range |
| UploadReads.ReadRange | src/upload_file.rs:429-548 | an accepted range is exactly the originally hashed bytes; ranges beyond the snapshot are refused; an unchanged file is always accepted |
| UploadReads.ReadParts | src/upload_file.rs:429-548 | accepted reads over any partition join to the originally hashed bytes though each read may meet a rewritten file |
| UploadReads.UploadSnapshotParts | src/upload_file.rs:429-548 | scan once, then read in parts from whatever the file has become: what is accepted is exactly what was scanned |
| ChunkGrid.ExpectedSizeExact | src/aliyun-oss-direct/upload.rs:1048-1068 | a size exists exactly for the pieces of the plan, is a full chunk except for the last, and the last ends at the total, despite the overflow checks |
| ChunkGrid.TilesExactly | src/aliyun-oss-direct/upload.rs:972-1045 | on the grid, all needed pieces present is equivalent to every byte before the offset covered |
| ChunkGrid.PiecesDoNotOverlap | src/aliyun-oss-direct/upload.rs:994-1045 | pieces on the grid overlap only if equal and lie wholly before or after a valid offset |
| OssParts.ParsePage | src/aliyun-oss-direct/xml.rs:139-176 | accepts exactly well-formed pages and returns the same entries strictly ascending |
| OssParts.TakePage | src/aliyun-oss-direct/upload.rs:435-473 | one turn of the pagination loop: whether the page ends, continues or breaks the listing |
| OssParts.Accept | src/aliyun-oss-direct/upload.rs:444-459 | the insertion loop refuses exactly parts at or below the marker and lists above the limit |
| OssParts.ListParts | src/aliyun-oss-direct/upload.rs:369-480 | against any server, within 10 000 requests: succeeds exactly on a complete listing and returns the strictly ascending concatenation of its pages |
| OssParts.ListingUnique | src/aliyun-oss-direct/upload.rs:460-473 | a server's pages complete at most one listing |
| OssResume.HasPart | src/aliyun-oss-direct/upload.rs:1030-1043 | the binary search finds a part exactly when it is listed |
| OssResume.ValidateParts | src/aliyun-oss-direct/upload.rs:994-1045 | accepts exactly the lists whose parts have their planned place and size and cover every byte before the offset |
| OssResume.Resume | src/aliyun-oss-direct/upload.rs:625-634 | a resume is accepted exactly when the offset is on the grid and the pages form a complete listing that tiles everything before it |
| OssSessions.ParsePage | src/aliyun-oss-direct/xml.rs:94-132 | accepts exactly well-formed pages and returns the key's upload ids in order |
| OssSessions.Turn | src/aliyun-oss-direct/upload.rs:301-360 | one turn of the search: every stop and every continuation, against any server and against an ordered one |
| OssSessions.TryAdopt | src/aliyun-oss-direct/upload.rs:214-367 | for any server the markers strictly advance and an accepted answer is the only id on the pages read, or none; for a server listing in order in non-empty pages the answer is none, the one id, or an error exactly for zero, one or several sessions, despite the early exit |
| AzureBlockId.DecodeEncode | src/azure-blob-direct/upload.rs:45-47 | base64 decoding undoes encoding for all bytes |
| AzureBlockId.EncodeDecode | src/azure-blob-direct/xml.rs:29-35 | whatever the strict decoder accepts was the canonical encoding |
| AzureBlockId.BlockIdRoundTrip | src/azure-blob-direct/xml.rs:29-47 | parsing a block id gives its index back exactly for indices below 100 000 000, else an error |
| AzureBlockId.ParseAcceptsExactlyIds | src/azure-blob-direct/xml.rs:29-47 | a name is accepted exactly when it is the id of some index, namely of the returned one |
| AzureBlockId.EightDigitsAreEnough | src/azure-blob-direct/xml.rs:33-45 | the re-encoding and re-formatting checks reject nothing beyond eight decoded digits |
| AzureBlockId.BlockIdInjective | src/azure-blob-direct/upload.rs:45-47 | distinct indices have distinct ids |
| AzureCommit.StepKeepsInv | src/azure-blob-direct/upload.rs:251-349 | storing or recording one block keeps every recorded block stored with its own bytes |
| AzureCommit.CommitFromInv | src/azure-blob-direct/upload.rs:358-430 | wherever every recorded block is stored, completion commits the source if all are recorded and nothing otherwise |
| AzureCommit.CommitIsTheSource | src/azure-blob-direct/upload.rs:358-430 | for every order, interleaving and repetition of uploads after a fresh prepare, and any leftovers, completion commits exactly the source bytes if every block was recorded and nothing otherwise |
| AzureCommit.RecordedStays | src/azure-blob-direct/upload.rs:343-343 | a recorded block stays recorded in every continuation |
| AzureCommit.ParseBlocks | src/azure-blob-direct/xml.rs:49-78 | accepts exactly lists of distinct canonical ids with positive sizes and returns those blocks sorted by index |
| AzureCommit.CheckPresent | src/azure-blob-direct/upload.rs:667-680 | true exactly when every index below the count is recorded |
| AzureCommit.ValidateEntries | src/azure-blob-direct/upload.rs:601-633 | accepts exactly the lists that tile everything before the offset |
| AzureSession.Session.PrepareStart | src/azure-blob-direct/upload.rs:201-232 | a start at zero forgets every block; a resume is refused, ready by the session's own record, or in need of a listing |
| AzureSession.Session.PrepareFinish | src/azure-blob-direct/upload.rs:233-249 | on whatever the record has become meanwhile, a resume goes through exactly when the listing tiles everything before the offset, and then its blocks join the record |
| AzureSession.Session.UploadChunk | src/azure-blob-direct/upload.rs:251-349 | on a chunk of the grid the call is the machine's store and, once accepted, its record |
| AzureSession.Session.Complete | src/azure-blob-direct/upload.rs:358-430 | the call is the machine's commit, and success clears the record |
| AzureSession.Session.UploadInOrder | src/azure-blob-direct/upload.rs:201-430 | a whole upload in any order with any failures and repetitions commits the source exactly when every block was accepted at least once |
| XmlTrees.PreflightAcceptsExactly | src/provider_xml.rs:35-131 | a rendered tree with text, comments, CDATA, instructions and quoted attributes is accepted exactly when depth and attributes are at most 64 and the raw counts are within budget |
| XmlTrees.ScanForest | src/provider_xml.rs:35-80 | scanning a rendered forest in front of anything ends where that begins, exactly when the forest fits the remaining depth |
| XmlTrees.GrammarCommentsAreValid | src/provider_xml.rs:82-100 | every comment of section 2.5 of XML 1.0 meets the model's condition on comments |
| XmlPreflight.ScanTag | src/provider_xml.rs:102-131 | every accepted tag consumes input, so the scan terminates on any bytes |
| XmlPreflight.SkipXmlMarkup | src/provider_xml.rs:82-100 | the search loop equals "everything after the first terminator" |
| XmlPreflight.ScanXmlTag | src/provider_xml.rs:102-131 | the quote and attribute loop equals the recursive scan |
| XmlPreflight.PreflightXml | src/provider_xml.rs:35-80 | the whole loop equals the recursive scan on any input |
| IdentityFraming.FrameCancels | src/http_breakpoint.rs:351-354 | a length-prefixed field in front of equal bytes is the same field, and so is the rest |
| IdentityFraming.HeaderBytesExact | src/http_breakpoint.rs:323-349 | header bytes agree exactly when every name outside the per-part ones has the same values in order |
| IdentityFraming.GroupHeaders | src/http_breakpoint.rs:327-338 | the first loop builds the ordered map of lower-case names without the per-part headers |
| IdentityFraming.AppendGroup | src/http_breakpoint.rs:342-348 | the inner loop appends a group's frames with their count |
| IdentityFraming.CanonicalResumeHeaders | src/http_breakpoint.rs:323-349 | the grouping and appending loops produce those bytes |
| DownloadIdentity.PreimageExact | src/dflt/default_http_transfer.rs:733-746 | pre-images agree exactly when resource, validator and context agree and the authorisation contexts have the same contents |
| DownloadIdentity.FeedIdentity | src/dflt/default_http_transfer.rs:733-746 | the hasher updates feed that pre-image |
| PresignedQuery.RenewalKeepsIdentity | src/dflt/default_http_transfer.rs:633-746 | for any key policy, any moves of signing pairs and value changes of non-principal ones in a query without empty segments leave the pre-image unchanged |
| PresignedQuery.PresignedRenewalKeepsIdentity | src/dflt/default_http_transfer.rs:527-746 | the same for the recognised AWS, Google, OSS, legacy and Azure key lists |
| PresignedQuery.PrincipalsSeparate | src/dflt/default_http_transfer.rs:679-686 | equal identities mean the same resource, the same user context, and the same principal pairs |
| PresignedQuery.PrincipalsAreSigned | src/dflt/default_http_transfer.rs:527-612 | every principal key belongs to one of the recognised signing schemes |
| PresignedQuery.EmptySegmentBindsWholeQuery | src/dflt/default_http_transfer.rs:687-726 | with empty segments two URLs share an identity only if base and whole raw query agree |
| PresignedQuery.RawResourceInjective | src/dflt/default_http_transfer.rs:717-726 | the raw form of the resource determines base and segments |
| OssCanonicalQuery.ReorderingKeepsCanonical | src/aliyun-oss-direct/signing.rs:151-174 | any reordering that keeps equal names in order gives the same string |
| OssCanonicalQuery.CanonicalExact | src/aliyun-oss-direct/signing.rs:151-174 | two strings agree exactly when names repeat equally often and last values agree, or both queries are blank |
| OssCanonicalQuery.BlankQueriesCollide | src/aliyun-oss-direct/signing.rs:151-174 | the exception at its input: a lone `=` is signed like no query, though they differ |
| OssCanonicalQuery.ComponentsClean | src/aliyun-oss-direct/signing.rs:152-164 | the components of every raw query meet the condition of that result |
| OssCanonicalQuery.ReadQuery | src/aliyun-oss-direct/signing.rs:152-165 | the loop keeps every name and, in the map, the last value of each |
| OssCanonicalQuery.CanonicalQuery | src/aliyun-oss-direct/signing.rs:151-174 | the loop with its map and name vector produces that string for every raw query |
| AzureCanonicalResource.ResourceIgnoresOrder | src/azure-blob-direct/signing.rs:155-172 | any permutation of the decoded pairs gives the same canonical resource |
| AzureCanonicalResource.BuildResource | src/azure-blob-direct/signing.rs:155-172 | the map and append loops produce it |

## Left out

- HTTP sending, TLS, redirects, retries with delays and real time: responses, pages, results and timer wake-ups are inputs or events.
- Lock poisoning: every mutex is assumed to be usable.
- The transfer executor and its workers: each `close` succeeds, fails, or fails after shutting down.
- Digests: SHA-256, MD5 and HMAC are function parameters; only `ReadBlock`, `ReadRange` and `ReadParts` assume that one is collision-free.
- DiscardedExactlyAfterClose: the exact condition is for states in which no dispatcher has died with an unacknowledged job; `EarlyHandOverIsNeverDiscarded` needs no such condition.
- WaiterIsWoken: counts steps of the teardown and of its notification; that a scheduler gives those threads their turn is not part of this model.
- LiveBodiesBounded: counts an active download as a whole limit, not as the bytes received so far.
- CrashNeverExposesMissingBytes: assumes that a successful sync writes every earlier write and that every writer writes the one remote content; truncation of the target, by another process or by the serial rollback and compaction of the layout, is not an event.
- WriteAndStage: reports the length check through a parameter and does not model file growth.
- ReadParts: the reopening of the file handle and the metadata comparison of a snapshot are not part of this model.
- Acquire: path normalisation, the computation of the keys of a target and the digest that names their lock files are not part of this model; keys are given and each has its own lock file.
- TryAdopt: URL decoding of keys is not part of this model, and all refusals are one error.
- CommitIsTheSource: covers sessions that start at offset zero; after a resume the service is trusted for the bytes of blocks it lists.
- PreflightAcceptsExactly: input is a sequence of characters, one per byte, and the parse by roxmltree after the scan is not part of this model.
- PresignedRenewalKeepsIdentity: URL parsing, form decoding and re-rendering are parameters, and URLs that do not parse are not part of this model.
- Collect: machine words are 64 bits wide and allocation does not fail.
- The canonical header lines of an Azure signature, string-to-sign assembly and signing keys: only easy members.
- Builders, configuration checks, error texts, log redaction, status codes, counters and the presigned helper constructors: only easy members.
