# Import pipeline: a verified model

This project models a service that imports newline-delimited JSON files of transactions. Uploads create
imports; polling workers claim the job of an import under a lease, stream its file in batches through a
scoring pool and persist each batch in one database transaction. Workers crash, overlap, lose replies and
repeat batches; uploads race for the same idempotency key; sweeps remove orphaned files while others upload.

The database protocols are state machines whose steps are single SQL statements or transactions, with a
crash possible between any two of them. Their theorems speak about every run. The code that works in place
(batching loop, repositories, thread pool, semaphore, poller, disk storage, line counter, retry loop) is
written as classes and loops, and each of their operations is proved to perform the matching step or to
compute the specified function. Run `dafny verify dfyconfig.toml` to check everything.

| file | content |
|---|---|
| Ndjson, LineReader | trimming, blank lines and UTF-8; counting lines across chunks against splitting into lines |
| Transactions, Identifiers, Fingerprint | validated identifiers, and the canonical string with its decimal and date printing |
| Persistence | insert-or-skip batches and the counters |
| Batching, Classification | one execution of the batching loop against its plan of batches; what the records of a file are, told from its lines |
| Passes, Confluence | every run of overlapping, crashing and repeating passes over one database |
| Leases, LeaseEffects, Finality, Reclaims, JobStore | the lease protocol statement by statement, what each statement does, the repository and the poller |
| ThreadPool, Semaphore | the scoring pool and the hand-off semaphore |
| Storage, Uploads, Creation, Sweeps | files on disk, idempotent creation, and the orphan sweep in real time |
| Retry, Pagination | bounded retry over cyclic cause chains; keyset pages over fixed and growing tables |

## What the proofs found

- **Sweep boundary.** With D the longest time between consecutive writes and from the last write to the
  commit, and L the longest time from listing the references to taking the cutoff, the sweep is safe exactly
  when D + L < ORPHAN_AGE_MS. Equality already loses a file, because a modification time equal to the cutoff
  counts as old (src/infrastructure/storage/disk-file-storage.ts:90). Bounding only the time from the last
  write to the commit is not enough for any age: an upload that pauses long enough loses its file.
- **Line count.** For every file, compared LF segment by LF segment: `totalRecords` exceeds the records processed by
  the segments that are white space including a character other than space, tab and carriage return, and falls
  behind by the records that segments hold beyond their first. A segment holds several records only where a lone
  carriage return or a Unicode separator ends a line inside it, as in "1\r2"; "1\r" does no harm.
- **Fingerprint.** Among validated transactions the canonical string identifies one if and only if its identifiers,
  joined, can be cut into valid identifiers at no other three delimiters. Identifiers without the delimiter always
  qualify; some with it do too ("m|" as merchant), and others collide.
- **Retry.** ARCHITECTURE.md:309 says constraint errors of class 23 are never retried. The repositories pass the
  errors of their statements to `wrapDatabaseError` (src/domain/domain-errors.ts:169-183), which marks all of them
  retryable; the lookup of a taken key (src/infrastructure/repository/import.repository.ts:52-55) is an exception
  and throws unwrapped. The model follows the code.
- **Leases.** A reclaim reads outside its transaction. In a run, rows honour all live leases in every state if and
  only if no reclaim writes over a job on which somebody holds a live lease.
- **Resets.** In every run, resets that find the row leased with attempts left number at most maxAttempts - 1. A
  reset that finds it otherwise comes on top, and a single one is enough to break the bound.
- **Finished imports.** In every run, a finished import stays finished if and only if the second statement of no
  markProcessing falls on it, since that statement has no guard; and a closed job stays closed, and so unclaimed,
  if and only if no first statement of markProcessing and no reset of a late reclaim falls on it. Marks written under
  a live lease do not prevent the latter: a reclaim that read the job earlier can still reset it.
- **Progress.** In every run, processedCount is the records the passes have committed, each batch of a pass once,
  plus the records of batches committed again. A commit whose reply is lost is such a repetition.

## Model

| member | source | states |
|---|---|---|
| Confluence.ReprocessingIsConfluent | src/application/use-cases/process-import-file.use-case.ts:189-262 | any run of crashed, overlapping and repeated passes over a file, one of them completed, leaves the same transactions and the same set of rejected rows as one clean pass of any batch size |
| Confluence.CompletedContent | src/infrastructure/repository/transaction.repository.ts:42-51 | the content of that table: keys stored before are untouched, every other key holds its first occurrence in the file |
| Confluence.CompletedFile | src/application/use-cases/process-import-file.use-case.ts:210-243 | the same told from the lines: a key not stored before is stored exactly if some accepted line has it, as the row of the first such line with its fingerprint and assessment; the new rejected rows are those of rejected lines |
| Confluence.ExecutionIsRun | src/application/use-cases/process-import-file.use-case.ts:99-187 | the acknowledged batches of one loop are a run of the state machine with the same tables, and it may mark completion exactly when it was not cancelled and nothing is left |
| Confluence.FailedExecutionIsRun | src/application/use-cases/process-import-file.use-case.ts:131-162 | so are those of a failed loop together with the batch it handed over last, committed without a reply, and it may not mark completion |
| Confluence.SliceReaches | src/infrastructure/repository/transaction.repository.ts:15-85 | writing any slice of the file that starts within what has been written extends the written prefix to the farther of the two ends |
| Passes.CountersReconcile | src/infrastructure/repository/transaction.repository.ts:53-84 | in every reachable state processed = accepted + duplicate + rejected, accepted is the number of the import's rows and rejected of its rejected rows |
| Passes.CompletedIsComplete | src/application/use-cases/process-import-file.use-case.ts:260-270 | after any completion, for every line of the file that is not white space: an accepted one has its key stored, any other a rejected row with its line number, code, message and capped text; the processed count covers these lines; no hypothesis on leases or crashes |
| Passes.CompletedStoresRecord | src/application/use-cases/process-import-file.use-case.ts:260-270 | the same for the records of the file |
| Passes.ProcessedIsAccounted | src/infrastructure/repository/transaction.repository.ts:70-78 | in every run the processed count is what the passes have committed, each batch of a pass once, plus the records of batches committed again |
| Passes.ProgressBounds | src/application/use-cases/process-import-file.use-case.ts:131-162 | in every run the processed count is at most attempts times the file's records plus the repeated ones; a completed import with one attempt counts each record once if and only if no batch of it was committed twice |
| Passes.LostReplyOvershoots | src/application/use-cases/process-import-file.use-case.ts:131-158 | a run with one attempt and one lost reply in which the processed count exceeds the file's records |
| Passes.StepKeepsInv | src/infrastructure/repository/transaction.repository.ts:19-85 | every step of every pass keeps tables, counters, stored prefixes and completed imports consistent |
| Persistence.TransactionRepository.PersistBatch | src/infrastructure/repository/transaction.repository.ts:15-89 | one transaction inserts the new keys, skips the rest, appends the rejected rows and adds exact counts; a missing import changes nothing |
| Persistence.InsertOverlap | src/infrastructure/repository/transaction.repository.ts:42-51 | inserting a slice that overlaps a written prefix gives the longer prefix |
| Persistence.FirstWriteWins | src/infrastructure/repository/transaction.repository.ts:49 | membership and content after insert-or-skip: old rows win, then the first occurrence |
| Persistence.PersistReconciles | src/infrastructure/repository/transaction.repository.ts:70-84 | a batch that counts its records once keeps the counters of every import reconciled |
| Persistence.PersistKeeps | src/infrastructure/repository/transaction.repository.ts:42-68 | a batch leaves everything stored in place and stores all its keys and rejected rows |
| Batching.ImportRun.Execute | src/application/use-cases/process-import-file.use-case.ts:66-312 | for each outcome its marks, with the total counted over the file's chunks, its cause and its batches: complete runs persist exactly the planned batches, cancelled runs those of the lines before the check line, failed runs whole batches only; never more than a batch is held |
| Batching.ImportRun.ProcessAndMark | src/application/use-cases/process-import-file.use-case.ts:189-311 | the same from the first line on |
| Batching.ImportRun.Conclude | src/application/use-cases/process-import-file.use-case.ts:264-311 | which mark ends an execution, and that a refused mark is followed by a failure mark except on shutdown |
| Batching.ImportRun.Process | src/application/use-cases/process-import-file.use-case.ts:189-262 | what has been handed over and acknowledged when the loop and the trailing flush end |
| Batching.ImportRun.ReadAll | src/application/use-cases/process-import-file.use-case.ts:190-258 | the records read are the full batches plus the ones held back, and the heartbeat and cancellation checks happened where they are due |
| Batching.ImportRun.BeforeLine | src/application/use-cases/process-import-file.use-case.ts:193-208 | the cancellation check runs on every 500th line and reports errors of its own calls only |
| Batching.ImportRun.Heartbeat | src/application/use-cases/process-import-file.use-case.ts:193-200 | the lease is renewed exactly when the interval has passed since the last successful renewal |
| Batching.ImportRun.TakeLine | src/application/use-cases/process-import-file.use-case.ts:210-257 | one line extends the records by its classification and flushes at the batch size |
| Batching.ImportRun.AddRecord | src/application/use-cases/process-import-file.use-case.ts:216-243 | the accumulators together hold one more record, on the right side |
| Batching.ImportRun.Flush | src/application/use-cases/process-import-file.use-case.ts:99-187 | a flush hands over the records held and acknowledges them or fails |
| Batching.ImportRun.Score | src/application/use-cases/process-import-file.use-case.ts:110-128 | each row carries the score of its own input |
| Classification.RecordsOfLines | src/application/use-cases/process-import-file.use-case.ts:190-243 | the records of a file are those of its lines that are not white space, one each, in order, each describing its line |
| Classification.NonBlankIff | src/application/use-cases/process-import-file.use-case.ts:191-214 | those lines by number, counted from 1 over all lines, in order |
| Classification.ClassifiesLine | src/application/use-cases/process-import-file.use-case.ts:210-243 | a line gives no record exactly if it is white space; otherwise the accepted transaction with its fingerprint, or a rejection with its line number, the code and message of its cause, and at most 200 or 2000 characters of its text |
| Classification.OneFate | src/domain/transaction/parse-ndjson-line.ts:14-46 | a line that is not white space is accepted as one transaction or rejected, never both |
| Classification.RowsOfLines | src/application/use-cases/process-import-file.use-case.ts:121-128 | the rows to insert are those of the accepted lines in order, each with its fingerprint and the assessment of exactly these two |
| Classification.FirstRowIsFirstLine | src/application/use-cases/process-import-file.use-case.ts:189-262 | the first row with a key is that of the first accepted line with it |
| Batching.PassedMeans | src/application/use-cases/process-import-file.use-case.ts:202-208 | lines that were passed were read without error, and every 500th of them found the job not cancelled |
| Batching.RenewsExactly | src/application/use-cases/process-import-file.use-case.ts:193-200 | a line renews the lease exactly if more than 30 seconds have passed since the last renewal, or since the start |
| Batching.PlanShape | src/application/use-cases/process-import-file.use-case.ts:245-260 | the batches of a file are its records, all but the last of the configured size, or of one if that is not positive |
| Passes.PlanOfLines | src/application/use-cases/process-import-file.use-case.ts:202-208 | a pass plans the records of the whole file, or of the lines before the one at which it will see its cancellation |
| Batching.ChunkShape | src/application/use-cases/process-import-file.use-case.ts:245-257 | planned batches lose nothing, all but the last are full, and their number is the record count over the size, rounded up |
| Batching.ChunkSplit | src/application/use-cases/process-import-file.use-case.ts:245-260 | full batches followed by a rest are what cutting the whole file gives |
| Batching.RecordsPrefix | src/application/use-cases/process-import-file.use-case.ts:190-216 | the records of the first lines are a prefix of the records of the file |
| Leases.LeasesHonouredIff | src/infrastructure/repository/job.repository.ts:169-220 | in every run from the start, rows honour all live leases in every state if and only if no reclaim writes over a job on which somebody holds a live lease |
| Leases.LeaseExclusivity | src/infrastructure/repository/job.repository.ts:28-46 | in such a run two workers with a live lease on a job are the same, and the row names it until then |
| Leases.QuietRunsSpareLive | src/infrastructure/repository/job.repository.ts:70-75 | runs in which no claim or renewal of a job falls between a reclaim's read and its write are such runs |
| Leases.ReclaimWriteExact | src/infrastructure/repository/job.repository.ts:189-220 | a reclaim's write keeps every live lease honoured if and only if nobody holds a live lease on a job it read |
| Leases.LeaseBookkeeping | src/infrastructure/repository/job.repository.ts:30-45 | in every run leasedBy and leasedUntil are null together, pending rows carry no lease, claimed ones do, and attemptCount is the number of claims |
| Leases.ResetsAreBounded | src/infrastructure/repository/job.repository.ts:183-219 | in every run, with reclaims split and overlapping, a job's resets are those that find the row leased with attempts left, at most maxAttempts - 1, plus the others; without others the bound holds |
| Reclaims.OneUnjustifiedResetExceeds | src/infrastructure/repository/job.repository.ts:171-210 | for every limit of two or more, a run in which a single other reset takes a job one over the bound |
| Leases.StepCountsClaim | src/infrastructure/repository/job.repository.ts:34 | only a claim of a job changes its attempt count, by one |
| Leases.StepKeepsBookkeeping | src/infrastructure/repository/job.repository.ts:137-147 | every statement, also between the halves of a reclaim, keeps the rule for lease columns |
| LeaseEffects.ClaimableIff | src/infrastructure/repository/job.repository.ts:36-44 | a job can be claimed exactly if it is pending, or claimed or processing under a lease that has run out |
| LeaseEffects.ClaimTakes | src/infrastructure/repository/job.repository.ts:30-45 | a claim names the worker, counts an attempt, touches nothing else, and shuts others out for exactly the lease |
| LeaseEffects.LeaseIsLeast | src/infrastructure/repository/job.repository.ts:26 | a lease lasts the least whole number of seconds, at least one, that covers the request |
| LeaseEffects.RenewalExtends | src/infrastructure/repository/job.repository.ts:70-75 | a renewal counts from now for the worker the row names, and does nothing for another |
| LeaseEffects.MarkSetsBoth | src/infrastructure/repository/job.repository.ts:228-246 | both statements of a mark, undisturbed, leave job and import with the same status and the lease as it was |
| LeaseEffects.ReleaseFrees | src/infrastructure/repository/job.repository.ts:137-158 | a release by the worker the row names makes the job claimable at once and returns a processing import; any other changes nothing |
| LeaseEffects.ReclaimReads | src/infrastructure/repository/job.repository.ts:169-177 | a reclaim reads exactly the leased jobs whose lease has run out, with their attempts |
| LeaseEffects.ReclaimWrites | src/infrastructure/repository/job.repository.ts:183-219 | its write fails job and import of what it read out of attempts, makes the rest claimable, and touches nothing else |
| LeaseEffects.CancelStops | src/infrastructure/repository/import.repository.ts:96-103 | a cancellation sets job and import to CANCELLING, keeps lease and attempts, and leaves no claim of the job enabled |
| LeaseEffects.CancelIgnoresEnded | src/infrastructure/repository/import.repository.ts:88-94 | it changes nothing for a finished or cancelling import |
| LeaseEffects.CancelledStaysClosed | src/infrastructure/repository/import.repository.ts:96-103 | over any run the job of a cancelled import stays closed, and so unclaimed, if and only if no step reopens it |
| Finality.FinishedStaysIff | src/infrastructure/repository/job.repository.ts:98-103 | in every run from the start, a finished import is finished in every later state if and only if the second statement of no markProcessing falls on it |
| Finality.ClosedStaysIff | src/infrastructure/repository/job.repository.ts:207-210 | in every run, a closed job stays closed, and so is never claimed, if and only if no first statement of markProcessing and no reclaim's reset falls on it |
| Finality.FinishedStaysFinished | src/infrastructure/repository/job.repository.ts:228-246 | if marks are written under a live lease only, and no claim or renewal of a job falls between a reclaim's read and its write, a finished import stays finished and its job stays closed and is never claimed again |
| Finality.LateReclaimReopens | src/infrastructure/repository/job.repository.ts:171-218 | a run with all marks under live leases in which a late reclaim returns a completed import's job, and the next worker returns the import to PROCESSING |
| Finality.StepKeepsFinalInv | src/infrastructure/repository/import.repository.ts:76-111 | a cancellation between the two statements of a mark, and every other step that respects leases in the two ways above, keeps finished imports with closed jobs |
| Finality.TimelyHolds | src/infrastructure/repository/job.repository.ts:93-135 | while rows honour live leases, a mark under a live lease comes from the worker the row names and from no other, and no pending reclaim has read the job |
| Finality.LateMarkReopens | src/infrastructure/repository/job.repository.ts:93-104 | a run in which a late mark returns a completed import to PROCESSING |
| Finality.ClaimInsideReclaimLosesLease | src/infrastructure/repository/job.repository.ts:171-219 | a run in which a claim between the halves of a reclaim loses its live lease |
| Finality.OverlappingReclaimsExceedBound | src/infrastructure/repository/job.repository.ts:171-210 | a run in which three overlapping reclaims reset a job three times after one claim |
| JobStore.Repository.ClaimNext | src/infrastructure/repository/job.repository.ts:22-61 | claims the oldest eligible unlocked job exactly as a claim step does, or proves there is none |
| JobStore.Repository.RenewLease | src/infrastructure/repository/job.repository.ts:63-79 | extends the lease only if the row still names the worker |
| JobStore.Repository.UpdateJob | src/infrastructure/repository/job.repository.ts:235-238 | the first statement of a mark |
| JobStore.Repository.UpdateImport | src/infrastructure/repository/job.repository.ts:239-242 | the second statement, in whatever state others have left |
| JobStore.Repository.UpdateBoth | src/infrastructure/repository/job.repository.ts:228-246 | both statements when nothing falls between them |
| JobStore.Repository.ReleaseJobRow | src/infrastructure/repository/job.repository.ts:139-146 | returns the job if the row still names the worker |
| JobStore.Repository.ReleaseImportRow | src/infrastructure/repository/job.repository.ts:154-157 | returns the import only if that is processing, in whatever state others have left |
| JobStore.Repository.ReleaseLease | src/infrastructure/repository/job.repository.ts:137-163 | both statements when nothing falls between them, the second only if the first matched |
| JobStore.Repository.ReadExpired | src/infrastructure/repository/job.repository.ts:169-177 | reads exactly the leased rows whose lease ran out, with their attempt counts |
| JobStore.Repository.WriteReclaimed | src/infrastructure/repository/job.repository.ts:183-222 | four updates fail the exhausted jobs and reset the others, and the counts returned split what was read |
| JobStore.Repository.RequestCancellation | src/infrastructure/repository/import.repository.ts:76-111 | unknown, finished and cancelling imports are left alone; any other is set to CANCELLING with its job |
| JobStore.JobPoller.Loop | src/worker/job-poller.service.ts:101-157 | every claim is executed once and in order, reclaims happen exactly when idle and due, and the loop ends only when told or interrupted |
| JobStore.JobPoller.Stop | src/worker/job-poller.service.ts:71-99 | releases the unfinished job and only that |
| JobStore.UnfinishedIsLastClaim | src/worker/job-poller.service.ts:127-155 | the job left over is the last one claimed, and there is none if every execution returned |
| JobStore.UnfinishedExactly | src/worker/job-poller.service.ts:127-155 | the last job claimed is left over exactly if its execution did not return |
| JobStore.ClaimsExactly | src/worker/job-poller.service.ts:106-108 | the claims are those of the turns that got a job, one each, in order |
| JobStore.ReclaimsExactly | src/worker/job-poller.service.ts:118-125 | a turn reclaims exactly if it is idle and more than 30 seconds have passed since the last reclaim |
| JobStore.ReclaimsAreSpaced | src/worker/job-poller.service.ts:118-125 | an idle worker's reclaims are more than the interval apart |
| ThreadPool.TaskConservation | src/infrastructure/concurrency/worker-thread-pool.ts:47-130 | in every run a submitted task is in exactly one place: queued, held by one slot, or settled once |
| ThreadPool.OwnReplyOnly | src/infrastructure/concurrency/worker-thread-pool.ts:97-112 | tasks are numbered in submission order and a reply settles only the task of its own number |
| ThreadPool.SettledIff | src/infrastructure/concurrency/worker-thread-pool.ts:97-130 | in every run a task is settled for a cause exactly when an event settles it so: a reply to the task its slot holds, with the reply's own flag; the loss of the worker holding it, by an error or by an unexpected exit before shutdown; or shutdown while it waits |
| ThreadPool.DispatchesInOrder | src/infrastructure/concurrency/worker-thread-pool.ts:143-156 | idle slots get the waiting tasks in the order of both, as many as there are, and the others are left alone |
| ThreadPool.LostSlotIsReplaced | src/infrastructure/concurrency/worker-thread-pool.ts:115-141 | until shutdown, an active slot whose worker is lost makes room for a new one at its place and gets no task again |
| ThreadPool.PoolLiveness | src/infrastructure/concurrency/worker-thread-pool.ts:135-156 | until shutdown the pool keeps its size and no slot idles while a task waits; afterwards nothing waits |
| ThreadPool.StepKeepsInv | src/infrastructure/concurrency/worker-thread-pool.ts:61-156 | every event keeps conservation, order, size and work conservation |
| ThreadPool.WorkerThreadPool.ScoreBatch | src/infrastructure/concurrency/worker-thread-pool.ts:47-59 | refused in shutdown, nothing for an empty batch, otherwise queued and dispatched |
| ThreadPool.WorkerThreadPool.DispatchQueue | src/infrastructure/concurrency/worker-thread-pool.ts:143-156 | hands waiting tasks to idle slots in slot order |
| ThreadPool.WorkerThreadPool.Post | src/infrastructure/concurrency/worker-thread-pool.ts:148-154 | takes the head of the queue under the next task number |
| ThreadPool.WorkerThreadPool.OnMessage | src/infrastructure/concurrency/worker-thread-pool.ts:89-113 | ignores replies for any other task, settles its own with the reply's flag, and dispatches |
| ThreadPool.WorkerThreadPool.OnError | src/infrastructure/concurrency/worker-thread-pool.ts:115-120 | rejects the task held, and only that, and replaces the slot |
| ThreadPool.WorkerThreadPool.OnExit | src/infrastructure/concurrency/worker-thread-pool.ts:122-130 | does so for unexpected exits only |
| ThreadPool.WorkerThreadPool.ReplaceSlot | src/infrastructure/concurrency/worker-thread-pool.ts:135-141 | replaces a slot that is still in the pool, once |
| ThreadPool.WorkerThreadPool.BeginShutdown | src/infrastructure/concurrency/worker-thread-pool.ts:61-69 | rejects everything queued in order and accepts nothing more |
| ThreadPool.WorkerThreadPool.EndShutdown | src/infrastructure/concurrency/worker-thread-pool.ts:71-73 | empties the pool |
| Semaphores.SemaphoreIsFair | src/infrastructure/concurrency/semaphore.ts:10-35 | in every run: limit = available + holders, no more than limit functions run, waiting means no permit is free, and grants follow arrival order |
| Semaphores.AllReturned | src/infrastructure/concurrency/semaphore.ts:27-34 | once every run has ended all permits are back and nobody waits |
| Semaphores.StepKeepsInv | src/infrastructure/concurrency/semaphore.ts:10-25 | arrival, resumption and finish, normal or by throwing, keep permits and order |
| Semaphores.Semaphore.Create | src/infrastructure/concurrency/semaphore.ts:5-8 | a limit below one is refused, any other starts with all permits |
| Semaphores.Semaphore.Acquire | src/infrastructure/concurrency/semaphore.ts:10-16 | performs an arrival and tells whether the caller waits |
| Semaphores.Semaphore.Release | src/infrastructure/concurrency/semaphore.ts:18-25 | performs a finish: hands the permit to the next in line or returns it |
| Semaphores.Semaphore.GaugesAreExact | src/infrastructure/concurrency/semaphore.ts:36-42 | the gauges report granted and waiting runs |
| Sweeps.SweepsAreSafeIff | src/infrastructure/storage/disk-file-storage.ts:73-101 | for uploads whose writes and commit follow each other within D and sweeps that take at most L to list, no interleaving loses a referenced file if and only if D + L is below the age guard |
| Sweeps.StalledUploadLost | src/infrastructure/storage/disk-file-storage.ts:83-93 | with a bound from the last write to the commit only, some run loses the file, whatever the age guard |
| Sweeps.OnlySweepsLoseFiles | src/application/use-cases/create-import.use-case.ts:64-89 | in every run without a sweep's removal, each referenced path is on disk |
| Sweeps.DoomedIsLost | src/worker/orphan-file-sweeper.service.ts:40-43 | a file a sweep has found stale belongs to no import and can no longer be committed in time |
| Sweeps.StepKeepsSweepInv | src/infrastructure/storage/disk-file-storage.ts:85-98 | every step within the bounds keeps referenced files on disk, including steps between a sweep's look at a file and its removal |
| Uploads.CreationIsIdempotent | src/infrastructure/repository/import.repository.ts:20-65 | in every interleaving an import has exactly one key, file and job; successful requests with a key return one import, and at most one reports it as new |
| Uploads.OrphansComeFromErrors | src/application/use-cases/create-import.use-case.ts:81-90 | once all requests have ended, an unreferenced file belongs to one that ended with a database error or a crash |
| Uploads.OnlyKeyIsReplay | src/infrastructure/repository/import.repository.ts:113-147 | of all unique indexes only the one on the key is taken for a replay, however the driver reports it |
| Uploads.ConflictIff | src/infrastructure/repository/import.repository.ts:113-147 | a replay is a known unique violation on exactly the column key, read from the error's target or else from the driver's constraint |
| Uploads.NewKeyCreates | src/infrastructure/repository/import.repository.ts:24-51 | under a new key the transaction inserts the request's import, key, file and job |
| Uploads.TakenKeyReplays | src/infrastructure/repository/import.repository.ts:52-61 | under a taken key nothing is inserted, the request answers with the key's import, and its own file is deleted |
| Uploads.TakenIdFails | src/infrastructure/repository/import.repository.ts:64 | a taken import id is an error and changes nothing |
| Uploads.SweepPrepares | src/infrastructure/storage/disk-file-storage.ts:76-83 | a sweep lists exactly the referenced paths, reads the directory and takes its cutoff |
| Uploads.SweepDooms | src/infrastructure/storage/disk-file-storage.ts:88-91 | it dooms exactly the files no younger than the cutoff that it did not list |
| Uploads.StepKeepsTables | src/infrastructure/repository/import.repository.ts:24-49 | every step keeps one key, one file and one job for each import |
| Uploads.StepKeepsOutcomes | src/infrastructure/repository/import.repository.ts:52-61 | every step keeps what each request's outcome says about key, import and file |
| Creation.ImportRepository.CreateOrReturnExisting | src/infrastructure/repository/import.repository.ts:20-65 | all four rows or none; a taken key is answered with its import, any other failure changes nothing |
| Creation.CreateImport.Record | src/application/use-cases/create-import.use-case.ts:74-92 | a new import keeps the file, a replay deletes it, a database error leaves it |
| Creation.CreateImport.Execute | src/application/use-cases/create-import.use-case.ts:56-92 | refused exactly if the file name ends in none of the three suffixes or the media type is none of the four; every other error exactly in its case; without a database error the files on disk stay exactly the referenced ones, and replays return the stored import |
| Creation.CreateImport.SaveAndRecord | src/application/use-cases/create-import.use-case.ts:64-92 | an accepted upload ends in exactly one of: too large, broken, database error, replay with its file gone, or a new import with its file |
| Storage.DiskFileStorage.Save | src/infrastructure/storage/disk-file-storage.ts:24-66 | a stream is stored whole, with size and checksum of its content, exactly when it ends normally within the limit; otherwise no file is left and the error says why |
| Storage.DiskFileStorage.Delete | src/infrastructure/storage/disk-file-storage.ts:68-71 | removes a file below the root, and changes nothing for any other path or a directory |
| Storage.DiskFileStorage.CleanupOrphans | src/infrastructure/storage/disk-file-storage.ts:73-101 | a path disappears exactly if it was listed, accessible, a file, no younger than the cutoff and unreferenced; the result is the number of these |
| Storage.DiskFileStorage.RemoveOrphan | src/infrastructure/storage/disk-file-storage.ts:85-97 | one entry: removed when a file, old enough, unreferenced and accessible |
| Storage.EscapesIff | src/infrastructure/storage/disk-file-storage.ts:104-110 | a path is refused exactly when it is not below the root or its first name there starts with two dots |
| Storage.GeneratedNameStays | src/infrastructure/storage/disk-file-storage.ts:31-34 | a generated name is never refused |
| Storage.SanitizeExtension | src/infrastructure/storage/disk-file-storage.ts:112-115 | the result is a dot with one to ten lower-case letters or digits |
| Storage.ExtensionIff | src/application/use-cases/create-import.use-case.ts:95-108 | a file name is accepted for an extension exactly when it ends in it, whatever the case, and the stored name keeps it |
| Storage.AcceptedIff | src/application/use-cases/create-import.use-case.ts:95-108 | accepted are exactly the names ending, whatever the case, in .ndjson, .jsonl or .json, under one of the four media types |
| Storage.SanitizedIff | src/infrastructure/storage/disk-file-storage.ts:112-115 | one to ten letters and digits after a dot are kept in lower case, anything else becomes .dat |
| LineReader.CountLines | src/infrastructure/streaming/readline-line-reader.ts:22-45 | for every chunking, the number of LF-separated segments with a byte other than CR, space and tab |
| LineReader.CountLaw | src/infrastructure/streaming/readline-line-reader.ts:8-45 | for every file, the count minus the non-blank lines read is the number of LF segments that are white space to the reader only, minus the records segments hold beyond their first; equality and shortfall follow as if-and-only-ifs |
| LineReader.TotalMatchesRecords | src/infrastructure/streaming/readline-line-reader.ts:22-45 | for files whose only line terminators are LF and CR LF, the count is never below the non-blank lines read, and equal exactly when no blank line contains white space other than spaces, tabs and carriage returns |
| LineReader.LoneCarriageReturnDisagrees | src/infrastructure/streaming/readline-line-reader.ts:10-34 | a witness: for "1\r2" the count falls short of the lines read |
| LineReader.ReadLinesGlue | src/infrastructure/streaming/readline-line-reader.ts:8-20 | the lines read, with their endings, are the file again, and no line contains an ending |
| Ndjson.BlankIffAllSpace | src/domain/transaction/parse-ndjson-line.ts:18-22 | a line is blank exactly when it consists of white space |
| Ndjson.TrimCore | src/domain/transaction/parse-ndjson-line.ts:18 | trimming removes white space at both ends and all of it |
| Ndjson.Utf8Decodes | src/domain/transaction/parse-ndjson-line.ts:24 | a character takes as many bytes as its code point needs, and they give it back |
| Fingerprint.UnambiguousIff | src/domain/transaction/compute-fingerprint.ts:18-30 | among the transactions validation returns, a canonical string determines all seven fields if and only if the joined identifiers cannot be cut into valid ones at any other three delimiters |
| Fingerprint.PlainHasOneCut | src/domain/transaction/compute-fingerprint.ts:16-30 | identifiers without the delimiter can be cut in one way only, so the canonical string determines them |
| Fingerprint.PlainIsUnambiguous | src/domain/transaction/compute-fingerprint.ts:18-30 | and that holds against any transaction, validated or not |
| Fingerprint.CanonicalIff | src/domain/transaction/compute-fingerprint.ts:18-30 | canonical strings are equal if and only if amount, currency, timestamp and the joined identifiers are |
| Fingerprint.Collision | src/domain/transaction/compute-fingerprint.ts:16-30 | every other valid cut gives a different validated transaction with the same canonical string |
| Fingerprint.InnerBarCollides | src/domain/transaction/compute-fingerprint.ts:16-30 | a delimiter inside an account collides whenever what precedes it is valid and what follows it is valid in front of the merchant |
| Fingerprint.TrailingBarIdentifies | src/domain/transaction/compute-fingerprint.ts:16-30 | a witness that a delimiter alone does no harm |
| Identifiers.NormalizedIff | src/domain/transaction/validate-transaction.ts:138-148 | what normalizing a required string can return: one to 128 characters, no control characters, no white space at either end |
| Fingerprint.FingerprintSpelled | src/domain/transaction/compute-fingerprint.ts:18-36 | the fingerprint is "v1:" and the hash of all seven parts, in order, joined by the delimiter |
| Fingerprint.FingerprintIff | src/domain/transaction/compute-fingerprint.ts:18-36 | under any hash that tells strings apart, fingerprints are equal if and only if amount, currency, timestamp and the joined identifiers are; for identifiers without the delimiter, if and only if all seven fields are |
| Fingerprint.DescriptionIrrelevant | src/domain/transaction/compute-fingerprint.ts:6-14 | transactions that agree on the seven fields have equal fingerprints under any hash |
| Fingerprint.SplitJoin | src/domain/transaction/compute-fingerprint.ts:30 | splitting at the delimiter undoes joining parts free of it |
| Fingerprint.BarsOfJoin | src/domain/transaction/compute-fingerprint.ts:30 | a joined string has as few delimiters as parts allow exactly when no part contains one |
| Fingerprint.ToFixedInjective | src/domain/transaction/compute-fingerprint.ts:21-22 | printing cents with two decimals is injective and free of the delimiter |
| Fingerprint.ToFixedShape | src/domain/transaction/compute-fingerprint.ts:21-22 | two digits after the point, and the number printed is the amount |
| Fingerprint.IsoInjective | src/domain/transaction/compute-fingerprint.ts:23-24 | printing an instant in ISO form is injective and free of the delimiter |
| Fingerprint.IsoShape | src/domain/transaction/compute-fingerprint.ts:23-24 | 24 characters with their separators, each number printed being that field of the calendar |
| Fingerprint.CivilRoundTrip | src/domain/transaction/compute-fingerprint.ts:24 | the calendar fields of an instant determine it, leap years included |
| Fingerprint.YearsClosedForm | src/domain/transaction/compute-fingerprint.ts:24 | the days before a year, in closed form: the Gregorian leap rule |
| Fingerprint.MonthsClosedForm | src/domain/transaction/compute-fingerprint.ts:24 | the days before a month, in closed form |
| Retry.Execute | src/infrastructure/resilience/exponential-backoff-retry.policy.ts:38-69 | at most the configured calls, all but the last retryable failures; notices count 1, 2, ... with the drawn delays, whose sum is bounded by the ceilings; the result is the last call's |
| Retry.SearchIsExact | src/infrastructure/resilience/exponential-backoff-retry.policy.ts:82-101 | the cause search answers exactly for the first six objects of the chain, cyclic or not |
| Retry.RetryableIff | src/infrastructure/resilience/exponential-backoff-retry.policy.ts:71-80 | exactly which errors are retried, and that every wrapped database error is |
| Retry.ListedIff | src/infrastructure/resilience/exponential-backoff-retry.policy.ts:12-34 | which codes make an error retryable |
| Retry.CeilingSumCapped | src/infrastructure/resilience/exponential-backoff-retry.policy.ts:103-106 | the total delay is at most the cap per retry, and below the geometric sum |
| Retry.ComputeDelay | src/infrastructure/resilience/exponential-backoff-retry.policy.ts:103-106 | the delay is the drawn share of the ceiling, rounded down |
| Retry.CeilingDoubles | src/infrastructure/resilience/exponential-backoff-retry.policy.ts:104 | the ceiling starts at the base and doubles until it reaches the cap |
| Pagination.WalkIsComplete | src/infrastructure/repository/import-query.ts:91-112 | following the cursor over a fixed table yields exactly the records of the import behind the cursor, sorted, each once, in max(1, records / limit rounded up) pages |
| Pagination.GrowingWalk | src/infrastructure/repository/import-query.ts:91-112 | with inserts between pages nothing repeats, only records of the import appear, and a finished walk has every record present at its start |
| Pagination.PageSplits | src/infrastructure/repository/import-query.ts:100-112 | a page is the start of what matches and its cursor is where the rest begins |
| Pagination.ClampLimit | src/application/use-cases/get-reject-transaction.use-case.ts:34-39 | any request gives a limit in 1..200, the largest whole one not above a usable request, and the default otherwise |

## Left out

- HTTP controllers, DTOs, exception filter, logging, metrics, shutdown timers, rate limits: plumbing without a hard property. The running totals of the batching loop feed only a log line.
- Record validation other than that of identifiers, and risk scoring: abstract functions of a line and of a transaction; floating-point arithmetic is not modelled.
- JSON parsing: an abstract function of the trimmed line. SHA-256: an abstract function of the canonical string.
- Amounts: whole cents, so the exponent form that toFixed uses from 1e21 on is not modelled. Instants: the years 1970 to 2200 that validation accepts.
- Characters: Unicode scalar values instead of UTF-16 code units, also in the length limit of identifiers; malformed UTF-8 is not modelled. Lower-casing of file names is for ASCII letters.
- Generated identifiers: file names never repeat; import ids may, and the repository then fails on its primary key. Each worker has one execution at a time, as the poller ensures.
- A job and its import share one identifier, as the unique index on the import of a job allows.
- Clocks: one clock that never runs backwards for database, workers and disk. Configured numbers are numbers (not NaN).
- Leases.LeaseExclusivity: holds in the runs LeasesHonouredIff describes; ClaimInsideReclaimLosesLease is a run outside them.
- Leases.ResetsAreBounded: a bound of maxAttempts - 1 holds for resets that find the row leased with attempts left; OverlappingReclaimsExceedBound and OneUnjustifiedResetExceeds show runs with others. Claims are not bounded: an expired job can be claimed whatever its attempt count.
- Finality.FinishedStaysFinished: needs marks under a live lease and no claim or renewal inside a reclaim; LateMarkReopens and LateReclaimReopens show why, FinishedStaysIff and ClosedStaysIff what is needed exactly. The cancel transaction is one step.
- Confluence.ReprocessingIsConfluent: other imports do not write meanwhile, since they share the keys; rejected rows are compared as a set, because a repeated batch repeats them.
- JobStore.Repository.UpdateBoth: both statements without interference, as is ReleaseLease; UpdateJob, UpdateImport, ReleaseJobRow and ReleaseImportRow are the separate steps. Failure reasons and the times of start and completion are not modelled.
- JobStore.JobPoller.Loop: replies of the database and of executions are inputs; pauses are not modelled.
- Storage.DiskFileStorage.CleanupOrphans: one sweep without interference; Uploads and Sweeps interleave listing, reading, looking and removing with uploads.
- Storage.DiskFileStorage.Save: the file is written in one stretch at one time; Uploads has separate writes. Permission errors of the disk are the broken stream.
- Creation.CreateImport.Execute: one request at a time; Uploads interleaves them.
- The sweep's timer and its error handling; the worker module does not start the sweeper, so its sweeps are optional steps.
- ThreadPool: tasks in flight at shutdown and workers that exit with code 0 are never settled, as in the code.
- Semaphores: a run whose function never returns keeps its permit, as in the code.
- Pagination: record ids are integers with the order of the id column; an empty cursor string counts as no cursor.
- Conformity of status changes to the table of allowed transitions: no repository consults it.
- findFingerprints and duplicate classification: the persist path does not use them.
