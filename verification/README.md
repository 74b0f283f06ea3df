# What the knowledge-base backend guarantees

The repository is a multi-tenant knowledge-base service: uploads are queued, workers index them under
leases, documents and knowledge bases are deleted across three stores, questions are answered as a
stream and recorded, and a browser client keeps one access token fresh. This project models those
protocols and proves what they keep: over every run, every interleaving, every crash point and every
failing call, not over chosen examples. Where the code and its
comments disagree the model follows the code.

## How it is laid out

- **The queue.** `Rows` gives one function for each SQL statement that writes the `document` and
  `ingest_job` tables, and the chunk store. `Queue` is the labelled transition system of workers, HTTP
  callers, crashes and the clock over them; a run is any sequence of enabled steps, and after the claim
  nothing consults `locked_by`, because the program does not. `QueueAlways` and `QueueBudget` prove what
  holds in every run, `QueueTimely`, `QueueAttempts` and `QueueAgreement` what holds while leases are
  respected, `QueueChunks` whose writes a document's chunks and checksum are, `QueueExamples` and
  `OvertakingExamples` why each condition is needed. `ClaimRefinement` splits the claim into begin, row
  lock, statements and commit; `Overtaking`, `Backoff`, `Draining`, `Polling` and `FailingJob` are about
  order, delay and progress.
- **The worker's code.** `Worker.dfy` (module `WorkerCode`) is `claim`, `loadRaw`, `setPhase`, `process`,
  `fail` and `RunOnce` as methods that change the database in place, one parameter for each statement
  that may fail. `Processing` and `WorkerRuns` show that what they do is a run of the queue.
- **Enqueue and dedup.** `Keys`, `Dedup`, and `Enqueue.dfy` (`EnqueueRace`: concurrent enqueues statement
  by statement; `IngestService`: `Enqueue` and `Retry` as written).
- **Delete.** `Cascade` is the ordered removal as functions with a crash point after each step;
  `DeleteCode` is the code, every call of which may fail.
- **Admission.** `Limits` (per-user limiter) and `Quota` (storage quota over runs of the whole queue, and
  the upload handler).
- **Asking.** `Sessions.dfy` (`Sessions`: the repository as written; `Transcripts`: all interleavings of
  its transactions), `Streaming` (from model events to frames), `EventStream` (frames as text and back).
- **Paging and refresh.** `Keyset` covers all four listings and walks over changing tables; `Refresh.dfy`
  is the browser client's single-flight refresh (`Refresh`: the protocol, `ApiClient`: the code).

A run is *timely* when each worker step on a claim happens before that claim's lease ends, the second
write of a two-write pair lands before the job is claimed again, and no delete overlaps a live claim;
crashes, lost writes, takeovers and retries stay allowed. It is *calm* when besides there is no crash and
no lost success commit or first failure write, and the clock does not pass the lease of a worker still
holding a claim. A document is *clean* in a run when no write of a pair on it is lost, no crash cuts a pair on
it short, and no Retry of it starts inside a worker's pair.

## What the code does not do

Each of these is a lemma with a concrete input or run, next to the condition under which the code does.

- A content read that fails is only logged: the document is marked ready with the chunks of an empty
  text and its bytes are cleared (`QueueExamples.FailedReadLosesDocument`; exact condition in
  `QueueTimely.EffectivelyOnceExactly`).
- The checksum short-circuit and the unique key can name different documents. An empty upload is mistaken
  for a document whose read failed (`QueueExamples.FailedReadMisleadsFastPath`), exactly when the matched
  row's content_bytes is not zero (`Dedup.EmptyUploadAgrees`). A pdf or docx upload is compared by its raw
  bytes with the checksum of extracted text, so a file whose bytes are the text of another of that name is
  answered with the other (`QueueExamples.FileMistakenForAnother`; in every run no match agrees with the key
  when the upload's bytes are neither their own extracted text nor that of no bytes:
  `Dedup.FileMatchIsAnotherFile`). `Dedup.MatchAgreesExactly` is the condition for every upload; text uploads
  with content always agree, in any run (`Dedup.FastPathAgreesWithKey`). Each names the digests that must not
  collide.
- A worker that outlives its lease overwrites the finished work of its successor
  (`QueueExamples.LateWorkerLosesDocument`), and its late reschedule hands the job its successor holds to a
  third, so that two workers hold one job within their leases (`QueueExamples.TwoLiveHolders`): exclusion and
  effectively-once indexing are for timely runs. In every run the chunks are those of the last import and
  the checksum that of the last commit (`QueueChunks.ChunksAreLastWritten`,
  `QueueChunks.ChecksumIsLastWritten`).
- Nothing orders a delete with an import: a document deleted between a worker's claim and its import leaves
  chunks without a row (`QueueExamples.DeletedDuringImport`), which no later delete of the knowledge base
  lists (`QueueChunks.StrayStays`). A source has chunks without its row, or during its delete, exactly when
  its last chunk write was an import after the delete's chunk removal (`QueueChunks.StrayExactly`), so never
  in a timely run (`QueueChunks.TimelyChunksAtHome`).
- A Retry between the two writes of a failure leaves the job pending and the document failed, with no
  write lost and nobody late (`QueueExamples.RetryInsideFailureDisagrees`; exactly when rows agree in
  `QueueAgreement.AgreementExactly`).
- `claim` has no attempt cap: a job whose worker always crashes is claimed for ever
  (`QueueExamples.AttemptsUncapped`), and a claim passes the limit exactly by taking over a running job that
  has reached it (`QueueAttempts.LimitPassedExactly`). Reschedules stay capped all the same
  (`QueueBudget.RetryBudget`).
- A job that is taken over keeps its next_run_at, so without any crash one whose success commits keep
  failing goes ahead of a waiting job any number of times (`OvertakingExamples.TakeoversOvertake`). Claims of
  pending jobs are bounded always (`Overtaking.BoundedOvertaking`), all claims by those and one for each
  abandoned claim (`Overtaking.OvertakingPaid`), of which calm runs have none (`Overtaking.CalmOvertaking`).
- Removing chunks before graph references would leave references that no number of reruns removes
  (`Cascade.SwappedOrderDangles`, exactly when the graph refers to the document: `Cascade.SwappedOrderExactly`).
- Deleting no documents at all as a batch still recomputes communities, one by one does not
  (`Cascade.BatchEqualsEach` says exactly when the two agree).
- Deleting a knowledge base leaves its sessions, messages and evaluation runs, which carry its id without a
  foreign key, and whatever communities its namespace has: those it had when there is no detector, else
  those detected in an empty graph (`DeleteCode.DeleteService.DeleteKB`).
- A limiter whose clock steps back admits more than its budget (`Limits.ClockGoingBackOverruns`); what it
  counts at any times is an unbroken row of calls (`Limits.AllowedIffStreakLeft`).
- The quota is exact only for one upload at a time: k concurrent uploads can store k quotas
  (`Quota.OvershootAttained`), and a failed usage read lets anything through (`Quota.FailedReadOverruns`).
- An error answer does not mean that nothing was written: a write in doubt leaves an upload's rows
  (`UploadHandling.Handler.Handle`), a revived document (`IngestService.Service.Retry`), a deleted knowledge
  base (`DeleteCode.DeleteService.DeleteKB`), a session (`Sessions.Repo.EnsureSession`) or a recorded pair
  behind an error frame
  (`Streaming.ErrorAfterRecording`, exactly when: `Streaming.ErrorAfterRecordingExactly`).
- Overlapping asks of one session do not alternate (`Transcripts.OverlappingAsksInterleave`).

Comments that the code does not follow: internal/config/config.go:49 gives the backoff as
base·2^attempts, the code computes base·2^(attempts−1) (internal/ingest/worker.go:259);
internal/eval/store.go:65-68 and internal/sessions/sessions.go:105 speak of newest first, the statements
order by random ids.

## Model

| member | source | states |
|---|---|---|
| Keys.ChecksumShape | internal/ingest/ingest.go:21-24 | a checksum is the prefix and 64 hex digits, and never empty |
| Keys.ChecksumFaithful | internal/ingest/ingest.go:21-24 | checksums are equal exactly for equal content or a SHA-256 collision |
| Keys.KeyTextInjective | internal/ingest/ingest.go:30-37 | the text that is hashed determines kb, source key and checksum, whatever colons the source contains |
| Keys.KeyFaithfulness | internal/ingest/ingest.go:30-37 | two enqueues share a key exactly when kb, source key and checksum agree, or the hash collides on their two key texts |
| Keys.ColonInKbIdConfusesKeys | internal/ingest/ingest.go:30-37 | a kb id with a colon would share keys with another kb |
| Rows.ReplaceSourceExact | internal/ingest/worker.go:186-195 | a re-import leaves exactly the new chunks for its source, without repeats, and every other source's chunks as they were |
| Queue.FailJobTables | internal/ingest/worker.go:242-264 | the first write of a failure updates rows in place and touches no identity column |
| Queue.FailDocTables | internal/ingest/worker.go:251-269 | the same of the second write |
| Queue.CommitTables | internal/ingest/worker.go:196-217 | so does the success transaction |
| QueueAlways.StepKeepsRows | internal/ingest/worker.go:109-270 | no worker, retry or clock step adds or removes a row or changes a key, owner, size or source |
| QueueAlways.AlwaysPaired | internal/ingest/ingest.go:116-149 | in every reachable state documents and jobs are in bijection, keys are unique, and each key is that of the enqueued input |
| QueueAlways.TextsAlwaysParse | internal/ingest/parse.go:36-37 | in every run no text document fails in parsing |
| QueueAlways.DocumentJobAgreement | internal/ingest/worker.go:242-270 | in every run, once the latest pair of writes on a document and its job is complete, pending/running/done/dead matches pending/parsing/ready/failed |
| QueueAgreement.AgreementExactly | internal/ingest/worker.go:242-270 | in every state of every timely run, a document's rows agree if and only if, since the job's last claim, both failure writes or neither went through, or, after a Retry, its document write did and no later failure's |
| QueueAgreement.AgreementBetweenPairs | internal/ingest/worker.go:136-269 | in timely runs the two rows of a clean document match whenever nobody is between paired writes on it, whatever happens to other documents |
| QueueExamples.RetryInsideFailureDisagrees | internal/ingest/ingest.go:215-233 | a timely run without lost writes ends job pending, document failed, because a Retry fell inside a failure's pair |
| QueueBudget.RetryBudget | internal/ingest/worker.go:135-140 | in all runs, between two revivals, claims of a job get strictly increasing attempt numbers and together reschedule at most maxAttempts − 1 times |
| QueueBudget.SuccessiveClaims | internal/ingest/worker.go:122-128 | in all runs, the second of two successive claims of one job was taken past the first one's lease, or the job was written back to pending in between |
| QueueTimely.LeaseExclusion | internal/ingest/worker.go:109-162 | in every state of a timely run at most one live worker holds a claim on a job |
| QueueTimely.EffectivelyOnce | internal/ingest/worker.go:177-228 | in timely runs with any crashes, takeovers and retries a ready document has exactly the chunks and checksum of its enqueued bytes, or of no bytes when its last content read failed |
| QueueTimely.TextsIndexedOnce | internal/ingest/parse.go:36-37 | so a text document has the chunks and checksum of those bytes themselves |
| QueueTimely.PdfIndexedOnce | internal/ingest/parse.go:38-39 | a pdf those of the text the pdf extractor makes of them |
| QueueTimely.DocxIndexedOnce | internal/ingest/parse.go:40-41 | a docx those of the text the docx extractor makes of them |
| QueueTimely.EffectivelyOnceExactly | internal/ingest/worker.go:167-174 | it is indexed from its own bytes if and only if its last content read succeeded or no bytes index alike |
| QueueTimely.ContentSurvives | internal/ingest/worker.go:196-217 | until its job is done a document keeps its enqueued bytes, so a retried dead job can be parsed again |
| QueueExamples.FailedReadLosesDocument | internal/ingest/worker.go:167-174 | a timely run in which a failed read loses the document for good |
| QueueExamples.LateWorkerLosesDocument | internal/ingest/worker.go:202-210 | an untimely run in which a stale worker replaces good chunks by those of an empty text |
| QueueExamples.TwoLiveHolders | internal/ingest/worker.go:259-264 | an untimely run with two workers on one job, both within their leases, because a worker past its own rescheduled it |
| QueueExamples.DeletedDuringImport | internal/ingest/worker.go:186-195 | a run in which a whole delete falls between a claim and its import: the document is gone and its chunks are there |
| QueueChunks.ChunksAreLastWritten | internal/ingest/worker.go:186-195 | in every run a source's chunks are those of its last import, or of what a failed one left, and none after a removal |
| QueueChunks.ChecksumIsLastWritten | internal/ingest/worker.go:202-210 | in every run a document's checksum is that of the text of its last commit, or of what was enqueued before the first |
| QueueChunks.StrayExactly | internal/ingest/delete.go:28-47 | in every run a source has chunks without a row in their kb, or with its delete begun, if and only if its last chunk write was an import of some text after the delete's chunk removal |
| QueueChunks.ChunksAtHome | internal/ingest/delete.go:38-41 | when no import follows its document's chunk removal, every source with chunks has its row, in the kb of their namespace |
| QueueChunks.TimelyChunksAtHome | internal/ingest/worker.go:109-162 | so in every timely run |
| QueueChunks.StrayStays | internal/ingest/delete.go:52-67 | the row of a deleted document never comes back for a kb's delete to list, and what chunks it left stay until it is imported again or a delete names its id |
| QueueChunks.DeleteAgainClears | internal/ingest/delete.go:12-47 | from every reachable state a delete that names a document whose row is gone clears what was left of it |
| QueueExamples.AttemptsUncapped | internal/ingest/worker.go:122-140 | for every n a crash-looping job is claimed n times |
| QueueAttempts.TimelyIsCounted | internal/ingest/worker.go:135-140 | in every state of a timely run a pending job has attempts left and a live holder's attempt number is its row's |
| QueueAttempts.LimitPassedExactly | internal/ingest/worker.go:122-140 | a claim of a timely run passes maxAttempts if and only if it takes over a running job whose attempts already reached it |
| QueueExamples.FailedReadMisleadsFastPath | internal/ingest/ingest.go:101-109 | after a failed read an empty upload is answered with a document its key does not lead to, two named digests not colliding |
| QueueExamples.FileMistakenForAnother | internal/ingest/ingest.go:101-109 | a file whose bytes are the text of an indexed pdf of that name is answered with that pdf, which its key does not lead to, two named digests not colliding |
| ClaimRefinement.CommitIsAClaim | internal/ingest/worker.go:117-160 | a claim transaction that commits finds its row as it locked it, however long after its begin, and has the effect of one atomic claim at the begin's now() |
| ClaimRefinement.FineRefinesAtomic | internal/ingest/worker.go:109-162 | every run of the begin/lock/update/commit system is a run of the queue over the same committed state |
| ClaimRefinement.OneClaimerPerJob | internal/ingest/worker_test.go:204-251 | of any number of concurrent claimers at most one is in a transaction on a job |
| ClaimRefinement.RollbackFreesRow | internal/ingest/worker.go:114 | a claimer can give up at any statement: nothing of it is visible and its row is free again |
| ClaimRefinement.LockTakesEarliest | internal/ingest/worker.go:122-128 | with no other transaction open, the rows a claim can lock are exactly the earliest claimable ones of this moment |
| ClaimRefinement.ClaimInOnePiece | internal/ingest/worker.go:109-162 | left alone, the transaction of such a row runs through from begin to commit and is its claim at this moment |
| Overtaking.BoundedOvertaking | internal/ingest/worker.go:122-128 | in every timely run, crashes, lost commits and takeovers included: once a job is overdue, pending jobs are claimed ahead of it at most as often as there were pending jobs due at or before its time, whatever is enqueued, fails or is retried meanwhile |
| Overtaking.TakeoversBound | internal/ingest/worker.go:122-128 | in every run, timely or not, running jobs are taken over at most as often as they were unattended at first or have been abandoned since, by a crash, a lost commit or failure write, or a lapsed lease |
| Overtaking.OvertakingPaid | internal/ingest/worker.go:122-128 | so in every timely run all claims while an overdue job waits number at most the pending jobs that were ahead of it, the jobs already unattended and the abandonments since |
| Overtaking.NoTakeover | internal/ingest/worker.go:122-128 | without crashes, lost commits or failure writes, and with the clock waiting for leases, every claim is of a pending job |
| Overtaking.CalmOvertaking | internal/ingest/worker.go:122-128 | so in calm timely runs the bound of the pending jobs ahead is on all claims |
| Overtaking.CalmKeepsLimit | internal/ingest/worker.go:135-140 | and no claim passes maxAttempts |
| OvertakingExamples.TakeoversOvertake | internal/ingest/worker.go:196-217 | for every n, without a crash and in time, an overdue job is overtaken n times by one whose success commits fail |
| Overtaking.PositiveBaseBacksOff | internal/ingest/worker.go:259-263 | a positive base whose longest backoff fits in 64 bits always schedules into the future |
| Processing.ProcessIsARun | internal/ingest/worker.go:177-228 | processing a claim, with any of its calls failing, is a legal run of the queue ending in the state `Processed` computes |
| WorkerCode.EarliestExists | internal/ingest/worker.go:122-128 | when a job is claimable there is one with the least next_run_at among the claimable |
| WorkerCode.ParseSource | internal/ingest/parse.go:34-50 | text types give their own bytes, pdf and docx what their own extractor gives, and fail when it gives nothing; unknown types always fail |
| WorkerCode.Worker.constructor | internal/ingest/worker.go:37-48 | settings that are not positive get their defaults, so lease and attempt limit are positive |
| WorkerCode.Worker.Claim | internal/ingest/worker.go:109-162 | exactly when some job is due and every statement goes through, an earliest such job runs for the worker with a lease, one attempt on, its document parsing and all other rows the same; else nothing changes, but for a claim that an error after a commit in doubt hides |
| WorkerCode.Worker.LoadRaw | internal/ingest/worker.go:167-174 | the stored bytes, or none on a missing row, a cleared column or a failed read |
| WorkerCode.Worker.SetPhase | internal/ingest/worker.go:231-238 | both phase writes, each on its own |
| WorkerCode.Worker.Fail | internal/ingest/worker.go:242-270 | dead past the limit, else pending with backoff, both rows naming the error; the two writes fail independently |
| WorkerCode.Worker.Import | internal/ingest/worker.go:186-195 | replaces the source's chunks, by whatever a failed import left when it fails |
| WorkerCode.Worker.Process | internal/ingest/worker.go:177-228 | with no failing call the document is ready with the chunks and checksum of its text, by source type, and its job done; a source without a text or a failed import leaves both rows saying so, and the latter its debris |
| WorkerCode.Worker.RunOnce | internal/ingest/worker.go:67-77 | one claim processed to its end, its document indexed by its own extractor; or nothing claimed and nothing changed, but for a claim in doubt |
| WorkerRuns.ClaimIsAStep | internal/ingest/worker.go:109-162 | the claim method's effect is an enabled claim step of the queue |
| WorkerRuns.ClaimInDoubtIsARun | internal/ingest/worker.go:154-156 | a claim that happened behind an error is a claim step followed by the worker going idle |
| WorkerRuns.TurnIsARun | internal/ingest/worker.go:67-77 | a whole turn is a claim step followed by its processing steps |
| WorkerRuns.RunOnceIsARun | internal/ingest/worker.go:67-77 | whatever RunOnce leaves, some run of the queue leaves |
| Draining.TurnSpends | internal/ingest/worker.go:135-140 | a turn adds one attempt to an open job, never raises the claims it has left, and lowers them when the ending write goes through; nothing dies below the limit |
| Draining.TurnDue | internal/ingest/worker.go:259-264 | a job a turn makes pending again is due when its backoff has passed |
| Polling.Run | internal/ingest/worker.go:81-101 | the loop leaves exactly the history of its polls, each a claim processed or a sleep, until one is cancelled; its claims are at most those the jobs have left and polls lost an ending write |
| Polling.IdleOnlyWhenNothingIsDue | internal/ingest/worker.go:88-99 | a poll whose statements go through claims a job if and only if one is claimable |
| Polling.PollsSettle | internal/ingest/worker.go:81-101 | enough such polls leave every job done or dead: for each claim the jobs have left, as many as outlast every due time and backoff, and one more |
| Draining.DoubtfulKeepsBudget | internal/ingest/worker.go:154-156 | a claim in doubt never raises the budget |
| Draining.DrainOnce | internal/ingest/worker.go:67-77 | while a job is due, RunOnce claims one and processes it to its end |
| Draining.Drain | internal/ingest/worker.go:67-77 | with time advancing and ending writes going through in the end, RunOnce repeated leaves every job done or dead within jobs × maxAttempts claims and one for each ending write lost; each job's attempts count its own claims, and one that dies was claimed exactly as often as it had attempts left when no write was lost, whatever the others do |
| Draining.BudgetBound | internal/ingest/worker.go:242-270 | the budget of a table is at most jobs × maxAttempts |
| Backoff.BackoffExact | internal/ingest/worker.go:259-260 | the int64 backoff is base·2^(attempts−1) if and only if that is below 2^63 |
| Rows.WrapsAround | internal/ingest/worker.go:259 | beyond that it is the int64 that differs by a multiple of 2^64 |
| Backoff.TotalBackoffClosedForm | internal/ingest/worker.go:259-260 | the backoffs of attempts 1 to n add up to base·(2^n − 1) while the largest fits |
| Backoff.AlwaysFailingBackoff | internal/ingest/worker.go:242-270 | an always-failing job is delayed by base·(2^(maxAttempts−1) − 1) in all |
| Backoff.AlwaysFailingJob | internal/ingest/worker.go:242-270 | the row of a job that always fails is pending again after each of its first maxAttempts − 1 failures, claimable exactly when its backoff has passed, and dead after exactly maxAttempts |
| Backoff.FailRoundIsProcessing | internal/ingest/worker.go:177-228 | one such round is what claim and process leave when parsing or the import fails and the first failure write goes through |
| FailingJob.FailureTakesOne | internal/ingest/worker.go:242-270 | a turn that fails, in parsing or in the import, takes exactly one claim of its job, leaving it dead at the limit and otherwise pending until its backoff has passed |
| FailingJob.DrainFailing | internal/ingest/worker.go:242-270 | of any table of jobs that never succeed the worker's code leaves every open one dead, each claimed exactly as often as it had claims left, so jobs × maxAttempts times in all when they are fresh: the bound is attained |
| FailingJob.DrainOnSchedule | internal/ingest/worker.go:259-263 | one such job on its own is claimed exactly maxAttempts times, each when due, and is dead base·(2^(maxAttempts−1) − 1) after its first claim |
| FailingJob.DueOnSchedule | internal/ingest/worker.go:259-263 | after its i-th failure it is next due when the first i backoffs have passed since the first claim |
| FailingJob.FailedTurn | internal/ingest/worker.go:177-228 | the row a failing turn leaves is that of one failure round |
| Dedup.UploadsAreUploadable | internal/httpapi/handlers.go:50-68 | what the upload handler builds has a source reference exactly for url, pdf and docx |
| Dedup.ExtensionIsSuffix | internal/ingest/parse.go:93 | the extension compared is the end of the name from its last dot, after its last slash |
| Dedup.ExtensionExact | internal/ingest/parse.go:93 | there is none exactly when no dot comes after the last slash |
| Dedup.AlwaysOwnText | internal/ingest/worker.go:202-210 | in every run, however late its workers and whichever reads fail, a document that is no url has the checksum of its enqueued bytes or of a text extracted from them or from none, and of such a text once ready |
| Dedup.AlwaysOwnBytes | internal/ingest/worker.go:202-210 | so a text document's checksum is that of its enqueued bytes or of none |
| Dedup.FastPathAgreesWithKey | internal/ingest/ingest.go:85-115 | in every reachable state, for an upload with content and no source reference, the checksum short-circuit finds only the document the unique key leads to, unless the content has the digest of no content |
| Dedup.FastPathDeterministic | internal/ingest/ingest.go:101-109 | hence its unordered LIMIT 1 has no choice |
| Dedup.EmptyUploadAgrees | internal/ingest/ingest.go:101-109 | in every reachable state, for an upload without content: a match agrees with the key if and only if its row's content_bytes is zero, the two contents and the two key texts not colliding |
| Dedup.MatchAgreesExactly | internal/ingest/ingest.go:85-115 | in every reachable state, for any upload: a match agrees with the key if and only if it is no url, has the upload's source key and was enqueued with the same bytes, provided the two contents and the two key texts do not collide and, for different source keys, their digests are 64 hex digits |
| Dedup.FileMatchIsAnotherFile | internal/ingest/worker.go:202-204 | in every run a match that is no url has the upload's bytes as the text extracted from what was enqueued or from no bytes, and disagrees with the key when the upload's bytes are neither their own extracted text nor that of no bytes; the two texts must not collide with the upload, nor, for the second half, the digests of MatchAgreesExactly |
| EnqueueRace.SameKeySameDocument | internal/ingest/worker_test.go:253-285 | in any interleaving without deletes, calls that reach the insert with one key return one document, with one job, the only one with the key |
| EnqueueRace.LosersLeaveNoRow | internal/ingest/ingest.go:124-145 | a call whose commit did not happen leaves no row |
| EnqueueRace.CallFinishes | internal/ingest/ingest.go:115-149 | from every reachable state a call that found no duplicate and meets no failure returns: the holder of its key, or its own document in fresh rows |
| EnqueueRace.FailureFreesKey | internal/ingest/ingest.go:120-138 | a call that fails before its commit changes nothing and leaves its key to the next |
| EnqueueRace.ShortCircuitStands | internal/ingest/ingest.go:96-112 | a call answered by the short-circuit keeps that answer, which matched when it was read |
| EnqueueRace.QueueStepsAreUpdates | internal/ingest/worker.go:109-270 | every worker and retry step of the queue can fall between the statements of a race |
| EnqueueRace.RowsExactlyOfCommits | internal/ingest/ingest.go:124-148 | without deletes a call's rows exist if and only if its commit happened, whether it was told so or got an error |
| EnqueueRace.DeletionFreesKey | internal/storage/storage.go:117-130 | deleting the document frees its key: no row has it and no open transaction holds it |
| EnqueueRace.CommitIsEnqueue | internal/ingest/ingest.go:115-149 | a committed transaction is the queue's atomic enqueue, with fresh ids and an untaken key |
| EnqueueRace.AlwaysSound | internal/ingest/ingest.go:115-149 | unique keys, one job per document and held keys apart, in every reachable state of the race |
| IngestService.Service.Enqueue | internal/ingest/ingest.go:81-150 | the ready document with the same content where there is one; else the holder of the key, whenever it can be looked up; else both new rows under the new id, whenever every statement goes through; a failing statement is an error with nothing written, a commit in doubt one with both rows |
| IngestService.Service.Retry | internal/ingest/ingest.go:215-233 | succeeds exactly for a dead job of a document of this kb with both writes answered, and then both are as just enqueued and nothing else has changed; an error leaves nothing, the job alone, or both when the second write is in doubt |
| Cascade.CascadeIsCrashConsistent | internal/ingest/delete.go:12-47 | after every prefix of list, graph, chunks, row, recompute each graph reference names a chunk and each chunk's source has a row |
| Cascade.RerunCompletes | internal/ingest/delete.go:12-47 | running the cascade again from any prefix ends as one uninterrupted run |
| Cascade.SwappedOrderDangles | internal/ingest/delete.go:34-41 | with chunks removed first a crash leaves references that no number of reruns removes, of either order, of any documents and stopped anywhere |
| Cascade.SwappedOrderExactly | internal/ingest/delete.go:34-41 | a crash between the swapped steps leaves no dangling reference if and only if the graph did not refer to the document's chunks |
| Cascade.BatchEqualsEach | internal/ingest/delete.go:49-79 | one final recompute ends as recomputing after each document, for any list, except exactly an empty one whose communities were stale |
| Cascade.OrderIrrelevant | internal/ingest/delete.go:51-73 | the order of the listed documents does not matter |
| Cascade.KbDeleteExact | internal/ingest/delete.go:49-79 | nothing of the kb is left, its communities are those of the current graph, and no other namespace or kb changes |
| DeleteCode.RagService.ListChunkIDs | internal/ragsvc/ragsvc.go:190-205 | exactly the ids of the source's chunks |
| DeleteCode.RagService.RemoveGraphBySource | internal/ragsvc/ragsvc.go:207-212 | removes the namespace's references to those chunks and nothing else |
| DeleteCode.RagService.RemoveSource | internal/ragsvc/ragsvc.go:214-221 | removes the source's chunks and nothing else |
| DeleteCode.RagService.RecomputeCommunities | internal/ragsvc/ragsvc.go:266-293 | replaces the namespace's communities by those detected in its own references and no other's, or nothing; a failed report refresh is an error after the replacement |
| DeleteCode.DeleteService.DeleteDocumentChunksAndRow | internal/ingest/delete.go:28-47 | a failing call leaves exactly the prefix of the steps that took effect, all four when only the last answer was lost |
| DeleteCode.DeleteService.DeleteDocument | internal/ingest/delete.go:12-22 | succeeds exactly when every call does, and leaves the whole cascade; else exactly the prefix its calls reached |
| DeleteCode.DeleteService.KbDocuments | internal/ingest/delete.go:52-67 | exactly the kb's document ids |
| DeleteCode.DeleteService.DeleteAllDocumentsForKB | internal/ingest/delete.go:51-79 | succeeds exactly when every call for its documents does, and leaves the batch delete of exactly them; else the ones before the failure and a prefix of that one |
| DeleteCode.DeleteService.DeleteRow | internal/orgkb/orgkb.go:165-184 | the kb row, the rows that reference it and its kb-scope memberships, all or nothing; an error after a commit in doubt may hide that they are gone |
| DeleteCode.DeleteService.DeleteKB | internal/httpapi/handlers.go:380-402 | the kb, its documents, jobs, chunks, references and memberships are gone; its sessions, messages and evaluation runs and its namespace's communities are exactly what is left; a failure part way leaves nothing dangling, and without the kb row only after a commit in doubt, with everything else gone too; when every call goes through the kb is deleted |
| DeleteCode.BatchKeepsKbs | internal/storage/storage.go:145-163 | deleting documents touches no kb row, membership, session, message or evaluation run, and says which communities an emptied namespace keeps |
| DeleteCode.RemoveAllConsistent | internal/ingest/delete.go:68-72 | every point between documents of a batch is consistent |
| DeleteCode.StoppedConsistent | internal/ingest/delete.go:68-72 | so is every point within a document of a batch |
| Limits.MinuteHasSixtySeconds | internal/limits/limits.go:35 | minutes are sixty seconds counted from the epoch, and Go's truncating division mirrors them before it |
| Limits.Guard.AllowAt | internal/limits/limits.go:31-48 | the answer and the new buckets are those of the limiter's step; without a positive limit everything is allowed and nothing counted |
| Limits.BucketsRight | internal/limits/limits.go:31-48 | a user's bucket holds the minute of its latest call and how many calls of that minute were allowed |
| Limits.AllowedIffBudgetLeft | internal/limits/limits.go:31-48 | at non-decreasing times a call is allowed if and only if fewer than perMinute earlier calls of that user and minute were |
| Limits.AllowedIffStreakLeft | internal/limits/limits.go:31-48 | at any times a call is allowed if and only if fewer than perMinute calls were in the user's unbroken row of calls of that minute |
| Limits.OthersIrrelevant | internal/limits/limits.go:36-42 | at any times, other users' calls never change an answer |
| Limits.MinuteBound | internal/limits/limits.go:43-46 | a minute holds at most perMinute allowed calls of a user |
| Limits.WindowBound | internal/limits/limits.go:31-48 | any L consecutive seconds hold at most perMinute·(⌊(L+58)/60⌋+1), so any 60 seconds at most twice perMinute |
| Limits.ClockGoingBackOverruns | internal/limits/limits.go:38-42 | a clock that steps back admits more |
| Quota.QuotaOvershoot | internal/httpapi/handlers.go:69-78 | over every interleaving with deletes, dedup hits, worker steps and retries, stored plus admitted bytes never exceed quota + (k−1)·M + (failed reads)·M |
| Quota.QuotaExactForOneUploader | internal/httpapi/handlers.go:69-73 | one upload at a time, every read succeeding: never above the quota |
| Quota.UploadInOnePiece | internal/httpapi/handlers.go:69-78 | an upload that is let in is its check followed by its insert, or by leaving without a row |
| Quota.OvershootAttained | internal/httpapi/handlers.go:69-78 | for every k, k concurrent uploads of the whole quota are all stored: stored bytes reach the bound |
| Quota.FailedReadOverruns | internal/httpapi/handlers.go:70 | a failed usage read admits an upload of any size |
| Quota.OnlyInsertsAdd | internal/ingest/ingest.go:162-167 | no worker, retry, crash or delete step adds to what a kb stores |
| Quota.StoredAfterInsert | internal/ingest/ingest.go:121-124 | an insert adds exactly its content's length, to its own kb only |
| Quota.StoredAfterDelete | internal/storage/storage.go:102-118 | a delete takes exactly its document's content length, from its own kb only |
| UploadHandling.Handler.KBContentBytes | internal/ingest/ingest.go:162-167 | the sum of content_bytes over exactly the kb's documents |
| UploadHandling.Handler.Validate | internal/httpapi/handlers.go:25-68 | each refusal before the quota has its status, exactly: 404, 500, 413, 400 and 415 |
| UploadHandling.Handler.Handle | internal/httpapi/handlers.go:23-85 | 507 exactly when a valid upload would exceed a usage that could be read; a valid upload within it is accepted whenever its enqueue can succeed, with the id of its own rows, which carry everything uploaded, or of the document that was there; what is written is nothing or those rows, under 202 or under a 400 whose commit was in doubt |
| Sessions.Repo.EnsureSession | internal/sessions/sessions.go:54-79 | the asker's own session when it names one; else a new one of the kb and user asking, titled with the first 80 characters of the question, which an insert in doubt leaves behind an error |
| Sessions.Repo.AppendPair | internal/sessions/sessions.go:84-103 | both messages or neither, at the end of the session's transcript: the question under the user, then the answer under the assistant |
| Sessions.Repo.Transcript | internal/sessions/sessions.go:139-167 | the session's messages in seq order, and nothing for a session of another kb |
| Transcripts.TranscriptBalance | internal/storage/storage.go:164-177 | in any interleaving of transactions, equal counts of questions and answers, and in no prefix more answers than questions |
| Transcripts.AlwaysOwned | internal/sessions/sessions.go:54-79 | every message came from an ask by the kb and user owning its session |
| Transcripts.MessagesOfOwner | internal/sessions/sessions.go:54-79 | so a session holds only messages of its own kb and user |
| Transcripts.SerialAlternates | internal/sessions/sessions.go:84-103 | asks of a session that do not overlap alternate strictly, in the order they were recorded, whatever other sessions do |
| Transcripts.SerialReads | internal/sessions/sessions.go:84-103 | and the i-th exchange read back is the question and the answer of the i-th recorded ask |
| Transcripts.AskIsPlayed | internal/sessions/sessions.go:84-103 | an ask in one piece, whatever of its statements fails, is a play of the interleaved transactions that writes what the repository writes, in the same sequence numbers |
| Transcripts.OverlappingAsksInterleave | internal/sessions/sessions.go:84-103 | overlapping asks may record both questions before either answer |
| Streaming.FrameProtocol | internal/httpapi/handlers.go:405-410 | frames are tokens, then at most one of done and error; exactly one when no write fails |
| Streaming.RecordedOnlyAtEof | internal/retrieval/retrieval.go:319-327 | a pair is recorded only after end of stream with every delta shown, its answer is the concatenation of the token frames, its session the asker's |
| Streaming.DoneMeansRecorded | internal/retrieval/retrieval.go:319-329 | with a recorder, a done frame means that pair is recorded in the session it names |
| Streaming.DoneInHistory | internal/retrieval/retrieval.go:319-329 | that session then ends with the question asked under the user and the text shown under the assistant |
| Streaming.DoneCitesHits | internal/retrieval/retrieval.go:297-316 | a done frame cites every hit in order, with the beginning of its content, the mode asked for and the number of hits |
| Streaming.TextsInOrder | internal/ragsvc/stream.go:99-115 | the deltas of two stretches of a stream are shown one stretch after the other |
| Streaming.DoneIffNothingFailed | internal/retrieval/retrieval.go:272-330 | the exchange ends in done if and only if mode, setup, stream, persistence and every write succeeded |
| Streaming.ErrorAfterRecording | internal/sessions/sessions.go:102 | with every write succeeding, a commit in doubt ends in an error frame and a recorded pair |
| Streaming.ErrorAfterRecordingExactly | internal/retrieval/retrieval.go:319-329 | an error frame and a recorded pair come together if and only if the commit was in doubt, or the done frame could not be written and the error frame could, which a broken response rules out |
| Streaming.Wire.WriteFrame | internal/httpapi/handlers.go:440-447 | the writer accepts the frame, or the write reports an error |
| Streaming.Asking.Emit | internal/retrieval/retrieval.go:288-316 | a token extends the answer before it is written; done maps every hit to its citation |
| Streaming.Forward | internal/ragsvc/stream.go:99-115 | the deltas reach the client one by one until a write fails; without one the answer is their concatenation |
| Streaming.StreamAnswer | internal/ragsvc/stream.go:62-127 | non-empty deltas are forwarded until a write fails, the stream faults or ends; only its end yields citations |
| Streaming.AskService.Persist | internal/retrieval/retrieval.go:81-94 | the pair at the end of a session of the asker, or nothing; without a recorder the id is passed through |
| Streaming.AskService.Conclude | internal/retrieval/retrieval.go:322-329 | at end of stream the pair is recorded before done is written, and any failure of either ends in an error frame |
| Streaming.AskService.AskStream | internal/retrieval/retrieval.go:272-330 | frames and history are those of the exchange |
| Streaming.AskStreamHandler | internal/httpapi/handlers.go:411-466 | 400 or 500 before the first frame with nothing recorded, else exactly the frames of the exchange; after a done frame the session it names ends with the question and the text shown |
| EventStream.RoundTrip | internal/httpapi/handlers.go:440-447 | an event-stream reader (section 9.2 of the WHATWG HTML standard) gets back exactly the events written |
| EventStream.CutOffAnywhere | internal/httpapi/handlers.go:440-447 | a stream cut off at any character yields the first of its events and never part of one |
| EventStream.LineEndsAlike | internal/httpapi/handlers.go:440-447 | the reader takes CR, LF and CR LF alike (section 9.2 of the WHATWG HTML standard) |
| EventStream.CommentsIgnored | internal/httpapi/handlers.go:440-447 | comment lines are passed over |
| EventStream.NoDataNoEvent | internal/httpapi/handlers.go:440-447 | without data a blank line dispatches nothing |
| EventStream.ClientSeesFrames | internal/httpapi/handlers.go:448-459 | with payloads on one line the client sees one event for each frame of the exchange, in order, named token, done or error |
| Keyset.ListUp | internal/ingest/ingest.go:182-210 | a page is the first rows of its owner after the cursor going up, 1 to 100 as asked and 50 otherwise, with the cursor of the next |
| Keyset.ListDown | internal/sessions/sessions.go:107-135 | the same going down |
| Keyset.Fetch | internal/orgkb/orgkb.go:131-136 | ORDER BY and LIMIT: the least matching ids in order |
| Keyset.Scan | internal/eval/store.go:86-103 | the rows' views in order, and the last id as cursor exactly of a full page |
| Keyset.WalkAscends | internal/orgkb/orgkb.go:127-157 | pages follow one another in order even when the table changes between them |
| Keyset.NoIdTwice | internal/orgkb/orgkb.go:127-157 | no id comes twice, with arbitrary inserts and deletes between pages |
| Keyset.StayersAppearOnce | internal/ingest/ingest.go:182-210 | every row present throughout an ended walk appears exactly once |
| Keyset.CollectedWasThere | internal/ingest/ingest.go:182-210 | whatever appears was in the table when its page was read |
| Keyset.FixedWalkIsSortedList | internal/eval/store.go:69-103 | on a fixed table an ended walk is the sorted list |
| Keyset.FixedWalkEnds | internal/sessions/sessions.go:130-133 | it ends exactly when the pages asked for could hold more rows than there are; a multiple of the limit costs one empty page |
| Refresh.RefreshProtocol | web/src/lib/apiClient.ts:18-59 | over every interleaving one refresh at most is outstanding and refreshInFlight tells which; a second request is sent only after the joined refresh succeeded, with exactly its token |
| Refresh.AtMostOneOutstanding | web/src/lib/apiClient.test.ts:52-78 | two outstanding refreshes are the same one |
| Refresh.FirstCarriesToken | web/src/lib/apiClient.ts:46-58 | in every run the client holds the token last set, read from a refresh or cleared by a failed one, and each call's first request carries the one current when it was made |
| Refresh.NetworkErrorIsLocal | web/src/lib/apiClient.ts:46-58 | a request that fails on the network touches neither the token nor a refresh |
| Refresh.RefreshesSent | web/src/lib/apiClient.ts:18-38 | refresh requests number exactly the first refusals that found none outstanding |
| Refresh.EveryStepCounts | web/src/lib/apiClient.ts:46-59 | every answer and resumption brings the client closer to rest |
| Refresh.NeverStuck | web/src/lib/apiClient.ts:46-59 | while a call is unfinished some step is ready |
| ApiClient.Api.ApiFetch | web/src/lib/apiClient.ts:46-47 | the request goes out with the token of that moment |
| ApiClient.Api.StartRefresh | web/src/lib/apiClient.ts:18-38 | joins the flight there is, or starts one |
| ApiClient.Api.OnResponse | web/src/lib/apiClient.ts:47-51 | the status reaches the caller, but for a first 401, which waits for a refresh |
| ApiClient.Api.OnRefreshResponse | web/src/lib/apiClient.ts:22-28 | the protocol's refresh-response step |
| ApiClient.Api.OnRefreshBody | web/src/lib/apiClient.ts:29-35 | the token read is stored and the flight cleared |
| ApiClient.Api.OnSettled | web/src/lib/apiClient.ts:50-58 | the retry with the fresh token, or the token cleared and an error |

## Left out

- PDF, DOCX, readability and URL fetching: parsing is a function of the bytes for pdf and docx, the identity for text types, and any result at all for urls; EffectivelyOnce therefore excludes url sources.
- The rag library's embedding, retrieval, graph extraction, community detection and reports: an import replaces one source's chunks, detection is a function of the graph, a report refresh only succeeds or fails.
- Stored chunk_count is whatever the import reported; the library may skip unchanged chunks, so it is not equated with the store.
- Authentication, roles, routing and CSRF: the namespace passed to a delete is that of the document's kb (`Cascade.Owns`).
- Postgres isolation beyond row locks, the unique index, the cascading foreign key and atomic commit; database time and worker time are one clock.
- QueueTimely.EffectivelyOnce: indexes from no bytes when the last content read failed; the code logs that failure and goes on, so the promised equality is false there (EffectivelyOnceExactly gives the condition).
- QueueAgreement.AgreementBetweenPairs: needs a clean document besides a timely run, because the counterexample beside it is timely; AgreementExactly needs only the latter.
- Dedup.FastPathAgreesWithKey: uploads without content or with a source reference are excluded, because they can disagree; MatchAgreesExactly covers them.
- Streaming.Wire.WriteFrame: an error of the flush is dropped by the handler, so a client may get only a beginning of the accepted frames; EventStream.CutOffAnywhere says what it then reads.
- Overtaking.BoundedOvertaking: counts claims of pending jobs, because takeovers have no bound of their own (OvertakingPaid bounds all claims by the abandonments), and is stated for claims in one piece; with open claim transactions SKIP LOCKED orders only the unlocked rows.
- Keys.KeyFaithfulness: SHA-256 cannot be injective, so the statement names the collision instead of assuming there is none.
- The polling loop's sleep, cancellation and shutdown beyond what a poll meets; a claim's title and source reference, which only the parser reads.
- Creating organisations and knowledge bases, the foreign key from documents to knowledge bases at enqueue, and progress events: a row read or written, with no protocol behind it.
- The plain, global and drift asks, evaluation runs and metrics, and "most recent" lookups by random id.
- `quota` arithmetic wrapping in 64 bits: sums of sizes are far below 2^63 when the quota is.
- JSON encoding of frames: a payload is any one-line text; replacement of invalid UTF-8 and a title cut inside a character are not modelled.
- A model stream that never ends; streams are finite here.
- The user interface, its hooks and the event-source client library; the order of microtasks after a refresh settles is left open, which allows more interleavings than a browser has.
