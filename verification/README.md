# A verified model of the ingestion pipeline

The service takes large text files in chunks, cuts the bytes into overlapping
passages while they arrive, queues the passages in SQLite, and lets background
workers embed them into a vector store. It promises that an upload survives
crashes, that no byte is lost between the network and the index, and that the
status it reports can be believed. This project models that pipeline in Dafny and
proves those promises, or says exactly when they hold.

`dafny verify dfyconfig.toml` checks everything.

## The three layers and what joins them

**The chunker** (`Chunker`, `ChunkerLaws`, `PassageShape`, `BodySplits`, `EndsAtFlush`,
`Utf8`, `CodePoints`, `CharacterAlignment`, `Cuttings`, `Overlaps`, `Config`). `LineBuffer` is a class whose loops are proved to
compute the functions `FindCut`, `SafeSplitPoint`, `OverlapSize` and `Drain`. The
laws hold for arbitrary bytes, every way of splitting them into bodies, and passage
sizes that change from body to body: passages tile the stream without a gap, no
upload is embedded more than twice over, and rebuilding the buffer before every
request is invisible. `Params.Sane` (overlap at least 3, maximum at least 6) is
proved to be exactly the condition under which every cut of every buffer is safe.

**The queue** (`Tables`, `JobQueue`, `Accounting`, `QueueLaws`, `EnqueueLaws`, `Batches`,
`Indexing`, `Draining`). Each SQL statement is a function on the tables and a method
of the class `Database`; each queue operation is a method proved against a function.
`TablesOk` is what the operations keep: sequence numbers without gaps, retries in bounds,
terminal statuses that are deserved, and counters that count, the one of indexed rows
being too high by a known amount if a batch fails after some of it was completed.

**The protocol** (`Storage`, `UploadService`, `Pipeline`). `Pipeline` is a state
machine on the disk, the tables, the vector store and the memory of the process. A
chunk PUT is four or more steps (check, trim, any number of partial writes, commit), a
completion four (first transaction, look, rename, second transaction), a batch one
step per upsert and up to five per read (look for the final name, look for the partial
one, open, and once more if the name has gone). They interleave in any order, any number
of completions and workers at once, and a crash can fall between any two steps. Only the
database rolls back. `Refinement` proves that the methods are schedules of these steps.

`Invariant` says what is true in every reachable state; `UploadSteps`, `WorkerSteps`
and `Reachable` prove it. On it rest the results a client would want:

- `EndToEnd.DoneMeansSearchable`: if a file's processing is reported completed, every
  received byte is in a stored point that carries its row's range and embeds exactly
  those committed bytes, unless a rename fell between the two looks of a read; and then
  which bytes are missing. It needs all three layers at once.
- `OneBuffer.QueuedByOneBuffer`: in every run, whatever interleaved, the passages queued
  for a file are those of one uninterrupted buffer that was fed the accepted bodies, with
  the sizes for the file size declared at its creation, and flushed when a completion began,
  so the laws of the chunker hold of the queue and the index.
- `Admissions` and `Started`: exactly which chunks and completions are taken, in terms of who
  created the file, what was committed and the bytes that are sent; and that a file waits to
  be processed exactly until rows of it are claimed.
- `Resuming.ResumedFileIsExact`: a client that sends what its file has at each offset
  ends up with exactly its file.
- `History.RunEvolves`, `Guarantees` and `Settling`: what was committed, stored, failed or
  completed stays so in every continuation of every run; exactly when an indexed row or a
  terminal status does not; and that a completed upload with all rows settled never
  changes at all.
- `Finalisation.ClosedForThisProcess`: between the two transactions of a completion,
  and after, nothing touches the file.
- `Draining.DrainOnce`: draining ends for every pattern of ingestion failures, one batch for
  each claim that finds something, and leaves the files that waited for it with a terminal
  status.

Expectations that the code does not meet come with the exact condition under which it
does and a run or an input that violates them:

- `Straddles`, `Recounts`, `Settling` and `ReadRaces`: a read may find nothing, a row may be
  completed without a point, counted twice and queued again, and a terminal status may be
  wrong and turn. All of it takes a rename between the two looks of one read
  (`Scenarios.DoneButLost`, `DoubleCounts.DoneTooEarly`).
- `KnownGaps` and `Scenarios`: a status that never becomes terminal, a chunk that is never
  read, a final file with bytes that were never committed.
- `BodySplits`, `EndsAtFlush` and `CharacterAlignment.CutBisectsIff`: cuts that depend on how
  the bytes were split, ends that go back at the flush, and characters that are bisected.

Where the code and its documentation differ the model follows the code:

- The README of the service reports completed files that are identical to what was
  sent. A completion does not trim the file first, so a chunk that reached the disk but
  was not committed can leave bytes behind (`Scenarios.TornByteStays`); the committed
  bytes are always in front of them.
- The comment on startup recovery says that finishing what the completion was doing is
  the only way forward after a crash between its transactions. The code reopens the
  file, so a chunk passes the checks too; after the rename it would be stored where it
  is never read (`Scenarios.ChunkAfterRenameIsLost`).
- The status of a file is documented to become final once nothing is outstanding. If
  the queue drains before the file is marked completed it never does
  (`Scenarios.DrainedTooEarly`).
- The documentation of reading a range says that its retry covers a rename that happens
  while a file is looked up. It covers one between the look and the opening; after one
  between the two looks the range reads as empty, and the worker takes that for a deleted
  file and completes the passage (`Straddles.EmptyExactlyWhen`).

## Model

| member | source | states |
|---|---|---|
| Chunker.LineBuffer.constructor | app/rag/ingestion/chunker.py:43-56 | the buffer resumes at the persisted tail, omitted or zero sizes fall back to 600, 2048 and 120 bytes |
| Chunker.LineBuffer.Feed | app/rag/ingestion/chunker.py:63-66 | appends the bytes and leaves exactly the passages, offset and tail that the specification function gives |
| Chunker.LineBuffer.Flush | app/rag/ingestion/chunker.py:68-74 | the end of the stream drains the whole buffer as specified |
| Chunker.LineBuffer.DrainBuffer | app/rag/ingestion/chunker.py:76-104 | the loop with its early exit terminates and refines the recursive drain |
| Chunker.LineBuffer.TakePassage | app/rag/ingestion/chunker.py:80-102 | one turn of the loop: the passage, the carried overlap, and whether the rest is already covered |
| Chunker.LineBuffer.FindCutInBuffer | app/rag/ingestion/chunker.py:106-143 | the four-way choice of a cut, for feeding and for flushing |
| Chunker.LineBuffer.SafeSplitPointInBuffer | app/rag/ingestion/chunker.py:145-161 | the backward search for a split point computes its specification |
| Chunker.LineBuffer.OverlapSizeInBuffer | app/rag/ingestion/chunker.py:163-178 | the forward search for the overlap computes its specification |
| Chunker.SafeSplitPoint | app/rag/ingestion/chunker.py:145-161 | the last of four split points at or below the limit, and the limit itself only if all four bisect a character |
| Chunker.OverlapSize | app/rag/ingestion/chunker.py:163-178 | at most the configured overlap and half the cut, shortened to the first of four split points |
| Chunker.CutFacts | app/rag/ingestion/chunker.py:84-143 | every cut takes a byte, stays in the buffer, keeps the maximum, and carries over at most half of itself |
| ChunkerLaws.SaneIsExactlyStepSafety | app/rag/ingestion/chunker.py:145-178 | overlap at least 3 and maximum at least 6 hold if and only if no cut of any buffer stalls or leaves a gap |
| ChunkerLaws.UploadTiles | app/rag/ingestion/chunker.py:76-104 | lossless tiling of any bytes, any bodies and changing sizes: from 0 to the end, no empty passage, no gap, every byte covered |
| ChunkerLaws.ResumeRefinesOneBuffer | app/services/upload_service.py:119-136 | rebuilding the buffer from the byte count and the tail before every body gives what one uninterrupted buffer gives |
| ChunkerLaws.DrainAccumulates | app/rag/ingestion/chunker.py:76-104 | passages found earlier do not influence later cuts, so persisting only the tail is enough |
| ChunkerLaws.UploadVolume | app/rag/ingestion/chunker.py:84-102 | the passages of an upload add up to at least the file and at most twice the file |
| PassageShape.FourWayRule | app/rag/ingestion/chunker.py:106-143 | a cut is chosen if and only if it is one of four kinds, described by the newlines in the window |
| PassageShape.FedSizes | app/rag/ingestion/chunker.py:79-92 | no fed passage exceeds the maximum and the tail stays shorter than the larger of target and maximum |
| PassageShape.FedCount | app/rag/ingestion/chunker.py:79-104 | the number of fed passages times half the target less the overlap is at most the bytes fed |
| PassageShape.FedEndsRise | app/rag/ingestion/chunker.py:79-104 | with fixed advancing sizes the ends of passages strictly increase over all bodies |
| EndsAtFlush.UploadEndsRise | app/rag/ingestion/chunker.py:94-102 | ends also increase inside the flush, and no end goes back in between when the overlap is at most the flush's target or its cuts are long |
| EndsAtFlush.KeepsEndsIff | app/rag/ingestion/chunker.py:79-104 | over all bodies no end goes back at the flush if and only if the overlap is at most the target of the flush |
| EndsAtFlush.CompletionKeepsEndsIff | app/services/upload_service.py:166-168 | for the sizes chosen for a declared file size that is so if and only if the chosen overlap is at most the default target, up to about 6.7 GB |
| EndsAtFlush.FinerFlushGoesBack | app/services/upload_service.py:166-168 | a file of the largest accepted size can be flushed to an end that goes back |
| PassageShape.FedLineAligned | app/rag/ingestion/chunker.py:115-143 | every fed passage ends after a newline or is a long line split near the maximum; the end of a body alone never ends one |
| BodySplits.CutIsFinalIff | app/rag/ingestion/chunker.py:115-137 | a fed cut is the same whatever bytes follow if and only if the window is exceeded, has a newline past the target, or is full and has a usable newline or ends inside a character |
| BodySplits.FirstBodyIff | app/rag/ingestion/chunker.py:76-104 | a first body leaves passages and tail independent of where it ended, for every continuation, if and only if none of its cuts and carried overlaps depends on what follows, which the body alone decides |
| BodySplits.LinesFedAtOnce | app/rag/ingestion/chunker.py:63-104 | when every body but the last ends with a newline, passages and tail are those of all the bytes fed at once |
| BodySplits.LineSplitsAgree | app/rag/ingestion/chunker.py:63-104 | so two such splits of the same bytes give the same upload |
| BodySplits.BoundariesDependOnBodies | app/rag/ingestion/chunker.py:129-131 | at the sizes of small files a body that stops before its newline moves the end of the first passage |
| CharacterAlignment.CutBisectsIff | app/rag/ingestion/chunker.py:145-161 | a fed cut bisects a UTF-8 character if and only if exactly the maximum is buffered, without a usable newline, and ends inside the character |
| CharacterAlignment.FlushNeverBisects | app/rag/ingestion/chunker.py:138-143 | at the end of the text no cut does |
| CharacterAlignment.UploadAligned | app/rag/ingestion/chunker.py:145-178 | for well-formed text split anywhere every passage starts at a character, and ends inside one only where a body did |
| CharacterAlignment.UploadDecodes | app/repositories/file_storage_repository.py:116-120 | when bodies end between characters every passage is well-formed UTF-8 |
| CharacterAlignment.BodyEndCanBisect | app/rag/ingestion/chunker.py:156-157 | a first body of 2048 bytes without a newline that ends inside a character is cut there, at the default sizes |
| Config.SizesAreSafe | app/core/config.py:94-106 | every chosen triple is safe for the chunker, makes ends rise, and keeps target, maximum and ceiling in order |
| Config.SizesDetermined | app/core/config.py:77-106 | the triple for every declared size, multiplied out in bytes: when it is the default one, and otherwise target, overlap and maximum as the quotients they round down to |
| Config.TargetIsMonotone | app/core/config.py:94-106 | a larger declared size never gives a smaller target |
| Config.StrideMeetsBudget | app/core/config.py:77-106 | up to the size limit passages advance by more than the stride that the memory budget needs, less one byte |
| Config.OverlapThreshold | app/core/config.py:94-106 | from which declared size on the overlap exceeds the default target |
| Validators.LooksLikeBinary | app/services/upload/validators.py:36-63 | the resynchronising loop terminates; a zero byte among the first 8192 is binary, and without one exactly a share of undecodable bytes above a twentieth is |
| Validators.InvalidBytes | app/services/upload/validators.py:47-61 | never more than the sample, and none exactly for well-formed UTF-8 |
| Validators.TruncatedText | app/services/upload/validators.py:50-61 | of a text cut off anywhere exactly the bytes of the incomplete last character are counted |
| Validators.InvalidBytesAdd | app/services/upload/validators.py:47-61 | in any bytes well-formed text counts nothing, each rejected run its length, and the rest as if decoding began there; a run is one byte or as much as can begin a character |
| Validators.RunLengths | app/services/upload/validators.py:50-61 | one for a byte that begins nothing or a wrong second byte, two for a wrong third, three for a wrong fourth |
| CodePoints.ValidIffEncoded | app/services/upload/validators.py:48 | what counts as well formed is exactly what sequences of code points are encoded to |
| Validators.TextVerdict | app/services/upload/validators.py:36-63 | text without NUL bytes is refused if and only if the sample is short against those bytes |
| Validators.SixtyBytesOfText | app/services/upload/validators.py:36-63 | sixty bytes of text are never taken for binary, wherever they are cut off |
| Validators.FiftyNineCanFail | app/services/upload/validators.py:36-63 | fifty-nine can be |
| Tables.OldestPending | app/repositories/sql/chunk_repository.py:59-70 | the pending row with the smallest id, or that there is none |
| Tables.NextPending | app/repositories/sql/chunk_repository.py:73-84 | the eligible pending row with the smallest sequence number |
| Tables.SelectPending | app/repositories/sql/chunk_repository.py:73-84 | up to the limit, pending rows of one file in strictly increasing sequence |
| Tables.Database.InsertPendingRows | app/repositories/sql/chunk_repository.py:38-56 | inserts row by row, skipping a sequence number that exists |
| Tables.Database.MarkRows | app/repositories/sql/chunk_repository.py:87-142 | the status updates, one per id, with or without a retry counted |
| Tables.Database.ResetStuckRows | app/repositories/sql/chunk_repository.py:145-151 | afterwards no row is in processing: those that were are pending, the others and all other columns are unchanged |
| Tables.Database.MarkInterruptedUploads | app/repositories/sql/file_repository.py:222-227 | exactly the uploads that were receiving become interrupted, nothing else changes |
| Tables.Database.RevertStuckFinalizing | app/repositories/sql/file_repository.py:230-235 | exactly the uploads that were being finalised become open again, nothing else changes |
| EnqueueLaws.InsertAppends | app/repositories/sql/chunk_repository.py:38-56 | under the next free sequence number nothing is skipped: the rows are appended in order |
| EnqueueLaws.InsertTwice | app/repositories/sql/chunk_repository.py:38-56 | on any table, inserting the same passages again changes nothing, and no row that is there is replaced |
| EnqueueLaws.EnqueueKeepsTables | app/repositories/sql/file_repository.py:98-137 | queueing passages and moving the counters in one transaction keeps the accounts |
| JobQueue.Enqueue | app/tasks/job_queue.py:46-65 | the rows that are inserted and the next free sequence number |
| JobQueue.ClaimBatch | app/tasks/job_queue.py:68-104 | the jobs handed out and the new tables |
| JobQueue.CompleteBatch | app/tasks/job_queue.py:107-123 | the tables after a batch is indexed |
| JobQueue.FailBatch | app/tasks/job_queue.py:126-147 | the tables after a failure, retries and exhausted jobs apart |
| JobQueue.RefreshProcessingStatus | app/tasks/job_queue.py:150-168 | when a status becomes terminal and which |
| JobQueue.RecoverStuckJobs | app/tasks/job_queue.py:171-199 | the three updates in their order: no upload that was reopened is then marked interrupted |
| QueueLaws.ClaimIsExclusive | app/tasks/job_queue.py:79-104 | the claimer holds distinct rows of one file that were all pending, and each job says what its row says |
| QueueLaws.ClaimKeepsTables | app/tasks/job_queue.py:79-91 | claiming keeps numbering, counters, retries and statuses right |
| QueueLaws.CompleteKeepsTables | app/tasks/job_queue.py:107-123 | so does completing a held batch, the refresh included |
| QueueLaws.FailAt | app/tasks/job_queue.py:134-141 | each row of the batch goes back to the queue with one more retry, or fails if that was the last |
| QueueLaws.FailKeepsTables | app/tasks/job_queue.py:126-147 | failing a batch keeps the tables sound, and counts as indexed still exactly those of its rows that had been completed as empty |
| QueueLaws.RecoverKeepsTables | app/tasks/job_queue.py:184-199 | recovery keeps the accounts |
| Accounting.RowOfSequence | app/repositories/sql/chunk_repository.py:38-56 | every number below the count is the sequence number of some row |
| Accounting.IdsFollowSequences | app/repositories/sql/chunk_repository.py:59-84 | ids and sequence numbers order a file's rows the same way |
| Accounting.CountMark | app/repositories/sql/chunk_repository.py:87-142 | marking distinct rows moves each from the count it was in to the other |
| Storage.ReadInside | app/repositories/file_storage_repository.py:97-124 | a range inside the stored bytes is read back exactly |
| Storage.ReadClipped | app/repositories/file_storage_repository.py:112-120 | of a range past the end what is there is read, byte for byte; a negative start is an error |
| Storage.StillRead | app/repositories/file_storage_repository.py:35-124 | the calls of a read of a directory that stands still get what it holds |
| Storage.GoneTwice | app/repositories/file_storage_repository.py:110-123 | a file that goes away before it is opened is looked for once more; if it goes away again that is an error |
| Storage.UploadDirectory.AppendChunk | app/repositories/file_storage_repository.py:50-60 | the bytes behind what was there, creating the file if need be |
| Storage.UploadDirectory.TruncateTo | app/repositories/file_storage_repository.py:84-94 | shortens a longer file and never lengthens one |
| Storage.UploadDirectory.Finalize | app/repositories/file_storage_repository.py:74-81 | renames unless the final file exists, and fails without a partial one |
| UploadService.AppendChunk | app/services/upload_service.py:65-139 | every refusal leaves tables and disk alone; otherwise the exact new tables and disk |
| UploadService.CheckChunk | app/services/upload_service.py:77-105 | the checks in their order |
| UploadService.StoreChunk | app/services/upload_service.py:107-115 | trims to the committed size if the disk disagrees, then appends |
| UploadService.CommitChunk | app/services/upload_service.py:117-139 | the passages queued and the row moved on |
| UploadService.SplitBody | app/services/upload_service.py:119-127 | the passages and tail of the rebuilt buffer |
| UploadService.CompleteUpload | app/services/upload_service.py:142-187 | both transactions and the rename between, the idempotent return, and a failing rename |
| UploadService.CommitFinalizing | app/services/upload_service.py:164-177 | the first transaction |
| UploadService.FlushTail | app/services/upload_service.py:164-168 | the tail flushed with the default sizes |
| UploadSteps.TrimIsExact | app/services/upload_service.py:107-113 | trimming leaves exactly the committed bytes and touches no other file |
| UploadSteps.FeedRow | app/services/upload_service.py:119-127 | feeding the rebuilt buffer extends the tiling of the committed stream by the body |
| UploadSteps.CloseStream | app/services/upload_service.py:164-168 | flushing with other sizes completes the tiling of the committed stream |
| WorkerSteps.ReadIsExact | app/repositories/file_storage_repository.py:35-124 | what one call of a read of committed bytes can end with: exactly those bytes on opening, nothing when the partial name is looked for after the rename, an exception only at a second attempt whose name has gone |
| Straddles.EmptyExactlyWhen | app/tasks/worker.py:65-78 | in every run a text is empty if and only if the rename of its file fell between the two looks of its read; otherwise it is exactly the committed bytes |
| Straddles.ReadsNeverRaise | app/repositories/file_storage_repository.py:103-124 | the single retry is enough: no read raises in any run |
| Recounts.MissedExactlyWhen | app/tasks/worker.py:72-106 | in every run an indexed row has no point if and only if it was completed as empty, had none from an earlier attempt, and has not been worked on since |
| Recounts.MissedIsStraddled | app/tasks/worker.py:72-84 | which takes a straddled read of its file |
| Recounts.ExcessInRun | app/tasks/job_queue.py:107-147 | the count of indexed rows exceeds their number by exactly the rows completed as empty whose batch then failed |
| Reachable.StepKeepsInv | app/db/db.py:99-114 | every step of requests, workers, crash and restart keeps the invariant of the whole service |
| Reachable.RunKeepsInv | app/services/upload_service.py:65-187 | so it holds after every run |
| EndToEnd.DoneMeansSearchable | app/tasks/job_queue.py:150-168 | in every run processing completed implies that every received byte is in a stored, exact point if no read of the file was straddled; otherwise exactly the bytes of rows that were completed as empty and never stored, or counted so and sent back, can be missing |
| EndToEnd.UnsearchableMeansFailed | app/tasks/job_queue.py:126-168 | when it ended with failures, the same, and a byte in a failed row is in one that used up its retries |
| EndToEnd.TerminalMeansSettled | app/tasks/job_queue.py:150-168 | a terminal status means upload completed, and completed exactly when no row failed; no more rows are outstanding than were counted and sent back, none without a straddled read |
| EndToEnd.CountersAreExact | app/repositories/sql/file_repository.py:98-137 | in every run the total and the failed count are the numbers of rows, and the indexed count is too high by exactly the rows that were counted and sent back, none without a straddled read |
| EndToEnd.SequencesAreExact | app/tasks/job_queue.py:46-65 | a file's sequence numbers are exactly those below the next one, each once and in order |
| EndToEnd.RetriesAreBounded | app/tasks/job_queue.py:134-141 | failed rows have used all retries, all others have some left |
| EndToEnd.CommittedBytesReadable | app/repositories/file_storage_repository.py:35-94 | through crashes, torn writes and the rename the readable file starts with the committed bytes, as many as the row says |
| ReadRaces.QueuedRangesReadable | app/repositories/file_storage_repository.py:97-124 | a read of a queued row, its calls at any later moments of the run, gets exactly the row's part of the committed bytes, or nothing if and only if the rename fell between its first two |
| EndToEnd.SiftingCompletesTorn | app/tasks/worker.py:72-84 | exactly the jobs whose reads were straddled are completed as empty; without any, all jobs are kept and no table changes |
| History.UpsertEvolves | app/repositories/vector_repository.py:106-140 | storing a point again, after a retry or a crash, changes nothing |
| History.StepEvolves | app/services/upload_service.py:65-187 | what no step undoes |
| History.RunEvolves | app/tasks/job_queue.py:171-199 | nor any continuation of any run: bytes, points, final files and failed rows stay, a terminal status stays terminal, an indexed row changes only by a further attempt |
| Settling.TerminalIsFinal | app/tasks/job_queue.py:150-168 | a terminal status stays terminal and never changes, except from completed to failed while rows are outstanding, which takes a straddled read |
| Settling.SettledForever | app/tasks/job_queue.py:126-168 | once an upload is completed and all its rows are settled, its row, its counters and its passages never change again |
| Settling.TurnsExactlyWhen | app/tasks/job_queue.py:150-168 | at one step a terminal status changes if and only if it is completed and the step fails jobs of the file for good |
| Guarantees.CompletedIsFixed | app/repositories/sql/file_repository.py:122-144 | a completed upload stays completed with size equal to bytes received, no tail, and fixed bytes and passages |
| Settling.NoRowIsLost | app/repositories/sql/chunk_repository.py:87-151 | no row is lost or renumbered, a failed one stays failed, and an indexed one stays as it is exactly until a batch fails in which it had been completed as empty |
| Settling.MissedForever | app/tasks/worker.py:72-84 | a row of such an upload that was never stored never will be |
| Guarantees.PointsAreRightForever | app/repositories/vector_repository.py:106-140 | every stored point carries its row's range and text, for good |
| Guarantees.SearchableStays | app/repositories/vector_repository.py:106-140 | a byte that can be found stays findable |
| ReadRaces.CommittedRangesStay | app/repositories/file_storage_repository.py:35-124 | so does a read of any committed range, across trims, crashes and the rename; it needs five calls at most and never raises |
| Guarantees.AppendsAreSerial | app/services/upload_service.py:79-137 | over all interleavings the accepted bodies partition the received bytes, one nonempty body per offset, within the size limit |
| Creations.OwnedByCreator | app/repositories/sql/file_repository.py:57-87 | a file exists if and only if a request created it, and stays its sender's |
| Creations.NewUpload | app/repositories/sql/file_repository.py:57-67 | a new upload has its owner and declared size and has received and queued nothing; nothing else changes |
| Admissions.ChunkTakenIff | app/services/upload_service.py:76-110 | in every run a chunk is taken if and only if it is its creator's, for an open file that has not its final name, continues the committed bytes within the limits and begins a file as text; otherwise nothing changes |
| Admissions.WhyRefused | app/services/upload_service.py:76-103 | which refusal a chunk gets, each by its own condition, and what it tells the client |
| Admissions.FilesBeginAsText | app/services/upload_service.py:95-103 | in no run a body with a zero byte among its first 8192 bytes, or too many undecodable, is committed as the beginning of a file |
| Admissions.CompletionBeginsIff | app/services/upload_service.py:156-177 | in every run a completion begins if and only if it is its creator's, of a file with bytes that is not completed; otherwise nothing changes |
| Admissions.WhyNotCompleted | app/services/upload_service.py:156-163 | which refusal a completion gets |
| Started.WaitsUntilClaimed | app/repositories/sql/file_repository.py:159-172 | in every run a file is waiting to be processed if and only if none of its rows was ever claimed |
| Started.GivingUp | app/services/upload_service.py:79-187 | a chunk, completion or batch that dies is forgotten and changes nothing else |
| Finalisation.CompletingMeansClosed | app/services/upload_service.py:179-187 | between the transactions of any completion the file is closed and no chunk for it is in flight |
| Finalisation.ClosedForThisProcess | app/services/upload_service.py:82-83 | as long as the process lives nothing is committed to, written to or queued for a closed file, even if it is completed again |
| Resuming.NothingPendingNothingQueued | app/services/upload_service.py:156-177 | in every run completing a file with nothing held back queues nothing |
| Resuming.RepeatedAfterRestart | app/tasks/job_queue.py:192-198 | so a completion repeated after a crash between its transactions queues nothing new |
| Claims.ClaimsAreExclusive | app/tasks/job_queue.py:68-104 | no row is claimed twice, for any number of workers; a claimed row is in processing unless its worker completed it as empty after a straddled read |
| Claims.NoRowIsStranded | app/tasks/worker.py:41-57 | in every run a running process has a worker for every row in processing, but for rows of batches whose failure could not be recorded since the last crash |
| Claims.RecoveryReturnsClaims | app/tasks/job_queue.py:184-199 | crash and restart drop all claims and return exactly the rows in processing to the queue |
| Claims.ClaimsAreOldestFirst | app/tasks/job_queue.py:68-104 | in every run a claim is empty only when nothing is pending; its first job is the oldest pending row of all, and it takes that file's earliest pending rows, as many as there are up to the limit, or up to the configured batch size without one |
| Claims.WorkersBatch | app/tasks/worker.py:61 | so does the claim of a worker, with the configured batch size |
| Claims.ClaimMarks | app/repositories/sql/file_repository.py:159-172 | the claimed rows are in processing and a file that waited is in progress; nothing else in the tables changes |
| OneBuffer.QueuedByOneBuffer | app/services/upload_service.py:117-177 | in every run a file's queued passages and tail are those of one buffer fed with the accepted bodies, with the sizes for the size declared when it was created, or received when a completion began, and flushed whenever one began |
| OneBuffer.CutAsDeclared | app/services/upload_service.py:51-121 | until a completion begins, declared size and owner are those of the request that created the file, and every body is cut with the sizes chosen for that size |
| OneBuffer.UploadedByOneBuffer | app/services/upload_service.py:142-177 | if no chunk was accepted after a first completion began they are those of an upload: fed, then flushed once, however often completions were interrupted and repeated |
| OneBuffer.QueuedVolume | app/rag/ingestion/chunker.py:84-102 | in every run the queued passages of a file add up to at least the bytes that were cut and at most twice as much |
| OneBuffer.QueuedSizes | app/rag/ingestion/chunker.py:79-92 | in every run what a file holds back is shorter than its maximum, no passage exceeds the largest maximum, and before a completion none exceeds the file's own |
| OneBuffer.QueuedCount | app/rag/ingestion/chunker.py:79-104 | in every run the number of queued rows times the default stride is at most the bytes received, but for one row per completion that began; before a completion the file's own stride counts |
| OneBuffer.QueuedEndsRise | app/rag/ingestion/chunker.py:79-104 | before a completion the ends of the queued passages strictly rise |
| OneBuffer.UploadedEndsRise | app/services/upload_service.py:164-168 | after an upload they rise in its two parts, and none goes back in between when the overlap is at most the default target |
| OneBuffer.QueuedLineAligned | app/rag/ingestion/chunker.py:115-143 | in every run a queued passage that was cut while a body was fed is aligned to lines, whatever completions began before |
| OneBuffer.QueuedOverlaps | app/rag/ingestion/chunker.py:94-102 | in every run the passage after a queued one, or the tail, repeats as much of its end as the sizes allow, at most half, from the first of four places that does not bisect a character; nothing only after the end of a flushed stream |
| OneBuffer.QueuedTextDecodes | app/repositories/file_storage_repository.py:97-124 | in every run text whose bodies end between characters is queued in pieces that all decode, and a read of one, whenever its calls fall, gets all of it or, straddled, nothing |
| Cuttings.ReplayTracks | app/rag/ingestion/chunker.py:76-104 | a buffer that is fed and flushed in any order loses nothing |
| Cuttings.ReplayAligned | app/rag/ingestion/chunker.py:145-178 | nor does it bisect a character of text whose bodies end between characters |
| Cuttings.ReplayCount | app/rag/ingestion/chunker.py:79-104 | all its passages but one for each flush move on by a stride |
| Cuttings.ReplayLineAligned | app/rag/ingestion/chunker.py:115-143 | what a feed cuts is aligned to lines for its own sizes, whatever was flushed before |
| Overlaps.ReplayFollows | app/rag/ingestion/chunker.py:94-102 | so does every passage of a buffer that is fed and flushed in any order |
| Indexing.VectorStore.IngestBatch | app/repositories/vector_repository.py:106-140 | all points upserted, or an exception after some of them |
| Indexing.IndexingWorker.ReadTexts | app/tasks/worker.py:65-69 | the texts of the jobs in order, or the first read that raises |
| Indexing.IndexingWorker.ProcessOneBatch | app/tasks/worker.py:59-106 | claim, read, sift, ingest and the verdict, for every exception that reading, ingesting or completing can end with |
| Indexing.RowAfterBatch | app/tasks/worker.py:59-106 | a batch takes pending rows only, and each ends indexed or one attempt further |
| Indexing.BatchEnds | app/tasks/worker.py:65-106 | all rows of a batch are indexed if every read succeeds and neither completing nor ingesting raises, otherwise each is one attempt further, those that read back empty among them |
| Indexing.BatchUsesUpWork | app/tasks/job_queue.py:134-141 | every batch uses up attempts that the queue can still make |
| Draining.DrainOnce | app/tasks/worker.py:160-170 | ends for every pattern of failures within the attempts left, returns the number of claims that found something and leaves what so many batches leave, and no pending row; a completed file that only waited for it has a terminal status, completed exactly when no row failed; with readable ranges each row it indexed has a right point and nothing is counted twice |
| Draining.BatchKeepsTables | app/tasks/worker.py:59-106 | however its reads and its ingestion end, a batch keeps the tables sound |
| Refinement.WritesAddUp | app/repositories/file_storage_repository.py:50-60 | writing a body in pieces is writing it at once |
| Refinement.PutAlone | app/services/upload_service.py:65-139 | the steps of an uninterrupted PUT have the effect of the method, refused or accepted |
| Refinement.CompleteAlone | app/services/upload_service.py:142-187 | so do those of a completion |
| Refinement.BatchAlone | app/tasks/worker.py:59-106 | and those of a worker's batch |
| Refinement.ReachableIsHealthy | app/tasks/worker.py:65-84 | in every reachable state draining meets sound tables and readable ranges |
| Resuming.RetryIsRefused | app/services/upload_service.py:85-88 | a committed chunk sent again is refused and told where to go on |
| Resuming.CompletingTwice | app/services/upload_service.py:142-187 | a completion touches no other file or row and can be repeated |
| Resuming.StatusAfterRestart | app/repositories/sql/file_repository.py:222-235 | what a crash and a restart make of each upload status |
| Resuming.ResumableAfterCrash | app/tasks/job_queue.py:171-199 | after a crash at any moment an unfinished upload that was not renamed goes on where its committed bytes end: the next chunk is accepted and can be read behind them |
| Resuming.CompletableAfterCrash | app/tasks/job_queue.py:192-198 | and renamed or not it can be completed, with all its committed bytes under the final name |
| Resuming.ResumedFileIsExact | app/services/upload_service.py:79-139 | a client that sends at each offset what its file has there ends up with exactly its file, through any retries, races and crashes |
| KnownGaps.StuckByStep | app/tasks/job_queue.py:150-168 | a completed upload whose counts add up is without a terminal status exactly after being marked completed with its queue already drained, until a batch of it ends |
| KnownGaps.TerminalExactlyWhen | app/tasks/job_queue.py:150-168 | a completed upload shows a terminal status if and only if no more rows are outstanding than were counted twice and it was not marked completed after that |
| KnownGaps.ChunkStaysReadable | app/repositories/file_storage_repository.py:35-60 | a chunk stored in a reachable state stays readable if and only if the file has not its final name or holds those bytes already |
| KnownGaps.RenameIsExactWhen | app/services/upload_service.py:179-183 | a completed file is exactly the committed bytes if and only if the partial file had the committed size, which the rename does not change |
| Scenarios.DrainedTooEarly | app/services/upload_service.py:185-187 | a run in which everything is indexed and the status never becomes terminal |
| Scenarios.DoneButLost | app/repositories/file_storage_repository.py:35-47 | a run in which the rename straddles a read: the file is reported done and its byte is never searchable, whatever follows |
| DoubleCounts.DoneTooEarly | app/tasks/worker.py:72-104 | a run in which such a batch then fails: a counted row is queued again, the file is reported done with a row outstanding, and the report changes when that row fails |
| Scenarios.ChunkAfterRenameIsLost | app/tasks/job_queue.py:192-198 | a run after which an accepted chunk would be stored and never read |
| Scenarios.TornByteStays | app/services/upload_service.py:179-187 | a run in which a completed file keeps a byte that was never committed |

## Left out

- Pipeline.DoPutCheck: assumes of clients that no chunk is sent to a file that has its final name; after a crash between rename and second transaction the code would accept one, see KnownGaps.ChunkStaysReadable for exactly when that is harmless.
- Admissions.ChunkTakenIff: that assumption is among its conditions.
- Reachable.StepKeepsInv: under that assumption on clients; a chunk stored after the rename would break the readable prefix.
- Reachable.RunKeepsInv: over runs under the same assumption.
- OneBuffer.UploadedEndsRise: for the same runs as OneBuffer.UploadedByOneBuffer.
- Config.StrideMeetsBudget: computed in exact integer arithmetic with the shipped constants; rounding of floating point in the size formula and values set by environment variables are not modelled.
- Config.SizesDetermined: in the same exact arithmetic; where the quotients are near a whole number floating point may differ by one.
- Validators.LooksLikeBinary: compares twenty times the invalid bytes with the sample instead of a floating-point quotient with 0.05.
- OneBuffer.UploadedByOneBuffer: when chunks follow a completion that a crash interrupted, the passages are those of the buffer with the flush in between, as OneBuffer.QueuedByOneBuffer says.
- Indexing.VectorStore.IngestBatch: a point is its range and its text; vectors, the embedding model, collections and search are outside, and point identifiers are taken to be injective.
- The chunk limit, the batch size and the number of attempts are arbitrary positive numbers; the default passage sizes, the file limit and the sizing constants are the shipped ones, and other values of them are not modelled.
- DoubleCounts.DoneTooEarly: with at least two jobs to a batch and two attempts to a row, as shipped.
- Opening a file and reading from it are one step: what is under an open file's committed range does not change, whatever its name becomes.
- Deleting an upload, with its races against workers, and listing, ownership pages and the status endpoint.
- The limit on concurrent uploads, HTTP routing, error mapping, logging and configuration.
- Timestamps, file names and error messages in the tables; SQL text and indexes. Tables are a map and a sequence whose index is the chunk id, which is right as long as rows are not deleted.
- Power loss: what was written to disk or committed before a crash of the process is there after it.
- File identifiers are strings that the caller reserves; their generation is a parameter and a reserved one is not reserved again.
- Invalid bytes are replaced when a range is read for embedding; the model keeps the bytes and proves when no replacement happens.
- The polling loop of the worker threads and the pool that starts and stops them; every schedule of their batches is a run of the state machine.
