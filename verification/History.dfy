/** How any run may continue: what is never undone, lost or changed again. */
module History {
  import opened Bytes
  import opened Chunker
  import opened Tables
  import opened Storage
  import opened JobQueue
  import opened UploadService
  import opened Accounting
  import opened QueueLaws
  import opened EnqueueLaws
  import opened Pipeline
  import opened Invariant
  import opened Reachable
  import UploadSteps
  import WorkerSteps

  // ----------------------------------------------------------------- what evolves

  /** Bytes and counts only grow, a completed upload is fixed, and a terminal status
      stays terminal: at most it turns from completed into failed. */
  ghost predicate RowEvolves(was: FileRow, now: FileRow) {
    && now.owner == was.owner
    && was.bytesReceived <= now.bytesReceived && was.chunksTotal <= now.chunksTotal
    && was.chunksIndexed <= now.chunksIndexed && was.chunksFailed <= now.chunksFailed
    && (was.upload == Completed ==>
          && now.upload == Completed && now.bytesReceived == was.bytesReceived && now.totalSize == was.totalSize
          && now.pendingTail == was.pendingTail && now.chunksTotal == was.chunksTotal && now.nextSequence == was.nextSequence)
    && (was.processing.Terminal() ==>
          now.processing == was.processing || (was.processing == Done && now.processing == DoneWithFailures))
    && (now.processing == Waiting ==> was.processing == Waiting)
  }

  ghost predicate FilesEvolve(files: map<FileId, FileRow>, after: map<FileId, FileRow>) {
    forall f | f in files :: f in after && RowEvolves(files[f], after[f])
  }

  /** A row keeps its passage, and once settled everything, unless it was indexed and
      another attempt at it failed. */
  ghost predicate ChunkEvolves(was: ChunkRow, now: ChunkRow) {
    && KeyOf(now) == KeyOf(was) && was.retryCount <= now.retryCount
    && (was.status == Failed ==> now == was)
    && (was.status == Indexed ==> now == was || was.retryCount < now.retryCount)
  }

  ghost predicate ChunksEvolve(chunks: seq<ChunkRow>, after: seq<ChunkRow>) {
    |chunks| <= |after| && forall i | 0 <= i < |chunks| :: ChunkEvolves(chunks[i], after[i])
  }

  ghost predicate LogEvolves(log: map<FileId, seq<Accepted>>, more: map<FileId, seq<Accepted>>) {
    forall f | f in log :: f in more && log[f] <= more[f]
  }

  ghost predicate PointsEvolve(points: map<(FileId, nat), Point>, after: map<(FileId, nat), Point>) {
    forall id | id in points :: id in after && after[id] == points[id]
  }

  /** A file under its final name keeps every byte. */
  ghost predicate FinalEvolves(final: map<FileId, seq<byte>>, after: map<FileId, seq<byte>>) {
    forall f | f in final :: f in after && after[f] == final[f]
  }

  ghost predicate Evolves(s: State, t: State) {
    && FilesEvolve(s.db.files, t.db.files)
    && ChunksEvolve(s.db.chunks, t.db.chunks)
    && LogEvolves(s.log, t.log)
    && PointsEvolve(s.points, t.points)
    && FinalEvolves(s.disk.final, t.disk.final)
  }

  lemma EvolvesOnward(s: State, t: State, u: State)
    requires Evolves(s, t) && Evolves(t, u)
    ensures Evolves(s, u)
  {
    FilesOnward(s.db.files, t.db.files, u.db.files);
    ChunksOnward(s.db.chunks, t.db.chunks, u.db.chunks);
  }

  lemma FilesOnward(files: map<FileId, FileRow>, next: map<FileId, FileRow>, last: map<FileId, FileRow>)
    requires FilesEvolve(files, next) && FilesEvolve(next, last)
    ensures FilesEvolve(files, last)
  {
    forall f | f in files
      ensures f in last && RowEvolves(files[f], last[f])
    {
      assert RowEvolves(files[f], next[f]) && RowEvolves(next[f], last[f]);
    }
  }

  lemma ChunksOnward(chunks: seq<ChunkRow>, next: seq<ChunkRow>, last: seq<ChunkRow>)
    requires ChunksEvolve(chunks, next) && ChunksEvolve(next, last)
    ensures ChunksEvolve(chunks, last)
  {
    forall i | 0 <= i < |chunks|
      ensures ChunkEvolves(chunks[i], last[i])
    {
      assert ChunkEvolves(chunks[i], next[i]) && ChunkEvolves(next[i], last[i]);
    }
  }

  // ------------------------------------------------------------------- the tables

  ghost predicate DbEvolves(db: Db, after: Db) {
    FilesEvolve(db.files, after.files) && ChunksEvolve(db.chunks, after.chunks)
  }

  lemma OneFileEvolves(files: map<FileId, FileRow>, f: FileId, next: FileRow)
    requires f in files ==> RowEvolves(files[f], next)
    ensures FilesEvolve(files, files[f := next])
  {
  }

  lemma AppendingEvolves(chunks: seq<ChunkRow>, rows: seq<ChunkRow>)
    ensures ChunksEvolve(chunks, chunks + rows)
  {
  }

  lemma PutEvolves(db: Db, f: FileId, row: FileRow, body: seq<byte>)
    requires TablesOk(db) && f in db.files && db.files[f] == row && row.upload != Completed
    ensures DbEvolves(db, AfterPut(db, f, row, body))
  {
    assert RowSettled(row);
    UploadSteps.CommitTables(db, f, row, body);
    OneFileEvolves(db.files, f, UploadSteps.RowAfterPut(row, body));
    AppendingEvolves(db.chunks, NewRows(f, FeedBody(row, body).passages, row.nextSequence));
  }

  lemma CloseEvolves(db: Db, f: FileId, row: FileRow)
    requires TablesOk(db) && f in db.files && db.files[f] == row && row.upload != Completed
    ensures DbEvolves(db, AfterFinalizing(db, f))
  {
    assert RowSettled(row);
    UploadSteps.CloseTables(db, f, row);
    OneFileEvolves(db.files, f, UploadSteps.RowAfterClose(row));
    AppendingEvolves(db.chunks, NewRows(f, FlushRow(row).passages, row.nextSequence));
  }

  lemma FinishEvolves(db: Db, f: FileId)
    ensures DbEvolves(db, AfterCompleted(db, f))
  {
  }

  lemma ClaimEvolves(db: Db, limit: nat)
    ensures DbEvolves(db, AfterClaim(db, limit))
  {
    hide Mark;
    BatchIsPending(db, limit);
    var ids := BatchIds(db.chunks, limit);
    forall i | 0 <= i < |db.chunks|
      ensures ChunkEvolves(db.chunks[i], AfterClaim(db, limit).chunks[i])
    {
      MarkAt(db.chunks, ids, Processing, 0, i);
    }
  }

  /** A held row is neither indexed nor failed. */
  lemma HeldIsOpen(chunks: seq<ChunkRow>, jobs: seq<Job>, f: FileId, i: nat)
    requires Held(chunks, jobs, f) && i in Ids(jobs)
    ensures i < |chunks| && chunks[i].status == Processing
  {
    var j :| 0 <= j < |jobs| && Ids(jobs)[j] == i;
    assert HeldJob(chunks, jobs[j], f);
  }

  /** A listed row has not failed. */
  lemma ListedIsOpen(chunks: seq<ChunkRow>, jobs: seq<Job>, f: FileId, i: nat)
    requires Listed(chunks, jobs, f) && i in Ids(jobs)
    ensures i < |chunks| && (chunks[i].status == Processing || chunks[i].status == Indexed)
  {
    var j :| 0 <= j < |jobs| && Ids(jobs)[j] == i;
    assert ListedJob(chunks, jobs[j], f);
  }

  /** Counting and then refreshing a row: a terminal status is found again, unless the
      first failures have been counted. */
  lemma CountAndRefresh(files: map<FileId, FileRow>, chunks: seq<ChunkRow>, f: FileId, indexed: nat, failed: nat)
    requires TerminalSettled(files)
    ensures var counted := RecordFailed(RecordIndexed(files, f, indexed), f, failed);
            var after := AfterRefresh(Db(counted, chunks), f).files;
            && FilesEvolve(files, after)
            && (failed == 0 ==> forall g | g in files && files[g].processing.Terminal() :: after[g].processing == files[g].processing)
  {
    forall g | g in files
      ensures RowSettled(files[g])
    {
    }
  }

  lemma NothingRecorded(files: map<FileId, FileRow>, f: FileId)
    ensures RecordIndexed(files, f, 0) == files && RecordFailed(files, f, 0) == files
  {
  }

  lemma CompleteEvolves(db: Db, jobs: seq<Job>, f: FileId)
    requires TablesOk(db) && Held(db.chunks, jobs, f)
    ensures DbEvolves(db, AfterComplete(db, jobs))
    ensures forall g | g in db.files && db.files[g].processing.Terminal() ::
              AfterComplete(db, jobs).files[g].processing == db.files[g].processing
  {
    hide TablesOk, Held, Mark, AfterRefresh, RecordIndexed, RecordFailed;
    if |jobs| > 0 {
      assert HeldJob(db.chunks, jobs[0], f) by { HeldFirst(db.chunks, jobs, f); }
      OpenTables(db);
      NothingRecorded(RecordIndexed(db.files, f, |jobs|), f);
      CountAndRefresh(db.files, Mark(db.chunks, Ids(jobs), Indexed, 0), f, |jobs|, 0);
      RefreshKeepsRows(Db(RecordIndexed(db.files, f, |jobs|), Mark(db.chunks, Ids(jobs), Indexed, 0)), f);
      CompletedRowsEvolve(db.chunks, jobs, f);
    }
  }

  lemma HeldFirst(chunks: seq<ChunkRow>, jobs: seq<Job>, f: FileId)
    requires Held(chunks, jobs, f) && |jobs| > 0
    ensures HeldJob(chunks, jobs[0], f)
  {
  }

  lemma OpenTables(db: Db)
    requires TablesOk(db)
    ensures TerminalSettled(db.files)
  {
  }

  lemma RefreshKeepsRows(db: Db, f: FileId)
    ensures AfterRefresh(db, f).chunks == db.chunks
  {
  }

  lemma CompletedRowsEvolve(chunks: seq<ChunkRow>, jobs: seq<Job>, f: FileId)
    requires Held(chunks, jobs, f)
    ensures ChunksEvolve(chunks, Mark(chunks, Ids(jobs), Indexed, 0))
  {
    hide Mark, Held;
    forall i | 0 <= i < |chunks|
      ensures ChunkEvolves(chunks[i], Mark(chunks, Ids(jobs), Indexed, 0)[i])
    {
      WorkerSteps.CompletedRow(chunks, jobs, f, i);
      if i in Ids(jobs) {
        HeldIsOpen(chunks, jobs, f, i);
      }
    }
  }

  lemma FailEvolves(db: Db, jobs: seq<Job>, f: FileId)
    requires TablesOk(db) && Listed(db.chunks, jobs, f)
    ensures DbEvolves(db, AfterFail(db, jobs))
  {
    hide TablesOk, Listed, Mark, Split, AfterRefresh, RecordIndexed, RecordFailed, AfterFail;
    if |jobs| > 0 {
      FailIsRefreshed(db, jobs, f);
      OpenTables(db);
      NothingRecorded(db.files, f);
      CountAndRefresh(db.files, FailedTables(db, jobs, f).chunks, f, 0, |Ids(Split(jobs, true))|);
      FailedRowsEvolve(db, jobs, f);
    } else {
      NothingFails(db);
    }
  }

  lemma NothingFails(db: Db)
    ensures AfterFail(db, []) == db
  {
  }

  lemma FailedRowsEvolve(db: Db, jobs: seq<Job>, f: FileId)
    requires Listed(db.chunks, jobs, f)
    ensures ChunksEvolve(db.chunks, AfterFail(db, jobs).chunks)
  {
    hide Listed, AfterFail;
    WorkerSteps.FailedRows(db, jobs, f);
    forall i | 0 <= i < |db.chunks|
      ensures ChunkEvolves(db.chunks[i], AfterFail(db, jobs).chunks[i])
    {
      if i in Ids(jobs) {
        ListedIsOpen(db.chunks, jobs, f, i);
      }
    }
  }

  lemma RecoverEvolves(db: Db)
    ensures DbEvolves(db, AfterRecover(db))
  {
  }

  // ----------------------------------------------------------------------- points

  /** A point is determined by its id, so storing it again changes nothing. */
  lemma PointIsDetermined(chunks: seq<ChunkRow>, log: map<FileId, seq<Accepted>>, id: (FileId, nat), p: Point, q: Point)
    requires PointOk(chunks, log, id, p) && PointOk(chunks, log, id, q)
    ensures p == q
  {
  }

  lemma SamePoint(points: map<(FileId, nat), Point>, id: (FileId, nat), point: Point)
    requires id in points ==> points[id] == point
    ensures PointsEvolve(points, points[id := point])
  {
  }

  lemma UpsertEvolves(db: Db, log: map<FileId, seq<Accepted>>, points: map<(FileId, nat), Point>, worker: Worker, k: nat)
    requires TablesOk(db) && StreamsOk(db, log) && PointsOk(db.chunks, log, points)
    requires WorkerOk(db.chunks, log, worker) && worker.Ingesting? && k < |KeptBy(worker)|
    ensures var p := KeptBy(worker)[k];
            PointsEvolve(points, points[PointId(p.job) := Point(p.job.range, p.text)])
  {
    var p := KeptBy(worker)[k];
    var id, point := PointId(p.job), Point(p.job.range, p.text);
    WorkerSteps.PassageFacts(db.chunks, log, worker, k);
    WorkerSteps.PassagePoint(db, log, p.job, p.text);
    if id in points {
      PointIsDetermined(db.chunks, log, id, points[id], point);
    }
    SamePoint(points, id, point);
  }

  /** A second rename cannot replace a file that has its final name. */
  lemma MoveEvolves(s: State, f: FileId)
    requires DiskOk(s.db.files, s.log, s.disk) && f in s.disk.partial
    ensures Renamed(s.disk, f).Ok? && FinalEvolves(s.disk.final, Renamed(s.disk, f).value.final)
  {
    assert FileOnDisk(s.db.files[f], Content(s.log[f]), s.disk, f);
  }

  // ------------------------------------------------------------------------ steps

  /** Only the tables have changed. */
  lemma TablesEvolve(s: State, t: State)
    requires DbEvolves(s.db, t.db) && LogEvolves(s.log, t.log)
    requires t.points == s.points && t.disk.final == s.disk.final
    ensures Evolves(s, t)
  {
  }

  ghost predicate Untouched(s: State, t: State) {
    t.db == s.db && t.log == s.log && t.points == s.points && t.disk.final == s.disk.final
  }

  lemma NothingEvolves(s: State, t: State)
    requires Untouched(s, t)
    ensures Evolves(s, t)
  {
  }

  /** Steps that change neither the tables, the points nor any final file. */
  predicate Preparatory(l: Label) {
    || l.PutCheck? || l.PutTrim? || l.PutWrite? || l.PutAbort? || l.CompleteLook? || l.CompleteDrop?
    || l.Read? || l.Abandon? || l.Crash?
  }

  lemma PreparatoryTouchesNothing(s: State, l: Label)
    requires Preparatory(l)
    ensures Untouched(s, Step(s, l))
  {
    hide Step;
    if l.Read? || l.Abandon? || l.Crash? || l.PutAbort? || l.CompleteDrop? {
      LeavingTouchesNothing(s, l);
    } else {
      RequestsTouchNothing(s, l);
    }
  }

  lemma LeavingTouchesNothing(s: State, l: Label)
    requires l.Read? || l.Abandon? || l.Crash? || l.PutAbort? || l.CompleteDrop?
    ensures Untouched(s, Step(s, l))
  {
    hide ReadOn, DoCreate, DoPutCheck, DoPutTrim, DoPutWrite, DoPutCommit, DoCompleteClose, DoCompleteLook, DoCompleteMove,
         DoCompleteFinish, DoClaim, DoSift, DoUpsert, DoIngestOk, DoFail, AfterRecover;
  }

  lemma RequestsTouchNothing(s: State, l: Label)
    requires l.PutCheck? || l.PutTrim? || l.PutWrite? || l.CompleteLook?
    ensures Untouched(s, Step(s, l))
  {
    hide PutError, DoCreate, DoPutCommit, DoCompleteClose, DoCompleteMove, DoCompleteFinish, DoClaim, DoRead, DoSift,
         DoUpsert, DoIngestOk, DoFail, AfterRecover;
  }

  /** Steps that leave the tables as they are. */
  predicate LeavesTables(l: Label) {
    Preparatory(l) || l.CompleteMove? || l.Upsert?
  }

  lemma TablesLeft(s: State, l: Label)
    requires LeavesTables(l)
    ensures Step(s, l).db == s.db
  {
    hide Drain, AfterPut, AfterFinalizing, AfterCompleted, KeptBy;
    if Preparatory(l) {
      PreparatoryTouchesNothing(s, l);
    }
  }

  lemma FreshFileEvolves(db: Db, log: map<FileId, seq<Accepted>>, f: FileId, row: FileRow)
    requires f !in db.files && f !in log
    ensures DbEvolves(db, db.(files := db.files[f := row])) && LogEvolves(log, log[f := []])
  {
    OneFileEvolves(db.files, f, row);
  }

  lemma CreateEvolves(s: State, f: FileId, owner: string, totalSize: nat)
    requires s.log.Keys == s.db.files.Keys
    ensures Evolves(s, DoCreate(s, f, owner, totalSize))
  {
    if s.Free() && f !in s.db.files {
      FreshFileEvolves(s.db, s.log, f, NewFile(owner, totalSize));
      TablesEvolve(s, DoCreate(s, f, owner, totalSize));
    } else {
      NothingEvolves(s, DoCreate(s, f, owner, totalSize));
    }
  }

  lemma LogAppendEvolves(log: map<FileId, seq<Accepted>>, f: FileId, a: Accepted)
    requires f in log
    ensures LogEvolves(log, log[f := log[f] + [a]])
  {
  }

  lemma CommitEvolves(s: State)
    requires TablesOk(s.db) && PutOk(s.db.files, s.log, s.disk, s.put)
    ensures Evolves(s, DoPutCommit(s))
  {
    hide Drain, TablesOk, AfterPut, FilesEvolve, ChunksEvolve, RowEvolves;
    if s.put.Some? && s.put.value.phase == Opened && s.put.value.written == |s.put.value.body| {
      var p := s.put.value;
      PutEvolves(s.db, p.f, p.row, p.body);
      LogAppendEvolves(s.log, p.f, Accepted(p.row.bytesReceived, p.body));
      TablesEvolve(s, DoPutCommit(s));
    } else {
      NothingEvolves(s, DoPutCommit(s));
    }
  }

  lemma CloseStepEvolves(s: State, r: nat, f: FileId, owner: string)
    requires TablesOk(s.db)
    ensures Evolves(s, DoCompleteClose(s, r, f, owner))
  {
    if s.Free() && r !in s.completions && CompleteError(s.db, f, owner).None? && s.db.files[f].upload != Completed {
      CloseEvolves(s.db, f, s.db.files[f]);
      TablesEvolve(s, DoCompleteClose(s, r, f, owner));
    } else {
      NothingEvolves(s, DoCompleteClose(s, r, f, owner));
    }
  }

  lemma MoveStepEvolves(s: State, r: nat)
    requires DiskOk(s.db.files, s.log, s.disk)
    ensures Evolves(s, DoCompleteMove(s, r))
  {
    NothingEvolves(s, s);
    if s.up && r in s.completions && s.completions[r].phase == MustMove && s.completions[r].f in s.disk.partial {
      MoveEvolves(s, s.completions[r].f);
    } else {
      NothingEvolves(s, DoCompleteMove(s, r));
    }
  }

  lemma FinishStepEvolves(s: State, r: nat)
    ensures Evolves(s, DoCompleteFinish(s, r))
  {
    if s.Free() && r in s.completions && s.completions[r].phase == Moved {
      FinishEvolves(s.db, s.completions[r].f);
      TablesEvolve(s, DoCompleteFinish(s, r));
    } else {
      NothingEvolves(s, DoCompleteFinish(s, r));
    }
  }

  lemma ClaimStepEvolves(s: State, w: nat, limit: Option<nat>)
    ensures Evolves(s, DoClaim(s, w, limit))
  {
    ClaimEvolves(s.db, BatchLimit(limit));
    NothingEvolves(s, s);
    if s.Free() && w !in s.workers && |BatchJobs(s.db, BatchLimit(limit))| > 0 {
      TablesEvolve(s, DoClaim(s, w, limit));
    }
  }

  lemma RecoverStepEvolves(s: State)
    ensures Evolves(s, Step(s, Recover))
  {
    hide AfterCut, FeedBody, FlushRow, AfterPut, AfterFinalizing, AfterCompleted, FilesEvolve, ChunksEvolve,
         RowEvolves, ReadRange, Readable;
    RecoverEvolves(s.db);
    NothingEvolves(s, s);
    if !s.up {
      TablesEvolve(s, Step(s, Recover));
    }
  }

  lemma SiftStepEvolves(s: State, w: nat)
    requires Inv(s)
    ensures Evolves(s, DoSift(s, w))
  {
    hide TablesOk, WorkersOk, Held, Kept, Empty, DoSift, DbEvolves, AfterComplete;
    SiftTouchesNoData(s, w);
    if s.up && w in s.workers && s.workers[w].Reading? && |s.workers[w].texts| == |s.workers[w].jobs| {
      var empty := Empty(s.workers[w].jobs, s.workers[w].texts);
      WorkerSteps.OneWorker(s.db.chunks, s.log, s.workers, w);
      WorkerSteps.SiftIs(s, w);
      WorkerSteps.SiftKeepsWorkers(s.db, s.log, s.workers, w);
      CompleteEvolves(s.db, empty, s.workers[w].jobs[0].fileId);
      if |empty| > 0 && s.put.None? {
        TablesEvolve(s, DoSift(s, w));
      } else {
        NothingEvolves(s, DoSift(s, w));
      }
    } else {
      WorkerSteps.NoSift(s, w);
      NothingEvolves(s, s);
    }
  }

  lemma SiftTouchesNoData(s: State, w: nat)
    ensures DoSift(s, w).log == s.log && DoSift(s, w).points == s.points && DoSift(s, w).disk == s.disk
  {
  }

  lemma OnlyPointsEvolve(s: State, points: map<(FileId, nat), Point>)
    requires PointsEvolve(s.points, points)
    ensures Evolves(s, s.(points := points))
  {
    NothingEvolves(s, s);
  }

  lemma UpsertStepEvolves(s: State, w: nat, k: nat)
    requires Inv(s)
    ensures Evolves(s, DoUpsert(s, w, k))
  {
    hide RowCounted, RowSettled, Held, HeldJob, Listed, KeptBy;
    if s.up && w in s.workers && s.workers[w].Ingesting? && k < |KeptBy(s.workers[w])| {
      var p := KeptBy(s.workers[w])[k];
      UpsertEvolves(s.db, s.log, s.points, s.workers[w], k);
      OnlyPointsEvolve(s, s.points[PointId(p.job) := Point(p.job.range, p.text)]);
    } else {
      NothingEvolves(s, DoUpsert(s, w, k));
    }
  }

  lemma BatchStepEvolves(s: State, w: nat)
    requires Inv(s)
    ensures Evolves(s, DoIngestOk(s, w)) && Evolves(s, DoFail(s, w))
  {
    hide TablesOk, StreamsOk, WorkersOk, Held, Listed, KeptBy, JobsOf, FilesEvolve, ChunksEvolve,
         AfterComplete, AfterFail;
    NothingEvolves(s, s);
    if s.Free() && w in s.workers {
      var jobs := s.workers[w].jobs;
      WorkerSteps.OneWorker(s.db.chunks, s.log, s.workers, w);
      FailEvolves(s.db, jobs, jobs[0].fileId);
      TablesEvolve(s, DoFail(s, w));
      if s.workers[w].Ingesting? && AllStored(s.points, KeptBy(s.workers[w])) {
        WorkerSteps.IngestedJobs(s.db.chunks, s.log, s.workers, w);
        CompleteEvolves(s.db, JobsOf(KeptBy(s.workers[w])), jobs[0].fileId);
        TablesEvolve(s, DoIngestOk(s, w));
      }
    }
  }

  lemma LogHasFiles(s: State)
    requires Inv(s)
    ensures s.log.Keys == s.db.files.Keys
  {
  }

  /** What no step of any request, worker, crash or restart undoes. */
  lemma StepEvolves(s: State, l: Label)
    requires Inv(s)
    ensures Evolves(s, Step(s, l))
  {
    hide TablesOk, StreamsOk, DiskOk, PutOk, CompletionsOk, WorkersOk, PointsOk, Evolves, Untouched, DoCreate, DoPutCommit,
         DoCompleteClose, DoCompleteMove, DoCompleteFinish, DoClaim, DoSift, DoUpsert, DoIngestOk, DoFail, DoPutCheck,
         DoPutTrim, DoPutWrite, DoRead, DoCompleteLook;
    if Preparatory(l) {
      PreparatoryTouchesNothing(s, l);
      NothingEvolves(s, Step(s, l));
    } else {
      LogHasFiles(s);
      match l
      case Create(f, owner, totalSize) => CreateEvolves(s, f, owner, totalSize);
      case PutCommit => CommitEvolves(s);
      case CompleteClose(r, f, owner) => CloseStepEvolves(s, r, f, owner);
      case CompleteMove(r) => MoveStepEvolves(s, r);
      case CompleteFinish(r) => FinishStepEvolves(s, r);
      case Claim(w, limit) => ClaimStepEvolves(s, w, limit);
      case Sift(w) => SiftStepEvolves(s, w);
      case Upsert(w, k) => UpsertStepEvolves(s, w, k);
      case IngestOk(w) => BatchStepEvolves(s, w);
      case Fail(w) => BatchStepEvolves(s, w);
      case Recover => RecoverStepEvolves(s);
    }
  }

  /** And so it is for runs: whatever happens after a run, however long, what was
      committed, failed, stored or completed stays so, and so does what was indexed,
      unless another attempt at it fails. */
  lemma {:induction false} RunEvolves(labels: seq<Label>, more: seq<Label>)
    ensures Evolves(Run(labels), Run(labels + more))
  {
    hide Inv, Drain, Step, FilesEvolve, ChunksEvolve, RowEvolves;
    if |more| == 0 {
      assert labels + more == labels;
      NothingEvolves(Run(labels), Run(labels));
    } else {
      var before, l := more[..|more| - 1], more[|more| - 1];
      assert labels + more == (labels + before) + [l];
      RunEvolves(labels, before);
      RunKeepsInv(labels + before);
      RunOneMore(labels + before, l);
      StepEvolves(Run(labels + before), l);
      EvolvesOnward(Run(labels), Run(labels + before), Run(labels + more));
    }
  }
}
