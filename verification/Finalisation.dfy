/** The two-transaction completion: once a file is closed, nothing that happens
    before the process dies touches its bytes or adds to its passages. */
module Finalisation {
  import opened Bytes
  import opened Chunker
  import opened Tables
  import opened Storage
  import opened JobQueue
  import opened UploadService
  import opened Accounting
  import opened QueueLaws
  import opened EnqueueLaws
  import opened Pipeline
  import opened Invariant
  import opened Frames
  import opened Reachable
  import History
  import UploadSteps
  import WorkerSteps

  ghost predicate IsClosed(files: map<FileId, FileRow>, f: FileId) {
    f in files && (files[f].upload == Finalizing || files[f].upload == Completed)
  }

  /** The process runs and `f` is closed. */
  ghost predicate ClosedIn(s: State, f: FileId) {
    s.up && IsClosed(s.db.files, f) && f in s.log
  }

  /** Nothing of the upload of `f` has changed, on disk or in the tables. */
  ghost predicate SameUpload(s: State, t: State, f: FileId) {
    ClosedIn(t, f) && SameBytes(s, t, f) && SameTables(s.db, t.db, f)
  }

  ghost predicate SameBytes(s: State, t: State, f: FileId) {
    && f in s.log && f in t.log && t.log[f] == s.log[f]
    && Readable(t.disk, f) == Readable(s.disk, f)
  }

  ghost predicate SameTables(db: Db, after: Db, f: FileId) {
    && f in db.files && f in after.files
    && SameRow(db.files[f], after.files[f])
    && FileRanges(after.chunks, f) == FileRanges(db.chunks, f)
  }

  // -------------------------------------------------------------------- the disk

  /** A chunk in flight is for another file. */
  lemma ChunkIsElsewhere(s: State, f: FileId)
    requires PutOk(s.db.files, s.log, s.disk, s.put) && IsClosed(s.db.files, f)
    ensures s.put.Some? ==> s.put.value.f != f
  {
  }

  /** Trimming and writing for another file leave this one readable as it was. */
  lemma WritesElsewhere(s: State, l: Label, f: FileId)
    requires s.put.Some? ==> s.put.value.f != f
    requires History.Preparatory(l)
    ensures Readable(Step(s, l).disk, f) == Readable(s.disk, f)
    ensures l.Crash? || Step(s, l).up == s.up
  {
    hide Drain, FeedBody, FlushRow, AfterPut, AfterFinalizing, AfterCompleted;
  }

  /** The rename leaves a file's bytes readable as they were. */
  lemma RenameKeepsReadable(disk: Disk, g: FileId, f: FileId)
    requires g in disk.partial && (g == f ==> f !in disk.final)
    ensures Readable(Renamed(disk, g).value, f) == Readable(disk, f)
  {
  }

  // ------------------------------------------------------------------ the tables

  /** A row as far as an upload goes. */
  ghost predicate SameRow(row: FileRow, next: FileRow) {
    && next.bytesReceived == row.bytesReceived && next.totalSize == row.totalSize
    && next.pendingTail == row.pendingTail && next.nextSequence == row.nextSequence
  }

  lemma RowsElsewhere(db: Db, g: FileId, next: FileRow, passages: seq<Range>, first: nat, f: FileId)
    requires f in db.files
    requires g == f ==> passages == [] && SameRow(db.files[f], next)
    ensures SameTables(db, Db(db.files[g := next], db.chunks + NewRows(g, passages, first)), f)
  {
    AppendedFileRanges(db.chunks, g, passages, first, f);
    assert FileRanges(db.chunks, f) + [] == FileRanges(db.chunks, f);
  }

  /** Flushing an empty tail finds nothing. */
  lemma NothingToFlush(row: FileRow)
    requires row.pendingTail == []
    ensures FlushRow(row).passages == []
  {
  }

  lemma ClosedAgain(row: FileRow, ranges: seq<Range>, stream: seq<byte>)
    requires FileStream(row, ranges, stream) && (row.upload == Finalizing || row.upload == Completed)
    ensures SameRow(row, UploadSteps.RowAfterClose(row)) && FlushRow(row).passages == []
  {
    NothingToFlush(row);
  }

  /** Completing a closed file again queues nothing. */
  lemma CloseAgain(db: Db, log: map<FileId, seq<Accepted>>, g: FileId, f: FileId)
    requires TablesOk(db) && StreamsOk(db, log) && IsClosed(db.files, f)
    requires g in db.files && db.files[g].upload != Completed
    ensures SameTables(db, AfterFinalizing(db, g), f)
  {
    var row := db.files[g];
    UploadSteps.CloseTables(db, g, row);
    if g == f {
      UploadSteps.OneStream(db, log, f);
      ClosedAgain(row, FileRanges(db.chunks, f), Content(log[f]));
    }
    RowsElsewhere(db, g, UploadSteps.RowAfterClose(row), FlushRow(row).passages, row.nextSequence, f);
  }

  lemma QueueKeepsTables(db: Db, after: Db, f: FileId)
    requires SameUploads(db.files, after.files) && Keys(after.chunks) == Keys(db.chunks) && f in db.files
    ensures SameTables(db, after, f) && (IsClosed(db.files, f) ==> IsClosed(after.files, f))
  {
    SameRanges(db.chunks, after.chunks, f);
  }

  // ------------------------------------------------------------------- each step

  lemma TablesSame(s: State, t: State, f: FileId)
    requires ClosedIn(s, f)
    requires t.up && t.db == s.db && t.log == s.log && Readable(t.disk, f) == Readable(s.disk, f)
    ensures SameUpload(s, t, f)
  {
  }

  lemma TablesMoved(s: State, t: State, f: FileId)
    requires ClosedIn(s, f) && t.up && IsClosed(t.db.files, f) && SameTables(s.db, t.db, f)
    requires f in t.log && t.log[f] == s.log[f] && t.disk == s.disk
    ensures SameUpload(s, t, f)
  {
  }

  lemma CommitElsewhere(s: State, f: FileId)
    requires TablesOk(s.db) && PutOk(s.db.files, s.log, s.disk, s.put) && ClosedIn(s, f)
    ensures SameUpload(s, DoPutCommit(s), f)
  {
    ChunkIsElsewhere(s, f);
    if s.put.Some? && s.put.value.phase == Opened && s.put.value.written == |s.put.value.body| {
      var p := s.put.value;
      PutElsewhere(s.db, p, f);
      CommitTouches(s, p, f);
      TablesMoved(s, DoPutCommit(s), f);
    } else {
      TablesSame(s, DoPutCommit(s), f);
    }
  }

  lemma PutElsewhere(db: Db, p: Put, f: FileId)
    requires TablesOk(db) && p.f in db.files && db.files[p.f] == p.row && p.row.upload != Completed
    requires f in db.files && p.f != f
    ensures SameTables(db, AfterPut(db, p.f, p.row, p.body), f)
    ensures IsClosed(db.files, f) ==> IsClosed(AfterPut(db, p.f, p.row, p.body).files, f)
  {
    UploadSteps.CommitTables(db, p.f, p.row, p.body);
    RowsElsewhere(db, p.f, UploadSteps.RowAfterPut(p.row, p.body), FeedBody(p.row, p.body).passages, p.row.nextSequence, f);
  }

  lemma CommitTouches(s: State, p: Put, f: FileId)
    requires s.put == Some(p) && p.phase == Opened && p.written == |p.body| && p.f != f && f in s.log
    ensures var t := DoPutCommit(s);
            && t.up == s.up && f in t.log && t.log[f] == s.log[f] && t.disk == s.disk
            && t.db == AfterPut(s.db, p.f, p.row, p.body)
  {
  }

  lemma ClosesAnother(db: Db, g: FileId, f: FileId)
    requires g in db.files && IsClosed(db.files, f)
    ensures IsClosed(AfterFinalizing(db, g).files, f)
  {
  }

  lemma CloseKeeps(s: State, r: nat, g: FileId, owner: string, f: FileId)
    requires TablesOk(s.db) && StreamsOk(s.db, s.log) && ClosedIn(s, f)
    ensures SameUpload(s, DoCompleteClose(s, r, g, owner), f)
  {
    hide Drain, TablesOk, StreamsOk, FileStream, RowCounted, RowSettled, AfterFinalizing, SameTables, SameRow;
    var t := DoCompleteClose(s, r, g, owner);
    if s.Free() && r !in s.completions && CompleteError(s.db, g, owner).None? && s.db.files[g].upload != Completed {
      CloseAgain(s.db, s.log, g, f);
      ClosesAnother(s.db, g, f);
      TablesMoved(s, t, f);
    } else {
      TablesSame(s, t, f);
    }
  }

  lemma MoveKeeps(s: State, r: nat, f: FileId)
    requires DiskOk(s.db.files, s.log, s.disk) && ClosedIn(s, f)
    ensures SameUpload(s, DoCompleteMove(s, r), f)
  {
    MoveTouches(s, r, f);
    TablesSame(s, DoCompleteMove(s, r), f);
  }

  lemma MoveTouches(s: State, r: nat, f: FileId)
    requires DiskOk(s.db.files, s.log, s.disk) && f in s.log
    ensures var t := DoCompleteMove(s, r);
            t.up == s.up && t.db == s.db && t.log == s.log && Readable(t.disk, f) == Readable(s.disk, f)
  {
    assert FileOnDisk(s.db.files[f], Content(s.log[f]), s.disk, f);
    if s.up && r in s.completions && s.completions[r].phase == MustMove && s.completions[r].f in s.disk.partial {
      RenameKeepsReadable(s.disk, s.completions[r].f, f);
    }
  }

  lemma CompletedTables(db: Db, g: FileId, f: FileId)
    requires f in db.files
    ensures SameTables(db, AfterCompleted(db, g), f)
    ensures IsClosed(db.files, f) ==> IsClosed(AfterCompleted(db, g).files, f)
  {
  }

  lemma FinishKeeps(s: State, r: nat, f: FileId)
    requires ClosedIn(s, f)
    ensures SameUpload(s, DoCompleteFinish(s, r), f)
  {
    if s.Free() && r in s.completions && s.completions[r].phase == Moved {
      CompletedTables(s.db, s.completions[r].f, f);
      TablesMoved(s, DoCompleteFinish(s, r), f);
    } else {
      TablesSame(s, DoCompleteFinish(s, r), f);
    }
  }

  lemma CreatedTables(db: Db, g: FileId, row: FileRow, f: FileId)
    requires f in db.files && g !in db.files
    ensures SameTables(db, db.(files := db.files[g := row]), f)
    ensures IsClosed(db.files, f) ==> IsClosed(db.files[g := row], f)
  {
  }

  lemma CreateKeeps(s: State, g: FileId, owner: string, totalSize: nat, f: FileId)
    requires ClosedIn(s, f)
    ensures SameUpload(s, DoCreate(s, g, owner, totalSize), f)
  {
    if s.Free() && g !in s.db.files {
      CreatedTables(s.db, g, NewFile(owner, totalSize), f);
      TablesMoved(s, DoCreate(s, g, owner, totalSize), f);
    } else {
      TablesSame(s, DoCreate(s, g, owner, totalSize), f);
    }
  }

  lemma ClaimKeeps(s: State, w: nat, limit: Option<nat>, f: FileId)
    requires TablesOk(s.db) && ClosedIn(s, f)
    ensures SameUpload(s, DoClaim(s, w, limit), f)
  {
    hide TablesOk, FileRanges, RowCounted, RowSettled, SameTables, SameUploads, SameRow;
    if s.Free() && w !in s.workers && |BatchJobs(s.db, BatchLimit(limit))| > 0 {
      ClaimSameUploads(s.db, BatchLimit(limit));
      ClaimKeepsTables(s.db, BatchLimit(limit));
      QueueKeepsTables(s.db, AfterClaim(s.db, BatchLimit(limit)), f);
      TablesMoved(s, DoClaim(s, w, limit), f);
    } else {
      TablesSame(s, DoClaim(s, w, limit), f);
    }
  }

  lemma FailKeeps(s: State, w: nat, f: FileId)
    requires TablesOk(s.db) && WorkersOk(s.db.chunks, s.log, s.workers) && ClosedIn(s, f)
    ensures SameUpload(s, DoFail(s, w), f)
  {
    hide TablesOk, Ranges, Count, WorkersOk, Listed, ListedJob, SameTables, SameUploads, SameRow, AfterFail, ExcessOf, Among;
    if s.Free() && w in s.workers {
      var jobs := s.workers[w].jobs;
      WorkerSteps.OneWorker(s.db.chunks, s.log, s.workers, w);
      FailSameUploads(s.db, jobs, jobs[0].fileId);
      FailKeepsTables(s.db, jobs, jobs[0].fileId);
      QueueKeepsTables(s.db, AfterFail(s.db, jobs), f);
      TablesMoved(s, DoFail(s, w), f);
    } else {
      TablesSame(s, DoFail(s, w), f);
    }
  }

  /** Completing held jobs. */
  lemma CompletionKeeps(s: State, part: seq<Job>, g: FileId, workers: map<nat, Worker>, f: FileId)
    requires TablesOk(s.db) && Held(s.db.chunks, part, g) && ClosedIn(s, f)
    ensures SameUpload(s, s.(db := AfterComplete(s.db, part), workers := workers), f)
  {
    hide TablesOk, Held, HeldJob, SameTables, SameUploads, SameRow, Readable, AfterComplete, SameExcess;
    CompleteSameUploads(s.db, part);
    CompleteKeepsTables(s.db, part, g);
    QueueKeepsTables(s.db, AfterComplete(s.db, part), f);
    TablesMoved(s, s.(db := AfterComplete(s.db, part), workers := workers), f);
  }

  lemma IngestKeeps(s: State, w: nat, f: FileId)
    requires TablesOk(s.db) && WorkersOk(s.db.chunks, s.log, s.workers) && ClosedIn(s, f)
    ensures SameUpload(s, DoIngestOk(s, w), f)
  {
    hide TablesOk, WorkersOk, Held, SameUpload, KeptBy, JobsOf, AfterComplete;
    SameUploadSame(s, f);
    if s.Free() && w in s.workers && s.workers[w].Ingesting? && AllStored(s.points, KeptBy(s.workers[w])) {
      WorkerSteps.OneWorker(s.db.chunks, s.log, s.workers, w);
      WorkerSteps.IngestedJobs(s.db.chunks, s.log, s.workers, w);
      CompletionKeeps(s, JobsOf(KeptBy(s.workers[w])), s.workers[w].jobs[0].fileId, s.workers - {w}, f);
    }
  }

  lemma SameUploadSame(s: State, f: FileId)
    requires ClosedIn(s, f)
    ensures SameUpload(s, s, f)
  {
    TablesSame(s, s, f);
  }

  lemma OnlyWorkersSame(s: State, workers: map<nat, Worker>, f: FileId)
    requires ClosedIn(s, f)
    ensures SameUpload(s, s.(workers := workers), f)
  {
    TablesSame(s, s.(workers := workers), f);
  }

  lemma SiftKeeps(s: State, w: nat, f: FileId)
    requires TablesOk(s.db) && WorkersOk(s.db.chunks, s.log, s.workers) && ClosedIn(s, f)
    ensures SameUpload(s, DoSift(s, w), f)
  {
    hide TablesOk, WorkersOk, Held, SameUpload, Kept, Empty, DoSift, AfterComplete;
    SameUploadSame(s, f);
    if s.up && w in s.workers && s.workers[w].Reading? && |s.workers[w].texts| == |s.workers[w].jobs| {
      var jobs, texts := s.workers[w].jobs, s.workers[w].texts;
      var workers := if Kept(jobs, texts) == [] then s.workers - {w} else s.workers[w := Ingesting(jobs, texts)];
      WorkerSteps.OneWorker(s.db.chunks, s.log, s.workers, w);
      WorkerSteps.SiftIs(s, w);
      WorkerSteps.SiftKeepsWorkers(s.db, s.log, s.workers, w);
      OnlyWorkersSame(s, workers, f);
      CompletionKeeps(s, Empty(jobs, texts), jobs[0].fileId, workers, f);
    } else {
      WorkerSteps.NoSift(s, w);
    }
  }

  lemma UpsertKeeps(s: State, w: nat, k: nat, f: FileId)
    requires ClosedIn(s, f)
    ensures SameUpload(s, DoUpsert(s, w, k), f)
  {
    TablesSame(s, DoUpsert(s, w, k), f);
  }

  /** A process that runs does not recover again. */
  lemma RestartKeeps(s: State, f: FileId)
    requires ClosedIn(s, f)
    ensures SameUpload(s, Step(s, Recover), f)
  {
    hide Drain, FileRanges, AfterPut, AfterFinalizing, AfterCompleted, ReadRange, Readable;
    TablesSame(s, s, f);
  }

  lemma PreparatoryKeeps(s: State, l: Label, f: FileId)
    requires PutOk(s.db.files, s.log, s.disk, s.put) && ClosedIn(s, f) && History.Preparatory(l) && !l.Crash?
    ensures SameUpload(s, Step(s, l), f)
  {
    hide Drain, FeedBody, FlushRow, Step, FileRanges, SameTables, SameRow;
    ChunkIsElsewhere(s, f);
    WritesElsewhere(s, l, f);
    History.PreparatoryTouchesNothing(s, l);
    TablesSame(s, Step(s, l), f);
  }

  lemma UploadKeeps(s: State, l: Label, f: FileId)
    requires Inv(s) && ClosedIn(s, f)
    requires l.Create? || l.PutCommit? || l.CompleteClose? || l.CompleteMove? || l.CompleteFinish?
    ensures SameUpload(s, Step(s, l), f)
  {
    hide TablesOk, StreamsOk, DiskOk, WorkersOk, WorkerOk, FeedBody, FlushRow, SameTables, SameRow;
    match l
    case Create(g, owner, totalSize) => CreateKeeps(s, g, owner, totalSize, f);
    case PutCommit => CommitElsewhere(s, f);
    case CompleteClose(r, g, owner) => CloseKeeps(s, r, g, owner, f);
    case CompleteMove(r) => MoveKeeps(s, r, f);
    case CompleteFinish(r) => FinishKeeps(s, r, f);
  }

  lemma QueueKeeps(s: State, l: Label, f: FileId)
    requires TablesOk(s.db) && WorkersOk(s.db.chunks, s.log, s.workers) && ClosedIn(s, f)
    requires l.Claim? || l.IngestOk? || l.Sift?
    ensures SameUpload(s, Step(s, l), f)
  {
    hide TablesOk, WorkersOk, WorkerOk;
    match l
    case Claim(w, limit) => ClaimKeeps(s, w, limit, f);
    case IngestOk(w) => IngestKeeps(s, w, f);
    case Sift(w) => SiftKeeps(s, w, f);
  }

  lemma WorkKeeps(s: State, l: Label, f: FileId)
    requires Inv(s) && ClosedIn(s, f)
    requires l.Upsert? || l.Recover?
    ensures SameUpload(s, Step(s, l), f)
  {
    hide Inv, PointsOk, PointOk, AfterPut, AfterFinalizing, AfterCompleted;
    match l
    case Upsert(w, k) => UpsertKeeps(s, w, k, f);
    case Recover => RestartKeeps(s, f);
  }

  lemma StepKeepsUpload(s: State, l: Label, f: FileId)
    requires Inv(s) && ClosedIn(s, f) && !l.Crash?
    ensures SameUpload(s, Step(s, l), f)
  {
    hide Drain, TablesOk, StreamsOk, WorkersOk, WorkerOk, FeedBody, FlushRow, FileRanges, AfterPut, AfterFinalizing,
         AfterCompleted;
    if History.Preparatory(l) {
      PreparatoryKeeps(s, l, f);
    } else if l.Create? || l.PutCommit? || l.CompleteClose? || l.CompleteMove? || l.CompleteFinish? {
      UploadKeeps(s, l, f);
    } else if l.Claim? || l.IngestOk? || l.Sift? {
      QueueKeeps(s, l, f);
    } else if l.Fail? {
      FailKeeps(s, l.w, f);
    } else {
      WorkKeeps(s, l, f);
    }
  }

  lemma SameOnward(s: State, t: State, u: State, f: FileId)
    requires SameUpload(s, t, f) && SameUpload(t, u, f)
    ensures SameUpload(s, u, f)
  {
  }

  lemma ClosedHasLog(s: State, f: FileId)
    requires StreamsOk(s.db, s.log) && s.up && IsClosed(s.db.files, f)
    ensures ClosedIn(s, f)
  {
  }

  lemma OneMoreStep(labels: seq<Label>, s: State, l: Label, f: FileId)
    requires SameUpload(s, Run(labels), f) && !l.Crash?
    ensures SameUpload(s, Run(labels + [l]), f)
  {
    hide Inv, Drain, FeedBody, FlushRow, Step, FileRanges, SameTables, SameRow;
    RunKeepsInv(labels);
    RunOneMore(labels, l);
    StepKeepsUpload(Run(labels), l, f);
    SameOnward(s, Run(labels), Run(labels + [l]), f);
  }

  /** Once a file is closed then, for as long as the process lives and whatever else
      it does, no chunk is committed to it, no byte of it changes on disk, and no
      passage of it is queued, however often it is completed again. */
  lemma {:induction false} ClosedForThisProcess(labels: seq<Label>, more: seq<Label>, f: FileId)
    requires Run(labels).up && IsClosed(Run(labels).db.files, f)
    requires Crash !in more
    ensures SameUpload(Run(labels), Run(labels + more), f)
  {
    hide Run, TablesOk, StreamsOk, DiskOk, PointsOk, PointOk, WorkersOk, WorkerOk, PutOk, CompletionsOk, FileStream,
         FileRanges, SameTables, SameRow, ReadRange, Readable;
    if |more| == 0 {
      assert labels + more == labels;
      RunKeepsInv(labels);
      ClosedHasLog(Run(labels), f);
      TablesSame(Run(labels), Run(labels), f);
    } else {
      var before, l := more[..|more| - 1], more[|more| - 1];
      assert labels + more == (labels + before) + [l];
      ClosedForThisProcess(labels, before, f);
      OneMoreStep(labels + before, Run(labels), l, f);
    }
  }

  /** A file between the two transactions of any completion is closed, and no chunk
      for it is in flight. */
  lemma CompletingMeansClosed(labels: seq<Label>, r: nat)
    requires r in Run(labels).completions
    ensures var s := Run(labels);
            && s.up && IsClosed(s.db.files, s.completions[r].f)
            && (s.put.Some? ==> s.put.value.f != s.completions[r].f)
  {
    hide Run, TablesOk, StreamsOk, DiskOk, PointsOk, PointOk, WorkersOk, WorkerOk;
    RunKeepsInv(labels);
    var s := Run(labels);
    assert CompletionOk(s.db.files, s.disk, s.completions[r]);
    ChunkIsElsewhere(s, s.completions[r].f);
  }
}
