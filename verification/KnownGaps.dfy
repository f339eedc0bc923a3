/** Three things one might expect of the service and that it does not promise: each
    with the exact condition under which it holds, and a run in which it fails. */
module KnownGaps {
  import opened Bytes
  import opened Chunker
  import opened Tables
  import opened Storage
  import opened JobQueue
  import opened UploadService
  import opened Accounting
  import opened QueueLaws
  import opened Pipeline
  import opened Invariant
  import opened Reachable
  import EndToEnd
  import History
  import Recounts
  import UploadSteps
  import WorkerSteps

  // -------------------------------------- 1. a drained queue and a missed status

  /** The upload is over, every row is settled, and still the status is not
      terminal. */
  predicate RowStuck(row: FileRow) {
    row.upload == Completed && !row.processing.Terminal() && row.chunksIndexed + row.chunksFailed >= row.chunksTotal
  }

  predicate Stuck(files: map<FileId, FileRow>, f: FileId) {
    f in files && RowStuck(files[f])
  }

  /** The step marks `f` as completed when its queue has drained already. */
  predicate Strands(s: State, l: Label, f: FileId) {
    && l.CompleteFinish? && s.Free() && l.r in s.completions && s.completions[l.r] == Completion(f, Moved)
    && f in s.db.files && !s.db.files[f].processing.Terminal()
    && s.db.files[f].chunksIndexed + s.db.files[f].chunksFailed >= s.db.files[f].chunksTotal
  }

  /** The step records what became of jobs of `f`, and so looks at its status. */
  predicate Refreshes(s: State, l: Label, f: FileId) {
    (l.IngestOk? || l.Fail? || l.Sift?) && s.Free() && l.w in s.workers
    && var worker := s.workers[l.w];
       && |worker.jobs| > 0 && worker.jobs[0].fileId == f
       && (l.IngestOk? ==> worker.Ingesting? && AllStored(s.points, KeptBy(worker)))
       && (l.Sift? ==> worker.Reading? && |worker.texts| == |worker.jobs| && Empty(worker.jobs, worker.texts) != [])
  }

  /** Whether a row is stuck cannot be told apart from the two. */
  ghost predicate AlikeRow(row: FileRow, next: FileRow) {
    && (next.upload == Completed <==> row.upload == Completed)
    && (next.processing.Terminal() <==> row.processing.Terminal())
    && next.chunksIndexed == row.chunksIndexed && next.chunksFailed == row.chunksFailed
    && next.chunksTotal == row.chunksTotal
  }

  ghost predicate Alike(files: map<FileId, FileRow>, after: map<FileId, FileRow>, f: FileId) {
    if f in files then f in after && AlikeRow(files[f], after[f]) else !Stuck(after, f)
  }

  lemma AlikeIsStuck(files: map<FileId, FileRow>, after: map<FileId, FileRow>, f: FileId)
    requires Alike(files, after, f)
    ensures Stuck(after, f) <==> Stuck(files, f)
  {
  }

  /** After a refresh a file is not stuck; and no other file is touched. */
  lemma RefreshStuck(files: map<FileId, FileRow>, after: map<FileId, FileRow>, chunks: seq<ChunkRow>, g: FileId, f: FileId)
    requires f != g ==> (f in after <==> f in files) && (f in files ==> after[f] == files[f])
    ensures Stuck(AfterRefresh(Db(after, chunks), g).files, f) <==> f != g && Stuck(files, f)
  {
  }

  lemma CompleteStuck(db: Db, jobs: seq<Job>, g: FileId, f: FileId)
    requires Held(db.chunks, jobs, g) && |jobs| > 0
    ensures Stuck(AfterComplete(db, jobs).files, f) <==> f != g && Stuck(db.files, f)
  {
    hide Mark, Stuck, AfterRefresh;
    assert HeldJob(db.chunks, jobs[0], g);
    RefreshStuck(db.files, RecordIndexed(db.files, g, |jobs|), Mark(db.chunks, Ids(jobs), Indexed, 0), g, f);
  }

  lemma FailStuck(db: Db, jobs: seq<Job>, g: FileId, f: FileId)
    requires Listed(db.chunks, jobs, g) && |jobs| > 0
    ensures Stuck(AfterFail(db, jobs).files, f) <==> f != g && Stuck(db.files, f)
  {
    hide Mark, Stuck, AfterRefresh, Split, Listed, AfterFail;
    FailIsRefreshed(db, jobs, g);
    RefreshStuck(db.files, FailedTables(db, jobs, g).files, FailedTables(db, jobs, g).chunks, g, f);
  }

  lemma SiftStuck(s: State, w: nat, f: FileId)
    requires TablesOk(s.db) && WorkersOk(s.db.chunks, s.log, s.workers)
    ensures Stuck(DoSift(s, w).db.files, f) <==> !Refreshes(s, Sift(w), f) && Stuck(s.db.files, f)
  {
    hide TablesOk, WorkersOk, Held, Stuck, Kept, Empty, DoSift, AfterComplete;
    if s.up && w in s.workers && s.workers[w].Reading? && |s.workers[w].texts| == |s.workers[w].jobs| {
      var jobs, texts := s.workers[w].jobs, s.workers[w].texts;
      WorkerSteps.OneWorker(s.db.chunks, s.log, s.workers, w);
      WorkerSteps.SiftIs(s, w);
      WorkerSteps.SiftKeepsWorkers(s.db, s.log, s.workers, w);
      if Empty(jobs, texts) != [] && s.put.None? {
        CompleteStuck(s.db, Empty(jobs, texts), jobs[0].fileId, f);
      }
    } else {
      WorkerSteps.NoSift(s, w);
    }
  }

  lemma VerdictStuck(s: State, l: Label, f: FileId)
    requires WorkersOk(s.db.chunks, s.log, s.workers) && (l.IngestOk? || l.Fail?)
    ensures Stuck(Step(s, l).db.files, f) <==> !Refreshes(s, l, f) && Stuck(s.db.files, f)
  {
    hide WorkersOk, Held, Listed, Stuck, KeptBy, JobsOf, AfterComplete, AfterFail, AfterPut, AfterFinalizing;
    if s.Free() && l.w in s.workers {
      var jobs := s.workers[l.w].jobs;
      WorkerSteps.OneWorker(s.db.chunks, s.log, s.workers, l.w);
      FailStuck(s.db, jobs, jobs[0].fileId, f);
      if s.workers[l.w].Ingesting? && AllStored(s.points, KeptBy(s.workers[l.w])) {
        WorkerSteps.IngestedJobs(s.db.chunks, s.log, s.workers, l.w);
        CompleteStuck(s.db, JobsOf(KeptBy(s.workers[l.w])), jobs[0].fileId, f);
      }
    }
  }

  /** A row that is not completed is not stuck. */
  lemma OpenRowStuck(files: map<FileId, FileRow>, g: FileId, next: FileRow, f: FileId)
    requires g in files ==> files[g].upload != Completed
    requires next.upload != Completed
    ensures Stuck(files[g := next], f) <==> Stuck(files, f)
  {
  }

  lemma CommitStuck(s: State, f: FileId)
    requires TablesOk(s.db) && PutOk(s.db.files, s.log, s.disk, s.put)
    ensures Stuck(DoPutCommit(s).db.files, f) <==> Stuck(s.db.files, f)
  {
    if s.put.Some? && s.put.value.phase == Opened && s.put.value.written == |s.put.value.body| {
      var p := s.put.value;
      UploadSteps.CommitTables(s.db, p.f, p.row, p.body);
      OpenRowStuck(s.db.files, p.f, UploadSteps.RowAfterPut(p.row, p.body), f);
      assert DoPutCommit(s).db == AfterPut(s.db, p.f, p.row, p.body);
    }
  }

  lemma CreateStuck(s: State, g: FileId, owner: string, totalSize: nat, f: FileId)
    ensures Stuck(DoCreate(s, g, owner, totalSize).db.files, f) <==> Stuck(s.db.files, f)
  {
    if s.Free() && g !in s.db.files {
      OpenRowStuck(s.db.files, g, NewFile(owner, totalSize), f);
    }
  }

  lemma CloseStuck(s: State, r: nat, g: FileId, owner: string, f: FileId)
    ensures Stuck(DoCompleteClose(s, r, g, owner).db.files, f) <==> Stuck(s.db.files, f)
  {
    if s.Free() && r !in s.completions && CompleteError(s.db, g, owner).None? && s.db.files[g].upload != Completed {
      OpenRowStuck(s.db.files, g, UploadSteps.RowAfterClose(s.db.files[g]), f);
    }
  }

  lemma FinishStuck(s: State, r: nat, f: FileId)
    requires CompletionsOk(s.db.files, s.disk, s.completions)
    ensures Stuck(DoCompleteFinish(s, r).db.files, f) <==> Stuck(s.db.files, f) || Strands(s, CompleteFinish(r), f)
  {
  }

  lemma ClaimStuck(s: State, w: nat, limit: Option<nat>, f: FileId)
    ensures Stuck(DoClaim(s, w, limit).db.files, f) <==> Stuck(s.db.files, f)
  {
    AlikeIsStuck(s.db.files, DoClaim(s, w, limit).db.files, f);
  }

  lemma RecoverStuck(s: State, f: FileId)
    ensures Stuck(Step(s, Recover).db.files, f) <==> Stuck(s.db.files, f)
  {
    hide FeedBody, FlushRow, AfterPut, AfterFinalizing, AfterCompleted;
    AlikeIsStuck(s.db.files, Step(s, Recover).db.files, f);
  }

  lemma UploadStuck(s: State, l: Label, f: FileId)
    requires Inv(s) && (l.Create? || l.PutCommit? || l.CompleteClose?)
    ensures Stuck(Step(s, l).db.files, f) <==> Stuck(s.db.files, f)
  {
    hide Drain, WorkersOk, WorkerOk, FeedBody, FlushRow, InsertPending;
    match l
    case Create(g, owner, totalSize) => CreateStuck(s, g, owner, totalSize, f);
    case PutCommit => CommitStuck(s, f);
    case CompleteClose(r, g, owner) => CloseStuck(s, r, g, owner, f);
  }

  lemma QueueStuck(s: State, l: Label, f: FileId)
    requires TablesOk(s.db) && WorkersOk(s.db.chunks, s.log, s.workers)
    requires l.IngestOk? || l.Fail? || l.Sift? || l.Claim? || l.Recover?
    ensures Stuck(Step(s, l).db.files, f) <==> !Refreshes(s, l, f) && Stuck(s.db.files, f)
  {
    hide Drain, TablesOk, WorkersOk, AfterPut, AfterFinalizing, AfterCompleted, Stuck, AfterComplete, AfterFail, AfterRecover;
    if l.Claim? {
      ClaimStuck(s, l.w, l.limit, f);
    } else if l.Recover? {
      RecoverStuck(s, f);
    } else if l.Sift? {
      SiftStuck(s, l.w, f);
    } else {
      VerdictStuck(s, l, f);
    }
  }

  /** A file becomes stuck in exactly one way, and only another batch of its jobs can
      help it. */
  lemma StuckByStep(s: State, l: Label, f: FileId)
    requires Inv(s)
    ensures Stuck(Step(s, l).db.files, f) <==> !Refreshes(s, l, f) && (Stuck(s.db.files, f) || Strands(s, l, f))
  {
    hide TablesOk, StreamsOk, DiskOk, PointsOk, WorkersOk, PutOk, CompletionsOk, Step, Stuck;
    if History.LeavesTables(l) {
      History.TablesLeft(s, l);
    } else if l.CompleteFinish? {
      FinishStepStuck(s, l, f);
    } else if l.Create? || l.PutCommit? || l.CompleteClose? {
      UploadStuck(s, l, f);
    } else {
      QueueStuck(s, l, f);
    }
  }

  lemma FinishStepStuck(s: State, l: Label, f: FileId)
    requires CompletionsOk(s.db.files, s.disk, s.completions) && l.CompleteFinish?
    ensures Stuck(Step(s, l).db.files, f) <==> Stuck(s.db.files, f) || Strands(s, l, f)
  {
    hide AfterPut, AfterFinalizing, AfterCompleted, Drain;
    FinishStuck(s, l.r, f);
  }

  /** Some step of the run marked `f` as completed too late, and no job of `f` has been
      worked on since. */
  predicate Stranded(labels: seq<Label>, f: FileId) {
    |labels| > 0 &&
    var before, l := labels[..|labels| - 1], labels[|labels| - 1];
    !Refreshes(Run(before), l, f) && (Stranded(before, f) || Strands(Run(before), l, f))
  }

  /** A completed upload whose counts add up is without a terminal status in exactly
      those runs in which the counts added up before it was marked completed and no
      batch of it has ended since. */
  lemma {:induction false} TerminalUnlessStranded(labels: seq<Label>, f: FileId)
    ensures Stuck(Run(labels).db.files, f) <==> Stranded(labels, f)
  {
    hide Inv, Drain, FeedBody, FlushRow, Step, Stuck;
    if |labels| > 0 {
      var before, l := labels[..|labels| - 1], labels[|labels| - 1];
      TerminalUnlessStranded(before, f);
      RunKeepsInv(before);
      StuckByStep(Run(before), l, f);
    } else {
      NeverStuck(f);
    }
  }

  lemma NeverStuck(f: FileId)
    ensures !Stuck(INITIAL.db.files, f)
  {
  }

  /** When exactly a completed upload shows a terminal status: no more of its rows are
      unsettled than have been counted twice, and they were not settled before the
      upload was marked completed. */
  lemma TerminalExactlyWhen(labels: seq<Label>, f: FileId)
    requires f in Run(labels).db.files && Run(labels).db.files[f].upload == Completed
    ensures Run(labels).db.files[f].processing.Terminal()
            <==> EndToEnd.UnsettledRows(Run(labels).db.chunks, f) <= Recounts.Recounted(labels, f) && !Stranded(labels, f)
  {
    hide Run, Stranded, Recounts.Recounted;
    TerminalUnlessStranded(labels, f);
    EndToEnd.CountersAreExact(labels, f);
    RowIsSettled(labels, f);
  }

  lemma RowIsSettled(labels: seq<Label>, f: FileId)
    requires f in Run(labels).db.files
    ensures RowSettled(Run(labels).db.files[f])
  {
    TablesOfRun(labels);
  }

  // ------------------------------------------- 2. a chunk after the final rename

  /** A chunk that is stored keeps the committed bytes readable exactly when the file
      does not have its final name yet, or the bytes happen to be there already. */
  lemma AppendKeepsReadable(disk: Disk, f: FileId, stream: seq<byte>, body: seq<byte>)
    requires f in disk.final ==> stream <= disk.final[f]
    requires f !in disk.final && |stream| > 0 ==> f in disk.partial && stream <= disk.partial[f]
    ensures var after := Appended(Reconciled(disk, f, |stream|), f, body);
            && Readable(after, f).Some?
            && (stream + body <= Readable(after, f).value <==> (f in disk.final ==> stream + body <= disk.final[f]))
  {
    if f !in disk.final {
      var row := NewFile("", 0).(bytesReceived := |stream|);
      UploadSteps.TrimIsExact(disk, row, stream, f);
    }
  }

  /** In any reachable state: a chunk stored now stays readable exactly when the file
      has not got its final name, or already holds those very bytes. A client that
      sends no chunk after the rename is therefore safe. */
  lemma ChunkStaysReadable(labels: seq<Label>, f: FileId, body: seq<byte>)
    requires f in Run(labels).db.files
    ensures var s := Run(labels);
            var after := Appended(Reconciled(s.disk, f, s.db.files[f].bytesReceived), f, body);
            && f in s.log && Readable(after, f).Some?
            && (Content(s.log[f]) + body <= Readable(after, f).value
                <==> (f in s.disk.final ==> Content(s.log[f]) + body <= s.disk.final[f]))
  {
    hide Run, TablesOk, StreamsOk, PointsOk, PointOk, WorkersOk, WorkerOk, PutOk, CompletionsOk, FileOnDisk, Content;
    RunKeepsInv(labels);
    var s := Run(labels);
    EndToEnd.CommittedBytesReadable(labels, f);
    assert FileOnDisk(s.db.files[f], Content(s.log[f]), s.disk, f);
    AppendKeepsReadable(s.disk, f, Content(s.log[f]), body);
  }

  // ----------------------------------------------- 3. bytes behind the committed

  /** A completion renames the file as it is: it ends up with exactly the committed
      bytes if and only if its size was the committed size, which is what only a
      further chunk would have checked. Its size is the same under both names. */
  lemma RenameIsExactWhen(labels: seq<Label>, f: FileId)
    requires f in Run(labels).db.files && Run(labels).db.files[f].bytesReceived > 0
    requires f in Run(labels).disk.partial
    ensures var s := Run(labels);
            && f in s.log && Renamed(s.disk, f).Ok?
            && CurrentSize(Renamed(s.disk, f).value, f) == CurrentSize(s.disk, f)
            && (Renamed(s.disk, f).value.final[f] == Content(s.log[f])
                <==> CurrentSize(s.disk, f) == s.db.files[f].bytesReceived)
  {
    hide Run, TablesOk, StreamsOk, PointsOk, PointOk, WorkersOk, WorkerOk, PutOk, CompletionsOk, Content;
    EndToEnd.CommittedBytesReadable(labels, f);
    RunKeepsInv(labels);
    var s := Run(labels);
    assert FileOnDisk(s.db.files[f], Content(s.log[f]), s.disk, f);
  }
}
