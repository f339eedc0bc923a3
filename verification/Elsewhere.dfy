/** Steps that have nothing to do with a file's chunks and completions leave its upload
    as it is; and only one step brings a file into being. */
module Elsewhere {
  import opened Bytes
  import opened Chunker
  import opened Tables
  import opened Storage
  import opened JobQueue
  import opened UploadService
  import opened Accounting
  import opened QueueLaws
  import opened Pipeline
  import opened Invariant
  import opened Frames
  import opened Finalisation
  import History
  import UploadSteps
  import WorkerSteps

  // ------------------------------------------------------- steps that do not cut

  /** The chunk in flight is for `f` and all of it is on disk. */
  predicate Commits(s: State, f: FileId) {
    s.put.Some? && s.put.value.f == f && s.put.value.phase == Opened && s.put.value.written == |s.put.value.body|
  }

  /** A completion of `f` may begin. */
  predicate MayClose(s: State, r: nat, f: FileId, owner: string) {
    s.Free() && r !in s.completions && CompleteError(s.db, f, owner).None? && s.db.files[f].upload != Completed
  }

  /** The steps that give the chunker something of `f`. */
  predicate Cuts(s: State, l: Label, f: FileId) {
    || (l.PutCommit? && Commits(s, f))
    || (l.CompleteClose? && l.f == f && MayClose(s, l.r, f, l.owner))
  }

  lemma LogStays(s: State, l: Label, f: FileId)
    requires f in s.log && f in s.db.files && !Cuts(s, l, f)
    ensures f in Step(s, l).log && Step(s, l).log[f] == s.log[f]
  {
    hide Drain, AfterPut, AfterFinalizing, AfterCompleted;
    if l.Sift? {
      History.SiftTouchesNoData(s, l.w);
    }
  }

  lemma SameTablesSame(db: Db, f: FileId)
    requires f in db.files
    ensures SameTables(db, db, f)
  {
  }

  lemma CreateElsewhere(s: State, g: FileId, owner: string, totalSize: nat, f: FileId)
    requires f in s.db.files
    ensures SameTables(s.db, DoCreate(s, g, owner, totalSize).db, f)
  {
    SameTablesSame(s.db, f);
    if g !in s.db.files {
      CreatedTables(s.db, g, NewFile(owner, totalSize), f);
    }
  }

  lemma CommitElsewhere(s: State, f: FileId)
    requires TablesOk(s.db) && PutOk(s.db.files, s.log, s.disk, s.put) && f in s.db.files && !Commits(s, f)
    ensures SameTables(s.db, DoPutCommit(s).db, f)
  {
    hide Drain, TablesOk, FeedBody, RowCounted, RowSettled, AfterPut, SameTables, SameRow;
    SameTablesSame(s.db, f);
    if s.put.Some? && s.put.value.f != f {
      PutElsewhere(s.db, s.put.value, f);
    }
  }

  lemma CloseStepElsewhere(s: State, r: nat, g: FileId, owner: string, f: FileId)
    requires TablesOk(s.db) && f in s.db.files && !(g == f && MayClose(s, r, f, owner))
    ensures SameTables(s.db, DoCompleteClose(s, r, g, owner).db, f)
  {
    SameTablesSame(s.db, f);
    if MayClose(s, r, g, owner) {
      CloseElsewhere(s.db, g, f);
    }
  }

  lemma FinishElsewhere(s: State, r: nat, f: FileId)
    requires f in s.db.files
    ensures SameTables(s.db, DoCompleteFinish(s, r).db, f)
  {
    SameTablesSame(s.db, f);
    if r in s.completions {
      CompletedTables(s.db, s.completions[r].f, f);
    }
  }

  lemma UploadElsewhere(s: State, l: Label, f: FileId)
    requires TablesOk(s.db) && PutOk(s.db.files, s.log, s.disk, s.put) && f in s.db.files && !Cuts(s, l, f)
    requires l.Create? || l.PutCommit? || l.CompleteClose? || l.CompleteFinish?
    ensures SameTables(s.db, Step(s, l).db, f)
  {
    hide TablesOk, AfterPut, AfterFinalizing, AfterCompleted, SameTables, SameRow, ReadRange, Readable;
    if l.Create? {
      CreateElsewhere(s, l.f, l.owner, l.totalSize, f);
    } else if l.PutCommit? {
      CommitElsewhere(s, f);
    } else if l.CompleteClose? {
      CloseStepElsewhere(s, l.r, l.f, l.owner, f);
    } else {
      FinishElsewhere(s, l.r, f);
    }
  }

  lemma CloseElsewhere(db: Db, g: FileId, f: FileId)
    requires TablesOk(db) && g in db.files && db.files[g].upload != Completed && f in db.files && f != g
    ensures SameTables(db, AfterFinalizing(db, g), f)
  {
    var row := db.files[g];
    UploadSteps.CloseTables(db, g, row);
    RowsElsewhere(db, g, UploadSteps.RowAfterClose(row), FlushRow(row).passages, row.nextSequence, f);
  }

  lemma RevertedSame(row: FileRow)
    ensures SameRow(row, Reverted(row))
  {
  }

  lemma RecoverElsewhere(db: Db, f: FileId)
    requires f in db.files
    ensures SameTables(db, AfterRecover(db), f)
  {
    RevertedSame(db.files[f]);
    ResetKeepsKeys(db.chunks);
    SameRanges(db.chunks, AfterRecover(db).chunks, f);
  }

  lemma ResetKeepsKeys(chunks: seq<ChunkRow>)
    ensures Keys(ResetStuck(chunks)) == Keys(chunks)
  {
  }

  lemma ClaimElsewhere(db: Db, limit: nat, f: FileId)
    requires TablesOk(db) && f in db.files
    ensures SameTables(db, AfterClaim(db, limit), f)
  {
    ClaimSameUploads(db, limit);
    ClaimKeepsTables(db, limit);
    QueueKeepsTables(db, AfterClaim(db, limit), f);
  }

  lemma CompletionElsewhere(db: Db, part: seq<Job>, g: FileId, f: FileId)
    requires TablesOk(db) && Held(db.chunks, part, g) && f in db.files
    ensures SameTables(db, AfterComplete(db, part), f)
  {
    hide TablesOk, Held, AfterComplete, SameTables, SameUploads, SameExcess;
    CompleteSameUploads(db, part);
    CompleteKeepsTables(db, part, g);
    QueueKeepsTables(db, AfterComplete(db, part), f);
  }

  lemma FailureElsewhere(db: Db, jobs: seq<Job>, g: FileId, f: FileId)
    requires TablesOk(db) && Listed(db.chunks, jobs, g) && f in db.files
    ensures SameTables(db, AfterFail(db, jobs), f)
  {
    hide TablesOk, Listed, AfterFail, SameTables, SameUploads, ExcessOf, Among;
    FailSameUploads(db, jobs, g);
    FailKeepsTables(db, jobs, g);
    QueueKeepsTables(db, AfterFail(db, jobs), f);
  }

  lemma VerdictElsewhere(s: State, l: Label, f: FileId)
    requires TablesOk(s.db) && WorkersOk(s.db.chunks, s.log, s.workers) && f in s.db.files
    requires l.IngestOk? || l.Fail?
    ensures SameTables(s.db, Step(s, l).db, f)
  {
    hide TablesOk, WorkersOk, Held, Listed, KeptBy, JobsOf, AfterComplete, AfterFail, AfterPut, AfterFinalizing,
         AfterCompleted, SameTables;
    SameTablesSame(s.db, f);
    if s.Free() && l.w in s.workers {
      var jobs := s.workers[l.w].jobs;
      WorkerSteps.OneWorker(s.db.chunks, s.log, s.workers, l.w);
      FailureElsewhere(s.db, jobs, jobs[0].fileId, f);
      if s.workers[l.w].Ingesting? && AllStored(s.points, KeptBy(s.workers[l.w])) {
        WorkerSteps.IngestedJobs(s.db.chunks, s.log, s.workers, l.w);
        CompletionElsewhere(s.db, JobsOf(KeptBy(s.workers[l.w])), jobs[0].fileId, f);
      }
    }
  }

  lemma SiftElsewhere(s: State, w: nat, f: FileId)
    requires TablesOk(s.db) && WorkersOk(s.db.chunks, s.log, s.workers) && f in s.db.files
    ensures SameTables(s.db, DoSift(s, w).db, f)
  {
    hide TablesOk, WorkersOk, Held, Kept, Empty, DoSift, AfterComplete, SameTables;
    SameTablesSame(s.db, f);
    if s.up && w in s.workers && s.workers[w].Reading? && |s.workers[w].texts| == |s.workers[w].jobs| {
      WorkerSteps.OneWorker(s.db.chunks, s.log, s.workers, w);
      WorkerSteps.SiftIs(s, w);
      WorkerSteps.SiftKeepsWorkers(s.db, s.log, s.workers, w);
      CompletionElsewhere(s.db, Empty(s.workers[w].jobs, s.workers[w].texts), s.workers[w].jobs[0].fileId, f);
    } else {
      WorkerSteps.NoSift(s, w);
    }
  }

  lemma ClaimStepElsewhere(s: State, w: nat, limit: Option<nat>, f: FileId)
    requires TablesOk(s.db) && f in s.db.files
    ensures SameTables(s.db, DoClaim(s, w, limit).db, f)
  {
    SameTablesSame(s.db, f);
    ClaimElsewhere(s.db, BatchLimit(limit), f);
  }

  lemma RestartElsewhere(s: State, f: FileId)
    requires f in s.db.files
    ensures SameTables(s.db, Step(s, Recover).db, f)
  {
    hide FeedBody, FlushRow, FileRanges, AfterPut, AfterFinalizing, AfterCompleted;
    SameTablesSame(s.db, f);
    RecoverElsewhere(s.db, f);
  }

  lemma RowStays(s: State, l: Label, f: FileId)
    requires Inv(s) && f in s.db.files && !Cuts(s, l, f)
    ensures SameTables(s.db, Step(s, l).db, f)
  {
    hide TablesOk, StreamsOk, DiskOk, WorkersOk, WorkerOk, FeedBody, FlushRow, AfterPut, AfterFinalizing,
         AfterCompleted;
    if History.LeavesTables(l) {
      History.TablesLeft(s, l);
      SameTablesSame(s.db, f);
    } else if l.Claim? {
      ClaimStepElsewhere(s, l.w, l.limit, f);
    } else if l.Recover? {
      RestartElsewhere(s, f);
    } else if l.IngestOk? || l.Fail? {
      VerdictElsewhere(s, l, f);
    } else if l.Sift? {
      SiftElsewhere(s, l.w, f);
    } else {
      UploadElsewhere(s, l, f);
    }
  }

  // -------------------------------------------------------------- how files begin

  lemma ClaimAddsNoFile(s: State, w: nat, limit: Option<nat>)
    ensures DoClaim(s, w, limit).db.files.Keys == s.db.files.Keys
  {
    ClaimSameUploads(s.db, BatchLimit(limit));
  }

  lemma IngestAddsNoFile(s: State, w: nat)
    ensures DoIngestOk(s, w).db.files.Keys == s.db.files.Keys
  {
    hide KeptBy, JobsOf, AfterComplete;
    if w in s.workers && s.workers[w].Ingesting? {
      CompleteSameUploads(s.db, JobsOf(KeptBy(s.workers[w])));
    }
  }

  lemma SiftAddsNoFile(s: State, w: nat)
    ensures DoSift(s, w).db.files.Keys == s.db.files.Keys
  {
    hide Kept, Empty, AfterComplete;
    if w in s.workers && s.workers[w].Reading? && |s.workers[w].texts| == |s.workers[w].jobs| {
      CompleteSameUploads(s.db, Empty(s.workers[w].jobs, s.workers[w].texts));
    }
  }

  lemma FailAddsNoFile(s: State, w: nat)
    requires WorkersOk(s.db.chunks, s.log, s.workers)
    ensures DoFail(s, w).db.files.Keys == s.db.files.Keys
  {
    hide WorkersOk, Listed, AfterFail;
    if w in s.workers {
      WorkerSteps.OneWorker(s.db.chunks, s.log, s.workers, w);
      FailSameUploads(s.db, s.workers[w].jobs, s.workers[w].jobs[0].fileId);
    }
  }

  lemma QueueAddsNoFile(s: State, l: Label)
    requires WorkersOk(s.db.chunks, s.log, s.workers)
    requires l.Claim? || l.Recover? || l.IngestOk? || l.Fail? || l.Sift?
    ensures Step(s, l).db.files.Keys == s.db.files.Keys
  {
    hide WorkersOk, WorkerOk, FeedBody, FlushRow, DoSift, DoFail, DoIngestOk, DoClaim;
    match l
    case Claim(w, limit) => ClaimAddsNoFile(s, w, limit);
    case IngestOk(w) => IngestAddsNoFile(s, w);
    case Fail(w) => FailAddsNoFile(s, w);
    case Sift(w) => SiftAddsNoFile(s, w);
    case Recover =>
  }

  lemma UploadAddsNoFile(s: State, l: Label)
    requires PutOk(s.db.files, s.log, s.disk, s.put) && (l.PutCommit? || l.CompleteClose? || l.CompleteFinish?)
    ensures Step(s, l).db.files.Keys == s.db.files.Keys
  {
    hide FeedBody, FlushRow;
  }

  lemma OnlyCreateAdds(s: State, l: Label, f: FileId)
    requires Inv(s) && f !in s.db.files && f in Step(s, l).db.files
    ensures s.Free() && l.Create? && l.f == f
  {
    if History.LeavesTables(l) {
      History.TablesLeft(s, l);
    } else if l.Claim? || l.Recover? || l.IngestOk? || l.Fail? || l.Sift? {
      QueueAddsNoFile(s, l);
    } else if !l.Create? {
      UploadAddsNoFile(s, l);
    }
  }
}
