/** What is settled stays settled: exactly which step can re-open an indexed row or turn
    a terminal status, and that a completed upload with all rows settled never changes. */
module Settling {
  import opened Bytes
  import opened Chunker
  import opened Tables
  import opened Storage
  import opened JobQueue
  import opened UploadService
  import opened Accounting
  import opened QueueLaws
  import opened EnqueueLaws
  import opened Pipeline
  import opened Batches
  import opened Invariant
  import opened Reachable
  import opened Straddles
  import opened Recounts
  import opened EndToEnd
  import opened History
  import Guarantees
  import UploadSteps
  import WorkerSteps

  // ------------------------------------------------------------- an indexed row

  /** The step fails a batch in which row `i` had been completed as empty. */
  predicate Reopens(s: State, l: Label, i: nat) {
    && l.Fail? && s.Free() && l.w in s.workers && i in RowsOf(s.workers[l.w].jobs)
    && i < |s.db.chunks| && s.db.chunks[i].status == Indexed
  }

  predicate Reopened(labels: seq<Label>, more: seq<Label>, i: nat) {
    |more| > 0 &&
    var before, l := more[..|more| - 1], more[|more| - 1];
    Reopened(labels, before, i) || Reopens(Run(labels + before), l, i)
  }

  lemma FailReopens(s: State, w: nat, i: nat)
    requires WorkersOk(s.db.chunks, s.log, s.workers) && i < |s.db.chunks| && s.db.chunks[i].status == Indexed
    ensures |DoFail(s, w).db.chunks| == |s.db.chunks|
    ensures if Reopens(s, Fail(w), i) then s.db.chunks[i].retryCount < DoFail(s, w).db.chunks[i].retryCount
            else DoFail(s, w).db.chunks[i] == s.db.chunks[i]
  {
    hide WorkersOk, Listed, AfterFail, RowsOf, Ids;
    if s.Free() && w in s.workers {
      var jobs := s.workers[w].jobs;
      WorkerSteps.OneWorker(s.db.chunks, s.log, s.workers, w);
      WorkerSteps.FailedRows(s.db, jobs, jobs[0].fileId);
      InRows(jobs, i);
      assert AfterFail(s.db, jobs).chunks[i] == if i in Ids(jobs) then AfterAttempt(s.db.chunks[i]) else s.db.chunks[i];
    }
  }

  /** Completing jobs in processing leaves an indexed row alone. */
  lemma CompletionLeaves(db: Db, part: seq<Job>, f: FileId, i: nat)
    requires Held(db.chunks, part, f) && i < |db.chunks| && db.chunks[i].status != Processing
    ensures |AfterComplete(db, part).chunks| == |db.chunks| && AfterComplete(db, part).chunks[i] == db.chunks[i]
  {
    hide Held, AfterComplete, Ids;
    WorkerSteps.CompletedRows(db, part, f);
    if i in Ids(part) {
      HeldIsOpen(db.chunks, part, f, i);
    }
  }

  lemma SiftLeaves(s: State, w: nat, i: nat)
    requires WorkersOk(s.db.chunks, s.log, s.workers) && i < |s.db.chunks| && s.db.chunks[i].status != Processing
    ensures |DoSift(s, w).db.chunks| == |s.db.chunks| && DoSift(s, w).db.chunks[i] == s.db.chunks[i]
  {
    hide WorkersOk, Held, Kept, Empty, DoSift, AfterComplete;
    if s.up && w in s.workers && s.workers[w].Reading? && |s.workers[w].texts| == |s.workers[w].jobs| {
      WorkerSteps.OneWorker(s.db.chunks, s.log, s.workers, w);
      WorkerSteps.SiftIs(s, w);
      WorkerSteps.SiftKeepsWorkers(s.db, s.log, s.workers, w);
      CompletionLeaves(s.db, Empty(s.workers[w].jobs, s.workers[w].texts), s.workers[w].jobs[0].fileId, i);
    } else {
      WorkerSteps.NoSift(s, w);
    }
  }

  lemma IngestLeaves(s: State, w: nat, i: nat)
    requires WorkersOk(s.db.chunks, s.log, s.workers) && i < |s.db.chunks| && s.db.chunks[i].status != Processing
    ensures |DoIngestOk(s, w).db.chunks| == |s.db.chunks| && DoIngestOk(s, w).db.chunks[i] == s.db.chunks[i]
  {
    hide WorkersOk, Held, KeptBy, JobsOf, AfterComplete;
    if s.Free() && w in s.workers && s.workers[w].Ingesting? {
      WorkerSteps.OneWorker(s.db.chunks, s.log, s.workers, w);
      WorkerSteps.IngestedJobs(s.db.chunks, s.log, s.workers, w);
      CompletionLeaves(s.db, JobsOf(KeptBy(s.workers[w])), s.workers[w].jobs[0].fileId, i);
    }
  }

  lemma ClaimLeaves(db: Db, limit: nat, i: nat)
    requires i < |db.chunks| && db.chunks[i].status != Pending
    ensures |AfterClaim(db, limit).chunks| == |db.chunks| && AfterClaim(db, limit).chunks[i] == db.chunks[i]
  {
    hide Mark;
    BatchIsPending(db, limit);
    MarkAt(db.chunks, BatchIds(db.chunks, limit), Processing, 0, i);
  }

  lemma UploadLeaves(s: State, l: Label, i: nat)
    requires TablesOk(s.db) && PutOk(s.db.files, s.log, s.disk, s.put) && i < |s.db.chunks|
    requires l.PutCommit? || l.CompleteClose?
    ensures i < |Step(s, l).db.chunks| && Step(s, l).db.chunks[i] == s.db.chunks[i]
  {
    hide TablesOk, AfterPut, AfterFinalizing, FeedBody, FlushRow, SameExcess;
    match l
    case PutCommit =>
      if s.put.Some? {
        UploadSteps.CommitTables(s.db, s.put.value.f, s.put.value.row, s.put.value.body);
      }
    case CompleteClose(_, f, _) =>
      if f in s.db.files && s.db.files[f].upload != Completed {
        UploadSteps.CloseTables(s.db, f, s.db.files[f]);
      }
  }

  /** A settled row changes in one way only. */
  lemma SettledRowByStep(s: State, l: Label, i: nat)
    requires Inv(s) && i < |s.db.chunks| && s.db.chunks[i].status != Pending && s.db.chunks[i].status != Processing
    requires !l.Fail?
    ensures i < |Step(s, l).db.chunks| && Step(s, l).db.chunks[i] == s.db.chunks[i]
  {
    hide TablesOk, StreamsOk, DiskOk, PointsOk, WorkersOk, PutOk, CompletionsOk, DoClaim, DoSift, DoIngestOk, DoPutCommit,
         DoCompleteClose;
    if LeavesRows(l) {
      RowsLeft(s, l);
    } else if l.Claim? {
      ClaimLeaves(s.db, BatchLimit(l.limit), i);
      ClaimIs(s, l.w, l.limit);
    } else if l.Sift? {
      SiftLeaves(s, l.w, i);
    } else if l.IngestOk? {
      IngestLeaves(s, l.w, i);
    } else if l.PutCommit? || l.CompleteClose? {
      UploadLeaves(s, l, i);
    }
  }

  lemma ClaimIs(s: State, w: nat, limit: Option<nat>)
    ensures DoClaim(s, w, limit).db == s.db || DoClaim(s, w, limit).db == AfterClaim(s.db, BatchLimit(limit))
  {
    hide BatchJobs, AfterClaim;
  }

  lemma IndexedByStep(s: State, l: Label, i: nat)
    requires Inv(s) && i < |s.db.chunks| && s.db.chunks[i].status == Indexed
    ensures i < |Step(s, l).db.chunks|
    ensures Step(s, l).db.chunks[i] == s.db.chunks[i] <==> !Reopens(s, l, i)
    ensures Reopens(s, l, i) ==> s.db.chunks[i].retryCount < Step(s, l).db.chunks[i].retryCount
  {
    hide Inv, DoFail, RowsOf, Step;
    if l.Fail? {
      OpenInv(s);
      FailReopens(s, l.w, i);
      FailIs(s, l.w);
    } else {
      SettledRowByStep(s, l, i);
    }
  }

  /** After a run, an indexed row stays as it is exactly until it is re-opened. */
  lemma {:induction false} IndexedUntilReopened(labels: seq<Label>, more: seq<Label>, i: nat)
    requires i < |Run(labels).db.chunks| && Run(labels).db.chunks[i].status == Indexed
    ensures i < |Run(labels + more).db.chunks|
    ensures Run(labels + more).db.chunks[i] == Run(labels).db.chunks[i] <==> !Reopened(labels, more, i)
    ensures Reopened(labels, more, i) ==> Run(labels).db.chunks[i].retryCount < Run(labels + more).db.chunks[i].retryCount
  {
    hide Inv, Step, Run, Reopens;
    if |more| == 0 {
      assert labels + more == labels;
    } else {
      var before, l := more[..|more| - 1], more[|more| - 1];
      IndexedUntilReopened(labels, before, i);
      assert labels + more == (labels + before) + [l];
      RunKeepsInv(labels + before);
      RunOneMore(labels + before, l);
      StepEvolves(Run(labels + before), l);
      RowEvolvesAt(Run(labels + before), Step(Run(labels + before), l), i);
      if !Reopened(labels, before, i) {
        IndexedByStep(Run(labels + before), l, i);
      }
    }
  }

  lemma RowEvolvesAt(s: State, t: State, i: nat)
    requires Evolves(s, t) && i < |s.db.chunks|
    ensures i < |t.db.chunks| && s.db.chunks[i].retryCount <= t.db.chunks[i].retryCount
  {
    assert ChunkEvolves(s.db.chunks[i], t.db.chunks[i]);
  }

  /** A re-opened row had been found empty by a straddled read. */
  lemma ReopensTorn(labels: seq<Label>, l: Label, i: nat)
    requires Reopens(Run(labels), l, i)
    ensures Straddled(labels, Run(labels).db.chunks[i].fileId)
  {
    hide Run, Torn, TablesOk, StreamsOk, DiskOk, PointsOk, PutOk, CompletionsOk, Straddled;
    RunKeepsInv(labels);
    var s := Run(labels);
    var jobs := s.workers[l.w].jobs;
    var k :| 0 <= k < |jobs| && jobs[k].chunkId == i;
    WorkerSteps.WorkerFacts(s.db.chunks, s.log, s.workers, l.w, k);
    RowOfJob(labels, l.w, k);
    EmptyExactlyWhen(labels, l.w, k);
    TornIsStraddled(labels, l.w);
  }

  lemma {:induction false} StraddledForever(labels: seq<Label>, more: seq<Label>, f: FileId)
    requires Straddled(labels, f)
    ensures Straddled(labels + more, f)
  {
    hide Run, Renames;
    if |more| == 0 {
      assert labels + more == labels;
    } else {
      assert (labels + more)[..|labels + more| - 1] == labels + more[..|more| - 1];
      StraddledForever(labels, more[..|more| - 1], f);
    }
  }

  lemma {:induction false} ReopenedIsStraddled(labels: seq<Label>, more: seq<Label>, i: nat)
    requires i < |Run(labels).db.chunks| && Reopened(labels, more, i)
    ensures Straddled(labels + more, Run(labels).db.chunks[i].fileId)
  {
    hide Run, Straddled, Reopens;
    var before, l := more[..|more| - 1], more[|more| - 1];
    assert labels + more == (labels + before) + [l];
    if Reopened(labels, before, i) {
      ReopenedIsStraddled(labels, before, i);
      StraddledForever(labels + before, [l], Run(labels).db.chunks[i].fileId);
    } else {
      Guarantees.RowLater(labels, before, i);
      ReopensTorn(labels + before, l, i);
      StraddledForever(labels + before, [l], Run(labels + before).db.chunks[i].fileId);
    }
  }

  /** No queued passage is ever lost or renumbered; one that failed stays failed; and one
      that was indexed stays so exactly until a batch fails in which it had been
      completed as empty, which takes a straddled read. */
  lemma NoRowIsLost(labels: seq<Label>, more: seq<Label>, i: nat)
    requires i < |Run(labels).db.chunks|
    ensures i < |Run(labels + more).db.chunks|
    ensures var was, now := Run(labels).db.chunks[i], Run(labels + more).db.chunks[i];
            && KeyOf(now) == KeyOf(was) && was.retryCount <= now.retryCount
            && (was.status == Failed ==> now == was)
            && (was.status == Indexed ==> (now == was <==> !Reopened(labels, more, i)))
            && (Reopened(labels, more, i) ==> Straddled(labels + more, was.fileId))
  {
    hide Run, Straddled, Reopened;
    Guarantees.RowLater(labels, more, i);
    if Run(labels).db.chunks[i].status == Indexed {
      IndexedUntilReopened(labels, more, i);
    }
    if Reopened(labels, more, i) {
      ReopenedIsStraddled(labels, more, i);
    }
  }

  // ---------------------------------------------------------------- a settled file

  /** The file's row and all of its rows are the same, and there are no new ones. */
  ghost predicate SameFileRows(db: Db, after: Db, f: FileId) {
    && f in db.files && f in after.files && after.files[f] == db.files[f]
    && |db.chunks| <= |after.chunks|
    && (forall i | 0 <= i < |db.chunks| && db.chunks[i].fileId == f :: after.chunks[i] == db.chunks[i])
    && (forall i | 0 <= i < |db.chunks| && db.chunks[i].fileId != f :: after.chunks[i].fileId != f)
    && (forall i | |db.chunks| <= i < |after.chunks| :: after.chunks[i].fileId != f)
  }

  /** A completed upload whose rows are all settled. */
  ghost predicate Over(db: Db, f: FileId) {
    f in db.files && db.files[f].upload == Completed && AllSettled(db.chunks, f)
  }

  lemma OverStays(db: Db, after: Db, f: FileId)
    requires Over(db, f) && SameFileRows(db, after, f)
    ensures Over(after, f)
  {
  }

  lemma SameRowsOnward(db: Db, next: Db, last: Db, f: FileId)
    requires SameFileRows(db, next, f) && SameFileRows(next, last, f)
    ensures SameFileRows(db, last, f)
  {
    forall i | 0 <= i < |db.chunks| && db.chunks[i].fileId == f
      ensures last.chunks[i] == db.chunks[i]
    {
      assert next.chunks[i] == db.chunks[i];
    }
    forall i | |db.chunks| <= i < |last.chunks|
      ensures last.chunks[i].fileId != f
    {
      assert i < |next.chunks| ==> next.chunks[i].fileId != f;
    }
  }

  lemma NothingMoves(db: Db, f: FileId)
    requires f in db.files
    ensures SameFileRows(db, db, f)
  {
  }

  /** No worker has jobs of a file whose rows are all settled. */
  lemma WorkersElsewhere(chunks: seq<ChunkRow>, log: map<FileId, seq<Accepted>>, workers: map<nat, Worker>, w: nat, f: FileId)
    requires WorkersOk(chunks, log, workers) && w in workers && AllSettled(chunks, f)
    ensures workers[w].jobs[0].fileId != f
  {
    hide ListedJob;
    var worker := workers[w];
    assert WorkerOk(chunks, log, worker);
    if worker.Ingesting? {
      var j := KeptAt(worker.jobs, worker.texts, 0);
      WorkerSteps.WorkerFacts(chunks, log, workers, w, j);
      JobIsRow(chunks, worker.jobs[j], worker.jobs[0].fileId);
    } else {
      WorkerSteps.WorkerFacts(chunks, log, workers, w, 0);
      JobIsRow(chunks, worker.jobs[0], worker.jobs[0].fileId);
    }
  }

  lemma JobIsRow(chunks: seq<ChunkRow>, job: Job, f: FileId)
    requires ListedJob(chunks, job, f)
    ensures job.chunkId < |chunks| && chunks[job.chunkId].fileId == f
  {
  }

  /** Recording what became of jobs of another file. */
  lemma CompletionApart(db: Db, part: seq<Job>, g: FileId, f: FileId)
    requires Held(db.chunks, part, g) && g != f && f in db.files
    ensures SameFileRows(db, AfterComplete(db, part), f)
  {
    WorkerSteps.CompletedRows(db, part, g);
    forall i | 0 <= i < |db.chunks| && i in Ids(part)
      ensures db.chunks[i].fileId == g
    {
      var k :| 0 <= k < |part| && Ids(part)[k] == i;
      assert HeldJob(db.chunks, part[k], g);
    }
    if |part| > 0 {
      assert HeldJob(db.chunks, part[0], g);
    }
  }

  lemma FailureApart(db: Db, jobs: seq<Job>, g: FileId, f: FileId)
    requires Listed(db.chunks, jobs, g) && |jobs| > 0 && g != f && f in db.files
    ensures SameFileRows(db, AfterFail(db, jobs), f)
  {
    hide AfterFail, Split, Mark;
    WorkerSteps.FailedRows(db, jobs, g);
    FailIsRefreshed(db, jobs, g);
    forall i | 0 <= i < |db.chunks| && i in Ids(jobs)
      ensures db.chunks[i].fileId == g
    {
      var k :| 0 <= k < |jobs| && Ids(jobs)[k] == i;
      assert ListedJob(db.chunks, jobs[k], g);
    }
  }

  lemma VerdictApart(s: State, l: Label, f: FileId)
    requires WorkersOk(s.db.chunks, s.log, s.workers) && Over(s.db, f) && (l.IngestOk? || l.Fail?)
    ensures SameFileRows(s.db, Step(s, l).db, f)
  {
    hide WorkersOk, Held, Listed, KeptBy, JobsOf, AfterComplete, AfterFail, AllSettled, SameFileRows, AfterPut, AfterFinalizing;
    NothingMoves(s.db, f);
    if s.Free() && l.w in s.workers {
      WorkerSteps.OneWorker(s.db.chunks, s.log, s.workers, l.w);
      WorkersElsewhere(s.db.chunks, s.log, s.workers, l.w, f);
      if l.Fail? {
        FailureApart(s.db, s.workers[l.w].jobs, s.workers[l.w].jobs[0].fileId, f);
      } else if s.workers[l.w].Ingesting? {
        WorkerSteps.IngestedJobs(s.db.chunks, s.log, s.workers, l.w);
        CompletionApart(s.db, JobsOf(KeptBy(s.workers[l.w])), s.workers[l.w].jobs[0].fileId, f);
      }
    }
  }

  lemma SiftApart(s: State, w: nat, f: FileId)
    requires TablesOk(s.db) && WorkersOk(s.db.chunks, s.log, s.workers) && Over(s.db, f)
    ensures SameFileRows(s.db, DoSift(s, w).db, f)
  {
    hide TablesOk, WorkersOk, Held, Kept, Empty, DoSift, AfterComplete, AllSettled, SameFileRows;
    NothingMoves(s.db, f);
    if s.up && w in s.workers && s.workers[w].Reading? && |s.workers[w].texts| == |s.workers[w].jobs| {
      WorkerSteps.OneWorker(s.db.chunks, s.log, s.workers, w);
      WorkersElsewhere(s.db.chunks, s.log, s.workers, w, f);
      WorkerSteps.SiftIs(s, w);
      WorkerSteps.SiftKeepsWorkers(s.db, s.log, s.workers, w);
      CompletionApart(s.db, Empty(s.workers[w].jobs, s.workers[w].texts), s.workers[w].jobs[0].fileId, f);
    } else {
      WorkerSteps.NoSift(s, w);
    }
  }

  lemma ClaimApart(db: Db, limit: nat, f: FileId)
    requires Over(db, f)
    ensures SameFileRows(db, AfterClaim(db, limit), f)
  {
    hide Mark;
    BatchIsPending(db, limit);
    var ids := BatchIds(db.chunks, limit);
    forall i | 0 <= i < |db.chunks|
      ensures AfterClaim(db, limit).chunks[i].fileId == db.chunks[i].fileId
      ensures db.chunks[i].fileId == f ==> AfterClaim(db, limit).chunks[i] == db.chunks[i]
    {
      MarkAt(db.chunks, ids, Processing, 0, i);
    }
  }

  lemma RecoverApart(db: Db, f: FileId)
    requires Over(db, f)
    ensures SameFileRows(db, AfterRecover(db), f)
  {
  }

  lemma AppendApart(db: Db, g: FileId, next: FileRow, rows: seq<ChunkRow>, f: FileId)
    requires g != f && f in db.files && forall k | 0 <= k < |rows| :: rows[k].fileId == g
    ensures SameFileRows(db, Db(db.files[g := next], db.chunks + rows), f)
  {
  }

  lemma UploadApart(s: State, l: Label, f: FileId)
    requires TablesOk(s.db) && PutOk(s.db.files, s.log, s.disk, s.put) && Over(s.db, f)
    requires l.PutCommit? || l.CompleteClose?
    ensures SameFileRows(s.db, Step(s, l).db, f)
  {
    hide TablesOk, AfterPut, AfterFinalizing, FeedBody, FlushRow, SameExcess, AllSettled, SameFileRows;
    NothingMoves(s.db, f);
    match l
    case PutCommit =>
      if s.put.Some? {
        var p := s.put.value;
        UploadSteps.CommitTables(s.db, p.f, p.row, p.body);
        AppendApart(s.db, p.f, UploadSteps.RowAfterPut(p.row, p.body), NewRows(p.f, FeedBody(p.row, p.body).passages, p.row.nextSequence), f);
      }
    case CompleteClose(_, g, _) =>
      if g in s.db.files && s.db.files[g].upload != Completed {
        var row := s.db.files[g];
        UploadSteps.CloseTables(s.db, g, row);
        AppendApart(s.db, g, UploadSteps.RowAfterClose(row), NewRows(g, FlushRow(row).passages, row.nextSequence), f);
      }
  }

  lemma CreateApart(s: State, l: Label, f: FileId)
    requires Over(s.db, f) && (l.Create? || l.CompleteFinish?)
    ensures SameFileRows(s.db, Step(s, l).db, f)
  {
    hide AfterPut, AfterFinalizing, AllSettled;
  }

  lemma QueueApart(s: State, l: Label, f: FileId)
    requires Over(s.db, f) && (l.Claim? || l.Recover?)
    ensures SameFileRows(s.db, Step(s, l).db, f)
  {
    hide AfterPut, AfterFinalizing, AfterClaim, AfterRecover, BatchJobs, SameFileRows, Over;
    OverHere(s.db, f);
    if l.Claim? {
      ClaimApart(s.db, BatchLimit(l.limit), f);
      ClaimIs(s, l.w, l.limit);
    } else {
      RecoverApart(s.db, f);
    }
  }

  lemma OverHere(db: Db, f: FileId)
    requires Over(db, f)
    ensures SameFileRows(db, db, f)
  {
  }

  lemma OverByStep(s: State, l: Label, f: FileId)
    requires Inv(s) && Over(s.db, f)
    ensures SameFileRows(s.db, Step(s, l).db, f)
  {
    hide TablesOk, StreamsOk, DiskOk, PointsOk, WorkersOk, PutOk, CompletionsOk, Step, SameFileRows, Over;
    OverHere(s.db, f);
    if LeavesTables(l) {
      TablesLeft(s, l);
    } else if l.Create? || l.CompleteFinish? {
      CreateApart(s, l, f);
    } else if l.PutCommit? || l.CompleteClose? {
      UploadApart(s, l, f);
    } else if l.Claim? || l.Recover? {
      QueueApart(s, l, f);
    } else if l.Sift? {
      SiftApart(s, l.w, f);
      SiftIsStep(s, l.w);
    } else {
      VerdictApart(s, l, f);
    }
  }

  lemma SiftIsStep(s: State, w: nat)
    ensures Step(s, Sift(w)) == DoSift(s, w)
  {
  }

  /** Once an upload is completed and all its rows are settled, nothing about it ever
      changes again: not its status, its counters, its rows, nor how many it has. */
  lemma {:induction false} SettledForever(labels: seq<Label>, more: seq<Label>, f: FileId)
    requires Over(Run(labels).db, f)
    ensures SameFileRows(Run(labels).db, Run(labels + more).db, f) && Over(Run(labels + more).db, f)
  {
    hide Inv, Step, Run, SameFileRows, Over;
    if |more| == 0 {
      assert labels + more == labels;
      OverHere(Run(labels).db, f);
    } else {
      var before, l := more[..|more| - 1], more[|more| - 1];
      SettledForever(labels, before, f);
      assert labels + more == (labels + before) + [l];
      RunKeepsInv(labels + before);
      RunOneMore(labels + before, l);
      OverByStep(Run(labels + before), l, f);
      SameRowsOnward(Run(labels).db, Run(labels + before).db, Run(labels + more).db, f);
      OverStays(Run(labels + before).db, Run(labels + more).db, f);
    }
  }

  lemma NotFailed(s: State, l: Label, f: FileId, i: nat)
    requires TablesOk(s.db) && WorkersOk(s.db.chunks, s.log, s.workers) && Over(s.db, f)
    requires i < |s.db.chunks| && s.db.chunks[i].fileId == f
    ensures i !in FailedBy(s, l)
  {
    hide TablesOk, WorkersOk, AllSettled, ListedJob;
    if i in FailedBy(s, l) {
      var jobs := s.workers[l.w].jobs;
      var k :| 0 <= k < |jobs| && jobs[k].chunkId == i;
      WorkersElsewhere(s.db.chunks, s.log, s.workers, l.w, f);
      WorkerSteps.WorkerFacts(s.db.chunks, s.log, s.workers, l.w, k);
      JobIsRow(s.db.chunks, jobs[k], jobs[k].fileId);
    }
  }

  /** A row of such an upload that has no point never gets one. */
  lemma {:induction false} MissedForever(labels: seq<Label>, more: seq<Label>, f: FileId, i: nat)
    requires Over(Run(labels).db, f) && i in Missed(labels)
    requires i < |Run(labels).db.chunks| && Run(labels).db.chunks[i].fileId == f
    ensures i in Missed(labels + more)
    ensures NoPoint(Run(labels + more).db.chunks, Run(labels + more).points, i)
  {
    hide Inv, Step, Run, SameFileRows, Over, FailedBy, MissedBy, NoPoint;
    if |more| == 0 {
      assert labels + more == labels;
    } else {
      var before, l := more[..|more| - 1], more[|more| - 1];
      MissedForever(labels, before, f, i);
      SettledForever(labels, before, f);
      RowLaterHere(labels, before, f, i);
      assert (labels + more)[..|labels + more| - 1] == labels + before && (labels + more)[|labels + more| - 1] == l;
      RunKeepsInv(labels + before);
      OpenInv(Run(labels + before));
      NotFailed(Run(labels + before), l, f, i);
    }
    MissedExactlyWhen(labels + more, i);
  }

  lemma RowLaterHere(labels: seq<Label>, more: seq<Label>, f: FileId, i: nat)
    requires i < |Run(labels).db.chunks| && Run(labels).db.chunks[i].fileId == f
    ensures i < |Run(labels + more).db.chunks| && Run(labels + more).db.chunks[i].fileId == f
  {
    hide Run;
    Guarantees.RowLater(labels, more, i);
  }

  /** A terminal status stays terminal. It never changes if it says that rows failed, if
      no row is outstanding, or if no read of the file was straddled before; otherwise
      `completed` can turn into `failed`, and that is all. */
  lemma TerminalIsFinal(labels: seq<Label>, more: seq<Label>, f: FileId)
    requires f in Run(labels).db.files && Run(labels).db.files[f].processing.Terminal()
    ensures f in Run(labels + more).db.files
    ensures var was, now := Run(labels).db.files[f].processing, Run(labels + more).db.files[f].processing;
            && (now == was || (was == Done && now == DoneWithFailures))
            && (now != was ==> UnsettledRows(Run(labels).db.chunks, f) > 0 && Straddled(labels, f))
  {
    hide Run, Straddled, Recounted, SameFileRows;
    RunEvolves(labels, more);
    assert RowEvolves(Run(labels).db.files[f], Run(labels + more).db.files[f]);
    TerminalMeansSettled(labels, f);
    AllSettledIff(Run(labels).db.chunks, f);
    if AllSettled(Run(labels).db.chunks, f) {
      SettledForever(labels, more, f);
      SameStatus(Run(labels).db, Run(labels + more).db, f);
    }
  }

  lemma SameStatus(db: Db, after: Db, f: FileId)
    requires SameFileRows(db, after, f)
    ensures f in db.files && f in after.files && after.files[f] == db.files[f]
  {
  }

  // ------------------------------------------------------- a status that turns

  /** The step fails jobs of `f` for good. */
  predicate FailsForGood(s: State, l: Label, f: FileId) {
    && l.Fail? && s.Free() && l.w in s.workers && |s.workers[l.w].jobs| > 0
    && s.workers[l.w].jobs[0].fileId == f && Split(s.workers[l.w].jobs, true) != []
  }

  lemma FailTurns(s: State, w: nat, f: FileId)
    requires TablesOk(s.db) && WorkersOk(s.db.chunks, s.log, s.workers)
    requires f in s.db.files && s.db.files[f].processing.Terminal()
    ensures f in DoFail(s, w).db.files
    ensures DoFail(s, w).db.files[f].processing != s.db.files[f].processing
            <==> s.db.files[f].processing == Done && FailsForGood(s, Fail(w), f)
  {
    hide WorkersOk, Listed, Split, Mark, AfterFail, Counted, Numbered, RetriesBounded, RowsOwned;
    assert RowSettled(s.db.files[f]);
    if s.Free() && w in s.workers {
      var jobs := s.workers[w].jobs;
      WorkerSteps.OneWorker(s.db.chunks, s.log, s.workers, w);
      FailIsRefreshed(s.db, jobs, jobs[0].fileId);
      RecordedRow(s.db.files, jobs[0].fileId, |Ids(Split(jobs, true))|, f);
    }
  }

  lemma SiftTurns(s: State, w: nat, f: FileId)
    requires TablesOk(s.db) && WorkersOk(s.db.chunks, s.log, s.workers)
    requires f in s.db.files && s.db.files[f].processing.Terminal()
    ensures f in DoSift(s, w).db.files && DoSift(s, w).db.files[f].processing == s.db.files[f].processing
  {
    hide TablesOk, WorkersOk, Held, Kept, Empty, DoSift, AfterComplete, RowEvolves, ChunksEvolve;
    if s.up && w in s.workers && s.workers[w].Reading? && |s.workers[w].texts| == |s.workers[w].jobs| {
      WorkerSteps.OneWorker(s.db.chunks, s.log, s.workers, w);
      WorkerSteps.SiftIs(s, w);
      WorkerSteps.SiftKeepsWorkers(s.db, s.log, s.workers, w);
      CompleteEvolves(s.db, Empty(s.workers[w].jobs, s.workers[w].texts), s.workers[w].jobs[0].fileId);
    } else {
      WorkerSteps.NoSift(s, w);
    }
  }

  lemma IngestTurns(s: State, w: nat, f: FileId)
    requires TablesOk(s.db) && WorkersOk(s.db.chunks, s.log, s.workers)
    requires f in s.db.files && s.db.files[f].processing.Terminal()
    ensures f in DoIngestOk(s, w).db.files && DoIngestOk(s, w).db.files[f].processing == s.db.files[f].processing
  {
    hide TablesOk, WorkersOk, Held, KeptBy, JobsOf, AfterComplete, RowEvolves, ChunksEvolve;
    if s.Free() && w in s.workers && s.workers[w].Ingesting? {
      WorkerSteps.OneWorker(s.db.chunks, s.log, s.workers, w);
      WorkerSteps.IngestedJobs(s.db.chunks, s.log, s.workers, w);
      CompleteEvolves(s.db, JobsOf(KeptBy(s.workers[w])), s.workers[w].jobs[0].fileId);
    }
  }

  /** Queueing is for uploads that are not completed, whose status is not terminal. */
  lemma QueueingTurns(s: State, l: Label, f: FileId)
    requires TablesOk(s.db) && PutOk(s.db.files, s.log, s.disk, s.put)
    requires f in s.db.files && s.db.files[f].processing.Terminal() && (l.PutCommit? || l.CompleteClose?)
    ensures f in Step(s, l).db.files && Step(s, l).db.files[f].processing == s.db.files[f].processing
  {
    hide FeedBody, FlushRow, InsertPending, Counted, Numbered, RetriesBounded, RowsOwned, Content;
    assert RowSettled(s.db.files[f]);
  }

  lemma UploadTurns(s: State, l: Label, f: FileId)
    requires f in s.db.files && s.db.files[f].processing.Terminal()
    requires l.Create? || l.CompleteFinish? || l.Claim? || l.Recover?
    ensures f in Step(s, l).db.files && Step(s, l).db.files[f].processing == s.db.files[f].processing
  {
    hide AfterPut, AfterFinalizing, BatchJobs, Mark, ResetStuck, Drain;
  }

  /** A terminal status changes at a step if and only if it is `completed` and the step
      fails jobs of the file for good. */
  lemma TurnsExactlyWhen(s: State, l: Label, f: FileId)
    requires Inv(s) && f in s.db.files && s.db.files[f].processing.Terminal()
    ensures f in Step(s, l).db.files
    ensures Step(s, l).db.files[f].processing != s.db.files[f].processing
            <==> s.db.files[f].processing == Done && FailsForGood(s, l, f)
  {
    hide TablesOk, StreamsOk, DiskOk, PointsOk, WorkersOk, PutOk, CompletionsOk, DoFail, DoSift, DoIngestOk, Step, FailsForGood;
    OnlyFailures(s, l, f);
    if LeavesTables(l) {
      TablesLeft(s, l);
    } else if l.Fail? {
      FailTurns(s, l.w, f);
      FailIs(s, l.w);
    } else if l.Sift? {
      SiftTurns(s, l.w, f);
      SiftIsStep(s, l.w);
    } else if l.IngestOk? {
      IngestTurns(s, l.w, f);
      IngestIsStep(s, l.w);
    } else if l.PutCommit? || l.CompleteClose? {
      QueueingTurns(s, l, f);
    } else {
      UploadTurns(s, l, f);
    }
  }

  lemma OnlyFailures(s: State, l: Label, f: FileId)
    ensures FailsForGood(s, l, f) ==> l.Fail?
  {
  }

  lemma IngestIsStep(s: State, w: nat)
    ensures Step(s, IngestOk(w)) == DoIngestOk(s, w)
  {
  }
}
