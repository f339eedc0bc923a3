/** When a file's processing begins, and what ending a request or a worker early leaves. */
module Started {
  import opened Bytes
  import opened Chunker
  import opened Tables
  import opened Storage
  import opened JobQueue
  import opened UploadService
  import opened Accounting
  import opened QueueLaws
  import opened Pipeline
  import opened Invariant
  import opened Frames
  import opened Reachable
  import Draining
  import Elsewhere
  import History
  import UploadSteps
  import WorkerSteps

  /** The step makes a new worker whose batch is of `f`. */
  predicate Claims(s: State, l: Label, f: FileId) {
    && l.Claim? && l.w !in s.workers && l.w in Step(s, l).workers
    && |Step(s, l).workers[l.w].jobs| > 0 && Step(s, l).workers[l.w].jobs[0].fileId == f
  }

  /** Some step of the run did. */
  predicate EverClaimed(labels: seq<Label>, f: FileId) {
    |labels| > 0 &&
    var before := labels[..|labels| - 1];
    EverClaimed(before, f) || Claims(Run(before), labels[|labels| - 1], f)
  }

  predicate Waits(files: map<FileId, FileRow>, f: FileId) {
    f in files && files[f].processing == Waiting
  }

  /** No one works on a file that waits. */
  ghost predicate WorkersStarted(s: State) {
    forall w | w in s.workers :: |s.workers[w].jobs| > 0 && !Waits(s.db.files, s.workers[w].jobs[0].fileId)
  }

  // --------------------------------------------------------------------- each step

  lemma ClaimStarts(s: State, w: nat, limit: Option<nat>, f: FileId)
    requires f in s.db.files && s.db.files[f].processing == Waiting
    ensures f in DoClaim(s, w, limit).db.files
    ensures DoClaim(s, w, limit).db.files[f].processing == Waiting <==> !Claims(s, Claim(w, limit), f)
  {
    hide BatchJobs, Mark;
  }

  lemma VerdictLeavesWaiting(s: State, l: Label, f: FileId)
    requires WorkersOk(s.db.chunks, s.log, s.workers) && WorkersStarted(s) && Waits(s.db.files, f)
    requires l.IngestOk? || l.Fail?
    ensures Waits(Step(s, l).db.files, f)
  {
    hide WorkersOk, Held, Listed, KeptBy, JobsOf, AfterComplete, AfterFail, AfterPut, AfterFinalizing, AfterCompleted;
    if s.Free() && l.w in s.workers {
      var jobs := s.workers[l.w].jobs;
      WorkerSteps.OneWorker(s.db.chunks, s.log, s.workers, l.w);
      Draining.FailLeavesFile(s.db, jobs, jobs[0].fileId, f);
      if s.workers[l.w].Ingesting? && AllStored(s.points, KeptBy(s.workers[l.w])) {
        WorkerSteps.IngestedJobs(s.db.chunks, s.log, s.workers, l.w);
        Draining.CompleteLeavesFile(s.db, JobsOf(KeptBy(s.workers[l.w])), jobs[0].fileId, f);
      }
    }
  }

  lemma SiftLeavesWaiting(s: State, w: nat, f: FileId)
    requires WorkersOk(s.db.chunks, s.log, s.workers) && TablesOk(s.db) && WorkersStarted(s) && Waits(s.db.files, f)
    ensures Waits(DoSift(s, w).db.files, f)
  {
    hide WorkersOk, TablesOk, Held, Kept, Empty, DoSift, AfterComplete;
    if s.up && w in s.workers && s.workers[w].Reading? && |s.workers[w].texts| == |s.workers[w].jobs| {
      var jobs, texts := s.workers[w].jobs, s.workers[w].texts;
      WorkerSteps.OneWorker(s.db.chunks, s.log, s.workers, w);
      WorkerSteps.SiftIs(s, w);
      WorkerSteps.SiftKeepsWorkers(s.db, s.log, s.workers, w);
      Draining.CompleteLeavesFile(s.db, Empty(jobs, texts), jobs[0].fileId, f);
    } else {
      WorkerSteps.NoSift(s, w);
    }
  }

  lemma CommitLeavesWaiting(s: State, f: FileId)
    requires TablesOk(s.db) && PutOk(s.db.files, s.log, s.disk, s.put) && Waits(s.db.files, f)
    ensures Waits(DoPutCommit(s).db.files, f)
  {
    hide TablesOk, FeedBody;
    if s.put.Some? {
      UploadSteps.CommitTables(s.db, s.put.value.f, s.put.value.row, s.put.value.body);
    }
  }

  lemma UploadLeavesWaiting(s: State, l: Label, f: FileId)
    requires TablesOk(s.db) && PutOk(s.db.files, s.log, s.disk, s.put) && Waits(s.db.files, f)
    requires l.Create? || l.PutCommit? || l.CompleteClose? || l.CompleteFinish?
    ensures Waits(Step(s, l).db.files, f)
  {
    hide TablesOk, PutOk, FeedBody, FlushRow, DoPutCommit;
    if l.PutCommit? {
      CommitLeavesWaiting(s, f);
    }
  }

  lemma RecoverLeavesWaiting(s: State, f: FileId)
    requires Waits(s.db.files, f)
    ensures Waits(Step(s, Recover).db.files, f)
  {
    hide FeedBody, FlushRow, AfterPut, AfterFinalizing, AfterCompleted;
  }

  /** A file stops waiting exactly when rows of it are claimed. */
  lemma StartsByClaim(s: State, l: Label, f: FileId)
    requires Inv(s) && WorkersStarted(s) && Waits(s.db.files, f)
    ensures Waits(Step(s, l).db.files, f) <==> !Claims(s, l, f)
  {
    hide TablesOk, StreamsOk, DiskOk, PointsOk, WorkersOk, PutOk, CompletionsOk, Step, Claims, WorkersStarted;
    if History.LeavesTables(l) {
      History.TablesLeft(s, l);
      NoClaim(s, l, f);
    } else if l.Claim? {
      ClaimStep(s, l, f);
    } else {
      NoClaim(s, l, f);
      if l.IngestOk? || l.Fail? {
        VerdictLeavesWaiting(s, l, f);
      } else if l.Sift? {
        SiftStep(s, l, f);
      } else if l.Recover? {
        RecoverLeavesWaiting(s, f);
      } else {
        UploadLeavesWaiting(s, l, f);
      }
    }
  }

  lemma NoClaim(s: State, l: Label, f: FileId)
    requires !l.Claim?
    ensures !Claims(s, l, f)
  {
  }

  lemma ClaimStep(s: State, l: Label, f: FileId)
    requires l.Claim? && Waits(s.db.files, f)
    ensures Waits(Step(s, l).db.files, f) <==> !Claims(s, l, f)
  {
    hide Claims, DoClaim, AfterPut, AfterFinalizing, AfterCompleted;
    ClaimStarts(s, l.w, l.limit, f);
  }

  lemma SiftStep(s: State, l: Label, f: FileId)
    requires WorkersOk(s.db.chunks, s.log, s.workers) && TablesOk(s.db) && WorkersStarted(s) && Waits(s.db.files, f)
    requires l.Sift?
    ensures Waits(Step(s, l).db.files, f)
  {
    hide WorkersOk, TablesOk, DoSift, AfterPut, AfterFinalizing, AfterCompleted;
    SiftLeavesWaiting(s, l.w, f);
  }

  /** A worker has the jobs it had, or has just claimed them. */
  lemma JobsFrom(s: State, l: Label, w: nat)
    requires w in Step(s, l).workers
    ensures (w in s.workers && Step(s, l).workers[w].jobs == s.workers[w].jobs)
            || (l.Claim? && l.w == w && w !in s.workers && |Step(s, l).workers[w].jobs| > 0)
  {
    hide FeedBody, FlushRow, AfterPut, AfterFinalizing, AfterCompleted, BatchJobs, AfterClaim, AfterComplete, AfterFail,
         AfterRecover, Kept, Empty, Advance, KeptBy, Renamed, Reconciled, Appended;
  }

  /** Whoever has a batch has claimed it, and so its file is started. */
  lemma WorkersStayStarted(s: State, l: Label)
    requires Inv(s) && WorkersStarted(s)
    ensures WorkersStarted(Step(s, l))
  {
    hide Inv, Step;
    var t := Step(s, l);
    History.StepEvolves(s, l);
    StepKeepsInv(s, l);
    forall w | w in t.workers
      ensures |t.workers[w].jobs| > 0 && !Waits(t.db.files, t.workers[w].jobs[0].fileId)
    {
      JobsFrom(s, l, w);
      var f := t.workers[w].jobs[0].fileId;
      if w in s.workers {
        assert !Waits(s.db.files, f);
        FileOfWorker(s, w);
      } else {
        FileOfWorker(t, w);
        ClaimedStarts(s, l, f);
      }
    }
  }

  lemma FileOfWorker(s: State, w: nat)
    requires Inv(s) && w in s.workers
    ensures |s.workers[w].jobs| > 0 && s.workers[w].jobs[0].fileId in s.db.files
  {
    hide StreamsOk, DiskOk, PointsOk, PutOk, CompletionsOk, WorkersOk, Counted, Numbered, RetriesBounded;
    WorkerSteps.OneWorker(s.db.chunks, s.log, s.workers, w);
    WorkerSteps.WorkerFacts(s.db.chunks, s.log, s.workers, w, 0);
    var id := s.workers[w].jobs[0].chunkId;
    assert Keys(s.db.chunks)[id] == KeyOf(s.db.chunks[id]);
  }

  lemma ClaimedStarts(s: State, l: Label, f: FileId)
    requires Inv(s) && WorkersStarted(s) && Claims(s, l, f)
    ensures !Waits(Step(s, l).db.files, f)
  {
    hide Inv, Step, Claims;
    History.StepEvolves(s, l);
    if Waits(s.db.files, f) {
      StartsByClaim(s, l, f);
    } else if f !in s.db.files {
      ClaimedExists(s, l, f);
    }
  }

  lemma ClaimedExists(s: State, l: Label, f: FileId)
    requires Inv(s) && Claims(s, l, f)
    ensures f in s.db.files
  {
    hide StreamsOk, DiskOk, PointsOk, PutOk, CompletionsOk, WorkersOk, Counted, Numbered, RetriesBounded, BatchJobs,
         AfterClaim;
    BatchWasPending(s.db, BatchLimit(l.limit));
  }

  // --------------------------------------------------------------------- every run

  ghost predicate StartedWhenClaimed(s: State, f: FileId, claimed: bool) {
    WorkersStarted(s) && (f in s.db.files ==> (Waits(s.db.files, f) <==> !claimed)) && (f !in s.db.files ==> !claimed)
  }

  lemma StepStarted(s: State, l: Label, f: FileId, claimed: bool)
    requires Inv(s) && StartedWhenClaimed(s, f, claimed)
    ensures StartedWhenClaimed(Step(s, l), f, claimed || Claims(s, l, f))
  {
    hide Inv, Step, Claims, WorkersStarted;
    WorkersStayStarted(s, l);
    History.StepEvolves(s, l);
    if Waits(s.db.files, f) {
      StartsByClaim(s, l, f);
    } else if f !in s.db.files {
      if Claims(s, l, f) {
        ClaimedExists(s, l, f);
      }
      NewFileWaits(s, l, f);
    }
  }

  lemma NewFileWaits(s: State, l: Label, f: FileId)
    requires Inv(s) && f !in s.db.files
    ensures f in Step(s, l).db.files ==> Waits(Step(s, l).db.files, f)
  {
    hide Inv, FeedBody, FlushRow, DoPutCommit, DoCompleteClose, DoSift, DoFail, DoIngestOk, DoClaim;
    if f in Step(s, l).db.files {
      Elsewhere.OnlyCreateAdds(s, l, f);
    }
  }

  lemma {:induction false} RunStarted(labels: seq<Label>, f: FileId)
    ensures StartedWhenClaimed(Run(labels), f, EverClaimed(labels, f))
  {
    hide Inv, Step, StartedWhenClaimed, Claims;
    if |labels| > 0 {
      var before, l := labels[..|labels| - 1], labels[|labels| - 1];
      RunStarted(before, f);
      RunKeepsInv(before);
      StepStarted(Run(before), l, f, EverClaimed(before, f));
    } else {
      NothingStarted(f);
    }
  }

  lemma NothingStarted(f: FileId)
    ensures StartedWhenClaimed(INITIAL, f, false)
  {
  }

  /** In every run a file is waiting to be processed if and only if none of its rows has
      ever been claimed: no chunk, completion, crash or restart starts it, and nothing
      makes it wait again. */
  lemma WaitsUntilClaimed(labels: seq<Label>, f: FileId)
    requires f in Run(labels).db.files
    ensures Run(labels).db.files[f].processing == Waiting <==> !EverClaimed(labels, f)
  {
    hide Run, EverClaimed;
    RunStarted(labels, f);
  }

  // ----------------------------------------------------------------- giving up early

  /** A chunk that is given up, a completion that dies and a worker that loses its batch
      are forgotten, and leave tables, disk, points and everything else as they are. */
  lemma GivingUp(labels: seq<Label>, r: nat, w: nat)
    ensures var s := Run(labels);
            && Run(labels + [PutAbort]) == s.(put := None)
            && Run(labels + [CompleteDrop(r)]) == s.(completions := s.completions - {r})
            && Run(labels + [Abandon(w)]) == s.(workers := s.workers - {w})
  {
    hide Run, Step;
    RunOneMore(labels, PutAbort);
    RunOneMore(labels, CompleteDrop(r));
    RunOneMore(labels, Abandon(w));
    ChunkGivenUp(Run(labels));
    CompletionGivenUp(Run(labels), r);
    WorkerGivenUp(Run(labels), w);
  }

  lemma ChunkGivenUp(s: State)
    ensures Step(s, PutAbort) == s.(put := None)
  {
  }

  lemma CompletionGivenUp(s: State, r: nat)
    ensures Step(s, CompleteDrop(r)) == s.(completions := s.completions - {r})
  {
  }

  lemma WorkerGivenUp(s: State, w: nat)
    ensures Step(s, Abandon(w)) == s.(workers := s.workers - {w})
  {
  }
}
