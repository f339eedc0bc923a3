/** Who works on which rows: claims are exclusive, oldest first, and given back by
    recovery. */
module Claims {
  import opened Bytes
  import opened Chunker
  import opened Tables
  import opened Storage
  import opened JobQueue
  import opened UploadService
  import opened Accounting
  import opened QueueLaws
  import opened EnqueueLaws
  import opened Pipeline
  import opened Batches
  import opened Invariant
  import opened Frames
  import opened Reachable
  import Config
  import EndToEnd
  import Indexing
  import Recounts
  import Straddles
  import UploadSteps
  import WorkerSteps

  // ------------------------------------------------------------------- exclusive

  /** In every run each job says what its row says and no row is claimed twice, by one
      worker or by two. Every claimed row is being processed, but for those that their
      worker has completed as empty, the reads of which were straddled. */
  lemma ClaimsAreExclusive(labels: seq<Label>, v: nat, i: nat, w: nat, j: nat)
    requires v in Run(labels).workers && i < |Run(labels).workers[v].jobs|
    requires w in Run(labels).workers && j < |Run(labels).workers[w].jobs|
    ensures var s := Run(labels);
            var job := s.workers[v].jobs[i];
            && job.chunkId < |s.db.chunks|
            && job == JobOf(s.db.chunks[job.chunkId], job.chunkId)
            && job.fileId == s.workers[v].jobs[0].fileId
            && s.db.chunks[job.chunkId].status
               == (if s.workers[v].Ingesting? && i in Straddles.Torn(labels, v) then Indexed else Processing)
            && (job.chunkId == s.workers[w].jobs[j].chunkId <==> v == w && i == j)
  {
    hide Run, TablesOk, StreamsOk, DiskOk, PointsOk, PointOk, WorkersOk, PutOk, CompletionsOk, Content,
         Listed, Straddles.Torn, KeptBy;
    RunKeepsInv(labels);
    var s := Run(labels);
    WorkerSteps.WorkerFacts(s.db.chunks, s.log, s.workers, v, i);
    SameClaim(s.db.chunks, s.log, s.workers, v, i, w, j);
    if s.workers[v].Ingesting? {
      Straddles.EmptyExactlyWhen(labels, v, i);
    }
  }

  lemma SameClaim(chunks: seq<ChunkRow>, log: map<FileId, seq<Accepted>>, workers: map<nat, Worker>,
                  v: nat, i: nat, w: nat, j: nat)
    requires WorkersOk(chunks, log, workers)
    requires v in workers && i < |workers[v].jobs| && w in workers && j < |workers[w].jobs|
    ensures workers[v].jobs[i].chunkId == workers[w].jobs[j].chunkId <==> v == w && i == j
  {
    assert WorkerOk(chunks, log, workers[v]);
    if v == w && i != j {
      assert Ids(workers[v].jobs)[i] != Ids(workers[v].jobs)[j];
    }
  }

  // -------------------------------------------------------------------- no orphan

  ghost predicate HeldBy(workers: map<nat, Worker>, w: nat, k: nat, i: nat) {
    w in workers && k < |workers[w].jobs| && workers[w].jobs[k].chunkId == i
  }

  ghost predicate Owned(chunks: seq<ChunkRow>, workers: map<nat, Worker>, lost: set<nat>) {
    forall i | 0 <= i < |chunks| && chunks[i].status == Processing && i !in lost :: exists w, k :: HeldBy(workers, w, k, i)
  }

  /** The workers keep their jobs, and no row has newly become processed. */
  lemma OwnedStays(chunks: seq<ChunkRow>, workers: map<nat, Worker>, after: seq<ChunkRow>, next: map<nat, Worker>, lost: set<nat>)
    requires Owned(chunks, workers, lost)
    requires forall w | w in workers :: w in next && next[w].jobs == workers[w].jobs
    requires forall i | 0 <= i < |after| && after[i].status == Processing :: i < |chunks| && chunks[i].status == Processing
    ensures Owned(after, next, lost)
  {
    forall i | 0 <= i < |after| && after[i].status == Processing && i !in lost
      ensures exists w, k :: HeldBy(next, w, k, i)
    {
      var w, k :| HeldBy(workers, w, k, i);
      assert HeldBy(next, w, k, i);
    }
  }

  lemma OwnedAfterClaim(db: Db, workers: map<nat, Worker>, w: nat, limit: nat, lost: set<nat>)
    requires Owned(db.chunks, workers, lost) && w !in workers
    ensures Owned(AfterClaim(db, limit).chunks, workers[w := Reading(BatchJobs(db, limit), [], BEGUN)], lost)
  {
    var jobs, after := BatchJobs(db, limit), AfterClaim(db, limit).chunks;
    var next := workers[w := Reading(jobs, [], BEGUN)];
    BatchIsPending(db, limit);
    forall i | 0 <= i < |after| && after[i].status == Processing && i !in lost
      ensures exists v, k :: HeldBy(next, v, k, i)
    {
      MarkAt(db.chunks, Ids(jobs), Processing, 0, i);
      if i in Ids(jobs) {
        var k :| 0 <= k < |jobs| && Ids(jobs)[k] == i;
        assert HeldBy(next, w, k, i);
      } else {
        var v, k :| HeldBy(workers, v, k, i);
        assert HeldBy(next, v, k, i);
      }
    }
  }

  lemma HeldAmong(workers: map<nat, Worker>, w: nat, k: nat, i: nat)
    requires HeldBy(workers, w, k, i)
    ensures i in Ids(workers[w].jobs)
  {
    assert Ids(workers[w].jobs)[k] == i;
  }

  /** A batch is over: its rows are no longer processed, and the others are as before. */
  lemma OwnedAfterBatch(chunks: seq<ChunkRow>, workers: map<nat, Worker>, w: nat, after: seq<ChunkRow>, lost: set<nat>)
    requires Owned(chunks, workers, lost) && w in workers && |after| == |chunks|
    requires forall i | 0 <= i < |after| :: after[i].status == Processing ==> chunks[i].status == Processing
    requires forall i | 0 <= i < |after| && i in Ids(workers[w].jobs) :: after[i].status != Processing
    ensures Owned(after, workers - {w}, lost)
  {
    var next := workers - {w};
    forall i | 0 <= i < |after| && after[i].status == Processing && i !in lost
      ensures exists v, k :: HeldBy(next, v, k, i)
    {
      assert i !in Ids(workers[w].jobs) && chunks[i].status == Processing;
      var v: nat, k: nat :| HeldBy(workers, v, k, i);
      HeldAmong(workers, v, k, i);
      assert HeldBy(next, v, k, i);
    }
  }

  /** Completing what was ingested leaves no row of the batch in processing. */
  lemma IngestEndsBatch(db: Db, log: map<FileId, seq<Accepted>>, worker: Worker)
    requires WorkerOk(db.chunks, log, worker) && worker.Ingesting?
    ensures var after := AfterComplete(db, JobsOf(KeptBy(worker))).chunks;
            && |after| == |db.chunks|
            && (forall i | 0 <= i < |after| :: after[i].status == Processing ==> db.chunks[i].status == Processing)
            && (forall i | 0 <= i < |after| && i in Ids(worker.jobs) :: after[i].status != Processing)
  {
    hide AfterComplete, Held, Kept;
    var part := JobsOf(KeptBy(worker));
    var after := AfterComplete(db, part).chunks;
    WorkerSteps.IngestingHolds(db.chunks, log, worker);
    WorkerSteps.CompletedRows(db, part, worker.jobs[0].fileId);
    forall i | 0 <= i < |after| && i in Ids(worker.jobs)
      ensures after[i].status != Processing
    {
      var k :| 0 <= k < |worker.jobs| && Ids(worker.jobs)[k] == i;
      PartOfJob(worker.jobs, worker.texts, k);
    }
  }

  lemma IngestKeepsOwned(s: State, w: nat, lost: set<nat>)
    requires WorkersOk(s.db.chunks, s.log, s.workers) && Owned(s.db.chunks, s.workers, lost)
    ensures Owned(DoIngestOk(s, w).db.chunks, DoIngestOk(s, w).workers, lost)
  {
    hide WorkersOk, Owned, KeptBy, JobsOf, AfterComplete;
    if s.Free() && w in s.workers && s.workers[w].Ingesting? && AllStored(s.points, KeptBy(s.workers[w])) {
      WorkerSteps.OneWorker(s.db.chunks, s.log, s.workers, w);
      IngestEndsBatch(s.db, s.log, s.workers[w]);
      OwnedAfterBatch(s.db.chunks, s.workers, w, AfterComplete(s.db, JobsOf(KeptBy(s.workers[w]))).chunks, lost);
    }
  }

  lemma FailKeepsOwned(s: State, w: nat, lost: set<nat>)
    requires WorkersOk(s.db.chunks, s.log, s.workers) && Owned(s.db.chunks, s.workers, lost)
    ensures Owned(DoFail(s, w).db.chunks, DoFail(s, w).workers, lost)
  {
    hide WorkersOk, Owned, Listed, AfterFail;
    if s.Free() && w in s.workers {
      var jobs := s.workers[w].jobs;
      WorkerSteps.OneWorker(s.db.chunks, s.log, s.workers, w);
      WorkerSteps.FailedRows(s.db, jobs, jobs[0].fileId);
      OwnedAfterBatch(s.db.chunks, s.workers, w, AfterFail(s.db, jobs).chunks, lost);
    }
  }

  lemma ClaimKeepsOwned(s: State, w: nat, limit: Option<nat>, lost: set<nat>)
    requires Owned(s.db.chunks, s.workers, lost)
    ensures Owned(DoClaim(s, w, limit).db.chunks, DoClaim(s, w, limit).workers, lost)
  {
    if s.Free() && w !in s.workers {
      OwnedAfterClaim(s.db, s.workers, w, BatchLimit(limit), lost);
    }
  }

  /** Some rows of a worker are completed, and it goes on with the others, if any. */
  lemma OwnedAfterSift(chunks: seq<ChunkRow>, workers: map<nat, Worker>, w: nat, after: seq<ChunkRow>, next: Worker, lost: set<nat>)
    requires Owned(chunks, workers, lost) && w in workers && |after| == |chunks| && next.jobs == workers[w].jobs
    requires forall i | 0 <= i < |after| :: after[i].status == Processing ==> chunks[i].status == Processing
    ensures Owned(after, workers[w := next], lost)
  {
    OwnedStays(chunks, workers, after, workers[w := next], lost);
  }

  lemma SiftEndsBatch(db: Db, log: map<FileId, seq<Accepted>>, worker: Worker)
    requires WorkerOk(db.chunks, log, worker) && worker.Reading? && |worker.texts| == |worker.jobs|
    ensures var after := AfterComplete(db, Empty(worker.jobs, worker.texts)).chunks;
            && |after| == |db.chunks|
            && (forall i | 0 <= i < |after| :: after[i].status == Processing ==> db.chunks[i].status == Processing)
            && (Kept(worker.jobs, worker.texts) == [] ==>
                  forall i | 0 <= i < |after| && i in Ids(worker.jobs) :: after[i].status != Processing)
  {
    hide AfterComplete, Held, Kept, Empty;
    var empty := Empty(worker.jobs, worker.texts);
    var after := AfterComplete(db, empty).chunks;
    WorkerSteps.ReadingHolds(db.chunks, log, worker);
    EmptyHeld(db.chunks, worker.jobs, worker.texts, worker.jobs[0].fileId);
    WorkerSteps.CompletedRows(db, empty, worker.jobs[0].fileId);
    forall i | 0 <= i < |after| && i in Ids(worker.jobs) && Kept(worker.jobs, worker.texts) == []
      ensures after[i].status != Processing
    {
      KeptOrEmpty(worker.jobs, worker.texts, i);
    }
  }

  lemma SiftKeepsOwned(s: State, w: nat, lost: set<nat>)
    requires WorkersOk(s.db.chunks, s.log, s.workers) && Owned(s.db.chunks, s.workers, lost)
    ensures Owned(DoSift(s, w).db.chunks, DoSift(s, w).workers, lost)
  {
    hide WorkersOk, Owned, Kept, Empty, DoSift, AfterComplete;
    if s.up && w in s.workers && s.workers[w].Reading? && |s.workers[w].texts| == |s.workers[w].jobs| {
      var jobs, texts := s.workers[w].jobs, s.workers[w].texts;
      var after := AfterComplete(s.db, Empty(jobs, texts)).chunks;
      WorkerSteps.OneWorker(s.db.chunks, s.log, s.workers, w);
      WorkerSteps.SiftIs(s, w);
      SiftEndsBatch(s.db, s.log, s.workers[w]);
      NothingCompleted(s.db, Empty(jobs, texts));
      if Kept(jobs, texts) == [] {
        OwnedAfterBatch(s.db.chunks, s.workers, w, after, lost);
      } else {
        OwnedAfterSift(s.db.chunks, s.workers, w, after, Ingesting(jobs, texts), lost);
      }
    } else {
      WorkerSteps.NoSift(s, w);
    }
  }

  lemma NothingCompleted(db: Db, part: seq<Job>)
    ensures |part| == 0 ==> AfterComplete(db, part) == db
  {
  }

  /** Queued rows are pending. */
  lemma AppendKeepsOwned(chunks: seq<ChunkRow>, workers: map<nat, Worker>, rows: seq<ChunkRow>, lost: set<nat>)
    requires Owned(chunks, workers, lost) && forall k | 0 <= k < |rows| :: rows[k].status == Pending
    ensures Owned(chunks + rows, workers, lost)
  {
    OwnedStays(chunks, workers, chunks + rows, workers, lost);
  }

  lemma PutKeepsOwned(db: Db, workers: map<nat, Worker>, p: Put, lost: set<nat>)
    requires TablesOk(db) && p.f in db.files && db.files[p.f] == p.row && p.row.upload != Completed
    requires Owned(db.chunks, workers, lost)
    ensures Owned(AfterPut(db, p.f, p.row, p.body).chunks, workers, lost)
  {
    UploadSteps.CommitTables(db, p.f, p.row, p.body);
    AppendKeepsOwned(db.chunks, workers, NewRows(p.f, FeedBody(p.row, p.body).passages, p.row.nextSequence), lost);
  }

  lemma CommitKeepsOwned(s: State, lost: set<nat>)
    requires TablesOk(s.db) && PutOk(s.db.files, s.log, s.disk, s.put) && Owned(s.db.chunks, s.workers, lost)
    ensures Owned(DoPutCommit(s).db.chunks, DoPutCommit(s).workers, lost)
  {
    if s.put.Some? {
      PutKeepsOwned(s.db, s.workers, s.put.value, lost);
    }
  }

  lemma CloseKeepsOwned(s: State, r: nat, f: FileId, owner: string, lost: set<nat>)
    requires TablesOk(s.db) && Owned(s.db.chunks, s.workers, lost)
    ensures Owned(DoCompleteClose(s, r, f, owner).db.chunks, DoCompleteClose(s, r, f, owner).workers, lost)
  {
    hide Drain, TablesOk, RowCounted, RowSettled, InsertPending;
    if s.Free() && r !in s.completions && CompleteError(s.db, f, owner).None? && s.db.files[f].upload != Completed {
      var row := s.db.files[f];
      UploadSteps.CloseTables(s.db, f, row);
      AppendKeepsOwned(s.db.chunks, s.workers, NewRows(f, FlushRow(row).passages, row.nextSequence), lost);
    }
  }

  /** Steps after which every worker has the jobs it had and the rows are as they
      were. */
  predicate LeavesJobs(l: Label) {
    || l.Create? || l.PutCheck? || l.PutTrim? || l.PutWrite? || l.PutAbort? || l.CompleteLook? || l.CompleteMove?
    || l.CompleteFinish? || l.CompleteDrop? || l.Read? || l.Upsert?
  }

  lemma JobsLeft(s: State, l: Label)
    requires LeavesJobs(l)
    ensures var t := Step(s, l);
            t.db.chunks == s.db.chunks && forall w | w in s.workers :: w in t.workers && t.workers[w].jobs == s.workers[w].jobs
  {
    hide PutError, KeptBy, Advance, DoPutCommit, DoCompleteClose, DoClaim, DoSift, DoIngestOk, DoFail, AfterRecover;
  }

  lemma CrashKeepsOwned(s: State, l: Label, lost: set<nat>)
    requires l.Crash? || l.Recover?
    requires s.up ==> Owned(s.db.chunks, s.workers, lost)
    ensures Step(s, l).up ==> Owned(Step(s, l).db.chunks, Step(s, l).workers, lost)
  {
    hide Drain, FeedBody, FlushRow, AfterPut, AfterFinalizing, AfterCompleted;
  }

  lemma StepKeepsOwned(s: State, l: Label, lost: set<nat>)
    requires Inv(s) && !l.Abandon? && (s.up ==> Owned(s.db.chunks, s.workers, lost))
    ensures Step(s, l).up ==> Owned(Step(s, l).db.chunks, Step(s, l).workers, lost)
  {
    hide Drain, WorkersOk, WorkerOk, FileStream, AfterPut, AfterFinalizing, AfterCompleted, DoSift, DoIngestOk, DoFail, DoClaim,
         DoPutCommit, DoCompleteClose;
    if l.Crash? || l.Recover? {
      CrashKeepsOwned(s, l, lost);
    } else if s.up {
      if LeavesJobs(l) {
        JobsLeft(s, l);
        OwnedStays(s.db.chunks, s.workers, s.db.chunks, Step(s, l).workers, lost);
      } else {
        match l
        case PutCommit => CommitKeepsOwned(s, lost);
        case CompleteClose(r, f, owner) => CloseKeepsOwned(s, r, f, owner, lost);
        case Claim(w, limit) => ClaimKeepsOwned(s, w, limit, lost);
        case Sift(w) => SiftKeepsOwned(s, w, lost);
        case IngestOk(w) => IngestKeepsOwned(s, w, lost);
        case Fail(w) => FailKeepsOwned(s, w, lost);
      }
    } else {
      StaysDown(s, l);
    }
  }

  lemma StaysDown(s: State, l: Label)
    requires !s.up && !l.Recover?
    ensures !Step(s, l).up
  {
    hide Drain, FeedBody, FlushRow, AfterPut, AfterFinalizing, AfterCompleted;
  }

  /** Rows whose worker lost its batch, because even recording the failure failed, and
      that no crash has freed since. */
  function Lost(labels: seq<Label>): set<nat> {
    if |labels| == 0 then {}
    else
      var before, l := labels[..|labels| - 1], labels[|labels| - 1];
      match l
      case Abandon(w) =>
        Lost(before) + (if w in Run(before).workers then Recounts.RowsOf(Run(before).workers[w].jobs) else {})
      case Crash => {}
      case _ => Lost(before)
  }

  lemma AbandonKeepsOwned(chunks: seq<ChunkRow>, workers: map<nat, Worker>, w: nat, lost: set<nat>)
    requires Owned(chunks, workers, lost)
    ensures Owned(chunks, workers - {w}, lost + (if w in workers then Recounts.RowsOf(workers[w].jobs) else {}))
  {
    var more := lost + (if w in workers then Recounts.RowsOf(workers[w].jobs) else {});
    forall i | 0 <= i < |chunks| && chunks[i].status == Processing && i !in more
      ensures exists v, k :: HeldBy(workers - {w}, v, k, i)
    {
      var v: nat, k: nat :| HeldBy(workers, v, k, i);
      assert HeldBy(workers - {w}, v, k, i);
    }
  }

  lemma NextOwned(s: State, l: Label, lost: set<nat>, more: set<nat>)
    requires Inv(s) && (s.up ==> Owned(s.db.chunks, s.workers, lost))
    requires l.Abandon? ==> more == lost + (if l.w in s.workers then Recounts.RowsOf(s.workers[l.w].jobs) else {})
    requires !l.Abandon? && !l.Crash? ==> more == lost
    ensures Step(s, l).up ==> Owned(Step(s, l).db.chunks, Step(s, l).workers, more)
  {
    hide Inv, Owned, Recounts.RowsOf;
    if l.Abandon? {
      if s.up {
        AbandonKeepsOwned(s.db.chunks, s.workers, l.w, lost);
      }
    } else if !l.Crash? {
      StepKeepsOwned(s, l, lost);
    }
  }

  /** In every run, a running process has a worker for every row in processing, but for
      the rows of batches that were lost: no other row is stranded, and a crash frees
      those too. */
  lemma {:induction false} NoRowIsStranded(labels: seq<Label>)
    ensures Run(labels).up ==> Owned(Run(labels).db.chunks, Run(labels).workers, Lost(labels))
  {
    hide Inv, Step, Owned, Recounts.RowsOf;
    if |labels| > 0 {
      var before, l := labels[..|labels| - 1], labels[|labels| - 1];
      NoRowIsStranded(before);
      RunKeepsInv(before);
      NextOwned(Run(before), l, Lost(before), Lost(labels));
    }
  }

  // -------------------------------------------------------------------- recovery

  /** Nothing is claimed or in progress any more; rows that were being processed are
      pending, and everything else is as it was. */
  ghost predicate Recovered(s: State, t: State) {
    && t.up && t.workers == map[] && t.completions == map[] && t.put.None?
    && t.log == s.log && t.disk == s.disk && t.points == s.points
    && |t.db.chunks| == |s.db.chunks|
    && forall i | 0 <= i < |s.db.chunks| ::
         t.db.chunks[i] == if s.db.chunks[i].status == Processing then s.db.chunks[i].(status := Pending) else s.db.chunks[i]
  }

  lemma CrashAndRecover(s: State)
    ensures Recovered(s, Step(Step(s, Crash), Recover))
  {
    hide FeedBody, FlushRow;
  }

  /** A crash and a restart drop all claims and requests and return exactly the rows
      that were being processed to the queue, retries untouched; the committed
      bytes, the disk and the points are as they were. */
  lemma RecoveryReturnsClaims(labels: seq<Label>)
    ensures Recovered(Run(labels), Run(labels + [Crash, Recover]))
  {
    hide Drain, FeedBody, FlushRow, Step;
    RunTwoMore(labels, Crash, Recover);
    CrashAndRecover(Run(labels));
  }

  // ---------------------------------------------------------------- oldest first

  /** No two rows of the file have the same sequence number. */
  ghost predicate DistinctSequences(chunks: seq<ChunkRow>, f: FileId) {
    forall i, j | 0 <= i < j < |chunks| && chunks[i].fileId == f && chunks[j].fileId == f ::
      chunks[i].sequence < chunks[j].sequence
  }

  /** A pending row that was not selected comes after all that were, and only
      because the limit was reached. */
  lemma {:induction false} SelectsEarliest(chunks: seq<ChunkRow>, f: FileId, after: int, limit: nat, i: nat)
    requires DistinctSequences(chunks, f) && Eligible(chunks, f, after, i)
    ensures var ids := SelectPending(chunks, f, after, limit);
            i in ids || (|ids| == limit && forall k | 0 <= k < |ids| :: chunks[ids[k]].sequence < chunks[i].sequence)
    decreases limit
  {
    if limit > 0 {
      var first := NextPending(chunks, f, after, |chunks|).value;
      if i != first {
        SelectsEarliest(chunks, f, chunks[first].sequence, limit - 1, i);
      }
    }
  }

  /** The first row selected is the oldest pending row of all. */
  lemma FirstIsOldest(chunks: seq<ChunkRow>, limit: nat)
    requires limit > 0 && OldestPending(chunks, 0).Some?
    requires DistinctSequences(chunks, chunks[OldestPending(chunks, 0).value].fileId)
    ensures |BatchIds(chunks, limit)| > 0 && BatchIds(chunks, limit)[0] == OldestPending(chunks, 0).value
  {
    var o := OldestPending(chunks, 0).value;
    var f := chunks[o].fileId;
    assert Eligible(chunks, f, -1, o);
    var first := NextPending(chunks, f, -1, |chunks|).value;
    assert Eligible(chunks, f, -1, first);
  }

  /** The first job is the oldest pending row of the whole queue. */
  ghost predicate StartsOldest(chunks: seq<ChunkRow>, jobs: seq<Job>) {
    if |jobs| == 0 then forall q | 0 <= q < |chunks| :: chunks[q].status != Pending
    else
      && jobs[0].chunkId < |chunks| && chunks[jobs[0].chunkId].status == Pending
      && forall q | 0 <= q < jobs[0].chunkId :: chunks[q].status != Pending
  }

  /** Jobs of one file, in order. */
  ghost predicate InOrder(jobs: seq<Job>) {
    forall j, k | 0 <= j < k < |jobs| ::
      jobs[j].fileId == jobs[k].fileId && jobs[j].sequence < jobs[k].sequence && jobs[j].chunkId < jobs[k].chunkId
  }

  lemma BatchStartsOldest(db: Db, limit: nat)
    requires Numbered(Keys(db.chunks)) && limit > 0
    ensures StartsOldest(db.chunks, BatchJobs(db, limit))
  {
    BatchIsPending(db, limit);
    if OldestPending(db.chunks, 0).Some? {
      EndToEnd.SequencesOf(db.chunks, db.chunks[OldestPending(db.chunks, 0).value].fileId, 0);
      FirstIsOldest(db.chunks, limit);
    }
  }

  lemma BatchLeavesLater(db: Db, limit: nat, i: nat)
    requires Numbered(Keys(db.chunks)) && limit > 0 && |BatchJobs(db, limit)| > 0
    requires i < |db.chunks| && db.chunks[i].status == Pending && db.chunks[i].fileId == BatchJobs(db, limit)[0].fileId
    requires i !in BatchIds(db.chunks, limit)
    ensures var ids := BatchIds(db.chunks, limit);
            |ids| == limit && ids[limit - 1] < i
  {
    var f, ids := db.chunks[i].fileId, BatchIds(db.chunks, limit);
    EndToEnd.SequencesOf(db.chunks, f, 0);
    assert Eligible(db.chunks, f, -1, i);
    SelectsEarliest(db.chunks, f, -1, limit, i);
    IdsFollowSequences(Keys(db.chunks), ids[limit - 1], i);
  }

  /** Exactly so many rows as there are, up to the limit; and nothing is left behind for
      something later: a pending row of the batch's file that is not in it comes after it. */
  ghost predicate TakesEarliest(chunks: seq<ChunkRow>, jobs: seq<Job>, limit: nat) {
    |jobs| > 0 ==>
      && |jobs| == Min(limit, CountAll(chunks, jobs[0].fileId, Pending))
      && forall i | 0 <= i < |chunks| && chunks[i].status == Pending && chunks[i].fileId == jobs[0].fileId ::
           i in Ids(jobs) || (|jobs| == limit && jobs[|jobs| - 1].chunkId < i)
  }

  lemma {:induction false} NoneCounted(chunks: seq<ChunkRow>, f: FileId, status: ChunkStatus, n: nat)
    requires n <= |chunks| && forall i | 0 <= i < n && chunks[i].fileId == f :: chunks[i].status != status
    ensures Count(chunks, f, status, n) == 0
  {
    if n > 0 {
      NoneCounted(chunks, f, status, n - 1);
    }
  }

  /** Distinct pending rows of a file are no more than it has, and as many when no other
      is pending. */
  lemma PendingTaken(chunks: seq<ChunkRow>, ids: seq<nat>, f: FileId)
    requires Distinct(ids) && AllWith(chunks, ids, f, Pending)
    ensures |ids| <= CountAll(chunks, f, Pending)
    ensures (forall i | 0 <= i < |chunks| && chunks[i].status == Pending && chunks[i].fileId == f :: i in ids) ==>
              |ids| == CountAll(chunks, f, Pending)
  {
    var marked := Mark(chunks, ids, Processing, 0);
    CountMark(chunks, ids, f, Processing, 0, f, Pending);
    AmongSame(chunks, ids, f, Pending, Pending);
    if forall i | 0 <= i < |chunks| && chunks[i].status == Pending && chunks[i].fileId == f :: i in ids {
      forall i | 0 <= i < |marked| && marked[i].fileId == f
        ensures marked[i].status != Pending
      {
        MarkAt(chunks, ids, Processing, 0, i);
      }
      NoneCounted(marked, f, Pending, |marked|);
    }
  }

  /** The size of a batch. */
  lemma BatchCount(db: Db, limit: nat)
    requires Numbered(Keys(db.chunks)) && limit > 0 && |BatchJobs(db, limit)| > 0
    ensures |BatchJobs(db, limit)| == Min(limit, CountAll(db.chunks, BatchJobs(db, limit)[0].fileId, Pending))
  {
    var ids, f := BatchIds(db.chunks, limit), BatchJobs(db, limit)[0].fileId;
    BatchIsPending(db, limit);
    PendingTaken(db.chunks, ids, f);
    if |ids| < limit {
      forall i | 0 <= i < |db.chunks| && db.chunks[i].status == Pending && db.chunks[i].fileId == f
        ensures i in ids
      {
        if i !in ids {
          BatchLeavesLater(db, limit, i);
        }
      }
    }
  }

  /** A claim is empty only when nothing is pending; otherwise its first job is the
      oldest pending row of the whole queue, and the batch is a run, in order, of the
      earliest pending rows of that row's file: all of them, or as many as the limit
      says, which is the configured batch size unless another is given. */
  lemma ClaimsAreOldestFirst(labels: seq<Label>, w: nat, limit: Option<nat>)
    requires Run(labels).Free() && w !in Run(labels).workers
    ensures var s, t := Run(labels), Run(labels + [Claim(w, limit)]);
            && (w in t.workers <==> exists i | 0 <= i < |s.db.chunks| :: s.db.chunks[i].status == Pending)
            && (w in t.workers ==>
                  var jobs := t.workers[w].jobs;
                  && |jobs| > 0 && StartsOldest(s.db.chunks, jobs) && InOrder(jobs)
                  && (limit == None || limit == Some(0) ==> TakesEarliest(s.db.chunks, jobs, Config.CLAIM_BATCH_SIZE))
                  && (limit.Some? && limit.value > 0 ==> TakesEarliest(s.db.chunks, jobs, limit.value)))
  {
    hide Run, TablesOk, BatchJobs, StartsOldest, InOrder, TakesEarliest, AfterClaim;
    var s := Run(labels);
    TablesOfRun(labels);
    RunAndClaim(labels, w, limit, s);
    BatchIsOldestFirst(s.db, BatchLimit(limit));
    EmptyOrPending(s.db, BatchLimit(limit));
  }

  lemma RunAndClaim(labels: seq<Label>, w: nat, limit: Option<nat>, s: State)
    requires Run(labels) == s
    ensures Run(labels + [Claim(w, limit)]) == DoClaim(s, w, limit)
  {
    hide Run, Drain;
    RunOneMore(labels, Claim(w, limit));
  }

  lemma EmptyOrPending(db: Db, limit: nat)
    requires limit > 0 && StartsOldest(db.chunks, BatchJobs(db, limit))
    ensures |BatchJobs(db, limit)| > 0 <==> exists i | 0 <= i < |db.chunks| :: db.chunks[i].status == Pending
  {
    hide BatchJobs;
  }

  /** What a worker claims for itself is such a batch of the configured size. */
  lemma WorkersBatch(db: Db)
    requires TablesOk(db)
    ensures var jobs := Indexing.Batch(db);
            && StartsOldest(db.chunks, jobs) && InOrder(jobs) && TakesEarliest(db.chunks, jobs, Config.CLAIM_BATCH_SIZE)
  {
    hide TablesOk, BatchJobs, StartsOldest, InOrder, TakesEarliest;
    BatchIsOldestFirst(db, BatchLimit(None));
  }

  /** A file whose rows are claimed is in progress, or past that; nothing else about any
      file changes, and the rows that were claimed are in processing, the others as before. */
  lemma ClaimMarks(labels: seq<Label>, w: nat, limit: Option<nat>)
    requires Run(labels).Free() && w !in Run(labels).workers
    ensures var s, t := Run(labels), Run(labels + [Claim(w, limit)]);
            w in t.workers ==>
              var jobs := t.workers[w].jobs;
              && |jobs| > 0 && jobs[0].fileId in s.db.files && t.db.files.Keys == s.db.files.Keys
              && (forall f | f in s.db.files ::
                    t.db.files[f] == s.db.files[f].(processing :=
                      if f == jobs[0].fileId && s.db.files[f].processing == Waiting then Running else s.db.files[f].processing))
              && |t.db.chunks| == |s.db.chunks|
              && (forall i | 0 <= i < |s.db.chunks| ::
                    t.db.chunks[i] == if i in Ids(jobs) then s.db.chunks[i].(status := Processing) else s.db.chunks[i])
  {
    hide Run, TablesOk, BatchJobs, Mark;
    var s := Run(labels);
    TablesOfRun(labels);
    RunAndClaim(labels, w, limit, s);
    var jobs := BatchJobs(s.db, BatchLimit(limit));
    if |jobs| > 0 {
      ClaimedFile(s.db, BatchLimit(limit));
      forall i | 0 <= i < |s.db.chunks|
        ensures AfterClaim(s.db, BatchLimit(limit)).chunks[i]
             == if i in Ids(jobs) then s.db.chunks[i].(status := Processing) else s.db.chunks[i]
      {
        Indexing.RowAfterClaim(s.db, BatchLimit(limit), i);
      }
    }
  }

  lemma ClaimedFile(db: Db, limit: nat)
    requires TablesOk(db) && |BatchJobs(db, limit)| > 0
    ensures BatchJobs(db, limit)[0].fileId in db.files
  {
    hide BatchJobs;
    BatchWasPending(db, limit);
  }

  lemma BatchIsOldestFirst(db: Db, limit: nat)
    requires TablesOk(db) && limit > 0
    ensures var jobs := BatchJobs(db, limit);
            StartsOldest(db.chunks, jobs) && InOrder(jobs) && TakesEarliest(db.chunks, jobs, limit)
  {
    hide BatchJobs, StartsOldest, InOrder, TakesEarliest, Counted, RetriesBounded, TerminalSettled, RowsOwned;
    BatchStartsOldest(db, limit);
    BatchInOrder(db, limit);
    BatchTakesEarliest(db, limit);
  }

  lemma BatchTakesEarliest(db: Db, limit: nat)
    requires Numbered(Keys(db.chunks)) && limit > 0
    ensures TakesEarliest(db.chunks, BatchJobs(db, limit), limit)
  {
    var jobs := BatchJobs(db, limit);
    BatchIsPending(db, limit);
    if |jobs| > 0 {
      BatchCount(db, limit);
    }
    forall i | 0 <= i < |db.chunks| && |jobs| > 0 && db.chunks[i].status == Pending && db.chunks[i].fileId == jobs[0].fileId
      ensures i in Ids(jobs) || (|jobs| == limit && jobs[|jobs| - 1].chunkId < i)
    {
      if i !in Ids(jobs) {
        BatchLeavesLater(db, limit, i);
      }
    }
  }

  lemma BatchInOrder(db: Db, limit: nat)
    requires Numbered(Keys(db.chunks))
    ensures InOrder(BatchJobs(db, limit))
  {
    var jobs, ids := BatchJobs(db, limit), BatchIds(db.chunks, limit);
    forall j, k | 0 <= j < k < |jobs|
      ensures jobs[j].fileId == jobs[k].fileId && jobs[j].sequence < jobs[k].sequence && jobs[j].chunkId < jobs[k].chunkId
    {
      IdsFollowSequences(Keys(db.chunks), ids[j], ids[k]);
    }
  }
}
