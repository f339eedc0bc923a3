/** What a read that found nothing leads to: a row that is indexed without a point, and,
    if its batch fails after all, a row that is counted and goes back to the queue. */
module Recounts {
  import opened Bytes
  import opened Chunker
  import opened Tables
  import opened Storage
  import opened JobQueue
  import opened UploadService
  import opened Accounting
  import opened QueueLaws
  import opened EnqueueLaws
  import opened Pipeline
  import opened Batches
  import opened Invariant
  import opened Frames
  import opened Reachable
  import opened Straddles
  import History
  import UploadSteps
  import WorkerSteps

  // ------------------------------------------------------------- counted again

  /** How many rows of `f` the step sends back to the queue that are counted as
      indexed: those that a failing batch had completed as empty. */
  function RecountedBy(s: State, l: Label, f: FileId): nat {
    if l.Fail? && s.Free() && l.w in s.workers && s.workers[l.w].Ingesting?
       && |s.workers[l.w].texts| == |s.workers[l.w].jobs| > 0 && s.workers[l.w].jobs[0].fileId == f
    then |Empty(s.workers[l.w].jobs, s.workers[l.w].texts)|
    else 0
  }

  function Recounted(labels: seq<Label>, f: FileId): nat {
    if |labels| == 0 then 0
    else Recounted(labels[..|labels| - 1], f) + RecountedBy(Run(labels[..|labels| - 1]), labels[|labels| - 1], f)
  }

  /** A file's excess, none before it exists. */
  function ExcessIn(db: Db, f: FileId): int {
    if f in db.files then ExcessOf(db, f) else 0
  }

  lemma CreatedExcess(s: State, g: FileId, owner: string, totalSize: nat, f: FileId)
    requires TablesOk(s.db)
    ensures ExcessIn(DoCreate(s, g, owner, totalSize).db, f) == ExcessIn(s.db, f)
  {
    if s.Free() && g !in s.db.files {
      CreateKeepsTables(s.db, g, NewFile(owner, totalSize));
      NoExcessYet(DoCreate(s, g, owner, totalSize).db, g);
    }
  }

  lemma NoExcessYet(db: Db, f: FileId)
    requires TablesOk(db) && f in db.files && db.files[f].chunksIndexed == 0
    ensures ExcessOf(db, f) == 0
  {
    assert RowCounted(db.files[f], db.chunks, f);
  }

  lemma CommitExcess(s: State, f: FileId)
    requires TablesOk(s.db) && PutOk(s.db.files, s.log, s.disk, s.put)
    ensures ExcessIn(DoPutCommit(s).db, f) == ExcessIn(s.db, f)
  {
    hide TablesOk, AfterPut, FeedBody, ExcessOf;
    if s.put.Some? {
      UploadSteps.CommitTables(s.db, s.put.value.f, s.put.value.row, s.put.value.body);
    }
  }

  lemma CloseExcess(s: State, r: nat, g: FileId, owner: string, f: FileId)
    requires TablesOk(s.db)
    ensures ExcessIn(DoCompleteClose(s, r, g, owner).db, f) == ExcessIn(s.db, f)
  {
    hide TablesOk, AfterFinalizing, FlushRow, ExcessOf;
    if g in s.db.files && s.db.files[g].upload != Completed {
      UploadSteps.CloseTables(s.db, g, s.db.files[g]);
    }
  }

  lemma FinishExcess(s: State, r: nat, f: FileId)
    ensures ExcessIn(DoCompleteFinish(s, r).db, f) == ExcessIn(s.db, f)
  {
  }

  lemma UploadExcess(s: State, l: Label, f: FileId)
    requires TablesOk(s.db) && PutOk(s.db.files, s.log, s.disk, s.put)
    requires l.Create? || l.PutCommit? || l.CompleteClose? || l.CompleteFinish?
    ensures ExcessIn(Step(s, l).db, f) == ExcessIn(s.db, f)
  {
    hide TablesOk, DoCreate, DoPutCommit, DoCompleteClose, DoCompleteFinish, ExcessIn;
    match l
    case Create(g, owner, totalSize) => CreatedExcess(s, g, owner, totalSize, f);
    case PutCommit => CommitExcess(s, f);
    case CompleteClose(r, g, owner) => CloseExcess(s, r, g, owner, f);
    case CompleteFinish(r) => FinishExcess(s, r, f);
  }

  lemma SiftExcess(s: State, w: nat, f: FileId)
    requires TablesOk(s.db) && WorkersOk(s.db.chunks, s.log, s.workers)
    ensures ExcessIn(DoSift(s, w).db, f) == ExcessIn(s.db, f)
  {
    hide TablesOk, WorkersOk, Held, Kept, Empty, DoSift, AfterComplete, ExcessOf;
    if s.up && w in s.workers && s.workers[w].Reading? && |s.workers[w].texts| == |s.workers[w].jobs| {
      WorkerSteps.OneWorker(s.db.chunks, s.log, s.workers, w);
      WorkerSteps.SiftIs(s, w);
      WorkerSteps.SiftKeepsWorkers(s.db, s.log, s.workers, w);
      CompleteKeepsTables(s.db, Empty(s.workers[w].jobs, s.workers[w].texts), s.workers[w].jobs[0].fileId);
    } else {
      WorkerSteps.NoSift(s, w);
    }
  }

  lemma IngestExcess(s: State, w: nat, f: FileId)
    requires TablesOk(s.db) && WorkersOk(s.db.chunks, s.log, s.workers)
    ensures ExcessIn(DoIngestOk(s, w).db, f) == ExcessIn(s.db, f)
  {
    hide TablesOk, WorkersOk, Held, KeptBy, JobsOf, AfterComplete, ExcessOf;
    if s.Free() && w in s.workers && s.workers[w].Ingesting? {
      WorkerSteps.OneWorker(s.db.chunks, s.log, s.workers, w);
      WorkerSteps.IngestedJobs(s.db.chunks, s.log, s.workers, w);
      CompleteKeepsTables(s.db, JobsOf(KeptBy(s.workers[w])), s.workers[w].jobs[0].fileId);
    }
  }

  /** Of the jobs of a worker, as many rows are indexed as it found empty and completed. */
  lemma IndexedOfBatch(chunks: seq<ChunkRow>, log: map<FileId, seq<Accepted>>, worker: Worker)
    requires WorkerOk(chunks, log, worker)
    ensures Among(chunks, Ids(worker.jobs), Indexed) == if worker.Ingesting? then |Empty(worker.jobs, worker.texts)| else 0
  {
    if worker.Ingesting? {
      WorkerSteps.IngestingHolds(chunks, log, worker);
    } else {
      WorkerSteps.ReadingHolds(chunks, log, worker);
      HeldRows(chunks, worker.jobs, worker.jobs[0].fileId);
      AmongSame(chunks, Ids(worker.jobs), worker.jobs[0].fileId, Processing, Indexed);
    }
  }

  lemma FailExcess(s: State, w: nat, f: FileId)
    requires TablesOk(s.db) && WorkersOk(s.db.chunks, s.log, s.workers)
    requires f in s.db.files || RecountedBy(s, Fail(w), f) == 0
    ensures ExcessIn(DoFail(s, w).db, f) == ExcessIn(s.db, f) + RecountedBy(s, Fail(w), f)
  {
    hide TablesOk, WorkersOk, Listed, ListedJob, AfterFail, ExcessOf, Among, Empty;
    if s.Free() && w in s.workers {
      var jobs := s.workers[w].jobs;
      WorkerSteps.OneWorker(s.db.chunks, s.log, s.workers, w);
      FailKeepsTables(s.db, jobs, jobs[0].fileId);
      IndexedOfBatch(s.db.chunks, s.log, s.workers[w]);
      WholeTexts(s.db.chunks, s.log, s.workers[w]);
    }
  }

  lemma WholeTexts(chunks: seq<ChunkRow>, log: map<FileId, seq<Accepted>>, worker: Worker)
    requires WorkerOk(chunks, log, worker)
    ensures worker.Ingesting? ==> |worker.texts| == |worker.jobs|
  {
  }

  /** Only files that exist have workers. */
  lemma NoFileNoRecount(s: State, l: Label, f: FileId)
    requires TablesOk(s.db) && WorkersOk(s.db.chunks, s.log, s.workers) && f !in s.db.files
    ensures RecountedBy(s, l, f) == 0
  {
    hide Empty;
    if l.Fail? && l.w in s.workers && |s.workers[l.w].jobs| > 0 {
      WorkerSteps.WorkerFacts(s.db.chunks, s.log, s.workers, l.w, 0);
      assert Keys(s.db.chunks)[s.workers[l.w].jobs[0].chunkId].fileId in s.db.files;
    }
  }

  lemma ClaimExcess(s: State, w: nat, limit: Option<nat>, f: FileId)
    requires TablesOk(s.db)
    ensures ExcessIn(DoClaim(s, w, limit).db, f) == ExcessIn(s.db, f)
  {
    hide TablesOk, BatchJobs, AfterClaim, ExcessOf;
    ClaimKeepsTables(s.db, BatchLimit(limit));
  }

  lemma RecoverExcess(s: State, f: FileId)
    requires TablesOk(s.db)
    ensures ExcessIn(Step(s, Recover).db, f) == ExcessIn(s.db, f)
  {
    hide TablesOk, AfterRecover, ExcessOf, AfterPut, AfterFinalizing;
    RecoverKeepsTables(s.db);
  }

  lemma OtherExcess(s: State, l: Label, f: FileId)
    requires TablesOk(s.db) && WorkersOk(s.db.chunks, s.log, s.workers)
    requires l.Claim? || l.Sift? || l.IngestOk? || l.Recover?
    ensures ExcessIn(Step(s, l).db, f) == ExcessIn(s.db, f)
  {
    hide TablesOk, WorkersOk, DoClaim, DoSift, DoIngestOk, ExcessIn, AfterRecover;
    match l
    case Claim(w, limit) => ClaimExcess(s, w, limit, f);
    case Sift(w) => SiftExcess(s, w, f);
    case IngestOk(w) => IngestExcess(s, w, f);
    case Recover => RecoverExcess(s, f);
  }

  lemma ExcessByStep(s: State, l: Label, f: FileId)
    requires Inv(s)
    ensures ExcessIn(Step(s, l).db, f) == ExcessIn(s.db, f) + RecountedBy(s, l, f)
  {
    hide TablesOk, StreamsOk, DiskOk, PointsOk, WorkersOk, PutOk, CompletionsOk, Step, ExcessIn;
    if History.LeavesTables(l) {
      History.TablesLeft(s, l);
    } else if l.Fail? {
      if f !in s.db.files {
        NoFileNoRecount(s, l, f);
      }
      FailExcess(s, l.w, f);
      FailIs(s, l.w);
    } else if l.Claim? || l.Sift? || l.IngestOk? || l.Recover? {
      OtherExcess(s, l, f);
    } else {
      UploadExcess(s, l, f);
    }
  }

  lemma FailIs(s: State, w: nat)
    ensures Step(s, Fail(w)) == DoFail(s, w)
  {
  }

  /** In every run the counter of a file's indexed rows is too high by exactly the rows
      that were completed as empty and then failed with their batch. */
  lemma {:induction false} ExcessInRun(labels: seq<Label>, f: FileId)
    ensures ExcessIn(Run(labels).db, f) == Recounted(labels, f)
  {
    hide Inv, Step, RecountedBy;
    if |labels| > 0 {
      var before, l := labels[..|labels| - 1], labels[|labels| - 1];
      ExcessInRun(before, f);
      RunKeepsInv(before);
      ExcessByStep(Run(before), l, f);
    }
  }

  /** Without a straddled read there is none. */
  lemma {:induction false} RecountIsStraddled(labels: seq<Label>, f: FileId)
    requires Recounted(labels, f) > 0
    ensures Straddled(labels, f)
  {
    hide Inv, Step, Straddles.Straddles, Renames;
    var before, l := labels[..|labels| - 1], labels[|labels| - 1];
    if Recounted(before, f) > 0 {
      RecountIsStraddled(before, f);
    } else {
      EmptyIsTorn(before, l.w);
      TornIsStraddled(before, l.w);
    }
  }

  lemma EmptyIsTorn(labels: seq<Label>, w: nat)
    requires w in Run(labels).workers
    requires var worker := Run(labels).workers[w];
             |worker.texts| == |worker.jobs| && Empty(worker.jobs, worker.texts) != []
    ensures Torn(labels, w) != {}
  {
    hide Run, Torn;
    var worker := Run(labels).workers[w];
    var j := EmptyAt(worker.jobs, worker.texts, 0);
    EmptyExactlyWhen(labels, w, j);
  }

  // -------------------------------------------------------- indexed without a point

  function RowsOf(jobs: seq<Job>): set<nat> {
    set k | 0 <= k < |jobs| :: jobs[k].chunkId
  }

  /** The rows that a batch completes as empty and that have no point from an earlier
      attempt. */
  function MissedBy(s: State, l: Label): set<nat> {
    if l.Sift? && s.Free() && l.w in s.workers && s.workers[l.w].Reading?
       && |s.workers[l.w].texts| == |s.workers[l.w].jobs|
    then
      var empty := Empty(s.workers[l.w].jobs, s.workers[l.w].texts);
      set k | 0 <= k < |empty| && PointId(empty[k]) !in s.points :: empty[k].chunkId
    else {}
  }

  /** The rows of a batch that fails. */
  function FailedBy(s: State, l: Label): set<nat> {
    if l.Fail? && s.Free() && l.w in s.workers then RowsOf(s.workers[l.w].jobs) else {}
  }

  /** Rows that were completed without ever being stored and not worked on since. */
  function Missed(labels: seq<Label>): set<nat> {
    if |labels| == 0 then {}
    else
      var before, l := labels[..|labels| - 1], labels[|labels| - 1];
      (Missed(before) - FailedBy(Run(before), l)) + MissedBy(Run(before), l)
  }

  /** Row `i` is indexed and no point is stored for it. */
  ghost predicate NoPoint(chunks: seq<ChunkRow>, points: map<(FileId, nat), Point>, i: nat) {
    i < |chunks| && chunks[i].status == Indexed && (chunks[i].fileId, chunks[i].sequence) !in points
  }

  ghost predicate MissedOk(chunks: seq<ChunkRow>, points: map<(FileId, nat), Point>, missed: set<nat>) {
    forall i: nat :: NoPoint(chunks, points, i) <==> i in missed
  }

  /** Nothing becomes indexed, nothing indexed changes, and no point is stored. */
  lemma NothingMissed(chunks: seq<ChunkRow>, after: seq<ChunkRow>, points: map<(FileId, nat), Point>, missed: set<nat>)
    requires MissedOk(chunks, points, missed) && |chunks| <= |after|
    requires forall i | 0 <= i < |chunks| :: KeyOf(after[i]) == KeyOf(chunks[i]) && (after[i].status == Indexed <==> chunks[i].status == Indexed)
    requires forall i | |chunks| <= i < |after| :: after[i].status != Indexed
    ensures MissedOk(after, points, missed)
  {
    forall i: nat
      ensures NoPoint(after, points, i) <==> NoPoint(chunks, points, i)
    {
      if i < |chunks| {
        assert KeyOf(after[i]) == KeyOf(chunks[i]);
      }
    }
    forall i: nat
      ensures NoPoint(after, points, i) <==> i in missed
    {
      assert NoPoint(chunks, points, i) <==> i in missed;
    }
  }

  lemma AppendMissed(chunks: seq<ChunkRow>, rows: seq<ChunkRow>, points: map<(FileId, nat), Point>, missed: set<nat>)
    requires MissedOk(chunks, points, missed) && forall k | 0 <= k < |rows| :: rows[k].status == Pending
    ensures MissedOk(chunks + rows, points, missed)
  {
    NothingMissed(chunks, chunks + rows, points, missed);
  }

  lemma CommitMissed(s: State, missed: set<nat>)
    requires TablesOk(s.db) && PutOk(s.db.files, s.log, s.disk, s.put) && MissedOk(s.db.chunks, s.points, missed)
    ensures MissedOk(DoPutCommit(s).db.chunks, DoPutCommit(s).points, missed)
  {
    hide TablesOk, AfterPut, FeedBody, MissedOk, SameExcess;
    if s.put.Some? {
      var p := s.put.value;
      UploadSteps.CommitTables(s.db, p.f, p.row, p.body);
      AppendMissed(s.db.chunks, NewRows(p.f, FeedBody(p.row, p.body).passages, p.row.nextSequence), s.points, missed);
    }
  }

  lemma CloseMissed(s: State, r: nat, f: FileId, owner: string, missed: set<nat>)
    requires TablesOk(s.db) && MissedOk(s.db.chunks, s.points, missed)
    ensures MissedOk(DoCompleteClose(s, r, f, owner).db.chunks, DoCompleteClose(s, r, f, owner).points, missed)
  {
    hide TablesOk, AfterFinalizing, FlushRow, MissedOk, SameExcess;
    if f in s.db.files && s.db.files[f].upload != Completed {
      var row := s.db.files[f];
      UploadSteps.CloseTables(s.db, f, row);
      AppendMissed(s.db.chunks, NewRows(f, FlushRow(row).passages, row.nextSequence), s.points, missed);
    }
  }

  lemma ClaimMissed(s: State, w: nat, limit: Option<nat>, missed: set<nat>)
    requires MissedOk(s.db.chunks, s.points, missed)
    ensures MissedOk(DoClaim(s, w, limit).db.chunks, DoClaim(s, w, limit).points, missed)
  {
    hide Mark, MissedOk;
    var ids, after := BatchIds(s.db.chunks, BatchLimit(limit)), AfterClaim(s.db, BatchLimit(limit)).chunks;
    BatchIsPending(s.db, BatchLimit(limit));
    forall i | 0 <= i < |s.db.chunks|
      ensures KeyOf(after[i]) == KeyOf(s.db.chunks[i]) && (after[i].status == Indexed <==> s.db.chunks[i].status == Indexed)
    {
      MarkAt(s.db.chunks, ids, Processing, 0, i);
    }
    NothingMissed(s.db.chunks, after, s.points, missed);
  }

  lemma RecoverMissed(s: State, missed: set<nat>)
    requires MissedOk(s.db.chunks, s.points, missed)
    ensures MissedOk(Step(s, Recover).db.chunks, Step(s, Recover).points, missed)
  {
    hide MissedOk, AfterPut, AfterFinalizing;
    if !s.up {
      NothingMissed(s.db.chunks, ResetStuck(s.db.chunks), s.points, missed);
    }
  }

  lemma InRows(jobs: seq<Job>, i: nat)
    ensures i in Ids(jobs) <==> i in RowsOf(jobs)
  {
    if i in RowsOf(jobs) {
      var k :| 0 <= k < |jobs| && jobs[k].chunkId == i;
      assert Ids(jobs)[k] == i;
    }
    if i in Ids(jobs) {
      var k :| 0 <= k < |jobs| && Ids(jobs)[k] == i;
      assert jobs[k].chunkId == i;
    }
  }

  /** A failed batch leaves none of its rows indexed. */
  lemma FailMissed(s: State, w: nat, missed: set<nat>)
    requires WorkersOk(s.db.chunks, s.log, s.workers) && MissedOk(s.db.chunks, s.points, missed)
    ensures MissedOk(DoFail(s, w).db.chunks, DoFail(s, w).points, missed - FailedBy(s, Fail(w)))
  {
    hide WorkersOk, Listed, AfterFail, RowsOf, Ids;
    if s.Free() && w in s.workers {
      var jobs := s.workers[w].jobs;
      var after := AfterFail(s.db, jobs).chunks;
      WorkerSteps.OneWorker(s.db.chunks, s.log, s.workers, w);
      WorkerSteps.FailedRows(s.db, jobs, jobs[0].fileId);
      forall i: nat
        ensures NoPoint(after, s.points, i) <==> i in missed - RowsOf(jobs)
      {
        InRows(jobs, i);
        assert NoPoint(s.db.chunks, s.points, i) <==> i in missed;
        if i < |after| {
          assert after[i] == if i in Ids(jobs) then AfterAttempt(s.db.chunks[i]) else s.db.chunks[i];
        }
      }
    } else {
      assert missed - {} == missed;
    }
  }

  /** The rows of `part` are indexed; those of them without a point are missed. */
  lemma CompletedMissed(db: Db, part: seq<Job>, f: FileId, points: map<(FileId, nat), Point>, missed: set<nat>, more: set<nat>)
    requires MissedOk(db.chunks, points, missed) && Held(db.chunks, part, f)
    requires more == set k | 0 <= k < |part| && PointId(part[k]) !in points :: part[k].chunkId
    ensures MissedOk(AfterComplete(db, part).chunks, points, missed + more)
  {
    hide AfterComplete, Held, Ids;
    var after := AfterComplete(db, part).chunks;
    WorkerSteps.CompletedRows(db, part, f);
    forall i: nat
      ensures NoPoint(after, points, i) <==> i in missed + more
    {
      assert NoPoint(db.chunks, points, i) <==> i in missed;
      if i < |after| {
        assert after[i] == if i in Ids(part) then db.chunks[i].(status := Indexed) else db.chunks[i];
      }
      PartOfRow(db.chunks, part, f, points, more, i);
    }
  }

  /** Whether a row is among those of `part` without a point. */
  lemma PartOfRow(chunks: seq<ChunkRow>, part: seq<Job>, f: FileId, points: map<(FileId, nat), Point>, more: set<nat>, i: nat)
    requires Held(chunks, part, f)
    requires more == set k | 0 <= k < |part| && PointId(part[k]) !in points :: part[k].chunkId
    ensures i in more <==> i in Ids(part) && i < |chunks| && (chunks[i].fileId, chunks[i].sequence) !in points
    ensures i in Ids(part) ==> i < |chunks| && chunks[i].status == Processing
  {
    if i in Ids(part) {
      var k :| 0 <= k < |part| && Ids(part)[k] == i;
      assert HeldJob(chunks, part[k], f);
      assert PointId(part[k]) == (chunks[i].fileId, chunks[i].sequence);
    }
    if i in more {
      var k :| 0 <= k < |part| && PointId(part[k]) !in points && part[k].chunkId == i;
      assert Ids(part)[k] == i && HeldJob(chunks, part[k], f);
    }
  }

  lemma SiftMissed(s: State, w: nat, missed: set<nat>)
    requires WorkersOk(s.db.chunks, s.log, s.workers) && MissedOk(s.db.chunks, s.points, missed)
    ensures MissedOk(DoSift(s, w).db.chunks, DoSift(s, w).points, missed + MissedBy(s, Sift(w)))
  {
    hide WorkersOk, Held, Kept, Empty, DoSift, AfterComplete, MissedOk;
    if s.up && w in s.workers && s.workers[w].Reading? && |s.workers[w].texts| == |s.workers[w].jobs| {
      var empty := Empty(s.workers[w].jobs, s.workers[w].texts);
      WorkerSteps.OneWorker(s.db.chunks, s.log, s.workers, w);
      WorkerSteps.SiftIs(s, w);
      WorkerSteps.SiftKeepsWorkers(s.db, s.log, s.workers, w);
      if |empty| == 0 || s.put.Some? {
        assert missed + MissedBy(s, Sift(w)) == missed;
      } else {
        CompletedMissed(s.db, empty, s.workers[w].jobs[0].fileId, s.points, missed, MissedBy(s, Sift(w)));
      }
    } else {
      WorkerSteps.NoSift(s, w);
      assert missed + {} == missed;
    }
  }

  /** What was ingested is stored. */
  lemma IngestMissed(s: State, w: nat, missed: set<nat>)
    requires WorkersOk(s.db.chunks, s.log, s.workers) && MissedOk(s.db.chunks, s.points, missed)
    ensures MissedOk(DoIngestOk(s, w).db.chunks, DoIngestOk(s, w).points, missed)
  {
    hide WorkersOk, Held, KeptBy, AfterComplete, MissedOk;
    if s.Free() && w in s.workers && s.workers[w].Ingesting? && AllStored(s.points, KeptBy(s.workers[w])) {
      var kept := KeptBy(s.workers[w]);
      WorkerSteps.OneWorker(s.db.chunks, s.log, s.workers, w);
      WorkerSteps.IngestedJobs(s.db.chunks, s.log, s.workers, w);
      forall k | 0 <= k < |kept|
        ensures PointId(JobsOf(kept)[k]) in s.points
      {
        assert Stored(s.points, kept[k]);
      }
      CompletedMissed(s.db, JobsOf(kept), s.workers[w].jobs[0].fileId, s.points, missed, {});
      assert missed + {} == missed;
    }
  }

  /** A point is stored for a row in processing only. */
  lemma UpsertMissed(s: State, w: nat, k: nat, missed: set<nat>)
    requires TablesOk(s.db) && WorkersOk(s.db.chunks, s.log, s.workers) && MissedOk(s.db.chunks, s.points, missed)
    ensures MissedOk(DoUpsert(s, w, k).db.chunks, DoUpsert(s, w, k).points, missed)
  {
    hide Listed, KeptBy, Counted, RetriesBounded, TerminalSettled;
    if s.up && w in s.workers && s.workers[w].Ingesting? && k < |KeptBy(s.workers[w])| {
      var p := KeptBy(s.workers[w])[k];
      WorkerSteps.PassageFacts(s.db.chunks, s.log, s.workers[w], k);
      var more := s.points[PointId(p.job) := Point(p.job.range, p.text)];
      forall i: nat
        ensures NoPoint(s.db.chunks, more, i) <==> i in missed
      {
        assert NoPoint(s.db.chunks, s.points, i) <==> i in missed;
        if i < |s.db.chunks| && s.db.chunks[i].status == Indexed {
          OtherPoint(s.db.chunks, p.job, i);
        }
      }
    }
  }

  lemma OtherPoint(chunks: seq<ChunkRow>, job: Job, i: nat)
    requires Numbered(Keys(chunks)) && HeldJob(chunks, job, job.fileId) && i < |chunks| && chunks[i].status != Processing
    ensures PointId(job) != (chunks[i].fileId, chunks[i].sequence)
  {
    if chunks[i].fileId == job.fileId {
      IdsFollowSequences(Keys(chunks), i, job.chunkId);
    }
  }

  /** Steps that leave all rows and points as they are. */
  predicate LeavesRows(l: Label) {
    History.Preparatory(l) || l.CompleteMove? || l.Create? || l.CompleteFinish?
  }

  lemma RowsLeft(s: State, l: Label)
    requires LeavesRows(l)
    ensures Step(s, l).db.chunks == s.db.chunks && Step(s, l).points == s.points
  {
    hide AfterPut, AfterFinalizing, Drain;
    if History.Preparatory(l) {
      History.PreparatoryTouchesNothing(s, l);
    }
  }

  lemma NoneMissed(s: State, l: Label, missed: set<nat>)
    requires !l.Sift? && !l.Fail?
    ensures (missed - FailedBy(s, l)) + MissedBy(s, l) == missed
  {
  }

  lemma UploadMissed(s: State, l: Label, missed: set<nat>)
    requires TablesOk(s.db) && PutOk(s.db.files, s.log, s.disk, s.put) && MissedOk(s.db.chunks, s.points, missed)
    requires l.PutCommit? || l.CompleteClose? || l.Claim? || l.Recover?
    ensures MissedOk(Step(s, l).db.chunks, Step(s, l).points, missed)
  {
    hide TablesOk, PutOk, MissedOk, DoPutCommit, DoCompleteClose, DoClaim;
    match l
    case PutCommit => CommitMissed(s, missed);
    case CompleteClose(r, f, owner) => CloseMissed(s, r, f, owner, missed);
    case Claim(w, limit) => ClaimMissed(s, w, limit, missed);
    case Recover => RecoverMissed(s, missed);
  }

  lemma BatchMissed(s: State, l: Label, missed: set<nat>)
    requires TablesOk(s.db) && WorkersOk(s.db.chunks, s.log, s.workers) && MissedOk(s.db.chunks, s.points, missed)
    requires l.Sift? || l.Upsert? || l.IngestOk? || l.Fail?
    ensures MissedOk(Step(s, l).db.chunks, Step(s, l).points, (missed - FailedBy(s, l)) + MissedBy(s, l))
  {
    hide TablesOk, WorkersOk, MissedOk, DoSift, DoUpsert, DoIngestOk, DoFail, FailedBy, MissedBy;
    match l
    case Sift(w) =>
      SiftMissed(s, w, missed);
      NoneFailed(s, l, missed);
    case Upsert(w, k) =>
      UpsertMissed(s, w, k, missed);
      NoneMissed(s, l, missed);
    case IngestOk(w) =>
      IngestMissed(s, w, missed);
      NoneMissed(s, l, missed);
    case Fail(w) =>
      FailMissed(s, w, missed);
      NoneFailed(s, l, missed - FailedBy(s, l));
  }

  lemma NoneFailed(s: State, l: Label, missed: set<nat>)
    ensures !l.Fail? ==> missed - FailedBy(s, l) == missed
    ensures !l.Sift? ==> missed + MissedBy(s, l) == missed
  {
  }

  lemma StepMissed(s: State, l: Label, missed: set<nat>)
    requires Inv(s) && MissedOk(s.db.chunks, s.points, missed)
    ensures MissedOk(Step(s, l).db.chunks, Step(s, l).points, (missed - FailedBy(s, l)) + MissedBy(s, l))
  {
    hide TablesOk, StreamsOk, DiskOk, PointsOk, WorkersOk, PutOk, CompletionsOk, Step, MissedOk, FailedBy, MissedBy;
    if LeavesRows(l) {
      RowsLeft(s, l);
      NoneMissed(s, l, missed);
    } else if l.Sift? || l.Upsert? || l.IngestOk? || l.Fail? {
      BatchMissed(s, l, missed);
    } else {
      UploadMissed(s, l, missed);
      NoneMissed(s, l, missed);
    }
  }

  lemma {:induction false} RunMissed(labels: seq<Label>)
    ensures MissedOk(Run(labels).db.chunks, Run(labels).points, Missed(labels))
  {
    hide Inv, Step, FailedBy, MissedBy;
    if |labels| > 0 {
      var before, l := labels[..|labels| - 1], labels[|labels| - 1];
      hide MissedOk;
      RunMissed(before);
      RunKeepsInv(before);
      StepMissed(Run(before), l, Missed(before));
    }
  }

  /** In every run an indexed row has no point if and only if its last read found nothing
      and no earlier attempt had stored one. */
  lemma MissedExactlyWhen(labels: seq<Label>, i: nat)
    ensures NoPoint(Run(labels).db.chunks, Run(labels).points, i) <==> i in Missed(labels)
  {
    hide Run, Missed;
    RunMissed(labels);
  }

  lemma MissedJob(s: State, l: Label, i: nat) returns (k: nat)
    requires i in MissedBy(s, l)
    ensures l.Sift? && l.w in s.workers && |s.workers[l.w].texts| == |s.workers[l.w].jobs|
    ensures k < |s.workers[l.w].jobs| && s.workers[l.w].texts[k] == [] && s.workers[l.w].jobs[k].chunkId == i
  {
    var empty := Empty(s.workers[l.w].jobs, s.workers[l.w].texts);
    var j :| 0 <= j < |empty| && PointId(empty[j]) !in s.points && empty[j].chunkId == i;
    k := EmptyAt(s.workers[l.w].jobs, s.workers[l.w].texts, j);
  }

  /** The file of a worker's job is its row's file, now and later. */
  lemma RowOfJob(labels: seq<Label>, w: nat, k: nat)
    requires w in Run(labels).workers && k < |Run(labels).workers[w].jobs|
    ensures var s := Run(labels);
            var job := s.workers[w].jobs[k];
            && job.chunkId < |s.db.chunks| && s.db.chunks[job.chunkId].fileId == job.fileId == s.workers[w].jobs[0].fileId
  {
    hide Run;
    RunKeepsInv(labels);
    OpenInv(Run(labels));
    WorkerSteps.WorkerFacts(Run(labels).db.chunks, Run(labels).log, Run(labels).workers, w, k);
  }

  lemma RowStays(labels: seq<Label>, l: Label, i: nat)
    requires i < |Run(labels).db.chunks|
    ensures i < |Run(labels + [l]).db.chunks| && KeyOf(Run(labels + [l]).db.chunks[i]) == KeyOf(Run(labels).db.chunks[i])
  {
    hide Run;
    History.RunEvolves(labels, [l]);
    assert History.ChunkEvolves(Run(labels).db.chunks[i], Run(labels + [l]).db.chunks[i]);
  }

  /** Without a straddled read of its file no row is missed. */
  lemma {:induction false} MissedIsStraddled(labels: seq<Label>, i: nat)
    requires i in Missed(labels)
    ensures i < |Run(labels).db.chunks| && Straddled(labels, Run(labels).db.chunks[i].fileId)
  {
    hide Run, Torn, Straddles.Straddles, Renames, MissedBy, FailedBy;
    var before, l := labels[..|labels| - 1], labels[|labels| - 1];
    assert before + [l] == labels;
    if i in Missed(before) {
      MissedIsStraddled(before, i);
      RowStays(before, l, i);
    } else {
      var k := MissedJob(Run(before), l, i);
      EmptyExactlyWhen(before, l.w, k);
      TornIsStraddled(before, l.w);
      RowOfJob(before, l.w, k);
      RowStays(before, l, i);
    }
  }
}
