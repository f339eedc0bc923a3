/** The steps of workers, and of a crash and recovery, keep the invariant. */
module WorkerSteps {
  import opened Bytes
  import opened Chunker
  import opened Tables
  import opened Storage
  import opened JobQueue
  import opened Accounting
  import opened QueueLaws
  import opened Pipeline
  import opened Batches
  import opened Invariant
  import opened Frames

  // ---------------------------------------------------------------------- claim

  /** Pending rows are held by nobody. */
  lemma UnheldIds(chunks: seq<ChunkRow>, log: map<FileId, seq<Accepted>>, workers: map<nat, Worker>, w: nat, ids: seq<nat>)
    requires WorkersOk(chunks, log, workers)
    requires forall k | 0 <= k < |ids| :: ids[k] < |chunks| && chunks[ids[k]].status == Pending
    ensures NotAmong(workers, w, ids)
  {
    forall v, k | v in workers && v != w && 0 <= k < |workers[v].jobs|
      ensures workers[v].jobs[k].chunkId !in ids
    {
      assert WorkerOk(chunks, log, workers[v]);
      assert ListedJob(chunks, workers[v].jobs[k], workers[v].jobs[0].fileId);
    }
  }

  /** One more worker, holding rows that no other holds. */
  lemma AddWorker(chunks: seq<ChunkRow>, log: map<FileId, seq<Accepted>>, workers: map<nat, Worker>,
                  w: nat, worker: Worker, ids: seq<nat>)
    requires WorkersOk(chunks, log, workers) && WorkerOk(chunks, log, worker) && Ids(worker.jobs) == ids
    requires NotAmong(workers, w, ids)
    ensures WorkersOk(chunks, log, workers[w := worker])
  {
    hide Listed, ListedJob;
    forall v, k, j | v in workers && v != w && 0 <= k < |workers[v].jobs| && 0 <= j < |worker.jobs|
      ensures workers[v].jobs[k].chunkId != worker.jobs[j].chunkId
    {
      assert Ids(worker.jobs)[j] in ids;
    }
  }

  lemma ClaimKeepsOthers(db: Db, log: map<FileId, seq<Accepted>>, workers: map<nat, Worker>, w: nat, limit: nat)
    requires WorkersOk(db.chunks, log, workers) && w !in workers && |BatchIds(db.chunks, limit)| > 0
    ensures WorkersOk(AfterClaim(db, limit).chunks, log, workers)
    ensures NotAmong(workers, w, BatchIds(db.chunks, limit))
  {
    hide WorkersOk, WorkerOk, Mark;
    var ids := BatchIds(db.chunks, limit);
    var after := AfterClaim(db, limit).chunks;
    BatchIsPending(db, limit);
    UnheldIds(db.chunks, log, workers, w, ids);
    forall i | 0 <= i < |after| && i !in ids
      ensures after[i] == db.chunks[i]
    {
      MarkAt(db.chunks, ids, Processing, 0, i);
    }
    OthersStay(db.chunks, log, workers, w, ids, after);
    assert workers - {w} == workers;
  }

  lemma ClaimedWorker(chunks: seq<ChunkRow>, log: map<FileId, seq<Accepted>>, jobs: seq<Job>, f: FileId)
    requires Held(chunks, jobs, f) && |jobs| > 0 && jobs[0].fileId == f
    ensures WorkerOk(chunks, log, Reading(jobs, [], BEGUN))
  {
    HeldIsListed(chunks, jobs, f);
    forall k | 0 <= k < |jobs|
      ensures chunks[jobs[k].chunkId].status == Processing
    {
      assert HeldJob(chunks, jobs[k], f);
    }
  }

  lemma ClaimKeepsWorkers(db: Db, log: map<FileId, seq<Accepted>>, workers: map<nat, Worker>, w: nat, limit: nat)
    requires TablesOk(db) && WorkersOk(db.chunks, log, workers) && w !in workers && |BatchJobs(db, limit)| > 0
    ensures WorkersOk(AfterClaim(db, limit).chunks, log, workers[w := Reading(BatchJobs(db, limit), [], BEGUN)])
  {
    BatchIsPending(db, limit);
    ClaimIsExclusive(db, limit);
    ClaimKeepsOthers(db, log, workers, w, limit);
    ClaimedWorker(AfterClaim(db, limit).chunks, log, BatchJobs(db, limit), BatchJobs(db, limit)[0].fileId);
    AddWorker(AfterClaim(db, limit).chunks, log, workers, w, Reading(BatchJobs(db, limit), [], BEGUN), BatchIds(db.chunks, limit));
  }

  lemma PointsSurvive(chunks: seq<ChunkRow>, log: map<FileId, seq<Accepted>>, points: map<(FileId, nat), Point>,
                      after: seq<ChunkRow>)
    requires PointsOk(chunks, log, points) && Keys(after) == Keys(chunks)
    ensures PointsOk(after, log, points)
  {
    forall f
      ensures FileRanges(chunks, f) <= FileRanges(after, f)
    {
      SameRanges(chunks, after, f);
    }
    PointsGrow(chunks, log, points, after, log);
  }

  lemma ClaimKeepsInv(s: State, w: nat, limit: Option<nat>)
    requires Inv(s)
    ensures Inv(DoClaim(s, w, limit))
  {
    hide FileStream, Mark;
    var n := BatchLimit(limit);
    if s.Free() && w !in s.workers && |BatchJobs(s.db, n)| > 0 {
      ClaimKeepsTables(s.db, n);
      ClaimSameUploads(s.db, n);
      ClaimKeepsWorkers(s.db, s.log, s.workers, w, n);
      BatchIsPending(s.db, n);
      PointsSurvive(s.db.chunks, s.log, s.points, AfterClaim(s.db, n).chunks);
      QueueMoves(s, AfterClaim(s.db, n), s.workers[w := Reading(BatchJobs(s.db, n), [], BEGUN)]);
    }
  }

  // ----------------------------------------------------------------------- read

  /** A listed job's range is a nonempty part of the committed bytes. */
  lemma JobRange(db: Db, log: map<FileId, seq<Accepted>>, job: Job, f: FileId)
    requires TablesOk(db) && StreamsOk(db, log) && ListedJob(db.chunks, job, f)
    ensures f in log && f in db.files
    ensures 0 <= job.range.start < job.range.end <= |Content(log[f])|
    ensures job.sequence < |FileRanges(db.chunks, f)|
    ensures FileRanges(db.chunks, f)[job.sequence] == job.range
  {
    var keys := Keys(db.chunks);
    assert keys[job.chunkId].fileId in db.files;
    RangeOfRow(keys, job.chunkId, |keys|);
    assert FileStream(db.files[f], FileRanges(db.chunks, f), Content(log[f]));
  }

  lemma SliceInside(bytes: seq<byte>, stream: seq<byte>, r: Range)
    requires stream <= bytes && 0 <= r.start <= r.end <= |stream|
    ensures ReadFrom(bytes, r) == Got(stream[r.start..r.end])
  {
    assert bytes[r.start..r.end] == stream[r.start..r.end];
  }

  /** A file with committed bytes is in the directory under one of its names, the
      committed bytes in front. */
  ghost predicate Placed(disk: Disk, f: FileId, stream: seq<byte>) {
    && (f in disk.final ==> f !in disk.partial && stream <= disk.final[f])
    && (f !in disk.final ==> f in disk.partial && stream <= disk.partial[f])
  }

  /** What one call of a read of committed bytes can end with: exactly those bytes when
      it opens a file; nothing when it looks for the partial name and the file has
      its final one by then; and an exception only at a second attempt whose name
      has gone. */
  lemma ReadIsExact(disk: Disk, f: FileId, stream: seq<byte>, r: Range, p: Progress)
    requires Placed(disk, f, stream) && 0 <= r.start < r.end <= |stream| && p.At?
    ensures match Advance(disk, f, r, p)
            case Got(text) =>
              && p.look != ForFinal
              && (if p.look == ForPartial then text == [] && f in disk.final else text == stream[r.start..r.end])
            case Raised(_) => p.again && ((p.look == OpenFinal && f !in disk.final) || (p.look == OpenPartial && f in disk.final))
            case At(look, again) =>
              match p.look
              case ForFinal => again == p.again && (look == OpenFinal <==> f in disk.final) && (look == ForPartial <==> f !in disk.final)
              case ForPartial => again == p.again && look == OpenPartial && f !in disk.final
              case OpenFinal => again && !p.again && look == ForFinal && f !in disk.final
              case OpenPartial => again && !p.again && look == ForFinal && f in disk.final
  {
    hide Slice;
    if f in disk.final {
      SliceInside(disk.final[f], stream, r);
    } else {
      SliceInside(disk.partial[f], stream, r);
    }
  }

  /** The file of a listed job. */
  lemma JobPlaced(s: State, job: Job, f: FileId)
    requires TablesOk(s.db) && StreamsOk(s.db, s.log) && DiskOk(s.db.files, s.log, s.disk)
    requires ListedJob(s.db.chunks, job, f)
    ensures f in s.log && 0 <= job.range.start < job.range.end <= |Content(s.log[f])|
    ensures Placed(s.disk, f, Content(s.log[f]))
  {
    JobRange(s.db, s.log, job, f);
    assert FileStream(s.db.files[f], FileRanges(s.db.chunks, f), Content(s.log[f]));
    assert FileOnDisk(s.db.files[f], Content(s.log[f]), s.disk, f);
  }

  lemma ReplaceWorker(chunks: seq<ChunkRow>, log: map<FileId, seq<Accepted>>, workers: map<nat, Worker>,
                      w: nat, worker: Worker)
    requires WorkersOk(chunks, log, workers) && w in workers
    requires WorkerOk(chunks, log, worker) && worker.jobs == workers[w].jobs
    ensures WorkersOk(chunks, log, workers[w := worker])
  {
    hide Listed, WorkerOk;
  }

  /** One more text, or a read that has got further. */
  lemma ReadMore(chunks: seq<ChunkRow>, log: map<FileId, seq<Accepted>>, worker: Worker, text: seq<byte>, p: Progress)
    requires WorkerOk(chunks, log, worker) && worker.Reading? && |worker.texts| < |worker.jobs| && !p.Got?
    ensures WorkerOk(chunks, log, worker.(read := p))
    ensures ReadOk(log, worker.jobs[|worker.texts|], text) ==>
              WorkerOk(chunks, log, worker.(texts := worker.texts + [text], read := p))
  {
    hide Listed, ListedJob, ReadOk, KeptBy;
  }

  /** What the next call of a read does to the batch of `w`. */
  lemma ReadOne(s: State, w: nat)
    requires TablesOk(s.db) && StreamsOk(s.db, s.log) && DiskOk(s.db.files, s.log, s.disk)
    requires WorkersOk(s.db.chunks, s.log, s.workers)
    requires w in s.workers && s.workers[w].Reading? && |s.workers[w].texts| < |s.workers[w].jobs|
    ensures WorkerOk(s.db.chunks, s.log, ReadOn(s.disk, s.workers[w]))
    ensures ReadOn(s.disk, s.workers[w]).jobs == s.workers[w].jobs
  {
    hide TablesOk, StreamsOk, DiskOk, WorkersOk, WorkerOk, Listed, ListedJob, Content, Advance, Placed;
    var worker := s.workers[w];
    var job := worker.jobs[|worker.texts|];
    WorkerFacts(s.db.chunks, s.log, s.workers, w, |worker.texts|);
    JobPlaced(s, job, job.fileId);
    var p := Advance(s.disk, job.fileId, job.range, worker.read);
    if worker.read.At? {
      ReadIsExact(s.disk, job.fileId, Content(s.log[job.fileId]), job.range, worker.read);
      if p.Got? {
        ReadMore(s.db.chunks, s.log, worker, p.text, BEGUN);
      }
    } else {
      NoFurther(s.disk, job, worker.read);
      NotGot(s.db.chunks, s.log, worker);
    }
    if !p.Got? {
      ReadMore(s.db.chunks, s.log, worker, [], p);
    }
  }

  lemma NotGot(chunks: seq<ChunkRow>, log: map<FileId, seq<Accepted>>, worker: Worker)
    requires WorkerOk(chunks, log, worker) && worker.Reading?
    ensures !worker.read.Got?
  {
  }

  lemma NoFurther(disk: Disk, job: Job, p: Progress)
    requires !p.At?
    ensures Advance(disk, job.fileId, job.range, p) == p
  {
  }

  lemma ReadKeepsInv(s: State, w: nat)
    requires Inv(s)
    ensures Inv(DoRead(s, w))
  {
    hide TablesOk, StreamsOk, DiskOk, PointsOk, PutOk, CompletionsOk, WorkersOk, WorkerOk, ReadOn;
    if s.up && w in s.workers && s.workers[w].Reading? && |s.workers[w].texts| < |s.workers[w].jobs| {
      ReadOne(s, w);
      ReplaceWorker(s.db.chunks, s.log, s.workers, w, ReadOn(s.disk, s.workers[w]));
      OnlyWorkers(s, s.workers[w := ReadOn(s.disk, s.workers[w])]);
    }
  }

  /** What the invariant says of one job of a worker. */
  lemma WorkerFacts(chunks: seq<ChunkRow>, log: map<FileId, seq<Accepted>>, workers: map<nat, Worker>, w: nat, k: nat)
    requires WorkersOk(chunks, log, workers) && w in workers && k < |workers[w].jobs|
    ensures WorkerOk(chunks, log, workers[w]) && workers[w].jobs[k].fileId == workers[w].jobs[0].fileId
    ensures ListedJob(chunks, workers[w].jobs[k], workers[w].jobs[k].fileId)
    ensures chunks[workers[w].jobs[k].chunkId].status == StatusOf(workers[w], k)
  {
    assert WorkerOk(chunks, log, workers[w]);
    assert ListedJob(chunks, workers[w].jobs[k], workers[w].jobs[0].fileId);
  }

  /** A passage on its way to ingestion is of a row in processing, with its exact text. */
  lemma PassageFacts(chunks: seq<ChunkRow>, log: map<FileId, seq<Accepted>>, worker: Worker, k: nat)
    requires WorkerOk(chunks, log, worker) && worker.Ingesting? && k < |KeptBy(worker)|
    ensures var p := KeptBy(worker)[k];
            HeldJob(chunks, p.job, p.job.fileId) && TextOk(log, p.job, p.text)
  {
    var j := KeptAt(worker.jobs, worker.texts, k);
    assert ListedJob(chunks, worker.jobs[j], worker.jobs[0].fileId);
    assert ReadOk(log, worker.jobs[j], worker.texts[j]);
  }

  // ----------------------------------------------------------------------- sift

  /** While reading, all jobs are held. */
  lemma ReadingHolds(chunks: seq<ChunkRow>, log: map<FileId, seq<Accepted>>, worker: Worker)
    requires WorkerOk(chunks, log, worker) && worker.Reading?
    ensures Held(chunks, worker.jobs, worker.jobs[0].fileId)
  {
    HeldPart(chunks, worker.jobs, worker.jobs[0].fileId);
  }

  /** When ingesting, those with a text are. */
  lemma IngestingHolds(chunks: seq<ChunkRow>, log: map<FileId, seq<Accepted>>, worker: Worker)
    requires WorkerOk(chunks, log, worker) && worker.Ingesting?
    ensures Sifted(chunks, worker.jobs, worker.texts)
    ensures Held(chunks, JobsOf(KeptBy(worker)), worker.jobs[0].fileId)
    ensures Among(chunks, Ids(worker.jobs), Indexed) == |Empty(worker.jobs, worker.texts)|
  {
    forall k | 0 <= k < |worker.jobs|
      ensures worker.jobs[k].chunkId < |chunks|
    {
      assert ListedJob(chunks, worker.jobs[k], worker.jobs[0].fileId);
    }
    KeptHeld(chunks, worker.jobs, worker.texts, worker.jobs[0].fileId);
    EmptyAmong(chunks, worker.jobs, worker.texts);
  }

  /** Completing some of its jobs changes those rows only. */
  lemma CompletedRows(db: Db, jobs: seq<Job>, f: FileId)
    requires Held(db.chunks, jobs, f)
    ensures var after := AfterComplete(db, jobs).chunks;
            && |after| == |db.chunks|
            && forall i | 0 <= i < |after| ::
                 after[i] == if i in Ids(jobs) then db.chunks[i].(status := Indexed) else db.chunks[i]
  {
    hide Mark, Held;
    CompleteSameUploads(db, jobs);
    forall i | 0 <= i < |db.chunks|
      ensures Mark(db.chunks, Ids(jobs), Indexed, 0)[i] == if i in Ids(jobs) then db.chunks[i].(status := Indexed) else db.chunks[i]
    {
      CompletedRow(db.chunks, jobs, f, i);
    }
  }

  lemma CompletedRow(chunks: seq<ChunkRow>, jobs: seq<Job>, f: FileId, i: nat)
    requires Held(chunks, jobs, f) && i < |chunks|
    ensures Mark(chunks, Ids(jobs), Indexed, 0)[i] == if i in Ids(jobs) then chunks[i].(status := Indexed) else chunks[i]
  {
    MarkAt(chunks, Ids(jobs), Indexed, 0, i);
  }

  lemma SiftedWorker(chunks: seq<ChunkRow>, log: map<FileId, seq<Accepted>>, worker: Worker, after: seq<ChunkRow>)
    requires WorkerOk(chunks, log, worker) && worker.Reading? && |worker.texts| == |worker.jobs| && |after| == |chunks|
    requires Kept(worker.jobs, worker.texts) != []
    requires forall i | 0 <= i < |after| ::
               after[i] == if i in Ids(Empty(worker.jobs, worker.texts)) then chunks[i].(status := Indexed) else chunks[i]
    ensures WorkerOk(after, log, Ingesting(worker.jobs, worker.texts))
  {
    var jobs, texts := worker.jobs, worker.texts;
    forall k | 0 <= k < |jobs|
      ensures ListedJob(after, jobs[k], jobs[0].fileId)
      ensures after[jobs[k].chunkId].status == if texts[k] == [] then Indexed else Processing
    {
      assert ListedJob(chunks, jobs[k], jobs[0].fileId);
      PartOfJob(jobs, texts, k);
    }
  }

  /** Ids of another worker are not among those of `w`. */
  lemma OthersIds(chunks: seq<ChunkRow>, log: map<FileId, seq<Accepted>>, workers: map<nat, Worker>, w: nat)
    requires WorkersOk(chunks, log, workers) && w in workers
    ensures NotAmong(workers, w, Ids(workers[w].jobs))
  {
  }

  /** Completing some of a worker's jobs leaves the other workers alone. */
  lemma CompleteKeepsOthers(db: Db, log: map<FileId, seq<Accepted>>, workers: map<nat, Worker>, w: nat, part: seq<Job>)
    requires WorkersOk(db.chunks, log, workers) && w in workers && Held(db.chunks, part, workers[w].jobs[0].fileId)
    requires forall i | i in Ids(part) :: i in Ids(workers[w].jobs)
    ensures WorkersOk(AfterComplete(db, part).chunks, log, workers - {w})
    ensures NotAmong(workers - {w}, w, Ids(workers[w].jobs))
  {
    hide WorkersOk, WorkerOk, Held, Mark;
    var after := AfterComplete(db, part).chunks;
    OneWorker(db.chunks, log, workers, w);
    CompletedRows(db, part, workers[w].jobs[0].fileId);
    OthersIds(db.chunks, log, workers, w);
    OthersStay(db.chunks, log, workers, w, Ids(workers[w].jobs), after);
  }

  lemma PutBack(workers: map<nat, Worker>, w: nat, worker: Worker)
    ensures (workers - {w})[w := worker] == workers[w := worker]
  {
  }

  lemma SiftKeepsWorkers(db: Db, log: map<FileId, seq<Accepted>>, workers: map<nat, Worker>, w: nat)
    requires WorkersOk(db.chunks, log, workers) && w in workers
    requires workers[w].Reading? && |workers[w].texts| == |workers[w].jobs|
    ensures var jobs, texts := workers[w].jobs, workers[w].texts;
            var after := AfterComplete(db, Empty(jobs, texts)).chunks;
            && Held(db.chunks, Empty(jobs, texts), jobs[0].fileId)
            && WorkersOk(after, log, workers - {w})
            && (Kept(jobs, texts) != [] ==> WorkersOk(after, log, workers[w := Ingesting(jobs, texts)]))
  {
    hide WorkersOk, WorkerOk, Held, Listed, Kept, Empty, AfterComplete;
    var worker := workers[w];
    var jobs, texts := worker.jobs, worker.texts;
    var empty := Empty(jobs, texts);
    var after := AfterComplete(db, empty).chunks;
    OneWorker(db.chunks, log, workers, w);
    ReadingHolds(db.chunks, log, worker);
    EmptyHeld(db.chunks, jobs, texts, jobs[0].fileId);
    forall i | i in Ids(empty)
      ensures i in Ids(jobs)
    {
      KeptOrEmpty(jobs, texts, i);
    }
    CompleteKeepsOthers(db, log, workers, w, empty);
    if Kept(jobs, texts) != [] {
      CompletedRows(db, empty, jobs[0].fileId);
      SiftedWorker(db.chunks, log, worker, after);
      AddWorker(after, log, workers - {w}, w, Ingesting(jobs, texts), Ids(jobs));
      PutBack(workers, w, Ingesting(jobs, texts));
    }
  }

  lemma OneWorker(chunks: seq<ChunkRow>, log: map<FileId, seq<Accepted>>, workers: map<nat, Worker>, w: nat)
    requires WorkersOk(chunks, log, workers) && w in workers
    ensures WorkerOk(chunks, log, workers[w]) && |workers[w].jobs| > 0
    ensures Listed(chunks, workers[w].jobs, workers[w].jobs[0].fileId)
  {
    assert WorkerOk(chunks, log, workers[w]);
  }

  /** Completing held jobs moves the queue only. */
  lemma CompletionMoves(s: State, part: seq<Job>, f: FileId, workers: map<nat, Worker>)
    requires Inv(s) && s.Free() && Held(s.db.chunks, part, f)
    requires WorkersOk(AfterComplete(s.db, part).chunks, s.log, workers)
    ensures Inv(s.(db := AfterComplete(s.db, part), workers := workers))
  {
    hide TablesOk, StreamsOk, DiskOk, PointsOk, PutOk, CompletionsOk, WorkersOk, Held, SameUploads, AfterComplete, SameExcess;
    CompleteKeepsTables(s.db, part, f);
    CompleteSameUploads(s.db, part);
    PointsSurvive(s.db.chunks, s.log, s.points, AfterComplete(s.db, part).chunks);
    QueueMoves(s, AfterComplete(s.db, part), workers);
  }

  /** What sifting a batch does: its empty jobs, all held, are completed. */
  lemma SiftIs(s: State, w: nat)
    requires s.up && w in s.workers && s.workers[w].Reading? && |s.workers[w].texts| == |s.workers[w].jobs|
    ensures var jobs, texts := s.workers[w].jobs, s.workers[w].texts;
            var empty := Empty(jobs, texts);
            var workers := if Kept(jobs, texts) == [] then s.workers - {w} else s.workers[w := Ingesting(jobs, texts)];
            && (|empty| > 0 && s.put.Some? ==> DoSift(s, w) == s)
            && (|empty| > 0 && s.put.None? ==> DoSift(s, w) == s.(db := AfterComplete(s.db, empty), workers := workers))
            && (|empty| == 0 ==> DoSift(s, w) == s.(workers := workers))
  {
    hide Kept, Empty;
  }

  lemma SiftKeepsInv(s: State, w: nat)
    requires Inv(s)
    ensures Inv(DoSift(s, w))
  {
    hide TablesOk, StreamsOk, DiskOk, PointsOk, PutOk, CompletionsOk, WorkersOk, Held, Kept, Empty, DoSift;
    if s.up && w in s.workers && s.workers[w].Reading? && |s.workers[w].texts| == |s.workers[w].jobs| {
      var jobs, texts := s.workers[w].jobs, s.workers[w].texts;
      var empty := Empty(jobs, texts);
      var workers := if Kept(jobs, texts) == [] then s.workers - {w} else s.workers[w := Ingesting(jobs, texts)];
      SiftIs(s, w);
      OneWorker(s.db.chunks, s.log, s.workers, w);
      SiftKeepsWorkers(s.db, s.log, s.workers, w);
      if |empty| == 0 {
        OnlyWorkers(s, workers);
      } else if s.put.None? {
        CompletionMoves(s, empty, jobs[0].fileId, workers);
      }
    } else {
      NoSift(s, w);
    }
  }

  lemma NoSift(s: State, w: nat)
    requires !(s.up && w in s.workers && s.workers[w].Reading? && |s.workers[w].texts| == |s.workers[w].jobs|)
    ensures DoSift(s, w) == s
  {
  }

  // --------------------------------------------------------------------- ingest

  /** A point for a held job whose text was read back. */
  lemma PassagePoint(db: Db, log: map<FileId, seq<Accepted>>, job: Job, text: seq<byte>)
    requires TablesOk(db) && StreamsOk(db, log) && HeldJob(db.chunks, job, job.fileId) && TextOk(log, job, text)
    ensures PointOk(db.chunks, log, PointId(job), Point(job.range, text))
  {
    JobRange(db, log, job, job.fileId);
  }

  lemma AddPoint(chunks: seq<ChunkRow>, log: map<FileId, seq<Accepted>>, points: map<(FileId, nat), Point>,
                 id: (FileId, nat), point: Point)
    requires PointsOk(chunks, log, points) && PointOk(chunks, log, id, point)
    ensures PointsOk(chunks, log, points[id := point])
  {
  }

  lemma UpsertKeepsInv(s: State, w: nat, k: nat)
    requires Inv(s)
    ensures Inv(DoUpsert(s, w, k))
  {
    hide TablesOk, StreamsOk, DiskOk, PointsOk, PointOk, PutOk, CompletionsOk, FileStream, FileOnDisk, RowCounted,
         RowSettled, Held, HeldJob, Listed, KeptBy;
    if s.up && w in s.workers && s.workers[w].Ingesting? && k < |KeptBy(s.workers[w])| {
      var p := KeptBy(s.workers[w])[k];
      PassageFacts(s.db.chunks, s.log, s.workers[w], k);
      PassagePoint(s.db, s.log, p.job, p.text);
      AddPoint(s.db.chunks, s.log, s.points, PointId(p.job), Point(p.job.range, p.text));
      OnlyPoints(s, s.points[PointId(p.job) := Point(p.job.range, p.text)]);
    }
  }

  /** The jobs that were ingested are held, and among those of the worker. */
  lemma IngestedJobs(chunks: seq<ChunkRow>, log: map<FileId, seq<Accepted>>, workers: map<nat, Worker>, w: nat)
    requires WorkersOk(chunks, log, workers) && w in workers && workers[w].Ingesting?
    ensures var part := JobsOf(KeptBy(workers[w]));
            && |part| > 0 && Held(chunks, part, workers[w].jobs[0].fileId)
            && forall i | i in Ids(part) :: i in Ids(workers[w].jobs)
  {
    var worker := workers[w];
    OneWorker(chunks, log, workers, w);
    IngestingHolds(chunks, log, worker);
    forall i | i in Ids(JobsOf(KeptBy(worker)))
      ensures i in Ids(worker.jobs)
    {
      KeptOrEmpty(worker.jobs, worker.texts, i);
    }
  }

  lemma IngestOkKeepsInv(s: State, w: nat)
    requires Inv(s)
    ensures Inv(DoIngestOk(s, w))
  {
    hide TablesOk, StreamsOk, DiskOk, PointsOk, PutOk, CompletionsOk, WorkersOk, Held, Listed, KeptBy, JobsOf, AfterComplete;
    if s.Free() && w in s.workers && s.workers[w].Ingesting? && AllStored(s.points, KeptBy(s.workers[w])) {
      var part := JobsOf(KeptBy(s.workers[w]));
      OneWorker(s.db.chunks, s.log, s.workers, w);
      IngestedJobs(s.db.chunks, s.log, s.workers, w);
      CompleteKeepsOthers(s.db, s.log, s.workers, w, part);
      CompletionMoves(s, part, s.workers[w].jobs[0].fileId, s.workers - {w});
    }
  }

  // ----------------------------------------------------------------------- fail

  lemma FailedRows(db: Db, jobs: seq<Job>, f: FileId)
    requires Listed(db.chunks, jobs, f)
    ensures var after := AfterFail(db, jobs).chunks;
            && |after| == |db.chunks|
            && forall i | 0 <= i < |after| ::
                 after[i] == if i in Ids(jobs) then AfterAttempt(db.chunks[i]) else db.chunks[i]
  {
    forall i | 0 <= i < |db.chunks|
      ensures |AfterFail(db, jobs).chunks| == |db.chunks|
      ensures AfterFail(db, jobs).chunks[i] == if i in Ids(jobs) then AfterAttempt(db.chunks[i]) else db.chunks[i]
    {
      FailAt(db, jobs, f, i);
    }
  }

  lemma FailKeepsWorkers(db: Db, log: map<FileId, seq<Accepted>>, workers: map<nat, Worker>, w: nat)
    requires WorkersOk(db.chunks, log, workers) && w in workers
    ensures WorkersOk(AfterFail(db, workers[w].jobs).chunks, log, workers - {w})
  {
    hide Listed, ListedJob, WorkersOk, WorkerOk;
    var jobs := workers[w].jobs;
    OneWorker(db.chunks, log, workers, w);
    FailedRows(db, jobs, jobs[0].fileId);
    OthersIds(db.chunks, log, workers, w);
    OthersStay(db.chunks, log, workers, w, Ids(jobs), AfterFail(db, jobs).chunks);
  }

  lemma FailKeepsInv(s: State, w: nat)
    requires Inv(s)
    ensures Inv(DoFail(s, w))
  {
    hide TablesOk, WorkersOk, WorkerOk, PointsOk, StreamsOk, DiskOk, PutOk, CompletionsOk, Listed, ListedJob, SameUploads,
         AfterFail, ExcessOf, Among;
    if s.Free() && w in s.workers {
      var jobs := s.workers[w].jobs;
      OneWorker(s.db.chunks, s.log, s.workers, w);
      FailKeepsTables(s.db, jobs, jobs[0].fileId);
      FailSameUploads(s.db, jobs, jobs[0].fileId);
      FailKeepsWorkers(s.db, s.log, s.workers, w);
      PointsSurvive(s.db.chunks, s.log, s.points, AfterFail(s.db, jobs).chunks);
      QueueMoves(s, AfterFail(s.db, jobs), s.workers - {w});
    }
  }

  // ----------------------------------------------------------- crash and recovery

  /** A process dying takes its requests and workers with it, and nothing else. */
  lemma CrashKeepsInv(s: State)
    requires Inv(s)
    ensures Inv(Step(s, Crash))
  {
  }

  lemma RevertedStream(row: FileRow, ranges: seq<Range>, stream: seq<byte>)
    requires FileStream(row, ranges, stream)
    ensures FileStream(Reverted(row), ranges, stream)
  {
  }

  lemma RecoverKeepsStreams(db: Db, log: map<FileId, seq<Accepted>>)
    requires StreamsOk(db, log) && Keys(AfterRecover(db).chunks) == Keys(db.chunks)
    ensures StreamsOk(AfterRecover(db), log)
  {
    hide FileStream, Content, FileRanges;
    var after := AfterRecover(db);
    forall f | f in log
      ensures FileStream(after.files[f], FileRanges(after.chunks, f), Content(log[f]))
    {
      SameRanges(db.chunks, after.chunks, f);
      RevertedStream(db.files[f], FileRanges(db.chunks, f), Content(log[f]));
    }
  }

  lemma RecoverKeepsDisk(db: Db, log: map<FileId, seq<Accepted>>, disk: Disk)
    requires DiskOk(db.files, log, disk)
    ensures DiskOk(AfterRecover(db).files, log, disk)
  {
    forall f | f in log
      ensures FileOnDisk(AfterRecover(db).files[f], Content(log[f]), disk, f)
    {
      assert FileOnDisk(db.files[f], Content(log[f]), disk, f);
    }
  }

  lemma RecoverKeepsInv(s: State)
    requires Inv(s)
    ensures Inv(Step(s, Recover))
  {
    if !s.up {
      RecoverKeepsTables(s.db);
      RecoverKeepsStreams(s.db, s.log);
      RecoverKeepsDisk(s.db, s.log, s.disk);
      PointsSurvive(s.db.chunks, s.log, s.points, AfterRecover(s.db).chunks);
    }
  }

  lemma AbandonKeepsInv(s: State, w: nat)
    requires Inv(s)
    ensures Inv(Step(s, Abandon(w)))
  {
    hide Drain, StreamsOk, PointsOk, PointOk, Held, HeldJob;
  }
}
