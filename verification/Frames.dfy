/** How the parts of the invariant carry over when the state grows or when only the
    queue moves. */
module Frames {
  import opened Bytes
  import opened Chunker
  import opened Tables
  import opened Storage
  import opened JobQueue
  import opened Accounting
  import opened QueueLaws
  import opened Pipeline
  import opened Invariant

  // ---------------------------------------------------------------- growing logs

  /** Committed bytes stay, and more may follow. */
  ghost predicate LogGrows(log: map<FileId, seq<Accepted>>, more: map<FileId, seq<Accepted>>) {
    forall f | f in log :: f in more && Content(log[f]) <= Content(more[f])
  }

  lemma ContentSnoc(log: seq<Accepted>, a: Accepted)
    ensures Content(log + [a]) == Content(log) + a.body
  {
    assert (log + [a])[..|log|] == log;
  }

  lemma TextGrows(log: map<FileId, seq<Accepted>>, more: map<FileId, seq<Accepted>>, job: Job, text: seq<byte>)
    requires LogGrows(log, more) && TextOk(log, job, text)
    ensures TextOk(more, job, text)
  {
    var was, now := Content(log[job.fileId]), Content(more[job.fileId]);
    assert now[job.range.start..job.range.end] == was[job.range.start..job.range.end];
  }

  lemma ReadGrows(log: map<FileId, seq<Accepted>>, more: map<FileId, seq<Accepted>>, job: Job, text: seq<byte>)
    requires LogGrows(log, more) && ReadOk(log, job, text)
    ensures ReadOk(more, job, text)
  {
    if text != [] {
      TextGrows(log, more, job, text);
    }
  }

  /** A worker's batch is untouched when its rows and texts are. */
  lemma WorkerStays(chunks: seq<ChunkRow>, log: map<FileId, seq<Accepted>>, worker: Worker,
                    after: seq<ChunkRow>, more: map<FileId, seq<Accepted>>)
    requires WorkerOk(chunks, log, worker) && LogGrows(log, more) && |chunks| <= |after|
    requires forall k | 0 <= k < |worker.jobs| ::
               worker.jobs[k].chunkId < |chunks| ==> after[worker.jobs[k].chunkId] == chunks[worker.jobs[k].chunkId]
    ensures WorkerOk(after, more, worker)
  {
    forall k | 0 <= k < |worker.jobs|
      ensures ListedJob(after, worker.jobs[k], worker.jobs[0].fileId)
      ensures after[worker.jobs[k].chunkId].status == StatusOf(worker, k)
    {
      assert ListedJob(chunks, worker.jobs[k], worker.jobs[0].fileId);
    }
    forall k | 0 <= k < |worker.texts|
      ensures ReadOk(more, worker.jobs[k], worker.texts[k])
    {
      ReadGrows(log, more, worker.jobs[k], worker.texts[k]);
    }
  }

  lemma WorkersGrow(chunks: seq<ChunkRow>, log: map<FileId, seq<Accepted>>, workers: map<nat, Worker>,
                    after: seq<ChunkRow>, more: map<FileId, seq<Accepted>>)
    requires WorkersOk(chunks, log, workers) && LogGrows(log, more) && chunks <= after
    ensures WorkersOk(after, more, workers)
  {
    forall w | w in workers
      ensures WorkerOk(after, more, workers[w])
    {
      WorkerStays(chunks, log, workers[w], after, more);
    }
  }

  // -------------------------------------------------------------- growing points

  lemma PointStays(chunks: seq<ChunkRow>, log: map<FileId, seq<Accepted>>, id: (FileId, nat), point: Point,
                   after: seq<ChunkRow>, more: map<FileId, seq<Accepted>>)
    requires PointOk(chunks, log, id, point) && LogGrows(log, more)
    requires FileRanges(chunks, id.0) <= FileRanges(after, id.0)
    ensures PointOk(after, more, id, point)
  {
    var was, now := Content(log[id.0]), Content(more[id.0]);
    assert now[point.range.start..point.range.end] == was[point.range.start..point.range.end];
  }

  lemma PointsGrow(chunks: seq<ChunkRow>, log: map<FileId, seq<Accepted>>, points: map<(FileId, nat), Point>,
                   after: seq<ChunkRow>, more: map<FileId, seq<Accepted>>)
    requires PointsOk(chunks, log, points) && LogGrows(log, more)
    requires forall f :: FileRanges(chunks, f) <= FileRanges(after, f)
    ensures PointsOk(after, more, points)
  {
    forall id | id in points
      ensures PointOk(after, more, id, points[id])
    {
      PointStays(chunks, log, id, points[id], after, more);
    }
  }

  // --------------------------------------------------------- only the queue moves

  /** Nothing an upload depends on has changed. */
  ghost predicate SameUploads(files: map<FileId, FileRow>, after: map<FileId, FileRow>) {
    && files.Keys == after.Keys
    && forall f | f in files ::
         && after[f].bytesReceived == files[f].bytesReceived && after[f].pendingTail == files[f].pendingTail
         && after[f].upload == files[f].upload && after[f].totalSize == files[f].totalSize
         && after[f].nextSequence == files[f].nextSequence && after[f].chunksTotal == files[f].chunksTotal
  }

  lemma SameRanges(chunks: seq<ChunkRow>, after: seq<ChunkRow>, f: FileId)
    requires Keys(chunks) == Keys(after)
    ensures FileRanges(after, f) == FileRanges(chunks, f)
  {
  }

  lemma StreamsStay(db: Db, log: map<FileId, seq<Accepted>>, after: Db)
    requires StreamsOk(db, log) && SameUploads(db.files, after.files) && Keys(db.chunks) == Keys(after.chunks)
    ensures StreamsOk(after, log)
  {
    forall f | f in log
      ensures FileStream(after.files[f], FileRanges(after.chunks, f), Content(log[f]))
    {
      SameRanges(db.chunks, after.chunks, f);
    }
  }

  lemma DiskStays(files: map<FileId, FileRow>, log: map<FileId, seq<Accepted>>, disk: Disk, after: map<FileId, FileRow>)
    requires DiskOk(files, log, disk) && SameUploads(files, after)
    ensures DiskOk(after, log, disk)
  {
    forall f | f in log
      ensures FileOnDisk(after[f], Content(log[f]), disk, f)
    {
      assert FileOnDisk(files[f], Content(log[f]), disk, f);
    }
  }

  lemma CompletionsStay(files: map<FileId, FileRow>, disk: Disk, completions: map<nat, Completion>,
                        after: map<FileId, FileRow>, more: Disk)
    requires CompletionsOk(files, disk, completions) && disk.final.Keys <= more.final.Keys
    requires files.Keys <= after.Keys && forall f | f in files :: after[f].upload == files[f].upload
    ensures CompletionsOk(after, more, completions)
  {
    forall r | r in completions
      ensures CompletionOk(after, more, completions[r])
    {
      assert CompletionOk(files, disk, completions[r]);
    }
  }

  lemma RefreshSameUploads(db: Db, f: FileId)
    ensures SameUploads(db.files, AfterRefresh(db, f).files)
    ensures AfterRefresh(db, f).chunks == db.chunks
  {
  }

  lemma ClaimSameUploads(db: Db, limit: nat)
    ensures SameUploads(db.files, AfterClaim(db, limit).files)
  {
  }

  lemma CompleteSameUploads(db: Db, jobs: seq<Job>)
    ensures SameUploads(db.files, AfterComplete(db, jobs).files)
    ensures AfterComplete(db, jobs).chunks == Mark(db.chunks, Ids(jobs), Indexed, 0)
  {
    if |jobs| > 0 {
      var f := jobs[0].fileId;
      RefreshSameUploads(Db(RecordIndexed(db.files, f, |jobs|), Mark(db.chunks, Ids(jobs), Indexed, 0)), f);
    }
  }

  lemma FailSameUploads(db: Db, jobs: seq<Job>, f: FileId)
    requires Listed(db.chunks, jobs, f)
    ensures SameUploads(db.files, AfterFail(db, jobs).files)
  {
    hide Mark;
    if |jobs| > 0 {
      FailIsRefreshed(db, jobs, f);
      RefreshSameUploads(FailedTables(db, jobs, f), f);
    }
  }

  /** After a queue operation only the workers and the points remain to be checked. */
  lemma QueueMoves(s: State, after: Db, workers: map<nat, Worker>)
    requires Inv(s) && s.Free() && TablesOk(after)
    requires SameUploads(s.db.files, after.files) && Keys(s.db.chunks) == Keys(after.chunks)
    requires WorkersOk(after.chunks, s.log, workers) && PointsOk(after.chunks, s.log, s.points)
    ensures Inv(s.(db := after, workers := workers))
  {
    hide TablesOk, StreamsOk, DiskOk, PointsOk, PointOk, WorkersOk, WorkerOk, FileStream, FileOnDisk;
    StreamsStay(s.db, s.log, after);
    DiskStays(s.db.files, s.log, s.disk, after.files);
    CompletionsStay(s.db.files, s.disk, s.completions, after.files, s.disk);
  }

  lemma OnlyWorkers(s: State, workers: map<nat, Worker>)
    requires Inv(s) && s.up && WorkersOk(s.db.chunks, s.log, workers)
    ensures Inv(s.(workers := workers))
  {
  }

  lemma OnlyPoints(s: State, points: map<(FileId, nat), Point>)
    requires Inv(s) && PointsOk(s.db.chunks, s.log, points)
    ensures Inv(s.(points := points))
  {
  }

  /** The other workers keep their batches when only `ids` change. */
  lemma OthersStay(chunks: seq<ChunkRow>, log: map<FileId, seq<Accepted>>, workers: map<nat, Worker>,
                   w: nat, ids: seq<nat>, after: seq<ChunkRow>)
    requires WorkersOk(chunks, log, workers) && |after| == |chunks|
    requires forall i | 0 <= i < |after| && i !in ids :: after[i] == chunks[i]
    requires NotAmong(workers, w, ids)
    ensures WorkersOk(after, log, workers - {w})
  {
    hide Listed, ListedJob;
    var rest := workers - {w};
    forall v | v in rest
      ensures WorkerOk(after, log, rest[v])
    {
      WorkerStays(chunks, log, rest[v], after, log);
    }
  }

  /** No worker other than `w` holds one of `ids`. */
  ghost predicate NotAmong(workers: map<nat, Worker>, w: nat, ids: seq<nat>) {
    forall v, k | v in workers && v != w && 0 <= k < |workers[v].jobs| :: workers[v].jobs[k].chunkId !in ids
  }
}
