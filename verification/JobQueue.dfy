/** The durable job queue: what each operation does to the two tables, as a
    function, and the methods that do it. */
module JobQueue {
  import opened Bytes
  import opened Chunker
  import opened Tables
  import Config

  /** One passage awaiting embedding, as a worker holds it. */
  datatype Job = Job(chunkId: nat, fileId: FileId, sequence: nat, range: Range, retryCount: nat)

  function JobOf(row: ChunkRow, id: nat): Job {
    Job(id, row.fileId, row.sequence, row.range, row.retryCount)
  }

  function Ids(jobs: seq<Job>): seq<nat> {
    seq(|jobs|, i requires 0 <= i < |jobs| => jobs[i].chunkId)
  }

  // ---------------------------------------------------------------------- claim

  function BatchLimit(limit: Option<nat>): nat {
    if limit.Some? && limit.value != 0 then limit.value else Config.CLAIM_BATCH_SIZE
  }

  function BatchIds(chunks: seq<ChunkRow>, limit: nat): (ids: seq<nat>)
    ensures forall k | 0 <= k < |ids| :: ids[k] < |chunks|
  {
    match OldestPending(chunks, 0)
    case None => []
    case Some(oldest) => SelectPending(chunks, chunks[oldest].fileId, -1, limit)
  }

  /** The jobs a claim hands out: a run of one file's pending rows, of the file
      with the oldest pending row. */
  function BatchJobs(db: Db, limit: nat): seq<Job> {
    var ids := BatchIds(db.chunks, limit);
    seq(|ids|, k requires 0 <= k < |ids| => JobOf(db.chunks[ids[k]], ids[k]))
  }

  function AfterClaim(db: Db, limit: nat): Db {
    var jobs := BatchJobs(db, limit);
    if |jobs| == 0 then db
    else Db(UpdateFile(db.files, jobs[0].fileId, MarkedStarted), Mark(db.chunks, Ids(jobs), Processing, 0))
  }

  // ------------------------------------------------------------ complete and fail

  function AfterRefresh(db: Db, f: FileId): Db {
    if f !in db.files then db
    else
      var row := db.files[f];
      if row.upload != Completed || row.chunksIndexed + row.chunksFailed < row.chunksTotal then db
      else db.(files := db.files[f := row.(processing := if row.chunksFailed == 0 then Done else DoneWithFailures)])
  }

  function AfterComplete(db: Db, jobs: seq<Job>): Db {
    if |jobs| == 0 then db
    else
      var f := jobs[0].fileId;
      var chunks := Mark(db.chunks, Ids(jobs), Indexed, 0);
      AfterRefresh(Db(RecordIndexed(db.files, f, |jobs|), chunks), f)
  }

  predicate Exhausted(job: Job) {
    job.retryCount + 1 >= Config.MAX_RETRIES
  }

  /** The jobs whose exhaustion is `exhausted`, in order. */
  function Split(jobs: seq<Job>, exhausted: bool): (part: seq<Job>)
    ensures forall k | 0 <= k < |part| :: part[k] in jobs && Exhausted(part[k]) == exhausted
  {
    if |jobs| == 0 then []
    else
      var n := |jobs| - 1;
      Split(jobs[..n], exhausted) + if Exhausted(jobs[n]) == exhausted then [jobs[n]] else []
  }

  function AfterFail(db: Db, jobs: seq<Job>): Db {
    if |jobs| == 0 then db
    else
      var f := jobs[0].fileId;
      var exhausted := Split(jobs, true);
      var retried := Mark(db.chunks, Ids(Split(jobs, false)), Pending, 1);
      var chunks := Mark(retried, Ids(exhausted), Failed, 1);
      var files := if |exhausted| == 0 then db.files
                   else RecordFailed(db.files, f, |exhausted|);
      AfterRefresh(Db(files, chunks), f)
  }

  // -------------------------------------------------------------------- recovery

  function AfterRecover(db: Db): Db {
    Db(map f | f in db.files :: Reverted(db.files[f]), ResetStuck(db.chunks))
  }

  // ---------------------------------------------------------------- the operations

  /** Inserts passage ranges as pending jobs; returns the next free sequence. */
  method Enqueue(db: Database, f: FileId, passages: seq<Range>, start: nat) returns (next: nat)
    modifies db`chunks
    ensures db.chunks == InsertPending(old(db.chunks), f, passages, start)
    ensures next == start + |passages|
  {
    if |passages| == 0 {
      return start;
    }
    db.InsertPendingRows(f, passages, start);
    next := start + |passages|;
  }

  method ClaimBatch(db: Database, limit: Option<nat>) returns (jobs: seq<Job>)
    modifies db
    ensures jobs == BatchJobs(old(db.Value()), BatchLimit(limit))
    ensures db.Value() == AfterClaim(old(db.Value()), BatchLimit(limit))
  {
    var n := BatchLimit(limit);
    var oldest := OldestPending(db.chunks, 0);
    if oldest.None? {
      return [];
    }
    var f := db.chunks[oldest.value].fileId;
    var ids := SelectPending(db.chunks, f, -1, n);
    var rows := db.chunks;
    jobs := seq(|ids|, k requires 0 <= k < |ids| => JobOf(rows[ids[k]], ids[k]));
    if |jobs| == 0 {
      return [];
    }
    assert Ids(jobs) == ids;
    db.MarkRows(ids, Processing, 0);
    db.Update(f, MarkedStarted);
  }

  method CompleteBatch(db: Database, jobs: seq<Job>)
    modifies db
    ensures db.Value() == AfterComplete(old(db.Value()), jobs)
  {
    if |jobs| == 0 {
      return;
    }
    var f := jobs[0].fileId;
    db.MarkRows(Ids(jobs), Indexed, 0);
    db.Update(f, (row: FileRow) => row.(chunksIndexed := row.chunksIndexed + |jobs|));
    RefreshProcessingStatus(db, f);
  }

  method FailBatch(db: Database, jobs: seq<Job>)
    modifies db
    ensures db.Value() == AfterFail(old(db.Value()), jobs)
  {
    if |jobs| == 0 {
      return;
    }
    var retryable, exhausted := Split(jobs, false), Split(jobs, true);
    db.MarkRows(Ids(retryable), Pending, 1);
    db.MarkRows(Ids(exhausted), Failed, 1);
    var f := jobs[0].fileId;
    if |exhausted| > 0 {
      db.Update(f, (row: FileRow) => row.(chunksFailed := row.chunksFailed + |exhausted|));
    }
    RefreshProcessingStatus(db, f);
  }

  method RefreshProcessingStatus(db: Database, f: FileId)
    modifies db`files
    ensures db.Value() == AfterRefresh(old(db.Value()), f)
  {
    if f !in db.files {
      return;
    }
    var row := db.files[f];
    if row.upload != Completed {
      return;
    }
    var settled := row.chunksIndexed + row.chunksFailed;
    if settled < row.chunksTotal {
      return;
    }
    var status := if row.chunksFailed == 0 then Done else DoneWithFailures;
    db.files := db.files[f := row.(processing := status)];
  }

  method RecoverStuckJobs(db: Database)
    modifies db
    ensures db.Value() == AfterRecover(old(db.Value()))
  {
    db.ResetStuckRows();
    assert db.chunks == ResetStuck(old(db.chunks));
    db.MarkInterruptedUploads();
    db.RevertStuckFinalizing();
    assert db.files == AfterRecover(old(db.Value())).files;
  }
}
