/** Every queue operation keeps the accounts, and what it does to each row. */
module QueueLaws {
  import opened Tables
  import opened JobQueue
  import opened Accounting
  import Config

  // ---------------------------------------------------------------- held jobs

  /** The jobs are distinct rows of file `f`, all being processed, and each job
      says what its row says. */
  ghost predicate Held(chunks: seq<ChunkRow>, jobs: seq<Job>, f: FileId) {
    && Distinct(Ids(jobs))
    && forall k | 0 <= k < |jobs| :: HeldJob(chunks, jobs[k], f)
  }

  ghost predicate HeldJob(chunks: seq<ChunkRow>, job: Job, f: FileId) {
    ListedJob(chunks, job, f) && chunks[job.chunkId].status == Processing
  }

  /** The same of a batch some of whose jobs may have been completed as empty. */
  ghost predicate Listed(chunks: seq<ChunkRow>, jobs: seq<Job>, f: FileId) {
    && Distinct(Ids(jobs))
    && forall k | 0 <= k < |jobs| :: ListedJob(chunks, jobs[k], f)
  }

  ghost predicate ListedJob(chunks: seq<ChunkRow>, job: Job, f: FileId) {
    && job.chunkId < |chunks|
    && job == JobOf(chunks[job.chunkId], job.chunkId)
    && job.fileId == f
    && (chunks[job.chunkId].status == Processing || chunks[job.chunkId].status == Indexed)
  }

  lemma HeldIsListed(chunks: seq<ChunkRow>, jobs: seq<Job>, f: FileId)
    requires Held(chunks, jobs, f)
    ensures Listed(chunks, jobs, f)
  {
    forall k | 0 <= k < |jobs|
      ensures ListedJob(chunks, jobs[k], f)
    {
      assert HeldJob(chunks, jobs[k], f);
    }
  }

  lemma HeldRows(chunks: seq<ChunkRow>, jobs: seq<Job>, f: FileId)
    requires Held(chunks, jobs, f)
    ensures AllWith(chunks, Ids(jobs), f, Processing)
  {
    forall k | 0 <= k < |Ids(jobs)|
      ensures Ids(jobs)[k] < |chunks| && chunks[Ids(jobs)[k]].fileId == f && chunks[Ids(jobs)[k]].status == Processing
    {
      assert HeldJob(chunks, jobs[k], f);
    }
  }

  /** No listed row has failed. */
  lemma ListedRows(chunks: seq<ChunkRow>, jobs: seq<Job>, f: FileId)
    requires Listed(chunks, jobs, f)
    ensures AllOf(chunks, Ids(jobs), f) && Among(chunks, Ids(jobs), Failed) == 0
  {
    forall k | 0 <= k < |jobs|
      ensures Ids(jobs)[k] < |chunks| && chunks[Ids(jobs)[k]].fileId == f && chunks[Ids(jobs)[k]].status != Failed
    {
      assert ListedJob(chunks, jobs[k], f);
    }
    NoneAmong(chunks, Ids(jobs), Failed);
  }

  lemma {:induction false} NoneAmong(chunks: seq<ChunkRow>, ids: seq<nat>, s: ChunkStatus)
    requires forall k | 0 <= k < |ids| :: ids[k] < |chunks| && chunks[ids[k]].status != s
    ensures Among(chunks, ids, s) == 0
  {
    if |ids| > 0 {
      NoneAmong(chunks, ids[..|ids| - 1], s);
    }
  }

  // -------------------------------------------------------------------- one row

  /** Rows keep their keys; the marked ones, none of which had failed, are moved to
      `status`. What was indexed before is counted once more. */
  lemma CountedAfterMark(row: FileRow, chunks: seq<ChunkRow>, ids: seq<nat>, f: FileId,
                         status: ChunkStatus, retries: nat, g: FileId)
    requires Distinct(ids) && AllOf(chunks, ids, f) && Among(chunks, ids, Failed) == 0
    requires RowCounted(row, chunks, g)
    ensures var more := if g == f then |ids| else 0;
            var next := row.(chunksIndexed := row.chunksIndexed + (if status == Indexed then more else 0),
                             chunksFailed := row.chunksFailed + (if status == Failed then more else 0));
            var marked := Mark(chunks, ids, status, retries);
            && RowCounted(next, marked, g)
            && Excess(next, marked, g) == Excess(row, chunks, g) + if g == f then Among(chunks, ids, Indexed) else 0
  {
    hide Ranges, Count, Mark, Among;
    MarkKeepsKeys(chunks, ids, status, retries);
    CountMark(chunks, ids, f, status, retries, g, Indexed);
    CountMark(chunks, ids, f, status, retries, g, Failed);
  }

  // ---------------------------------------------------------------------- claim

  /** Every claimed row was pending, of one file, and in order of sequence. */
  lemma BatchIsPending(db: Db, limit: nat)
    ensures var ids := BatchIds(db.chunks, limit);
            && |ids| <= limit
            && Distinct(ids)
            && (|ids| > 0 ==> AllWith(db.chunks, ids, db.chunks[ids[0]].fileId, Pending))
            && Ids(BatchJobs(db, limit)) == ids
  {
    var ids := BatchIds(db.chunks, limit);
    assert Ids(BatchJobs(db, limit)) == ids;
  }

  /** Moving rows between statuses other than failed leaves the retries in bounds. */
  lemma MarkKeepsRetries(chunks: seq<ChunkRow>, ids: seq<nat>, status: ChunkStatus)
    requires Distinct(ids) && RetriesBounded(chunks) && status != Failed
    requires forall k | 0 <= k < |ids| :: ids[k] < |chunks| && chunks[ids[k]].status != Failed
    ensures RetriesBounded(Mark(chunks, ids, status, 0))
  {
    forall i | 0 <= i < |chunks|
      ensures Mark(chunks, ids, status, 0)[i] == if i in ids then Marked(chunks[i], status, 0) else chunks[i]
    {
      MarkAt(chunks, ids, status, 0, i);
    }
  }

  lemma AllWithIsOf(chunks: seq<ChunkRow>, ids: seq<nat>, f: FileId, from: ChunkStatus)
    requires AllWith(chunks, ids, f, from)
    ensures AllOf(chunks, ids, f)
    ensures from != Failed ==> Among(chunks, ids, Failed) == 0
    ensures from != Indexed ==> Among(chunks, ids, Indexed) == 0
  {
    AmongSame(chunks, ids, f, from, Failed);
    AmongSame(chunks, ids, f, from, Indexed);
  }

  lemma ClaimKeepsCounts(db: Db, ids: seq<nat>, f: FileId)
    requires Counted(db) && Distinct(ids) && AllWith(db.chunks, ids, f, Pending)
    ensures var after := Db(UpdateFile(db.files, f, MarkedStarted), Mark(db.chunks, ids, Processing, 0));
            Counted(after) && SameExcess(db, after)
  {
    hide FileRanges, Ranges, Count, Mark, Among;
    var after := Db(UpdateFile(db.files, f, MarkedStarted), Mark(db.chunks, ids, Processing, 0));
    AllWithIsOf(db.chunks, ids, f, Pending);
    forall g | g in after.files
      ensures RowCounted(after.files[g], after.chunks, g) && ExcessOf(after, g) == ExcessOf(db, g)
    {
      CountedAfterMark(db.files[g], db.chunks, ids, f, Processing, 0, g);
    }
  }

  lemma StartKeepsSettled(files: map<FileId, FileRow>, f: FileId)
    requires TerminalSettled(files)
    ensures TerminalSettled(UpdateFile(files, f, MarkedStarted))
  {
  }

  lemma StartKeepsOwned(files: map<FileId, FileRow>, keys: seq<ChunkKey>, f: FileId)
    requires RowsOwned(files, keys)
    ensures RowsOwned(UpdateFile(files, f, MarkedStarted), keys)
  {
  }

  lemma StartKeepsTables(db: Db, ids: seq<nat>, f: FileId)
    requires TablesOk(db) && Distinct(ids) && AllWith(db.chunks, ids, f, Pending)
    ensures TablesOk(Db(UpdateFile(db.files, f, MarkedStarted), Mark(db.chunks, ids, Processing, 0)))
    ensures SameExcess(db, Db(UpdateFile(db.files, f, MarkedStarted), Mark(db.chunks, ids, Processing, 0)))
    ensures Keys(Mark(db.chunks, ids, Processing, 0)) == Keys(db.chunks)
  {
    MarkKeepsKeys(db.chunks, ids, Processing, 0);
    ClaimKeepsCounts(db, ids, f);
    MarkKeepsRetries(db.chunks, ids, Processing);
    StartKeepsSettled(db.files, f);
    StartKeepsOwned(db.files, Keys(db.chunks), f);
  }

  lemma ClaimKeepsTables(db: Db, limit: nat)
    requires TablesOk(db)
    ensures TablesOk(AfterClaim(db, limit)) && SameExcess(db, AfterClaim(db, limit))
    ensures Keys(AfterClaim(db, limit).chunks) == Keys(db.chunks)
  {
    var ids := BatchIds(db.chunks, limit);
    BatchIsPending(db, limit);
    if |ids| > 0 {
      StartKeepsTables(db, ids, db.chunks[ids[0]].fileId);
    }
  }

  lemma ClaimHolds(db: Db, limit: nat)
    ensures var jobs := BatchJobs(db, limit);
            |jobs| > 0 ==> Held(AfterClaim(db, limit).chunks, jobs, jobs[0].fileId)
  {
    var ids, jobs := BatchIds(db.chunks, limit), BatchJobs(db, limit);
    BatchIsPending(db, limit);
    forall k | 0 <= k < |jobs|
      ensures HeldJob(AfterClaim(db, limit).chunks, jobs[k], jobs[0].fileId)
    {
      MarkAt(db.chunks, ids, Processing, 0, ids[k]);
    }
  }

  lemma BatchWasPending(db: Db, limit: nat)
    requires RowsOwned(db.files, Keys(db.chunks))
    ensures var jobs := BatchJobs(db, limit);
            && (|jobs| > 0 ==> jobs[0].fileId in db.files)
            && (forall k | 0 <= k < |jobs| :: jobs[k].chunkId < |db.chunks| && db.chunks[jobs[k].chunkId].status == Pending)
  {
    var ids := BatchIds(db.chunks, limit);
    BatchIsPending(db, limit);
    if |ids| > 0 {
      assert Keys(db.chunks)[ids[0]].fileId in db.files;
    }
  }

  /** The claimer holds the rows it was given, and no row anyone else held. */
  lemma ClaimIsExclusive(db: Db, limit: nat)
    requires TablesOk(db)
    ensures var jobs := BatchJobs(db, limit);
            && (|jobs| > 0 ==> jobs[0].fileId in db.files && Held(AfterClaim(db, limit).chunks, jobs, jobs[0].fileId))
            && (forall k | 0 <= k < |jobs| :: jobs[k].chunkId < |db.chunks| && db.chunks[jobs[k].chunkId].status == Pending)
  {
    BatchWasPending(db, limit);
    ClaimHolds(db, limit);
  }

  // ------------------------------------------------------------------- complete

  /** A refresh puts right the status of its file, if that was terminal already. */
  lemma RefreshRepairs(db: Db, f: FileId)
    requires Numbered(Keys(db.chunks)) && RowsOwned(db.files, Keys(db.chunks)) && Counted(db) && RetriesBounded(db.chunks)
    requires forall g | g in db.files && g != f :: RowSettled(db.files[g])
    requires f in db.files && db.files[f].processing.Terminal() ==>
               db.files[f].upload == Completed && db.files[f].chunksIndexed + db.files[f].chunksFailed >= db.files[f].chunksTotal
    ensures TablesOk(AfterRefresh(db, f)) && SameExcess(db, AfterRefresh(db, f))
  {
    hide Numbered, RetriesBounded, FileRanges, CountAll, RowCounted, Excess;
    RefreshCounts(db, f);
    RefreshSettles(db.files, db.chunks, f);
  }

  lemma RefreshCounts(db: Db, f: FileId)
    requires Counted(db)
    ensures Counted(AfterRefresh(db, f)) && SameExcess(db, AfterRefresh(db, f)) && AfterRefresh(db, f).chunks == db.chunks
  {
    hide FileRanges, CountAll;
    forall g | g in AfterRefresh(db, f).files
      ensures g in db.files && RowCounted(AfterRefresh(db, f).files[g], db.chunks, g)
    {
      assert RowCounted(db.files[g], db.chunks, g);
    }
  }

  lemma RefreshSettles(files: map<FileId, FileRow>, chunks: seq<ChunkRow>, f: FileId)
    requires forall g | g in files && g != f :: RowSettled(files[g])
    requires f in files && files[f].processing.Terminal() ==>
               files[f].upload == Completed && files[f].chunksIndexed + files[f].chunksFailed >= files[f].chunksTotal
    ensures TerminalSettled(AfterRefresh(Db(files, chunks), f).files)
  {
  }

  lemma CompleteKeepsCounts(db: Db, ids: seq<nat>, f: FileId)
    requires Counted(db) && Distinct(ids) && AllWith(db.chunks, ids, f, Processing)
    ensures var after := Db(RecordIndexed(db.files, f, |ids|), Mark(db.chunks, ids, Indexed, 0));
            Counted(after) && SameExcess(db, after)
  {
    hide RowCounted, Excess, Mark, Among, RecordIndexed, UpdateFile;
    var after := Db(RecordIndexed(db.files, f, |ids|), Mark(db.chunks, ids, Indexed, 0));
    AllWithIsOf(db.chunks, ids, f, Processing);
    RecordedKeys(db.files, f, |ids|);
    forall g | g in after.files
      ensures RowCounted(after.files[g], after.chunks, g) && ExcessOf(after, g) == ExcessOf(db, g)
    {
      CountedAfterMark(db.files[g], db.chunks, ids, f, Indexed, 0, g);
      RecordedRow(db.files, f, |ids|, g);
    }
  }

  lemma RecordedKeys(files: map<FileId, FileRow>, f: FileId, count: nat)
    ensures RecordIndexed(files, f, count).Keys == files.Keys && RecordFailed(files, f, count).Keys == files.Keys
  {
  }

  lemma RecordedRow(files: map<FileId, FileRow>, f: FileId, count: nat, g: FileId)
    requires g in files
    ensures g in RecordIndexed(files, f, count) && g in RecordFailed(files, f, count)
    ensures RecordIndexed(files, f, count)[g] == files[g].(chunksIndexed := files[g].chunksIndexed + if g == f then count else 0)
    ensures RecordFailed(files, f, count)[g] == files[g].(chunksFailed := files[g].chunksFailed + if g == f then count else 0)
  {
  }

  /** With a row that is neither indexed nor failed, the two numbers fall short. */
  lemma {:induction false} Unsettled(chunks: seq<ChunkRow>, f: FileId, i: nat, n: nat)
    requires n <= |chunks|
    ensures Count(chunks, f, Indexed, n) + Count(chunks, f, Failed, n) <= |Ranges(Keys(chunks), f, n)|
    ensures i < n && chunks[i].fileId == f && chunks[i].status != Indexed && chunks[i].status != Failed ==>
              Count(chunks, f, Indexed, n) + Count(chunks, f, Failed, n) < |Ranges(Keys(chunks), f, n)|
  {
    if n > 0 {
      Unsettled(chunks, f, i, n - 1);
    }
  }

  /** Counting more indexed rows leaves a terminal status deserved. */
  lemma IndexKeepsSettled(files: map<FileId, FileRow>, f: FileId, count: nat)
    requires TerminalSettled(files)
    ensures TerminalSettled(RecordIndexed(files, f, count))
  {
    forall g | g in files
      ensures RowSettled(RecordIndexed(files, f, count)[g])
    {
      assert RowSettled(files[g]);
    }
  }

  lemma IndexKeepsTables(db: Db, ids: seq<nat>, f: FileId)
    requires TablesOk(db) && Distinct(ids) && AllWith(db.chunks, ids, f, Processing)
    ensures var after := Db(RecordIndexed(db.files, f, |ids|), Mark(db.chunks, ids, Indexed, 0));
            TablesOk(after) && SameExcess(db, after)
  {
    hide Ranges, Count, Mark;
    MarkKeepsKeys(db.chunks, ids, Indexed, 0);
    CompleteKeepsCounts(db, ids, f);
    MarkKeepsRetries(db.chunks, ids, Indexed);
    IndexKeepsSettled(db.files, f, |ids|);
  }

  /** A refresh of sound tables. */
  lemma RefreshKeepsTables(db: Db, f: FileId)
    requires TablesOk(db)
    ensures TablesOk(AfterRefresh(db, f)) && SameExcess(db, AfterRefresh(db, f))
  {
    assert f in db.files ==> RowSettled(db.files[f]);
    RefreshRepairs(db, f);
  }

  lemma CompleteKeepsTables(db: Db, jobs: seq<Job>, f: FileId)
    requires TablesOk(db) && Held(db.chunks, jobs, f)
    ensures TablesOk(AfterComplete(db, jobs)) && SameExcess(db, AfterComplete(db, jobs))
    ensures Keys(AfterComplete(db, jobs).chunks) == Keys(db.chunks)
  {
    hide TablesOk, Counted, Mark, ExcessOf;
    if |jobs| > 0 {
      assert HeldJob(db.chunks, jobs[0], f);
      HeldRows(db.chunks, jobs, f);
      MarkKeepsKeys(db.chunks, Ids(jobs), Indexed, 0);
      IndexKeepsTables(db, Ids(jobs), f);
      RefreshKeepsTables(Db(RecordIndexed(db.files, f, |jobs|), Mark(db.chunks, Ids(jobs), Indexed, 0)), f);
    }
  }

  // ----------------------------------------------------------------------- fail

  lemma {:induction false} SplitParts(jobs: seq<Job>)
    ensures |Split(jobs, true)| + |Split(jobs, false)| == |jobs|
    ensures forall job | job in jobs :: job in Split(jobs, Exhausted(job))
  {
    if |jobs| > 0 {
      SplitParts(jobs[..|jobs| - 1]);
    }
  }

  lemma {:induction false} SplitListed(chunks: seq<ChunkRow>, jobs: seq<Job>, f: FileId, e: bool)
    requires Listed(chunks, jobs, f)
    ensures Listed(chunks, Split(jobs, e), f)
  {
    if |jobs| > 0 {
      var n := |jobs| - 1;
      assert Ids(jobs[..n]) == Ids(jobs)[..n];
      SplitListed(chunks, jobs[..n], f, e);
      var part := Split(jobs[..n], e);
      forall k | 0 <= k < |part|
        ensures part[k].chunkId != jobs[n].chunkId
      {
        var j :| 0 <= j < n && jobs[j] == part[k];
        assert Ids(jobs)[j] != Ids(jobs)[n];
      }
      assert Ids(part + [jobs[n]]) == Ids(part) + [jobs[n].chunkId] && part + [] == part;
    }
  }

  /** A listed id is in exactly the part that its retries put it in. */
  lemma SplitIds(chunks: seq<ChunkRow>, jobs: seq<Job>, f: FileId, i: nat, e: bool)
    requires Listed(chunks, jobs, f)
    ensures i in Ids(Split(jobs, e)) <==>
              i in Ids(jobs) && i < |chunks| && (chunks[i].retryCount + 1 >= Config.MAX_RETRIES) == e
  {
    hide Split;
    SplitParts(jobs);
    SplitListed(chunks, jobs, f, e);
    var part := Split(jobs, e);
    if i in Ids(part) {
      var k :| 0 <= k < |part| && Ids(part)[k] == i;
      var j :| 0 <= j < |jobs| && jobs[j] == part[k];
      assert Ids(jobs)[j] == i && ListedJob(chunks, jobs[j], f);
    }
    if i in Ids(jobs) {
      var j :| 0 <= j < |jobs| && Ids(jobs)[j] == i;
      assert ListedJob(chunks, jobs[j], f);
      if Exhausted(jobs[j]) == e {
        var k :| 0 <= k < |part| && part[k] == jobs[j];
        assert Ids(part)[k] == i;
      }
    }
  }

  /** A failed attempt: back to the queue, or failed for good. */
  function AfterAttempt(row: ChunkRow): ChunkRow {
    Marked(row, if row.retryCount + 1 >= Config.MAX_RETRIES then Failed else Pending, 1)
  }

  lemma FailAt(db: Db, jobs: seq<Job>, f: FileId, i: nat)
    requires Listed(db.chunks, jobs, f) && i < |db.chunks|
    ensures |AfterFail(db, jobs).chunks| == |db.chunks|
    ensures AfterFail(db, jobs).chunks[i] == if i in Ids(jobs) then AfterAttempt(db.chunks[i]) else db.chunks[i]
  {
    SplitListed(db.chunks, jobs, f, false);
    SplitListed(db.chunks, jobs, f, true);
    SplitIds(db.chunks, jobs, f, i, false);
    SplitIds(db.chunks, jobs, f, i, true);
    var retryable, exhausted := Ids(Split(jobs, false)), Ids(Split(jobs, true));
    MarkAt(db.chunks, retryable, Pending, 1, i);
    MarkAt(Mark(db.chunks, retryable, Pending, 1), exhausted, Failed, 1, i);
  }

  /** What `AfterFail` does to the tables before the final refresh. */
  function FailedTables(db: Db, jobs: seq<Job>, f: FileId): Db {
    var retryable, exhausted := Ids(Split(jobs, false)), Ids(Split(jobs, true));
    Db(RecordFailed(db.files, f, |exhausted|), Mark(Mark(db.chunks, retryable, Pending, 1), exhausted, Failed, 1))
  }

  /** The exhausted rows are as they were after the others were requeued. */
  lemma ExhaustedUntouched(chunks: seq<ChunkRow>, jobs: seq<Job>, f: FileId)
    requires Listed(chunks, jobs, f)
    ensures var requeued, exhausted := Mark(chunks, Ids(Split(jobs, false)), Pending, 1), Split(jobs, true);
            && Listed(requeued, exhausted, f)
            && forall k | 0 <= k < |exhausted| :: Ids(exhausted)[k] < |chunks| && requeued[Ids(exhausted)[k]] == chunks[Ids(exhausted)[k]]
  {
    SplitListed(chunks, jobs, f, false);
    SplitListed(chunks, jobs, f, true);
    var exhausted := Ids(Split(jobs, true));
    forall k | 0 <= k < |exhausted|
      ensures exhausted[k] < |chunks| && Mark(chunks, Ids(Split(jobs, false)), Pending, 1)[exhausted[k]] == chunks[exhausted[k]]
      ensures ListedJob(Mark(chunks, Ids(Split(jobs, false)), Pending, 1), Split(jobs, true)[k], f)
    {
      assert ListedJob(chunks, Split(jobs, true)[k], f);
      SplitIds(chunks, jobs, f, exhausted[k], false);
      SplitIds(chunks, jobs, f, exhausted[k], true);
      MarkAt(chunks, Ids(Split(jobs, false)), Pending, 1, exhausted[k]);
    }
  }

  lemma {:induction false} AmongParts(chunks: seq<ChunkRow>, jobs: seq<Job>, s: ChunkStatus)
    ensures Among(chunks, Ids(Split(jobs, true)), s) + Among(chunks, Ids(Split(jobs, false)), s) == Among(chunks, Ids(jobs), s)
  {
    hide Among;
    if |jobs| == 0 {
      NoneAmong(chunks, Ids(jobs), s);
    } else {
      var n := |jobs| - 1;
      AmongParts(chunks, jobs[..n], s);
      SplitSnoc(jobs);
      var e := Exhausted(jobs[n]);
      assert jobs == jobs[..n] + [jobs[n]];
      IdsAmongSnoc(chunks, jobs[..n], jobs[n], s);
      IdsAmongSnoc(chunks, Split(jobs[..n], e), jobs[n], s);
    }
  }

  lemma SplitSnoc(jobs: seq<Job>)
    requires |jobs| > 0
    ensures var n := |jobs| - 1;
            var e := Exhausted(jobs[n]);
            Split(jobs, e) == Split(jobs[..n], e) + [jobs[n]] && Split(jobs, !e) == Split(jobs[..n], !e)
  {
    assert Split(jobs[..|jobs| - 1], !Exhausted(jobs[|jobs| - 1])) + [] == Split(jobs[..|jobs| - 1], !Exhausted(jobs[|jobs| - 1]));
  }

  lemma IdsAmongSnoc(chunks: seq<ChunkRow>, jobs: seq<Job>, job: Job, s: ChunkStatus)
    ensures Among(chunks, Ids(jobs + [job]), s)
         == Among(chunks, Ids(jobs), s) + One(job.chunkId < |chunks| && chunks[job.chunkId].status == s)
  {
    assert Ids(jobs + [job]) == Ids(jobs) + [job.chunkId];
    AmongSnoc(chunks, Ids(jobs), job.chunkId, s);
  }

  lemma AmongSnoc(chunks: seq<ChunkRow>, ids: seq<nat>, id: nat, s: ChunkStatus)
    ensures Among(chunks, ids + [id], s) == Among(chunks, ids, s) + One(id < |chunks| && chunks[id].status == s)
  {
    assert (ids + [id])[..|ids|] == ids;
  }

  /** What a failure does to the counts: those completed as empty are counted still. */
  lemma FailKeepsCounts(db: Db, jobs: seq<Job>, f: FileId)
    requires Counted(db) && Listed(db.chunks, jobs, f)
    ensures var after := FailedTables(db, jobs, f);
            && Keys(after.chunks) == Keys(db.chunks) && Counted(after)
            && forall g | g in db.files ::
                 ExcessOf(after, g) == ExcessOf(db, g) + if g == f then Among(db.chunks, Ids(jobs), Indexed) else 0
  {
    hide FileRanges, Ranges, Count, Mark, Among, Split;
    var retryable, exhausted := Ids(Split(jobs, false)), Ids(Split(jobs, true));
    SplitListed(db.chunks, jobs, f, false);
    SplitListed(db.chunks, jobs, f, true);
    ListedRows(db.chunks, Split(jobs, false), f);
    var requeued := Mark(db.chunks, retryable, Pending, 1);
    ExhaustedUntouched(db.chunks, jobs, f);
    ListedRows(requeued, Split(jobs, true), f);
    AmongStays(db.chunks, requeued, exhausted, Indexed);
    AmongParts(db.chunks, jobs, Indexed);
    MarkKeepsKeys(db.chunks, retryable, Pending, 1);
    MarkKeepsKeys(requeued, exhausted, Failed, 1);
    var after := FailedTables(db, jobs, f);
    forall g | g in after.files
      ensures RowCounted(after.files[g], after.chunks, g)
      ensures ExcessOf(after, g) == ExcessOf(db, g) + if g == f then Among(db.chunks, Ids(jobs), Indexed) else 0
    {
      CountedAfterMark(db.files[g], db.chunks, retryable, f, Pending, 1, g);
      CountedAfterMark(db.files[g], requeued, exhausted, f, Failed, 1, g);
    }
  }

  lemma FailKeepsRetries(db: Db, jobs: seq<Job>, f: FileId)
    requires RetriesBounded(db.chunks) && Listed(db.chunks, jobs, f)
    ensures RetriesBounded(AfterFail(db, jobs).chunks)
  {
    forall i | 0 <= i < |db.chunks|
      ensures |AfterFail(db, jobs).chunks| == |db.chunks|
      ensures AfterFail(db, jobs).chunks[i] == if i in Ids(jobs) then AfterAttempt(db.chunks[i]) else db.chunks[i]
    {
      FailAt(db, jobs, f, i);
    }
    forall i | 0 <= i < |db.chunks| && i in Ids(jobs)
      ensures db.chunks[i].status == Processing || db.chunks[i].status == Indexed
    {
      var j :| 0 <= j < |jobs| && Ids(jobs)[j] == i;
      assert ListedJob(db.chunks, jobs[j], f);
    }
    assert |db.chunks| == 0 ==> |AfterFail(db, jobs).chunks| == 0;
  }

  lemma FailIsRefreshed(db: Db, jobs: seq<Job>, f: FileId)
    requires Listed(db.chunks, jobs, f) && |jobs| > 0
    ensures AfterFail(db, jobs) == AfterRefresh(FailedTables(db, jobs, f), f)
  {
    assert ListedJob(db.chunks, jobs[0], f);
    if |Split(jobs, true)| == 0 {
      assert RecordFailed(db.files, f, 0) == db.files;
    }
  }

  /** A failed batch keeps the tables sound. A row that was completed as empty before
      goes back to the queue but stays counted. */
  lemma FailKeepsTables(db: Db, jobs: seq<Job>, f: FileId)
    requires TablesOk(db) && Listed(db.chunks, jobs, f)
    ensures TablesOk(AfterFail(db, jobs))
    ensures Keys(AfterFail(db, jobs).chunks) == Keys(db.chunks)
    ensures AfterFail(db, jobs).files.Keys == db.files.Keys
    ensures forall g | g in db.files ::
              ExcessOf(AfterFail(db, jobs), g) == ExcessOf(db, g) + if g == f then Among(db.chunks, Ids(jobs), Indexed) else 0
  {
    hide Ranges, Count, Listed, ListedJob, Mark, FileRanges, Among, Split;
    if |jobs| > 0 {
      FailKeepsCounts(db, jobs, f);
      FailKeepsRetries(db, jobs, f);
      FailIsRefreshed(db, jobs, f);
      FailedSettled(db, jobs, f);
      RefreshRepairs(FailedTables(db, jobs, f), f);
    } else {
      NoneAmong(db.chunks, Ids(jobs), Indexed);
    }
  }

  lemma FailedSettled(db: Db, jobs: seq<Job>, f: FileId)
    requires TerminalSettled(db.files)
    ensures var files := FailedTables(db, jobs, f).files;
            && files.Keys == db.files.Keys
            && (forall g | g in files && g != f :: RowSettled(files[g]))
            && (f in files && files[f].processing.Terminal() ==>
                  files[f].upload == Completed && files[f].chunksIndexed + files[f].chunksFailed >= files[f].chunksTotal)
  {
    hide Split, Mark;
    assert f in db.files ==> RowSettled(db.files[f]);
  }

  // -------------------------------------------------------------------- recovery

  lemma {:induction false} CountReset(chunks: seq<ChunkRow>, f: FileId, s: ChunkStatus, n: nat)
    requires n <= |chunks| && (s == Indexed || s == Failed)
    ensures Count(ResetStuck(chunks), f, s, n) == Count(chunks, f, s, n)
  {
    if n > 0 {
      CountReset(chunks, f, s, n - 1);
    }
  }

  lemma RecoverKeepsCounts(db: Db)
    requires Counted(db)
    ensures Counted(AfterRecover(db)) && SameExcess(db, AfterRecover(db))
    ensures Keys(AfterRecover(db).chunks) == Keys(db.chunks)
  {
    var after := AfterRecover(db);
    assert Keys(after.chunks) == Keys(db.chunks);
    forall g | g in after.files
      ensures RowCounted(after.files[g], after.chunks, g) && ExcessOf(after, g) == ExcessOf(db, g)
    {
      assert RowCounted(db.files[g], db.chunks, g);
      CountReset(db.chunks, g, Indexed, |db.chunks|);
      CountReset(db.chunks, g, Failed, |db.chunks|);
    }
  }

  lemma RecoverKeepsRetries(chunks: seq<ChunkRow>)
    requires RetriesBounded(chunks)
    ensures RetriesBounded(ResetStuck(chunks))
  {
  }

  lemma RecoverKeepsSettled(files: map<FileId, FileRow>)
    requires TerminalSettled(files)
    ensures TerminalSettled(map f | f in files :: Reverted(files[f]))
  {
    forall f | f in files
      ensures RowSettled(Reverted(files[f]))
    {
      assert RowSettled(files[f]);
    }
  }

  lemma RecoverKeepsTables(db: Db)
    requires TablesOk(db)
    ensures TablesOk(AfterRecover(db)) && SameExcess(db, AfterRecover(db))
    ensures Keys(AfterRecover(db).chunks) == Keys(db.chunks)
  {
    RecoverKeepsCounts(db);
    RecoverKeepsRetries(db.chunks);
    RecoverKeepsSettled(db.files);
    var after := AfterRecover(db);
    assert RowsOwned(after.files, Keys(after.chunks));
  }
}
