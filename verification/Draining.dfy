/** Draining the queue with no one else at work: it ends, whatever ingesting does, and
    when the ranges can be read it leaves sound tables and a point for every row it
    indexed. */
module Draining {
  import opened Bytes
  import opened Chunker
  import opened Tables
  import opened Storage
  import opened JobQueue
  import opened Accounting
  import opened QueueLaws
  import opened Pipeline
  import opened Batches
  import opened Indexing
  import EndToEnd
  import KnownGaps

  // ----------------------------------------------------------------- when it stops

  /** A claim comes back empty only when no row is pending. */
  lemma EmptyMeansNonePending(chunks: seq<ChunkRow>, limit: nat, i: nat)
    requires limit > 0 && |BatchIds(chunks, limit)| == 0 && i < |chunks|
    ensures chunks[i].status != Pending
  {
    var oldest := OldestPending(chunks, 0);
    if oldest.Some? {
      assert Eligible(chunks, chunks[oldest.value].fileId, -1, oldest.value);
    }
  }

  /** A pending row may have been worked on, and is not left in processing. */
  ghost predicate Drained(was: ChunkRow, now: ChunkRow) {
    if was.status == Pending
    then now.status != Processing && KeyOf(now) == KeyOf(was) && was.retryCount <= now.retryCount
    else now == was
  }

  ghost predicate AllDrained(chunks: seq<ChunkRow>, after: seq<ChunkRow>) {
    |after| == |chunks| && forall i | 0 <= i < |chunks| :: Drained(chunks[i], after[i])
  }

  lemma BatchDrains(chunks: seq<ChunkRow>, db: Db, disk: Disk, points: Points, outcome: Outcome)
    requires AllDrained(chunks, db.chunks)
    ensures AllDrained(chunks, AfterBatch(db, disk, points, outcome).0.chunks)
  {
    hide AfterJobs, AfterClaim, BatchJobs;
    if |Batch(db)| > 0 {
      BatchLength(db, disk, points, outcome);
      forall i | 0 <= i < |chunks|
        ensures Drained(chunks[i], AfterBatch(db, disk, points, outcome).0.chunks[i])
      {
        RowAfterBatch(db, disk, points, outcome, i);
        assert Drained(chunks[i], db.chunks[i]);
      }
    }
  }

  // -------------------------------------------------------------- readable ranges

  ghost predicate ReadsText(disk: Disk, f: FileId, r: Range) {
    ReadRange(disk, f, r).Ok? && ReadRange(disk, f, r).value != []
  }

  /** Every row's range reads back as something. In the service it always does; see
      `EndToEnd.QueuedRangesReadable`. */
  ghost predicate RowsReadable(disk: Disk, keys: seq<ChunkKey>) {
    forall i | 0 <= i < |keys| :: ReadsText(disk, keys[i].fileId, keys[i].range)
  }

  lemma {:induction false} TextsRead(disk: Disk, jobs: seq<Job>, n: nat)
    requires n <= |jobs| && forall k | 0 <= k < |jobs| :: ReadsText(disk, jobs[k].fileId, jobs[k].range)
    ensures TextsOf(disk, jobs, n).Ok?
    ensures forall k | 0 <= k < n :: ReadRange(disk, jobs[k].fileId, jobs[k].range) == Ok(TextsOf(disk, jobs, n).value[k])
  {
    if n > 0 {
      TextsRead(disk, jobs, n - 1);
    }
  }

  /** The passages of a batch whose texts can all be read. */
  ghost predicate AllKept(disk: Disk, jobs: seq<Job>, kept: seq<Passage>) {
    && JobsOf(kept) == jobs
    && forall k | 0 <= k < |kept| :: ReadRange(disk, kept[k].job.fileId, kept[k].job.range) == Ok(kept[k].text)
  }

  lemma NothingEmpty(disk: Disk, jobs: seq<Job>)
    requires forall k | 0 <= k < |jobs| :: ReadsText(disk, jobs[k].fileId, jobs[k].range)
    ensures TextsOf(disk, jobs, |jobs|).Ok?
    ensures var texts := TextsOf(disk, jobs, |jobs|).value;
            Empty(jobs, texts) == [] && AllKept(disk, jobs, Kept(jobs, texts))
  {
    TextsRead(disk, jobs, |jobs|);
    var texts := TextsOf(disk, jobs, |jobs|).value;
    forall k | 0 <= k < |texts|
      ensures texts[k] != []
    {
      assert ReadsText(disk, jobs[k].fileId, jobs[k].range);
    }
    NothingIsEmpty(jobs, texts);
  }

  lemma BatchReadable(db: Db, disk: Disk, limit: nat)
    requires RowsReadable(disk, Keys(db.chunks))
    ensures forall k | 0 <= k < |BatchJobs(db, limit)| ::
              ReadsText(disk, BatchJobs(db, limit)[k].fileId, BatchJobs(db, limit)[k].range)
  {
    var jobs, ids := BatchJobs(db, limit), BatchIds(db.chunks, limit);
    forall k | 0 <= k < |jobs|
      ensures ReadsText(disk, jobs[k].fileId, jobs[k].range)
    {
      assert Keys(db.chunks)[ids[k]] == KeyOf(db.chunks[ids[k]]);
    }
  }

  /** Then a batch is completed as a whole or failed as a whole. */
  lemma BatchAsAWhole(db: Db, disk: Disk, points: Points, outcome: Outcome) returns (kept: seq<Passage>, n: nat)
    requires RowsReadable(disk, Keys(db.chunks)) && |Batch(db)| > 0
    ensures AllKept(disk, Batch(db), kept) && n <= |kept|
    ensures !Failing(outcome) ==> n == |kept|
    ensures var claimed := AfterClaim(db, BatchLimit(None));
            AfterBatch(db, disk, points, outcome) ==
            (if Failing(outcome) then AfterFail(claimed, Batch(db)) else AfterComplete(claimed, Batch(db)),
             StoreFirst(points, kept, n))
  {
    BatchReadable(db, disk, BatchLimit(None));
    NothingEmpty(disk, Batch(db));
    kept := Kept(Batch(db), TextsOf(disk, Batch(db), |Batch(db)|).value);
    n := StoredOf(outcome, |kept|);
  }

  /** However its reads and its ingestion end, a batch keeps the tables sound. */
  lemma JobsKeepTables(claimed: Db, disk: Disk, points: Points, jobs: seq<Job>, outcome: Outcome, f: FileId)
    requires TablesOk(claimed) && Held(claimed.chunks, jobs, f) && |jobs| > 0
    ensures var after := AfterJobs(claimed, disk, points, jobs, outcome).0;
            TablesOk(after) && Keys(after.chunks) == Keys(claimed.chunks)
  {
    hide TablesOk, Held, Listed, Empty, Kept, JobsOf, AfterComplete, AfterFail, StoreFirst, SameExcess, ExcessOf, Among, Sifted;
    HeldIsListed(claimed.chunks, jobs, f);
    FailKeepsTables(claimed, jobs, f);
    if TextsOf(disk, jobs, |jobs|).Ok? {
      var texts := TextsOf(disk, jobs, |jobs|).value;
      var sifted := AfterComplete(claimed, Empty(jobs, texts));
      AfterSifting(claimed, jobs, texts, f);
      CompleteKeepsTables(claimed, Empty(jobs, texts), f);
      FailKeepsTables(sifted, jobs, f);
      CompleteKeepsTables(sifted, JobsOf(Kept(jobs, texts)), f);
    }
  }

  lemma BatchKeepsTables(db: Db, disk: Disk, points: Points, outcome: Outcome)
    requires TablesOk(db)
    ensures TablesOk(AfterBatch(db, disk, points, outcome).0)
    ensures Keys(AfterBatch(db, disk, points, outcome).0.chunks) == Keys(db.chunks)
  {
    hide TablesOk, Held, BatchJobs, AfterClaim, AfterJobs, SameExcess;
    if |Batch(db)| > 0 {
      var limit := BatchLimit(None);
      ClaimKeepsTables(db, limit);
      ClaimHolds(db, limit);
      JobsKeepTables(AfterClaim(db, limit), disk, points, Batch(db), outcome, Batch(db)[0].fileId);
    }
  }

  /** With readable ranges nothing is counted twice either. */
  lemma BatchKeepsExcess(db: Db, disk: Disk, points: Points, outcome: Outcome)
    requires TablesOk(db) && RowsReadable(disk, Keys(db.chunks))
    ensures SameExcess(db, AfterBatch(db, disk, points, outcome).0)
  {
    hide TablesOk, RowsReadable, Held, BatchJobs, AfterClaim, AfterJobs, AfterComplete, AfterFail, ExcessOf, Among;
    if |Batch(db)| > 0 {
      var limit := BatchLimit(None);
      var kept, n := BatchAsAWhole(db, disk, points, outcome);
      var claimed, jobs := AfterClaim(db, limit), Batch(db);
      ClaimKeepsTables(db, limit);
      ClaimHolds(db, limit);
      CompleteKeepsTables(claimed, jobs, jobs[0].fileId);
      HeldIsListed(claimed.chunks, jobs, jobs[0].fileId);
      FailKeepsTables(claimed, jobs, jobs[0].fileId);
      HeldRows(claimed.chunks, jobs, jobs[0].fileId);
      AmongSame(claimed.chunks, Ids(jobs), jobs[0].fileId, Processing, Indexed);
    }
  }

  // -------------------------------------------------------------- what is stored

  /** The row's point is stored with its range and the text of that range. */
  ghost predicate PointRight(disk: Disk, points: Points, row: ChunkRow) {
    && (row.fileId, row.sequence) in points
    && ReadRange(disk, row.fileId, row.range) == Ok(points[(row.fileId, row.sequence)].text)
    && points[(row.fileId, row.sequence)].range == row.range
  }

  /** Rows that were pending and are indexed now have their points. */
  ghost predicate IndexedStored(disk: Disk, points: Points, chunks: seq<ChunkRow>, after: seq<ChunkRow>) {
    |after| == |chunks| && forall i | 0 <= i < |chunks| && chunks[i].status == Pending && after[i].status == Indexed ::
      PointRight(disk, points, after[i])
  }

  /** After storing, an id has the point of a passage with that id, or the one it
      had. */
  lemma {:induction false} StoredAt(points: Points, kept: seq<Passage>, n: nat, id: (FileId, nat)) returns (k: int)
    requires n <= |kept|
    ensures -1 <= k < n
    ensures k >= 0 ==> PointId(kept[k].job) == id && id in StoreFirst(points, kept, n)
    ensures k >= 0 ==> StoreFirst(points, kept, n)[id] == Point(kept[k].job.range, kept[k].text)
    ensures k < 0 && id in points ==> id in StoreFirst(points, kept, n) && StoreFirst(points, kept, n)[id] == points[id]
    ensures k < 0 ==> forall j | 0 <= j < n :: PointId(kept[j].job) != id
  {
    if n == 0 {
      k := -1;
    } else if PointId(kept[n - 1].job) == id {
      k := n - 1;
    } else {
      k := StoredAt(points, kept, n - 1, id);
    }
  }

  /** A job says of its row what the row says. */
  lemma JobKey(db: Db, jobs: seq<Job>, kept: seq<Passage>, disk: Disk, k: nat)
    requires jobs == Batch(db) && AllKept(disk, jobs, kept) && k < |kept|
    ensures kept[k].job.chunkId < |db.chunks| && Ids(jobs)[k] == kept[k].job.chunkId
    ensures kept[k].job == JobOf(db.chunks[kept[k].job.chunkId], kept[k].job.chunkId)
  {
    BatchIsPending(db, BatchLimit(None));
    assert JobsOf(kept)[k] == jobs[k];
  }

  lemma KeptAt(db: Db, disk: Disk, kept: seq<Passage>, i: nat) returns (j: nat)
    requires AllKept(disk, Batch(db), kept) && i < |db.chunks| && i in Ids(Batch(db))
    ensures j < |kept| && PointId(kept[j].job) == (db.chunks[i].fileId, db.chunks[i].sequence)
  {
    j :| j < |Batch(db)| && Ids(Batch(db))[j] == i;
    JobKey(db, Batch(db), kept, disk, j);
  }

  /** The point that a stored id gets is right for the row with that id. */
  lemma RowStored(db: Db, disk: Disk, points: Points, kept: seq<Passage>, n: nat, i: nat)
    requires Numbered(Keys(db.chunks)) && AllKept(disk, Batch(db), kept) && n <= |kept| && i < |db.chunks|
    requires PointRight(disk, points, db.chunks[i]) || (i in Ids(Batch(db)) && n == |kept|)
    ensures PointRight(disk, StoreFirst(points, kept, n), db.chunks[i])
  {
    var row := db.chunks[i];
    if i in Ids(Batch(db)) && n == |kept| {
      var j := KeptAt(db, disk, kept, i);
      assert PointId(kept[j].job) == (row.fileId, row.sequence);
    }
    var k := StoredAt(points, kept, n, (row.fileId, row.sequence));
    if k >= 0 {
      JobKey(db, Batch(db), kept, disk, k);
      IdsFollowSequences(Keys(db.chunks), i, kept[k].job.chunkId);
    }
  }

  lemma SamePointRight(disk: Disk, points: Points, row: ChunkRow, next: ChunkRow)
    requires PointRight(disk, points, row) && KeyOf(next) == KeyOf(row)
    ensures PointRight(disk, points, next)
  {
  }

  /** A batch that raised indexes nothing. */
  lemma RaisedIndexesNothing(db: Db, disk: Disk, points: Points, outcome: Outcome, i: nat)
    requires RowsReadable(disk, Keys(db.chunks)) && |Batch(db)| > 0 && Failing(outcome)
    requires i < |db.chunks| && i in Ids(Batch(db))
    ensures |AfterBatch(db, disk, points, outcome).0.chunks| == |db.chunks|
    ensures AfterBatch(db, disk, points, outcome).0.chunks[i].status != Indexed
  {
    hide AfterClaim, AfterFail, AfterComplete, BatchJobs, Held, Listed, ReadRange, RowsReadable, AllKept;
    var kept, n := BatchAsAWhole(db, disk, points, outcome);
    ClaimHolds(db, BatchLimit(None));
    HeldIsListed(AfterClaim(db, BatchLimit(None)).chunks, Batch(db), Batch(db)[0].fileId);
    RowAfterClaim(db, BatchLimit(None), i);
    FailAt(AfterClaim(db, BatchLimit(None)), Batch(db), Batch(db)[0].fileId, i);
  }

  lemma BatchStores(chunks: seq<ChunkRow>, db: Db, disk: Disk, points: Points, outcome: Outcome)
    requires Numbered(Keys(db.chunks)) && RowsReadable(disk, Keys(db.chunks))
    requires AllDrained(chunks, db.chunks) && IndexedStored(disk, points, chunks, db.chunks)
    ensures var (after, stored) := AfterBatch(db, disk, points, outcome);
            IndexedStored(disk, stored, chunks, after.chunks)
  {
    if |Batch(db)| > 0 {
      var (after, stored) := AfterBatch(db, disk, points, outcome);
      BatchLength(db, disk, points, outcome);
      forall i | 0 <= i < |chunks| && chunks[i].status == Pending && after.chunks[i].status == Indexed
        ensures PointRight(disk, stored, after.chunks[i])
      {
        OneStored(chunks, db, disk, points, outcome, i);
      }
    }
  }

  lemma OneStored(chunks: seq<ChunkRow>, db: Db, disk: Disk, points: Points, outcome: Outcome, i: nat)
    requires Numbered(Keys(db.chunks)) && RowsReadable(disk, Keys(db.chunks)) && |Batch(db)| > 0
    requires IndexedStored(disk, points, chunks, db.chunks) && i < |chunks| && chunks[i].status == Pending
    ensures var (after, stored) := AfterBatch(db, disk, points, outcome);
            && |after.chunks| == |chunks|
            && (after.chunks[i].status == Indexed ==> PointRight(disk, stored, after.chunks[i]))
  {
    hide ReadRange, Readable;
    var kept, n := BatchAsAWhole(db, disk, points, outcome);
    var after := AfterBatch(db, disk, points, outcome).0;
    RowAfterBatch(db, disk, points, outcome, i);
    if after.chunks[i].status == Indexed {
      if i in Ids(Batch(db)) && Failing(outcome) {
        RaisedIndexesNothing(db, disk, points, outcome, i);
      } else {
        RowStored(db, disk, points, kept, n, i);
        SamePointRight(disk, StoreFirst(points, kept, n), db.chunks[i], after.chunks[i]);
      }
    }
  }

  // -------------------------------------------------------------- what a client sees

  predicate HasPending(chunks: seq<ChunkRow>, f: FileId) {
    exists i | 0 <= i < |chunks| :: chunks[i].fileId == f && chunks[i].status == Pending
  }

  /** A completed upload with rows to work on, none of which anyone works on. */
  predicate Waits(db: Db, f: FileId) {
    && f in db.files && db.files[f].upload == Completed && HasPending(db.chunks, f)
    && forall i | 0 <= i < |db.chunks| && db.chunks[i].fileId == f :: db.chunks[i].status != Processing
  }

  /** It has rows to work on still, or its status has been looked at since. */
  predicate Served(db: Db, f: FileId) {
    f in db.files && db.files[f].upload == Completed && (HasPending(db.chunks, f) || !KnownGaps.Stuck(db.files, f))
  }

  /** Recording what became of jobs leaves the rows of other files alone, and no upload
      status changes. */
  lemma CompleteLeavesFile(db: Db, jobs: seq<Job>, g: FileId, f: FileId)
    requires Held(db.chunks, jobs, g) && f in db.files
    ensures var files := AfterComplete(db, jobs).files;
            && f in files && files[f].upload == db.files[f].upload
            && (f != g ==> files[f] == db.files[f])
            && (f == g && |jobs| > 0 ==> !KnownGaps.Stuck(files, f))
  {
    if |jobs| > 0 {
      assert HeldJob(db.chunks, jobs[0], g);
      KnownGaps.CompleteStuck(db, jobs, g, f);
    }
  }

  lemma FailLeavesFile(db: Db, jobs: seq<Job>, g: FileId, f: FileId)
    requires Listed(db.chunks, jobs, g) && |jobs| > 0 && f in db.files
    ensures var files := AfterFail(db, jobs).files;
            && f in files && files[f].upload == db.files[f].upload
            && (f != g ==> files[f] == db.files[f])
            && (f == g ==> !KnownGaps.Stuck(files, f))
  {
    hide AfterFail, Split, Mark, Listed, KnownGaps.Stuck;
    FailIsRefreshed(db, jobs, g);
    RecordedRow(db.files, g, |Ids(Split(jobs, true))|, f);
    KnownGaps.FailStuck(db, jobs, g, f);
  }

  /** A batch of the file ends with a look at its status, one of another file leaves it
      alone. */
  lemma JobsLeaveFile(claimed: Db, disk: Disk, points: Points, jobs: seq<Job>, outcome: Outcome, g: FileId, f: FileId)
    requires Held(claimed.chunks, jobs, g) && |jobs| > 0 && f in claimed.files
    ensures var files := AfterJobs(claimed, disk, points, jobs, outcome).0.files;
            && f in files && files[f].upload == claimed.files[f].upload
            && (f != g ==> files[f] == claimed.files[f])
            && (f == g ==> !KnownGaps.Stuck(files, f))
  {
    hide Held, Listed, Empty, Kept, JobsOf, AfterComplete, AfterFail, StoreFirst, Sifted, KnownGaps.Stuck;
    HeldIsListed(claimed.chunks, jobs, g);
    FailLeavesFile(claimed, jobs, g, f);
    if TextsOf(disk, jobs, |jobs|).Ok? {
      var texts := TextsOf(disk, jobs, |jobs|).value;
      var sifted := AfterComplete(claimed, Empty(jobs, texts));
      AfterSifting(claimed, jobs, texts, g);
      CompleteLeavesFile(claimed, Empty(jobs, texts), g, f);
      FailLeavesFile(sifted, jobs, g, f);
      CompleteLeavesFile(sifted, JobsOf(Kept(jobs, texts)), g, f);
      SomePart(jobs, texts);
    }
  }

  lemma SomePart(jobs: seq<Job>, texts: seq<seq<byte>>)
    requires |texts| == |jobs| > 0
    ensures |Kept(jobs, texts)| == 0 ==> |Empty(jobs, texts)| > 0
    ensures |JobsOf(Kept(jobs, texts))| == |Kept(jobs, texts)|
  {
    KeptOrEmpty(jobs, texts, jobs[0].chunkId);
    assert Ids(jobs)[0] == jobs[0].chunkId;
  }

  lemma ClaimLeavesFile(db: Db, limit: nat, f: FileId)
    requires f in db.files
    ensures var files := AfterClaim(db, limit).files;
            && f in files && files[f].upload == db.files[f].upload
            && (|BatchJobs(db, limit)| > 0 && f != BatchJobs(db, limit)[0].fileId ==> files[f] == db.files[f])
  {
    hide BatchJobs, Mark;
  }

  /** The rows of a batch are of one file. */
  lemma BatchOfOne(db: Db, i: nat)
    requires |Batch(db)| > 0 && i in Ids(Batch(db)) && i < |db.chunks|
    ensures db.chunks[i].fileId == Batch(db)[0].fileId
  {
    ClaimHolds(db, BatchLimit(None));
    RowAfterClaim(db, BatchLimit(None), i);
    var k :| 0 <= k < |Batch(db)| && Ids(Batch(db))[k] == i;
    assert HeldJob(AfterClaim(db, BatchLimit(None)).chunks, Batch(db)[k], Batch(db)[0].fileId);
  }

  /** Rows of other files wait on. */
  lemma PendingElsewhere(db: Db, disk: Disk, points: Points, outcome: Outcome, f: FileId)
    requires |Batch(db)| > 0 && Batch(db)[0].fileId != f && HasPending(db.chunks, f)
    ensures HasPending(AfterBatch(db, disk, points, outcome).0.chunks, f)
  {
    hide AfterBatch, BatchJobs, Worked;
    var i :| 0 <= i < |db.chunks| && db.chunks[i].fileId == f && db.chunks[i].status == Pending;
    if i in Ids(Batch(db)) {
      BatchOfOne(db, i);
    }
    RowAfterBatch(db, disk, points, outcome, i);
    NotWorked(db.chunks[i], AfterBatch(db, disk, points, outcome).0.chunks[i]);
  }

  lemma NotWorked(was: ChunkRow, now: ChunkRow)
    requires Worked(was, now, false)
    ensures now == was
  {
  }

  lemma BatchServes(db: Db, disk: Disk, points: Points, outcome: Outcome, f: FileId)
    requires Served(db, f) && |Batch(db)| > 0
    ensures Served(AfterBatch(db, disk, points, outcome).0, f)
  {
    hide Held, BatchJobs, AfterClaim, AfterJobs, HasPending;
    var limit := BatchLimit(None);
    var g := Batch(db)[0].fileId;
    ClaimHolds(db, limit);
    ClaimLeavesFile(db, limit, f);
    JobsLeaveFile(AfterClaim(db, limit), disk, points, Batch(db), outcome, g, f);
    if f != g && HasPending(db.chunks, f) {
      PendingElsewhere(db, disk, points, outcome, f);
    }
  }

  /** The status of a file is terminal, and is `completed` exactly when no row failed. */
  ghost predicate Concluded(db: Db, f: FileId) {
    && f in db.files && db.files[f].processing.Terminal() && EndToEnd.AllSettled(db.chunks, f)
    && (db.files[f].processing == Done <==> EndToEnd.NoneFailed(db.chunks, f))
  }

  /** When nothing is pending any more, a file that was waiting is concluded. */
  lemma ServedConcludes(was: Db, db: Db, f: FileId)
    requires Waits(was, f) && AllDrained(was.chunks, db.chunks) && Keys(db.chunks) == Keys(was.chunks)
    requires TablesOk(db) && Served(db, f) && forall i | 0 <= i < |db.chunks| :: db.chunks[i].status != Pending
    ensures Concluded(db, f)
  {
    hide Numbered, RowsOwned, RetriesBounded, Count, Ranges;
    forall i | 0 <= i < |db.chunks| && db.chunks[i].fileId == f
      ensures db.chunks[i].status == Indexed || db.chunks[i].status == Failed
    {
      assert Drained(was.chunks[i], db.chunks[i]);
      assert Keys(db.chunks)[i] == Keys(was.chunks)[i];
    }
    EndToEnd.AllSettledIff(db.chunks, f);
    EndToEnd.FourCounts(db.chunks, f, |db.chunks|);
    assert RowCounted(db.files[f], db.chunks, f) && RowSettled(db.files[f]);
    EndToEnd.FailedByCount(db.files[f], db.chunks, f);
  }

  // --------------------------------------------------------------------- the loop

  /** The tables are sound and every range can be read. */
  ghost predicate Healthy(db: Db, disk: Disk) {
    TablesOk(db) && RowsReadable(disk, Keys(db.chunks))
  }

  /** Tables and points after `n` batches, one after the other. */
  ghost function AfterBatches(db: Db, disk: Disk, points: Points, outcomes: nat -> Outcome, n: nat): (Db, Points) {
    if n == 0 then (db, points)
    else
      var (before, stored) := AfterBatches(db, disk, points, outcomes, n - 1);
      AfterBatch(before, disk, stored, outcomes(n - 1))
  }

  /** Each of the first `n` claims found something. */
  ghost predicate AllClaimed(db: Db, disk: Disk, points: Points, outcomes: nat -> Outcome, n: nat) {
    forall k | 0 <= k < n :: AnyPending(AfterBatches(db, disk, points, outcomes, k).0.chunks)
  }

  predicate AnyPending(chunks: seq<ChunkRow>) {
    exists i | 0 <= i < |chunks| :: chunks[i].status == Pending
  }

  lemma OneMoreBatch(db: Db, disk: Disk, points: Points, outcomes: nat -> Outcome, n: nat)
    requires AllClaimed(db, disk, points, outcomes, n) && |Batch(AfterBatches(db, disk, points, outcomes, n).0)| > 0
    ensures AllClaimed(db, disk, points, outcomes, n + 1)
  {
    hide AfterBatch, BatchIds;
    var now := AfterBatches(db, disk, points, outcomes, n).0;
    BatchIsPending(now, BatchLimit(None));
    assert Ids(Batch(now))[0] == Batch(now)[0].chunkId;
    assert now.chunks[Batch(now)[0].chunkId].status == Pending;
  }

  lemma FirstClaim(db: Db, disk: Disk, points: Points, outcomes: nat -> Outcome, n: nat)
    requires AllClaimed(db, disk, points, outcomes, n)
    ensures n > 0 ==> AnyPending(db.chunks)
  {
    assert AfterBatches(db, disk, points, outcomes, 0) == (db, points);
  }

  /** Processes the queue to empty, one batch for each claim that finds something.
      `outcomes` is any pattern of failures. */
  method DrainOnce(worker: IndexingWorker, outcomes: nat -> Outcome) returns (batches: nat)
    modifies worker.db, worker.store
    ensures batches <= old(Work(worker.db.chunks, |worker.db.chunks|))
    ensures (worker.db.Value(), worker.store.points)
         == AfterBatches(old(worker.db.Value()), worker.dir.Value(), old(worker.store.points), outcomes, batches)
    ensures AllClaimed(old(worker.db.Value()), worker.dir.Value(), old(worker.store.points), outcomes, batches)
    ensures batches == 0 <==> !AnyPending(old(worker.db.chunks))
    ensures AllDrained(old(worker.db.chunks), worker.db.chunks)
    ensures forall i | 0 <= i < |worker.db.chunks| :: worker.db.chunks[i].status != Pending
    ensures old(TablesOk(worker.db.Value())) ==>
              && TablesOk(worker.db.Value())
              && forall f | Waits(old(worker.db.Value()), f) :: Concluded(worker.db.Value(), f)
    ensures old(Healthy(worker.db.Value(), worker.dir.Value())) ==>
              && Healthy(worker.db.Value(), worker.dir.Value()) && SameExcess(old(worker.db.Value()), worker.db.Value())
              && IndexedStored(worker.dir.Value(), worker.store.points, old(worker.db.chunks), worker.db.chunks)
  {
    hide TablesOk, RowsReadable, AfterBatch, AllClaimed, Batch, IndexedStored, AllDrained, Served, Waits, Concluded, SameExcess, Work;
    var db, dir, store := worker.db, worker.dir, worker.store;
    ghost var first, disk, stored := db.Value(), dir.Value(), store.points;
    ghost var sound, healthy := TablesOk(first), Healthy(first, disk);
    DrainBegins(first, disk, store.points);
    batches := 0;
    var processed := true;
    while processed
      invariant dir.Value() == disk
      invariant AllDrained(first.chunks, db.chunks)
      invariant (db.Value(), store.points) == AfterBatches(first, disk, stored, outcomes, batches)
      invariant AllClaimed(first, disk, stored, outcomes, batches)
      invariant batches + Work(db.chunks, |db.chunks|) <= Work(first.chunks, |first.chunks|)
      invariant sound ==> TablesOk(db.Value()) && Keys(db.chunks) == Keys(first.chunks)
      invariant sound ==> forall f | Waits(first, f) :: Served(db.Value(), f)
      invariant healthy ==> RowsReadable(disk, Keys(db.chunks)) && SameExcess(first, db.Value())
      invariant healthy ==> IndexedStored(disk, store.points, first.chunks, db.chunks)
      invariant !processed ==> |Batch(db.Value())| == 0
      decreases Work(db.chunks, |db.chunks|), processed
    {
      ghost var before, points := db.Value(), store.points;
      processed := worker.ProcessOneBatch(outcomes(batches));
      if processed {
        OneMoreBatch(first, disk, stored, outcomes, batches);
        BatchUsesUpWork(before, disk, points, outcomes(batches));
        BatchDrains(first.chunks, before, disk, points, outcomes(batches));
        if sound {
          BatchKeepsTables(before, disk, points, outcomes(batches));
          forall f | Waits(first, f)
            ensures Served(db.Value(), f)
          {
            BatchServes(before, disk, points, outcomes(batches), f);
          }
        }
        if healthy {
          BatchIsCounted(first, before, disk, points, outcomes(batches));
          BatchStores(first.chunks, before, disk, points, outcomes(batches));
        }
        batches := batches + 1;
      } else {
        NoBatch(before, disk, points, outcomes(batches));
      }
    }
    NonePending(db.Value());
    FirstClaim(first, disk, stored, outcomes, batches);
    if sound {
      forall f | Waits(first, f)
        ensures Concluded(db.Value(), f)
      {
        ServedConcludes(first, db.Value(), f);
      }
    }
  }

  lemma DrainBegins(db: Db, disk: Disk, points: Points)
    ensures AllDrained(db.chunks, db.chunks) && SameExcess(db, db) && IndexedStored(disk, points, db.chunks, db.chunks)
    ensures forall f | Waits(db, f) :: Served(db, f)
    ensures Healthy(db, disk) ==> TablesOk(db)
    ensures forall outcomes :: AllClaimed(db, disk, points, outcomes, 0)
  {
  }

  lemma NoBatch(db: Db, disk: Disk, points: Points, outcome: Outcome)
    requires |Batch(db)| == 0
    ensures AfterBatch(db, disk, points, outcome) == (db, points)
  {
  }

  lemma BatchIsCounted(first: Db, db: Db, disk: Disk, points: Points, outcome: Outcome)
    requires SameExcess(first, db) && TablesOk(db) && RowsReadable(disk, Keys(db.chunks))
    ensures SameExcess(first, AfterBatch(db, disk, points, outcome).0)
  {
    hide AfterBatch, ExcessOf;
    BatchKeepsExcess(db, disk, points, outcome);
  }

  lemma NonePending(db: Db)
    requires |Batch(db)| == 0
    ensures forall i | 0 <= i < |db.chunks| :: db.chunks[i].status != Pending
  {
    forall i | 0 <= i < |db.chunks|
      ensures db.chunks[i].status != Pending
    {
      EmptyMeansNonePending(db.chunks, BatchLimit(None), i);
    }
  }
}
