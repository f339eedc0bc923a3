/** A longer run that the straddled read of `Scenarios.DoneButLost` leads to when its batch
    fails after all: a counted row goes back to the queue, the file is reported done with
    a row outstanding, and that report changes later. */
module DoubleCounts {
  import opened Bytes
  import opened Chunker
  import opened Tables
  import opened Storage
  import opened JobQueue
  import opened UploadService
  import opened Accounting
  import opened QueueLaws
  import opened Pipeline
  import opened Reachable
  import opened Refinement
  import opened Scenarios
  import Batches
  import Config
  import EndToEnd
  import Recounts
  import Resuming
  import Settling
  import Straddles

  // ------------------------------------------------------------------ one byte more

  /** The process runs, the file has its partial name and holds `bytes`. */
  ghost predicate Stage(s: State, bytes: seq<byte>, db: Db, completions: map<nat, Completion>, workers: map<nat, Worker>) {
    && s.Free() && s.db == db && s.completions == completions && s.workers == workers
    && s.disk == Disk(map[F := bytes], map[]) && F in s.log
  }

  /** Row `k`, of the one byte at `k`. */
  function R(k: nat, status: ChunkStatus, retries: nat): ChunkRow {
    ChunkRow(F, k, Range(k, k + 1), status, retries)
  }

  function J(k: nat, retries: nat): Job {
    Job(k, F, k, Range(k, k + 1), retries)
  }

  /** The file's row with `n` rows queued and `received` bytes. */
  function Row(n: nat, received: nat, tail: seq<byte>, upload: UploadStatus, processing: ProcessingStatus): FileRow {
    FileRow(OWNER, n, received, upload, processing, n, 0, 0, tail, n)
  }

  function One(row: FileRow, chunks: seq<ChunkRow>): Db {
    Db(map[F := row], chunks)
  }

  lemma ByteFed(row: FileRow, x: byte)
    requires row.pendingTail == []
    ensures FeedBody(row, [x]) == ChunkState([], row.bytesReceived, [x])
  {
    hide Config.PassageSizeFor;
    Config.SizesAreSafe(row.totalSize);
    assert [] + [x] == [x];
  }

  lemma ByteFlushed(row: FileRow, x: byte)
    requires row.pendingTail == [x] && row.bytesReceived > 0
    ensures FlushRow(row) == ChunkState([Range(row.bytesReceived - 1, row.bytesReceived)], row.bytesReceived, [])
  {
    var st := ChunkState([], row.bytesReceived - 1, [x]);
    DrainAfterCut(st, DEFAULT_PARAMS, true, 1);
  }

  lemma BytePut(n: nat, chunks: seq<ChunkRow>, p: ProcessingStatus, x: byte)
    requires n > 0
    ensures AfterPut(One(Row(n, n, [], Uploading, p), chunks), F, Row(n, n, [], Uploading, p), [x])
         == One(Row(n, n + 1, [x], Uploading, p), chunks)
  {
    hide FeedBody;
    var row := Row(n, n, [], Uploading, p);
    ByteFed(row, x);
    OnlyEntry(row, Row(n, n + 1, [x], Uploading, p));
  }

  lemma ByteClosed(n: nat, chunks: seq<ChunkRow>, p: ProcessingStatus, x: byte)
    requires |chunks| == n && forall k | 0 <= k < n :: chunks[k].sequence == k
    ensures AfterFinalizing(One(Row(n, n + 1, [x], Uploading, p), chunks), F)
         == One(Row(n + 1, n + 1, [], Finalizing, p), chunks + [R(n, Pending, 0)])
  {
    hide FlushRow;
    var row := Row(n, n + 1, [x], Uploading, p);
    var passages := [Range(n, n + 1)];
    ByteFlushed(row, x);
    OnlyEntry(row, Row(n + 1, n + 1, [], Finalizing, p));
    assert InsertPending(chunks, F, passages[..0], n) == chunks;
    assert !HasSequence(chunks, F, n);
    assert InsertPending(chunks, F, passages, n) == chunks + [ChunkRow(F, n + 0, passages[0], Pending, 0)];
  }

  lemma PutStage(labels: seq<Label>, bytes: seq<byte>, n: nat, chunks: seq<ChunkRow>, p: ProcessingStatus, x: byte,
                 workers: map<nat, Worker>)
    requires 0 < n == |bytes| <= 9 && Stage(Run(labels), bytes, One(Row(n, n, [], Uploading, p), chunks), map[], workers)
    ensures Stage(Run(labels + Resuming.PutLabels(F, OWNER, n, [x])), bytes + [x],
                  One(Row(n, n + 1, [x], Uploading, p), chunks), map[], workers)
  {
    hide Run, AfterPut, PutSteps;
    var s := Run(labels);
    Resuming.RunPut(labels, F, OWNER, n, [x]);
    Resuming.OpenMayGoOn(s.db, F, OWNER, n, [x]);
    PutAlone(s, F, OWNER, n, [x]);
    BytePut(n, chunks, p, x);
    OnlyEntry(bytes, bytes + [x]);
  }

  lemma CloseStage(labels: seq<Label>, bytes: seq<byte>, n: nat, chunks: seq<ChunkRow>, p: ProcessingStatus, x: byte,
                   workers: map<nat, Worker>)
    requires Stage(Run(labels), bytes, One(Row(n, n + 1, [x], Uploading, p), chunks), map[], workers)
    requires |chunks| == n && forall k | 0 <= k < n :: chunks[k].sequence == k
    ensures Stage(Run(labels + [CompleteClose(0, F, OWNER)]), bytes,
                  One(Row(n + 1, n + 1, [], Finalizing, p), chunks + [R(n, Pending, 0)]), map[0 := Completion(F, Closed)], workers)
  {
    hide Run, AfterFinalizing;
    RunAndClose(labels, 0, F, OWNER, Run(labels));
    ByteClosed(n, chunks, p, x);
    OnlyEntry(Completion(F, Closed), Completion(F, Closed));
  }

  lemma ReopenStage(labels: seq<Label>, bytes: seq<byte>, n: nat, chunks: seq<ChunkRow>, completions: map<nat, Completion>,
                    workers: map<nat, Worker>)
    requires Stage(Run(labels), bytes, One(Row(n, n, [], Finalizing, Waiting), chunks), completions, workers)
    requires forall k | 0 <= k < |chunks| :: chunks[k].status == Pending
    ensures Stage(Run(labels + [Crash, Recover]), bytes, One(Row(n, n, [], Uploading, Waiting), chunks), map[], map[])
  {
    hide Run, AfterPut, AfterFinalizing, AfterRecover;
    RunTwoMore(labels, Crash, Recover);
    ReopenedTables(n, chunks);
  }

  lemma ReopenedTables(n: nat, chunks: seq<ChunkRow>)
    requires forall k | 0 <= k < |chunks| :: chunks[k].status == Pending
    ensures AfterRecover(One(Row(n, n, [], Finalizing, Waiting), chunks)) == One(Row(n, n, [], Uploading, Waiting), chunks)
  {
    var files := map[F := Row(n, n, [], Finalizing, Waiting)];
    assert (map f | f in files :: Reverted(files[f])) == map[F := Row(n, n, [], Uploading, Waiting)];
    assert ResetStuck(chunks) == chunks;
  }

  /** The file of one letter, closed and then reopened by a crash; and a second letter. */
  const TO_ONE := TO_CLOSED + [Crash, Recover]
  const PUT_TWO := TO_ONE + Resuming.PutLabels(F, OWNER, 1, [66])
  const TO_TWO := PUT_TWO + [CompleteClose(0, F, OWNER)] + [Crash, Recover]

  const A: seq<byte> := LETTER
  const AB: seq<byte> := A + [66]
  const ABC: seq<byte> := AB + [67]

  lemma ClosedStage()
    ensures Stage(Run(TO_CLOSED), A, One(Row(1, 1, [], Finalizing, Waiting), [R(0, Pending, 0)]), map[0 := Completion(F, Closed)], map[])
  {
    hide Run, Drain, FeedBody, FlushRow, Step, AfterPut, AfterFinalizing;
    SentIsReached();
    RunAndClose(TO_SENT, 0, F, OWNER, SENT);
    LetterIsClosed(SENT, CLOSED.db);
  }

  lemma TwoStage()
    ensures Stage(Run(TO_TWO), AB, One(Row(2, 2, [], Uploading, Waiting), [R(0, Pending, 0), R(1, Pending, 0)]), map[], map[])
  {
    hide Run, Stage, Row, R;
    RowFacts();
    var rows := [R(0, Pending, 0)];
    ClosedStage();
    ReopenStage(TO_CLOSED, A, 1, rows, map[0 := Completion(F, Closed)], map[]);
    PutStage(TO_ONE, A, 1, rows, Waiting, 66, map[]);
    CloseStage(PUT_TWO, AB, 1, rows, Waiting, 66, map[]);
    assert rows + [R(1, Pending, 0)] == [R(0, Pending, 0), R(1, Pending, 0)];
    ReopenStage(PUT_TWO + [CompleteClose(0, F, OWNER)], AB, 2, rows + [R(1, Pending, 0)], map[0 := Completion(F, Closed)], map[]);
  }

  lemma RowFacts()
    ensures forall k, status, n :: R(k, status, n).status == status && R(k, status, n).sequence == k
  {
  }

  // ------------------------------------------------------------- three rows, two workers

  /** The three rows, and the file's row with its counters. */
  function Rows(a: ChunkStatus, b: ChunkStatus, ab: nat, c: ChunkStatus, r: nat): seq<ChunkRow> {
    [R(0, a, ab), R(1, b, ab), R(2, c, r)]
  }

  function Counted(upload: UploadStatus, processing: ProcessingStatus, indexed: nat, failed: nat): FileRow {
    Row(3, 3, [], upload, processing).(chunksIndexed := indexed, chunksFailed := failed)
  }

  lemma Nothing(chunks: seq<ChunkRow>, after: int, n: nat)
    requires n <= |chunks| && forall i | 0 <= i < n :: !Eligible(chunks, F, after, i)
    ensures NextPending(chunks, F, after, n) == None
  {
  }

  /** Two pending rows in front are claimed together. */
  lemma FirstTwo(chunks: seq<ChunkRow>, retries: nat, limit: nat)
    requires limit >= 2
    requires 2 <= |chunks| <= 3 && chunks[0] == R(0, Pending, retries) && chunks[1] == R(1, Pending, retries)
    requires |chunks| == 3 ==> chunks[2].status != Pending
    ensures BatchIds(chunks, limit) == [0, 1]
  {
    assert OldestPending(chunks, 0) == Some(0);
    var n := |chunks|;
    assert Eligible(chunks, F, -1, 0) && Eligible(chunks, F, 0, 1);
    assert NextPending(chunks, F, -1, n) == Some(0);
    assert NextPending(chunks, F, 0, n) == Some(1);
    Nothing(chunks, 1, n);
    assert SelectPending(chunks, F, 1, limit - 2) == [];
    assert SelectPending(chunks, F, 0, limit - 1) == [1] + [];
    assert SelectPending(chunks, F, -1, limit) == [0] + [1];
  }

  /** The last row is claimed alone. */
  lemma LastOne(chunks: seq<ChunkRow>, retries: nat, limit: nat)
    requires limit >= 1
    requires |chunks| == 3 && chunks[2] == R(2, Pending, retries) && chunks[0].status != Pending && chunks[1].status != Pending
    ensures BatchIds(chunks, limit) == [2]
  {
    assert OldestPending(chunks, 0) == Some(2);
    assert Eligible(chunks, F, -1, 2);
    assert NextPending(chunks, F, -1, 3) == Some(2);
    Nothing(chunks, 2, 3);
    assert SelectPending(chunks, F, 2, limit - 1) == [];
    assert SelectPending(chunks, F, -1, limit) == [2] + [];
  }

  lemma MarkedAs(chunks: seq<ChunkRow>, ids: seq<nat>, status: ChunkStatus, retries: nat, after: seq<ChunkRow>)
    requires Distinct(ids) && |after| == |chunks|
    requires forall i | 0 <= i < |chunks| :: after[i] == if i in ids then Marked(chunks[i], status, retries) else chunks[i]
    ensures Mark(chunks, ids, status, retries) == after
  {
    forall i | 0 <= i < |chunks|
      ensures Mark(chunks, ids, status, retries)[i] == after[i]
    {
      MarkAt(chunks, ids, status, retries, i);
    }
  }

  /** A claim, when it is known which rows it takes. */
  lemma ClaimedAs(db: Db, row: FileRow, ids: seq<nat>, jobs: seq<Job>, after: seq<ChunkRow>)
    requires db == One(row, db.chunks) && BatchIds(db.chunks, BatchLimit(None)) == ids && |jobs| == |ids| > 0
    requires forall k | 0 <= k < |ids| :: ids[k] < |db.chunks| && jobs[k] == JobOf(db.chunks[ids[k]], ids[k])
    requires jobs[0].fileId == F && Distinct(ids) && |after| == |db.chunks|
    requires forall i | 0 <= i < |after| :: after[i] == if i in ids then Marked(db.chunks[i], Processing, 0) else db.chunks[i]
    ensures BatchJobs(db, BatchLimit(None)) == jobs
    ensures AfterClaim(db, BatchLimit(None)) == One(MarkedStarted(row), after)
  {
    hide BatchIds, Mark;
    assert BatchJobs(db, BatchLimit(None)) == jobs;
    assert Ids(jobs) == ids;
    MarkedAs(db.chunks, ids, Processing, 0, after);
    OnlyEntry(row, MarkedStarted(row));
  }

  lemma ClaimStep(labels: seq<Label>, w: nat, jobs: seq<Job>, db: Db)
    requires Run(labels).Free() && w !in Run(labels).workers && |jobs| > 0
    requires BatchJobs(Run(labels).db, BatchLimit(None)) == jobs && AfterClaim(Run(labels).db, BatchLimit(None)) == db
    ensures Run(labels + [Claim(w, None)])
         == Run(labels).(db := db, workers := Run(labels).workers[w := Reading(jobs, [], BEGUN)])
  {
    hide Run, BatchJobs, AfterClaim;
    RunOneMore(labels, Claim(w, None));
  }

  /** Batches of two and second attempts are possible, as with the shipped settings. */
  predicate TwoOrMore() {
    Config.CLAIM_BATCH_SIZE >= 2 && Config.MAX_RETRIES >= 2
  }

  const BOTH := [J(0, 0), J(1, 0)]
  const AGAIN := [J(0, 1), J(1, 1)]
  const LOOKED := Reading(BOTH, [], At(ForPartial, false))

  const TO_LOOKED := TO_TWO + [Claim(0, None)] + [Read(0)]

  /** Worker 0 has the first two rows and has looked for the final name. */
  lemma LookedStage()
    requires TwoOrMore()
    ensures Stage(Run(TO_LOOKED), AB, One(Row(2, 2, [], Uploading, Running), [R(0, Processing, 0), R(1, Processing, 0)]), map[],
                  map[0 := LOOKED])
  {
    hide Run, BatchIds;
    TwoStage();
    var s := Run(TO_TWO);
    FirstTwo(s.db.chunks, 0, BatchLimit(None));
    ClaimedAs(s.db, Row(2, 2, [], Uploading, Waiting), [0, 1], BOTH, [R(0, Processing, 0), R(1, Processing, 0)]);
    ClaimStep(TO_TWO, 0, BOTH, One(Row(2, 2, [], Uploading, Running), [R(0, Processing, 0), R(1, Processing, 0)]));
    RunOneMore(TO_TWO + [Claim(0, None)], Read(0));
    OneLook(Run(TO_TWO + [Claim(0, None)]), AB, s.workers);
  }

  lemma OneLook(s: State, bytes: seq<byte>, workers: map<nat, Worker>)
    requires s.up && s.workers == workers[0 := Reading(BOTH, [], BEGUN)] && s.disk == Disk(map[F := bytes], map[]) && workers == map[]
    ensures Step(s, Read(0)) == s.(workers := map[0 := LOOKED])
  {
    OnlyEntry(Reading(BOTH, [], BEGUN), LOOKED);
  }

  const PUT_THREE := TO_LOOKED + Resuming.PutLabels(F, OWNER, 2, [67])
  const TO_THREE := PUT_THREE + [CompleteClose(0, F, OWNER)]

  lemma ThreeStage()
    requires TwoOrMore()
    ensures Stage(Run(TO_THREE), ABC, One(Row(3, 3, [], Finalizing, Running), Rows(Processing, Processing, 0, Pending, 0)),
                  map[0 := Completion(F, Closed)], map[0 := LOOKED])
  {
    hide Run, Stage, Row, R;
    RowFacts();
    var rows := [R(0, Processing, 0), R(1, Processing, 0)];
    LookedStage();
    PutStage(TO_LOOKED, AB, 2, rows, Running, 67, map[0 := LOOKED]);
    CloseStage(PUT_THREE, ABC, 2, rows, Running, 67, map[0 := LOOKED]);
    assert rows + [R(2, Pending, 0)] == [R(0, Processing, 0), R(1, Processing, 0), R(2, Pending, 0)];
  }

  const LONE := Reading([J(2, 0)], [], BEGUN)
  const TO_SPLIT := TO_THREE + [Claim(1, None)]

  /** Worker 1 has the third row. */
  lemma SplitStage()
    requires TwoOrMore()
    ensures Stage(Run(TO_SPLIT), ABC, One(Row(3, 3, [], Finalizing, Running), Rows(Processing, Processing, 0, Processing, 0)),
                  map[0 := Completion(F, Closed)], map[0 := LOOKED, 1 := LONE])
  {
    hide Run, BatchIds;
    ThreeStage();
    var s := Run(TO_THREE);
    LastOne(s.db.chunks, 0, BatchLimit(None));
    ClaimedAs(s.db, Row(3, 3, [], Finalizing, Running), [2], [J(2, 0)], Rows(Processing, Processing, 0, Processing, 0));
    ClaimStep(TO_THREE, 1, [J(2, 0)], One(Row(3, 3, [], Finalizing, Running), Rows(Processing, Processing, 0, Processing, 0)));
  }

  // ----------------------------------------------------------------- under its final name

  /** The file has its final name and the upload is completed. */
  ghost predicate Final(s: State, db: Db, workers: map<nat, Worker>) {
    s.Free() && s.db == db && s.workers == workers && s.disk == Disk(map[], map[F := ABC])
  }

  const TO_FINAL := TO_SPLIT + [CompleteLook(0), CompleteMove(0)] + [CompleteFinish(0)]

  lemma FinalStage()
    requires TwoOrMore()
    ensures Final(Run(TO_FINAL), One(Row(3, 3, [], Completed, Running), Rows(Processing, Processing, 0, Processing, 0)),
                  map[0 := LOOKED, 1 := LONE])
  {
    hide Run;
    SplitStage();
    RunTwoMore(TO_SPLIT, CompleteLook(0), CompleteMove(0));
    RunOneMore(TO_SPLIT + [CompleteLook(0), CompleteMove(0)], CompleteFinish(0));
    Finishing(Run(TO_SPLIT), Rows(Processing, Processing, 0, Processing, 0), map[0 := LOOKED, 1 := LONE]);
  }

  lemma Finishing(s: State, rows: seq<ChunkRow>, workers: map<nat, Worker>)
    requires Stage(s, ABC, One(Row(3, 3, [], Finalizing, Running), rows), map[0 := Completion(F, Closed)], workers)
    ensures Final(Step(Step(Step(s, CompleteLook(0)), CompleteMove(0)), CompleteFinish(0)),
                  One(Row(3, 3, [], Completed, Running), rows), workers)
  {
    hide AfterPut, AfterFinalizing, Drain, Rows;
    OnlyEntry(Completion(F, Closed), Completion(F, MustMove));
    OnlyEntry(Completion(F, MustMove), Completion(F, Moved));
    OnlyEntry(ABC, ABC);
    OnlyEntry(Row(3, 3, [], Finalizing, Running), Row(3, 3, [], Completed, Running));
  }

  const B: seq<byte> := [66]
  const TO_TEXTS := TO_FINAL + [Read(0), Read(0)] + [Read(0)]

  lemma OneCall(s: State, db: Db, others: map<nat, Worker>, worker: Worker, next: Worker)
    requires Final(s, db, others[0 := worker]) && worker.Reading? && |worker.texts| < |worker.jobs|
    requires next == ReadOn(Disk(map[], map[F := ABC]), worker)
    ensures Final(Step(s, Read(0)), db, others[0 := next])
  {
    hide ReadOn, AfterPut, AfterFinalizing, Drain;
    Overwritten(others, 0, worker, next);
  }

  /** The first text is missed, the second is read. */
  lemma TextsRead(s: State, others: map<nat, Worker>, db: Db)
    requires Final(s, db, others[0 := LOOKED])
    ensures Final(Step(Step(Step(s, Read(0)), Read(0)), Read(0)), db, others[0 := Reading(BOTH, [NOTHING, B], BEGUN)])
  {
    hide Step, Final;
    assert ABC[1..2] == B;
    assert LOOKED.texts + [NOTHING] == [NOTHING] && [NOTHING] + [B] == [NOTHING, B];
    var first := Reading(BOTH, [NOTHING], BEGUN);
    var second := Reading(BOTH, [NOTHING], At(OpenFinal, false));
    OneCall(s, db, others, LOOKED, first);
    OneCall(Step(s, Read(0)), db, others, first, second);
    OneCall(Step(Step(s, Read(0)), Read(0)), db, others, second, Reading(BOTH, [NOTHING, B], BEGUN));
  }

  lemma TextsStage()
    requires TwoOrMore()
    ensures Final(Run(TO_TEXTS), One(Row(3, 3, [], Completed, Running), Rows(Processing, Processing, 0, Processing, 0)),
                  map[1 := LONE][0 := Reading(BOTH, [NOTHING, B], BEGUN)])
  {
    hide Run;
    FinalStage();
    assert map[0 := LOOKED, 1 := LONE] == map[1 := LONE][0 := LOOKED];
    RunTwoMore(TO_FINAL, Read(0), Read(0));
    RunOneMore(TO_FINAL + [Read(0), Read(0)], Read(0));
    TextsRead(Run(TO_FINAL), map[1 := LONE], Run(TO_FINAL).db);
  }

  // ------------------------------------------------------------------ counted, and failed

  lemma FirstIsEmpty()
    ensures Empty(BOTH, [NOTHING, B]) == [J(0, 0)] && Kept(BOTH, [NOTHING, B]) == [Passage(J(1, 0), B)]
  {
    assert BOTH[..1] == [J(0, 0)] && [NOTHING, B][..1] == [NOTHING];
    assert [J(0, 0)][..0] == [] && [NOTHING][..0] == [];
    assert Empty([J(0, 0)], [NOTHING]) == [] + [J(0, 0)] && Kept([J(0, 0)], [NOTHING]) == [] + [];
  }

  /** Completing jobs when it is known what that makes of the rows. */
  lemma CompletedAs(row: FileRow, chunks: seq<ChunkRow>, jobs: seq<Job>, ids: seq<nat>, after: seq<ChunkRow>, next: FileRow)
    requires |jobs| > 0 && jobs[0].fileId == F && Ids(jobs) == ids && Distinct(ids) && |after| == |chunks|
    requires forall i | 0 <= i < |chunks| :: after[i] == if i in ids then Marked(chunks[i], Indexed, 0) else chunks[i]
    requires next == row.(chunksIndexed := row.chunksIndexed + |jobs|)
    ensures AfterComplete(One(row, chunks), jobs) == AfterRefresh(One(next, after), F)
  {
    hide Mark, AfterRefresh;
    MarkedAs(chunks, ids, Indexed, 0, after);
    OnlyEntry(row, next);
  }

  lemma NoRefresh(row: FileRow, chunks: seq<ChunkRow>)
    requires row.chunksIndexed + row.chunksFailed < row.chunksTotal
    ensures AfterRefresh(One(row, chunks), F) == One(row, chunks)
  {
  }

  lemma Refreshed(row: FileRow, chunks: seq<ChunkRow>, status: ProcessingStatus)
    requires row.upload == Completed && row.chunksIndexed + row.chunksFailed >= row.chunksTotal
    requires status == if row.chunksFailed == 0 then Done else DoneWithFailures
    ensures AfterRefresh(One(row, chunks), F) == One(row.(processing := status), chunks)
  {
    OnlyEntry(row, row.(processing := status));
  }

  const TO_SIFTED := TO_TEXTS + [Sift(0)]

  /** The first row is indexed and counted; it has no point. */
  lemma SiftedStage()
    requires TwoOrMore()
    ensures Final(Run(TO_SIFTED), One(Counted(Completed, Running, 1, 0), Rows(Indexed, Processing, 0, Processing, 0)),
                  map[1 := LONE][0 := Ingesting(BOTH, [NOTHING, B])])
  {
    hide Run, Empty, Kept, AfterComplete, AfterRefresh;
    TextsStage();
    FirstIsEmpty();
    var s := Run(TO_TEXTS);
    var row := Counted(Completed, Running, 1, 0);
    assert Ids([J(0, 0)]) == [0];
    CompletedAs(Row(3, 3, [], Completed, Running), s.db.chunks, [J(0, 0)], [0], Rows(Indexed, Processing, 0, Processing, 0), row);
    NoRefresh(row, Rows(Indexed, Processing, 0, Processing, 0));
    RunOneMore(TO_TEXTS, Sift(0));
    Overwritten(map[1 := LONE], 0, Reading(BOTH, [NOTHING, B], BEGUN), Ingesting(BOTH, [NOTHING, B]));
  }

  /** Failing jobs, when it is known what that makes of the rows. */
  lemma FailedAs(row: FileRow, chunks: seq<ChunkRow>, jobs: seq<Job>, after: seq<ChunkRow>, next: FileRow)
    requires Listed(chunks, jobs, F) && |jobs| > 0 && |after| == |chunks|
    requires forall i | 0 <= i < |chunks| :: after[i] == if i in Ids(jobs) then AfterAttempt(chunks[i]) else chunks[i]
    requires next == row.(chunksFailed := row.chunksFailed + |Split(jobs, true)|)
    ensures AfterFail(One(row, chunks), jobs) == AfterRefresh(One(next, after), F)
  {
    hide Mark, AfterRefresh, Split, AfterFail, Listed;
    FailIsRefreshed(One(row, chunks), jobs, F);
    OnlyEntry(row, next);
    var failed := FailedTables(One(row, chunks), jobs, F);
    forall i | 0 <= i < |chunks|
      ensures |failed.chunks| == |chunks| && failed.chunks[i] == after[i]
    {
      FailAt(One(row, chunks), jobs, F, i);
      RefreshKeepsRows(failed);
    }
    SameSeq(failed.chunks, after);
  }

  lemma RefreshKeepsRows(db: Db)
    ensures AfterRefresh(db, F).chunks == db.chunks
  {
  }

  lemma SameSeq<T>(a: seq<T>, b: seq<T>)
    requires |b| > 0 ==> |a| == |b|
    requires |b| == 0 ==> |a| == 0
    requires forall i | 0 <= i < |b| :: a[i] == b[i]
    ensures a == b
  {
  }

  lemma NoneExhausted(jobs: seq<Job>)
    requires forall k | 0 <= k < |jobs| :: !Exhausted(jobs[k])
    ensures Split(jobs, true) == []
  {
  }

  const TO_FAILED := TO_SIFTED + [Fail(0)]

  /** Then its batch fails, and the row is pending again, still counted. */
  lemma FailedStage()
    requires TwoOrMore()
    ensures Final(Run(TO_FAILED), One(Counted(Completed, Running, 1, 0), Rows(Pending, Pending, 1, Processing, 0)), map[1 := LONE])
  {
    hide Run, AfterFail, AfterRefresh, Split;
    SiftedStage();
    var s := Run(TO_SIFTED);
    var row := Counted(Completed, Running, 1, 0);
    assert Ids(BOTH) == [0, 1];
    NoneExhausted(BOTH);
    FailedAs(row, s.db.chunks, BOTH, Rows(Pending, Pending, 1, Processing, 0), row);
    NoRefresh(row, Rows(Pending, Pending, 1, Processing, 0));
    RunOneMore(TO_SIFTED, Fail(0));
    Overwritten(map[1 := LONE], 0, Ingesting(BOTH, [NOTHING, B]), Ingesting(BOTH, [NOTHING, B]));
  }

  const TO_RECLAIMED := TO_FAILED + [Claim(0, None)]

  lemma ReclaimedStage()
    requires TwoOrMore()
    ensures Final(Run(TO_RECLAIMED), One(Counted(Completed, Running, 1, 0), Rows(Processing, Processing, 1, Processing, 0)),
                  map[1 := LONE][0 := Reading(AGAIN, [], BEGUN)])
  {
    hide Run, BatchIds;
    FailedStage();
    var s := Run(TO_FAILED);
    var row := Counted(Completed, Running, 1, 0);
    FirstTwo(s.db.chunks, 1, BatchLimit(None));
    ClaimedAs(s.db, row, [0, 1], AGAIN, Rows(Processing, Processing, 1, Processing, 0));
    ClaimStep(TO_FAILED, 0, AGAIN, One(row, Rows(Processing, Processing, 1, Processing, 0)));
  }

  const TO_REREAD := TO_RECLAIMED + [Read(0), Read(0)] + [Read(0), Read(0)]

  lemma OneRead(labels: seq<Label>, texts: seq<seq<byte>>, text: seq<byte>, db: Db)
    requires Final(Run(labels), db, map[1 := LONE][0 := Reading(AGAIN, texts, BEGUN)]) && |texts| < 2
    requires text == ABC[|texts|..|texts| + 1]
    ensures Final(Run(labels + [Read(0), Read(0)]), db, map[1 := LONE][0 := Reading(AGAIN, texts + [text], BEGUN)])
  {
    hide Run;
    RunTwoMore(labels, Read(0), Read(0));
    Refinement.TextIsRead(Run(labels), 0, AGAIN, texts, text);
    Overwritten(map[1 := LONE], 0, Reading(AGAIN, texts, BEGUN), Reading(AGAIN, texts + [text], BEGUN));
  }

  lemma RereadStage()
    requires TwoOrMore()
    ensures Final(Run(TO_REREAD), One(Counted(Completed, Running, 1, 0), Rows(Processing, Processing, 1, Processing, 0)),
                  map[1 := LONE][0 := Reading(AGAIN, [A, B], BEGUN)])
  {
    hide Run, Final, Rows, Counted;
    ReclaimedStage();
    var db := One(Counted(Completed, Running, 1, 0), Rows(Processing, Processing, 1, Processing, 0));
    assert ABC[0..1] == A && ABC[1..2] == B;
    OneRead(TO_RECLAIMED, [], A, db);
    assert [] + [A] == [A] && [A] + [B] == [A, B];
    OneRead(TO_RECLAIMED + [Read(0), Read(0)], [A], B, db);
  }

  lemma AllKept()
    ensures Empty(AGAIN, [A, B]) == [] && Kept(AGAIN, [A, B]) == [Passage(J(0, 1), A), Passage(J(1, 1), B)]
    ensures JobsOf(Kept(AGAIN, [A, B])) == AGAIN
  {
    assert |A| == 1 && |B| == 1;
    Batches.NothingIsEmpty(AGAIN, [A, B]);
  }

  const TO_RESTORED := TO_REREAD + [Sift(0)] + [Upsert(0, 0), Upsert(0, 1)]

  lemma RestoredStage()
    requires TwoOrMore()
    ensures Final(Run(TO_RESTORED), One(Counted(Completed, Running, 1, 0), Rows(Processing, Processing, 1, Processing, 0)),
                  map[1 := LONE][0 := Ingesting(AGAIN, [A, B])])
    ensures AllStored(Run(TO_RESTORED).points, Kept(AGAIN, [A, B]))
  {
    hide Run, Empty, Kept, AfterComplete;
    RereadStage();
    AllKept();
    RunOneMore(TO_REREAD, Sift(0));
    Refinement.SiftIs(Run(TO_REREAD), 0, AGAIN, [A, B]);
    Overwritten(map[1 := LONE], 0, Reading(AGAIN, [A, B], BEGUN), Ingesting(AGAIN, [A, B]));
    RunTwoMore(TO_REREAD + [Sift(0)], Upsert(0, 0), Upsert(0, 1));
    TwoUpserts(Run(TO_REREAD + [Sift(0)]), Run(TO_REREAD).db, map[1 := LONE][0 := Ingesting(AGAIN, [A, B])]);
  }

  lemma TwoUpserts(s: State, db: Db, workers: map<nat, Worker>)
    requires Final(s, db, workers) && 0 in workers && workers[0] == Ingesting(AGAIN, [A, B])
    ensures Final(Step(Step(s, Upsert(0, 0)), Upsert(0, 1)), db, workers)
    ensures AllStored(Step(Step(s, Upsert(0, 0)), Upsert(0, 1)).points, Kept(AGAIN, [A, B]))
  {
    hide Kept, AfterPut, AfterFinalizing, Drain;
    AllKept();
  }

  const TO_EARLY := TO_RESTORED + [IngestOk(0)]

  /** The two rows are indexed and counted, one of them twice: three of three. */
  lemma EarlyStage()
    requires TwoOrMore()
    ensures Final(Run(TO_EARLY), One(Counted(Completed, Done, 3, 0), Rows(Indexed, Indexed, 1, Processing, 0)), map[1 := LONE])
  {
    hide Run, Kept, AfterComplete, AfterRefresh, JobsOf;
    RestoredStage();
    AllKept();
    var s := Run(TO_RESTORED);
    var row := Counted(Completed, Running, 3, 0);
    assert Ids(AGAIN) == [0, 1];
    CompletedAs(Counted(Completed, Running, 1, 0), s.db.chunks, AGAIN, [0, 1], Rows(Indexed, Indexed, 1, Processing, 0), row);
    Refreshed(row, Rows(Indexed, Indexed, 1, Processing, 0), Done);
    RunOneMore(TO_RESTORED, IngestOk(0));
    Overwritten(map[1 := LONE], 0, Ingesting(AGAIN, [A, B]), Ingesting(AGAIN, [A, B]));
  }

  // ----------------------------------------------------------------- the other worker fails

  /** The last row after `r` failed attempts. */
  lemma LoneFails(labels: seq<Label>, r: nat)
    requires r + 1 < Config.MAX_RETRIES
    requires Final(Run(labels), One(Counted(Completed, Done, 3, 0), Rows(Indexed, Indexed, 1, Processing, r)),
                   map[1 := Reading([J(2, r)], [], BEGUN)])
    ensures Final(Run(labels + [Fail(1), Claim(1, None)]),
                  One(Counted(Completed, Done, 3, 0), Rows(Indexed, Indexed, 1, Processing, r + 1)),
                  map[1 := Reading([J(2, r + 1)], [], BEGUN)])
  {
    hide Run, AfterFail, AfterRefresh, Split, BatchIds;
    var s := Run(labels);
    var row := Counted(Completed, Done, 3, 0);
    var waiting := Rows(Indexed, Indexed, 1, Pending, r + 1);
    assert Ids([J(2, r)]) == [2];
    NoneExhausted([J(2, r)]);
    FailedAs(row, s.db.chunks, [J(2, r)], waiting, row);
    Refreshed(row, waiting, Done);
    RunOneMore(labels, Fail(1));
    Overwritten(map[], 1, Reading([J(2, r)], [], BEGUN), Reading([J(2, r)], [], BEGUN));
    LastOne(waiting, r + 1, BatchLimit(None));
    ClaimedAs(One(row, waiting), row, [2], [J(2, r + 1)], Rows(Indexed, Indexed, 1, Processing, r + 1));
    ClaimStep(labels + [Fail(1)], 1, [J(2, r + 1)], One(row, Rows(Indexed, Indexed, 1, Processing, r + 1)));
    assert labels + [Fail(1), Claim(1, None)] == (labels + [Fail(1)]) + [Claim(1, None)];
  }

  lemma LoneFailsForGood(labels: seq<Label>, r: nat)
    requires r + 1 == Config.MAX_RETRIES
    requires Final(Run(labels), One(Counted(Completed, Done, 3, 0), Rows(Indexed, Indexed, 1, Processing, r)),
                   map[1 := Reading([J(2, r)], [], BEGUN)])
    ensures Final(Run(labels + [Fail(1)]),
                  One(Counted(Completed, DoneWithFailures, 3, 1), Rows(Indexed, Indexed, 1, Failed, r + 1)), map[])
  {
    hide Run, AfterFail, AfterRefresh;
    var s := Run(labels);
    var row := Counted(Completed, Done, 3, 1);
    var failed := Rows(Indexed, Indexed, 1, Failed, r + 1);
    assert Ids([J(2, r)]) == [2];
    assert [J(2, r)][..0] == [];
    assert Split([J(2, r)], true) == [] + [J(2, r)];
    FailedAs(Counted(Completed, Done, 3, 0), s.db.chunks, [J(2, r)], failed, row);
    Refreshed(row, failed, DoneWithFailures);
    RunOneMore(labels, Fail(1));
    Overwritten(map[], 1, Reading([J(2, r)], [], BEGUN), Reading([J(2, r)], [], BEGUN));
  }

  function Attempts(n: nat): seq<Label> {
    if n == 0 then [] else Attempts(n - 1) + [Fail(1), Claim(1, None)]
  }

  const GIVING_UP := Attempts(Config.MAX_RETRIES - 1) + [Fail(1)]

  lemma {:induction false} LoneStage(r: nat)
    requires TwoOrMore() && r < Config.MAX_RETRIES
    ensures Final(Run(TO_EARLY + Attempts(r)), One(Counted(Completed, Done, 3, 0), Rows(Indexed, Indexed, 1, Processing, r)),
                  map[1 := Reading([J(2, r)], [], BEGUN)])
  {
    hide Run, Final, Rows, Counted, One;
    EarlyStage();
    if r == 0 {
      assert TO_EARLY + [] == TO_EARLY;
    } else {
      LoneStage(r - 1);
      LoneFails(TO_EARLY + Attempts(r - 1), r - 1);
      assert TO_EARLY + Attempts(r) == TO_EARLY + Attempts(r - 1) + [Fail(1), Claim(1, None)];
    }
  }

  lemma LateStage()
    requires TwoOrMore()
    ensures Final(Run(TO_EARLY + GIVING_UP),
                  One(Counted(Completed, DoneWithFailures, 3, 1), Rows(Indexed, Indexed, 1, Failed, Config.MAX_RETRIES)), map[])
  {
    hide Run, Final, Rows, Counted, One, Attempts;
    var r := Config.MAX_RETRIES - 1;
    LoneStage(r);
    LoneFailsForGood(TO_EARLY + Attempts(r), r);
    assert TO_EARLY + GIVING_UP == TO_EARLY + Attempts(r) + [Fail(1)];
  }

  // -------------------------------------------------------------------------- the results

  lemma OneRecount(rows: seq<ChunkRow>)
    requires rows == Rows(Indexed, Indexed, 1, Processing, 0)
    ensures CountAll(rows, F, Indexed) == 2
  {
    assert Count(rows, F, Indexed, 1) == 1 && Count(rows, F, Indexed, 2) == 2;
  }

  /** A row that was indexed goes back to the queue and is counted twice; the file is
      reported done while another row is being worked on; and when that row fails for
      good the report changes. */
  lemma DoneTooEarly()
    requires TwoOrMore()
    ensures var s, t := Run(TO_SIFTED), Run(TO_FAILED);
            && |s.db.chunks| == |t.db.chunks| == 3
            && s.db.chunks[0].status == Indexed && t.db.chunks[0].status == Pending
            && Settling.Reopened(TO_SIFTED, [Fail(0)], 0)
    ensures var u, v := Run(TO_EARLY), Run(TO_EARLY + GIVING_UP);
            && F in u.db.files && F in v.db.files && |u.db.chunks| == |v.db.chunks| == 3
            && u.db.files[F].processing == Done && u.db.chunks[2].status == Processing
            && u.db.files[F].chunksIndexed == 3 && CountAll(u.db.chunks, F, Indexed) == 2
            && Recounts.Recounted(TO_EARLY, F) == 1 && Straddles.Straddled(TO_EARLY, F)
            && v.db.files[F].processing == DoneWithFailures && v.db.chunks[2].status == Failed
  {
    hide Run, Settling.Reopened, Recounts.Recounted, Straddles.Straddled, CountAll;
    SiftedStage();
    FailedStage();
    EarlyStage();
    LateStage();
    OneRecount(Run(TO_EARLY).db.chunks);
    Settling.NoRowIsLost(TO_SIFTED, [Fail(0)], 0);
    EndToEnd.CountersAreExact(TO_EARLY, F);
  }
}
