/** Short runs that reach the gaps. One letter is uploaded, and then: its passage is
    indexed before the upload is marked completed; the process dies between the rename
    and that mark; a chunk is torn and the upload completed; or the rename falls between
    the two looks of a worker's read. */
module Scenarios {
  import opened Bytes
  import opened Chunker
  import opened Tables
  import opened Storage
  import opened JobQueue
  import opened UploadService
  import opened Pipeline
  import opened Reachable
  import EndToEnd
  import Recounts
  import Settling
  import Straddles
  import UploadSteps
  import Utf8
  import Validators

  const F: FileId := "f"
  const OWNER := "o"
  const LETTER: seq<byte> := [65]

  /** The row while the letter waits in the tail, and once it is a passage. */
  const OPEN := FileRow(OWNER, 0, 1, Uploading, Waiting, 0, 0, 0, LETTER, 0)
  const SHUT := FileRow(OWNER, 1, 1, Finalizing, Waiting, 1, 0, 0, [], 1)
  const QUEUED := ChunkRow(F, 0, Range(0, 1), Pending, 0)

  const STARTED := INITIAL.(up := true)
  const CREATED := STARTED.(db := Db(map[F := NewFile(OWNER, 0)], []), log := map[F := []])
  const SENT := CREATED.(db := Db(map[F := OPEN], []), disk := Disk(map[F := LETTER], map[]),
                         log := map[F := [Accepted(0, LETTER)]])
  const CLOSED := SENT.(db := Db(map[F := SHUT], [QUEUED]), completions := map[0 := Completion(F, Closed)])

  // ------------------------------------------------------------ up to the closing

  lemma OneLetterIsText()
    ensures !Validators.BinaryVerdict(LETTER)
  {
    assert LETTER[..1] == LETTER;
    assert Utf8.CharAt(LETTER, 0) == 1;
  }

  lemma OneLetterIsHeldBack(row: FileRow)
    requires row == NewFile(OWNER, 0)
    ensures FeedBody(row, LETTER) == ChunkState([], 0, LETTER)
  {
    assert [] + LETTER == LETTER;
  }

  lemma OneLetterFlushed(row: FileRow)
    requires row == OPEN
    ensures FlushRow(row) == ChunkState([Range(0, 1)], 1, [])
  {
    var st := ChunkState([], 0, LETTER);
    DrainAfterCut(st, DEFAULT_PARAMS, true, 1);
  }

  lemma Started()
    ensures Step(Step(INITIAL, Recover), Create(F, OWNER, 0)) == CREATED
  {
    hide Drain, AfterPut, AfterFinalizing, AfterCompleted;
  }

  lemma PutGoesIn()
    ensures Step(CREATED, PutCheck(F, OWNER, 0, LETTER)) == CREATED.(put := Some(Put(F, NewFile(OWNER, 0), LETTER, Checked, 0)))
  {
    hide Drain, AfterPut, AfterFinalizing, AfterCompleted, Utf8.ValidFrom, Utf8.CharAt;
    OneLetterIsText();
  }

  /** Replacing the only entry of a table. */
  lemma OnlyEntry<T>(was: T, now: T)
    ensures map[F := was][F := now] == map[F := now]
    ensures map[][F := now] == map[F := now]
    ensures map[F := now] - {F} == map[]
  {
  }

  function InFlight(phase: PutPhase, written: nat): Put {
    Put(F, NewFile(OWNER, 0), LETTER, phase, written)
  }

  lemma PutIsTrimmed()
    ensures Step(CREATED.(put := Some(InFlight(Checked, 0))), PutTrim) == CREATED.(put := Some(InFlight(Trimmed, 0)))
  {
    hide Drain, AfterPut, AfterFinalizing, AfterCompleted;
  }

  const WRITTEN := CREATED.(disk := Disk(map[F := LETTER], map[]), put := Some(InFlight(Opened, 1)))

  lemma PutIsWritten()
    ensures Step(CREATED.(put := Some(InFlight(Trimmed, 0))), PutWrite(1)) == WRITTEN
  {
    hide Drain, AfterPut, AfterFinalizing, AfterCompleted;
    assert LETTER[0..1] == LETTER && [] + LETTER == LETTER;
    OnlyEntry(LETTER, LETTER);
  }

  lemma PutIsQueued(db: Db, row: FileRow)
    requires db == CREATED.db && row == NewFile(OWNER, 0)
    ensures AfterPut(db, F, row, LETTER) == SENT.db
  {
    OneLetterIsHeldBack(row);
    OnlyEntry(row, OPEN);
  }

  lemma PutIsCommitted(s: State)
    requires s == WRITTEN
    ensures Step(s, PutCommit) == SENT
  {
    hide Drain, FeedBody, FlushRow, AfterPut, AfterFinalizing, AfterCompleted;
    PutIsQueued(s.db, NewFile(OWNER, 0));
    OnlyEntry([], [Accepted(0, LETTER)]);
    assert [] + [Accepted(0, LETTER)] == [Accepted(0, LETTER)];
  }

  lemma OneIsInserted(chunks: seq<ChunkRow>, passages: seq<Range>)
    requires chunks == [] && passages == [Range(0, 1)]
    ensures InsertPending(chunks, F, passages, 0) == [QUEUED]
  {
    assert InsertPending(chunks, F, passages[..0], 0) == [];
  }

  lemma ClosedRow(row: FileRow, st: ChunkState)
    requires FlushRow(row) == st
    ensures UploadSteps.RowAfterClose(row)
         == MarkedFinalizing(row, |st.passages|, row.nextSequence + |st.passages|, row.bytesReceived)
  {
  }

  lemma LetterRow(row: FileRow)
    requires row == OPEN
    ensures FlushRow(row).passages == [Range(0, 1)] && UploadSteps.RowAfterClose(row) == SHUT
  {
    hide Drain, FlushRow;
    OneLetterFlushed(row);
    ClosedRow(row, ChunkState([Range(0, 1)], 1, []));
  }

  lemma LetterIsQueued(db: Db)
    requires db == SENT.db
    ensures AfterFinalizing(db, F) == CLOSED.db
  {
    var row := db.files[F];
    LetterRow(row);
    UploadSteps.CloseIs(db, F, row, SHUT, [Range(0, 1)]);
    OneIsInserted(db.chunks, [Range(0, 1)]);
    OnlyEntry(row, SHUT);
  }

  lemma LetterMayClose(db: Db)
    requires db == SENT.db
    ensures F in db.files && CompleteError(db, F, OWNER).None? && db.files[F].upload != Completed
  {
  }

  lemma Closing(s: State, r: nat, f: FileId, owner: string, db: Db)
    requires s.Free() && s.completions == map[] && CompleteError(s.db, f, owner).None? && s.db.files[f].upload != Completed
    requires AfterFinalizing(s.db, f) == db
    ensures DoCompleteClose(s, r, f, owner) == s.(db := db, completions := map[r := Completion(f, Closed)])
  {
  }

  lemma LetterIsClosed(s: State, db: Db)
    requires s.Free() && s.completions == map[] && s.db == SENT.db && db == CLOSED.db
    ensures DoCompleteClose(s, 0, F, OWNER) == s.(db := db, completions := map[0 := Completion(F, Closed)])
  {
    LetterMayClose(s.db);
    LetterIsQueued(s.db);
    Closing(s, 0, F, OWNER, db);
  }

  const RENAMED := CLOSED.(disk := Disk(map[], map[F := LETTER]), completions := map[0 := Completion(F, Moved)])

  lemma LetterIsRenamed()
    ensures Step(Step(CLOSED, CompleteLook(0)), CompleteMove(0)) == RENAMED
  {
    hide Drain, FeedBody, FlushRow;
    OnlyEntry(Completion(F, Closed), Completion(F, MustMove));
    OnlyEntry(Completion(F, MustMove), Completion(F, Moved));
    OnlyEntry(LETTER, LETTER);
  }

  const TO_CREATED := [Recover, Create(F, OWNER, 0)]
  const TO_TRIMMED := TO_CREATED + [PutCheck(F, OWNER, 0, LETTER), PutTrim]
  const TO_SENT := TO_TRIMMED + [PutWrite(1), PutCommit]
  const TO_CLOSED := TO_SENT + [CompleteClose(0, F, OWNER)]
  const TO_RENAMED := TO_CLOSED + [CompleteLook(0), CompleteMove(0)]

  lemma SentIsReached()
    ensures Run(TO_SENT) == SENT
  {
    hide Drain, Step;
    assert [] + TO_CREATED == TO_CREATED;
    RunTwoMore([], Recover, Create(F, OWNER, 0));
    Started();
    RunTwoMore(TO_CREATED, PutCheck(F, OWNER, 0, LETTER), PutTrim);
    PutGoesIn();
    PutIsTrimmed();
    RunTwoMore(TO_TRIMMED, PutWrite(1), PutCommit);
    PutIsWritten();
    PutIsCommitted(WRITTEN);
  }

  lemma RenamedIsReached()
    ensures Run(TO_RENAMED) == RENAMED
  {
    hide Run, Drain, FeedBody, FlushRow, Step, InsertPending, AfterPut, AfterFinalizing, AfterCompleted;
    SentIsReached();
    RunAndClose(TO_SENT, 0, F, OWNER, SENT);
    LetterIsClosed(SENT, CLOSED.db);
    RunTwoMore(TO_CLOSED, CompleteLook(0), CompleteMove(0));
    LetterIsRenamed();
  }

  // ------------------------------------------------- a chunk after the final rename

  const REOPENED := RENAMED.(db := Db(map[F := SHUT.(upload := Uploading)], [QUEUED]), completions := map[])

  lemma RenamedIsReverted(db: Db)
    requires db == RENAMED.db
    ensures AfterRecover(db) == REOPENED.db
  {
    assert (map f | f in db.files :: Reverted(db.files[f])) == map[F := SHUT.(upload := Uploading)];
    assert ResetStuck(db.chunks) == [QUEUED];
  }

  lemma RenamedIsReopened(s: State)
    requires s == RENAMED
    ensures Step(Step(s, Crash), Recover) == REOPENED
  {
    hide Drain, AfterPut, AfterFinalizing, AfterCompleted;
    RenamedIsReverted(s.db);
  }

  /** The process dies between the rename and the second transaction. After the
      restart the file is open again: the checks of a PUT pass, but the bytes would
      be stored beside the file and never be read. */
  lemma ChunkAfterRenameIsLost()
    ensures var s := Run(TO_RENAMED + [Crash, Recover]);
            var body: seq<byte> := [66];
            && s.Free() && PutError(s.db, F, OWNER, 1, body).None?
            && F in s.log && Content(s.log[F]) == LETTER
            && Readable(Appended(Reconciled(s.disk, F, 1), F, body), F) == Some(LETTER)
            && !(LETTER + body <= LETTER)
  {
    hide Run, Drain, Step;
    RenamedIsReached();
    RunTwoMore(TO_RENAMED, Crash, Recover);
    RenamedIsReopened(RENAMED);
    OneAccepted();
  }

  lemma OneAccepted()
    ensures Content([Accepted(0, LETTER)]) == LETTER
  {
    assert [] + LETTER == LETTER;
  }

  // ------------------------------------------ a queue that drains before the mark

  const JOB := Job(0, F, 0, Range(0, 1), 0)
  const RUNNING := SHUT.(processing := Running)
  const CLAIMED := RENAMED.(db := Db(map[F := RUNNING], [QUEUED.(status := Processing)]),
                            workers := map[0 := Reading([JOB], [], BEGUN)])
  const SIFTED := CLAIMED.(workers := map[0 := Ingesting([JOB], [LETTER])])
  const STORED := SIFTED.(points := map[(F, 0) := Point(Range(0, 1), LETTER)])
  const DRAINED := STORED.(db := Db(map[F := RUNNING.(chunksIndexed := 1)], [QUEUED.(status := Indexed)]), workers := map[])

  lemma OneIsClaimed()
    ensures BatchJobs(RENAMED.db, BatchLimit(None)) == [JOB]
    ensures AfterClaim(RENAMED.db, BatchLimit(None)) == CLAIMED.db
  {
    var chunks := RENAMED.db.chunks;
    assert OldestPending(chunks, 0) == Some(0);
    assert NextPending(chunks, F, -1, 0).None? && Eligible(chunks, F, -1, 0);
    assert NextPending(chunks, F, -1, 1) == Some(0);
    assert NextPending(chunks, F, 0, 1).None?;
    assert SelectPending(chunks, F, 0, BatchLimit(None) - 1) == [];
    assert SelectPending(chunks, F, -1, BatchLimit(None)) == [0];
    assert Ids([JOB]) == [0] && [0][..0] == [];
    assert Mark(chunks, [0], Processing, 0) == [QUEUED.(status := Processing)];
    OnlyEntry(SHUT, RUNNING);
  }

  lemma ClaimIsTaken()
    ensures Step(RENAMED, Claim(0, None)) == CLAIMED
  {
    hide Drain, AfterPut, AfterFinalizing, AfterCompleted;
    OneIsClaimed();
    OnlyEntry(Reading([JOB], [], BEGUN), Reading([JOB], [], BEGUN));
  }

  const OPENING := CLAIMED.(workers := map[0 := Reading([JOB], [], At(OpenFinal, false))])

  lemma NameIsFound()
    ensures Step(CLAIMED, Read(0)) == OPENING
  {
    hide AfterPut, AfterFinalizing, AfterCompleted;
    OnlyEntry(Reading([JOB], [], BEGUN), Reading([JOB], [], At(OpenFinal, false)));
  }

  lemma TextIsRead()
    ensures Step(OPENING, Read(0)) == CLAIMED.(workers := map[0 := Reading([JOB], [LETTER], BEGUN)])
  {
    hide AfterPut, AfterFinalizing, AfterCompleted;
    assert LETTER[0..1] == LETTER;
    assert [] + [LETTER] == [LETTER];
    OnlyEntry(Reading([JOB], [], At(OpenFinal, false)), Reading([JOB], [LETTER], BEGUN));
  }

  lemma OneIsKept()
    ensures Kept([JOB], [LETTER]) == [Passage(JOB, LETTER)] && Empty([JOB], [LETTER]) == []
  {
    assert [JOB][..0] == [] && [LETTER][..0] == [];
  }

  lemma BatchIsSifted()
    ensures Step(CLAIMED.(workers := map[0 := Reading([JOB], [LETTER], BEGUN)]), Sift(0)) == SIFTED
  {
    hide Drain;
    OneIsKept();
  }

  lemma PointIsStored()
    ensures Step(SIFTED, Upsert(0, 0)) == STORED
  {
    hide Drain, AfterPut, AfterFinalizing, AfterCompleted;
    OneIsKept();
  }

  lemma BatchIsIndexed()
    ensures AfterComplete(STORED.db, [JOB]) == DRAINED.db
  {
    var chunks := STORED.db.chunks;
    assert Ids([JOB]) == [0] && [0][..0] == [];
    assert Mark(chunks, [0][..0], Indexed, 0) == chunks;
    assert Mark(chunks, [0], Indexed, 0) == [QUEUED.(status := Indexed)];
    OnlyEntry(RUNNING, RUNNING.(chunksIndexed := 1));
    assert RecordIndexed(STORED.db.files, F, 1) == map[F := RUNNING.(chunksIndexed := 1)];
  }

  lemma QueueIsDrained()
    ensures Step(STORED, IngestOk(0)) == DRAINED
  {
    hide FindCut, OverlapSize, SafeSplitPoint;
    OneIsKept();
    assert JobsOf([Passage(JOB, LETTER)]) == [JOB];
    BatchIsIndexed();
  }

  const TO_CLAIMED := TO_RENAMED + [Claim(0, None)]
  const TO_READ := TO_CLAIMED + [Read(0), Read(0)]
  const TO_STORED := TO_READ + [Sift(0), Upsert(0, 0)]
  const TO_DRAINED := TO_STORED + [IngestOk(0)]

  lemma DrainedIsReached()
    ensures Run(TO_DRAINED) == DRAINED
  {
    hide Drain, Step;
    RenamedIsReached();
    RunOneMore(TO_RENAMED, Claim(0, None));
    ClaimIsTaken();
    RunTwoMore(TO_CLAIMED, Read(0), Read(0));
    NameIsFound();
    TextIsRead();
    RunTwoMore(TO_READ, Sift(0), Upsert(0, 0));
    BatchIsSifted();
    PointIsStored();
    RunOneMore(TO_STORED, IngestOk(0));
    QueueIsDrained();
  }

  lemma MarkedTooLate(db: Db)
    requires db == AfterCompleted(DRAINED.db, F)
    ensures Settling.Over(db, F) && !db.files[F].processing.Terminal()
  {
  }

  /** The worker is faster than the completion: the upload is complete, every passage
      is indexed, and whatever happens later the status stays as it is. */
  lemma DrainedTooEarly(more: seq<Label>)
    ensures var t := Run(TO_DRAINED + [CompleteFinish(0)] + more);
            && F in t.db.files && t.db.files[F].upload == Completed && !t.db.files[F].processing.Terminal()
            && EndToEnd.AllSettled(t.db.chunks, F)
  {
    hide Run, AfterCompleted;
    var labels := TO_DRAINED + [CompleteFinish(0)];
    DrainedIsReached();
    RunOneMore(TO_DRAINED, CompleteFinish(0));
    assert Step(DRAINED, CompleteFinish(0)).db == AfterCompleted(DRAINED.db, F);
    MarkedTooLate(Run(labels).db);
    Settling.SettledForever(labels, more, F);
  }

  // ------------------------------------------------- a read straddled by the rename

  /** The worker has looked for the final name before the rename, and not for the other. */
  const NOTHING: seq<byte> := []
  const LOOKING := Reading([JOB], [], At(ForPartial, false))
  const PICKED := CLOSED.(db := CLAIMED.db, workers := map[0 := LOOKING])
  const PASSED := PICKED.(disk := RENAMED.disk, completions := map[0 := Completion(F, Moved)])
  const MARKED := PASSED.(db := Db(map[F := RUNNING.(upload := Completed)], CLAIMED.db.chunks), completions := map[])
  const FOUND_NOTHING := MARKED.(workers := map[0 := Reading([JOB], [NOTHING], BEGUN)])
  const LOST := MARKED.(db := Db(map[F := RUNNING.(upload := Completed, chunksIndexed := 1, processing := Done)],
                                 [QUEUED.(status := Indexed)]),
                        workers := map[])

  lemma LookIsTaken(s: State)
    requires s == CLOSED
    ensures Step(Step(s, Claim(0, None)), Read(0)) == PICKED
  {
    hide Drain, AfterPut, AfterFinalizing, AfterCompleted, AfterClaim, BatchJobs, FeedBody, FlushRow;
    OneIsClaimed();
    assert CLOSED.db == RENAMED.db;
    OnlyEntry(Reading([JOB], [], BEGUN), LOOKING);
  }

  lemma RenamePasses(s: State)
    requires s == PICKED
    ensures Step(Step(s, CompleteLook(0)), CompleteMove(0)) == PASSED
  {
    hide Drain, AfterPut, AfterFinalizing, AfterCompleted, FeedBody, FlushRow;
    OnlyEntry(Completion(F, Closed), Completion(F, MustMove));
    OnlyEntry(Completion(F, MustMove), Completion(F, Moved));
    OnlyEntry(LETTER, LETTER);
  }

  lemma MarkPasses(s: State)
    requires s == PASSED
    ensures Step(s, CompleteFinish(0)) == MARKED
  {
    hide Drain, AfterPut, AfterFinalizing, FeedBody, FlushRow;
    OnlyEntry(RUNNING, RUNNING.(upload := Completed));
    OnlyEntry(Completion(F, Moved), Completion(F, Moved));
  }

  lemma NothingIsFound(s: State)
    requires s == MARKED
    ensures Step(s, Read(0)) == FOUND_NOTHING
  {
    hide Drain, AfterPut, AfterFinalizing, FeedBody, FlushRow;
    OnlyEntry(LOOKING, Reading([JOB], [NOTHING], BEGUN));
    assert LOOKING.texts + [NOTHING] == [NOTHING];
  }

  lemma NothingIsKept()
    ensures Empty([JOB], [NOTHING]) == [JOB] && Kept([JOB], [NOTHING]) == []
  {
    assert [JOB][..0] == [] && [NOTHING][..0] == [];
    assert [] + [JOB] == [JOB];
  }

  lemma EmptyIsCompleted(db: Db)
    requires db == MARKED.db
    ensures AfterComplete(db, [JOB]) == LOST.db
  {
    var chunks := db.chunks;
    var row := RUNNING.(upload := Completed);
    assert Ids([JOB]) == [0] && [0][..0] == [];
    assert Mark(chunks, [0][..0], Indexed, 0) == chunks;
    assert Mark(chunks, [0], Indexed, 0) == [QUEUED.(status := Indexed)];
    OnlyEntry(row, row.(chunksIndexed := 1));
    assert RecordIndexed(db.files, F, 1) == map[F := row.(chunksIndexed := 1)];
    OnlyEntry(row.(chunksIndexed := 1), row.(chunksIndexed := 1, processing := Done));
  }

  lemma BatchIsLost(s: State)
    requires s == FOUND_NOTHING
    ensures Step(s, Sift(0)) == LOST
  {
    hide Drain, AfterPut, AfterFinalizing, AfterComplete, Empty, Kept;
    NothingIsKept();
    EmptyIsCompleted(s.db);
    OnlyEntry(Reading([JOB], [NOTHING], BEGUN), Reading([JOB], [NOTHING], BEGUN));
  }

  const TO_PICKED := TO_CLOSED + [Claim(0, None), Read(0)]
  const TO_PASSED := TO_PICKED + [CompleteLook(0), CompleteMove(0)]
  const TO_FOUND_NOTHING := TO_PASSED + [CompleteFinish(0), Read(0)]
  const TO_LOST := TO_FOUND_NOTHING + [Sift(0)]

  lemma LostIsReached()
    ensures Run(TO_LOST) == LOST
  {
    hide Run, Drain, Step;
    SentIsReached();
    RunAndClose(TO_SENT, 0, F, OWNER, SENT);
    LetterIsClosed(SENT, CLOSED.db);
    RunTwoMore(TO_CLOSED, Claim(0, None), Read(0));
    LookIsTaken(CLOSED);
    RunTwoMore(TO_PICKED, CompleteLook(0), CompleteMove(0));
    RenamePasses(PICKED);
    RunTwoMore(TO_PASSED, CompleteFinish(0), Read(0));
    MarkPasses(PASSED);
    NothingIsFound(MARKED);
    RunOneMore(TO_FOUND_NOTHING, Sift(0));
    BatchIsLost(FOUND_NOTHING);
  }

  lemma LostIsOver(s: State)
    requires s == LOST
    ensures Settling.Over(s.db, F) && |s.db.chunks| == 1 && s.db.chunks[0].fileId == F
    ensures Recounts.NoPoint(s.db.chunks, s.points, 0) && s.db.files[F].processing == Done && s.db.files[F].bytesReceived == 1
  {
  }

  /** The only row of the file has no point. */
  lemma NotFound(was: Db, t: State, i: nat)
    requires Settling.SameFileRows(was, t.db, F) && |was.chunks| == 1 && Recounts.NoPoint(t.db.chunks, t.points, 0)
    requires was.chunks[0].fileId == F
    ensures !EndToEnd.Searchable(t, F, 0, i)
  {
  }

  /** A read looks for the final name, the completion renames the file and marks it
      completed, and the read looks for the partial name. The passage is completed
      without ever having been stored: the file is reported as fully processed, and
      whatever happens later its byte cannot be found. */
  lemma DoneButLost(more: seq<Label>, i: nat)
    ensures Straddles.Straddled(TO_LOST, F)
    ensures var t := Run(TO_LOST + more);
            && F in t.db.files && t.db.files[F].processing == Done && t.db.files[F].bytesReceived == 1
            && !EndToEnd.Searchable(t, F, 0, i)
  {
    hide Run, Straddles.Straddled, Settling.Over, Settling.SameFileRows, Recounts.NoPoint, EndToEnd.Searchable;
    var s := Run(TO_LOST);
    LostIsReached();
    LostIsOver(s);
    Recounts.MissedExactlyWhen(TO_LOST, 0);
    Recounts.MissedIsStraddled(TO_LOST, 0);
    Settling.SettledForever(TO_LOST, more, F);
    Settling.SameStatus(s.db, Run(TO_LOST + more).db, F);
    Settling.MissedForever(TO_LOST, more, F, 0);
    NotFound(s.db, Run(TO_LOST + more), i);
  }

  // -------------------------------------------------- a torn chunk, then completion

  const NEXT: seq<byte> := [66]
  const TORN := SENT.(disk := Disk(map[F := LETTER + NEXT], map[]))

  lemma NextGoesIn()
    ensures Step(Step(SENT, PutCheck(F, OWNER, 1, NEXT)), PutTrim) == SENT.(put := Some(Put(F, OPEN, NEXT, Trimmed, 0)))
  {
    hide Drain, AfterPut, AfterFinalizing, AfterCompleted;
  }

  lemma NextIsTorn()
    ensures Step(Step(SENT.(put := Some(Put(F, OPEN, NEXT, Trimmed, 0))), PutWrite(1)), PutAbort) == TORN
  {
    hide Drain, FeedBody, FlushRow, AfterPut, AfterFinalizing, AfterCompleted;
    assert NEXT[0..1] == NEXT;
    OnlyEntry(LETTER, LETTER + NEXT);
  }

  lemma TornIsRenamed()
    ensures Step(Step(CLOSED.(disk := TORN.disk), CompleteLook(0)), CompleteMove(0))
         == RENAMED.(disk := Disk(map[], map[F := LETTER + NEXT]))
  {
    hide Drain, AfterPut, AfterFinalizing, AfterCompleted;
    OnlyEntry(Completion(F, Closed), Completion(F, MustMove));
    OnlyEntry(Completion(F, MustMove), Completion(F, Moved));
    OnlyEntry(LETTER + NEXT, LETTER + NEXT);
  }

  const TO_SECOND := TO_SENT + [PutCheck(F, OWNER, 1, NEXT), PutTrim]
  const TO_TORN := TO_SECOND + [PutWrite(1), PutAbort]
  const TO_TORN_CLOSED := TO_TORN + [CompleteClose(0, F, OWNER)]

  /** A chunk reaches the disk but is not committed, and the client completes without
      sending it again: the file keeps a byte that was never committed. */
  lemma TornByteStays()
    ensures var s := Run(TO_TORN_CLOSED + [CompleteLook(0), CompleteMove(0)]);
            && F in s.log && F in s.disk.final && F in s.db.files
            && s.db.files[F].bytesReceived == 1 && Content(s.log[F]) == LETTER && s.disk.final[F] == LETTER + NEXT
  {
    hide Run, Drain, Step, AfterPut, AfterFinalizing, AfterCompleted;
    SentIsReached();
    RunTwoMore(TO_SENT, PutCheck(F, OWNER, 1, NEXT), PutTrim);
    NextGoesIn();
    RunTwoMore(TO_SECOND, PutWrite(1), PutAbort);
    NextIsTorn();
    RunAndClose(TO_TORN, 0, F, OWNER, TORN);
    LetterIsClosed(TORN, CLOSED.db);
    RunTwoMore(TO_TORN_CLOSED, CompleteLook(0), CompleteMove(0));
    TornIsRenamed();
    OneAccepted();
  }
}
