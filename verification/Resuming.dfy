/** What a client may do next: which chunk is accepted, what a retry meets, and that
    every interrupted upload can go on. */
module Resuming {
  import opened Bytes
  import opened Chunker
  import opened Tables
  import opened Storage
  import opened JobQueue
  import opened UploadService
  import opened Accounting
  import opened EnqueueLaws
  import opened Pipeline
  import opened Invariant
  import opened Frames
  import opened Reachable
  import opened Refinement
  import opened Elsewhere
  import Config
  import EndToEnd
  import Finalisation
  import History
  import KnownGaps
  import UploadSteps
  import Validators

  /** A chunk is accepted exactly when the file is the caller's and open, the chunk
      continues it without exceeding a limit, and the first one looks like text. */
  lemma AcceptedExactlyWhen(db: Db, f: FileId, owner: string, offset: nat, body: seq<byte>)
    ensures PutError(db, f, owner, offset, body).None? <==>
              && f in db.files && db.files[f].owner == owner
              && db.files[f].upload in {NotStarted, Uploading, Interrupted}
              && offset == db.files[f].bytesReceived
              && |body| <= Config.MAX_CHUNK_BYTES && offset + |body| <= Config.MAX_FILE_BYTES
              && (offset == 0 ==> !Validators.BinaryVerdict(body))
  {
  }

  /** A refusal for the wrong offset names the only offset that can be accepted: sent
      there, the same chunk is not refused for its offset again. */
  lemma ExpectedOffsetWorks(db: Db, f: FileId, owner: string, offset: nat, body: seq<byte>, expected: nat, other: nat)
    requires PutError(db, f, owner, offset, body) == Some(OffsetMismatch(expected))
    ensures f in db.files && expected == db.files[f].bytesReceived && expected != offset
    ensures PutError(db, f, owner, other, body).None? ==> other == expected
    ensures PutError(db, f, owner, expected, body).None?
            || PutError(db, f, owner, expected, body) == Some(FileTooLarge)
            || PutError(db, f, owner, expected, body) == Some(NotTextFile)
  {
  }

  /** The offset check, when nothing before it refuses. */
  lemma BehindTheEnd(db: Db, f: FileId, owner: string, offset: nat, body: seq<byte>)
    requires |body| <= Config.MAX_CHUNK_BYTES && f in db.files && db.files[f].owner == owner
    requires db.files[f].upload == Uploading && db.files[f].bytesReceived != offset
    ensures PutError(db, f, owner, offset, body) == Some(OffsetMismatch(db.files[f].bytesReceived))
  {
  }

  lemma RowMovesOn(db: Db, f: FileId, row: FileRow, body: seq<byte>)
    requires f in db.files && db.files[f] == row
    ensures var files := AfterPut(db, f, row, body).files;
            && f in files && files[f].owner == row.owner && files[f].upload == Uploading
            && files[f].bytesReceived == row.bytesReceived + |body|
  {
  }

  /** A chunk sent again after it was committed, its response lost, is refused and the
      client is told where to go on: just behind it. */
  lemma RetryIsRefused(db: Db, f: FileId, owner: string, offset: nat, body: seq<byte>, after: Db)
    requires PutError(db, f, owner, offset, body).None? && |body| > 0
    requires after == AfterPut(db, f, db.files[f], body)
    ensures PutError(after, f, owner, offset, body) == Some(OffsetMismatch(offset + |body|))
  {
    AcceptedRow(db, f, owner, offset, body);
    RowMovesOn(db, f, db.files[f], body);
    BehindTheEnd(after, f, owner, offset, body);
  }

  lemma AcceptedRow(db: Db, f: FileId, owner: string, offset: nat, body: seq<byte>)
    requires PutError(db, f, owner, offset, body).None?
    ensures f in db.files && db.files[f].owner == owner && db.files[f].bytesReceived == offset
    ensures db.files[f].upload != Completed && |body| <= Config.MAX_CHUNK_BYTES
  {
  }

  /** A completion does not touch other files or queued rows, and completing again
      after it succeeds and changes nothing. */
  lemma CompletingTwice(db: Db, f: FileId, owner: string)
    requires TablesOk(db) && CompleteError(db, f, owner).None? && db.files[f].upload != Completed
    ensures var done := AfterCompleted(AfterFinalizing(db, f), f);
            && CompleteError(done, f, owner).None? && done.files[f].upload == Completed
            && done.files == db.files[f := done.files[f]] && db.chunks <= done.chunks
  {
    var row := db.files[f];
    UploadSteps.CloseTables(db, f, row);
    CompletedTwice(db, f, owner, UploadSteps.RowAfterClose(row), NewRows(f, FlushRow(row).passages, row.nextSequence));
  }

  lemma CompletedTwice(db: Db, f: FileId, owner: string, next: FileRow, rows: seq<ChunkRow>)
    requires f in db.files && next.owner == owner
    ensures var done := AfterCompleted(Db(db.files[f := next], db.chunks + rows), f);
            && CompleteError(done, f, owner).None? && done.files[f].upload == Completed
            && done.files == db.files[f := done.files[f]] && db.chunks <= done.chunks
  {
  }

  /** What a restart makes of an upload: one that was receiving is interrupted, one
      that was being finalised is open again, and nothing else about it changes. */
  lemma StatusAfterRestart(labels: seq<Label>, f: FileId)
    requires f in Run(labels).db.files
    ensures var was, t := Run(labels).db.files[f], Run(labels + [Crash, Recover]);
            && f in t.db.files
            && t.db.files[f] == was.(upload := match was.upload
                                               case Uploading => Interrupted
                                               case Finalizing => Uploading
                                               case _ => was.upload)
  {
    hide Drain, Step;
    RunTwoMore(labels, Crash, Recover);
    Restarted(Run(labels), f);
  }

  lemma Restarted(s: State, f: FileId)
    requires f in s.db.files
    ensures f in Step(Step(s, Crash), Recover).db.files
    ensures Step(Step(s, Crash), Recover).db.files[f] == Reverted(s.db.files[f])
  {
    hide Drain, AfterPut, AfterFinalizing, AfterCompleted;
  }

  // ------------------------------------------------------------- after a restart

  lemma RestartIsFree(labels: seq<Label>)
    ensures var s, t := Run(labels), Run(labels + [Crash, Recover]);
            && t.Free() && t.completions == map[] && t.log == s.log && t.disk == s.disk && t.db == AfterRecover(s.db)
  {
    RunTwoMore(labels, Crash, Recover);
  }

  lemma OpenMayGoOn(db: Db, f: FileId, owner: string, offset: nat, body: seq<byte>)
    requires f in db.files && db.files[f].owner == owner && db.files[f].bytesReceived == offset
    requires db.files[f].upload in {NotStarted, Uploading, Interrupted}
    requires |body| <= Config.MAX_CHUNK_BYTES && offset + |body| <= Config.MAX_FILE_BYTES
    requires offset == 0 ==> !Validators.BinaryVerdict(body)
    ensures PutError(db, f, owner, offset, body).None?
  {
  }

  lemma OpenMayComplete(db: Db, f: FileId, owner: string)
    requires f in db.files && db.files[f].owner == owner && db.files[f].bytesReceived > 0
    requires db.files[f].upload in {NotStarted, Uploading, Interrupted}
    ensures CompleteError(db, f, owner).None? && db.files[f].upload != Completed
  {
  }

  /** The four steps of a chunk PUT. */
  function PutLabels(f: FileId, owner: string, offset: nat, body: seq<byte>): seq<Label> {
    [PutCheck(f, owner, offset, body), PutTrim] + [PutWrite(|body|), PutCommit]
  }

  lemma RunPut(labels: seq<Label>, f: FileId, owner: string, offset: nat, body: seq<byte>)
    ensures Run(labels + PutLabels(f, owner, offset, body)) == PutSteps(Run(labels), f, owner, offset, body)
  {
    hide Run, AfterPut, AfterFinalizing, AfterCompleted;
    RunTwoMore(labels, PutCheck(f, owner, offset, body), PutTrim);
    RunTwoMore(labels + [PutCheck(f, owner, offset, body), PutTrim], PutWrite(|body|), PutCommit);
    assert labels + PutLabels(f, owner, offset, body)
        == labels + [PutCheck(f, owner, offset, body), PutTrim] + [PutWrite(|body|), PutCommit];
  }

  /** After a crash at any moment and a restart, an upload that is not completed and not
      renamed yet goes on where its committed bytes end: the next chunk is accepted,
      and then all of it can be read behind them. */
  lemma ResumableAfterCrash(labels: seq<Label>, f: FileId, body: seq<byte>)
    requires f in Run(labels).db.files && Run(labels).db.files[f].upload != Completed && f !in Run(labels).disk.final
    requires |body| <= Config.MAX_CHUNK_BYTES
    requires Run(labels).db.files[f].bytesReceived + |body| <= Config.MAX_FILE_BYTES
    requires Run(labels).db.files[f].bytesReceived == 0 ==> !Validators.BinaryVerdict(body)
    ensures var s := Run(labels);
            var row := s.db.files[f];
            var t := Run(labels + [Crash, Recover] + PutLabels(f, row.owner, row.bytesReceived, body));
            && f in s.log && f in t.log && t.log[f] == s.log[f] + [Accepted(row.bytesReceived, body)]
            && f in t.db.files && t.db.files[f].bytesReceived == row.bytesReceived + |body|
            && Readable(t.disk, f).Some? && Content(s.log[f]) + body <= Readable(t.disk, f).value
  {
    hide Run, Step, PutSteps, AfterPut;
    var s, now := Run(labels), labels + [Crash, Recover];
    var row := s.db.files[f];
    StatusAfterRestart(labels, f);
    RestartIsFree(labels);
    EndToEnd.CommittedBytesReadable(labels, f);
    OpenMayGoOn(Run(now).db, f, row.owner, row.bytesReceived, body);
    RunPut(now, f, row.owner, row.bytesReceived, body);
    PutAlone(Run(now), f, row.owner, row.bytesReceived, body);
    RowMovesOn(Run(now).db, f, Run(now).db.files[f], body);
    KnownGaps.AppendKeepsReadable(s.disk, f, Content(s.log[f]), body);
  }

  /** The four steps of a completion. */
  function CompleteLabels(r: nat, f: FileId, owner: string): seq<Label> {
    [CompleteClose(r, f, owner), CompleteLook(r)] + [CompleteMove(r), CompleteFinish(r)]
  }

  lemma RunComplete(labels: seq<Label>, r: nat, f: FileId, owner: string)
    ensures Run(labels + CompleteLabels(r, f, owner)) == CompleteSteps(Run(labels), r, f, owner)
  {
    hide Run, Drain, FeedBody, FlushRow, Config.PassageSizeFor, AfterPut, AfterFinalizing, AfterCompleted;
    RunTwoMore(labels, CompleteClose(r, f, owner), CompleteLook(r));
    RunTwoMore(labels + [CompleteClose(r, f, owner), CompleteLook(r)], CompleteMove(r), CompleteFinish(r));
    assert labels + CompleteLabels(r, f, owner)
        == labels + [CompleteClose(r, f, owner), CompleteLook(r)] + [CompleteMove(r), CompleteFinish(r)];
  }

  lemma RenameCannotFail(labels: seq<Label>, f: FileId)
    requires f in Run(labels).db.files && Run(labels).db.files[f].bytesReceived > 0
    ensures Finalized(Run(labels).disk, f).Ok?
  {
    hide Run;
    EndToEnd.CommittedBytesReadable(labels, f);
  }

  lemma CompletedRow(db: Db, f: FileId)
    requires f in db.files
    ensures var after := AfterCompleted(AfterFinalizing(db, f), f);
            f in after.files && after.files[f].upload == Completed && after.files[f].bytesReceived == db.files[f].bytesReceived
  {
    hide FlushRow;
  }

  /** And wherever the crash fell, before the rename or after it, an upload with any bytes
      can be completed, with all of its committed bytes under the final name. */
  lemma CompletableAfterCrash(labels: seq<Label>, f: FileId, r: nat)
    requires f in Run(labels).db.files && Run(labels).db.files[f].upload != Completed
    requires Run(labels).db.files[f].bytesReceived > 0
    ensures var s := Run(labels);
            var t := Run(labels + [Crash, Recover] + CompleteLabels(r, f, s.db.files[f].owner));
            && f in t.db.files && t.db.files[f].upload == Completed
            && t.db.files[f].bytesReceived == s.db.files[f].bytesReceived
            && f in s.log && t.log == s.log && f in t.disk.final && Content(s.log[f]) <= t.disk.final[f]
  {
    hide Run, Step, CompleteSteps, AfterFinalizing, AfterCompleted, Finalized;
    var now, owner := labels + [Crash, Recover], Run(labels).db.files[f].owner;
    StatusAfterRestart(labels, f);
    RestartIsFree(labels);
    EndToEnd.CommittedBytesReadable(labels, f);
    OpenMayComplete(Run(now).db, f, owner);
    RenameCannotFail(now, f);
    RunComplete(now, r, f, owner);
    CompleteAlone(Run(now), r, f, owner);
    CompletedRow(Run(now).db, f);
    EndToEnd.CommittedBytesReadable(now + CompleteLabels(r, f, owner), f);
  }

  // ------------------------------------------------------------- completing again

  lemma NothingPendingTables(db: Db, f: FileId)
    requires TablesOk(db) && f in db.files && db.files[f].upload != Completed && db.files[f].pendingTail == []
    ensures AfterFinalizing(db, f).chunks == db.chunks
  {
    hide TablesOk, FlushRow;
    UploadSteps.CloseTables(db, f, db.files[f]);
    Finalisation.NothingToFlush(db.files[f]);
  }

  /** In every run, completing a file with nothing held back queues nothing. */
  lemma NothingPendingNothingQueued(labels: seq<Label>, r: nat, f: FileId, owner: string)
    requires f in Run(labels).db.files && Run(labels).db.files[f].pendingTail == []
    ensures Run(labels + [CompleteClose(r, f, owner)]).db.chunks == Run(labels).db.chunks
  {
    hide Run, AfterFinalizing, TablesOk;
    TablesOfRun(labels);
    RunAndClose(labels, r, f, owner, Run(labels));
    if Run(labels).db.files[f].upload != Completed {
      NothingPendingTables(Run(labels).db, f);
    }
  }

  /** So a completion that is repeated after a crash had reopened its file queues nothing
      new, wherever between its transactions the process died. */
  lemma RepeatedAfterRestart(labels: seq<Label>, r: nat, f: FileId, owner: string)
    requires Finalisation.IsClosed(Run(labels).db.files, f)
    ensures Run(labels + [Crash, Recover] + [CompleteClose(r, f, owner)]).db.chunks == Run(labels + [Crash, Recover]).db.chunks
  {
    hide Run, Step;
    ClosedHasNoTail(labels, f);
    StatusAfterRestart(labels, f);
    NothingPendingNothingQueued(labels + [Crash, Recover], r, f, owner);
  }

  lemma ClosedHasNoTail(labels: seq<Label>, f: FileId)
    requires Finalisation.IsClosed(Run(labels).db.files, f)
    ensures Run(labels).db.files[f].pendingTail == []
  {
    hide Run;
    RunKeepsInv(labels);
    UploadSteps.OneStream(Run(labels).db, Run(labels).log, f);
  }

  // --------------------------------------------------------- a client and its file

  /** Every chunk that a client sends for `f` is what `data` has at its offset. */
  predicate SendsFrom(labels: seq<Label>, f: FileId, data: seq<byte>) {
    forall k | 0 <= k < |labels| && labels[k].PutCheck? && labels[k].f == f :: IsPiece(labels[k].offset, labels[k].body, data)
  }

  predicate IsPiece(offset: nat, body: seq<byte>, data: seq<byte>) {
    offset + |body| <= |data| && body == data[offset..offset + |body|]
  }

  /** What is committed is the beginning of `data`, and what is in flight continues it. */
  ghost predicate Faithful(s: State, f: FileId, data: seq<byte>) {
    && (f in s.log ==> Content(s.log[f]) <= data)
    && (s.put.Some? && s.put.value.f == f ==> IsPiece(s.put.value.row.bytesReceived, s.put.value.body, data))
  }

  lemma PieceAppends(stream: seq<byte>, body: seq<byte>, data: seq<byte>)
    requires stream <= data && IsPiece(|stream|, body, data)
    ensures stream + body <= data
  {
  }

  lemma CommitIsFaithful(s: State, f: FileId, data: seq<byte>)
    requires StreamsOk(s.db, s.log) && PutOk(s.db.files, s.log, s.disk, s.put) && Commits(s, f) && Faithful(s, f, data)
    ensures Faithful(DoPutCommit(s), f, data)
  {
    hide AfterPut, FileStream;
    var p := s.put.value;
    CommittedLength(s.db, s.log, f);
    ContentSnoc(s.log[f], Accepted(p.row.bytesReceived, p.body));
    PieceAppends(Content(s.log[f]), p.body, data);
  }

  lemma CommittedLength(db: Db, log: map<FileId, seq<Accepted>>, f: FileId)
    requires StreamsOk(db, log) && f in log
    ensures f in db.files && db.files[f].bytesReceived == |Content(log[f])|
  {
    UploadSteps.OneStream(db, log, f);
  }

  /** Only a check puts a chunk in flight. */
  lemma PutComesFromCheck(s: State, l: Label)
    requires !l.PutCheck? && Step(s, l).put.Some?
    ensures s.put.Some? && Step(s, l).put.value.f == s.put.value.f
    ensures Step(s, l).put.value.row == s.put.value.row && Step(s, l).put.value.body == s.put.value.body
  {
    hide Step;
    if l.Claim? || l.Read? || l.Sift? || l.Upsert? || l.IngestOk? || l.Fail? || l.Abandon? || l.Crash? || l.Recover? {
      WorkersLeavePut(s, l);
    } else {
      PutGoesOn(s, l);
    }
  }

  lemma WorkersLeavePut(s: State, l: Label)
    requires l.Claim? || l.Read? || l.Sift? || l.Upsert? || l.IngestOk? || l.Fail? || l.Abandon? || l.Crash? || l.Recover?
    ensures Step(s, l).put == s.put || Step(s, l).put == None
  {
    hide BatchJobs, AfterClaim, AfterComplete, AfterFail, AfterRecover, Kept, Empty, KeptBy, AllStored, ReadOn,
         DoCreate, DoPutCheck, DoPutTrim, DoPutWrite, DoPutCommit, DoCompleteClose, DoCompleteLook, DoCompleteMove,
         DoCompleteFinish;
  }

  lemma PutGoesOn(s: State, l: Label)
    requires l.Create? || l.PutTrim? || l.PutWrite? || l.PutCommit? || l.PutAbort? || l.CompleteClose? || l.CompleteLook?
             || l.CompleteMove? || l.CompleteFinish? || l.CompleteDrop?
    ensures var t := Step(s, l);
            t.put.Some? ==>
              && s.put.Some? && t.put.value.f == s.put.value.f
              && t.put.value.row == s.put.value.row && t.put.value.body == s.put.value.body
  {
    hide AfterPut, AfterFinalizing, AfterCompleted, Renamed, Reconciled, Appended, CompleteError, DoPutCheck, DoClaim,
         DoRead, DoSift, DoUpsert, DoIngestOk, DoFail, AfterRecover;
  }

  lemma CheckIsFaithful(s: State, f: FileId, g: FileId, owner: string, offset: nat, body: seq<byte>, data: seq<byte>)
    requires Faithful(s, f, data) && (g == f ==> IsPiece(offset, body, data))
    ensures Faithful(DoPutCheck(s, g, owner, offset, body), f, data)
  {
    hide Content, Validators.BinaryVerdict;
  }

  lemma NewLogIsFaithful(s: State, l: Label, f: FileId, data: seq<byte>)
    requires Inv(s) && f !in s.log
    ensures f in Step(s, l).log ==> Step(s, l).log[f] == []
  {
    hide Drain, TablesOk, StreamsOk, PointsOk, PointOk, WorkersOk, WorkerOk, PutOk, CompletionsOk, FeedBody,
         FlushRow, Config.PassageSizeFor, Step, Content;
    LogBegins(s, l, f);
  }

  lemma LogBegins(s: State, l: Label, f: FileId)
    requires PutOk(s.db.files, s.log, s.disk, s.put) && f !in s.log
    ensures f in Step(s, l).log ==> Step(s, l).log[f] == []
  {
    hide Drain, AfterPut, AfterFinalizing, AfterCompleted;
    if l.Sift? {
      History.SiftTouchesNoData(s, l.w);
    }
  }

  lemma StepIsFaithful(s: State, l: Label, f: FileId, data: seq<byte>)
    requires Inv(s) && Faithful(s, f, data)
    requires l.PutCheck? && l.f == f ==> IsPiece(l.offset, l.body, data)
    ensures Faithful(Step(s, l), f, data)
  {
    hide TablesOk, DiskOk, WorkersOk, PointsOk, Content, Drain, StreamsOk, PutOk, CompletionsOk, FeedBody, FlushRow,
         Config.PassageSizeFor, AfterPut, AfterFinalizing, AfterCompleted;
    if l.PutCheck? {
      CheckIsFaithful(s, f, l.f, l.owner, l.offset, l.body, data);
    } else if l.PutCommit? && Commits(s, f) {
      CommitIsFaithful(s, f, data);
    } else {
      OtherIsFaithful(s, l, f, data);
    }
  }

  lemma OtherIsFaithful(s: State, l: Label, f: FileId, data: seq<byte>)
    requires Inv(s) && Faithful(s, f, data) && !l.PutCheck? && !(l.PutCommit? && Commits(s, f))
    ensures Faithful(Step(s, l), f, data)
  {
    hide Inv, Step, IsPiece;
    if Step(s, l).put.Some? {
      PutComesFromCheck(s, l);
    }
    if f in s.log {
      LogOfOthers(s, l, f);
    } else {
      NewLogIsFaithful(s, l, f, data);
    }
  }

  lemma LogOfOthers(s: State, l: Label, f: FileId)
    requires Inv(s) && f in s.log && !(l.PutCommit? && Commits(s, f))
    ensures f in Step(s, l).log && Step(s, l).log[f] == s.log[f]
  {
    hide TablesOk, StreamsOk, PointsOk, PointOk, FeedBody, FlushRow, Config.PassageSizeFor, InsertPending;
    if !Cuts(s, l, f) {
      LogStays(s, l, f);
    }
  }

  lemma {:induction false} RunIsFaithful(labels: seq<Label>, f: FileId, data: seq<byte>)
    requires SendsFrom(labels, f, data)
    ensures Faithful(Run(labels), f, data)
  {
    hide Inv, Step, Faithful;
    if |labels| > 0 {
      var before, l := labels[..|labels| - 1], labels[|labels| - 1];
      RunIsFaithful(before, f, data);
      RunKeepsInv(before);
      StepIsFaithful(Run(before), l, f, data);
    } else {
      NothingIsFaithful(f, data);
    }
  }

  lemma NothingIsFaithful(f: FileId, data: seq<byte>)
    ensures Faithful(INITIAL, f, data)
  {
  }

  /** The promise of resuming: if every chunk sent for a file, first try or retry, is what
      the client's file has at that offset, then through any failures the committed
      bytes are a beginning of the client's file, and all of it once their number is. */
  lemma ResumedFileIsExact(labels: seq<Label>, f: FileId, data: seq<byte>)
    requires SendsFrom(labels, f, data) && f in Run(labels).db.files
    ensures var s := Run(labels);
            && f in s.log && Content(s.log[f]) <= data && s.db.files[f].bytesReceived <= |data|
            && (s.db.files[f].bytesReceived == |data| ==> Content(s.log[f]) == data)
  {
    hide Run;
    RunIsFaithful(labels, f, data);
    EndToEnd.CommittedBytesReadable(labels, f);
  }
}
