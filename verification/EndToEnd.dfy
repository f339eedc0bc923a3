/** What a client may conclude from the state of any run: what a status promises
    about every byte, what the counters count, and what can be read back. */
module EndToEnd {
  import opened Bytes
  import opened Chunker
  import opened ChunkerLaws
  import opened Tables
  import opened Storage
  import opened JobQueue
  import opened Accounting
  import opened QueueLaws
  import opened Pipeline
  import opened Invariant
  import opened Batches
  import opened Reachable
  import opened Straddles
  import opened Recounts
  import opened UploadSteps
  import WorkerSteps
  import Config

  // ---------------------------------------------------------------- every byte

  /** Row `i` is of file `f` and its range holds byte `b`. */
  ghost predicate RowHolds(chunks: seq<ChunkRow>, f: FileId, b: int, i: nat) {
    && i < |chunks| && chunks[i].fileId == f
    && chunks[i].range.start <= b < chunks[i].range.end
  }

  /** Byte `b` can be found: its row's point is stored, carries that row's range,
      and embeds exactly the committed bytes of that range. */
  ghost predicate Searchable(s: State, f: FileId, b: int, i: nat) {
    && RowHolds(s.db.chunks, f, b, i)
    && f in s.log
    && var row := s.db.chunks[i];
       && 0 <= row.range.start <= row.range.end <= |Content(s.log[f])|
       && (f, row.sequence) in s.points
       && s.points[(f, row.sequence)] == Point(row.range, Content(s.log[f])[row.range.start..row.range.end])
  }

  /** Place `q` among a file's passages is the range of one of its rows. */
  lemma RowAt(chunks: seq<ChunkRow>, f: FileId, q: nat) returns (i: nat)
    requires Numbered(Keys(chunks)) && q < |FileRanges(chunks, f)|
    ensures i < |chunks| && chunks[i].fileId == f && chunks[i].sequence == q
    ensures chunks[i].range == FileRanges(chunks, f)[q]
  {
    i := RowOfSequence(Keys(chunks), f, |chunks|, q);
    RangeOfRow(Keys(chunks), i, |chunks|);
  }

  /** The passages of a closed file reach every byte. */
  lemma PassageOfByte(row: FileRow, ranges: seq<Range>, stream: seq<byte>, b: nat) returns (q: int)
    requires FileStream(row, ranges, stream) && b < row.bytesReceived
    requires row.upload == Finalizing || row.upload == Completed
    ensures Holds(ranges, q, b)
  {
    q := TilesCover(ranges, b);
  }

  lemma RowOfByte(s: State, f: FileId, b: nat) returns (i: nat)
    requires TablesOk(s.db) && StreamsOk(s.db, s.log)
    requires f in s.db.files && b < s.db.files[f].bytesReceived
    requires s.db.files[f].upload == Finalizing || s.db.files[f].upload == Completed
    ensures RowHolds(s.db.chunks, f, b, i)
  {
    OneStream(s.db, s.log, f);
    var q := PassageOfByte(s.db.files[f], FileRanges(s.db.chunks, f), Content(s.log[f]), b);
    i := RowAt(s.db.chunks, f, q);
  }

  /** An indexed row with a point. */
  lemma StoredRow(s: State, i: nat, b: int)
    requires TablesOk(s.db) && PointsOk(s.db.chunks, s.log, s.points)
    requires i < |s.db.chunks| && RowHolds(s.db.chunks, s.db.chunks[i].fileId, b, i)
    requires (s.db.chunks[i].fileId, s.db.chunks[i].sequence) in s.points
    ensures Searchable(s, s.db.chunks[i].fileId, b, i)
  {
    var row := s.db.chunks[i];
    assert PointOk(s.db.chunks, s.log, (row.fileId, row.sequence), s.points[(row.fileId, row.sequence)]);
    RangeOfRow(Keys(s.db.chunks), i, |s.db.chunks|);
  }

  /** Byte `b` of an indexed row can be found unless the row was completed as empty and
      never stored. */
  lemma IndexedRow(labels: seq<Label>, i: nat, b: int)
    requires i < |Run(labels).db.chunks| && Run(labels).db.chunks[i].status == Indexed
    requires RowHolds(Run(labels).db.chunks, Run(labels).db.chunks[i].fileId, b, i)
    ensures Searchable(Run(labels), Run(labels).db.chunks[i].fileId, b, i) <==> i !in Missed(labels)
    ensures i in Missed(labels) ==> Straddled(labels, Run(labels).db.chunks[i].fileId)
  {
    hide Run, Missed, TablesOk, StreamsOk, DiskOk, PointsOk, WorkersOk, PutOk, CompletionsOk, Straddled;
    RunKeepsInv(labels);
    var s := Run(labels);
    MissedExactlyWhen(labels, i);
    if i in Missed(labels) {
      MissedIsStraddled(labels, i);
    } else {
      StoredRow(s, i, b);
    }
  }

  lemma {:induction false} NoneCounted(chunks: seq<ChunkRow>, f: FileId, status: ChunkStatus, n: nat, i: nat)
    requires i < n <= |chunks| && Count(chunks, f, status, n) == 0 && chunks[i].fileId == f
    ensures chunks[i].status != status
  {
    if i < n - 1 {
      NoneCounted(chunks, f, status, n - 1, i);
    }
  }

  lemma {:induction false} NoneToCount(chunks: seq<ChunkRow>, f: FileId, status: ChunkStatus, n: nat)
    requires n <= |chunks| && forall i | 0 <= i < n && chunks[i].fileId == f :: chunks[i].status != status
    ensures Count(chunks, f, status, n) == 0
  {
    if n > 0 {
      NoneToCount(chunks, f, status, n - 1);
    }
  }

  /** No row of the file waits or is being processed. */
  ghost predicate AllSettled(chunks: seq<ChunkRow>, f: FileId) {
    forall i | 0 <= i < |chunks| && chunks[i].fileId == f :: chunks[i].status == Indexed || chunks[i].status == Failed
  }

  ghost predicate NoneFailed(chunks: seq<ChunkRow>, f: FileId) {
    forall i | 0 <= i < |chunks| && chunks[i].fileId == f :: chunks[i].status != Failed
  }

  /** How many rows of the file wait or are being processed. */
  function UnsettledRows(chunks: seq<ChunkRow>, f: FileId): nat {
    CountAll(chunks, f, Pending) + CountAll(chunks, f, Processing)
  }

  lemma {:induction false} FourCounts(chunks: seq<ChunkRow>, f: FileId, n: nat)
    requires n <= |chunks|
    ensures Count(chunks, f, Indexed, n) + Count(chunks, f, Failed, n) + Count(chunks, f, Pending, n)
          + Count(chunks, f, Processing, n) == |Ranges(Keys(chunks), f, n)|
  {
    if n > 0 {
      FourCounts(chunks, f, n - 1);
    }
  }

  lemma AllSettledIff(chunks: seq<ChunkRow>, f: FileId)
    ensures AllSettled(chunks, f) <==> UnsettledRows(chunks, f) == 0
  {
    if AllSettled(chunks, f) {
      NoneToCount(chunks, f, Pending, |chunks|);
      NoneToCount(chunks, f, Processing, |chunks|);
    }
    if UnsettledRows(chunks, f) == 0 {
      forall i | 0 <= i < |chunks| && chunks[i].fileId == f
        ensures chunks[i].status == Indexed || chunks[i].status == Failed
      {
        NoneCounted(chunks, f, Pending, |chunks|, i);
        NoneCounted(chunks, f, Processing, |chunks|, i);
      }
    }
  }

  lemma FailedByCount(row: FileRow, chunks: seq<ChunkRow>, f: FileId)
    requires RowCounted(row, chunks, f)
    ensures row.chunksFailed == 0 <==> NoneFailed(chunks, f)
  {
    if row.chunksFailed == 0 {
      forall i | 0 <= i < |chunks| && chunks[i].fileId == f
        ensures chunks[i].status != Failed
      {
        NoneCounted(chunks, f, Failed, |chunks|, i);
      }
    }
    if NoneFailed(chunks, f) {
      NoneToCount(chunks, f, Failed, |chunks|);
    }
  }

  /** In every run: the rows of a file are as many as its total says, the failed ones as
      many as counted, and the indexed ones fewer than counted by exactly the rows that
      were counted when a read had found nothing and then sent back to the queue. */
  lemma CountersAreExact(labels: seq<Label>, f: FileId)
    requires f in Run(labels).db.files
    ensures var db := Run(labels).db;
            var row := db.files[f];
            && row.chunksTotal == row.nextSequence == |FileRanges(db.chunks, f)|
            && row.chunksFailed == CountAll(db.chunks, f, Failed)
            && row.chunksIndexed == CountAll(db.chunks, f, Indexed) + Recounted(labels, f)
            && row.chunksIndexed + row.chunksFailed + UnsettledRows(db.chunks, f) == row.chunksTotal + Recounted(labels, f)
    ensures !Straddled(labels, f) ==> Recounted(labels, f) == 0
  {
    hide Run, Recounted, Straddled, Ranges, Count, Numbered, RetriesBounded, TerminalSettled;
    TablesOfRun(labels);
    var db := Run(labels).db;
    assert RowCounted(db.files[f], db.chunks, f);
    ExcessInRun(labels, f);
    FourCounts(db.chunks, f, |db.chunks|);
    if Recounted(labels, f) > 0 {
      RecountIsStraddled(labels, f);
    }
  }

  lemma StatusOfRow(labels: seq<Label>, f: FileId)
    requires f in Run(labels).db.files
    ensures RowSettled(Run(labels).db.files[f])
  {
    hide Run;
    TablesOfRun(labels);
  }

  /** A terminal status means that the upload is complete, and it is `completed` exactly
      when no row failed. No more rows are outstanding than were counted and sent back:
      none at all if no read of the file was straddled. */
  lemma TerminalMeansSettled(labels: seq<Label>, f: FileId)
    requires f in Run(labels).db.files && Run(labels).db.files[f].processing.Terminal()
    ensures var db := Run(labels).db;
            && db.files[f].upload == Completed
            && (db.files[f].processing == Done <==> NoneFailed(db.chunks, f))
            && UnsettledRows(db.chunks, f) <= Recounted(labels, f)
            && (!Straddled(labels, f) ==> AllSettled(db.chunks, f))
  {
    hide Run, Recounted, Straddled, Count, AllSettled, UnsettledRows;
    var db := Run(labels).db;
    CountersAreExact(labels, f);
    StatusOfRow(labels, f);
    FailedByCount(db.files[f], db.chunks, f);
    AllSettledIff(db.chunks, f);
  }

  lemma SettledRow(chunks: seq<ChunkRow>, f: FileId, i: nat)
    requires AllSettled(chunks, f) && i < |chunks| && chunks[i].fileId == f
    ensures chunks[i].status == Indexed || chunks[i].status == Failed
  {
  }

  lemma RowOfClosed(labels: seq<Label>, f: FileId, b: nat) returns (i: nat)
    requires f in Run(labels).db.files && b < Run(labels).db.files[f].bytesReceived
    requires Run(labels).db.files[f].upload == Completed
    ensures RowHolds(Run(labels).db.chunks, f, b, i)
  {
    hide Run, TablesOk, StreamsOk, DiskOk, PointsOk, WorkersOk, PutOk, CompletionsOk;
    RunKeepsInv(labels);
    i := RowOfByte(Run(labels), f, b);
  }

  /** The main theorem, for every run. If the processing of a file is reported completed
      then every byte received is searchable, provided that no read of the file was
      straddled by its rename. Otherwise a byte that cannot be found is in a row that was
      completed as empty without ever being stored, or in one that was counted so and
      then sent back. */
  lemma DoneMeansSearchable(labels: seq<Label>, f: FileId, b: nat) returns (i: nat)
    requires f in Run(labels).db.files && Run(labels).db.files[f].processing == Done
    requires b < Run(labels).db.files[f].bytesReceived
    ensures !Straddled(labels, f) ==> Searchable(Run(labels), f, b, i)
    ensures RowHolds(Run(labels).db.chunks, f, b, i)
    ensures if Run(labels).db.chunks[i].status == Indexed
            then Searchable(Run(labels), f, b, i) <==> i !in Missed(labels)
            else Run(labels).db.chunks[i].status != Failed && Recounted(labels, f) > 0
  {
    hide Run, Recounted, Missed, Straddled, UnsettledRows, AllSettled;
    TerminalMeansSettled(labels, f);
    CountersAreExact(labels, f);
    i := RowOfClosed(labels, f, b);
    var chunks := Run(labels).db.chunks;
    AllSettledIff(chunks, f);
    if chunks[i].status == Indexed {
      IndexedRow(labels, i, b);
    } else if AllSettled(chunks, f) {
      SettledRow(chunks, f, i);
    }
  }

  /** When it ended with failures: a byte that cannot be found is in a row that used up
      its retries, again unless a read was straddled. */
  lemma UnsearchableMeansFailed(labels: seq<Label>, f: FileId, b: nat) returns (i: nat)
    requires f in Run(labels).db.files && Run(labels).db.files[f].processing.Terminal()
    requires b < Run(labels).db.files[f].bytesReceived
    ensures RowHolds(Run(labels).db.chunks, f, b, i)
    ensures var row := Run(labels).db.chunks[i];
            match row.status
            case Indexed => Searchable(Run(labels), f, b, i) <==> i !in Missed(labels)
            case Failed => row.retryCount == Config.MAX_RETRIES
            case _ => Recounted(labels, f) > 0
    ensures !Straddled(labels, f) ==>
              Searchable(Run(labels), f, b, i)
              || (Run(labels).db.chunks[i].status == Failed && Run(labels).db.chunks[i].retryCount == Config.MAX_RETRIES)
  {
    hide Run, Recounted, Missed, Straddled, UnsettledRows, AllSettled;
    TerminalMeansSettled(labels, f);
    CountersAreExact(labels, f);
    i := RowOfClosed(labels, f, b);
    var chunks := Run(labels).db.chunks;
    AllSettledIff(chunks, f);
    RetriesAreBounded(labels, i);
    if chunks[i].status == Indexed {
      IndexedRow(labels, i, b);
    } else if AllSettled(chunks, f) {
      SettledRow(chunks, f, i);
    }
  }

  // ------------------------------------------------------------------- numbering

  /** A file's rows are numbered 0, 1, 2, ..., each number once. */
  lemma SequencesAreExact(labels: seq<Label>, f: FileId, q: nat)
    requires f in Run(labels).db.files
    ensures var db := Run(labels).db;
            q < db.files[f].nextSequence <==> exists i | 0 <= i < |db.chunks| :: db.chunks[i].fileId == f && db.chunks[i].sequence == q
    ensures var db := Run(labels).db;
            forall i, j | 0 <= i < j < |db.chunks| && db.chunks[i].fileId == f && db.chunks[j].fileId == f ::
              db.chunks[i].sequence < db.chunks[j].sequence
  {
    hide Run, StreamsOk, DiskOk, PointsOk, PointOk, WorkersOk, WorkerOk, PutOk, CompletionsOk, Ranges, Count,
         RowCounted, RowSettled;
    RunKeepsInv(labels);
    CountersAreExact(labels, f);
    SequencesOf(Run(labels).db.chunks, f, q);
  }

  lemma SequencesOf(chunks: seq<ChunkRow>, f: FileId, q: nat)
    requires Numbered(Keys(chunks))
    ensures q < |FileRanges(chunks, f)| <==> exists i | 0 <= i < |chunks| :: chunks[i].fileId == f && chunks[i].sequence == q
    ensures forall i, j | 0 <= i < j < |chunks| && chunks[i].fileId == f && chunks[j].fileId == f ::
              chunks[i].sequence < chunks[j].sequence
  {
    if q < |FileRanges(chunks, f)| {
      var i := RowAt(chunks, f, q);
    }
    forall i | 0 <= i < |chunks| && chunks[i].fileId == f
      ensures chunks[i].sequence < |FileRanges(chunks, f)|
    {
      RangeOfRow(Keys(chunks), i, |chunks|);
    }
    forall i, j | 0 <= i < j < |chunks| && chunks[i].fileId == f && chunks[j].fileId == f
      ensures chunks[i].sequence < chunks[j].sequence
    {
      IdsFollowSequences(Keys(chunks), i, j);
    }
  }

  /** Failed rows have used all their retries, all others have some left. */
  lemma RetriesAreBounded(labels: seq<Label>, i: nat)
    requires i < |Run(labels).db.chunks|
    ensures var row := Run(labels).db.chunks[i];
            if row.status == Failed then row.retryCount == Config.MAX_RETRIES else row.retryCount < Config.MAX_RETRIES
  {
    hide Run, StreamsOk, DiskOk, PointsOk, PointOk, WorkersOk, WorkerOk, PutOk, CompletionsOk, Ranges, Count,
         RowCounted, RowSettled;
    RunKeepsInv(labels);
  }

  // -------------------------------------------------------------------- storage

  /** Through any crashes, torn writes and renames, the readable file starts with
      the committed bodies, `bytes_received` bytes in all. */
  lemma CommittedBytesReadable(labels: seq<Label>, f: FileId)
    requires f in Run(labels).db.files
    ensures var s := Run(labels);
            && f in s.log && |Content(s.log[f])| == s.db.files[f].bytesReceived <= Config.MAX_FILE_BYTES
            && (s.db.files[f].bytesReceived > 0 ==>
                  Readable(s.disk, f).Some? && Content(s.log[f]) <= Readable(s.disk, f).value)
            && (s.db.files[f].upload == Completed ==> f in s.disk.final && f !in s.disk.partial)
  {
    hide Run, TablesOk, StreamsOk, PointsOk, PointOk, WorkersOk, WorkerOk, PutOk, CompletionsOk, FileStream, Tracks,
         FileRanges;
    RunKeepsInv(labels);
    var s := Run(labels);
    OneStream(s.db, s.log, f);
    assert FileOnDisk(s.db.files[f], Content(s.log[f]), s.disk, f);
  }

  lemma RowRange(s: State, i: nat)
    requires TablesOk(s.db) && StreamsOk(s.db, s.log) && i < |s.db.chunks|
    ensures var row := s.db.chunks[i];
            && row.fileId in s.log && row.fileId in s.db.files
            && 0 <= row.range.start < row.range.end <= |Content(s.log[row.fileId])|
  {
    var keys := Keys(s.db.chunks);
    assert keys[i].fileId in s.db.files;
    RangeOfRow(keys, i, |keys|);
    OneStream(s.db, s.log, keys[i].fileId);
  }

  /** A read that meets the directory at one moment gets exactly the range of its row. */
  lemma RowReadable(labels: seq<Label>, i: nat)
    requires i < |Run(labels).db.chunks|
    ensures var s := Run(labels);
            var row := s.db.chunks[i];
            && row.fileId in s.db.files && row.fileId in s.log
            && 0 <= row.range.start < row.range.end <= |Content(s.log[row.fileId])| == s.db.files[row.fileId].bytesReceived
            && ReadRange(s.disk, row.fileId, row.range) == Ok(Content(s.log[row.fileId])[row.range.start..row.range.end])
  {
    hide Run, TablesOk, DiskOk, WorkersOk, WorkerOk, PutOk, CompletionsOk, FileStream, Tracks, Content, RowCounted,
         RowSettled, ReadRange, Readable;
    RunKeepsInv(labels);
    var s := Run(labels);
    RowRange(s, i);
    var f := s.db.chunks[i].fileId;
    CommittedBytesReadable(labels, f);
    ReadInside(s.disk, f, Content(s.log[f]), s.db.chunks[i].range);
  }

  /** When all texts of a batch are read, exactly the jobs whose reads were straddled are
      completed as empty; without any, sifting keeps all jobs and changes no table. */
  lemma SiftingCompletesTorn(labels: seq<Label>, w: nat, k: nat)
    requires w in Run(labels).workers && Run(labels).workers[w].Reading?
    requires |Run(labels).workers[w].texts| == |Run(labels).workers[w].jobs|
    ensures var s := Run(labels);
            var jobs, texts := s.workers[w].jobs, s.workers[w].texts;
            && (k < |jobs| ==> (jobs[k].chunkId in Ids(Empty(jobs, texts)) <==> k in Torn(labels, w)))
            && (k < |jobs| ==> (jobs[k].chunkId in Ids(JobsOf(Kept(jobs, texts))) <==> k !in Torn(labels, w)))
            && (Torn(labels, w) == {} ==> JobsOf(Kept(jobs, texts)) == jobs && Run(labels + [Sift(w)]).db == s.db)
  {
    hide Run, Torn, TablesOk, StreamsOk, DiskOk, PointsOk, PutOk, CompletionsOk, Kept, Empty, JobsOf;
    RunKeepsInv(labels);
    var s := Run(labels);
    var jobs, texts := s.workers[w].jobs, s.workers[w].texts;
    WorkerSteps.OneWorker(s.db.chunks, s.log, s.workers, w);
    if k < |jobs| {
      PartOfJob(jobs, texts, k);
      EmptyExactlyWhen(labels, w, k);
    }
    if Torn(labels, w) == {} {
      forall j | 0 <= j < |texts|
        ensures texts[j] != []
      {
        EmptyExactlyWhen(labels, w, j);
      }
      NothingIsEmpty(jobs, texts);
      SiftsNothing(labels, s, w);
    }
  }

  lemma SiftsNothing(labels: seq<Label>, s: State, w: nat)
    requires s == Run(labels) && s.up && w in s.workers && s.workers[w].Reading? && |s.workers[w].texts| == |s.workers[w].jobs|
    requires Empty(s.workers[w].jobs, s.workers[w].texts) == []
    ensures Run(labels + [Sift(w)]).db == s.db
  {
    hide Run, DoSift;
    RunOneMore(labels, Sift(w));
    WorkerSteps.SiftIs(s, w);
  }
}
