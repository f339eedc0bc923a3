/** The steps of chunk PUTs and completions keep the invariant. */
module UploadSteps {
  import opened Bytes
  import opened Chunker
  import opened ChunkerLaws
  import opened Tables
  import opened Storage
  import opened JobQueue
  import opened UploadService
  import opened Accounting
  import opened EnqueueLaws
  import opened Pipeline
  import opened Invariant
  import opened Frames
  import Config

  // ------------------------------------------------------------ chunker to stream

  /** Draining with the file's earlier passages in front. */
  lemma DrainBehind(ranges: seq<Range>, offset: int, buffer: seq<byte>, stream: seq<byte>, p: Params, final: bool)
    requires p.Sane() && Tracks(ChunkState(ranges, offset, buffer), stream)
    ensures var st := Drain(ChunkState([], offset, buffer), p, final);
            && Tracks(ChunkState(ranges + st.passages, st.offset, st.buffer), stream)
            && (final ==> st.buffer == [])
  {
    var st := ChunkState([], offset, buffer);
    assert Prefixed(ranges, st) == ChunkState(ranges, offset, buffer) by {
      assert ranges + [] == ranges;
    }
    DrainAccumulates(ranges, st, p, final);
    DrainTracks(ChunkState(ranges, offset, buffer), stream, p, final);
  }

  /** The row a committed chunk leaves. */
  function RowAfterPut(row: FileRow, body: seq<byte>): FileRow {
    var st := FeedBody(row, body);
    UpdatedAfterChunk(row, row.bytesReceived + |body|, |st.passages|, row.nextSequence + |st.passages|, st.buffer)
  }

  /** Feeding a body to the buffer that the persisted tail gives. */
  lemma FeedBehind(ranges: seq<Range>, offset: int, tail: seq<byte>, stream: seq<byte>, body: seq<byte>, p: Params)
    requires p.Sane() && Tracks(ChunkState(ranges, offset, tail), stream)
    ensures var st := Drain(ChunkState([], offset, tail + body), p, false);
            Tracks(ChunkState(ranges + st.passages, st.offset, st.buffer), stream + body)
  {
    var st := ChunkState(ranges, offset, tail);
    assert Tracks(st.(buffer := tail + body), stream + body) by {
      LongerTracks(st, stream, body);
    }
    DrainBehind(ranges, offset, tail + body, stream + body, p, false);
  }

  lemma FeedRow(row: FileRow, ranges: seq<Range>, stream: seq<byte>, body: seq<byte>)
    requires Tracks(ChunkState(ranges, row.bytesReceived - |row.pendingTail|, row.pendingTail), stream)
    ensures var st := FeedBody(row, body);
            Tracks(ChunkState(ranges + st.passages, st.offset, st.buffer), stream + body)
  {
    hide Drain, FeedBody, Config.PassageSizeFor, Tracks;
    var p := SizesOf(row, body);
    FeedBehind(ranges, row.bytesReceived - |row.pendingTail|, row.pendingTail, stream, body, p);
  }

  /** A body is cut with some safe sizes. */
  lemma SizesOf(row: FileRow, body: seq<byte>) returns (p: Params)
    ensures p.Sane()
    ensures FeedBody(row, body) == Drain(ChunkState([], row.bytesReceived - |row.pendingTail|, row.pendingTail + body), p, false)
  {
    hide Drain;
    p := Config.PassageSizeFor(row.totalSize);
    Config.SizesAreSafe(row.totalSize);
  }

  lemma PutStream(row: FileRow, ranges: seq<Range>, stream: seq<byte>, body: seq<byte>)
    requires FileStream(row, ranges, stream) && row.bytesReceived + |body| <= Config.MAX_FILE_BYTES
    ensures FileStream(RowAfterPut(row, body), ranges + FeedBody(row, body).passages, stream + body)
  {
    hide Drain, FeedBody, Config.PassageSizeFor, Tracks;
    FeedRow(row, ranges, stream, body);
    TailGivesOffset(FeedBody(row, body), ranges + FeedBody(row, body).passages, stream + body);
  }

  lemma TailGivesOffset(st: ChunkState, ranges: seq<Range>, stream: seq<byte>)
    requires Tracks(ChunkState(ranges, st.offset, st.buffer), stream)
    ensures st.offset == |stream| - |st.buffer|
  {
  }

  /** The row that closing a file leaves. */
  function RowAfterClose(row: FileRow): FileRow {
    var st := FlushRow(row);
    MarkedFinalizing(row, |st.passages|, row.nextSequence + |st.passages|, row.bytesReceived)
  }

  lemma CloseStream(row: FileRow, ranges: seq<Range>, stream: seq<byte>)
    requires FileStream(row, ranges, stream) && row.bytesReceived > 0
    ensures FileStream(RowAfterClose(row), ranges + FlushRow(row).passages, stream)
  {
    var st := FlushRow(row);
    DrainBehind(ranges, |stream| - |row.pendingTail|, row.pendingTail, stream, DEFAULT_PARAMS, true);
    NothingBuffered(ranges + st.passages, st.offset, stream);
  }

  lemma NothingBuffered(ranges: seq<Range>, offset: int, stream: seq<byte>)
    requires Tracks(ChunkState(ranges, offset, []), stream)
    ensures offset == |stream|
  {
  }

  // ------------------------------------------------------------------- queueing

  lemma QueueGrows(db: Db, log: map<FileId, seq<Accepted>>, workers: map<nat, Worker>, points: map<(FileId, nat), Point>,
                   f: FileId, passages: seq<Range>, first: nat, more: map<FileId, seq<Accepted>>)
    requires WorkersOk(db.chunks, log, workers) && PointsOk(db.chunks, log, points) && LogGrows(log, more)
    ensures WorkersOk(db.chunks + NewRows(f, passages, first), more, workers)
    ensures PointsOk(db.chunks + NewRows(f, passages, first), more, points)
  {
    var after := db.chunks + NewRows(f, passages, first);
    WorkersGrow(db.chunks, log, workers, after, more);
    forall g
      ensures FileRanges(db.chunks, g) <= FileRanges(after, g)
    {
      AppendedFileRanges(db.chunks, f, passages, first, g);
    }
    PointsGrow(db.chunks, log, points, after, more);
  }

  /** One file's row and log move on; the others stay. */
  lemma StreamsGrow(db: Db, log: map<FileId, seq<Accepted>>, f: FileId, passages: seq<Range>, first: nat,
                    next: FileRow, entries: seq<Accepted>)
    requires StreamsOk(db, log) && f in db.files && OffsetsOk(entries)
    requires FileStream(next, FileRanges(db.chunks, f) + passages, Content(entries))
    ensures StreamsOk(Db(db.files[f := next], db.chunks + NewRows(f, passages, first)), log[f := entries])
  {
    var after, more := Db(db.files[f := next], db.chunks + NewRows(f, passages, first)), log[f := entries];
    assert more.Keys == after.files.Keys;
    OffsetsGrow(log, f, entries, more);
    EachStreamGrows(db, log, f, passages, first, next, entries, after, more);
    StreamsAssembled(after, more);
  }

  lemma StreamsAssembled(db: Db, log: map<FileId, seq<Accepted>>)
    requires log.Keys == db.files.Keys
    requires forall g | g in log :: OffsetsOk(log[g])
    requires forall g | g in log :: FileStream(db.files[g], FileRanges(db.chunks, g), Content(log[g]))
    ensures StreamsOk(db, log)
  {
  }

  lemma EachStreamGrows(db: Db, log: map<FileId, seq<Accepted>>, f: FileId, passages: seq<Range>, first: nat,
                        next: FileRow, entries: seq<Accepted>, after: Db, more: map<FileId, seq<Accepted>>)
    requires StreamsOk(db, log) && f in db.files
    requires FileStream(next, FileRanges(db.chunks, f) + passages, Content(entries))
    requires after == Db(db.files[f := next], db.chunks + NewRows(f, passages, first)) && more == log[f := entries]
    ensures forall g | g in more :: FileStream(after.files[g], FileRanges(after.chunks, g), Content(more[g]))
  {
    forall g | g in more
      ensures FileStream(after.files[g], FileRanges(after.chunks, g), Content(more[g]))
    {
      if g != f {
        OneStream(db, log, g);
      }
      StreamGrows(db, log, f, passages, first, next, entries, g);
    }
  }

  lemma OneStream(db: Db, log: map<FileId, seq<Accepted>>, g: FileId)
    requires StreamsOk(db, log) && g in log
    ensures g in db.files && FileStream(db.files[g], FileRanges(db.chunks, g), Content(log[g]))
  {
  }

  lemma OffsetsGrow(log: map<FileId, seq<Accepted>>, f: FileId, entries: seq<Accepted>, more: map<FileId, seq<Accepted>>)
    requires OffsetsOk(entries) && more == log[f := entries] && forall g | g in log :: OffsetsOk(log[g])
    ensures forall g | g in more :: OffsetsOk(more[g])
  {
  }

  lemma StreamGrows(db: Db, log: map<FileId, seq<Accepted>>, f: FileId, passages: seq<Range>, first: nat,
                    next: FileRow, entries: seq<Accepted>, g: FileId)
    requires FileStream(next, FileRanges(db.chunks, f) + passages, Content(entries))
    requires g != f ==> g in db.files && g in log && FileStream(db.files[g], FileRanges(db.chunks, g), Content(log[g]))
    ensures FileStream(db.files[f := next][g], FileRanges(db.chunks + NewRows(f, passages, first), g), Content(log[f := entries][g]))
  {
    AppendedFileRanges(db.chunks, f, passages, first, g);
    assert g != f ==> FileRanges(db.chunks, g) + [] == FileRanges(db.chunks, g);
  }

  // --------------------------------------------------------------------- create

  lemma CreateKeepsStreams(db: Db, log: map<FileId, seq<Accepted>>, f: FileId, row: FileRow)
    requires StreamsOk(db, log) && f !in db.files && FileRanges(db.chunks, f) == []
    requires row == NewFile(row.owner, row.totalSize)
    ensures StreamsOk(db.(files := db.files[f := row]), log[f := []])
  {
    var after, more := db.(files := db.files[f := row]), log[f := []];
    OffsetsGrow(log, f, [], more);
    EachStreamStays(db, log, f, row, after, more);
    StreamsAssembled(after, more);
  }

  lemma EachStreamStays(db: Db, log: map<FileId, seq<Accepted>>, f: FileId, row: FileRow, after: Db, more: map<FileId, seq<Accepted>>)
    requires StreamsOk(db, log) && f !in db.files && FileRanges(db.chunks, f) == []
    requires row == NewFile(row.owner, row.totalSize)
    requires after == db.(files := db.files[f := row]) && more == log[f := []]
    ensures forall g | g in more :: FileStream(after.files[g], FileRanges(after.chunks, g), Content(more[g]))
  {
    forall g | g in more
      ensures FileStream(after.files[g], FileRanges(after.chunks, g), Content(more[g]))
    {
      if g != f {
        OneStream(db, log, g);
      }
    }
  }

  lemma CreateKeepsDisk(files: map<FileId, FileRow>, log: map<FileId, seq<Accepted>>, disk: Disk, f: FileId, row: FileRow)
    requires DiskOk(files, log, disk) && f !in files && row.bytesReceived == 0 && row.upload == NotStarted
    ensures DiskOk(files[f := row], log[f := []], disk)
  {
  }

  lemma CreateAssembled(s: State, files: map<FileId, FileRow>, log: map<FileId, seq<Accepted>>)
    requires Inv(s) && s.Free() && TablesOk(Db(files, s.db.chunks)) && StreamsOk(Db(files, s.db.chunks), log)
    requires DiskOk(files, log, s.disk) && CompletionsOk(files, s.disk, s.completions)
    requires WorkersOk(s.db.chunks, log, s.workers) && PointsOk(s.db.chunks, log, s.points)
    ensures Inv(s.(db := Db(files, s.db.chunks), log := log))
  {
  }

  lemma CreateKeepsInv(s: State, f: FileId, owner: string, totalSize: nat)
    requires Inv(s)
    ensures Inv(DoCreate(s, f, owner, totalSize))
  {
    hide TablesOk, StreamsOk, PointsOk, PointOk, WorkersOk, WorkerOk, PutOk, CompletionsOk;
    if s.Free() && f !in s.db.files {
      var row := NewFile(owner, totalSize);
      var files, log := s.db.files[f := row], s.log[f := []];
      CreateKeepsTables(s.db, f, row);
      CreateKeepsStreams(s.db, s.log, f, row);
      CreateKeepsDisk(s.db.files, s.log, s.disk, f, row);
      CompletionsStay(s.db.files, s.disk, s.completions, files, s.disk);
      EmptyLogGrows(s.log, f);
      GrowQueueLog(s.db.chunks, s.log, s.workers, s.points, log);
      CreateAssembled(s, files, log);
    }
  }

  lemma EmptyLogGrows(log: map<FileId, seq<Accepted>>, f: FileId)
    requires f !in log
    ensures LogGrows(log, log[f := []])
  {
  }

  /** Workers and points with the same rows and a longer log. */
  lemma GrowQueueLog(chunks: seq<ChunkRow>, log: map<FileId, seq<Accepted>>, workers: map<nat, Worker>,
                     points: map<(FileId, nat), Point>, more: map<FileId, seq<Accepted>>)
    requires WorkersOk(chunks, log, workers) && PointsOk(chunks, log, points) && LogGrows(log, more)
    ensures WorkersOk(chunks, more, workers) && PointsOk(chunks, more, points)
  {
    WorkersGrow(chunks, log, workers, chunks, more);
    PointsGrow(chunks, log, points, chunks, more);
  }

  // ------------------------------------------------------------------- chunk PUT

  lemma PutCheckKeepsInv(s: State, f: FileId, owner: string, offset: nat, body: seq<byte>)
    requires Inv(s)
    ensures Inv(DoPutCheck(s, f, owner, offset, body))
  {
    hide TablesOk, StreamsOk, PointsOk, PointOk, WorkersOk, WorkerOk, FileOnDisk, Content;
  }

  /** The bytes in a file's `.partial`, if any. */
  function Partial(disk: Disk, f: FileId): seq<byte> {
    if f in disk.partial then disk.partial[f] else []
  }

  /** Trimming leaves exactly the committed bytes. */
  lemma TrimIsExact(disk: Disk, row: FileRow, stream: seq<byte>, f: FileId)
    requires FileOnDisk(row, stream, disk, f) && row.bytesReceived == |stream| && f !in disk.final
    ensures var after := Reconciled(disk, f, row.bytesReceived);
            && Partial(after, f) == stream && after.final == disk.final
            && after.partial.Keys == disk.partial.Keys
            && forall g | g in disk.partial && g != f :: after.partial[g] == disk.partial[g]
  {
    if f in disk.partial && |stream| > 0 {
      assert disk.partial[f][..|stream|] == stream;
    }
  }

  /** A change to one `.partial` that keeps the committed bytes in front. */
  lemma PartialChanges(files: map<FileId, FileRow>, log: map<FileId, seq<Accepted>>, disk: Disk, f: FileId, after: Disk)
    requires DiskOk(files, log, disk) && f in files && f !in disk.final && after.final == disk.final
    requires files[f].bytesReceived > 0 ==> f in after.partial
    requires f in after.partial ==> Content(log[f]) <= after.partial[f]
    requires disk.partial.Keys <= after.partial.Keys <= disk.partial.Keys + {f}
    requires forall g | g in disk.partial && g != f :: after.partial[g] == disk.partial[g]
    ensures DiskOk(files, log, after)
  {
    forall g | g in log
      ensures FileOnDisk(files[g], Content(log[g]), after, g)
    {
      assert FileOnDisk(files[g], Content(log[g]), disk, g);
    }
  }

  /** Only the disk and the chunk in flight have changed. */
  lemma PutMoves(s: State, disk: Disk, put: Put)
    requires Inv(s) && s.put.Some? && disk.final == s.disk.final
    requires DiskOk(s.db.files, s.log, disk) && PutOk(s.db.files, s.log, disk, Some(put))
    ensures Inv(s.(disk := disk, put := Some(put)))
  {
    hide TablesOk, StreamsOk, DiskOk, PointsOk, PointOk, WorkersOk, WorkerOk, PutOk, CompletionsOk;
    CompletionsStay(s.db.files, s.disk, s.completions, s.db.files, disk);
  }

  /** What the invariant says of the file of the chunk in flight. */
  lemma PutFacts(s: State, p: Put)
    requires StreamsOk(s.db, s.log) && DiskOk(s.db.files, s.log, s.disk)
    requires s.put == Some(p) && PutOk(s.db.files, s.log, s.disk, s.put)
    ensures p.f in s.log && p.f in s.db.files && s.db.files[p.f] == p.row && p.f !in s.disk.final
    ensures FileStream(p.row, FileRanges(s.db.chunks, p.f), Content(s.log[p.f]))
    ensures FileOnDisk(p.row, Content(s.log[p.f]), s.disk, p.f)
    ensures p.phase != Checked ==> Partial(s.disk, p.f) == Content(s.log[p.f]) + p.body[..p.written]
  {
  }

  lemma TrimmedOk(s: State, p: Put)
    requires StreamsOk(s.db, s.log) && DiskOk(s.db.files, s.log, s.disk)
    requires s.put == Some(p) && PutOk(s.db.files, s.log, s.disk, s.put) && p.phase == Checked
    ensures var after := Reconciled(s.disk, p.f, p.row.bytesReceived);
            && after.final == s.disk.final && DiskOk(s.db.files, s.log, after)
            && Partial(after, p.f) == Content(s.log[p.f])
  {
    PutFacts(s, p);
    TrimIsExact(s.disk, p.row, Content(s.log[p.f]), p.f);
    PartialChanges(s.db.files, s.log, s.disk, p.f, Reconciled(s.disk, p.f, p.row.bytesReceived));
  }

  lemma TrimMoves(s: State, p: Put)
    requires Inv(s) && s.put == Some(p) && p.phase == Checked
    ensures Inv(s.(disk := Reconciled(s.disk, p.f, p.row.bytesReceived), put := Some(p.(phase := Trimmed))))
  {
    hide TablesOk, StreamsOk, DiskOk, CompletionsOk, WorkersOk, PointsOk, Reconciled;
    TrimmedOk(s, p);
    NothingWritten(Content(s.log[p.f]), p.body);
    PutMoves(s, Reconciled(s.disk, p.f, p.row.bytesReceived), p.(phase := Trimmed));
  }

  lemma TrimKeepsInv(s: State)
    requires Inv(s)
    ensures Inv(DoPutTrim(s))
  {
    hide Inv;
    if s.put.Some? && s.put.value.phase == Checked {
      TrimMoves(s, s.put.value);
    }
  }

  lemma NothingWritten(stream: seq<byte>, body: seq<byte>)
    ensures stream + body[..0] == stream
  {
  }

  lemma WriteIsExact(disk: Disk, f: FileId, stream: seq<byte>, body: seq<byte>, written: nat, count: nat, piece: seq<byte>)
    requires written + count <= |body| && Partial(disk, f) == stream + body[..written]
    requires piece == body[written..written + count]
    ensures Partial(Appended(disk, f, piece), f) == stream + body[..written + count]
  {
    assert body[..written + count] == body[..written] + piece;
    Associates(stream, body[..written], piece);
  }

  lemma WrittenOk(s: State, p: Put, count: nat, piece: seq<byte>)
    requires StreamsOk(s.db, s.log) && DiskOk(s.db.files, s.log, s.disk)
    requires s.put == Some(p) && PutOk(s.db.files, s.log, s.disk, s.put) && p.phase != Checked
    requires p.written + count <= |p.body| && piece == p.body[p.written..p.written + count]
    ensures DiskOk(s.db.files, s.log, Appended(s.disk, p.f, piece))
    ensures Partial(Appended(s.disk, p.f, piece), p.f) == Content(s.log[p.f]) + p.body[..p.written + count]
  {
    PutFacts(s, p);
    WriteIsExact(s.disk, p.f, Content(s.log[p.f]), p.body, p.written, count, piece);
    AppendedDisk(s.db.files, s.log, s.disk, p.f, piece, p.body[..p.written + count]);
  }

  /** Appending to the committed bytes of an open file. */
  lemma AppendedDisk(files: map<FileId, FileRow>, log: map<FileId, seq<Accepted>>, disk: Disk, f: FileId, piece: seq<byte>, extra: seq<byte>)
    requires DiskOk(files, log, disk) && f in files && f !in disk.final
    requires Partial(Appended(disk, f, piece), f) == Content(log[f]) + extra
    ensures DiskOk(files, log, Appended(disk, f, piece))
  {
    PartialChanges(files, log, disk, f, Appended(disk, f, piece));
  }

  lemma WritePutOk(s: State, p: Put, count: nat, disk: Disk)
    requires s.put == Some(p) && PutOk(s.db.files, s.log, s.disk, s.put) && p.phase != Checked
    requires p.written + count <= |p.body| && disk.final == s.disk.final && p.f in disk.partial
    requires Partial(disk, p.f) == Content(s.log[p.f]) + p.body[..p.written + count]
    ensures PutOk(s.db.files, s.log, disk, Some(p.(phase := Opened, written := p.written + count)))
  {
  }

  lemma WriteKeepsInv(s: State, count: nat)
    requires Inv(s)
    ensures Inv(DoPutWrite(s, count))
  {
    hide Inv, Appended;
    if s.put.Some? && s.put.value.phase != Checked && s.put.value.written + count <= |s.put.value.body| {
      var p := s.put.value;
      var piece := p.body[p.written..p.written + count];
      WriteMoves(s, p, count, piece);
      WriteIs(s, p, count, piece);
    }
  }

  lemma WriteIs(s: State, p: Put, count: nat, piece: seq<byte>)
    requires s.put == Some(p) && p.phase != Checked
    requires p.written + count <= |p.body| && piece == p.body[p.written..p.written + count]
    ensures DoPutWrite(s, count)
         == s.(disk := Appended(s.disk, p.f, piece), put := Some(p.(phase := Opened, written := p.written + count)))
  {
  }

  lemma WriteMoves(s: State, p: Put, count: nat, piece: seq<byte>)
    requires Inv(s) && s.put == Some(p) && p.phase != Checked
    requires p.written + count <= |p.body| && piece == p.body[p.written..p.written + count]
    ensures Inv(s.(disk := Appended(s.disk, p.f, piece), put := Some(p.(phase := Opened, written := p.written + count))))
  {
    hide TablesOk, StreamsOk, DiskOk, PointsOk, PointOk, WorkersOk, WorkerOk, PutOk, CompletionsOk, FileStream,
         Tracks, FileOnDisk, FileRanges;
    var disk := Appended(s.disk, p.f, piece);
    WrittenOk(s, p, count, piece);
    WritePutOk(s, p, count, disk);
    PutMoves(s, disk, p.(phase := Opened, written := p.written + count));
  }

  lemma AbortKeepsInv(s: State)
    requires Inv(s)
    ensures Inv(Step(s, PutAbort))
  {
    hide Drain, TablesOk, StreamsOk, PointsOk, PointOk, WorkersOk, WorkerOk, FeedBody, FlushRow,
         Config.PassageSizeFor, AfterPut, AfterFinalizing, AfterCompleted;
  }

  lemma OffsetsSnoc(log: seq<Accepted>, a: Accepted)
    requires OffsetsOk(log) && a.offset == |Content(log)|
    ensures OffsetsOk(log + [a])
  {
    var more := log + [a];
    forall k | 0 <= k < |more|
      ensures OffsetOk(more, k)
    {
      assert more[..k] == if k < |log| then log[..k] else log;
      assert k < |log| ==> OffsetOk(log, k);
    }
  }

  lemma CommitKeepsDisk(files: map<FileId, FileRow>, log: map<FileId, seq<Accepted>>, disk: Disk, f: FileId,
                        next: FileRow, entries: seq<Accepted>)
    requires DiskOk(files, log, disk) && f in files && f !in disk.final && next.upload == Uploading
    requires f in disk.partial && disk.partial[f] == Content(entries)
    ensures DiskOk(files[f := next], log[f := entries], disk)
  {
    var after, more := files[f := next], log[f := entries];
    forall g | g in more
      ensures FileOnDisk(after[g], Content(more[g]), disk, g)
    {
      if g != f {
        assert FileOnDisk(files[g], Content(log[g]), disk, g);
      }
    }
  }

  /** A file with a chunk in flight has no completion between its transactions. */
  lemma OpenFileHasNoCompletion(files: map<FileId, FileRow>, disk: Disk, completions: map<nat, Completion>, f: FileId, next: FileRow)
    requires CompletionsOk(files, disk, completions) && f in files
    requires files[f].upload != Completed && files[f].upload != Finalizing
    ensures CompletionsOk(files[f := next], disk, completions)
    ensures forall r | r in completions :: completions[r].f != f
  {
    forall r | r in completions
      ensures CompletionOk(files[f := next], disk, completions[r]) && completions[r].f != f
    {
      assert CompletionOk(files, disk, completions[r]);
    }
  }

  /** The tables after a commit, row by row. */
  lemma CommitTables(db: Db, f: FileId, row: FileRow, body: seq<byte>)
    requires TablesOk(db) && f in db.files && db.files[f] == row && row.upload != Completed
    ensures var after := AfterPut(db, f, row, body);
            && after == Db(db.files[f := RowAfterPut(row, body)],
                           db.chunks + NewRows(f, FeedBody(row, body).passages, row.nextSequence))
            && TablesOk(after) && SameExcess(db, after)
  {
    assert RowSettled(row);
    EnqueueKeepsTables(db, f, FeedBody(row, body).passages, RowAfterPut(row, body));
  }

  /** The file's log with the chunk in it. */
  function Committed(s: State, p: Put): seq<Accepted>
    requires p.f in s.log
  {
    s.log[p.f] + [Accepted(p.row.bytesReceived, p.body)]
  }

  lemma CommitKeepsStreams(s: State, p: Put)
    requires StreamsOk(s.db, s.log) && p.f in s.log && s.db.files[p.f] == p.row
    requires p.row.bytesReceived + |p.body| <= Config.MAX_FILE_BYTES
    ensures StreamsOk(Db(s.db.files[p.f := RowAfterPut(p.row, p.body)],
                         s.db.chunks + NewRows(p.f, FeedBody(p.row, p.body).passages, p.row.nextSequence)),
                      s.log[p.f := Committed(s, p)])
  {
    assert FileStream(p.row, FileRanges(s.db.chunks, p.f), Content(s.log[p.f]));
    ContentSnoc(s.log[p.f], Accepted(p.row.bytesReceived, p.body));
    OffsetsSnoc(s.log[p.f], Accepted(p.row.bytesReceived, p.body));
    PutStream(p.row, FileRanges(s.db.chunks, p.f), Content(s.log[p.f]), p.body);
    StreamsGrow(s.db, s.log, p.f, FeedBody(p.row, p.body).passages, p.row.nextSequence,
                RowAfterPut(p.row, p.body), Committed(s, p));
  }

  lemma CommitLogGrows(s: State, p: Put)
    requires p.f in s.log
    ensures LogGrows(s.log, s.log[p.f := Committed(s, p)])
    ensures Content(Committed(s, p)) == Content(s.log[p.f]) + p.body
  {
    ContentSnoc(s.log[p.f], Accepted(p.row.bytesReceived, p.body));
  }

  /** The whole body is in the file. */
  lemma FullyWritten(s: State, p: Put)
    requires s.put == Some(p) && PutOk(s.db.files, s.log, s.disk, s.put)
    requires p.phase == Opened && p.written == |p.body|
    ensures p.f in s.log && p.f in s.disk.partial && s.disk.partial[p.f] == Content(Committed(s, p))
  {
    CommitLogGrows(s, p);
    assert p.body[..|p.body|] == p.body;
  }

  lemma CommitKeepsRest(s: State, p: Put)
    requires DiskOk(s.db.files, s.log, s.disk) && CompletionsOk(s.db.files, s.disk, s.completions)
    requires s.put == Some(p) && PutOk(s.db.files, s.log, s.disk, s.put)
    requires p.phase == Opened && p.written == |p.body|
    ensures DiskOk(s.db.files[p.f := RowAfterPut(p.row, p.body)], s.log[p.f := Committed(s, p)], s.disk)
    ensures CompletionsOk(s.db.files[p.f := RowAfterPut(p.row, p.body)], s.disk, s.completions)
  {
    FullyWritten(s, p);
    CommitKeepsDisk(s.db.files, s.log, s.disk, p.f, RowAfterPut(p.row, p.body), Committed(s, p));
    OpenFileHasNoCompletion(s.db.files, s.disk, s.completions, p.f, RowAfterPut(p.row, p.body));
  }

  lemma CommitKeepsInv(s: State)
    requires Inv(s)
    ensures Inv(DoPutCommit(s))
  {
    hide Drain, TablesOk, StreamsOk, DiskOk, PointsOk, PointOk, WorkersOk, WorkerOk, FeedBody, Config.PassageSizeFor,
         FileStream, Tracks, RowCounted, RowSettled, AfterPut;
    if s.put.Some? && s.put.value.phase == Opened && s.put.value.written == |s.put.value.body| {
      var p := s.put.value;
      CommitTables(s.db, p.f, p.row, p.body);
      CommitKeepsStreams(s, p);
      CommitKeepsRest(s, p);
      CommitLogGrows(s, p);
      QueueGrows(s.db, s.log, s.workers, s.points, p.f, FeedBody(p.row, p.body).passages, p.row.nextSequence,
                 s.log[p.f := Committed(s, p)]);
    }
  }

  // ----------------------------------------------------------------- completion

  lemma CloseTables(db: Db, f: FileId, row: FileRow)
    requires TablesOk(db) && f in db.files && db.files[f] == row && row.upload != Completed
    ensures AfterFinalizing(db, f)
         == Db(db.files[f := RowAfterClose(row)], db.chunks + NewRows(f, FlushRow(row).passages, row.nextSequence))
    ensures TablesOk(AfterFinalizing(db, f)) && SameExcess(db, AfterFinalizing(db, f))
  {
    var next, passages := RowAfterClose(row), FlushRow(row).passages;
    assert RowSettled(row);
    CloseMovesOn(row);
    EnqueueKeepsTables(db, f, passages, next);
    CloseIs(db, f, row, next, passages);
  }

  lemma CloseIs(db: Db, f: FileId, row: FileRow, next: FileRow, passages: seq<Range>)
    requires f in db.files && db.files[f] == row && next == RowAfterClose(row) && passages == FlushRow(row).passages
    ensures AfterFinalizing(db, f) == Db(db.files[f := next], InsertPending(db.chunks, f, passages, row.nextSequence))
  {
  }

  lemma CloseMovesOn(row: FileRow)
    requires RowSettled(row) && row.upload != Completed
    ensures MovedOn(row, RowAfterClose(row), |FlushRow(row).passages|)
  {
  }

  lemma CloseKeepsDisk(files: map<FileId, FileRow>, log: map<FileId, seq<Accepted>>, disk: Disk, f: FileId, next: FileRow)
    requires DiskOk(files, log, disk) && f in files && files[f].bytesReceived > 0
    requires next.bytesReceived == files[f].bytesReceived && next.pendingTail == [] && next.upload == Finalizing
    ensures DiskOk(files[f := next], log, disk)
  {
    forall g | g in log
      ensures FileOnDisk(files[f := next][g], Content(log[g]), disk, g)
    {
      assert FileOnDisk(files[g], Content(log[g]), disk, g);
    }
  }

  lemma CloseKeepsCompletions(files: map<FileId, FileRow>, disk: Disk, completions: map<nat, Completion>,
                              r: nat, f: FileId, next: FileRow)
    requires CompletionsOk(files, disk, completions) && f in files && next.upload == Finalizing
    ensures CompletionsOk(files[f := next], disk, completions[r := Completion(f, Closed)])
  {
    forall q | q in completions
      ensures CompletionOk(files[f := next], disk, completions[q])
    {
      assert CompletionOk(files, disk, completions[q]);
    }
  }

  lemma CloseKeepsStreams(db: Db, log: map<FileId, seq<Accepted>>, f: FileId, row: FileRow)
    requires StreamsOk(db, log) && f in db.files && db.files[f] == row && row.bytesReceived > 0
    ensures StreamsOk(Db(db.files[f := RowAfterClose(row)],
                         db.chunks + NewRows(f, FlushRow(row).passages, row.nextSequence)), log)
  {
    OneStream(db, log, f);
    CloseStream(row, FileRanges(db.chunks, f), Content(log[f]));
    SameLogGrows(db, log, f, FlushRow(row).passages, row.nextSequence, RowAfterClose(row));
  }

  lemma SameLogGrows(db: Db, log: map<FileId, seq<Accepted>>, f: FileId, passages: seq<Range>, first: nat, next: FileRow)
    requires StreamsOk(db, log) && f in db.files && f in log
    requires FileStream(next, FileRanges(db.chunks, f) + passages, Content(log[f]))
    ensures StreamsOk(Db(db.files[f := next], db.chunks + NewRows(f, passages, first)), log)
  {
    hide FileStream, Tracks, Content, FileRanges;
    assert OffsetsOk(log[f]) && log[f := log[f]] == log;
    StreamsGrow(db, log, f, passages, first, next, log[f]);
  }

  lemma CloseKeepsInv(s: State, r: nat, f: FileId, owner: string)
    requires Inv(s)
    ensures Inv(DoCompleteClose(s, r, f, owner))
  {
    hide AfterCut, TablesOk, StreamsOk, DiskOk, WorkersOk, WorkerOk, FlushRow, FileStream, Tracks, FileOnDisk,
         AfterFinalizing;
    if s.Free() && r !in s.completions && CompleteError(s.db, f, owner).None? && s.db.files[f].upload != Completed {
      var row := s.db.files[f];
      CloseTables(s.db, f, row);
      CloseKeepsStreams(s.db, s.log, f, row);
      CloseKeepsDisk(s.db.files, s.log, s.disk, f, RowAfterClose(row));
      CloseKeepsCompletions(s.db.files, s.disk, s.completions, r, f, RowAfterClose(row));
      QueueGrows(s.db, s.log, s.workers, s.points, f, FlushRow(row).passages, row.nextSequence, s.log);
    }
  }

  /** Only the completions have changed. */
  lemma OnlyCompletions(s: State, completions: map<nat, Completion>)
    requires Inv(s) && s.up && CompletionsOk(s.db.files, s.disk, completions)
    ensures Inv(s.(completions := completions))
  {
  }

  lemma MovedOnOk(files: map<FileId, FileRow>, disk: Disk, completions: map<nat, Completion>, r: nat, phase: CompletionPhase)
    requires CompletionsOk(files, disk, completions) && r in completions
    requires phase == Moved ==> completions[r].f in disk.final
    ensures CompletionsOk(files, disk, completions[r := completions[r].(phase := phase)])
  {
    assert CompletionOk(files, disk, completions[r]);
  }

  lemma LookKeepsInv(s: State, r: nat)
    requires Inv(s)
    ensures Inv(DoCompleteLook(s, r))
  {
    hide TablesOk, StreamsOk, DiskOk, PointsOk, PointOk, WorkersOk, WorkerOk, PutOk, CompletionsOk, FileStream,
         Tracks, FileRanges;
    if s.up && r in s.completions && s.completions[r].phase == Closed {
      var phase := if s.completions[r].f in s.disk.final then Moved else MustMove;
      MovedOnOk(s.db.files, s.disk, s.completions, r, phase);
      OnlyCompletions(s, s.completions[r := s.completions[r].(phase := phase)]);
    }
  }

  /** The rename moves the whole `.partial`, so the committed bytes with it. */
  lemma RenameKeepsDisk(files: map<FileId, FileRow>, log: map<FileId, seq<Accepted>>, disk: Disk, f: FileId)
    requires DiskOk(files, log, disk) && f in files && f in disk.partial
    requires files[f].bytesReceived > 0 && files[f].pendingTail == []
    ensures Renamed(disk, f).Ok? && DiskOk(files, log, Renamed(disk, f).value)
  {
    var after := Renamed(disk, f).value;
    forall g | g in log
      ensures FileOnDisk(files[g], Content(log[g]), after, g)
    {
      assert FileOnDisk(files[g], Content(log[g]), disk, g);
    }
  }

  /** A chunk in flight is for another file, whose bytes stay where they are. */
  lemma RenameKeepsPut(files: map<FileId, FileRow>, log: map<FileId, seq<Accepted>>, disk: Disk, put: Option<Put>, f: FileId)
    requires PutOk(files, log, disk, put) && f in files && f in disk.partial
    requires files[f].upload == Finalizing || files[f].upload == Completed
    ensures PutOk(files, log, Renamed(disk, f).value, put)
  {
  }

  lemma RenameKeepsCompletions(files: map<FileId, FileRow>, disk: Disk, completions: map<nat, Completion>, r: nat)
    requires CompletionsOk(files, disk, completions) && r in completions && completions[r].f in disk.partial
    ensures CompletionsOk(files, Renamed(disk, completions[r].f).value, completions[r := completions[r].(phase := Moved)])
  {
    var after := Renamed(disk, completions[r].f).value;
    CompletionsStay(files, disk, completions, files, after);
    assert CompletionOk(files, after, completions[r]);
  }

  lemma FewerCompletions(s: State, r: nat)
    requires Inv(s)
    ensures Inv(s.(completions := s.completions - {r}))
  {
  }

  lemma CompletionFacts(s: State, r: nat)
    requires StreamsOk(s.db, s.log) && CompletionsOk(s.db.files, s.disk, s.completions) && r in s.completions
    ensures CompletionOk(s.db.files, s.disk, s.completions[r])
    ensures s.db.files[s.completions[r].f].bytesReceived > 0 && s.db.files[s.completions[r].f].pendingTail == []
  {
    var f := s.completions[r].f;
    assert CompletionOk(s.db.files, s.disk, s.completions[r]);
    assert FileStream(s.db.files[f], FileRanges(s.db.chunks, f), Content(s.log[f]));
  }

  lemma MoveAssembled(s: State, disk: Disk, completions: map<nat, Completion>)
    requires Inv(s) && s.up && DiskOk(s.db.files, s.log, disk) && PutOk(s.db.files, s.log, disk, s.put)
    requires CompletionsOk(s.db.files, disk, completions)
    ensures Inv(s.(disk := disk, completions := completions))
  {
  }

  lemma MoveKeepsInv(s: State, r: nat)
    requires Inv(s)
    ensures Inv(DoCompleteMove(s, r))
  {
    hide TablesOk, StreamsOk, DiskOk, PointsOk, PointOk, WorkersOk, WorkerOk, PutOk, CompletionsOk, FileStream,
         Tracks, FileRanges;
    if s.up && r in s.completions && s.completions[r].phase == MustMove {
      var f := s.completions[r].f;
      CompletionFacts(s, r);
      if f in s.disk.partial {
        RenameKeepsDisk(s.db.files, s.log, s.disk, f);
        RenameKeepsPut(s.db.files, s.log, s.disk, s.put, f);
        RenameKeepsCompletions(s.db.files, s.disk, s.completions, r);
        MoveAssembled(s, Renamed(s.disk, f).value, s.completions[r := s.completions[r].(phase := Moved)]);
      } else {
        FewerCompletions(s, r);
      }
    }
  }

  /** Marking a file whose data is in place as completed. */
  lemma FinishKeepsTables(db: Db, f: FileId)
    requires TablesOk(db) && f in db.files
    ensures TablesOk(AfterCompleted(db, f))
  {
    var after := AfterCompleted(db, f);
    forall g | g in after.files
      ensures RowCounted(after.files[g], after.chunks, g) && RowSettled(after.files[g])
    {
      assert RowCounted(db.files[g], db.chunks, g) && RowSettled(db.files[g]);
    }
    assert RowsOwned(after.files, Keys(after.chunks));
  }

  lemma FinishKeepsStreams(db: Db, log: map<FileId, seq<Accepted>>, f: FileId)
    requires StreamsOk(db, log) && f in db.files && (db.files[f].upload == Finalizing || db.files[f].upload == Completed)
    ensures StreamsOk(AfterCompleted(db, f), log)
  {
    hide FileStream, Tracks, FileRanges;
    var after := AfterCompleted(db, f);
    forall g | g in log
      ensures FileStream(after.files[g], FileRanges(after.chunks, g), Content(log[g]))
    {
      FinishedOne(db, log, f, g);
    }
    StreamsAssembled(after, log);
  }

  lemma FinishedOne(db: Db, log: map<FileId, seq<Accepted>>, f: FileId, g: FileId)
    requires StreamsOk(db, log) && f in db.files && (db.files[f].upload == Finalizing || db.files[f].upload == Completed)
    requires g in log
    ensures FileStream(AfterCompleted(db, f).files[g], FileRanges(db.chunks, g), Content(log[g]))
  {
    OneStream(db, log, g);
    FinishedStream(db.files[g], FileRanges(db.chunks, g), Content(log[g]));
  }

  lemma FinishedStream(row: FileRow, ranges: seq<Range>, stream: seq<byte>)
    requires FileStream(row, ranges, stream)
    ensures row.upload == Finalizing || row.upload == Completed ==> FileStream(row.(upload := Completed), ranges, stream)
  {
  }

  lemma FinishKeepsDisk(db: Db, log: map<FileId, seq<Accepted>>, disk: Disk, f: FileId)
    requires DiskOk(db.files, log, disk) && f in db.files && f in disk.final
    ensures DiskOk(AfterCompleted(db, f).files, log, disk)
  {
    forall g | g in log
      ensures FileOnDisk(AfterCompleted(db, f).files[g], Content(log[g]), disk, g)
    {
      assert FileOnDisk(db.files[g], Content(log[g]), disk, g);
    }
  }

  lemma FinishKeepsCompletions(files: map<FileId, FileRow>, disk: Disk, completions: map<nat, Completion>, r: nat, f: FileId, next: FileRow)
    requires CompletionsOk(files, disk, completions) && next.upload == Completed
    ensures CompletionsOk(files[f := next], disk, completions - {r})
  {
    forall q | q in completions
      ensures CompletionOk(files[f := next], disk, completions[q])
    {
      assert CompletionOk(files, disk, completions[q]);
    }
  }

  lemma FinishKeepsInv(s: State, r: nat)
    requires Inv(s)
    ensures Inv(DoCompleteFinish(s, r))
  {
    hide TablesOk, StreamsOk, DiskOk, WorkersOk, WorkerOk, FileStream, Tracks, RowCounted, RowSettled;
    if s.Free() && r in s.completions && s.completions[r].phase == Moved {
      var f := s.completions[r].f;
      CompletionFacts(s, r);
      FinishKeepsTables(s.db, f);
      FinishKeepsStreams(s.db, s.log, f);
      FinishKeepsDisk(s.db, s.log, s.disk, f);
      FinishKeepsCompletions(s.db.files, s.disk, s.completions, r, f, s.db.files[f].(upload := Completed));
    }
  }
}
