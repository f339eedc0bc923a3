/** The rules of an upload: what a chunk PUT and a completion check, and what they
    make of the tables and the disk. */
module UploadService {
  import opened Bytes
  import opened Chunker
  import opened Tables
  import opened Storage
  import Config
  import Validators
  import JobQueue

  datatype UploadError =
    | ChunkTooLarge
    | FileNotFound
    | UploadAlreadyDone(status: UploadStatus)
    | OffsetMismatch(expected: nat)
    | FileTooLarge
    | NotTextFile
    | NoBytesReceivedYet
    | RenameFailed

  // ------------------------------------------------------------------- append

  /** Why a chunk is refused, or nothing if it is accepted. */
  function PutError(db: Db, f: FileId, owner: string, offset: nat, body: seq<byte>): Option<UploadError> {
    if |body| > Config.MAX_CHUNK_BYTES then Some(ChunkTooLarge)
    else if f !in db.files || db.files[f].owner != owner then Some(FileNotFound)
    else
      var row := db.files[f];
      if row.upload == Completed || row.upload == Finalizing then Some(UploadAlreadyDone(row.upload))
      else if offset != row.bytesReceived then Some(OffsetMismatch(row.bytesReceived))
      else if row.bytesReceived + |body| > Config.MAX_FILE_BYTES then Some(FileTooLarge)
      else if offset == 0 && Validators.BinaryVerdict(body) then Some(NotTextFile)
      else None
  }

  /** The buffer rebuilt from a row, fed with a body. */
  function FeedBody(row: FileRow, body: seq<byte>): ChunkState {
    var p := Config.PassageSizeFor(row.totalSize);
    Config.SizesAreSafe(row.totalSize);
    Drain(ChunkState([], row.bytesReceived - |row.pendingTail|, row.pendingTail + body), p, false)
  }

  /** The commit of an accepted chunk: its passages queued, the row moved on. */
  function AfterPut(db: Db, f: FileId, row: FileRow, body: seq<byte>): Db {
    var st := FeedBody(row, body);
    Db(UpdateFile(db.files, f,
                  (r: FileRow) => UpdatedAfterChunk(r, row.bytesReceived + |body|, |st.passages|,
                                                    row.nextSequence + |st.passages|, st.buffer)),
       InsertPending(db.chunks, f, st.passages, row.nextSequence))
  }

  /** Trimming to the committed size, when the disk does not agree with it. */
  function Reconciled(d: Disk, f: FileId, expected: nat): Disk {
    if CurrentSize(d, f) != expected then Truncated(d, f, expected) else d
  }

  method AppendChunk(db: Database, dir: UploadDirectory, f: FileId, owner: string, offset: nat, body: seq<byte>)
    returns (r: Result<FileRow, UploadError>)
    modifies db, dir
    ensures match PutError(old(db.Value()), f, owner, offset, body)
            case Some(e) => r == Err(e) && db.Value() == old(db.Value()) && dir.Value() == old(dir.Value())
            case None =>
              && db.Value() == AfterPut(old(db.Value()), f, old(db.files[f]), body)
              && dir.Value() == Appended(Reconciled(old(dir.Value()), f, old(db.files[f]).bytesReceived), f, body)
              && f in db.files && r == Ok(db.files[f])
  {
    var error := CheckChunk(db, f, owner, offset, body);
    if error.Some? {
      return Err(error.value);
    }
    var row := db.files[f];
    StoreChunk(dir, f, row.bytesReceived, body);
    CommitChunk(db, f, row, body);
    return Ok(db.files[f]);
  }

  method CheckChunk(db: Database, f: FileId, owner: string, offset: nat, body: seq<byte>)
    returns (error: Option<UploadError>)
    ensures error == PutError(db.Value(), f, owner, offset, body)
  {
    if |body| > Config.MAX_CHUNK_BYTES {
      return Some(ChunkTooLarge);
    }
    if f !in db.files || db.files[f].owner != owner {
      return Some(FileNotFound);
    }
    var row := db.files[f];
    if row.upload == Completed || row.upload == Finalizing {
      return Some(UploadAlreadyDone(row.upload));
    }
    if offset != row.bytesReceived {
      return Some(OffsetMismatch(row.bytesReceived));
    }
    if row.bytesReceived + |body| > Config.MAX_FILE_BYTES {
      return Some(FileTooLarge);
    }
    if offset == 0 {
      var binary := Validators.LooksLikeBinary(body);
      if binary {
        return Some(NotTextFile);
      }
    }
    return None;
  }

  method StoreChunk(dir: UploadDirectory, f: FileId, expected: nat, body: seq<byte>)
    modifies dir
    ensures dir.Value() == Appended(Reconciled(old(dir.Value()), f, expected), f, body)
  {
    var onDisk := CurrentSize(dir.Value(), f);
    if onDisk != expected {
      dir.TruncateTo(f, expected);
    }
    var size := dir.AppendChunk(f, body);
  }

  method CommitChunk(db: Database, f: FileId, row: FileRow, body: seq<byte>)
    modifies db
    ensures db.Value() == AfterPut(old(db.Value()), f, row, body)
  {
    hide Drain, FeedBody, Config.PassageSizeFor, InsertPending;
    var passages, tail := SplitBody(row, body);
    var next := JobQueue.Enqueue(db, f, passages, row.nextSequence);
    db.Update(f, (r: FileRow) => UpdatedAfterChunk(r, row.bytesReceived + |body|, |passages|, next, tail));
  }

  method SplitBody(row: FileRow, body: seq<byte>) returns (passages: seq<Range>, tail: seq<byte>)
    ensures passages == FeedBody(row, body).passages && tail == FeedBody(row, body).buffer
  {
    hide Drain;
    Config.SizesAreSafe(row.totalSize);
    passages, tail := SplitWith(row, body, Config.PassageSizeFor(row.totalSize));
  }

  method SplitWith(row: FileRow, body: seq<byte>, p: Params) returns (passages: seq<Range>, tail: seq<byte>)
    requires p.Sane()
    ensures var st := Drain(ChunkState([], row.bytesReceived - |row.pendingTail|, row.pendingTail + body), p, false);
            passages == st.passages && tail == st.buffer
  {
    var buffer := new LineBuffer(row.bytesReceived, row.pendingTail, Some(p.target), Some(p.max), Some(p.overlap));
    assert buffer.params == p;
    ghost var fed := ChunkState([], row.bytesReceived - |row.pendingTail|, row.pendingTail + body);
    assert buffer.State().(buffer := buffer.buffer + body) == fed;
    passages := buffer.Feed(body);
    tail := buffer.buffer;
    assert ChunkState(passages, buffer.absoluteOffset, tail) == Drain(fed, p, false);
  }

  // ----------------------------------------------------------------- complete

  function CompleteError(db: Db, f: FileId, owner: string): Option<UploadError> {
    if f !in db.files || db.files[f].owner != owner then Some(FileNotFound)
    else if db.files[f].upload != Completed && db.files[f].bytesReceived == 0 then Some(NoBytesReceivedYet)
    else None
  }

  /** The buffer rebuilt from a row with the default sizes, flushed. */
  function FlushRow(row: FileRow): ChunkState {
    Drain(ChunkState([], row.bytesReceived - |row.pendingTail|, row.pendingTail), DEFAULT_PARAMS, true)
  }

  /** The first transaction of a completion: the rest queued, the file closed to
      further chunks. */
  function AfterFinalizing(db: Db, f: FileId): Db
    requires f in db.files
  {
    var row := db.files[f];
    var st := FlushRow(row);
    Db(db.files[f := MarkedFinalizing(row, |st.passages|, row.nextSequence + |st.passages|, row.bytesReceived)],
       InsertPending(db.chunks, f, st.passages, row.nextSequence))
  }

  /** The second transaction. */
  function AfterCompleted(db: Db, f: FileId): Db {
    db.(files := UpdateFile(db.files, f, (r: FileRow) => r.(upload := Completed)))
  }

  method CompleteUpload(db: Database, dir: UploadDirectory, f: FileId, owner: string)
    returns (r: Result<FileRow, UploadError>)
    modifies db, dir
    ensures match CompleteError(old(db.Value()), f, owner)
            case Some(e) => r == Err(e) && db.Value() == old(db.Value()) && dir.Value() == old(dir.Value())
            case None =>
              if old(db.files[f]).upload == Completed
              then r == Ok(old(db.files[f])) && db.Value() == old(db.Value()) && dir.Value() == old(dir.Value())
              else
                match Finalized(old(dir.Value()), f)
                case Err(_) => r == Err(RenameFailed) && db.Value() == AfterFinalizing(old(db.Value()), f) && dir.Value() == old(dir.Value())
                case Ok(disk) =>
                  && db.Value() == AfterCompleted(AfterFinalizing(old(db.Value()), f), f)
                  && dir.Value() == disk && f in db.files && r == Ok(db.files[f])
    ensures r.Ok? || r == Err(RenameFailed) <==>
              && old(f in db.files && db.files[f].owner == owner)
              && old(db.files[f].upload == Completed || db.files[f].bytesReceived > 0)
    ensures r == Err(FileNotFound) <==> !old(f in db.files && db.files[f].owner == owner)
    ensures r.Err? && r.error != RenameFailed ==>
              && r.error in {FileNotFound, NoBytesReceivedYet}
              && db.Value() == old(db.Value()) && dir.Value() == old(dir.Value())
  {
    if f !in db.files || db.files[f].owner != owner {
      return Err(FileNotFound);
    }
    var row := db.files[f];
    if row.upload == Completed {
      return Ok(row);
    }
    if row.bytesReceived == 0 {
      return Err(NoBytesReceivedYet);
    }
    CommitFinalizing(db, f);
    var failure := dir.Finalize(f);
    if failure.Some? {
      return Err(RenameFailed);
    }
    db.Update(f, (r: FileRow) => r.(upload := Completed));
    return Ok(db.files[f]);
  }

  method CommitFinalizing(db: Database, f: FileId)
    requires f in db.files
    modifies db
    ensures db.Value() == AfterFinalizing(old(db.Value()), f)
  {
    hide Drain, FlushRow, InsertPending;
    var row := db.files[f];
    var passages := FlushTail(row);
    var next := JobQueue.Enqueue(db, f, passages, row.nextSequence);
    db.Update(f, (r: FileRow) => MarkedFinalizing(r, |passages|, next, row.bytesReceived));
  }

  method FlushTail(row: FileRow) returns (passages: seq<Range>)
    ensures passages == FlushRow(row).passages
  {
    var buffer := new LineBuffer(row.bytesReceived, row.pendingTail, None, None, None);
    assert buffer.params == DEFAULT_PARAMS;
    passages := buffer.Flush();
  }
}
