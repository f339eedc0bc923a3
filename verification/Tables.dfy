/** The `files` and `chunks` tables: their rows as values, each UPDATE and INSERT
    as a function on the whole table, and the class whose methods perform them. */
module Tables {
  import opened Bytes
  import opened Chunker

  type FileId = string

  datatype UploadStatus = NotStarted | Uploading | Interrupted | Finalizing | Completed

  datatype ProcessingStatus = Waiting | Running | Done | DoneWithFailures {
    predicate Terminal() {
      Done? || DoneWithFailures?
    }
  }

  datatype FileRow = FileRow(
    owner: string, totalSize: nat, bytesReceived: nat,
    upload: UploadStatus, processing: ProcessingStatus,
    chunksTotal: nat, chunksIndexed: nat, chunksFailed: nat,
    pendingTail: seq<byte>, nextSequence: nat)

  datatype ChunkStatus = Pending | Processing | Indexed | Failed

  datatype ChunkRow = ChunkRow(
    fileId: FileId, sequence: nat, range: Range, status: ChunkStatus, retryCount: nat)

  /** `chunk_id` is the index of a row: ids are handed out in order of insertion. */
  datatype Db = Db(files: map<FileId, FileRow>, chunks: seq<ChunkRow>)

  // ------------------------------------------------------------- files: updates

  function NewFile(owner: string, totalSize: nat): FileRow {
    FileRow(owner, totalSize, 0, NotStarted, Waiting, 0, 0, 0, [], 0)
  }

  function UpdatedAfterChunk(row: FileRow, bytesReceived: nat, added: nat, next: nat, tail: seq<byte>): FileRow {
    row.(bytesReceived := bytesReceived, upload := Uploading, chunksTotal := row.chunksTotal + added,
         nextSequence := next, pendingTail := tail)
  }

  function MarkedFinalizing(row: FileRow, added: nat, next: nat, totalSize: nat): FileRow {
    row.(upload := Finalizing, chunksTotal := row.chunksTotal + added, nextSequence := next,
         pendingTail := [], totalSize := totalSize)
  }

  function MarkedStarted(row: FileRow): FileRow {
    row.(processing := if row.processing == Waiting then Running else row.processing)
  }

  /** What startup makes of an upload that a crash interrupted. */
  function Reverted(row: FileRow): FileRow {
    if row.upload == Uploading then row.(upload := Interrupted)
    else if row.upload == Finalizing then row.(upload := Uploading)
    else row
  }

  /** `UPDATE files ... WHERE file_id = ?`: no row, no change. */
  function UpdateFile(files: map<FileId, FileRow>, f: FileId, change: FileRow -> FileRow): map<FileId, FileRow> {
    if f in files then files[f := change(files[f])] else files
  }

  function RecordIndexed(files: map<FileId, FileRow>, f: FileId, count: nat): map<FileId, FileRow> {
    UpdateFile(files, f, (row: FileRow) => row.(chunksIndexed := row.chunksIndexed + count))
  }

  function RecordFailed(files: map<FileId, FileRow>, f: FileId, count: nat): map<FileId, FileRow> {
    UpdateFile(files, f, (row: FileRow) => row.(chunksFailed := row.chunksFailed + count))
  }

  // ------------------------------------------------------------ chunks: updates

  predicate HasSequence(chunks: seq<ChunkRow>, f: FileId, sequence: nat) {
    exists i | 0 <= i < |chunks| :: chunks[i].fileId == f && chunks[i].sequence == sequence
  }

  /** Inserts passages `first`, `first + 1`, ... of a file; a sequence that is
      already there stays as it is. */
  function InsertPending(chunks: seq<ChunkRow>, f: FileId, passages: seq<Range>, first: nat): seq<ChunkRow> {
    if |passages| == 0 then chunks
    else
      var n := |passages| - 1;
      var before := InsertPending(chunks, f, passages[..n], first);
      if HasSequence(before, f, first + n) then before
      else before + [ChunkRow(f, first + n, passages[n], Pending, 0)]
  }

  /** `UPDATE chunks SET status = ?, retry_count = retry_count + ? WHERE chunk_id = ?`. */
  function MarkOne(chunks: seq<ChunkRow>, id: nat, status: ChunkStatus, retries: nat): seq<ChunkRow> {
    if id < |chunks|
    then chunks[id := chunks[id].(status := status, retryCount := chunks[id].retryCount + retries)]
    else chunks
  }

  /** The same update for every id in turn. */
  function Mark(chunks: seq<ChunkRow>, ids: seq<nat>, status: ChunkStatus, retries: nat): (marked: seq<ChunkRow>)
    ensures |marked| == |chunks|
  {
    if |ids| == 0 then chunks
    else MarkOne(Mark(chunks, ids[..|ids| - 1], status, retries), ids[|ids| - 1], status, retries)
  }

  function ResetRow(row: ChunkRow): ChunkRow {
    if row.status == Processing then row.(status := Pending) else row
  }

  function ResetStuck(chunks: seq<ChunkRow>): seq<ChunkRow> {
    seq(|chunks|, i requires 0 <= i < |chunks| => ResetRow(chunks[i]))
  }

  // ------------------------------------------------------------ chunks: queries

  /** The pending row with the smallest id, at or after `from`. */
  function OldestPending(chunks: seq<ChunkRow>, from: nat): (r: Option<nat>)
    ensures r.Some? ==> from <= r.value < |chunks| && chunks[r.value].status == Pending
    ensures r.Some? ==> forall i | from <= i < r.value :: chunks[i].status != Pending
    ensures r.None? ==> forall i | from <= i < |chunks| :: chunks[i].status != Pending
    decreases |chunks| - from
  {
    if from >= |chunks| then None
    else if chunks[from].status == Pending then Some(from)
    else OldestPending(chunks, from + 1)
  }

  /** Row `i` is a pending row of the file past a sequence number. */
  predicate Eligible(chunks: seq<ChunkRow>, f: FileId, after: int, i: nat) {
    i < |chunks| && chunks[i].status == Pending && chunks[i].fileId == f && chunks[i].sequence > after
  }

  /** The eligible row with the smallest sequence number, among the first `n`. */
  function NextPending(chunks: seq<ChunkRow>, f: FileId, after: int, n: nat): (r: Option<nat>)
    requires n <= |chunks|
    ensures r.Some? ==> r.value < n && Eligible(chunks, f, after, r.value)
    ensures r.Some? ==> forall i | 0 <= i < n && Eligible(chunks, f, after, i) :: chunks[r.value].sequence <= chunks[i].sequence
    ensures r.None? ==> forall i | 0 <= i < n :: !Eligible(chunks, f, after, i)
  {
    if n == 0 then None
    else
      var best := NextPending(chunks, f, after, n - 1);
      if Eligible(chunks, f, after, n - 1) && (best.None? || chunks[n - 1].sequence < chunks[best.value].sequence)
      then Some(n - 1) else best
  }

  /** Ids of up to `limit` pending rows of a file, in order of sequence. */
  function SelectPending(chunks: seq<ChunkRow>, f: FileId, after: int, limit: nat): (ids: seq<nat>)
    ensures |ids| <= limit && forall k | 0 <= k < |ids| :: ids[k] < |chunks|
    ensures forall k | 0 <= k < |ids| :: Eligible(chunks, f, after, ids[k])
    ensures forall j, k | 0 <= j < k < |ids| :: chunks[ids[j]].sequence < chunks[ids[k]].sequence
    decreases limit
  {
    if limit == 0 then []
    else
      match NextPending(chunks, f, after, |chunks|)
      case None => []
      case Some(i) => [i] + SelectPending(chunks, f, chunks[i].sequence, limit - 1)
  }

  // ----------------------------------------------------------------- the tables

  class Database {
    var files: map<FileId, FileRow>
    var chunks: seq<ChunkRow>

    constructor ()
      ensures Value() == Db(map[], [])
    {
      files, chunks := map[], [];
    }

    function Value(): Db
      reads this
    {
      Db(files, chunks)
    }

    /** INSERT ... ON CONFLICT DO NOTHING, one passage at a time. */
    method InsertPendingRows(f: FileId, passages: seq<Range>, first: nat)
      modifies this`chunks
      ensures chunks == InsertPending(old(chunks), f, passages, first)
    {
      for n := 0 to |passages|
        invariant chunks == InsertPending(old(chunks), f, passages[..n], first)
      {
        assert passages[..n + 1][..n] == passages[..n];
        if !HasSequence(chunks, f, first + n) {
          chunks := chunks + [ChunkRow(f, first + n, passages[n], Pending, 0)];
        }
      }
      assert passages[..|passages|] == passages;
    }

    /** One UPDATE for each id. */
    method MarkRows(ids: seq<nat>, status: ChunkStatus, retries: nat)
      modifies this`chunks
      ensures chunks == Mark(old(chunks), ids, status, retries)
    {
      for n := 0 to |ids|
        invariant chunks == Mark(old(chunks), ids[..n], status, retries)
      {
        assert ids[..n + 1][..n] == ids[..n];
        var id := ids[n];
        if id < |chunks| {
          var row := chunks[id];
          chunks := chunks[id := row.(status := status, retryCount := row.retryCount + retries)];
        }
      }
      assert ids[..|ids|] == ids;
    }

    /** Rows in processing become pending, and nothing else about any row changes. */
    method ResetStuckRows()
      modifies this`chunks
      ensures |chunks| == |old(chunks)|
      ensures forall i | 0 <= i < |chunks| :: chunks[i].status != Processing
      ensures forall i | 0 <= i < |chunks| && old(chunks[i].status) == Processing :: chunks[i].status == Pending
      ensures forall i | 0 <= i < |chunks| && old(chunks[i].status) != Processing :: chunks[i].status == old(chunks[i].status)
      ensures forall i | 0 <= i < |chunks| :: chunks[i] == old(chunks[i]).(status := chunks[i].status)
    {
      chunks := seq(|chunks|, i requires 0 <= i < |chunks| reads this => ResetRow(chunks[i]));
    }

    method Update(f: FileId, change: FileRow -> FileRow)
      modifies this`files
      ensures files == UpdateFile(old(files), f, change)
    {
      if f in files {
        files := files[f := change(files[f])];
      }
    }

    /** Uploads that were receiving are interrupted; the rest stay as they are. */
    method MarkInterruptedUploads()
      modifies this`files
      ensures files.Keys == old(files.Keys)
      ensures forall f | f in files :: files[f].upload == Interrupted <==> old(files[f].upload) in {Uploading, Interrupted}
      ensures forall f | f in files && old(files[f].upload) != Uploading :: files[f] == old(files[f])
      ensures forall f | f in files :: files[f] == old(files[f]).(upload := files[f].upload)
    {
      files := map f | f in files :: if files[f].upload == Uploading then files[f].(upload := Interrupted) else files[f];
    }

    /** Uploads that were being finalised are open again; the rest stay as they are. */
    method RevertStuckFinalizing()
      modifies this`files
      ensures files.Keys == old(files.Keys)
      ensures forall f | f in files :: files[f].upload == Uploading <==> old(files[f].upload) in {Finalizing, Uploading}
      ensures forall f | f in files && old(files[f].upload) != Finalizing :: files[f] == old(files[f])
      ensures forall f | f in files :: files[f] == old(files[f]).(upload := files[f].upload)
    {
      files := map f | f in files :: if files[f].upload == Finalizing then files[f].(upload := Uploading) else files[f];
    }
  }
}
