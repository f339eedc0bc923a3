/** What the queue keeps true of the tables: numbering, counters, retries and the
    terminal status. */
module Accounting {
  import opened Chunker
  import opened Tables
  import opened JobQueue
  import Config

  // --------------------------------------------------------- ranges and counts

  /** The part of a row that never changes. */
  datatype ChunkKey = ChunkKey(fileId: FileId, sequence: nat, range: Range)

  function KeyOf(row: ChunkRow): ChunkKey {
    ChunkKey(row.fileId, row.sequence, row.range)
  }

  function Keys(chunks: seq<ChunkRow>): (keys: seq<ChunkKey>)
    ensures |keys| == |chunks|
    ensures forall i | 0 <= i < |keys| :: keys[i] == KeyOf(chunks[i])
  {
    seq(|chunks|, i requires 0 <= i < |chunks| => KeyOf(chunks[i]))
  }

  /** The passages of a file among the first `n` rows, in order of insertion. */
  function Ranges(keys: seq<ChunkKey>, f: FileId, n: nat): (rs: seq<Range>)
    requires n <= |keys|
    ensures |rs| <= n
  {
    if n == 0 then []
    else Ranges(keys, f, n - 1) + (if keys[n - 1].fileId == f then [keys[n - 1].range] else [])
  }

  function FileRanges(chunks: seq<ChunkRow>, f: FileId): seq<Range> {
    Ranges(Keys(chunks), f, |chunks|)
  }

  /** Rows of a file with a status, among the first `n`. */
  function Count(chunks: seq<ChunkRow>, f: FileId, status: ChunkStatus, n: nat): (c: nat)
    requires n <= |chunks|
    ensures c <= n
  {
    if n == 0 then 0
    else Count(chunks, f, status, n - 1) + (if chunks[n - 1].fileId == f && chunks[n - 1].status == status then 1 else 0)
  }

  function CountAll(chunks: seq<ChunkRow>, f: FileId, status: ChunkStatus): nat {
    Count(chunks, f, status, |chunks|)
  }

  lemma {:induction false} RangesOfPrefix(keys: seq<ChunkKey>, more: seq<ChunkKey>, f: FileId, n: nat)
    requires n <= |keys| && keys <= more
    ensures Ranges(more, f, n) == Ranges(keys, f, n)
  {
    if n > 0 {
      RangesOfPrefix(keys, more, f, n - 1);
    }
  }

  lemma {:induction false} RangesGrow(keys: seq<ChunkKey>, f: FileId, m: nat, n: nat)
    requires m <= n <= |keys|
    ensures Ranges(keys, f, m) <= Ranges(keys, f, n)
  {
    if m < n {
      RangesGrow(keys, f, m, n - 1);
    }
  }

  lemma {:induction false} CountOfPrefix(chunks: seq<ChunkRow>, more: seq<ChunkRow>, f: FileId, status: ChunkStatus, n: nat)
    requires n <= |chunks| && chunks <= more
    ensures Count(more, f, status, n) == Count(chunks, f, status, n)
  {
    if n > 0 {
      CountOfPrefix(chunks, more, f, status, n - 1);
    }
  }

  // ---------------------------------------------------------------- invariants

  /** Each file's rows are numbered 0, 1, 2, ... in order of insertion. */
  ghost predicate Numbered(keys: seq<ChunkKey>) {
    forall i | 0 <= i < |keys| :: NumberedAt(keys, i)
  }

  /** The number of a row is how many of its file's rows come before it. */
  ghost predicate NumberedAt(keys: seq<ChunkKey>, i: nat)
    requires i < |keys|
  {
    keys[i].sequence == |Ranges(keys, keys[i].fileId, i)|
  }

  ghost predicate RowsOwned(files: map<FileId, FileRow>, keys: seq<ChunkKey>) {
    forall i | 0 <= i < |keys| :: keys[i].fileId in files
  }

  ghost predicate RowCounted(row: FileRow, chunks: seq<ChunkRow>, f: FileId) {
    && row.chunksTotal == row.nextSequence == |FileRanges(chunks, f)|
    && row.chunksIndexed >= CountAll(chunks, f, Indexed)
    && row.chunksFailed == CountAll(chunks, f, Failed)
  }

  /** By how much the counter of indexed rows exceeds their number. */
  function Excess(row: FileRow, chunks: seq<ChunkRow>, f: FileId): int {
    row.chunksIndexed - CountAll(chunks, f, Indexed)
  }

  /** The counters on a file's row are the numbers of its rows, except that an indexed
      row may have been counted before and queued again. */
  ghost predicate Counted(db: Db) {
    forall f | f in db.files :: RowCounted(db.files[f], db.chunks, f)
  }

  function ExcessOf(db: Db, f: FileId): int
    requires f in db.files
  {
    Excess(db.files[f], db.chunks, f)
  }

  ghost predicate SameExcess(db: Db, after: Db) {
    after.files.Keys == db.files.Keys && forall f | f in db.files :: ExcessOf(after, f) == ExcessOf(db, f)
  }

  /** Exactly the failed rows have used up their retries. */
  ghost predicate RetriesBounded(chunks: seq<ChunkRow>) {
    forall i | 0 <= i < |chunks| ::
      if chunks[i].status == Failed then chunks[i].retryCount == Config.MAX_RETRIES
      else chunks[i].retryCount < Config.MAX_RETRIES
  }

  ghost predicate RowSettled(row: FileRow) {
    row.processing.Terminal() ==>
      && row.upload == Completed
      && row.chunksIndexed + row.chunksFailed >= row.chunksTotal
      && (row.processing == Done <==> row.chunksFailed == 0)
  }

  /** A terminal status means the upload is over and every row is accounted for. */
  ghost predicate TerminalSettled(files: map<FileId, FileRow>) {
    forall f | f in files :: RowSettled(files[f])
  }

  ghost predicate TablesOk(db: Db) {
    && Numbered(Keys(db.chunks))
    && RowsOwned(db.files, Keys(db.chunks))
    && Counted(db)
    && RetriesBounded(db.chunks)
    && TerminalSettled(db.files)
  }

  // ------------------------------------------------------- numbering and ranges

  /** A row's sequence number is its place among its file's passages. */
  lemma RangeOfRow(keys: seq<ChunkKey>, i: nat, n: nat)
    requires i < n <= |keys| && Numbered(keys)
    ensures var rs := Ranges(keys, keys[i].fileId, n);
            keys[i].sequence < |rs| && rs[keys[i].sequence] == keys[i].range
  {
    assert NumberedAt(keys, i);
    RangesGrow(keys, keys[i].fileId, i + 1, n);
  }

  /** Every number below the count is some row's. */
  lemma {:induction false} RowOfSequence(keys: seq<ChunkKey>, f: FileId, n: nat, q: nat) returns (i: nat)
    requires n <= |keys| && q < |Ranges(keys, f, n)| && Numbered(keys)
    ensures i < n && keys[i].fileId == f && keys[i].sequence == q
  {
    assert NumberedAt(keys, n - 1);
    if keys[n - 1].fileId == f && q == |Ranges(keys, f, n - 1)| {
      i := n - 1;
    } else {
      i := RowOfSequence(keys, f, n - 1, q);
    }
  }

  /** Ids and sequence numbers order a file's rows the same way. */
  lemma IdsFollowSequences(keys: seq<ChunkKey>, i: nat, j: nat)
    requires i < |keys| && j < |keys| && Numbered(keys) && keys[i].fileId == keys[j].fileId
    ensures i < j <==> keys[i].sequence < keys[j].sequence
    ensures i == j <==> keys[i].sequence == keys[j].sequence
  {
    assert NumberedAt(keys, i) && NumberedAt(keys, j);
    if i < j {
      RangesGrow(keys, keys[i].fileId, i + 1, j);
    } else if j < i {
      RangesGrow(keys, keys[i].fileId, j + 1, i);
    }
  }

  // ------------------------------------------------------------------- marking

  ghost predicate Distinct(ids: seq<nat>) {
    forall j, k | 0 <= j < k < |ids| :: ids[j] != ids[k]
  }

  function Marked(row: ChunkRow, status: ChunkStatus, retries: nat): ChunkRow {
    row.(status := status, retryCount := row.retryCount + retries)
  }

  lemma {:induction false} MarkAt(chunks: seq<ChunkRow>, ids: seq<nat>, status: ChunkStatus, retries: nat, i: nat)
    requires Distinct(ids) && i < |chunks|
    ensures Mark(chunks, ids, status, retries)[i]
         == if i in ids then Marked(chunks[i], status, retries) else chunks[i]
  {
    if |ids| > 0 {
      var last := |ids| - 1;
      MarkAt(chunks, ids[..last], status, retries, i);
      assert ids == ids[..last] + [ids[last]];
    }
  }

  lemma {:induction false} MarkKeepsKeys(chunks: seq<ChunkRow>, ids: seq<nat>, status: ChunkStatus, retries: nat)
    ensures Keys(Mark(chunks, ids, status, retries)) == Keys(chunks)
  {
    if |ids| > 0 {
      MarkKeepsKeys(chunks, ids[..|ids| - 1], status, retries);
    }
  }

  function One(b: bool): nat {
    if b then 1 else 0
  }

  lemma {:induction false} CountMarkOne(chunks: seq<ChunkRow>, id: nat, status: ChunkStatus, retries: nat,
                                        f: FileId, s: ChunkStatus, n: nat)
    requires id < |chunks| && n <= |chunks|
    ensures Count(MarkOne(chunks, id, status, retries), f, s, n)
         == Count(chunks, f, s, n)
            + if id < n && chunks[id].fileId == f then One(status == s) - One(chunks[id].status == s) else 0
  {
    if n > 0 {
      CountMarkOne(chunks, id, status, retries, f, s, n - 1);
    }
  }

  ghost predicate AllWith(chunks: seq<ChunkRow>, ids: seq<nat>, g: FileId, from: ChunkStatus) {
    forall k | 0 <= k < |ids| :: ids[k] < |chunks| && chunks[ids[k]].fileId == g && chunks[ids[k]].status == from
  }

  ghost predicate AllOf(chunks: seq<ChunkRow>, ids: seq<nat>, g: FileId) {
    forall k | 0 <= k < |ids| :: ids[k] < |chunks| && chunks[ids[k]].fileId == g
  }

  /** How many of the rows `ids` have a status. */
  function Among(chunks: seq<ChunkRow>, ids: seq<nat>, s: ChunkStatus): (n: nat)
    ensures n <= |ids|
  {
    if |ids| == 0 then 0
    else
      var last := ids[|ids| - 1];
      Among(chunks, ids[..|ids| - 1], s) + One(last < |chunks| && chunks[last].status == s)
  }

  lemma {:induction false} AmongSame(chunks: seq<ChunkRow>, ids: seq<nat>, g: FileId, from: ChunkStatus, s: ChunkStatus)
    requires AllWith(chunks, ids, g, from)
    ensures Among(chunks, ids, s) == |ids| * One(from == s)
  {
    if |ids| > 0 {
      AmongSame(chunks, ids[..|ids| - 1], g, from, s);
    }
  }

  /** Only the rows `ids` themselves matter. */
  lemma {:induction false} AmongStays(chunks: seq<ChunkRow>, after: seq<ChunkRow>, ids: seq<nat>, s: ChunkStatus)
    requires |after| == |chunks|
    requires forall k | 0 <= k < |ids| :: ids[k] < |chunks| && after[ids[k]] == chunks[ids[k]]
    ensures Among(after, ids, s) == Among(chunks, ids, s)
  {
    if |ids| > 0 {
      AmongStays(chunks, after, ids[..|ids| - 1], s);
    }
  }

  /** Marking distinct rows of one file moves each from the count it was in to another. */
  lemma {:induction false} CountMark(chunks: seq<ChunkRow>, ids: seq<nat>, g: FileId, status: ChunkStatus, retries: nat,
                                     f: FileId, s: ChunkStatus)
    requires Distinct(ids) && AllOf(chunks, ids, g)
    ensures CountAll(Mark(chunks, ids, status, retries), f, s)
         == CountAll(chunks, f, s)
            + if f == g then |ids| * One(status == s) - Among(chunks, ids, s) else 0
  {
    if |ids| > 0 {
      var last := |ids| - 1;
      var before := Mark(chunks, ids[..last], status, retries);
      CountMark(chunks, ids[..last], g, status, retries, f, s);
      MarkAt(chunks, ids[..last], status, retries, ids[last]);
      CountMarkOne(before, ids[last], status, retries, f, s, |chunks|);
    }
  }
}
