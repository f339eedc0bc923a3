/** What a client may rely on from one moment of a run to any later one. */
module Guarantees {
  import opened Bytes
  import opened Chunker
  import opened Tables
  import opened Storage
  import opened JobQueue
  import opened Accounting
  import opened Pipeline
  import opened Invariant
  import opened Frames
  import opened Reachable
  import opened EndToEnd
  import opened History
  import UploadSteps
  import Config

  // ------------------------------------------------------- a file at a later moment

  lemma {:induction false} PrefixContent(log: seq<Accepted>, more: seq<Accepted>)
    requires log <= more
    ensures Content(log) <= Content(more)
    decreases |more|
  {
    if |log| < |more| {
      PrefixContent(log, more[..|more| - 1]);
    } else {
      assert log == more;
    }
  }

  lemma PrefixRanges(chunks: seq<ChunkRow>, after: seq<ChunkRow>, f: FileId)
    requires ChunksEvolve(chunks, after)
    ensures FileRanges(chunks, f) <= FileRanges(after, f)
  {
    var keys, more := Keys(chunks), Keys(after);
    assert keys <= more by {
      forall i | 0 <= i < |keys|
        ensures keys[i] == more[i]
      {
        assert ChunkEvolves(chunks[i], after[i]);
      }
    }
    RangesOfPrefix(keys, more, f, |keys|);
    RangesGrow(more, f, |keys|, |more|);
  }

  /** What any two moments of a run say of one file. */
  lemma FileLater(labels: seq<Label>, more: seq<Label>, f: FileId)
    requires f in Run(labels).db.files
    ensures var s, t := Run(labels), Run(labels + more);
            && f in s.log && f in t.log && f in t.db.files
            && RowEvolves(s.db.files[f], t.db.files[f])
            && Content(s.log[f]) <= Content(t.log[f])
            && FileRanges(s.db.chunks, f) <= FileRanges(t.db.chunks, f)
  {
    hide Run, TablesOk, StreamsOk, PointsOk, PointOk, WorkersOk, WorkerOk, PutOk, CompletionsOk, FileOnDisk, Content,
         FileRanges;
    RunKeepsInv(labels);
    RunEvolves(labels, more);
    var s, t := Run(labels), Run(labels + more);
    PrefixContent(s.log[f], t.log[f]);
    PrefixRanges(s.db.chunks, t.db.chunks, f);
  }

  /** A completed upload stays completed; its declared size is the number of bytes
      received, nothing is left to flush, and neither its bytes nor its passages
      change any more. */
  lemma CompletedIsFixed(labels: seq<Label>, more: seq<Label>, f: FileId)
    requires f in Run(labels).db.files && Run(labels).db.files[f].upload == Completed
    ensures var s, t := Run(labels), Run(labels + more);
            && f in t.db.files && f in s.log && f in t.log
            && t.db.files[f].upload == Completed
            && t.db.files[f].totalSize == t.db.files[f].bytesReceived == s.db.files[f].bytesReceived
            && t.db.files[f].pendingTail == []
            && Content(t.log[f]) == Content(s.log[f])
            && FileRanges(t.db.chunks, f) == FileRanges(s.db.chunks, f)
  {
    hide Run, TablesOk, StreamsOk, DiskOk, PointsOk, PointOk, WorkersOk, WorkerOk, PutOk, CompletionsOk, FileStream,
         RowCounted, RowSettled;
    FileLater(labels, more, f);
    RunKeepsInv(labels);
    RunKeepsInv(labels + more);
    FixedFile(Run(labels), Run(labels + more), f);
  }

  lemma FixedFile(s: State, t: State, f: FileId)
    requires TablesOk(s.db) && TablesOk(t.db) && StreamsOk(s.db, s.log) && StreamsOk(t.db, t.log)
    requires f in s.db.files && f in t.db.files && RowEvolves(s.db.files[f], t.db.files[f])
    requires s.db.files[f].upload == Completed
    requires Content(s.log[f]) <= Content(t.log[f]) && FileRanges(s.db.chunks, f) <= FileRanges(t.db.chunks, f)
    ensures t.db.files[f].totalSize == t.db.files[f].bytesReceived && t.db.files[f].pendingTail == []
    ensures Content(t.log[f]) == Content(s.log[f]) && FileRanges(t.db.chunks, f) == FileRanges(s.db.chunks, f)
  {
    UploadSteps.OneStream(s.db, s.log, f);
    UploadSteps.OneStream(t.db, t.log, f);
    assert RowCounted(s.db.files[f], s.db.chunks, f) && RowCounted(t.db.files[f], t.db.chunks, f);
    SamePrefix(Content(s.log[f]), Content(t.log[f]));
    SamePrefix(FileRanges(s.db.chunks, f), FileRanges(t.db.chunks, f));
  }

  lemma SamePrefix<T>(a: seq<T>, b: seq<T>)
    requires a <= b && |a| == |b|
    ensures a == b
  {
  }

  // ---------------------------------------------------------- rows, points, bytes

  /** What any two moments of a run say of one row. */
  lemma RowLater(labels: seq<Label>, more: seq<Label>, i: nat)
    requires i < |Run(labels).db.chunks|
    ensures i < |Run(labels + more).db.chunks| && ChunkEvolves(Run(labels).db.chunks[i], Run(labels + more).db.chunks[i])
  {
    hide Run;
    RunEvolves(labels, more);
  }

  /** A stored point carries the range of its row and embeds exactly that range of
      the committed bytes, and storing it again never changes it. */
  lemma PointsAreRightForever(labels: seq<Label>, more: seq<Label>, id: (FileId, nat))
    requires id in Run(labels).points
    ensures var s := Run(labels);
            && PointOk(s.db.chunks, s.log, id, s.points[id])
            && id in Run(labels + more).points && Run(labels + more).points[id] == s.points[id]
  {
    hide Run, TablesOk, StreamsOk, DiskOk, WorkersOk, WorkerOk, PutOk, CompletionsOk, FileRanges, FilesEvolve,
         ChunksEvolve, RowEvolves;
    RunKeepsInv(labels);
    RunEvolves(labels, more);
  }

  /** What was searchable stays searchable. */
  lemma SearchableStays(labels: seq<Label>, more: seq<Label>, f: FileId, b: int, i: nat)
    requires Searchable(Run(labels), f, b, i) && f in Run(labels).db.files
    ensures Searchable(Run(labels + more), f, b, i)
  {
    hide Run, PointOk, Content, FileRanges, RowEvolves;
    FileLater(labels, more, f);
    RowLater(labels, more, i);
    var s, t := Run(labels), Run(labels + more);
    PointsAreRightForever(labels, more, (f, s.db.chunks[i].sequence));
    var r := s.db.chunks[i].range;
    SliceOfPrefix(Content(s.log[f]), Content(t.log[f]), r);
  }

  lemma SliceOfPrefix(stream: seq<byte>, more: seq<byte>, r: Range)
    requires stream <= more && 0 <= r.start <= r.end <= |stream|
    ensures more[r.start..r.end] == stream[r.start..r.end]
  {
  }

  // -------------------------------------------------------------- serial appends

  /** The byte at `b` came with body `k`. */
  ghost predicate Brought(log: seq<Accepted>, k: int, b: int) {
    0 <= k < |log| && log[k].offset <= b < log[k].offset + |log[k].body|
  }

  lemma {:induction false} BodyOfByte(log: seq<Accepted>, b: nat) returns (k: nat)
    requires OffsetsOk(log) && b < |Content(log)|
    ensures Brought(log, k, b)
  {
    var n := |log| - 1;
    if b < |Content(log[..n])| {
      OffsetsOfPrefix(log, n);
      k := BodyOfByte(log[..n], b);
    } else {
      assert OffsetOk(log, n);
      k := n;
    }
  }

  lemma OffsetsOfPrefix(log: seq<Accepted>, n: nat)
    requires OffsetsOk(log) && n <= |log|
    ensures OffsetsOk(log[..n])
  {
    forall k | 0 <= k < n
      ensures OffsetOk(log[..n], k)
    {
      assert log[..n][..k] == log[..k];
      assert OffsetOk(log, k);
    }
  }

  /** A body ends where, or before, any later one begins. */
  lemma BodiesInOrder(log: seq<Accepted>, j: nat, k: nat)
    requires OffsetsOk(log) && j < k < |log|
    ensures log[j].offset + |log[j].body| <= log[k].offset
  {
    assert OffsetOk(log, j) && OffsetOk(log, k);
    assert log[..j + 1] == log[..j] + [log[j]];
    ContentSnoc(log[..j], log[j]);
    PrefixContent(log[..j + 1], log[..k]);
  }

  /** Racing uploads of one file are serialised: the accepted bodies lie end to end,
      so every received byte came with exactly one of them, at most one nonempty
      body was accepted at each offset, and the size limit holds. */
  lemma AppendsAreSerial(labels: seq<Label>, f: FileId, b: nat, j: nat, k: nat)
    requires f in Run(labels).db.files
    ensures var s := Run(labels);
            && f in s.log && s.db.files[f].bytesReceived <= Config.MAX_FILE_BYTES
            && (b < s.db.files[f].bytesReceived <==> exists i :: Brought(s.log[f], i, b))
            && (Brought(s.log[f], j, b) && Brought(s.log[f], k, b) ==> j == k)
            && (j < k < |s.log[f]| && s.log[f][j].offset == s.log[f][k].offset ==> s.log[f][j].body == [])
  {
    hide Run, TablesOk, DiskOk, PointsOk, PointOk, WorkersOk, WorkerOk, PutOk, CompletionsOk, FileStream, FileRanges;
    RunKeepsInv(labels);
    var s := Run(labels);
    UploadSteps.OneStream(s.db, s.log, f);
    assert OffsetsOk(s.log[f]);
    SerialLog(s.log[f], b, j, k);
  }

  lemma SerialLog(log: seq<Accepted>, b: nat, j: nat, k: nat)
    requires OffsetsOk(log)
    ensures b < |Content(log)| <==> exists i :: Brought(log, i, b)
    ensures Brought(log, j, b) && Brought(log, k, b) ==> j == k
    ensures j < k < |log| && log[j].offset == log[k].offset ==> log[j].body == []
  {
    if b < |Content(log)| {
      var i := BodyOfByte(log, b);
    }
    forall i | Brought(log, i, b)
      ensures b < |Content(log)|
    {
      BodyInside(log, i);
    }
    if j < k < |log| {
      BodiesInOrder(log, j, k);
    } else if k < j < |log| {
      BodiesInOrder(log, k, j);
    }
  }

  lemma BodyInside(log: seq<Accepted>, k: nat)
    requires OffsetsOk(log) && k < |log|
    ensures log[k].offset + |log[k].body| <= |Content(log)|
  {
    assert OffsetOk(log, k);
    assert log[..k + 1] == log[..k] + [log[k]];
    ContentSnoc(log[..k], log[k]);
    PrefixContent(log[..k + 1], log);
  }
}
