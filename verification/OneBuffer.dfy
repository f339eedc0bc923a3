/** What reaches the queue is what one uninterrupted line buffer would have cut from
    the accepted bodies: however the requests, workers, crashes and restarts
    interleave, the laws of the chunker hold of the queued passages. */
module OneBuffer {
  import opened Bytes
  import opened Chunker
  import opened ChunkerLaws
  import opened PassageShape
  import opened Cuttings
  import opened Tables
  import opened Storage
  import opened UploadService
  import opened Accounting
  import opened EnqueueLaws
  import opened Pipeline
  import opened Invariant
  import opened Reachable
  import opened Finalisation
  import opened Elsewhere
  import opened Creations
  import Config
  import EndToEnd
  import EndsAtFlush
  import Overlaps
  import ReadRaces
  import Recounts
  import Straddles
  import UploadSteps
  import Utf8

  // ------------------------------------------------------------------ one buffer

  /** The size that the request which created `f` declared. */
  function DeclaredSize(labels: seq<Label>, f: FileId): nat {
    if CreationOf(labels, f).Some? then CreationOf(labels, f).value.totalSize else 0
  }

  /** The size that decides how the next body is cut: the declared one, and from a
      completion on the bytes that had been fed when it began. */
  function SizeAfter(cs: seq<Cutting>, declared: nat): nat {
    if |cs| == 0 then declared
    else if cs[|cs| - 1].Flushed? then |StreamOf(cs)|
    else SizeAfter(cs[..|cs| - 1], declared)
  }

  /** What a step gives the buffer of `f`. */
  function CutBy(s: State, l: Label, f: FileId, size: nat): seq<Cutting> {
    if l.PutCommit? && Commits(s, f) then [Fed(s.put.value.body, Config.PassageSizeFor(size))]
    else if l.CompleteClose? && l.f == f && MayClose(s, l.r, f, l.owner) then [Flushed]
    else []
  }

  /** And a whole run: the accepted bodies, and a flush for each completion that began. */
  function CuttingsOf(labels: seq<Label>, f: FileId): seq<Cutting> {
    if |labels| == 0 then []
    else
      var before, l := labels[..|labels| - 1], labels[|labels| - 1];
      var cs := CuttingsOf(before, f);
      cs + CutBy(Run(before), l, f, SizeAfter(cs, DeclaredSize(before, f)))
  }

  /** A file's passages and tail are those of the one buffer. */
  ghost predicate IsReplay(row: FileRow, ranges: seq<Range>, cs: seq<Cutting>) {
    AllSafe(cs) && ChunkState(ranges, row.bytesReceived - |row.pendingTail|, row.pendingTail) == Replay(cs)
  }

  // ------------------------------------------------------------- bodies and the log

  /** The bodies fed are the accepted ones, in order. */
  ghost predicate Matches(cs: seq<Cutting>, log: seq<Accepted>) {
    if |cs| == 0 then log == []
    else
      match cs[|cs| - 1]
      case Flushed => Matches(cs[..|cs| - 1], log)
      case Fed(data, _) => |log| > 0 && log[|log| - 1].body == data && Matches(cs[..|cs| - 1], log[..|log| - 1])
  }

  lemma MatchesSnoc(cs: seq<Cutting>, log: seq<Accepted>, a: Accepted, p: Params)
    requires Matches(cs, log)
    ensures Matches(cs + [Fed(a.body, p)], log + [a])
    ensures Matches(cs + [Flushed], log)
  {
    assert (cs + [Fed(a.body, p)])[..|cs|] == cs && (cs + [Flushed])[..|cs|] == cs;
    assert (log + [a])[..|log|] == log;
  }

  /** What was fed before any cutting is what some first bodies make up. */
  lemma {:induction false} MatchesPrefix(cs: seq<Cutting>, log: seq<Accepted>, k: nat) returns (j: nat)
    requires Matches(cs, log) && k <= |cs|
    ensures j <= |log| && StreamOf(cs[..k]) == Content(log[..j])
    ensures k == |cs| ==> j == |log|
  {
    if |cs| == 0 {
      j := 0;
    } else if k < |cs| {
      var fewer := if cs[|cs| - 1].Fed? then log[..|log| - 1] else log;
      j := MatchesPrefix(cs[..|cs| - 1], fewer, k);
      assert cs[..|cs| - 1][..k] == cs[..k] && fewer[..j] == log[..j];
    } else {
      MatchesAll(cs, log);
      assert cs[..k] == cs && log[..|log|] == log;
      j := |log|;
    }
  }

  lemma {:induction false} MatchesAll(cs: seq<Cutting>, log: seq<Accepted>)
    requires Matches(cs, log)
    ensures StreamOf(cs) == Content(log)
  {
    if |cs| > 0 {
      MatchesAll(cs[..|cs| - 1], if cs[|cs| - 1].Fed? then log[..|log| - 1] else log);
      assert StreamOf(cs[..|cs| - 1]) + [] == StreamOf(cs[..|cs| - 1]);
    }
  }

  // ---------------------------------------------------------------------- the sizes

  const PASSAGE_LIMIT: nat := 3 * Config.PASSAGE_MAX_TARGET_BYTES
  const STRIDE: nat := DEFAULT_PARAMS.target / 2 - DEFAULT_PARAMS.overlap

  /** The sizes with which the bodies of a row are cut. */
  function SizesOf(row: FileRow): (p: Params)
    ensures p.Sane() && p.target <= p.max <= PASSAGE_LIMIT && DEFAULT_PARAMS.max <= p.max
    ensures PacedSizes(p, STRIDE) && Advancing(p)
  {
    Config.SizesAreSafe(row.totalSize);
    Config.PassageSizeFor(row.totalSize)
  }

  /** Bodies before the first flush are all cut with the sizes of the declared file
      size, no sizes exceed the limit, and the tail is shorter than a passage may be. */
  ghost predicate SizesKept(row: FileRow, cs: seq<Cutting>) {
    && Capped(cs, PASSAGE_LIMIT) && Paced(cs, STRIDE)
    && (AllFed(cs) ==> forall k | 0 <= k < |cs| :: cs[k].params == SizesOf(row))
    && (forall n | 0 <= n <= |cs| && AllFed(cs[..n]) :: OneSize(cs, n))
    && |row.pendingTail| < SizesOf(row).max
  }

  ghost predicate OneSize(cs: seq<Cutting>, n: nat)
    requires n <= |cs|
  {
    forall k | 0 <= k < n :: cs[k].Fed? && cs[0].Fed? && cs[k].params == cs[0].params
  }

  /** The row has the size that its cuttings say it has, and each body was cut with the
      sizes chosen for the size at that time. */
  ghost predicate SizedAs(row: FileRow, cs: seq<Cutting>, declared: nat) {
    && row.totalSize == SizeAfter(cs, declared)
    && forall k | 0 <= k < |cs| && cs[k].Fed? :: CutAsSized(cs, k, declared)
  }

  ghost predicate CutAsSized(cs: seq<Cutting>, k: nat, declared: nat)
    requires k < |cs| && cs[k].Fed?
  {
    cs[k].params == Config.PassageSizeFor(SizeAfter(cs[..k], declared))
  }

  /** Before a completion that is the declared size. */
  lemma {:induction false} SizeBeforeFlush(cs: seq<Cutting>, declared: nat)
    requires AllFed(cs)
    ensures SizeAfter(cs, declared) == declared
  {
    if |cs| > 0 {
      SizeBeforeFlush(cs[..|cs| - 1], declared);
    }
  }

  lemma SizedFeed(row: FileRow, next: FileRow, cs: seq<Cutting>, declared: nat, body: seq<byte>)
    requires SizedAs(row, cs, declared) && next.totalSize == row.totalSize
    ensures SizedAs(next, cs + [Fed(body, Config.PassageSizeFor(row.totalSize))], declared)
  {
    hide Config.PassageSizeFor;
    var more := cs + [Fed(body, Config.PassageSizeFor(row.totalSize))];
    assert more[..|cs|] == cs;
    forall k | 0 <= k < |more| && more[k].Fed?
      ensures CutAsSized(more, k, declared)
    {
      assert more[..k] == cs[..k];
      assert k < |cs| ==> CutAsSized(cs, k, declared);
    }
  }

  lemma SizedFlush(row: FileRow, next: FileRow, cs: seq<Cutting>, declared: nat)
    requires SizedAs(row, cs, declared) && next.totalSize == |StreamOf(cs)|
    ensures SizedAs(next, cs + [Flushed], declared)
  {
    hide Config.PassageSizeFor;
    var more := cs + [Flushed];
    assert more[..|cs|] == cs;
    forall k | 0 <= k < |more| && more[k].Fed?
      ensures CutAsSized(more, k, declared)
    {
      assert more[..k] == cs[..k];
      assert CutAsSized(cs, k, declared);
    }
  }

  lemma PacedSnoc(cs: seq<Cutting>, c: Cutting)
    requires Paced(cs, STRIDE) && (c.Fed? ==> PacedSizes(c.params, STRIDE))
    ensures Paced(cs + [c], STRIDE)
  {
  }

  lemma SizesAfterFeed(row: FileRow, next: FileRow, cs: seq<Cutting>, body: seq<byte>)
    requires SizesKept(row, cs) && next.totalSize == row.totalSize && |next.pendingTail| < SizesOf(row).max
    ensures SizesKept(next, cs + [Fed(body, SizesOf(row))])
  {
    hide Config.PassageSizeFor;
    var more := cs + [Fed(body, SizesOf(row))];
    forall n | 0 <= n <= |more| && AllFed(more[..n])
      ensures OneSize(more, n)
    {
      if n <= |cs| {
        assert more[..n] == cs[..n];
        assert OneSize(cs, n);
      } else {
        assert forall k | 0 <= k < |cs| :: more[..n][k] == cs[k];
      }
    }
    PacedSnoc(cs, Fed(body, SizesOf(row)));
    if AllFed(more) {
      assert forall k | 0 <= k < |cs| :: more[k] == cs[k];
    }
  }

  lemma SizesAfterFlush(row: FileRow, next: FileRow, cs: seq<Cutting>)
    requires SizesKept(row, cs) && next.pendingTail == []
    ensures SizesKept(next, cs + [Flushed])
  {
    hide Config.PassageSizeFor;
    var more := cs + [Flushed];
    PacedSnoc(cs, Flushed);
    assert more[|cs|].Flushed? && more[..|more|] == more && !AllFed(more);
    forall n | 0 <= n <= |more| && AllFed(more[..n])
      ensures OneSize(more, n)
    {
      assert n < |more| && more[..n] == cs[..n];
      assert OneSize(cs, n);
    }
  }

  // ------------------------------------------------------------------ the invariant

  /** The queue and the row of `f` are what its cuttings make. */
  ghost predicate FileIsReplay(s: State, f: FileId, cs: seq<Cutting>) {
    && f in s.db.files && f in s.log
    && IsReplay(s.db.files[f], FileRanges(s.db.chunks, f), cs)
    && Matches(cs, s.log[f])
    && SizesKept(s.db.files[f], cs)
  }

  lemma SameReplay(row: FileRow, next: FileRow, ranges: seq<Range>, cs: seq<Cutting>)
    requires IsReplay(row, ranges, cs) && SizesKept(row, cs) && SameRow(row, next)
    ensures IsReplay(next, ranges, cs) && SizesKept(next, cs)
  {
    hide Config.PassageSizeFor, Replay, Capped, AllFed, OneSize;
  }

  lemma SameFileReplay(s: State, t: State, f: FileId, cs: seq<Cutting>)
    requires FileIsReplay(s, f, cs) && SameTables(s.db, t.db, f) && f in t.log && t.log[f] == s.log[f]
    ensures FileIsReplay(t, f, cs)
  {
    hide IsReplay, SizesKept, Matches;
    SameReplay(s.db.files[f], t.db.files[f], FileRanges(s.db.chunks, f), cs);
  }

  // ------------------------------------------------------------------------ a commit

  /** Passages found before a feed do not matter to it. */
  lemma FeedBehindRanges(ranges: seq<Range>, offset: int, tail: seq<byte>, body: seq<byte>, p: Params)
    requires p.Sane()
    ensures var st := Drain(ChunkState([], offset, tail + body), p, false);
            FeedOne(ChunkState(ranges, offset, tail), Feed(body, p)) == ChunkState(ranges + st.passages, st.offset, st.buffer)
  {
    var fed := ChunkState([], offset, tail + body);
    assert ranges + [] == ranges;
    DrainAccumulates(ranges, fed, p, false);
  }

  /** What feeding the body of a chunk to the row's rebuilt buffer gives. */
  lemma FeedBodyIs(row: FileRow, body: seq<byte>, offset: int, tail: seq<byte>)
    requires tail == row.pendingTail && offset == row.bytesReceived - |tail|
    ensures FeedBody(row, body) == Drain(ChunkState([], offset, tail + body), SizesOf(row), false)
  {
    hide Drain, Config.PassageSizeFor;
  }

  lemma ReplayFed(row: FileRow, ranges: seq<Range>, cs: seq<Cutting>, body: seq<byte>, st: ChunkState)
    requires IsReplay(row, ranges, cs) && st == FeedBody(row, body)
    ensures AllSafe(cs + [Fed(body, SizesOf(row))])
    ensures Replay(cs + [Fed(body, SizesOf(row))]) == ChunkState(ranges + st.passages, st.offset, st.buffer)
  {
    hide Drain, Replay, FeedBody, Config.PassageSizeFor;
    var tail, p := row.pendingTail, SizesOf(row);
    FeedBodyIs(row, body, row.bytesReceived - |tail|, tail);
    FeedBehindRanges(ranges, row.bytesReceived - |tail|, tail, body, p);
    ReplaySnoc(cs, Fed(body, p));
  }

  lemma CommitOffset(row: FileRow, ranges: seq<Range>, stream: seq<byte>, body: seq<byte>)
    requires FileStream(row, ranges, stream)
    ensures FeedBody(row, body).offset == row.bytesReceived + |body| - |FeedBody(row, body).buffer|
  {
    hide Drain, FeedBody;
    UploadSteps.FeedRow(row, ranges, stream, body);
    UploadSteps.TailGivesOffset(FeedBody(row, body), ranges + FeedBody(row, body).passages, stream + body);
  }

  lemma CommitTail(row: FileRow, body: seq<byte>)
    ensures |FeedBody(row, body).buffer| < SizesOf(row).max
  {
    hide Drain, FeedBody, Config.PassageSizeFor;
    var tail := row.pendingTail;
    FeedBodyIs(row, body, row.bytesReceived - |tail|, tail);
    DrainSizes(ChunkState([], row.bytesReceived - |tail|, tail + body), SizesOf(row), false);
  }

  /** What the tables and the log hold after the commit. */
  lemma CommitLeaves(s: State, q: Put, st: ChunkState)
    requires TablesOk(s.db) && s.put == Some(q) && PutOk(s.db.files, s.log, s.disk, s.put)
    requires q.phase == Opened && q.written == |q.body| && st == FeedBody(q.row, q.body)
    ensures var t := DoPutCommit(s);
            && q.f in t.db.files && t.db.files[q.f].bytesReceived == q.row.bytesReceived + |q.body|
            && t.db.files[q.f].pendingTail == st.buffer && t.db.files[q.f].totalSize == q.row.totalSize
            && FileRanges(t.db.chunks, q.f) == FileRanges(s.db.chunks, q.f) + st.passages
            && q.f in t.log && t.log[q.f] == s.log[q.f] + [Accepted(q.row.bytesReceived, q.body)]
  {
    hide FeedBody;
    UploadSteps.CommitTables(s.db, q.f, q.row, q.body);
    AppendedFileRanges(s.db.chunks, q.f, st.passages, q.row.nextSequence, q.f);
  }

  lemma CommitReplay(row: FileRow, next: FileRow, ranges: seq<Range>, log: seq<Accepted>, cs: seq<Cutting>,
                     body: seq<byte>, st: ChunkState)
    requires IsReplay(row, ranges, cs) && Matches(cs, log) && SizesKept(row, cs) && FileStream(row, ranges, Content(log))
    requires st == FeedBody(row, body) && next.totalSize == row.totalSize
    requires next.bytesReceived == row.bytesReceived + |body| && next.pendingTail == st.buffer
    ensures var more := cs + [Fed(body, SizesOf(row))];
            && IsReplay(next, ranges + st.passages, more) && SizesKept(next, more)
            && Matches(more, log + [Accepted(row.bytesReceived, body)])
  {
    hide Drain, FeedBody, Replay, SizesKept, Matches, FileStream, Config.PassageSizeFor;
    ReplayFed(row, ranges, cs, body, st);
    CommitOffset(row, ranges, Content(log), body);
    CommitTail(row, body);
    SizesAfterFeed(row, next, cs, body);
    MatchesSnoc(cs, log, Accepted(row.bytesReceived, body), SizesOf(row));
  }

  lemma CommitIsReplay(s: State, f: FileId, cs: seq<Cutting>)
    requires TablesOk(s.db) && StreamsOk(s.db, s.log) && PutOk(s.db.files, s.log, s.disk, s.put)
    requires Commits(s, f) && FileIsReplay(s, f, cs)
    ensures FileIsReplay(DoPutCommit(s), f, cs + [Fed(s.put.value.body, SizesOf(s.put.value.row))])
  {
    hide FeedBody, IsReplay, SizesKept, Matches, FileStream, TablesOk, FileRanges;
    var q, t := s.put.value, DoPutCommit(s);
    var st := FeedBody(q.row, q.body);
    UploadSteps.OneStream(s.db, s.log, f);
    CommitLeaves(s, q, st);
    CommitReplay(q.row, t.db.files[f], FileRanges(s.db.chunks, f), s.log[f], cs, q.body, st);
  }

  // ------------------------------------------------------------------------ a flush

  lemma FlushBehindRanges(ranges: seq<Range>, offset: int, tail: seq<byte>)
    ensures var st := Drain(ChunkState([], offset, tail), DEFAULT_PARAMS, true);
            Drain(ChunkState(ranges, offset, tail), DEFAULT_PARAMS, true) == ChunkState(ranges + st.passages, st.offset, st.buffer)
  {
    assert ranges + [] == ranges;
    DrainAccumulates(ranges, ChunkState([], offset, tail), DEFAULT_PARAMS, true);
  }

  lemma ReplayFlushed(row: FileRow, ranges: seq<Range>, cs: seq<Cutting>, st: ChunkState)
    requires IsReplay(row, ranges, cs) && st == FlushRow(row)
    ensures AllSafe(cs + [Flushed])
    ensures Replay(cs + [Flushed]) == ChunkState(ranges + st.passages, st.offset, st.buffer)
  {
    hide Drain, Replay;
    FlushBehindRanges(ranges, row.bytesReceived - |row.pendingTail|, row.pendingTail);
    ReplaySnoc(cs, Flushed);
  }

  lemma CloseOffset(row: FileRow, ranges: seq<Range>, stream: seq<byte>)
    requires FileStream(row, ranges, stream)
    ensures FlushRow(row).buffer == [] && FlushRow(row).offset == row.bytesReceived
  {
    hide Drain;
    var st := FlushRow(row);
    UploadSteps.DrainBehind(ranges, |stream| - |row.pendingTail|, row.pendingTail, stream, DEFAULT_PARAMS, true);
    UploadSteps.NothingBuffered(ranges + st.passages, st.offset, stream);
  }

  lemma CloseLeaves(s: State, r: nat, f: FileId, owner: string, st: ChunkState)
    requires TablesOk(s.db) && MayClose(s, r, f, owner) && st == FlushRow(s.db.files[f])
    ensures var t := DoCompleteClose(s, r, f, owner);
            && f in t.db.files && t.db.files[f].bytesReceived == s.db.files[f].bytesReceived
            && t.db.files[f].pendingTail == [] && t.log == s.log
            && FileRanges(t.db.chunks, f) == FileRanges(s.db.chunks, f) + st.passages
  {
    hide FlushRow, TablesOk;
    var row := s.db.files[f];
    UploadSteps.CloseTables(s.db, f, row);
    AppendedFileRanges(s.db.chunks, f, st.passages, row.nextSequence, f);
  }

  lemma CloseReplay(row: FileRow, next: FileRow, ranges: seq<Range>, stream: seq<byte>, cs: seq<Cutting>, st: ChunkState)
    requires IsReplay(row, ranges, cs) && SizesKept(row, cs) && FileStream(row, ranges, stream)
    requires st == FlushRow(row) && next.bytesReceived == row.bytesReceived && next.pendingTail == []
    ensures IsReplay(next, ranges + st.passages, cs + [Flushed]) && SizesKept(next, cs + [Flushed])
  {
    hide FlushRow, Replay, SizesKept, FileStream;
    ReplayFlushed(row, ranges, cs, st);
    CloseOffset(row, ranges, stream);
    SizesAfterFlush(row, next, cs);
  }

  lemma CloseIsReplay(s: State, r: nat, f: FileId, owner: string, cs: seq<Cutting>)
    requires TablesOk(s.db) && StreamsOk(s.db, s.log) && MayClose(s, r, f, owner) && FileIsReplay(s, f, cs)
    ensures FileIsReplay(DoCompleteClose(s, r, f, owner), f, cs + [Flushed])
  {
    hide FlushRow, IsReplay, SizesKept, Matches, FileStream, TablesOk, FileRanges;
    var t, st := DoCompleteClose(s, r, f, owner), FlushRow(s.db.files[f]);
    UploadSteps.OneStream(s.db, s.log, f);
    CloseLeaves(s, r, f, owner, st);
    CloseReplay(s.db.files[f], t.db.files[f], FileRanges(s.db.chunks, f), Content(s.log[f]), cs, st);
    MatchesSnoc(cs, s.log[f], Accepted(0, []), DEFAULT_PARAMS);
  }

  // ---------------------------------------------------------------------- every run

  /** A file begins as an empty buffer. */
  lemma NewRowIsReplay(row: FileRow)
    requires row.bytesReceived == 0 && row.pendingTail == []
    ensures IsReplay(row, [], []) && SizesKept(row, []) && Matches([], [])
  {
    hide Config.PassageSizeFor;
  }

  lemma CreatedIsReplay(s: State, f: FileId, owner: string, totalSize: nat)
    requires TablesOk(s.db) && s.Free() && f !in s.db.files
    ensures FileIsReplay(DoCreate(s, f, owner, totalSize), f, [])
  {
    hide IsReplay, SizesKept, Matches, TablesOk, FileRanges;
    CreateKeepsTables(s.db, f, NewFile(owner, totalSize));
    NewRowIsReplay(NewFile(owner, totalSize));
  }

  /** Before a file exists nothing of it is cut. */
  ghost predicate FileOrNothing(s: State, f: FileId, cs: seq<Cutting>, declared: nat) {
    if f in s.db.files then FileIsReplay(s, f, cs) && SizedAs(s.db.files[f], cs, declared) else cs == []
  }

  lemma NoFileNoCut(s: State, l: Label, f: FileId, size: nat)
    requires PutOk(s.db.files, s.log, s.disk, s.put) && f !in s.db.files
    ensures !Cuts(s, l, f) && CutBy(s, l, f, size) == []
  {
  }

  lemma NewFileStep(s: State, l: Label, f: FileId, declared: nat)
    requires Inv(s) && f !in s.db.files && (l.Create? && l.f == f && s.Free() ==> l.totalSize == declared)
    ensures FileOrNothing(Step(s, l), f, [], declared)
  {
    hide FileIsReplay, Drain, TablesOk, StreamsOk, PointsOk, PointOk, WorkersOk, WorkerOk, AfterPut, AfterFinalizing,
         AfterCompleted;
    if f in Step(s, l).db.files {
      OnlyCreateAdds(s, l, f);
      CreatedIsReplay(s, f, l.owner, l.totalSize);
    }
  }

  /** The chunk in flight was checked against the row as it is. */
  lemma CommitsRow(s: State, f: FileId)
    requires PutOk(s.db.files, s.log, s.disk, s.put) && Commits(s, f)
    ensures f in s.db.files && s.put.value.row == s.db.files[f]
  {
  }

  lemma CommitStep(s: State, f: FileId, cs: seq<Cutting>, declared: nat)
    requires Inv(s) && FileOrNothing(s, f, cs, declared) && Commits(s, f)
    ensures FileOrNothing(DoPutCommit(s), f, cs + CutBy(s, PutCommit, f, SizeAfter(cs, declared)), declared)
  {
    hide FeedBody, IsReplay, SizesKept, Matches, TablesOk, StreamsOk, DiskOk, PointsOk, WorkersOk, PutOk, CompletionsOk,
         Config.PassageSizeFor, SizedAs, FileRanges;
    CommitsRow(s, f);
    SizeOfRow(s.db.files[f], cs, declared);
    CommitIsReplay(s, f, cs);
    CommitLeaves(s, s.put.value, FeedBody(s.put.value.row, s.put.value.body));
    SizedFeed(s.db.files[f], DoPutCommit(s).db.files[f], cs, declared, s.put.value.body);
  }

  lemma SizeOfRow(row: FileRow, cs: seq<Cutting>, declared: nat)
    requires SizedAs(row, cs, declared)
    ensures row.totalSize == SizeAfter(cs, declared)
    ensures SizesOf(row) == Config.PassageSizeFor(row.totalSize)
  {
    hide Config.PassageSizeFor;
  }

  lemma CloseStep(s: State, r: nat, f: FileId, owner: string, cs: seq<Cutting>, declared: nat)
    requires Inv(s) && FileOrNothing(s, f, cs, declared) && MayClose(s, r, f, owner)
    ensures FileOrNothing(DoCompleteClose(s, r, f, owner), f, cs + [Flushed], declared)
  {
    hide FlushRow, IsReplay, SizesKept, Matches, TablesOk, DiskOk, PointsOk, WorkersOk, PutOk, CompletionsOk, FileStream,
         SizedAs, FileRanges, Content, StreamOf;
    CloseIsReplay(s, r, f, owner, cs);
    UploadSteps.OneStream(s.db, s.log, f);
    ReceivedIsStream(s.db.files[f], FileRanges(s.db.chunks, f), s.log[f], cs);
    SizedFlush(s.db.files[f], DoCompleteClose(s, r, f, owner).db.files[f], cs, declared);
  }

  lemma ReceivedIsStream(row: FileRow, ranges: seq<Range>, log: seq<Accepted>, cs: seq<Cutting>)
    requires FileStream(row, ranges, Content(log)) && Matches(cs, log)
    ensures row.bytesReceived == |StreamOf(cs)|
  {
    MatchesAll(cs, log);
  }

  lemma CuttingStep(s: State, l: Label, f: FileId, cs: seq<Cutting>, declared: nat)
    requires Inv(s) && FileOrNothing(s, f, cs, declared) && Cuts(s, l, f)
    ensures FileOrNothing(Step(s, l), f, cs + CutBy(s, l, f, SizeAfter(cs, declared)), declared)
  {
    hide FileOrNothing, FeedBody, FlushRow, Inv, Config.PassageSizeFor, AfterPut, AfterFinalizing, AfterCompleted;
    if l.PutCommit? {
      CommitStep(s, f, cs, declared);
    } else {
      CloseStep(s, l.r, f, l.owner, cs, declared);
    }
  }

  lemma OtherStep(s: State, l: Label, f: FileId, cs: seq<Cutting>, declared: nat)
    requires Inv(s) && f in s.db.files && FileOrNothing(s, f, cs, declared) && !Cuts(s, l, f)
    ensures FileOrNothing(Step(s, l), f, cs, declared)
  {
    hide Inv, Step, IsReplay, SizesKept, Matches, FileRanges, CutAsSized;
    RowStays(s, l, f);
    LogStays(s, l, f);
    SameFileReplay(s, Step(s, l), f, cs);
  }

  lemma StepIsReplay(s: State, l: Label, f: FileId, cs: seq<Cutting>, was: nat, declared: nat)
    requires Inv(s) && FileOrNothing(s, f, cs, was)
    requires if f in s.db.files then declared == was else l.Create? && l.f == f && s.Free() ==> l.totalSize == declared
    ensures FileOrNothing(Step(s, l), f, cs + CutBy(s, l, f, SizeAfter(cs, was)), declared)
  {
    hide Inv, Step, FileIsReplay, SizedAs, SizeAfter;
    if f !in s.db.files {
      NoCutBefore(s, l, f, SizeAfter(cs, was));
      NewFileStep(s, l, f, declared);
      assert [] + CutBy(s, l, f, SizeAfter(cs, was)) == [];
    } else if Cuts(s, l, f) {
      CuttingStep(s, l, f, cs, declared);
    } else {
      OtherStep(s, l, f, cs, declared);
      assert cs + [] == cs;
    }
  }

  lemma NoCutBefore(s: State, l: Label, f: FileId, size: nat)
    requires Inv(s) && f !in s.db.files
    ensures !Cuts(s, l, f) && CutBy(s, l, f, size) == []
  {
    hide TablesOk, StreamsOk, DiskOk, PointsOk, WorkersOk, CompletionsOk;
    NoFileNoCut(s, l, f, size);
  }

  /** What is declared when a file is created stays declared. */
  lemma DeclaredStep(before: seq<Label>, l: Label, f: FileId)
    ensures if f in Run(before).db.files then DeclaredSize(before + [l], f) == DeclaredSize(before, f)
            else l.Create? && l.f == f && Run(before).Free() ==> DeclaredSize(before + [l], f) == l.totalSize
  {
    hide Run;
    assert (before + [l])[..|before|] == before;
    OwnedByCreator(before, f);
  }

  lemma {:induction false} RunIsReplay(labels: seq<Label>, f: FileId)
    ensures FileOrNothing(Run(labels), f, CuttingsOf(labels, f), DeclaredSize(labels, f))
  {
    hide Inv, Step, FileIsReplay, SizedAs, CutBy, DeclaredSize, SizeAfter;
    if |labels| > 0 {
      var before, l := labels[..|labels| - 1], labels[|labels| - 1];
      assert before + [l] == labels;
      RunIsReplay(before, f);
      RunKeepsInv(before);
      DeclaredStep(before, l, f);
      StepIsReplay(Run(before), l, f, CuttingsOf(before, f), DeclaredSize(before, f), DeclaredSize(labels, f));
    }
  }

  /** The joining theorem, for every run: a file's queued passages and its tail are those
      of one buffer that lived throughout, was fed the accepted bodies with the sizes
      chosen for the size that was declared when the file was created, and was flushed
      whenever a completion began; after one the size is what had been received. */
  lemma QueuedByOneBuffer(labels: seq<Label>, f: FileId)
    requires f in Run(labels).db.files
    ensures var s, cs := Run(labels), CuttingsOf(labels, f);
            && IsReplay(s.db.files[f], FileRanges(s.db.chunks, f), cs)
            && SizesKept(s.db.files[f], cs) && SizedAs(s.db.files[f], cs, DeclaredSize(labels, f))
            && f in s.log && Matches(cs, s.log[f]) && StreamOf(cs) == Content(s.log[f])
  {
    hide Step, IsReplay, SizesKept, SizedAs, Matches, CuttingsOf, DeclaredSize;
    RunIsReplay(labels, f);
    MatchesAll(CuttingsOf(labels, f), Run(labels).log[f]);
  }

  /** In every run, from the request that created a file until a completion of it begins,
      its declared size is the one of that request, and so are the sizes it is cut with. */
  lemma CutAsDeclared(labels: seq<Label>, f: FileId)
    requires f in Run(labels).db.files && AllFed(CuttingsOf(labels, f))
    ensures var row, creation := Run(labels).db.files[f], CreationOf(labels, f);
            && creation.Some? && row.owner == creation.value.owner && row.totalSize == creation.value.totalSize
            && forall k | 0 <= k < |CuttingsOf(labels, f)| ::
                 CuttingsOf(labels, f)[k].params == Config.PassageSizeFor(creation.value.totalSize)
  {
    hide Run, IsReplay, SizesKept, Matches, CuttingsOf, Config.PassageSizeFor;
    var cs := CuttingsOf(labels, f);
    OwnedByCreator(labels, f);
    QueuedByOneBuffer(labels, f);
    SizeBeforeFlush(cs, DeclaredSize(labels, f));
    forall k | 0 <= k < |cs|
      ensures cs[k].params == Config.PassageSizeFor(CreationOf(labels, f).value.totalSize)
    {
      assert CutAsSized(cs, k, DeclaredSize(labels, f));
      SizeBeforeFlush(cs[..k], DeclaredSize(labels, f));
    }
  }

  // ---------------------------------------------------------------- what follows from it

  /** When no chunk was accepted after a first completion began, the queued passages are
      those of an upload: the bodies fed with one choice of sizes, then one flush,
      however often the completion was interrupted and repeated. */
  lemma UploadedByOneBuffer(labels: seq<Label>, f: FileId, n: nat)
    requires f in Run(labels).db.files
    requires var cs := CuttingsOf(labels, f);
             n < |cs| && AllFed(cs[..n]) && forall k | n <= k < |cs| :: cs[k].Flushed?
    ensures var s, cs := Run(labels), CuttingsOf(labels, f);
            var feeds := FeedsOf(cs[..n]);
            && AllSane(feeds) && (n > 0 ==> Fixed(feeds, cs[0].params))
            && f in s.log && Stream(feeds) == Content(s.log[f])
            && FileRanges(s.db.chunks, f) == Upload(feeds, DEFAULT_PARAMS).passages
  {
    hide Run, Replay, Upload, CuttingsOf, Matches, Capped, FileRanges;
    var cs := CuttingsOf(labels, f);
    QueuedByOneBuffer(labels, f);
    ReplayOfUpload(cs, n);
    assert OneSize(cs, n);
  }

  lemma VolumeOfRow(row: FileRow, ranges: seq<Range>, cs: seq<Cutting>)
    requires IsReplay(row, ranges, cs)
    ensures var cut := row.bytesReceived - |row.pendingTail|;
            cut <= Volume(ranges) <= 2 * cut
  {
    hide Replay, Volume;
    ReplayVolume(cs);
  }

  /** In every run no file is embedded more than twice over: its queued passages add up
      to at least the bytes that have been cut, and at most twice as many. */
  lemma QueuedVolume(labels: seq<Label>, f: FileId)
    requires f in Run(labels).db.files
    ensures var s := Run(labels);
            var cut := s.db.files[f].bytesReceived - |s.db.files[f].pendingTail|;
            cut <= Volume(FileRanges(s.db.chunks, f)) <= 2 * cut
  {
    hide Run, IsReplay, SizesKept, Matches, CuttingsOf, Volume, FileRanges;
    QueuedByOneBuffer(labels, f);
    VolumeOfRow(Run(labels).db.files[f], FileRanges(Run(labels).db.chunks, f), CuttingsOf(labels, f));
  }

  lemma SizesOfRow(row: FileRow, ranges: seq<Range>, cs: seq<Cutting>)
    requires IsReplay(row, ranges, cs) && SizesKept(row, cs)
    ensures AtMost(ranges, 0, PASSAGE_LIMIT)
    ensures AllFed(cs) ==> AtMost(ranges, 0, SizesOf(row).max)
  {
    hide Replay, Config.PassageSizeFor;
    ReplaySizes(cs, PASSAGE_LIMIT);
    if AllFed(cs) {
      ReplaySizes(cs, SizesOf(row).max);
    }
  }

  /** In every run what a file holds back is shorter than its longest passage may be, no
      queued passage exceeds the largest maximum, and before a completion none exceeds
      the maximum chosen for the file: the memory a file needs does not grow with it. */
  lemma QueuedSizes(labels: seq<Label>, f: FileId)
    requires f in Run(labels).db.files
    ensures var s := Run(labels);
            var row, ranges := s.db.files[f], FileRanges(s.db.chunks, f);
            && |row.pendingTail| < SizesOf(row).max
            && AtMost(ranges, 0, PASSAGE_LIMIT)
            && (AllFed(CuttingsOf(labels, f)) ==> AtMost(ranges, 0, SizesOf(row).max))
  {
    hide Run, IsReplay, Matches, CuttingsOf, FileRanges, Config.PassageSizeFor, AtMost;
    QueuedByOneBuffer(labels, f);
    SizesOfRow(Run(labels).db.files[f], FileRanges(Run(labels).db.chunks, f), CuttingsOf(labels, f));
  }

  lemma CountOfRow(row: FileRow, ranges: seq<Range>, cs: seq<Cutting>)
    requires IsReplay(row, ranges, cs) && SizesKept(row, cs)
    ensures (|ranges| - Flushes(cs)) * STRIDE <= row.bytesReceived
    ensures AllFed(cs) ==> |ranges| * (SizesOf(row).target / 2 - SizesOf(row).overlap) <= row.bytesReceived
  {
    hide Replay, Config.PassageSizeFor;
    ReplayCount(cs, STRIDE);
    if AllFed(cs) {
      var p := SizesOf(row);
      forall k | 0 <= k < |cs| && cs[k].Fed?
        ensures PacedSizes(cs[k].params, p.target / 2 - p.overlap)
      {
      }
      FedOnly(cs);
      StrideOf(p, cs);
    }
  }

  lemma {:induction false} FedOnly(cs: seq<Cutting>)
    requires AllFed(cs)
    ensures Flushes(cs) == 0
  {
    if |cs| > 0 {
      FedOnly(cs[..|cs| - 1]);
    }
  }

  /** Without a flush the file's own sizes give the bound. */
  lemma StrideOf(p: Params, cs: seq<Cutting>)
    requires AllSafe(cs) && AllFed(cs) && p.Sane() && PacedSizes(p, STRIDE) && forall k | 0 <= k < |cs| :: cs[k].params == p
    ensures |Replay(cs).passages| * (p.target / 2 - p.overlap) <= Replay(cs).offset
  {
    hide Replay, FeedAll;
    ReplayOfFeeds(cs);
    FedStrides(FeedsOf(cs), p, p.target / 2 - p.overlap);
  }

  /** In every run the number of a file's queued rows is bounded by its bytes: all but one
      for each completion that began have moved on by the stride of the default sizes,
      and before a completion all have by that of the file's own. */
  lemma QueuedCount(labels: seq<Label>, f: FileId)
    requires f in Run(labels).db.files
    ensures var row, cs := Run(labels).db.files[f], CuttingsOf(labels, f);
            && (row.chunksTotal - Flushes(cs)) * STRIDE <= row.bytesReceived
            && (AllFed(cs) ==> row.chunksTotal * (SizesOf(row).target / 2 - SizesOf(row).overlap) <= row.bytesReceived)
  {
    hide Run, IsReplay, SizesKept, Matches, CuttingsOf, FileRanges, Config.PassageSizeFor, AllFed, Flushes, EndToEnd.UnsettledRows,
         Recounts.Recounted, Straddles.Straddled;
    QueuedByOneBuffer(labels, f);
    EndToEnd.CountersAreExact(labels, f);
    CountOfRow(Run(labels).db.files[f], FileRanges(Run(labels).db.chunks, f), CuttingsOf(labels, f));
  }

  lemma EndsOfRow(row: FileRow, ranges: seq<Range>, cs: seq<Cutting>)
    requires IsReplay(row, ranges, cs) && SizesKept(row, cs) && AllFed(cs)
    ensures EndsRise(ranges, 0)
  {
    hide Replay, FeedAll, EndsRise, Config.PassageSizeFor;
    ReplayOfFeeds(cs);
    FedEndsRise(FeedsOf(cs), SizesOf(row));
  }

  /** Before a completion the ends of a file's queued passages strictly rise. */
  lemma QueuedEndsRise(labels: seq<Label>, f: FileId)
    requires f in Run(labels).db.files && AllFed(CuttingsOf(labels, f))
    ensures EndsRise(FileRanges(Run(labels).db.chunks, f), 0)
  {
    hide Run, IsReplay, SizesKept, Matches, CuttingsOf, FileRanges, EndsRise, AllFed;
    QueuedByOneBuffer(labels, f);
    EndsOfRow(Run(labels).db.files[f], FileRanges(Run(labels).db.chunks, f), CuttingsOf(labels, f));
  }

  /** After an upload, fed and then flushed, they rise in its two parts, and none goes back
      between them when the overlap of the file's sizes is at most the default target. */
  lemma UploadedEndsRise(labels: seq<Label>, f: FileId, n: nat)
    requires f in Run(labels).db.files
    requires var cs := CuttingsOf(labels, f);
             0 < n < |cs| && AllFed(cs[..n]) && forall k | n <= k < |cs| :: cs[k].Flushed?
    ensures var ranges, cs := FileRanges(Run(labels).db.chunks, f), CuttingsOf(labels, f);
            var feeds := FeedsOf(cs[..n]);
            && AllSane(feeds)
            && var fed := FeedAll(feeds).passages;
               && fed <= ranges && EndsRise(fed, 0) && EndsRise(ranges, |fed|)
               && (cs[0].Fed? && cs[0].params.overlap <= DEFAULT_PARAMS.target && 0 < |fed| < |ranges| ==>
                     fed[|fed| - 1].end <= ranges[|fed|].end)
  {
    hide Run, Matches, CuttingsOf, FileRanges, EndsRise, FeedAll, Upload, Config.PassageSizeFor;
    var cs := CuttingsOf(labels, f);
    QueuedByOneBuffer(labels, f);
    UploadedByOneBuffer(labels, f, n);
    FirstSizes(Run(labels).db.files[f], cs, n);
    EndsAtFlush.UploadEndsRise(FeedsOf(cs[..n]), cs[0].params, DEFAULT_PARAMS);
  }

  lemma FirstSizes(row: FileRow, cs: seq<Cutting>, n: nat)
    requires SizesKept(row, cs) && AllSafe(cs) && 0 < n <= |cs| && AllFed(cs[..n])
    ensures cs[0].Fed? && Advancing(cs[0].params) && cs[0].params.max - 3 - cs[0].params.overlap >= cs[0].params.target / 2
  {
    hide Config.PassageSizeFor;
    assert cs[..n][0] == cs[0];
  }

  lemma RowsLineAligned(row: FileRow, ranges: seq<Range>, cs: seq<Cutting>, k: nat, i: nat)
    requires IsReplay(row, ranges, cs) && CutWith(cs, k, i) && cs[k].Fed?
    ensures i < |ranges| && LineAligned(ranges[i], StreamOf(cs), cs[k].params)
  {
    hide Replay, StreamOf, LineAligned;
    ReplayLineAligned(cs, k, i);
  }

  /** In every run a queued passage that was cut while a body was fed ends after a newline
      or is a long line split near the maximum, whatever bodies the lines came in and
      whatever was flushed before; those cut by a completion are the only others. */
  lemma QueuedLineAligned(labels: seq<Label>, f: FileId, k: nat, i: nat)
    requires f in Run(labels).db.files
    requires var cs := CuttingsOf(labels, f);
             AllSafe(cs) && CutWith(cs, k, i) && cs[k].Fed?
    ensures var s := Run(labels);
            f in s.log && i < |FileRanges(s.db.chunks, f)|
            && LineAligned(FileRanges(s.db.chunks, f)[i], Content(s.log[f]), CuttingsOf(labels, f)[k].params)
  {
    hide Run, IsReplay, SizesKept, Matches, CuttingsOf, FileRanges, LineAligned, CutWith;
    QueuedByOneBuffer(labels, f);
    RowsLineAligned(Run(labels).db.files[f], FileRanges(Run(labels).db.chunks, f), CuttingsOf(labels, f), k, i);
  }

  /** Every queued passage was cut by exactly one feed or flush. */
  lemma {:induction false} CutBySome(cs: seq<Cutting>, i: nat) returns (k: nat)
    requires AllSafe(cs) && i < |Replay(cs).passages|
    ensures CutWith(cs, k, i)
  {
    hide Drain;
    var n := |cs| - 1;
    assert cs[..n + 1] == cs;
    if i < |Replay(cs[..n]).passages| {
      k := CutBySome(cs[..n], i);
      assert cs[..n][..k] == cs[..k] && cs[..n][..k + 1] == cs[..k + 1];
    } else {
      k := n;
    }
  }

  lemma RowsFollow(row: FileRow, ranges: seq<Range>, cs: seq<Cutting>, k: nat, i: nat)
    requires IsReplay(row, ranges, cs) && CutWith(cs, k, i)
    ensures i < |ranges|
    ensures Overlaps.Follows(ranges[i], Overlaps.NextStart(ranges, row.bytesReceived - |row.pendingTail|, i),
                             StreamOf(cs[..k + 1]), Overlaps.SizesOf(cs[k]), cs[k].Flushed?)
  {
    hide Replay, StreamOf, Overlaps.Follows;
    Overlaps.ReplayFollows(cs, k, i);
  }

  /** In every run the passage after a queued one, or the tail, repeats the end of it: as
      many bytes as the sizes of the cut allow, at most half of it, shortened to begin with a
      character; nothing only after the end of a flushed stream. */
  lemma QueuedOverlaps(labels: seq<Label>, f: FileId, k: nat, i: nat)
    requires f in Run(labels).db.files
    requires var cs := CuttingsOf(labels, f);
             AllSafe(cs) && CutWith(cs, k, i)
    ensures var row, ranges, cs := Run(labels).db.files[f], FileRanges(Run(labels).db.chunks, f), CuttingsOf(labels, f);
            && i < |ranges|
            && Overlaps.Follows(ranges[i], Overlaps.NextStart(ranges, row.bytesReceived - |row.pendingTail|, i),
                                StreamOf(cs[..k + 1]), Overlaps.SizesOf(cs[k]), cs[k].Flushed?)
  {
    hide Run, IsReplay, SizesKept, SizedAs, Matches, CuttingsOf, FileRanges, CutWith, Overlaps.Follows;
    QueuedByOneBuffer(labels, f);
    RowsFollow(Run(labels).db.files[f], FileRanges(Run(labels).db.chunks, f), CuttingsOf(labels, f), k, i);
  }

  // ------------------------------------------------------------------- characters

  /** Every body ends between two characters of the whole text. */
  ghost predicate BodiesEndBetween(log: seq<Accepted>) {
    forall k | 0 <= k <= |log| :: BodyEndsBetween(log, k)
  }

  ghost predicate BodyEndsBetween(log: seq<Accepted>, k: nat)
    requires k <= |log|
  {
    Utf8.Boundary(Content(log), |Content(log[..k])|)
  }

  lemma CuttingsEndBetween(cs: seq<Cutting>, log: seq<Accepted>)
    requires Matches(cs, log) && BodiesEndBetween(log)
    ensures EndsBetween(cs, Content(log))
  {
    hide Content, StreamOf, Utf8.Boundary;
    forall k | 0 <= k <= |cs|
      ensures EndBetween(cs, Content(log), k)
    {
      var j := MatchesPrefix(cs, log, k);
      assert BodyEndsBetween(log, j);
    }
  }

  /** The passages of well-formed text begin and end between characters. */
  lemma RowsDecode(row: FileRow, ranges: seq<Range>, log: seq<Accepted>, cs: seq<Cutting>, i: nat)
    requires IsReplay(row, ranges, cs) && Matches(cs, log) && FileStream(row, ranges, Content(log))
    requires Utf8.Valid(Content(log)) && BodiesEndBetween(log) && i < |ranges|
    ensures var r := ranges[i];
            0 <= r.start <= r.end <= |Content(log)| && Utf8.Valid(Content(log)[r.start..r.end])
  {
    hide Replay, Content, StreamOf, EndsBetween, BodiesEndBetween, Utf8.ValidFrom, Matches;
    CuttingsEndBetween(cs, log);
    MatchesAll(cs, log);
    ReplayAligned(cs, Content(log));
    Utf8.BetweenBoundaries(Content(log), ranges[i].start, ranges[i].end);
  }

  /** In every run: text whose bodies end between characters is queued in pieces that all
      decode, and a read of such a piece, at whatever moments its calls fall, during the
      upload, after it and after any crash, gets the whole piece or nothing. */
  lemma QueuedTextDecodes(moments: seq<seq<Label>>, f: FileId, i: nat)
    requires ReadRaces.Growing(moments) && |moments| >= 5
    requires f in Run(moments[0]).db.files && f in Run(moments[0]).log
    requires Utf8.Valid(Content(Run(moments[0]).log[f])) && BodiesEndBetween(Run(moments[0]).log[f])
    requires i < |FileRanges(Run(moments[0]).db.chunks, f)|
    ensures var s, ds := Run(moments[0]), ReadRaces.DisksAt(moments);
            var r := FileRanges(s.db.chunks, f)[i];
            && 0 <= r.start < r.end <= |Content(s.log[f])| && Utf8.Valid(Content(s.log[f])[r.start..r.end])
            && ReadAcross(ds, f, r) == Got(if ReadRaces.RenamedBetween(ds, f) then [] else Content(s.log[f])[r.start..r.end])
  {
    hide Run, IsReplay, SizesKept, Matches, CuttingsOf, FileRanges, Utf8.Valid, BodiesEndBetween, FileStream,
         ReadAcross, ReadRaces.RenamedBetween, ReadRaces.Growing;
    QueuedByOneBuffer(moments[0], f);
    var s := Run(moments[0]);
    var row := RowOfRange(moments[0], f, i);
    RowsDecode(s.db.files[f], FileRanges(s.db.chunks, f), s.log[f], CuttingsOf(moments[0], f), i);
    ReadRaces.QueuedRangesReadable(moments, row);
  }

  lemma RowOfRange(labels: seq<Label>, f: FileId, i: nat) returns (row: nat)
    requires f in Run(labels).db.files && i < |FileRanges(Run(labels).db.chunks, f)|
    ensures var s := Run(labels);
            && row < |s.db.chunks| && s.db.chunks[row].fileId == f
            && s.db.chunks[row].range == FileRanges(s.db.chunks, f)[i]
            && f in s.log && FileStream(s.db.files[f], FileRanges(s.db.chunks, f), Content(s.log[f]))
  {
    hide Run, FileRanges, FileStream;
    RunKeepsInv(labels);
    row := EndToEnd.RowAt(Run(labels).db.chunks, f, i);
    UploadSteps.OneStream(Run(labels).db, Run(labels).log, f);
  }
}
