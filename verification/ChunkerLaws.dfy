/** What the chunker guarantees for every stream, every way of splitting it into
    bodies, and every choice of passage sizes along the way. */
module ChunkerLaws {
  import opened Bytes
  import opened Chunker

  // ---------------------------------------------------------------- safe sizes

  /** One cut of `buf` makes progress and leaves no gap. */
  predicate StepSafe(buf: seq<byte>, p: Params, final: bool)
    requires p.Positive()
  {
    var cut := FindCut(buf, p, final);
    cut.Some? ==> cut.value >= 1 && OverlapSize(buf, p.overlap, cut.value) >= 0
  }

  /** A run of continuation bytes reaching just past `p.max`, then letters. */
  function StrayRun(p: Params): seq<byte> {
    seq(p.max + 1, _ => 0x80) + seq(p.target + 1, _ => 65)
  }

  /** Below the sane sizes a stray run is cut to nothing, or leaves a gap. */
  lemma InsaneSizesFail(p: Params)
    requires p.Positive() && !p.Sane()
    ensures !StepSafe(StrayRun(p), p, false)
  {
    var buf := StrayRun(p);
    var window := buf[..p.max];
    assert Find(window, p.target - 1) == -1 && RFind(window) == -1;
    var cut := SafeSplitPoint(buf, p.max);
    assert FindCut(buf, p, false) == Some(cut);
    if cut >= 1 {
      assert cut == p.max;
      assert IsSplit(buf, cut + 1);
      assert OverlapSize(buf, p.overlap, cut) == -1;
    }
  }

  /** Overlap of at least 3 and maximum of at least 6 are exactly what makes
      every cut of every buffer safe. */
  lemma SaneIsExactlyStepSafety(p: Params)
    requires p.Positive()
    ensures p.Sane() <==> forall buf: seq<byte>, final: bool :: StepSafe(buf, p, final)
  {
    if p.Sane() {
      forall buf: seq<byte>, final: bool
        ensures StepSafe(buf, p, final)
      {
        var cut := FindCut(buf, p, final);
        if cut.Some? {
          CutFacts(buf, p, final, cut.value);
        }
      }
    } else {
      InsaneSizesFail(p);
    }
  }

  // ------------------------------------------------------------ runs of uploads

  /** One body, with the sizes the request that brought it used. */
  datatype Feed = Feed(data: seq<byte>, params: Params)

  predicate AllSane(feeds: seq<Feed>) {
    forall i | 0 <= i < |feeds| :: feeds[i].params.Sane()
  }

  /** All the bytes fed, in order. */
  function Stream(feeds: seq<Feed>): seq<byte> {
    if |feeds| == 0 then [] else Stream(feeds[..|feeds| - 1]) + feeds[|feeds| - 1].data
  }

  function FeedOne(st: ChunkState, f: Feed): ChunkState
    requires f.params.Sane()
  {
    Drain(st.(buffer := st.buffer + f.data), f.params, false)
  }

  /** The state after all the feeds, one buffer living throughout. */
  function FeedAll(feeds: seq<Feed>): ChunkState
    requires AllSane(feeds)
  {
    if |feeds| == 0 then EMPTY
    else FeedOne(FeedAll(feeds[..|feeds| - 1]), feeds[|feeds| - 1])
  }

  /** A whole upload: the feeds, then the final flush with sizes of its own. */
  function Upload(feeds: seq<Feed>, flush: Params): ChunkState
    requires AllSane(feeds) && flush.Sane()
  {
    Drain(FeedAll(feeds), flush, true)
  }

  // --------------------------------------------------------------------- tiling

  /** Nonempty passages from 0 on, each starting after the previous start and no
      later than the previous end. */
  ghost predicate Tiles(ps: seq<Range>) {
    && (|ps| > 0 ==> ps[0].start == 0)
    && (forall i | 0 <= i < |ps| :: ps[i].start < ps[i].end)
    && (forall i | 0 < i < |ps| :: ps[i - 1].start < ps[i].start <= ps[i - 1].end)
  }

  ghost predicate Within(ps: seq<Range>, limit: int) {
    forall i | 0 <= i < |ps| :: 0 <= ps[i].start && ps[i].end <= limit
  }

  /** The chunker's state is right for a stream: the buffer is the stream from the
      offset on, and the passages tile everything before it. */
  ghost predicate Tracks(st: ChunkState, stream: seq<byte>) {
    && 0 <= st.offset <= |stream|
    && st.buffer == stream[st.offset..]
    && Tiles(st.passages)
    && Within(st.passages, |stream|)
    && (|st.passages| == 0 ==> st.offset == 0)
    && (|st.passages| > 0 ==>
          var last := st.passages[|st.passages| - 1];
          last.start < st.offset <= last.end)
  }

  /** A cut moves the offset forward inside the passage it emits, and the buffer
      with it. */
  lemma CutShape(st: ChunkState, p: Params, final: bool, cut: int)
    requires p.Sane() && FindCut(st.buffer, p, final) == Some(cut)
    ensures var next := AfterCut(st, p, final, cut);
            && next.passages == st.passages + [Range(st.offset, st.offset + cut)]
            && 1 <= cut <= |st.buffer|
            && st.offset < next.offset <= st.offset + cut
            && next.buffer == st.buffer[next.offset - st.offset..]
            && (next.offset == st.offset + cut - OverlapSize(st.buffer, p.overlap, cut)
                || (final && next.offset == st.offset + |st.buffer|))
  {
    CutFacts(st.buffer, p, final, cut);
    assert st.buffer[|st.buffer|..] == [];
  }

  lemma TilesExtend(ps: seq<Range>, r: Range)
    requires Tiles(ps) && r.start < r.end
    requires if |ps| == 0 then r.start == 0 else ps[|ps| - 1].start < r.start <= ps[|ps| - 1].end
    ensures Tiles(ps + [r])
  {
  }

  lemma CutTracks(st: ChunkState, stream: seq<byte>, p: Params, final: bool, cut: int)
    requires p.Sane() && Tracks(st, stream) && FindCut(st.buffer, p, final) == Some(cut)
    ensures Tracks(AfterCut(st, p, final, cut), stream)
  {
    hide FindCut, OverlapSize, SafeSplitPoint;
    var next := AfterCut(st, p, final, cut);
    CutShape(st, p, final, cut);
    TilesExtend(st.passages, Range(st.offset, st.offset + cut));
    assert next.buffer == stream[next.offset..];
  }

  lemma {:induction false} DrainTracks(st: ChunkState, stream: seq<byte>, p: Params, final: bool)
    requires p.Sane() && Tracks(st, stream)
    ensures Tracks(Drain(st, p, final), stream)
    ensures final ==> Drain(st, p, final).buffer == []
    decreases |st.buffer|
  {
    var cut := FindCut(st.buffer, p, final);
    if cut.Some? {
      CutTracks(st, stream, p, final, cut.value);
      CutFacts(st.buffer, p, final, cut.value);
      DrainTracks(AfterCut(st, p, final, cut.value), stream, p, final);
    }
  }

  lemma LongerTracks(st: ChunkState, stream: seq<byte>, data: seq<byte>)
    requires Tracks(st, stream)
    ensures Tracks(st.(buffer := st.buffer + data), stream + data)
  {
    assert st.buffer + data == (stream + data)[st.offset..];
  }

  /** Feeding more bytes keeps the state right for the longer stream. */
  lemma FeedTracks(st: ChunkState, stream: seq<byte>, f: Feed)
    requires f.params.Sane() && Tracks(st, stream)
    ensures Tracks(FeedOne(st, f), stream + f.data)
  {
    LongerTracks(st, stream, f.data);
    DrainTracks(st.(buffer := st.buffer + f.data), stream + f.data, f.params, false);
  }

  lemma {:induction false} FeedAllTracks(feeds: seq<Feed>)
    requires AllSane(feeds)
    ensures Tracks(FeedAll(feeds), Stream(feeds))
  {
    if |feeds| > 0 {
      var before := feeds[..|feeds| - 1];
      FeedAllTracks(before);
      FeedTracks(FeedAll(before), Stream(before), feeds[|feeds| - 1]);
    }
  }

  /** The byte at `b` lies in passage `i`. */
  ghost predicate Holds(ps: seq<Range>, i: int, b: int) {
    0 <= i < |ps| && ps[i].start <= b < ps[i].end
  }

  ghost predicate Covered(ps: seq<Range>, b: int) {
    exists i :: Holds(ps, i, b)
  }

  /** Tiled passages leave no byte out up to the last end. */
  lemma {:induction false} TilesCover(ps: seq<Range>, b: int) returns (i: int)
    requires Tiles(ps) && |ps| > 0 && 0 <= b < ps[|ps| - 1].end
    ensures Holds(ps, i, b)
  {
    i := |ps| - 1;
    while b < ps[i].start
      invariant 0 <= i < |ps| && b < ps[i].end
    {
      i := i - 1;
    }
  }

  /** Lossless tiling: whatever the bytes, the bodies and the sizes, the passages
      tile the stream from its first byte to its last. */
  lemma UploadTiles(feeds: seq<Feed>, flush: Params)
    requires AllSane(feeds) && flush.Sane()
    ensures var ps := Upload(feeds, flush).passages;
            && Tiles(ps) && Within(ps, |Stream(feeds)|)
            && (|Stream(feeds)| > 0 ==> |ps| > 0 && ps[|ps| - 1].end == |Stream(feeds)|)
            && (forall b | 0 <= b < |Stream(feeds)| :: Covered(ps, b))
  {
    hide Drain, Tracks;
    FeedAllTracks(feeds);
    DrainTracks(FeedAll(feeds), Stream(feeds), flush, true);
    var ps := Upload(feeds, flush).passages;
    forall b | 0 <= b < |Stream(feeds)|
      ensures Covered(ps, b)
    {
      var i := TilesCover(ps, b);
    }
  }

  // --------------------------------------------------------------------- resume

  /** The buffer that a request builds from the two persisted values. */
  function Rebuild(passages: seq<Range>, bytesReceived: nat, pendingTail: seq<byte>): ChunkState {
    ChunkState(passages, bytesReceived - |pendingTail|, pendingTail)
  }

  /** The same upload with the buffer rebuilt before every body, as the service
      does: only the byte count and the tail survive between requests. */
  function FeedAllRebuilding(feeds: seq<Feed>): ChunkState
    requires AllSane(feeds)
  {
    if |feeds| == 0 then EMPTY
    else
      var before := feeds[..|feeds| - 1];
      var st := FeedAllRebuilding(before);
      FeedOne(Rebuild(st.passages, |Stream(before)|, st.buffer), feeds[|feeds| - 1])
  }

  /** Resuming is invisible: rebuilding before every body gives the passages, the
      offset and the tail of one uninterrupted buffer. */
  lemma {:induction false} ResumeRefinesOneBuffer(feeds: seq<Feed>)
    requires AllSane(feeds)
    ensures FeedAllRebuilding(feeds) == FeedAll(feeds)
    ensures FeedAll(feeds).offset + |FeedAll(feeds).buffer| == |Stream(feeds)|
  {
    FeedAllTracks(feeds);
    if |feeds| > 0 {
      var before := feeds[..|feeds| - 1];
      ResumeRefinesOneBuffer(before);
      assert Rebuild(FeedAll(before).passages, |Stream(before)|, FeedAll(before).buffer) == FeedAll(before);
    }
  }

  function Prefixed(ps: seq<Range>, st: ChunkState): ChunkState {
    st.(passages := ps + st.passages)
  }

  lemma CutAccumulates(ps: seq<Range>, st: ChunkState, p: Params, final: bool, cut: int)
    requires p.Sane() && FindCut(st.buffer, p, final) == Some(cut)
    ensures AfterCut(Prefixed(ps, st), p, final, cut) == Prefixed(ps, AfterCut(st, p, final, cut))
  {
    hide FindCut, OverlapSize, SafeSplitPoint;
    var passage := Range(st.offset, st.offset + cut);
    assert ps + (st.passages + [passage]) == (ps + st.passages) + [passage];
  }

  /** Passages found earlier do not influence what is found later. */
  lemma {:induction false} DrainAccumulates(ps: seq<Range>, st: ChunkState, p: Params, final: bool)
    requires p.Sane()
    ensures Drain(Prefixed(ps, st), p, final) == Prefixed(ps, Drain(st, p, final))
    decreases |st.buffer|
  {
    var cut := FindCut(st.buffer, p, final);
    if cut.Some? {
      CutFacts(st.buffer, p, final, cut.value);
      CutAccumulates(ps, st, p, final, cut.value);
      DrainAccumulates(ps, AfterCut(st, p, final, cut.value), p, final);
    }
  }

  // --------------------------------------------------------------------- volume

  /** Bytes in all the passages, counting repeated ones each time. */
  function Volume(ps: seq<Range>): int {
    if |ps| == 0 then 0 else Volume(ps[..|ps| - 1]) + ps[|ps| - 1].Size()
  }

  lemma {:induction false} DrainVolume(st: ChunkState, p: Params, final: bool)
    requires p.Sane() && Volume(st.passages) <= 2 * st.offset
    ensures Volume(Drain(st, p, final).passages) <= 2 * Drain(st, p, final).offset
    decreases |st.buffer|
  {
    var cut := FindCut(st.buffer, p, final);
    if cut.Some? {
      CutFacts(st.buffer, p, final, cut.value);
      var next := AfterCut(st, p, final, cut.value);
      assert next.passages[..|st.passages|] == st.passages;
      DrainVolume(next, p, final);
    }
  }

  lemma {:induction false} FeedAllVolume(feeds: seq<Feed>)
    requires AllSane(feeds)
    ensures Volume(FeedAll(feeds).passages) <= 2 * FeedAll(feeds).offset
  {
    if |feeds| > 0 {
      var before := feeds[..|feeds| - 1];
      FeedAllVolume(before);
      var f := feeds[|feeds| - 1];
      DrainVolume(FeedAll(before).(buffer := FeedAll(before).buffer + f.data), f.params, false);
    }
  }

  /** No upload embeds more than twice its bytes, for any bodies and any sizes. */
  lemma UploadVolume(feeds: seq<Feed>, flush: Params)
    requires AllSane(feeds) && flush.Sane()
    ensures |Stream(feeds)| <= Volume(Upload(feeds, flush).passages) <= 2 * |Stream(feeds)|
  {
    FeedAllTracks(feeds);
    FeedAllVolume(feeds);
    DrainTracks(FeedAll(feeds), Stream(feeds), flush, true);
    DrainVolume(FeedAll(feeds), flush, true);
    VolumeCovers(Upload(feeds, flush).passages);
  }

  lemma {:induction false} VolumeCovers(ps: seq<Range>)
    requires Tiles(ps)
    ensures |ps| > 0 ==> ps[|ps| - 1].end <= Volume(ps)
    ensures |ps| == 0 ==> Volume(ps) == 0
  {
    if |ps| > 0 {
      VolumeCovers(ps[..|ps| - 1]);
    }
  }
}
