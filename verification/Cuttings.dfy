/** One buffer that is fed bodies and flushed in any order, as a file that is completed,
    interrupted and continued is: what holds of the passages it has taken. */
module Cuttings {
  import opened Bytes
  import opened Utf8
  import opened Chunker
  import opened ChunkerLaws
  import opened PassageShape
  import opened CharacterAlignment

  datatype Cutting = Fed(data: seq<byte>, params: Params) | Flushed

  predicate AllSafe(cs: seq<Cutting>) {
    forall k | 0 <= k < |cs| :: cs[k].Fed? ==> cs[k].params.Sane()
  }

  function CutOne(st: ChunkState, c: Cutting): ChunkState
    requires c.Fed? ==> c.params.Sane()
  {
    match c
    case Fed(data, p) => FeedOne(st, Feed(data, p))
    case Flushed => Drain(st, DEFAULT_PARAMS, true)
  }

  /** The buffer after all of it, living throughout. */
  function Replay(cs: seq<Cutting>): ChunkState
    requires AllSafe(cs)
  {
    if |cs| == 0 then EMPTY else CutOne(Replay(cs[..|cs| - 1]), cs[|cs| - 1])
  }

  function DataOf(c: Cutting): seq<byte> {
    if c.Fed? then c.data else []
  }

  function StreamOf(cs: seq<Cutting>): seq<byte> {
    if |cs| == 0 then [] else StreamOf(cs[..|cs| - 1]) + DataOf(cs[|cs| - 1])
  }

  // --------------------------------------------------------------------- one more

  lemma ReplaySnoc(cs: seq<Cutting>, c: Cutting)
    requires AllSafe(cs) && (c.Fed? ==> c.params.Sane())
    ensures AllSafe(cs + [c])
    ensures Replay(cs + [c]) == CutOne(Replay(cs), c)
    ensures StreamOf(cs + [c]) == StreamOf(cs) + DataOf(c)
  {
    assert (cs + [c])[..|cs|] == cs;
  }

  // --------------------------------------------------------------- tiling, volume

  lemma CutOneTracks(st: ChunkState, stream: seq<byte>, c: Cutting)
    requires Tracks(st, stream) && (c.Fed? ==> c.params.Sane())
    ensures Tracks(CutOne(st, c), stream + DataOf(c))
    ensures c.Flushed? ==> CutOne(st, c).buffer == []
  {
    hide Drain, Tracks;
    match c
    case Fed(data, p) => FeedTracks(st, stream, Feed(data, p));
    case Flushed =>
      DrainTracks(st, stream, DEFAULT_PARAMS, true);
      assert stream + [] == stream;
  }

  /** Nothing is lost, whenever the buffer is flushed in between. */
  lemma {:induction false} ReplayTracks(cs: seq<Cutting>)
    requires AllSafe(cs)
    ensures Tracks(Replay(cs), StreamOf(cs))
  {
    if |cs| > 0 {
      ReplayTracks(cs[..|cs| - 1]);
      CutOneTracks(Replay(cs[..|cs| - 1]), StreamOf(cs[..|cs| - 1]), cs[|cs| - 1]);
    }
  }

  lemma CutOneVolume(st: ChunkState, c: Cutting)
    requires Volume(st.passages) <= 2 * st.offset && (c.Fed? ==> c.params.Sane())
    ensures Volume(CutOne(st, c).passages) <= 2 * CutOne(st, c).offset
  {
    hide Drain, Volume;
    match c
    case Fed(data, p) => DrainVolume(st.(buffer := st.buffer + data), p, false);
    case Flushed => DrainVolume(st, DEFAULT_PARAMS, true);
  }

  lemma {:induction false} ReplayVolumeBound(cs: seq<Cutting>)
    requires AllSafe(cs)
    ensures Volume(Replay(cs).passages) <= 2 * Replay(cs).offset
  {
    if |cs| > 0 {
      ReplayVolumeBound(cs[..|cs| - 1]);
      CutOneVolume(Replay(cs[..|cs| - 1]), cs[|cs| - 1]);
    }
  }

  lemma TiledVolume(st: ChunkState, stream: seq<byte>)
    requires Tracks(st, stream)
    ensures st.offset <= Volume(st.passages)
  {
    if |st.passages| > 0 {
      VolumeCovers(st.passages);
    }
  }

  /** The passages add up to at least what they cover, and at most twice as much. */
  lemma ReplayVolume(cs: seq<Cutting>)
    requires AllSafe(cs)
    ensures Replay(cs).offset <= Volume(Replay(cs).passages) <= 2 * Replay(cs).offset
  {
    ReplayTracks(cs);
    ReplayVolumeBound(cs);
    TiledVolume(Replay(cs), StreamOf(cs));
  }

  // ------------------------------------------------------------------------ sizes

  /** No maximum exceeds `limit`, that of the flush included. */
  ghost predicate Capped(cs: seq<Cutting>, limit: int) {
    && DEFAULT_PARAMS.max <= limit
    && forall k | 0 <= k < |cs| :: cs[k].Fed? ==> cs[k].params.max <= limit
  }

  lemma CutOneSizes(st: ChunkState, c: Cutting, limit: int)
    requires AtMost(st.passages, 0, limit) && DEFAULT_PARAMS.max <= limit
    requires c.Fed? ==> c.params.Sane() && c.params.max <= limit
    ensures AtMost(CutOne(st, c).passages, 0, limit)
    ensures c.Fed? ==> |CutOne(st, c).buffer| < Max(c.params.target, c.params.max)
  {
    hide Drain;
    match c
    case Fed(data, p) => DrainSizes(st.(buffer := st.buffer + data), p, false);
    case Flushed => DrainSizes(st, DEFAULT_PARAMS, true);
  }

  lemma {:induction false} ReplaySizes(cs: seq<Cutting>, limit: int)
    requires AllSafe(cs) && Capped(cs, limit)
    ensures AtMost(Replay(cs).passages, 0, limit)
  {
    if |cs| > 0 {
      ReplaySizes(cs[..|cs| - 1], limit);
      CutOneSizes(Replay(cs[..|cs| - 1]), cs[|cs| - 1], limit);
    }
  }

  // ------------------------------------------------------------------- the number

  /** Every body was cut with sizes whose cuts move on by at least `stride`. */
  ghost predicate Paced(cs: seq<Cutting>, stride: int) {
    forall k | 0 <= k < |cs| :: cs[k].Fed? ==> PacedSizes(cs[k].params, stride)
  }

  predicate PacedSizes(p: Params, stride: int) {
    p.max - 3 - p.overlap >= p.target / 2 && p.target / 2 - p.overlap >= stride
  }

  function Flushes(cs: seq<Cutting>): nat {
    if |cs| == 0 then 0 else Flushes(cs[..|cs| - 1]) + if cs[|cs| - 1].Flushed? then 1 else 0
  }

  /** All but `short` of the passages have moved the offset by a stride. */
  ghost predicate StridesBut(st: ChunkState, stride: int, short: int) {
    (|st.passages| - short) * stride <= st.offset
  }

  lemma OneStrideMore(n: int, stride: int, offset: int, next: int)
    requires n * stride <= offset && offset + stride <= next
    ensures (n + 1) * stride <= next
  {
    assert (n + 1) * stride == n * stride + stride;
  }

  lemma {:induction false} FedStridesBut(st: ChunkState, p: Params, stride: int, short: int)
    requires p.Sane() && PacedSizes(p, stride) && StridesBut(st, stride, short)
    ensures StridesBut(Drain(st, p, false), stride, short)
    decreases |st.buffer|
  {
    hide FindCut, OverlapSize, SafeSplitPoint, AfterCut, StridesBut;
    var cut := FindCut(st.buffer, p, false);
    if cut.Some? {
      var next := AfterCut(st, p, false, cut.value);
      CutFacts(st.buffer, p, false, cut.value);
      CutShape(st, p, false, cut.value);
      StrideAdds(st, next, stride, short);
      DrainAfterCut(st, p, false, cut.value);
      FedStridesBut(next, p, stride, short);
    }
  }

  lemma StrideAdds(st: ChunkState, next: ChunkState, stride: int, short: int)
    requires StridesBut(st, stride, short) && |next.passages| == |st.passages| + 1 && st.offset + stride <= next.offset
    ensures StridesBut(next, stride, short)
  {
    OneStrideMore(|st.passages| - short, stride, st.offset, next.offset);
  }

  lemma ShortAdds(st: ChunkState, next: ChunkState, stride: int, short: int)
    requires StridesBut(st, stride, short) && |next.passages| == |st.passages| + 1 && st.offset <= next.offset
    ensures StridesBut(next, stride, short + 1)
  {
    assert |next.passages| - (short + 1) == |st.passages| - short;
  }

  lemma ShortMore(st: ChunkState, stride: int, short: int)
    requires StridesBut(st, stride, short) && stride >= 0
    ensures StridesBut(st, stride, short + 1)
  {
    assert (|st.passages| - (short + 1)) * stride == (|st.passages| - short) * stride - stride;
  }

  /** A cut at the end of the stream takes all that is left, and ends it, or moves on by
      a stride. */
  lemma FlushMovesOn(st: ChunkState, p: Params, stride: int, cut: int)
    requires p.Sane() && PacedSizes(p, stride) && FindCut(st.buffer, p, true) == Some(cut)
    ensures var next := AfterCut(st, p, true, cut);
            next.buffer == [] || st.offset + stride <= next.offset
  {
    CutFacts(st.buffer, p, true, cut);
    CutShape(st, p, true, cut);
    FlushCut(st.buffer, p, cut);
  }

  lemma {:induction false} FlushStridesBut(st: ChunkState, p: Params, stride: int, short: int)
    requires p.Sane() && PacedSizes(p, stride) && StridesBut(st, stride, short) && stride >= 0
    ensures StridesBut(Drain(st, p, true), stride, short + 1)
    decreases |st.buffer|
  {
    hide FindCut, OverlapSize, SafeSplitPoint, AfterCut, StridesBut;
    var cut := FindCut(st.buffer, p, true);
    if cut.None? {
      ShortMore(st, stride, short);
    } else {
      var next := AfterCut(st, p, true, cut.value);
      CutFacts(st.buffer, p, true, cut.value);
      CutShape(st, p, true, cut.value);
      DrainAfterCut(st, p, true, cut.value);
      FlushMovesOn(st, p, stride, cut.value);
      if next.buffer == [] {
        ShortAdds(st, next, stride, short);
        NothingLeft(next, p);
      } else {
        StrideAdds(st, next, stride, short);
        FlushStridesBut(next, p, stride, short);
      }
    }
  }

  lemma NothingLeft(st: ChunkState, p: Params)
    requires p.Sane() && st.buffer == []
    ensures Drain(st, p, true) == st
  {
  }

  /** All passages but one for each flush move on by a stride: their number is bounded by
      the bytes that were cut. */
  lemma {:induction false} ReplayCount(cs: seq<Cutting>, stride: int)
    requires AllSafe(cs) && Paced(cs, stride) && PacedSizes(DEFAULT_PARAMS, stride) && stride >= 0
    ensures StridesBut(Replay(cs), stride, Flushes(cs))
  {
    hide Drain, PacedSizes;
    if |cs| > 0 {
      var n := |cs| - 1;
      ReplayCount(cs[..n], stride);
      var st := Replay(cs[..n]);
      match cs[n]
      case Fed(data, p) => FedStridesBut(st.(buffer := st.buffer + data), p, stride, Flushes(cs[..n]));
      case Flushed => FlushStridesBut(st, DEFAULT_PARAMS, stride, Flushes(cs[..n]));
    }
  }

  // --------------------------------------------------------------- line alignment

  /** The buffer is the stream from the offset on. */
  ghost predicate Follows(st: ChunkState, stream: seq<byte>) {
    0 <= st.offset <= |stream| && st.buffer == stream[st.offset..]
  }

  ghost predicate AlignedFrom(ps: seq<Range>, from: nat, stream: seq<byte>, p: Params) {
    forall i | from <= i < |ps| :: LineAligned(ps[i], stream, p)
  }

  lemma CutFollows(st: ChunkState, stream: seq<byte>, p: Params, final: bool, cut: int)
    requires p.Sane() && Follows(st, stream) && FindCut(st.buffer, p, final) == Some(cut)
    ensures Follows(AfterCut(st, p, final, cut), stream)
  {
    hide FindCut, OverlapSize, SafeSplitPoint, AfterCut;
    var next := AfterCut(st, p, final, cut);
    CutShape(st, p, final, cut);
    assert next.buffer == stream[next.offset..];
  }

  /** Whatever was cut before, what a feed cuts is aligned to lines. */
  lemma {:induction false} DrainAlignedFrom(st: ChunkState, stream: seq<byte>, p: Params, from: nat)
    requires p.Sane() && Follows(st, stream) && from <= |st.passages| && AlignedFrom(st.passages, from, stream, p)
    ensures st.passages <= Drain(st, p, false).passages
    ensures AlignedFrom(Drain(st, p, false).passages, from, stream, p)
    decreases |st.buffer|
  {
    hide FindCut, OverlapSize, SafeSplitPoint, AfterCut, LineAligned, Follows;
    var cut := FindCut(st.buffer, p, false);
    if cut.Some? {
      var next := AfterCut(st, p, false, cut.value);
      CutFacts(st.buffer, p, false, cut.value);
      CutShape(st, p, false, cut.value);
      BufferFollows(st, stream);
      PassageLineAligned(stream, st.offset, st.buffer, p, cut.value);
      CutFollows(st, stream, p, false, cut.value);
      DrainAfterCut(st, p, false, cut.value);
      DrainAlignedFrom(next, stream, p, from);
    }
  }

  lemma BufferFollows(st: ChunkState, stream: seq<byte>)
    requires Follows(st, stream)
    ensures 0 <= st.offset <= |stream| && st.buffer == stream[st.offset..]
  {
  }

  /** Passage `i` was cut by cutting `k`. */
  ghost predicate CutWith(cs: seq<Cutting>, k: nat, i: nat)
    requires AllSafe(cs)
  {
    k < |cs| && |Replay(cs[..k]).passages| <= i < |Replay(cs[..k + 1]).passages|
  }

  /** A passage cut by a feed is aligned to lines for the sizes of that feed, whatever was
      flushed before. */
  lemma {:induction false} ReplayLineAligned(cs: seq<Cutting>, k: nat, i: nat)
    requires AllSafe(cs) && CutWith(cs, k, i) && cs[k].Fed?
    ensures i < |Replay(cs).passages| && Replay(cs[..k + 1]).passages <= Replay(cs).passages
    ensures LineAligned(Replay(cs).passages[i], StreamOf(cs), cs[k].params)
  {
    hide Drain, LineAligned;
    var n := |cs| - 1;
    var st, stream := Replay(cs[..n]), StreamOf(cs[..n]);
    ReplayTracks(cs[..n]);
    if k == n {
      assert cs[..k + 1] == cs;
      var longer := st.(buffer := st.buffer + cs[n].data);
      LongerTracks(st, stream, cs[n].data);
      DrainAlignedFrom(longer, stream + cs[n].data, cs[n].params, |st.passages|);
    } else {
      assert cs[..n][..k] == cs[..k] && cs[..n][..k + 1] == cs[..k + 1];
      ReplayLineAligned(cs[..n], k, i);
      PassagesStay(st, cs[n]);
      assert LineAligned(st.passages[i], stream, cs[k].params);
      AlignedInLonger([st.passages[i]], stream, DataOf(cs[n]), cs[k].params);
      assert LineAligned([st.passages[i]][0], stream + DataOf(cs[n]), cs[k].params);
    }
  }

  lemma PassagesStay(st: ChunkState, c: Cutting)
    requires c.Fed? ==> c.params.Sane()
    ensures st.passages <= CutOne(st, c).passages
  {
    hide Drain;
    match c
    case Fed(data, p) => DrainSizes(st.(buffer := st.buffer + data), p, false);
    case Flushed => DrainSizes(st, DEFAULT_PARAMS, true);
  }

  // ------------------------------------------------------------------- characters

  /** Every body ends between two characters of the text. */
  ghost predicate EndsBetween(cs: seq<Cutting>, text: seq<byte>) {
    forall k | 0 <= k <= |cs| :: EndBetween(cs, text, k)
  }

  ghost predicate EndBetween(cs: seq<Cutting>, text: seq<byte>, k: nat)
    requires k <= |cs|
  {
    Boundary(text, |StreamOf(cs[..k])|)
  }

  lemma EndsOfPrefix(cs: seq<Cutting>, text: seq<byte>, n: nat)
    requires EndsBetween(cs, text) && n <= |cs|
    ensures EndsBetween(cs[..n], text) && Boundary(text, |StreamOf(cs[..n])|)
  {
    assert EndBetween(cs, text, n);
    forall k | 0 <= k <= n
      ensures EndBetween(cs[..n], text, k)
    {
      assert EndBetween(cs, text, k) && cs[..n][..k] == cs[..k];
    }
  }

  lemma FedIsAhead(st: ChunkState, text: seq<byte>, stream: seq<byte>, data: seq<byte>)
    requires Ahead(st, text, |stream|) && stream + data <= text
    ensures Ahead(st.(buffer := st.buffer + data), text, |stream + data|)
  {
    assert forall i | 0 <= i < |data| :: data[i] == (stream + data)[|stream| + i];
  }

  lemma CutOneAligned(st: ChunkState, text: seq<byte>, stream: seq<byte>, c: Cutting)
    requires Valid(text) && Ahead(st, text, |stream|) && Aligned(st.passages, text, {})
    requires stream + DataOf(c) <= text && Boundary(text, |stream + DataOf(c)|) && (c.Fed? ==> c.params.Sane())
    ensures Aligned(CutOne(st, c).passages, text, {}) && Ahead(CutOne(st, c), text, |stream + DataOf(c)|)
  {
    hide Drain, Ahead, Aligned, ValidFrom, Boundary;
    match c
    case Fed(data, p) =>
      FedIsAhead(st, text, stream, data);
      DrainAligned(st.(buffer := st.buffer + data), text, |stream + data|, p, false, {});
    case Flushed =>
      assert stream + [] == stream;
      DrainAligned(st, text, |stream|, DEFAULT_PARAMS, true, {});
  }

  lemma PrefixOfStream(cs: seq<Cutting>)
    requires |cs| > 0
    ensures StreamOf(cs[..|cs| - 1]) <= StreamOf(cs)
  {
  }

  /** In well-formed text whose bodies end between characters, every passage begins and
      ends between characters, whenever the buffer is flushed. */
  lemma {:induction false} ReplayAligned(cs: seq<Cutting>, text: seq<byte>)
    requires AllSafe(cs) && Valid(text) && StreamOf(cs) <= text && EndsBetween(cs, text)
    ensures Aligned(Replay(cs).passages, text, {}) && Ahead(Replay(cs), text, |StreamOf(cs)|)
  {
    assert cs[..|cs|] == cs;
    EndsOfPrefix(cs, text, |cs|);
    if |cs| > 0 {
      var before := cs[..|cs| - 1];
      EndsOfPrefix(cs, text, |cs| - 1);
      PrefixOfStream(cs);
      ReplayAligned(before, text);
      CutOneAligned(Replay(before), text, StreamOf(before), cs[|cs| - 1]);
    }
  }

  // ------------------------------------------------------------- feeds, then flushes

  ghost predicate AllFed(cs: seq<Cutting>) {
    forall k | 0 <= k < |cs| :: cs[k].Fed?
  }

  function FeedsOf(cs: seq<Cutting>): (feeds: seq<Feed>)
    requires forall k | 0 <= k < |cs| :: cs[k].Fed?
    ensures |feeds| == |cs|
    ensures forall k | 0 <= k < |cs| :: feeds[k] == Feed(cs[k].data, cs[k].params)
  {
    seq(|cs|, k requires 0 <= k < |cs| => Feed(cs[k].data, cs[k].params))
  }

  /** Fed only, it is the buffer of the chunker's laws. */
  lemma {:induction false} ReplayOfFeeds(cs: seq<Cutting>)
    requires AllSafe(cs) && AllFed(cs)
    ensures AllSane(FeedsOf(cs))
    ensures Replay(cs) == FeedAll(FeedsOf(cs)) && StreamOf(cs) == Stream(FeedsOf(cs))
  {
    if |cs| > 0 {
      ReplayOfFeeds(cs[..|cs| - 1]);
      assert FeedsOf(cs)[..|cs| - 1] == FeedsOf(cs[..|cs| - 1]);
    }
  }

  /** Flushing what was flushed does nothing. */
  lemma FlushAgain(st: ChunkState)
    requires st.buffer == []
    ensures Drain(st, DEFAULT_PARAMS, true) == st
  {
  }

  lemma FlushedFirst(cs: seq<Cutting>)
    requires |cs| > 0 && AllSafe(cs) && AllFed(cs[..|cs| - 1]) && cs[|cs| - 1].Flushed?
    ensures var feeds := FeedsOf(cs[..|cs| - 1]);
            AllSane(feeds) && Replay(cs) == Upload(feeds, DEFAULT_PARAMS) && StreamOf(cs) == Stream(feeds)
  {
    hide Drain, FeedAll;
    ReplayOfFeeds(cs[..|cs| - 1]);
  }

  lemma {:induction false} FlushedIsEmpty(cs: seq<Cutting>)
    requires |cs| > 0 && AllSafe(cs) && cs[|cs| - 1].Flushed?
    ensures Replay(cs).buffer == []
  {
    hide Drain, Tracks;
    ReplayTracks(cs[..|cs| - 1]);
    CutOneTracks(Replay(cs[..|cs| - 1]), StreamOf(cs[..|cs| - 1]), Flushed);
  }

  lemma FlushedAgain(cs: seq<Cutting>)
    requires |cs| > 1 && AllSafe(cs) && cs[|cs| - 1].Flushed? && cs[|cs| - 2].Flushed?
    ensures Replay(cs) == Replay(cs[..|cs| - 1]) && StreamOf(cs) == StreamOf(cs[..|cs| - 1])
  {
    hide Drain;
    FlushedIsEmpty(cs[..|cs| - 1]);
    FlushAgain(Replay(cs[..|cs| - 1]));
  }

  /** Fed and then flushed, once or more often, it is an upload. */
  lemma {:induction false} ReplayOfUpload(cs: seq<Cutting>, n: nat)
    requires AllSafe(cs) && n < |cs| && AllFed(cs[..n]) && forall k | n <= k < |cs| :: cs[k].Flushed?
    ensures AllSane(FeedsOf(cs[..n]))
    ensures Replay(cs) == Upload(FeedsOf(cs[..n]), DEFAULT_PARAMS)
    ensures StreamOf(cs) == Stream(FeedsOf(cs[..n]))
  {
    hide Drain, FeedAll, Replay, StreamOf, Upload;
    if n == |cs| - 1 {
      FlushedFirst(cs);
    } else {
      assert cs[..|cs| - 1][..n] == cs[..n];
      ReplayOfUpload(cs[..|cs| - 1], n);
      FlushedAgain(cs);
    }
  }
}
