/** The size, the ends and the line alignment of passages, for uploads whose
    bodies are all fed with the same sizes. */
module PassageShape {
  import opened Bytes
  import opened Chunker
  import opened ChunkerLaws

  ghost predicate Fixed(feeds: seq<Feed>, p: Params) {
    p.Sane() && forall i | 0 <= i < |feeds| :: feeds[i].params == p
  }

  // --------------------------------------------------------------- size, memory

  ghost predicate AtMost(ps: seq<Range>, from: int, limit: int) {
    forall i | 0 <= from <= i < |ps| :: ps[i].Size() <= limit
  }

  lemma {:induction false} DrainSizes(st: ChunkState, p: Params, final: bool)
    requires p.Sane()
    ensures st.passages <= Drain(st, p, final).passages
    ensures AtMost(Drain(st, p, final).passages, |st.passages|, if final then Max(p.max, p.target - 1) else p.max)
    ensures !final ==> |Drain(st, p, final).buffer| < Max(p.target, p.max)
    decreases |st.buffer|
  {
    hide AfterCut;
    var cut := FindCut(st.buffer, p, final);
    if cut.Some? {
      CutFacts(st.buffer, p, final, cut.value);
      CutShape(st, p, final, cut.value);
      DrainSizes(AfterCut(st, p, final, cut.value), p, final);
    }
  }

  /** No fed passage exceeds the maximum, and what is held back between bodies is
      shorter than the larger of target and maximum: memory does not grow with
      the file. */
  lemma {:induction false} FedSizes(feeds: seq<Feed>, p: Params)
    requires Fixed(feeds, p)
    ensures AtMost(FeedAll(feeds).passages, 0, p.max)
    ensures |FeedAll(feeds).buffer| < Max(p.target, p.max)
  {
    if |feeds| > 0 {
      var before := feeds[..|feeds| - 1];
      FedSizes(before, p);
      var st := FeedAll(before);
      DrainSizes(st.(buffer := st.buffer + feeds[|feeds| - 1].data), p, false);
    }
  }

  // ---------------------------------------------------------------- the number

  /** `n` passages have moved the offset by at least `n` strides. */
  ghost predicate Strides(st: ChunkState, stride: int) {
    |st.passages| * stride <= st.offset
  }

  lemma OneMoreStride(n: nat, stride: int, offset: int, next: int)
    requires n * stride <= offset && offset + stride <= next
    ensures (n + 1) * stride <= next
  {
    assert (n + 1) * stride == n * stride + stride;
  }

  lemma CutStrides(st: ChunkState, p: Params, cut: int, stride: int)
    requires p.Sane() && p.max - 3 >= p.target / 2 && stride == p.target / 2 - p.overlap
    requires Strides(st, stride) && FindCut(st.buffer, p, false) == Some(cut)
    ensures Strides(AfterCut(st, p, false, cut), stride)
  {
    CutFacts(st.buffer, p, false, cut);
    CutShape(st, p, false, cut);
    OneMoreStride(|st.passages|, stride, st.offset, AfterCut(st, p, false, cut).offset);
  }

  lemma {:induction false} DrainStrides(st: ChunkState, p: Params, stride: int)
    requires p.Sane() && p.max - 3 >= p.target / 2 && stride == p.target / 2 - p.overlap
    requires Strides(st, stride)
    ensures Strides(Drain(st, p, false), stride)
    decreases |st.buffer|
  {
    var cut := FindCut(st.buffer, p, false);
    if cut.Some? {
      CutFacts(st.buffer, p, false, cut.value);
      CutStrides(st, p, cut.value, stride);
      DrainStrides(AfterCut(st, p, false, cut.value), p, stride);
    }
  }

  lemma {:induction false} FedStrides(feeds: seq<Feed>, p: Params, stride: int)
    requires Fixed(feeds, p) && p.max - 3 >= p.target / 2 && stride == p.target / 2 - p.overlap
    ensures Strides(FeedAll(feeds), stride)
  {
    if |feeds| > 0 {
      var before := feeds[..|feeds| - 1];
      FedStrides(before, p, stride);
      var st := FeedAll(before);
      DrainStrides(st.(buffer := st.buffer + feeds[|feeds| - 1].data), p, stride);
    }
  }

  lemma StridesInStream(st: ChunkState, stream: seq<byte>, stride: int)
    requires Tracks(st, stream) && Strides(st, stride)
    ensures |st.passages| * stride <= |stream|
  {
  }

  /** The number of fed passages, and so of queued jobs, is bounded by the bytes
      fed: each passage uses up half the target less the overlap. */
  lemma FedCount(feeds: seq<Feed>, p: Params)
    requires Fixed(feeds, p) && p.max - 3 >= p.target / 2
    ensures |FeedAll(feeds).passages| * (p.target / 2 - p.overlap) <= |Stream(feeds)|
  {
    hide Drain, Tracks, FeedAll;
    var stride := p.target / 2 - p.overlap;
    FedStrides(feeds, p, stride);
    FeedAllTracks(feeds);
    StridesInStream(FeedAll(feeds), Stream(feeds), stride);
  }

  // ------------------------------------------------------------------- the ends

  /** Sizes with which every fed cut is longer than any overlap. */
  predicate Advancing(p: Params) {
    p.Sane() && p.overlap < p.target / 2 && p.overlap < p.max - 3
  }

  ghost predicate EndsRise(ps: seq<Range>, from: int) {
    forall i | 0 <= from < i < |ps| :: ps[i - 1].end < ps[i].end
  }

  /** The last end is at most `carry` past the offset. */
  ghost predicate Carries(st: ChunkState, carry: int) {
    |st.passages| > 0 ==> st.passages[|st.passages| - 1].end <= st.offset + carry
  }

  lemma {:induction false} DrainEnds(st: ChunkState, p: Params)
    requires Advancing(p) && EndsRise(st.passages, 0) && Carries(st, p.overlap)
    ensures EndsRise(Drain(st, p, false).passages, 0) && Carries(Drain(st, p, false), p.overlap)
    decreases |st.buffer|
  {
    var cut := FindCut(st.buffer, p, false);
    if cut.Some? {
      CutFacts(st.buffer, p, false, cut.value);
      CutShape(st, p, false, cut.value);
      DrainEnds(AfterCut(st, p, false, cut.value), p);
    }
  }

  /** Fed ends strictly increase over all the bodies: no passage repeats another's
      tail. */
  lemma {:induction false} FedEndsRise(feeds: seq<Feed>, p: Params)
    requires Fixed(feeds, p) && Advancing(p)
    ensures EndsRise(FeedAll(feeds).passages, 0) && Carries(FeedAll(feeds), p.overlap)
  {
    if |feeds| > 0 {
      var before := feeds[..|feeds| - 1];
      FedEndsRise(before, p);
      var st := FeedAll(before);
      DrainEnds(st.(buffer := st.buffer + feeds[|feeds| - 1].data), p);
    }
  }

  /** A flushed cut is the whole rest, or as long as a fed one. */
  lemma FlushCut(buf: seq<byte>, p: Params, cut: int)
    requires p.Sane() && FindCut(buf, p, true) == Some(cut)
    ensures cut == |buf| || cut >= Min(p.target / 2, p.max - 3)
  {
  }

  /** The passages from `from` on have rising ends, the last of them at most the
      overlap past the offset and short of whatever is still buffered. */
  ghost predicate Rising(st: ChunkState, p: Params, from: nat) {
    && from <= |st.passages|
    && EndsRise(st.passages, from)
    && (|st.passages| > from ==>
          var last := st.passages[|st.passages| - 1].end;
          && last <= st.offset + p.overlap
          && (|st.buffer| > 0 ==> last < st.offset + |st.buffer|))
  }

  lemma FlushStep(st: ChunkState, p: Params, from: nat, cut: int)
    requires Advancing(p) && Rising(st, p, from) && FindCut(st.buffer, p, true) == Some(cut)
    ensures Rising(AfterCut(st, p, true, cut), p, from)
  {
    CutFacts(st.buffer, p, true, cut);
    CutShape(st, p, true, cut);
    FlushCut(st.buffer, p, cut);
  }

  lemma {:induction false} FlushEnds(st: ChunkState, p: Params, from: nat)
    requires Advancing(p) && Rising(st, p, from)
    ensures Rising(Drain(st, p, true), p, from)
    decreases |st.buffer|
  {
    var cut := FindCut(st.buffer, p, true);
    if cut.Some? {
      CutFacts(st.buffer, p, true, cut.value);
      FlushStep(st, p, from, cut.value);
      FlushEnds(AfterCut(st, p, true, cut.value), p, from);
    }
  }

  /** Ends rise over the feeds, and again among the passages that the flush adds. */
  lemma EndsRiseInParts(feeds: seq<Feed>, p: Params, flush: Params)
    requires Fixed(feeds, p) && Advancing(p) && Advancing(flush)
    ensures var fed, all := FeedAll(feeds).passages, Upload(feeds, flush).passages;
            fed <= all && EndsRise(fed, 0) && EndsRise(all, |fed|)
  {
    hide Drain, FeedAll;
    var st := FeedAll(feeds);
    FedEndsRise(feeds, p);
    FlushEnds(st, flush, |st.passages|);
    DrainSizes(st, flush, true);
  }

  // ------------------------------------------------------------- the choice of cut

  ghost predicate NoNewlineIn(s: seq<byte>, from: int, to: int) {
    forall i | 0 <= i && from <= i < to && i < |s| :: s[i] != NEWLINE
  }

  /** Just after the first newline at or past the target. */
  ghost predicate PastTarget(buf: seq<byte>, p: Params, cut: int) {
    && Max(1, p.target) <= cut <= Min(|buf|, p.max)
    && buf[cut - 1] == NEWLINE && NoNewlineIn(buf, p.target - 1, cut - 1)
  }

  /** Just after the last newline before the target, half the target in or more. */
  ghost predicate BeforeTarget(buf: seq<byte>, p: Params, cut: int) {
    && |buf| >= p.target && Max(1, p.target / 2) <= cut <= Min(|buf|, p.max) && cut < p.target
    && buf[cut - 1] == NEWLINE && NoNewlineIn(buf, cut, Min(|buf|, p.max))
  }

  /** No usable newline in the whole window. */
  ghost predicate LongLine(buf: seq<byte>, p: Params) {
    NoNewlineIn(buf, p.target / 2 - 1, Min(|buf|, p.max))
  }

  /** The rule in full: the four kinds of cut, each exactly when those before it do
      not apply. */
  lemma FourWayRule(buf: seq<byte>, p: Params, final: bool, cut: int)
    requires p.Sane()
    ensures FindCut(buf, p, final) == Some(cut) <==>
            || PastTarget(buf, p, cut)
            || BeforeTarget(buf, p, cut)
            || (|buf| >= Max(p.target, p.max) && LongLine(buf, p) && cut == SafeSplitPoint(buf, p.max))
            || (final && |buf| > 0 && cut == |buf| && (|buf| < p.target || (|buf| < p.max && LongLine(buf, p))))
  {
    var window := buf[..Min(|buf|, p.max)];
    forall i | 0 <= i < |window|
      ensures window[i] == buf[i]
    {
    }
  }

  // ------------------------------------------------------------- line alignment

  /** Ends just after a newline, the first at or past the target when it is longer
      than the target; or is a long line split near the maximum, with no newline
      in its second half or up to the maximum. */
  ghost predicate LineAligned(r: Range, stream: seq<byte>, p: Params) {
    && 0 <= r.start < r.end <= |stream|
    && if stream[r.end - 1] == NEWLINE
       then NoNewlineIn(stream, r.start + p.target - 1, r.end - 1)
       else && p.max - 3 <= r.Size() <= p.max
            && r.start + p.max <= |stream|
            && NoNewlineIn(stream, r.start + Max(p.target / 2 - 1, 0), r.start + p.max)
  }

  ghost predicate AllLineAligned(ps: seq<Range>, stream: seq<byte>, p: Params) {
    forall i | 0 <= i < |ps| :: LineAligned(ps[i], stream, p)
  }

  lemma CutLineAligned(buf: seq<byte>, p: Params, cut: int)
    requires p.Sane() && FindCut(buf, p, false) == Some(cut)
    ensures LineAligned(Range(0, cut), buf, p)
  {
    hide FindCut;
    CutFacts(buf, p, false, cut);
    FourWayRule(buf, p, false, cut);
  }

  lemma PassageLineAligned(stream: seq<byte>, offset: nat, buf: seq<byte>, p: Params, cut: int)
    requires offset <= |stream| && buf == stream[offset..]
    requires p.Sane() && FindCut(buf, p, false) == Some(cut)
    ensures LineAligned(Range(offset, offset + cut), stream, p)
  {
    CutLineAligned(buf, p, cut);
    ShiftAligned(stream, offset, p, cut);
  }

  lemma NextLineAligned(st: ChunkState, stream: seq<byte>, p: Params, cut: int)
    requires p.Sane() && AllLineAligned(st.passages, stream, p)
    requires FindCut(st.buffer, p, false) == Some(cut)
    requires LineAligned(Range(st.offset, st.offset + cut), stream, p)
    ensures AllLineAligned(AfterCut(st, p, false, cut).passages, stream, p)
  {
    CutShape(st, p, false, cut);
  }

  lemma AlignedAfterCut(st: ChunkState, stream: seq<byte>, p: Params, cut: int)
    requires p.Sane() && 0 <= st.offset <= |stream| && st.buffer == stream[st.offset..]
    requires AllLineAligned(st.passages, stream, p)
    requires FindCut(st.buffer, p, false) == Some(cut)
    ensures AllLineAligned(AfterCut(st, p, false, cut).passages, stream, p)
  {
    PassageLineAligned(stream, st.offset, st.buffer, p, cut);
    NextLineAligned(st, stream, p, cut);
  }

  lemma {:induction false} DrainLineAligned(st: ChunkState, stream: seq<byte>, p: Params)
    requires p.Sane() && Tracks(st, stream) && AllLineAligned(st.passages, stream, p)
    ensures AllLineAligned(Drain(st, p, false).passages, stream, p)
    decreases |st.buffer|
  {
    var cut := FindCut(st.buffer, p, false);
    if cut.Some? {
      CutFacts(st.buffer, p, false, cut.value);
      CutTracks(st, stream, p, false, cut.value);
      AlignedAfterCut(st, stream, p, cut.value);
      DrainLineAligned(AfterCut(st, p, false, cut.value), stream, p);
    }
  }

  lemma ShiftAligned(stream: seq<byte>, offset: nat, p: Params, cut: int)
    requires p.Sane() && offset <= |stream| && LineAligned(Range(0, cut), stream[offset..], p)
    ensures LineAligned(Range(offset, offset + cut), stream, p)
  {
    var buf := stream[offset..];
    forall i | offset <= i < |stream|
      ensures stream[i] == buf[i - offset]
    {
    }
  }

  lemma AlignedInLonger(ps: seq<Range>, stream: seq<byte>, more: seq<byte>, p: Params)
    requires AllLineAligned(ps, stream, p)
    ensures AllLineAligned(ps, stream + more, p)
  {
    forall i | 0 <= i < |ps|
      ensures LineAligned(ps[i], stream + more, p)
    {
      assert LineAligned(ps[i], stream, p);
    }
  }

  lemma FeedLineAligned(st: ChunkState, stream: seq<byte>, f: Feed)
    requires f.params.Sane() && Tracks(st, stream) && AllLineAligned(st.passages, stream, f.params)
    ensures AllLineAligned(FeedOne(st, f).passages, stream + f.data, f.params)
  {
    var longer := st.(buffer := st.buffer + f.data);
    LongerTracks(st, stream, f.data);
    AlignedInLonger(st.passages, stream, f.data, f.params);
    DrainLineAligned(longer, stream + f.data, f.params);
  }

  /** However the network split the stream, every passage found before the flush
      is line aligned: the end of a body alone never ends a passage. */
  lemma {:induction false} FedLineAligned(feeds: seq<Feed>, p: Params)
    requires Fixed(feeds, p)
    ensures AllLineAligned(FeedAll(feeds).passages, Stream(feeds), p)
  {
    if |feeds| > 0 {
      var before := feeds[..|feeds| - 1];
      FedLineAligned(before, p);
      FeedAllTracks(before);
      FeedLineAligned(FeedAll(before), Stream(before), feeds[|feeds| - 1]);
    }
  }
}
