/** Feeds use the sizes chosen for a file, its flush the default ones: exactly when the
    first flushed passage can end before the last fed one. */
module EndsAtFlush {
  import opened Bytes
  import opened Chunker
  import opened ChunkerLaws
  import opened PassageShape
  import opened BodySplits
  import Config

  /** The first flushed passage, if any, does not end before the last fed one. */
  ghost predicate NotBack(feeds: seq<Feed>, flush: Params)
    requires AllSane(feeds) && flush.Sane()
  {
    var fed, all := FeedAll(feeds).passages, Upload(feeds, flush).passages;
    0 < |fed| < |all| ==> fed[|fed| - 1].end <= all[|fed|].end
  }

  /** So it is for all bodies fed with the sizes `p`. */
  ghost predicate KeepsEnds(p: Params, flush: Params)
    requires flush.Sane()
  {
    forall feeds | Fixed(feeds, p) :: NotBack(feeds, flush)
  }

  /** The flush adds one passage for each cut, the first at its first cut. */
  lemma FirstFlushed(feeds: seq<Feed>, flush: Params)
    requires AllSane(feeds) && flush.Sane()
    ensures var st, all := FeedAll(feeds), Upload(feeds, flush).passages;
            var cut := FindCut(st.buffer, flush, true);
            && st.passages <= all
            && (cut.None? ==> all == st.passages)
            && (cut.Some? ==> st.passages + [Range(st.offset, st.offset + cut.value)] <= all)
  {
    hide FindCut, OverlapSize, AfterCut, FeedAll;
    var st := FeedAll(feeds);
    var cut := FindCut(st.buffer, flush, true);
    if cut.Some? {
      CutShape(st, flush, true, cut.value);
      DrainAfterCut(st, flush, true, cut.value);
      DrainSizes(AfterCut(st, flush, true, cut.value), flush, true);
    }
  }

  // ----------------------------------------------------------------- it suffices

  /** When the first bytes are one piece of a line or end with a newline, a flush whose
      target is no shorter than them does not cut inside them. */
  lemma CutReaches(buf: seq<byte>, covered: nat, flush: Params, cut: int)
    requires flush.Sane() && covered <= |buf| && covered <= flush.target <= flush.max - 3
    requires FindCut(buf, flush, true) == Some(cut)
    requires covered > 0 ==> buf[covered - 1] == NEWLINE || NoNewlineIn(buf, 0, covered)
    ensures covered <= cut
  {
    FourWayRule(buf, flush, true, cut);
  }

  /** What is carried over of an aligned passage is such a piece. */
  lemma CarriedPiece(r: Range, stream: seq<byte>, p: Params, offset: nat)
    requires p.Sane() && LineAligned(r, stream, p) && p.max - 3 - p.overlap >= p.target / 2
    requires r.end - p.overlap <= offset <= r.end
    ensures var buf, covered := stream[offset..], r.end - offset;
            covered > 0 ==> buf[covered - 1] == NEWLINE || NoNewlineIn(buf, 0, covered)
  {
    var buf, covered := stream[offset..], r.end - offset;
    assert forall i | 0 <= i < |buf| :: buf[i] == stream[offset + i];
    if stream[r.end - 1] != NEWLINE {
      assert r.start + p.target / 2 <= offset;
    }
  }

  lemma EndsAreKept(feeds: seq<Feed>, p: Params, flush: Params)
    requires Fixed(feeds, p) && Advancing(p) && p.max - 3 - p.overlap >= p.target / 2
    requires flush.Sane() && p.overlap <= flush.target <= flush.max - 3
    ensures NotBack(feeds, flush)
  {
    hide FindCut, OverlapSize, AfterCut, Drain, FeedAll;
    var st := FeedAll(feeds);
    var cut := FindCut(st.buffer, flush, true);
    FirstFlushed(feeds, flush);
    if |st.passages| > 0 && cut.Some? {
      var last := st.passages[|st.passages| - 1];
      FeedAllTracks(feeds);
      FedEndsRise(feeds, p);
      FedLineAligned(feeds, p);
      CarriedPiece(last, Stream(feeds), p, st.offset);
      CutReaches(st.buffer, last.end - st.offset, flush, cut.value);
    }
  }

  /** Ends rise over the feeds and again inside the flush; and for these sizes none
      goes back in between, so that only the first flushed passage may repeat the last
      fed end. */
  lemma UploadEndsRise(feeds: seq<Feed>, p: Params, flush: Params)
    requires Fixed(feeds, p) && Advancing(p) && Advancing(flush)
    ensures var fed, all := FeedAll(feeds).passages, Upload(feeds, flush).passages;
            fed <= all && EndsRise(fed, 0) && EndsRise(all, |fed|)
    ensures || (p.overlap <= flush.target / 2 && p.overlap <= flush.max - 3)
            || (p.overlap <= flush.target <= flush.max - 3 && p.max - 3 - p.overlap >= p.target / 2)
            ==> NotBack(feeds, flush)
  {
    hide FindCut, OverlapSize, AfterCut, Drain, FeedAll;
    EndsRiseInParts(feeds, p, flush);
    if p.overlap <= flush.target <= flush.max - 3 && p.max - 3 - p.overlap >= p.target / 2 {
      EndsAreKept(feeds, p, flush);
    } else if p.overlap <= flush.target / 2 && p.overlap <= flush.max - 3 {
      LongCutsKeepEnds(feeds, p, flush);
    }
  }

  lemma LongCutsKeepEnds(feeds: seq<Feed>, p: Params, flush: Params)
    requires Fixed(feeds, p) && Advancing(p) && flush.Sane()
    requires p.overlap <= flush.target / 2 && p.overlap <= flush.max - 3
    ensures NotBack(feeds, flush)
  {
    hide FindCut, OverlapSize, AfterCut, Drain, FeedAll;
    var st := FeedAll(feeds);
    var cut := FindCut(st.buffer, flush, true);
    FirstFlushed(feeds, flush);
    FedEndsRise(feeds, p);
    FeedAllTracks(feeds);
    if cut.Some? {
      FlushCut(st.buffer, flush, cut.value);
    }
  }

  // -------------------------------------------------------------- and is necessary

  /** One body: a long line that ends with the target, and in it a newline that the
      overlap reaches back to and the flush finds first. */
  function Regress(p: Params, flush: Params): seq<byte> {
    seq(p.target, i => if i == p.target - p.overlap + flush.target - 1 || i == p.target - 1 then NEWLINE else 65)
  }

  lemma RegressCut(p: Params, flush: Params, buf: seq<byte>)
    requires p.Sane() && flush.Sane() && buf == Regress(p, flush)
    requires flush.target < p.overlap < p.target / 2 && p.target <= p.max
    ensures FindCut(buf, p, false) == Some(p.target) && OverlapSize(buf, p.overlap, p.target) == p.overlap
  {
    FourWayRule(buf, p, false, p.target);
    assert IsSplit(buf, p.target - p.overlap);
  }

  lemma RegressFed(p: Params, flush: Params, buf: seq<byte>)
    requires p.Sane() && flush.Sane() && buf == Regress(p, flush)
    requires flush.target < p.overlap < p.target / 2 && p.target <= p.max
    ensures FeedAll([Feed(buf, p)]) == ChunkState([Range(0, p.target)], p.target - p.overlap, buf[p.target - p.overlap..])
  {
    hide FindCut, OverlapSize, AfterCut, Drain, FeedAll;
    var start := ChunkState([], 0, buf);
    var from := p.target - p.overlap;
    RegressCut(p, flush, buf);
    AfterCutIs(start, p, p.target, p.overlap);
    DrainAfterCut(start, p, false, p.target);
    TooShort(ChunkState([Range(0, p.target)], from, buf[from..]), p);
    OneBody(buf, p);
    assert [] + [Range(0, p.target)] == [Range(0, p.target)];
  }

  lemma TooShort(st: ChunkState, p: Params)
    requires p.Sane() && |st.buffer| < p.target
    ensures Drain(st, p, false) == st
  {
  }

  lemma RegressFlushed(p: Params, flush: Params, tail: seq<byte>)
    requires p.Sane() && flush.Sane() && flush.target < p.overlap < p.target / 2 && flush.target <= flush.max
    requires tail == Regress(p, flush)[p.target - p.overlap..]
    ensures FindCut(tail, flush, true) == Some(flush.target)
  {
    FourWayRule(tail, flush, true, flush.target);
  }

  /** An overlap longer than the target of the flush lets an end go back. */
  lemma EndGoesBack(p: Params, flush: Params)
    requires p.Sane() && flush.Sane() && p.target <= p.max && flush.target <= flush.max
    requires flush.target < p.overlap < p.target / 2
    ensures !NotBack([Feed(Regress(p, flush), p)], flush)
  {
    hide FindCut, OverlapSize, AfterCut, Drain, FeedAll;
    var buf := Regress(p, flush);
    var feeds := [Feed(buf, p)];
    RegressFed(p, flush, buf);
    RegressFlushed(p, flush, buf[p.target - p.overlap..]);
    FirstFlushed(feeds, flush);
  }

  // ----------------------------------------------------------------- both directions

  /** For sizes whose maximum leaves room for the overlap: no end ever goes back at the
      flush if and only if the overlap is at most the target of the flush. */
  lemma KeepsEndsIff(p: Params, flush: Params)
    requires Advancing(p) && p.target <= p.max && p.max - 3 - p.overlap >= p.target / 2
    requires flush.Sane() && flush.target <= flush.max - 3
    ensures KeepsEnds(p, flush) <==> p.overlap <= flush.target
  {
    if p.overlap <= flush.target {
      forall feeds | Fixed(feeds, p)
        ensures NotBack(feeds, flush)
      {
        EndsAreKept(feeds, p, flush);
      }
    } else {
      EndGoesBack(p, flush);
      assert Fixed([Feed(Regress(p, flush), p)], p);
    }
  }

  /** Of the service: whatever the bodies, no end goes back when a file is completed if
      and only if the overlap chosen for its declared size is at most the default
      target; that is for declared sizes below about 6.7 GB. */
  lemma CompletionKeepsEndsIff(totalSize: nat)
    ensures KeepsEnds(Config.PassageSizeFor(totalSize), DEFAULT_PARAMS)
            <==> Config.PassageSizeFor(totalSize).overlap <= DEFAULT_PARAMS.target
    ensures Config.PassageSizeFor(totalSize).overlap <= DEFAULT_PARAMS.target
            <==> totalSize * Config.EMBEDDING_DIM * 5 < 3005 * 4 * Config.INDEX_MEMORY_BUDGET_BYTES
  {
    Config.SizesAreSafe(totalSize);
    Config.OverlapThreshold(totalSize);
    KeepsEndsIff(Config.PassageSizeFor(totalSize), DEFAULT_PARAMS);
  }

  /** The largest accepted files are beyond: their overlap is 960 bytes, and this one
      body is covered anew from its end backwards. */
  lemma FinerFlushGoesBack()
    ensures Config.PassageSizeFor(Config.MAX_FILE_BYTES) == Params(4800, 14400, 960)
    ensures var p := Config.PassageSizeFor(Config.MAX_FILE_BYTES);
            !NotBack([Feed(Regress(p, DEFAULT_PARAMS), p)], DEFAULT_PARAMS)
  {
    hide Config.PassageSizeFor, NotBack, Regress;
    Config.LargestSizes();
    EndGoesBack(Params(4800, 14400, 960), DEFAULT_PARAMS);
  }
}
