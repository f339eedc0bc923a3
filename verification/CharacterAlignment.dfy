/** Passages and UTF-8 characters: where the chunker can and cannot bisect one. */
module CharacterAlignment {
  import opened Bytes
  import opened Utf8
  import opened Chunker
  import opened ChunkerLaws
  import opened PassageShape

  // ------------------------------------------------------------------- one cut

  /** `buf` is what has been fed of `text` from `at` on. */
  ghost predicate Fed(text: seq<byte>, at: nat, buf: seq<byte>) {
    at + |buf| <= |text| && forall i | 0 <= i < |buf| :: buf[i] == text[at + i]
  }

  /** Inside the buffer, split points and character boundaries agree. */
  lemma SplitIsBoundary(text: seq<byte>, at: nat, buf: seq<byte>, i: nat)
    requires Fed(text, at, buf) && 0 < i < |buf|
    ensures IsSplit(buf, i) <==> Boundary(text, at + i)
  {
  }

  lemma SafeSplitBoundary(text: seq<byte>, at: nat, buf: seq<byte>, limit: nat)
    requires Valid(text) && Fed(text, at, buf) && 4 <= limit < |buf|
    ensures Boundary(text, at + SafeSplitPoint(buf, limit))
  {
    var j := BoundaryWithinThree(text, at + limit - 3);
    SplitIsBoundary(text, at, buf, j - at);
    SplitIsBoundary(text, at, buf, SafeSplitPoint(buf, limit));
  }

  /** A cut inside the buffer never bisects a character of the text. */
  lemma InnerCutBoundary(text: seq<byte>, at: nat, buf: seq<byte>, p: Params, final: bool, cut: int)
    requires Valid(text) && Fed(text, at, buf) && p.Sane() && CutKind(buf, p, final, cut)
    requires cut < |buf|
    ensures Boundary(text, at + cut)
  {
    if buf[cut - 1] == NEWLINE {
      AfterAscii(text, at + cut - 1);
    } else if |buf| > p.max {
      SafeSplitBoundary(text, at, buf, p.max);
    }
  }

  /** A cut can bisect a character only when it takes the whole buffer. */
  lemma BisectingCutIsWhole(text: seq<byte>, at: nat, buf: seq<byte>, p: Params, final: bool, cut: int)
    requires Valid(text) && Fed(text, at, buf) && p.Sane() && FindCut(buf, p, final) == Some(cut)
    ensures Boundary(text, at + cut) <==> cut < |buf| || Boundary(text, at + |buf|)
  {
    hide FindCut, OverlapSize, Boundary, ValidFrom, IsSplit;
    CutHasKind(buf, p, final, cut);
    if cut < |buf| {
      InnerCutBoundary(text, at, buf, p, final, cut);
    }
  }

  lemma WholeWindowCut(buf: seq<byte>, p: Params, cut: int)
    requires p.Sane() && p.target <= p.max && FindCut(buf, p, false) == Some(cut)
    ensures cut == |buf| ==> buf[cut - 1] == NEWLINE || (|buf| == p.max && LongLine(buf, p))
    ensures |buf| == p.max && LongLine(buf, p) ==> cut == |buf|
  {
    FourWayRule(buf, p, false, cut);
  }

  /** A fed cut bisects a character if and only if exactly the maximum is buffered,
      without a usable newline, and ends inside that character. */
  lemma CutBisectsIff(text: seq<byte>, at: nat, buf: seq<byte>, p: Params, cut: int)
    requires Valid(text) && Fed(text, at, buf) && p.Sane() && p.target <= p.max && FindCut(buf, p, false) == Some(cut)
    ensures !Boundary(text, at + cut) <==> |buf| == p.max && LongLine(buf, p) && !Boundary(text, at + |buf|)
  {
    hide FindCut, ValidFrom, LongLine;
    CutFacts(buf, p, false, cut);
    BisectingCutIsWhole(text, at, buf, p, false, cut);
    WholeWindowCut(buf, p, cut);
    if cut == |buf| && buf[cut - 1] == NEWLINE {
      AfterAscii(text, at + cut - 1);
    }
  }

  /** At the end of the text no cut bisects one. */
  lemma FlushNeverBisects(text: seq<byte>, at: nat, buf: seq<byte>, p: Params, cut: int)
    requires Valid(text) && Fed(text, at, buf) && at + |buf| == |text| && p.Sane() && FindCut(buf, p, true) == Some(cut)
    ensures Boundary(text, at + cut)
  {
    hide FindCut, ValidFrom;
    BisectingCutIsWhole(text, at, buf, p, true, cut);
  }

  /** The next passage starts at a character even when the cut bisects one. */
  lemma OverlapBoundary(text: seq<byte>, at: nat, buf: seq<byte>, p: Params, final: bool, cut: int)
    requires Valid(text) && Fed(text, at, buf) && p.Sane() && CutKind(buf, p, final, cut)
    requires 0 <= OverlapSize(buf, p.overlap, cut) <= cut / 2
    requires final ==> Boundary(text, at + |buf|)
    ensures Boundary(text, at + cut - OverlapSize(buf, p.overlap, cut))
  {
    var o := Min(p.overlap, cut / 2);
    var q := cut - OverlapSize(buf, p.overlap, cut);
    if q < |buf| {
      if o <= 0 {
        InnerCutBoundary(text, at, buf, p, final, cut);
      } else {
        SplitIsBoundary(text, at, buf, q);
        if !IsSplit(buf, q) {
          var j := BoundaryWithinThree(text, at + cut - o);
          SplitIsBoundary(text, at, buf, j - at);
          assert false;
        }
      }
    } else if !final {
      WholeBufferCut(text, at, buf, p, cut);
    }
  }

  /** A fed cut of the whole buffer that carries nothing over ends a character:
      the last three bytes of the buffer complete a four-byte one. */
  lemma WholeBufferCut(text: seq<byte>, at: nat, buf: seq<byte>, p: Params, cut: int)
    requires Valid(text) && Fed(text, at, buf) && p.Sane() && CutKind(buf, p, false, cut)
    requires cut == |buf| && OverlapSize(buf, p.overlap, cut) == 0
    ensures Boundary(text, at + cut)
  {
    if buf[cut - 1] == NEWLINE {
      AfterAscii(text, at + cut - 1);
    } else {
      var o := Min(p.overlap, cut / 2);
      assert o >= 3;
      assert !IsSplit(buf, cut - 1) && !IsSplit(buf, cut - 2) && !IsSplit(buf, cut - 3);
      var j := BoundaryWithinThree(text, at + cut - 3);
    }
  }

  // -------------------------------------------------------------------- uploads

  /** Offsets at which a body ended. */
  function BodyEnds(feeds: seq<Feed>): set<int> {
    if |feeds| == 0 then {} else BodyEnds(feeds[..|feeds| - 1]) + {|Stream(feeds)|}
  }

  /** Every start is a character boundary, and every end is one or is among `ends`. */
  ghost predicate Aligned(ps: seq<Range>, text: seq<byte>, ends: set<int>) {
    && (forall i | 0 <= i < |ps| :: Boundary(text, ps[i].start))
    && (forall i | 0 <= i < |ps| :: Boundary(text, ps[i].end) || ps[i].end in ends)
  }

  lemma AlignedExtend(ps: seq<Range>, r: Range, text: seq<byte>, ends: set<int>)
    requires Aligned(ps, text, ends) && Boundary(text, r.start)
    requires Boundary(text, r.end) || r.end in ends
    ensures Aligned(ps + [r], text, ends)
  {
  }

  /** The buffer is what has been fed of the text from the offset on, and the
      offset is between characters. */
  ghost predicate Ahead(st: ChunkState, text: seq<byte>, fed: nat) {
    && 0 <= st.offset && st.offset + |st.buffer| == fed
    && Fed(text, st.offset, st.buffer)
    && Boundary(text, st.offset)
  }

  lemma CutAligned(st: ChunkState, text: seq<byte>, fed: nat, p: Params, final: bool, cut: int, ends: set<int>)
    requires Valid(text) && Ahead(st, text, fed) && p.Sane()
    requires Boundary(text, fed) || fed in ends
    requires Aligned(st.passages, text, ends) && FindCut(st.buffer, p, final) == Some(cut)
    ensures Aligned(AfterCut(st, p, final, cut).passages, text, ends)
  {
    hide FindCut, OverlapSize, SafeSplitPoint, AfterCut, ValidFrom, CharAt, Boundary;
    CutShape(st, p, final, cut);
    CutHasKind(st.buffer, p, final, cut);
    if cut < |st.buffer| {
      InnerCutBoundary(text, st.offset, st.buffer, p, final, cut);
    }
    AlignedExtend(st.passages, Range(st.offset, st.offset + cut), text, ends);
  }

  lemma NextAhead(st: ChunkState, text: seq<byte>, fed: nat, p: Params, final: bool, cut: int)
    requires Valid(text) && Ahead(st, text, fed) && p.Sane()
    requires final ==> Boundary(text, fed)
    requires FindCut(st.buffer, p, final) == Some(cut)
    ensures Ahead(AfterCut(st, p, final, cut), text, fed)
  {
    hide FindCut, OverlapSize, SafeSplitPoint, AfterCut, ValidFrom, CharAt, Boundary;
    CutShape(st, p, final, cut);
    CutHasKind(st.buffer, p, final, cut);
    OverlapBoundary(text, st.offset, st.buffer, p, final, cut);
  }

  lemma {:induction false} DrainAligned(st: ChunkState, text: seq<byte>, fed: nat, p: Params, final: bool, ends: set<int>)
    requires Valid(text) && Ahead(st, text, fed) && p.Sane()
    requires final ==> Boundary(text, fed)
    requires Boundary(text, fed) || fed in ends
    requires Aligned(st.passages, text, ends)
    ensures Aligned(Drain(st, p, final).passages, text, ends) && Ahead(Drain(st, p, final), text, fed)
    decreases |st.buffer|
  {
    var cut := FindCut(st.buffer, p, final);
    if cut.Some? {
      CutAligned(st, text, fed, p, final, cut.value, ends);
      NextAhead(st, text, fed, p, final, cut.value);
      CutFacts(st.buffer, p, final, cut.value);
      DrainAligned(AfterCut(st, p, final, cut.value), text, fed, p, final, ends);
    }
  }

  lemma FeedAligned(st: ChunkState, text: seq<byte>, stream: seq<byte>, f: Feed, ends: set<int>)
    requires Valid(text) && f.params.Sane() && stream + f.data <= text && Ahead(st, text, |stream|)
    requires Aligned(st.passages, text, ends) && |stream + f.data| in ends
    ensures Aligned(FeedOne(st, f).passages, text, ends) && Ahead(FeedOne(st, f), text, |stream + f.data|)
  {
    var longer := st.(buffer := st.buffer + f.data);
    var fed := |stream + f.data|;
    assert forall i | 0 <= i < |f.data| :: f.data[i] == (stream + f.data)[|stream| + i];
    DrainAligned(longer, text, fed, f.params, false, ends);
  }

  lemma BodyEndsGrow(ps: seq<Range>, text: seq<byte>, ends: set<int>, more: set<int>)
    requires Aligned(ps, text, ends) && ends <= more
    ensures Aligned(ps, text, more)
  {
  }

  lemma {:induction false} FedAligned(feeds: seq<Feed>, text: seq<byte>)
    requires AllSane(feeds) && Valid(text) && Stream(feeds) <= text
    ensures Aligned(FeedAll(feeds).passages, text, BodyEnds(feeds))
    ensures Ahead(FeedAll(feeds), text, |Stream(feeds)|)
  {
    if |feeds| > 0 {
      var before := feeds[..|feeds| - 1];
      assert Stream(before) <= Stream(feeds);
      FedAligned(before, text);
      BodyEndsGrow(FeedAll(before).passages, text, BodyEnds(before), BodyEnds(feeds));
      FeedAligned(FeedAll(before), text, Stream(before), feeds[|feeds| - 1], BodyEnds(feeds));
    } else {
      ValidIsBoundary(text, 0);
    }
  }

  /** For well-formed text split anywhere, mid-character or not: every passage
      starts at a character, and one can only end inside a character where a body
      did. */
  lemma UploadAligned(feeds: seq<Feed>, flush: Params)
    requires AllSane(feeds) && flush.Sane() && Valid(Stream(feeds))
    ensures Aligned(Upload(feeds, flush).passages, Stream(feeds), BodyEnds(feeds))
  {
    var text := Stream(feeds);
    FedAligned(feeds, text);
    DrainAligned(FeedAll(feeds), text, |text|, flush, true, BodyEnds(feeds));
  }

  /** When bodies end between characters, every passage decodes without loss. */
  lemma UploadDecodes(feeds: seq<Feed>, flush: Params)
    requires AllSane(feeds) && flush.Sane() && Valid(Stream(feeds))
    requires forall e | e in BodyEnds(feeds) :: Boundary(Stream(feeds), e)
    ensures var ps := Upload(feeds, flush).passages;
            forall i | 0 <= i < |ps| ::
              && 0 <= ps[i].start <= ps[i].end <= |Stream(feeds)|
              && Valid(Stream(feeds)[ps[i].start..ps[i].end])
  {
    var ps := Upload(feeds, flush).passages;
    UploadAligned(feeds, flush);
    UploadTiles(feeds, flush);
    forall i | 0 <= i < |ps|
      ensures && 0 <= ps[i].start <= ps[i].end <= |Stream(feeds)|
              && Valid(Stream(feeds)[ps[i].start..ps[i].end])
    {
      BetweenBoundaries(Stream(feeds), ps[i].start, ps[i].end);
    }
  }

  /** A line of exactly the default maximum that ends inside a character. */
  function FullWindow(): seq<byte> {
    seq(2047, _ => 65) + [0xC3]
  }

  /** The exception is real, at the sizes of small files: a first body of 2048 bytes
      without a newline is cut after the first byte of its last character. */
  lemma BodyEndCanBisect()
    ensures Valid(FullWindow() + [0xA9])
    ensures FindCut(FullWindow(), DEFAULT_PARAMS, false) == Some(2048)
    ensures !Boundary(FullWindow() + [0xA9], 2048)
  {
    var text := FullWindow() + [0xA9];
    assert CharAt(text, 2047) == 2;
    AsciiThenValid(text, 0, 2047);
    FourWayRule(FullWindow(), DEFAULT_PARAMS, false, 2048);
  }
}
