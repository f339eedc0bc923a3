/** When it matters how the network split the bytes: exactly which cuts depend on
    what follows, and which bodies make all of them independent. */
module BodySplits {
  import opened Bytes
  import opened Chunker
  import opened ChunkerLaws
  import opened PassageShape
  import Config

  // -------------------------------------------------------------------- one cut

  /** The cut of a buffer does not depend on the bytes that follow it: more than the
      window is there, a newline past the target is, or the window is full and has a
      usable newline or ends inside a character. */
  ghost predicate Settled(buf: seq<byte>, p: Params) {
    || |buf| > p.max
    || !NoNewlineIn(buf, p.target - 1, Min(|buf|, p.max))
    || (|buf| == p.max && (!LongLine(buf, p) || EndsInside(buf)))
  }

  /** The last three bytes all continue a character. */
  predicate EndsInside(buf: seq<byte>) {
    var n := |buf|;
    n >= 3 && IsContinuation(buf[n - 1]) && IsContinuation(buf[n - 2]) && IsContinuation(buf[n - 3])
  }

  lemma SameSplit(buf: seq<byte>, more: seq<byte>, limit: nat)
    requires limit >= 4 && (|buf| > limit || (|buf| == limit && EndsInside(buf)))
    ensures SafeSplitPoint(buf + more, limit) == SafeSplitPoint(buf, limit)
  {
  }

  lemma SameNewlines(buf: seq<byte>, more: seq<byte>, from: int, to: int)
    requires to <= |buf|
    ensures NoNewlineIn(buf + more, from, to) <==> NoNewlineIn(buf, from, to)
  {
    assert forall i | 0 <= i < |buf| :: (buf + more)[i] == buf[i];
  }

  lemma PastTargetStays(buf: seq<byte>, p: Params, cut: int, more: seq<byte>)
    requires PastTarget(buf, p, cut)
    ensures PastTarget(buf + more, p, cut)
  {
    SameNewlines(buf, more, p.target - 1, cut - 1);
  }

  /** When the whole window is there, what follows does not belong to it. */
  lemma FullWindowStays(buf: seq<byte>, p: Params, cut: int, more: seq<byte>)
    requires p.Sane() && p.target <= p.max <= |buf|
    ensures BeforeTarget(buf, p, cut) ==> BeforeTarget(buf + more, p, cut)
    ensures LongLine(buf, p) ==> LongLine(buf + more, p)
  {
    SameNewlines(buf, more, cut, p.max);
    SameNewlines(buf, more, p.target / 2 - 1, p.max);
  }

  lemma SettledStays(buf: seq<byte>, p: Params, cut: int, more: seq<byte>)
    requires p.Sane() && p.target <= p.max && Settled(buf, p) && FindCut(buf, p, false) == Some(cut)
    ensures FindCut(buf + more, p, false) == Some(cut)
  {
    FourWayRule(buf, p, false, cut);
    FourWayRule(buf + more, p, false, cut);
    if PastTarget(buf, p, cut) {
      PastTargetStays(buf, p, cut, more);
    } else {
      assert |buf| >= p.max;
      FullWindowStays(buf, p, cut, more);
      if LongLine(buf, p) {
        SameSplit(buf, more, p.max);
      }
    }
  }

  /** A byte that changes the cut: a newline right behind a buffer that was cut
      before its target, a continuation byte behind a window that was filled exactly. */
  lemma UnsettledMoves(buf: seq<byte>, p: Params, cut: int) returns (more: seq<byte>)
    requires p.Sane() && p.target <= p.max && !Settled(buf, p) && FindCut(buf, p, false) == Some(cut)
    ensures FindCut(buf + more, p, false) != Some(cut)
  {
    FourWayRule(buf, p, false, cut);
    more := if |buf| < p.max then [NEWLINE] else [0x80];
    FourWayRule(buf + more, p, false, cut);
    assert (buf + more)[|buf|] == more[0];
  }

  /** A cut is the same whatever follows if and only if the buffer is settled. */
  lemma CutIsFinalIff(buf: seq<byte>, p: Params)
    requires p.Sane() && p.target <= p.max && FindCut(buf, p, false).Some?
    ensures (forall more :: FindCut(buf + more, p, false) == FindCut(buf, p, false)) <==> Settled(buf, p)
  {
    var cut := FindCut(buf, p, false).value;
    if Settled(buf, p) {
      forall more
        ensures FindCut(buf + more, p, false) == Some(cut)
      {
        SettledStays(buf, p, cut, more);
      }
    } else {
      var more := UnsettledMoves(buf, p, cut);
    }
  }

  // ------------------------------------------------------------ the carried overlap

  /** Where the overlap of a cut begins does not depend on the bytes that follow: there is
      none, all four places it may begin at are in the buffer, or a character begins at
      one that is. */
  predicate OverlapSettled(buf: seq<byte>, limit: nat, cut: int) {
    var o := Min(limit, cut / 2);
    || o <= 0
    || cut - o + 3 < |buf|
    || exists q | Max(cut - o, 0) <= q < |buf| :: !IsContinuation(buf[q])
  }

  lemma OverlapStays(buf: seq<byte>, more: seq<byte>, limit: nat, cut: int)
    requires 1 <= cut <= |buf| && OverlapSettled(buf, limit, cut)
    ensures OverlapSize(buf + more, limit, cut) == OverlapSize(buf, limit, cut)
  {
    assert forall i | 0 <= i < |buf| :: (buf + more)[i] == buf[i];
    var o := Min(limit, cut / 2);
    if o > 0 && cut - o + 3 >= |buf| {
      var q :| Max(cut - o, 0) <= q < |buf| && !IsContinuation(buf[q]);
      assert IsSplit(buf, q) && IsSplit(buf + more, q);
    }
  }

  /** One more continuation byte moves an overlap that is not settled. */
  lemma OverlapMoves(buf: seq<byte>, limit: nat, cut: int)
    requires 1 <= cut <= |buf| && !OverlapSettled(buf, limit, cut)
    ensures OverlapSize(buf + [0x80], limit, cut) != OverlapSize(buf, limit, cut)
  {
    var more: seq<byte> := [0x80];
    assert forall i | 0 <= i < |buf| :: (buf + more)[i] == buf[i];
    assert (buf + more)[|buf|] == 0x80;
    var o := Min(limit, cut / 2);
    assert IsSplit(buf, |buf|) && !IsSplit(buf + more, |buf|);
    forall q | cut - o <= q < |buf|
      ensures !IsSplit(buf, q) && !IsSplit(buf + more, q)
    {
      assert IsContinuation(buf[q]);
    }
  }

  // ---------------------------------------------------------------------- one body

  /** No cut of a drain, and no overlap that is carried over, depends on what follows. */
  ghost predicate SettledDrain(st: ChunkState, p: Params)
    requires p.Sane()
    decreases |st.buffer|
  {
    match FindCut(st.buffer, p, false)
    case None => true
    case Some(cut) =>
      CutFacts(st.buffer, p, false, cut);
      && Settled(st.buffer, p) && OverlapSettled(st.buffer, p.overlap, cut)
      && SettledDrain(AfterCut(st, p, false, cut), p)
  }

  /** What a cut leaves, from the overlap it carries over. */
  lemma AfterCutIs(st: ChunkState, p: Params, cut: int, overlap: int)
    requires p.Sane() && FindCut(st.buffer, p, false) == Some(cut) && overlap == OverlapSize(st.buffer, p.overlap, cut)
    ensures 0 <= overlap < cut <= |st.buffer|
    ensures AfterCut(st, p, false, cut)
         == ChunkState(st.passages + [Range(st.offset, st.offset + cut)], st.offset + cut - overlap, st.buffer[cut - overlap..])
  {
    hide FindCut, OverlapSize, SafeSplitPoint;
    CutFacts(st.buffer, p, false, cut);
  }

  lemma RestOf(buf: seq<byte>, more: seq<byte>, from: nat)
    requires from <= |buf|
    ensures (buf + more)[from..] == buf[from..] + more
  {
  }

  /** A settled cut commutes with appending. */
  lemma SettledCut(st: ChunkState, more: seq<byte>, p: Params, cut: int)
    requires p.Sane() && p.target <= p.max && FindCut(st.buffer, p, false) == Some(cut)
    requires Settled(st.buffer, p) && OverlapSettled(st.buffer, p.overlap, cut)
    ensures FindCut(st.buffer + more, p, false) == Some(cut)
    ensures var next := AfterCut(st, p, false, cut);
            AfterCut(st.(buffer := st.buffer + more), p, false, cut) == next.(buffer := next.buffer + more)
  {
    hide FindCut, OverlapSize, SafeSplitPoint, AfterCut, OverlapSettled;
    SettledStays(st.buffer, p, cut, more);
    var overlap := OverlapSize(st.buffer, p.overlap, cut);
    AfterCutIs(st, p, cut, overlap);
    OverlapStays(st.buffer, more, p.overlap, cut);
    AfterCutIs(st.(buffer := st.buffer + more), p, cut, overlap);
    RestOf(st.buffer, more, cut - overlap);
  }

  /** Draining, and then draining with what follows. */
  function InTwo(st: ChunkState, more: seq<byte>, p: Params): ChunkState
    requires p.Sane()
  {
    var half := Drain(st, p, false);
    Drain(half.(buffer := half.buffer + more), p, false)
  }

  /** Draining a settled buffer and then what follows it is draining all at once. */
  lemma {:induction false} DrainInTwo(st: ChunkState, more: seq<byte>, p: Params)
    requires p.Sane() && p.target <= p.max && SettledDrain(st, p)
    ensures InTwo(st, more, p) == Drain(st.(buffer := st.buffer + more), p, false)
    decreases |st.buffer|
  {
    var cut := FindCut(st.buffer, p, false);
    if cut.Some? {
      CutFacts(st.buffer, p, false, cut.value);
      SettledCut(st, more, p, cut.value);
      DrainInTwo(AfterCut(st, p, false, cut.value), more, p);
    }
  }

  /** What a drain leaves tells the end of its first passage, and where it went on. */
  lemma FirstOfDrain(st: ChunkState, p: Params, more: seq<byte>)
    requires p.Sane()
    ensures var n := |st.passages|;
            var cut := FindCut(st.buffer, p, false);
            var res := InTwo(st, more, p);
            && st.passages <= Drain(st, p, false).passages <= res.passages
            && (cut.Some? ==> |Drain(st, p, false).passages| > n && Drain(st, p, false).passages[n] == Range(st.offset, st.offset + cut.value))
            && (cut.None? ==> Drain(st, p, false) == st)
  {
    hide FindCut, OverlapSize, AfterCut;
    var cut := FindCut(st.buffer, p, false);
    var half := Drain(st, p, false);
    DrainSizes(st, p, false);
    DrainSizes(half.(buffer := half.buffer + more), p, false);
    if cut.Some? {
      CutShape(st, p, false, cut.value);
      DrainAfterCut(st, p, false, cut.value);
      DrainSizes(AfterCut(st, p, false, cut.value), p, false);
    }
  }

  /** The start of passage `n`, or of the buffer if there is none. */
  function StartOf(st: ChunkState, n: nat): int {
    if n < |st.passages| then st.passages[n].start else st.offset
  }

  lemma StartIsKept(st: ChunkState, p: Params, more: seq<byte>)
    requires p.Sane()
    ensures StartOf(Drain(st, p, false), |st.passages|) == st.offset
    ensures StartOf(InTwo(st, more, p), |st.passages|) == st.offset
  {
    hide FindCut, OverlapSize, AfterCut, Drain;
    var half := Drain(st, p, false);
    FirstOfDrain(st, p, more);
    FirstOfDrain(half.(buffer := half.buffer + more), p, []);
  }

  /** A cut that is not settled can be told from what is left. */
  lemma UnsettledCut(st: ChunkState, p: Params, cut: int) returns (more: seq<byte>)
    requires p.Sane() && p.target <= p.max && FindCut(st.buffer, p, false) == Some(cut) && !Settled(st.buffer, p)
    ensures InTwo(st, more, p) != Drain(st.(buffer := st.buffer + more), p, false)
  {
    hide FindCut, OverlapSize, AfterCut, Drain, Settled;
    more := UnsettledMoves(st.buffer, p, cut);
    var longer := st.(buffer := st.buffer + more);
    FirstOfDrain(st, p, more);
    FirstOfDrain(longer, p, []);
  }

  /** And so can an overlap that is not. */
  lemma UnsettledOverlap(st: ChunkState, p: Params, cut: int)
    requires p.Sane() && p.target <= p.max && FindCut(st.buffer, p, false) == Some(cut)
    requires Settled(st.buffer, p) && !OverlapSettled(st.buffer, p.overlap, cut)
    ensures InTwo(st, [0x80], p) != Drain(st.(buffer := st.buffer + [0x80]), p, false)
  {
    hide FindCut, OverlapSize, AfterCut, Drain, Settled, OverlapSettled, InTwo;
    var longer := st.(buffer := st.buffer + [0x80]);
    SettledStays(st.buffer, p, cut, [0x80]);
    AfterCutIs(st, p, cut, OverlapSize(st.buffer, p.overlap, cut));
    AfterCutIs(longer, p, cut, OverlapSize(longer.buffer, p.overlap, cut));
    OverlapMoves(st.buffer, p.overlap, cut);
    DrainAfterCut(st, p, false, cut);
    DrainAfterCut(longer, p, false, cut);
    InTwoAfterCut(st, [0x80], p, cut);
    StartIsKept(AfterCut(st, p, false, cut), p, [0x80]);
    StartIsKept(AfterCut(longer, p, false, cut), p, []);
  }

  lemma InTwoAfterCut(st: ChunkState, more: seq<byte>, p: Params, cut: int)
    requires p.Sane() && FindCut(st.buffer, p, false) == Some(cut)
    ensures InTwo(st, more, p) == InTwo(AfterCut(st, p, false, cut), more, p)
  {
    hide FindCut, OverlapSize, AfterCut;
    DrainAfterCut(st, p, false, cut);
  }

  lemma {:induction false} UnsettledDrain(st: ChunkState, p: Params) returns (more: seq<byte>)
    requires p.Sane() && p.target <= p.max && !SettledDrain(st, p)
    ensures InTwo(st, more, p) != Drain(st.(buffer := st.buffer + more), p, false)
    decreases |st.buffer|
  {
    hide InTwo, Settled, OverlapSettled;
    var cut := FindCut(st.buffer, p, false).value;
    CutFacts(st.buffer, p, false, cut);
    if !Settled(st.buffer, p) {
      more := UnsettledCut(st, p, cut);
    } else if !OverlapSettled(st.buffer, p.overlap, cut) {
      more := [0x80];
      UnsettledOverlap(st, p, cut);
    } else {
      more := UnsettledDrain(AfterCut(st, p, false, cut), p);
      SettledCut(st, more, p, cut);
      InTwoAfterCut(st, more, p, cut);
      DrainAfterCut(st.(buffer := st.buffer + more), p, false, cut);
    }
  }

  /** All the bytes at once. */
  function AtOnce(stream: seq<byte>, p: Params): ChunkState
    requires p.Sane()
  {
    Drain(ChunkState([], 0, stream), p, false)
  }

  lemma TwoFeeds(first: seq<byte>, more: seq<byte>, p: Params)
    requires p.Sane()
    ensures FeedAll([Feed(first, p), Feed(more, p)]) == InTwo(ChunkState([], 0, first), more, p)
  {
    hide Drain;
    var feeds := [Feed(first, p), Feed(more, p)];
    assert feeds[..1] == [Feed(first, p)];
    OneBody(first, p);
  }

  lemma OneBody(first: seq<byte>, p: Params)
    requires p.Sane()
    ensures FeedAll([Feed(first, p)]) == AtOnce(first, p)
  {
    hide Drain;
    assert [Feed(first, p)][..0] == [] && [] + first == first;
  }

  /** A first body leaves the passages and the tail independent of where it ended, for
      every continuation, if and only if none of its cuts and overlaps depends on what
      follows; that can be told from the body alone. */
  lemma FirstBodyIff(first: seq<byte>, p: Params)
    requires p.Sane() && p.target <= p.max
    ensures (forall more :: FeedAll([Feed(first, p), Feed(more, p)]) == AtOnce(first + more, p))
            <==> SettledDrain(ChunkState([], 0, first), p)
  {
    hide InTwo, SettledDrain, Drain, FeedAll;
    var st := ChunkState([], 0, first);
    if SettledDrain(st, p) {
      forall more
        ensures FeedAll([Feed(first, p), Feed(more, p)]) == AtOnce(first + more, p)
      {
        TwoFeeds(first, more, p);
        DrainInTwo(st, more, p);
      }
    } else {
      var more := UnsettledDrain(st, p);
      TwoFeeds(first, more, p);
    }
  }

  // ------------------------------------------------------------------ whole lines

  /** Nothing, or bytes that end with a newline. */
  predicate WholeLines(s: seq<byte>) {
    |s| > 0 ==> s[|s| - 1] == NEWLINE
  }

  /** Whole lines are cut to the end or behind their target, and the overlap begins at or
      before the last newline: neither depends on what follows. */
  lemma LinesAreSettled(buf: seq<byte>, p: Params)
    requires p.Sane() && p.target <= p.max && WholeLines(buf) && FindCut(buf, p, false).Some?
    ensures Settled(buf, p) && OverlapSettled(buf, p.overlap, FindCut(buf, p, false).value)
  {
    var cut := FindCut(buf, p, false).value;
    CutFacts(buf, p, false, cut);
    FourWayRule(buf, p, false, cut);
    assert !IsContinuation(buf[|buf| - 1]);
  }

  lemma {:induction false} LinesSettle(st: ChunkState, p: Params)
    requires p.Sane() && p.target <= p.max && WholeLines(st.buffer)
    ensures SettledDrain(st, p)
    decreases |st.buffer|
  {
    hide OverlapSettled, Settled, OverlapSize, SafeSplitPoint;
    var cut := FindCut(st.buffer, p, false);
    if cut.Some? {
      CutFacts(st.buffer, p, false, cut.value);
      LinesAreSettled(st.buffer, p);
      CutShape(st, p, false, cut.value);
      LinesSettle(AfterCut(st, p, false, cut.value), p);
    }
  }

  /** Every body but the last is empty or ends with a newline. */
  ghost predicate LineBodies(feeds: seq<Feed>) {
    forall i | 0 <= i < |feeds| - 1 :: WholeLines(feeds[i].data)
  }

  lemma {:induction false} StreamOfLines(feeds: seq<Feed>)
    requires forall i | 0 <= i < |feeds| :: WholeLines(feeds[i].data)
    ensures WholeLines(Stream(feeds))
  {
    if |feeds| > 0 {
      StreamOfLines(feeds[..|feeds| - 1]);
    }
  }

  /** When bodies end with lines, however many there are, the passages and the tail are
      those of all the bytes fed at once. */
  lemma {:induction false} LinesFedAtOnce(feeds: seq<Feed>, p: Params)
    requires Fixed(feeds, p) && p.target <= p.max && LineBodies(feeds)
    ensures FeedAll(feeds) == AtOnce(Stream(feeds), p)
  {
    if |feeds| > 0 {
      var before, data := feeds[..|feeds| - 1], feeds[|feeds| - 1].data;
      StreamOfLines(before);
      LinesFedAtOnce(before, p);
      LinesSettle(ChunkState([], 0, Stream(before)), p);
      DrainInTwo(ChunkState([], 0, Stream(before)), data, p);
    }
  }

  /** So two ways of splitting the same bytes after lines make no difference. */
  lemma LineSplitsAgree(feeds: seq<Feed>, others: seq<Feed>, p: Params, flush: Params)
    requires Fixed(feeds, p) && Fixed(others, p) && p.target <= p.max && flush.Sane()
    requires LineBodies(feeds) && LineBodies(others) && Stream(feeds) == Stream(others)
    ensures Upload(feeds, flush) == Upload(others, flush)
  {
    LinesFedAtOnce(feeds, p);
    LinesFedAtOnce(others, p);
  }

  // ------------------------------------------------------------------- the example

  /** A short line, and a longer one that has not ended yet, at the default target. */
  function Unfinished(): seq<byte> {
    seq(600, i => if i == 299 then NEWLINE else 65)
  }

  lemma UnfinishedCut(buf: seq<byte>)
    requires buf == Unfinished()
    ensures FindCut(buf, DEFAULT_PARAMS, false) == Some(300) && !Settled(buf, DEFAULT_PARAMS)
  {
    FourWayRule(buf, DEFAULT_PARAMS, false, 300);
  }

  lemma FinishedCut(buf: seq<byte>)
    requires buf == Unfinished() + [NEWLINE]
    ensures FindCut(buf, DEFAULT_PARAMS, false) == Some(601)
  {
    FourWayRule(buf, DEFAULT_PARAMS, false, 601);
  }

  lemma FirstPassage(buf: seq<byte>, p: Params, cut: int)
    requires p.Sane() && FindCut(buf, p, false) == Some(cut)
    ensures [Range(0, cut)] <= AtOnce(buf, p).passages
  {
    hide FindCut, OverlapSize, AfterCut, Drain;
    var st := ChunkState([], 0, buf);
    CutShape(st, p, false, cut);
    DrainAfterCut(st, p, false, cut);
    DrainSizes(AfterCut(st, p, false, cut), p, false);
  }

  /** With the sizes that small files get, the end of the first passage depends on how
      the bytes were split: fed with its newline the line is cut after it, fed before
      it the line is cut short. */
  lemma BoundariesDependOnBodies()
    ensures Config.PassageSizeFor(601) == DEFAULT_PARAMS
    ensures [Range(0, 601)] <= AtOnce(Unfinished() + [NEWLINE], DEFAULT_PARAMS).passages
    ensures [Range(0, 300)] <= FeedAll([Feed(Unfinished(), DEFAULT_PARAMS), Feed([NEWLINE], DEFAULT_PARAMS)]).passages
  {
    UnfinishedCut(Unfinished());
    FirstPassage(Unfinished(), DEFAULT_PARAMS, 300);
    FinishedCut(Unfinished() + [NEWLINE]);
    FirstPassage(Unfinished() + [NEWLINE], DEFAULT_PARAMS, 601);
    FedFirst(Unfinished(), [NEWLINE], DEFAULT_PARAMS);
  }

  /** A second body only adds passages. */
  lemma FedFirst(first: seq<byte>, second: seq<byte>, p: Params)
    requires p.Sane()
    ensures AtOnce(first, p).passages <= FeedAll([Feed(first, p), Feed(second, p)]).passages
  {
    hide Drain, FeedAll, InTwo;
    TwoFeeds(first, second, p);
    FirstOfDrain(ChunkState([], 0, first), p, second);
  }
}
