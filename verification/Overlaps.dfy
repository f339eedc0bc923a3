/** How much of a passage the next one repeats. */
module Overlaps {
  import opened Bytes
  import opened Chunker
  import opened ChunkerLaws
  import opened Cuttings

  /** Where the passage after passage `i` begins, or will begin. */
  function NextStart(passages: seq<Range>, offset: int, i: nat): int
    requires i < |passages|
  {
    if i + 1 < |passages| then passages[i + 1].start else offset
  }

  predicate Bisects(stream: seq<byte>, q: int) {
    0 <= q < |stream| && IsContinuation(stream[q])
  }

  /** The next passage repeats as much as it may, `p.overlap` or half of this one, from the
      first of four places on that does not bisect a character. */
  ghost predicate Repeats(r: Range, next: int, stream: seq<byte>, p: Params) {
    var from := r.end - Min(p.overlap, (r.end - r.start) / 2);
    if from >= r.end then next == r.end
    else
      && from <= next <= from + 3
      && (forall q | from <= q < next :: Bisects(stream, q))
      && (Bisects(stream, next) ==> next == from && forall q | from <= q <= from + 3 :: Bisects(stream, q))
  }

  /** Nothing of a passage that ends a flushed stream is repeated. */
  ghost predicate Follows(r: Range, next: int, stream: seq<byte>, p: Params, final: bool) {
    if final && r.end == |stream| then next == r.end else Repeats(r, next, stream, p)
  }

  // ----------------------------------------------------------------------- one cut

  lemma SplitInStream(stream: seq<byte>, offset: nat, buf: seq<byte>, q: int)
    requires offset <= |stream| && buf == stream[offset..] && q > 0
    ensures IsSplit(buf, q) <==> !Bisects(stream, offset + q)
  {
  }

  lemma RepeatedByCut(stream: seq<byte>, offset: nat, buf: seq<byte>, p: Params, cut: int)
    requires offset <= |stream| && buf == stream[offset..] && 1 <= cut <= |buf|
    ensures Repeats(Range(offset, offset + cut), offset + cut - OverlapSize(buf, p.overlap, cut), stream, p)
  {
    var o, r := Min(p.overlap, cut / 2), OverlapSize(buf, p.overlap, cut);
    forall q | cut - o <= q <= cut - o + 3
      ensures IsSplit(buf, q) <==> !Bisects(stream, offset + q)
    {
      SplitInStream(stream, offset, buf, q);
    }
    forall q | offset + cut - o <= q < offset + cut - r
      ensures Bisects(stream, q)
    {
      assert !IsSplit(buf, q - offset);
    }
    if o > 0 && !IsSplit(buf, cut - r) {
      forall q | offset + cut - o <= q <= offset + cut - o + 3
        ensures Bisects(stream, q)
      {
        assert !IsSplit(buf, q - offset);
      }
    }
  }

  /** After one cut. */
  lemma CutFollows(st: ChunkState, stream: seq<byte>, p: Params, final: bool, cut: int)
    requires p.Sane() && Tracks(st, stream) && FindCut(st.buffer, p, final) == Some(cut)
    ensures var next := AfterCut(st, p, final, cut);
            && next.passages == st.passages + [Range(st.offset, st.offset + cut)]
            && Follows(Range(st.offset, st.offset + cut), next.offset, stream, p, final)
  {
    hide FindCut, OverlapSize, Repeats;
    CutFacts(st.buffer, p, final, cut);
    RepeatedByCut(stream, st.offset, st.buffer, p, cut);
  }

  // ---------------------------------------------------------------------- one drain

  ghost predicate AllFollow(st: ChunkState, stream: seq<byte>, p: Params, final: bool, from: nat) {
    forall i | from <= i < |st.passages| :: Follows(st.passages[i], NextStart(st.passages, st.offset, i), stream, p, final)
  }

  lemma FollowsAfterCut(st: ChunkState, stream: seq<byte>, p: Params, final: bool, cut: int, from: nat)
    requires p.Sane() && Tracks(st, stream) && FindCut(st.buffer, p, final) == Some(cut)
    requires AllFollow(st, stream, p, final, from)
    ensures AllFollow(AfterCut(st, p, final, cut), stream, p, final, from)
  {
    hide FindCut, OverlapSize, Follows;
    var next := AfterCut(st, p, final, cut);
    CutFollows(st, stream, p, final, cut);
    forall i | from <= i < |next.passages|
      ensures Follows(next.passages[i], NextStart(next.passages, next.offset, i), stream, p, final)
    {
      if i < |st.passages| {
        assert NextStart(next.passages, next.offset, i) == NextStart(st.passages, st.offset, i);
      }
    }
  }

  lemma {:induction false} DrainFollows(st: ChunkState, stream: seq<byte>, p: Params, final: bool, from: nat)
    requires p.Sane() && Tracks(st, stream) && AllFollow(st, stream, p, final, from)
    ensures AllFollow(Drain(st, p, final), stream, p, final, from)
    decreases |st.buffer|
  {
    hide OverlapSize, AllFollow, Tracks;
    var cut := FindCut(st.buffer, p, final);
    if cut.Some? {
      DrainAfterCut(st, p, final, cut.value);
      CutTracks(st, stream, p, final, cut.value);
      FollowsAfterCut(st, stream, p, final, cut.value, from);
      DrainFollows(AfterCut(st, p, final, cut.value), stream, p, final, from);
    }
  }

  /** Later cuts do not move where a passage begins. */
  lemma {:induction false} StartsStay(st: ChunkState, p: Params, final: bool, i: nat)
    requires p.Sane() && i < |st.passages|
    ensures var more := Drain(st, p, final);
            && st.passages <= more.passages
            && NextStart(more.passages, more.offset, i) == NextStart(st.passages, st.offset, i)
    decreases |st.buffer|
  {
    hide OverlapSize;
    var cut := FindCut(st.buffer, p, final);
    if cut.Some? {
      DrainAfterCut(st, p, final, cut.value);
      StartsStay(AfterCut(st, p, final, cut.value), p, final, i);
    }
  }

  // -------------------------------------------------------------------- one buffer

  function SizesOf(c: Cutting): Params {
    if c.Fed? then c.params else DEFAULT_PARAMS
  }

  function Longer(st: ChunkState, c: Cutting): ChunkState {
    st.(buffer := st.buffer + DataOf(c))
  }

  lemma CutOneDrains(st: ChunkState, c: Cutting)
    requires c.Fed? ==> c.params.Sane()
    ensures CutOne(st, c) == Drain(Longer(st, c), SizesOf(c), c.Flushed?)
  {
    assert st.buffer + [] == st.buffer;
  }

  /** In a buffer that is fed and flushed in any order every passage is followed by one that
      repeats what it should, whatever comes later. */
  lemma {:induction false} ReplayFollows(cs: seq<Cutting>, k: nat, i: nat)
    requires AllSafe(cs) && CutWith(cs, k, i)
    ensures i < |Replay(cs).passages|
    ensures Follows(Replay(cs).passages[i], NextStart(Replay(cs).passages, Replay(cs).offset, i),
                    StreamOf(cs[..k + 1]), SizesOf(cs[k]), cs[k].Flushed?)
  {
    hide Drain, Follows, Tracks;
    var n := |cs| - 1;
    var st, stream := Replay(cs[..n]), StreamOf(cs[..n]);
    CutOneDrains(st, cs[n]);
    if k == n {
      assert cs[..k + 1] == cs;
      ReplayTracks(cs[..n]);
      LongerTracks(st, stream, DataOf(cs[n]));
      assert AllFollow(Longer(st, cs[n]), stream + DataOf(cs[n]), SizesOf(cs[n]), cs[n].Flushed?, |st.passages|);
      DrainFollows(Longer(st, cs[n]), stream + DataOf(cs[n]), SizesOf(cs[n]), cs[n].Flushed?, |st.passages|);
    } else {
      assert cs[..n][..k] == cs[..k] && cs[..n][..k + 1] == cs[..k + 1];
      ReplayFollows(cs[..n], k, i);
      StartsStay(Longer(st, cs[n]), SizesOf(cs[n]), cs[n].Flushed?, i);
    }
  }
}
