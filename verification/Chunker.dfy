/** The streaming chunker: how a byte buffer is cut into passages, as functions
    (`FindCut`, `SafeSplitPoint`, `OverlapSize`, `Drain`) and as the class
    `LineBuffer` whose loops are proved to compute them. */
module Chunker {
  import opened Bytes

  /** Passage sizes in bytes. Zero never survives `Resolve`. */
  datatype Params = Params(target: nat, max: nat, overlap: nat) {
    predicate Positive() {
      target > 0 && max > 0 && overlap > 0
    }

    /** The sizes with which every step of a drain is safe; see
        `ChunkerLaws.SaneIsExactlyStepSafety`. */
    predicate Sane() {
      target >= 1 && max >= 6 && overlap >= 3
    }
  }

  const DEFAULT_PARAMS := Params(600, 2048, 120)

  /** Omitted or zero sizes fall back to the configured ones. */
  function Resolve(target: Option<nat>, max: Option<nat>, overlap: Option<nat>): Params {
    Params(OrDefault(target, DEFAULT_PARAMS.target),
           OrDefault(max, DEFAULT_PARAMS.max),
           OrDefault(overlap, DEFAULT_PARAMS.overlap))
  }

  function OrDefault(given: Option<nat>, default: nat): nat {
    if given.Some? && given.value != 0 then given.value else default
  }

  /** A passage: a byte span of the uploaded file, end-exclusive. */
  datatype Range = Range(start: int, end: int) {
    function Size(): int {
      end - start
    }
  }

  /** No character of `buf` straddles `point`, as far as one byte can tell. */
  predicate IsSplit(buf: seq<byte>, point: int) {
    point <= 0 || point >= |buf| || !IsContinuation(buf[point])
  }

  /** The last of the four split points at or below `limit`, or `limit` if all
      four would bisect a character. */
  function SafeSplitPoint(buf: seq<byte>, limit: nat): (r: int)
    ensures Min(limit, |buf|) - 3 <= r <= Min(limit, |buf|)
    ensures forall q | r < q <= Min(limit, |buf|) :: !IsSplit(buf, q)
    ensures IsSplit(buf, r) || (r == Min(limit, |buf|) && forall q | r - 3 <= q <= r :: !IsSplit(buf, q))
  {
    var m := Min(limit, |buf|);
    if IsSplit(buf, m) then m
    else if IsSplit(buf, m - 1) then m - 1
    else if IsSplit(buf, m - 2) then m - 2
    else if IsSplit(buf, m - 3) then m - 3
    else m
  }

  /** Bytes to carry into the next passage: at most `limit` and half the cut,
      shortened to begin at one of the next three split points. */
  function OverlapSize(buf: seq<byte>, limit: nat, cut: int): (r: int)
    ensures var o := Min(limit, cut / 2); o <= 0 ==> r == 0
    ensures var o := Min(limit, cut / 2);
            o > 0 ==>
              && o - 3 <= r <= o
              && (forall q | cut - o <= q < cut - r :: !IsSplit(buf, q))
              && (IsSplit(buf, cut - r) || (r == o && forall q | cut - o <= q <= cut - o + 3 :: !IsSplit(buf, q)))
  {
    var o := Min(limit, cut / 2);
    var p := cut - o;
    if o <= 0 then 0
    else if IsSplit(buf, p) then o
    else if IsSplit(buf, p + 1) then o - 1
    else if IsSplit(buf, p + 2) then o - 2
    else if IsSplit(buf, p + 3) then o - 3
    else o
  }

  /** Where the next passage ends, as an offset into the buffer. */
  function FindCut(buf: seq<byte>, p: Params, final: bool): Option<int>
    requires p.Positive()
  {
    var size := |buf|;
    if size == 0 then None
    else if size >= p.target then
      var window := buf[..Min(size, p.max)];
      var newline := Find(window, p.target - 1);
      if newline != -1 then Some(newline + 1)
      else
        var last := RFind(window);
        if last != -1 && last + 1 >= p.target / 2 then Some(last + 1)
        else if size >= p.max then Some(SafeSplitPoint(buf, p.max))
        else if final then Some(size) else None
    else if final then Some(size) else None
  }

  /** The passages found so far, and the buffer with the file offset it starts at. */
  datatype ChunkState = ChunkState(passages: seq<Range>, offset: int, buffer: seq<byte>)

  const EMPTY := ChunkState([], 0, [])

  /** What one cut leaves behind. At the end of the stream a rest no longer than
      the overlap is already covered, so it is dropped. */
  function AfterCut(st: ChunkState, p: Params, final: bool, cut: int): ChunkState
    requires p.Sane() && FindCut(st.buffer, p, final) == Some(cut)
  {
    CutFacts(st.buffer, p, final, cut);
    var overlap := OverlapSize(st.buffer, p.overlap, cut);
    var rest := st.buffer[cut - overlap..];
    var end := st.offset + cut;
    var passages := st.passages + [Range(st.offset, end)];
    if final && |rest| <= overlap
    then ChunkState(passages, end, [])
    else ChunkState(passages, end - overlap, rest)
  }

  /** Cut the buffer until no further passage can be taken from it. */
  function Drain(st: ChunkState, p: Params, final: bool): ChunkState
    requires p.Sane()
    decreases |st.buffer|
  {
    match FindCut(st.buffer, p, final)
    case None => st
    case Some(cut) =>
      CutFacts(st.buffer, p, final, cut);
      Drain(AfterCut(st, p, final, cut), p, final)
  }

  /** Every cut takes at least a byte, stays in the buffer, and carries over
      between nothing and half of itself. */
  lemma CutFacts(buf: seq<byte>, p: Params, final: bool, cut: int)
    requires p.Sane() && FindCut(buf, p, final) == Some(cut)
    ensures 1 <= cut <= |buf|
    ensures 0 <= OverlapSize(buf, p.overlap, cut) <= cut / 2
    ensures OverlapSize(buf, p.overlap, cut) <= p.overlap
    ensures !final ==> cut <= p.max
    ensures final ==> cut <= Max(p.max, p.target - 1)
    ensures !final ==> cut >= Min(p.target / 2, p.max - 3)
    ensures cut - OverlapSize(buf, p.overlap, cut) >= 1
  {
    var overlap := OverlapSize(buf, p.overlap, cut);
    if overlap < 0 {
      assert false;
    }
  }

  /** One turn of the drain loop. */
  lemma DrainAfterCut(st: ChunkState, p: Params, final: bool, cut: int)
    requires p.Sane() && FindCut(st.buffer, p, final) == Some(cut)
    ensures 1 <= cut - OverlapSize(st.buffer, p.overlap, cut) <= |st.buffer|
    ensures |AfterCut(st, p, final, cut).buffer| < |st.buffer|
    ensures Drain(st, p, final) == Drain(AfterCut(st, p, final, cut), p, final)
  {
    CutFacts(st.buffer, p, final, cut);
  }

  /** How a cut came about: after a newline, by splitting a long line, or by taking
      the rest at the end of the stream. */
  predicate CutKind(buf: seq<byte>, p: Params, final: bool, cut: int) {
    && 1 <= cut <= |buf|
    && (buf[cut - 1] == NEWLINE
        || (|buf| >= p.max && cut == SafeSplitPoint(buf, p.max))
        || (final && cut == |buf|))
  }

  lemma CutHasKind(buf: seq<byte>, p: Params, final: bool, cut: int)
    requires p.Sane() && FindCut(buf, p, final) == Some(cut)
    ensures CutKind(buf, p, final, cut)
    ensures 0 <= OverlapSize(buf, p.overlap, cut) <= cut / 2
  {
    CutFacts(buf, p, final, cut);
  }

  /** Accumulates bytes, emitting passages aligned to line boundaries. */
  class LineBuffer {
    var absoluteOffset: int
    var buffer: seq<byte>
    const params: Params

    constructor (startOffset: int, pendingTail: seq<byte>,
                 target: Option<nat>, max: Option<nat>, overlap: Option<nat>)
      ensures absoluteOffset == startOffset - |pendingTail|
      ensures buffer == pendingTail
      ensures params == Resolve(target, max, overlap)
      ensures params.target == if target == None || target == Some(0) then 600 else target.value
      ensures params.max == if max == None || max == Some(0) then 2048 else max.value
      ensures params.overlap == if overlap == None || overlap == Some(0) then 120 else overlap.value
    {
      absoluteOffset := startOffset - |pendingTail|;
      buffer := pendingTail;
      params := Resolve(target, max, overlap);
    }

    /** The buffer as a state from which no passage has been taken yet. */
    function State(): ChunkState
      reads this
    {
      ChunkState([], absoluteOffset, buffer)
    }

    /** Appends `data` and drains: the new state is that of the function. */
    method Feed(data: seq<byte>) returns (passages: seq<Range>)
      requires params.Sane()
      modifies this
      ensures State().(passages := passages)
           == Drain(old(State()).(buffer := old(buffer) + data), params, false)
    {
      buffer := buffer + data;
      passages := DrainBuffer(false);
    }

    method Flush() returns (passages: seq<Range>)
      requires params.Sane()
      modifies this
      ensures State().(passages := passages) == Drain(old(State()), params, true)
    {
      passages := DrainBuffer(true);
    }

    method DrainBuffer(final: bool) returns (passages: seq<Range>)
      requires params.Sane()
      modifies this
      ensures State().(passages := passages) == Drain(old(State()), params, final)
    {
      passages := [];
      ghost var st := State();
      while true
        invariant st == ChunkState(passages, absoluteOffset, buffer)
        invariant Drain(st, params, final) == Drain(old(State()), params, final)
        decreases |st.buffer|
      {
        var cut := FindCutInBuffer(final);
        if cut.None? {
          break;
        }
        DrainAfterCut(st, params, final, cut.value);
        var passage, covered := TakePassage(final, cut.value, st);
        passages := passages + [passage];
        st := AfterCut(st, params, final, cut.value);
        if covered {
          break;
        }
      }
    }

    /** Takes one passage of `cut` bytes off the buffer; `covered` says that the
        stream has ended and nothing beyond the passage is left. */
    method TakePassage(final: bool, cut: int, ghost st: ChunkState) returns (passage: Range, covered: bool)
      requires params.Sane() && FindCut(buffer, params, final) == Some(cut)
      requires st.buffer == buffer && st.offset == absoluteOffset
      modifies this
      ensures ChunkState(st.passages + [passage], absoluteOffset, buffer) == AfterCut(st, params, final, cut)
      ensures covered ==> final && buffer == []
    {
      hide FindCut, OverlapSize, SafeSplitPoint;
      CutFacts(buffer, params, final, cut);
      var start := absoluteOffset;
      var end := start + cut;
      passage := Range(start, end);
      var overlap := OverlapSizeInBuffer(cut);
      buffer := buffer[cut - overlap..];
      absoluteOffset := end - overlap;
      covered := final && |buffer| <= overlap;
      if covered {
        buffer := [];
        absoluteOffset := end;
      }
    }

    method FindCutInBuffer(final: bool) returns (cut: Option<int>)
      requires params.Positive()
      ensures cut == FindCut(buffer, params, final)
    {
      var size := |buffer|;
      if size == 0 {
        return None;
      }
      if size >= params.target {
        var window := buffer[..Min(size, params.max)];
        var newline := Find(window, params.target - 1);
        if newline != -1 {
          return Some(newline + 1);
        }
        newline := RFind(window);
        if newline != -1 && newline + 1 >= params.target / 2 {
          return Some(newline + 1);
        }
        if size >= params.max {
          var point := SafeSplitPointInBuffer(params.max);
          return Some(point);
        }
        return if final then Some(size) else None;
      }
      return if final then Some(size) else None;
    }

    /** Steps back from `limit`, at most four times, to a split point. */
    method SafeSplitPointInBuffer(limit: nat) returns (r: int)
      ensures r == SafeSplitPoint(buffer, limit)
    {
      var size := |buffer|;
      var point := Min(limit, size);
      for tries := 0 to 4
        invariant point == Min(limit, size) - tries
        invariant forall q | point < q <= Min(limit, size) :: !IsSplit(buffer, q)
      {
        if point <= 0 || point >= size {
          return point;
        }
        if !IsContinuation(buffer[point]) {
          return point;
        }
        point := point - 1;
      }
      return Min(limit, size);
    }

    /** Steps forward from the wanted overlap, at most four times, to a split point. */
    method OverlapSizeInBuffer(cut: int) returns (r: int)
      ensures r == OverlapSize(buffer, params.overlap, cut)
    {
      var overlap := Min(params.overlap, cut / 2);
      if overlap <= 0 {
        return 0;
      }
      var size := |buffer|;
      var point := cut - overlap;
      for tries := 0 to 4
        invariant point == cut - overlap + tries
        invariant forall q | cut - overlap <= q < point :: !IsSplit(buffer, q)
      {
        if point <= 0 || point >= size {
          return cut - point;
        }
        if !IsContinuation(buffer[point]) {
          return cut - point;
        }
        point := point + 1;
      }
      return overlap;
    }
  }
}
