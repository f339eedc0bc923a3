/** A read is several calls, and the directory may change between them: what a read of
    committed bytes gets, whatever happens while it is under way. */
module ReadRaces {
  import opened Bytes
  import opened Chunker
  import opened Tables
  import opened Storage
  import opened Accounting
  import opened Pipeline
  import opened Invariant
  import opened Reachable
  import opened EndToEnd
  import opened History
  import opened Guarantees
  import UploadSteps
  import WorkerSteps

  /** Later and later moments of one run. */
  ghost predicate Growing(moments: seq<seq<Label>>) {
    forall i, j | 0 <= i <= j < |moments| :: moments[i] <= moments[j]
  }

  function DisksAt(moments: seq<seq<Label>>): (ds: seq<Disk>)
    ensures |ds| == |moments| && forall i | 0 <= i < |ds| :: ds[i] == Run(moments[i]).disk
  {
    seq(|moments|, i requires 0 <= i < |moments| => Run(moments[i]).disk)
  }

  /** The file gets its final name between the first call of a read and the second. */
  predicate RenamedBetween(ds: seq<Disk>, f: FileId) {
    |ds| >= 2 && f !in ds[0].final && f in ds[1].final
  }

  /** Each directory has the bytes in place, and a final name stays. */
  ghost predicate PlacedAlong(ds: seq<Disk>, f: FileId, stream: seq<byte>) {
    && (forall i | 0 <= i < |ds| :: WorkerSteps.Placed(ds[i], f, stream))
    && (forall i, j | 0 <= i <= j < |ds| && f in ds[i].final :: f in ds[j].final)
  }

  lemma OneMoreCall(ds: seq<Disk>, n: nat, f: FileId, r: Range)
    requires n < |ds|
    ensures ReadAcross(ds[..n + 1], f, r) == Advance(ds[n], f, r, ReadAcross(ds[..n], f, r))
  {
    assert ds[..n + 1][..n] == ds[..n];
  }

  /** Where a read stands after each of its first five calls. */
  lemma FiveCalls(ds: seq<Disk>, f: FileId, stream: seq<byte>, r: Range)
    requires |ds| >= 5 && PlacedAlong(ds, f, stream) && 0 <= r.start < r.end <= |stream|
    ensures ReadAcross(ds[..5], f, r) == Got(if RenamedBetween(ds, f) then [] else stream[r.start..r.end])
  {
    hide ReadAcross, Advance, WorkerSteps.Placed;
    assert ds[..0] == [];
    NoCalls(f, r);
    OneMoreCall(ds, 0, f, r);
    WorkerSteps.ReadIsExact(ds[0], f, stream, r, BEGUN);
    OneMoreCall(ds, 1, f, r);
    WorkerSteps.ReadIsExact(ds[1], f, stream, r, ReadAcross(ds[..1], f, r));
    OneMoreCall(ds, 2, f, r);
    OneMoreCall(ds, 3, f, r);
    OneMoreCall(ds, 4, f, r);
    RestOfCalls(ds, f, stream, r, ReadAcross(ds[..2], f, r));
  }

  lemma NoCalls(f: FileId, r: Range)
    ensures ReadAcross([], f, r) == BEGUN
  {
  }

  /** After two calls the text is there, or a name is about to be opened. */
  lemma RestOfCalls(ds: seq<Disk>, f: FileId, stream: seq<byte>, r: Range, p: Progress)
    requires |ds| >= 5 && PlacedAlong(ds, f, stream) && 0 <= r.start < r.end <= |stream|
    requires p.Got? || p == At(OpenPartial, false)
    ensures Advance(ds[4], f, r, Advance(ds[3], f, r, Advance(ds[2], f, r, p)))
         == if p.Got? then p else Got(stream[r.start..r.end])
  {
    if p.Got? {
      StaysGot(ds[2], f, r, p);
      StaysGot(ds[3], f, r, p);
      StaysGot(ds[4], f, r, p);
    } else {
      hide Advance, WorkerSteps.Placed;
      WorkerSteps.ReadIsExact(ds[2], f, stream, r, p);
      var q := Advance(ds[2], f, r, p);
      if q.Got? {
        StaysGot(ds[3], f, r, q);
        StaysGot(ds[4], f, r, q);
      } else {
        WorkerSteps.ReadIsExact(ds[3], f, stream, r, q);
        WorkerSteps.ReadIsExact(ds[4], f, stream, r, Advance(ds[3], f, r, q));
      }
    }
  }

  lemma StaysGot(d: Disk, f: FileId, r: Range, p: Progress)
    requires p.Got?
    ensures Advance(d, f, r, p) == p
  {
  }

  lemma {:induction false} GotForGood(ds: seq<Disk>, n: nat, f: FileId, r: Range)
    requires n <= |ds| && ReadAcross(ds[..n], f, r).Got?
    ensures ReadAcross(ds, f, r) == ReadAcross(ds[..n], f, r)
  {
    if n < |ds| {
      assert ds[..|ds| - 1][..n] == ds[..n];
      GotForGood(ds[..|ds| - 1], n, f, r);
    } else {
      assert ds[..n] == ds;
    }
  }

  /** Five calls always suffice. The read gets exactly the bytes, unless the file got its
      final name between the first two calls: then, and only then, it gets nothing. */
  lemma ReadAlong(ds: seq<Disk>, f: FileId, stream: seq<byte>, r: Range)
    requires |ds| >= 5 && PlacedAlong(ds, f, stream) && 0 <= r.start < r.end <= |stream|
    ensures ReadAcross(ds, f, r) == Got(if RenamedBetween(ds, f) then [] else stream[r.start..r.end])
  {
    FiveCalls(ds, f, stream, r);
    GotForGood(ds, 5, f, r);
  }

  // ------------------------------------------------------------------- of any run

  lemma PlacedAt(labels: seq<Label>, more: seq<Label>, f: FileId)
    requires f in Run(labels).db.files && Run(labels).db.files[f].bytesReceived > 0
    ensures f in Run(labels).log && WorkerSteps.Placed(Run(labels + more).disk, f, Content(Run(labels).log[f]))
    ensures |Content(Run(labels).log[f])| == Run(labels).db.files[f].bytesReceived
  {
    hide Run, Content, TablesOk, StreamsOk, PointsOk, WorkersOk, PutOk, CompletionsOk, FileRanges;
    FileLater(labels, more, f);
    CommittedBytesReadable(labels, f);
    CommittedBytesReadable(labels + more, f);
    RunKeepsInv(labels + more);
    var t := Run(labels + more);
    assert FileOnDisk(t.db.files[f], Content(t.log[f]), t.disk, f);
  }

  lemma RestOf(labels: seq<Label>, later: seq<Label>) returns (more: seq<Label>)
    requires labels <= later
    ensures later == labels + more
  {
    more := later[|labels|..];
  }

  lemma PlacedLater(moments: seq<seq<Label>>, f: FileId, i: nat)
    requires Growing(moments) && i < |moments|
    requires f in Run(moments[0]).db.files && Run(moments[0]).db.files[f].bytesReceived > 0
    ensures f in Run(moments[0]).log && WorkerSteps.Placed(Run(moments[i]).disk, f, Content(Run(moments[0]).log[f]))
  {
    hide Run, Content, WorkerSteps.Placed;
    assert moments[0] <= moments[i];
    var more := RestOf(moments[0], moments[i]);
    PlacedAt(moments[0], more, f);
  }

  lemma FinalLater(moments: seq<seq<Label>>, f: FileId, i: nat, j: nat)
    requires Growing(moments) && i <= j < |moments| && f in Run(moments[i]).disk.final
    ensures f in Run(moments[j]).disk.final
  {
    hide Run;
    assert moments[i] <= moments[j];
    var more := RestOf(moments[i], moments[j]);
    RunEvolves(moments[i], more);
  }

  lemma MomentsPlaced(moments: seq<seq<Label>>, f: FileId)
    requires Growing(moments) && |moments| > 0
    requires f in Run(moments[0]).db.files && Run(moments[0]).db.files[f].bytesReceived > 0
    ensures f in Run(moments[0]).log && PlacedAlong(DisksAt(moments), f, Content(Run(moments[0]).log[f]))
  {
    hide Run, Content, WorkerSteps.Placed, Growing;
    PlacedLater(moments, f, 0);
    forall i | 0 <= i < |moments|
      ensures WorkerSteps.Placed(Run(moments[i]).disk, f, Content(Run(moments[0]).log[f]))
    {
      PlacedLater(moments, f, i);
    }
    forall i, j | 0 <= i <= j < |moments| && f in Run(moments[i]).disk.final
      ensures f in Run(moments[j]).disk.final
    {
      FinalLater(moments, f, i, j);
    }
  }

  /** Committed bytes at every later moment: a read whose calls meet the directory at any
      moments after the commit, across truncations, crashes and the rename, ends, does
      not raise, and gets exactly those bytes, unless the file got its final name
      between its first two calls. */
  lemma CommittedRangesStay(moments: seq<seq<Label>>, f: FileId, r: Range)
    requires Growing(moments) && |moments| >= 5
    requires f in Run(moments[0]).db.files && 0 <= r.start < r.end <= Run(moments[0]).db.files[f].bytesReceived
    ensures var s, ds := Run(moments[0]), DisksAt(moments);
            && f in s.log && r.end <= |Content(s.log[f])|
            && ReadAcross(ds, f, r) == Got(if RenamedBetween(ds, f) then [] else Content(s.log[f])[r.start..r.end])
  {
    hide Run, Content, PlacedAlong, ReadAcross, RenamedBetween;
    MomentsPlaced(moments, f);
    PlacedAt(moments[0], [], f);
    ReadAlong(DisksAt(moments), f, Content(Run(moments[0]).log[f]), r);
  }

  /** The same of every queued row: its range is a nonempty part of the committed bytes,
      and any read of it gets exactly that part, or nothing if it is straddled. */
  lemma QueuedRangesReadable(moments: seq<seq<Label>>, i: nat)
    requires Growing(moments) && |moments| >= 5 && i < |Run(moments[0]).db.chunks|
    ensures var s, ds := Run(moments[0]), DisksAt(moments);
            var row := s.db.chunks[i];
            && row.fileId in s.log && 0 <= row.range.start < row.range.end <= |Content(s.log[row.fileId])|
            && ReadAcross(ds, row.fileId, row.range)
               == Got(if RenamedBetween(ds, row.fileId) then [] else Content(s.log[row.fileId])[row.range.start..row.range.end])
  {
    hide Run, Content, ReadAcross, RenamedBetween, ReadRange;
    RowReadable(moments[0], i);
    CommittedRangesStay(moments, Run(moments[0]).db.chunks[i].fileId, Run(moments[0]).db.chunks[i].range);
  }
}
