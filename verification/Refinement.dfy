/** The methods are schedules of the state machine's steps: a request or a batch that
    is not interrupted has exactly the effect its method is proved to have. */
module Refinement {
  import opened Bytes
  import opened Chunker
  import opened Tables
  import opened Storage
  import opened JobQueue
  import opened UploadService
  import opened Accounting
  import opened EnqueueLaws
  import opened Pipeline
  import opened Batches
  import opened Reachable
  import opened Indexing
  import EndToEnd
  import Draining

  // -------------------------------------------------------------------- chunk PUT

  /** A body may reach the disk in any number of pieces. */
  lemma WritesAddUp(s: State, m: nat, n: nat)
    requires s.put.Some? && s.put.value.phase != Checked && s.put.value.written + m + n <= |s.put.value.body|
    ensures DoPutWrite(DoPutWrite(s, m), n) == DoPutWrite(s, m + n)
  {
    var p := s.put.value;
    var k := p.written;
    var present := if p.f in s.disk.partial then s.disk.partial[p.f] else [];
    assert p.body[k..k + m] + p.body[k + m..k + m + n] == p.body[k..k + m + n];
    Associates(present, p.body[k..k + m], p.body[k + m..k + m + n]);
    AppendedTwice(s.disk, p.f, p.body[k..k + m], p.body[k + m..k + m + n], p.body[k..k + m + n]);
    assert k + (m + n) == k + m + n;
  }

  lemma AppendedTwice(disk: Disk, f: FileId, a: seq<byte>, b: seq<byte>, both: seq<byte>)
    requires both == a + b
    ensures Appended(Appended(disk, f, a), f, b) == Appended(disk, f, both)
  {
    var present := if f in disk.partial then disk.partial[f] else [];
    Associates(present, a, b);
    var once := disk.partial[f := present + a];
    assert once[f := present + both] == disk.partial[f := present + both];
  }

  /** The four steps of a PUT that passes its checks. */
  function PutSteps(s: State, f: FileId, owner: string, offset: nat, body: seq<byte>): State {
    DoPutCommit(DoPutWrite(DoPutTrim(DoPutCheck(s, f, owner, offset, body)), |body|))
  }

  /** Uninterrupted, a PUT does to tables and disk what `AppendChunk` does, and
      records the body as accepted at its offset. */
  lemma PutAlone(s: State, f: FileId, owner: string, offset: nat, body: seq<byte>)
    requires s.Free() && f in s.log && f !in s.disk.final
    ensures var t := PutSteps(s, f, owner, offset, body);
            if PutError(s.db, f, owner, offset, body).Some? then t == s
            else
              && f in s.db.files && offset == s.db.files[f].bytesReceived
              && t == s.(db := AfterPut(s.db, f, s.db.files[f], body),
                         disk := Appended(Reconciled(s.disk, f, offset), f, body),
                         log := s.log[f := s.log[f] + [Accepted(offset, body)]])
  {
    if PutError(s.db, f, owner, offset, body).None? {
      CheckedAlone(s, f, s.db.files[f], body);
    }
  }

  lemma CheckedAlone(s: State, f: FileId, row: FileRow, body: seq<byte>)
    requires f in s.log && s.put.None?
    ensures DoPutCommit(DoPutWrite(DoPutTrim(s.(put := Some(Put(f, row, body, Checked, 0)))), |body|))
         == s.(db := AfterPut(s.db, f, row, body),
               disk := Appended(Reconciled(s.disk, f, row.bytesReceived), f, body),
               log := s.log[f := s.log[f] + [Accepted(row.bytesReceived, body)]])
  {
    assert body[0..|body|] == body;
    var disk := Reconciled(s.disk, f, row.bytesReceived);
    var trimmed := s.(disk := disk, put := Some(Put(f, row, body, Trimmed, 0)));
    assert DoPutTrim(s.(put := Some(Put(f, row, body, Checked, 0)))) == trimmed;
    WrittenAlone(trimmed, Put(f, row, body, Trimmed, 0));
  }

  lemma WrittenAlone(s: State, p: Put)
    requires s.put == Some(p) && p.phase == Trimmed && p.written == 0 && p.f in s.log
    ensures DoPutCommit(DoPutWrite(s, |p.body|))
         == s.(db := AfterPut(s.db, p.f, p.row, p.body), disk := Appended(s.disk, p.f, p.body),
               log := s.log[p.f := s.log[p.f] + [Accepted(p.row.bytesReceived, p.body)]], put := None)
  {
    hide Drain, AfterPut;
    assert p.body[0..|p.body|] == p.body;
  }

  // ------------------------------------------------------------------- completion

  function CompleteSteps(s: State, r: nat, f: FileId, owner: string): State {
    DoCompleteFinish(DoCompleteMove(DoCompleteLook(DoCompleteClose(s, r, f, owner), r), r), r)
  }

  /** Uninterrupted, a completion does what `CompleteUpload` does. */
  lemma CompleteAlone(s: State, r: nat, f: FileId, owner: string)
    requires s.Free() && r !in s.completions
    requires CompleteError(s.db, f, owner).None? && s.db.files[f].upload != Completed
    ensures var t := CompleteSteps(s, r, f, owner);
            match Finalized(s.disk, f)
            case Ok(disk) => t == s.(db := AfterCompleted(AfterFinalizing(s.db, f), f), disk := disk)
            case Err(_) => t == s.(db := AfterFinalizing(s.db, f))
  {
    var closed := DoCompleteClose(s, r, f, owner);
    assert closed == s.(db := AfterFinalizing(s.db, f), completions := s.completions[r := Completion(f, Closed)]);
    ClosedOnward(closed, s.completions, r, f);
  }

  lemma ClosedOnward(s: State, others: map<nat, Completion>, r: nat, f: FileId)
    requires s.Free() && r !in others && s.completions == others[r := Completion(f, Closed)]
    ensures var t := DoCompleteFinish(DoCompleteMove(DoCompleteLook(s, r), r), r);
            match Finalized(s.disk, f)
            case Ok(disk) => t == s.(db := AfterCompleted(s.db, f), disk := disk, completions := others)
            case Err(_) => t == s.(completions := others)
  {
    assert others[r := Completion(f, Closed)][r := Completion(f, Moved)] - {r} == others;
    assert others[r := Completion(f, Closed)][r := Completion(f, MustMove)] - {r} == others;
    assert others[r := Completion(f, Closed)][r := Completion(f, MustMove)][r := Completion(f, Moved)] - {r} == others;
  }

  // --------------------------------------------------------------------- a batch

  /** The calls of one read when nothing else happens: two looks and an opening, or one
      less if the first look or the second decides. */
  function ReadText(s: State, w: nat): State {
    if w in s.workers && |s.workers[w].texts| < |s.workers[w].jobs|
    then
      var f := s.workers[w].jobs[|s.workers[w].texts|].fileId;
      var twice := DoRead(DoRead(s, w), w);
      if f !in s.disk.final && f in s.disk.partial then DoRead(twice, w) else twice
    else s
  }

  /** The first `n` reads of a claimed batch. */
  function Reads(s: State, w: nat, n: nat): State {
    if n == 0 then s else ReadText(Reads(s, w, n - 1), w)
  }

  /** The first `n` upserts of an ingested batch. */
  function Upserts(s: State, w: nat, n: nat): State {
    if n == 0 then s else DoUpsert(Upserts(s, w, n - 1), w, n - 1)
  }

  lemma ReadCall(s: State, w: nat, worker: Worker)
    requires s.up && w in s.workers && s.workers[w] == worker && worker.Reading? && |worker.texts| < |worker.jobs|
    ensures DoRead(s, w) == s.(workers := s.workers[w := ReadOn(s.disk, worker)])
  {
  }

  lemma Overwritten(workers: map<nat, Worker>, w: nat, a: Worker, b: Worker)
    ensures workers[w := a][w := b] == workers[w := b]
    ensures w !in workers ==> workers[w := a] - {w} == workers
  {
  }

  lemma TextIsRead(s: State, w: nat, jobs: seq<Job>, texts: seq<seq<byte>>, text: seq<byte>)
    requires s.up && w in s.workers && s.workers[w] == Reading(jobs, texts, BEGUN) && |texts| < |jobs|
    requires ReadRange(s.disk, jobs[|texts|].fileId, jobs[|texts|].range) == Ok(text)
    ensures ReadText(s, w) == s.(workers := s.workers[w := Reading(jobs, texts + [text], BEGUN)])
  {
    hide Slice, DoRead;
    var f := jobs[|texts|].fileId;
    var final := f in s.disk.final;
    var first := Reading(jobs, texts, At(if final then OpenFinal else ForPartial, false));
    ReadCall(s, w, Reading(jobs, texts, BEGUN));
    ReadCall(s.(workers := s.workers[w := first]), w, first);
    Overwritten(s.workers, w, first, ReadOn(s.disk, first));
    if !final && f in s.disk.partial {
      var second := Reading(jobs, texts, At(OpenPartial, false));
      ReadCall(s.(workers := s.workers[w := second]), w, second);
      Overwritten(s.workers, w, second, ReadOn(s.disk, second));
    }
  }

  lemma {:induction false} ReadsGoOn(s: State, w: nat, jobs: seq<Job>, n: nat)
    requires s.up && w in s.workers && s.workers[w] == Reading(jobs, [], BEGUN) && n <= |jobs|
    requires TextsOf(s.disk, jobs, |jobs|).Ok?
    ensures TextsOf(s.disk, jobs, n).Ok?
    ensures Reads(s, w, n) == s.(workers := s.workers[w := Reading(jobs, TextsOf(s.disk, jobs, n).value, BEGUN)])
  {
    hide ReadRange, ReadText;
    if TextsOf(s.disk, jobs, n).Err? {
      FirstErrorStays(s.disk, jobs, n, |jobs|);
    }
    if n == 0 {
      assert s.workers[w := Reading(jobs, [], BEGUN)] == s.workers;
    } else {
      ReadsGoOn(s, w, jobs, n - 1);
      var texts := TextsOf(s.disk, jobs, n - 1).value;
      var text := ReadRange(s.disk, jobs[n - 1].fileId, jobs[n - 1].range).value;
      TextIsRead(s.(workers := s.workers[w := Reading(jobs, texts, BEGUN)]), w, jobs, texts, text);
      Overwritten(s.workers, w, Reading(jobs, texts, BEGUN), Reading(jobs, texts + [text], BEGUN));
    }
  }

  lemma {:induction false} UpsertsGoOn(s: State, w: nat, n: nat)
    requires s.up && w in s.workers && s.workers[w].Ingesting? && n <= |KeptBy(s.workers[w])|
    ensures Upserts(s, w, n) == s.(points := StoreFirst(s.points, KeptBy(s.workers[w]), n))
  {
    hide KeptBy;
    if n > 0 {
      UpsertsGoOn(s, w, n - 1);
    }
  }

  lemma RowCanBeRead(labels: seq<Label>, i: nat)
    requires i < |Run(labels).db.chunks|
    ensures var row := Run(labels).db.chunks[i];
            Draining.ReadsText(Run(labels).disk, row.fileId, row.range)
  {
    hide Run, Content, ReadRange, Readable;
    EndToEnd.RowReadable(labels, i);
  }

  lemma AllReadable(disk: Disk, chunks: seq<ChunkRow>)
    requires forall i | 0 <= i < |chunks| :: Draining.ReadsText(disk, chunks[i].fileId, chunks[i].range)
    ensures Draining.RowsReadable(disk, Keys(chunks))
  {
  }

  /** In a reachable state the tables are sound and every row's range can be read. */
  lemma ReachableIsHealthy(labels: seq<Label>)
    ensures Draining.Healthy(Run(labels).db, Run(labels).disk)
  {
    hide Run, TablesOk, ReadRange, Readable;
    RunKeepsInv(labels);
    var s := Run(labels);
    forall i | 0 <= i < |s.db.chunks|
      ensures Draining.ReadsText(s.disk, s.db.chunks[i].fileId, s.db.chunks[i].range)
    {
      RowCanBeRead(labels, i);
    }
    AllReadable(s.disk, s.db.chunks);
  }

  /** All points of the batch are in the store. */
  lemma AllAreStored(db: Db, disk: Disk, points: Points, kept: seq<Passage>)
    requires Numbered(Keys(db.chunks)) && Draining.AllKept(disk, Batch(db), kept)
    ensures AllStored(StoreFirst(points, kept, |kept|), kept)
  {
    forall k | 0 <= k < |kept|
      ensures Stored(StoreFirst(points, kept, |kept|), kept[k])
    {
      var j := Draining.StoredAt(points, kept, |kept|, PointId(kept[k].job));
      Draining.JobKey(db, Batch(db), kept, disk, j);
      Draining.JobKey(db, Batch(db), kept, disk, k);
      IdsFollowSequences(Keys(db.chunks), kept[j].job.chunkId, kept[k].job.chunkId);
    }
  }

  /** The steps of one worker from claim to verdict, nothing else happening. */
  function BatchSteps(s: State, w: nat, outcome: Outcome): State {
    var n := |Batch(s.db)|;
    var sifted := DoSift(Reads(DoClaim(s, w, None), w, n), w);
    var stored := Upserts(sifted, w, StoredOf(outcome, n));
    if Failing(outcome) then DoFail(stored, w) else DoIngestOk(stored, w)
  }

  lemma ClaimIs(s: State, w: nat)
    requires s.Free() && w !in s.workers && |Batch(s.db)| > 0
    ensures DoClaim(s, w, None)
         == s.(db := AfterClaim(s.db, BatchLimit(None)), workers := s.workers[w := Reading(Batch(s.db), [], BEGUN)])
  {
  }

  /** The passages of the batch at hand. */
  function KeptOf(disk: Disk, jobs: seq<Job>): seq<Passage>
    requires TextsOf(disk, jobs, |jobs|).Ok?
  {
    Kept(jobs, TextsOf(disk, jobs, |jobs|).value)
  }

  ghost predicate WholeBatch(disk: Disk, jobs: seq<Job>) {
    && TextsOf(disk, jobs, |jobs|).Ok?
    && Empty(jobs, TextsOf(disk, jobs, |jobs|).value) == []
    && Draining.AllKept(disk, jobs, KeptOf(disk, jobs)) && |KeptOf(disk, jobs)| == |jobs|
  }

  lemma BatchIsWhole(db: Db, disk: Disk)
    requires Draining.RowsReadable(disk, Keys(db.chunks))
    ensures WholeBatch(disk, Batch(db))
  {
    Draining.BatchReadable(db, disk, BatchLimit(None));
    Draining.NothingEmpty(disk, Batch(db));
  }

  lemma ReadAndSifted(s: State, w: nat, jobs: seq<Job>, texts: seq<seq<byte>>)
    requires s.up && w in s.workers && s.workers[w] == Reading(jobs, [], BEGUN) && |jobs| > 0
    requires TextsOf(s.disk, jobs, |jobs|) == Ok(texts)
    requires Empty(jobs, texts) == [] && |Kept(jobs, texts)| > 0
    ensures DoSift(Reads(s, w, |jobs|), w) == s.(workers := s.workers[w := Ingesting(jobs, texts)])
  {
    ReadsGoOn(s, w, jobs, |jobs|);
    Overwritten(s.workers, w, Reading(jobs, texts, BEGUN), Ingesting(jobs, texts));
    SiftIs(s.(workers := s.workers[w := Reading(jobs, texts, BEGUN)]), w, jobs, texts);
  }

  /** The state in which a claimed batch goes to ingestion. */
  function Sifted(s: State, w: nat): State
    requires TextsOf(s.disk, Batch(s.db), |Batch(s.db)|).Ok?
  {
    s.(db := AfterClaim(s.db, BatchLimit(None)),
       workers := s.workers[w := Ingesting(Batch(s.db), TextsOf(s.disk, Batch(s.db), |Batch(s.db)|).value)])
  }

  lemma SiftedAlone(s: State, w: nat)
    requires s.Free() && w !in s.workers && |Batch(s.db)| > 0 && WholeBatch(s.disk, Batch(s.db))
    ensures DoSift(Reads(DoClaim(s, w, None), w, |Batch(s.db)|), w) == Sifted(s, w)
  {
    var jobs := Batch(s.db);
    ClaimIs(s, w);
    Overwritten(s.workers, w, Reading(jobs, [], BEGUN), Ingesting(jobs, TextsOf(s.disk, jobs, |jobs|).value));
    ReadAndSifted(s.(db := AfterClaim(s.db, BatchLimit(None)), workers := s.workers[w := Reading(jobs, [], BEGUN)]), w, jobs,
                  TextsOf(s.disk, jobs, |jobs|).value);
  }

  lemma SiftIs(s: State, w: nat, jobs: seq<Job>, texts: seq<seq<byte>>)
    requires s.up && w in s.workers && s.workers[w] == Reading(jobs, texts, BEGUN) && |texts| == |jobs|
    requires Empty(jobs, texts) == [] && |Kept(jobs, texts)| > 0
    ensures DoSift(s, w) == s.(workers := s.workers[w := Ingesting(jobs, texts)])
  {
  }

  /** Uninterrupted, a worker's steps do what `ProcessOneBatch` does, however
      ingesting ends. */
  lemma BatchAlone(labels: seq<Label>, w: nat, outcome: Outcome)
    requires Run(labels).Free() && w !in Run(labels).workers && |Batch(Run(labels).db)| > 0
    ensures var s := Run(labels);
            var (db, points) := AfterBatch(s.db, s.disk, s.points, outcome);
            BatchSteps(s, w, outcome) == s.(db := db, points := points)
  {
    hide Run, TablesOk;
    ReachableIsHealthy(labels);
    BatchFrom(Run(labels), w, outcome);
  }

  lemma BatchFrom(s: State, w: nat, outcome: Outcome)
    requires TablesOk(s.db) && Draining.RowsReadable(s.disk, Keys(s.db.chunks))
    requires s.Free() && w !in s.workers && |Batch(s.db)| > 0
    ensures var (db, points) := AfterBatch(s.db, s.disk, s.points, outcome);
            BatchSteps(s, w, outcome) == s.(db := db, points := points)
  {
    hide TablesOk, AfterBatch, WholeBatch, KeptOf, Sifted, Upserts, Reads, DoClaim, DoSift, DoIngestOk, DoFail, AfterClaim;
    BatchIsWhole(s.db, s.disk);
    SiftedAlone(s, w);
    WholeIs(s.db, s.disk, s.points, outcome);
    if Failing(outcome) {
      RaisedAlone(s, w, StoredOf(outcome, |Batch(s.db)|));
    } else {
      ReturnedAlone(s, w);
    }
  }

  lemma WholeIs(db: Db, disk: Disk, points: Points, outcome: Outcome)
    requires |Batch(db)| > 0 && WholeBatch(disk, Batch(db))
    ensures var claimed := AfterClaim(db, BatchLimit(None));
            var kept := KeptOf(disk, Batch(db));
            AfterBatch(db, disk, points, outcome) ==
            (if Failing(outcome) then AfterFail(claimed, Batch(db)) else AfterComplete(claimed, Batch(db)),
             StoreFirst(points, kept, StoredOf(outcome, |kept|)))
  {
  }

  lemma IngestIs(s: State, w: nat, jobs: seq<Job>, texts: seq<seq<byte>>)
    requires s.Free() && w in s.workers && s.workers[w] == Ingesting(jobs, texts) && |texts| == |jobs|
    requires AllStored(s.points, Kept(jobs, texts)) && JobsOf(Kept(jobs, texts)) == jobs
    ensures DoIngestOk(s, w) == s.(db := AfterComplete(s.db, jobs), workers := s.workers - {w})
  {
  }

  lemma ReturnedAlone(s: State, w: nat)
    requires TablesOk(s.db) && s.Free() && w !in s.workers && WholeBatch(s.disk, Batch(s.db))
    ensures DoIngestOk(Upserts(Sifted(s, w), w, |Batch(s.db)|), w)
         == s.(db := AfterComplete(AfterClaim(s.db, BatchLimit(None)), Batch(s.db)),
               points := StoreFirst(s.points, KeptOf(s.disk, Batch(s.db)), |Batch(s.db)|))
  {
    hide RowCounted, RowSettled, ReadRange, Readable;
    var jobs, kept := Batch(s.db), KeptOf(s.disk, Batch(s.db));
    var texts := TextsOf(s.disk, jobs, |jobs|).value;
    UpsertsGoOn(Sifted(s, w), w, |kept|);
    AllAreStored(s.db, s.disk, s.points, kept);
    Overwritten(s.workers, w, Ingesting(jobs, texts), Ingesting(jobs, texts));
    IngestIs(Sifted(s, w).(points := StoreFirst(s.points, kept, |kept|)), w, jobs, texts);
  }

  lemma RaisedAlone(s: State, w: nat, m: nat)
    requires s.Free() && w !in s.workers && WholeBatch(s.disk, Batch(s.db)) && m <= |Batch(s.db)|
    ensures DoFail(Upserts(Sifted(s, w), w, m), w)
         == s.(db := AfterFail(AfterClaim(s.db, BatchLimit(None)), Batch(s.db)),
               points := StoreFirst(s.points, KeptOf(s.disk, Batch(s.db)), m))
  {
    var texts := TextsOf(s.disk, Batch(s.db), |Batch(s.db)|).value;
    UpsertsGoOn(Sifted(s, w), w, m);
    Overwritten(s.workers, w, Ingesting(Batch(s.db), texts), Reading([], [], BEGUN));
  }
}
