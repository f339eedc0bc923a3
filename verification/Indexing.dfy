/** An indexing worker: one claimed batch is read, ingested and then completed or
    failed; draining repeats that until the queue is empty. */
module Indexing {
  import opened Bytes
  import opened Tables
  import opened Storage
  import opened JobQueue
  import opened Accounting
  import opened QueueLaws
  import opened Pipeline
  import opened Batches
  import Config

  // --------------------------------------------------------------- what it does

  /** How a batch ends: well; with an exception from completing the jobs that read back
      empty, from ingesting after some points were stored, or from completing the jobs
      that were ingested. A transaction that raises is rolled back. */
  datatype Outcome = Returns | SiftRaises | Raises(stored: nat) | RecordRaises

  predicate Failing(outcome: Outcome) {
    outcome.Raises? || outcome.RecordRaises?
  }

  /** Points stored of a batch of `n`. */
  function StoredOf(outcome: Outcome, n: nat): (stored: nat)
    ensures stored <= n
  {
    if outcome.Raises? then Min(outcome.stored, n) else n
  }

  type Points = map<(FileId, nat), Point>

  function StoreFirst(points: Points, kept: seq<Passage>, n: nat): Points
    requires n <= |kept|
  {
    if n == 0 then points
    else StoreFirst(points, kept, n - 1)[PointId(kept[n - 1].job) := Point(kept[n - 1].job.range, kept[n - 1].text)]
  }

  /** The texts of the first `n` jobs, unless a read raises. */
  function TextsOf(disk: Disk, jobs: seq<Job>, n: nat): (texts: Result<seq<seq<byte>>, IoError>)
    requires n <= |jobs|
    ensures texts.Ok? ==> |texts.value| == n
  {
    if n == 0 then Ok([])
    else
      match TextsOf(disk, jobs, n - 1)
      case Err(e) => Err(e)
      case Ok(texts) =>
        match ReadRange(disk, jobs[n - 1].fileId, jobs[n - 1].range)
        case Err(e) => Err(e)
        case Ok(text) => Ok(texts + [text])
  }

  /** Tables and points after one batch of jobs was claimed and worked on. */
  function AfterJobs(claimed: Db, disk: Disk, points: Points, jobs: seq<Job>, outcome: Outcome): (Db, Points) {
    match TextsOf(disk, jobs, |jobs|)
    case Err(_) => (AfterFail(claimed, jobs), points)
    case Ok(texts) =>
      var kept := Kept(jobs, texts);
      var sifted := AfterComplete(claimed, Empty(jobs, texts));
      if outcome.SiftRaises? && |Empty(jobs, texts)| > 0 then (AfterFail(claimed, jobs), points)
      else if |kept| == 0 then (sifted, points)
      else
        (if Failing(outcome) then AfterFail(sifted, jobs) else AfterComplete(sifted, JobsOf(kept)),
         StoreFirst(points, kept, StoredOf(outcome, |kept|)))
  }

  function Batch(db: Db): seq<Job> {
    BatchJobs(db, BatchLimit(None))
  }

  function AfterBatch(db: Db, disk: Disk, points: Points, outcome: Outcome): (Db, Points) {
    if |Batch(db)| == 0 then (db, points)
    else AfterJobs(AfterClaim(db, BatchLimit(None)), disk, points, Batch(db), outcome)
  }

  // ----------------------------------------------------------------- the measure

  /** Attempts a pending row may still take. */
  function Weight(row: ChunkRow): nat {
    if row.status == Pending then Max(Config.MAX_RETRIES - row.retryCount, 1) else 0
  }

  /** Attempts that the first `n` rows may still take. */
  function Work(chunks: seq<ChunkRow>, n: nat): nat
    requires n <= |chunks|
  {
    if n == 0 then 0 else Work(chunks, n - 1) + Weight(chunks[n - 1])
  }

  lemma {:induction false} WorkShrinks(chunks: seq<ChunkRow>, after: seq<ChunkRow>, n: nat, j: nat)
    requires n <= |chunks| == |after|
    requires forall i | 0 <= i < n :: Weight(after[i]) <= Weight(chunks[i])
    ensures Work(after, n) <= Work(chunks, n)
    ensures j < n && Weight(after[j]) < Weight(chunks[j]) ==> Work(after, n) < Work(chunks, n)
  {
    if n > 0 {
      WorkShrinks(chunks, after, n - 1, j);
    }
  }

  // ------------------------------------------------------------- one row of a batch

  /** Marking without counting a retry does the same however often. */
  lemma {:induction false} IndexAt(chunks: seq<ChunkRow>, ids: seq<nat>, i: nat)
    requires i < |chunks|
    ensures Mark(chunks, ids, Indexed, 0)[i] == if i in ids then chunks[i].(status := Indexed) else chunks[i]
  {
    if |ids| > 0 {
      IndexAt(chunks, ids[..|ids| - 1], i);
      assert ids == ids[..|ids| - 1] + [ids[|ids| - 1]];
    }
  }

  lemma CompleteAt(db: Db, jobs: seq<Job>, i: nat)
    requires i < |db.chunks|
    ensures |AfterComplete(db, jobs).chunks| == |db.chunks|
    ensures AfterComplete(db, jobs).chunks[i] == if i in Ids(jobs) then db.chunks[i].(status := Indexed) else db.chunks[i]
  {
    IndexAt(db.chunks, Ids(jobs), i);
  }

  /** When the empty jobs of a held batch have been completed, the others are held. */
  lemma AfterSifting(claimed: Db, jobs: seq<Job>, texts: seq<seq<byte>>, f: FileId)
    requires Held(claimed.chunks, jobs, f) && |texts| == |jobs|
    ensures var sifted := AfterComplete(claimed, Empty(jobs, texts)).chunks;
            && Held(claimed.chunks, Empty(jobs, texts), f)
            && |sifted| == |claimed.chunks| && Listed(sifted, jobs, f) && Sifted(sifted, jobs, texts)
            && Held(sifted, JobsOf(Kept(jobs, texts)), f)
  {
    hide Held, Listed, Empty, Kept, JobsOf, AfterComplete, Ids;
    var empty := Empty(jobs, texts);
    var sifted := AfterComplete(claimed, empty).chunks;
    EmptyHeld(claimed.chunks, jobs, texts, f);
    SameLength(claimed, empty);
    forall i | 0 <= i < |sifted|
      ensures sifted[i] == if i in Ids(empty) then claimed.chunks[i].(status := Indexed) else claimed.chunks[i]
    {
      CompleteAt(claimed, empty, i);
    }
    SiftedRows(claimed.chunks, jobs, texts, f, sifted);
    KeptHeld(sifted, jobs, texts, f);
  }

  lemma SameLength(db: Db, jobs: seq<Job>)
    ensures |AfterComplete(db, jobs).chunks| == |db.chunks|
  {
  }

  /** What a batch leaves of a row: untouched if it was not claimed, otherwise indexed
      or one attempt further. */
  ghost predicate Worked(was: ChunkRow, now: ChunkRow, claimed: bool) {
    if !claimed then now == was
    else now == was.(status := Indexed) || now == AfterAttempt(was)
  }

  lemma RowAfterJobs(claimed: Db, disk: Disk, points: Points, jobs: seq<Job>, outcome: Outcome, f: FileId, i: nat)
    requires Held(claimed.chunks, jobs, f) && i < |claimed.chunks|
    ensures var after := AfterJobs(claimed, disk, points, jobs, outcome).0.chunks;
            |after| == |claimed.chunks| && Worked(claimed.chunks[i], after[i], i in Ids(jobs))
  {
    hide Held, Listed, AfterFail, AfterComplete, Kept, Empty, StoreFirst, Ids;
    HeldIsListed(claimed.chunks, jobs, f);
    match TextsOf(disk, jobs, |jobs|)
    case Err(_) => FailAt(claimed, jobs, f, i);
    case Ok(texts) =>
      var kept, empty := Kept(jobs, texts), Empty(jobs, texts);
      if outcome.SiftRaises? && |empty| > 0 {
        FailAt(claimed, jobs, f, i);
      } else {
        var sifted := AfterComplete(claimed, empty);
        KeptOrEmpty(jobs, texts, i);
        CompleteAt(claimed, empty, i);
        if |kept| > 0 {
          CompleteAt(sifted, JobsOf(kept), i);
          AfterSifting(claimed, jobs, texts, f);
          FailAt(sifted, jobs, f, i);
        } else {
          NothingKept(kept, i);
        }
      }
  }

  lemma NothingKept(kept: seq<Passage>, i: nat)
    requires |kept| == 0
    ensures i !in Ids(JobsOf(kept))
  {
  }

  lemma RowAfterClaim(db: Db, limit: nat, i: nat)
    requires i < |db.chunks| && |BatchJobs(db, limit)| > 0
    ensures |AfterClaim(db, limit).chunks| == |db.chunks|
    ensures i in Ids(BatchJobs(db, limit)) ==> db.chunks[i].status == Pending
    ensures AfterClaim(db, limit).chunks[i]
         == if i in Ids(BatchJobs(db, limit)) then db.chunks[i].(status := Processing) else db.chunks[i]
  {
    BatchIsPending(db, limit);
    MarkAt(db.chunks, BatchIds(db.chunks, limit), Processing, 0, i);
  }

  /** A batch takes pending rows only; each ends indexed or one attempt further. */
  lemma RowAfterBatch(db: Db, disk: Disk, points: Points, outcome: Outcome, i: nat)
    requires i < |db.chunks| && |Batch(db)| > 0
    ensures |AfterBatch(db, disk, points, outcome).0.chunks| == |db.chunks|
    ensures i in Ids(Batch(db)) ==> db.chunks[i].status == Pending
    ensures Worked(db.chunks[i], AfterBatch(db, disk, points, outcome).0.chunks[i], i in Ids(Batch(db)))
  {
    hide Held, HeldJob, ReadRange, Readable;
    var limit := BatchLimit(None);
    RowAfterClaim(db, limit, i);
    ClaimHolds(db, limit);
    RowAfterJobs(AfterClaim(db, limit), disk, points, Batch(db), outcome, Batch(db)[0].fileId, i);
  }

  ghost predicate AllRead(disk: Disk, jobs: seq<Job>) {
    forall k | 0 <= k < |jobs| :: ReadRange(disk, jobs[k].fileId, jobs[k].range).Ok?
  }

  ghost predicate SomeEmpty(disk: Disk, jobs: seq<Job>) {
    exists k | 0 <= k < |jobs| :: ReadRange(disk, jobs[k].fileId, jobs[k].range) == Ok([])
  }

  ghost predicate SomeText(disk: Disk, jobs: seq<Job>) {
    exists k | 0 <= k < |jobs| ::
      ReadRange(disk, jobs[k].fileId, jobs[k].range).Ok? && ReadRange(disk, jobs[k].fileId, jobs[k].range).value != []
  }

  /** The texts are what the reads gave, unless one raised. */
  lemma {:induction false} TextsAre(disk: Disk, jobs: seq<Job>, n: nat)
    requires n <= |jobs|
    ensures TextsOf(disk, jobs, n).Ok? <==> forall k | 0 <= k < n :: ReadRange(disk, jobs[k].fileId, jobs[k].range).Ok?
    ensures TextsOf(disk, jobs, n).Ok? ==>
              forall k | 0 <= k < n :: ReadRange(disk, jobs[k].fileId, jobs[k].range) == Ok(TextsOf(disk, jobs, n).value[k])
  {
    hide ReadRange;
    if n > 0 {
      TextsAre(disk, jobs, n - 1);
    }
  }

  lemma PartsAre(disk: Disk, jobs: seq<Job>)
    ensures TextsOf(disk, jobs, |jobs|).Ok? <==> AllRead(disk, jobs)
    ensures TextsOf(disk, jobs, |jobs|).Ok? ==>
              var texts := TextsOf(disk, jobs, |jobs|).value;
              && (Empty(jobs, texts) != [] <==> SomeEmpty(disk, jobs))
              && (Kept(jobs, texts) != [] <==> SomeText(disk, jobs))
  {
    hide ReadRange;
    TextsAre(disk, jobs, |jobs|);
    if TextsOf(disk, jobs, |jobs|).Ok? {
      var texts := TextsOf(disk, jobs, |jobs|).value;
      NoneEmptyIff(jobs, texts);
      NoneKeptIff(jobs, texts);
    }
  }

  /** The jobs of a batch are all indexed, unless a read raises, or completing the jobs
      that read back empty does, or ingesting or completing the others. */
  ghost predicate EndsWell(disk: Disk, jobs: seq<Job>, outcome: Outcome) {
    && AllRead(disk, jobs)
    && !(outcome.SiftRaises? && SomeEmpty(disk, jobs))
    && !((outcome.Raises? || outcome.RecordRaises?) && SomeText(disk, jobs))
  }

  lemma EndOfJobs(claimed: Db, disk: Disk, points: Points, jobs: seq<Job>, outcome: Outcome, f: FileId, i: nat)
    requires Held(claimed.chunks, jobs, f) && i < |claimed.chunks| && i in Ids(jobs)
    ensures var after := AfterJobs(claimed, disk, points, jobs, outcome).0.chunks;
            && |after| == |claimed.chunks|
            && after[i] == if EndsWell(disk, jobs, outcome) then claimed.chunks[i].(status := Indexed)
                           else AfterAttempt(claimed.chunks[i])
  {
    hide Held, Listed, AfterFail, AfterComplete, Kept, Empty, StoreFirst, Ids, AllRead, SomeEmpty, SomeText, TextsOf;
    HeldIsListed(claimed.chunks, jobs, f);
    FailAt(claimed, jobs, f, i);
    PartsAre(disk, jobs);
    if TextsOf(disk, jobs, |jobs|).Ok? {
      var texts := TextsOf(disk, jobs, |jobs|).value;
      var kept, sifted := Kept(jobs, texts), AfterComplete(claimed, Empty(jobs, texts));
      KeptOrEmpty(jobs, texts, i);
      CompleteAt(claimed, Empty(jobs, texts), i);
      CompleteAt(sifted, JobsOf(kept), i);
      AfterSifting(claimed, jobs, texts, f);
      FailAt(sifted, jobs, f, i);
      if |kept| == 0 {
        NothingKept(kept, i);
      }
    }
  }

  /** How a batch ends: all of its rows are indexed if it ends well, otherwise each is one
      attempt further, those that read back empty among them. */
  lemma BatchEnds(db: Db, disk: Disk, points: Points, outcome: Outcome, i: nat)
    requires |Batch(db)| > 0 && i in Ids(Batch(db)) && i < |db.chunks|
    ensures var after := AfterBatch(db, disk, points, outcome).0.chunks;
            && |after| == |db.chunks| && db.chunks[i].status == Pending
            && (EndsWell(disk, Batch(db), outcome) ==> after[i] == db.chunks[i].(status := Indexed))
            && (!EndsWell(disk, Batch(db), outcome) ==>
                  && after[i].retryCount == db.chunks[i].retryCount + 1 && KeyOf(after[i]) == KeyOf(db.chunks[i])
                  && after[i].status == if db.chunks[i].retryCount + 1 < Config.MAX_RETRIES then Pending else Failed)
  {
    hide Held, HeldJob, EndsWell, AfterJobs;
    var limit := BatchLimit(None);
    RowAfterClaim(db, limit, i);
    ClaimHolds(db, limit);
    EndOfJobs(AfterClaim(db, limit), disk, points, Batch(db), outcome, Batch(db)[0].fileId, i);
  }

  lemma BatchLength(db: Db, disk: Disk, points: Points, outcome: Outcome)
    requires |Batch(db)| > 0
    ensures |AfterBatch(db, disk, points, outcome).0.chunks| == |db.chunks| > 0
  {
    BatchIsPending(db, BatchLimit(None));
    RowAfterBatch(db, disk, points, outcome, 0);
  }

  /** A row that was worked on has fewer attempts left. */
  lemma WeightDrops(was: ChunkRow, now: ChunkRow, claimed: bool)
    requires Worked(was, now, claimed) && (claimed ==> was.status == Pending)
    ensures Weight(now) <= Weight(was) && (claimed ==> Weight(now) < Weight(was))
  {
  }

  /** Every batch uses up attempts, however ingesting it ends. */
  lemma BatchUsesUpWork(db: Db, disk: Disk, points: Points, outcome: Outcome)
    requires |Batch(db)| > 0
    ensures var after := AfterBatch(db, disk, points, outcome).0.chunks;
            |after| == |db.chunks| && Work(after, |after|) < Work(db.chunks, |db.chunks|)
  {
    hide AfterBatch, BatchJobs, BatchIds, Worked, Weight;
    var after := AfterBatch(db, disk, points, outcome).0.chunks;
    BatchLength(db, disk, points, outcome);
    forall i | 0 <= i < |after|
      ensures Weight(after[i]) <= Weight(db.chunks[i])
    {
      RowAfterBatch(db, disk, points, outcome, i);
      WeightDrops(db.chunks[i], after[i], i in Ids(Batch(db)));
    }
    var first := Batch(db)[0].chunkId;
    assert Ids(Batch(db))[0] == first;
    BatchIsPending(db, BatchLimit(None));
    RowAfterBatch(db, disk, points, outcome, first);
    WeightDrops(db.chunks[first], after[first], true);
    WorkShrinks(db.chunks, after, |after|, first);
  }

  // -------------------------------------------------------------------- the worker

  class VectorStore {
    var points: Points

    constructor ()
      ensures points == map[]
    {
      points := map[];
    }

    /** Upserts the points one by one; an exception leaves those before it stored. */
    method IngestBatch(kept: seq<Passage>, outcome: Outcome) returns (ok: bool)
      modifies this
      ensures ok == !outcome.Raises?
      ensures points == StoreFirst(old(points), kept, StoredOf(outcome, |kept|))
      ensures outcome.Raises? && outcome.stored < |kept| ==> points == StoreFirst(old(points), kept, outcome.stored)
      ensures !outcome.Raises? || outcome.stored >= |kept| ==> points == StoreFirst(old(points), kept, |kept|)
    {
      var count := StoredOf(outcome, |kept|);
      for n := 0 to count
        invariant points == StoreFirst(old(points), kept, n)
      {
        points := points[PointId(kept[n].job) := Point(kept[n].job.range, kept[n].text)];
      }
      return !outcome.Raises?;
    }
  }

  class IndexingWorker {
    const db: Database
    const dir: UploadDirectory
    const store: VectorStore

    constructor (db: Database, dir: UploadDirectory, store: VectorStore)
      ensures this.db == db && this.dir == dir && this.store == store
    {
      this.db, this.dir, this.store := db, dir, store;
    }

    method ReadTexts(jobs: seq<Job>) returns (texts: Result<seq<seq<byte>>, IoError>)
      ensures texts == TextsOf(dir.Value(), jobs, |jobs|)
    {
      var read: seq<seq<byte>> := [];
      for n := 0 to |jobs|
        invariant TextsOf(dir.Value(), jobs, n) == Ok(read)
      {
        var text := ReadRange(dir.Value(), jobs[n].fileId, jobs[n].range);
        if text.Err? {
          FirstErrorStays(dir.Value(), jobs, n + 1, |jobs|);
          return Err(text.error);
        }
        read := read + [text.value];
      }
      return Ok(read);
    }

    /** Returns false when the queue was empty. */
    method ProcessOneBatch(outcome: Outcome) returns (processed: bool)
      modifies db, store
      ensures processed == (|Batch(old(db.Value()))| > 0)
      ensures (db.Value(), store.points) == AfterBatch(old(db.Value()), old(dir.Value()), old(store.points), outcome)
    {
      hide BatchJobs, AfterFail, TextsOf, Kept, Empty, StoreFirst;
      var jobs := JobQueue.ClaimBatch(db, None);
      if |jobs| == 0 {
        return false;
      }
      var texts := ReadTexts(jobs);
      if texts.Err? {
        JobQueue.FailBatch(db, jobs);
        return true;
      }
      var kept, empty := Kept(jobs, texts.value), Empty(jobs, texts.value);
      if |empty| > 0 {
        if outcome.SiftRaises? {
          JobQueue.FailBatch(db, jobs);
          return true;
        }
        JobQueue.CompleteBatch(db, empty);
      }
      if |kept| == 0 {
        return true;
      }
      var ok := store.IngestBatch(kept, outcome);
      if ok && !outcome.RecordRaises? {
        JobQueue.CompleteBatch(db, JobsOf(kept));
      } else {
        JobQueue.FailBatch(db, jobs);
      }
      return true;
    }
  }

  /** An error reading one job is the result for all longer runs of jobs. */
  lemma {:induction false} FirstErrorStays(disk: Disk, jobs: seq<Job>, m: nat, n: nat)
    requires m <= n <= |jobs| && TextsOf(disk, jobs, m).Err?
    ensures TextsOf(disk, jobs, n) == TextsOf(disk, jobs, m)
  {
    if m < n {
      FirstErrorStays(disk, jobs, m, n - 1);
    }
  }
}
