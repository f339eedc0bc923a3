/** The whole service as a state machine: requests, workers and crashes interleave
    in any order, one step at a time. A step that is not enabled changes nothing. */
module Pipeline {
  import opened Bytes
  import opened Chunker
  import opened Tables
  import opened Storage
  import opened JobQueue
  import opened UploadService

  /** A chunk that was committed: where it was put, and its bytes. */
  datatype Accepted = Accepted(offset: nat, body: seq<byte>)

  /** The bytes a file's committed chunks make up. */
  function Content(log: seq<Accepted>): seq<byte> {
    if |log| == 0 then [] else Content(log[..|log| - 1]) + log[|log| - 1].body
  }

  /** A chunk PUT inside its transaction, which holds the database's write lock. */
  datatype Put = Put(f: FileId, row: FileRow, body: seq<byte>, phase: PutPhase, written: nat)

  datatype PutPhase = Checked | Trimmed | Opened

  /** A completion between its two transactions. */
  datatype Completion = Completion(f: FileId, phase: CompletionPhase)

  datatype CompletionPhase = Closed | MustMove | Moved

  /** A job with the text that was read for it. */
  datatype Passage = Passage(job: Job, text: seq<byte>)

  /** A worker with a claimed batch: the texts read so far, and how far the read of the
      next one has got; or all of them, when those that are not empty are ingested. */
  datatype Worker =
    | Reading(jobs: seq<Job>, texts: seq<seq<byte>>, read: Progress)
    | Ingesting(jobs: seq<Job>, texts: seq<seq<byte>>)

  /** A point of the vector store: the range in its payload and the text it embeds. */
  datatype Point = Point(range: Range, text: seq<byte>)

  /** `db`, `disk` and `points` survive a crash; `log` is history; the rest is the
      memory of the running process. */
  datatype State = State(
    db: Db,
    disk: Disk,
    points: map<(FileId, nat), Point>,
    log: map<FileId, seq<Accepted>>,
    put: Option<Put>,
    completions: map<nat, Completion>,
    workers: map<nat, Worker>,
    up: bool)
  {
    /** A transaction can begin: the process runs and no chunk holds the lock. */
    predicate Free() {
      up && put.None?
    }
  }

  const INITIAL := State(Db(map[], []), Disk(map[], map[]), map[], map[], None, map[], map[], false)

  datatype Label =
    | Create(f: FileId, owner: string, totalSize: nat)
    | PutCheck(f: FileId, owner: string, offset: nat, body: seq<byte>)
    | PutTrim
    | PutWrite(count: nat)
    | PutCommit
    | PutAbort
    | CompleteClose(r: nat, f: FileId, owner: string)
    | CompleteLook(r: nat)
    | CompleteMove(r: nat)
    | CompleteFinish(r: nat)
    | CompleteDrop(r: nat)
    | Claim(w: nat, limit: Option<nat>)
    | Read(w: nat)
    | Sift(w: nat)
    | Upsert(w: nat, k: nat)
    | IngestOk(w: nat)
    | Fail(w: nat)
    | Abandon(w: nat)
    | Crash
    | Recover

  function Step(s: State, l: Label): State {
    match l
    case Create(f, owner, totalSize) => DoCreate(s, f, owner, totalSize)
    case PutCheck(f, owner, offset, body) => DoPutCheck(s, f, owner, offset, body)
    case PutTrim => DoPutTrim(s)
    case PutWrite(count) => DoPutWrite(s, count)
    case PutCommit => DoPutCommit(s)
    case PutAbort => s.(put := None)
    case CompleteClose(r, f, owner) => DoCompleteClose(s, r, f, owner)
    case CompleteLook(r) => DoCompleteLook(s, r)
    case CompleteMove(r) => DoCompleteMove(s, r)
    case CompleteFinish(r) => DoCompleteFinish(s, r)
    case CompleteDrop(r) => s.(completions := s.completions - {r})
    case Claim(w, limit) => DoClaim(s, w, limit)
    case Read(w) => DoRead(s, w)
    case Sift(w) => DoSift(s, w)
    case Upsert(w, k) => DoUpsert(s, w, k)
    case IngestOk(w) => DoIngestOk(s, w)
    case Fail(w) => DoFail(s, w)
    case Abandon(w) => s.(workers := s.workers - {w})
    case Crash => s.(put := None, completions := map[], workers := map[], up := false)
    case Recover => if s.up then s else s.(db := AfterRecover(s.db), up := true)
  }

  /** Any run of the service. */
  function Run(labels: seq<Label>): State {
    if |labels| == 0 then INITIAL else Step(Run(labels[..|labels| - 1]), labels[|labels| - 1])
  }

  // -------------------------------------------------------------------- uploads

  /** A fresh identifier is reserved for an upload. */
  function DoCreate(s: State, f: FileId, owner: string, totalSize: nat): State {
    if s.Free() && f !in s.db.files
    then s.(db := s.db.(files := s.db.files[f := NewFile(owner, totalSize)]), log := s.log[f := []])
    else s
  }

  /** The checks of a chunk PUT, under the write lock. The last condition is the
      assumption on clients: no chunk is sent once the file has its final name. */
  function DoPutCheck(s: State, f: FileId, owner: string, offset: nat, body: seq<byte>): State {
    if s.Free() && PutError(s.db, f, owner, offset, body).None? && f !in s.disk.final
    then s.(put := Some(Put(f, s.db.files[f], body, Checked, 0)))
    else s
  }

  /** The disk is trimmed back to the committed size. */
  function DoPutTrim(s: State): State {
    if s.put.Some? && s.put.value.phase == Checked
    then
      var p := s.put.value;
      s.(disk := Reconciled(s.disk, p.f, p.row.bytesReceived), put := Some(p.(phase := Trimmed)))
    else s
  }

  /** Some more of the body, perhaps none, reaches the disk. */
  function DoPutWrite(s: State, count: nat): State {
    if s.put.Some? && s.put.value.phase != Checked && s.put.value.written + count <= |s.put.value.body|
    then
      var p := s.put.value;
      s.(disk := Appended(s.disk, p.f, p.body[p.written..p.written + count]),
         put := Some(p.(phase := Opened, written := p.written + count)))
    else s
  }

  /** The whole body is on disk, and the transaction commits. */
  function DoPutCommit(s: State): State {
    if s.put.Some? && s.put.value.phase == Opened && s.put.value.written == |s.put.value.body|
    then
      var p := s.put.value;
      var before := if p.f in s.log then s.log[p.f] else [];
      s.(db := AfterPut(s.db, p.f, p.row, p.body),
         log := s.log[p.f := before + [Accepted(p.row.bytesReceived, p.body)]],
         put := None)
    else s
  }

  // ---------------------------------------------------------------- completions

  function DoCompleteClose(s: State, r: nat, f: FileId, owner: string): State {
    if s.Free() && r !in s.completions && CompleteError(s.db, f, owner).None? && s.db.files[f].upload != Completed
    then s.(db := AfterFinalizing(s.db, f), completions := s.completions[r := Completion(f, Closed)])
    else s
  }

  /** Whether the final name exists already. */
  function DoCompleteLook(s: State, r: nat): State {
    if s.up && r in s.completions && s.completions[r].phase == Closed
    then
      var c := s.completions[r];
      s.(completions := s.completions[r := c.(phase := if c.f in s.disk.final then Moved else MustMove)])
    else s
  }

  /** The rename; if another completion was faster it fails and the request dies. */
  function DoCompleteMove(s: State, r: nat): State {
    if s.up && r in s.completions && s.completions[r].phase == MustMove
    then
      var c := s.completions[r];
      match Renamed(s.disk, c.f)
      case Ok(disk) => s.(disk := disk, completions := s.completions[r := c.(phase := Moved)])
      case Err(_) => s.(completions := s.completions - {r})
    else s
  }

  function DoCompleteFinish(s: State, r: nat): State {
    if s.Free() && r in s.completions && s.completions[r].phase == Moved
    then s.(db := AfterCompleted(s.db, s.completions[r].f), completions := s.completions - {r})
    else s
  }

  // -------------------------------------------------------------------- workers

  function DoClaim(s: State, w: nat, limit: Option<nat>): State {
    var jobs := BatchJobs(s.db, BatchLimit(limit));
    if s.Free() && w !in s.workers && |jobs| > 0
    then s.(db := AfterClaim(s.db, BatchLimit(limit)), workers := s.workers[w := Reading(jobs, [], BEGUN)])
    else s
  }

  /** One call of the read of the next job's text. A read that raised goes no further. */
  function DoRead(s: State, w: nat): State {
    if s.up && w in s.workers && s.workers[w].Reading? && |s.workers[w].texts| < |s.workers[w].jobs|
    then s.(workers := s.workers[w := ReadOn(s.disk, s.workers[w])])
    else s
  }

  function ReadOn(disk: Disk, worker: Worker): Worker
    requires worker.Reading? && |worker.texts| < |worker.jobs|
  {
    var job := worker.jobs[|worker.texts|];
    match Advance(disk, job.fileId, job.range, worker.read)
    case Got(text) => worker.(texts := worker.texts + [text], read := BEGUN)
    case p => worker.(read := p)
  }

  /** The jobs whose text is empty, or is not. */
  function Kept(jobs: seq<Job>, texts: seq<seq<byte>>): seq<Passage>
    requires |texts| == |jobs|
  {
    if |jobs| == 0 then []
    else
      var n := |jobs| - 1;
      Kept(jobs[..n], texts[..n]) + if texts[n] != [] then [Passage(jobs[n], texts[n])] else []
  }

  function Empty(jobs: seq<Job>, texts: seq<seq<byte>>): seq<Job>
    requires |texts| == |jobs|
  {
    if |jobs| == 0 then []
    else
      var n := |jobs| - 1;
      Empty(jobs[..n], texts[..n]) + if texts[n] == [] then [jobs[n]] else []
  }

  /** Jobs that read back empty are completed at once; the rest go to ingestion. */
  function DoSift(s: State, w: nat): State {
    if s.up && w in s.workers && s.workers[w].Reading? && |s.workers[w].texts| == |s.workers[w].jobs|
    then
      var jobs, texts := s.workers[w].jobs, s.workers[w].texts;
      var empty := Empty(jobs, texts);
      if |empty| > 0 && s.put.Some? then s
      else
        s.(db := AfterComplete(s.db, empty),
           workers := if Kept(jobs, texts) == [] then s.workers - {w} else s.workers[w := Ingesting(jobs, texts)])
    else s
  }

  /** The passages of a batch that goes to ingestion; `[]` before that. */
  function KeptBy(worker: Worker): seq<Passage> {
    if |worker.texts| == |worker.jobs| then Kept(worker.jobs, worker.texts) else []
  }

  function PointId(job: Job): (FileId, nat) {
    (job.fileId, job.sequence)
  }

  /** One point of the batch reaches the store, overwriting any of the same id. */
  function DoUpsert(s: State, w: nat, k: nat): State {
    if s.up && w in s.workers && s.workers[w].Ingesting? && k < |KeptBy(s.workers[w])|
    then
      var p := KeptBy(s.workers[w])[k];
      s.(points := s.points[PointId(p.job) := Point(p.job.range, p.text)])
    else s
  }

  predicate Stored(points: map<(FileId, nat), Point>, p: Passage) {
    PointId(p.job) in points && points[PointId(p.job)] == Point(p.job.range, p.text)
  }

  predicate AllStored(points: map<(FileId, nat), Point>, kept: seq<Passage>) {
    forall k | 0 <= k < |kept| :: Stored(points, kept[k])
  }

  function JobsOf(kept: seq<Passage>): seq<Job> {
    seq(|kept|, k requires 0 <= k < |kept| => kept[k].job)
  }

  /** Ingestion returned, so every point is stored; the jobs it was given are completed. */
  function DoIngestOk(s: State, w: nat): State {
    if s.Free() && w in s.workers && s.workers[w].Ingesting?
       && AllStored(s.points, KeptBy(s.workers[w]))
    then
      s.(db := AfterComplete(s.db, JobsOf(KeptBy(s.workers[w]))), workers := s.workers - {w})
    else s
  }

  /** Reading, sifting or ingestion raised: every job of the batch is failed, those that
      were completed as empty among them. */
  function DoFail(s: State, w: nat): State {
    if s.Free() && w in s.workers
    then s.(db := AfterFail(s.db, s.workers[w].jobs), workers := s.workers - {w})
    else s
  }
}
