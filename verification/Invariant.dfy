/** What is true in every reachable state of the service. */
module Invariant {
  import opened Bytes
  import opened Chunker
  import opened ChunkerLaws
  import opened Tables
  import opened Storage
  import opened JobQueue
  import opened Accounting
  import opened QueueLaws
  import opened Pipeline
  import Config

  // -------------------------------------------------------------------- streams

  /** Each body was committed where the bytes before it end. */
  ghost predicate OffsetsOk(log: seq<Accepted>) {
    forall k | 0 <= k < |log| :: OffsetOk(log, k)
  }

  ghost predicate OffsetOk(log: seq<Accepted>, k: nat)
    requires k < |log|
  {
    log[k].offset == |Content(log[..k])|
  }

  /** A file's passages and tail are those of a chunker fed with its committed
      bytes; once closed, no byte is left in the tail. */
  ghost predicate FileStream(row: FileRow, ranges: seq<Range>, stream: seq<byte>) {
    && row.bytesReceived == |stream| <= Config.MAX_FILE_BYTES
    && Tracks(ChunkState(ranges, |stream| - |row.pendingTail|, row.pendingTail), stream)
    && (row.upload == Finalizing || row.upload == Completed ==>
          row.bytesReceived > 0 && row.pendingTail == [] && row.totalSize == row.bytesReceived)
  }

  ghost predicate StreamsOk(db: Db, log: map<FileId, seq<Accepted>>) {
    && log.Keys == db.files.Keys
    && (forall f | f in log :: OffsetsOk(log[f]))
    && (forall f | f in log :: FileStream(db.files[f], FileRanges(db.chunks, f), Content(log[f])))
  }

  // ----------------------------------------------------------------------- disk

  /** The readable file starts with the committed bytes. Under its final name it is
      the only one, and its upload has nothing left to flush. */
  ghost predicate FileOnDisk(row: FileRow, stream: seq<byte>, disk: Disk, f: FileId) {
    && (f in disk.final ==>
          f !in disk.partial && stream <= disk.final[f] && row.bytesReceived > 0 && row.pendingTail == [])
    && (f !in disk.final && row.bytesReceived > 0 ==> f in disk.partial && stream <= disk.partial[f])
    && (row.upload == Completed ==> f in disk.final)
  }

  ghost predicate DiskOk(files: map<FileId, FileRow>, log: map<FileId, seq<Accepted>>, disk: Disk) {
    && disk.partial.Keys <= files.Keys && disk.final.Keys <= files.Keys && log.Keys == files.Keys
    && forall f | f in log :: FileOnDisk(files[f], Content(log[f]), disk, f)
  }

  // ------------------------------------------------------------------- requests

  /** A chunk in its transaction: its row is as it was read, its file is still open,
      and once trimmed the disk holds the committed bytes and what was written. */
  ghost predicate PutOk(files: map<FileId, FileRow>, log: map<FileId, seq<Accepted>>, disk: Disk, put: Option<Put>) {
    put.Some? ==>
      var p := put.value;
      && p.f in files && p.f in log && files[p.f] == p.row
      && p.row.upload != Completed && p.row.upload != Finalizing
      && p.row.bytesReceived + |p.body| <= Config.MAX_FILE_BYTES
      && p.f !in disk.final
      && p.written <= |p.body|
      && (p.phase != Opened ==> p.written == 0)
      && (p.phase == Opened ==> p.f in disk.partial)
      && (p.phase != Checked ==>
            (if p.f in disk.partial then disk.partial[p.f] else []) == Content(log[p.f]) + p.body[..p.written])
  }

  /** While a completion is between its transactions its file stays closed. */
  ghost predicate CompletionOk(files: map<FileId, FileRow>, disk: Disk, c: Completion) {
    && c.f in files && (files[c.f].upload == Finalizing || files[c.f].upload == Completed)
    && (c.phase == Moved ==> c.f in disk.final)
  }

  ghost predicate CompletionsOk(files: map<FileId, FileRow>, disk: Disk, completions: map<nat, Completion>) {
    forall r | r in completions :: CompletionOk(files, disk, completions[r])
  }

  // -------------------------------------------------------------------- workers

  /** The text is that of the job's range in the committed bytes of its file. */
  ghost predicate TextOk(log: map<FileId, seq<Accepted>>, job: Job, text: seq<byte>) {
    && job.fileId in log
    && 0 <= job.range.start < job.range.end <= |Content(log[job.fileId])|
    && text == Content(log[job.fileId])[job.range.start..job.range.end]
  }

  /** A read finds that text or nothing. */
  ghost predicate ReadOk(log: map<FileId, seq<Accepted>>, job: Job, text: seq<byte>) {
    text == [] || TextOk(log, job, text)
  }

  /** Where a batch goes to ingestion, the jobs that read back empty have been completed. */
  function StatusOf(worker: Worker, k: nat): ChunkStatus
    requires worker.Ingesting? ==> k < |worker.texts|
  {
    if worker.Ingesting? && worker.texts[k] == [] then Indexed else Processing
  }

  ghost predicate WorkerOk(chunks: seq<ChunkRow>, log: map<FileId, seq<Accepted>>, worker: Worker) {
    && |worker.jobs| > 0
    && Listed(chunks, worker.jobs, worker.jobs[0].fileId)
    && |worker.texts| <= |worker.jobs|
    && (forall k | 0 <= k < |worker.texts| :: ReadOk(log, worker.jobs[k], worker.texts[k]))
    && (worker.Reading? ==> !worker.read.Got?)
    && (worker.Ingesting? ==> |worker.texts| == |worker.jobs| && KeptBy(worker) != [])
    && (forall k | 0 <= k < |worker.jobs| :: chunks[worker.jobs[k].chunkId].status == StatusOf(worker, k))
  }

  /** No row is held twice. */
  ghost predicate Disjoint(workers: map<nat, Worker>) {
    forall v, w | v in workers && w in workers && v != w ::
      forall i, j | 0 <= i < |workers[v].jobs| && 0 <= j < |workers[w].jobs| ::
        workers[v].jobs[i].chunkId != workers[w].jobs[j].chunkId
  }

  ghost predicate WorkersOk(chunks: seq<ChunkRow>, log: map<FileId, seq<Accepted>>, workers: map<nat, Worker>) {
    && (forall w | w in workers :: WorkerOk(chunks, log, workers[w]))
    && Disjoint(workers)
  }

  // --------------------------------------------------------------------- points

  /** A stored point is some row's: it carries that row's range and embeds exactly
      that range of the committed bytes. */
  ghost predicate PointOk(chunks: seq<ChunkRow>, log: map<FileId, seq<Accepted>>, id: (FileId, nat), point: Point) {
    && id.0 in log
    && id.1 < |FileRanges(chunks, id.0)|
    && point.range == FileRanges(chunks, id.0)[id.1]
    && 0 <= point.range.start <= point.range.end <= |Content(log[id.0])|
    && point.text == Content(log[id.0])[point.range.start..point.range.end]
  }

  ghost predicate PointsOk(chunks: seq<ChunkRow>, log: map<FileId, seq<Accepted>>, points: map<(FileId, nat), Point>) {
    forall id | id in points :: PointOk(chunks, log, id, points[id])
  }

  // ------------------------------------------------------------------ the whole

  ghost predicate Inv(s: State) {
    && TablesOk(s.db)
    && StreamsOk(s.db, s.log)
    && DiskOk(s.db.files, s.log, s.disk)
    && PutOk(s.db.files, s.log, s.disk, s.put)
    && CompletionsOk(s.db.files, s.disk, s.completions)
    && WorkersOk(s.db.chunks, s.log, s.workers)
    && PointsOk(s.db.chunks, s.log, s.points)
    && (!s.up ==> s.put.None? && s.completions == map[] && s.workers == map[])
  }
}
