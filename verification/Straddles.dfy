/** Reads that race with the rename. A read looks for the final name and then for the
    partial one: exactly when the rename falls between the two looks it finds neither,
    and its text is empty. */
module Straddles {
  import opened Bytes
  import opened Chunker
  import opened Tables
  import opened Storage
  import opened JobQueue
  import opened UploadService
  import opened Accounting
  import opened QueueLaws
  import opened Pipeline
  import opened Invariant
  import opened Reachable
  import opened WorkerSteps

  // ------------------------------------------------------------------ the events

  /** The worker has seen that the next job's file has no final name, and has not
      looked for the partial one. */
  predicate Looking(worker: Worker) {
    && worker.Reading? && |worker.texts| < |worker.jobs|
    && worker.read.At? && worker.read.look == ForPartial
  }

  /** The step gives `f` its final name. */
  predicate Renames(s: State, l: Label, f: FileId) {
    && l.CompleteMove? && s.up && l.r in s.completions && s.completions[l.r] == Completion(f, MustMove)
    && f in s.disk.partial
  }

  /** The step renames the file that `w` looks for, between its two looks. */
  predicate Straddles(s: State, l: Label, w: nat) {
    w in s.workers && Looking(s.workers[w]) && Renames(s, l, s.workers[w].jobs[|s.workers[w].texts|].fileId)
  }

  /** Which reads of the batch of `w` were straddled by a rename. */
  function Torn(labels: seq<Label>, w: nat): set<nat> {
    if |labels| == 0 then {}
    else
      var before, l := labels[..|labels| - 1], labels[|labels| - 1];
      TornBy(Run(before), l, w, Torn(before, w))
  }

  function TornBy(s: State, l: Label, w: nat, torn: set<nat>): set<nat> {
    if l.Claim? && l.w == w && w !in s.workers then {}
    else if Straddles(s, l, w) then torn + {|s.workers[w].texts|}
    else torn
  }

  // --------------------------------------------------------------- the invariant

  /** How far the next read has got agrees with the directory. */
  ghost predicate LookOk(disk: Disk, f: FileId, p: Progress, torn: bool) {
    && p.At?
    && (p.look == OpenFinal ==> f in disk.final)
    && (p.again ==> f in disk.final && (p.look == ForFinal || p.look == OpenFinal))
    && (p.look == ForPartial ==> (f in disk.final <==> torn))
    && (p.look != ForPartial ==> !torn)
  }

  /** Exactly the straddled reads found nothing, and the next one is straddled exactly
      when its file has got its final name since the first look. */
  ghost predicate TornOk(disk: Disk, worker: Worker, torn: set<nat>) {
    && (forall k | 0 <= k < |worker.texts| :: worker.texts[k] == [] <==> k in torn)
    && (forall k | k in torn :: k <= |worker.texts| && k < |worker.jobs|)
    && (worker.Reading? && |worker.texts| < |worker.jobs| ==>
          LookOk(disk, worker.jobs[|worker.texts|].fileId, worker.read, |worker.texts| in torn))
    && (worker.Reading? && |worker.texts| == |worker.jobs| ==> worker.read == BEGUN)
  }

  // ------------------------------------------------------------------- each step

  /** Steps other than these leave every worker that stays as it was, and all final
      names. */
  predicate LeavesReads(l: Label) {
    !l.Claim? && !l.Read? && !l.Sift? && !l.CompleteMove?
  }

  lemma UploadsLeaveReads(s: State, l: Label)
    requires l.Create? || l.PutCheck? || l.PutTrim? || l.PutWrite? || l.PutCommit? || l.PutAbort? || l.CompleteClose?
             || l.CompleteLook? || l.CompleteFinish? || l.CompleteDrop?
    ensures Step(s, l).workers == s.workers && Step(s, l).disk.final == s.disk.final
  {
    hide AfterPut, AfterFinalizing, AfterCompleted, PutError, CompleteError, Drain;
  }

  lemma VerdictsLeaveReads(s: State, l: Label, w: nat)
    requires l.Upsert? || l.IngestOk? || l.Fail? || l.Abandon? || l.Crash? || l.Recover?
    requires w in Step(s, l).workers
    ensures w in s.workers && Step(s, l).workers[w] == s.workers[w] && Step(s, l).disk.final == s.disk.final
  {
    hide AfterComplete, AfterFail, AfterRecover, KeptBy, AllStored, JobsOf, DoCreate, DoPutCheck, DoPutTrim, DoPutWrite,
         DoPutCommit, DoCompleteClose, DoCompleteLook, DoCompleteMove, DoCompleteFinish, DoClaim, DoRead, DoSift;
  }

  lemma ReadsLeft(s: State, l: Label, w: nat)
    requires LeavesReads(l) && w in Step(s, l).workers
    ensures w in s.workers && Step(s, l).workers[w] == s.workers[w] && Step(s, l).disk.final == s.disk.final
  {
    hide Step;
    if l.Upsert? || l.IngestOk? || l.Fail? || l.Abandon? || l.Crash? || l.Recover? {
      VerdictsLeaveReads(s, l, w);
    } else {
      UploadsLeaveReads(s, l);
    }
  }

  /** What a read does for a worker whose jobs are placed. */
  lemma ReadIsTorn(disk: Disk, worker: Worker, torn: set<nat>, stream: seq<byte>)
    requires worker.Reading? && |worker.texts| < |worker.jobs| && TornOk(disk, worker, torn)
    requires var job := worker.jobs[|worker.texts|];
             Placed(disk, job.fileId, stream) && 0 <= job.range.start < job.range.end <= |stream|
    ensures TornOk(disk, ReadOn(disk, worker), torn)
  {
    hide Advance, Placed;
    var n := |worker.texts|;
    var job := worker.jobs[n];
    ReadIsExact(disk, job.fileId, stream, job.range, worker.read);
    var next := ReadOn(disk, worker);
    forall k | 0 <= k < |next.texts|
      ensures next.texts[k] == [] <==> k in torn
    {
      assert k < n ==> next.texts[k] == worker.texts[k];
    }
  }

  lemma ReadStep(s: State, w: nat, v: nat, torn: set<nat>)
    requires TablesOk(s.db) && StreamsOk(s.db, s.log) && DiskOk(s.db.files, s.log, s.disk)
    requires WorkersOk(s.db.chunks, s.log, s.workers)
    requires v in s.workers && TornOk(s.disk, s.workers[v], torn)
    ensures var t := DoRead(s, w);
            v in t.workers && TornOk(t.disk, t.workers[v], torn)
  {
    hide TablesOk, StreamsOk, DiskOk, WorkersOk, WorkerOk, Content, ReadOn, TornOk, Placed, ListedJob;
    if s.up && w == v && s.workers[w].Reading? && |s.workers[w].texts| < |s.workers[w].jobs| {
      var job := s.workers[w].jobs[|s.workers[w].texts|];
      WorkerFacts(s.db.chunks, s.log, s.workers, w, |s.workers[w].texts|);
      JobPlaced(s, job, job.fileId);
      ReadIsTorn(s.disk, s.workers[w], torn, Content(s.log[job.fileId]));
    }
  }

  /** A claimed batch has been read nothing of. */
  lemma ClaimStep(s: State, w: nat, limit: Option<nat>, v: nat, torn: set<nat>)
    requires v in s.workers ==> TornOk(s.disk, s.workers[v], torn)
    requires v in DoClaim(s, w, limit).workers
    ensures var t := DoClaim(s, w, limit);
            TornOk(t.disk, t.workers[v], TornBy(s, Claim(w, limit), v, torn))
  {
    hide BatchJobs, AfterClaim;
  }

  lemma SiftStep(s: State, w: nat, v: nat, torn: set<nat>)
    requires v in s.workers ==> TornOk(s.disk, s.workers[v], torn)
    requires v in DoSift(s, w).workers
    ensures v in s.workers && DoSift(s, w).disk == s.disk && TornOk(s.disk, DoSift(s, w).workers[v], torn)
  {
    hide Kept, Empty, AfterComplete;
  }

  /** The rename tears exactly the reads that have looked for the final name only. */
  lemma MoveIsTorn(disk: Disk, f: FileId, after: Disk, worker: Worker, torn: set<nat>)
    requires TornOk(disk, worker, torn) && f !in disk.final
    requires forall g :: g in after.final <==> g in disk.final || g == f
    ensures TornOk(after, worker, if Looking(worker) && worker.jobs[|worker.texts|].fileId == f
                                  then torn + {|worker.texts|} else torn)
  {
  }

  lemma MoveStep(s: State, r: nat, v: nat, torn: set<nat>)
    requires DiskOk(s.db.files, s.log, s.disk)
    requires v in s.workers && TornOk(s.disk, s.workers[v], torn)
    ensures var t := DoCompleteMove(s, r);
            v in t.workers && TornOk(t.disk, t.workers[v], TornBy(s, CompleteMove(r), v, torn))
  {
    hide TornOk;
    if s.up && r in s.completions && s.completions[r].phase == MustMove && s.completions[r].f in s.disk.partial {
      var f := s.completions[r].f;
      assert FileOnDisk(s.db.files[f], Content(s.log[f]), s.disk, f);
      MoveIsTorn(s.disk, f, Renamed(s.disk, f).value, s.workers[v], torn);
    }
  }

  lemma MoveKeepsNames(s: State, r: nat)
    ensures DoCompleteMove(s, r).workers == s.workers
  {
  }

  lemma SameTorn(s: State, l: Label, w: nat, torn: set<nat>)
    requires w in s.workers && !l.CompleteMove?
    ensures TornBy(s, l, w, torn) == torn
  {
  }

  lemma StepNames(s: State, l: Label)
    ensures l.Claim? ==> Step(s, l) == DoClaim(s, l.w, l.limit)
    ensures l.Read? ==> Step(s, l) == DoRead(s, l.w)
    ensures l.Sift? ==> Step(s, l) == DoSift(s, l.w)
    ensures l.CompleteMove? ==> Step(s, l) == DoCompleteMove(s, l.r)
  {
    hide DoClaim, DoRead, DoSift, DoCompleteMove, DoPutCheck, DoPutTrim, DoPutWrite, DoPutCommit, DoCreate;
  }

  lemma StepIsTorn(s: State, l: Label, w: nat, torn: set<nat>)
    requires Inv(s) && (w in s.workers ==> TornOk(s.disk, s.workers[w], torn)) && w in Step(s, l).workers
    ensures TornOk(Step(s, l).disk, Step(s, l).workers[w], TornBy(s, l, w, torn))
  {
    hide Inv, TornOk, TornBy, Step;
    StepNames(s, l);
    if l.Claim? {
      ClaimStep(s, l.w, l.limit, w, torn);
    } else if l.Read? {
      OldWorker(s, l, w);
      OpenInv(s);
      ReadStep(s, l.w, w, torn);
      SameTorn(s, l, w, torn);
    } else if l.Sift? {
      SiftStep(s, l.w, w, torn);
      SameTorn(s, l, w, torn);
    } else if l.CompleteMove? {
      OpenInv(s);
      MoveKeepsNames(s, l.r);
      MoveStep(s, l.r, w, torn);
    } else {
      ReadsLeft(s, l, w);
      SameTorn(s, l, w, torn);
      SameLooks(s.disk, Step(s, l).disk, s.workers[w], torn);
    }
  }

  lemma OpenInv(s: State)
    requires Inv(s)
    ensures TablesOk(s.db) && StreamsOk(s.db, s.log) && DiskOk(s.db.files, s.log, s.disk)
    ensures WorkersOk(s.db.chunks, s.log, s.workers)
  {
  }

  lemma OldWorker(s: State, l: Label, w: nat)
    requires l.Read? && w in Step(s, l).workers
    ensures w in s.workers
  {
  }

  lemma SameLooks(disk: Disk, after: Disk, worker: Worker, torn: set<nat>)
    requires TornOk(disk, worker, torn) && after.final == disk.final
    ensures TornOk(after, worker, torn)
  {
  }

  lemma {:induction false} TornInRun(labels: seq<Label>, w: nat)
    requires w in Run(labels).workers
    ensures TornOk(Run(labels).disk, Run(labels).workers[w], Torn(labels, w))
  {
    hide Inv, Step, TornOk, TornBy;
    var before, l := labels[..|labels| - 1], labels[|labels| - 1];
    if w in Run(before).workers {
      TornInRun(before, w);
    }
    RunKeepsInv(before);
    StepIsTorn(Run(before), l, w, Torn(before, w));
  }

  // -------------------------------------------------------------- what it comes to

  /** In every run a text that was read is empty if and only if a rename of its file fell
      between the two looks of that read; otherwise it is exactly the committed bytes
      of its job's range. */
  lemma EmptyExactlyWhen(labels: seq<Label>, w: nat, k: nat)
    requires w in Run(labels).workers && k < |Run(labels).workers[w].texts|
    ensures var s := Run(labels);
            var worker := s.workers[w];
            && k < |worker.jobs|
            && (worker.texts[k] == [] <==> k in Torn(labels, w))
            && (k !in Torn(labels, w) ==> TextOk(s.log, worker.jobs[k], worker.texts[k]))
  {
    hide Run, Torn, TablesOk, StreamsOk, DiskOk, PointsOk, PutOk, CompletionsOk, Listed, LookOk;
    RunKeepsInv(labels);
    TornInRun(labels, w);
    var s := Run(labels);
    assert WorkerOk(s.db.chunks, s.log, s.workers[w]);
    assert ReadOk(s.log, s.workers[w].jobs[k], s.workers[w].texts[k]);
  }

  /** The single retry is enough: no read ever raises, whatever is renamed meanwhile. */
  lemma ReadsNeverRaise(labels: seq<Label>, w: nat)
    requires w in Run(labels).workers && Run(labels).workers[w].Reading?
    ensures Run(labels).workers[w].read.At?
  {
    hide Run, Torn, TablesOk, StreamsOk, DiskOk, PointsOk, PutOk, CompletionsOk, Listed;
    RunKeepsInv(labels);
    TornInRun(labels, w);
    assert WorkerOk(Run(labels).db.chunks, Run(labels).log, Run(labels).workers[w]);
  }

  /** A rename of `f` fell between the two looks of some worker. */
  ghost predicate Straddled(labels: seq<Label>, f: FileId) {
    |labels| > 0 &&
    var before, l := labels[..|labels| - 1], labels[|labels| - 1];
    Straddled(before, f) || (Renames(Run(before), l, f) && exists w :: Straddles(Run(before), l, w))
  }

  /** Then, and only then, can a read of `f` have found nothing. */
  lemma {:induction false} TornIsStraddled(labels: seq<Label>, w: nat)
    requires w in Run(labels).workers && Torn(labels, w) != {}
    ensures |Run(labels).workers[w].jobs| > 0 && Straddled(labels, Run(labels).workers[w].jobs[0].fileId)
  {
    hide Inv, Step, TornOk, LeavesReads;
    var before, l := labels[..|labels| - 1], labels[|labels| - 1];
    RunKeepsInv(before);
    SameBatch(Run(before), l, w);
    OneWorkerOf(Run(before), w);
    if Straddles(Run(before), l, w) {
      SameFile(Run(before), w);
    } else {
      TornIsStraddled(before, w);
    }
  }

  lemma OneWorkerOf(s: State, w: nat)
    requires Inv(s)
    ensures w in s.workers ==> |s.workers[w].jobs| > 0
  {
    if w in s.workers {
      assert WorkerOk(s.db.chunks, s.log, s.workers[w]);
    }
  }

  lemma SameFile(s: State, w: nat)
    requires Inv(s) && w in s.workers && |s.workers[w].texts| < |s.workers[w].jobs|
    ensures s.workers[w].jobs[|s.workers[w].texts|].fileId == s.workers[w].jobs[0].fileId
  {
    OpenInv(s);
    WorkerFacts(s.db.chunks, s.log, s.workers, w, |s.workers[w].texts|);
  }

  /** A worker that was there keeps its jobs; one that was not has just claimed them. */
  lemma SameBatch(s: State, l: Label, w: nat)
    requires w in Step(s, l).workers
    ensures w in s.workers ==> Step(s, l).workers[w].jobs == s.workers[w].jobs
    ensures w !in s.workers ==> l.Claim? && l.w == w
  {
    hide AfterPut, AfterFinalizing, AfterCompleted, AfterComplete, AfterFail, AfterRecover, KeptBy, Kept, Empty, Drain,
         BatchJobs, AfterClaim, Advance;
  }
}
