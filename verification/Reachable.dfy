/** The invariant holds in every reachable state: of any interleaving of requests,
    workers, crashes and restarts. */
module Reachable {
  import opened Chunker
  import opened Tables
  import opened Storage
  import opened JobQueue
  import opened Accounting
  import opened Pipeline
  import opened Invariant
  import opened UploadSteps
  import opened WorkerSteps

  lemma UploadStepKeepsInv(s: State, l: Label)
    requires Inv(s)
    requires l.Create? || l.PutCheck? || l.PutTrim? || l.PutWrite? || l.PutCommit? || l.PutAbort?
    ensures Inv(Step(s, l))
  {
    hide Inv, Drain, WorkersOk, WorkerOk;
    match l
    case Create(f, owner, totalSize) => CreateKeepsInv(s, f, owner, totalSize);
    case PutCheck(f, owner, offset, body) => PutCheckKeepsInv(s, f, owner, offset, body);
    case PutTrim => TrimKeepsInv(s);
    case PutWrite(count) => WriteKeepsInv(s, count);
    case PutCommit => CommitKeepsInv(s);
    case PutAbort => AbortKeepsInv(s);
  }

  lemma CompleteStepKeepsInv(s: State, l: Label)
    requires Inv(s)
    requires l.CompleteClose? || l.CompleteLook? || l.CompleteMove? || l.CompleteFinish? || l.CompleteDrop?
    ensures Inv(Step(s, l))
  {
    hide Inv, Drain, TablesOk, WorkersOk, WorkerOk;
    match l
    case CompleteClose(r, f, owner) => CloseKeepsInv(s, r, f, owner);
    case CompleteLook(r) => LookKeepsInv(s, r);
    case CompleteMove(r) => MoveKeepsInv(s, r);
    case CompleteFinish(r) => FinishKeepsInv(s, r);
    case CompleteDrop(r) => FewerCompletions(s, r);
  }

  lemma WorkerStepKeepsInv(s: State, l: Label)
    requires Inv(s)
    requires l.Claim? || l.Read? || l.Sift? || l.Upsert? || l.IngestOk? || l.Fail? || l.Abandon? || l.Crash? || l.Recover?
    ensures Inv(Step(s, l))
  {
    hide Inv, Drain;
    match l
    case Claim(w, limit) => ClaimKeepsInv(s, w, limit);
    case Read(w) => ReadKeepsInv(s, w);
    case Sift(w) => SiftKeepsInv(s, w);
    case Upsert(w, k) => UpsertKeepsInv(s, w, k);
    case IngestOk(w) => IngestOkKeepsInv(s, w);
    case Fail(w) => FailKeepsInv(s, w);
    case Abandon(w) => AbandonKeepsInv(s, w);
    case Crash => CrashKeepsInv(s);
    case Recover => RecoverKeepsInv(s);
  }

  /** No step of any request, worker, crash or restart breaks the invariant. */
  lemma StepKeepsInv(s: State, l: Label)
    requires Inv(s)
    ensures Inv(Step(s, l))
  {
    hide Inv, Drain, Step;
    if l.Create? || l.PutCheck? || l.PutTrim? || l.PutWrite? || l.PutCommit? || l.PutAbort? {
      UploadStepKeepsInv(s, l);
    } else if l.CompleteClose? || l.CompleteLook? || l.CompleteMove? || l.CompleteFinish? || l.CompleteDrop? {
      CompleteStepKeepsInv(s, l);
    } else {
      WorkerStepKeepsInv(s, l);
    }
  }

  /** Every run, from an empty database and directory on. */
  lemma {:induction false} RunKeepsInv(labels: seq<Label>)
    ensures Inv(Run(labels))
  {
    hide Drain, Step;
    if |labels| > 0 {
      RunKeepsInv(labels[..|labels| - 1]);
      StepKeepsInv(Run(labels[..|labels| - 1]), labels[|labels| - 1]);
    } else {
      assert Keys(INITIAL.db.chunks) == [];
    }
  }

  lemma TablesOfRun(labels: seq<Label>)
    ensures TablesOk(Run(labels).db)
  {
    hide Run, TablesOk, StreamsOk, DiskOk, PointsOk, PointOk, WorkersOk, WorkerOk, PutOk, CompletionsOk;
    RunKeepsInv(labels);
  }

  /** A run goes on from where a shorter one stopped. */
  lemma RunOneMore(labels: seq<Label>, l: Label)
    ensures Run(labels + [l]) == Step(Run(labels), l)
  {
    hide Drain, Step;
    assert (labels + [l])[..|labels|] == labels;
  }

  lemma RunTwoMore(labels: seq<Label>, l: Label, m: Label)
    ensures Run(labels + [l, m]) == Step(Step(Run(labels), l), m)
  {
    hide Run, Drain, Step;
    RunOneMore(labels, l);
    RunOneMore(labels + [l], m);
    assert labels + [l, m] == (labels + [l]) + [m];
  }

  lemma RunAndClose(labels: seq<Label>, r: nat, f: FileId, owner: string, s: State)
    requires Run(labels) == s
    ensures Run(labels + [CompleteClose(r, f, owner)]) == DoCompleteClose(s, r, f, owner)
  {
    hide Run, Drain;
    RunOneMore(labels, CompleteClose(r, f, owner));
  }
}
