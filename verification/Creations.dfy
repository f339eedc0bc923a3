/** Which request brought a file into being, and what of it stays. */
module Creations {
  import opened Bytes
  import opened Chunker
  import opened Tables
  import opened Storage
  import opened UploadService
  import opened Pipeline
  import opened Invariant
  import opened Reachable
  import opened Elsewhere
  import History

  /** The first request to create `f` that found the service free. */
  function CreationOf(labels: seq<Label>, f: FileId): (creation: Option<Label>)
    ensures creation.Some? ==> creation.value.Create? && creation.value.f == f
  {
    if |labels| == 0 then None
    else
      var before, l := labels[..|labels| - 1], labels[|labels| - 1];
      if CreationOf(before, f).Some? then CreationOf(before, f)
      else if l.Create? && l.f == f && Run(before).Free() then Some(l)
      else None
  }

  /** A file exists exactly when it was created, and is its creator's. */
  ghost predicate IsCreated(files: map<FileId, FileRow>, f: FileId, creation: Option<Label>)
    requires creation.Some? ==> creation.value.Create?
  {
    if creation.Some? then f in files && files[f].owner == creation.value.owner else f !in files
  }

  lemma CreationStep(s: State, l: Label, f: FileId)
    requires Inv(s) && f !in s.db.files
    ensures IsCreated(Step(s, l).db.files, f, if l.Create? && l.f == f && s.Free() then Some(l) else None)
  {
    hide Inv, FeedBody, FlushRow, DoPutCommit, DoCompleteClose, DoSift, DoFail, DoIngestOk, DoClaim;
    if f in Step(s, l).db.files {
      OnlyCreateAdds(s, l, f);
    }
  }

  /** In every run a file exists if and only if a request created it, and whoever sent that
      request owns it for good. */
  lemma {:induction false} OwnedByCreator(labels: seq<Label>, f: FileId)
    ensures IsCreated(Run(labels).db.files, f, CreationOf(labels, f))
  {
    hide Inv, Step;
    if |labels| > 0 {
      var before, l := labels[..|labels| - 1], labels[|labels| - 1];
      OwnedByCreator(before, f);
      RunKeepsInv(before);
      if f in Run(before).db.files {
        History.StepEvolves(Run(before), l);
      } else {
        CreationStep(Run(before), l, f);
      }
    }
  }

  /** A new upload has received nothing and queued nothing, and nothing else changes. */
  lemma NewUpload(labels: seq<Label>, f: FileId, owner: string, totalSize: nat)
    requires Run(labels).Free() && f !in Run(labels).db.files
    ensures var s, t := Run(labels), Run(labels + [Create(f, owner, totalSize)]);
            && f in t.db.files && f in t.log && t.log[f] == []
            && var row := t.db.files[f];
               && row.owner == owner && row.totalSize == totalSize
               && row.bytesReceived == 0 && row.pendingTail == [] && row.nextSequence == 0
               && row.upload == NotStarted && row.processing == Waiting
               && row.chunksTotal == row.chunksIndexed == row.chunksFailed == 0
               && t == s.(db := s.db.(files := s.db.files[f := row]), log := s.log[f := []])
  {
    hide Run, FeedBody, FlushRow, DoPutCommit, DoCompleteClose, DoSift, DoFail, DoIngestOk, DoClaim;
    RunOneMore(labels, Create(f, owner, totalSize));
  }
}
