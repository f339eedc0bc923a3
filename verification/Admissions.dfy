/** Which requests the service takes and why it refuses the others, in terms of what was
    sent before and of the bytes of the request. */
module Admissions {
  import opened Bytes
  import opened Chunker
  import opened Tables
  import opened Storage
  import opened UploadService
  import opened Pipeline
  import opened Invariant
  import opened Reachable
  import opened Elsewhere
  import opened Creations
  import opened Resuming
  import Config
  import EndToEnd
  import UploadSteps
  import Validators

  // -------------------------------------------------------------------- refusals

  predicate Owns(db: Db, f: FileId, owner: string) {
    f in db.files && db.files[f].owner == owner
  }

  /** Each refusal of a chunk has its own condition: too large a body, a file that is
      unknown or someone else's, one that is being finalised or done, an offset other than
      the bytes received, which the refusal names, a file too large, no text. */
  lemma WhyRefused(db: Db, f: FileId, owner: string, offset: nat, body: seq<byte>)
    ensures var e := PutError(db, f, owner, offset, body);
            && (e == Some(ChunkTooLarge) <==> |body| > Config.MAX_CHUNK_BYTES)
            && (e == Some(FileNotFound) <==> |body| <= Config.MAX_CHUNK_BYTES && !Owns(db, f, owner))
            && (|body| <= Config.MAX_CHUNK_BYTES && Owns(db, f, owner) ==>
                  var row := db.files[f];
                  && ((exists status :: e == Some(UploadAlreadyDone(status))) <==> row.upload in {Finalizing, Completed})
                  && (row.upload in {Finalizing, Completed} ==> e == Some(UploadAlreadyDone(row.upload)))
                  && ((exists expected :: e == Some(OffsetMismatch(expected))) <==>
                        row.upload in {NotStarted, Uploading, Interrupted} && offset != row.bytesReceived)
                  && (e.Some? && e.value.OffsetMismatch? ==> e.value.expected == row.bytesReceived)
                  && (e == Some(FileTooLarge) <==>
                        && row.upload in {NotStarted, Uploading, Interrupted}
                        && offset == row.bytesReceived && offset + |body| > 10 * 0x4000_0000)
                  && (e == Some(NotTextFile) <==>
                        && row.upload in {NotStarted, Uploading, Interrupted}
                        && offset == row.bytesReceived == 0 && |body| <= 10 * 0x4000_0000 && !IsText(body)))
            && e != Some(NoBytesReceivedYet) && e != Some(RenameFailed)
  {
    VerdictIsText(body);
    if |body| <= Config.MAX_CHUNK_BYTES && Owns(db, f, owner) {
      var row := db.files[f];
      if row.upload in {Finalizing, Completed} {
        assert PutError(db, f, owner, offset, body) == Some(UploadAlreadyDone(row.upload));
      } else if offset != row.bytesReceived {
        assert PutError(db, f, owner, offset, body) == Some(OffsetMismatch(row.bytesReceived));
      }
    }
  }

  /** No zero byte among the first 8192, and at most a twentieth of them undecodable. */
  predicate IsText(body: seq<byte>) {
    var sample := body[..Min(|body|, 8192)];
    (forall i | 0 <= i < |sample| :: sample[i] != 0) && 20 * Validators.InvalidBytes(sample) <= |sample|
  }

  lemma VerdictIsText(body: seq<byte>)
    ensures Validators.BinaryVerdict(body) <==> !IsText(body)
  {
    if body == [] {
      assert body[..0] == [];
    }
  }

  // ------------------------------------------------------------------ chunks taken

  /** The chunk is its creator's, for a file that is open and has not its final name;
      it continues the committed bytes within the limits, and begins a file as text. */
  ghost predicate Admits(labels: seq<Label>, f: FileId, owner: string, offset: nat, body: seq<byte>) {
    var s, creation := Run(labels), CreationOf(labels, f);
    && s.Free() && creation.Some? && creation.value.owner == owner
    && f in s.db.files && s.db.files[f].upload in {NotStarted, Uploading, Interrupted} && f !in s.disk.final
    && f in s.log && offset == |Content(s.log[f])|
    && |body| <= Config.MAX_CHUNK_BYTES && offset + |body| <= 10 * 0x4000_0000
    && (offset == 0 ==> IsText(body))
  }

  /** In every run a chunk is taken if and only if it is admitted; then all of it is in
      flight, checked against its file as it is. Otherwise nothing changes. */
  lemma ChunkTakenIff(labels: seq<Label>, f: FileId, owner: string, offset: nat, body: seq<byte>)
    ensures var s, t := Run(labels), Run(labels + [PutCheck(f, owner, offset, body)]);
            if Admits(labels, f, owner, offset, body)
            then f in s.db.files && t == s.(put := Some(Put(f, s.db.files[f], body, Checked, 0)))
            else t == s
  {
    hide Run, Content, Validators.BinaryVerdict, IsText, FileStream, DoPutTrim, DoPutWrite, DoPutCommit;
    var s := Run(labels);
    RunAndCheck(labels, f, owner, offset, body, s);
    OwnedByCreator(labels, f);
    VerdictIsText(body);
    AcceptedExactlyWhen(s.db, f, owner, offset, body);
    if f in s.db.files {
      ReceivedIsContent(labels, f);
    }
  }

  lemma RunAndCheck(labels: seq<Label>, f: FileId, owner: string, offset: nat, body: seq<byte>, s: State)
    requires Run(labels) == s
    ensures Run(labels + [PutCheck(f, owner, offset, body)]) == DoPutCheck(s, f, owner, offset, body)
  {
    hide Run, Drain, PutError;
    RunOneMore(labels, PutCheck(f, owner, offset, body));
  }

  lemma ReceivedIsContent(labels: seq<Label>, f: FileId)
    requires f in Run(labels).db.files
    ensures f in Run(labels).log && Run(labels).db.files[f].bytesReceived == |Content(Run(labels).log[f])|
  {
    hide Run, Content, FileStream;
    RunKeepsInv(labels);
    UploadSteps.OneStream(Run(labels).db, Run(labels).log, f);
    CommittedLength(Run(labels).db, Run(labels).log, f);
  }

  // ------------------------------------------------------------- completions taken

  /** The completion is its creator's, of a file with bytes that is not completed yet. */
  ghost predicate MayBegin(labels: seq<Label>, r: nat, f: FileId, owner: string) {
    var s, creation := Run(labels), CreationOf(labels, f);
    && s.Free() && r !in s.completions && creation.Some? && creation.value.owner == owner
    && f in s.db.files && s.db.files[f].upload != Completed
    && f in s.log && |Content(s.log[f])| > 0
  }

  /** In every run a completion begins if and only if it may: the file is closed, its size
      is what was received and nothing is held back. Otherwise, for a file that is unknown,
      someone else's, empty or completed, nothing changes. */
  lemma CompletionBeginsIff(labels: seq<Label>, r: nat, f: FileId, owner: string)
    ensures var s, t := Run(labels), Run(labels + [CompleteClose(r, f, owner)]);
            if MayBegin(labels, r, f, owner)
            then
              && t.completions == s.completions[r := Completion(f, Closed)]
              && f in t.db.files && t.db.files[f].upload == Finalizing && t.db.files[f].pendingTail == []
              && t.db.files[f].totalSize == t.db.files[f].bytesReceived == |Content(s.log[f])|
              && t.db.files[f].owner == owner && t.db.files.Keys == s.db.files.Keys
              && (forall g | g in s.db.files && g != f :: t.db.files[g] == s.db.files[g])
              && t.disk == s.disk && t.log == s.log && t.points == s.points && t.workers == s.workers
            else t == s
  {
    hide Run, Content, FileStream, FlushRow;
    var s := Run(labels);
    RunAndClose(labels, r, f, owner, s);
    OwnedByCreator(labels, f);
    if f in s.db.files {
      ReceivedIsContent(labels, f);
    }
  }

  /** Why a completion is refused. */
  lemma WhyNotCompleted(db: Db, f: FileId, owner: string)
    ensures CompleteError(db, f, owner) == Some(FileNotFound) <==> !Owns(db, f, owner)
    ensures CompleteError(db, f, owner) == Some(NoBytesReceivedYet) <==>
              Owns(db, f, owner) && db.files[f].upload != Completed && db.files[f].bytesReceived == 0
    ensures CompleteError(db, f, owner) == None <==>
              Owns(db, f, owner) && (db.files[f].upload == Completed || db.files[f].bytesReceived > 0)
  {
  }

  // ----------------------------------------------------------- every file is text

  ghost predicate BeginsAsText(s: State, f: FileId) {
    && (s.put.Some? && s.put.value.f == f && s.put.value.row.bytesReceived == 0 ==> IsText(s.put.value.body))
    && (f in s.log ==> forall k | 0 <= k < |s.log[f]| && s.log[f][k].offset == 0 :: IsText(s.log[f][k].body))
  }

  lemma CheckedIsText(s: State, f: FileId, g: FileId, owner: string, offset: nat, body: seq<byte>)
    requires BeginsAsText(s, f)
    ensures BeginsAsText(DoPutCheck(s, g, owner, offset, body), f)
  {
    hide IsText, Validators.BinaryVerdict;
    VerdictIsText(body);
  }

  lemma CommittedIsText(s: State, f: FileId)
    requires BeginsAsText(s, f) && Commits(s, f)
    ensures BeginsAsText(DoPutCommit(s), f)
  {
    hide IsText, AfterPut;
  }

  lemma StepBeginsAsText(s: State, l: Label, f: FileId)
    requires Inv(s) && BeginsAsText(s, f)
    ensures BeginsAsText(Step(s, l), f)
  {
    hide Inv, IsText, DoPutCheck, DoPutCommit, FeedBody, FlushRow, AfterPut, AfterFinalizing, AfterCompleted;
    if l.PutCheck? {
      CheckedIsText(s, f, l.f, l.owner, l.offset, l.body);
    } else if l.PutCommit? && Commits(s, f) {
      CommittedIsText(s, f);
    } else {
      OtherBeginsAsText(s, l, f);
    }
  }

  lemma OtherBeginsAsText(s: State, l: Label, f: FileId)
    requires Inv(s) && BeginsAsText(s, f) && !l.PutCheck? && !(l.PutCommit? && Commits(s, f))
    ensures BeginsAsText(Step(s, l), f)
  {
    hide Inv, Step, IsText;
    if Step(s, l).put.Some? {
      PutComesFromCheck(s, l);
    }
    if f in s.log {
      LogOfOthers(s, l, f);
    } else {
      NewLogIsFaithful(s, l, f, []);
    }
  }

  /** In no run a body with a zero byte among its first 8192, or with more than a twentieth
      of them undecodable, is ever committed as the beginning of a file. */
  lemma {:induction false} FilesBeginAsText(labels: seq<Label>, f: FileId)
    ensures BeginsAsText(Run(labels), f)
  {
    hide Inv, Step, BeginsAsText;
    if |labels| > 0 {
      var before, l := labels[..|labels| - 1], labels[|labels| - 1];
      FilesBeginAsText(before, f);
      RunKeepsInv(before);
      StepBeginsAsText(Run(before), l, f);
    } else {
      NothingBegins(f);
    }
  }

  lemma NothingBegins(f: FileId)
    ensures BeginsAsText(INITIAL, f)
  {
  }
}
