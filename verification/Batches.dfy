/** A claimed batch after its reads: the jobs that read back empty and the passages that
    are kept share the jobs out between them. */
module Batches {
  import opened Bytes
  import opened Chunker
  import opened Tables
  import opened JobQueue
  import opened Accounting
  import opened QueueLaws
  import opened Pipeline

  // ------------------------------------------------------------------- where from

  lemma {:induction false} KeptAt(jobs: seq<Job>, texts: seq<seq<byte>>, k: nat) returns (j: nat)
    requires |texts| == |jobs| && k < |Kept(jobs, texts)|
    ensures j < |jobs| && texts[j] != [] && Kept(jobs, texts)[k] == Passage(jobs[j], texts[j])
  {
    var n := |jobs| - 1;
    if k < |Kept(jobs[..n], texts[..n])| {
      j := KeptAt(jobs[..n], texts[..n], k);
    } else {
      j := n;
    }
  }

  lemma {:induction false} EmptyAt(jobs: seq<Job>, texts: seq<seq<byte>>, k: nat) returns (j: nat)
    requires |texts| == |jobs| && k < |Empty(jobs, texts)|
    ensures j < |jobs| && texts[j] == [] && Empty(jobs, texts)[k] == jobs[j]
  {
    var n := |jobs| - 1;
    if k < |Empty(jobs[..n], texts[..n])| {
      j := EmptyAt(jobs[..n], texts[..n], k);
    } else {
      j := n;
    }
  }

  /** No text is empty, so all jobs are kept. */
  lemma {:induction false} NothingIsEmpty(jobs: seq<Job>, texts: seq<seq<byte>>)
    requires |texts| == |jobs| && forall k | 0 <= k < |texts| :: texts[k] != []
    ensures Empty(jobs, texts) == []
    ensures |Kept(jobs, texts)| == |jobs| && JobsOf(Kept(jobs, texts)) == jobs
    ensures forall k | 0 <= k < |jobs| :: Kept(jobs, texts)[k] == Passage(jobs[k], texts[k])
  {
    if |jobs| > 0 {
      NothingIsEmpty(jobs[..|jobs| - 1], texts[..|jobs| - 1]);
    }
  }

  /** And only then. */
  lemma {:induction false} NoneEmptyIff(jobs: seq<Job>, texts: seq<seq<byte>>)
    requires |texts| == |jobs|
    ensures Empty(jobs, texts) == [] <==> forall k | 0 <= k < |texts| :: texts[k] != []
  {
    if |jobs| > 0 {
      var n := |jobs| - 1;
      NoneEmptyIff(jobs[..n], texts[..n]);
      assert forall k | 0 <= k < n :: texts[..n][k] == texts[k];
    }
  }

  /** None is kept exactly when all are empty. */
  lemma {:induction false} NoneKeptIff(jobs: seq<Job>, texts: seq<seq<byte>>)
    requires |texts| == |jobs|
    ensures Kept(jobs, texts) == [] <==> forall k | 0 <= k < |texts| :: texts[k] == []
  {
    if |jobs| > 0 {
      var n := |jobs| - 1;
      NoneKeptIff(jobs[..n], texts[..n]);
      assert forall k | 0 <= k < n :: texts[..n][k] == texts[k];
    }
  }

  // ---------------------------------------------------------------------- the parts

  lemma SnocIds(jobs: seq<Job>, job: Job, i: nat)
    ensures i in Ids(jobs + [job]) <==> i in Ids(jobs) || i == job.chunkId
  {
    assert Ids(jobs + [job]) == Ids(jobs) + [job.chunkId];
  }

  lemma SnocJobs(kept: seq<Passage>, p: Passage)
    ensures JobsOf(kept + [p]) == JobsOf(kept) + [p.job]
  {
  }

  lemma NothingAdded<T>(s: seq<T>)
    ensures s + [] == s
  {
  }

  lemma LastApart<T>(s: seq<T>)
    requires |s| > 0
    ensures s == s[..|s| - 1] + [s[|s| - 1]]
  {
  }

  /** One job more, put in one of the parts. */
  lemma PartsSnoc(jobs: seq<Job>, texts: seq<seq<byte>>)
    requires |texts| == |jobs| > 0
    ensures var n := |jobs| - 1;
            var empty, kept := Empty(jobs[..n], texts[..n]), JobsOf(Kept(jobs[..n], texts[..n]));
            && Empty(jobs, texts) == empty + (if texts[n] == [] then [jobs[n]] else [])
            && JobsOf(Kept(jobs, texts)) == kept + (if texts[n] == [] then [] else [jobs[n]])
            && jobs == jobs[..n] + [jobs[n]]
  {
    hide JobsOf, Kept, Empty;
    var n := |jobs| - 1;
    var kept := Kept(jobs[..n], texts[..n]);
    OneMoreJob(jobs, texts, n);
    LastApart(jobs);
    if texts[n] == [] {
      NothingAdded(kept);
      NothingAdded(JobsOf(kept));
    } else {
      SnocJobs(kept, Passage(jobs[n], texts[n]));
    }
  }

  lemma OneMoreJob(jobs: seq<Job>, texts: seq<seq<byte>>, n: nat)
    requires |texts| == |jobs| == n + 1
    ensures Kept(jobs, texts) == Kept(jobs[..n], texts[..n]) + if texts[n] != [] then [Passage(jobs[n], texts[n])] else []
    ensures Empty(jobs, texts) == Empty(jobs[..n], texts[..n]) + if texts[n] == [] then [jobs[n]] else []
  {
  }

  /** Every job is either kept or empty, and no other is. */
  lemma {:induction false} KeptOrEmpty(jobs: seq<Job>, texts: seq<seq<byte>>, i: nat)
    requires |texts| == |jobs|
    ensures i in Ids(jobs) <==> i in Ids(Empty(jobs, texts)) || i in Ids(JobsOf(Kept(jobs, texts)))
  {
    hide Kept, Empty, JobsOf;
    if |jobs| > 0 {
      var n := |jobs| - 1;
      var empty, kept := Empty(jobs[..n], texts[..n]), JobsOf(Kept(jobs[..n], texts[..n]));
      KeptOrEmpty(jobs[..n], texts[..n], i);
      PartsSnoc(jobs, texts);
      SnocIds(jobs[..n], jobs[n], i);
      SnocIds(empty, jobs[n], i);
      SnocIds(kept, jobs[n], i);
      NothingAdded(empty);
      NothingAdded(kept);
    } else {
      NoParts(jobs, texts);
    }
  }

  lemma NoParts(jobs: seq<Job>, texts: seq<seq<byte>>)
    requires |texts| == |jobs| == 0
    ensures Empty(jobs, texts) == [] && JobsOf(Kept(jobs, texts)) == [] && Ids(jobs) == []
  {
  }

  /** A job is empty exactly when its text is. */
  lemma PartOfJob(jobs: seq<Job>, texts: seq<seq<byte>>, j: nat)
    requires |texts| == |jobs| && Distinct(Ids(jobs)) && j < |jobs|
    ensures jobs[j].chunkId in Ids(Empty(jobs, texts)) <==> texts[j] == []
    ensures jobs[j].chunkId in Ids(JobsOf(Kept(jobs, texts))) <==> texts[j] != []
  {
    var empty, kept := Empty(jobs, texts), Kept(jobs, texts);
    assert Ids(jobs)[j] == jobs[j].chunkId;
    KeptOrEmpty(jobs, texts, jobs[j].chunkId);
    if jobs[j].chunkId in Ids(empty) {
      var k :| 0 <= k < |empty| && Ids(empty)[k] == jobs[j].chunkId;
      var i := EmptyAt(jobs, texts, k);
      assert Ids(jobs)[i] == Ids(jobs)[j];
    }
    if jobs[j].chunkId in Ids(JobsOf(kept)) {
      var k :| 0 <= k < |kept| && Ids(JobsOf(kept))[k] == jobs[j].chunkId;
      var i := KeptAt(jobs, texts, k);
      assert Ids(jobs)[i] == Ids(jobs)[j];
    }
  }

  lemma ListedSnoc(chunks: seq<ChunkRow>, jobs: seq<Job>, job: Job, f: FileId)
    requires Listed(chunks, jobs, f) && ListedJob(chunks, job, f) && job.chunkId !in Ids(jobs)
    ensures Listed(chunks, jobs + [job], f)
  {
    assert Ids(jobs + [job]) == Ids(jobs) + [job.chunkId];
  }

  lemma ListedPrefix(chunks: seq<ChunkRow>, jobs: seq<Job>, f: FileId)
    requires Listed(chunks, jobs, f) && |jobs| > 0
    ensures var n := |jobs| - 1;
            Listed(chunks, jobs[..n], f) && ListedJob(chunks, jobs[n], f) && jobs[n].chunkId !in Ids(jobs[..n])
  {
    var n := |jobs| - 1;
    assert Ids(jobs[..n]) == Ids(jobs)[..n];
    assert forall j | 0 <= j < n :: Ids(jobs)[j] != Ids(jobs)[n];
  }

  lemma {:induction false} PartsListed(chunks: seq<ChunkRow>, jobs: seq<Job>, texts: seq<seq<byte>>, f: FileId)
    requires Listed(chunks, jobs, f) && |texts| == |jobs|
    ensures Listed(chunks, Empty(jobs, texts), f) && Listed(chunks, JobsOf(Kept(jobs, texts)), f)
  {
    hide Listed, ListedJob, Kept, Empty, JobsOf, Ids;
    if |jobs| > 0 {
      var n := |jobs| - 1;
      var empty, kept := Empty(jobs[..n], texts[..n]), JobsOf(Kept(jobs[..n], texts[..n]));
      ListedPrefix(chunks, jobs, f);
      PartsListed(chunks, jobs[..n], texts[..n], f);
      PartsSnoc(jobs, texts);
      KeptOrEmpty(jobs[..n], texts[..n], jobs[n].chunkId);
      NothingAdded(empty);
      NothingAdded(kept);
      if texts[n] == [] {
        ListedSnoc(chunks, empty, jobs[n], f);
      } else {
        ListedSnoc(chunks, kept, jobs[n], f);
      }
    } else {
      NoParts(jobs, texts);
      NothingListed(chunks, f);
    }
  }

  lemma NothingListed(chunks: seq<ChunkRow>, f: FileId)
    ensures Listed(chunks, [], f)
  {
  }

  lemma HeldPart(chunks: seq<ChunkRow>, part: seq<Job>, f: FileId)
    requires Listed(chunks, part, f) && forall k | 0 <= k < |part| :: chunks[part[k].chunkId].status == Processing
    ensures Held(chunks, part, f)
  {
    forall k | 0 <= k < |part|
      ensures HeldJob(chunks, part[k], f)
    {
      assert ListedJob(chunks, part[k], f);
    }
  }

  /** While its texts are read a worker holds all its jobs, and so those that are empty. */
  lemma EmptyHeld(chunks: seq<ChunkRow>, jobs: seq<Job>, texts: seq<seq<byte>>, f: FileId)
    requires Held(chunks, jobs, f) && |texts| == |jobs|
    ensures Held(chunks, Empty(jobs, texts), f)
  {
    HeldIsListed(chunks, jobs, f);
    PartsListed(chunks, jobs, texts, f);
    var empty := Empty(jobs, texts);
    forall k | 0 <= k < |empty|
      ensures chunks[empty[k].chunkId].status == Processing
    {
      var j := EmptyAt(jobs, texts, k);
      assert HeldJob(chunks, jobs[j], f);
    }
    HeldPart(chunks, empty, f);
  }

  /** The rows of the jobs that have a text are in processing, those of the others
      indexed. */
  ghost predicate Sifted(chunks: seq<ChunkRow>, jobs: seq<Job>, texts: seq<seq<byte>>) {
    && |texts| == |jobs|
    && forall k | 0 <= k < |jobs| ::
         jobs[k].chunkId < |chunks| && chunks[jobs[k].chunkId].status == if texts[k] == [] then Indexed else Processing
  }

  /** So it is once the jobs that are empty have been completed. */
  lemma SiftedRows(chunks: seq<ChunkRow>, jobs: seq<Job>, texts: seq<seq<byte>>, f: FileId, after: seq<ChunkRow>)
    requires Held(chunks, jobs, f) && |texts| == |jobs| && |after| == |chunks|
    requires forall i | 0 <= i < |after| ::
               after[i] == if i in Ids(Empty(jobs, texts)) then chunks[i].(status := Indexed) else chunks[i]
    ensures Listed(after, jobs, f) && Sifted(after, jobs, texts)
  {
    forall k | 0 <= k < |jobs|
      ensures ListedJob(after, jobs[k], f)
      ensures after[jobs[k].chunkId].status == if texts[k] == [] then Indexed else Processing
    {
      assert HeldJob(chunks, jobs[k], f);
      PartOfJob(jobs, texts, k);
    }
  }

  /** Then those with a text are still held. */
  lemma KeptHeld(chunks: seq<ChunkRow>, jobs: seq<Job>, texts: seq<seq<byte>>, f: FileId)
    requires Listed(chunks, jobs, f) && Sifted(chunks, jobs, texts)
    ensures Held(chunks, JobsOf(Kept(jobs, texts)), f)
  {
    PartsListed(chunks, jobs, texts, f);
    var kept := JobsOf(Kept(jobs, texts));
    forall k | 0 <= k < |kept|
      ensures chunks[kept[k].chunkId].status == Processing
    {
      var j := KeptAt(jobs, texts, k);
    }
    HeldPart(chunks, kept, f);
  }

  /** And as many rows are indexed as jobs are empty. */
  lemma {:induction false} EmptyAmong(chunks: seq<ChunkRow>, jobs: seq<Job>, texts: seq<seq<byte>>)
    requires Sifted(chunks, jobs, texts)
    ensures Among(chunks, Ids(jobs), Indexed) == |Empty(jobs, texts)|
  {
    if |jobs| > 0 {
      var n := |jobs| - 1;
      EmptyAmong(chunks, jobs[..n], texts[..n]);
      PartsSnoc(jobs, texts);
      IdsAmongSnoc(chunks, jobs[..n], jobs[n], Indexed);
    }
  }
}
