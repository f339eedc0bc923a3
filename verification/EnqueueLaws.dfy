/** Queueing a file's next passages: what is inserted, and that the accounts hold. */
module EnqueueLaws {
  import opened Chunker
  import opened Tables
  import opened Accounting

  function NewRows(f: FileId, passages: seq<Range>, first: nat): (rows: seq<ChunkRow>)
    ensures |rows| == |passages|
  {
    seq(|passages|, k requires 0 <= k < |passages| => ChunkRow(f, first + k, passages[k], Pending, 0))
  }

  /** A row of the file with this number is already there only if it is below the
      file's next number. */
  lemma NumbersBelowNext(chunks: seq<ChunkRow>, f: FileId, sequence: nat)
    requires Numbered(Keys(chunks)) && HasSequence(chunks, f, sequence)
    ensures sequence < |FileRanges(chunks, f)|
  {
    var i :| 0 <= i < |chunks| && chunks[i].fileId == f && chunks[i].sequence == sequence;
    RangeOfRow(Keys(chunks), i, |chunks|);
  }

  lemma NextNumberIsFree(chunks: seq<ChunkRow>, f: FileId, passages: seq<Range>, first: nat)
    requires Numbered(Keys(chunks)) && first == |FileRanges(chunks, f)|
    ensures !HasSequence(chunks + NewRows(f, passages, first), f, first + |passages|)
  {
    var before := chunks + NewRows(f, passages, first);
    if HasSequence(before, f, first + |passages|) {
      var i :| 0 <= i < |before| && before[i].fileId == f && before[i].sequence == first + |passages|;
      assert HasSequence(chunks, f, first + |passages|);
      NumbersBelowNext(chunks, f, first + |passages|);
    }
  }

  lemma NewRowsSnoc(f: FileId, passages: seq<Range>, first: nat)
    requires |passages| > 0
    ensures var n := |passages| - 1;
            NewRows(f, passages, first)
            == NewRows(f, passages[..n], first) + [ChunkRow(f, first + n, passages[n], Pending, 0)]
  {
  }

  lemma InsertOneMore(chunks: seq<ChunkRow>, before: seq<ChunkRow>, f: FileId, passages: seq<Range>, first: nat)
    requires |passages| > 0 && before == InsertPending(chunks, f, passages[..|passages| - 1], first)
    requires !HasSequence(before, f, first + |passages| - 1)
    ensures InsertPending(chunks, f, passages, first)
         == before + [ChunkRow(f, first + |passages| - 1, passages[|passages| - 1], Pending, 0)]
  {
  }

  lemma Associates<T>(a: seq<T>, b: seq<T>, c: seq<T>)
    ensures (a + b) + c == a + (b + c)
  {
  }

  /** Inserting from the file's next number on appends every passage, in order. */
  lemma {:induction false} InsertAppends(chunks: seq<ChunkRow>, f: FileId, passages: seq<Range>, first: nat)
    requires Numbered(Keys(chunks)) && first == |FileRanges(chunks, f)|
    ensures InsertPending(chunks, f, passages, first) == chunks + NewRows(f, passages, first)
  {
    if |passages| == 0 {
      assert chunks + [] == chunks;
    } else {
      var n := |passages| - 1;
      var rows := NewRows(f, passages[..n], first);
      InsertAppends(chunks, f, passages[..n], first);
      NextNumberIsFree(chunks, f, passages[..n], first);
      NewRowsSnoc(f, passages, first);
      InsertOneMore(chunks, chunks + rows, f, passages, first);
      Associates(chunks, rows, [ChunkRow(f, first + n, passages[n], Pending, 0)]);
    }
  }

  /** Rows that are there stay there, and number `q` is taken afterwards if it was before or
      is one of the new ones. */
  lemma {:induction false} InsertedNumbers(chunks: seq<ChunkRow>, f: FileId, passages: seq<Range>, first: nat, q: nat)
    ensures chunks <= InsertPending(chunks, f, passages, first)
    ensures HasSequence(InsertPending(chunks, f, passages, first), f, q)
            <==> HasSequence(chunks, f, q) || first <= q < first + |passages|
  {
    if |passages| > 0 {
      var n := |passages| - 1;
      var before := InsertPending(chunks, f, passages[..n], first);
      InsertedNumbers(chunks, f, passages[..n], first, q);
      if !HasSequence(before, f, first + n) {
        NumberAdded(before, ChunkRow(f, first + n, passages[n], Pending, 0), f, q);
      }
    }
  }

  lemma NumberAdded(chunks: seq<ChunkRow>, row: ChunkRow, f: FileId, q: nat)
    ensures HasSequence(chunks + [row], f, q) <==> HasSequence(chunks, f, q) || (row.fileId == f && row.sequence == q)
  {
    var more := chunks + [row];
    assert more[|chunks|] == row;
    if HasSequence(chunks, f, q) {
      var i :| 0 <= i < |chunks| && chunks[i].fileId == f && chunks[i].sequence == q;
      assert more[i] == chunks[i];
    }
  }

  lemma {:induction false} NothingInserted(chunks: seq<ChunkRow>, f: FileId, passages: seq<Range>, first: nat)
    requires forall q | first <= q < first + |passages| :: HasSequence(chunks, f, q)
    ensures InsertPending(chunks, f, passages, first) == chunks
  {
    hide HasSequence;
    if |passages| > 0 {
      NothingInserted(chunks, f, passages[..|passages| - 1], first);
    }
  }

  /** Inserting the same passages again, whatever the table held, changes nothing. */
  lemma InsertTwice(chunks: seq<ChunkRow>, f: FileId, passages: seq<Range>, first: nat)
    ensures var after := InsertPending(chunks, f, passages, first);
            chunks <= after && InsertPending(after, f, passages, first) == after
  {
    hide HasSequence;
    var after := InsertPending(chunks, f, passages, first);
    InsertedNumbers(chunks, f, passages, first, first);
    forall q | first <= q < first + |passages|
      ensures HasSequence(after, f, q)
    {
      InsertedNumbers(chunks, f, passages, first, q);
    }
    NothingInserted(after, f, passages, first);
  }

  /** What the new rows add to every file's list of passages. */
  lemma {:induction false} AppendedRanges(chunks: seq<ChunkRow>, f: FileId, passages: seq<Range>, first: nat, g: FileId, k: nat)
    requires k <= |passages|
    ensures Ranges(Keys(chunks + NewRows(f, passages, first)), g, |chunks| + k)
         == FileRanges(chunks, g) + if g == f then passages[..k] else []
  {
    var keys := Keys(chunks + NewRows(f, passages, first));
    if k == 0 {
      RangesOfPrefix(Keys(chunks), keys, g, |chunks|);
    } else {
      AppendedRanges(chunks, f, passages, first, g, k - 1);
      assert passages[..k] == passages[..k - 1] + [passages[k - 1]];
      assert keys[|chunks| + k - 1] == ChunkKey(f, first + k - 1, passages[k - 1]);
    }
  }

  lemma AppendedFileRanges(chunks: seq<ChunkRow>, f: FileId, passages: seq<Range>, first: nat, g: FileId)
    ensures FileRanges(chunks + NewRows(f, passages, first), g)
         == FileRanges(chunks, g) + if g == f then passages else []
  {
    AppendedRanges(chunks, f, passages, first, g, |passages|);
    assert passages[..|passages|] == passages;
  }

  lemma AppendedNumbered(chunks: seq<ChunkRow>, f: FileId, passages: seq<Range>)
    requires Numbered(Keys(chunks))
    ensures Numbered(Keys(chunks + NewRows(f, passages, |FileRanges(chunks, f)|)))
  {
    hide FileRanges, Ranges;
    var first := |FileRanges(chunks, f)|;
    var keys := Keys(chunks + NewRows(f, passages, first));
    forall i | 0 <= i < |keys|
      ensures NumberedAt(keys, i)
    {
      if i < |chunks| {
        assert NumberedAt(Keys(chunks), i);
        assert keys[i] == Keys(chunks)[i];
        RangesOfPrefix(Keys(chunks), keys, keys[i].fileId, i);
      } else {
        AppendedRanges(chunks, f, passages, first, f, i - |chunks|);
      }
    }
  }

  lemma {:induction false} CountNewRows(chunks: seq<ChunkRow>, rows: seq<ChunkRow>, f: FileId, s: ChunkStatus, n: nat)
    requires |chunks| <= n <= |chunks + rows| && s != Pending
    requires forall k | 0 <= k < |rows| :: rows[k].status == Pending
    ensures Count(chunks + rows, f, s, n) == CountAll(chunks, f, s)
  {
    if n == |chunks| {
      CountOfPrefix(chunks, chunks + rows, f, s, n);
    } else {
      CountNewRows(chunks, rows, f, s, n - 1);
    }
  }

  /** A row moved on by queueing `added` passages, not yet in a terminal status. */
  ghost predicate MovedOn(row: FileRow, next: FileRow, added: nat) {
    && next.chunksTotal == row.chunksTotal + added
    && next.nextSequence == row.nextSequence + added
    && next.chunksIndexed == row.chunksIndexed && next.chunksFailed == row.chunksFailed
    && next.processing == row.processing && !row.processing.Terminal()
  }

  lemma EnqueueCountsRow(chunks: seq<ChunkRow>, f: FileId, passages: seq<Range>, first: nat,
                         row: FileRow, next: FileRow, g: FileId)
    requires RowCounted(row, chunks, g)
    requires if g == f then MovedOn(row, next, |passages|) else next == row
    ensures RowCounted(next, chunks + NewRows(f, passages, first), g)
    ensures Excess(next, chunks + NewRows(f, passages, first), g) == Excess(row, chunks, g)
  {
    var rows := NewRows(f, passages, first);
    AppendedFileRanges(chunks, f, passages, first, g);
    CountNewRows(chunks, rows, g, Indexed, |chunks + rows|);
    CountNewRows(chunks, rows, g, Failed, |chunks + rows|);
  }

  lemma EnqueueKeepsCounts(db: Db, f: FileId, passages: seq<Range>, first: nat, next: FileRow)
    requires Counted(db) && f in db.files && MovedOn(db.files[f], next, |passages|)
    ensures Counted(Db(db.files[f := next], db.chunks + NewRows(f, passages, first)))
    ensures SameExcess(db, Db(db.files[f := next], db.chunks + NewRows(f, passages, first)))
  {
    var after := Db(db.files[f := next], db.chunks + NewRows(f, passages, first));
    forall g | g in after.files
      ensures RowCounted(after.files[g], after.chunks, g) && ExcessOf(after, g) == ExcessOf(db, g)
    {
      EnqueueCountsRow(db.chunks, f, passages, first, db.files[g], after.files[g], g);
    }
  }

  lemma EnqueueKeepsRows(files: map<FileId, FileRow>, chunks: seq<ChunkRow>, rows: seq<ChunkRow>, after: map<FileId, FileRow>)
    requires RowsOwned(files, Keys(chunks)) && RetriesBounded(chunks) && files.Keys == after.Keys
    requires forall k | 0 <= k < |rows| :: rows[k].fileId in files && rows[k].status == Pending && rows[k].retryCount == 0
    ensures RowsOwned(after, Keys(chunks + rows)) && RetriesBounded(chunks + rows)
  {
  }

  lemma SettledStays(files: map<FileId, FileRow>, f: FileId, next: FileRow)
    requires TerminalSettled(files) && !next.processing.Terminal()
    ensures TerminalSettled(files[f := next])
  {
  }

  lemma EnqueueKeepsTables(db: Db, f: FileId, passages: seq<Range>, next: FileRow)
    requires TablesOk(db) && f in db.files && MovedOn(db.files[f], next, |passages|)
    ensures db.files[f].nextSequence == |FileRanges(db.chunks, f)|
    ensures InsertPending(db.chunks, f, passages, db.files[f].nextSequence)
         == db.chunks + NewRows(f, passages, db.files[f].nextSequence)
    ensures TablesOk(Db(db.files[f := next], db.chunks + NewRows(f, passages, db.files[f].nextSequence)))
    ensures SameExcess(db, Db(db.files[f := next], db.chunks + NewRows(f, passages, db.files[f].nextSequence)))
  {
    hide FileRanges, Ranges, Count, InsertPending;
    var first := db.files[f].nextSequence;
    assert RowCounted(db.files[f], db.chunks, f);
    InsertAppends(db.chunks, f, passages, first);
    AppendedNumbered(db.chunks, f, passages);
    EnqueueKeepsCounts(db, f, passages, first, next);
    EnqueueKeepsRows(db.files, db.chunks, NewRows(f, passages, first), db.files[f := next]);
    SettledStays(db.files, f, next);
  }

  /** A file without rows. */
  lemma {:induction false} NoRows(chunks: seq<ChunkRow>, f: FileId, n: nat)
    requires n <= |chunks| && forall i | 0 <= i < n :: chunks[i].fileId != f
    ensures Ranges(Keys(chunks), f, n) == []
    ensures forall s :: Count(chunks, f, s, n) == 0
  {
    if n > 0 {
      NoRows(chunks, f, n - 1);
    }
  }

  lemma CreateKeepsTables(db: Db, f: FileId, row: FileRow)
    requires TablesOk(db) && f !in db.files
    requires row.chunksTotal == row.nextSequence == row.chunksIndexed == row.chunksFailed == 0
    requires !row.processing.Terminal()
    ensures TablesOk(db.(files := db.files[f := row]))
    ensures FileRanges(db.chunks, f) == []
  {
    hide Ranges, Count;
    forall i | 0 <= i < |db.chunks|
      ensures db.chunks[i].fileId != f
    {
      assert Keys(db.chunks)[i].fileId in db.files;
    }
    NoRows(db.chunks, f, |db.chunks|);
    var after := db.(files := db.files[f := row]);
    assert forall g | g in after.files :: RowCounted(after.files[g], after.chunks, g) by {
      assert forall g | g in db.files :: RowCounted(db.files[g], db.chunks, g);
    }
  }
}
