/** The upload directory: `.partial` files that uploads accumulate in and `.dat`
    files they are renamed to. */
module Storage {
  import opened Bytes
  import opened Chunker
  import opened Tables

  datatype Disk = Disk(partial: map<FileId, seq<byte>>, final: map<FileId, seq<byte>>)

  datatype IoError = NoSuchFile | BadOffset

  function CurrentSize(d: Disk, f: FileId): nat {
    if f in d.partial then |d.partial[f]| else if f in d.final then |d.final[f]| else 0
  }

  function Truncated(d: Disk, f: FileId, size: nat): Disk {
    if f in d.partial && |d.partial[f]| > size then d.(partial := d.partial[f := d.partial[f][..size]]) else d
  }

  /** Appending opens the `.partial` file, creating it if need be. */
  function Appended(d: Disk, f: FileId, data: seq<byte>): Disk {
    d.(partial := d.partial[f := (if f in d.partial then d.partial[f] else []) + data])
  }

  /** The rename replaces a file of the final name, if there is one. */
  function Renamed(d: Disk, f: FileId): Result<Disk, IoError> {
    if f in d.partial then Ok(Disk(d.partial - {f}, d.final[f := d.partial[f]])) else Err(NoSuchFile)
  }

  function Finalized(d: Disk, f: FileId): Result<Disk, IoError> {
    if f in d.final then Ok(d) else Renamed(d, f)
  }

  /** The bytes passages are read from: `.dat` if it exists, else `.partial`. */
  function Readable(d: Disk, f: FileId): Option<seq<byte>> {
    if f in d.final then Some(d.final[f])
    else if f in d.partial then Some(d.partial[f])
    else None
  }

  /** Seek and read: nothing past the end, and an error for a negative offset. */
  function Slice(bytes: seq<byte>, r: Range): Result<seq<byte>, IoError> {
    if r.start < 0 then Err(BadOffset)
    else
      var from := Min(r.start, |bytes|);
      Ok(bytes[from..Min(from + Max(0, r.end - r.start), |bytes|)])
  }

  /** A range read from a directory that stands still: nothing for a missing file. */
  function ReadRange(d: Disk, f: FileId, r: Range): Result<seq<byte>, IoError> {
    match Readable(d, f)
    case None => Ok([])
    case Some(bytes) => Slice(bytes, r)
  }

  /** A range inside the stored bytes is read back exactly. */
  lemma ReadInside(d: Disk, f: FileId, stream: seq<byte>, r: Range)
    requires Readable(d, f).Some? && stream <= Readable(d, f).value
    requires 0 <= r.start <= r.end <= |stream|
    ensures ReadRange(d, f, r) == Ok(stream[r.start..r.end])
  {
    var bytes := Readable(d, f).value;
    assert bytes[r.start..r.end] == stream[r.start..r.end];
  }

  /** Of a range that reaches past the end what is there is read, of one behind the end or
      with its end before its start nothing, and a negative start is an error. */
  lemma ReadClipped(d: Disk, f: FileId, r: Range)
    requires Readable(d, f).Some?
    ensures var bytes, read := Readable(d, f).value, ReadRange(d, f, r);
            && (read == Err(BadOffset) <==> r.start < 0)
            && (r.start >= 0 ==>
                  && read.Ok? && |read.value| == Max(0, Min(r.end, |bytes|) - r.start)
                  && forall k | 0 <= k < |read.value| :: read.value[k] == bytes[r.start + k])
  {
  }

  // ----------------------------------------------- a read while others are at work

  /** What a read asks of the directory next: whether a name exists, or to open it. */
  datatype Look = ForFinal | ForPartial | OpenFinal | OpenPartial

  /** How far a read has got; `again` is its second attempt. */
  datatype Progress = At(look: Look, again: bool) | Got(text: seq<byte>) | Raised(error: IoError)

  const BEGUN := At(ForFinal, false)

  /** One call of a read, on the directory as it is at that moment. */
  function Advance(d: Disk, f: FileId, r: Range, p: Progress): Progress {
    match p
    case At(ForFinal, again) => At(if f in d.final then OpenFinal else ForPartial, again)
    case At(ForPartial, again) => if f in d.partial then At(OpenPartial, again) else Got([])
    case At(OpenFinal, again) => if f in d.final then ReadFrom(d.final[f], r) else Vanished(again)
    case At(OpenPartial, again) => if f in d.partial then ReadFrom(d.partial[f], r) else Vanished(again)
    case _ => p
  }

  function ReadFrom(bytes: seq<byte>, r: Range): Progress {
    match Slice(bytes, r)
    case Ok(text) => Got(text)
    case Err(e) => Raised(e)
  }

  /** A name that was there and is gone is looked for once more. */
  function Vanished(again: bool): Progress {
    if again then Raised(NoSuchFile) else At(ForFinal, true)
  }

  /** A read whose calls meet the directory in these states, one after the other. */
  function ReadAcross(ds: seq<Disk>, f: FileId, r: Range): Progress {
    if |ds| == 0 then BEGUN
    else Advance(ds[|ds| - 1], f, r, ReadAcross(ds[..|ds| - 1], f, r))
  }

  /** When nothing moves, three calls are enough and find what is there. */
  lemma StillRead(d: Disk, f: FileId, r: Range)
    ensures match ReadRange(d, f, r)
            case Ok(text) => ReadAcross([d, d, d], f, r) == Got(text)
            case Err(e) => ReadAcross([d, d, d], f, r) == Raised(e)
  {
    assert [d][..0] == [] && [d, d][..1] == [d] && [d, d, d][..2] == [d, d];
    assert ReadAcross([d], f, r) == Advance(d, f, r, BEGUN);
    assert ReadAcross([d, d], f, r) == Advance(d, f, r, ReadAcross([d], f, r));
    assert ReadAcross([d, d, d], f, r) == Advance(d, f, r, ReadAcross([d, d], f, r));
  }

  /** A file that goes away between a look and the opening is looked for once more: if it
      is there then it is read, and if it goes away again that is an error. */
  lemma GoneTwice(here: Disk, gone: Disk, f: FileId, r: Range)
    requires f in here.final && f !in gone.final && f !in gone.partial
    ensures ReadAcross([here, gone, here, here], f, r) == ReadFrom(here.final[f], r)
    ensures ReadAcross([here, gone, here, gone], f, r) == Raised(NoSuchFile)
    ensures ReadAcross([here, gone, gone, gone], f, r) == Got([])
  {
    hide Slice;
    var once, twice := [here, gone], [here, gone, here];
    assert [here][..0] == [] && once[..1] == [here] && twice[..2] == once;
    assert [here, gone, here, here][..3] == twice && [here, gone, here, gone][..3] == twice;
    assert [here, gone, gone][..2] == once && [here, gone, gone, gone][..3] == [here, gone, gone];
    assert ReadAcross([here], f, r) == At(OpenFinal, false);
    assert ReadAcross(once, f, r) == At(ForFinal, true);
    assert ReadAcross(twice, f, r) == At(OpenFinal, true);
    assert ReadAcross([here, gone, gone], f, r) == At(ForPartial, true);
  }

  class UploadDirectory {
    var partial: map<FileId, seq<byte>>
    var final: map<FileId, seq<byte>>

    constructor ()
      ensures Value() == Disk(map[], map[])
    {
      partial, final := map[], map[];
    }

    function Value(): Disk
      reads this
    {
      Disk(partial, final)
    }

    method AppendChunk(f: FileId, data: seq<byte>) returns (size: nat)
      modifies this`partial
      ensures Value() == Appended(old(Value()), f, data)
      ensures size == CurrentSize(Value(), f)
    {
      var present := if f in partial then partial[f] else [];
      partial := partial[f := present + data];
      size := |present + data|;
    }

    method TruncateTo(f: FileId, size: nat)
      modifies this`partial
      ensures Value() == Truncated(old(Value()), f, size)
    {
      if f in partial && |partial[f]| > size {
        partial := partial[f := partial[f][..size]];
      }
    }

    method Finalize(f: FileId) returns (failure: Option<IoError>)
      modifies this
      ensures match Finalized(old(Value()), f)
              case Ok(disk) => failure == None && Value() == disk
              case Err(e) => failure == Some(e) && Value() == old(Value())
    {
      if f in final {
        return None;
      }
      if f !in partial {
        return Some(NoSuchFile);
      }
      final := final[f := partial[f]];
      partial := partial - {f};
      return None;
    }
  }
}
