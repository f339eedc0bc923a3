/** Bytes and the two byte searches the chunker is built from. */
module Bytes {

  datatype Option<+T> = None | Some(value: T)

  datatype Result<+T, +E> = Ok(value: T) | Err(error: E)

  type byte = b: int | 0 <= b < 256

  const NEWLINE: byte := 10

  /** A UTF-8 continuation byte: the two top bits are 10, that is `b & 0xC0 == 0x80`. */
  predicate IsContinuation(b: byte) {
    0x80 <= b < 0xC0
  }

  function Min(a: int, b: int): int {
    if a <= b then a else b
  }

  function Max(a: int, b: int): int {
    if a >= b then a else b
  }

  /** Index of the first newline at or after `from`, or -1. */
  function Find(s: seq<byte>, from: nat): (r: int)
    ensures -1 <= r < |s|
    ensures r == -1 ==> forall i | from <= i < |s| :: s[i] != NEWLINE
    ensures r >= 0 ==> from <= r && s[r] == NEWLINE && forall i | from <= i < r :: s[i] != NEWLINE
    decreases |s| - from
  {
    if from >= |s| then -1
    else if s[from] == NEWLINE then from
    else Find(s, from + 1)
  }

  /** Index of the last newline, or -1. */
  function RFind(s: seq<byte>): (r: int)
    ensures -1 <= r < |s|
    ensures r == -1 ==> forall i | 0 <= i < |s| :: s[i] != NEWLINE
    ensures r >= 0 ==> s[r] == NEWLINE && forall i | r < i < |s| :: s[i] != NEWLINE
  {
    if |s| == 0 then -1
    else if s[|s| - 1] == NEWLINE then |s| - 1
    else RFind(s[..|s| - 1])
  }
}
