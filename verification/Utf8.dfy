/** UTF-8 as defined by sections 3 and 4 of RFC 3629: well-formed text, character
    boundaries, and what a truncated text looks like. */
module Utf8 {
  import opened Bytes

  /** Whether `b` may follow the lead byte `a` of a character of three or four bytes. */
  predicate SecondByteFits(a: byte, b: byte) {
    if a == 0xE0 then 0xA0 <= b <= 0xBF
    else if a == 0xED then 0x80 <= b <= 0x9F
    else if a == 0xF0 then 0x90 <= b <= 0xBF
    else if a == 0xF4 then 0x80 <= b <= 0x8F
    else IsContinuation(b)
  }

  /** Bytes in a character that starts with `a`; 0 if none does. */
  function LeadLength(a: byte): nat {
    if a <= 0x7F then 1
    else if 0xC2 <= a <= 0xDF then 2
    else if 0xE0 <= a <= 0xEF then 3
    else if 0xF0 <= a <= 0xF4 then 4
    else 0
  }

  /** Length of the well-formed character at `i`; 0 if there is none. */
  function CharAt(s: seq<byte>, i: nat): (n: nat)
    ensures n <= 4 && (n > 0 ==> i + n <= |s|)
  {
    if i >= |s| then 0
    else
      var n := LeadLength(s[i]);
      if n == 0 || i + n > |s| then 0
      else if n == 1 then 1
      else if n == 2 then (if IsContinuation(s[i + 1]) then 2 else 0)
      else if !SecondByteFits(s[i], s[i + 1]) || !IsContinuation(s[i + 2]) then 0
      else if n == 3 then 3
      else if IsContinuation(s[i + 3]) then 4 else 0
  }

  /** From `i` on, `s` is a run of well-formed characters. */
  predicate ValidFrom(s: seq<byte>, i: nat)
    decreases |s| - i
  {
    i == |s| || (CharAt(s, i) > 0 && ValidFrom(s, i + CharAt(s, i)))
  }

  predicate Valid(s: seq<byte>) {
    ValidFrom(s, 0)
  }

  /** In well-formed text: a place where a character starts, or the end. */
  predicate Boundary(s: seq<byte>, i: int) {
    i == |s| || (0 <= i < |s| && !IsContinuation(s[i]))
  }

  /** A character is a lead byte and then continuation bytes. */
  lemma CharShape(s: seq<byte>, i: nat)
    requires CharAt(s, i) > 0
    ensures !IsContinuation(s[i])
    ensures forall j | i < j < i + CharAt(s, i) :: IsContinuation(s[j])
  {
  }

  lemma ValidIsBoundary(s: seq<byte>, i: nat)
    requires ValidFrom(s, i)
    ensures i <= |s| && Boundary(s, i)
  {
    if i != |s| {
      CharShape(s, i);
    }
  }

  /** Well-formed text is well formed from every boundary on. */
  lemma {:induction false} BoundaryIsValid(s: seq<byte>, i: nat, j: nat)
    requires ValidFrom(s, i) && i <= j && Boundary(s, j)
    ensures ValidFrom(s, j)
    decreases |s| - i
  {
    if i < j {
      CharShape(s, i);
      BoundaryIsValid(s, i + CharAt(s, i), j);
    }
  }

  /** A character is the same in a slice that holds it. */
  lemma CharInSlice(s: seq<byte>, i: nat, j: nat, k: nat)
    requires i <= k && k + CharAt(s, k) <= j <= |s| && CharAt(s, k) > 0
    ensures CharAt(s[i..j], k - i) == CharAt(s, k)
  {
  }

  lemma {:induction false} ValidInSlice(s: seq<byte>, i: nat, j: nat, k: nat)
    requires i <= k <= j <= |s| && ValidFrom(s, k) && Boundary(s, j)
    ensures ValidFrom(s[i..j], k - i)
    decreases j - k
  {
    if k < j {
      CharShape(s, k);
      CharInSlice(s, i, j, k);
      ValidIsBoundary(s, k + CharAt(s, k));
      ValidInSlice(s, i, j, k + CharAt(s, k));
    }
  }

  /** The text between two boundaries is well formed. */
  lemma BetweenBoundaries(s: seq<byte>, i: nat, j: nat)
    requires Valid(s) && Boundary(s, i) && Boundary(s, j) && i <= j <= |s|
    ensures Valid(s[i..j])
  {
    BoundaryIsValid(s, 0, i);
    ValidInSlice(s, i, j, i);
  }

  /** The position after a one-byte character is a boundary. */
  lemma AfterAscii(s: seq<byte>, k: nat)
    requires Valid(s) && k < |s| && s[k] <= 0x7F
    ensures Boundary(s, k + 1)
  {
    BoundaryIsValid(s, 0, k);
    assert CharAt(s, k) == 1;
    ValidIsBoundary(s, k + 1);
  }

  lemma {:induction false} NearBoundary(s: seq<byte>, a: nat, i: nat) returns (j: nat)
    requires ValidFrom(s, a) && a <= i && i + 3 <= |s|
    ensures i <= j <= i + 3 && Boundary(s, j)
    decreases |s| - a
  {
    ValidIsBoundary(s, a);
    if i == a {
      j := a;
    } else if i <= a + CharAt(s, a) {
      j := a + CharAt(s, a);
      ValidIsBoundary(s, j);
    } else {
      j := NearBoundary(s, a + CharAt(s, a), i);
    }
  }

  /** No four continuation bytes in a row: one of any four places is a boundary. */
  lemma BoundaryWithinThree(s: seq<byte>, i: nat) returns (j: nat)
    requires Valid(s) && i + 3 <= |s|
    ensures i <= j <= i + 3 && Boundary(s, j)
  {
    j := NearBoundary(s, 0, i);
  }

  /** One-byte characters in front keep a text well formed. */
  lemma {:induction false} AsciiThenValid(s: seq<byte>, i: nat, k: nat)
    requires i <= k <= |s| && ValidFrom(s, k) && forall j | i <= j < k :: s[j] <= 0x7F
    ensures ValidFrom(s, i)
    decreases k - i
  {
    if i < k {
      AsciiThenValid(s, i + 1, k);
      assert CharAt(s, i) == 1;
    }
  }

  // ------------------------------------------------------------- truncated text

  /** How much of a text cut off at `k` belongs to a character that is not all
      there, counting characters from `a`. */
  function DanglingFrom(s: seq<byte>, a: nat, k: nat): (d: nat)
    requires ValidFrom(s, a) && a <= k <= |s|
    ensures a <= k - d && d <= 3
    ensures ValidFrom(s, k - d)
    ensures d > 0 ==> d < CharAt(s, k - d)
    decreases |s| - a
  {
    if k == a then 0
    else if k < a + CharAt(s, a) then k - a
    else DanglingFrom(s, a + CharAt(s, a), k)
  }

  function Dangling(s: seq<byte>, k: nat): (d: nat)
    requires Valid(s) && k <= |s|
    ensures d <= 3 && d <= k
  {
    DanglingFrom(s, 0, k)
  }

  /** The dangling part begins at the last boundary at or before the end. */
  lemma DanglingMeaning(s: seq<byte>, k: nat, j: nat)
    requires Valid(s) && j <= k <= |s| && Boundary(s, j)
    requires forall i | j < i <= k :: !Boundary(s, i)
    ensures Dangling(s, k) == k - j
  {
    var d := Dangling(s, k);
    ValidIsBoundary(s, k - d);
    if d > 0 {
      CharShape(s, k - d);
    }
  }
}
