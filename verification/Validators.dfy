/** Telling text from binary content by the share of undecodable bytes. */
module Validators {
  import opened Bytes
  import opened Utf8
  import opened CodePoints

  const SAMPLE_BYTES: nat := 8192

  /** Bytes that a strict decoder rejects together at `i`, where no well-formed
      character starts: the longest run that could begin one. */
  function BadLength(s: seq<byte>, i: nat): (n: nat)
    requires i < |s| && CharAt(s, i) == 0
    ensures 1 <= n <= 3 && i + n <= |s|
  {
    var lead := LeadLength(s[i]);
    if lead < 3 || i + 2 > |s| || !SecondByteFits(s[i], s[i + 1]) then 1
    else if lead == 3 || i + 3 > |s| || !IsContinuation(s[i + 2]) then 2
    else 3
  }

  /** Where a strict decoder starting at `i` stops: the first place that is not the
      start of a character. */
  function FirstError(s: seq<byte>, i: nat): (k: nat)
    requires i <= |s| && !ValidFrom(s, i)
    ensures i <= k < |s| && CharAt(s, k) == 0
    decreases |s| - i
  {
    if CharAt(s, i) == 0 then i else FirstError(s, i + CharAt(s, i))
  }

  /** Total length of the runs rejected when decoding resumes after each. */
  function InvalidBytes(s: seq<byte>): (n: nat)
    ensures n <= |s|
    ensures n == 0 <==> Valid(s)
  {
    if Valid(s) then 0
    else
      var start := FirstError(s, 0);
      var end := start + BadLength(s, start);
      (end - start) + InvalidBytes(s[end..])
  }

  /** The verdict: a zero byte, or more than a twentieth undecodable. */
  predicate BinaryVerdict(sample: seq<byte>) {
    var probe := sample[..Min(|sample|, SAMPLE_BYTES)];
    sample != [] && (0 in probe || 20 * InvalidBytes(probe) > |probe|)
  }

  /** Decodes again after each error, adding up the rejected bytes. */
  method LooksLikeBinary(sample: seq<byte>) returns (binary: bool)
    ensures binary == BinaryVerdict(sample)
    ensures var n := Min(|sample|, 8192);
            if exists i | 0 <= i < n :: sample[i] == 0 then binary
            else binary <==> 20 * InvalidBytes(sample[..n]) > n
  {
    if sample == [] {
      return false;
    }
    var probe := sample[..Min(|sample|, SAMPLE_BYTES)];
    if 0 in probe {
      return true;
    }
    var invalid := 0;
    if !Valid(probe) {
      var remaining := probe;
      while remaining != []
        invariant invalid + InvalidBytes(remaining) == InvalidBytes(probe)
        decreases |remaining|
      {
        if Valid(remaining) {
          break;
        }
        var start := FirstError(remaining, 0);
        var end := start + BadLength(remaining, start);
        invalid := invalid + (end - start);
        remaining := remaining[end..];
      }
    }
    return 20 * invalid > |probe|;
  }

  /** Decoding a text cut off at `k` stops where the dangling part begins. */
  lemma {:induction false} StopsAtDangling(text: seq<byte>, a: nat, k: nat)
    requires ValidFrom(text, a) && a <= k <= |text| && DanglingFrom(text, a, k) > 0
    ensures !ValidFrom(text[..k], a)
    ensures FirstError(text[..k], a) == k - DanglingFrom(text, a, k)
    decreases |text| - a
  {
    hide CharAt;
    var n := CharAt(text, a);
    if k < a + n {
      PartialCharacter(text, a, k);
    } else {
      CharInSlice(text, 0, k, a);
      StopsAtDangling(text, a + n, k);
    }
  }

  /** A character cut short is rejected as a whole. */
  lemma PartialCharacter(text: seq<byte>, i: nat, k: nat)
    requires i < k < i + CharAt(text, i)
    ensures CharAt(text[..k], i) == 0 && BadLength(text[..k], i) == k - i
  {
  }

  /** What is undecodable in a truncated text is exactly its dangling part. */
  lemma TruncatedText(text: seq<byte>, k: nat)
    requires Valid(text) && k <= |text|
    ensures InvalidBytes(text[..k]) == Dangling(text, k)
  {
    hide ValidFrom, CharAt;
    var d := Dangling(text, k);
    if d == 0 {
      ValidIsBoundary(text, k);
      ValidInSlice(text, 0, k, 0);
    } else {
      StopsAtDangling(text, 0, k);
      PartialCharacter(text, k - d, k);
      assert text[..k][k..] == [];
    }
  }

  // ------------------------------------------------------ what else is undecodable

  /** What a strict decoder rejects at once: no character starts with it, and it is one
      byte, or as much as can be the beginning of a character. */
  ghost predicate Rejected(run: seq<byte>, rest: seq<byte>) {
    && |run| > 0 && (forall c :: !(Encode(c) <= run + rest))
    && (|run| == 1 || Begins(run))
    && (rest == [] || !Begins(run + [rest[0]]))
  }

  lemma NoCharacter(s: seq<byte>)
    ensures CharAt(s, 0) == 0 <==> forall c :: !(Encode(c) <= s)
  {
    hide Encode;
    if CharAt(s, 0) > 0 {
      var c := CharIsEncoded(s);
      assert Encode(c) <= s;
    }
    forall c | Encode(c) <= s
      ensures CharAt(s, 0) > 0
    {
      EncodedIsChar(c, s[|Encode(c)|..]);
      assert Encode(c) + s[|Encode(c)|..] == s;
    }
  }

  /** No more than three bytes are rejected at once. */
  lemma RejectedIsShort(run: seq<byte>, rest: seq<byte>)
    requires Rejected(run, rest)
    ensures |run| <= 3
  {
    hide Encode;
    NoCharacter(run + rest);
    if |run| >= 4 {
      BeginsWithFour(run);
    }
  }

  lemma RejectedIsBad(run: seq<byte>, rest: seq<byte>)
    requires 1 <= |run| <= 3 && CharAt(run + rest, 0) == 0
    ensures Rejected(run, rest) <==> BadLength(run + rest, 0) == |run|
  {
    hide Encode, Begins;
    var s := run + rest;
    NoCharacter(s);
    BeginsWithLead(s[0]);
    if |s| >= 2 {
      BeginsWithTwo(s[0], s[1]);
    }
    if |s| >= 3 {
      BeginsWithThree(s[0], s[1], s[2]);
    }
    match |run|
    case 1 => assert rest != [] ==> run + [rest[0]] == [s[0], s[1]];
    case 2 => assert run == [s[0], s[1]] && (rest != [] ==> run + [rest[0]] == [s[0], s[1], s[2]]);
    case 3 =>
      assert run == [s[0], s[1], s[2]];
      if rest != [] {
        BeginsWithFour(run + [rest[0]]);
      }
  }

  /** Text in front of it does not change what is rejected. */
  lemma {:induction false} ErrorBehindText(text: seq<byte>, rest: seq<byte>, i: nat)
    requires ValidFrom(text, i) && !Valid(rest) && CharAt(rest, 0) == 0
    ensures i <= |text| && !ValidFrom(text + rest, i) && FirstError(text + rest, i) == |text|
    decreases |text| - i
  {
    hide CharAt;
    CharInRest(text, rest, 0);
    if i < |text| {
      SameChar(text, rest, i);
      ErrorBehindText(text, rest, i + CharAt(text, i));
    }
  }

  lemma SameChar(text: seq<byte>, rest: seq<byte>, i: nat)
    requires CharAt(text, i) > 0
    ensures CharAt(text + rest, i) == CharAt(text, i)
  {
  }

  lemma BadInRest(text: seq<byte>, rest: seq<byte>)
    requires rest != [] && CharAt(rest, 0) == 0
    ensures CharAt(text + rest, |text|) == 0 && BadLength(text + rest, |text|) == BadLength(rest, 0)
  {
  }

  /** In any bytes: each run that a decoder rejects counts with its length, text in front
      of it with nothing, and the rest as if decoding began there. */
  lemma InvalidBytesAdd(text: seq<byte>, run: seq<byte>, rest: seq<byte>)
    requires Valid(text) && Rejected(run, rest)
    ensures InvalidBytes(text + (run + rest)) == |run| + InvalidBytes(rest)
  {
    hide CharAt, BadLength, Encode, Begins;
    var s := text + (run + rest);
    RejectedIsShort(run, rest);
    NoCharacter(run + rest);
    RejectedIsBad(run, rest);
    ErrorBehindText(text, run + rest, 0);
    BadInRest(text, run + rest);
    assert s[|text| + |run|..] == rest;
  }

  /** The lengths: one for a byte that begins nothing and for a lead byte with a wrong
      second byte, two when the third is wrong, three when the fourth is. */
  lemma RunLengths(text: seq<byte>, a: byte, b: byte, c: byte, d: byte, rest: seq<byte>)
    requires Valid(text)
    ensures 0x80 <= a < 0xC2 || a >= 0xF5 ==> InvalidBytes(text + ([a] + rest)) == 1 + InvalidBytes(rest)
    ensures a >= 0xC2 && !(0x80 <= b < 0xC0) ==> InvalidBytes(text + ([a] + ([b] + rest))) == 1 + InvalidBytes([b] + rest)
    ensures a >= 0xE0 && Begins([a, b]) && !(0x80 <= c < 0xC0) ==>
              InvalidBytes(text + ([a, b] + ([c] + rest))) == 2 + InvalidBytes([c] + rest)
    ensures a >= 0xF0 && Begins([a, b, c]) && !(0x80 <= d < 0xC0) ==>
              InvalidBytes(text + ([a, b, c] + ([d] + rest))) == 3 + InvalidBytes([d] + rest)
  {
    hide Encode, Begins, InvalidBytes, Rejected;
    BeginsWithLead(a);
    BeginsWithTwo(a, b);
    BeginsWithThree(a, b, c);
    RunCounts(text, [a], rest);
    RunCounts(text, [a], [b] + rest);
    RunCounts(text, [a, b], [c] + rest);
    RunCounts(text, [a, b, c], [d] + rest);
  }

  lemma RunCounts(text: seq<byte>, run: seq<byte>, rest: seq<byte>)
    requires Valid(text) && 1 <= |run| <= 3
    ensures CharAt(run + rest, 0) == 0 && BadLength(run + rest, 0) == |run| ==>
              InvalidBytes(text + (run + rest)) == |run| + InvalidBytes(rest)
  {
    hide Encode, Begins, InvalidBytes, Rejected;
    if CharAt(run + rest, 0) == 0 && BadLength(run + rest, 0) == |run| {
      RejectedIsBad(run, rest);
      InvalidBytesAdd(text, run, rest);
    }
  }

  /** For text without zero bytes, cut off anywhere, the verdict is wrong exactly
      when the sample is short against its dangling bytes. */
  lemma TextVerdict(text: seq<byte>, k: nat)
    requires Valid(text) && 0 < k <= |text| && 0 !in text[..k]
    ensures var n := Min(k, SAMPLE_BYTES);
            BinaryVerdict(text[..k]) <==> n < 20 * Dangling(text, n)
  {
    var n := Min(k, SAMPLE_BYTES);
    TruncatedText(text, n);
    assert text[..k][..n] == text[..n];
    assert forall i | 0 <= i < n :: text[..n][i] == text[..k][i];
  }

  /** Sixty bytes of text are enough, wherever the sample is cut off. */
  lemma SixtyBytesOfText(text: seq<byte>, k: nat)
    requires Valid(text) && 60 <= k <= |text| && 0 !in text[..k]
    ensures !BinaryVerdict(text[..k])
  {
    TextVerdict(text, k);
  }

  const LETTERS_AND_EMOJI: seq<byte> := seq(56, _ => 65) + [0xF0, 0x9F, 0x98, 0x80]

  /** Fifty-nine are not: an emoji cut before its last byte is refused. */
  lemma FiftyNineCanFail()
    ensures Valid(LETTERS_AND_EMOJI) && 0 !in LETTERS_AND_EMOJI[..59]
    ensures BinaryVerdict(LETTERS_AND_EMOJI[..59])
  {
    var text := LETTERS_AND_EMOJI;
    assert CharAt(text, 56) == 4;
    AsciiThenValid(text, 0, 56);
    DanglingMeaning(text, 59, 56);
    TextVerdict(text, 59);
  }
}
