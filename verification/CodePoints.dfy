/** What the byte tables of UTF-8 accept, measured against the encoding of code points by
    section 3 of RFC 3629. */
module CodePoints {
  import opened Bytes
  import opened Utf8

  /** A Unicode code point that is not a surrogate. */
  type CodePoint = c: nat | c < 0xD800 || 0xE000 <= c < 0x11_0000

  function Encode(c: CodePoint): (bytes: seq<byte>)
    ensures 1 <= |bytes| <= 4
  {
    if c < 0x80 then [c]
    else if c < 0x800 then [0xC0 + c / 64, 0x80 + c % 64]
    else if c < 0x1_0000 then [0xE0 + c / 4096, 0x80 + c / 64 % 64, 0x80 + c % 64]
    else [0xF0 + c / 262144, 0x80 + c / 4096 % 64, 0x80 + c / 64 % 64, 0x80 + c % 64]
  }

  function EncodeAll(cs: seq<CodePoint>): seq<byte> {
    if |cs| == 0 then [] else Encode(cs[0]) + EncodeAll(cs[1..])
  }

  // ------------------------------------------------------------------ characters

  /** The upper bits of a code point. */
  lemma UpperBits(c: nat)
    ensures c / 64 == c / 4096 * 64 + c / 64 % 64 && c / 4096 == c / 262144 * 64 + c / 4096 % 64
  {
    assert c / 64 / 64 == c / 4096;
    assert c / 4096 / 64 == c / 262144;
  }

  lemma TwoAreChar(b0: byte, b1: byte, rest: seq<byte>)
    requires 0xC2 <= b0 <= 0xDF && IsContinuation(b1)
    ensures CharAt([b0, b1] + rest, 0) == 2
  {
  }

  lemma ThreeAreChar(b0: byte, b1: byte, b2: byte, rest: seq<byte>)
    requires 0xE0 <= b0 <= 0xEF && SecondByteFits(b0, b1) && IsContinuation(b2)
    ensures CharAt([b0, b1, b2] + rest, 0) == 3
  {
  }

  lemma FourAreChar(b0: byte, b1: byte, b2: byte, b3: byte, rest: seq<byte>)
    requires 0xF0 <= b0 <= 0xF4 && SecondByteFits(b0, b1) && IsContinuation(b2) && IsContinuation(b3)
    ensures CharAt([b0, b1, b2, b3] + rest, 0) == 4
  {
  }

  /** Every encoding is a character, whatever follows it. */
  lemma EncodedIsChar(c: CodePoint, rest: seq<byte>)
    ensures CharAt(Encode(c) + rest, 0) == |Encode(c)|
  {
    var bytes := Encode(c);
    if 0x1_0000 <= c {
      FourEncoded(c, rest);
    } else if 0x800 <= c {
      ThreeEncoded(c, rest);
    } else if 0x80 <= c {
      TwoAreChar(bytes[0], bytes[1], rest);
      assert bytes == [bytes[0], bytes[1]];
    }
  }

  lemma ThreeEncoded(c: CodePoint, rest: seq<byte>)
    requires 0x800 <= c < 0x1_0000
    ensures CharAt(Encode(c) + rest, 0) == 3
  {
    hide CharAt;
    UpperBits(c);
    var bytes := Encode(c);
    ThreeAreChar(bytes[0], bytes[1], bytes[2], rest);
    assert bytes == [bytes[0], bytes[1], bytes[2]];
  }

  lemma FourEncoded(c: CodePoint, rest: seq<byte>)
    requires 0x1_0000 <= c
    ensures CharAt(Encode(c) + rest, 0) == 4
  {
    hide CharAt;
    UpperBits(c);
    var bytes := Encode(c);
    FourAreChar(bytes[0], bytes[1], bytes[2], bytes[3], rest);
    assert bytes == [bytes[0], bytes[1], bytes[2], bytes[3]];
  }

  /** Six bits behind others, and taken apart again. */
  lemma SixBits(high: nat, low: nat)
    requires low < 64
    ensures (high * 64 + low) / 64 == high && (high * 64 + low) % 64 == low
  {
  }

  lemma TwelveBits(high: nat, mid: nat, low: nat)
    requires mid < 64 && low < 64
    ensures var c := (high * 64 + mid) * 64 + low;
            c / 4096 == high && c / 64 % 64 == mid && c % 64 == low
  {
    SixBits(high * 64 + mid, low);
    SixBits(high, mid);
  }

  lemma EighteenBits(high: nat, upper: nat, mid: nat, low: nat)
    requires upper < 64 && mid < 64 && low < 64
    ensures var c := ((high * 64 + upper) * 64 + mid) * 64 + low;
            c / 262144 == high && c / 4096 % 64 == upper && c / 64 % 64 == mid && c % 64 == low
  {
    TwelveBits(high * 64 + upper, mid, low);
    SixBits(high, upper);
  }

  /** And every character is an encoding. */
  lemma CharIsEncoded(s: seq<byte>) returns (c: CodePoint)
    requires CharAt(s, 0) > 0
    ensures CharAt(s, 0) == |Encode(c)| && Encode(c) == s[..CharAt(s, 0)]
  {
    match CharAt(s, 0)
    case 1 => c := s[0];
    case 2 => c := OfTwo(s[0], s[1]);
    case 3 => c := OfThree(s[0], s[1], s[2]);
    case 4 => c := OfFour(s[0], s[1], s[2], s[3]);
  }

  lemma OfTwo(b0: int, b1: int) returns (c: CodePoint)
    requires 0xC2 <= b0 <= 0xDF && 0x80 <= b1 < 0xC0
    ensures Encode(c) == [b0, b1]
  {
    SixBits(b0 - 0xC0, b1 - 0x80);
    c := (b0 - 0xC0) * 64 + (b1 - 0x80);
  }

  lemma OfThree(b0: int, b1: int, b2: int) returns (c: CodePoint)
    requires 0xE0 <= b0 <= 0xEF && 0x80 <= b1 < 0xC0 && 0x80 <= b2 < 0xC0
    requires (b0 == 0xE0 ==> b1 >= 0xA0) && (b0 == 0xED ==> b1 < 0xA0)
    ensures Encode(c) == [b0, b1, b2]
  {
    TwelveBits(b0 - 0xE0, b1 - 0x80, b2 - 0x80);
    c := ((b0 - 0xE0) * 64 + (b1 - 0x80)) * 64 + (b2 - 0x80);
  }

  lemma OfFour(b0: int, b1: int, b2: int, b3: int) returns (c: CodePoint)
    requires 0xF0 <= b0 <= 0xF4 && 0x80 <= b1 < 0xC0 && 0x80 <= b2 < 0xC0 && 0x80 <= b3 < 0xC0
    requires (b0 == 0xF0 ==> b1 >= 0x90) && (b0 == 0xF4 ==> b1 < 0x90)
    ensures Encode(c) == [b0, b1, b2, b3]
  {
    EighteenBits(b0 - 0xF0, b1 - 0x80, b2 - 0x80, b3 - 0x80);
    c := (((b0 - 0xF0) * 64 + (b1 - 0x80)) * 64 + (b2 - 0x80)) * 64 + (b3 - 0x80);
  }

  /** Where a text goes on depends on the rest of it only. */
  lemma CharInRest(before: seq<byte>, rest: seq<byte>, i: nat)
    ensures CharAt(before + rest, |before| + i) == CharAt(rest, i)
  {
  }

  lemma {:induction false} ValidInRest(before: seq<byte>, rest: seq<byte>, i: nat)
    requires i <= |rest|
    ensures ValidFrom(before + rest, |before| + i) <==> ValidFrom(rest, i)
    decreases |rest| - i
  {
    hide CharAt;
    CharInRest(before, rest, i);
    if i < |rest| && CharAt(rest, i) > 0 {
      ValidInRest(before, rest, i + CharAt(rest, i));
    }
  }

  lemma {:induction false} EncodedIsValid(cs: seq<CodePoint>)
    ensures Valid(EncodeAll(cs))
  {
    hide CharAt, Encode;
    if |cs| > 0 {
      EncodedIsValid(cs[1..]);
      EncodedIsChar(cs[0], EncodeAll(cs[1..]));
      ValidInRest(Encode(cs[0]), EncodeAll(cs[1..]), 0);
    }
  }

  lemma {:induction false} ValidIsEncoded(s: seq<byte>) returns (cs: seq<CodePoint>)
    requires Valid(s)
    ensures EncodeAll(cs) == s
  {
    hide CharAt, Encode;
    if |s| == 0 {
      cs := [];
    } else {
      var n := CharAt(s, 0);
      var c := CharIsEncoded(s);
      assert s[..n] + s[n..] == s;
      ValidInRest(s[..n], s[n..], 0);
      var more := ValidIsEncoded(s[n..]);
      cs := [c] + more;
      assert cs[1..] == more;
    }
  }

  /** Well-formed text is exactly what code points are encoded to. */
  lemma ValidIffEncoded(s: seq<byte>)
    ensures Valid(s) <==> exists cs :: EncodeAll(cs) == s
  {
    if Valid(s) {
      var cs := ValidIsEncoded(s);
    } else if cs :| EncodeAll(cs) == s {
      EncodedIsValid(cs);
    }
  }

  // ------------------------------------------------------- beginnings of characters

  /** The bytes are a beginning of some character, or all of it. */
  ghost predicate Begins(bytes: seq<byte>) {
    exists c :: bytes <= Encode(c)
  }

  lemma BeginsByChar(bytes: seq<byte>, rest: seq<byte>)
    requires CharAt(bytes + rest, 0) == |bytes| + |rest|
    requires |bytes| + |rest| > 0
    ensures Begins(bytes)
  {
    var c := CharIsEncoded(bytes + rest);
    assert (bytes + rest)[..|bytes| + |rest|] == bytes + rest;
    assert bytes <= Encode(c);
  }

  lemma BeginningOfChar(bytes: seq<byte>) returns (rest: seq<byte>)
    requires Begins(bytes)
    ensures CharAt(bytes + rest, 0) == |bytes| + |rest|
  {
    var c :| bytes <= Encode(c);
    rest := Encode(c)[|bytes|..];
    EncodedIsChar(c, []);
    assert Encode(c) + [] == bytes + rest;
  }

  /** One byte begins a character exactly when it is a lead byte. */
  lemma BeginsWithLead(a: byte)
    ensures Begins([a]) <==> a < 0x80 || 0xC2 <= a < 0xF5
  {
    if Begins([a]) {
      var rest := BeginningOfChar([a]);
    }
    var second: byte := if a == 0xE0 then 0xA0 else if a == 0xF0 then 0x90 else 0x80;
    match LeadLength(a)
    case 1 => BeginsByChar([a], []);
    case 2 => BeginsByChar([a], [0x80]);
    case 3 => BeginsByChar([a], [second, 0x80]);
    case 4 => BeginsByChar([a], [second, 0x80, 0x80]);
    case _ =>
  }

  lemma BeginsWithTwo(a: byte, b: byte)
    ensures Begins([a, b]) <==> LeadLength(a) >= 2 && (if LeadLength(a) == 2 then IsContinuation(b) else SecondByteFits(a, b))
  {
    if Begins([a, b]) {
      var rest := BeginningOfChar([a, b]);
    }
    if LeadLength(a) >= 2 && (if LeadLength(a) == 2 then IsContinuation(b) else SecondByteFits(a, b)) {
      match LeadLength(a)
      case 2 => BeginsByChar([a, b], []);
      case 3 => BeginsByChar([a, b], [0x80]);
      case 4 => BeginsByChar([a, b], [0x80, 0x80]);
      case _ =>
    }
  }

  lemma BeginsWithThree(a: byte, b: byte, c: byte)
    ensures Begins([a, b, c]) <==> LeadLength(a) >= 3 && SecondByteFits(a, b) && IsContinuation(c)
  {
    if Begins([a, b, c]) {
      var rest := BeginningOfChar([a, b, c]);
    }
    if LeadLength(a) >= 3 && SecondByteFits(a, b) && IsContinuation(c) {
      match LeadLength(a)
      case 3 => BeginsByChar([a, b, c], []);
      case 4 => BeginsByChar([a, b, c], [0x80]);
      case _ =>
    }
  }

  lemma BeginsWithFour(bytes: seq<byte>)
    requires |bytes| >= 4
    ensures Begins(bytes) ==> CharAt(bytes, 0) == 4
  {
    if Begins(bytes) {
      var rest := BeginningOfChar(bytes);
      assert bytes + rest == bytes;
    }
  }

  lemma ShorterBegins(bytes: seq<byte>, more: seq<byte>)
    requires Begins(more) && bytes <= more
    ensures Begins(bytes)
  {
    var c :| more <= Encode(c);
    assert bytes <= Encode(c);
  }
}
