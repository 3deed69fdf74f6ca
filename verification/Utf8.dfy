// Which byte strings are text: exactly the encodings of Unicode scalar values (RFC 3629,
// section 3).
module Utf8 {
  import opened Bytes

  // A code point that is no surrogate.
  predicate Scalar(c: int) {
    0 <= c < 0xD800 || 0xE000 <= c < 0x11_0000
  }

  // One to four bytes: the leading byte tells how many, each further one carries six bits.
  function CharBytes(c: int): (b: seq<byte>)
    requires Scalar(c)
    ensures 1 <= |b| <= 4
  {
    if c < 0x80 then [c]
    else if c < 0x800 then [192 + c / 64, 128 + c % 64]
    else if c < 0x1_0000 then [224 + c / 4096, 128 + c / 64 % 64, 128 + c % 64]
    else [240 + c / 262144, 128 + c / 4096 % 64, 128 + c / 64 % 64, 128 + c % 64]
  }

  ghost predicate AllScalars(cs: seq<int>) {
    forall i :: 0 <= i < |cs| ==> Scalar(cs[i])
  }

  ghost function TextBytes(cs: seq<int>): seq<byte>
    requires AllScalars(cs)
  {
    if cs == [] then [] else CharBytes(cs[0]) + TextBytes(cs[1..])
  }

  lemma {:induction false} FirstOfEncoding(c: int, rest: seq<byte>)
    requires Scalar(c)
    ensures var s := CharBytes(c) + rest;
            FirstCharLength(s) == |CharBytes(c)| && s[|CharBytes(c)|..] == rest
  {
    var b := CharBytes(c);
    var s := b + rest;
    assert forall i :: 0 <= i < |b| ==> s[i] == b[i];
  }

  lemma {:induction false} EncodingIsText(cs: seq<int>)
    requires AllScalars(cs)
    ensures ValidUtf8(TextBytes(cs))
  {
    if cs != [] {
      EncodingIsText(cs[1..]);
      FirstOfEncoding(cs[0], TextBytes(cs[1..]));
    }
  }

  // The first character of well-formed text.
  lemma {:induction false} FirstChar(s: seq<byte>) returns (c: int)
    requires s != [] && FirstCharLength(s) != 0
    ensures Scalar(c) && FirstCharLength(s) <= |s| && s[..FirstCharLength(s)] == CharBytes(c)
  {
    var n := FirstCharLength(s);
    if n == 1 {
      c := s[0];
      assert s[..1] == [s[0]];
    } else if n == 2 {
      c := Pair(s[0], s[1]);
      assert s[..2] == [s[0], s[1]];
    } else if n == 3 {
      c := Triple(s[0], s[1], s[2]);
      assert s[..3] == [s[0], s[1], s[2]];
    } else {
      c := Quadruple(s[0], s[1], s[2], s[3]);
      assert s[..4] == [s[0], s[1], s[2], s[3]];
    }
  }

  function Join(high: int, low: int): int {
    high * 64 + low
  }

  lemma {:induction false} Split(high: int, low: int)
    requires 0 <= low < 64
    ensures Join(high, low) / 64 == high && Join(high, low) % 64 == low
  {
  }

  lemma {:induction false} Sixes(c: nat)
    ensures c / 4096 == c / 64 / 64 && c / 262144 == c / 64 / 64 / 64
  {
  }

  lemma {:induction false} Pair(b0: byte, b1: byte) returns (c: int)
    requires 0xC2 <= b0 <= 0xDF && IsContinuation(b1)
    ensures Scalar(c) && CharBytes(c) == [b0, b1]
  {
    c := Join(b0 - 192, b1 - 128);
    Split(b0 - 192, b1 - 128);
  }

  lemma {:induction false} Triple(b0: byte, b1: byte, b2: byte) returns (c: int)
    requires 0xE0 <= b0 <= 0xEF && IsContinuation(b1) && IsContinuation(b2)
    requires (b0 == 0xE0 ==> 0xA0 <= b1) && (b0 == 0xED ==> b1 <= 0x9F)
    ensures Scalar(c) && CharBytes(c) == [b0, b1, b2]
  {
    var high := Join(b0 - 224, b1 - 128);
    c := Join(high, b2 - 128);
    Split(b0 - 224, b1 - 128);
    Split(high, b2 - 128);
    Sixes(c);
  }

  lemma {:induction false} Quadruple(b0: byte, b1: byte, b2: byte, b3: byte) returns (c: int)
    requires 0xF0 <= b0 <= 0xF4 && IsContinuation(b1) && IsContinuation(b2) && IsContinuation(b3)
    requires (b0 == 0xF0 ==> 0x90 <= b1) && (b0 == 0xF4 ==> b1 <= 0x8F)
    ensures Scalar(c) && CharBytes(c) == [b0, b1, b2, b3]
  {
    var top := Join(b0 - 240, b1 - 128);
    var high := Join(top, b2 - 128);
    c := Join(high, b3 - 128);
    Split(b0 - 240, b1 - 128);
    Split(top, b2 - 128);
    Split(high, b3 - 128);
    Sixes(c);
  }

  lemma {:induction false} TextIsEncoding(s: seq<byte>) returns (cs: seq<int>)
    requires ValidUtf8(s)
    ensures AllScalars(cs) && TextBytes(cs) == s
    decreases |s|
  {
    if s == [] {
      cs := [];
    } else {
      var n := FirstCharLength(s);
      var c := FirstChar(s);
      var rest := TextIsEncoding(s[n..]);
      cs := [c] + rest;
      assert cs[0] == c && cs[1..] == rest;
      assert TextBytes(cs) == s[..n] + s[n..];
    }
  }

  // A byte string is text if and only if it encodes scalar values.
  lemma {:induction false} TextIff(s: seq<byte>)
    ensures ValidUtf8(s) <==> exists cs :: AllScalars(cs) && TextBytes(cs) == s
  {
    if ValidUtf8(s) {
      var cs := TextIsEncoding(s);
    }
    if cs :| AllScalars(cs) && TextBytes(cs) == s {
      EncodingIsText(cs);
    }
  }
}
