// The codec's primitives (src/codec/primitives.rs): integers, length-prefixed fields and
// the remaining length (MQTT 3.1.1, sections 1.5 and 2.2.3).
module Primitives {
  import opened Bytes
  import opened Wrappers

  const MAX_REMAINING_LEN: nat := 268_435_455

  datatype Error =
    | InsufficientBytes(needed: nat)
    | MalformedRemainingLength
    | InvalidPacketType(packetType: nat)
    | InvalidQos(qos: nat)
    | MalformedPacket
    | PacketIdZero
    | InvalidFixedHeaderFlags(packetType: nat, flags: nat)
    | InvalidProtocol
    | InvalidProtocolLevel(level: nat)
    | InvalidConnAckCode(code: nat)

  type Checked<T> = Result<T, Error>

  // A value read, and the input that follows it.
  type Taken<T> = Checked<(T, seq<byte>)>

  // ---------- reading, on values ----------

  function TakeU8(input: seq<byte>): (r: Taken<byte>)
    ensures r.Ok? ==> |r.value.1| < |input|
  {
    if input == [] then Err(InsufficientBytes(1)) else Ok((input[0], input[1..]))
  }

  function BigEndian(high: int, low: int): int {
    high * 0x100 + low
  }

  function TakeU16(input: seq<byte>): (r: Taken<uint16>)
    ensures r.Ok? ==> |r.value.1| < |input|
  {
    if |input| < 2 then Err(InsufficientBytes(2 - |input|)) else Ok((BigEndian(input[0], input[1]), input[2..]))
  }

  function TakeBytes(input: seq<byte>): (r: Taken<seq<byte>>)
    ensures r.Ok? ==> |r.value.1| < |input|
  {
    var (len, rest) :- TakeU16(input);
    if |rest| < len then Err(InsufficientBytes(len - |rest|)) else Ok((rest[..len], rest[len..]))
  }

  function TakeText(input: seq<byte>): (r: Taken<Text>)
    ensures r.Ok? ==> |r.value.1| < |input|
  {
    var (bytes, rest) :- TakeBytes(input);
    if ValidUtf8(bytes) then
      var text: Text := bytes;
      Ok((text, rest))
    else Err(MalformedPacket)
  }

  // ---------- writing, on values ----------

  function U16Bytes(v: uint16): seq<byte> {
    [v / 0x100, v % 0x100]
  }

  // The length is cut down to 16 bits, the bytes are not.
  function Field(bytes: seq<byte>): seq<byte> {
    U16Bytes(|bytes| % 0x1_0000) + bytes
  }

  function RemainingLength(n: nat): seq<byte> {
    if n < 128 then [n] else [n % 128 + 128] + RemainingLength(n / 128)
  }

  function EncodedLength(n: nat): Checked<seq<byte>> {
    if n > MAX_REMAINING_LEN then Err(MalformedRemainingLength) else Ok(RemainingLength(n))
  }

  // A length in at most `digits` base-128 digits, least significant first, and the number
  // of bytes it takes.
  function LengthIn(input: seq<byte>, digits: nat): (r: Checked<(nat, nat)>)
    ensures r.Ok? ==> 1 <= r.value.1 <= digits && r.value.1 <= |input|
    decreases digits
  {
    if digits == 0 then Err(MalformedRemainingLength)
    else if input == [] then Err(InsufficientBytes(1))
    else if input[0] < 128 then Ok((input[0], 1))
    else
      var (value, size) :- LengthIn(input[1..], digits - 1);
      Ok((input[0] - 128 + 128 * value, size + 1))
  }

  function DecodedLength(input: seq<byte>): Checked<(nat, nat)> {
    LengthIn(input, 4)
  }

  // ---------- fields round trip ----------

  lemma {:induction false} U16RoundTrip(v: uint16, rest: seq<byte>)
    ensures TakeU16(U16Bytes(v) + rest) == Ok((v, rest))
  {
    assert (U16Bytes(v) + rest)[2..] == rest;
  }

  lemma {:induction false} FieldRoundTrip(bytes: seq<byte>, rest: seq<byte>)
    requires |bytes| <= 0xFFFF
    ensures TakeBytes(Field(bytes) + rest) == Ok((bytes, rest))
  {
    assert Field(bytes) + rest == U16Bytes(|bytes|) + (bytes + rest);
    U16RoundTrip(|bytes|, bytes + rest);
    assert (bytes + rest)[..|bytes|] == bytes && (bytes + rest)[|bytes|..] == rest;
  }

  lemma {:induction false} TextRoundTrip(text: Text, rest: seq<byte>)
    requires |text| <= 0xFFFF
    ensures TakeText(Field(text) + rest) == Ok((text, rest))
  {
    FieldRoundTrip(text, rest);
  }

  // What is read is what writing it again gives.
  lemma {:induction false} TakeU16Canonical(input: seq<byte>)
    requires TakeU16(input).Ok?
    ensures input == U16Bytes(TakeU16(input).value.0) + TakeU16(input).value.1
  {
  }

  lemma {:induction false} TakeBytesCanonical(input: seq<byte>)
    requires TakeBytes(input).Ok?
    ensures |TakeBytes(input).value.0| <= 0xFFFF
    ensures input == Field(TakeBytes(input).value.0) + TakeBytes(input).value.1
  {
    TakeU16Canonical(input);
    var (len, rest) := TakeU16(input).value;
    assert rest == rest[..len] + rest[len..];
  }

  // ---------- the remaining length ----------

  function Pow128(k: nat): nat {
    if k == 0 then 1 else 128 * Pow128(k - 1)
  }

  lemma {:induction false} LengthBelow(n: nat, k: nat)
    requires n < Pow128(k) && k > 0
    ensures |RemainingLength(n)| <= k
  {
    if n >= 128 {
      LengthBelow(n / 128, k - 1);
    }
  }

  // The encoding has the least number of digits that can hold n; up to MAX_REMAINING_LEN,
  // from one to four.
  lemma {:induction false} LeastDigits(n: nat)
    ensures var k := |RemainingLength(n)|; k > 0 && n < Pow128(k) && (k > 1 ==> Pow128(k - 1) <= n)
    ensures n <= MAX_REMAINING_LEN ==> |RemainingLength(n)| <= 4
    decreases n
  {
    if n >= 128 {
      LeastDigits(n / 128);
    }
    if n <= MAX_REMAINING_LEN {
      assert Pow128(4) == MAX_REMAINING_LEN + 1 by {
        assert Pow128(0) == 1 && Pow128(1) == 128 && Pow128(2) == 16384 && Pow128(3) == 2097152;
      }
      LengthBelow(n, 4);
    }
  }

  lemma {:induction false} DigitsRoundTrip(n: nat, digits: nat, suffix: seq<byte>)
    requires |RemainingLength(n)| <= digits
    ensures LengthIn(RemainingLength(n) + suffix, digits) == Ok((n, |RemainingLength(n)|))
    decreases n
  {
    if n >= 128 {
      assert (RemainingLength(n) + suffix)[1..] == RemainingLength(n / 128) + suffix;
      DigitsRoundTrip(n / 128, digits - 1, suffix);
    }
  }

  // Decoding undoes encoding, whatever follows.
  lemma {:induction false} LengthRoundTrip(n: nat, suffix: seq<byte>)
    requires n <= MAX_REMAINING_LEN
    ensures DecodedLength(RemainingLength(n) + suffix) == Ok((n, |RemainingLength(n)|))
  {
    LeastDigits(n);
    DigitsRoundTrip(n, 4, suffix);
  }

  lemma {:induction false} PrefixIsShort(n: nat, digits: nat, j: nat)
    requires j < |RemainingLength(n)| <= digits
    ensures LengthIn(RemainingLength(n)[..j], digits) == Err(InsufficientBytes(1))
    decreases n
  {
    if n >= 128 && j > 0 {
      assert RemainingLength(n)[..j][1..] == RemainingLength(n / 128)[..j - 1];
      PrefixIsShort(n / 128, digits - 1, j - 1);
    }
  }

  // A proper prefix of an encoding asks for one more byte.
  lemma {:induction false} ProperPrefixAsksForMore(n: nat, j: nat)
    requires n <= MAX_REMAINING_LEN && j < |RemainingLength(n)|
    ensures DecodedLength(RemainingLength(n)[..j]) == Err(InsufficientBytes(1))
  {
    LeastDigits(n);
    PrefixIsShort(n, 4, j);
  }

  // A verdict other than "insufficient" does not change when bytes are appended, and
  // "insufficient" always asks for one byte.
  lemma {:induction false} VerdictStable(input: seq<byte>, digits: nat, more: seq<byte>)
    ensures LengthIn(input, digits) != Err(InsufficientBytes(1)) ==>
              LengthIn(input + more, digits) == LengthIn(input, digits)
    ensures LengthIn(input, digits).Err? ==>
              LengthIn(input, digits).error in {InsufficientBytes(1), MalformedRemainingLength}
    decreases digits
  {
    if digits > 0 && input != [] && input[0] >= 128 {
      assert (input + more)[1..] == input[1..] + more;
      VerdictStable(input[1..], digits - 1, more);
    }
  }

  // At most four digits, so never above the maximum.
  lemma {:induction false} LengthBound(input: seq<byte>, digits: nat)
    requires LengthIn(input, digits).Ok?
    ensures LengthIn(input, digits).value.0 < Pow128(digits)
    decreases digits
  {
    if input[0] >= 128 {
      LengthBound(input[1..], digits - 1);
    } else {
      assert Pow128(digits) == 128 * Pow128(digits - 1);
      PowPositive(digits - 1);
    }
  }

  lemma {:induction false} PowPositive(k: nat)
    ensures Pow128(k) >= 1
  {
    if k > 0 {
      PowPositive(k - 1);
    }
  }

  lemma {:induction false} DecodedWithinBound(input: seq<byte>)
    requires DecodedLength(input).Ok?
    ensures DecodedLength(input).value.0 <= MAX_REMAINING_LEN
  {
    LengthBound(input, 4);
    assert Pow128(4) == MAX_REMAINING_LEN + 1 by {
      assert Pow128(0) == 1 && Pow128(1) == 128 && Pow128(2) == 16384 && Pow128(3) == 2097152;
    }
  }

  // A decoded length is the canonical encoding exactly when it is no longer than that.
  lemma {:induction false} MinimalIsCanonical(input: seq<byte>, digits: nat)
    requires LengthIn(input, digits).Ok?
    ensures var (n, size) := LengthIn(input, digits).value;
            && |RemainingLength(n)| <= size
            && (input[..size] == RemainingLength(n) <==> size == |RemainingLength(n)|)
    decreases digits
  {
    var (n, size) := LengthIn(input, digits).value;
    if input[0] >= 128 {
      MinimalIsCanonical(input[1..], digits - 1);
      var (n1, size1) := LengthIn(input[1..], digits - 1).value;
      assert input[..size] == [input[0]] + input[1..][..size1];
      if n >= 128 {
        assert n / 128 == n1 && n % 128 + 128 == input[0];
        assert RemainingLength(n)[1..] == RemainingLength(n1);
        assert input[..size][1..] == input[1..][..size1];
      }
    }
  }

  // ---------- in place ----------

  // A growable byte vector.
  class Buffer {
    var bytes: seq<byte>

    constructor ()
      ensures bytes == []
    {
      bytes := [];
    }

    method Push(b: byte)
      modifies this
      ensures bytes == old(bytes) + [b]
    {
      bytes := bytes + [b];
    }

    method Extend(more: seq<byte>)
      modifies this
      ensures bytes == old(bytes) + more
    {
      bytes := bytes + more;
    }

    method WriteU16(v: uint16)
      modifies this
      ensures bytes == old(bytes) + U16Bytes(v)
    {
      Extend([v / 0x100, v % 0x100]);
    }

    method WriteField(field: seq<byte>)
      modifies this
      ensures bytes == old(bytes) + Field(field)
    {
      WriteU16(|field| % 0x1_0000);
      Extend(field);
    }
  }

  // A cursor that readers advance.
  class Cursor {
    var rest: seq<byte>

    constructor (input: seq<byte>)
      ensures rest == input
    {
      rest := input;
    }

    method ReadU8() returns (r: Checked<byte>)
      modifies this
      ensures r.Ok? ==> TakeU8(old(rest)) == Ok((r.value, rest))
      ensures r.Err? ==> TakeU8(old(rest)) == Err(r.error) && rest == old(rest)
    {
      if rest == [] {
        return Err(InsufficientBytes(1));
      }
      var v := rest[0];
      rest := rest[1..];
      return Ok(v);
    }

    method ReadU16() returns (r: Checked<uint16>)
      modifies this
      ensures r.Ok? ==> TakeU16(old(rest)) == Ok((r.value, rest))
      ensures r.Err? ==> TakeU16(old(rest)) == Err(r.error) && rest == old(rest)
    {
      if |rest| < 2 {
        return Err(InsufficientBytes(2 - |rest|));
      }
      var v := BigEndian(rest[0], rest[1]);
      rest := rest[2..];
      return Ok(v);
    }

    // A failure may leave the length consumed.
    method ReadBytes() returns (r: Checked<seq<byte>>)
      modifies this
      ensures r.Ok? ==> TakeBytes(old(rest)) == Ok((r.value, rest))
      ensures r.Err? ==> TakeBytes(old(rest)) == Err(r.error)
      ensures r.Err? ==> rest == if |old(rest)| < 2 then old(rest) else old(rest)[2..]
    {
      var len :- ReadU16();
      if |rest| < len {
        return Err(InsufficientBytes(len - |rest|));
      }
      var bytes := rest[..len];
      rest := rest[len..];
      return Ok(bytes);
    }

    method ReadText() returns (r: Checked<Text>)
      modifies this
      ensures r.Ok? ==> TakeText(old(rest)) == Ok((r.value, rest))
      ensures r.Err? ==> TakeText(old(rest)) == Err(r.error)
      ensures r.Err? && TakeBytes(old(rest)).Ok? ==> rest == TakeBytes(old(rest)).value.1
    {
      var bytes :- ReadBytes();
      if !ValidUtf8(bytes) {
        return Err(MalformedPacket);
      }
      return Ok(bytes);
    }
  }

  method EncodeRemainingLength(length: nat) returns (r: Checked<seq<byte>>)
    ensures r == EncodedLength(length)
    ensures r.Ok? ==> forall suffix :: DecodedLength(r.value + suffix) == Ok((length, |r.value|))
  {
    if length > MAX_REMAINING_LEN {
      return Err(MalformedRemainingLength);
    }
    var out := [];
    var len := length;
    while true
      invariant RemainingLength(length) == out + RemainingLength(len)
      decreases len
    {
      var b := len % 128;
      len := len / 128;
      if len > 0 {
        b := b + 0x80;
      }
      ghost var out0 := out;
      out := out + [b];
      if len == 0 {
        break;
      }
      assert out0 + ([b] + RemainingLength(len)) == out + RemainingLength(len);
    }
    forall suffix
      ensures DecodedLength(RemainingLength(length) + suffix) == Ok((length, |RemainingLength(length)|))
    {
      LengthRoundTrip(length, suffix);
    }
    return Ok(out);
  }

  // The result when i digits worth `value` precede the rest.
  ghost function Continued(r: Checked<(nat, nat)>, value: nat, multiplier: nat, i: nat): Checked<(nat, nat)> {
    match r
    case Err(e) => Err(e)
    case Ok((v, size)) => Ok((value + multiplier * v, size + i))
  }

  lemma {:induction false} ContinuedStep(input: seq<byte>, i: nat, value: nat, multiplier: nat)
    requires i < 4 && i < |input|
    requires DecodedLength(input) == Continued(LengthIn(input[i..], 4 - i), value, multiplier, i)
    ensures input[i] < 128 ==> DecodedLength(input) == Ok((value + input[i] * multiplier, i + 1))
    ensures input[i] >= 128 ==>
              DecodedLength(input) == Continued(LengthIn(input[i + 1..], 3 - i),
                                                value + (input[i] - 128) * multiplier, multiplier * 128, i + 1)
  {
    var rest := input[i..];
    assert rest[0] == input[i] && rest[1..] == input[i + 1..];
    if rest[0] >= 128 {
      ContinuedDigit(rest, 4 - i, value, multiplier, i);
    } else {
      assert LengthIn(rest, 4 - i) == Ok((rest[0], 1));
      assert multiplier * rest[0] == rest[0] * multiplier;
    }
  }

  lemma {:induction false} ContinuedDigit(rest: seq<byte>, digits: nat, value: nat, multiplier: nat, i: nat)
    requires rest != [] && digits > 0 && rest[0] >= 128
    ensures Continued(LengthIn(rest, digits), value, multiplier, i)
         == Continued(LengthIn(rest[1..], digits - 1), value + (rest[0] - 128) * multiplier, multiplier * 128, i + 1)
  {
    var next := LengthIn(rest[1..], digits - 1);
    if next.Ok? {
      Distribute(value, multiplier, rest[0] - 128, next.value.0);
    }
  }

  method DecodeRemainingLength(input: seq<byte>) returns (r: Checked<(nat, nat)>)
    ensures r == DecodedLength(input)
  {
    var multiplier: nat := 1;
    var value: nat := 0;
    for i := 0 to 4
      invariant i <= |input|
      invariant DecodedLength(input) == Continued(LengthIn(input[i..], 4 - i), value, multiplier, i)
    {
      if i >= |input| {
        return Err(InsufficientBytes(1));
      }
      ContinuedStep(input, i, value, multiplier);
      value := value + (input[i] % 128) * multiplier;
      if input[i] < 0x80 {
        DecodedWithinBound(input);
        assert value <= MAX_REMAINING_LEN;  // so the bound needs no test of its own
        return Ok((value, i + 1));
      }
      multiplier := multiplier * 128;
    }
    return Err(MalformedRemainingLength);
  }

  lemma {:induction false} Distribute(value: nat, m: nat, d: nat, v: nat)
    ensures value + m * (d + 128 * v) == (value + d * m) + (m * 128) * v
  {
    calc {
      m * (d + 128 * v);
      m * d + m * (128 * v);
      m * d + (m * 128) * v;
    }
  }
}

// The fixed header (src/codec/fixed_header.rs).
module FixedHeaders {
  import opened Bytes
  import opened Wrappers
  import opened Primitives

  datatype FixedHeader = FixedHeader(byte1: byte, remainingLen: nat, headerLen: nat) {
    function PacketType(): nat {
      byte1 / 16
    }

    function Flags(): nat {
      byte1 % 16
    }

    function FrameLen(): nat {
      headerLen + remainingLen
    }
  }

  function ParseFixedHeader(input: seq<byte>): (r: Checked<FixedHeader>)
    ensures r.Ok? ==> 2 <= r.value.headerLen <= |input|
  {
    if input == [] then Err(InsufficientBytes(1))
    else
      var (len, size) :- DecodedLength(input[1..]);
      Ok(FixedHeader(input[0], len, 1 + size))
  }
}
