// The bytes on the wire, written out in arithmetic (MQTT 3.1.1, sections 2 and 3): every
// encoding against its layout, and what is accepted and refused.
module WireLayout {
  import opened Bytes
  import opened Types
  import opened Wrappers
  import opened Primitives
  import opened FixedHeaders
  import opened PacketCodec
  import opened CodecProofs

  // ---------- layouts ----------

  // Two bytes, high byte first.
  predicate NumberAt(b: seq<byte>, at: nat, n: int) {
    at + 2 <= |b| && Number(b[at], b[at + 1]) == n
  }

  function Number(high: int, low: int): int {
    256 * high + low
  }

  function QosNumber(q: Qos): nat {
    if q.AtMostOnce? then 0 else if q.AtLeastOnce? then 1 else 2
  }

  function OneIf(b: bool): nat {
    if b then 1 else 0
  }

  // Fields one after the other, each under its length in 16 bits.
  ghost predicate FieldsLaidOut(b: seq<byte>, fields: seq<seq<byte>>)
    decreases fields
  {
    if fields == [] then b == []
    else
      var n := |fields[0]|;
      && 2 + n <= |b| && NumberAt(b, 0, n % 65536) && b[2..2 + n] == fields[0]
      && FieldsLaidOut(b[2 + n..], fields[1..])
  }

  // Filters: the path as a field, then the QoS in one byte.
  ghost predicate FiltersLaidOut(b: seq<byte>, filters: seq<Filter>)
    decreases filters
  {
    if filters == [] then b == []
    else
      var n := |filters[0].path|;
      && 3 + n <= |b| && NumberAt(b, 0, n % 65536) && b[2..2 + n] == filters[0].path
      && b[2 + n] == QosNumber(filters[0].qos)
      && FiltersLaidOut(b[3 + n..], filters[1..])
  }

  // The first byte, the length of the body in seven bits a byte, low bits first, the top bit
  // set on all but the last; the body.
  ghost predicate FrameLaidOut(frame: seq<byte>, first: int, body: seq<byte>) {
    var n := |body|;
    if n < 128 then |frame| == 2 + n && frame[0] == first && frame[1] == n && frame[2..] == body
    else if n < 16384 then
      |frame| == 3 + n && frame[0] == first && frame[1] == 128 + n % 128 && frame[2] == n / 128 && frame[3..] == body
    else if n < 2097152 then
      && |frame| == 4 + n && frame[0] == first && frame[1] == 128 + n % 128 && frame[2] == 128 + n / 128 % 128
      && frame[3] == n / 16384 && frame[4..] == body
    else
      && n < 268435456
      && |frame| == 5 + n && frame[0] == first && frame[1] == 128 + n % 128 && frame[2] == 128 + n / 128 % 128
      && frame[3] == 128 + n / 16384 % 128 && frame[4] == n / 2097152 && frame[5..] == body
  }

  // "MQTT", level 4, the flags bit by bit, the keep-alive time, and the fields in order.
  ghost predicate ConnectLaidOut(b: seq<byte>, c: Connect) {
    && |b| >= 10 && NumberAt(b, 0, 4)
    && b[2] == 'M' as int && b[3] == 'Q' as int && b[4] == 'T' as int && b[5] == 'T' as int && b[6] == 4
    && ConnectFlagsAre(b[7], c)
    && NumberAt(b, 8, c.keepAlive)
    && FieldsLaidOut(b[10..], ConnectFields(c))
  }

  // Bit 0 is reserved; then clean session, will, will QoS in two bits, will retain, password
  // and username.
  predicate ConnectFlagsAre(f: int, c: Connect) {
    && 0 <= f < 256 && f % 2 == 0 && f / 2 % 2 == OneIf(c.cleanSession) && f / 4 % 2 == OneIf(c.will.Some?)
    && f / 8 % 4 == (if c.will.Some? then QosNumber(c.will.value.qos) else 0)
    && f / 32 % 2 == OneIf(c.will.Some? && c.will.value.retain)
    && f / 64 % 2 == OneIf(c.password.Some?) && f / 128 % 2 == OneIf(c.username.Some?)
  }

  function WillList(c: Connect): seq<seq<byte>> {
    if c.will.Some? then [c.will.value.topic, c.will.value.message] else []
  }

  function LoginList(c: Connect): seq<seq<byte>> {
    (if c.username.Some? then [c.username.value] else []) + (if c.password.Some? then [c.password.value] else [])
  }

  function ConnectFields(c: Connect): seq<seq<byte>> {
    [c.clientId] + (WillList(c) + LoginList(c))
  }

  ghost predicate PublishLaidOut(b: seq<byte>, p: Publish) {
    var n := |p.topic|;
    && 2 + n <= |b| && NumberAt(b, 0, n % 65536) && b[2..2 + n] == p.topic
    && if p.qos == AtMostOnce then b[2 + n..] == p.payload
       else 4 + n <= |b| && NumberAt(b, 2 + n, p.pkid) && b[4 + n..] == p.payload
  }

  // The frame of each packet type.
  ghost predicate LaidOut(packet: Packet, frame: seq<byte>) {
    match packet
    case Connect(c) => exists body :: FrameLaidOut(frame, 16, body) && ConnectLaidOut(body, c)
    case ConnAck(a) => frame == [32, 2, OneIf(a.sessionPresent), a.code]
    case Publish(p) =>
      exists body ::
        FrameLaidOut(frame, 48 + 8 * OneIf(p.dup) + 2 * QosNumber(p.qos) + OneIf(p.retain), body)
        && PublishLaidOut(body, p)
    case PubAck(id) => frame == [64, 2, id / 256, id % 256]
    case PubRec(id) => frame == [80, 2, id / 256, id % 256]
    case PubRel(id) => frame == [98, 2, id / 256, id % 256]
    case PubComp(id) => frame == [112, 2, id / 256, id % 256]
    case Subscribe(s) =>
      exists body ::
        FrameLaidOut(frame, 130, body) && NumberAt(body, 0, s.pkid) && FiltersLaidOut(body[2..], s.filters)
    case SubAck(a) =>
      exists body :: FrameLaidOut(frame, 144, body) && NumberAt(body, 0, a.pkid) && body[2..] == a.returnCodes
    case Unsubscribe(u) =>
      exists body ::
        FrameLaidOut(frame, 162, body) && NumberAt(body, 0, u.pkid) && FieldsLaidOut(body[2..], u.filters)
    case UnsubAck(id) => frame == [176, 2, id / 256, id % 256]
    case PingReq => frame == [192, 0]
    case PingResp => frame == [208, 0]
    case Disconnect => frame == [224, 0]
  }

  // ---------- pieces ----------

  lemma {:induction false} U16LaidOut(v: uint16, rest: seq<byte>)
    ensures NumberAt(U16Bytes(v) + rest, 0, v) && |U16Bytes(v)| == 2
    ensures (U16Bytes(v) + rest)[2..] == rest
  {
  }

  lemma {:induction false} FieldLaidOut(bytes: seq<byte>, rest: seq<byte>)
    ensures var b, n := Field(bytes) + rest, |bytes|;
            |b| == 2 + n + |rest| && NumberAt(b, 0, n % 65536) && b[2..2 + n] == bytes && b[2 + n..] == rest
  {
    U16LaidOut(|bytes| % 65536, bytes + rest);
    assert Field(bytes) + rest == U16Bytes(|bytes| % 65536) + (bytes + rest);
    assert (Field(bytes) + rest)[2..2 + |bytes|] == bytes;
  }

  lemma {:induction false} TopicsLaidOut(topics: seq<Text>)
    ensures FieldsLaidOut(TopicFields(topics), topics)
    decreases topics
  {
    if topics != [] {
      TopicsLaidOut(topics[1..]);
      FieldLaidOut(topics[0], TopicFields(topics[1..]));
    }
  }

  lemma {:induction false} FilterFieldsLaidOut(filters: seq<Filter>)
    ensures FiltersLaidOut(FilterFields(filters), filters)
    decreases filters
  {
    if filters != [] {
      var f, more := filters[0], FilterFields(filters[1..]);
      FilterFieldsLaidOut(filters[1..]);
      FieldLaidOut(f.path, [QosBits(f.qos)] + more);
      var b, n := FilterFields(filters), |f.path|;
      assert b[2 + n..] == [QosBits(f.qos)] + more;
      assert b[2 + n] == b[2 + n..][0] && b[3 + n..] == b[2 + n..][1..];
    }
  }

  lemma {:induction false} FieldsStep(bytes: seq<byte>, rest: seq<byte>, fields: seq<seq<byte>>)
    requires FieldsLaidOut(rest, fields)
    ensures FieldsLaidOut(Field(bytes) + rest, [bytes] + fields)
  {
    FieldLaidOut(bytes, rest);
    assert ([bytes] + fields)[1..] == fields;
  }

  lemma {:induction false} LengthLaidOut(n: nat)
    requires n < 268435456
    ensures RemainingLength(n)
         == if n < 128 then [n]
            else if n < 16384 then [128 + n % 128, n / 128]
            else if n < 2097152 then [128 + n % 128, 128 + n / 128 % 128, n / 16384]
            else [128 + n % 128, 128 + n / 128 % 128, 128 + n / 16384 % 128, n / 2097152]
  {
    assert n / 128 / 128 == n / 16384 && n / 16384 / 128 == n / 2097152;
    if n >= 128 {
      assert RemainingLength(n) == [n % 128 + 128] + RemainingLength(n / 128);
      if n >= 16384 {
        assert RemainingLength(n / 128) == [n / 128 % 128 + 128] + RemainingLength(n / 16384);
        if n >= 2097152 {
          assert RemainingLength(n / 16384) == [n / 16384 % 128 + 128] + RemainingLength(n / 2097152);
        }
      }
    }
  }

  lemma {:induction false} FrameIsLaidOut(parts: Parts)
    requires Frame(parts).Ok?
    ensures FrameLaidOut(Frame(parts).value, parts.byte1, parts.body)
  {
    LengthLaidOut(|parts.body|);
  }

  // ---------- every packet ----------

  lemma {:induction false} ConnectFlagsLaidOut(c: Connect)
    requires c.password.Some? ==> c.username.Some?
    ensures ConnectFlagsAre(ConnectFlags(c), c)
  {
    FlagBits(c);
  }

  // The fixed part of the body.
  lemma {:induction false} ConnectHeadLaidOut(flags: byte, keepAlive: uint16, payload: seq<byte>)
    ensures var b := Field(PROTOCOL) + ([4, flags] + (U16Bytes(keepAlive) + payload));
            && |b| == 10 + |payload| && NumberAt(b, 0, 4)
            && b[2] == 77 && b[3] == 81 && b[4] == 84 && b[5] == 84 && b[6] == 4 && b[7] == flags
            && NumberAt(b, 8, keepAlive) && b[10..] == payload
  {
    var head := [0, 4, 77, 81, 84, 84, 4, flags, keepAlive / 256, keepAlive % 256];
    var b := Field(PROTOCOL) + ([4, flags] + (U16Bytes(keepAlive) + payload));
    assert Field(PROTOCOL) == [0, 4, 77, 81, 84, 84];
    assert b == head + payload;
    assert forall i :: 0 <= i < 10 ==> b[i] == head[i];
  }

  lemma {:induction false} ConnectIsLaidOut(c: Connect)
    requires c.password.Some? ==> c.username.Some?
    ensures ConnectLaidOut(ConnectBody(c), c)
  {
    ConnectHeadLaidOut(ConnectFlags(c), c.keepAlive, Field(c.clientId) + (WillFields(c) + LoginFields(c)));
    PayloadLaidOut(c);
    ConnectFlagsLaidOut(c);
  }

  lemma {:induction false} LoginLaidOut(c: Connect)
    requires c.password.Some? ==> c.username.Some?
    ensures FieldsLaidOut(LoginFields(c), LoginList(c))
  {
    if c.password.Some? {
      FieldsStep(c.password.value, [], []);
      assert Field(c.password.value) + [] == Field(c.password.value);
      FieldsStep(c.username.value, Field(c.password.value), [c.password.value]);
    } else if c.username.Some? {
      FieldsStep(c.username.value, [], []);
      assert LoginFields(c) == Field(c.username.value) + [];
    }
  }

  lemma {:induction false} TwoFields(a: seq<byte>, b: seq<byte>, rest: seq<byte>, list: seq<seq<byte>>)
    requires FieldsLaidOut(rest, list)
    ensures FieldsLaidOut((Field(a) + Field(b)) + rest, [a, b] + list)
  {
    FieldsStep(b, rest, list);
    FieldsStep(a, Field(b) + rest, [b] + list);
    Regroup(Field(a), Field(b), rest);
    assert [a] + ([b] + list) == [a, b] + list;
  }

  lemma {:induction false} Regroup<T>(a: seq<T>, b: seq<T>, c: seq<T>)
    ensures (a + b) + c == a + (b + c)
  {
  }

  lemma {:induction false} WillLaidOut(c: Connect, rest: seq<byte>, list: seq<seq<byte>>)
    requires FieldsLaidOut(rest, list)
    ensures FieldsLaidOut(WillFields(c) + rest, WillList(c) + list)
  {
    if c.will.Some? {
      TwoFields(c.will.value.topic, c.will.value.message, rest, list);
    } else {
      assert WillFields(c) + rest == rest && WillList(c) + list == list;
    }
  }

  lemma {:induction false} PayloadLaidOut(c: Connect)
    requires c.password.Some? ==> c.username.Some?
    ensures FieldsLaidOut(Field(c.clientId) + (WillFields(c) + LoginFields(c)), ConnectFields(c))
  {
    LoginLaidOut(c);
    WillLaidOut(c, LoginFields(c), LoginList(c));
    FieldsStep(c.clientId, WillFields(c) + LoginFields(c), WillList(c) + LoginList(c));
  }

  lemma {:induction false} PublishIsLaidOut(p: Publish)
    ensures PublishLaidOut(PublishBody(p), p)
  {
    var rest := (if p.qos == AtMostOnce then [] else U16Bytes(p.pkid)) + p.payload;
    FieldLaidOut(p.topic, rest);
    if p.qos == AtMostOnce {
      assert rest == p.payload;
    } else {
      U16LaidOut(p.pkid, p.payload);
      var b, n := PublishBody(p), |p.topic|;
      assert b[2 + n] == b[2 + n..][0] && b[3 + n] == b[2 + n..][1] && b[4 + n..] == b[2 + n..][2..];
    }
  }

  ghost predicate WellLaid(packet: Packet) {
    Encoded(packet).Ok? ==> LaidOut(packet, Encoded(packet).value)
  }

  lemma {:induction false} ConnectWellLaid(c: Connect)
    ensures WellLaid(Packet.Connect(c))
  {
    if Encoded(Packet.Connect(c)).Ok? {
      ConnectIsLaidOut(c);
      FrameIsLaidOut(Parts(16, ConnectBody(c)));
    }
  }

  lemma {:induction false} PublishWellLaid(p: Publish)
    ensures WellLaid(Packet.Publish(p))
  {
    if Encoded(Packet.Publish(p)).Ok? {
      PublishIsLaidOut(p);
      FrameIsLaidOut(PartsOf(Packet.Publish(p)).value);
    }
  }

  lemma {:induction false} SubscribeWellLaid(s: Subscribe)
    ensures WellLaid(Packet.Subscribe(s))
  {
    if Encoded(Packet.Subscribe(s)).Ok? {
      U16LaidOut(s.pkid, FilterFields(s.filters));
      FilterFieldsLaidOut(s.filters);
      FrameIsLaidOut(PartsOf(Packet.Subscribe(s)).value);
    }
  }

  lemma {:induction false} UnsubscribeWellLaid(u: Unsubscribe)
    ensures WellLaid(Packet.Unsubscribe(u))
  {
    if Encoded(Packet.Unsubscribe(u)).Ok? {
      U16LaidOut(u.pkid, TopicFields(u.filters));
      TopicsLaidOut(u.filters);
      FrameIsLaidOut(PartsOf(Packet.Unsubscribe(u)).value);
    }
  }

  lemma {:induction false} SubAckWellLaid(a: SubAck)
    ensures WellLaid(Packet.SubAck(a))
  {
    if Encoded(Packet.SubAck(a)).Ok? {
      U16LaidOut(a.pkid, a.returnCodes);
      FrameIsLaidOut(PartsOf(Packet.SubAck(a)).value);
    }
  }

  lemma {:induction false} OthersWellLaid(packet: Packet)
    requires !packet.Connect? && !packet.Publish? && !packet.Subscribe? && !packet.Unsubscribe? && !packet.SubAck?
    ensures WellLaid(packet)
  {
    if Encoded(packet).Ok? {
      var parts := PartsOf(packet).value;
      FrameIsLaidOut(parts);
      ShortFrame(Encoded(packet).value, parts);
    }
  }

  // An encoding is laid out as its packet type asks.
  lemma {:induction false} EncodingIsLaidOut(packet: Packet)
    requires Encoded(packet).Ok?
    ensures LaidOut(packet, Encoded(packet).value)
  {
    assert WellLaid(packet) by {
      match packet {
        case Connect(c) => ConnectWellLaid(c);
        case Publish(p) => PublishWellLaid(p);
        case Subscribe(s) => SubscribeWellLaid(s);
        case Unsubscribe(u) => UnsubscribeWellLaid(u);
        case SubAck(a) => SubAckWellLaid(a);
        case _ => OthersWellLaid(packet);
      }
    }
  }

  lemma {:induction false} ShortFrame(frame: seq<byte>, parts: Parts)
    requires FrameLaidOut(frame, parts.byte1, parts.body) && |parts.body| < 128
    ensures frame == [parts.byte1, |parts.body|] + parts.body
  {
    assert frame == [frame[0], frame[1]] + frame[2..];
  }

  // ---------- what can be encoded ----------

  function PathsLength(filters: seq<Filter>): nat {
    if filters == [] then 0 else 3 + |filters[0].path| + PathsLength(filters[1..])
  }

  function TopicsLength(topics: seq<Text>): nat {
    if topics == [] then 0 else 2 + |topics[0]| + TopicsLength(topics[1..])
  }

  function OptionLength(o: Option<seq<byte>>): nat {
    if o.Some? then 2 + |o.value| else 0
  }

  // How long the body of a packet is.
  function BodyLength(packet: Packet): nat {
    match packet
    case Connect(c) =>
      12 + |c.clientId| + (if c.will.Some? then 4 + |c.will.value.topic| + |c.will.value.message| else 0)
      + OptionLength(c.username) + OptionLength(c.password)
    case Publish(p) => 2 + |p.topic| + (if p.qos == AtMostOnce then 0 else 2) + |p.payload|
    case Subscribe(s) => 2 + PathsLength(s.filters)
    case Unsubscribe(u) => 2 + TopicsLength(u.filters)
    case SubAck(a) => 2 + |a.returnCodes|
    case PingReq => 0
    case PingResp => 0
    case Disconnect => 0
    case _ => 2
  }

  // What keeps a packet from being encoded, whatever its length.
  function Flaw(packet: Packet): Option<Error> {
    match packet
    case Connect(c) => if c.password.Some? && c.username.None? then Some(InvalidProtocol) else None
    case ConnAck(a) =>
      if a.code > 5 then Some(InvalidConnAckCode(a.code))
      else if a.code != 0 && a.sessionPresent then Some(MalformedPacket)
      else None
    case Publish(p) =>
      if p.qos == AtMostOnce && p.pkid != 0 then Some(MalformedPacket)
      else if p.qos != AtMostOnce && p.pkid == 0 then Some(PacketIdZero)
      else None
    case PubAck(id) => if id == 0 then Some(PacketIdZero) else None
    case PubRec(id) => if id == 0 then Some(PacketIdZero) else None
    case PubRel(id) => if id == 0 then Some(PacketIdZero) else None
    case PubComp(id) => if id == 0 then Some(PacketIdZero) else None
    case UnsubAck(id) => if id == 0 then Some(PacketIdZero) else None
    case Subscribe(s) =>
      if s.pkid == 0 then Some(PacketIdZero) else if s.filters == [] then Some(MalformedPacket) else None
    case Unsubscribe(u) =>
      if u.pkid == 0 then Some(PacketIdZero) else if u.filters == [] then Some(MalformedPacket) else None
    case SubAck(a) =>
      if a.pkid == 0 then Some(PacketIdZero)
      else if a.returnCodes == [] || exists i :: 0 <= i < |a.returnCodes| && a.returnCodes[i] !in [0, 1, 2, 128]
      then Some(MalformedPacket)
      else None
    case PingReq => None
    case PingResp => None
    case Disconnect => None
  }

  lemma {:induction false} FilterFieldsLength(filters: seq<Filter>)
    ensures |FilterFields(filters)| == PathsLength(filters)
  {
    if filters != [] {
      FilterFieldsLength(filters[1..]);
    }
  }

  lemma {:induction false} TopicFieldsLength(topics: seq<Text>)
    ensures |TopicFields(topics)| == TopicsLength(topics)
  {
    if topics != [] {
      TopicFieldsLength(topics[1..]);
    }
  }

  lemma {:induction false} PartsLength(packet: Packet)
    ensures PartsOf(packet).Err? <==> Flaw(packet).Some?
    ensures PartsOf(packet).Err? ==> PartsOf(packet).error == Flaw(packet).value
    ensures PartsOf(packet).Ok? ==> |PartsOf(packet).value.body| == BodyLength(packet)
  {
    match packet {
      case Subscribe(s) => FilterFieldsLength(s.filters);
      case Unsubscribe(u) => TopicFieldsLength(u.filters);
      case SubAck(a) =>
        assert AllSubAckCodes(a.returnCodes) <==>
               forall i :: 0 <= i < |a.returnCodes| ==> a.returnCodes[i] in [0, 1, 2, 128];
      case _ =>
    }
  }

  // A packet without flaw whose body is at most 268435455 bytes long can be encoded, and no
  // other; the flaw, or else the length, is the error.
  lemma {:induction false} EncodesIff(packet: Packet)
    ensures match Encoded(packet)
            case Ok(_) => Flaw(packet).None? && BodyLength(packet) <= 268435455
            case Err(error) =>
              if Flaw(packet).Some? then error == Flaw(packet).value
              else BodyLength(packet) > 268435455 && error == MalformedRemainingLength
  {
    PartsLength(packet);
  }

  // ---------- what is accepted ----------

  function Value(d0: int, d1: int, d2: int, d3: int): int {
    d0 + 128 * d1 + 16384 * d2 + 2097152 * d3
  }

  // The remaining length of a header, digit by digit.
  ghost predicate LengthReads(b: seq<byte>, r: Checked<(nat, nat)>) {
    if |b| == 0 then r == Err(InsufficientBytes(1))
    else if b[0] < 128 then r == Ok((b[0], 1))
    else if |b| == 1 then r == Err(InsufficientBytes(1))
    else if b[1] < 128 then r.Ok? && r.value.0 == Value(b[0] - 128, b[1], 0, 0) && r.value.1 == 2
    else if |b| == 2 then r == Err(InsufficientBytes(1))
    else if b[2] < 128 then r.Ok? && r.value.0 == Value(b[0] - 128, b[1] - 128, b[2], 0) && r.value.1 == 3
    else if |b| == 3 then r == Err(InsufficientBytes(1))
    else if b[3] < 128 then
      r.Ok? && r.value.0 == Value(b[0] - 128, b[1] - 128, b[2] - 128, b[3]) && r.value.1 == 4
    else r == Err(MalformedRemainingLength)
  }

  lemma {:induction false} LengthRead(b: seq<byte>)
    ensures LengthReads(b, DecodedLength(b))
  {
    if |b| > 1 && b[0] >= 128 {
      assert b[1..][0] == b[1] && b[1..][1..] == b[2..];
      if |b| > 2 && b[1] >= 128 {
        assert b[2..][0] == b[2] && b[2..][1..] == b[3..];
        if |b| > 3 && b[2] >= 128 {
          assert b[3..][0] == b[3] && b[3..][1..] == b[4..];
        }
      }
    }
  }

  // The header of a frame: its first byte, the length that follows, and where the body
  // starts.
  lemma {:induction false} HeaderRead(input: seq<byte>)
    ensures input == [] ==> ParseFixedHeader(input) == Err(InsufficientBytes(1))
    ensures input != [] ==>
              (match DecodedLength(input[1..])
               case Err(error) => ParseFixedHeader(input) == Err(error)
               case Ok((length, size)) =>
                 var header := ParseFixedHeader(input);
                 header.Ok? && header.value.byte1 == input[0] && header.value.remainingLen == length
                 && header.value.headerLen == 1 + size && header.value.FrameLen() == 1 + size + length)
  {
  }

  // A frame is accepted as a packet if and only if that packet has its first byte and its
  // body, whatever digits the length is written in, and fields that fit 16 bits.
  lemma {:induction false} AcceptedIff(input: seq<byte>, packet: Packet)
    requires ParseFixedHeader(input).Ok? && ParseFixedHeader(input).value.FrameLen() <= |input|
    ensures var header := ParseFixedHeader(input).value;
            Decoded(input) == Ok(packet)
            <==> FieldsFit(packet)
                 && PartsOf(packet) == Ok(Parts(input[0], input[header.headerLen..header.FrameLen()]))
  {
    var header := ParseFixedHeader(input).value;
    var body := input[header.headerLen..header.FrameLen()];
    assert input[0] == 16 * (input[0] / 16) + input[0] % 16;
    if Decoded(input) == Ok(packet) {
      PartsCanonical(input[0] / 16, input[0] % 16, body);
    }
    if FieldsFit(packet) && PartsOf(packet) == Ok(Parts(input[0], body)) {
      PartsRoundTrip(packet);
    }
  }

  // ---------- what is refused ----------

  // Reads that find too little say how much is missing.
  lemma {:induction false} ShortReads(b: seq<byte>)
    ensures b == [] ==> TakeU8(b) == Err(InsufficientBytes(1))
    ensures |b| == 0 ==> TakeU16(b) == Err(InsufficientBytes(2))
    ensures |b| == 1 ==> TakeU16(b) == Err(InsufficientBytes(1))
    ensures |b| < 2 ==> TakeBytes(b) == Err(InsufficientBytes(2 - |b|))
    ensures |b| >= 2 && |b| < 2 + Number(b[0], b[1]) ==>
              TakeBytes(b) == Err(InsufficientBytes(2 + Number(b[0], b[1]) - |b|))
    ensures TakeBytes(b).Ok? && !ValidUtf8(TakeBytes(b).value.0) ==> TakeText(b) == Err(MalformedPacket)
  {
  }

  // Flags a packet type requires in the low half of its first byte; PUBLISH carries its own.
  function RequiredFlags(packetType: nat): nat {
    if packetType == 6 || packetType == 8 || packetType == 10 then 2 else 0
  }

  // Refusals that type and flags decide, and those of the packets without fields.
  lemma {:induction false} BodyRefusals(t: nat, flags: nat, body: seq<byte>)
    requires t < 16 && flags < 16
    ensures t == 0 || t == 15 ==> PacketFrom(t, flags, body) == Err(InvalidPacketType(t))
    ensures t == 3 && flags / 2 % 4 == 3 ==> PacketFrom(t, flags, body) == Err(InvalidQos(3))
    ensures t != 0 && t != 3 && t != 15 && flags != RequiredFlags(t) ==>
              PacketFrom(t, flags, body) == Err(InvalidFixedHeaderFlags(t, flags))
    ensures t in [12, 13, 14] && flags == 0 && body != [] ==> PacketFrom(t, flags, body) == Err(MalformedPacket)
    ensures t in [4, 5, 6, 7, 11] && flags == RequiredFlags(t) && |body| != 2 ==>
              PacketFrom(t, flags, body) == Err(MalformedPacket)
    ensures t in [4, 5, 6, 7, 11] && flags == RequiredFlags(t) && body == [0, 0] ==>
              PacketFrom(t, flags, body) == Err(PacketIdZero)
  {
  }

  // A frame is refused as its header or its body is, or for what is missing of it.
  lemma {:induction false} Refusals(input: seq<byte>)
    ensures match ParseFixedHeader(input)
            case Err(error) => Decoded(input) == Err(error)
            case Ok(header) =>
              var frame := header.FrameLen();
              if |input| < frame then Decoded(input) == Err(InsufficientBytes(frame - |input|))
              else Decoded(input) == PacketFrom(input[0] / 16, input[0] % 16, input[header.headerLen..frame])
  {
  }

  // Refusals that the fields of a body decide: of CONNECT, the protocol, its level and the
  // will's QoS.
  lemma {:induction false} ConnectRefusals(name: Text, level: byte, flags: byte, rest: seq<byte>)
    requires |name| <= 65535
    ensures name != ['M' as int, 'Q' as int, 'T' as int, 'T' as int] ==>
              ConnectFrom(Field(name) + rest) == Err(InvalidProtocol)
    ensures name == ['M' as int, 'Q' as int, 'T' as int, 'T' as int] && level != 4 ==>
              ConnectFrom(Field(name) + ([level] + rest)) == Err(InvalidProtocolLevel(level))
    ensures name == ['M' as int, 'Q' as int, 'T' as int, 'T' as int] ==>
              ConnectFrom(Field(name) + ([4, flags] + rest))
              == (match FlagsFlaw(flags)
                  case Some(error) => Err(error)
                  case None => ConnectPayload(flags, rest))
  {
    NameRead(name, rest);
    NameRead(name, [level] + rest);
    NameRead(name, [4, flags] + rest);
    LevelRead(level, rest);
    FlagsRead(flags, rest);
  }

  lemma {:induction false} NameRead(name: Text, rest: seq<byte>)
    requires |name| <= 65535
    ensures ConnectFrom(Field(name) + rest)
         == if name == ['M' as int, 'Q' as int, 'T' as int, 'T' as int] then ConnectLevel(rest)
            else Err(InvalidProtocol)
  {
    TextRoundTrip(name, rest);
  }

  lemma {:induction false} LevelRead(level: byte, rest: seq<byte>)
    ensures level != 4 ==> ConnectLevel([level] + rest) == Err(InvalidProtocolLevel(level))
  {
  }

  lemma {:induction false} FlagsRead(flags: byte, rest: seq<byte>)
    ensures ConnectLevel([4, flags] + rest)
         == match FlagsFlaw(flags)
            case Some(error) => Err(error)
            case None => ConnectPayload(flags, rest)
  {
    var level := [4, flags] + rest;
    assert level[1..] == [flags] + rest && level[1..][1..] == rest;
    FlagsChecked(flags);
    var checked := CheckConnectFlags(flags);
    assert ConnectLevel(level) == if checked.Err? then Err(checked.error) else ConnectPayload(flags, rest);
  }

  lemma {:induction false} FlagsChecked(flags: byte)
    ensures match CheckConnectFlags(flags)
            case Ok(_) => FlagsFlaw(flags).None?
            case Err(error) => FlagsFlaw(flags) == Some(error)
  {
  }

  // Bytes left over after the last field make a CONNECT malformed.
  lemma {:induction false} LeftoverRefused(flags: byte, keepAlive: uint16, clientId: Text, input: seq<byte>)
    requires var will := TakeWill(flags / 4 % 2 != 0, flags / 8 % 4, flags / 32 % 2 != 0, input);
             && will.Ok?
             && var name := TakeUsername(flags / 128 % 2 != 0, will.value.1);
                && name.Ok?
                && var word := TakePassword(flags / 64 % 2 != 0, name.value.1);
                   word.Ok? && word.value.1 != []
    ensures ConnectOptions(flags, keepAlive, clientId, input) == Err(MalformedPacket)
  {
  }

  function FlagsFlaw(flags: byte): Option<Error> {
    var will, qos, retain := flags / 4 % 2 == 1, flags / 8 % 4, flags / 32 % 2 == 1;
    if flags % 2 == 1 then Some(MalformedPacket)
    else if !will && (qos != 0 || retain) then Some(MalformedPacket)
    else if qos == 3 then Some(InvalidQos(3))
    else if flags / 64 % 2 == 1 && flags / 128 == 0 then Some(MalformedPacket)
    else None
  }

  // Of SUBSCRIBE, UNSUBSCRIBE, SUBACK and PUBLISH, the id 0, missing topics or codes, an
  // unknown code, and a QoS above 2.
  lemma {:induction false} TopicRefusals(rest: seq<byte>, id: uint16, path: Text, bits: byte)
    requires |path| <= 65535
    ensures var zero := [0, 0] + rest;
            && SubscribeFrom(2, zero) == Err(PacketIdZero) && UnsubscribeFrom(2, zero) == Err(PacketIdZero)
            && SubAckFrom(0, zero) == Err(PacketIdZero)
    ensures id != 0 ==>
              var alone := [id / 256, id % 256];
              && SubscribeFrom(2, alone) == Err(MalformedPacket) && UnsubscribeFrom(2, alone) == Err(MalformedPacket)
              && SubAckFrom(0, alone) == Err(MalformedPacket)
              && (bits !in [0, 1, 2, 128] ==> SubAckFrom(0, alone + [bits]) == Err(MalformedPacket))
    ensures id != 0 && bits > 2 ==>
              SubscribeFrom(2, [id / 256, id % 256] + (Field(path) + ([bits] + rest))) == Err(InvalidQos(bits))
    ensures PublishFrom(2, Field(path) + ([0, 0] + rest)) == Err(PacketIdZero)
  {
    ZeroRefused(rest);
    if id != 0 {
      AloneRefused(id, bits);
      QosRefused(id, path, bits, rest);
    }
    TextRoundTrip(path, [0, 0] + rest);
  }

  lemma {:induction false} ZeroRefused(rest: seq<byte>)
    ensures var zero := [0, 0] + rest;
            && SubscribeFrom(2, zero) == Err(PacketIdZero) && UnsubscribeFrom(2, zero) == Err(PacketIdZero)
            && SubAckFrom(0, zero) == Err(PacketIdZero) && TakePkid(zero) == Err(PacketIdZero)
  {
  }

  lemma {:induction false} AloneRefused(id: uint16, bits: byte)
    requires id != 0
    ensures var alone := [id / 256, id % 256];
            && SubscribeFrom(2, alone) == Err(MalformedPacket) && UnsubscribeFrom(2, alone) == Err(MalformedPacket)
            && SubAckFrom(0, alone) == Err(MalformedPacket)
            && (bits !in [0, 1, 2, 128] ==> SubAckFrom(0, alone + [bits]) == Err(MalformedPacket))
  {
    assert U16Bytes(id) == [id / 256, id % 256];
    PkidTaken(id, []);
    PkidTaken(id, [bits]);
    assert U16Bytes(id) + [] == U16Bytes(id);
    assert [bits][0] == bits;
  }

  lemma {:induction false} QosRefused(id: uint16, path: Text, bits: byte, rest: seq<byte>)
    requires id != 0 && |path| <= 65535
    ensures bits > 2 ==>
              SubscribeFrom(2, [id / 256, id % 256] + (Field(path) + ([bits] + rest))) == Err(InvalidQos(bits))
  {
    assert U16Bytes(id) == [id / 256, id % 256];
    PkidTaken(id, Field(path) + ([bits] + rest));
    FilterQosRefused(path, bits, rest);
  }

  lemma {:induction false} FilterQosRefused(path: Text, bits: byte, rest: seq<byte>)
    requires |path| <= 65535
    ensures bits > 2 ==> TakeFilters(Field(path) + ([bits] + rest)) == Err(InvalidQos(bits))
  {
    var tail := [bits] + rest;
    TextRoundTrip(path, tail);
    assert tail[0] == bits && TakeU8(tail) == Ok((bits, tail[1..]));
  }
}
