// The encoders and decoders of src/codec/packet.rs in place: encoders append to a byte
// vector, decoders advance a cursor over the body.
module PacketIO {
  import opened Bytes
  import opened Types
  import opened Wrappers
  import opened Primitives
  import opened FixedHeaders
  import opened PacketCodec
  import opened CodecProofs

  // ---------- encoding ----------

  // The whole encoding is appended, or an error returned; a body too long for a frame is
  // noticed only after its first byte has been written.
  ghost predicate Wrote(before: seq<byte>, after: seq<byte>, packet: Packet, r: Checked<()>) {
    match Encoded(packet)
    case Ok(bytes) => r == Ok(()) && after == before + bytes
    case Err(e) => r == Err(e) && after == before + (if PartsOf(packet).Ok? then [PartsOf(packet).value.byte1] else [])
  }

  method EncodePacket(packet: Packet, out: Buffer) returns (r: Checked<()>)
    modifies out
    ensures Wrote(old(out.bytes), out.bytes, packet, r)
  {
    match packet {
      case Connect(c) => r := EncodeConnect(c, out);
      case ConnAck(a) => r := EncodeConnAck(a, out);
      case Publish(p) => r := EncodePublish(p, out);
      case PubAck(pkid) => r := EncodePkidOnly(4, pkid, 0, out);
      case PubRec(pkid) => r := EncodePkidOnly(5, pkid, 0, out);
      case PubRel(pkid) => r := EncodePkidOnly(6, pkid, 2, out);
      case PubComp(pkid) => r := EncodePkidOnly(7, pkid, 0, out);
      case Subscribe(s) => r := EncodeSubscribe(s, out);
      case SubAck(a) => r := EncodeSubAck(a, out);
      case Unsubscribe(u) => r := EncodeUnsubscribe(u, out);
      case UnsubAck(pkid) => r := EncodePkidOnly(11, pkid, 0, out);
      case PingReq => r := EncodeEmpty(12, out);
      case PingResp => r := EncodeEmpty(13, out);
      case Disconnect => r := EncodeEmpty(14, out);
    }
  }

  // First byte, remaining length, body.
  method WriteFrame(byte1: byte, body: seq<byte>, out: Buffer) returns (r: Checked<()>)
    modifies out
    ensures match Frame(Parts(byte1, body))
            case Ok(bytes) => r == Ok(()) && out.bytes == old(out.bytes) + bytes
            case Err(e) => r == Err(e) && out.bytes == old(out.bytes) + [byte1]
  {
    out.Push(byte1);
    var len :- EncodeRemainingLength(|body|);
    out.Extend(len);
    out.Extend(body);
    return Ok(());
  }

  method ConstructFlags(c: Connect) returns (r: Checked<byte>)
    ensures r == if c.password.Some? && c.username.None? then Err(InvalidProtocol) else Ok(ConnectFlags(c))
  {
    var f: nat := 0;
    if c.cleanSession {
      f := f + 2;
    }
    if c.will.Some? {
      f := f + 4 + QosBits(c.will.value.qos) * 8;
      if c.will.value.retain {
        f := f + 32;
      }
    }
    if c.username.Some? {
      f := f + 128;
    }
    if c.password.Some? {
      f := f + 64;
    }
    if c.password.Some? && c.username.None? {
      return Err(InvalidProtocol);
    }
    return Ok(f);
  }

  method EncodeConnect(c: Connect, out: Buffer) returns (r: Checked<()>)
    modifies out
    ensures Wrote(old(out.bytes), out.bytes, Packet.Connect(c), r)
  {
    var body := new Buffer();
    body.WriteField(PROTOCOL);
    body.Push(4);
    var flags :- ConstructFlags(c);
    body.Push(flags);
    body.WriteU16(c.keepAlive);
    body.WriteField(c.clientId);
    ConnectBodyParts(c, body.bytes);
    WriteOptions(c, body);
    r := WriteFrame(0x10, body.bytes, out);
  }

  // The optional fields: will, then username, then password.
  method WriteOptions(c: Connect, body: Buffer)
    modifies body
    ensures body.bytes == old(body.bytes) + WillFields(c) + LoginFields(c)
  {
    if c.will.Some? {
      body.WriteField(c.will.value.topic);
      body.WriteField(c.will.value.message);
    }
    assert body.bytes == old(body.bytes) + WillFields(c);
    if c.username.Some? {
      body.WriteField(c.username.value);
      if c.password.Some? {
        body.WriteField(c.password.value);
      }
    }
  }

  lemma {:induction false} ConnectBodyParts(c: Connect, head: seq<byte>)
    requires head == Field(PROTOCOL) + [4] + [ConnectFlags(c)] + U16Bytes(c.keepAlive) + Field(c.clientId)
    ensures head + WillFields(c) + LoginFields(c) == ConnectBody(c)
  {
  }

  method EncodeConnAck(a: ConnAck, out: Buffer) returns (r: Checked<()>)
    modifies out
    ensures Wrote(old(out.bytes), out.bytes, Packet.ConnAck(a), r)
  {
    if a.code > 5 {
      return Err(InvalidConnAckCode(a.code));
    }
    if a.code != 0 && a.sessionPresent {
      return Err(MalformedPacket);
    }
    out.Push(0x20);
    out.Push(0x02);
    out.Push(if a.sessionPresent then 1 else 0);
    out.Push(a.code);
    return Ok(());
  }

  method EncodePublish(p: Publish, out: Buffer) returns (r: Checked<()>)
    modifies out
    ensures Wrote(old(out.bytes), out.bytes, Packet.Publish(p), r)
  {
    if p.qos == AtMostOnce && p.pkid != 0 {
      return Err(MalformedPacket);
    }
    if p.qos != AtMostOnce && p.pkid == 0 {
      return Err(PacketIdZero);
    }
    var body := new Buffer();
    body.WriteField(p.topic);
    if p.qos != AtMostOnce {
      body.WriteU16(p.pkid);
    }
    body.Extend(p.payload);
    assert body.bytes == PublishBody(p);
    r := WriteFrame(0x30 + PublishFlags(p), body.bytes, out);
  }

  method EncodePkidOnly(packetType: byte, pkid: uint16, flags: byte, out: Buffer) returns (r: Checked<()>)
    requires packetType < 16 && flags < 16
    modifies out
    ensures if pkid == 0 then r == Err(PacketIdZero) && out.bytes == old(out.bytes)
            else r == Ok(()) && Frame(Parts(FirstByte(packetType, flags), U16Bytes(pkid))).Ok?
                 && out.bytes == old(out.bytes) + Frame(Parts(FirstByte(packetType, flags), U16Bytes(pkid))).value
  {
    if pkid == 0 {
      return Err(PacketIdZero);
    }
    out.Push(FirstByte(packetType, flags));
    out.Push(0x02);
    out.WriteU16(pkid);
    return Ok(());
  }

  function FirstByte(packetType: nat, flags: nat): byte
    requires packetType < 16 && flags < 16
  {
    packetType * 16 + flags
  }

  method EncodeSubscribe(s: Subscribe, out: Buffer) returns (r: Checked<()>)
    modifies out
    ensures Wrote(old(out.bytes), out.bytes, Packet.Subscribe(s), r)
  {
    if s.pkid == 0 {
      return Err(PacketIdZero);
    }
    if s.filters == [] {
      return Err(MalformedPacket);
    }
    var body := new Buffer();
    body.WriteU16(s.pkid);
    WriteFilters(s.filters, body);
    r := WriteFrame(0x82, body.bytes, out);
  }

  method WriteFilters(filters: seq<Filter>, body: Buffer)
    modifies body
    ensures body.bytes == old(body.bytes) + FilterFields(filters)
  {
    for i := 0 to |filters|
      invariant body.bytes + FilterFields(filters[i..]) == old(body.bytes) + FilterFields(filters)
    {
      assert filters[i..][0] == filters[i] && filters[i..][1..] == filters[i + 1..];
      body.WriteField(filters[i].path);
      body.Push(QosBits(filters[i].qos));
    }
    assert body.bytes + [] == body.bytes;
  }

  method EncodeUnsubscribe(u: Unsubscribe, out: Buffer) returns (r: Checked<()>)
    modifies out
    ensures Wrote(old(out.bytes), out.bytes, Packet.Unsubscribe(u), r)
  {
    if u.pkid == 0 {
      return Err(PacketIdZero);
    }
    if u.filters == [] {
      return Err(MalformedPacket);
    }
    var body := new Buffer();
    body.WriteU16(u.pkid);
    WriteTopics(u.filters, body);
    r := WriteFrame(0xA2, body.bytes, out);
  }

  method WriteTopics(topics: seq<Text>, body: Buffer)
    modifies body
    ensures body.bytes == old(body.bytes) + TopicFields(topics)
  {
    for i := 0 to |topics|
      invariant body.bytes + TopicFields(topics[i..]) == old(body.bytes) + TopicFields(topics)
    {
      assert topics[i..][0] == topics[i] && topics[i..][1..] == topics[i + 1..];
      body.WriteField(topics[i]);
    }
    assert body.bytes + [] == body.bytes;
  }

  method EncodeSubAck(a: SubAck, out: Buffer) returns (r: Checked<()>)
    modifies out
    ensures Wrote(old(out.bytes), out.bytes, Packet.SubAck(a), r)
  {
    if a.pkid == 0 {
      return Err(PacketIdZero);
    }
    if a.returnCodes == [] || !AllSubAckCodes(a.returnCodes) {
      return Err(MalformedPacket);
    }
    var body := new Buffer();
    body.WriteU16(a.pkid);
    body.Extend(a.returnCodes);
    r := WriteFrame(0x90, body.bytes, out);
  }

  method EncodeEmpty(packetType: byte, out: Buffer) returns (r: Checked<()>)
    requires packetType < 16
    modifies out
    ensures r == Ok(()) && Frame(Parts(FirstByte(packetType, 0), [])).Ok?
    ensures out.bytes == old(out.bytes) + Frame(Parts(FirstByte(packetType, 0), [])).value
  {
    out.Push(FirstByte(packetType, 0));
    out.Push(0x00);
    return Ok(());
  }

  // ---------- decoding ----------

  // Besides computing Decoded, an accepted input is canonical: encoding the packet gives
  // its first byte and body back.
  method DecodePacket(input: seq<byte>) returns (r: Checked<Packet>)
    ensures r == Decoded(input)
    ensures r.Ok? ==> Encoded(r.value).Ok? && FieldsFit(r.value)
    ensures r.Ok? ==> forall tail :: Decoded(Encoded(r.value).value + tail) == r
  {
    var header :- ParseFixedHeader(input);
    if |input| < header.FrameLen() {
      return Err(InsufficientBytes(header.FrameLen() - |input|));
    }
    r := DecodeBody(header.PacketType(), header.Flags(), input[header.headerLen..header.FrameLen()]);
    if r.Ok? {
      EncodeDecode(input);
      forall tail
        ensures Decoded(Encoded(r.value).value + tail) == r
      {
        DecodeEncode(r.value, tail);
      }
    }
  }

  method DecodeBody(packetType: nat, flags: nat, body: seq<byte>) returns (r: Checked<Packet>)
    ensures r == PacketFrom(packetType, flags, body)
  {
    match packetType {
      case 1 =>
        if flags != 0 {
          return Err(InvalidFixedHeaderFlags(1, flags));
        }
        var connect :- DecodeConnect(body);
        return Ok(Packet.Connect(connect));
      case 3 => r := DecodePublish(flags, body);
      case 8 => r := DecodeSubscribe(flags, body);
      case 10 => r := DecodeUnsubscribe(flags, body);
      case 9 => r := DecodeSubAck(flags, body);
      case _ => return PacketFrom(packetType, flags, body);
    }
  }

  method DecodePublish(flags: nat, body: seq<byte>) returns (r: Checked<Packet>)
    ensures r == PublishFrom(flags, body)
  {
    var qosBits := flags / 2 % 4;
    var qos :- QosFrom(qosBits);
    var curr := new Cursor(body);
    var topic :- curr.ReadText();
    var pkid: uint16 := 0;
    if qosBits > 0 {
      pkid :- curr.ReadU16();
      if pkid == 0 {
        return Err(PacketIdZero);
      }
    }
    return Ok(Packet.Publish(Publish.Publish(flags / 8 % 2 != 0, qos, flags % 2 != 0, topic, pkid, curr.rest)));
  }

  method DecodeSubscribe(flags: nat, body: seq<byte>) returns (r: Checked<Packet>)
    ensures r == SubscribeFrom(flags, body)
  {
    if flags != 2 {
      return Err(InvalidFixedHeaderFlags(8, flags));
    }
    var curr := new Cursor(body);
    var pkid :- curr.ReadU16();
    if pkid == 0 {
      return Err(PacketIdZero);
    }
    var filters :- ReadFilters(curr);
    if filters == [] {
      return Err(MalformedPacket);
    }
    return Ok(Packet.Subscribe(Subscribe.Subscribe(pkid, filters)));
  }

  ghost function Prepended<T>(first: seq<T>, r: Checked<seq<T>>): Checked<seq<T>> {
    match r
    case Ok(more) => Ok(first + more)
    case Err(e) => Err(e)
  }

  method ReadFilters(curr: Cursor) returns (r: Checked<seq<Filter>>)
    modifies curr
    ensures r == TakeFilters(old(curr.rest))
    ensures r.Ok? ==> curr.rest == []
  {
    var filters: seq<Filter> := [];
    assert TakeFilters(curr.rest).Ok? ==> filters + TakeFilters(curr.rest).value == TakeFilters(curr.rest).value;
    while curr.rest != []
      invariant TakeFilters(old(curr.rest)) == Prepended(filters, TakeFilters(curr.rest))
      decreases |curr.rest|
    {
      var path :- curr.ReadText();
      var bits :- curr.ReadU8();
      var qos :- QosFrom(bits);
      ghost var rest := TakeFilters(curr.rest);
      assert rest.Ok? ==> filters + ([Filter(path, qos)] + rest.value) == filters + [Filter(path, qos)] + rest.value;
      filters := filters + [Filter(path, qos)];
    }
    assert filters + [] == filters;
    return Ok(filters);
  }

  method DecodeUnsubscribe(flags: nat, body: seq<byte>) returns (r: Checked<Packet>)
    ensures r == UnsubscribeFrom(flags, body)
  {
    if flags != 2 {
      return Err(InvalidFixedHeaderFlags(10, flags));
    }
    var curr := new Cursor(body);
    var pkid :- curr.ReadU16();
    if pkid == 0 {
      return Err(PacketIdZero);
    }
    var topics :- ReadTopics(curr);
    if topics == [] {
      return Err(MalformedPacket);
    }
    return Ok(Packet.Unsubscribe(Unsubscribe.Unsubscribe(pkid, topics)));
  }

  method ReadTopics(curr: Cursor) returns (r: Checked<seq<Text>>)
    modifies curr
    ensures r == TakeTopics(old(curr.rest))
    ensures r.Ok? ==> curr.rest == []
  {
    var topics: seq<Text> := [];
    assert TakeTopics(curr.rest).Ok? ==> topics + TakeTopics(curr.rest).value == TakeTopics(curr.rest).value;
    while curr.rest != []
      invariant TakeTopics(old(curr.rest)) == Prepended(topics, TakeTopics(curr.rest))
      decreases |curr.rest|
    {
      var topic :- curr.ReadText();
      ghost var rest := TakeTopics(curr.rest);
      assert rest.Ok? ==> topics + ([topic] + rest.value) == topics + [topic] + rest.value;
      topics := topics + [topic];
    }
    assert topics + [] == topics;
    return Ok(topics);
  }

  method DecodeSubAck(flags: nat, body: seq<byte>) returns (r: Checked<Packet>)
    ensures r == SubAckFrom(flags, body)
  {
    if flags != 0 {
      return Err(InvalidFixedHeaderFlags(9, flags));
    }
    var curr := new Cursor(body);
    var pkid :- curr.ReadU16();
    if pkid == 0 {
      return Err(PacketIdZero);
    }
    if curr.rest == [] || !AllSubAckCodes(curr.rest) {
      return Err(MalformedPacket);
    }
    return Ok(Packet.SubAck(SubAck.SubAck(pkid, curr.rest)));
  }

  method DecodeConnect(body: seq<byte>) returns (r: Checked<Connect>)
    ensures r == ConnectFrom(body)
  {
    var curr := new Cursor(body);
    var protocol :- curr.ReadText();
    if protocol != PROTOCOL {
      return Err(InvalidProtocol);
    }
    var level :- curr.ReadU8();
    if level != 4 {
      return Err(InvalidProtocolLevel(level));
    }
    var flags :- curr.ReadU8();
    var _ :- CheckConnectFlags(flags);
    r := DecodeConnectPayload(flags, curr);
  }

  method DecodeConnectPayload(flags: byte, curr: Cursor) returns (r: Checked<Connect>)
    modifies curr
    ensures r == ConnectPayload(flags, old(curr.rest))
  {
    var keepAlive :- curr.ReadU16();
    var clientId :- curr.ReadText();
    var will :- DecodeWill(flags / 4 % 2 != 0, flags / 8 % 4, flags / 32 % 2 != 0, curr);
    var username: Option<Text> := None;
    if flags / 128 % 2 != 0 {
      var name :- curr.ReadText();
      username := Some(name);
    }
    var password: Option<seq<byte>> := None;
    if flags / 64 % 2 != 0 {
      var word :- curr.ReadBytes();
      password := Some(word);
    }
    if curr.rest != [] {
      return Err(MalformedPacket);
    }
    return Ok(Connect.Connect(flags / 2 % 2 != 0, keepAlive, clientId, will, username, password));
  }

  method DecodeWill(present: bool, qosBits: nat, retain: bool, curr: Cursor) returns (r: Checked<Option<LastWill>>)
    modifies curr
    ensures r.Ok? ==> TakeWill(present, qosBits, retain, old(curr.rest)) == Ok((r.value, curr.rest))
    ensures r.Err? ==> TakeWill(present, qosBits, retain, old(curr.rest)) == Err(r.error)
  {
    if !present {
      return Ok(None);
    }
    var topic :- curr.ReadText();
    var message :- curr.ReadBytes();
    var qos :- QosFrom(qosBits);
    return Ok(Some(LastWill(topic, message, qos, retain)));
  }
}
