// Packets and frames (src/codec/packet.rs), on values: each packet type's first byte and
// body, and the reading of a body under given flags.
module PacketCodec {
  import opened Bytes
  import opened Types
  import opened Wrappers
  import opened Primitives
  import opened FixedHeaders

  function QosBits(q: Qos): byte {
    match q
    case AtMostOnce => 0
    case AtLeastOnce => 1
    case ExactlyOnce => 2
  }

  function QosFrom(bits: nat): Checked<Qos> {
    match bits
    case 0 => Ok(AtMostOnce)
    case 1 => Ok(AtLeastOnce)
    case 2 => Ok(ExactlyOnce)
    case _ => Err(InvalidQos(bits))
  }

  function Bit(on: bool, weight: nat): nat {
    if on then weight else 0
  }

  const PROTOCOL: seq<byte> := [0x4D, 0x51, 0x54, 0x54]  // "MQTT"

  // ---------- encoding: first byte and body ----------

  datatype Parts = Parts(byte1: byte, body: seq<byte>)

  // The CONNECT flags: username 7, password 6, will retain 5, will QoS 4-3, will 2, clean
  // session 1, bit 0 reserved.
  function ConnectFlags(c: Connect): byte {
    Bit(c.cleanSession, 2)
    + (match c.will case None => 0 case Some(w) => 4 + QosBits(w.qos) * 8 + Bit(w.retain, 32))
    + Bit(c.password.Some?, 64) + Bit(c.username.Some?, 128)
  }

  function WillFields(c: Connect): seq<byte> {
    match c.will
    case None => []
    case Some(w) => Field(w.topic) + Field(w.message)
  }

  function LoginFields(c: Connect): seq<byte> {
    match c.username
    case None => []
    case Some(name) => Field(name) + (match c.password case None => [] case Some(word) => Field(word))
  }

  function ConnectBody(c: Connect): seq<byte> {
    Field(PROTOCOL) + ([4, ConnectFlags(c)] + (U16Bytes(c.keepAlive)
    + (Field(c.clientId) + (WillFields(c) + LoginFields(c)))))
  }

  function PublishFlags(p: Publish): byte {
    Bit(p.dup, 8) + QosBits(p.qos) * 2 + Bit(p.retain, 1)
  }

  function PublishBody(p: Publish): seq<byte> {
    Field(p.topic) + ((if p.qos == AtMostOnce then [] else U16Bytes(p.pkid)) + p.payload)
  }

  function FilterFields(filters: seq<Filter>): seq<byte> {
    if filters == [] then []
    else Field(filters[0].path) + ([QosBits(filters[0].qos)] + FilterFields(filters[1..]))
  }

  function TopicFields(topics: seq<Text>): seq<byte> {
    if topics == [] then [] else Field(topics[0]) + TopicFields(topics[1..])
  }

  predicate ValidSubAckCode(c: byte) {
    c == 0 || c == 1 || c == 2 || c == 0x80
  }

  predicate AllSubAckCodes(codes: seq<byte>) {
    forall i :: 0 <= i < |codes| ==> ValidSubAckCode(codes[i])
  }

  function PkidParts(byte1: byte, pkid: uint16): Checked<Parts> {
    if pkid == 0 then Err(PacketIdZero) else Ok(Parts(byte1, U16Bytes(pkid)))
  }

  function PartsOf(packet: Packet): Checked<Parts> {
    match packet
    case Connect(c) =>
      if c.password.Some? && c.username.None? then Err(InvalidProtocol) else Ok(Parts(0x10, ConnectBody(c)))
    case ConnAck(a) =>
      if a.code > 5 then Err(InvalidConnAckCode(a.code))
      else if a.code != 0 && a.sessionPresent then Err(MalformedPacket)
      else Ok(Parts(0x20, [Bit(a.sessionPresent, 1), a.code]))
    case Publish(p) =>
      if p.qos == AtMostOnce && p.pkid != 0 then Err(MalformedPacket)
      else if p.qos != AtMostOnce && p.pkid == 0 then Err(PacketIdZero)
      else Ok(Parts(0x30 + PublishFlags(p), PublishBody(p)))
    case PubAck(pkid) => PkidParts(0x40, pkid)
    case PubRec(pkid) => PkidParts(0x50, pkid)
    case PubRel(pkid) => PkidParts(0x62, pkid)
    case PubComp(pkid) => PkidParts(0x70, pkid)
    case Subscribe(s) =>
      if s.pkid == 0 then Err(PacketIdZero)
      else if s.filters == [] then Err(MalformedPacket)
      else Ok(Parts(0x82, U16Bytes(s.pkid) + FilterFields(s.filters)))
    case SubAck(a) =>
      if a.pkid == 0 then Err(PacketIdZero)
      else if a.returnCodes == [] || !AllSubAckCodes(a.returnCodes) then Err(MalformedPacket)
      else Ok(Parts(0x90, U16Bytes(a.pkid) + a.returnCodes))
    case Unsubscribe(u) =>
      if u.pkid == 0 then Err(PacketIdZero)
      else if u.filters == [] then Err(MalformedPacket)
      else Ok(Parts(0xA2, U16Bytes(u.pkid) + TopicFields(u.filters)))
    case UnsubAck(pkid) => PkidParts(0xB0, pkid)
    case PingReq => Ok(Parts(0xC0, []))
    case PingResp => Ok(Parts(0xD0, []))
    case Disconnect => Ok(Parts(0xE0, []))
  }

  function Frame(parts: Parts): Checked<seq<byte>> {
    var len :- EncodedLength(|parts.body|);
    Ok([parts.byte1] + len + parts.body)
  }

  function Encoded(packet: Packet): Checked<seq<byte>> {
    var parts :- PartsOf(packet);
    Frame(parts)
  }

  // ---------- decoding: body under flags ----------

  function TakeWill(flag: bool, qos: nat, retain: bool, input: seq<byte>): Taken<Option<LastWill>> {
    if !flag then Ok((None, input))
    else
      var (topic, rest) :- TakeText(input);
      var (message, rest) :- TakeBytes(rest);
      var qos :- QosFrom(qos);
      Ok((Some(LastWill(topic, message, qos, retain)), rest))
  }

  function TakeUsername(flag: bool, input: seq<byte>): Taken<Option<Text>> {
    if !flag then Ok((None, input))
    else
      var (name, rest) :- TakeText(input);
      Ok((Some(name), rest))
  }

  function TakePassword(flag: bool, input: seq<byte>): Taken<Option<seq<byte>>> {
    if !flag then Ok((None, input))
    else
      var (word, rest) :- TakeBytes(input);
      Ok((Some(word), rest))
  }

  function CheckConnectFlags(flags: byte): Checked<()> {
    if flags % 2 != 0 then Err(MalformedPacket)
    else if flags / 4 % 2 == 0 && (flags / 8 % 4 != 0 || flags / 32 % 2 != 0) then Err(MalformedPacket)
    else if flags / 4 % 2 != 0 && flags / 8 % 4 > 2 then Err(InvalidQos(flags / 8 % 4))
    else if flags / 64 % 2 != 0 && flags / 128 % 2 == 0 then Err(MalformedPacket)
    else Ok(())
  }

  function ConnectFrom(body: seq<byte>): Checked<Connect> {
    var (protocol, rest) :- TakeText(body);
    if protocol != PROTOCOL then Err(InvalidProtocol) else ConnectLevel(rest)
  }

  function ConnectLevel(input: seq<byte>): Checked<Connect> {
    var (level, rest) :- TakeU8(input);
    if level != 4 then Err(InvalidProtocolLevel(level))
    else
      var (flags, rest) :- TakeU8(rest);
      var _ :- CheckConnectFlags(flags);
      ConnectPayload(flags, rest)
  }

  function ConnectPayload(flags: byte, input: seq<byte>): Checked<Connect> {
    var (keepAlive, rest) :- TakeU16(input);
    var (clientId, rest) :- TakeText(rest);
    ConnectOptions(flags, keepAlive, clientId, rest)
  }

  function ConnectOptions(flags: byte, keepAlive: uint16, clientId: Text, input: seq<byte>): Checked<Connect> {
    var (will, rest) :- TakeWill(flags / 4 % 2 != 0, flags / 8 % 4, flags / 32 % 2 != 0, input);
    var (username, rest) :- TakeUsername(flags / 128 % 2 != 0, rest);
    var (password, rest) :- TakePassword(flags / 64 % 2 != 0, rest);
    if rest != [] then Err(MalformedPacket)
    else Ok(Connect.Connect(flags / 2 % 2 != 0, keepAlive, clientId, will, username, password))
  }

  function ConnAckFrom(body: seq<byte>): Checked<ConnAck> {
    if |body| != 2 || body[0] > 1 || body[1] > 5 || (body[1] != 0 && body[0] != 0) then Err(MalformedPacket)
    else Ok(ConnAck.ConnAck(body[0] != 0, body[1]))
  }

  // A nonzero packet id.
  function TakePkid(input: seq<byte>): (r: Taken<uint16>)
    ensures r.Ok? ==> |r.value.1| < |input| && r.value.0 != 0
  {
    var (pkid, rest) :- TakeU16(input);
    if pkid == 0 then Err(PacketIdZero) else Ok((pkid, rest))
  }

  function PublishFrom(flags: nat, body: seq<byte>): Checked<Packet> {
    var qos :- QosFrom(flags / 2 % 4);
    var (topic, rest) :- TakeText(body);
    var (pkid, rest) :- if flags / 2 % 4 > 0 then TakePkid(rest) else Ok((0, rest));
    Ok(Packet.Publish(Publish.Publish(flags / 8 % 2 != 0, qos, flags % 2 != 0, topic, pkid, rest)))
  }

  function RequireFlags(packetType: nat, flags: nat, required: nat): Checked<()> {
    if flags != required then Err(InvalidFixedHeaderFlags(packetType, flags)) else Ok(())
  }

  // PUBACK, PUBREC, PUBREL, PUBCOMP and UNSUBACK: an id and nothing else.
  function PkidFrom(packetType: nat, flags: nat, body: seq<byte>): Checked<uint16> {
    var _ :- RequireFlags(packetType, flags, if packetType == 6 then 2 else 0);
    if |body| != 2 then Err(MalformedPacket)
    else
      var (pkid, _) :- TakePkid(body);
      Ok(pkid)
  }

  function TakeFilters(input: seq<byte>): Checked<seq<Filter>>
    decreases |input|
  {
    if input == [] then Ok([])
    else
      var (path, rest) :- TakeText(input);
      var (bits, rest) :- TakeU8(rest);
      var qos :- QosFrom(bits);
      var filters :- TakeFilters(rest);
      Ok([Filter(path, qos)] + filters)
  }

  function TakeTopics(input: seq<byte>): Checked<seq<Text>>
    decreases |input|
  {
    if input == [] then Ok([])
    else
      var (topic, rest) :- TakeText(input);
      var topics :- TakeTopics(rest);
      Ok([topic] + topics)
  }

  function SubscribeFrom(flags: nat, body: seq<byte>): Checked<Packet> {
    var _ :- RequireFlags(8, flags, 2);
    var (pkid, rest) :- TakePkid(body);
    var filters :- TakeFilters(rest);
    if filters == [] then Err(MalformedPacket) else Ok(Packet.Subscribe(Subscribe.Subscribe(pkid, filters)))
  }

  function UnsubscribeFrom(flags: nat, body: seq<byte>): Checked<Packet> {
    var _ :- RequireFlags(10, flags, 2);
    var (pkid, rest) :- TakePkid(body);
    var topics :- TakeTopics(rest);
    if topics == [] then Err(MalformedPacket) else Ok(Packet.Unsubscribe(Unsubscribe.Unsubscribe(pkid, topics)))
  }

  function SubAckFrom(flags: nat, body: seq<byte>): Checked<Packet> {
    var _ :- RequireFlags(9, flags, 0);
    var (pkid, codes) :- TakePkid(body);
    if codes == [] || !AllSubAckCodes(codes) then Err(MalformedPacket)
    else Ok(Packet.SubAck(SubAck.SubAck(pkid, codes)))
  }

  function EmptyFrom(packetType: nat, flags: nat, body: seq<byte>, packet: Packet): Checked<Packet> {
    var _ :- RequireFlags(packetType, flags, 0);
    if body != [] then Err(MalformedPacket) else Ok(packet)
  }

  function PacketFrom(packetType: nat, flags: nat, body: seq<byte>): Checked<Packet> {
    match packetType
    case 1 =>
      var _ :- RequireFlags(1, flags, 0);
      var connect :- ConnectFrom(body);
      Ok(Packet.Connect(connect))
    case 2 =>
      var _ :- RequireFlags(2, flags, 0);
      var connack :- ConnAckFrom(body);
      Ok(Packet.ConnAck(connack))
    case 3 => PublishFrom(flags, body)
    case 4 =>
      var pkid :- PkidFrom(4, flags, body);
      Ok(PubAck(pkid))
    case 5 =>
      var pkid :- PkidFrom(5, flags, body);
      Ok(PubRec(pkid))
    case 6 =>
      var pkid :- PkidFrom(6, flags, body);
      Ok(PubRel(pkid))
    case 7 =>
      var pkid :- PkidFrom(7, flags, body);
      Ok(PubComp(pkid))
    case 8 => SubscribeFrom(flags, body)
    case 9 => SubAckFrom(flags, body)
    case 10 => UnsubscribeFrom(flags, body)
    case 11 =>
      var pkid :- PkidFrom(11, flags, body);
      Ok(UnsubAck(pkid))
    case 12 => EmptyFrom(12, flags, body, PingReq)
    case 13 => EmptyFrom(13, flags, body, PingResp)
    case 14 => EmptyFrom(14, flags, body, Packet.Disconnect)
    case _ => Err(InvalidPacketType(packetType))
  }

  function Decoded(input: seq<byte>): Checked<Packet> {
    var header :- ParseFixedHeader(input);
    if |input| < header.FrameLen() then Err(InsufficientBytes(header.FrameLen() - |input|))
    else PacketFrom(header.PacketType(), header.Flags(), input[header.headerLen..header.FrameLen()])
  }
}
