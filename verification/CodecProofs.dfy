// Decoding undoes encoding, and encoding undoes decoding.
module CodecProofs {
  import opened Bytes
  import opened Types
  import opened Wrappers
  import opened Primitives
  import opened FixedHeaders
  import opened PacketCodec

  // ---------- which packets the wire format can carry ----------

  predicate Short(bytes: seq<byte>) {
    |bytes| <= 0xFFFF
  }

  predicate ConnectFits(c: Connect) {
    && Short(c.clientId)
    && (c.will.Some? ==> Short(c.will.value.topic) && Short(c.will.value.message))
    && (c.username.Some? ==> Short(c.username.value))
    && (c.password.Some? ==> Short(c.password.value))
  }

  predicate FiltersFit(filters: seq<Filter>) {
    forall i :: 0 <= i < |filters| ==> Short(filters[i].path)
  }

  predicate TopicsFit(topics: seq<Text>) {
    forall i :: 0 <= i < |topics| ==> Short(topics[i])
  }

  // Every length-prefixed field is at most 65535 bytes long.
  predicate FieldsFit(packet: Packet) {
    match packet
    case Connect(c) => ConnectFits(c)
    case Publish(p) => Short(p.topic)
    case Subscribe(s) => FiltersFit(s.filters)
    case Unsubscribe(u) => TopicsFit(u.filters)
    case _ => true
  }

  // ---------- bodies round trip ----------

  lemma {:induction false} ProtocolIsText()
    ensures ValidUtf8(PROTOCOL)
  {
    assert PROTOCOL[1..][1..][1..] == [0x54] && PROTOCOL[1..][1..][1..][1..] == [];
    assert ValidUtf8(PROTOCOL[1..][1..][1..][1..]);
    assert ValidUtf8(PROTOCOL[1..][1..][1..]);
    assert ValidUtf8(PROTOCOL[1..][1..]);
    assert ValidUtf8(PROTOCOL[1..]);
  }

  // Packing bits into a byte and taking them out again.
  lemma {:induction false} PackBits(a: nat, w: nat, q: nat, r: nat, p: nat, u: nat)
    requires a < 2 && w < 2 && q < 4 && r < 2 && p < 2 && u < 2
    ensures var f := 2 * a + 4 * w + 8 * q + 32 * r + 64 * p + 128 * u;
            && f < 256 && f % 2 == 0 && f / 2 % 2 == a && f / 4 % 2 == w && f / 8 % 4 == q
            && f / 32 % 2 == r && f / 64 % 2 == p && f / 128 % 2 == u
  {
    var f := 2 * a + 4 * w + 8 * q + 32 * r + 64 * p + 128 * u;
    assert f / 2 == a + 2 * w + 4 * q + 16 * r + 32 * p + 64 * u;
    assert f / 4 == w + 2 * q + 8 * r + 16 * p + 32 * u;
    assert f / 8 == q + 4 * r + 8 * p + 16 * u;
    assert f / 32 == r + 2 * p + 4 * u;
    assert f / 64 == p + 2 * u;
    assert f / 128 == u;
  }

  lemma {:induction false} SplitBit(f: nat, half: nat)
    requires half == f / 2
    ensures f == f % 2 + 2 * half
  {
  }

  lemma {:induction false} ShiftedBits(f: byte)
    ensures f / 4 == f / 2 / 2 && f / 8 == f / 4 / 2 && f / 32 == f / 8 / 4
    ensures f / 64 == f / 32 / 2 && f / 128 == f / 64 / 2 && f / 128 < 2
  {
  }

  lemma {:induction false} UnpackBits(f: byte)
    ensures f == f % 2 + 2 * (f / 2 % 2) + 4 * (f / 4 % 2) + 8 * (f / 8 % 4)
                 + 32 * (f / 32 % 2) + 64 * (f / 64 % 2) + 128 * (f / 128 % 2)
  {
    ShiftedBits(f);
    LowBits(f);
    HighBits(f / 8);
  }

  lemma {:induction false} LowBits(f: nat)
    ensures f == f % 2 + 2 * (f / 2 % 2) + 4 * (f / 4 % 2) + 8 * (f / 8)
  {
    SplitBit(f, f / 2);
    SplitBit(f / 2, f / 4);
    SplitBit(f / 4, f / 8);
  }

  lemma {:induction false} HighBits(g: nat)
    requires g < 32
    ensures g == g % 4 + 4 * (g / 4 % 2) + 8 * (g / 4 / 2 % 2) + 16 * (g / 4 / 2 / 2)
    ensures g / 4 / 2 / 2 == g / 4 / 2 / 2 % 2
  {
    SplitBit(g / 4, g / 4 / 2);
    SplitBit(g / 4 / 2, g / 4 / 2 / 2);
  }

  lemma {:induction false} QosRoundTrip(q: Qos)
    ensures QosBits(q) <= 2 && QosFrom(QosBits(q)) == Ok(q)
  {
  }

  lemma {:induction false} FlagBits(c: Connect)
    requires c.password.Some? ==> c.username.Some?
    ensures var f := ConnectFlags(c);
            && CheckConnectFlags(f) == Ok(())
            && (f / 2 % 2 != 0) == c.cleanSession
            && (f / 4 % 2 != 0) == c.will.Some?
            && f / 8 % 4 == WillQos(c) && (f / 32 % 2 != 0) == WillRetain(c)
            && (f / 64 % 2 != 0) == c.password.Some?
            && (f / 128 % 2 != 0) == c.username.Some?
  {
    FlagSum(c);
    PackBits(Bit(c.cleanSession, 1), Bit(c.will.Some?, 1), WillQos(c), Bit(WillRetain(c), 1),
             Bit(c.password.Some?, 1), Bit(c.username.Some?, 1));
  }

  lemma {:induction false} FlagSum(c: Connect)
    ensures ConnectFlags(c)
         == 2 * Bit(c.cleanSession, 1) + 4 * Bit(c.will.Some?, 1) + 8 * WillQos(c) + 32 * Bit(WillRetain(c), 1)
            + 64 * Bit(c.password.Some?, 1) + 128 * Bit(c.username.Some?, 1)
  {
  }

  function WillQos(c: Connect): nat {
    match c.will
    case None => 0
    case Some(w) => QosBits(w.qos)
  }

  predicate WillRetain(c: Connect) {
    c.will.Some? && c.will.value.retain
  }

  lemma {:induction false} WillRoundTrip(c: Connect, rest: seq<byte>)
    requires ConnectFits(c)
    ensures TakeWill(c.will.Some?, WillQos(c), WillRetain(c), WillFields(c) + rest) == Ok((c.will, rest))
  {
    match c.will {
      case None => assert WillFields(c) + rest == rest;
      case Some(w) =>
        var input := WillFields(c) + rest;
        assert input == Field(w.topic) + (Field(w.message) + rest);
        TextRoundTrip(w.topic, Field(w.message) + rest);
        FieldRoundTrip(w.message, rest);
        QosRoundTrip(w.qos);
    }
  }

  lemma {:induction false} LoginRoundTrip(c: Connect)
    requires ConnectFits(c) && (c.password.Some? ==> c.username.Some?)
    ensures var name := TakeUsername(c.username.Some?, LoginFields(c));
            name.Ok? && name.value.0 == c.username
            && TakePassword(c.password.Some?, name.value.1) == Ok((c.password, []))
  {
    if c.username.Some? {
      var word := if c.password.Some? then Field(c.password.value) else [];
      assert LoginFields(c) == Field(c.username.value) + word;
      TextRoundTrip(c.username.value, word);
      if c.password.Some? {
        FieldRoundTrip(c.password.value, []);
        assert word + [] == word;
      }
    }
  }

  lemma {:induction false} PayloadRoundTrip(c: Connect)
    requires ConnectFits(c) && (c.password.Some? ==> c.username.Some?)
    ensures ConnectPayload(ConnectFlags(c),
                           U16Bytes(c.keepAlive) + (Field(c.clientId) + (WillFields(c) + LoginFields(c))))
         == Ok(c)
  {
    var login := LoginFields(c);
    var will := WillFields(c) + login;
    FlagBits(c);
    U16RoundTrip(c.keepAlive, Field(c.clientId) + will);
    TextRoundTrip(c.clientId, will);
    WillRoundTrip(c, login);
    LoginRoundTrip(c);
  }

  lemma {:induction false} ConnectRoundTrip(c: Connect)
    requires ConnectFits(c) && (c.password.Some? ==> c.username.Some?)
    ensures ConnectFrom(ConnectBody(c)) == Ok(c)
  {
    var payload := U16Bytes(c.keepAlive) + (Field(c.clientId) + (WillFields(c) + LoginFields(c)));
    FlagBits(c);
    ConnectHead(ConnectFlags(c), payload);
    PayloadRoundTrip(c);
  }

  lemma {:induction false} ConnectHead(flags: byte, payload: seq<byte>)
    requires CheckConnectFlags(flags).Ok?
    ensures ConnectFrom(Field(PROTOCOL) + ([4, flags] + payload)) == ConnectPayload(flags, payload)
  {
    ProtocolIsText();
    TextRoundTrip(PROTOCOL, [4, flags] + payload);
    LevelRoundTrip(flags, payload);
  }

  lemma {:induction false} LevelRoundTrip(flags: byte, payload: seq<byte>)
    requires CheckConnectFlags(flags).Ok?
    ensures ConnectLevel([4, flags] + payload) == ConnectPayload(flags, payload)
  {
    var level := [4, flags] + payload;
    assert level[1..] == [flags] + payload;
    assert level[1..][1..] == payload;
  }

  lemma {:induction false} PublishBits(p: Publish)
    ensures var f := PublishFlags(p);
            f < 16 && (f / 8 % 2 != 0) == p.dup && f / 2 % 4 == QosBits(p.qos) && (f % 2 != 0) == p.retain
  {
    var d, q, r := Bit(p.dup, 1), QosBits(p.qos), Bit(p.retain, 1);
    assert PublishFlags(p) == 8 * d + 2 * q + r;
    assert (8 * d + 2 * q + r) / 2 == 4 * d + q;
    assert (8 * d + 2 * q + r) / 8 == d;
  }

  lemma {:induction false} PublishRoundTrip(p: Publish)
    requires Short(p.topic) && (p.qos == AtMostOnce <==> p.pkid == 0)
    ensures PublishFrom(PublishFlags(p), PublishBody(p)) == Ok(Packet.Publish(p))
  {
    var rest := (if p.qos == AtMostOnce then [] else U16Bytes(p.pkid)) + p.payload;
    TextRoundTrip(p.topic, rest);
    PublishBits(p);
    QosRoundTrip(p.qos);
    if p.qos == AtMostOnce {
      assert rest == p.payload;
    } else {
      U16RoundTrip(p.pkid, p.payload);
    }
  }

  lemma {:induction false} FiltersRoundTrip(filters: seq<Filter>)
    requires FiltersFit(filters)
    ensures TakeFilters(FilterFields(filters)) == Ok(filters)
    decreases filters
  {
    if filters != [] {
      var f, more := filters[0], FilterFields(filters[1..]);
      TextRoundTrip(f.path, [QosBits(f.qos)] + more);
      assert ([QosBits(f.qos)] + more)[1..] == more;
      QosRoundTrip(f.qos);
      FiltersRoundTrip(filters[1..]);
      assert [f] + filters[1..] == filters;
    }
  }

  lemma {:induction false} TopicStep(topic: Text, more: seq<byte>, topics: seq<Text>)
    requires Short(topic) && TakeTopics(more) == Ok(topics)
    ensures TakeTopics(Field(topic) + more) == Ok([topic] + topics)
  {
    TextRoundTrip(topic, more);
  }

  lemma {:induction false} TopicsRoundTrip(topics: seq<Text>)
    requires TopicsFit(topics)
    ensures TakeTopics(TopicFields(topics)) == Ok(topics)
    decreases topics
  {
    if topics != [] {
      TopicsRoundTrip(topics[1..]);
      TopicStep(topics[0], TopicFields(topics[1..]), topics[1..]);
      assert [topics[0]] + topics[1..] == topics;
    }
  }

  lemma {:induction false} PkidRoundTrip(packetType: nat, pkid: uint16)
    requires pkid != 0
    ensures PkidFrom(packetType, if packetType == 6 then 2 else 0, U16Bytes(pkid)) == Ok(pkid)
  {
    U16RoundTrip(pkid, []);
    assert U16Bytes(pkid) + [] == U16Bytes(pkid);
  }

  // The packet's body, under the flags of its first byte, reads as the packet.
  ghost predicate ReadsBack(packet: Packet) {
    PartsOf(packet).Ok? ==>
      var Parts(byte1, body) := PartsOf(packet).value;
      PacketFrom(byte1 / 16, byte1 % 16, body) == Ok(packet)
  }

  lemma {:induction false} ConnectReadsBack(c: Connect)
    requires ConnectFits(c)
    ensures ReadsBack(Packet.Connect(c))
  {
    if PartsOf(Packet.Connect(c)).Ok? {
      ConnectRoundTrip(c);
    }
  }

  lemma {:induction false} PublishReadsBack(p: Publish)
    requires Short(p.topic)
    ensures ReadsBack(Packet.Publish(p))
  {
    if PartsOf(Packet.Publish(p)).Ok? {
      PublishRoundTrip(p);
      PublishBits(p);
      assert (0x30 + PublishFlags(p)) / 16 == 3 && (0x30 + PublishFlags(p)) % 16 == PublishFlags(p);
    }
  }

  lemma {:induction false} AcksReadBack(packet: Packet)
    requires packet.PubAck? || packet.PubRec? || packet.PubRel? || packet.PubComp? || packet.UnsubAck?
    ensures ReadsBack(packet)
  {
    if packet.pkid != 0 {
      PkidRoundTrip(PartsOf(packet).value.byte1 / 16, packet.pkid);
    }
  }

  lemma {:induction false} PkidTaken(pkid: uint16, rest: seq<byte>)
    requires pkid != 0
    ensures TakePkid(U16Bytes(pkid) + rest) == Ok((pkid, rest))
  {
    U16RoundTrip(pkid, rest);
  }

  lemma {:induction false} SubscribeRoundTrip(s: Subscribe)
    requires s.pkid != 0 && s.filters != [] && FiltersFit(s.filters)
    ensures SubscribeFrom(2, U16Bytes(s.pkid) + FilterFields(s.filters)) == Ok(Packet.Subscribe(s))
  {
    PkidTaken(s.pkid, FilterFields(s.filters));
    FiltersRoundTrip(s.filters);
  }

  lemma {:induction false} UnsubscribeRoundTrip(u: Unsubscribe)
    requires u.pkid != 0 && u.filters != [] && TopicsFit(u.filters)
    ensures UnsubscribeFrom(2, U16Bytes(u.pkid) + TopicFields(u.filters)) == Ok(Packet.Unsubscribe(u))
  {
    PkidTaken(u.pkid, TopicFields(u.filters));
    TopicsRoundTrip(u.filters);
  }

  lemma {:induction false} SubscribeReadsBack(s: Subscribe)
    requires FiltersFit(s.filters)
    ensures ReadsBack(Packet.Subscribe(s))
  {
    if PartsOf(Packet.Subscribe(s)).Ok? {
      SubscribeRoundTrip(s);
    }
  }

  lemma {:induction false} UnsubscribeReadsBack(u: Unsubscribe)
    requires TopicsFit(u.filters)
    ensures ReadsBack(Packet.Unsubscribe(u))
  {
    if PartsOf(Packet.Unsubscribe(u)).Ok? {
      UnsubscribeRoundTrip(u);
    }
  }

  lemma {:induction false} SubAckRoundTrip(a: SubAck)
    requires a.pkid != 0 && a.returnCodes != [] && AllSubAckCodes(a.returnCodes)
    ensures SubAckFrom(0, U16Bytes(a.pkid) + a.returnCodes) == Ok(Packet.SubAck(a))
  {
    PkidTaken(a.pkid, a.returnCodes);
  }

  lemma {:induction false} SubAckReadsBack(a: SubAck)
    ensures ReadsBack(Packet.SubAck(a))
  {
    if PartsOf(Packet.SubAck(a)).Ok? {
      SubAckRoundTrip(a);
    }
  }

  // For each of the 14 packet types: reading the body under the flags of the first byte
  // gives the packet back.
  lemma {:induction false} PartsRoundTrip(packet: Packet)
    requires PartsOf(packet).Ok? && FieldsFit(packet)
    ensures var parts := PartsOf(packet).value;
            PacketFrom(parts.byte1 / 16, parts.byte1 % 16, parts.body) == Ok(packet)
  {
    assert ReadsBack(packet) by {
      match packet {
        case Connect(c) => ConnectReadsBack(c);
        case Publish(p) => PublishReadsBack(p);
        case Subscribe(s) => SubscribeReadsBack(s);
        case Unsubscribe(u) => UnsubscribeReadsBack(u);
        case SubAck(a) => SubAckReadsBack(a);
        case PubAck(_) => AcksReadBack(packet);
        case PubRec(_) => AcksReadBack(packet);
        case PubRel(_) => AcksReadBack(packet);
        case PubComp(_) => AcksReadBack(packet);
        case UnsubAck(_) => AcksReadBack(packet);
        case _ =>
      }
    }
  }

  // ---------- bodies read canonically ----------

  lemma {:induction false} TextCanonical(input: seq<byte>)
    requires TakeText(input).Ok?
    ensures Short(TakeText(input).value.0)
    ensures input == Field(TakeText(input).value.0) + TakeText(input).value.1
  {
    TakeBytesCanonical(input);
  }

  lemma {:induction false} FlagsCanonical(flags: byte, c: Connect)
    requires CheckConnectFlags(flags).Ok?
    requires c.cleanSession == (flags / 2 % 2 != 0) && c.will.Some? == (flags / 4 % 2 != 0)
    requires c.will.Some? ==> QosFrom(flags / 8 % 4) == Ok(c.will.value.qos)
    requires c.will.Some? ==> c.will.value.retain == (flags / 32 % 2 != 0)
    requires c.password.Some? == (flags / 64 % 2 != 0) && c.username.Some? == (flags / 128 % 2 != 0)
    ensures ConnectFlags(c) == flags && (c.password.Some? ==> c.username.Some?)
  {
    UnpackBits(flags);
    FlagSum(c);
    assert WillQos(c) == flags / 8 % 4;
    assert Bit(WillRetain(c), 1) == flags / 32 % 2;
  }

  lemma {:induction false} WillCanonical(flag: bool, qos: nat, retain: bool, input: seq<byte>, c: Connect)
    requires TakeWill(flag, qos, retain, input).Ok? && TakeWill(flag, qos, retain, input).value.0 == c.will
    ensures c.will.Some? == flag
    ensures flag ==> QosFrom(qos) == Ok(c.will.value.qos) && c.will.value.retain == retain
                     && Short(c.will.value.topic) && Short(c.will.value.message)
    ensures input == WillFields(c) + TakeWill(flag, qos, retain, input).value.1
  {
    if flag {
      TextCanonical(input);
      var (topic, rest) := TakeText(input).value;
      TakeBytesCanonical(rest);
      var (message, left) := TakeBytes(rest).value;
      assert input == Field(topic) + (Field(message) + left) == (Field(topic) + Field(message)) + left;
    }
  }

  lemma {:induction false} LoginCanonical(nameFlag: bool, wordFlag: bool, input: seq<byte>, c: Connect)
    requires wordFlag ==> nameFlag
    requires TakeUsername(nameFlag, input).Ok? && TakeUsername(nameFlag, input).value.0 == c.username
    requires TakePassword(wordFlag, TakeUsername(nameFlag, input).value.1) == Ok((c.password, []))
    ensures c.username.Some? == nameFlag && c.password.Some? == wordFlag
    ensures (nameFlag ==> Short(c.username.value)) && (wordFlag ==> Short(c.password.value))
    ensures input == LoginFields(c)
  {
    if nameFlag {
      TextCanonical(input);
      var rest := TakeUsername(nameFlag, input).value.1;
      if wordFlag {
        TakeBytesCanonical(rest);
      }
    }
  }

  lemma {:induction false} OptionsCanonical(flags: byte, keepAlive: uint16, clientId: Text, input: seq<byte>)
    requires ConnectOptions(flags, keepAlive, clientId, input).Ok? && CheckConnectFlags(flags).Ok? && Short(clientId)
    ensures var c := ConnectOptions(flags, keepAlive, clientId, input).value;
            && ConnectFits(c) && ConnectFlags(c) == flags && (c.password.Some? ==> c.username.Some?)
            && c.keepAlive == keepAlive && c.clientId == clientId
            && input == WillFields(c) + LoginFields(c)
  {
    var c := ConnectOptions(flags, keepAlive, clientId, input).value;
    WillCanonical(flags / 4 % 2 != 0, flags / 8 % 4, flags / 32 % 2 != 0, input, c);
    var rest := TakeWill(flags / 4 % 2 != 0, flags / 8 % 4, flags / 32 % 2 != 0, input).value.1;
    LoginCanonical(flags / 128 % 2 != 0, flags / 64 % 2 != 0, rest, c);
    FlagsCanonical(flags, c);
  }

  lemma {:induction false} PayloadCanonical(flags: byte, input: seq<byte>)
    requires ConnectPayload(flags, input).Ok? && CheckConnectFlags(flags).Ok?
    ensures var c := ConnectPayload(flags, input).value;
            && ConnectFits(c) && ConnectFlags(c) == flags && (c.password.Some? ==> c.username.Some?)
            && input == U16Bytes(c.keepAlive) + (Field(c.clientId) + (WillFields(c) + LoginFields(c)))
  {
    TakeU16Canonical(input);
    var (keepAlive, rest) := TakeU16(input).value;
    TextCanonical(rest);
    var (clientId, options) := TakeText(rest).value;
    OptionsCanonical(flags, keepAlive, clientId, options);
  }

  lemma {:induction false} ConnectHeadCanonical(body: seq<byte>) returns (flags: byte, payload: seq<byte>)
    requires ConnectFrom(body).Ok?
    ensures body == Field(PROTOCOL) + ([4, flags] + payload)
    ensures CheckConnectFlags(flags).Ok? && ConnectFrom(body) == ConnectPayload(flags, payload)
  {
    TextCanonical(body);
    flags, payload := LevelCanonical(TakeText(body).value.1);
  }

  lemma {:induction false} LevelCanonical(input: seq<byte>) returns (flags: byte, payload: seq<byte>)
    requires ConnectLevel(input).Ok?
    ensures input == [4, flags] + payload
    ensures CheckConnectFlags(flags).Ok? && ConnectLevel(input) == ConnectPayload(flags, payload)
  {
    flags, payload := input[1], input[1..][1..];
  }

  lemma {:induction false} ConnectCanonical(body: seq<byte>)
    requires ConnectFrom(body).Ok?
    ensures var c := ConnectFrom(body).value;
            ConnectFits(c) && (c.password.Some? ==> c.username.Some?) && body == ConnectBody(c)
  {
    var flags, payload := ConnectHeadCanonical(body);
    PayloadCanonical(flags, payload);
  }

  lemma {:induction false} PkidCanonical(input: seq<byte>)
    requires TakePkid(input).Ok?
    ensures input == U16Bytes(TakePkid(input).value.0) + TakePkid(input).value.1
  {
    TakeU16Canonical(input);
  }

  // Two bytes of id, except under QoS 0.
  lemma {:induction false} PublishRestCanonical(qos: Qos, rest: seq<byte>, pkid: uint16, payload: seq<byte>)
    requires (if QosBits(qos) > 0 then TakePkid(rest) else Ok((0, rest))) == Ok((pkid, payload))
    ensures qos == AtMostOnce <==> pkid == 0
    ensures rest == (if qos == AtMostOnce then [] else U16Bytes(pkid)) + payload
  {
    if qos != AtMostOnce {
      PkidCanonical(rest);
    }
  }

  lemma {:induction false} PublishFlagsCanonical(flags: nat, p: Publish)
    requires flags < 16 && QosFrom(flags / 2 % 4) == Ok(p.qos)
    requires p.dup == (flags / 8 % 2 != 0) && p.retain == (flags % 2 != 0)
    ensures PublishFlags(p) == flags && QosBits(p.qos) == flags / 2 % 4
  {
    assert flags == 8 * (flags / 8 % 2) + 2 * (flags / 2 % 4) + flags % 2;
  }

  lemma {:induction false} PublishCanonical(flags: nat, body: seq<byte>)
    requires flags < 16 && PublishFrom(flags, body).Ok?
    ensures PublishFrom(flags, body).value.Publish?
    ensures var p := PublishFrom(flags, body).value.publish;
            && Short(p.topic) && (p.qos == AtMostOnce <==> p.pkid == 0)
            && PublishFlags(p) == flags && PublishBody(p) == body
  {
    var p := PublishFrom(flags, body).value.publish;
    TextCanonical(body);
    PublishFlagsCanonical(flags, p);
    PublishRestCanonical(p.qos, TakeText(body).value.1, p.pkid, p.payload);
  }

  lemma {:induction false} FilterTaken(input: seq<byte>) returns (f: Filter, rest: seq<byte>)
    requires input != [] && TakeFilters(input).Ok?
    ensures Short(f.path) && input == Field(f.path) + ([QosBits(f.qos)] + rest)
    ensures TakeFilters(rest).Ok? && TakeFilters(input).value == [f] + TakeFilters(rest).value
  {
    TextCanonical(input);
    var (path, bytes) := TakeText(input).value;
    f, rest := Filter(path, QosFrom(bytes[0]).value), bytes[1..];
    assert bytes == [bytes[0]] + rest;
  }

  lemma {:induction false} FiltersCanonical(input: seq<byte>)
    requires TakeFilters(input).Ok?
    ensures FiltersFit(TakeFilters(input).value) && FilterFields(TakeFilters(input).value) == input
    decreases |input|
  {
    if input != [] {
      var f, rest := FilterTaken(input);
      FiltersCanonical(rest);
      FilterCons(f, TakeFilters(rest).value);
    }
  }

  lemma {:induction false} FilterCons(f: Filter, filters: seq<Filter>)
    requires Short(f.path) && FiltersFit(filters)
    ensures FiltersFit([f] + filters)
    ensures FilterFields([f] + filters) == Field(f.path) + ([QosBits(f.qos)] + FilterFields(filters))
  {
    assert ([f] + filters)[1..] == filters;
  }

  lemma {:induction false} TopicsCanonical(input: seq<byte>)
    requires TakeTopics(input).Ok?
    ensures TopicsFit(TakeTopics(input).value) && TopicFields(TakeTopics(input).value) == input
    decreases |input|
  {
    if input != [] {
      TextCanonical(input);
      var rest := TakeText(input).value.1;
      TopicsCanonical(rest);
      var topics := TakeTopics(input).value;
      assert topics[1..] == TakeTopics(rest).value;
      assert forall i :: 1 <= i < |topics| ==> topics[i] == topics[1..][i - 1];
    }
  }

  lemma {:induction false} PkidOnlyCanonical(packetType: nat, flags: nat, body: seq<byte>)
    requires PkidFrom(packetType, flags, body).Ok?
    ensures flags == (if packetType == 6 then 2 else 0)
    ensures PkidFrom(packetType, flags, body).value != 0 && body == U16Bytes(PkidFrom(packetType, flags, body).value)
  {
    PkidCanonical(body);
  }

  // The packet encodes to this body, under a first byte of this type and these flags.
  ghost predicate Reencodes(packet: Packet, packetType: nat, flags: nat, body: seq<byte>)
    requires packetType < 16 && flags < 16
  {
    PartsOf(packet) == Ok(Parts(packetType * 16 + flags, body)) && FieldsFit(packet)
  }

  lemma {:induction false} PkidPacketCanonical(packetType: nat, flags: nat, body: seq<byte>)
    requires packetType in {4, 5, 6, 7, 11} && flags < 16 && PacketFrom(packetType, flags, body).Ok?
    ensures Reencodes(PacketFrom(packetType, flags, body).value, packetType, flags, body)
  {
    PkidOnlyCanonical(packetType, flags, body);
  }

  lemma {:induction false} SubscribeCanonical(flags: nat, body: seq<byte>)
    requires flags < 16 && SubscribeFrom(flags, body).Ok?
    ensures Reencodes(SubscribeFrom(flags, body).value, 8, flags, body)
  {
    PkidCanonical(body);
    FiltersCanonical(TakePkid(body).value.1);
  }

  lemma {:induction false} UnsubscribeCanonical(flags: nat, body: seq<byte>)
    requires flags < 16 && UnsubscribeFrom(flags, body).Ok?
    ensures Reencodes(UnsubscribeFrom(flags, body).value, 10, flags, body)
  {
    PkidCanonical(body);
    TopicsCanonical(TakePkid(body).value.1);
  }

  lemma {:induction false} ConnAckCanonical(body: seq<byte>)
    requires ConnAckFrom(body).Ok?
    ensures Reencodes(Packet.ConnAck(ConnAckFrom(body).value), 2, 0, body)
  {
    assert body == [body[0], body[1]];
  }

  // Whatever body is accepted is the one the packet read from it encodes to, under the
  // same first byte; and its fields fit.
  lemma {:induction false} PartsCanonical(packetType: nat, flags: nat, body: seq<byte>)
    requires packetType < 16 && flags < 16 && PacketFrom(packetType, flags, body).Ok?
    ensures Reencodes(PacketFrom(packetType, flags, body).value, packetType, flags, body)
  {
    match packetType {
      case 1 => ConnectCanonical(body);
      case 2 => ConnAckCanonical(body);
      case 3 => PublishCanonical(flags, body);
      case 8 => SubscribeCanonical(flags, body);
      case 9 => PkidCanonical(body);
      case 10 => UnsubscribeCanonical(flags, body);
      case _ =>
        if packetType in {4, 5, 6, 7, 11} {
          PkidPacketCanonical(packetType, flags, body);
        }
    }
  }

  // ---------- frames ----------

  // The header of a frame, whatever follows the frame.
  lemma {:induction false} FrameHeader(parts: Parts, tail: seq<byte>)
    requires Frame(parts).Ok?
    ensures var frame := Frame(parts).value;
            var len := |RemainingLength(|parts.body|)|;
            && ParseFixedHeader(frame + tail) == Ok(FixedHeader(parts.byte1, |parts.body|, 1 + len))
            && |frame| == 1 + len + |parts.body|
            && (frame + tail)[1 + len..|frame|] == parts.body
  {
    var len := RemainingLength(|parts.body|);
    LengthRoundTrip(|parts.body|, parts.body + tail);
    assert (Frame(parts).value + tail)[1..] == len + (parts.body + tail);
  }

  // Decoding an encoded packet gives the packet back, whatever bytes follow it, if and
  // only if its length-prefixed fields are at most 65535 bytes long.
  lemma {:induction false} DecodeEncode(packet: Packet, tail: seq<byte>)
    requires Encoded(packet).Ok?
    ensures Decoded(Encoded(packet).value + tail) == Ok(packet) <==> FieldsFit(packet)
  {
    var parts := PartsOf(packet).value;
    FrameHeader(parts, tail);
    if FieldsFit(packet) {
      PartsRoundTrip(packet);
    }
    if Decoded(Encoded(packet).value + tail) == Ok(packet) {
      PartsCanonical(parts.byte1 / 16, parts.byte1 % 16, parts.body);
    }
  }

  // Any accepted frame re-encodes: same first byte, same body, the shortest remaining
  // length; so byte for byte, exactly when its own remaining length was the shortest.
  lemma {:induction false} EncodeDecode(input: seq<byte>)
    requires Decoded(input).Ok?
    ensures ParseFixedHeader(input).Ok? && ParseFixedHeader(input).value.FrameLen() <= |input|
    ensures var header := ParseFixedHeader(input).value;
            var len := RemainingLength(header.remainingLen);
            && FieldsFit(Decoded(input).value)
            && Encoded(Decoded(input).value)
               == Ok([input[0]] + len + input[header.headerLen..header.FrameLen()])
            && (Encoded(Decoded(input).value) == Ok(input[..header.FrameLen()]) <==> header.headerLen == 1 + |len|)
  {
    var header := ParseFixedHeader(input).value;
    var body := input[header.headerLen..header.FrameLen()];
    PartsCanonical(header.PacketType(), header.Flags(), body);
    DecodedWithinBound(input[1..]);
    MinimalIsCanonical(input[1..], 4);
    var len := RemainingLength(header.remainingLen);
    var digits := input[1..][..header.headerLen - 1];
    assert input[..header.FrameLen()] == [input[0]] + digits + body;
    MiddleDecides(input[0], len, digits, body);
  }

  lemma {:induction false} MiddleDecides(first: byte, a: seq<byte>, b: seq<byte>, last: seq<byte>)
    ensures [first] + a + last == [first] + b + last <==> a == b
  {
    var x, y := [first] + a + last, [first] + b + last;
    if x == y {
      assert |x| == 1 + |a| + |last| && |y| == 1 + |b| + |last|;
      assert a == x[1..1 + |a|] && b == y[1..1 + |b|];
    }
  }

  // Exactly one frame, with the shortest remaining length.
  ghost predicate MinimalFrame(input: seq<byte>) {
    var header := ParseFixedHeader(input);
    header.Ok? && |input| == header.value.FrameLen()
    && header.value.headerLen == 1 + |RemainingLength(header.value.remainingLen)|
  }

  // On such frames decoding is injective.
  lemma {:induction false} DecodeInjective(a: seq<byte>, b: seq<byte>)
    requires MinimalFrame(a) && MinimalFrame(b) && Decoded(a).Ok? && Decoded(a) == Decoded(b)
    ensures a == b
  {
    EncodeDecode(a);
    EncodeDecode(b);
    assert a == a[..|a|] && b == b[..|b|];
  }
}
