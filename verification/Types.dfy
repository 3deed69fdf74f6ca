// Bytes, machine integers and text (src/types.rs and the Rust primitive types it uses).
module Bytes {
  type byte = b: int | 0 <= b < 0x100
  type uint16 = n: int | 0 <= n < 0x1_0000

  predicate IsContinuation(b: byte) {
    0x80 <= b <= 0xBF
  }

  // The number of bytes of the first well-formed UTF-8 sequence of s, 0 if there is none
  // (RFC 3629, section 4: no overlong forms, no surrogates, nothing above U+10FFFF).
  function FirstCharLength(s: seq<byte>): nat
    requires s != []
  {
    if s[0] < 0x80 then 1
    else if |s| >= 2 && 0xC2 <= s[0] <= 0xDF && IsContinuation(s[1]) then 2
    else if |s| >= 3 && 0xE0 <= s[0] <= 0xEF && IsContinuation(s[1]) && IsContinuation(s[2])
            && (s[0] == 0xE0 ==> 0xA0 <= s[1]) && (s[0] == 0xED ==> s[1] <= 0x9F) then 3
    else if |s| >= 4 && 0xF0 <= s[0] <= 0xF4
            && IsContinuation(s[1]) && IsContinuation(s[2]) && IsContinuation(s[3])
            && (s[0] == 0xF0 ==> 0x90 <= s[1]) && (s[0] == 0xF4 ==> s[1] <= 0x8F) then 4
    else 0
  }

  // What `std::str::from_utf8` accepts.
  predicate ValidUtf8(s: seq<byte>) {
    s == [] || (FirstCharLength(s) != 0 && ValidUtf8(s[FirstCharLength(s)..]))
  }

  // A Rust String, as its bytes.
  type Text = s: seq<byte> | ValidUtf8(s) witness []
}

// The packets, commands and their parts (src/types.rs).
module Types {
  import opened Bytes
  import opened Wrappers

  datatype Qos = AtMostOnce | AtLeastOnce | ExactlyOnce

  datatype LastWill = LastWill(topic: Text, message: seq<byte>, qos: Qos, retain: bool)

  datatype Connect = Connect(
    cleanSession: bool,
    keepAlive: uint16,
    clientId: Text,
    will: Option<LastWill>,
    username: Option<Text>,
    password: Option<seq<byte>>)

  datatype ConnAck = ConnAck(sessionPresent: bool, code: byte)

  datatype Publish = Publish(
    dup: bool,
    qos: Qos,
    retain: bool,
    topic: Text,
    pkid: uint16,
    payload: seq<byte>)

  datatype Filter = Filter(path: Text, qos: Qos)

  datatype Subscribe = Subscribe(pkid: uint16, filters: seq<Filter>)

  datatype SubAck = SubAck(pkid: uint16, returnCodes: seq<byte>)

  datatype Unsubscribe = Unsubscribe(pkid: uint16, filters: seq<Text>)

  datatype Packet =
    | Connect(connect: Connect)
    | ConnAck(connack: ConnAck)
    | Publish(publish: Publish)
    | PubAck(pkid: uint16)
    | PubRec(pkid: uint16)
    | PubRel(pkid: uint16)
    | PubComp(pkid: uint16)
    | Subscribe(subscribe: Subscribe)
    | SubAck(suback: SubAck)
    | Unsubscribe(unsubscribe: Unsubscribe)
    | UnsubAck(pkid: uint16)
    | PingReq
    | PingResp
    | Disconnect

  datatype Command =
    | Publish(tokenId: nat, publish: Publish, clientId: nat)
    | Subscribe(tokenId: nat, subscribe: Subscribe, clientId: nat)
    | Unsubscribe(tokenId: nat, unsubscribe: Unsubscribe, clientId: nat)
    | Ping
    | Disconnect
}
