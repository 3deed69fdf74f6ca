// The incremental frame parser (src/codec/stream.rs) and its independence of chunking.
module Stream {
  import opened Bytes
  import opened Types
  import opened Wrappers
  import opened Primitives
  import opened FixedHeaders
  import opened PacketCodec
  import opened CodecProofs
  import PacketIO

  datatype FrameState = Need(bytes: nat) | Ready(frame: seq<byte>)

  // What a parser holding buf answers, and what it holds afterwards.
  function NextFrameOf(buf: seq<byte>): (Checked<FrameState>, seq<byte>) {
    match ParseFixedHeader(buf)
    case Err(InsufficientBytes(n)) => (Ok(Need(n)), buf)
    case Err(e) => (Err(e), buf)
    case Ok(header) =>
      if |buf| < header.FrameLen() then (Ok(Need(header.FrameLen() - |buf|)), buf)
      else (Ok(Ready(buf[..header.FrameLen()])), buf[header.FrameLen()..])
  }

  function NextPacketOf(buf: seq<byte>): (Checked<Option<Packet>>, seq<byte>) {
    match NextFrameOf(buf)
    case (Err(e), rest) => (Err(e), rest)
    case (Ok(Need(_)), rest) => (Ok(None), rest)
    case (Ok(Ready(frame)), rest) =>
      (match Decoded(frame)
       case Ok(packet) => Ok(Some(packet))
       case Err(e) => Err(e),
       rest)
  }

  class FrameParser {
    var buf: seq<byte>

    constructor ()
      ensures buf == []
    {
      buf := [];
    }

    method Push(chunk: seq<byte>)
      modifies this
      ensures buf == old(buf) + chunk
    {
      buf := buf + chunk;
    }

    method NextFrame() returns (r: Checked<FrameState>)
      modifies this
      ensures (r, buf) == NextFrameOf(old(buf))
    {
      match ParseFixedHeader(buf) {
        case Err(InsufficientBytes(n)) => return Ok(Need(n));
        case Err(e) => return Err(e);
        case Ok(header) =>
          if |buf| < header.FrameLen() {
            return Ok(Need(header.FrameLen() - |buf|));
          }
          var frame := buf[..header.FrameLen()];
          buf := buf[header.FrameLen()..];
          return Ok(Ready(frame));
      }
    }

    method NextPacket() returns (r: Checked<Option<Packet>>)
      modifies this
      ensures (r, buf) == NextPacketOf(old(buf))
    {
      var state :- NextFrame();
      match state {
        case Need(_) => return Ok(None);
        case Ready(frame) =>
          var packet :- PacketIO.DecodePacket(frame);
          return Ok(Some(packet));
      }
    }
  }

  // ---------- one answer ----------

  lemma {:induction false} HeaderStable(buf: seq<byte>, more: seq<byte>)
    ensures ParseFixedHeader(buf) != Err(InsufficientBytes(1)) ==> ParseFixedHeader(buf + more) == ParseFixedHeader(buf)
    ensures ParseFixedHeader(buf).Err? ==>
              ParseFixedHeader(buf).error in {InsufficientBytes(1), MalformedRemainingLength}
  {
    if buf != [] {
      assert (buf + more)[1..] == buf[1..] + more;
      VerdictStable(buf[1..], 4, more);
    }
  }

  // A frame, once complete, is the next frame whatever is pushed after it; so is a verdict
  // of malformed input.
  lemma {:induction false} AnswerStable(buf: seq<byte>, more: seq<byte>)
    requires NextFrameOf(buf).0.Err? || NextFrameOf(buf).0.value.Ready?
    ensures NextFrameOf(buf + more) == (NextFrameOf(buf).0, NextFrameOf(buf).1 + more)
  {
    HeaderStable(buf, more);
    if NextFrameOf(buf).0.Ok? {
      var n := ParseFixedHeader(buf).value.FrameLen();
      assert (buf + more)[..n] == buf[..n] && (buf + more)[n..] == buf[n..] + more;
    }
  }

  // A need is met: once the header is there, just as many bytes as asked for complete the
  // frame; before that, one byte is asked for.
  lemma {:induction false} NeedIsMet(buf: seq<byte>, more: seq<byte>)
    requires NextFrameOf(buf).0.Ok? && NextFrameOf(buf).0.value.Need?
    ensures var n := NextFrameOf(buf).0.value.bytes;
            match ParseFixedHeader(buf)
            case Ok(header) => |more| == n ==> NextFrameOf(buf + more) == (Ok(Ready(buf + more)), [])
            case Err(_) => n == 1
  {
    HeaderStable(buf, more);
    var all := buf + more;
    assert all[..|all|] == all && all[|all|..] == [];
  }

  // Asking consumes a frame when there is one, whether or not it decodes, and else nothing;
  // what comes back is the packet, the error, or nothing yet.
  lemma {:induction false} AskingConsumes(buf: seq<byte>)
    ensures var (packet, rest) := NextPacketOf(buf);
            match ParseFixedHeader(buf)
            case Err(InsufficientBytes(_)) => packet == Ok(None) && rest == buf
            case Err(error) => packet == Err(error) && rest == buf
            case Ok(header) =>
              if |buf| < header.FrameLen() then packet == Ok(None) && rest == buf
              else
                var frame := buf[..header.FrameLen()];
                && buf == frame + rest
                && (match Decoded(frame)
                    case Ok(p) => packet == Ok(Some(p))
                    case Err(error) => packet == Err(error))
  {
  }

  // Need(n) is honest: with fewer than n further bytes there is still no frame, and the
  // need has shrunk by just what was pushed.
  lemma {:induction false} NeedIsHonest(buf: seq<byte>, more: seq<byte>)
    requires NextFrameOf(buf).0.Ok? && NextFrameOf(buf).0.value.Need?
    ensures var n := NextFrameOf(buf).0.value.bytes;
            n > 0 && (|more| < n ==> NextFrameOf(buf + more) == (Ok(Need(n - |more|)), buf + more))
  {
    HeaderStable(buf, more);
    if more == [] {
      assert buf + more == buf;
    }
  }

  // ---------- runs of a parser ----------

  datatype ParserCall = Push(chunk: seq<byte>) | Next

  function Pushed(calls: seq<ParserCall>): seq<byte> {
    if calls == [] then []
    else (if calls[0].Push? then calls[0].chunk else []) + Pushed(calls[1..])
  }

  // The frames emitted, in order, and the buffer left.
  function Frames(buf: seq<byte>, calls: seq<ParserCall>): (seq<seq<byte>>, seq<byte>)
    decreases calls
  {
    if calls == [] then ([], buf)
    else
      match calls[0]
      case Push(chunk) => Frames(buf + chunk, calls[1..])
      case Next =>
        var (answer, rest) := NextFrameOf(buf);
        var (frames, left) := Frames(rest, calls[1..]);
        (if answer.Ok? && answer.value.Ready? then [answer.value.frame] + frames else frames, left)
  }

  // The frames of a whole byte string at once, and what is left over.
  function Split(bytes: seq<byte>): (seq<seq<byte>>, seq<byte>)
    decreases |bytes|
  {
    match NextFrameOf(bytes)
    case (Ok(Ready(frame)), rest) => ([frame] + Split(rest).0, Split(rest).1)
    case _ => ([], bytes)
  }

  function Concat(frames: seq<seq<byte>>): seq<byte> {
    if frames == [] then [] else frames[0] + Concat(frames[1..])
  }

  // Emitted frames and buffer hold the bytes, in order; and the frames, followed by the
  // one-shot split of the buffer, are the one-shot split of the bytes.
  ghost predicate Agrees(bytes: seq<byte>, frames: seq<seq<byte>>, left: seq<byte>) {
    Concat(frames) + left == bytes && Split(bytes) == (frames + Split(left).0, Split(left).1)
  }

  lemma {:induction false} ReadySplits(bytes: seq<byte>, frame: seq<byte>, rest: seq<byte>)
    requires NextFrameOf(bytes) == (Ok(Ready(frame)), rest)
    ensures bytes == frame + rest
    ensures Split(bytes) == ([frame] + Split(rest).0, Split(rest).1)
  {
  }

  lemma {:induction false} AgreesFirst(bytes: seq<byte>, frame: seq<byte>, rest: seq<byte>,
                                       frames: seq<seq<byte>>, left: seq<byte>)
    requires bytes == frame + rest && Split(bytes) == ([frame] + Split(rest).0, Split(rest).1)
    requires Agrees(rest, frames, left)
    ensures Agrees(bytes, [frame] + frames, left)
  {
    ConcatFirst(frame, frames, left);
    PrependAssoc(frame, frames, Split(left).0);
  }

  lemma {:induction false} ConcatFirst(frame: seq<byte>, frames: seq<seq<byte>>, left: seq<byte>)
    ensures Concat([frame] + frames) + left == frame + (Concat(frames) + left)
  {
    assert ([frame] + frames)[1..] == frames;
  }

  lemma {:induction false} PrependAssoc(frame: seq<byte>, a: seq<seq<byte>>, b: seq<seq<byte>>)
    ensures [frame] + (a + b) == ([frame] + a) + b
  {
  }

  // However the bytes are cut into chunks, and whenever the parser is asked, the frames
  // are those of one-shot parsing.
  lemma {:induction false} ChunkingIndependent(buf: seq<byte>, calls: seq<ParserCall>)
    ensures Agrees(buf + Pushed(calls), Frames(buf, calls).0, Frames(buf, calls).1)
    decreases calls
  {
    if calls == [] {
      assert buf + [] == buf && [] + buf == buf && [] + Split(buf).0 == Split(buf).0;
    } else if calls[0].Push? {
      var chunk, more := calls[0].chunk, Pushed(calls[1..]);
      ChunkingIndependent(buf + chunk, calls[1..]);
      assert buf + chunk + more == buf + (chunk + more);
    } else {
      var (answer, rest) := NextFrameOf(buf);
      var more := Pushed(calls[1..]);
      ChunkingIndependent(rest, calls[1..]);
      assert [] + more == more;
      if answer.Ok? && answer.value.Ready? {
        var (frames, left) := Frames(rest, calls[1..]);
        AnswerStable(buf, more);
        ReadySplits(buf + more, answer.value.frame, rest + more);
        AgreesFirst(buf + more, answer.value.frame, rest + more, frames, left);
      }
    }
  }

  // ---------- packets through a parser ----------

  ghost predicate Encodable(packet: Packet) {
    Encoded(packet).Ok? && FieldsFit(packet)
  }

  ghost predicate AllEncodable(packets: seq<Packet>) {
    forall i :: 0 <= i < |packets| ==> Encodable(packets[i])
  }

  ghost function EncodedAll(packets: seq<Packet>): seq<byte>
    requires AllEncodable(packets)
  {
    if packets == [] then [] else Encoded(packets[0]).value + EncodedAll(packets[1..])
  }

  // The packets next_packet yields, and the buffer left; a failure is recorded as such.
  function Packets(buf: seq<byte>, calls: seq<ParserCall>): (seq<Checked<Packet>>, seq<byte>)
    decreases calls
  {
    if calls == [] then ([], buf)
    else
      match calls[0]
      case Push(chunk) => Packets(buf + chunk, calls[1..])
      case Next =>
        var (answer, rest) := NextPacketOf(buf);
        var (packets, left) := Packets(rest, calls[1..]);
        (match answer
         case Ok(None) => packets
         case Ok(Some(packet)) => [Ok(packet)] + packets
         case Err(e) => [Err(e)] + packets,
         left)
  }

  function Successes(packets: seq<Packet>): seq<Checked<Packet>> {
    seq(|packets|, i requires 0 <= i < |packets| => Ok(packets[i]))
  }

  // A parser at the start of an encoding finds that packet's frame, and the packet in it.
  lemma {:induction false} NextOfEncoded(packet: Packet, tail: seq<byte>)
    requires Encodable(packet)
    ensures NextFrameOf(Encoded(packet).value + tail) == (Ok(Ready(Encoded(packet).value)), tail)
    ensures Decoded(Encoded(packet).value) == Ok(packet)
  {
    FrameHeader(PartsOf(packet).value, tail);
    var frame := Encoded(packet).value;
    assert (frame + tail)[..|frame|] == frame && (frame + tail)[|frame|..] == tail;
    DecodeEncode(packet, []);
    assert frame + [] == frame;
  }

  // The packets yielded are the first of `packets`, without error; the buffer and the
  // bytes still to come encode the others.
  ghost predicate InOrder(got: seq<Checked<Packet>>, left: seq<byte>, more: seq<byte>, packets: seq<Packet>)
    requires AllEncodable(packets)
  {
    && |got| <= |packets|
    && got == Successes(packets[..|got|])
    && left + more == EncodedAll(packets[|got|..])
  }

  lemma {:induction false} PacketStep(got: seq<Checked<Packet>>, left: seq<byte>, more: seq<byte>, packets: seq<Packet>)
    requires packets != [] && AllEncodable(packets) && AllEncodable(packets[1..])
    requires InOrder(got, left, more, packets[1..])
    ensures InOrder([Ok(packets[0])] + got, left, more, packets)
  {
    var tail := packets[1..];
    assert Successes(packets[..|got| + 1]) == [Ok(packets[0])] + Successes(tail[..|got|]);
    assert packets[|got| + 1..] == tail[|got|..];
  }

  // What a parser with part of the bytes answers, when the rest would complete packets.
  lemma {:induction false} AnswerOnTheWay(buf: seq<byte>, later: seq<byte>, packets: seq<Packet>)
    requires AllEncodable(packets) && buf + later == EncodedAll(packets)
    ensures NextFrameOf(buf).0.Ok?
    ensures NextFrameOf(buf).0.value.Ready? ==>
              packets != []
              && NextPacketOf(buf) == (Ok(Some(packets[0])), NextFrameOf(buf).1)
              && NextFrameOf(buf).1 + later == EncodedAll(packets[1..])
  {
    if NextFrameOf(buf).0.Err? || NextFrameOf(buf).0.value.Ready? {
      AnswerStable(buf, later);
      FirstPacket(packets);
    }
  }

  // While the bytes of encoded packets arrive, in any chunks, the parser yields the
  // packets in order, and no error.
  lemma {:induction false} PacketsInOrder(buf: seq<byte>, calls: seq<ParserCall>, more: seq<byte>, packets: seq<Packet>)
    requires AllEncodable(packets) && buf + (Pushed(calls) + more) == EncodedAll(packets)
    ensures InOrder(Packets(buf, calls).0, Packets(buf, calls).1, more, packets)
    decreases calls
  {
    if calls == [] {
      assert [] + more == more && packets[0..] == packets;
    } else if calls[0].Push? {
      PushedStep(buf, calls, more);
      PacketsInOrder(buf + calls[0].chunk, calls[1..], more, packets);
    } else {
      var later := Pushed(calls[1..]);
      PushedStep(buf, calls, more);
      AnswerOnTheWay(buf, later + more, packets);
      var (answer, rest) := NextFrameOf(buf);
      if answer.value.Need? {
        PacketsInOrder(buf, calls[1..], more, packets);
      } else {
        PacketsInOrder(rest, calls[1..], more, packets[1..]);
      }
      NextInOrder(buf, calls, more, packets);
    }
  }

  lemma {:induction false} PushedStep(buf: seq<byte>, calls: seq<ParserCall>, more: seq<byte>)
    requires calls != []
    ensures var chunk := if calls[0].Push? then calls[0].chunk else [];
            buf + (Pushed(calls) + more) == (buf + chunk) + (Pushed(calls[1..]) + more)
    ensures calls[0].Next? ==> Pushed(calls) == Pushed(calls[1..])
  {
    var later := Pushed(calls[1..]);
    if calls[0].Next? {
      assert [] + later == later && buf + [] == buf;
    } else {
      var chunk := calls[0].chunk;
      assert buf + ((chunk + later) + more) == (buf + chunk) + (later + more);
    }
  }

  // Asking once, when the later calls go in order.
  lemma {:induction false} NextInOrder(buf: seq<byte>, calls: seq<ParserCall>, more: seq<byte>, packets: seq<Packet>)
    requires AllEncodable(packets) && calls != [] && calls[0].Next? && NextFrameOf(buf).0.Ok?
    requires NextFrameOf(buf).0.value.Need? ==>
               InOrder(Packets(buf, calls[1..]).0, Packets(buf, calls[1..]).1, more, packets)
    requires NextFrameOf(buf).0.value.Ready? ==>
               var rest := NextFrameOf(buf).1;
               && packets != [] && NextPacketOf(buf) == (Ok(Some(packets[0])), rest)
               && InOrder(Packets(rest, calls[1..]).0, Packets(rest, calls[1..]).1, more, packets[1..])
    ensures InOrder(Packets(buf, calls).0, Packets(buf, calls).1, more, packets)
  {
    NextStep(buf, calls, packets);
    if NextFrameOf(buf).0.value.Ready? {
      var later := Packets(NextFrameOf(buf).1, calls[1..]);
      PacketStep(later.0, later.1, more, packets);
    }
  }

  lemma {:induction false} NextStep(buf: seq<byte>, calls: seq<ParserCall>, packets: seq<Packet>)
    requires calls != [] && calls[0].Next? && NextFrameOf(buf).0.Ok?
    ensures NextFrameOf(buf).0.value.Need? ==> Packets(buf, calls) == Packets(buf, calls[1..])
    ensures packets != [] && NextPacketOf(buf) == (Ok(Some(packets[0])), NextFrameOf(buf).1) ==>
              Packets(buf, calls).0 == [Ok(packets[0])] + Packets(NextFrameOf(buf).1, calls[1..]).0
              && Packets(buf, calls).1 == Packets(NextFrameOf(buf).1, calls[1..]).1
  {
  }

  // The answer to the bytes of encoded packets: the first one's frame, or a need.
  lemma {:induction false} FirstPacket(packets: seq<Packet>)
    requires AllEncodable(packets)
    ensures var answer := NextFrameOf(EncodedAll(packets));
            if packets == [] then answer.0 == Ok(Need(1))
            else answer == (Ok(Ready(Encoded(packets[0]).value)), EncodedAll(packets[1..]))
                 && Decoded(Encoded(packets[0]).value) == Ok(packets[0])
  {
    if packets != [] {
      NextOfEncoded(packets[0], EncodedAll(packets[1..]));
    }
  }

  // A fresh parser given all the bytes, in any chunks, has yielded every packet if it
  // answers that it needs more.
  lemma {:induction false} AllPacketsArrive(calls: seq<ParserCall>, packets: seq<Packet>)
    requires AllEncodable(packets) && Pushed(calls) == EncodedAll(packets)
    ensures var (got, left) := Packets([], calls);
            && InOrder(got, left, [], packets)
            && (NextPacketOf(left).0 == Ok(None) <==> |got| == |packets|)
  {
    assert [] + (Pushed(calls) + []) == Pushed(calls);
    PacketsInOrder([], calls, [], packets);
    var (got, left) := Packets([], calls);
    assert left + [] == left;
    FirstPacket(packets[|got|..]);
  }
}
