// What each packet from the broker does, written out: the answer, the refusal with its
// error, and every field of the session afterwards.
module Outcomes {
  import opened Bytes
  import opened Types
  import opened Wrappers
  import opened PacketIds
  import opened Inflight
  import opened SessionState
  import opened Driver
  import opened SessionInvariant
  import opened Collision
  import opened CommandsOnWire

  predicate Known(st: Store, p: uint16) {
    1 <= p <= st.maxInflight
  }

  // An op waits in slot p.
  predicate Waiting(st: Store, p: uint16) {
    p < |st.outgoing| && st.outgoing[p].Some?
  }

  predicate Flagged(flags: seq<bool>, p: uint16) {
    p < |flags| && flags[p]
  }

  // The op of slot p is completed to its owner, and the op parked on p, if any, goes out.
  ghost predicate Completes(s: Session, p: uint16, completion: Completion, out: Outcome) {
    && out.Ok? && |out.value| == (if ParkedOn(s.store, p) then 2 else 1)
    && Waiting(s.store, p) && Trackable(s.store.outgoing[p].value.command)
    && out.value[0] == CompleteFor(s.store.outgoing[p].value.command.clientId, completion)
    && (ParkedOn(s.store, p) ==>
          out.value[1].Send? && SaysAs(out.value[1].packet, s.store.collision.value.op.command)
          && Under(out.value[1].packet, p, true))
  }

  function TokenAt(st: Store, p: uint16): nat
    requires Waiting(st, p)
  {
    match st.outgoing[p].value.command
    case Publish(token, _, _) => token
    case Subscribe(token, _, _) => token
    case Unsubscribe(token, _, _) => token
    case _ => 0
  }

  // The outcome of each packet, by the session it meets.
  ghost predicate AnsweredAs(s: Session, packet: Packet, out: Outcome) {
    var st := s.store;
    match packet
    case PubAck(p) =>
      if !Waiting(st, p) then out == Err(UnsolicitedAck(p))
      else Completes(s, p, Completion.PubAck(TokenAt(st, p), p), out)
    case PubRec(p) =>
      if !Known(st, p) then out == Err(PacketIdOutOfRange(p))
      else if !Waiting(st, p) then out == Err(UnsolicitedPubRec(p))
      else out == Ok([Send(Packet.PubRel(p))])
    case PubComp(p) =>
      if !Known(st, p) then out == Err(PacketIdOutOfRange(p))
      else if !Waiting(st, p) || !Flagged(st.outgoingRel, p) then out == Err(UnsolicitedPubComp(p))
      else Completes(s, p, Completion.PubComp(TokenAt(st, p), p), out)
    case SubAck(a) =>
      if !Waiting(st, a.pkid) then out == Err(UnsolicitedAck(a.pkid))
      else
        (match st.outgoing[a.pkid].value.command
         case Subscribe(token, request, client) =>
           out == Ok([SubscribeAckFor(client, request.filters, Completion.SubAck(token, a.pkid))])
         case _ => out == Err(InvalidCommand))
    case UnsubAck(p) =>
      if !Waiting(st, p) then out == Err(UnsolicitedAck(p))
      else
        (match st.outgoing[p].value.command
         case Unsubscribe(token, request, client) =>
           out == Ok([UnsubscribeAckFor(client, request.filters, Completion.UnsubAck(token, p))])
         case _ => out == Err(InvalidCommand))
    case Publish(p) =>
      if p.qos != ExactlyOnce then out == Ok([])
      else if !Known(st, p.pkid) then out == Err(PacketIdOutOfRange(p.pkid))
      else out == Ok([Send(Packet.PubRec(p.pkid))])
    case PubRel(p) =>
      if !Known(st, p) then out == Err(PacketIdOutOfRange(p))
      else if !Flagged(st.incomingPub, p) then out == Err(UnsolicitedPubRel(p))
      else out == Ok([Send(Packet.PubComp(p))])
    case Connect(_) => out == Ok([])
    case ConnAck(_) => out == Ok([])
    case Subscribe(_) => out == Ok([])
    case Unsubscribe(_) => out == Ok([])
    case PingReq => out == Ok([])
    case PingResp => out == Ok([])
    case Disconnect => out == Ok([])
  }

  lemma {:induction false} PubAckAnswered(s: Session, p: uint16, now: int)
    requires Inv(s)
    ensures AnsweredAs(s, Packet.PubAck(p), OnIncoming(s, Packet.PubAck(p), now).1)
  {
    var s1 := s.(lastIncoming := now);
    if Waiting(s.store, p) {
      PubAckPromotes(s1, p);
      PromotionWrites(s1, p);
    }
  }

  lemma {:induction false} PubCompAnswered(s: Session, p: uint16, now: int)
    requires Inv(s)
    ensures AnsweredAs(s, Packet.PubComp(p), OnIncoming(s, Packet.PubComp(p), now).1)
  {
    var s1 := s.(lastIncoming := now);
    if Known(s.store, p) && Waiting(s.store, p) && Flagged(s.store.outgoingRel, p) {
      PubCompPromotes(s1, p);
      PromotionWrites(s1, p);
    }
  }

  lemma {:induction false} OthersAnswered(s: Session, packet: Packet, now: int)
    requires Inv(s) && !packet.PubAck? && !packet.PubComp?
    ensures AnsweredAs(s, packet, OnIncoming(s, packet, now).1)
  {
  }

  // For every packet and every session.
  lemma {:induction false} IncomingAnswered(d: DriverState, packet: Packet, now: int)
    requires Inv(d.session)
    ensures AnsweredAs(d.session, packet, Step(d, Incoming(packet, now)).1)
  {
    match packet {
      case PubAck(p) => PubAckAnswered(d.session, p, now);
      case PubComp(p) => PubCompAnswered(d.session, p, now);
      case _ => OthersAnswered(d.session, packet, now);
    }
  }

  // ---------- the session afterwards ----------

  // The slot an accepted acknowledgement frees, if any; a SUBACK or UNSUBACK frees its slot
  // whatever it holds.
  function Frees(s: Session, packet: Packet): Option<uint16> {
    match packet
    case PubAck(p) => if Waiting(s.store, p) then Some(p) else None
    case PubComp(p) =>
      if Known(s.store, p) && Waiting(s.store, p) && Flagged(s.store.outgoingRel, p) then Some(p) else None
    case SubAck(a) => if Waiting(s.store, a.pkid) then Some(a.pkid) else None
    case UnsubAck(p) => if Waiting(s.store, p) then Some(p) else None
    case _ => None
  }

  // A publish acknowledgement lets the op parked on its id in.
  ghost predicate Promotes(s: Session, packet: Packet) {
    (packet.PubAck? || packet.PubComp?) && Frees(s, packet).Some? && ParkedOn(s.store, Frees(s, packet).value)
  }

  // Slots, count and park.
  ghost predicate TableAfter(s: Session, packet: Packet, st': Store) {
    var st, freed := s.store, Frees(s, packet);
    if freed.None? then
      st'.outgoing == st.outgoing && st'.inflight == st.inflight && st'.collision == st.collision
    else if freed.value >= |st.outgoing| then false
    else if Promotes(s, packet) then
      && st'.outgoing == st.outgoing[freed.value as int := Some(st.collision.value.op)]
      && st'.inflight == st.inflight && st'.collision == None
    else
      && st'.outgoing == st.outgoing[freed.value as int := None]
      && st'.inflight == st.inflight - 1 && st'.collision == st.collision
  }

  // The QoS 2 flags.
  ghost predicate FlagsAfter(s: Session, packet: Packet, st': Store) {
    var st := s.store;
    && |st'.outgoingRel| == |st.outgoingRel| && |st'.incomingPub| == |st.incomingPub|
    && (forall p: uint16 :: p < |st.outgoingRel| ==>
          st'.outgoingRel[p] == if packet == PubRec(p) && Waiting(st, p) then true
                                else if packet == Packet.PubComp(p) && Waiting(st, p) then false
                                else st.outgoingRel[p])
    && (forall p: uint16 :: p < |st.incomingPub| ==>
          st'.incomingPub[p] == if packet.Publish? && packet.publish.qos == ExactlyOnce && packet.publish.pkid == p
                                   && p != 0 then true
                                else if packet == Packet.PubRel(p) && p != 0 then false
                                else st.incomingPub[p])
  }

  ghost predicate SendsSome(out: Outcome) {
    out.Ok? && exists i :: 0 <= i < |out.value| && out.value[i].Send?
  }

  // Queue, ids and the rest stay; the clocks say that something came in and whether
  // something went out.
  ghost predicate RestAfter(s: Session, packet: Packet, now: int, s': Session, out: Outcome) {
    && s'.store.pending == s.store.pending && s'.store.maxInflight == s.store.maxInflight
    && s'.pool == s.pool && s'.active == s.active && s'.keepAlive == s.keepAlive
    && s'.awaitPingresp == (s.awaitPingresp && !packet.PingResp?)
    && s'.lastIncoming == now
    && s'.lastOutgoing == (if SendsSome(out) then now else s.lastOutgoing)
  }

  ghost predicate Leaves(s: Session, packet: Packet, now: int, r: (Session, Outcome)) {
    && TableAfter(s, packet, r.0.store) && FlagsAfter(s, packet, r.0.store)
    && RestAfter(s, packet, now, r.0, r.1)
  }

  lemma {:induction false} PubAckLeaves(s: Session, p: uint16, now: int)
    requires Inv(s)
    ensures Leaves(s, Packet.PubAck(p), now, OnIncoming(s, Packet.PubAck(p), now))
  {
    var out := OnIncoming(s, Packet.PubAck(p), now).1;
    if Waiting(s.store, p) {
      PubAckPromotes(s.(lastIncoming := now), p);
      if ParkedOn(s.store, p) {
        assert out.value[1].Send?;
      }
    }
  }

  lemma {:induction false} PubCompLeaves(s: Session, p: uint16, now: int)
    requires Inv(s)
    ensures Leaves(s, Packet.PubComp(p), now, OnIncoming(s, Packet.PubComp(p), now))
  {
    var out := OnIncoming(s, Packet.PubComp(p), now).1;
    if Frees(s, Packet.PubComp(p)).Some? {
      PubCompPromotes(s.(lastIncoming := now), p);
      if ParkedOn(s.store, p) {
        assert out.value[1].Send?;
      }
    }
  }

  // PUBREC, PUBREL and QoS 2 publishes touch a flag.
  lemma {:induction false} HandshakesLeave(s: Session, packet: Packet, now: int)
    requires Inv(s) && (packet.PubRec? || packet.PubRel?)
    ensures Leaves(s, packet, now, OnIncoming(s, packet, now))
  {
    var out := OnIncoming(s, packet, now).1;
    if out.Ok? && out.value != [] {
      assert out.value[0].Send?;
    }
  }

  lemma {:induction false} PublishLeaves(s: Session, packet: Packet, now: int)
    requires Inv(s) && packet.Publish?
    ensures Leaves(s, packet, now, OnIncoming(s, packet, now))
  {
    var out := OnIncoming(s, packet, now).1;
    if out.Ok? && out.value != [] {
      assert out.value[0].Send?;
    }
  }

  lemma {:induction false} OthersLeave(s: Session, packet: Packet, now: int)
    requires Inv(s) && !packet.PubAck? && !packet.PubComp?
    requires !packet.PubRec? && !packet.PubRel? && !packet.Publish? && !packet.SubAck? && !packet.UnsubAck?
    ensures Leaves(s, packet, now, OnIncoming(s, packet, now))
  {
  }

  lemma {:induction false} TopicAckLeaves(s: Session, packet: Packet, now: int)
    requires Inv(s) && (packet.SubAck? || packet.UnsubAck?)
    ensures Leaves(s, packet, now, OnIncoming(s, packet, now))
  {
  }

  // Every field of the session after any packet.
  lemma {:induction false} IncomingLeaves(d: DriverState, packet: Packet, now: int)
    requires Inv(d.session)
    ensures var (d', out) := Step(d, Incoming(packet, now));
            Leaves(d.session, packet, now, (d'.session, out)) && d'.cleanSession == d.cleanSession
  {
    var s := d.session;
    match packet {
      case PubAck(p) => PubAckLeaves(s, p, now);
      case PubComp(p) => PubCompLeaves(s, p, now);
      case PubRec(_) => HandshakesLeave(s, packet, now);
      case PubRel(_) => HandshakesLeave(s, packet, now);
      case Publish(_) => PublishLeaves(s, packet, now);
      case SubAck(_) => TopicAckLeaves(s, packet, now);
      case UnsubAck(_) => TopicAckLeaves(s, packet, now);
      case _ => OthersLeave(s, packet, now);
    }
  }
}
