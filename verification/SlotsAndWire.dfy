// What waits in a slot has been sent, and what is sent for an acknowledgement waits in its
// slot.
module SlotsAndWire {
  import opened Bytes
  import opened Types
  import opened Wrappers
  import opened PacketIds
  import opened Inflight
  import opened SessionState
  import opened Driver
  import opened SessionInvariant
  import opened Conservation
  import opened RunConservation
  import opened Collision

  // Packets that open an exchange an acknowledgement closes.
  predicate Awaits(packet: Packet) {
    (packet.Publish? && packet.publish.qos != AtMostOnce) || packet.Subscribe? || packet.Unsubscribe?
  }

  function IdOf(packet: Packet): uint16 {
    match packet
    case Publish(p) => p.pkid
    case Subscribe(s) => s.pkid
    case Unsubscribe(u) => u.pkid
    case _ => 0
  }

  // The packet is that of the slot's op, up to DUP.
  ghost predicate Carries(slot: Option<Op>, packet: Packet) {
    slot.Some? && MarkPublishDup(slot.value.packet) == MarkPublishDup(packet)
  }

  // Every op new in the table is among the packets.
  ghost predicate NewSlotsSent(before: seq<Option<Op>>, after: seq<Option<Op>>, packets: seq<Packet>) {
    |before| == |after|
    && forall p :: 0 <= p < |after| && after[p].Some? && after[p] != before[p] ==>
         exists i :: 0 <= i < |packets| && Carries(after[p], packets[i])
  }

  // Every packet that awaits an acknowledgement has its op in the slot of its id.
  ghost predicate SentAreHeld(after: seq<Option<Op>>, packets: seq<Packet>) {
    forall i :: 0 <= i < |packets| && Awaits(packets[i]) ==>
      IdOf(packets[i]) < |after| && Carries(after[IdOf(packets[i])], packets[i])
  }

  ghost predicate WireMatches(before: seq<Option<Op>>, after: seq<Option<Op>>, packets: seq<Packet>) {
    NewSlotsSent(before, after, packets) && SentAreHeld(after, packets)
  }

  function PacketsIn(out: Outcome): seq<Packet> {
    match out
    case Err(_) => []
    case Ok(actions) => SentPackets(actions)
  }

  lemma {:induction false} AdmitMatches(st: Store, op: Op)
    requires StoreInv(st) && QueuedOp(op) && NeedsAck(op.command)
    ensures WireMatches(st.outgoing, Admit(st, op).0.outgoing, if Admit(st, op).1 then [op.packet] else [])
  {
    if HasRoomAt(st, PkidOf(op.command)) {
      assert Carries(Admit(st, op).0.outgoing[PkidOf(op.command)], [op.packet][0]);
    }
  }

  lemma {:induction false} CommandMatches(s: Session, c: Command)
    requires Inv(s) && Trackable(c)
    ensures WireMatches(s.store.outgoing, AfterCommand(s, c).0.store.outgoing,
                        if AfterCommand(s, c).1.Some? then [AfterCommand(s, c).1.value] else [])
  {
    if s.active && NeedsAck(c) {
      AdmitMatches(s.store, OpOf(AssignPkid(s.pool, c).1));
    }
  }

  lemma {:induction false} ReplayOneMatches(s: Session, op: Op)
    requires Inv(s) && QueuedOp(op)
    ensures WireMatches(s.store.outgoing, ReplayOne(s, op).0.store.outgoing, ReplayOne(s, op).1)
    ensures forall p :: 0 <= p < |s.store.outgoing| && s.store.outgoing[p].Some? ==>
              ReplayOne(s, op).0.store.outgoing[p] == s.store.outgoing[p]
  {
    var c := WithDup(op.command);
    if NeedsAck(c) {
      AdmitMatches(s.store, OpOf(c));
      var (store, inserted) := Admit(s.store, OpOf(c));
      assert ReplayOne(s, op) == (s.(store := store), if inserted then [PacketOf(c)] else []);
    } else {
      assert ReplayOne(s, op) == (s, [PacketOf(c)]);
    }
  }

  // Two stretches of a replay, the second leaving the slots of the first alone.
  lemma {:induction false} MatchesAppend(a: seq<Option<Op>>, b: seq<Option<Op>>, c: seq<Option<Op>>,
                                         first: seq<Packet>, second: seq<Packet>)
    requires WireMatches(a, b, first) && WireMatches(b, c, second)
    requires forall p :: 0 <= p < |b| && b[p].Some? ==> c[p] == b[p]
    ensures WireMatches(a, c, first + second)
  {
    forall p | 0 <= p < |c| && c[p].Some? && c[p] != a[p]
      ensures exists i :: 0 <= i < |first + second| && Carries(c[p], (first + second)[i])
    {
      if c[p] != b[p] {
        var i :| 0 <= i < |second| && Carries(c[p], second[i]);
        assert Carries(c[p], (first + second)[|first| + i]);
      } else {
        var i :| 0 <= i < |first| && Carries(b[p], first[i]);
        assert Carries(c[p], (first + second)[i]);
      }
    }
  }

  lemma {:induction false} ReplayMatches(s: Session, ops: seq<Op>)
    requires Inv(s) && QueueOk(ops)
    ensures WireMatches(s.store.outgoing, Replay(s, ops).0.store.outgoing, Replay(s, ops).1)
    ensures forall p :: 0 <= p < |s.store.outgoing| && s.store.outgoing[p].Some? ==>
              Replay(s, ops).0.store.outgoing[p] == s.store.outgoing[p]
    decreases ops
  {
    if ops != [] {
      var (s1, first) := ReplayOne(s, ops[0]);
      ReplayOneKeepsInv(s, ops[0]);
      ReplayOneMatches(s, ops[0]);
      ReplayMatches(s1, ops[1..]);
      MatchesAppend(s.store.outgoing, s1.store.outgoing, Replay(s1, ops[1..]).0.store.outgoing,
                    first, Replay(s1, ops[1..]).1);
    }
  }

  lemma {:induction false} PromotionMatches(st: Store, st': Store, pkid: uint16, next: Option<Packet>)
    requires StoreInv(st) && 1 <= pkid < |st.outgoing| && Promoted(st, st', pkid, next)
    ensures WireMatches(st.outgoing, st'.outgoing, if next.Some? then [next.value] else [])
  {
    if ParkedOn(st, pkid) {
      assert Carries(st'.outgoing[pkid], [next.value][0]);
    }
  }

  lemma {:induction false} AckedSends(s: Session, now: int, ack: AckResult)
    ensures Acked(s, now, Ok(ack)).0.store == s.store
    ensures PacketsIn(Acked(s, now, Ok(ack)).1) == if ack.nextPacket.Some? then [ack.nextPacket.value] else []
  {
    ShortLists(Acked(s, now, Ok(ack)).1.value);
  }

  lemma {:induction false} PubAckMatches(s: Session, pkid: uint16, now: int)
    requires Inv(s)
    ensures WireMatches(s.store.outgoing, OnIncoming(s, Packet.PubAck(pkid), now).0.store.outgoing,
                        PacketsIn(OnIncoming(s, Packet.PubAck(pkid), now).1))
  {
    var s1 := s.(lastIncoming := now);
    var (s', r) := AfterPubAck(s1, pkid);
    if r.Ok? {
      PubAckPromotes(s1, pkid);
      PromotionMatches(s.store, s'.store, pkid, r.value.nextPacket);
      AckedSends(s', now, r.value);
    }
  }

  lemma {:induction false} PubCompMatches(s: Session, pkid: uint16, now: int)
    requires Inv(s)
    ensures WireMatches(s.store.outgoing, OnIncoming(s, Packet.PubComp(pkid), now).0.store.outgoing,
                        PacketsIn(OnIncoming(s, Packet.PubComp(pkid), now).1))
  {
    var s1 := s.(lastIncoming := now);
    var (s', r) := AfterPubComp(s1, pkid);
    if r.Ok? {
      PubCompPromotes(s1, pkid);
      PromotionMatches(s.store, s'.store, pkid, r.value.nextPacket);
      AckedSends(s', now, r.value);
    }
  }

  // No op enters a slot, and nothing goes out that would need one.
  lemma {:induction false} NothingEnters(before: seq<Option<Op>>, after: seq<Option<Op>>, actions: seq<Action>)
    requires |before| == |after| && |actions| <= 1
    requires forall p :: 0 <= p < |after| && after[p].Some? ==> after[p] == before[p]
    requires actions != [] && actions[0].Send? ==> !Awaits(actions[0].packet)
    ensures WireMatches(before, after, SentPackets(actions))
  {
    if actions != [] {
      ShortLists(actions);
    }
  }

  lemma {:induction false} OtherIncomingMatches(s: Session, packet: Packet, now: int)
    requires Inv(s) && !packet.PubAck? && !packet.PubComp?
    ensures var (s', out) := OnIncoming(s, packet, now);
            WireMatches(s.store.outgoing, s'.store.outgoing, PacketsIn(out))
  {
    var (s', out) := OnIncoming(s, packet, now);
    NothingEnters(s.store.outgoing, s'.store.outgoing, if out.Ok? then out.value else []);
  }

  lemma {:induction false} SubmitMatches(s: Session, c: Command, now: int)
    requires Inv(s)
    ensures var (s', out) := OnSubmit(s, c, now);
            WireMatches(s.store.outgoing, s'.store.outgoing, PacketsIn(out))
  {
    if Trackable(c) {
      CommandMatches(s, c);
      SubmitOutput(s, c, now);
    } else {
      NothingEnters(s.store.outgoing, s.store.outgoing, []);
    }
  }

  lemma {:induction false} SubmitOutput(s: Session, c: Command, now: int)
    requires Trackable(c)
    ensures var (s', packet) := AfterCommand(s, c);
            && OnSubmit(s, c, now).0.store == s'.store
            && PacketsIn(OnSubmit(s, c, now).1) == if packet.Some? then [packet.value] else []
  {
    var out := OnSubmit(s, c, now).1;
    if out.value != [] {
      ShortLists(out.value);
    }
  }

  lemma {:induction false} RestoreMatches(s: Session, now: int)
    requires Inv(s)
    ensures var (s', out) := OnRestored(s, now);
            WireMatches(s.store.outgoing, s'.store.outgoing, PacketsIn(out))
  {
    var start := ReplayStart(s, now);
    ReplayMatches(start, s.store.pending);
    SentPacketsOfSends(Replay(start, s.store.pending).1);
  }

  // In every event: an op that enters a slot has its packet among those sent in that very
  // event, and whatever is sent to be acknowledged has its op in its slot.
  lemma {:induction false} StepMatches(d: DriverState, e: Event)
    requires Inv(d.session)
    ensures WireMatches(d.session.store.outgoing, Step(d, e).0.session.store.outgoing, PacketsIn(Step(d, e).1))
  {
    match e {
      case Tick(now) =>
        NothingEnters(d.session.store.outgoing, Step(d, e).0.session.store.outgoing, Step(d, e).1.value);
      case Submit(c, now) => SubmitMatches(d.session, c, now);
      case Incoming(packet, now) =>
        match packet {
          case PubAck(pkid) => PubAckMatches(d.session, pkid, now);
          case PubComp(pkid) => PubCompMatches(d.session, pkid, now);
          case _ => OtherIncomingMatches(d.session, packet, now);
        }
      case ConnectionLost(clean) =>
        NothingEnters(d.session.store.outgoing, Step(d, e).0.session.store.outgoing, [TriggerReconnect]);
      case ConnectionRestored(now) => RestoreMatches(d.session, now);
    }
  }
}
