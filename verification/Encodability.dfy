// Which submitted commands guarantee that everything the session sends can be encoded.
module Encodability {
  import opened Bytes
  import opened Types
  import opened Wrappers
  import opened PacketIds
  import opened Inflight
  import opened SessionState
  import opened Driver
  import opened SessionInvariant
  import opened Conservation
  import opened RunConservation
  import opened Reconnect
  import opened OfflineBacklog
  import opened SlotsAndWire
  import opened Collision
  import opened DupFlags
  import opened Primitives
  import opened PacketCodec

  // No packet id under QoS 0, at least one topic, and a body within the maximum.
  predicate Sendable(c: Command) {
    match c
    case Publish(_, p, _) => (p.qos == AtMostOnce ==> p.pkid == 0) && |PublishBody(p)| <= MAX_REMAINING_LEN
    case Subscribe(_, s, _) => s.filters != [] && 2 + |FilterFields(s.filters)| <= MAX_REMAINING_LEN
    case Unsubscribe(_, u, _) => u.filters != [] && 2 + |TopicFields(u.filters)| <= MAX_REMAINING_LEN
    case _ => true
  }

  predicate Encodes(packet: Packet) {
    Encoded(packet).Ok?
  }

  lemma {:induction false} FrameEncodes(parts: Parts)
    ensures Frame(parts).Ok? <==> |parts.body| <= MAX_REMAINING_LEN
  {
  }

  // A command whose packet has its id, if it needs one, encodes if and only if it is
  // sendable.
  lemma {:induction false} NumberedEncodesIff(c: Command)
    requires Trackable(c) && (NeedsAck(c) ==> PkidOf(c) != 0)
    ensures Encodes(PacketOf(c)) <==> Sendable(c)
  {
    var parts := PartsOf(PacketOf(c));
    if parts.Ok? {
      FrameEncodes(parts.value);
    }
  }

  // Ids and DUP make no difference.
  lemma {:induction false} SendableKept(c: Command, id: uint16)
    requires Trackable(c)
    ensures Sendable(WithDup(c)) <==> Sendable(c)
    ensures NeedsAck(c) ==> (Sendable(WithPkid(c, id)) <==> Sendable(c))
  {
  }

  // A submitted command that goes out at once encodes if and only if it is sendable.
  lemma {:induction false} SubmitEncodesIff(d: DriverState, c: Command, now: int)
    requires Inv(d.session) && Trackable(c)
    ensures forall i :: 0 <= i < |PacketsIn(Step(d, Submit(c, now)).1)| ==>
              (Encodes(PacketsIn(Step(d, Submit(c, now)).1)[i]) <==> Sendable(c))
  {
    var numbered := AssignPkid(d.session.pool, c).1;
    SubmitSends(d, c, now);
    SendableKept(c, NextId(d.session.pool));
    NumberedEncodesIff(numbered);
  }

  // ---------- over runs ----------

  ghost predicate SendableOps(ops: seq<Op>) {
    forall i :: 0 <= i < |ops| ==> Sendable(ops[i].command)
  }

  ghost predicate SendableSlots(slots: seq<Option<Op>>) {
    forall i :: 0 <= i < |slots| && slots[i].Some? ==> Sendable(slots[i].value.command)
  }

  // Everything held is sendable.
  ghost predicate HoldsSendable(st: Store) {
    && SendableSlots(st.outgoing) && SendableOps(st.pending)
    && (st.collision.Some? ==> Sendable(st.collision.value.op.command))
  }

  ghost predicate AllEncode(packets: seq<Packet>) {
    forall i :: 0 <= i < |packets| ==> Encodes(packets[i])
  }

  ghost predicate SendableEvent(e: Event) {
    e.Submit? && Trackable(e.command) ==> Sendable(e.command)
  }

  lemma {:induction false} AdmitSendable(st: Store, op: Op)
    requires HoldsSendable(st) && Sendable(op.command)
    ensures HoldsSendable(Admit(st, op).0)
  {
  }

  lemma {:induction false} CommandSendable(s: Session, c: Command)
    requires HoldsSendable(s.store) && Trackable(c) && Sendable(c)
    ensures HoldsSendable(AfterCommand(s, c).0.store)
  {
    var numbered := AssignPkid(s.pool, c).1;
    SendableKept(c, NextId(s.pool));
    AdmitSendable(s.store, OpOf(numbered));
  }

  lemma {:induction false} ReplayOneEncodes(s: Session, op: Op)
    requires Inv(s) && QueuedOp(op) && HoldsSendable(s.store) && Sendable(op.command)
    ensures HoldsSendable(ReplayOne(s, op).0.store) && AllEncode(ReplayOne(s, op).1)
  {
    var c := WithDup(op.command);
    SendableKept(op.command, 0);
    NumberedEncodesIff(c);
    AdmitSendable(s.store, OpOf(c));
  }

  lemma {:induction false} ReplayEncodes(s: Session, ops: seq<Op>)
    requires Inv(s) && QueueOk(ops) && HoldsSendable(s.store) && SendableOps(ops)
    ensures HoldsSendable(Replay(s, ops).0.store) && AllEncode(Replay(s, ops).1)
    decreases ops
  {
    if ops != [] {
      ReplayOneKeepsInv(s, ops[0]);
      ReplayOneEncodes(s, ops[0]);
      ReplayEncodes(ReplayOne(s, ops[0]).0, ops[1..]);
    }
  }

  lemma {:induction false} DrainedSendable(slots: seq<Option<Op>>)
    requires SendableSlots(slots)
    ensures SendableOps(DrainSlots(slots))
  {
    if slots != [] {
      DrainedSendable(slots[1..]);
    }
  }

  lemma {:induction false} LossSendable(s: Session, clean: bool)
    requires HoldsSendable(s.store)
    ensures HoldsSendable(AfterLoss(s, clean).store)
  {
    DrainedSendable(s.store.outgoing);
  }

  lemma {:induction false} PromotedSendable(st: Store, st': Store, pkid: uint16, next: Option<Packet>)
    requires StoreInv(st) && HoldsSendable(st) && pkid < |st.outgoing| && Promoted(st, st', pkid, next)
    requires st'.pending == st.pending
    ensures HoldsSendable(st') && (next.Some? ==> Encodes(next.value))
  {
    if ParkedOn(st, pkid) {
      var c := st.collision.value.op.command;
      SendableKept(c, 0);
      NumberedEncodesIff(WithDup(c));
    }
  }

  lemma {:induction false} PubAckEncodes(s: Session, pkid: uint16, now: int)
    requires Inv(s) && HoldsSendable(s.store)
    ensures var (s', out) := OnIncoming(s, Packet.PubAck(pkid), now);
            HoldsSendable(s'.store) && AllEncode(PacketsIn(out))
  {
    var s1 := s.(lastIncoming := now);
    var (s', r) := AfterPubAck(s1, pkid);
    if r.Ok? {
      PubAckPromotes(s1, pkid);
      PromotedSendable(s.store, s'.store, pkid, r.value.nextPacket);
      AckedSends(s', now, r.value);
    }
  }

  lemma {:induction false} PubCompEncodes(s: Session, pkid: uint16, now: int)
    requires Inv(s) && HoldsSendable(s.store)
    ensures var (s', out) := OnIncoming(s, Packet.PubComp(pkid), now);
            HoldsSendable(s'.store) && AllEncode(PacketsIn(out))
  {
    var s1 := s.(lastIncoming := now);
    var (s', r) := AfterPubComp(s1, pkid);
    if r.Ok? {
      PubCompPromotes(s1, pkid);
      PromotedSendable(s.store, s'.store, pkid, r.value.nextPacket);
      AckedSends(s', now, r.value);
    }
  }

  lemma {:induction false} ReplyEncodes(packet: Packet)
    requires packet.PingReq? || ((packet.PubRec? || packet.PubRel? || packet.PubComp?) && packet.pkid != 0)
    ensures Encodes(packet)
  {
    FrameEncodes(PartsOf(packet).value);
  }

  lemma {:induction false} OtherIncomingEncodes(s: Session, packet: Packet, now: int)
    requires Inv(s) && !packet.PubAck? && !packet.PubComp?
    ensures AllEncode(PacketsIn(OnIncoming(s, packet, now).1))
  {
    var out := OnIncoming(s, packet, now).1;
    if out.Ok? && out.value != [] {
      ShortLists(out.value);
      if out.value[0].Send? {
        ReplyEncodes(out.value[0].packet);
      }
    }
  }

  lemma {:induction false} ReleasedSendable(st: Store, pkid: uint16)
    requires HoldsSendable(st)
    ensures HoldsSendable(Released(st, pkid).0)
  {
  }

  lemma {:induction false} OtherIncomingHolds(s: Session, packet: Packet, now: int)
    requires Inv(s) && HoldsSendable(s.store) && !packet.PubAck? && !packet.PubComp?
    ensures HoldsSendable(OnIncoming(s, packet, now).0.store)
  {
    match packet {
      case SubAck(p) => ReleasedSendable(s.store, p.pkid);
      case UnsubAck(pkid) => ReleasedSendable(s.store, pkid);
      case _ =>
    }
  }

  // An event's outcome keeps what is held sendable and sends what can be encoded.
  ghost predicate SendsWell(s: Session, out: Outcome) {
    HoldsSendable(s.store) && AllEncode(PacketsIn(out))
  }

  lemma {:induction false} TickEncodes(d: DriverState, now: int)
    requires HoldsSendable(d.session.store)
    ensures SendsWell(OnTick(d, now).0, OnTick(d, now).1)
  {
    var out := OnTick(d, now).1;
    LossSendable(d.session, d.cleanSession);
    if out.value != [] {
      ShortLists(out.value);
      ReplyEncodes(PingReq);
    }
  }

  lemma {:induction false} SubmitEncodes(d: DriverState, c: Command, now: int)
    requires Inv(d.session) && HoldsSendable(d.session.store) && (Trackable(c) ==> Sendable(c))
    ensures SendsWell(OnSubmit(d.session, c, now).0, OnSubmit(d.session, c, now).1)
  {
    SubmitHolds(d.session, c, now);
    if Trackable(c) {
      assert Step(d, Submit(c, now)).1 == OnSubmit(d.session, c, now).1;
      SubmitEncodesIff(d, c, now);
    } else {
      assert PacketsIn(Ok([])) == [];
    }
  }

  lemma {:induction false} SubmitHolds(s: Session, c: Command, now: int)
    requires HoldsSendable(s.store) && (Trackable(c) ==> Sendable(c))
    ensures HoldsSendable(OnSubmit(s, c, now).0.store)
  {
    if Trackable(c) {
      CommandSendable(s, c);
      SubmitOutput(s, c, now);
    }
  }

  lemma {:induction false} IncomingEncodes(s: Session, packet: Packet, now: int)
    requires Inv(s) && HoldsSendable(s.store)
    ensures SendsWell(OnIncoming(s, packet, now).0, OnIncoming(s, packet, now).1)
  {
    match packet {
      case PubAck(pkid) => PubAckEncodes(s, pkid, now);
      case PubComp(pkid) => PubCompEncodes(s, pkid, now);
      case _ =>
        OtherIncomingHolds(s, packet, now);
        OtherIncomingEncodes(s, packet, now);
    }
  }

  lemma {:induction false} RestoreEncodes(s: Session, now: int)
    requires Inv(s) && HoldsSendable(s.store)
    ensures SendsWell(OnRestored(s, now).0, OnRestored(s, now).1)
  {
    var start := ReplayStart(s, now);
    ReplayEncodes(start, s.store.pending);
    SentPacketsOfSends(Replay(start, s.store.pending).1);
  }

  lemma {:induction false} StepEncodes(d: DriverState, e: Event)
    requires Inv(d.session) && HoldsSendable(d.session.store) && SendableEvent(e)
    ensures SendsWell(Step(d, e).0.session, Step(d, e).1)
  {
    match e {
      case Tick(now) => TickEncodes(d, now);
      case Submit(c, now) => SubmitEncodes(d, c, now);
      case Incoming(packet, now) => IncomingEncodes(d.session, packet, now);
      case ConnectionLost(clean) =>
        LossSendable(d.session, clean);
        ShortLists([TriggerReconnect]);
      case ConnectionRestored(now) => RestoreEncodes(d.session, now);
    }
  }

  // If every submitted command is sendable, every packet of every run can be encoded.
  lemma {:induction false} RunEncodes(d: DriverState, es: seq<Event>)
    requires Inv(d.session) && HoldsSendable(d.session.store)
    requires forall i :: 0 <= i < |es| ==> SendableEvent(es[i])
    ensures HoldsSendable(Run(d, es).0.session.store)
    ensures forall i :: 0 <= i < |es| ==> AllEncode(PacketsIn(Run(d, es).1[i]))
    decreases es
  {
    if es != [] {
      StepKeepsInv(d, es[0]);
      StepEncodes(d, es[0]);
      var (d1, out) := Step(d, es[0]);
      RunEncodes(d1, es[1..]);
      assert Run(d, es).1 == [out] + Run(d1, es[1..]).1;
    }
  }
}
