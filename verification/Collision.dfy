// The one-place park: promotion cannot fail, and a parked op waits behind its slot.
module Collision {
  import opened Bytes
  import opened Types
  import opened Wrappers
  import opened PacketIds
  import opened Inflight
  import opened SessionState
  import opened Driver
  import opened SessionInvariant

  ghost predicate ParkedOn(st: Store, pkid: uint16) {
    st.collision.Some? && st.collision.value.pkid == pkid
  }

  // What an accepted PUBACK or PUBCOMP on pkid leaves behind: the op parked on pkid, and
  // no other, takes over the slot and goes out at once, with DUP if it is a publish.
  ghost predicate Promoted(st: Store, st': Store, pkid: uint16, next: Option<Packet>)
    requires pkid < |st.outgoing|
  {
    if ParkedOn(st, pkid) then
      var op := st.collision.value.op;
      && st'.outgoing == st.outgoing[pkid as int := Some(op)]
      && st'.collision == None
      && st'.inflight == st.inflight
      && next == Some(PacketOf(WithDup(op.command)))
    else
      && st'.outgoing == st.outgoing[pkid as int := None]
      && st'.collision == st.collision
      && st'.inflight == st.inflight - 1
      && next == None
  }

  lemma {:induction false} PubAckPromotes(s: Session, pkid: uint16)
    requires Inv(s) && AfterPubAck(s, pkid).1.Ok?
    ensures pkid < |s.store.outgoing| && s.store.outgoing[pkid].Some?
    ensures Promoted(s.store, AfterPubAck(s, pkid).0.store, pkid, AfterPubAck(s, pkid).1.value.nextPacket)
  {
    if ParkedOn(s.store, pkid) {
      assert s.store.outgoing[pkid as int := None][pkid as int := Some(s.store.collision.value.op)]
          == s.store.outgoing[pkid as int := Some(s.store.collision.value.op)];
    }
  }

  lemma {:induction false} PubCompPromotes(s: Session, pkid: uint16)
    requires Inv(s) && AfterPubComp(s, pkid).1.Ok?
    ensures pkid < |s.store.outgoing| && s.store.outgoing[pkid].Some? && s.store.outgoingRel[pkid]
    ensures Promoted(s.store, AfterPubComp(s, pkid).0.store, pkid, AfterPubComp(s, pkid).1.value.nextPacket)
    ensures !AfterPubComp(s, pkid).0.store.outgoingRel[pkid]
  {
    if ParkedOn(s.store, pkid) {
      assert s.store.outgoing[pkid as int := None][pkid as int := Some(s.store.collision.value.op)]
          == s.store.outgoing[pkid as int := Some(s.store.collision.value.op)];
    }
  }

  // A parked op waits for an occupied slot to be freed.
  ghost predicate BehindSlot(st: Store) {
    st.collision.Some? ==> SlotAt(st, st.collision.value.pkid).Some?
  }

  // A SUBACK or UNSUBACK that empties the slot a parked op waits for.
  ghost predicate Strands(s: Session, e: Event) {
    e.Incoming? && match e.packet
      case SubAck(p) => ParkedOn(s.store, p.pkid)
      case UnsubAck(pkid) => ParkedOn(s.store, pkid)
      case _ => false
  }

  lemma {:induction false} ReplayKeepsBehind(s: Session, ops: seq<Op>)
    requires BehindSlot(s.store)
    ensures BehindSlot(Replay(s, ops).0.store)
    decreases ops
  {
    if ops != [] {
      ReplayKeepsBehind(ReplayOne(s, ops[0]).0, ops[1..]);
    }
  }

  lemma {:induction false} AcksKeepBehind(s: Session, pkid: uint16)
    requires Inv(s) && BehindSlot(s.store)
    ensures BehindSlot(AfterPubAck(s, pkid).0.store) && BehindSlot(AfterPubComp(s, pkid).0.store)
  {
    if AfterPubAck(s, pkid).1.Ok? {
      PubAckPromotes(s, pkid);
    }
    if AfterPubComp(s, pkid).1.Ok? {
      PubCompPromotes(s, pkid);
    }
  }

  lemma {:induction false} TopicAckStrandsIff(s: Session, packet: Packet, now: int)
    requires Inv(s) && BehindSlot(s.store) && (packet.SubAck? || packet.UnsubAck?)
    ensures BehindSlot(OnIncoming(s, packet, now).0.store) <==> !Strands(s, Incoming(packet, now))
  {
  }

  lemma {:induction false} OtherKeepsBehind(s: Session, packet: Packet, now: int)
    requires Inv(s) && BehindSlot(s.store)
    requires !packet.PubAck? && !packet.PubComp? && !packet.SubAck? && !packet.UnsubAck?
    ensures BehindSlot(OnIncoming(s, packet, now).0.store)
  {
  }

  lemma {:induction false} IncomingStrandsIff(s: Session, packet: Packet, now: int)
    requires Inv(s) && BehindSlot(s.store)
    ensures BehindSlot(OnIncoming(s, packet, now).0.store) <==> !Strands(s, Incoming(packet, now))
  {
    match packet {
      case PubAck(pkid) => AcksKeepBehind(s.(lastIncoming := now), pkid);
      case PubComp(pkid) => AcksKeepBehind(s.(lastIncoming := now), pkid);
      case SubAck(_) => TopicAckStrandsIff(s, packet, now);
      case UnsubAck(_) => TopicAckStrandsIff(s, packet, now);
      case _ => OtherKeepsBehind(s, packet, now);
    }
  }

  lemma {:induction false} CommandKeepsBehind(s: Session, c: Command)
    requires BehindSlot(s.store) && Trackable(c)
    ensures BehindSlot(AfterCommand(s, c).0.store)
  {
  }

  // Only a SUBACK or UNSUBACK on the parked op's id strands it: these release the slot
  // without promoting.
  lemma {:induction false} StepStrandsIff(d: DriverState, e: Event)
    requires Inv(d.session) && BehindSlot(d.session.store)
    ensures BehindSlot(Step(d, e).0.session.store) <==> !Strands(d.session, e)
  {
    match e {
      case ConnectionRestored(now) => ReplayKeepsBehind(ReplayStart(d.session, now), d.session.store.pending);
      case Submit(c, now) =>
        if Trackable(c) {
          CommandKeepsBehind(d.session, c);
        }
      case Incoming(packet, now) => IncomingStrandsIff(d.session, packet, now);
      case _ =>
    }
  }

  ghost predicate NoTopicAcks(es: seq<Event>) {
    forall i :: 0 <= i < |es| ==> !(es[i].Incoming? && (es[i].packet.SubAck? || es[i].packet.UnsubAck?))
  }

  // In a run without SUBACK and UNSUBACK a parked op always sits behind an occupied slot.
  lemma {:induction false} RunKeepsBehind(d: DriverState, es: seq<Event>)
    requires Inv(d.session) && BehindSlot(d.session.store) && NoTopicAcks(es)
    ensures BehindSlot(Run(d, es).0.session.store)
    decreases es
  {
    if es != [] {
      StepKeepsInv(d, es[0]);
      StepStrandsIff(d, es[0]);
      RunKeepsBehind(Step(d, es[0]).0, es[1..]);
    }
  }
}
