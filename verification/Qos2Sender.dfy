// The sender's side of QoS 2 (MQTT 3.1.1, section 4.3.3): PUBREC, PUBREL, PUBCOMP in order.
module Qos2Sender {
  import opened Bytes
  import opened Types
  import opened Wrappers
  import opened PacketIds
  import opened Inflight
  import opened SessionState
  import opened Driver
  import opened SessionInvariant
  import opened Collision

  function Flag(flags: seq<bool>, p: uint16): nat {
    if p < |flags| && flags[p] then 1 else 0
  }

  // 1 if the actions send PUBREL p.
  function SendsPubRel(out: Outcome, p: uint16): nat {
    if out.Ok? && Send(PubRel(p)) in out.value then 1 else 0
  }

  predicate IsPubCompFor(a: Action, p: uint16) {
    a.CompleteFor? && a.completion.PubComp? && a.completion.pkid == p
  }

  // 1 if the actions report a PUBCOMP completion for p.
  function ReportsPubComp(out: Outcome, p: uint16): nat {
    if out.Ok? && exists i :: 0 <= i < |out.value| && IsPubCompFor(out.value[i], p) then 1 else 0
  }

  ghost function PubRels(outs: seq<Outcome>, p: uint16): nat {
    if outs == [] then 0 else SendsPubRel(outs[0], p) + PubRels(outs[1..], p)
  }

  ghost function PubComps(outs: seq<Outcome>, p: uint16): nat {
    if outs == [] then 0 else ReportsPubComp(outs[0], p) + PubComps(outs[1..], p)
  }

  // A replay sends publishes, subscribes and unsubscribes only.
  lemma {:induction false} ReplaySendsOps(s: Session, ops: seq<Op>)
    ensures forall i :: 0 <= i < |Replay(s, ops).1| ==>
              Replay(s, ops).1[i].Publish? || Replay(s, ops).1[i].Subscribe? || Replay(s, ops).1[i].Unsubscribe?
    decreases ops
  {
    if ops != [] {
      ReplaySendsOps(ReplayOne(s, ops[0]).0, ops[1..]);
    }
  }

  lemma {:induction false} ReplayKeepsFlags(s: Session, ops: seq<Op>)
    ensures Replay(s, ops).0.store.outgoingRel == s.store.outgoingRel
    ensures Replay(s, ops).0.store.incomingPub == s.store.incomingPub
    decreases ops
  {
    if ops != [] {
      ReplayKeepsFlags(ReplayOne(s, ops[0]).0, ops[1..]);
    }
  }

  lemma {:induction false} AckPhases(s: Session, packet: Packet, now: int, p: uint16)
    requires Inv(s) && (packet.PubAck? || packet.PubComp?)
    ensures var (s', out) := OnIncoming(s, packet, now);
            && SendsPubRel(out, p) == 0
            && ReportsPubComp(out, p) + Flag(s'.store.outgoingRel, p) == Flag(s.store.outgoingRel, p)
  {
    var (s', out) := OnIncoming(s, packet, now);
    if packet.PubComp? && AfterPubComp(s.(lastIncoming := now), packet.pkid).1.Ok? {
      assert IsPubCompFor(out.value[0], packet.pkid);
    }
  }

  lemma {:induction false} OtherPhases(s: Session, packet: Packet, now: int, p: uint16)
    requires Inv(s) && !packet.PubAck? && !packet.PubComp?
    ensures var (s', out) := OnIncoming(s, packet, now);
            && ReportsPubComp(out, p) == 0
            && Flag(s'.store.outgoingRel, p) <= Flag(s.store.outgoingRel, p) + SendsPubRel(out, p)
  {
    var (s', out) := OnIncoming(s, packet, now);
    if packet.PubRec? && out.Ok? {
      assert out.value[0] == Send(PubRel(packet.pkid));
    }
  }

  lemma {:induction false} StepPhases(d: DriverState, e: Event, p: uint16)
    requires Inv(d.session)
    ensures ReportsPubComp(Step(d, e).1, p) + Flag(Step(d, e).0.session.store.outgoingRel, p)
         <= Flag(d.session.store.outgoingRel, p) + SendsPubRel(Step(d, e).1, p)
  {
    match e {
      case ConnectionRestored(now) =>
        ReplayKeepsFlags(ReplayStart(d.session, now), d.session.store.pending);
      case Incoming(packet, now) =>
        if packet.PubAck? || packet.PubComp? {
          AckPhases(d.session, packet, now, p);
        } else {
          OtherPhases(d.session, packet, now, p);
        }
      case _ =>
    }
  }

  // The exchange runs its course: on an occupied slot PUBREC is answered with PUBREL; then,
  // and only then, PUBCOMP completes the op to its owner and ends the exchange.
  lemma {:induction false} ExchangeCompletes(s: Session, p: uint16)
    requires Inv(s) && InRange(s, p) && s.store.outgoing[p].Some?
    ensures AfterPubComp(s, p).1.Ok? <==> s.store.outgoingRel[p]
    ensures AfterPubRec(s, p).1 == Ok(PubRel(p))
    ensures var s1 := AfterPubRec(s, p).0;
            var (s2, done) := AfterPubComp(s1, p);
            var op := s.store.outgoing[p].value;
            && s1.store.outgoing == s.store.outgoing
            && done.Ok? && done.value.clientId == op.command.clientId
            && done.value.completion == Completion.PubComp(op.command.tokenId, p)
            && s2.store.outgoingRel == s1.store.outgoingRel[p as int := false]
  {
    var s1 := AfterPubRec(s, p).0;
    FlagsKeepInv(s, p);
    PubCompPromotes(s1, p);
  }

  // In every run, PUBCOMP completions for p, plus a handshake open on p, never exceed the
  // PUBRELs sent for p plus the handshake open at the start.
  lemma {:induction false} CompletionsFollowPubRels(d: DriverState, es: seq<Event>, p: uint16)
    requires Inv(d.session)
    ensures PubComps(Run(d, es).1, p) + Flag(Run(d, es).0.session.store.outgoingRel, p)
         <= PubRels(Run(d, es).1, p) + Flag(d.session.store.outgoingRel, p)
    decreases es
  {
    if es != [] {
      StepKeepsInv(d, es[0]);
      StepPhases(d, es[0], p);
      var (d1, out) := Step(d, es[0]);
      CompletionsFollowPubRels(d1, es[1..], p);
      assert ([out] + Run(d1, es[1..]).1)[1..] == Run(d1, es[1..]).1;
    }
  }

  // A PUBREL goes out only on a PUBREC for an occupied slot.
  lemma {:induction false} PubRelAnswersPubRec(d: DriverState, e: Event, p: uint16)
    requires Inv(d.session)
    ensures SendsPubRel(Step(d, e).1, p) == 1
       <==> e.Incoming? && e.packet == PubRec(p) && SlotAt(d.session.store, p).Some?
  {
    match e {
      case ConnectionRestored(now) =>
        ReplaySendsOps(ReplayStart(d.session, now), d.session.store.pending);
      case Incoming(packet, now) =>
        if packet.PubRec? && Step(d, e).1.Ok? {
          assert Step(d, e).1.value[0] == Send(PubRel(packet.pkid));
        }
      case _ =>
    }
  }

  // ---------- a broker that acknowledges each slot by its kind ----------

  predicate IsQos(op: Option<Op>, qos: Qos) {
    op.Some? && op.value.command.Publish? && op.value.command.publish.qos == qos
  }

  // An open handshake belongs to a QoS 2 publish in its slot.
  ghost predicate PhasesMatch(st: Store) {
    forall p: uint16 :: p < |st.outgoingRel| && st.outgoingRel[p] ==> IsQos(SlotAt(st, p), ExactlyOnce)
  }

  // Acknowledgements of occupied slots fit what the slot holds.
  ghost predicate AcksByKind(st: Store, e: Event) {
    e.Incoming? ==>
      match e.packet
      case PubAck(p) => SlotAt(st, p).Some? ==> IsQos(SlotAt(st, p), AtLeastOnce)
      case PubRec(p) => SlotAt(st, p).Some? ==> IsQos(SlotAt(st, p), ExactlyOnce)
      case PubComp(p) => SlotAt(st, p).Some? ==> IsQos(SlotAt(st, p), ExactlyOnce)
      case SubAck(p) => SlotAt(st, p.pkid).Some? ==> SlotAt(st, p.pkid).value.command.Subscribe?
      case UnsubAck(p) => SlotAt(st, p).Some? ==> SlotAt(st, p).value.command.Unsubscribe?
      case _ => true
  }

  // Inserts leave occupied slots as they are.
  lemma {:induction false} ReplayKeepsSlots(s: Session, ops: seq<Op>)
    ensures |Replay(s, ops).0.store.outgoing| == |s.store.outgoing|
    ensures forall p :: 0 <= p < |s.store.outgoing| && s.store.outgoing[p].Some? ==>
              Replay(s, ops).0.store.outgoing[p] == s.store.outgoing[p]
    decreases ops
  {
    if ops != [] {
      ReplayKeepsSlots(ReplayOne(s, ops[0]).0, ops[1..]);
    }
  }

  lemma {:induction false} CommandKeepsSlots(s: Session, c: Command)
    requires Trackable(c)
    ensures var st, st' := s.store, AfterCommand(s, c).0.store;
            && st'.outgoingRel == st.outgoingRel
            && (forall p: uint16 :: SlotAt(st, p).Some? ==> SlotAt(st', p) == SlotAt(st, p))
  {
  }

  // A loss that keeps the session breaks the tie exactly when a handshake is open: the
  // slots are emptied, the flags stay.
  lemma {:induction false} LossKeepsPhasesIff(s: Session, clean: bool)
    requires Inv(s)
    ensures PhasesMatch(AfterLoss(s, clean).store)
       <==> clean || (forall p: uint16 :: p < |s.store.outgoingRel| ==> !s.store.outgoingRel[p])
  {
    var st := AfterLoss(s, clean).store;
    if !clean && PhasesMatch(st) {
      forall p: uint16 | p < |s.store.outgoingRel|
        ensures !s.store.outgoingRel[p]
      {
        assert SlotAt(st, p).None?;
      }
    }
  }
}
