// Which publishes go out with DUP set. The code sets it on every QoS 1 and QoS 2 publish
// that does not leave in the very event that submitted it, sent before or not; section
// 3.3.1.1 of MQTT 3.1.1 asks for 0 on a first delivery.
module DupFlags {
  import opened Bytes
  import opened Types
  import opened Wrappers
  import opened PacketIds
  import opened Inflight
  import opened SessionState
  import opened Driver
  import opened SessionInvariant
  import opened Conservation
  import opened ReplayLosses
  import opened RunConservation
  import opened Reconnect
  import opened OfflineBacklog
  import opened SlotsAndWire
  import opened Collision

  // DUP is the submitter's in the event of the submission, and set in every other event.
  ghost predicate DupRule(e: Event, packets: seq<Packet>) {
    forall i :: 0 <= i < |packets| && Tracked(packets[i]) ==>
      packets[i].publish.dup == if e.Submit? then e.command.Publish? && e.command.publish.dup else true
  }

  predicate Tracked(packet: Packet) {
    packet.Publish? && packet.publish.qos != AtMostOnce
  }

  // A submitted command goes out at once, as it was given but for its id, exactly when the
  // session is active and the command needs no slot or finds its own.
  lemma {:induction false} SubmitSends(d: DriverState, c: Command, now: int)
    requires Inv(d.session) && Trackable(c)
    ensures var numbered := AssignPkid(d.session.pool, c).1;
            PacketsIn(Step(d, Submit(c, now)).1)
            == if d.session.active && (NeedsAck(c) ==> HasRoomAt(d.session.store, PkidOf(numbered)))
               then [PacketOf(numbered)] else []
  {
    SubmitOutput(d.session, c, now);
    if d.session.active && NeedsAck(c) {
      AdmittedIff(d.session.store, OpOf(AssignPkid(d.session.pool, c).1));
    }
  }

  lemma {:induction false} AdmittedIff(st: Store, op: Op)
    ensures Admit(st, op).1 <==> HasRoomAt(st, PkidOf(op.command))
  {
  }

  lemma {:induction false} ReplaySetsDup(s: Session, ops: seq<Op>)
    requires QueueOk(ops)
    ensures forall i :: 0 <= i < |Replay(s, ops).1| && Tracked(Replay(s, ops).1[i]) ==> Replay(s, ops).1[i].publish.dup
    decreases ops
  {
    if ops != [] {
      var (s1, sent) := ReplayOne(s, ops[0]);
      ReplaySetsDup(s1, ops[1..]);
      assert forall i :: 0 <= i < |sent| && Tracked(sent[i]) ==> sent[i].publish.dup;
    }
  }

  lemma {:induction false} IncomingSetsDup(s: Session, packet: Packet, now: int)
    requires Inv(s)
    ensures DupRule(Incoming(packet, now), PacketsIn(OnIncoming(s, packet, now).1))
  {
    var s1 := s.(lastIncoming := now);
    match packet {
      case PubAck(pkid) =>
        var (s', r) := AfterPubAck(s1, pkid);
        if r.Ok? {
          PubAckPromotes(s1, pkid);
          AckedSends(s', now, r.value);
        }
      case PubComp(pkid) =>
        var (s', r) := AfterPubComp(s1, pkid);
        if r.Ok? {
          PubCompPromotes(s1, pkid);
          AckedSends(s', now, r.value);
        }
      case _ => OtherSendsNoPublish(s, packet, now);
    }
  }

  lemma {:induction false} OtherSendsNoPublish(s: Session, packet: Packet, now: int)
    requires Inv(s) && !packet.PubAck? && !packet.PubComp?
    ensures forall i :: 0 <= i < |PacketsIn(OnIncoming(s, packet, now).1)| ==>
              !PacketsIn(OnIncoming(s, packet, now).1)[i].Publish?
  {
    var out := OnIncoming(s, packet, now).1;
    if out.Ok? && out.value != [] {
      ShortLists(out.value);
    }
  }

  lemma {:induction false} StepDup(d: DriverState, e: Event)
    requires Inv(d.session)
    ensures DupRule(e, PacketsIn(Step(d, e).1))
  {
    match e {
      case Submit(c, now) =>
        if Trackable(c) {
          SubmitSends(d, c, now);
        }
      case ConnectionRestored(now) =>
        var start := ReplayStart(d.session, now);
        ReplaySetsDup(start, d.session.store.pending);
        SentPacketsOfSends(Replay(start, d.session.store.pending).1);
      case Incoming(packet, now) => IncomingSetsDup(d.session, packet, now);
      case _ =>
        if Step(d, e).1.value != [] {
          ShortLists(Step(d, e).1.value);
        }
    }
  }

  // Over any run: a QoS 1 or QoS 2 publish carries DUP if and only if it leaves in another
  // event than its submission, or was submitted with DUP.
  lemma {:induction false} RunDup(d: DriverState, es: seq<Event>)
    requires Inv(d.session)
    ensures forall i :: 0 <= i < |es| ==> DupRule(es[i], PacketsIn(Run(d, es).1[i]))
    decreases es
  {
    if es != [] {
      StepKeepsInv(d, es[0]);
      StepDup(d, es[0]);
      var (d1, out) := Step(d, es[0]);
      RunDup(d1, es[1..]);
      assert Run(d, es).1 == [out] + Run(d1, es[1..]).1;
      forall i | 0 <= i < |es|
        ensures DupRule(es[i], PacketsIn(Run(d, es).1[i]))
      {
        if i > 0 {
          assert es[i] == es[1..][i - 1] && Run(d, es).1[i] == Run(d1, es[1..]).1[i - 1];
        }
      }
    }
  }

  // So a first transmission may carry DUP: a publish submitted offline, without DUP, with
  // nothing sent in any event of the run so far, is the first packet of the connection and
  // has DUP set.
  lemma {:induction false} FirstDeliveryWithDup(max: uint16, keepAlive: nat, t0: int, clean: bool,
                                                cs: seq<Command>, now: int)
    requires max > 0 && Unnumbered(cs) && cs != [] && cs[0].Publish? && NeedsAck(cs[0]) && !cs[0].publish.dup
    ensures Inv(InitialSession(max, keepAlive, t0))
    ensures var (d, outs) := Run(DriverState(InitialSession(max, keepAlive, t0), clean), Submits(cs, now));
            var sent := PacketsIn(Step(d, ConnectionRestored(now)).1);
            && (forall i :: 0 <= i < |outs| ==> outs[i] == Ok([]))
            && sent != [] && sent[0] == Packet.Publish(cs[0].publish.(pkid := 1, dup := true))
  {
    var d0 := DriverState(InitialSession(max, keepAlive, t0), clean);
    InitialInv(max, keepAlive, t0);
    OfflineQueues(d0, cs, now);
    FreshOffline(max, keepAlive, t0, clean, cs, now);
    QueuedKeepsCommands(Pool(0, max), cs);
    assert Queued(Pool(0, max), cs)[0] == OpOf(WithPkid(cs[0], 1));
    FirstOfConnection(Run(d0, Submits(cs, now)).0, now);
  }

  lemma {:induction false} FirstOfConnection(d: DriverState, now: int)
    requires Inv(d.session) && EmptyTable(d.session.store) && d.session.store.pending != []
    requires d.session.store.maxInflight > 0 && CountUp(d.session.store.pending, 0, d.session.store.maxInflight)
    ensures var ops, sent := d.session.store.pending, PacketsIn(Step(d, ConnectionRestored(now)).1);
            sent != [] && sent[0] == Redelivered(ops[0]).packet
  {
    var ops, start := d.session.store.pending, ReplayStart(d.session, now);
    FirstConnection(d, now);
    SentPacketsOfSends(Replay(start, ops).1);
    FirstOut(start, Replay(start, ops), ops);
  }

  lemma {:induction false} FirstOut(s: Session, r: (Session, seq<Packet>), ops: seq<Op>)
    requires ops != [] && QueueOk(ops) && s.store.maxInflight > 0 && Drained(s, r, ops, 0)
    ensures r.1 != [] && r.1[0] == Redelivered(ops[0]).packet
  {
    SplitsQueue(ops, s.store.maxInflight);
  }
}
