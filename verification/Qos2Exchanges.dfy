// QoS 2 exchanges across losses (MQTT 3.1.1, sections 4.3.3 and 4.4): which op holds each slot
// after a reconnect, and when the op that was confirmed is the op that completes.
module Qos2Exchanges {
  import opened Bytes
  import opened Types
  import opened Wrappers
  import opened PacketIds
  import opened Inflight
  import opened SessionState
  import opened Driver
  import opened SessionInvariant
  import opened Conservation
  import opened ReplayLosses
  import opened RunConservation
  import opened Collision
  import opened Reconnect
  import opened Qos2Sender

  // ---------- the table after a reconnect ----------

  // The first op of a queue that goes for slot p.
  function FirstWithId(ops: seq<Op>, p: uint16): Option<Op> {
    if ops == [] then None
    else if NeedsAck(ops[0].command) && PkidOf(ops[0].command) == p then Some(ops[0])
    else FirstWithId(ops[1..], p)
  }

  function AsReplayed(o: Option<Op>): Option<Op> {
    if o.Some? && Trackable(o.value.command) then Some(Redelivered(o.value)) else None
  }

  // A replay gives a free slot to the first op that goes for it.
  lemma {:induction false} ReplayFillsFirst(s: Session, ops: seq<Op>, p: uint16)
    requires Inv(s) && QueueOk(ops) && 1 <= p <= s.store.maxInflight && SlotAt(s.store, p).None?
    ensures SlotAt(Replay(s, ops).0.store, p) == AsReplayed(FirstWithId(ops, p))
    decreases ops
  {
    if ops != [] {
      var op, s1 := ops[0], ReplayOne(s, ops[0]).0;
      ReplayOneKeepsInv(s, op);
      TurnFills(s, op, p);
      if SlotAt(s1.store, p).Some? {
        ReplayKeepsSlots(s1, ops[1..]);
      } else {
        ReplayFillsFirst(s1, ops[1..], p);
      }
    }
  }

  lemma {:induction false} TurnFills(s: Session, op: Op, p: uint16)
    requires Inv(s) && QueuedOp(op) && 1 <= p <= s.store.maxInflight && SlotAt(s.store, p).None?
    ensures var st' := ReplayOne(s, op).0.store;
            st'.maxInflight == s.store.maxInflight
            && SlotAt(st', p) == if NeedsAck(op.command) && PkidOf(op.command) == p then Some(Redelivered(op)) else None
  {
    FreeIdHasRoom(s.store, p);
  }

  lemma {:induction false} FirstAppend(a: seq<Op>, b: seq<Op>, p: uint16)
    ensures FirstWithId(a + b, p) == if FirstWithId(a, p).Some? then FirstWithId(a, p) else FirstWithId(b, p)
  {
    if a == [] {
      assert a + b == b;
    } else {
      assert (a + b)[0] == a[0] && (a + b)[1..] == a[1..] + b;
      FirstAppend(a[1..], b, p);
    }
  }

  lemma {:induction false} FirstDrained(slots: seq<Option<Op>>, base: nat, p: uint16)
    requires forall i :: 0 <= i < |slots| && slots[i].Some? ==> TrackedOp(slots[i].value, base + i)
    ensures FirstWithId(DrainSlots(slots), p) == if base <= p < base + |slots| then slots[p - base] else None
  {
    if slots != [] {
      FirstDrained(slots[1..], base + 1, p);
      if slots[0].Some? {
        var op, rest := slots[0].value, DrainSlots(slots[1..]);
        assert TrackedOp(op, base + 0);
        assert ([op] + rest)[0] == op && ([op] + rest)[1..] == rest;
      } else {
        assert [] + DrainSlots(slots[1..]) == DrainSlots(slots[1..]);
      }
    }
  }

  // The op that will hold slot p after a reconnect: the first queued op with id p, else the
  // slot's own, else the op parked on p.
  function NextHolder(st: Store, p: uint16): Option<Op> {
    if FirstWithId(st.pending, p).Some? then FirstWithId(st.pending, p)
    else if SlotAt(st, p).Some? then SlotAt(st, p)
    else if st.collision.Some? && st.collision.value.pkid == p then Some(st.collision.value.op)
    else None
  }

  lemma {:induction false} FirstInBacklog(st: Store, p: uint16)
    requires StoreInv(st) && 1 <= p <= st.maxInflight
    ensures FirstWithId(Backlog(st), p) == NextHolder(st, p)
  {
    var drained, parked := DrainSlots(st.outgoing), AsList(ParkedOp(st));
    assert Backlog(st) == (st.pending + drained) + parked;
    FirstAppend(st.pending + drained, parked, p);
    FirstAppend(st.pending, drained, p);
    FirstDrained(st.outgoing, 0, p);
    if st.collision.Some? {
      assert parked[1..] == [];
    }
  }

  // Every slot after a loss and a restoration, whatever was queued, sent or parked.
  lemma {:induction false} ReconnectRefills(s: Session, clean: bool, now: int, p: uint16)
    requires Inv(s) && 1 <= p <= s.store.maxInflight
    ensures SlotAt(Reconnected(s, clean, now).0.store, p) == AsReplayed(NextHolder(s.store, p))
  {
    LossKeepsInv(s, clean);
    ReconnectReplays(s, clean, now);
    FirstInBacklog(s.store, p);
    ReplayFillsFirst(ReplayStart(AfterLoss(s, clean), now), Backlog(s.store), p);
  }

  lemma {:induction false} ReplayKeepsRest(s: Session, ops: seq<Op>)
    requires Inv(s) && QueueOk(ops)
    ensures var s' := Replay(s, ops).0;
            s'.pool == s.pool && s'.store.maxInflight == s.store.maxInflight
    decreases ops
  {
    if ops != [] {
      ReplayOneKeepsInv(s, ops[0]);
      ReplayKeepsRest(ReplayOne(s, ops[0]).0, ops[1..]);
    }
  }

  // A restoration by itself: occupied slots stay, free ones go to the first queued op with
  // their id; flags and ids stay; whatever comes out is sent.
  lemma {:induction false} RestorationRefills(d: DriverState, now: int, p: uint16)
    requires Inv(d.session) && 1 <= p <= d.session.store.maxInflight
    ensures var st, st' := d.session.store, Step(d, ConnectionRestored(now)).0.session.store;
            && SlotAt(st', p) == (if SlotAt(st, p).Some? then SlotAt(st, p) else AsReplayed(FirstWithId(st.pending, p)))
            && st'.outgoingRel == st.outgoingRel && st'.incomingPub == st.incomingPub
            && st'.maxInflight == st.maxInflight
            && Step(d, ConnectionRestored(now)).0.session.pool == d.session.pool
    ensures var out := Step(d, ConnectionRestored(now)).1;
            out.Ok? && forall i :: 0 <= i < |out.value| ==> out.value[i].Send?
  {
    var start, ops := ReplayStart(d.session, now), d.session.store.pending;
    ReplayKeepsRest(start, ops);
    ReplayKeepsFlags(start, ops);
    if SlotAt(d.session.store, p).Some? {
      ReplayKeepsSlots(start, ops);
    } else {
      ReplayFillsFirst(start, ops, p);
    }
  }

  // ---------- exchanges that survive ----------

  // The same op, but for DUP.
  predicate SameOp(a: Op, b: Op) {
    WithDup(a.command) == WithDup(b.command)
  }

  // No queued op goes for slot p, or the first that does is the slot's own.
  predicate KeepsOwn(st: Store, p: uint16) {
    FirstWithId(st.pending, p).Some? && SlotAt(st, p).Some? ==>
      SameOp(FirstWithId(st.pending, p).value, SlotAt(st, p).value)
  }

  // An exchange open on p, a loss that keeps the session, and a restoration. The flag stays
  // and PUBCOMP p is accepted, for the op that then holds the slot; that is the op of the
  // exchange if and only if no other queued op goes for slot p first.
  lemma {:induction false} ReconnectKeepsExchangeIff(s: Session, now: int, p: uint16)
    requires Inv(s) && InRange(s, p) && s.store.outgoingRel[p] && s.store.outgoing[p].Some?
    ensures var s' := Reconnected(s, false, now).0;
            && Inv(s') && InRange(s', p) && s'.store.outgoingRel[p] && s'.store.outgoing[p].Some?
            && AfterPubComp(s', p).1.Ok?
            && (var op := s'.store.outgoing[p].value;
                && AfterPubComp(s', p).1.value.clientId == op.clientId
                && AfterPubComp(s', p).1.value.completion == Completion.PubComp(op.tokenId, p)
                && (SameOp(op, s.store.outgoing[p].value) <==> KeepsOwn(s.store, p)))
  {
    var s' := Reconnected(s, false, now).0;
    var lost := AfterLoss(s, false);
    LossKeepsInv(s, false);
    RestoreKeepsInv(lost, now);
    ReconnectReplays(s, false, now);
    ReplayKeepsFlags(ReplayStart(lost, now), Backlog(s.store));
    ReplayKeepsSlots(ReplayStart(lost, now), Backlog(s.store));
    ReconnectRefills(s, false, now, p);
    FirstIsQueued(s.store.pending, p);
  }

  lemma {:induction false} FirstIsQueued(ops: seq<Op>, p: uint16)
    requires QueueOk(ops)
    ensures FirstWithId(ops, p).Some? ==> QueuedOp(FirstWithId(ops, p).value)
  {
    if ops != [] {
      FirstIsQueued(ops[1..], p);
    }
  }

  // ---------- over runs ----------

  predicate IsOpen(st: Store, p: uint16) {
    1 <= p < |st.outgoingRel| && st.outgoingRel[p]
  }

  // Where an exchange's op waits: in its slot, or while the connection is down first in the
  // queue among those with its id.
  function Holder(s: Session, p: uint16): Option<Op> {
    if s.active then SlotAt(s.store, p) else FirstWithId(s.store.pending, p)
  }

  // The op in slot p when the last PUBREC for p was accepted.
  function Confirmed(last: Option<Op>, st: Store, e: Event, p: uint16): Option<Op> {
    if e.Incoming? && e.packet == PubRec(p) && SlotAt(st, p).Some? then SlotAt(st, p) else last
  }

  ghost function RunConfirmed(last: Option<Op>, d: DriverState, es: seq<Event>, p: uint16): Option<Op>
    requires Inv(d.session)
    decreases es
  {
    if es == [] then last
    else
      StepKeepsInv(d, es[0]);
      RunConfirmed(Confirmed(last, d.session.store, es[0], p), Step(d, es[0]).0, es[1..], p)
  }

  // An exchange open on p is that of the QoS 2 publish confirmed last.
  ghost predicate OwnExchange(last: Option<Op>, s: Session, p: uint16) {
    IsOpen(s.store, p) ==>
      IsQos(Holder(s, p), ExactlyOnce) && last.Some? && SameOp(Holder(s, p).value, last.value)
  }

  // The event loses the connection and keeps the session.
  predicate LosesKeeping(d: DriverState, e: Event) {
    match e
    case ConnectionLost(clean) => !clean
    case Tick(now) => !d.cleanSession && AfterTick(d.session, now).1.Err?
    case _ => false
  }

  // A loss that keeps the session meets no other op queued for the slot of an open exchange.
  ghost predicate FairLoss(d: DriverState, e: Event) {
    LosesKeeping(d, e) ==> forall p: uint16 :: IsOpen(d.session.store, p) ==> KeepsOwn(d.session.store, p)
  }

  ghost predicate FairRun(d: DriverState, es: seq<Event>)
    requires Inv(d.session)
    decreases es
  {
    es == [] ||
    (&& AcksByKind(d.session.store, es[0]) && FairLoss(d, es[0])
     && (StepKeepsInv(d, es[0]); FairRun(Step(d, es[0]).0, es[1..])))
  }

  lemma {:induction false} PubAckKeepsExchange(last: Option<Op>, s: Session, q: uint16, p: uint16)
    requires Inv(s) && s.active && OwnExchange(last, s, p)
    requires SlotAt(s.store, q).Some? ==> IsQos(SlotAt(s.store, q), AtLeastOnce)
    ensures OwnExchange(last, AfterPubAck(s, q).0, p)
  {
    if AfterPubAck(s, q).1.Ok? {
      PubAckPromotes(s, q);
    }
  }

  lemma {:induction false} PubCompKeepsExchange(last: Option<Op>, s: Session, q: uint16, p: uint16)
    requires Inv(s) && s.active && OwnExchange(last, s, p)
    ensures OwnExchange(last, AfterPubComp(s, q).0, p)
  {
    if AfterPubComp(s, q).1.Ok? {
      PubCompPromotes(s, q);
    }
  }

  lemma {:induction false} OtherKeepsExchange(last: Option<Op>, s: Session, packet: Packet, now: int, p: uint16)
    requires Inv(s) && s.active && AcksByKind(s.store, Incoming(packet, now))
    requires OwnExchange(last, s, p) && !packet.PubAck? && !packet.PubComp?
    ensures OwnExchange(Confirmed(last, s.store, Incoming(packet, now), p), OnIncoming(s, packet, now).0, p)
  {
    match packet {
      case SubAck(ack) => TopicAckKeepsExchange(last, s, ack.pkid, p);
      case UnsubAck(q) => TopicAckKeepsExchange(last, s, q, p);
      case _ =>
    }
  }

  // Releasing a slot that holds no publish.
  lemma {:induction false} TopicAckKeepsExchange(last: Option<Op>, s: Session, q: uint16, p: uint16)
    requires Inv(s) && s.active && OwnExchange(last, s, p)
    requires SlotAt(s.store, q).Some? ==> !SlotAt(s.store, q).value.command.Publish?
    ensures OwnExchange(last, s.(store := Released(s.store, q).0), p)
  {
  }

  // While the table is empty a packet from the broker finds nothing to acknowledge.
  lemma {:induction false} DownKeepsExchange(last: Option<Op>, s: Session, packet: Packet, now: int, p: uint16)
    requires Inv(s) && !s.active && EmptyTable(s.store) && OwnExchange(last, s, p)
    ensures OwnExchange(Confirmed(last, s.store, Incoming(packet, now), p), OnIncoming(s, packet, now).0, p)
  {
    var st, st' := s.store, OnIncoming(s, packet, now).0.store;
    assert st'.pending == st.pending && st'.outgoingRel == st.outgoingRel;
  }

  lemma {:induction false} IncomingKeepsExchange(last: Option<Op>, s: Session, packet: Packet, now: int, p: uint16)
    requires Inv(s) && EmptyWhileDown(s) && AcksByKind(s.store, Incoming(packet, now)) && OwnExchange(last, s, p)
    ensures OwnExchange(Confirmed(last, s.store, Incoming(packet, now), p), OnIncoming(s, packet, now).0, p)
  {
    if !s.active {
      DownKeepsExchange(last, s, packet, now, p);
    } else if packet.PubAck? {
      PubAckKeepsExchange(last, s.(lastIncoming := now), packet.pkid, p);
    } else if packet.PubComp? {
      PubCompKeepsExchange(last, s.(lastIncoming := now), packet.pkid, p);
    } else {
      OtherKeepsExchange(last, s, packet, now, p);
    }
  }

  lemma {:induction false} LossKeepsExchange(last: Option<Op>, s: Session, clean: bool, p: uint16)
    requires Inv(s) && EmptyWhileDown(s) && OwnExchange(last, s, p)
    requires !clean && IsOpen(s.store, p) ==> KeepsOwn(s.store, p)
    ensures OwnExchange(last, AfterLoss(s, clean), p)
  {
    if !clean && IsOpen(s.store, p) {
      FirstInBacklog(s.store, p);
    }
  }

  lemma {:induction false} SubmitKeepsExchange(last: Option<Op>, s: Session, c: Command, p: uint16)
    requires Inv(s) && Trackable(c) && OwnExchange(last, s, p)
    ensures OwnExchange(last, AfterCommand(s, c).0, p)
  {
    CommandKeepsSlots(s, c);
    if !s.active {
      FirstAppend(s.store.pending, [OpOf(AssignPkid(s.pool, c).1)], p);
    }
  }

  lemma {:induction false} RestoreKeepsExchange(last: Option<Op>, s: Session, now: int, p: uint16)
    requires Inv(s) && EmptyWhileDown(s) && OwnExchange(last, s, p)
    ensures OwnExchange(last, OnRestored(s, now).0, p)
  {
    var start := ReplayStart(s, now);
    ReplayKeepsFlags(start, s.store.pending);
    ReplayKeepsTimers(start, s.store.pending);
    if IsOpen(s.store, p) {
      if s.active {
        ReplayKeepsSlots(start, s.store.pending);
      } else {
        ReplayFillsFirst(start, s.store.pending, p);
      }
    }
  }

  lemma {:induction false} StepKeepsExchange(last: Option<Op>, d: DriverState, e: Event, p: uint16)
    requires Inv(d.session) && EmptyWhileDown(d.session) && OwnExchange(last, d.session, p)
    requires AcksByKind(d.session.store, e) && FairLoss(d, e)
    ensures OwnExchange(Confirmed(last, d.session.store, e, p), Step(d, e).0.session, p)
  {
    match e {
      case Tick(now) =>
        if AfterTick(d.session, now).1.Err? {
          LossKeepsExchange(last, d.session, d.cleanSession, p);
        }
      case Submit(c, now) =>
        if Trackable(c) {
          SubmitKeepsExchange(last, d.session, c, p);
        }
      case Incoming(packet, now) => IncomingKeepsExchange(last, d.session, packet, now, p);
      case ConnectionLost(clean) => LossKeepsExchange(last, d.session, clean, p);
      case ConnectionRestored(now) => RestoreKeepsExchange(last, d.session, now, p);
    }
  }

  lemma {:induction false} RunKeepsExchange(last: Option<Op>, d: DriverState, es: seq<Event>, p: uint16)
    requires Inv(d.session) && EmptyWhileDown(d.session) && FairRun(d, es) && OwnExchange(last, d.session, p)
    ensures OwnExchange(RunConfirmed(last, d, es, p), Run(d, es).0.session, p)
    decreases es
  {
    if es != [] {
      StepKeepsInv(d, es[0]);
      StepKeepsEmpty(d, es[0]);
      StepKeepsExchange(last, d, es[0], p);
      RunKeepsExchange(Confirmed(last, d.session.store, es[0], p), Step(d, es[0]).0, es[1..], p);
    }
  }

  // Against a broker that acknowledges by kind, through any losses but those that meet
  // another op queued for an open exchange's slot: a PUBCOMP completes the very op whose
  // PUBREC was the last accepted under its id.
  lemma {:induction false} CompletesConfirmed(last: Option<Op>, d: DriverState, es: seq<Event>, p: uint16)
    requires Inv(d.session) && EmptyWhileDown(d.session) && FairRun(d, es) && OwnExchange(last, d.session, p)
    ensures var s := Run(d, es).0.session;
            AfterPubComp(s, p).1.Ok? ==>
              SlotAt(s.store, p).Some? && RunConfirmed(last, d, es, p).Some?
              && SameOp(SlotAt(s.store, p).value, RunConfirmed(last, d, es, p).value)
  {
    RunKeepsExchange(last, d, es, p);
    RunKeepsEmpty(d, es);
  }

  // Every open exchange belongs to a QoS 2 publish, in its slot or in the queue.
  ghost predicate PhasesTied(s: Session) {
    forall p: uint16 :: IsOpen(s.store, p) ==> IsQos(Holder(s, p), ExactlyOnce)
  }

  // In such runs an open exchange on p means that slot p holds a QoS 2 publish; while the
  // connection is down, that a QoS 2 publish is the first to go for it.
  lemma {:induction false} OpenHandshakeHasPublish(d: DriverState, es: seq<Event>)
    requires Inv(d.session) && EmptyWhileDown(d.session) && PhasesTied(d.session) && FairRun(d, es)
    ensures PhasesTied(Run(d, es).0.session)
  {
    var s' := Run(d, es).0.session;
    forall p: uint16 | IsOpen(s'.store, p)
      ensures IsQos(Holder(s', p), ExactlyOnce)
    {
      RunKeepsExchange(Holder(d.session, p), d, es, p);
    }
  }

  // ---------- an exchange that does not survive ----------

  predicate Qos2Publish(c: Command) {
    c.Publish? && c.publish.qos == ExactlyOnce && c.publish.pkid == 0
  }

  // With a loss that keeps the session it need not: in a table of one slot, PUBREC is
  // accepted for a, b queues behind it, the reconnect replays b first, and the PUBCOMP
  // meant for a completes b, for which no PUBREC ever came.
  lemma {:induction false} StaleFlagCompletesAnother(keepAlive: nat, t0: int, a: Command, b: Command, now: int)
    requires Qos2Publish(a) && Qos2Publish(b)
    ensures Inv(InitialSession(1, keepAlive, t0))
    ensures var d0 := DriverState(InitialSession(1, keepAlive, t0), false);
            var es := [ConnectionRestored(now), Submit(a, now), Incoming(PubRec(1), now), Submit(b, now),
                       ConnectionLost(false), ConnectionRestored(now)];
            Step(Run(d0, es).0, Incoming(Packet.PubComp(1), now)).1
            == Ok([CompleteFor(b.clientId, Completion.PubComp(b.tokenId, 1))])
  {
    var d0 := DriverState(InitialSession(1, keepAlive, t0), false);
    var first := [ConnectionRestored(now), Submit(a, now), Incoming(PubRec(1), now), Submit(b, now)];
    var last := [ConnectionLost(false), ConnectionRestored(now)];
    QueuesBehind(keepAlive, t0, a, b, now);
    var d := Run(d0, first).0;
    OneSlotReconnect(d, OpOf(WithPkid(a, 1)), OpOf(WithPkid(b, 1)), now);
    RunThen(d0, first, last);
    RunTwo(d, last[0], last[1]);
    assert first + last == [first[0], first[1], first[2], first[3], last[0], last[1]];
  }

  lemma {:induction false} QueuesBehind(keepAlive: nat, t0: int, a: Command, b: Command, now: int)
    requires Qos2Publish(a) && Qos2Publish(b)
    ensures Inv(InitialSession(1, keepAlive, t0))
    ensures var d0 := DriverState(InitialSession(1, keepAlive, t0), false);
            var es := [ConnectionRestored(now), Submit(a, now), Incoming(PubRec(1), now), Submit(b, now)];
            OneSlot(Run(d0, es).0.session, Some(OpOf(WithPkid(a, 1))), [OpOf(WithPkid(b, 1))], true)
  {
    var d0 := DriverState(InitialSession(1, keepAlive, t0), false);
    var up, rec := ConnectionRestored(now), Incoming(PubRec(1), now);
    var opA := OpOf(WithPkid(a, 1));
    InitialInv(1, keepAlive, t0);
    StepKeepsInv(d0, up);
    var d1 := Step(d0, up).0;
    assert OneSlot(d1.session, None, [], false);
    OneSlotSubmit(d1, a, now, None, false);
    var d2 := Step(d1, Submit(a, now)).0;
    StepKeepsInv(d2, rec);
    var d3 := Step(d2, rec).0;
    assert OneSlot(d3.session, Some(opA), [], true);
    OneSlotSubmit(d3, b, now, Some(opA), true);
    assert [up, Submit(a, now)] + [rec, Submit(b, now)] == [up, Submit(a, now), rec, Submit(b, now)];
    RunThen(d0, [up, Submit(a, now)], [rec, Submit(b, now)]);
    RunTwo(d0, up, Submit(a, now));
    RunTwo(d2, rec, Submit(b, now));
  }

  // A session with one slot.
  ghost predicate OneSlot(s: Session, slot: Option<Op>, queue: seq<Op>, flag: bool) {
    && Inv(s) && s.active && s.store.maxInflight == 1 && s.store.collision.None?
    && s.store.outgoing == [None, slot] && s.store.pending == queue && s.store.outgoingRel[1] == flag
  }

  lemma {:induction false} OneSlotSubmit(d: DriverState, c: Command, now: int, slot: Option<Op>, flag: bool)
    requires OneSlot(d.session, slot, [], flag) && Qos2Publish(c)
    ensures var op := OpOf(WithPkid(c, 1));
            if slot.None? then OneSlot(Step(d, Submit(c, now)).0.session, Some(op), [], flag)
            else OneSlot(Step(d, Submit(c, now)).0.session, slot, [op], flag)
  {
    StepKeepsInv(d, Submit(c, now));
    assert Occupied([None, slot][1..]) == (if slot.Some? then 1 else 0) + Occupied([None, slot][1..][1..]);
    assert [None, slot][1..][1..] == [];
  }

  // The queued op is replayed before the one that held the slot, under the latter's flag.
  lemma {:induction false} OneSlotReconnect(d: DriverState, opA: Op, opB: Op, now: int)
    requires OneSlot(d.session, Some(opA), [opB], true)
    requires NeedsAck(opA.command) && NeedsAck(opB.command) && PkidOf(opB.command) == 1
    ensures var d1 := Step(d, ConnectionLost(false)).0;
            && Inv(d1.session)
            && Inv(Step(d1, ConnectionRestored(now)).0.session)
            && Step(Step(d1, ConnectionRestored(now)).0, Incoming(Packet.PubComp(1), now)).1
               == Ok([CompleteFor(opB.clientId, Completion.PubComp(opB.tokenId, 1))])
  {
    var d1 := Step(d, ConnectionLost(false)).0;
    StepKeepsInv(d, ConnectionLost(false));
    StepKeepsInv(d1, ConnectionRestored(now));
    var start := ReplayStart(d1.session, now);
    var slots := [None, Some(opA)];
    assert slots[1..] == [Some(opA)] && slots[1..][1..] == [];
    assert DrainSlots(slots[1..]) == [opA] + DrainSlots(slots[1..][1..]);
    assert d1.session.store.pending == [opB, opA];
    FirstTakesOnlySlot(start, opB, opA);
  }

  lemma {:induction false} FirstTakesOnlySlot(s: Session, first: Op, second: Op)
    requires OneSlot(s, None, [], true) && QueuedOp(first) && QueuedOp(second)
    requires NeedsAck(first.command) && NeedsAck(second.command) && PkidOf(first.command) == 1
    ensures var s' := Replay(s, [first, second]).0;
            && s'.store.outgoing == [None, Some(OpOf(WithDup(first.command)))]
            && s'.store.collision.None? && s'.store.outgoingRel == s.store.outgoingRel
  {
    assert [first, second][1..] == [second] && [second][1..] == [];
    OccupiedNone(s.store.outgoing);
    var s1 := ReplayOne(s, first).0;
    assert s1.store.outgoing == [None, Some(OpOf(WithDup(first.command)))] && s1.store.inflight == 1;
    var s2 := ReplayOne(s1, second).0;
    assert s2.store.outgoing == s1.store.outgoing && s2.store.collision.None?;
    assert Replay(s1, [second]).0 == s2;
  }
}
