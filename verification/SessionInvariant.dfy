// The invariant of the session state machine, and runs of it.
module SessionInvariant {
  import opened Bytes
  import opened Types
  import opened Wrappers
  import opened PacketIds
  import opened Inflight
  import opened SessionState
  import opened Driver

  // The op's token, client and packet are those of its command.
  ghost predicate OpOk(op: Op) {
    Trackable(op.command) && op == OpOf(op.command)
  }

  ghost predicate TrackedOp(op: Op, pkid: int) {
    OpOk(op) && NeedsAck(op.command) && PkidOf(op.command) == pkid
  }

  // A queued op carries an id if it will need one.
  ghost predicate QueuedOp(op: Op) {
    OpOk(op) && (NeedsAck(op.command) ==> PkidOf(op.command) != 0)
  }

  ghost predicate SlotsOk(slots: seq<Option<Op>>) {
    && slots != [] && slots[0].None?
    && forall i :: 0 <= i < |slots| && slots[i].Some? ==> TrackedOp(slots[i].value, i)
  }

  ghost predicate ParkOk(st: Store) {
    st.collision.Some? ==>
      1 <= st.collision.value.pkid <= st.maxInflight && TrackedOp(st.collision.value.op, st.collision.value.pkid)
  }

  ghost predicate QueueOk(ops: seq<Op>) {
    forall i :: 0 <= i < |ops| ==> QueuedOp(ops[i])
  }

  ghost predicate StoreInv(st: Store) {
    ValidStore(st) && SlotsOk(st.outgoing) && ParkOk(st) && QueueOk(st.pending)
  }

  ghost predicate Inv(s: Session) {
    && ValidPool(s.pool) && s.pool.max == s.store.maxInflight
    && StoreInv(s.store)
  }

  lemma {:induction false} InitialInv(max: uint16, keepAlive: nat, now: int)
    requires max > 0
    ensures Inv(InitialSession(max, keepAlive, now))
  {
    OccupiedNone(EmptyStore(max).outgoing);
  }

  // A fresh session is down, holds nothing, has no exchange open, and starts its ids at 1.
  lemma {:induction false} FreshSession(max: uint16, keepAlive: nat, now: int)
    requires max > 0
    ensures var s := InitialSession(max, keepAlive, now);
            && Inv(s) && !s.active && !s.awaitPingresp
            && s.keepAlive == keepAlive && s.lastIncoming == now && s.lastOutgoing == now
            && s.pool.last == 0 && s.pool.max == max && s.store.maxInflight == max
            && s.store.inflight == 0 && s.store.collision == None && s.store.pending == []
            && |s.store.outgoing| == max + 1
            && forall p :: 0 <= p <= max ==>
                 s.store.outgoing[p] == None && !s.store.outgoingRel[p] && !s.store.incomingPub[p]
  {
    InitialInv(max, keepAlive, now);
  }

  // Slot 0 is never used, so a free id means a table that is not full.
  lemma {:induction false} FreeIdHasRoom(st: Store, pkid: uint16)
    requires StoreInv(st) && 1 <= pkid < |st.outgoing| && st.outgoing[pkid].None?
    ensures HasRoomAt(st, pkid)
  {
    FreeSlotLeavesRoom(st.outgoing[1..], pkid - 1);
  }

  // And a table that is not full has a free id.
  lemma {:induction false} RoomMeansFreeId(st: Store) returns (free: uint16)
    requires StoreInv(st) && st.inflight < st.maxInflight
    ensures 1 <= free <= st.maxInflight && SlotAt(st, free).None?
  {
    free := 1;
    while st.outgoing[free].Some?
      invariant 1 <= free <= st.maxInflight
      invariant forall p :: 1 <= p < free ==> st.outgoing[p].Some?
      decreases st.maxInflight - free
    {
      if free == st.maxInflight {
        assert forall i :: 0 <= i < |st.outgoing[1..]| ==> st.outgoing[1..][i] == st.outgoing[i + 1];
        AllOccupied(st.outgoing[1..]);
        assert false;
      }
      free := free + 1;
    }
  }

  lemma {:induction false} AllOccupied(slots: seq<Option<Op>>)
    requires forall i :: 0 <= i < |slots| ==> slots[i].Some?
    ensures Occupied(slots) == |slots|
  {
    if slots != [] {
      AllOccupied(slots[1..]);
    }
  }

  lemma {:induction false} AdmitKeepsInv(st: Store, op: Op)
    requires StoreInv(st) && QueuedOp(op) && NeedsAck(op.command)
    ensures StoreInv(Admit(st, op).0)
  {
    InsertKeepsValid(st, PkidOf(op.command), op);
  }

  lemma {:induction false} CommandKeepsInv(s: Session, c: Command)
    requires Inv(s) && Trackable(c)
    ensures Inv(AfterCommand(s, c).0)
  {
    var (pool, numbered) := AssignPkid(s.pool, c);
    assert QueuedOp(OpOf(numbered));
    if NeedsAck(numbered) {
      AdmitKeepsInv(s.store, OpOf(numbered));
    }
  }

  lemma {:induction false} PromotionKeepsInv(s: Session, pkid: uint16)
    requires Inv(s)
    ensures Inv(AfterPromotion(s, pkid).0)
  {
    if s.store.collision.Some? {
      InsertKeepsValid(s.store.(collision := None), pkid, s.store.collision.value.op);
    }
  }

  lemma {:induction false} ReleaseKeepsInv(st: Store, pkid: uint16)
    requires StoreInv(st)
    ensures StoreInv(Released(st, pkid).0)
  {
    ReleaseKeepsValid(st, pkid);
  }

  lemma {:induction false} PubAckKeepsInv(s: Session, pkid: uint16)
    requires Inv(s)
    ensures Inv(AfterPubAck(s, pkid).0)
  {
    ReleaseKeepsInv(s.store, pkid);
    PromotionKeepsInv(s.(store := Released(s.store, pkid).0), pkid);
  }

  lemma {:induction false} PubCompKeepsInv(s: Session, pkid: uint16)
    requires Inv(s)
    ensures Inv(AfterPubComp(s, pkid).0)
  {
    if InRange(s, pkid) {
      var st := s.store.(outgoingRel := s.store.outgoingRel[pkid as int := false]);
      ReleaseKeepsInv(st, pkid);
      PromotionKeepsInv(s.(store := Released(st, pkid).0), pkid);
    }
  }

  lemma {:induction false} FlagsKeepInv(s: Session, pkid: uint16)
    requires Inv(s)
    ensures Inv(AfterPubRec(s, pkid).0) && Inv(AfterIncomingQos2(s, pkid).0) && Inv(AfterPubRel(s, pkid).0)
  {
  }

  lemma {:induction false} IncomingKeepsInv(s: Session, packet: Packet, now: int)
    requires Inv(s)
    ensures Inv(OnIncoming(s, packet, now).0)
  {
    if packet.PubAck? || packet.PubComp? {
      AckKeepsInv(s, packet, now);
    } else {
      OtherKeepsInv(s, packet, now);
    }
  }

  lemma {:induction false} AckKeepsInv(s: Session, packet: Packet, now: int)
    requires Inv(s) && (packet.PubAck? || packet.PubComp?)
    ensures Inv(OnIncoming(s, packet, now).0)
  {
    var s1 := s.(lastIncoming := now);
    PubAckKeepsInv(s1, packet.pkid);
    PubCompKeepsInv(s1, packet.pkid);
  }

  lemma {:induction false} OtherKeepsInv(s: Session, packet: Packet, now: int)
    requires Inv(s) && !packet.PubAck? && !packet.PubComp?
    ensures Inv(OnIncoming(s, packet, now).0)
  {
    match packet {
      case PubRec(pkid) => FlagsKeepInv(s.(lastIncoming := now), pkid);
      case PubRel(pkid) => FlagsKeepInv(s.(lastIncoming := now), pkid);
      case Publish(p) => FlagsKeepInv(s.(lastIncoming := now), p.pkid);
      case SubAck(_) => TopicAckKeepsInv(s, packet, now);
      case UnsubAck(_) => TopicAckKeepsInv(s, packet, now);
      case _ =>
    }
  }

  lemma {:induction false} TopicAckKeepsInv(s: Session, packet: Packet, now: int)
    requires Inv(s) && (packet.SubAck? || packet.UnsubAck?)
    ensures Inv(OnIncoming(s, packet, now).0)
  {
    ReleaseKeepsInv(s.store, if packet.SubAck? then packet.suback.pkid else packet.pkid);
  }

  // Draining yields queueable ops, exactly those of the slots.
  lemma {:induction false} DrainedOpsQueue(slots: seq<Option<Op>>, base: nat)
    requires forall i :: 0 <= i < |slots| && slots[i].Some? ==> base + i > 0 && TrackedOp(slots[i].value, base + i)
    ensures QueueOk(DrainSlots(slots))
  {
    if slots != [] {
      DrainedOpsQueue(slots[1..], base + 1);
    }
  }

  lemma {:induction false} LossKeepsInv(s: Session, clean: bool)
    requires Inv(s)
    ensures Inv(AfterLoss(s, clean))
  {
    DrainedOpsQueue(s.store.outgoing, 0);
    OccupiedNone(AfterLoss(s, clean).store.outgoing);
  }

  lemma {:induction false} ReplayOneKeepsInv(s: Session, op: Op)
    requires Inv(s) && QueuedOp(op)
    ensures Inv(ReplayOne(s, op).0)
  {
    var c := WithDup(op.command);
    if NeedsAck(c) {
      AdmitKeepsInv(s.store, OpOf(c));
    }
  }

  lemma {:induction false} ReplayKeepsInv(s: Session, ops: seq<Op>)
    requires Inv(s) && QueueOk(ops)
    ensures Inv(Replay(s, ops).0)
    decreases ops
  {
    if ops != [] {
      ReplayOneKeepsInv(s, ops[0]);
      ReplayKeepsInv(ReplayOne(s, ops[0]).0, ops[1..]);
    }
  }

  lemma {:induction false} RestoreKeepsInv(s: Session, now: int)
    requires Inv(s)
    ensures Inv(OnRestored(s, now).0)
  {
    ReplayKeepsInv(ReplayStart(s, now), s.store.pending);
  }

  // Every event keeps the invariant.
  lemma {:induction false} StepKeepsInv(d: DriverState, e: Event)
    requires Inv(d.session)
    ensures Inv(Step(d, e).0.session)
  {
    match e {
      case Tick(now) => LossKeepsInv(d.session, d.cleanSession);
      case Submit(c, now) =>
        if Trackable(c) {
          CommandKeepsInv(d.session, c);
        }
      case Incoming(packet, now) => IncomingKeepsInv(d.session, packet, now);
      case ConnectionLost(clean) => LossKeepsInv(d.session, clean);
      case ConnectionRestored(now) => RestoreKeepsInv(d.session, now);
    }
  }

  // The state after a run, and the outcome of each of its events.
  ghost function Run(d: DriverState, es: seq<Event>): (r: (DriverState, seq<Outcome>))
    requires Inv(d.session)
    ensures Inv(r.0.session) && |r.1| == |es|
    decreases es
  {
    if es == [] then (d, [])
    else
      StepKeepsInv(d, es[0]);
      var (d1, out) := Step(d, es[0]);
      var (d2, outs) := Run(d1, es[1..]);
      (d2, [out] + outs)
  }

  // Runs compose.
  lemma {:induction false} RunThen(d: DriverState, a: seq<Event>, b: seq<Event>)
    requires Inv(d.session)
    ensures Run(d, a + b).0 == Run(Run(d, a).0, b).0
    decreases a
  {
    if a == [] {
      assert a + b == b;
    } else {
      StepKeepsInv(d, a[0]);
      assert (a + b)[0] == a[0] && (a + b)[1..] == a[1..] + b;
      RunThen(Step(d, a[0]).0, a[1..], b);
    }
  }

  lemma {:induction false} RunOne(d: DriverState, e: Event)
    requires Inv(d.session)
    ensures Run(d, [e]).0 == Step(d, e).0
  {
    StepKeepsInv(d, e);
    assert [e][1..] == [];
  }

  lemma {:induction false} RunTwo(d: DriverState, e: Event, f: Event)
    requires Inv(d.session)
    ensures Inv(Step(d, e).0.session)
    ensures Run(d, [e, f]).0 == Step(Step(d, e).0, f).0
  {
    StepKeepsInv(d, e);
    assert [e, f][1..] == [f];
    RunOne(Step(d, e).0, f);
  }

  // The store after any run of a fresh session, whatever the events.
  lemma {:induction false} StoreAfterAnyRun(max: uint16, keepAlive: nat, now: int, clean: bool, es: seq<Event>)
    requires max > 0
    ensures Inv(InitialSession(max, keepAlive, now))
    ensures var st := Run(DriverState(InitialSession(max, keepAlive, now), clean), es).0.session.store;
            && |st.outgoing| == |st.outgoingRel| == |st.incomingPub| == max + 1
            && st.inflight == Occupied(st.outgoing) <= max
            && st.outgoing[0] == None
            && (forall i :: 0 <= i < |st.outgoing| && st.outgoing[i].Some? ==>
                  var op := st.outgoing[i].value;
                  NeedsAck(op.command) && PkidOf(op.command) == i && op.packet == PacketOf(op.command)
                  && op.tokenId == op.command.tokenId && op.clientId == op.command.clientId)
            && (st.collision.Some? ==>
                  var Parked(pkid, op) := st.collision.value;
                  1 <= pkid <= max && NeedsAck(op.command) && PkidOf(op.command) == pkid
                  && op.packet == PacketOf(op.command)
                  && op.tokenId == op.command.tokenId && op.clientId == op.command.clientId)
            && (forall i :: 0 <= i < |st.pending| && NeedsAck(st.pending[i].command) ==>
                  PkidOf(st.pending[i].command) != 0)
  {
    InitialInv(max, keepAlive, now);
    var d := DriverState(InitialSession(max, keepAlive, now), clean);
    RunKeepsSize(d, es);
  }

  lemma {:induction false} RunKeepsSize(d: DriverState, es: seq<Event>)
    requires Inv(d.session)
    ensures Run(d, es).0.session.store.maxInflight == d.session.store.maxInflight
    decreases es
  {
    if es != [] {
      StepKeepsInv(d, es[0]);
      StepKeepsSize(d, es[0]);
      RunKeepsSize(Step(d, es[0]).0, es[1..]);
    }
  }

  lemma {:induction false} ReplayKeepsSize(s: Session, ops: seq<Op>)
    ensures Replay(s, ops).0.store.maxInflight == s.store.maxInflight
    decreases ops
  {
    if ops != [] {
      ReplayKeepsSize(ReplayOne(s, ops[0]).0, ops[1..]);
    }
  }

  lemma {:induction false} StepKeepsSize(d: DriverState, e: Event)
    requires Inv(d.session)
    ensures Step(d, e).0.session.store.maxInflight == d.session.store.maxInflight
  {
    match e {
      case ConnectionRestored(now) => ReplayKeepsSize(ReplayStart(d.session, now), d.session.store.pending);
      case Incoming(packet, now) => IncomingKeepsSize(d.session, packet, now);
      case _ =>
    }
  }

  lemma {:induction false} IncomingKeepsSize(s: Session, packet: Packet, now: int)
    requires Inv(s)
    ensures OnIncoming(s, packet, now).0.store.maxInflight == s.store.maxInflight
  {
  }
}
