// Where every accepted command goes: held, completed, sent at QoS 0, or lost; with the
// exact account of the losses, over whole runs.
module Conservation {
  import opened Bytes
  import opened Types
  import opened Wrappers
  import opened PacketIds
  import opened Inflight
  import opened SessionState
  import opened Driver
  import opened SessionInvariant

  // A command up to what the runtime itself changes: its packet id and DUP.
  function Core(c: Command): Command {
    var c := WithPkid(c, 0);
    if c.Publish? then c.(publish := c.publish.(dup := false)) else c
  }

  // Counting is relative to a test on cores. Taking the test "equals x" for every x gives
  // equality of multisets; the test "issued by this client with this token" gives ownership.
  type Test = Command -> bool

  function Weight(op: Op, t: Test): nat {
    if t(Core(op.command)) then 1 else 0
  }

  function CountOps(ops: seq<Op>, t: Test): nat {
    if ops == [] then 0 else Weight(ops[0], t) + CountOps(ops[1..], t)
  }

  function CountSlots(slots: seq<Option<Op>>, t: Test): nat {
    if slots == [] then 0
    else (if slots[0].Some? then Weight(slots[0].value, t) else 0) + CountSlots(slots[1..], t)
  }

  function CountOption(o: Option<Op>, t: Test): nat {
    if o.Some? then Weight(o.value, t) else 0
  }

  function ParkedOp(st: Store): Option<Op> {
    if st.collision.Some? then Some(st.collision.value.op) else None
  }

  function Held(st: Store, t: Test): nat {
    CountSlots(st.outgoing, t) + CountOption(ParkedOp(st), t) + CountOps(st.pending, t)
  }

  // ---------- the account of one event ----------

  function AsList(o: Option<Op>): seq<Op> {
    match o
    case None => []
    case Some(op) => [op]
  }

  // The ops lost when one op is admitted: none unless it finds no place while another op
  // is parked; then the parked op if the newcomer takes its place, else the newcomer.
  function LostOnAdmit(st: Store, op: Op): seq<Op> {
    if st.collision.None? || HasRoomAt(st, PkidOf(op.command)) then []
    else if st.inflight < st.maxInflight && PkidOf(op.command) < |st.outgoing| then [st.collision.value.op]
    else [op]
  }

  function LostOnReplayOne(s: Session, op: Op): seq<Op> {
    if Trackable(op.command) && NeedsAck(op.command)
    then LostOnAdmit(s.store, OpOf(WithDup(AssignPkid(s.pool, op.command).1)))
    else []
  }

  function LostOnReplay(s: Session, ops: seq<Op>): seq<Op>
    decreases ops
  {
    if ops == [] then []
    else LostOnReplayOne(s, ops[0]) + LostOnReplay(ReplayOne(s, ops[0]).0, ops[1..])
  }

  // The ops an event loses.
  function Lost(s: Session, e: Event): seq<Op> {
    match e
    case Submit(c, _) =>
      if Trackable(c) && s.active && NeedsAck(c) then LostOnAdmit(s.store, OpOf(AssignPkid(s.pool, c).1)) else []
    case ConnectionRestored(now) => LostOnReplay(ReplayStart(s, now), s.store.pending)
    case Incoming(SubAck(p), _) =>
      var slot := SlotAt(s.store, p.pkid);
      if slot.Some? && !slot.value.command.Subscribe? then [slot.value] else []
    case Incoming(UnsubAck(pkid), _) =>
      var slot := SlotAt(s.store, pkid);
      if slot.Some? && !slot.value.command.Unsubscribe? then [slot.value] else []
    case _ => []
  }

  // The ops an event completes.
  function Completed(s: Session, e: Event): seq<Op>
    requires ValidStore(s.store)
  {
    match e
    case Incoming(PubAck(pkid), _) => AsList(SlotAt(s.store, pkid))
    case Incoming(PubComp(pkid), _) =>
      if InRange(s, pkid) && s.store.outgoingRel[pkid] then AsList(SlotAt(s.store, pkid)) else []
    case Incoming(SubAck(p), _) =>
      var slot := SlotAt(s.store, p.pkid);
      if slot.Some? && slot.value.command.Subscribe? then [slot.value] else []
    case Incoming(UnsubAck(pkid), _) =>
      var slot := SlotAt(s.store, pkid);
      if slot.Some? && slot.value.command.Unsubscribe? then [slot.value] else []
    case _ => []
  }

  function Qos0Op(op: Op): seq<Op> {
    if Trackable(op.command) && !NeedsAck(op.command) then [op] else []
  }

  function Qos0Ops(ops: seq<Op>): seq<Op> {
    if ops == [] then [] else Qos0Op(ops[0]) + Qos0Ops(ops[1..])
  }

  // The QoS 0 publishes an event sends, after which nobody holds them.
  function SentQos0(s: Session, e: Event): seq<Op> {
    match e
    case Submit(c, _) => if Trackable(c) && s.active && !NeedsAck(c) then [OpOf(c)] else []
    case ConnectionRestored(_) => Qos0Ops(s.store.pending)
    case _ => []
  }

  function Accepted(e: Event, t: Test): nat {
    if e.Submit? && Trackable(e.command) && t(Core(e.command)) then 1 else 0
  }

  function Settled(s: Session, e: Event, t: Test): nat
    requires ValidStore(s.store)
  {
    CountOps(Completed(s, e), t) + CountOps(SentQos0(s, e), t) + CountOps(Lost(s, e), t)
  }

  // ---------- counting lemmas ----------

  lemma {:induction false} CountAppend(a: seq<Op>, b: seq<Op>, t: Test)
    ensures CountOps(a + b, t) == CountOps(a, t) + CountOps(b, t)
  {
    if a == [] {
      assert a + b == b;
    } else {
      assert (a + b)[1..] == a[1..] + b;
      CountAppend(a[1..], b, t);
    }
  }

  lemma {:induction false} CountPush(a: seq<Op>, op: Op, t: Test)
    ensures CountOps(a + [op], t) == CountOps(a, t) + Weight(op, t)
  {
    CountAppend(a, [op], t);
    CountOne(op, t);
  }

  lemma {:induction false} CountOne(op: Op, t: Test)
    ensures CountOps([op], t) == Weight(op, t)
  {
    assert [op][1..] == [];
  }

  lemma {:induction false} CountSlotUpdate(slots: seq<Option<Op>>, i: nat, v: Option<Op>, t: Test)
    requires i < |slots|
    ensures CountSlots(slots[i := v], t)
         == CountSlots(slots, t) - CountOption(slots[i], t) + CountOption(v, t)
  {
    var slots' := slots[i := v];
    if i == 0 {
      assert slots'[1..] == slots[1..];
    } else {
      assert slots'[1..] == slots[1..][i - 1 := v];
      CountSlotUpdate(slots[1..], i - 1, v, t);
    }
  }

  lemma {:induction false} CountDrained(slots: seq<Option<Op>>, t: Test)
    ensures CountOps(DrainSlots(slots), t) == CountSlots(slots, t)
  {
    if slots != [] {
      CountDrained(slots[1..], t);
      if slots[0].Some? {
        CountAppend([slots[0].value], DrainSlots(slots[1..]), t);
        CountOne(slots[0].value, t);
      } else {
        assert [] + DrainSlots(slots[1..]) == DrainSlots(slots[1..]);
      }
    }
  }

  lemma {:induction false} CountCleared(slots: seq<Option<Op>>, t: Test)
    requires forall i :: 0 <= i < |slots| ==> slots[i].None?
    ensures CountSlots(slots, t) == 0
  {
    if slots != [] {
      CountCleared(slots[1..], t);
    }
  }

  lemma {:induction false} NoneCounted(ops: seq<Op>, test: Test)
    requires forall i :: 0 <= i < |ops| ==> !test(Core(ops[i].command))
    ensures CountOps(ops, test) == 0
  {
    if ops != [] {
      NoneCounted(ops[1..], test);
    }
  }

  lemma {:induction false} SlotIsHeld(slots: seq<Option<Op>>, i: nat, test: Test)
    requires i < |slots| && slots[i].Some? && test(Core(slots[i].value.command))
    ensures CountSlots(slots, test) >= 1
  {
    if i > 0 {
      SlotIsHeld(slots[1..], i - 1, test);
    }
  }

  // ---------- conservation, transition by transition ----------

  lemma {:induction false} AdmitConserves(st: Store, op: Op, t: Test)
    requires StoreInv(st) && QueuedOp(op) && NeedsAck(op.command)
    ensures Held(st, t) + Weight(op, t) == Held(Admit(st, op).0, t) + CountOps(LostOnAdmit(st, op), t)
  {
    var pkid := PkidOf(op.command);
    if HasRoomAt(st, pkid) {
      CountSlotUpdate(st.outgoing, pkid, Some(op), t);
      assert Admit(st, op).0 == st.(outgoing := st.outgoing[pkid as int := Some(op)], inflight := st.inflight + 1);
    } else {
      NoPlaceConserves(st, op, t);
    }
  }

  lemma {:induction false} NoPlaceConserves(st: Store, op: Op, t: Test)
    requires !HasRoomAt(st, PkidOf(op.command))
    ensures Held(st, t) + Weight(op, t) == Held(Admit(st, op).0, t) + CountOps(LostOnAdmit(st, op), t)
  {
    CountOne(op, t);
    if st.collision.Some? {
      CountOne(st.collision.value.op, t);
    } else {
      CountPush(st.pending, op, t);
    }
  }

  lemma {:induction false} PromotionConserves(s: Session, pkid: uint16, t: Test)
    requires Inv(s) && SlotAt(s.store, pkid).None? && s.store.inflight < s.store.maxInflight
    ensures Held(AfterPromotion(s, pkid).0.store, t) == Held(s.store, t)
  {
    if s.store.collision.Some? && s.store.collision.value.pkid == pkid {
      CountSlotUpdate(s.store.outgoing, pkid, Some(s.store.collision.value.op), t);
    }
  }

  lemma {:induction false} ReleaseConserves(st: Store, pkid: uint16, t: Test)
    requires StoreInv(st) && SlotAt(st, pkid).Some?
    ensures Held(st, t) == Held(Released(st, pkid).0, t) + Weight(st.outgoing[pkid].value, t)
  {
    CountSlotUpdate(st.outgoing, pkid, None, t);
  }

  lemma {:induction false} CountBacklog(st: Store, t: Test)
    ensures CountOps(Backlog(st), t) == Held(st, t)
  {
    var drained, parked := DrainSlots(st.outgoing), AsList(ParkedOp(st));
    assert Backlog(st) == st.pending + drained + parked;
    CountAppend(st.pending + drained, parked, t);
    CountAppend(st.pending, drained, t);
    CountDrained(st.outgoing, t);
    if st.collision.Some? {
      CountOne(st.collision.value.op, t);
    }
  }

  lemma {:induction false} LossConserves(s: Session, clean: bool, t: Test)
    ensures Held(AfterLoss(s, clean).store, t) == Held(s.store, t)
  {
    CountBacklog(s.store, t);
    CountCleared(Cleared(s.store.outgoing, None), t);
  }

  lemma {:induction false} ReplayOneConserves(s: Session, op: Op, t: Test)
    requires Inv(s) && QueuedOp(op)
    ensures Held(s.store, t) + Weight(op, t)
         == Held(ReplayOne(s, op).0.store, t) + CountOps(Qos0Op(op), t) + CountOps(LostOnReplayOne(s, op), t)
  {
    CountOne(op, t);
    if NeedsAck(op.command) {
      AdmitConserves(s.store, OpOf(WithDup(op.command)), t);
    }
  }

  lemma {:induction false} ReplayConserves(s: Session, ops: seq<Op>, t: Test)
    requires Inv(s) && QueueOk(ops)
    ensures Held(s.store, t) + CountOps(ops, t)
         == Held(Replay(s, ops).0.store, t) + CountOps(Qos0Ops(ops), t) + CountOps(LostOnReplay(s, ops), t)
    decreases ops
  {
    if ops != [] {
      var s1 := ReplayOne(s, ops[0]).0;
      ReplayOneKeepsInv(s, ops[0]);
      ReplayOneConserves(s, ops[0], t);
      ReplayConserves(s1, ops[1..], t);
      CountAppend(Qos0Op(ops[0]), Qos0Ops(ops[1..]), t);
      CountAppend(LostOnReplayOne(s, ops[0]), LostOnReplay(s1, ops[1..]), t);
    }
  }

  lemma {:induction false} CommandConserves(s: Session, c: Command, now: int, t: Test)
    requires Inv(s) && Trackable(c)
    ensures Held(s.store, t) + Accepted(Submit(c, now), t)
         == Held(AfterCommand(s, c).0.store, t) + Settled(s, Submit(c, now), t)
  {
    var op := OpOf(AssignPkid(s.pool, c).1);
    CountPush(s.store.pending, op, t);
    CountOne(op, t);
    if NeedsAck(c) {
      AdmitConserves(s.store, op, t);
    }
  }

  lemma {:induction false} AckConserves(s: Session, pkid: uint16, t: Test)
    requires Inv(s) && SlotAt(s.store, pkid).Some?
    ensures Held(s.store, t)
         == Held(AfterPubAck(s, pkid).0.store, t) + CountOps([s.store.outgoing[pkid].value], t)
  {
    ReleaseConserves(s.store, pkid, t);
    ReleaseKeepsInv(s.store, pkid);
    PromotionConserves(s.(store := Released(s.store, pkid).0), pkid, t);
    CountOne(s.store.outgoing[pkid].value, t);
  }

  lemma {:induction false} PubCompConserves(s: Session, pkid: uint16, now: int, t: Test)
    requires Inv(s)
    ensures Held(s.store, t)
         == Held(AfterPubComp(s, pkid).0.store, t) + CountOps(Completed(s, Incoming(Packet.PubComp(pkid), now)), t)
  {
    if InRange(s, pkid) && s.store.outgoingRel[pkid] && SlotAt(s.store, pkid).Some? {
      AckConserves(s.(store := s.store.(outgoingRel := s.store.outgoingRel[pkid as int := false])), pkid, t);
    }
  }

  lemma {:induction false} DropConserves(st: Store, pkid: uint16, t: Test)
    requires StoreInv(st)
    ensures Held(st, t) == Held(Released(st, pkid).0, t) + CountOps(AsList(SlotAt(st, pkid)), t)
  {
    if SlotAt(st, pkid).Some? {
      ReleaseConserves(st, pkid, t);
      CountOne(st.outgoing[pkid].value, t);
    }
  }

  lemma {:induction false} PubAckEventConserves(s: Session, packet: Packet, now: int, t: Test)
    requires Inv(s) && packet.PubAck?
    ensures Held(s.store, t) == Held(OnIncoming(s, packet, now).0.store, t) + Settled(s, Incoming(packet, now), t)
  {
    if SlotAt(s.store, packet.pkid).Some? {
      AckConserves(s.(lastIncoming := now), packet.pkid, t);
    }
  }

  lemma {:induction false} SubAckEventConserves(s: Session, packet: Packet, now: int, t: Test)
    requires Inv(s) && packet.SubAck?
    ensures Held(s.store, t) == Held(OnIncoming(s, packet, now).0.store, t) + Settled(s, Incoming(packet, now), t)
  {
    DropConserves(s.store, packet.suback.pkid, t);
  }

  lemma {:induction false} UnsubAckEventConserves(s: Session, packet: Packet, now: int, t: Test)
    requires Inv(s) && packet.UnsubAck?
    ensures Held(s.store, t) == Held(OnIncoming(s, packet, now).0.store, t) + Settled(s, Incoming(packet, now), t)
  {
    DropConserves(s.store, packet.pkid, t);
  }

  lemma {:induction false} OtherIncomingConserves(s: Session, packet: Packet, now: int, t: Test)
    requires Inv(s) && !packet.PubAck? && !packet.PubComp? && !packet.SubAck? && !packet.UnsubAck?
    ensures Held(s.store, t) == Held(OnIncoming(s, packet, now).0.store, t) + Settled(s, Incoming(packet, now), t)
  {
  }

  lemma {:induction false} IncomingConserves(s: Session, packet: Packet, now: int, t: Test)
    requires Inv(s)
    ensures Held(s.store, t) == Held(OnIncoming(s, packet, now).0.store, t) + Settled(s, Incoming(packet, now), t)
  {
    match packet {
      case PubAck(_) => PubAckEventConserves(s, packet, now, t);
      case PubComp(pkid) => PubCompConserves(s.(lastIncoming := now), pkid, now, t);
      case SubAck(_) => SubAckEventConserves(s, packet, now, t);
      case UnsubAck(_) => UnsubAckEventConserves(s, packet, now, t);
      case _ => OtherIncomingConserves(s, packet, now, t);
    }
  }

  // One event: what was held plus what came in is what is held plus what was settled.
  lemma {:induction false} StepConserves(d: DriverState, e: Event, t: Test)
    requires Inv(d.session)
    ensures Held(d.session.store, t) + Accepted(e, t)
         == Held(Step(d, e).0.session.store, t) + Settled(d.session, e, t)
  {
    match e {
      case Tick(now) => LossConserves(d.session, d.cleanSession, t);
      case Submit(c, now) =>
        if Trackable(c) {
          CommandConserves(d.session, c, now, t);
        }
      case Incoming(packet, now) => IncomingConserves(d.session, packet, now, t);
      case ConnectionLost(clean) => LossConserves(d.session, clean, t);
      case ConnectionRestored(now) =>
        ReplayConserves(ReplayStart(d.session, now), d.session.store.pending, t);
    }
  }
}
