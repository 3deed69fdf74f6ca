// Nothing that is held stays held for ever: a broker that acknowledges each slot by its kind
// empties the table, and with enough reconnects the queue and the park as well.
module Progress {
  import opened Bytes
  import opened Types
  import opened Wrappers
  import opened PacketIds
  import opened Inflight
  import opened SessionState
  import opened Driver
  import opened SessionInvariant
  import opened Conservation
  import opened ReplayLosses
  import opened RunConservation
  import opened Collision
  import opened Reconnect
  import opened Qos2Sender
  import opened Qos2Exchanges
  import opened OfflineBacklog

  // The acknowledgement of slot p by the kind of its op.
  function AckEvents(op: Op, p: uint16, now: int): seq<Event> {
    match op.command
    case Publish(_, publish, _) =>
      if publish.qos == ExactlyOnce then [Incoming(PubRec(p), now), Incoming(Packet.PubComp(p), now)]
      else [Incoming(Packet.PubAck(p), now)]
    case Subscribe(_, _, _) => [Incoming(Packet.SubAck(SubAck.SubAck(p, [0])), now)]
    case _ => [Incoming(Packet.UnsubAck(p), now)]
  }

  // Each acknowledgement of the run fits the slot it meets.
  ghost predicate FairAcks(d: DriverState, es: seq<Event>)
    requires Inv(d.session)
    decreases es
  {
    es == [] || (AcksByKind(d.session.store, es[0]) && (StepKeepsInv(d, es[0]); FairAcks(Step(d, es[0]).0, es[1..])))
  }

  lemma {:induction false} FairAppend(d: DriverState, a: seq<Event>, b: seq<Event>)
    requires Inv(d.session) && FairAcks(d, a) && FairAcks(Run(d, a).0, b)
    ensures FairAcks(d, a + b)
    decreases a
  {
    if a == [] {
      assert a + b == b;
    } else {
      StepKeepsInv(d, a[0]);
      assert (a + b)[0] == a[0] && (a + b)[1..] == a[1..] + b;
      FairAppend(Step(d, a[0]).0, a[1..], b);
    }
  }

  // ---------- one slot ----------

  // What one acknowledged slot leaves: the op is completed, the slot is free or holds the
  // op that was parked behind it, and nothing else has changed.
  ghost predicate AckedAway(s: Session, s': Session, p: uint16)
    requires p < |s.store.outgoing|
  {
    && s'.active == s.active && s'.store.pending == s.store.pending && s'.store.maxInflight == s.store.maxInflight
    && ((s'.store.outgoing == s.store.outgoing[p as int := None] && s'.store.collision == s.store.collision)
        || (ParkedOn(s.store, p) && s'.store.collision.None?
            && s'.store.outgoing == s.store.outgoing[p as int := Some(s.store.collision.value.op)]))
  }

  ghost predicate Acked1(d: DriverState, es: seq<Event>, p: uint16)
    requires Inv(d.session) && SlotAt(d.session.store, p).Some?
  {
    && FairAcks(d, es)
    && RunOps(d, es) == ([d.session.store.outgoing[p].value], [], [])
    && AckedAway(d.session, Run(d, es).0.session, p)
  }

  lemma {:induction false} OneAck(d: DriverState, e: Event, p: uint16)
    requires Inv(d.session) && SlotAt(d.session.store, p).Some? && e.Incoming? && AcksByKind(d.session.store, e)
    requires Completed(d.session, e) == [d.session.store.outgoing[p].value] && Lost(d.session, e) == []
    requires AckedAway(d.session, Step(d, e).0.session, p)
    ensures Acked1(d, [e], p)
  {
    StepKeepsInv(d, e);
    RunOne(d, e);
    var d1 := Step(d, e).0;
    var es := [e];
    assert es[0] == e && es[1..] == [] && RunOps(d1, []) == ([], [], []);
    assert Completed(d.session, e) + [] == Completed(d.session, e);
    assert SentQos0(d.session, e) + [] == [] && Lost(d.session, e) + [] == [];
  }

  lemma {:induction false} AckPublish(d: DriverState, p: uint16, now: int)
    requires Inv(d.session) && IsQos(SlotAt(d.session.store, p), AtLeastOnce)
    ensures Acked1(d, [Incoming(Packet.PubAck(p), now)], p)
  {
    PubAckPromotes(d.session.(lastIncoming := now), p);
    OneAck(d, Incoming(Packet.PubAck(p), now), p);
  }

  lemma {:induction false} AckTopics(d: DriverState, p: uint16, now: int)
    requires Inv(d.session) && SlotAt(d.session.store, p).Some?
    requires !d.session.store.outgoing[p].value.command.Publish?
    ensures Acked1(d, AckEvents(d.session.store.outgoing[p].value, p, now), p)
  {
    OneAck(d, AckEvents(d.session.store.outgoing[p].value, p, now)[0], p);
  }

  lemma {:induction false} AckExchange(d: DriverState, p: uint16, now: int)
    requires Inv(d.session) && IsQos(SlotAt(d.session.store, p), ExactlyOnce)
    ensures Acked1(d, [Incoming(PubRec(p), now), Incoming(Packet.PubComp(p), now)], p)
  {
    var rec, comp := Incoming(PubRec(p), now), Incoming(Packet.PubComp(p), now);
    var d1 := Step(d, rec).0;
    StepKeepsInv(d, rec);
    assert d1.session.store == d.session.store.(outgoingRel := d.session.store.outgoingRel[p as int := true]);
    PubCompPromotes(d1.session.(lastIncoming := now), p);
    OneAck(d1, comp, p);
    assert [rec, comp][1..] == [comp];
    assert [] + RunOps(d1, [comp]).0 == RunOps(d1, [comp]).0;
  }

  lemma {:induction false} AckSlot(d: DriverState, p: uint16, now: int)
    requires Inv(d.session) && SlotAt(d.session.store, p).Some?
    ensures Acked1(d, AckEvents(d.session.store.outgoing[p].value, p, now), p)
  {
    var c := d.session.store.outgoing[p].value.command;
    if !c.Publish? {
      AckTopics(d, p, now);
    } else if c.publish.qos == ExactlyOnce {
      AckExchange(d, p, now);
    } else {
      AckPublish(d, p, now);
    }
  }

  // ---------- the whole table ----------

  // The acknowledgements of all occupied slots from k on, by ascending id.
  function AckTable(slots: seq<Option<Op>>, k: nat, now: int): seq<Event>
    requires k <= |slots| <= 0x1_0000
    decreases |slots| - k
  {
    if k == |slots| then []
    else (if slots[k].Some? then AckEvents(slots[k].value, k, now) else []) + AckTable(slots, k + 1, now)
  }

  // The events acknowledge these ops, completing each, and leave the table empty and the
  // rest of the session as it was.
  ghost predicate TableAcked(d: DriverState, es: seq<Event>, ops: seq<Op>)
    requires Inv(d.session)
  {
    var s' := Run(d, es).0.session;
    && FairAcks(d, es) && RunOps(d, es) == (ops, [], [])
    && EmptyTable(s'.store) && s'.store.pending == d.session.store.pending
    && s'.active == d.session.active && s'.store.maxInflight == d.session.store.maxInflight
  }

  // With nothing parked, acknowledging every slot by its kind completes every op of the
  // table, by ascending id, empties the table, and touches nothing else.
  lemma {:induction false} AckTableCompletes(d: DriverState, k: nat, now: int)
    requires Inv(d.session) && d.session.store.collision.None? && k <= |d.session.store.outgoing|
    requires forall p :: 0 <= p < k ==> d.session.store.outgoing[p].None?
    ensures TableAcked(d, AckTable(d.session.store.outgoing, k, now), DrainSlots(d.session.store.outgoing[k..]))
    decreases |d.session.store.outgoing| - k
  {
    var slots := d.session.store.outgoing;
    if k == |slots| {
      assert slots[k..] == [] && RunOps(d, []) == ([], [], []);
    } else {
      NextSlot(slots, k, now);
      if slots[k].None? {
        AckTableCompletes(d, k + 1, now);
      } else {
        SlotAckedAway(d, k, now);
        AckTableCompletes(Run(d, AckEvents(slots[k].value, k, now)).0, k + 1, now);
        SlotThenRest(d, k, AckTable(slots, k + 1, now), DrainSlots(slots[k + 1..]), now);
      }
    }
  }

  lemma {:induction false} NextSlot(slots: seq<Option<Op>>, k: nat, now: int)
    requires k < |slots| <= 0x1_0000
    ensures AckTable(slots, k, now)
         == if slots[k].None? then AckTable(slots, k + 1, now)
            else AckEvents(slots[k].value, k, now) + AckTable(slots, k + 1, now)
    ensures DrainSlots(slots[k..])
         == if slots[k].None? then DrainSlots(slots[k + 1..]) else [slots[k].value] + DrainSlots(slots[k + 1..])
  {
    assert slots[k..][0] == slots[k] && slots[k..][1..] == slots[k + 1..];
    assert [] + AckTable(slots, k + 1, now) == AckTable(slots, k + 1, now);
    assert [] + DrainSlots(slots[k + 1..]) == DrainSlots(slots[k + 1..]);
  }

  lemma {:induction false} SlotThenRest(d: DriverState, k: nat, rest: seq<Event>, ops: seq<Op>, now: int)
    requires Inv(d.session) && d.session.store.collision.None? && k < |d.session.store.outgoing|
    requires d.session.store.outgoing[k].Some?
    requires TableAcked(Run(d, AckEvents(d.session.store.outgoing[k].value, k, now)).0, rest, ops)
    ensures TableAcked(d, AckEvents(d.session.store.outgoing[k].value, k, now) + rest,
                       [d.session.store.outgoing[k].value] + ops)
  {
    SlotAckedAway(d, k, now);
    FirstThenRest(d, AckEvents(d.session.store.outgoing[k].value, k, now), rest);
  }

  lemma {:induction false} SlotAckedAway(d: DriverState, k: nat, now: int)
    requires Inv(d.session) && d.session.store.collision.None? && k < |d.session.store.outgoing|
    requires d.session.store.outgoing[k].Some?
    ensures var slots, first := d.session.store.outgoing, AckEvents(d.session.store.outgoing[k].value, k, now);
            var s1 := Run(d, first).0.session;
            && FairAcks(d, first) && RunOps(d, first) == ([slots[k].value], [], [])
            && s1.store.outgoing == slots[k := None] && s1.store.outgoing[k + 1..] == slots[k + 1..]
            && s1.store.collision.None? && s1.store.pending == d.session.store.pending
            && s1.active == d.session.active && s1.store.maxInflight == d.session.store.maxInflight
            && AckTable(s1.store.outgoing, k + 1, now) == AckTable(slots, k + 1, now)
  {
    var slots := d.session.store.outgoing;
    AckSlot(d, k, now);
    AckTableSame(slots, slots[k := None], k + 1, now);
  }

  lemma {:induction false} FirstThenRest(d: DriverState, first: seq<Event>, rest: seq<Event>)
    requires Inv(d.session) && FairAcks(d, first) && FairAcks(Run(d, first).0, rest)
    requires RunOps(d, first).1 == [] && RunOps(d, first).2 == []
    requires RunOps(Run(d, first).0, rest).1 == [] && RunOps(Run(d, first).0, rest).2 == []
    ensures FairAcks(d, first + rest) && Run(d, first + rest).0 == Run(Run(d, first).0, rest).0
    ensures RunOps(d, first + rest) == (RunOps(d, first).0 + RunOps(Run(d, first).0, rest).0, [], [])
  {
    RunThen(d, first, rest);
    FairAppend(d, first, rest);
    RunOpsAppend(d, first, rest);
  }

  lemma {:induction false} AckTableSame(a: seq<Option<Op>>, b: seq<Option<Op>>, k: nat, now: int)
    requires k <= |a| == |b| <= 0x1_0000 && forall i :: k <= i < |a| ==> a[i] == b[i]
    ensures AckTable(a, k, now) == AckTable(b, k, now)
    decreases |a| - k
  {
    if k < |a| {
      AckTableSame(a, b, k + 1, now);
    }
  }

  // ---------- everything ----------

  // Every queued op that needs a slot has an id of the table, as those numbered by the
  // runtime do.
  ghost predicate IdsInTable(ops: seq<Op>, max: uint16) {
    forall i :: 0 <= i < |ops| && NeedsAck(ops[i].command) ==> PkidOf(ops[i].command) <= max
  }

  lemma {:induction false} ReplayKeepsIds(s: Session, ops: seq<Op>)
    requires Inv(s) && QueueOk(ops)
    requires IdsInTable(s.store.pending, s.store.maxInflight) && IdsInTable(ops, s.store.maxInflight)
    ensures IdsInTable(Replay(s, ops).0.store.pending, s.store.maxInflight)
    decreases ops
  {
    if ops != [] {
      ReplayOneSendsOrQueues(s, ops[0]);
      ReplayOneKeepsInv(s, ops[0]);
      ReplayKeepsIds(ReplayOne(s, ops[0]).0, ops[1..]);
    }
  }

  lemma {:induction false} OccupiedSlot(slots: seq<Option<Op>>, i: nat)
    requires i < |slots| && slots[i].Some?
    ensures Occupied(slots) > 0
  {
    if i > 0 {
      OccupiedSlot(slots[1..], i - 1);
    }
  }

  lemma {:induction false} NoneInTable(st: Store)
    requires StoreInv(st) && st.inflight == 0
    ensures forall p :: 0 <= p < |st.outgoing| ==> st.outgoing[p].None?
  {
    if p :| 0 <= p < |st.outgoing| && st.outgoing[p].Some? {
      OccupiedSlot(st.outgoing, p);
    }
  }

  // A replay onto an empty table sends a QoS 0 publish, or gives an op a slot.
  lemma {:induction false} ReplayMoves(s: Session, ops: seq<Op>)
    requires Inv(s) && EmptyTable(s.store) && QueueOk(ops) && ops != [] && IdsInTable(ops, s.store.maxInflight)
    ensures Qos0Ops(ops) != [] || Replay(s, ops).0.store.inflight > 0
  {
    var op := ops[0];
    if NeedsAck(op.command) {
      var p := PkidOf(op.command);
      ReplayKeepsInv(s, ops);
      ReplayFillsFirst(s, ops, p);
      ReplayKeepsSlots(s, ops);
      OccupiedSlot(Replay(s, ops).0.store.outgoing, p);
    }
  }

  function Reconnecting(now: int): seq<Event> {
    [ConnectionLost(false), ConnectionRestored(now)]
  }

  // While ops are held and none is in the table, a reconnect settles one or fills a slot.
  ghost predicate Moves(s: Session, s': Session) {
    Held(s'.store, Anything()) < Held(s.store, Anything())
    || (Held(s'.store, Anything()) == Held(s.store, Anything()) && s'.store.inflight > 0)
  }

  ghost predicate Going(s: Session) {
    Inv(s) && IdsInTable(s.store.pending, s.store.maxInflight)
  }

  lemma {:induction false} RestoreMoves(d: DriverState, now: int)
    requires Going(d.session) && EmptyTable(d.session.store) && d.session.store.pending != []
    ensures var s' := Step(d, ConnectionRestored(now)).0.session;
            Going(s') && Moves(d.session, s')
  {
    var e := ConnectionRestored(now);
    var start, ops := ReplayStart(d.session, now), d.session.store.pending;
    StepKeepsInv(d, e);
    StepKeepsSize(d, e);
    ReplayKeepsIds(start, ops);
    ReplayMoves(start, ops);
    StepConserves(d, e, Anything());
    CountAll(Qos0Ops(ops));
  }

  lemma {:induction false} ReconnectMoves(d: DriverState, now: int)
    requires Going(d.session) && d.session.store.inflight == 0 && Held(d.session.store, Anything()) > 0
    ensures FairAcks(d, Reconnecting(now))
    ensures var s' := Run(d, Reconnecting(now)).0.session;
            Going(s') && Moves(d.session, s')
  {
    var lost, up := ConnectionLost(false), ConnectionRestored(now);
    var d1 := Step(d, lost).0;
    StepKeepsInv(d, lost);
    StepKeepsInv(d1, up);
    LossConserves(d.session, false, Anything());
    CountBacklog(d.session.store, Anything());
    LossKeepsIds(d.session);
    RestoreMoves(d1, now);
    RunTwo(d, lost, up);
    assert Reconnecting(now)[1..] == [up] && [up][1..] == [];
  }

  lemma {:induction false} LossKeepsIds(s: Session)
    requires Going(s) && s.store.inflight == 0
    ensures Going(AfterLoss(s, false))
  {
    LossKeepsInv(s, false);
    NoneInTable(s.store);
    NothingDrained(s.store.outgoing);
  }

  lemma {:induction false} NothingDrained(slots: seq<Option<Op>>)
    requires forall p :: 0 <= p < |slots| ==> slots[p].None?
    ensures DrainSlots(slots) == []
  {
    if slots != [] {
      NothingDrained(slots[1..]);
    }
  }

  // An acknowledged slot is one op less.
  lemma {:induction false} AckMoves(d: DriverState, p: uint16, now: int)
    requires Going(d.session) && SlotAt(d.session.store, p).Some?
    ensures var es := AckEvents(d.session.store.outgoing[p].value, p, now);
            var s' := Run(d, es).0.session;
            && FairAcks(d, es) && Going(s')
            && Held(s'.store, Anything()) + 1 == Held(d.session.store, Anything())
  {
    var es := AckEvents(d.session.store.outgoing[p].value, p, now);
    AckSlot(d, p, now);
    RunConserves(d, es, Anything());
    CountAll(RunOps(d, es).0);
    NothingAccepted(es, Anything());
  }

  lemma {:induction false} NothingAccepted(es: seq<Event>, t: Test)
    requires forall i :: 0 <= i < |es| ==> !es[i].Submit?
    ensures RunAccepted(es, t) == 0
  {
    if es != [] {
      NothingAccepted(es[1..], t);
    }
  }

  // From any state, a broker that acknowledges by kind can, with reconnects for what is
  // queued or stranded, bring the session to hold nothing: every op held is completed, sent
  // at QoS 0 or lost.
  lemma {:induction false} CanFinish(d: DriverState, now: int) returns (es: seq<Event>)
    requires Going(d.session)
    ensures FairAcks(d, es) && forall i :: 0 <= i < |es| ==> !es[i].Submit? && !es[i].Tick?
    ensures Held(Run(d, es).0.session.store, Anything()) == 0
    ensures |RunOps(d, es).0| + |RunOps(d, es).1| + |RunOps(d, es).2| == Held(d.session.store, Anything())
  {
    es := Finishing(d, now);
    RunConserves(d, es, Anything());
    NothingAccepted(es, Anything());
    CountAll(RunOps(d, es).0);
    CountAll(RunOps(d, es).1);
    CountAll(RunOps(d, es).2);
  }

  lemma {:induction false} Finishing(d: DriverState, now: int) returns (es: seq<Event>)
    requires Going(d.session)
    ensures FairAcks(d, es) && forall i :: 0 <= i < |es| ==> !es[i].Submit? && !es[i].Tick?
    ensures Held(Run(d, es).0.session.store, Anything()) == 0
    decreases Held(d.session.store, Anything()), if d.session.store.inflight == 0 then 1 else 0
  {
    var st := d.session.store;
    if Held(st, Anything()) == 0 {
      es := [];
    } else {
      var first: seq<Event>;
      if st.inflight == 0 {
        first := Reconnecting(now);
        ReconnectMoves(d, now);
      } else {
        var p := SomeSlot(st);
        first := AckEvents(st.outgoing[p].value, p, now);
        AckMoves(d, p, now);
      }
      var rest := Finishing(Run(d, first).0, now);
      es := first + rest;
      RunThen(d, first, rest);
      FairAppend(d, first, rest);
    }
  }

  lemma {:induction false} SomeSlot(st: Store) returns (p: uint16)
    requires StoreInv(st) && st.inflight > 0
    ensures SlotAt(st, p).Some?
  {
    if forall i :: 0 <= i < |st.outgoing| ==> st.outgoing[i].None? {
      OccupiedNone(st.outgoing);
      assert false;
    }
    var i :| 0 <= i < |st.outgoing| && st.outgoing[i].Some?;
    p := i;
  }

  // ---------- after any run ----------

  // The command leaves its id to the runtime, or has one of the table.
  predicate NumberedInTable(e: Event, max: uint16) {
    e.Submit? && Trackable(e.command) ==> PkidOf(e.command) <= max
  }

  lemma {:induction false} IdsAppend(a: seq<Op>, b: seq<Op>, max: uint16)
    requires IdsInTable(a, max) && IdsInTable(b, max)
    ensures IdsInTable(a + b, max)
  {
  }

  lemma {:induction false} DrainedIdsInTable(slots: seq<Option<Op>>, max: uint16)
    requires SlotsOk(slots) && |slots| == max + 1
    ensures IdsInTable(DrainSlots(slots), max)
  {
    DrainedIds(slots, 0);
  }

  lemma {:induction false} BacklogInTable(st: Store)
    requires StoreInv(st) && IdsInTable(st.pending, st.maxInflight)
    ensures IdsInTable(Backlog(st), st.maxInflight)
  {
    var drained, parked := DrainSlots(st.outgoing), AsList(ParkedOp(st));
    DrainedIdsInTable(st.outgoing, st.maxInflight);
    IdsAppend(st.pending, drained, st.maxInflight);
    IdsAppend(st.pending + drained, parked, st.maxInflight);
    assert Backlog(st) == (st.pending + drained) + parked;
  }

  lemma {:induction false} CommandKeepsIds(s: Session, c: Command)
    requires Going(s) && Trackable(c) && PkidOf(c) <= s.store.maxInflight
    ensures Going(AfterCommand(s, c).0)
  {
    CommandKeepsInv(s, c);
    IdsAppend(s.store.pending, [OpOf(AssignPkid(s.pool, c).1)], s.store.maxInflight);
  }

  lemma {:induction false} StepKeepsGoing(d: DriverState, e: Event)
    requires Going(d.session) && NumberedInTable(e, d.session.store.maxInflight)
    ensures Going(Step(d, e).0.session)
  {
    StepKeepsInv(d, e);
    StepKeepsSize(d, e);
    match e {
      case Tick(now) => BacklogInTable(d.session.store);
      case Submit(c, now) =>
        if Trackable(c) {
          CommandKeepsIds(d.session, c);
        }
      case Incoming(packet, now) => IncomingKeepsQueue(d.session, packet, now);
      case ConnectionLost(clean) => BacklogInTable(d.session.store);
      case ConnectionRestored(now) => ReplayKeepsIds(ReplayStart(d.session, now), d.session.store.pending);
    }
  }

  lemma {:induction false} RunKeepsGoing(d: DriverState, es: seq<Event>)
    requires Going(d.session) && forall i :: 0 <= i < |es| ==> NumberedInTable(es[i], d.session.store.maxInflight)
    ensures Going(Run(d, es).0.session)
    decreases es
  {
    if es != [] {
      StepKeepsGoing(d, es[0]);
      StepKeepsSize(d, es[0]);
      RunKeepsGoing(Step(d, es[0]).0, es[1..]);
    }
  }

  // So it is after any run of a fresh session whose commands leave their ids to the
  // runtime.
  lemma {:induction false} AnyRunCanFinish(max: uint16, keepAlive: nat, t0: int, clean: bool, es: seq<Event>, now: int)
    returns (more: seq<Event>)
    requires max > 0 && forall i :: 0 <= i < |es| ==> NumberedInTable(es[i], max)
    ensures Inv(InitialSession(max, keepAlive, t0))
    ensures var d := Run(DriverState(InitialSession(max, keepAlive, t0), clean), es).0;
            && FairAcks(d, more) && (forall i :: 0 <= i < |more| ==> !more[i].Submit? && !more[i].Tick?)
            && Held(Run(d, more).0.session.store, Anything()) == 0
  {
    InitialInv(max, keepAlive, t0);
    var d0 := DriverState(InitialSession(max, keepAlive, t0), clean);
    RunKeepsGoing(d0, es);
    more := Finishing(Run(d0, es).0, now);
  }
}
