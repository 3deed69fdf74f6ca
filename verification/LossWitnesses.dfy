// Two runs that lose an accepted publish although every packet id is the runtime's own
// choice and the broker acknowledges properly: one on a reconnect, one online.
module LossWitnesses {
  import opened Bytes
  import opened Types
  import opened Wrappers
  import opened PacketIds
  import opened Inflight
  import opened SessionState
  import opened Driver
  import opened SessionInvariant
  import opened Conservation
  import opened ReplayLosses
  import opened RunConservation
  import opened Reconnect
  import opened OfflineBacklog

  predicate Qos1Publish(c: Command) {
    c.Publish? && c.publish.qos == AtLeastOnce && c.publish.pkid == 0
  }

  // Publishes as `ClientHandle::publish` issues them under QoS 1.
  ghost predicate Qos1Publishes(cs: seq<Command>) {
    forall i :: 0 <= i < |cs| ==> Qos1Publish(cs[i])
  }

  // ---------- queues in which every op is tracked ----------

  ghost predicate AllTracked(ops: seq<Op>) {
    forall i :: 0 <= i < |ops| ==> NeedsAck(ops[i].command)
  }

  lemma {:induction false} TrackedQueue(ops: seq<Op>, room: nat)
    requires AllTracked(ops) && room <= |ops|
    ensures TrackedOps(ops) == ops && KeptBack(ops, room) == ops[room..]
    decreases ops
  {
    if ops != [] {
      TrackedQueue(ops[1..], if room > 0 then room - 1 else 0);
      if room > 0 {
        assert ops[1..][room - 1..] == ops[room..];
      } else {
        assert [ops[0]] + ops[1..] == ops;
      }
    }
  }

  lemma {:induction false} QueuedIds(pool: Pool, cs: seq<Command>)
    requires ValidPool(pool) && Qos1Publishes(cs)
    ensures |Queued(pool, cs)| == |cs| == |Candidates(pool, |cs|)|
    ensures AllTracked(Queued(pool, cs))
    ensures forall i :: 0 <= i < |cs| ==> PkidOf(Queued(pool, cs)[i].command) == Candidates(pool, |cs|)[i]
    decreases cs
  {
    if cs != [] {
      QueuedIds(Advance(pool), cs[1..]);
    }
  }

  // ---------- lost on a reconnect ----------

  lemma {:induction false} DrainTwo(slots: seq<Option<Op>>)
    requires |slots| >= 3 && slots[0].None? && slots[1].Some? && slots[2].Some?
    ensures DrainSlots(slots) == [slots[1].value, slots[2].value] + DrainSlots(slots[3..])
  {
    assert slots[1..][1..] == slots[2..] && slots[2..][1..] == slots[3..];
    assert slots[1..][0] == slots[1] && slots[2..][0] == slots[2];
    assert DrainSlots(slots[1..]) == [slots[1].value] + DrainSlots(slots[2..]);
    assert DrainSlots(slots[2..]) == [slots[2].value] + DrainSlots(slots[3..]);
  }

  // Four turns on an empty table, with ids 1, 2, 1, 2: the third op is parked, and the
  // fourth takes the park from it.
  lemma {:induction false} FourTurns(s: Session, ops: seq<Op>)
    requires Inv(s) && EmptyTable(s.store) && s.store.maxInflight >= 3
    requires |ops| >= 4 && QueueOk(ops) && AllTracked(ops[..4])
    requires PkidOf(ops[0].command) == PkidOf(ops[2].command) == 1
    requires PkidOf(ops[1].command) == PkidOf(ops[3].command) == 2
    ensures LostOnReplay(s, ops) != [] && LostOnReplay(s, ops)[0] == Redelivered(ops[2])
  {
    assert forall i :: 0 <= i < 4 ==> ops[..4][i] == ops[i];
    var s1 := ReplayOne(s, ops[0]).0;
    ReplayOneKeepsInv(s, ops[0]);
    ReplayOneInserted(s, ops[0]);
    var s2 := ReplayOne(s1, ops[1]).0;
    ReplayOneKeepsInv(s1, ops[1]);
    ReplayOneInserted(s1, ops[1]);
    OccupiedNone(s.store.outgoing);
    assert s2.store.inflight == 2 && s2.store.outgoing[1].Some? && s2.store.outgoing[2].Some?;
    var s3 := ReplayOne(s2, ops[2]).0;
    TakenTwice(s2, ops[2], ops[3]);
    FirstLost(s, ops, s1, s2, s3);
  }

  lemma {:induction false} TakenTwice(s: Session, a: Op, b: Op)
    requires Inv(s) && s.store.collision.None? && s.store.inflight < s.store.maxInflight
    requires QueuedOp(a) && NeedsAck(a.command) && QueuedOp(b) && NeedsAck(b.command)
    requires SlotAt(s.store, PkidOf(a.command)).Some? && SlotAt(s.store, PkidOf(b.command)).Some?
    ensures LostOnReplayOne(s, a) == [] && LostOnReplayOne(ReplayOne(s, a).0, b) == [Redelivered(a)]
  {
    ReplayOneTaken(s, a);
  }

  lemma {:induction false} FirstLost(s: Session, ops: seq<Op>, s1: Session, s2: Session, s3: Session)
    requires |ops| >= 4
    requires s1 == ReplayOne(s, ops[0]).0 && s2 == ReplayOne(s1, ops[1]).0 && s3 == ReplayOne(s2, ops[2]).0
    requires LostOnReplayOne(s, ops[0]) == LostOnReplayOne(s1, ops[1]) == LostOnReplayOne(s2, ops[2]) == []
    ensures LostOnReplay(s, ops) == LostOnReplayOne(s3, ops[3]) + LostOnReplay(ReplayOne(s3, ops[3]).0, ops[4..])
  {
    assert ops[1..][1..] == ops[2..] && ops[2..][1..] == ops[3..] && ops[3..][1..] == ops[4..];
    assert LostOnReplay(s, ops) == LostOnReplay(s1, ops[1..]);
    assert LostOnReplay(s1, ops[1..]) == LostOnReplay(s2, ops[2..]);
    assert LostOnReplay(s2, ops[2..]) == LostOnReplay(s3, ops[3..]);
  }

  lemma {:induction false} BacklogHead(st: Store)
    requires |st.outgoing| >= 3 && st.outgoing[0].None? && st.outgoing[1].Some? && st.outgoing[2].Some?
    requires |st.pending| == 2
    ensures |Backlog(st)| >= 4
    ensures Backlog(st)[..4] == st.pending + [st.outgoing[1].value, st.outgoing[2].value]
    ensures Backlog(st)[0] == st.pending[0] && Backlog(st)[1] == st.pending[1]
    ensures Backlog(st)[2] == st.outgoing[1].value && Backlog(st)[3] == st.outgoing[2].value
  {
    DrainTwo(st.outgoing);
  }

  // Ids 1 and 2 queued once more than slots 1 and 2 hold: a reconnect loses the op of
  // slot 1.
  lemma {:induction false} ReconnectLosesSlotOne(s: Session, clean: bool, now: int)
    requires Inv(s) && s.store.maxInflight >= 3
    requires AllTracked(s.store.pending) && |s.store.pending| == 2
    requires PkidOf(s.store.pending[0].command) == 1 && PkidOf(s.store.pending[1].command) == 2
    requires s.store.outgoing[1].Some? && s.store.outgoing[2].Some?
    ensures var lost := Lost(AfterLoss(s, clean), ConnectionRestored(now));
            lost != [] && lost[0] == Redelivered(s.store.outgoing[1].value)
  {
    var ops := Backlog(s.store);
    LossKeepsInv(s, clean);
    BacklogHead(s.store);
    FourTurns(ReplayStart(AfterLoss(s, clean), now), ops);
  }

  // The connection that follows max + 2 publishes given offline leaves two of them queued,
  // with the ids of the first two, which hold slots 1 and 2.
  ghost predicate TwoLeft(st: Store, first: Command) {
    && |st.outgoing| >= 4 && st.outgoing[1].Some? && st.outgoing[2].Some?
    && Core(st.outgoing[1].value.command) == Core(first)
    && |st.pending| == 2 && AllTracked(st.pending)
    && PkidOf(st.pending[0].command) == 1 && PkidOf(st.pending[1].command) == 2
  }

  // What the queue of max + 2 publishes looks like.
  ghost predicate TwoTooMany(ops: seq<Op>, max: uint16, first: Command) {
    && max >= 3 && |ops| == max + 2 && QueueOk(ops) && AllTracked(ops)
    && PkidOf(ops[max].command) == 1 && PkidOf(ops[max + 1].command) == 2
    && Core(ops[0].command) == Core(first)
  }

  lemma {:induction false} QueueShape(max: uint16, cs: seq<Command>)
    requires max >= 3 && |cs| == max + 2 && Qos1Publishes(cs)
    ensures TwoTooMany(Queued(Pool(0, max), cs), max, cs[0])
  {
    var pool := Pool(0, max);
    QueuedIds(pool, cs);
    QueuedKeepsCommands(pool, cs);
    CandidateAt(pool, |cs|, max);
    CandidateAt(pool, |cs|, max + 1);
  }

  lemma {:induction false} ConnectionLeavesTwo(d: DriverState, first: Command, now: int)
    requires Inv(d.session) && EmptyTable(d.session.store)
    requires TwoTooMany(d.session.store.pending, d.session.store.maxInflight, first)
    requires CountUp(d.session.store.pending, 0, d.session.store.maxInflight)
    ensures TwoLeft(Step(d, ConnectionRestored(now)).0.session.store, first)
  {
    var ops, start := d.session.store.pending, ReplayStart(d.session, now);
    FirstConnection(d, now);
    LeavesTwo(start, Replay(start, ops), ops, first);
  }

  lemma {:induction false} LeavesTwo(s: Session, r: (Session, seq<Packet>), ops: seq<Op>, first: Command)
    requires TwoTooMany(ops, s.store.maxInflight, first)
    requires |s.store.outgoing| == s.store.maxInflight + 1 && s.store.pending == [] && Drained(s, r, ops, 0)
    ensures TwoLeft(r.0.store, first)
  {
    var max := s.store.maxInflight;
    LeftQueue(s, r, ops);
    FirstSlots(s.store.outgoing, r.0.store.outgoing, ops);
    ShapeLeft(r.0.store, ops[0], ops[1], ops[max], ops[max + 1], first);
  }

  lemma {:induction false} LeftQueue(s: Session, r: (Session, seq<Packet>), ops: seq<Op>)
    requires QueueOk(ops) && AllTracked(ops) && |ops| == s.store.maxInflight + 2
    requires s.store.pending == [] && Drained(s, r, ops, 0)
    ensures var max := s.store.maxInflight;
            r.0.store.pending == [Redelivered(ops[max]), Redelivered(ops[max + 1])]
  {
    var max := s.store.maxInflight;
    LastTwo(ops, max);
    assert [] + RedeliveredAll(KeptBack(ops, max)) == RedeliveredAll(KeptBack(ops, max));
  }

  lemma {:induction false} ShapeLeft(st: Store, one: Op, two: Op, third: Op, fourth: Op, first: Command)
    requires QueuedOp(one) && QueuedOp(two) && QueuedOp(third) && QueuedOp(fourth)
    requires NeedsAck(third.command) && NeedsAck(fourth.command) && Core(one.command) == Core(first)
    requires PkidOf(third.command) == 1 && PkidOf(fourth.command) == 2
    requires |st.outgoing| >= 4
    requires st.outgoing[1] == Some(Redelivered(one)) && st.outgoing[2] == Some(Redelivered(two))
    requires st.pending == [Redelivered(third), Redelivered(fourth)]
    ensures TwoLeft(st, first)
  {
    RedeliveredSame(one);
    RedeliveredSame(third);
    RedeliveredSame(fourth);
  }

  lemma {:induction false} RedeliveredSame(op: Op)
    requires QueuedOp(op)
    ensures Core(Redelivered(op).command) == Core(op.command)
    ensures PkidOf(Redelivered(op).command) == PkidOf(op.command)
    ensures NeedsAck(Redelivered(op).command) == NeedsAck(op.command)
  {
  }

  lemma {:induction false} LastTwo(ops: seq<Op>, max: nat)
    requires QueueOk(ops) && AllTracked(ops) && |ops| == max + 2
    ensures QueueOk(KeptBack(ops, max))
    ensures RedeliveredAll(KeptBack(ops, max)) == [Redelivered(ops[max]), Redelivered(ops[max + 1])]
  {
    TrackedQueue(ops, max);
    assert ops[max..] == [ops[max], ops[max + 1]];
  }

  lemma {:induction false} FirstSlots(slots: seq<Option<Op>>, slots': seq<Option<Op>>, ops: seq<Op>)
    requires QueueOk(ops) && AllTracked(ops) && |ops| >= 2 && |slots| >= 3 && SlotsHold(slots, slots', ops, 0)
    ensures |slots'| == |slots|
    ensures slots'[1] == Some(Redelivered(ops[0])) && slots'[2] == Some(Redelivered(ops[1]))
  {
    TrackedQueue(ops, 0);
  }

  // Publishes given offline, two more than the table holds, then a connection, a loss and
  // a restoration, with no packet from the broker: the first publish, sent but not yet
  // acknowledged, is lost.
  lemma {:induction false} OfflinePublishLost(max: uint16, keepAlive: nat, t0: int, clean: bool,
                                              cs: seq<Command>, now: int)
    requires max >= 3 && |cs| == max + 2 && Qos1Publishes(cs)
    ensures Inv(InitialSession(max, keepAlive, t0))
    ensures var d0 := DriverState(InitialSession(max, keepAlive, t0), clean);
            var d := Run(d0, Submits(cs, now) + [ConnectionRestored(now), ConnectionLost(clean)]).0;
            var lost := Lost(d.session, ConnectionRestored(now));
            lost != [] && Core(lost[0].command) == Core(cs[0])
  {
    var d0 := DriverState(InitialSession(max, keepAlive, t0), clean);
    FreshOffline(max, keepAlive, t0, clean, cs, now);
    QueueShape(max, cs);
    TwoTooManyLoseOne(Run(d0, Submits(cs, now)).0, cs[0], clean, now);
    RunThen(d0, Submits(cs, now), [ConnectionRestored(now), ConnectionLost(clean)]);
  }

  lemma {:induction false} TwoTooManyLoseOne(d: DriverState, first: Command, clean: bool, now: int)
    requires Inv(d.session) && EmptyTable(d.session.store)
    requires TwoTooMany(d.session.store.pending, d.session.store.maxInflight, first)
    requires CountUp(d.session.store.pending, 0, d.session.store.maxInflight)
    ensures var s := Run(d, [ConnectionRestored(now), ConnectionLost(clean)]).0.session;
            var lost := Lost(s, ConnectionRestored(now));
            lost != [] && Core(lost[0].command) == Core(first)
  {
    var up := ConnectionRestored(now);
    var d1 := Step(d, up).0;
    ConnectionLeavesTwo(d, first, now);
    StepKeepsInv(d, up);
    StepKeepsSize(d, up);
    RunTwo(d, up, ConnectionLost(clean));
    ReconnectLosesSlotOne(d1.session, clean, now);
    RedeliveredSame(d1.session.store.outgoing[1].value);
  }

  // ---------- lost online ----------

  // An active session whose slots 1..k are taken, with id k given last and nothing parked
  // or queued.
  ghost predicate CountedTo(s: Session, k: nat) {
    s.active && s.store.pending == [] && FilledTo(s.store, k) && s.pool.last == k
  }

  lemma {:induction false} OnlineCommand(s: Session, c: Command, k: nat)
    requires Inv(s) && CountedTo(s, k) && k < s.store.maxInflight && Qos1Publish(c)
    ensures CountedTo(AfterCommand(s, c).0, k + 1)
  {
    assert s.store.outgoing[k + 1].None?;
  }

  // While there is room, publishes fill the slots in order.
  lemma {:induction false} OnlineFills(d: DriverState, cs: seq<Command>, now: int, k: nat)
    requires Inv(d.session) && CountedTo(d.session, k) && Qos1Publishes(cs)
    requires k + |cs| <= d.session.store.maxInflight
    ensures CountedTo(Run(d, Submits(cs, now)).0.session, k + |cs|)
    decreases cs
  {
    if cs != [] {
      StepKeepsInv(d, Submit(cs[0], now));
      OnlineCommand(d.session, cs[0], k);
      assert Submits(cs, now)[1..] == Submits(cs[1..], now);
      OnlineFills(Step(d, Submit(cs[0], now)).0, cs[1..], now, k + 1);
    }
  }

  // All slots taken but slot 2, slot 1's id up next.
  ghost predicate SlotTwoFree(s: Session) {
    && s.active && s.store.collision.None? && s.pool.last == s.store.maxInflight >= 3
    && s.store.inflight == s.store.maxInflight - 1
    && SlotAt(s.store, 2).None? && SlotAt(s.store, 1).Some?
  }

  lemma {:induction false} AckFreesTwo(s: Session, now: int)
    requires Inv(s) && s.store.maxInflight >= 3 && CountedTo(s, s.store.maxInflight)
    ensures SlotTwoFree(OnIncoming(s, Packet.PubAck(2), now).0)
  {
  }

  // The first publish is parked, the second takes slot 2, and the third finds the table
  // full and the park taken.
  lemma {:induction false} ThirdFindsNoPlace(s: Session, a: Command, b: Command, c: Command, now: int)
    requires Inv(s) && SlotTwoFree(s) && Qos1Publish(a) && Qos1Publish(b) && Qos1Publish(c)
    ensures var s2 := OnSubmit(OnSubmit(s, a, now).0, b, now).0;
            Lost(s2, Submit(c, now)) == [OpOf(WithPkid(c, 3))]
  {
    FirstIsParked(s, a, now);
    SecondFillsTable(OnSubmit(s, a, now).0, b, now);
  }

  lemma {:induction false} SecondFillsTable(s: Session, b: Command, now: int)
    requires Inv(s) && s.active && s.store.collision.Some? && s.pool.last == 1 && Qos1Publish(b)
    requires s.store.inflight == s.store.maxInflight - 1 && s.store.maxInflight >= 3 && SlotAt(s.store, 2).None?
    ensures var s' := OnSubmit(s, b, now).0;
            s'.active && s'.store.inflight == s'.store.maxInflight == s.store.maxInflight
            && s'.store.collision.Some? && s'.pool == s.pool.(last := 2)
  {
  }

  lemma {:induction false} FirstIsParked(s: Session, a: Command, now: int)
    requires Inv(s) && SlotTwoFree(s) && Qos1Publish(a)
    ensures OnSubmit(s, a, now).0
         == s.(pool := s.pool.(last := 1), store := s.store.(collision := Some(Parked(1, OpOf(WithPkid(a, 1))))))
  {
  }

  // A connection, as many publishes as the table holds, a PUBACK for the second of them,
  // then three more publishes: the last is dropped.
  lemma {:induction false} OnlinePublishLost(max: uint16, keepAlive: nat, t0: int, clean: bool, cs: seq<Command>,
                                             a: Command, b: Command, c: Command, now: int)
    requires max >= 3 && |cs| == max && Qos1Publishes(cs)
    requires Qos1Publish(a) && Qos1Publish(b) && Qos1Publish(c)
    ensures Inv(InitialSession(max, keepAlive, t0))
    ensures var d0 := DriverState(InitialSession(max, keepAlive, t0), clean);
            var es := [ConnectionRestored(now)] + Submits(cs, now)
                      + [Incoming(Packet.PubAck(2), now), Submit(a, now), Submit(b, now)];
            var lost := Lost(Run(d0, es).0.session, Submit(c, now));
            |lost| == 1 && Core(lost[0].command) == Core(c)
  {
    var d0 := DriverState(InitialSession(max, keepAlive, t0), clean);
    var ack := Incoming(Packet.PubAck(2), now);
    var full := [ConnectionRestored(now)] + Submits(cs, now);
    TableFills(max, keepAlive, t0, clean, cs, now);
    var d2 := Run(d0, full).0;
    AckFreesTwo(d2.session, now);
    StepKeepsInv(d2, ack);
    var d3 := Step(d2, ack).0;
    ThirdFindsNoPlace(d3.session, a, b, c, now);
    RunThen(d0, full, [ack, Submit(a, now), Submit(b, now)]);
    RunThen(d2, [ack], [Submit(a, now), Submit(b, now)]);
    assert [ack] + [Submit(a, now), Submit(b, now)] == [ack, Submit(a, now), Submit(b, now)];
    RunOne(d2, ack);
    RunTwo(d3, Submit(a, now), Submit(b, now));
  }

  lemma {:induction false} TableFills(max: uint16, keepAlive: nat, t0: int, clean: bool, cs: seq<Command>, now: int)
    requires max > 0 && |cs| == max && Qos1Publishes(cs)
    ensures Inv(InitialSession(max, keepAlive, t0))
    ensures var s := Run(DriverState(InitialSession(max, keepAlive, t0), clean),
                         [ConnectionRestored(now)] + Submits(cs, now)).0.session;
            CountedTo(s, max) && s.store.maxInflight == max
  {
    var d0 := DriverState(InitialSession(max, keepAlive, t0), clean);
    var up := ConnectionRestored(now);
    InitialInv(max, keepAlive, t0);
    StepKeepsInv(d0, up);
    var d1 := Step(d0, up).0;
    assert CountedTo(d1.session, 0);
    OnlineFills(d1, cs, now, 0);
    RunKeepsSize(d1, Submits(cs, now));
    RunThen(d0, [up], Submits(cs, now));
    RunOne(d0, up);
  }
}
