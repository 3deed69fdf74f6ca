// Runs of an active task in which a route changes, a message is delivered, and a client is
// told of a publish that was sent a second time after a timeout.
module TaskWitnesses {
  import opened Bytes
  import opened Types
  import opened Wrappers
  import opened PacketIds
  import opened Inflight
  import opened SessionState
  import opened Driver
  import opened SessionInvariant
  import opened Reconnect
  import opened Routing
  import opened Task
  import opened TaskRuns
  import opened TaskReports

  // A task around a session made active beforehand.
  function ActiveTask(max: uint16, keepAlive: nat, t0: int, clean: bool): TaskState
    requires max > 0
  {
    TaskState(DriverState(InitialSession(max, keepAlive, t0).(active := true), clean), [])
  }

  lemma {:induction false} ActiveTaskInv(max: uint16, keepAlive: nat, t0: int, clean: bool)
    requires max > 0
    ensures TaskInv(ActiveTask(max, keepAlive, t0, clean))
  {
    InitialInv(max, keepAlive, t0);
  }

  // One action, one effect.
  lemma {:induction false} OneActionTurn(t: TaskState, e: TaskEvent)
    requires TaskInv(t) && !IsPublish(e)
    requires Step(t.driver, DriverEvent(e)).1.Ok? && |Step(t.driver, DriverEvent(e)).1.value| == 1
    ensures var (d, out) := Step(t.driver, DriverEvent(e));
            var (t1, effects) := Perform(t.(driver := d), out.value[0], e.now);
            TaskStep(t, e) == (t1, Ok(effects))
  {
    var (d, out) := Step(t.driver, DriverEvent(e));
    assert out.value[1..] == [];
    var (t1, effects) := Perform(t.(driver := d), out.value[0], e.now);
    assert PerformAll(t1, [], e.now) == (t1, []);
    assert effects + [] == effects;
  }

  lemma {:induction false} OneNotice(client: nat, completion: Completion)
    ensures Notified([Notify(client, completion)], client, completion.tokenId) == 1
  {
    assert [Notify(client, completion)][1..] == [];
  }

  // An op waits in slot 1, and the session holds nothing else.
  ghost predicate Waits(t: TaskState, op: Op) {
    var s := t.driver.session;
    && TaskInv(t) && s.active && s.store.collision.None? && s.store.pending == []
    && |s.store.outgoing| > 1 && s.store.outgoing[1] == Some(op)
    && forall p :: 0 <= p < |s.store.outgoing| && p != 1 ==> s.store.outgoing[p].None?
  }

  lemma {:induction false} FirstCommand(max: uint16, keepAlive: nat, t0: int, clean: bool, c: Types.Command, now: int)
    requires max > 0 && Trackable(c) && NeedsAck(c) && PkidOf(c) == 0
    ensures TaskInv(ActiveTask(max, keepAlive, t0, clean))
    ensures var t := ActiveTask(max, keepAlive, t0, clean);
            var numbered := WithPkid(c, 1);
            var (t1, turn) := TaskStep(t, Command(c, now));
            && Waits(t1, OpOf(numbered)) && turn == Ok([Wire(PacketOf(numbered))])
            && t1.routes == [] && t1.driver.session.awaitPingresp == false && t1.driver.session.lastOutgoing == now
            && t1.driver.session.lastIncoming == t0 && t1.driver.session.keepAlive == keepAlive
  {
    var t := ActiveTask(max, keepAlive, t0, clean);
    ActiveTaskInv(max, keepAlive, t0, clean);
    TaskStepKeepsInv(t, Command(c, now));
    OneActionTurn(t, Command(c, now));
  }

  // A subscription takes effect: the client is told, and its filters are routed to it.
  lemma {:induction false} SubscriptionTakesEffect(max: uint16, keepAlive: nat, t0: int, clean: bool,
                                                   c: Types.Command, codes: seq<byte>, now: int)
    requires max > 0 && c.Subscribe? && c.subscribe.pkid == 0
    ensures var t := ActiveTask(max, keepAlive, t0, clean);
            var es := [Command(c, now), Received(Packet.SubAck(SubAck.SubAck(1, codes)), now)];
            && TaskInv(t)
            && RunNotified(t, es, c.clientId, c.tokenId) == 1
            && RunChanges(t, es) == [Subscribed(c.clientId, c.subscribe.filters)]
            && Pairs(TaskRun(t, es).routes) == FilterPairs(c.clientId, c.subscribe.filters)
  {
    var t := ActiveTask(max, keepAlive, t0, clean);
    var ack := Received(Packet.SubAck(SubAck.SubAck(1, codes)), now);
    FirstCommand(max, keepAlive, t0, clean, c, now);
    var t1 := TaskStep(t, Command(c, now)).0;
    AckedSubscription(t1, c, codes, now);
    NoNotice([Wire(PacketOf(WithPkid(c, 1)))], c.clientId, c.tokenId);
    RunOfTwo(t, Command(c, now), ack, c.clientId, c.tokenId);
    RoutesOfTwo(t, Command(c, now), ack);
    OneChange(c.clientId, c.subscribe.filters);
  }

  lemma {:induction false} OneChange(client: nat, filters: seq<Filter>)
    ensures Fold({}, [Subscribed(client, filters)]) == FilterPairs(client, filters)
  {
    assert [Subscribed(client, filters)][1..] == [];
    assert {} + FilterPairs(client, filters) == FilterPairs(client, filters);
  }

  // The routes after two turns of a task without any, the first of which changes none.
  lemma {:induction false} RoutesOfTwo(t: TaskState, e: TaskEvent, f: TaskEvent)
    requires TaskInv(t) && t.routes == [] && !(e.Received? && (e.packet.SubAck? || e.packet.UnsubAck?))
    ensures TaskInv(TaskStep(t, e).0)
    ensures var changes := TurnChanges(TaskStep(t, e).0, f);
            RunChanges(t, [e, f]) == changes && Pairs(TaskRun(t, [e, f]).routes) == Fold({}, changes)
  {
    var t1 := TaskStep(t, e).0;
    NoChange(t, e);
    assert [e] + ([f] + []) == [e, f];
    RunCons(t, e, [f] + [], 0, 0);
    RunCons(t1, f, [], 0, 0);
    RoutesFollowAcks(t, [e, f]);
  }

  lemma {:induction false} AckedSubscription(t: TaskState, c: Types.Command, codes: seq<byte>, now: int)
    requires c.Subscribe? && Waits(t, OpOf(WithPkid(c, 1)))
    ensures var ack := Received(Packet.SubAck(SubAck.SubAck(1, codes)), now);
            && TurnNotified(TaskStep(t, ack).1, c.clientId, c.tokenId) == 1
            && TurnChanges(t, ack) == [Subscribed(c.clientId, c.subscribe.filters)]
  {
    var ack := Received(Packet.SubAck(SubAck.SubAck(1, codes)), now);
    var out := Step(t.driver, DriverEvent(ack)).1;
    OneActionTurn(t, ack);
    OneNotice(c.clientId, Completion.SubAck(c.tokenId, 1));
    assert out.value[1..] == [] && ChangesOf([]) == [];
  }

  lemma {:induction false} RunCons(t: TaskState, e: TaskEvent, es: seq<TaskEvent>, client: nat, token: nat)
    requires TaskInv(t)
    ensures TaskInv(TaskStep(t, e).0)
    ensures var t1 := TaskStep(t, e).0;
            && RunNotified(t, [e] + es, client, token)
               == TurnNotified(TaskStep(t, e).1, client, token) + RunNotified(t1, es, client, token)
            && RunChanges(t, [e] + es) == TurnChanges(t, e) + RunChanges(t1, es)
            && TaskRun(t, [e] + es) == TaskRun(t1, es)
  {
    TaskStepKeepsInv(t, e);
    assert ([e] + es)[0] == e && ([e] + es)[1..] == es;
  }

  lemma {:induction false} DrainNone(slots: seq<Option<Op>>)
    requires forall i :: 0 <= i < |slots| ==> slots[i].None?
    ensures DrainSlots(slots) == []
  {
    if slots != [] {
      DrainNone(slots[1..]);
    }
  }

  lemma {:induction false} DrainOne(slots: seq<Option<Op>>)
    requires |slots| > 1 && slots[1].Some? && forall p :: 0 <= p < |slots| && p != 1 ==> slots[p].None?
    ensures DrainSlots(slots) == [slots[1].value]
  {
    assert slots[1..][0] == slots[1] && slots[1..][1..] == slots[2..];
    DrainNone(slots[2..]);
    assert DrainSlots(slots[1..]) == [slots[1].value] + DrainSlots(slots[2..]);
  }

  // A tick with nothing sent or received for the keep-alive time, no PINGREQ outstanding.
  lemma {:induction false} PingTurn(t: TaskState, op: Op, now: int)
    requires Waits(t, op) && !t.driver.session.awaitPingresp
    requires Since(now, Max(t.driver.session.lastIncoming, t.driver.session.lastOutgoing)) >= t.driver.session.keepAlive
    ensures var (t', turn) := TaskStep(t, Timer(now));
            && Waits(t', op) && turn == Ok([Wire(PingReq)])
            && t'.driver.session.awaitPingresp && t'.driver.session.lastOutgoing == now
            && t'.driver.session.keepAlive == t.driver.session.keepAlive
  {
    TaskStepKeepsInv(t, Timer(now));
    OneActionTurn(t, Timer(now));
  }

  // A tick with a PINGREQ outstanding for that long.
  lemma {:induction false} TimeoutTurn(t: TaskState, op: Op, now: int)
    requires Waits(t, op) && t.driver.session.awaitPingresp
    requires Since(now, t.driver.session.lastOutgoing) >= t.driver.session.keepAlive
    ensures Trackable(op.command)
    ensures var (t', turn) := TaskStep(t, Timer(now));
            && Waits(t', Redelivered(op))
            && turn == Ok([BroadcastDisconnected, Wire(Redelivered(op).packet), BroadcastReconnected])
  {
    var s, clean := t.driver.session, t.driver.cleanSession;
    TaskStepKeepsInv(t, Timer(now));
    OneActionTurn(t, Timer(now));
    DrainOne(s.store.outgoing);
    SessionRoundTrip(s, clean, now);
    var sent := Reconnected(s, clean, now).1;
    assert sent == [Redelivered(op).packet];
    assert Wires(sent) == [Wire(Redelivered(op).packet)];
    assert [BroadcastDisconnected] + (Wires(sent) + [BroadcastReconnected])
        == [BroadcastDisconnected, Wire(Redelivered(op).packet), BroadcastReconnected];
  }

  lemma {:induction false} PubAckTurn(t: TaskState, op: Op, now: int)
    requires Waits(t, op)
    ensures TurnNotified(TaskStep(t, Received(Packet.PubAck(1), now)).1, op.clientId, op.tokenId) == 1
  {
    OneActionTurn(t, Received(Packet.PubAck(1), now));
    OneNotice(op.clientId, Completion.PubAck(op.tokenId, 1));
  }

  // The connection turns out dead after a publish: after one keep-alive time a PINGREQ goes
  // out, after another the connection is given up and restored, and the publish is sent
  // again. The client is told of it once, when it is acknowledged.
  lemma {:induction false} ReportedAfterReplay(max: uint16, keepAlive: nat, t0: int, clean: bool, c: Types.Command)
    requires max > 0 && c.Publish? && c.publish.qos == AtLeastOnce && c.publish.pkid == 0
    ensures var t := ActiveTask(max, keepAlive, t0, clean);
            var es := [Command(c, t0), Timer(t0 + keepAlive), Timer(t0 + 2 * keepAlive),
                       Received(Packet.PubAck(1), t0 + 2 * keepAlive)];
            var again := Packet.Publish(c.publish.(pkid := 1, dup := true));
            && TaskInv(t)
            && TaskStep(TaskRun(t, es[..2]), es[2]).1
               == Ok([BroadcastDisconnected, Wire(again), BroadcastReconnected])
            && RunNotified(t, es, c.clientId, c.tokenId) == 1
  {
    var t := ActiveTask(max, keepAlive, t0, clean);
    var client, token, op := c.clientId, c.tokenId, OpOf(WithPkid(c, 1));
    var command, first, second := Command(c, t0), Timer(t0 + keepAlive), Timer(t0 + 2 * keepAlive);
    var ack := Received(Packet.PubAck(1), t0 + 2 * keepAlive);
    FirstCommand(max, keepAlive, t0, clean, c, t0);
    var t1 := TaskStep(t, command).0;
    DeadConnection(t1, op, first.now, second.now, client, token);
    var t3 := TaskRun(t1, [first, second]);
    PubAckTurn(t3, Redelivered(op), ack.now);
    NoNotice([Wire(op.packet)], client, token);
    FourTurns(t, command, first, second, ack, client, token);
  }

  lemma {:induction false} FourTurns(t: TaskState, a: TaskEvent, b: TaskEvent, c: TaskEvent, d: TaskEvent,
                                     client: nat, token: nat)
    requires TaskInv(t)
    ensures TaskInv(TaskStep(t, a).0)
    ensures var t1 := TaskStep(t, a).0;
            && TaskRun(t, [a, b, c, d][..2]) == TaskStep(t1, b).0
            && RunNotified(t, [a, b, c, d], client, token)
               == TurnNotified(TaskStep(t, a).1, client, token) + RunNotified(t1, [b, c], client, token)
                  + TurnNotified(TaskStep(TaskRun(t1, [b, c]), d).1, client, token)
  {
    TaskStepKeepsInv(t, a);
    var t1 := TaskStep(t, a).0;
    RunCons(t, a, [b], client, token);
    RunOfOne(t1, b, client, token);
    assert [a, b, c, d][..2] == [a] + [b];
    RunCons(t, a, [b, c] + [d], client, token);
    assert [a] + ([b, c] + [d]) == [a, b, c, d];
    RunNotifiedAppend(t1, [b, c], [d], client, token);
    RunOfOne(TaskRun(t1, [b, c]), d, client, token);
  }

  // Two keep-alive times of silence: a PINGREQ, then a new connection.
  lemma {:induction false} DeadConnection(t: TaskState, op: Op, first: int, second: int, client: nat, token: nat)
    requires Waits(t, op) && !t.driver.session.awaitPingresp
    requires var s := t.driver.session;
             Since(first, Max(s.lastIncoming, s.lastOutgoing)) >= s.keepAlive && Since(second, first) >= s.keepAlive
    ensures Trackable(op.command)
    ensures var t' := TaskRun(t, [Timer(first), Timer(second)]);
            && Waits(t', Redelivered(op)) && RunNotified(t, [Timer(first), Timer(second)], client, token) == 0
    ensures var t1 := TaskStep(t, Timer(first)).0;
            && TaskInv(t1)
            && TaskStep(t1, Timer(second)).1
               == Ok([BroadcastDisconnected, Wire(Redelivered(op).packet), BroadcastReconnected])
  {
    PingTurn(t, op, first);
    TimeoutTurn(TaskStep(t, Timer(first)).0, op, second);
    NoNotice([Wire(PingReq)], client, token);
    NoNotice([BroadcastDisconnected, Wire(Redelivered(op).packet), BroadcastReconnected], client, token);
    RunOfTwo(t, Timer(first), Timer(second), client, token);
  }

  lemma {:induction false} RunOfOne(t: TaskState, e: TaskEvent, client: nat, token: nat)
    requires TaskInv(t)
    ensures TaskRun(t, [e]) == TaskStep(t, e).0
    ensures RunNotified(t, [e], client, token) == TurnNotified(TaskStep(t, e).1, client, token)
  {
    assert [e] + [] == [e];
    RunCons(t, e, [], client, token);
  }

  lemma {:induction false} RunOfTwo(t: TaskState, e: TaskEvent, f: TaskEvent, client: nat, token: nat)
    requires TaskInv(t)
    ensures TaskInv(TaskStep(t, e).0)
    ensures var t1 := TaskStep(t, e).0;
            && TaskRun(t, [e, f]) == TaskStep(t1, f).0
            && RunNotified(t, [e, f], client, token)
               == TurnNotified(TaskStep(t, e).1, client, token) + TurnNotified(TaskStep(t1, f).1, client, token)
  {
    assert [e] + ([f] + []) == [e, f];
    RunCons(t, e, [f] + [], client, token);
    RunCons(TaskStep(t, e).0, f, [], client, token);
  }

  lemma {:induction false} RunNotifiedAppend(t: TaskState, a: seq<TaskEvent>, b: seq<TaskEvent>,
                                             client: nat, token: nat)
    requires TaskInv(t)
    ensures RunNotified(t, a + b, client, token)
         == RunNotified(t, a, client, token) + RunNotified(TaskRun(t, a), b, client, token)
    decreases a
  {
    if a == [] {
      assert a + b == b;
    } else {
      TaskStepKeepsInv(t, a[0]);
      assert (a + b)[0] == a[0] && (a + b)[1..] == a[1..] + b;
      RunNotifiedAppend(TaskStep(t, a[0]).0, a[1..], b, client, token);
    }
  }
}
