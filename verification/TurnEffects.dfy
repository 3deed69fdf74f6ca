// What a turn of the task writes and delivers, in which order, and what it refuses.
module TurnEffects {
  import opened Bytes
  import opened Types
  import opened Wrappers
  import opened PacketIds
  import opened Inflight
  import opened SessionState
  import opened Driver
  import opened SessionInvariant
  import opened Reconnect
  import opened Routing
  import opened PacketCodec
  import opened Task
  import opened TaskRuns
  import opened TaskReports
  import opened Outcomes

  // ---------- which effects get through ----------

  // The number of effects that get through is where the first one fails: a packet that
  // does not encode, or a packet or message for a client that finds no receiver.
  lemma {:induction false} ThroughMeans(accepts: nat -> bool, n: nat, effects: seq<Effect>)
    ensures var k := Through(accepts, n, effects);
            && k <= |effects|
            && (forall i :: 0 <= i < k && effects[i].Wire? ==> accepts(n + i) && Encoded(effects[i].packet).Ok?)
            && (forall i :: 0 <= i < k && (effects[i].Notify? || effects[i].Deliver?) ==> accepts(n + i))
            && (k < |effects| ==> !effects[k].BroadcastDisconnected? && !effects[k].BroadcastReconnected?
                                  && (!accepts(n + k) || (effects[k].Wire? && Encoded(effects[k].packet).Err?)))
    decreases effects
  {
    if effects != [] && Goes(accepts, n, effects[0]) {
      ThroughMeans(accepts, n + 1, effects[1..]);
      var k := Through(accepts, n + 1, effects[1..]);
      forall i | 0 <= i < k + 1 && !effects[i].BroadcastDisconnected? && !effects[i].BroadcastReconnected?
        ensures accepts(n + i) && (effects[i].Wire? ==> Encoded(effects[i].packet).Ok?)
      {
        if i > 0 {
          assert effects[i] == effects[1..][i - 1];
        }
      }
      if k + 1 < |effects| {
        assert effects[k + 1] == effects[1..][k];
      }
    }
  }

  // ---------- the order of effects ----------

  // The effect an action has, one for one.
  predicate EffectOf(effect: Effect, a: Action) {
    match a
    case Send(packet) => effect == Wire(packet)
    case CompleteFor(client, completion) => effect == Notify(client, completion)
    case SubscribeAckFor(client, _, completion) => effect == Notify(client, completion)
    case UnsubscribeAckFor(client, _, completion) => effect == Notify(client, completion)
    case TriggerReconnect => false
  }

  ghost predicate EffectsOf(effects: seq<Effect>, actions: seq<Action>) {
    |effects| == |actions| && forall i :: 0 <= i < |actions| ==> EffectOf(effects[i], actions[i])
  }

  lemma {:induction false} PerformAllInOrder(t: TaskState, actions: seq<Action>, now: int)
    requires TriggerReconnect !in actions
    ensures EffectsOf(PerformAll(t, actions, now).1, actions)
    decreases actions
  {
    if actions != [] {
      var (t1, first) := Perform(t, actions[0], now);
      assert forall a :: a in actions[1..] ==> a in actions;
      assert actions[0] in actions;
      PerformAllInOrder(t1, actions[1..], now);
      var rest := PerformAll(t1, actions[1..], now).1;
      assert first == [first[0]] && EffectOf(first[0], actions[0]);
      forall i | 0 <= i < |actions|
        ensures EffectOf((first + rest)[i], actions[i])
      {
        if i > 0 {
          assert (first + rest)[i] == rest[i - 1] && actions[i] == actions[1..][i - 1];
        }
      }
    }
  }

  // A turn that keeps the connection has the effects of its driver's actions, in order; one
  // that the driver refuses has none, and the task ends with that error.
  lemma {:induction false} EffectsFollowActions(t: TaskState, e: TaskEvent)
    requires TaskInv(t) && !IsPublish(e) && Step(t.driver, DriverEvent(e)).1 != Ok([TriggerReconnect])
    ensures match Step(t.driver, DriverEvent(e)).1
            case Err(error) => TaskStep(t, e).1 == Err(error)
            case Ok(actions) => TaskStep(t, e).1.Ok? && EffectsOf(TaskStep(t, e).1.value, actions)
  {
    var (d, out) := Step(t.driver, DriverEvent(e));
    if out.Ok? {
      OnlyLossTriggers(t.driver, DriverEvent(e));
      PerformAllInOrder(t.(driver := d), out.value, e.now);
    }
  }

  // A turn that gives the connection up tells everyone, sends what the replay of the backlog
  // sends, in order, and tells everyone again.
  lemma {:induction false} ReconnectEffects(t: TaskState, now: int)
    requires TaskInv(t) && Step(t.driver, DriverEvent(Timer(now))).1 == Ok([TriggerReconnect])
    ensures var sent := Reconnected(t.driver.session, t.driver.cleanSession, now).1;
            var turn := TaskStep(t, Timer(now)).1;
            && turn.Ok? && |turn.value| == |sent| + 2
            && turn.value[0] == BroadcastDisconnected && turn.value[|sent| + 1] == BroadcastReconnected
            && forall i :: 0 <= i < |sent| ==> turn.value[i + 1] == Wire(sent[i])
  {
    var (d, out) := Step(t.driver, Tick(now));
    var sent := Reconnected(t.driver.session, t.driver.cleanSession, now).1;
    assert d.session == AfterLoss(t.driver.session, t.driver.cleanSession);
    var t1 := t.(driver := d);
    var (t2, effects) := Perform(t1, TriggerReconnect, now);
    assert [TriggerReconnect][1..] == [] && PerformAll(t2, [], now) == (t2, []);
    assert effects == [BroadcastDisconnected] + (Wires(sent) + [BroadcastReconnected]);
    assert effects + [] == effects;
  }

  // Commands and ticks are never refused; a packet is refused exactly as the driver's
  // session refuses it.
  lemma {:induction false} TurnRefusals(t: TaskState, e: TaskEvent)
    requires TaskInv(t)
    ensures !e.Received? ==> TaskStep(t, e).1.Ok?
    ensures e.Received? ==>
              AnsweredAs(t.driver.session, e.packet, Step(t.driver, Incoming(e.packet, e.now)).1)
              && (match Step(t.driver, Incoming(e.packet, e.now)).1
                  case Err(error) => TaskStep(t, e).1 == Err(error)
                  case Ok(_) => TaskStep(t, e).1.Ok?)
  {
    if e.Received? {
      IncomingAnswered(t.driver, e.packet, e.now);
    }
  }

  // ---------- deliveries and acknowledgements ----------

  lemma {:induction false} FanoutIsDeliveries(routes: seq<Entry>, p: Publish)
    ensures var fanout := Fanout(routes, p);
            && |fanout| == |Matching(routes, p.topic)|
            && (forall i :: 0 <= i < |fanout| ==> fanout[i] == Deliver(Matching(routes, p.topic)[i], p))
            && forall client :: Deliver(client, p) in fanout <==> HasMatch(routes, client, p.topic)
  {
    var clients, fanout := Matching(routes, p.topic), Fanout(routes, p);
    MatchingExact(routes, p.topic);
    forall client
      ensures Deliver(client, p) in fanout <==> client in clients
    {
      if client in clients {
        var i :| 0 <= i < |clients| && clients[i] == client;
        assert fanout[i] == Deliver(client, p);
      }
    }
  }

  // A QoS 1 publish is delivered before it is acknowledged: in whatever part of the turn's
  // effects gets through, if the PUBACK is among them, so is every client's copy.
  lemma {:induction false} DeliveredBeforeAcked(t: TaskState, p: Publish, now: int, k: nat)
    requires TaskInv(t) && p.qos == AtLeastOnce
    ensures var turn := TaskStep(t, Received(Packet.Publish(p), now)).1;
            && turn.Ok?
            && (k <= |turn.value| && Wire(Packet.PubAck(p.pkid)) in turn.value[..k] ==>
                  forall client :: HasMatch(t.routes, client, p.topic) ==> Deliver(client, p) in turn.value[..k])
            && turn.value != [] && turn.value[|turn.value| - 1] == Wire(Packet.PubAck(p.pkid))
            && forall i :: 0 <= i < |turn.value| - 1 ==> turn.value[i].Deliver?
  {
    var fanout, ack := Fanout(t.routes, p), Wire(Packet.PubAck(p.pkid));
    var effects := TaskStep(t, Received(Packet.Publish(p), now)).1.value;
    FanoutIsDeliveries(t.routes, p);
    assert effects == fanout + [ack];
    if k <= |effects| && ack in effects[..k] {
      assert k == |effects| && effects[..k] == effects;
    }
  }

  // A QoS 2 publish is acknowledged first: what gets through starts with the PUBREC.
  lemma {:induction false} AckedBeforeDelivered(t: TaskState, p: Publish, now: int)
    requires TaskInv(t) && p.qos == ExactlyOnce
    ensures var turn := TaskStep(t, Received(Packet.Publish(p), now)).1;
            turn.Ok? ==>
              && turn.value != [] && turn.value[0] == Wire(PubRec(p.pkid))
              && forall i :: 1 <= i < |turn.value| ==> turn.value[i].Deliver?
  {
    Qos2PublishEffects(t, Received(Packet.Publish(p), now), p.pkid);
    FanoutIsDeliveries(t.routes, p);
  }

  // A QoS 0 publish is not acknowledged.
  lemma {:induction false} Qos0OnlyDelivered(t: TaskState, p: Publish, now: int)
    requires TaskInv(t) && p.qos == AtMostOnce
    ensures var turn := TaskStep(t, Received(Packet.Publish(p), now)).1;
            && turn.Ok?
            && (forall i :: 0 <= i < |turn.value| ==> turn.value[i].Deliver? && turn.value[i].publish == p)
            && forall client :: Deliver(client, p) in turn.value <==> HasMatch(t.routes, client, p.topic)
  {
    FanoutIsDeliveries(t.routes, p);
  }
}
