// Runs of the task: QoS 2 messages delivered exactly once, and routes that follow
// acknowledged subscriptions.
module TaskRuns {
  import opened Bytes
  import opened Types
  import opened Wrappers
  import opened PacketIds
  import opened Inflight
  import opened SessionState
  import opened Driver
  import opened SessionInvariant
  import opened Conservation
  import opened Qos2Sender
  import opened Routing
  import opened Task

  ghost function TaskRun(t: TaskState, es: seq<TaskEvent>): (r: TaskState)
    requires TaskInv(t)
    ensures TaskInv(r)
    decreases es
  {
    if es == [] then t
    else
      TaskStepKeepsInv(t, es[0]);
      TaskRun(TaskStep(t, es[0]).0, es[1..])
  }

  // ---------- the receiver's side of QoS 2 (MQTT 3.1.1, section 4.3.3) ----------

  predicate IsQos2Publish(e: TaskEvent, p: uint16) {
    IsPublish(e) && e.packet.publish.qos == ExactlyOnce && e.packet.publish.pkid == p
  }

  // The turn delivers a QoS 2 publish with id p, as one first seen.
  ghost predicate FansOut(t: TaskState, e: TaskEvent, p: uint16)
    requires TaskInv(t)
  {
    IsQos2Publish(e, p) && InRange(t.driver.session, p) && !t.driver.session.store.incomingPub[p]
  }

  // The turn accepts PUBREL p.
  ghost predicate TakesPubRel(t: TaskState, e: TaskEvent, p: uint16)
    requires TaskInv(t)
  {
    e.Received? && e.packet == PubRel(p) && TaskStep(t, e).1.Ok?
  }

  // The turn gives the connection up and starts a clean session.
  ghost predicate StartsClean(t: TaskState, e: TaskEvent) {
    e.Timer? && t.driver.cleanSession && OnTick(t.driver, e.now).1 == Ok([TriggerReconnect])
  }

  // A QoS 2 publish is always answered with PUBREC, and delivered, to exactly the clients
  // with a matching filter, if and only if it is first seen.
  lemma {:induction false} Qos2PublishEffects(t: TaskState, e: TaskEvent, p: uint16)
    requires TaskInv(t) && IsQos2Publish(e, p)
    ensures TaskStep(t, e).1
         == if !InRange(t.driver.session, p) then Err(PacketIdOutOfRange(p))
            else Ok([Wire(PubRec(p))] + if FansOut(t, e, p) then Fanout(t.routes, e.packet.publish) else [])
  {
    assert [Wire(PubRec(p))] + [] == [Wire(PubRec(p))];
  }

  function CopiesFor(effects: seq<Effect>, client: nat, p: Publish): nat {
    if effects == [] then 0
    else (if effects[0] == Deliver(client, p) then 1 else 0) + CopiesFor(effects[1..], client, p)
  }

  lemma {:induction false} CopiesAppend(a: seq<Effect>, b: seq<Effect>, client: nat, p: Publish)
    ensures CopiesFor(a + b, client, p) == CopiesFor(a, client, p) + CopiesFor(b, client, p)
  {
    if a == [] {
      assert a + b == b;
    } else {
      assert (a + b)[1..] == a[1..] + b;
      CopiesAppend(a[1..], b, client, p);
    }
  }

  lemma {:induction false} CopiesOfDeliveries(clients: seq<nat>, client: nat, p: Publish)
    requires Distinct(clients)
    ensures CopiesFor(Deliveries(clients, p), client, p) == if client in clients then 1 else 0
  {
    if clients != [] {
      assert Deliveries(clients, p)[1..] == Deliveries(clients[1..], p);
      assert Distinct(clients[1..]) by {
        assert forall i :: 0 <= i < |clients[1..]| ==> clients[1..][i] == clients[i + 1];
      }
      CopiesOfDeliveries(clients[1..], client, p);
      assert clients[0] !in clients[1..];
    }
  }

  ghost predicate HasMatch(routes: seq<Entry>, client: nat, topic: Text) {
    exists f: Text :: (client, f) in Pairs(routes) && TopicMatches(f, topic)
  }

  lemma {:induction false} FanoutCopies(routes: seq<Entry>, client: nat, p: Publish)
    ensures CopiesFor(Fanout(routes, p), client, p) == if HasMatch(routes, client, p.topic) then 1 else 0
  {
    MatchingExact(routes, p.topic);
    CopiesOfDeliveries(Matching(routes, p.topic), client, p);
  }

  // The acknowledgement an incoming publish calls for (MQTT 3.1.1, section 3.3.4).
  function AckFor(p: Publish): seq<Effect> {
    match p.qos
    case AtMostOnce => []
    case AtLeastOnce => [Wire(Packet.PubAck(p.pkid))]
    case ExactlyOnce => [Wire(PubRec(p.pkid))]
  }

  ghost predicate Refused(t: TaskState, p: Publish) {
    p.qos == ExactlyOnce && !InRange(t.driver.session, p.pkid)
  }

  // Unless it is a QoS 2 publish already received, an incoming publish reaches each client
  // with a matching filter in exactly one copy, however many of its filters match, and
  // nobody else; and the broker gets the acknowledgement of the QoS, once. Should a send
  // fail on the way, nobody gets more than that.
  lemma {:induction false} PublishReachesMatching(t: TaskState, p: Publish, now: int, client: nat)
    requires TaskInv(t) && !Refused(t, p)
    ensures var turn := TaskStep(t, Received(Packet.Publish(p), now)).1;
            var seen := p.qos == ExactlyOnce && t.driver.session.store.incomingPub[p.pkid];
            && turn.Ok?
            && CopiesFor(turn.value, client, p) == (if HasMatch(t.routes, client, p.topic) && !seen then 1 else 0)
            && multiset(turn.value) == multiset(AckFor(p)) + multiset(if seen then [] else Fanout(t.routes, p))
            && (forall k :: 0 <= k <= |turn.value| ==>
                  CopiesFor(turn.value[..k], client, p) <= CopiesFor(turn.value, client, p))
  {
    CopiesOnTheWay(TaskStep(t, Received(Packet.Publish(p), now)).1.value, client, p);
    var fanout := Fanout(t.routes, p);
    FanoutCopies(t.routes, client, p);
    match p.qos {
      case AtMostOnce =>
      case AtLeastOnce =>
        CopiesAppend(fanout, AckFor(p), client, p);
        NoCopies(Wire(Packet.PubAck(p.pkid)), client, p);
      case ExactlyOnce =>
        CopiesAppend(AckFor(p), fanout, client, p);
        NoCopies(Wire(PubRec(p.pkid)), client, p);
    }
  }

  lemma {:induction false} CopiesOnTheWay(effects: seq<Effect>, client: nat, p: Publish)
    ensures forall k :: 0 <= k <= |effects| ==> CopiesFor(effects[..k], client, p) <= CopiesFor(effects, client, p)
  {
    forall k | 0 <= k <= |effects|
      ensures CopiesFor(effects[..k], client, p) <= CopiesFor(effects, client, p)
    {
      CopiesAppend(effects[..k], effects[k..], client, p);
      assert effects[..k] + effects[k..] == effects;
    }
  }

  lemma {:induction false} NoCopies(effect: Effect, client: nat, p: Publish)
    requires effect.Wire?
    ensures CopiesFor([effect], client, p) == 0
  {
    assert [effect][1..] == [];
  }

  lemma {:induction false} PubRelEffects(t: TaskState, e: TaskEvent, p: uint16)
    requires TaskInv(t) && e.Received? && e.packet == PubRel(p)
    ensures TaskStep(t, e).1.Ok? <==> InRange(t.driver.session, p) && t.driver.session.store.incomingPub[p]
    ensures TaskStep(t, e).1.Ok? ==> TaskStep(t, e).1 == Ok([Wire(Packet.PubComp(p))])
  {
    var (d, out) := Step(t.driver, DriverEvent(e));
    if out.Ok? {
      var t1 := Perform(t.(driver := d), Send(Packet.PubComp(p)), e.now).0;
      assert out.value == [Send(Packet.PubComp(p))] && out.value[1..] == [];
      assert PerformAll(t1, [], e.now) == (t1, []);
      assert [Wire(Packet.PubComp(p))] + [] == [Wire(Packet.PubComp(p))];
    }
  }

  lemma {:induction false} PerformKeepsFlags(t: TaskState, a: Action, now: int)
    ensures Perform(t, a, now).0.driver.session.store.incomingPub == t.driver.session.store.incomingPub
  {
    ReplayKeepsFlags(ReplayStart(t.driver.session, now), t.driver.session.store.pending);
  }

  lemma {:induction false} PerformAllKeepsFlags(t: TaskState, actions: seq<Action>, now: int)
    ensures PerformAll(t, actions, now).0.driver.session.store.incomingPub == t.driver.session.store.incomingPub
    decreases actions
  {
    if actions != [] {
      PerformKeepsFlags(t, actions[0], now);
      PerformAllKeepsFlags(Perform(t, actions[0], now).0, actions[1..], now);
    }
  }

  ghost function IncomingFlag(t: TaskState, p: uint16): nat {
    Flag(t.driver.session.store.incomingPub, p)
  }

  function One(b: bool): nat {
    if b then 1 else 0
  }

  lemma {:induction false} DriverKeepsFlags(d: DriverState, e: Event)
    requires Inv(d.session) && !e.ConnectionLost? && !e.ConnectionRestored?
    requires e.Incoming? ==> !e.packet.Publish? && !e.packet.PubRel?
    ensures Step(d, e).0.session.store.incomingPub
         == if e.Tick? && Step(d, e).1 == Ok([TriggerReconnect]) && d.cleanSession
            then Cleared(d.session.store.incomingPub, false) else d.session.store.incomingPub
  {
    if e.Incoming? {
      IncomingKeepsFlags(d.session, e.packet, e.now);
    }
  }

  lemma {:induction false} IncomingKeepsFlags(s: Session, packet: Packet, now: int)
    requires Inv(s) && !packet.Publish? && !packet.PubRel?
    ensures OnIncoming(s, packet, now).0.store.incomingPub == s.store.incomingPub
  {
  }

  // What a turn other than a publish does to the flags is what the driver does.
  lemma {:induction false} TurnFlags(t: TaskState, e: TaskEvent)
    requires TaskInv(t) && !IsPublish(e)
    ensures TaskStep(t, e).0.driver.session.store.incomingPub
         == Step(t.driver, DriverEvent(e)).0.session.store.incomingPub
    ensures TaskStep(t, e).1.Ok? <==> Step(t.driver, DriverEvent(e)).1.Ok?
  {
    var (d, out) := Step(t.driver, DriverEvent(e));
    if out.Ok? {
      PerformAllKeepsFlags(t.(driver := d), out.value, e.now);
    }
  }

  lemma {:induction false} StepExactlyOnce(t: TaskState, e: TaskEvent, p: uint16)
    requires TaskInv(t)
    ensures IncomingFlag(t, p) + One(FansOut(t, e, p))
         == IncomingFlag(TaskStep(t, e).0, p) + One(TakesPubRel(t, e, p))
            + (if StartsClean(t, e) then IncomingFlag(t, p) else 0)
  {
    if !IsPublish(e) {
      TurnFlags(t, e);
      if e.Received? && e.packet.PubRel? {
        PubRelEffects(t, e, e.packet.pkid);
      } else {
        DriverKeepsFlags(t.driver, DriverEvent(e));
      }
    }
  }

  ghost function RunFanouts(t: TaskState, es: seq<TaskEvent>, p: uint16): nat
    requires TaskInv(t)
    decreases es
  {
    if es == [] then 0
    else
      TaskStepKeepsInv(t, es[0]);
      One(FansOut(t, es[0], p)) + RunFanouts(TaskStep(t, es[0]).0, es[1..], p)
  }

  ghost function RunPubRels(t: TaskState, es: seq<TaskEvent>, p: uint16): nat
    requires TaskInv(t)
    decreases es
  {
    if es == [] then 0
    else
      TaskStepKeepsInv(t, es[0]);
      One(TakesPubRel(t, es[0], p)) + RunPubRels(TaskStep(t, es[0]).0, es[1..], p)
  }

  // The clean sessions of a run that forget an open exchange on p, and all of them.
  ghost function RunForgets(t: TaskState, es: seq<TaskEvent>, p: uint16): (r: (nat, nat))
    requires TaskInv(t)
    ensures r.0 <= r.1
    ensures !t.driver.cleanSession ==> r.1 == 0
    decreases es
  {
    if es == [] then (0, 0)
    else
      TaskStepKeepsInv(t, es[0]);
      TaskKeepsMode(t, es[0]);
      var rest := RunForgets(TaskStep(t, es[0]).0, es[1..], p);
      if StartsClean(t, es[0]) then (IncomingFlag(t, p) + rest.0, 1 + rest.1) else rest
  }

  lemma {:induction false} PerformAllKeepsMode(t: TaskState, actions: seq<Action>, now: int)
    ensures PerformAll(t, actions, now).0.driver.cleanSession == t.driver.cleanSession
    decreases actions
  {
    if actions != [] {
      PerformAllKeepsMode(Perform(t, actions[0], now).0, actions[1..], now);
    }
  }

  lemma {:induction false} TaskKeepsMode(t: TaskState, e: TaskEvent)
    requires TaskInv(t)
    ensures TaskStep(t, e).0.driver.cleanSession == t.driver.cleanSession
  {
    if !IsPublish(e) {
      var (d, out) := Step(t.driver, DriverEvent(e));
      if out.Ok? {
        PerformAllKeepsMode(t.(driver := d), out.value, e.now);
      }
    }
  }

  // Exactly once: messages with id p delivered are exchanges completed by PUBREL p, plus
  // the one open now (less the one open at the start), plus those a clean session forgot,
  // at most one for each clean session. Without clean sessions the count is exact.
  lemma {:induction false} DeliveredExactlyOnce(t: TaskState, es: seq<TaskEvent>, p: uint16)
    requires TaskInv(t)
    ensures IncomingFlag(t, p) + RunFanouts(t, es, p)
         == RunPubRels(t, es, p) + IncomingFlag(TaskRun(t, es), p) + RunForgets(t, es, p).0
    ensures !t.driver.cleanSession ==>
              IncomingFlag(t, p) + RunFanouts(t, es, p) == RunPubRels(t, es, p) + IncomingFlag(TaskRun(t, es), p)
    decreases es
  {
    if es != [] {
      TaskStepKeepsInv(t, es[0]);
      StepExactlyOnce(t, es[0], p);
      DeliveredExactlyOnce(TaskStep(t, es[0]).0, es[1..], p);
    }
  }

  // ---------- routes follow acknowledgements ----------

  datatype RouteChange =
    | Subscribed(clientId: nat, filters: seq<Filter>)
    | Unsubscribed(clientId: nat, topics: seq<Text>)

  function ChangeOf(a: Action): seq<RouteChange> {
    match a
    case SubscribeAckFor(client, filters, _) => [Subscribed(client, filters)]
    case UnsubscribeAckFor(client, topics, _) => [Unsubscribed(client, topics)]
    case _ => []
  }

  function ChangesOf(actions: seq<Action>): seq<RouteChange> {
    if actions == [] then [] else ChangeOf(actions[0]) + ChangesOf(actions[1..])
  }

  // The route changes of one turn: the driver's accepted SUBACK or UNSUBACK, if any.
  ghost function TurnChanges(t: TaskState, e: TaskEvent): seq<RouteChange>
    requires TaskInv(t)
  {
    if IsPublish(e) then []
    else
      match Step(t.driver, DriverEvent(e)).1
      case Ok(actions) => ChangesOf(actions)
      case Err(_) => []
  }

  ghost function RunChanges(t: TaskState, es: seq<TaskEvent>): seq<RouteChange>
    requires TaskInv(t)
    decreases es
  {
    if es == [] then []
    else
      TaskStepKeepsInv(t, es[0]);
      TurnChanges(t, es[0]) + RunChanges(TaskStep(t, es[0]).0, es[1..])
  }

  type Routes = set<(nat, Text)>

  function FilterPairs(client: nat, filters: seq<Filter>): Routes {
    set i | 0 <= i < |filters| :: (client, filters[i].path)
  }

  function TopicPairs(client: nat, topics: seq<Text>): Routes {
    set i | 0 <= i < |topics| :: (client, topics[i])
  }

  // The changes as set operations, in order.
  function Fold(pairs: Routes, changes: seq<RouteChange>): Routes
    decreases changes
  {
    if changes == [] then pairs
    else
      Fold(match changes[0]
           case Subscribed(client, filters) => pairs + FilterPairs(client, filters)
           case Unsubscribed(client, topics) => pairs - TopicPairs(client, topics),
           changes[1..])
  }

  lemma {:induction false} AddAllIsUnion(routes: seq<Entry>, client: nat, filters: seq<Filter>)
    requires ValidEntries(routes)
    ensures Pairs(AddAll(routes, client, filters)) == Pairs(routes) + FilterPairs(client, filters)
    decreases filters
  {
    if filters != [] {
      AddedIsUnion(routes, client, filters[0].path);
      AddAllIsUnion(Added(routes, client, filters[0].path), client, filters[1..]);
      assert FilterPairs(client, filters) == {(client, filters[0].path)} + FilterPairs(client, filters[1..]) by {
        forall i | 0 <= i < |filters|
          ensures (client, filters[i].path) in {(client, filters[0].path)} + FilterPairs(client, filters[1..])
        {
          if i > 0 {
            assert filters[1..][i - 1] == filters[i];
          }
        }
        forall i | 0 <= i < |filters[1..]|
          ensures (client, filters[1..][i].path) in FilterPairs(client, filters)
        {
          assert filters[1..][i] == filters[i + 1];
        }
      }
    }
  }

  lemma {:induction false} RemoveAllIsDifference(routes: seq<Entry>, client: nat, topics: seq<Text>)
    requires ValidEntries(routes)
    ensures Pairs(RemoveAll(routes, client, topics)) == Pairs(routes) - TopicPairs(client, topics)
    decreases topics
  {
    if topics != [] {
      RemovedIsDifference(routes, client, topics[0]);
      RemoveAllIsDifference(Removed(routes, client, topics[0]), client, topics[1..]);
      assert TopicPairs(client, topics) == {(client, topics[0])} + TopicPairs(client, topics[1..]) by {
        forall i | 0 <= i < |topics|
          ensures (client, topics[i]) in {(client, topics[0])} + TopicPairs(client, topics[1..])
        {
          if i > 0 {
            assert topics[1..][i - 1] == topics[i];
          }
        }
        forall i | 0 <= i < |topics[1..]|
          ensures (client, topics[1..][i]) in TopicPairs(client, topics)
        {
          assert topics[1..][i] == topics[i + 1];
        }
      }
    }
  }

  lemma {:induction false} FoldAppend(pairs: Routes, a: seq<RouteChange>, b: seq<RouteChange>)
    ensures Fold(pairs, a + b) == Fold(Fold(pairs, a), b)
    decreases a
  {
    if a == [] {
      assert a + b == b;
    } else {
      assert (a + b)[0] == a[0] && (a + b)[1..] == a[1..] + b;
      FoldAppend(match a[0]
                 case Subscribed(client, filters) => pairs + FilterPairs(client, filters)
                 case Unsubscribed(client, topics) => pairs - TopicPairs(client, topics),
                 a[1..], b);
    }
  }

  lemma {:induction false} PerformFolds(t: TaskState, a: Action, now: int)
    requires TaskInv(t)
    ensures Pairs(Perform(t, a, now).0.routes) == Fold(Pairs(t.routes), ChangeOf(a))
  {
    match a {
      case SubscribeAckFor(client, filters, _) => AddAllIsUnion(t.routes, client, filters);
      case UnsubscribeAckFor(client, topics, _) => RemoveAllIsDifference(t.routes, client, topics);
      case _ =>
    }
    if ChangeOf(a) != [] {
      assert ChangeOf(a)[1..] == [];
    }
  }

  lemma {:induction false} PerformAllFolds(t: TaskState, actions: seq<Action>, now: int)
    requires TaskInv(t)
    ensures Pairs(PerformAll(t, actions, now).0.routes) == Fold(Pairs(t.routes), ChangesOf(actions))
    decreases actions
  {
    if actions != [] {
      PerformFolds(t, actions[0], now);
      PerformKeepsInv(t, actions[0], now);
      PerformAllFolds(Perform(t, actions[0], now).0, actions[1..], now);
      FoldAppend(Pairs(t.routes), ChangeOf(actions[0]), ChangesOf(actions[1..]));
    }
  }

  // Through losses and replays, the routes are the acknowledged subscriptions and
  // unsubscriptions folded in their order of arrival.
  lemma {:induction false} RoutesFollowAcks(t: TaskState, es: seq<TaskEvent>)
    requires TaskInv(t)
    ensures Pairs(TaskRun(t, es).routes) == Fold(Pairs(t.routes), RunChanges(t, es))
    decreases es
  {
    if es != [] {
      var e := es[0];
      TaskStepKeepsInv(t, e);
      var t1 := TaskStep(t, e).0;
      assert Pairs(t1.routes) == Fold(Pairs(t.routes), TurnChanges(t, e)) by {
        if !IsPublish(e) {
          StepKeepsInv(t.driver, DriverEvent(e));
          var (d, out) := Step(t.driver, DriverEvent(e));
          if out.Ok? {
            PerformAllFolds(t.(driver := d), out.value, e.now);
          }
        }
      }
      RoutesFollowAcks(t1, es[1..]);
      FoldAppend(Pairs(t.routes), TurnChanges(t, e), RunChanges(t1, es[1..]));
    }
  }

  // ---------- every change answers an earlier command ----------

  function Commanded(e: TaskEvent, test: Test): nat {
    if e.Command? && Trackable(e.command) && test(Core(e.command)) then 1 else 0
  }

  ghost function RunCommanded(es: seq<TaskEvent>, test: Test): nat {
    if es == [] then 0 else Commanded(es[0], test) + RunCommanded(es[1..], test)
  }

  lemma {:induction false} PerformHolds(t: TaskState, a: Action, now: int, test: Test)
    requires TaskInv(t)
    ensures Held(Perform(t, a, now).0.driver.session.store, test) <= Held(t.driver.session.store, test)
  {
    if a.TriggerReconnect? {
      ReplayConserves(ReplayStart(t.driver.session, now), t.driver.session.store.pending, test);
    }
  }

  lemma {:induction false} PerformAllHolds(t: TaskState, actions: seq<Action>, now: int, test: Test)
    requires TaskInv(t)
    ensures Held(PerformAll(t, actions, now).0.driver.session.store, test) <= Held(t.driver.session.store, test)
    decreases actions
  {
    if actions != [] {
      PerformHolds(t, actions[0], now, test);
      PerformKeepsInv(t, actions[0], now);
      PerformAllHolds(Perform(t, actions[0], now).0, actions[1..], now, test);
    }
  }

  lemma {:induction false} StepHolds(t: TaskState, e: TaskEvent, test: Test)
    requires TaskInv(t)
    ensures Held(TaskStep(t, e).0.driver.session.store, test)
         <= Held(t.driver.session.store, test) + Commanded(e, test)
  {
    if !IsPublish(e) {
      StepConserves(t.driver, DriverEvent(e), test);
      StepKeepsInv(t.driver, DriverEvent(e));
      var (d, out) := Step(t.driver, DriverEvent(e));
      if out.Ok? {
        PerformAllHolds(t.(driver := d), out.value, e.now, test);
      }
    }
  }

  lemma {:induction false} RunHolds(t: TaskState, es: seq<TaskEvent>, test: Test)
    requires TaskInv(t)
    ensures Held(TaskRun(t, es).driver.session.store, test)
         <= Held(t.driver.session.store, test) + RunCommanded(es, test)
    decreases es
  {
    if es != [] {
      TaskStepKeepsInv(t, es[0]);
      StepHolds(t, es[0], test);
      RunHolds(TaskStep(t, es[0]).0, es[1..], test);
    }
  }

  // A command of the events, or of an op held before them.
  ghost predicate Known(c: Types.Command, es: seq<TaskEvent>, held: seq<Op>) {
    (exists i :: 0 <= i < |es| && es[i].Command? && es[i].command == c)
    || (exists i :: 0 <= i < |held| && held[i].command == c)
  }

  // No known command has this core.
  ghost function Foreign(es: seq<TaskEvent>, held: seq<Op>): Test {
    (core: Types.Command) => forall c :: Known(c, es, held) && Trackable(c) ==> Core(c) != core
  }

  lemma {:induction false} NothingForeign(es: seq<TaskEvent>, test: Test)
    requires forall i :: 0 <= i < |es| && es[i].Command? && Trackable(es[i].command) ==> !test(Core(es[i].command))
    ensures RunCommanded(es, test) == 0
  {
    if es != [] {
      NothingForeign(es[1..], test);
    }
  }

  // The change repeats client and filters of this command.
  predicate Answers(change: RouteChange, c: Types.Command) {
    match change
    case Subscribed(client, filters) => c.Subscribe? && c.clientId == client && c.subscribe.filters == filters
    case Unsubscribed(client, topics) => c.Unsubscribe? && c.clientId == client && c.unsubscribe.filters == topics
  }

  lemma {:induction false} ChangeComesFromSlot(t: TaskState, e: TaskEvent) returns (pkid: uint16)
    requires TaskInv(t) && TurnChanges(t, e) != []
    ensures |TurnChanges(t, e)| == 1
    ensures var slot := SlotAt(t.driver.session.store, pkid);
            slot.Some? && Trackable(slot.value.command) && Answers(TurnChanges(t, e)[0], slot.value.command)
  {
    var out := Step(t.driver, DriverEvent(e)).1;
    if e.Received? && (e.packet.SubAck? || e.packet.UnsubAck?) {
      pkid := if e.packet.SubAck? then e.packet.suback.pkid else e.packet.pkid;
      assert out.value[1..] == [] && ChangesOf([]) == [];
      assert ChangesOf(out.value) == ChangeOf(out.value[0]);
    } else {
      NoChange(t, e);
    }
  }

  lemma {:induction false} SendsChangeNothing(packets: seq<Packet>)
    ensures ChangesOf(Sends(packets)) == []
  {
    if packets != [] {
      assert Sends(packets)[1..] == Sends(packets[1..]);
      SendsChangeNothing(packets[1..]);
    }
  }

  lemma {:induction false} NoChange(t: TaskState, e: TaskEvent)
    requires TaskInv(t) && !(e.Received? && (e.packet.SubAck? || e.packet.UnsubAck?))
    ensures TurnChanges(t, e) == []
  {
    if !IsPublish(e) {
      var out := Step(t.driver, DriverEvent(e)).1;
      if out.Ok? && out.value != [] {
        NotRouteActions(t.driver, DriverEvent(e));
        assert ChangesOf([]) == [];
        if |out.value| == 1 {
          assert out.value[1..] == [];
        } else {
          assert out.value[1..] == [out.value[1]] && out.value[1..][1..] == [];
          assert ChangesOf(out.value[1..]) == ChangeOf(out.value[1]) + ChangesOf([]);
        }
      }
    }
  }

  lemma {:induction false} NotRouteActions(d: DriverState, e: Event)
    requires Inv(d.session) && !e.ConnectionRestored? && Step(d, e).1.Ok?
    requires e.Incoming? ==> !e.packet.SubAck? && !e.packet.UnsubAck?
    ensures |Step(d, e).1.value| <= 2
    ensures forall i :: 0 <= i < |Step(d, e).1.value| ==> ChangeOf(Step(d, e).1.value[i]) == []
  {
  }

  // Every change answers some command among the events or the ops held before.
  ghost predicate AllAnswered(changes: seq<RouteChange>, es: seq<TaskEvent>, held: seq<Op>) {
    forall j :: 0 <= j < |changes| ==> exists c :: Known(c, es, held) && Answers(changes[j], c)
  }

  // Each route change of a turn repeats the client and the filters of a subscribe or
  // unsubscribe command given in an earlier turn, or held when the run began.
  lemma {:induction false} ChangesAnswerCommands(start: TaskState, es: seq<TaskEvent>, e: TaskEvent)
    requires TaskInv(start)
    ensures AllAnswered(TurnChanges(TaskRun(start, es), e), es, Backlog(start.driver.session.store))
  {
    var t := TaskRun(start, es);
    var changes := TurnChanges(t, e);
    if changes != [] {
      var pkid := ChangeComesFromSlot(t, e);
      var c := SlotIsKnown(start, es, pkid);
      AnswersCore(changes[0], t.driver.session.store.outgoing[pkid].value.command, c);
    }
  }

  lemma {:induction false} AnswersCore(change: RouteChange, a: Types.Command, b: Types.Command)
    requires Trackable(a) && Trackable(b) && Core(a) == Core(b) && Answers(change, a)
    ensures Answers(change, b)
  {
  }

  // What a slot holds after a run was given in it or held before it.
  lemma {:induction false} SlotIsKnown(start: TaskState, es: seq<TaskEvent>, k: nat) returns (c: Types.Command)
    requires TaskInv(start)
    requires var slots := TaskRun(start, es).driver.session.store.outgoing;
             k < |slots| && slots[k].Some?
    ensures Known(c, es, Backlog(start.driver.session.store)) && Trackable(c)
    ensures Core(c) == Core(TaskRun(start, es).driver.session.store.outgoing[k].value.command)
  {
    var slots, held := TaskRun(start, es).driver.session.store.outgoing, Backlog(start.driver.session.store);
    var test := Foreign(es, held);
    RunHolds(start, es, test);
    assert forall i :: 0 <= i < |es| && es[i].Command? ==> Known(es[i].command, es, held);
    NothingForeign(es, test);
    HeldIsKnown(start, es, test);
    if test(Core(slots[k].value.command)) {
      SlotIsHeld(slots, k, test);
      assert false;
    }
    c :| Known(c, es, held) && Trackable(c) && Core(c) == Core(slots[k].value.command);
  }

  lemma {:induction false} HeldIsKnown(start: TaskState, es: seq<TaskEvent>, test: Test)
    requires TaskInv(start) && test == Foreign(es, Backlog(start.driver.session.store))
    ensures Held(start.driver.session.store, test) == 0
  {
    var st := start.driver.session.store;
    var held := Backlog(st);
    LossKeepsInv(start.driver.session, false);
    CountBacklog(st, test);
    assert forall i :: 0 <= i < |held| ==> QueuedOp(held[i]) && Known(held[i].command, es, held);
    NoneCounted(held, test);
  }
}
