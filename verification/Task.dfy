// The runtime task's routing and delivery (src/runtime/task.rs): what it does with the
// driver's actions and with incoming publishes. Transport writes and client mailboxes are
// an append-only list of effects, in which a send may fail; that ends the task.
module Task {
  import opened Bytes
  import opened Types
  import opened Wrappers
  import opened PacketIds
  import opened Inflight
  import opened SessionState
  import opened Driver
  import opened SessionInvariant
  import opened Routing
  import opened PacketCodec

  datatype Effect =
    | Wire(packet: Packet)
    | Notify(clientId: nat, completion: Completion)
    | Deliver(clientId: nat, publish: Publish)
    | BroadcastDisconnected
    | BroadcastReconnected

  // One turn of the task, with the clock reading it takes.
  datatype TaskEvent =
    | Command(command: Types.Command, now: int)
    | Received(packet: Packet, now: int)
    | Timer(now: int)

  datatype TaskState = TaskState(driver: DriverState, routes: seq<Entry>)

  type Turn = Reply<seq<Effect>>

  // ---------- on values ----------

  function Deliveries(clients: seq<nat>, publish: Publish): seq<Effect> {
    seq(|clients|, i requires 0 <= i < |clients| => Deliver(clients[i], publish))
  }

  function Fanout(routes: seq<Entry>, publish: Publish): seq<Effect> {
    Deliveries(Matching(routes, publish.topic), publish)
  }

  function Wires(packets: seq<Packet>): seq<Effect> {
    seq(|packets|, i requires 0 <= i < |packets| => Wire(packets[i]))
  }

  function Sent(d: DriverState, now: int): DriverState {
    d.(session := d.session.(lastOutgoing := now))
  }

  function AddAll(routes: seq<Entry>, client: nat, filters: seq<Filter>): seq<Entry>
    decreases filters
  {
    if filters == [] then routes else AddAll(Added(routes, client, filters[0].path), client, filters[1..])
  }

  function RemoveAll(routes: seq<Entry>, client: nat, topics: seq<Text>): seq<Entry>
    decreases topics
  {
    if topics == [] then routes else RemoveAll(Removed(routes, client, topics[0]), client, topics[1..])
  }

  // An incoming publish: deliver and acknowledge by its QoS; a QoS 2 publish is delivered
  // only when first seen.
  function OnPublish(t: TaskState, p: Publish, now: int): (TaskState, Turn)
    requires ValidStore(t.driver.session.store)
  {
    var s := t.driver.session.(lastIncoming := now);
    match p.qos
    case AtMostOnce => (t.(driver := t.driver.(session := s)), Ok(Fanout(t.routes, p)))
    case AtLeastOnce =>
      (t.(driver := Sent(t.driver.(session := s), now)), Ok(Fanout(t.routes, p) + [Wire(Packet.PubAck(p.pkid))]))
    case ExactlyOnce =>
      match AfterIncomingQos2(s, p.pkid)
      case (s', Err(e)) => (t.(driver := t.driver.(session := s')), Err(e))
      case (s', Ok(FirstSeen(pubrec))) =>
        (t.(driver := Sent(t.driver.(session := s'), now)), Ok([Wire(pubrec)] + Fanout(t.routes, p)))
      case (s', Ok(Duplicate(pubrec))) =>
        (t.(driver := Sent(t.driver.(session := s'), now)), Ok([Wire(pubrec)]))
  }

  // Restoring the connection at once, and resending what the driver says.
  function Reconnection(d: DriverState, now: int): (DriverState, seq<Effect>) {
    var (s, sent) := AfterResend(Awake(d.session, now));
    (d.(session := s), Wires(sent) + [BroadcastReconnected])
  }

  function Perform(t: TaskState, a: Action, now: int): (TaskState, seq<Effect>) {
    match a
    case Send(packet) => (t.(driver := Sent(t.driver, now)), [Wire(packet)])
    case CompleteFor(client, completion) => (t, [Notify(client, completion)])
    case TriggerReconnect =>
      var (d, effects) := Reconnection(t.driver, now);
      (t.(driver := d), [BroadcastDisconnected] + effects)
    case SubscribeAckFor(client, filters, completion) =>
      (t.(routes := AddAll(t.routes, client, filters)), [Notify(client, completion)])
    case UnsubscribeAckFor(client, topics, completion) =>
      (t.(routes := RemoveAll(t.routes, client, topics)), [Notify(client, completion)])
  }

  function PerformAll(t: TaskState, actions: seq<Action>, now: int): (TaskState, seq<Effect>)
    decreases actions
  {
    if actions == [] then (t, [])
    else
      var (t1, first) := Perform(t, actions[0], now);
      var (t2, rest) := PerformAll(t1, actions[1..], now);
      (t2, first + rest)
  }

  function DriverEvent(e: TaskEvent): Event {
    match e
    case Command(c, now) => Submit(c, now)
    case Received(packet, now) => Incoming(packet, now)
    case Timer(now) => Tick(now)
  }

  predicate IsPublish(e: TaskEvent) {
    e.Received? && e.packet.Publish?
  }

  function TaskStep(t: TaskState, e: TaskEvent): (TaskState, Turn)
    requires ValidStore(t.driver.session.store)
  {
    if IsPublish(e) then OnPublish(t, e.packet.publish, e.now)
    else
      match Step(t.driver, DriverEvent(e))
      case (d, Err(error)) => (t.(driver := d), Err(error))
      case (d, Ok(actions)) =>
        var (t', effects) := PerformAll(t.(driver := d), actions, e.now);
        (t', Ok(effects))
  }

  ghost predicate TaskInv(t: TaskState) {
    Inv(t.driver.session) && ValidEntries(t.routes)
  }

  lemma {:induction false} AddAllValid(routes: seq<Entry>, client: nat, filters: seq<Filter>)
    requires ValidEntries(routes)
    ensures ValidEntries(AddAll(routes, client, filters))
    decreases filters
  {
    if filters != [] {
      AddedIsUnion(routes, client, filters[0].path);
      AddAllValid(Added(routes, client, filters[0].path), client, filters[1..]);
    }
  }

  lemma {:induction false} RemoveAllValid(routes: seq<Entry>, client: nat, topics: seq<Text>)
    requires ValidEntries(routes)
    ensures ValidEntries(RemoveAll(routes, client, topics))
    decreases topics
  {
    if topics != [] {
      RemovedIsDifference(routes, client, topics[0]);
      RemoveAllValid(Removed(routes, client, topics[0]), client, topics[1..]);
    }
  }

  lemma {:induction false} PerformKeepsInv(t: TaskState, a: Action, now: int)
    requires TaskInv(t)
    ensures TaskInv(Perform(t, a, now).0)
  {
    match a {
      case TriggerReconnect => RestoreKeepsInv(t.driver.session, now);
      case SubscribeAckFor(client, filters, _) => AddAllValid(t.routes, client, filters);
      case UnsubscribeAckFor(client, topics, _) => RemoveAllValid(t.routes, client, topics);
      case _ =>
    }
  }

  lemma {:induction false} PerformAllKeepsInv(t: TaskState, actions: seq<Action>, now: int)
    requires TaskInv(t)
    ensures TaskInv(PerformAll(t, actions, now).0)
    decreases actions
  {
    if actions != [] {
      PerformKeepsInv(t, actions[0], now);
      PerformAllKeepsInv(Perform(t, actions[0], now).0, actions[1..], now);
    }
  }

  lemma {:induction false} TaskStepKeepsInv(t: TaskState, e: TaskEvent)
    requires TaskInv(t)
    ensures TaskInv(TaskStep(t, e).0)
  {
    if IsPublish(e) {
      PublishKeepsInv(t, e.packet.publish, e.now);
    } else {
      var event := DriverEvent(e);
      StepKeepsInv(t.driver, event);
      var (d, out) := Step(t.driver, event);
      if out.Ok? {
        PerformAllKeepsInv(t.(driver := d), out.value, e.now);
      }
    }
  }

  lemma {:induction false} PublishKeepsInv(t: TaskState, p: Publish, now: int)
    requires TaskInv(t)
    ensures TaskInv(OnPublish(t, p, now).0)
  {
    FlagsKeepInv(t.driver.session.(lastIncoming := now), p.pkid);
  }

  // ---------- in place ----------

  datatype TaskError = Runtime(error: RuntimeError) | SendFailed

  type Progress = Result<(), TaskError>

  // Whether the effect goes through as number n of the task's life: a packet must encode,
  // and it or a message to a client must find its receiver. Broadcasts ignore closed
  // mailboxes.
  predicate Goes(accepts: nat -> bool, n: nat, effect: Effect) {
    match effect
    case Wire(packet) => Encoded(packet).Ok? && accepts(n)
    case Notify(_, _) => accepts(n)
    case Deliver(_, _) => accepts(n)
    case _ => true
  }

  // How many of the effects go through, one after the other, before the first that fails.
  function Through(accepts: nat -> bool, n: nat, effects: seq<Effect>): (k: nat)
    ensures k <= |effects|
    decreases effects
  {
    if effects == [] || !Goes(accepts, n, effects[0]) then 0 else 1 + Through(accepts, n + 1, effects[1..])
  }

  // The effects are appended up to the first that fails; success is that none does.
  ghost predicate Appended(accepts: nat -> bool, before: seq<Effect>, after: seq<Effect>, added: seq<Effect>,
                           r: Progress) {
    var k := Through(accepts, |before|, added);
    after == before + added[..k] && r == if k == |added| then Ok(()) else Err(SendFailed)
  }

  lemma {:induction false} ThroughAppend(accepts: nat -> bool, n: nat, a: seq<Effect>, b: seq<Effect>)
    ensures Through(accepts, n, a + b)
         == if Through(accepts, n, a) < |a| then Through(accepts, n, a) else |a| + Through(accepts, n + |a|, b)
    decreases a
  {
    if a == [] {
      assert a + b == b;
    } else {
      assert (a + b)[1..] == a[1..] + b;
      ThroughAppend(accepts, n + 1, a[1..], b);
    }
  }

  // First these effects, then those: the second part is reached only if the first went
  // through.
  lemma {:induction false} AppendedThen(accepts: nat -> bool, before: seq<Effect>, mid: seq<Effect>, after: seq<Effect>,
                                        a: seq<Effect>, b: seq<Effect>, r: Progress)
    requires Appended(accepts, before, mid, a, Ok(())) && Appended(accepts, mid, after, b, r)
    ensures Appended(accepts, before, after, a + b, r)
  {
    var k := Through(accepts, |mid|, b);
    ThroughAppend(accepts, |before|, a, b);
    assert a[..|a|] == a;
    assert (a + b)[..|a| + k] == a + b[..k];
  }

  lemma {:induction false} AppendedFails(accepts: nat -> bool, before: seq<Effect>, after: seq<Effect>,
                                         a: seq<Effect>, b: seq<Effect>)
    requires Appended(accepts, before, after, a, Err(SendFailed))
    ensures Appended(accepts, before, after, a + b, Err(SendFailed))
  {
    var k := Through(accepts, |before|, a);
    ThroughAppend(accepts, |before|, a, b);
    assert (a + b)[..k] == a[..k];
  }

  lemma {:induction false} AppendedNothing(accepts: nat -> bool, effects: seq<Effect>)
    ensures Appended(accepts, effects, effects, [], Ok(()))
  {
    assert effects + [] == effects;
  }

  // One more effect of a list, in a loop over it.
  lemma {:induction false} AppendedNext(accepts: nat -> bool, before: seq<Effect>, mid: seq<Effect>, after: seq<Effect>,
                                        list: seq<Effect>, i: nat, r: Progress)
    requires i < |list| && Appended(accepts, before, mid, list[..i], Ok(()))
    requires Appended(accepts, mid, after, [list[i]], r)
    ensures r.Ok? ==> Appended(accepts, before, after, list[..i + 1], r)
    ensures r.Err? ==> Appended(accepts, before, after, list, r)
  {
    AppendedThen(accepts, before, mid, after, list[..i], [list[i]], r);
    assert list[..i] + [list[i]] == list[..i + 1];
    if r.Err? {
      AppendedFails(accepts, before, after, list[..i + 1], list[i + 1..]);
      assert list[..i + 1] + list[i + 1..] == list;
    }
  }

  // In the middle of a turn: what is done went through, and with what the remaining
  // actions will do it makes up the whole.
  ghost predicate Underway(accepts: nat -> bool, before: seq<Effect>, mid: seq<Effect>, whole: (TaskState, seq<Effect>),
                           done: seq<Effect>, t: TaskState, actions: seq<Action>, now: int) {
    && Appended(accepts, before, mid, done, Ok(()))
    && whole == (PerformAll(t, actions, now).0, done + PerformAll(t, actions, now).1)
  }

  lemma {:induction false} UnderwayStart(accepts: nat -> bool, before: seq<Effect>, t: TaskState, actions: seq<Action>,
                                         now: int)
    ensures Underway(accepts, before, before, PerformAll(t, actions, now), [], t, actions, now)
  {
    AppendedNothing(accepts, before);
    assert [] + PerformAll(t, actions, now).1 == PerformAll(t, actions, now).1;
  }

  lemma {:induction false} UnderwayStep(accepts: nat -> bool, before: seq<Effect>, mid: seq<Effect>, after: seq<Effect>,
                                        whole: (TaskState, seq<Effect>), done: seq<Effect>, t: TaskState,
                                        actions: seq<Action>, i: nat, now: int, r: Progress)
    requires i < |actions| && Underway(accepts, before, mid, whole, done, t, actions[i..], now)
    requires Appended(accepts, mid, after, Perform(t, actions[i], now).1, r)
    ensures r.Ok? ==> Underway(accepts, before, after, whole, done + Perform(t, actions[i], now).1,
                               Perform(t, actions[i], now).0, actions[i + 1..], now)
    ensures r.Err? ==> Appended(accepts, before, after, whole.1, r)
  {
    assert actions[i..][0] == actions[i] && actions[i..][1..] == actions[i + 1..];
    var (t1, first) := Perform(t, actions[i], now);
    var rest := PerformAll(t1, actions[i + 1..], now).1;
    assert (done + first) + rest == done + (first + rest);
    AppendedThen(accepts, before, mid, after, done, first, r);
    if r.Err? {
      AppendedFails(accepts, before, after, done + first, rest);
    }
  }

  class RuntimeTask {
    const driver: RuntimeDriver
    const router: Router
    const accepts: nat -> bool
    var effects: seq<Effect>

    ghost function Repr(): set<object> {
      {this, router} + driver.Repr()
    }

    ghost predicate Valid()
      reads Repr()
    {
      driver.Valid() && router.Valid()
    }

    ghost function View(): TaskState
      reads Repr()
    {
      TaskState(driver.View(), router.entries)
    }

    constructor (driver: RuntimeDriver, accepts: nat -> bool)
      requires driver.Valid()
      ensures Valid() && effects == [] && this.accepts == accepts
      ensures View() == TaskState(old(driver.View()), [])
    {
      this.driver := driver;
      this.accepts := accepts;
      router := new Router();
      effects := [];
    }

    method Emit(effect: Effect) returns (r: Progress)
      requires Valid()
      modifies this
      ensures Valid() && View() == old(View())
      ensures Appended(accepts, old(effects), effects, [effect], r)
    {
      assert [effect][1..] == [];
      if !Goes(accepts, |effects|, effect) {
        assert effects + [effect][..0] == effects;
        return Err(SendFailed);
      }
      effects := effects + [effect];
      return Ok(());
    }

    method SendPacket(packet: Packet, now: int) returns (r: Progress)
      requires Valid()
      modifies Repr()
      ensures Valid()
      ensures View() == if r.Ok? then old(View()).(driver := Sent(old(View()).driver, now)) else old(View())
      ensures Appended(accepts, old(effects), effects, [Wire(packet)], r)
    {
      r := Emit(Wire(packet));
      if r.Ok? {
        driver.state.lastOutgoing := now;
      }
    }

    method FanoutPublish(publish: Publish) returns (r: Progress)
      requires Valid()
      modifies this
      ensures Valid() && View() == old(View())
      ensures Appended(accepts, old(effects), effects, Fanout(router.entries, publish), r)
    {
      var clients := router.MatchingClients(publish.topic);
      ghost var list := Deliveries(clients, publish);
      AppendedNothing(accepts, effects);
      for i := 0 to |clients|
        invariant Valid() && View() == old(View())
        invariant Appended(accepts, old(effects), effects, list[..i], Ok(()))
      {
        ghost var mid := effects;
        r := Emit(Deliver(clients[i], publish));
        AppendedNext(accepts, old(effects), mid, effects, list, i, r);
        if r.Err? {
          return;
        }
      }
      assert list[..|list|] == list;
      return Ok(());
    }

    method NoteQos2Publish(pkid: uint16, now: int) returns (r: Reply<IncomingQos2Result>)
      requires Valid()
      modifies Repr()
      ensures Valid() && effects == old(effects)
      ensures var (s, seen) := AfterIncomingQos2(old(View()).driver.session.(lastIncoming := now), pkid);
              View() == old(View()).(driver := old(View()).driver.(session := s)) && r == seen
    {
      driver.state.lastIncoming := now;
      r := driver.state.OnIncomingQos2PublishChecked(pkid);
    }

    method HandleQos2Publish(publish: Publish, now: int) returns (r: Progress)
      requires Valid() && publish.qos == ExactlyOnce
      modifies Repr()
      ensures Valid()
      ensures TurnDone(old(effects), OnPublish(old(View()), publish, now), r)
    {
      var answer := NoteQos2Publish(publish.pkid, now);
      if answer.Err? {
        return Err(Runtime(answer.error));
      }
      var seen := answer.value;
      r := SendPacket(seen.pubrec, now);
      if seen.FirstSeen? {
        ghost var mid, fanout := effects, Fanout(router.entries, publish);
        if r.Err? {
          AppendedFails(accepts, old(effects), mid, [Wire(seen.pubrec)], fanout);
          return;
        }
        r := FanoutPublish(publish);
        AppendedThen(accepts, old(effects), mid, effects, [Wire(seen.pubrec)], fanout, r);
      }
    }

    // A turn that is refused has no effect. Otherwise its effects are appended up to the
    // first that fails, and if none does the task has moved on.
    ghost predicate TurnDone(before: seq<Effect>, turn: (TaskState, Turn), r: Progress)
      reads Repr()
    {
      match turn.1
      case Err(error) => r == Err(Runtime(error)) && effects == before && View() == turn.0
      case Ok(added) => Appended(accepts, before, effects, added, r) && (r.Ok? ==> View() == turn.0)
    }

    method HandleIncomingPublish(publish: Publish, now: int) returns (r: Progress)
      requires Valid()
      modifies Repr()
      ensures Valid()
      ensures TurnDone(old(effects), OnPublish(old(View()), publish, now), r)
    {
      if publish.qos == ExactlyOnce {
        r := HandleQos2Publish(publish, now);
        return;
      }
      driver.state.lastIncoming := now;
      r := FanoutPublish(publish);
      if publish.qos == AtLeastOnce {
        ghost var mid, fanout := effects, Fanout(router.entries, publish);
        var ack := Packet.PubAck(publish.pkid);
        if r.Err? {
          AppendedFails(accepts, old(effects), mid, fanout, [Wire(ack)]);
          return;
        }
        r := SendPacket(ack, now);
        AppendedThen(accepts, old(effects), mid, effects, fanout, [Wire(ack)], r);
      }
    }

    method AddRoutes(client: nat, filters: seq<Filter>)
      requires Valid()
      modifies router
      ensures Valid()
      ensures View() == old(View()).(routes := AddAll(old(View()).routes, client, filters))
    {
      AddAllValid(router.entries, client, filters);
      for i := 0 to |filters|
        invariant ValidEntries(router.entries)
        invariant AddAll(old(router.entries), client, filters) == AddAll(router.entries, client, filters[i..])
      {
        assert filters[i..][1..] == filters[i + 1..];
        router.AddSubscription(client, filters[i].path);
      }
    }

    method RemoveRoutes(client: nat, topics: seq<Text>)
      requires Valid()
      modifies router
      ensures Valid()
      ensures View() == old(View()).(routes := RemoveAll(old(View()).routes, client, topics))
    {
      RemoveAllValid(router.entries, client, topics);
      for i := 0 to |topics|
        invariant ValidEntries(router.entries)
        invariant RemoveAll(old(router.entries), client, topics) == RemoveAll(router.entries, client, topics[i..])
      {
        assert topics[i..][1..] == topics[i + 1..];
        router.RemoveSubscription(client, topics[i]);
      }
    }

    method ReconnectNow(now: int) returns (r: Progress)
      requires Valid()
      modifies Repr()
      ensures Valid()
      ensures r.Ok? ==> View() == old(View()).(driver := Reconnection(old(View()).driver, now).0)
      ensures Appended(accepts, old(effects), effects, Reconnection(old(View()).driver, now).1, r)
    {
      ReplayKeepsClock(Awake(View().driver.session, now));
      var actions := driver.HandleEvent(ConnectionRestored(now));
      ghost var sent := AfterResend(Awake(old(View()).driver.session, now)).1;
      assert actions == Ok(Sends(sent));
      r := SendAll(actions.value, sent, now);
      ghost var mid := effects;
      if r.Err? {
        AppendedFails(accepts, old(effects), mid, Wires(sent), [BroadcastReconnected]);
        return;
      }
      r := Emit(BroadcastReconnected);
      AppendedThen(accepts, old(effects), mid, effects, Wires(sent), [BroadcastReconnected], r);
    }

    // The actions of a restored connection are packets to send.
    method SendAll(actions: seq<Action>, ghost packets: seq<Packet>, now: int) returns (r: Progress)
      requires Valid() && actions == Sends(packets) && driver.state.lastOutgoing == now
      modifies Repr()
      ensures Valid() && View() == old(View())
      ensures Appended(accepts, old(effects), effects, Wires(packets), r)
    {
      ghost var list := Wires(packets);
      AppendedNothing(accepts, effects);
      for i := 0 to |actions|
        invariant Valid() && View() == old(View())
        invariant Appended(accepts, old(effects), effects, list[..i], Ok(()))
      {
        assert actions[i] == Send(packets[i]);
        ghost var mid := effects;
        r := SendPacket(actions[i].packet, now);
        AppendedNext(accepts, old(effects), mid, effects, list, i, r);
        if r.Err? {
          return;
        }
      }
      assert list[..|list|] == list;
      return Ok(());
    }

    method HandleAction(a: Action, now: int) returns (r: Progress)
      requires Valid()
      modifies Repr()
      ensures Valid()
      ensures r.Ok? ==> View() == Perform(old(View()), a, now).0
      ensures Appended(accepts, old(effects), effects, Perform(old(View()), a, now).1, r)
    {
      match a {
        case Send(packet) =>
          r := SendPacket(packet, now);
        case CompleteFor(client, completion) =>
          r := Emit(Notify(client, completion));
        case TriggerReconnect =>
          r := GiveUpConnection(now);
        case SubscribeAckFor(client, filters, completion) =>
          AddRoutes(client, filters);
          r := Emit(Notify(client, completion));
        case UnsubscribeAckFor(client, topics, completion) =>
          RemoveRoutes(client, topics);
          r := Emit(Notify(client, completion));
      }
    }

    method GiveUpConnection(now: int) returns (r: Progress)
      requires Valid()
      modifies Repr()
      ensures Valid()
      ensures r.Ok? ==> View() == Perform(old(View()), TriggerReconnect, now).0
      ensures Appended(accepts, old(effects), effects, Perform(old(View()), TriggerReconnect, now).1, r)
    {
      r := Emit(BroadcastDisconnected);
      ghost var mid := effects;
      r := ReconnectNow(now);
      AppendedThen(accepts, old(effects), mid, effects, [BroadcastDisconnected],
                   Reconnection(old(View()).driver, now).1, r);
    }

    method HandleActions(actions: seq<Action>, now: int) returns (r: Progress)
      requires Valid()
      modifies Repr()
      ensures Valid()
      ensures r.Ok? ==> View() == PerformAll(old(View()), actions, now).0
      ensures Appended(accepts, old(effects), effects, PerformAll(old(View()), actions, now).1, r)
    {
      ghost var whole, done := PerformAll(View(), actions, now), [];
      UnderwayStart(accepts, effects, View(), actions, now);
      assert actions[0..] == actions;
      for i := 0 to |actions|
        invariant Valid()
        invariant Underway(accepts, old(effects), effects, whole, done, View(), actions[i..], now)
      {
        ghost var t, mid := View(), effects;
        r := HandleAction(actions[i], now);
        UnderwayStep(accepts, old(effects), mid, effects, whole, done, t, actions, i, now, r);
        if r.Err? {
          return;
        }
        done := done + Perform(t, actions[i], now).1;
      }
      assert done + [] == done;
      return Ok(());
    }

    // One turn: a command, a packet or the timer.
    method HandleTurn(e: TaskEvent) returns (r: Progress)
      requires Valid()
      modifies Repr()
      ensures Valid()
      ensures TurnDone(old(effects), TaskStep(old(View()), e), r)
    {
      if IsPublish(e) {
        r := HandleIncomingPublish(e.packet.publish, e.now);
      } else {
        var actions := driver.HandleEvent(DriverEvent(e));
        if actions.Err? {
          return Err(Runtime(actions.error));
        }
        r := HandleActions(actions.value, e.now);
      }
    }
  }
}
