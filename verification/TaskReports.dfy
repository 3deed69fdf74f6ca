// A turn of the task as a run of its driver, and what the task's clients are told: each
// command is reported at most once, to its owner, through every turn, timeout and replay.
module TaskReports {
  import opened Bytes
  import opened Types
  import opened Wrappers
  import opened PacketIds
  import opened Inflight
  import opened SessionState
  import opened Driver
  import opened SessionInvariant
  import opened Conservation
  import opened RunConservation
  import opened Routing
  import opened Task
  import opened TaskRuns
  import opened Keepalive

  // The completions under this token that go to this client's mailbox.
  function Notified(effects: seq<Effect>, client: nat, token: nat): nat {
    if effects == [] then 0
    else (if effects[0].Notify? && NoticeFor(Notice(effects[0].clientId, effects[0].completion), client, token)
          then 1 else 0)
         + Notified(effects[1..], client, token)
  }

  lemma {:induction false} NotifiedAppend(a: seq<Effect>, b: seq<Effect>, client: nat, token: nat)
    ensures Notified(a + b, client, token) == Notified(a, client, token) + Notified(b, client, token)
  {
    if a == [] {
      assert a + b == b;
    } else {
      assert (a + b)[1..] == a[1..] + b;
      NotifiedAppend(a[1..], b, client, token);
    }
  }

  lemma {:induction false} NoNotice(effects: seq<Effect>, client: nat, token: nat)
    requires forall i :: 0 <= i < |effects| ==> !effects[i].Notify?
    ensures Notified(effects, client, token) == 0
  {
    if effects != [] {
      NoNotice(effects[1..], client, token);
    }
  }

  // An action notifies as it reports.
  lemma {:induction false} PerformNotifies(t: TaskState, a: Action, now: int, client: nat, token: nat)
    ensures Notified(Perform(t, a, now).1, client, token) == CountFor(ActionNotices(a), client, token)
  {
    var effects := Perform(t, a, now).1;
    if a.Send? || a.TriggerReconnect? {
      NoNotice(effects, client, token);
    } else {
      assert effects[1..] == [] && ActionNotices(a)[1..] == [];
    }
  }

  lemma {:induction false} PerformAllNotifies(t: TaskState, actions: seq<Action>, now: int, client: nat, token: nat)
    ensures Notified(PerformAll(t, actions, now).1, client, token) == CountFor(Notices(actions), client, token)
    decreases actions
  {
    if actions != [] {
      var (t1, first) := Perform(t, actions[0], now);
      PerformNotifies(t, actions[0], now, client, token);
      PerformAllNotifies(t1, actions[1..], now, client, token);
      NotifiedAppend(first, PerformAll(t1, actions[1..], now).1, client, token);
      CountForAppend(ActionNotices(actions[0]), Notices(actions[1..]), client, token);
    }
  }

  function TurnNotified(turn: Turn, client: nat, token: nat): nat {
    match turn
    case Ok(effects) => Notified(effects, client, token)
    case Err(_) => 0
  }

  // A turn notifies of exactly what its driver event completes; a publish of nothing.
  lemma {:induction false} TurnNotifies(t: TaskState, e: TaskEvent, client: nat, token: nat)
    requires TaskInv(t)
    ensures TurnNotified(TaskStep(t, e).1, client, token)
         == if IsPublish(e) then 0
            else CountOps(Completed(t.driver.session, DriverEvent(e)), IssuedBy(client, token))
  {
    if IsPublish(e) {
      var turn := TaskStep(t, e).1;
      if turn.Ok? {
        NoNotice(turn.value, client, token);
      }
    } else {
      var (d, out) := Step(t.driver, DriverEvent(e));
      StepReports(t.driver, DriverEvent(e), client, token);
      if out.Ok? {
        PerformAllNotifies(t.(driver := d), out.value, e.now, client, token);
      }
    }
  }

  // One turn: what its client is told of is no longer held.
  lemma {:induction false} TurnBalance(t: TaskState, e: TaskEvent, client: nat, token: nat)
    requires TaskInv(t)
    ensures Held(TaskStep(t, e).0.driver.session.store, IssuedBy(client, token))
            + TurnNotified(TaskStep(t, e).1, client, token)
         <= Held(t.driver.session.store, IssuedBy(client, token)) + Commanded(e, IssuedBy(client, token))
  {
    var mine := IssuedBy(client, token);
    TurnNotifies(t, e, client, token);
    if IsPublish(e) {
      StepHolds(t, e, mine);
    } else {
      var event := DriverEvent(e);
      StepConserves(t.driver, event, mine);
      StepKeepsInv(t.driver, event);
      var (d, out) := Step(t.driver, event);
      if out.Ok? {
        PerformAllHolds(t.(driver := d), out.value, e.now, mine);
      }
    }
  }

  ghost function RunNotified(t: TaskState, es: seq<TaskEvent>, client: nat, token: nat): nat
    requires TaskInv(t)
    decreases es
  {
    if es == [] then 0
    else
      TaskStepKeepsInv(t, es[0]);
      TurnNotified(TaskStep(t, es[0]).1, client, token) + RunNotified(TaskStep(t, es[0]).0, es[1..], client, token)
  }

  // At most once, to the owner: in every run, whatever the broker sends and however often
  // the connection is lost and its backlog replayed, completions in a client's mailbox
  // under a token, with the ops of that token held at the end, are no more than those held
  // at the start and the commands the client gave under it.
  lemma {:induction false} ClientsAreToldOnce(t: TaskState, es: seq<TaskEvent>, client: nat, token: nat)
    requires TaskInv(t)
    ensures Held(TaskRun(t, es).driver.session.store, IssuedBy(client, token)) + RunNotified(t, es, client, token)
         <= Held(t.driver.session.store, IssuedBy(client, token)) + RunCommanded(es, IssuedBy(client, token))
    decreases es
  {
    if es != [] {
      TaskStepKeepsInv(t, es[0]);
      TurnBalance(t, es[0], client, token);
      ClientsAreToldOnce(TaskStep(t, es[0]).0, es[1..], client, token);
    }
  }

  // Nor more if the task ends in the middle of a further turn, its effects cut off at the
  // first send that failed.
  lemma {:induction false} ToldOnceThoughCutOff(t: TaskState, es: seq<TaskEvent>, e: TaskEvent, k: nat,
                                                client: nat, token: nat)
    requires TaskInv(t)
    ensures var turn, mine := TaskStep(TaskRun(t, es), e).1, IssuedBy(client, token);
            turn.Ok? && k <= |turn.value| ==>
              RunNotified(t, es, client, token) + Notified(turn.value[..k], client, token)
              <= Held(t.driver.session.store, mine) + RunCommanded(es, mine) + Commanded(e, mine)
  {
    ClientsAreToldOnce(t, es, client, token);
    CutOffBalance(TaskRun(t, es), e, k, client, token);
  }

  lemma {:induction false} CutOffBalance(t: TaskState, e: TaskEvent, k: nat, client: nat, token: nat)
    requires TaskInv(t)
    ensures var turn := TaskStep(t, e).1;
            turn.Ok? && k <= |turn.value| ==>
              Notified(turn.value[..k], client, token)
              <= Held(t.driver.session.store, IssuedBy(client, token)) + Commanded(e, IssuedBy(client, token))
  {
    TurnBalance(t, e, client, token);
    var turn := TaskStep(t, e).1;
    if turn.Ok? && k <= |turn.value| {
      NotifiedAppend(turn.value[..k], turn.value[k..], client, token);
      assert turn.value[..k] + turn.value[k..] == turn.value;
    }
  }

  // ---------- a turn in the driver's terms ----------

  // The events the driver sees in a turn: the task's own, and a restoration if that gave
  // the connection up.
  function DriverEvents(t: TaskState, e: TaskEvent): seq<Event>
    requires ValidStore(t.driver.session.store)
  {
    [DriverEvent(e)]
    + (if Step(t.driver, DriverEvent(e)).1 == Ok([TriggerReconnect]) then [ConnectionRestored(e.now)] else [])
  }

  lemma {:induction false} PerformAllLeavesDriver(t: TaskState, actions: seq<Action>, now: int)
    requires TriggerReconnect !in actions
    requires forall p :: Send(p) in actions ==> t.driver.session.lastOutgoing == now
    ensures PerformAll(t, actions, now).0.driver == t.driver
    decreases actions
  {
    if actions != [] {
      assert forall a :: a in actions[1..] ==> a in actions;
      assert actions[0] in actions;
      PerformAllLeavesDriver(Perform(t, actions[0], now).0, actions[1..], now);
    }
  }

  lemma {:induction false} OnlyLossTriggers(d: DriverState, e: Event)
    requires Inv(d.session) && (e.Submit? || e.Incoming? || e.Tick?) && Step(d, e).1.Ok?
    ensures TriggerReconnect in Step(d, e).1.value ==> Step(d, e).1 == Ok([TriggerReconnect])
  {
  }

  // Every turn moves the driver as a run of its own events does; only the PUBACK that the
  // task itself sends for a QoS 1 publish is noted on top.
  lemma {:induction false} TurnIsDriverRun(t: TaskState, e: TaskEvent)
    requires TaskInv(t)
    ensures DriverEvents(t, e)[0] == match e
                                     case Command(c, now) => Submit(c, now)
                                     case Received(packet, now) => Incoming(packet, now)
                                     case Timer(now) => Tick(now)
    ensures var d := Run(t.driver, DriverEvents(t, e)).0;
            TaskStep(t, e).0.driver
            == if IsPublish(e) && e.packet.publish.qos == AtLeastOnce then Sent(d, e.now) else d
  {
    var event := DriverEvent(e);
    var (d, out) := Step(t.driver, event);
    StepKeepsInv(t.driver, event);
    RunOne(t.driver, event);
    if !IsPublish(e) && out.Ok? {
      var t1 := t.(driver := d);
      if out.value == [TriggerReconnect] {
        RunTwo(t.driver, event, ConnectionRestored(e.now));
        assert out.value[1..] == [];
        var t2 := Perform(t1, TriggerReconnect, e.now).0;
        assert PerformAll(t2, [], e.now).0 == t2;
      } else {
        OnlyLossTriggers(t.driver, event);
        forall p | Send(p) in out.value
          ensures d.session.lastOutgoing == e.now
        {
          ActivityIsNoted(t.driver, event, p);
        }
        PerformAllLeavesDriver(t1, out.value, e.now);
      }
    }
  }
}
