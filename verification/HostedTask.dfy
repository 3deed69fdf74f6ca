// The task as `RuntimeHost::new` starts it: never active, so it only ever answers.
module HostedTask {
  import opened Bytes
  import opened Types
  import opened Wrappers
  import opened PacketIds
  import opened Inflight
  import opened SessionState
  import opened Driver
  import opened SessionInvariant
  import opened Conservation
  import opened ReplayLosses
  import opened Routing
  import opened Task
  import opened TaskRuns

  // Not active, with an empty table and no routes.
  ghost predicate Idle(t: TaskState) {
    TaskInv(t) && !t.driver.session.active && EmptyTable(t.driver.session.store) && t.routes == []
  }

  predicate AnswersPublish(effect: Effect) {
    effect.Wire? && (effect.packet.PubAck? || effect.packet.PubRec? || effect.packet.PubComp?)
  }

  // The op a turn queues.
  function QueuedBy(t: TaskState, e: TaskEvent): seq<Op> {
    if e.Command? && Trackable(e.command) then [OpOf(AssignPkid(t.driver.session.pool, e.command).1)] else []
  }

  ghost predicate OnlyAnswers(t: TaskState, e: TaskEvent)
    requires TaskInv(t)
  {
    var (t', turn) := TaskStep(t, e);
    && Idle(t')
    && t'.driver.session.store.pending == t.driver.session.store.pending + QueuedBy(t, e)
    && (turn.Ok? ==> forall i :: 0 <= i < |turn.value| ==> AnswersPublish(turn.value[i]))
  }

  predicate PubCompAtMost(out: Outcome) {
    out.Ok? && out.value != [] ==> |out.value| == 1 && out.value[0].Send? && out.value[0].packet.PubComp?
  }

  lemma {:induction false} IdlePublish(t: TaskState, e: TaskEvent)
    requires Idle(t) && IsPublish(e)
    ensures OnlyAnswers(t, e)
  {
    TaskStepKeepsInv(t, e);
    assert Fanout(t.routes, e.packet.publish) == [];
  }

  // What the driver of an idle task does in a turn.
  lemma {:induction false} IdleDriver(t: TaskState, e: TaskEvent)
    requires Idle(t) && !IsPublish(e)
    ensures var (d, out) := Step(t.driver, DriverEvent(e));
            && !d.session.active && EmptyTable(d.session.store)
            && d.session.store.pending == t.driver.session.store.pending + QueuedBy(t, e)
            && PubCompAtMost(out)
  {
    if e.Received? {
      IdleIncoming(t.driver.session, e.packet, e.now);
    }
  }

  lemma {:induction false} IdleIncoming(s: Session, packet: Packet, now: int)
    requires Inv(s) && !s.active && EmptyTable(s.store) && !packet.Publish?
    ensures var (s', out) := OnIncoming(s, packet, now);
            && !s'.active && EmptyTable(s'.store) && s'.store.pending == s.store.pending
            && PubCompAtMost(out)
  {
  }

  lemma {:induction false} IdleTurn(t: TaskState, e: TaskEvent)
    requires Idle(t)
    ensures OnlyAnswers(t, e)
  {
    if IsPublish(e) {
      IdlePublish(t, e);
    } else {
      TaskStepKeepsInv(t, e);
      IdleDriver(t, e);
      var (d, out) := Step(t.driver, DriverEvent(e));
      if out.Ok? && out.value != [] {
        assert out.value[1..] == [];
        var t1 := Perform(t.(driver := d), out.value[0], e.now).0;
        assert PerformAll(t1, [], e.now) == (t1, []);
      }
    }
  }

  lemma {:induction false} IdleRun(t: TaskState, es: seq<TaskEvent>)
    requires Idle(t)
    ensures Idle(TaskRun(t, es))
    decreases es
  {
    if es != [] {
      IdleTurn(t, es[0]);
      IdleRun(TaskStep(t, es[0]).0, es[1..]);
    }
  }

  lemma {:induction false} IdleQueues(t: TaskState, es: seq<TaskEvent>, test: Test)
    requires Idle(t)
    ensures CountOps(TaskRun(t, es).driver.session.store.pending, test)
         == CountOps(t.driver.session.store.pending, test) + RunCommanded(es, test)
    decreases es
  {
    if es != [] {
      var e := es[0];
      IdleTurn(t, e);
      IdleQueues(TaskStep(t, e).0, es[1..], test);
      CountAppend(t.driver.session.store.pending, QueuedBy(t, e), test);
      if QueuedBy(t, e) != [] {
        CountOne(QueuedBy(t, e)[0], test);
      }
    }
  }

  // In every run of the task the host starts, every turn writes acknowledgements of the
  // broker's publishes and nothing else; every command given is still in the queue, and no
  // client has been told anything.
  lemma {:induction false} HostedTaskNeverSends(max: uint16, keepAlive: nat, t0: int, clean: bool, es: seq<TaskEvent>,
                                                e: TaskEvent, test: Test)
    requires max > 0
    ensures var start := TaskState(DriverState(InitialSession(max, keepAlive, t0), clean), []);
            && TaskInv(start)
            && OnlyAnswers(TaskRun(start, es), e)
            && CountOps(TaskRun(start, es).driver.session.store.pending, test) == RunCommanded(es, test)
  {
    var start := TaskState(DriverState(InitialSession(max, keepAlive, t0), clean), []);
    InitialInv(max, keepAlive, t0);
    IdleRun(start, es);
    IdleTurn(TaskRun(start, es), e);
    IdleQueues(start, es, test);
  }
}
