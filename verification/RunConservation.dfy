// Conservation over whole runs, what it says about the outputs, and exactly when an event
// loses an op.
module RunConservation {
  import opened Bytes
  import opened Types
  import opened Wrappers
  import opened PacketIds
  import opened Inflight
  import opened SessionState
  import opened Driver
  import opened SessionInvariant
  import opened Conservation
  import opened ReplayLosses

  // ---------- totals over a run ----------

  ghost function RunAccepted(es: seq<Event>, t: Test): nat {
    if es == [] then 0 else Accepted(es[0], t) + RunAccepted(es[1..], t)
  }

  // The ops completed, sent at QoS 0 and lost in a run, in order.
  ghost function RunOps(d: DriverState, es: seq<Event>): (r: (seq<Op>, seq<Op>, seq<Op>))
    requires Inv(d.session)
    decreases es
  {
    if es == [] then ([], [], [])
    else
      StepKeepsInv(d, es[0]);
      var rest := RunOps(Step(d, es[0]).0, es[1..]);
      (Completed(d.session, es[0]) + rest.0, SentQos0(d.session, es[0]) + rest.1, Lost(d.session, es[0]) + rest.2)
  }

  // Whatever the events, including any packets the broker may send: every command
  // accepted is held, or was completed, sent at QoS 0, or lost, exactly once.
  lemma {:induction false} RunConserves(d: DriverState, es: seq<Event>, t: Test)
    requires Inv(d.session)
    ensures Held(d.session.store, t) + RunAccepted(es, t)
         == Held(Run(d, es).0.session.store, t)
            + CountOps(RunOps(d, es).0, t) + CountOps(RunOps(d, es).1, t) + CountOps(RunOps(d, es).2, t)
    decreases es
  {
    if es != [] {
      StepKeepsInv(d, es[0]);
      StepConserves(d, es[0], t);
      var d1 := Step(d, es[0]).0;
      RunConserves(d1, es[1..], t);
      var rest := RunOps(d1, es[1..]);
      CountAppend(Completed(d.session, es[0]), rest.0, t);
      CountAppend(SentQos0(d.session, es[0]), rest.1, t);
      CountAppend(Lost(d.session, es[0]), rest.2, t);
    }
  }

  lemma {:induction false} RunOpsAppend(d: DriverState, a: seq<Event>, b: seq<Event>)
    requires Inv(d.session)
    ensures var x, y := RunOps(d, a), RunOps(Run(d, a).0, b);
            RunOps(d, a + b) == (x.0 + y.0, x.1 + y.1, x.2 + y.2)
    decreases a
  {
    if a == [] {
      var y := RunOps(d, b);
      assert a + b == b;
      assert [] + y.0 == y.0 && [] + y.1 == y.1 && [] + y.2 == y.2;
    } else {
      var e := a[0];
      StepKeepsInv(d, e);
      assert (a + b)[0] == e && (a + b)[1..] == a[1..] + b;
      var d1 := Step(d, e).0;
      RunOpsAppend(d1, a[1..], b);
      RunAssoc(Completed(d.session, e), RunOps(d1, a[1..]).0, RunOps(Run(d, a).0, b).0);
      RunAssoc(SentQos0(d.session, e), RunOps(d1, a[1..]).1, RunOps(Run(d, a).0, b).1);
      RunAssoc(Lost(d.session, e), RunOps(d1, a[1..]).2, RunOps(Run(d, a).0, b).2);
    }
  }

  lemma {:induction false} RunAssoc(a: seq<Op>, b: seq<Op>, c: seq<Op>)
    ensures a + (b + c) == (a + b) + c
  {
  }

  // ---------- what the caller sees ----------

  datatype Notice = Notice(clientId: nat, completion: Completion)

  function ActionNotices(a: Action): seq<Notice> {
    match a
    case CompleteFor(client, completion) => [Notice(client, completion)]
    case SubscribeAckFor(client, _, completion) => [Notice(client, completion)]
    case UnsubscribeAckFor(client, _, completion) => [Notice(client, completion)]
    case _ => []
  }

  // The completions among an event's actions, with their addressees.
  function Notices(actions: seq<Action>): seq<Notice> {
    if actions == [] then [] else ActionNotices(actions[0]) + Notices(actions[1..])
  }

  function OutNotices(out: Outcome): seq<Notice> {
    match out
    case Ok(actions) => Notices(actions)
    case Err(_) => []
  }

  function RunNotices(outs: seq<Outcome>): seq<Notice> {
    if outs == [] then [] else OutNotices(outs[0]) + RunNotices(outs[1..])
  }

  // The completion that answers an acknowledgement of op.
  function NoticeOf(op: Op, e: Event): Notice
    requires e.Incoming? && Trackable(op.command)
  {
    var token := op.command.tokenId;
    Notice(op.command.clientId,
      match e.packet
      case PubAck(pkid) => Completion.PubAck(token, pkid)
      case PubComp(pkid) => Completion.PubComp(token, pkid)
      case SubAck(p) => Completion.SubAck(token, p.pkid)
      case UnsubAck(pkid) => Completion.UnsubAck(token, pkid)
      case _ => Completion.PubAck(token, 0))
  }

  lemma {:induction false} SendsGiveNoNotice(packets: seq<Packet>)
    ensures Notices(Sends(packets)) == []
  {
    if packets != [] {
      assert Sends(packets)[1..] == Sends(packets[1..]);
      SendsGiveNoNotice(packets[1..]);
    }
  }

  lemma {:induction false} ShortLists(actions: seq<Action>)
    requires 1 <= |actions| <= 2
    ensures Notices(actions)
         == ActionNotices(actions[0]) + (if |actions| == 2 then ActionNotices(actions[1]) else [])
    ensures SentPackets(actions)
         == (if actions[0].Send? then [actions[0].packet] else [])
            + (if |actions| == 2 && actions[1].Send? then [actions[1].packet] else [])
  {
    if |actions| == 2 {
      assert actions[1..] == [actions[1]] && actions[1..][1..] == [];
      assert Notices(actions[1..]) == ActionNotices(actions[1]) + Notices([]);
      assert SentPackets(actions[1..]) == (if actions[1].Send? then [actions[1].packet] else []) + SentPackets([]);
    } else {
      assert actions[1..] == [];
    }
  }

  // Each op completed is reported once, to the client that issued its command, under that
  // command's token; nothing else is reported.
  lemma {:induction false} CompletionsAreReported(d: DriverState, e: Event)
    requires Inv(d.session)
    ensures var ops := Completed(d.session, e);
            |ops| <= 1
            && (ops == [] ==> OutNotices(Step(d, e).1) == [])
            && (ops != [] ==> e.Incoming? && OpOk(ops[0]) && OutNotices(Step(d, e).1) == [NoticeOf(ops[0], e)])
  {
    match e {
      case ConnectionRestored(now) => SendsGiveNoNotice(AfterResend(Awake(d.session, now)).1);
      case Incoming(packet, now) =>
        if packet.PubAck? || packet.PubComp? {
          AckIsReported(d.session, packet, now);
        } else {
          OtherIncomingReported(d.session, packet, now);
        }
      case _ =>
        if Step(d, e).1.value != [] {
          ShortLists(Step(d, e).1.value);
        }
    }
  }

  // What an incoming packet completes is reported once, to its owner.
  ghost predicate IncomingReported(s: Session, packet: Packet, now: int)
    requires Inv(s)
  {
    var ops := Completed(s, Incoming(packet, now));
    var notices := OutNotices(OnIncoming(s, packet, now).1);
    && |ops| <= 1
    && (ops == [] ==> notices == [])
    && (ops != [] ==> OpOk(ops[0]) && notices == [NoticeOf(ops[0], Incoming(packet, now))])
  }

  lemma {:induction false} AckIsReported(s: Session, packet: Packet, now: int)
    requires Inv(s) && (packet.PubAck? || packet.PubComp?)
    ensures IncomingReported(s, packet, now)
  {
    var out := OnIncoming(s, packet, now).1;
    if out.Ok? {
      ShortLists(out.value);
    }
  }

  lemma {:induction false} OtherIncomingReported(s: Session, packet: Packet, now: int)
    requires Inv(s) && !packet.PubAck? && !packet.PubComp?
    ensures IncomingReported(s, packet, now)
  {
    var out := OnIncoming(s, packet, now).1;
    if out.Ok? && out.value != [] {
      ShortLists(out.value);
    }
  }

  predicate NoticeFor(n: Notice, client: nat, token: nat) {
    n.clientId == client && n.completion.tokenId == token
  }

  function CountFor(ns: seq<Notice>, client: nat, token: nat): nat {
    if ns == [] then 0 else (if NoticeFor(ns[0], client, token) then 1 else 0) + CountFor(ns[1..], client, token)
  }

  lemma {:induction false} CountForAppend(a: seq<Notice>, b: seq<Notice>, client: nat, token: nat)
    ensures CountFor(a + b, client, token) == CountFor(a, client, token) + CountFor(b, client, token)
  {
    if a == [] {
      assert a + b == b;
    } else {
      assert (a + b)[1..] == a[1..] + b;
      CountForAppend(a[1..], b, client, token);
    }
  }

  // The test "issued by this client under this token".
  function IssuedBy(client: nat, token: nat): Test {
    (c: Command) => Trackable(c) && c.clientId == client && c.tokenId == token
  }

  lemma {:induction false} StepReports(d: DriverState, e: Event, client: nat, token: nat)
    requires Inv(d.session)
    ensures CountFor(OutNotices(Step(d, e).1), client, token)
         == CountOps(Completed(d.session, e), IssuedBy(client, token))
  {
    CompletionsAreReported(d, e);
    var ops := Completed(d.session, e);
    if ops != [] {
      assert ops == [ops[0]];
      CountOne(ops[0], IssuedBy(client, token));
    }
  }

  lemma {:induction false} RunReports(d: DriverState, es: seq<Event>, client: nat, token: nat)
    requires Inv(d.session)
    ensures CountFor(RunNotices(Run(d, es).1), client, token)
         == CountOps(RunOps(d, es).0, IssuedBy(client, token))
    decreases es
  {
    if es != [] {
      StepKeepsInv(d, es[0]);
      var (d1, out) := Step(d, es[0]);
      StepReports(d, es[0], client, token);
      RunReports(d1, es[1..], client, token);
      assert ([out] + Run(d1, es[1..]).1)[1..] == Run(d1, es[1..]).1;
      CountForAppend(OutNotices(out), RunNotices(Run(d1, es[1..]).1), client, token);
      CountAppend(Completed(d.session, es[0]), RunOps(d1, es[1..]).0, IssuedBy(client, token));
    }
  }

  // At most once, to the owner: through collisions, losses and replays, and whatever the
  // broker sends, a client gets no more completions under a token than it issued commands
  // under that token; what is still held, sent at QoS 0 or lost has had none.
  lemma {:induction false} AtMostOnceToOwner(max: uint16, keepAlive: nat, now: int, clean: bool,
                                             es: seq<Event>, client: nat, token: nat)
    requires max > 0
    ensures var d := DriverState(InitialSession(max, keepAlive, now), clean);
            Inv(d.session)
            && CountFor(RunNotices(Run(d, es).1), client, token)
               + Held(Run(d, es).0.session.store, IssuedBy(client, token))
               <= RunAccepted(es, IssuedBy(client, token))
  {
    var d := DriverState(InitialSession(max, keepAlive, now), clean);
    InitialInv(max, keepAlive, now);
    RunReports(d, es, client, token);
    RunConserves(d, es, IssuedBy(client, token));
    CountCleared(d.session.store.outgoing, IssuedBy(client, token));
  }

  // ---------- QoS 0 publishes leave by the wire ----------

  function Qos0Packets(packets: seq<Packet>): seq<Packet> {
    if packets == [] then []
    else (if packets[0].Publish? && packets[0].publish.qos == AtMostOnce then [packets[0]] else [])
         + Qos0Packets(packets[1..])
  }

  function PacketsOf(ops: seq<Op>): seq<Packet> {
    seq(|ops|, i requires 0 <= i < |ops| => ops[i].packet)
  }

  function SentPackets(actions: seq<Action>): seq<Packet> {
    if actions == [] then []
    else (if actions[0].Send? then [actions[0].packet] else []) + SentPackets(actions[1..])
  }

  lemma {:induction false} SentPacketsOfSends(packets: seq<Packet>)
    ensures SentPackets(Sends(packets)) == packets
  {
    if packets != [] {
      assert Sends(packets)[1..] == Sends(packets[1..]);
      SentPacketsOfSends(packets[1..]);
    }
  }

  lemma {:induction false} Qos0Append(a: seq<Packet>, b: seq<Packet>)
    ensures Qos0Packets(a + b) == Qos0Packets(a) + Qos0Packets(b)
  {
    if a == [] {
      assert a + b == b;
    } else {
      assert (a + b)[1..] == a[1..] + b;
      Qos0Append(a[1..], b);
    }
  }

  lemma {:induction false} ReplaySendsQos0(s: Session, ops: seq<Op>)
    requires Inv(s) && QueueOk(ops)
    ensures Qos0Packets(Replay(s, ops).1) == PacketsOf(Qos0Ops(ops))
    decreases ops
  {
    if ops != [] {
      var (s1, sent) := ReplayOne(s, ops[0]);
      ReplayOneKeepsInv(s, ops[0]);
      ReplaySendsQos0(s1, ops[1..]);
      Qos0Append(sent, Replay(s1, ops[1..]).1);
      TurnSendsQos0(s, ops[0]);
      PacketsAppend(Qos0Op(ops[0]), Qos0Ops(ops[1..]));
    }
  }

  lemma {:induction false} TurnSendsQos0(s: Session, op: Op)
    requires Inv(s) && QueuedOp(op)
    ensures Qos0Packets(ReplayOne(s, op).1) == PacketsOf(Qos0Op(op))
  {
  }

  lemma {:induction false} PacketsAppend(a: seq<Op>, b: seq<Op>)
    ensures PacketsOf(a + b) == PacketsOf(a) + PacketsOf(b)
  {
  }

  // The QoS 0 publishes among an event's packets are exactly the ops it settles that way.
  lemma {:induction false} Qos0AreSent(d: DriverState, e: Event)
    requires Inv(d.session)
    ensures var out := Step(d, e).1;
            (if out.Ok? then Qos0Packets(SentPackets(out.value)) else []) == PacketsOf(SentQos0(d.session, e))
  {
    match e {
      case ConnectionRestored(now) =>
        var start := ReplayStart(d.session, now);
        ReplaySendsQos0(start, d.session.store.pending);
        SentPacketsOfSends(Replay(start, d.session.store.pending).1);
      case Incoming(packet, now) =>
        IncomingSendsNoQos0(d.session, packet, now);
      case _ =>
    }
  }

  lemma {:induction false} IncomingSendsNoQos0(s: Session, packet: Packet, now: int)
    requires Inv(s)
    ensures var out := OnIncoming(s, packet, now).1;
            out.Ok? ==> Qos0Packets(SentPackets(out.value)) == []
  {
    var out := OnIncoming(s, packet, now).1;
    if out.Ok? && out.value != [] {
      ShortLists(out.value);
      assert |SentPackets(out.value)| <= 1;
    }
  }

  // ---------- exactly when an event loses an op ----------

  // Nothing is lost: held plus accepted is held plus completed plus sent, for every test.
  ghost predicate Lossless(d: DriverState, e: Event)
    requires Inv(d.session)
  {
    forall t: Test ::
      Held(d.session.store, t) + Accepted(e, t)
      == Held(Step(d, e).0.session.store, t)
         + CountOps(Completed(d.session, e), t) + CountOps(SentQos0(d.session, e), t)
  }

  // An insert that finds no place while another op is parked.
  predicate Overflows(st: Store, pkid: uint16) {
    st.collision.Some? && !HasRoomAt(st, pkid)
  }

  // The guards of the losing branches.
  ghost predicate Loses(s: Session, e: Event) {
    match e
    case Submit(c, _) =>
      Trackable(c) && s.active && NeedsAck(c) && Overflows(s.store, PkidOf(AssignPkid(s.pool, c).1))
    case ConnectionRestored(_) => BacklogLoses(s.store.(pending := []), s.store.pending)
    case Incoming(SubAck(p), _) =>
      SlotAt(s.store, p.pkid).Some? && !SlotAt(s.store, p.pkid).value.command.Subscribe?
    case Incoming(UnsubAck(pkid), _) =>
      SlotAt(s.store, pkid).Some? && !SlotAt(s.store, pkid).value.command.Unsubscribe?
    case _ => false
  }

  function Anything(): Test {
    (c: Command) => true
  }

  lemma {:induction false} CountAll(ops: seq<Op>)
    ensures CountOps(ops, Anything()) == |ops|
  {
    if ops != [] {
      CountAll(ops[1..]);
    }
  }

  lemma {:induction false} LosesWhenLost(s: Session, e: Event)
    requires Inv(s)
    ensures Lost(s, e) != [] <==> Loses(s, e)
  {
    if e.ConnectionRestored? {
      ReplayLosesIff(ReplayStart(s, e.now), s.store.pending);
    }
  }

  // No event loses an op unless it meets its guard, and then it always does.
  lemma {:induction false} LosslessIff(d: DriverState, e: Event)
    requires Inv(d.session)
    ensures Lossless(d, e) <==> !Loses(d.session, e)
  {
    var lost := Lost(d.session, e);
    LosesWhenLost(d.session, e);
    forall t: Test
      ensures Held(d.session.store, t) + Accepted(e, t)
           == Held(Step(d, e).0.session.store, t) + Settled(d.session, e, t)
    {
      StepConserves(d, e, t);
    }
    CountAll(lost);
    if Lossless(d, e) {
      assert Held(d.session.store, Anything()) + Accepted(e, Anything())
          == Held(Step(d, e).0.session.store, Anything())
             + CountOps(Completed(d.session, e), Anything()) + CountOps(SentQos0(d.session, e), Anything());
    }
  }

  // How many ops an event loses: a replay one at each losing turn of its backlog, any other
  // event one at most.
  lemma {:induction false} LossesCounted(s: Session, e: Event)
    requires Inv(s)
    ensures |Lost(s, e)| == if e.ConnectionRestored?
                            then LosingTurns(s.store.(pending := []), TrackedIds(s.store.pending), 0)
                            else if Loses(s, e) then 1 else 0
  {
    if e.ConnectionRestored? {
      ReplayLosesAtLosingTurns(ReplayStart(s, e.now), s.store.pending);
    }
  }

  // ---------- replays after a loss ----------

  // While the connection is down nothing sits in a slot or in the park.
  ghost predicate EmptyWhileDown(s: Session) {
    !s.active ==> EmptyTable(s.store)
  }

  lemma {:induction false} IncomingKeepsEmpty(s: Session, packet: Packet, now: int)
    requires Inv(s) && EmptyWhileDown(s)
    ensures EmptyWhileDown(OnIncoming(s, packet, now).0)
  {
  }

  lemma {:induction false} StepKeepsEmpty(d: DriverState, e: Event)
    requires Inv(d.session) && EmptyWhileDown(d.session)
    ensures EmptyWhileDown(Step(d, e).0.session)
  {
    match e {
      case ConnectionRestored(now) =>
        ReplayKeepsTimers(ReplayStart(d.session, now), d.session.store.pending);
      case Incoming(packet, now) => IncomingKeepsEmpty(d.session, packet, now);
      case _ =>
    }
  }

  lemma {:induction false} RunKeepsEmpty(d: DriverState, es: seq<Event>)
    requires Inv(d.session) && EmptyWhileDown(d.session)
    ensures EmptyWhileDown(Run(d, es).0.session)
    decreases es
  {
    if es != [] {
      StepKeepsInv(d, es[0]);
      StepKeepsEmpty(d, es[0]);
      RunKeepsEmpty(Step(d, es[0]).0, es[1..]);
    }
  }

  // Whatever happened before: if the connection is down, restoring it loses an op if and
  // only if the packet ids of the queue say so.
  lemma {:induction false} RestoringLosesIff(max: uint16, keepAlive: nat, t0: int, clean: bool,
                                             es: seq<Event>, now: int)
    requires max > 0
    ensures Inv(InitialSession(max, keepAlive, t0))
    ensures var s := Run(DriverState(InitialSession(max, keepAlive, t0), clean), es).0.session;
            !s.active ==> (Loses(s, ConnectionRestored(now)) <==> IdsLose(TrackedIds(s.store.pending), max))
  {
    InitialInv(max, keepAlive, t0);
    var d := DriverState(InitialSession(max, keepAlive, t0), clean);
    var s := Run(d, es).0.session;
    RunKeepsEmpty(d, es);
    RunKeepsSize(d, es);
    if !s.active {
      EmptyTableLosesIff(s.store.(pending := []), s.store.pending);
    }
  }

  // A loss that is followed by a restoration: the queue, the slots by ascending id and the
  // parked op decide.
  lemma {:induction false} ReconnectLosesIff(s: Session, clean: bool, now: int)
    requires Inv(s)
    ensures Loses(AfterLoss(s, clean), ConnectionRestored(now))
       <==> IdsLose(TrackedIds(Backlog(s.store)), s.store.maxInflight)
  {
    EmptyTableLosesIff(AfterLoss(s, clean).store.(pending := []), Backlog(s.store));
  }

  // The park holds one op: of three commands given the same free id, the first takes the
  // slot, the second is parked, and the third takes the park from the second, which is lost.
  lemma {:induction false} ThirdOnSameIdLosesSecond(s: Session, a: Command, b: Command, c: Command, now: int)
    requires Inv(s) && s.active && s.store.collision.None? && s.store.inflight + 1 < s.store.maxInflight
    requires NeedsAck(a) && NeedsAck(b) && NeedsAck(c)
    requires PkidOf(a) != 0 && PkidOf(a) == PkidOf(b) == PkidOf(c) && HasRoomAt(s.store, PkidOf(a))
    ensures var s1 := AfterCommand(s, a).0;
            var s2 := AfterCommand(s1, b).0;
            var s3 := AfterCommand(s2, c).0;
            && s3.store.outgoing == s.store.outgoing[PkidOf(a) as int := Some(OpOf(a))]
            && s2.store.collision == Some(Parked(PkidOf(a), OpOf(b)))
            && s3.store.collision == Some(Parked(PkidOf(a), OpOf(c)))
            && s3.store.pending == s.store.pending
            && Lost(s2, Submit(c, now)) == [OpOf(b)]
  {
    var s1 := AfterCommand(s, a).0;
    assert s1.store == s.store.(outgoing := s.store.outgoing[PkidOf(a) as int := Some(OpOf(a))],
                                inflight := s.store.inflight + 1);
    var s2 := AfterCommand(s1, b).0;
    assert s2.store == s1.store.(collision := Some(Parked(PkidOf(a), OpOf(b))));
  }
}
