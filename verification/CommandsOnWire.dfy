// What a command puts on the wire, field by field: when it is submitted, replayed or
// promoted, and while it waits.
module CommandsOnWire {
  import opened Bytes
  import opened Types
  import opened Wrappers
  import opened PacketIds
  import opened Inflight
  import opened SessionState
  import opened Driver
  import opened SessionInvariant
  import opened Conservation
  import opened RunConservation
  import opened Collision
  import opened Reconnect
  import opened SlotsAndWire
  import opened DupFlags

  // The packet asks for what the command asks for; its id and DUP are left open.
  predicate SaysAs(packet: Packet, c: Command) {
    match c
    case Publish(_, p, _) =>
      packet.Publish? && packet.publish.qos == p.qos && packet.publish.retain == p.retain
      && packet.publish.topic == p.topic && packet.publish.payload == p.payload
    case Subscribe(_, s, _) => packet.Subscribe? && packet.subscribe.filters == s.filters
    case Unsubscribe(_, u, _) => packet.Unsubscribe? && packet.unsubscribe.filters == u.filters
    case _ => false
  }

  predicate Under(packet: Packet, id: uint16, dup: bool) {
    match packet
    case Publish(p) => p.pkid == id && p.dup == dup
    case Subscribe(s) => s.pkid == id
    case Unsubscribe(u) => u.pkid == id
    case _ => false
  }

  function OwnId(c: Command): uint16 {
    match c
    case Publish(_, p, _) => p.pkid
    case Subscribe(_, s, _) => s.pkid
    case Unsubscribe(_, u, _) => u.pkid
    case _ => 0
  }

  function OwnDup(c: Command): bool {
    if c.Publish? then c.publish.dup else false
  }

  // Two commands of one kind, client and token that ask for the same.
  predicate SameRequest(a: Command, b: Command) {
    match a
    case Publish(token, p, client) =>
      b.Publish? && b.tokenId == token && b.clientId == client && b.publish.qos == p.qos
      && b.publish.retain == p.retain && b.publish.topic == p.topic && b.publish.payload == p.payload
    case Subscribe(token, s, client) =>
      b.Subscribe? && b.tokenId == token && b.clientId == client && b.subscribe.filters == s.filters
    case Unsubscribe(token, u, client) =>
      b.Unsubscribe? && b.tokenId == token && b.clientId == client && b.unsubscribe.filters == u.filters
    case _ => a == b
  }

  predicate IsQos0(c: Command) {
    c.Publish? && c.publish.qos == AtMostOnce
  }

  // ---------- ops that wait ----------

  // The op's packet is its command's, under this id.
  ghost predicate Describes(op: Op, id: uint16) {
    && SaysAs(op.packet, op.command) && Under(op.packet, id, OwnDup(op.command)) && OwnId(op.command) == id
    && op.tokenId == op.command.tokenId && op.clientId == op.command.clientId
  }

  // In slots, park and queue, in every reachable state.
  lemma {:induction false} WaitingOpsDescribed(s: Session)
    requires Inv(s)
    ensures forall p: uint16 :: SlotAt(s.store, p).Some? ==> p != 0 && Describes(SlotAt(s.store, p).value, p)
    ensures s.store.collision.Some? ==>
              s.store.collision.value.pkid != 0 && Describes(s.store.collision.value.op, s.store.collision.value.pkid)
    ensures forall i :: 0 <= i < |s.store.pending| ==>
              var op := s.store.pending[i];
              Describes(op, OwnId(op.command)) && (!IsQos0(op.command) ==> OwnId(op.command) != 0)
  {
  }

  // ---------- a submission ----------

  // The id a submitted command goes out under: its own, or the one after the last.
  function IdFor(pool: Pool, c: Command): uint16 {
    if IsQos0(c) || OwnId(c) != 0 then OwnId(c)
    else if pool.last < pool.max then pool.last + 1
    else 1
  }

  lemma {:induction false} SubmissionWrites(d: DriverState, c: Command, now: int)
    requires Inv(d.session) && Trackable(c)
    ensures var sent := PacketsIn(Step(d, Submit(c, now)).1);
            && |sent| <= 1
            && (sent != [] ==> SaysAs(sent[0], c) && Under(sent[0], IdFor(d.session.pool, c), OwnDup(c)))
  {
    SubmitSends(d, c, now);
  }

  // The op made of a submitted command: the same request, under the id for it.
  ghost predicate OpFor(op: Op, pool: Pool, c: Command) {
    SameRequest(op.command, c) && OwnDup(op.command) == OwnDup(c) && Describes(op, IdFor(pool, c))
  }

  // Where a submitted command goes. Offline it is queued. Online, a QoS 0 publish is not
  // kept; anything else takes the slot of its id if that is free, is parked if it is taken
  // while the table has room, and else is queued, or dropped if another op is parked.
  ghost predicate GoesTo(s: Session, st': Store, id: uint16, c: Command, op: Op)
    requires ValidStore(s.store)
  {
    var st := s.store;
    if !s.active then st' == st.(pending := st.pending + [op])
    else if IsQos0(c) then st' == st
    else if id <= st.maxInflight && st.outgoing[id].None? then
      st' == st.(outgoing := st.outgoing[id as int := Some(op)], inflight := st.inflight + 1)
    else if id <= st.maxInflight && st.inflight < st.maxInflight then st' == st.(collision := Some(Parked(id, op)))
    else if st.collision.None? then st' == st.(pending := st.pending + [op])
    else st' == st
  }

  lemma {:induction false} SubmissionGoesTo(d: DriverState, c: Command, now: int) returns (op: Op)
    requires Inv(d.session) && Trackable(c)
    ensures var s, s' := d.session, Step(d, Submit(c, now)).0.session;
            var id := IdFor(s.pool, c);
            && OpFor(op, s.pool, c) && GoesTo(s, s'.store, id, c, op)
            && s'.pool == s.pool.(last := if IsQos0(c) || OwnId(c) != 0 then s.pool.last else id)
  {
    op := NumberedOp(d.session.pool, c);
    if d.session.active && !IsQos0(c) {
      AdmitGoesTo(d.session, IdFor(d.session.pool, c), c, op);
    }
  }

  lemma {:induction false} NumberedOp(pool: Pool, c: Command) returns (op: Op)
    requires ValidPool(pool) && Trackable(c)
    ensures var (pool', numbered) := AssignPkid(pool, c);
            && op == OpOf(numbered) && OpFor(op, pool, c) && NeedsAck(c) == NeedsAck(numbered) == !IsQos0(c)
            && pool' == pool.(last := if IsQos0(c) || OwnId(c) != 0 then pool.last else IdFor(pool, c))
  {
    op := OpOf(AssignPkid(pool, c).1);
  }

  lemma {:induction false} AdmitGoesTo(s: Session, id: uint16, c: Command, op: Op)
    requires Inv(s) && s.active && !IsQos0(c) && id != 0 && PkidOf(op.command) == id
    ensures GoesTo(s, Admit(s.store, op).0, id, c, op)
  {
    if id <= s.store.maxInflight && s.store.outgoing[id].None? {
      FreeIdHasRoom(s.store, id);
    }
  }

  // A command that is none of the three changes nothing and sends nothing.
  lemma {:induction false} OthersIgnored(d: DriverState, c: Command, now: int)
    requires Inv(d.session) && (c.Ping? || c.Disconnect?)
    ensures Step(d, Submit(c, now)) == (d, Ok([]))
  {
  }

  // ---------- replay and promotion ----------

  // A redelivery asks for the same on behalf of the same client and token, under the same
  // id, with DUP exactly on QoS 1 and QoS 2 publishes.
  lemma {:induction false} RedeliveryWrites(op: Op)
    requires QueuedOp(op)
    ensures var again := Redelivered(op);
            && SameRequest(again.command, op.command)
            && SaysAs(again.packet, op.command)
            && Under(again.packet, OwnId(op.command), if IsQos0(op.command) then OwnDup(op.command) else true)
            && Describes(again, OwnId(op.command))
  {
  }

  // A turn of a replay does with its op what a submission does with a command, and sends the
  // redelivery exactly when that is a QoS 0 publish or gets its slot.
  lemma {:induction false} ReplayTurnGoesTo(s: Session, op: Op)
    requires Inv(s) && s.active && QueuedOp(op)
    ensures var (s', sent) := ReplayOne(s, op);
            var id := OwnId(op.command);
            && s' == s.(store := s'.store)
            && GoesTo(s, s'.store, id, op.command, Redelivered(op))
            && sent == (if IsQos0(op.command) || (id <= s.store.maxInflight && s.store.outgoing[id].None?)
                        then [Redelivered(op).packet] else [])
  {
    if !IsQos0(op.command) {
      AdmitGoesTo(s, OwnId(op.command), op.command, Redelivered(op));
      if OwnId(op.command) <= s.store.maxInflight && s.store.outgoing[OwnId(op.command)].None? {
        FreeIdHasRoom(s.store, OwnId(op.command));
      }
    }
  }

  // A replay writes redeliveries of its backlog, in order: some of these packets.
  lemma {:induction false} ReplayWrites(s: Session, ops: seq<Op>)
    requires Inv(s) && QueueOk(ops)
    ensures var packets := RedeliveredPackets(ops);
            && Subsequence(Replay(s, ops).1, packets)
            && |packets| == |ops|
            && forall i :: 0 <= i < |ops| ==>
                 SaysAs(packets[i], ops[i].command)
                 && Under(packets[i], OwnId(ops[i].command),
                          if IsQos0(ops[i].command) then OwnDup(ops[i].command) else true)
  {
    ReplaySendsInOrder(s, ops);
    forall i | 0 <= i < |ops|
      ensures SaysAs(RedeliveredPackets(ops)[i], ops[i].command)
           && Under(RedeliveredPackets(ops)[i], OwnId(ops[i].command),
                    if IsQos0(ops[i].command) then OwnDup(ops[i].command) else true)
    {
      RedeliveryWrites(ops[i]);
    }
  }

  // What an accepted PUBACK or PUBCOMP promotes is the parked command, under DUP.
  lemma {:induction false} PromotionWrites(s: Session, p: uint16)
    requires Inv(s)
    ensures AfterPubAck(s, p).1.Ok? && AfterPubAck(s, p).1.value.nextPacket.Some? ==>
              s.store.collision.Some?
              && SaysAs(AfterPubAck(s, p).1.value.nextPacket.value, s.store.collision.value.op.command)
              && Under(AfterPubAck(s, p).1.value.nextPacket.value, p, true)
    ensures AfterPubComp(s, p).1.Ok? && AfterPubComp(s, p).1.value.nextPacket.Some? ==>
              s.store.collision.Some?
              && SaysAs(AfterPubComp(s, p).1.value.nextPacket.value, s.store.collision.value.op.command)
              && Under(AfterPubComp(s, p).1.value.nextPacket.value, p, true)
  {
    if AfterPubAck(s, p).1.Ok? {
      PubAckPromotes(s, p);
    }
    if AfterPubComp(s, p).1.Ok? {
      PubCompPromotes(s, p);
    }
  }

  // ---------- over runs ----------

  // A command submitted in the run, or that of an op held before it.
  ghost predicate Given(c: Command, es: seq<Event>, held: seq<Op>) {
    (exists i :: 0 <= i < |es| && es[i].Submit? && es[i].command == c)
    || (exists i :: 0 <= i < |held| && held[i].command == c)
  }

  ghost function NotGiven(es: seq<Event>, held: seq<Op>): Test {
    (core: Command) => forall c :: Given(c, es, held) && Trackable(c) ==> Core(c) != core
  }

  lemma {:induction false} NoneAccepted(es: seq<Event>, t: Test)
    requires forall i :: 0 <= i < |es| && es[i].Submit? && Trackable(es[i].command) ==> !t(Core(es[i].command))
    ensures RunAccepted(es, t) == 0
  {
    if es != [] {
      NoneAccepted(es[1..], t);
    }
  }

  // Commands have one core exactly when they are one request.
  lemma {:induction false} CoreIsRequest(a: Command, b: Command)
    requires Trackable(a) && Trackable(b)
    ensures Core(a) == Core(b) <==> SameRequest(a, b)
  {
  }

  // Nothing that was not given is held, completed or sent.
  lemma {:induction false} NothingComesFromNowhere(d: DriverState, es: seq<Event>)
    requires Inv(d.session)
    ensures var t := NotGiven(es, Backlog(d.session.store));
            Held(Run(d, es).0.session.store, t) == 0 && CountOps(RunOps(d, es).1, t) == 0
  {
    var held := Backlog(d.session.store);
    var t := NotGiven(es, held);
    LossKeepsInv(d.session, false);
    CountBacklog(d.session.store, t);
    assert forall i :: 0 <= i < |held| ==> QueuedOp(held[i]) && Given(held[i].command, es, held);
    NoneCounted(held, t);
    assert forall i :: 0 <= i < |es| && es[i].Submit? ==> Given(es[i].command, es, held);
    NoneAccepted(es, t);
    RunConserves(d, es, t);
  }

  predicate Asks(packet: Packet) {
    packet.Publish? || packet.Subscribe? || packet.Unsubscribe?
  }

  // An op of a given command, in the sense that matters here.
  ghost predicate FromGiven(op: Op, es: seq<Event>, held: seq<Op>) {
    OpOk(op) && !NotGiven(es, held)(Core(op.command))
  }

  lemma {:induction false} SlottedOp(d: DriverState, es: seq<Event>, e: Event, i: nat) returns (op: Op)
    requires Inv(d.session)
    requires var sent := PacketsIn(Step(Run(d, es).0, e).1); i < |sent| && Awaits(sent[i])
    ensures FromGiven(op, es + [e], Backlog(d.session.store))
    ensures SaysAs(PacketsIn(Step(Run(d, es).0, e).1)[i], op.command)
  {
    var d1 := Run(d, es).0;
    var packet := PacketsIn(Step(d1, e).1)[i];
    NothingComesFromNowhere(d, es + [e]);
    RunThen(d, es, [e]);
    RunOne(d1, e);
    StepMatches(d1, e);
    StepKeepsInv(d1, e);
    var slots, p := Step(d1, e).0.session.store.outgoing, IdOf(packet);
    op := slots[p].value;
    WaitingOpsDescribed(Step(d1, e).0.session);
    var t := NotGiven(es + [e], Backlog(d.session.store));
    if t(Core(op.command)) {
      SlotIsHeld(slots, p, t);
    }
  }

  lemma {:induction false} Qos0Member(packets: seq<Packet>, i: nat)
    requires i < |packets| && packets[i].Publish? && packets[i].publish.qos == AtMostOnce
    ensures packets[i] in Qos0Packets(packets)
  {
    if i > 0 {
      Qos0Member(packets[1..], i - 1);
    }
  }

  lemma {:induction false} MemberCounts(ops: seq<Op>, k: nat, t: Test)
    requires k < |ops| && t(Core(ops[k].command))
    ensures CountOps(ops, t) > 0
  {
    if k > 0 {
      MemberCounts(ops[1..], k - 1, t);
    }
  }

  lemma {:induction false} SettledOk(s: Session, e: Event, k: nat)
    requires Inv(s) && k < |SentQos0(s, e)|
    ensures OpOk(SentQos0(s, e)[k])
  {
    if e.ConnectionRestored? {
      Qos0OpsOk(s.store.pending, k);
    }
  }

  lemma {:induction false} Qos0OpsOk(ops: seq<Op>, k: nat)
    requires QueueOk(ops) && k < |Qos0Ops(ops)|
    ensures OpOk(Qos0Ops(ops)[k])
  {
    var first := Qos0Op(ops[0]);
    if k >= |first| {
      Qos0OpsOk(ops[1..], k - |first|);
    }
  }

  lemma {:induction false} SettledOp(d: DriverState, es: seq<Event>, e: Event, i: nat) returns (op: Op)
    requires Inv(d.session)
    requires var sent := PacketsIn(Step(Run(d, es).0, e).1);
             i < |sent| && sent[i].Publish? && sent[i].publish.qos == AtMostOnce
    ensures FromGiven(op, es + [e], Backlog(d.session.store))
    ensures SaysAs(PacketsIn(Step(Run(d, es).0, e).1)[i], op.command)
  {
    var d1 := Run(d, es).0;
    var sent, settled := PacketsIn(Step(d1, e).1), SentQos0(d1.session, e);
    Qos0AreSent(d1, e);
    Qos0Member(sent, i);
    var k :| 0 <= k < |settled| && PacketsOf(settled)[k] == sent[i];
    op := settled[k];
    SettledOk(d1.session, e, k);
    NothingComesFromNowhere(d, es + [e]);
    var t := NotGiven(es + [e], Backlog(d.session.store));
    SettledInRun(d, es, e, t);
    if t(Core(op.command)) {
      MemberCounts(settled, k, t);
    }
  }

  lemma {:induction false} SettledInRun(d: DriverState, es: seq<Event>, e: Event, t: Test)
    requires Inv(d.session)
    ensures CountOps(SentQos0(Run(d, es).0.session, e), t) <= CountOps(RunOps(d, es + [e]).1, t)
  {
    var d1 := Run(d, es).0;
    StepKeepsInv(d1, e);
    RunOpsAppend(d, es, [e]);
    assert [e][0] == e && [e][1..] == [];
    var settled := SentQos0(d1.session, e);
    assert RunOps(d1, [e]).1 == settled + [];
    CountAppend(RunOps(d, es).1, settled + [], t);
    assert settled + [] == settled;
  }

  // Every publish, subscribe and unsubscribe packet of every event of a run says what some
  // command says that was submitted by then, or held when the run began.
  lemma {:induction false} SentWasGiven(d: DriverState, es: seq<Event>, e: Event, i: nat)
    requires Inv(d.session)
    requires var sent := PacketsIn(Step(Run(d, es).0, e).1); i < |sent| && Asks(sent[i])
    ensures var packet := PacketsIn(Step(Run(d, es).0, e).1)[i];
            exists c :: Given(c, es + [e], Backlog(d.session.store)) && Trackable(c) && SaysAs(packet, c)
  {
    var held := Backlog(d.session.store);
    var packet := PacketsIn(Step(Run(d, es).0, e).1)[i];
    var op: Op;
    if Awaits(packet) {
      op := SlottedOp(d, es, e, i);
    } else {
      op := SettledOp(d, es, e, i);
    }
    var c :| Given(c, es + [e], held) && Trackable(c) && Core(c) == Core(op.command);
    CoreIsRequest(op.command, c);
    assert SaysAs(packet, c);
  }
}
