// The order of first sends against the order of resends (MQTT 3.1.1, section 4.6): a
// reconnect sends by ascending packet id, which is the original order exactly when the ids
// were first used in ascending order.
module ResendOrder {
  import opened Bytes
  import opened Types
  import opened Wrappers
  import opened PacketIds
  import opened Inflight
  import opened SessionState
  import opened Driver
  import opened SessionInvariant
  import opened RunConservation
  import opened Reconnect
  import opened SlotsAndWire
  import opened Collision
  import opened Qos2Sender
  import opened OfflineBacklog
  import opened LossWitnesses

  // The ids of the packets that await an acknowledgement, in order.
  function AwaitIds(packets: seq<Packet>): seq<uint16> {
    if packets == [] then []
    else (if Awaits(packets[0]) then [IdOf(packets[0])] else []) + AwaitIds(packets[1..])
  }

  lemma {:induction false} AwaitAppend(a: seq<Packet>, b: seq<Packet>)
    ensures AwaitIds(a + b) == AwaitIds(a) + AwaitIds(b)
  {
    if a == [] {
      assert a + b == b;
    } else {
      var first := if Awaits(a[0]) then [IdOf(a[0])] else [];
      assert (a + b)[0] == a[0] && (a + b)[1..] == a[1..] + b;
      AwaitAppend(a[1..], b);
      assert first + (AwaitIds(a[1..]) + AwaitIds(b)) == (first + AwaitIds(a[1..])) + AwaitIds(b);
    }
  }

  lemma {:induction false} AwaitMember(packets: seq<Packet>, p: uint16)
    ensures p in AwaitIds(packets) <==> exists i :: 0 <= i < |packets| && Awaits(packets[i]) && IdOf(packets[i]) == p
  {
    if packets != [] {
      AwaitMember(packets[1..], p);
      if i :| 0 <= i < |packets[1..]| && Awaits(packets[1..][i]) && IdOf(packets[1..][i]) == p {
        assert packets[i + 1] == packets[1..][i];
      }
      if i :| 0 <= i < |packets| && Awaits(packets[i]) && IdOf(packets[i]) == p {
        if i > 0 {
          assert packets[1..][i - 1] == packets[i];
        }
      }
    }
  }

  ghost predicate Distinct(ids: seq<uint16>) {
    forall i, j :: 0 <= i < j < |ids| ==> ids[i] != ids[j]
  }

  lemma {:induction false} DistinctConcat(a: seq<uint16>, b: seq<uint16>)
    requires Distinct(a) && Distinct(b) && forall p: uint16 :: p in a ==> p !in b
    ensures Distinct(a + b)
  {
    forall i, j | 0 <= i < j < |a + b|
      ensures (a + b)[i] != (a + b)[j]
    {
      if i < |a| <= j {
        assert (a + b)[i] == a[i] && a[i] in a && (a + b)[j] == b[j - |a|];
      }
    }
  }

  // ---------- the order of sends, kept up through a run ----------

  // Ids still in use and not used anew stay where they are.
  function StillSent(order: seq<uint16>, after: seq<Option<Op>>, anew: seq<uint16>): seq<uint16> {
    if order == [] then []
    else
      (if order[0] < |after| && after[order[0]].Some? && order[0] !in anew then [order[0]] else [])
      + StillSent(order[1..], after, anew)
  }

  // The occupied ids by the time their packets were sent, after an event: those used anew
  // come last.
  function NextOrder(order: seq<uint16>, after: seq<Option<Op>>, out: Outcome): seq<uint16> {
    var anew := AwaitIds(PacketsIn(out));
    StillSent(order, after, anew) + anew
  }

  ghost function RunOrder(order: seq<uint16>, d: DriverState, es: seq<Event>): seq<uint16>
    requires Inv(d.session)
    decreases es
  {
    if es == [] then order
    else
      StepKeepsInv(d, es[0]);
      var (d1, out) := Step(d, es[0]);
      RunOrder(NextOrder(order, d1.session.store.outgoing, out), d1, es[1..])
  }

  // The order lists each occupied id once.
  ghost predicate OrderOk(order: seq<uint16>, slots: seq<Option<Op>>) {
    Distinct(order) && forall p: uint16 :: p in order <==> p < |slots| && slots[p].Some?
  }

  lemma {:induction false} StillSentMembers(order: seq<uint16>, after: seq<Option<Op>>, anew: seq<uint16>)
    requires Distinct(order)
    ensures Distinct(StillSent(order, after, anew))
    ensures forall p: uint16 :: p in StillSent(order, after, anew) <==>
              p in order && p < |after| && after[p].Some? && p !in anew
  {
    if order != [] {
      assert forall i :: 0 <= i < |order[1..]| ==> order[1..][i] == order[i + 1];
      StillSentMembers(order[1..], after, anew);
      assert forall p: uint16 :: p in order <==> p == order[0] || p in order[1..];
      assert order[0] !in order[1..];
    }
  }

  // The ids a replay sends are distinct, and were free before.
  lemma {:induction false} ReplayIdsDistinct(s: Session, ops: seq<Op>)
    requires Inv(s) && QueueOk(ops)
    ensures Distinct(AwaitIds(Replay(s, ops).1))
    ensures forall p: uint16 :: p in AwaitIds(Replay(s, ops).1) ==> SlotAt(s.store, p).None?
    decreases ops
  {
    if ops != [] {
      var (s1, first) := ReplayOne(s, ops[0]);
      var rest := Replay(s1, ops[1..]).1;
      ReplayOneKeepsInv(s, ops[0]);
      ReplayIdsDistinct(s1, ops[1..]);
      AwaitAppend(first, rest);
      ReplayTurnId(s, ops[0]);
      ReplayOneMatches(s, ops[0]);
      forall p: uint16 | p in AwaitIds(first + rest)
        ensures SlotAt(s.store, p).None?
      {
        assert SlotAt(s.store, p).Some? ==> SlotAt(s1.store, p).Some?;
      }
      DistinctConcat(AwaitIds(first), AwaitIds(rest));
    }
  }

  lemma {:induction false} ReplayTurnId(s: Session, op: Op)
    requires Inv(s) && QueuedOp(op)
    ensures var (s1, first) := ReplayOne(s, op);
            && |AwaitIds(first)| <= 1
            && forall p: uint16 :: p in AwaitIds(first) ==> SlotAt(s.store, p).None? && SlotAt(s1.store, p).Some?
  {
    var first := ReplayOne(s, op).1;
    if first != [] {
      assert first[1..] == [];
    }
  }

  lemma {:induction false} FewIds(packets: seq<Packet>)
    requires |packets| <= 1
    ensures |AwaitIds(packets)| <= 1
  {
    if packets != [] {
      assert packets[1..] == [];
    }
  }

  lemma {:induction false} FewPackets(d: DriverState, e: Event)
    requires Inv(d.session) && !e.ConnectionRestored?
    ensures |PacketsIn(Step(d, e).1)| <= 1
  {
    var out := Step(d, e).1;
    if out.Ok? && out.value != [] {
      AtMostTwo(d, e);
      ShortLists(out.value);
    }
  }

  lemma {:induction false} AtMostTwo(d: DriverState, e: Event)
    requires Inv(d.session) && !e.ConnectionRestored? && Step(d, e).1.Ok?
    ensures |Step(d, e).1.value| <= 2 && (|Step(d, e).1.value| == 2 ==> !Step(d, e).1.value[0].Send?)
  {
  }

  lemma {:induction false} NewIdsDistinct(d: DriverState, e: Event)
    requires Inv(d.session)
    ensures Distinct(AwaitIds(PacketsIn(Step(d, e).1)))
  {
    if e.ConnectionRestored? {
      var start := ReplayStart(d.session, e.now);
      ReplayIdsDistinct(start, d.session.store.pending);
      SentPacketsOfSends(Replay(start, d.session.store.pending).1);
    } else {
      FewPackets(d, e);
      FewIds(PacketsIn(Step(d, e).1));
    }
  }

  lemma {:induction false} StepOrderOk(order: seq<uint16>, d: DriverState, e: Event)
    requires Inv(d.session) && OrderOk(order, d.session.store.outgoing)
    ensures var (d1, out) := Step(d, e);
            OrderOk(NextOrder(order, d1.session.store.outgoing, out), d1.session.store.outgoing)
  {
    var (d1, out) := Step(d, e);
    var before, after, packets := d.session.store.outgoing, d1.session.store.outgoing, PacketsIn(out);
    StepKeepsInv(d, e);
    StepMatches(d, e);
    NewIdsDistinct(d, e);
    forall p: uint16
      ensures p in AwaitIds(packets) ==> p < |after| && after[p].Some?
      ensures p < |after| && after[p].Some? && p !in order ==> p in AwaitIds(packets)
    {
      AwaitMember(packets, p);
      NewIdIsSent(before, after, packets, p);
    }
    MergedOk(order, after, AwaitIds(packets));
  }

  lemma {:induction false} NewIdIsSent(before: seq<Option<Op>>, after: seq<Option<Op>>, packets: seq<Packet>, p: uint16)
    requires SlotsOk(after) && WireMatches(before, after, packets)
    ensures p < |after| && after[p].Some? && before[p].None? ==>
              exists i :: 0 <= i < |packets| && Awaits(packets[i]) && IdOf(packets[i]) == p
    ensures (exists i :: 0 <= i < |packets| && Awaits(packets[i]) && IdOf(packets[i]) == p) ==>
              p < |after| && after[p].Some?
  {
    if p < |after| && after[p].Some? && before[p].None? {
      var i :| 0 <= i < |packets| && Carries(after[p], packets[i]);
      assert Awaits(packets[i]) && IdOf(packets[i]) == p;
    }
  }

  lemma {:induction false} MergedOk(order: seq<uint16>, after: seq<Option<Op>>, anew: seq<uint16>)
    requires Distinct(order) && Distinct(anew)
    requires forall p: uint16 :: p in anew ==> p < |after| && after[p].Some?
    requires forall p: uint16 :: p < |after| && after[p].Some? && p !in order ==> p in anew
    ensures OrderOk(StillSent(order, after, anew) + anew, after)
  {
    StillSentMembers(order, after, anew);
    DistinctConcat(StillSent(order, after, anew), anew);
  }

  lemma {:induction false} RunOrderOk(order: seq<uint16>, d: DriverState, es: seq<Event>)
    requires Inv(d.session) && OrderOk(order, d.session.store.outgoing)
    ensures OrderOk(RunOrder(order, d, es), Run(d, es).0.session.store.outgoing)
    decreases es
  {
    if es != [] {
      StepKeepsInv(d, es[0]);
      StepOrderOk(order, d, es[0]);
      var (d1, out) := Step(d, es[0]);
      RunOrderOk(NextOrder(order, d1.session.store.outgoing, out), d1, es[1..]);
    }
  }

  // ---------- the order of a reconnect ----------

  ghost predicate Ascending(ids: seq<uint16>) {
    forall i, j :: 0 <= i < j < |ids| ==> ids[i] < ids[j]
  }

  // Ascending lists with the same elements are equal.
  lemma {:induction false} AscendingUnique(a: seq<uint16>, b: seq<uint16>)
    requires Ascending(a) && Ascending(b) && forall p: uint16 :: p in a <==> p in b
    ensures a == b
  {
    assert a != [] ==> a[0] in a;
    assert b != [] ==> b[0] in b;
    if a != [] && b != [] {
      assert a[0] in b && b[0] in a;
      forall p: uint16
        ensures p in a[1..] <==> p in b[1..]
      {
        assert p in a <==> p == a[0] || p in a[1..];
        assert p in b <==> p == b[0] || p in b[1..];
      }
      AscendingUnique(a[1..], b[1..]);
      assert a == [a[0]] + a[1..] && b == [b[0]] + b[1..];
    }
  }

  // The ids of the tracked ops' packets are those of the ops.
  lemma {:induction false} RedeliveredIds(ops: seq<Op>)
    requires QueueOk(ops) && forall i :: 0 <= i < |ops| ==> NeedsAck(ops[i].command)
    ensures |AwaitIds(RedeliveredPackets(ops))| == |ops|
    ensures forall i :: 0 <= i < |ops| ==> AwaitIds(RedeliveredPackets(ops))[i] == PkidOf(ops[i].command)
  {
    if ops != [] {
      RedeliveredIds(ops[1..]);
      assert RedeliveredPackets(ops)[1..] == RedeliveredPackets(ops[1..]);
      assert Awaits(Redelivered(ops[0]).packet) && IdOf(Redelivered(ops[0]).packet) == PkidOf(ops[0].command);
    }
  }

  // A reconnect with nothing queued or parked sends the ids of the table, ascending.
  lemma {:induction false} ResentIds(s: Session, clean: bool, now: int)
    requires Inv(s) && s.store.pending == [] && s.store.collision.None?
    ensures var ids := AwaitIds(Reconnected(s, clean, now).1);
            Ascending(ids) && forall p: uint16 :: p in ids <==> p < |s.store.outgoing| && s.store.outgoing[p].Some?
  {
    var slots := s.store.outgoing;
    var ops := DrainSlots(slots);
    SessionRoundTrip(s, clean, now);
    DrainedAscending(slots);
    RedeliveredIds(ops);
    var ids := AwaitIds(RedeliveredPackets(ops));
    forall p: uint16
      ensures p in ids <==> p < |slots| && slots[p].Some?
    {
      if p < |slots| && slots[p].Some? {
        var k :| 0 <= k < |ops| && ops[k] == slots[p].value;
        assert ids[k] == p;
      }
    }
  }

  // After any run, with nothing queued or parked: a reconnect sends again in the order of
  // the sends so far if and only if that order was by ascending packet id.
  lemma {:induction false} ResendsInOrderIff(d: DriverState, order: seq<uint16>, es: seq<Event>, clean: bool, now: int)
    requires Inv(d.session) && OrderOk(order, d.session.store.outgoing)
    requires var st := Run(d, es).0.session.store; st.pending == [] && st.collision.None?
    ensures AwaitIds(Reconnected(Run(d, es).0.session, clean, now).1) == RunOrder(order, d, es)
       <==> Ascending(RunOrder(order, d, es))
  {
    var s := Run(d, es).0.session;
    RunOrderOk(order, d, es);
    ResentIds(s, clean, now);
    if Ascending(RunOrder(order, d, es)) {
      AscendingUnique(AwaitIds(Reconnected(s, clean, now).1), RunOrder(order, d, es));
    }
  }

  // Ids come round again, so it need not be: max publishes, a PUBACK for the first, and one
  // more, which takes id 1. A reconnect sends that one first, before those sent before it.
  lemma {:induction false} LastIsResentFirst(max: uint16, keepAlive: nat, t0: int, clean: bool, cs: seq<Command>,
                                             c: Command, now: int)
    requires max >= 2 && |cs| == max && Qos1Publishes(cs) && Qos1Publish(c)
    ensures Inv(InitialSession(max, keepAlive, t0))
    ensures var d0 := DriverState(InitialSession(max, keepAlive, t0), clean);
            var es := [ConnectionRestored(now)] + Submits(cs, now)
                      + [Incoming(Packet.PubAck(1), now), Submit(c, now)];
            var sent := Reconnected(Run(d0, es).0.session, clean, now).1;
            |sent| == max && sent[0] == Packet.Publish(c.publish.(pkid := 1, dup := true))
  {
    var d0 := DriverState(InitialSession(max, keepAlive, t0), clean);
    var ack := Incoming(Packet.PubAck(1), now);
    var full := [ConnectionRestored(now)] + Submits(cs, now);
    TableFills(max, keepAlive, t0, clean, cs, now);
    var d1 := Run(d0, full).0;
    StepKeepsInv(d1, ack);
    IdOneAgain(d1.session, c, now);
    var s := OnSubmit(OnIncoming(d1.session, Packet.PubAck(1), now).0, c, now).0;
    RunThen(d0, full, [ack, Submit(c, now)]);
    RunTwo(d1, ack, Submit(c, now));
    StepKeepsInv(Step(d1, ack).0, Submit(c, now));
    SessionRoundTrip(s, clean, now);
    assert s.store.outgoing[1..][0] == s.store.outgoing[1];
  }

  lemma {:induction false} IdOneAgain(s: Session, c: Command, now: int)
    requires Inv(s) && CountedTo(s, s.store.maxInflight) && s.store.pending == [] && Qos1Publish(c)
    ensures var s' := OnSubmit(OnIncoming(s, Packet.PubAck(1), now).0, c, now).0;
            && s'.store.outgoing == s.store.outgoing[1 := Some(OpOf(WithPkid(c, 1)))]
            && s'.store.pending == [] && s'.store.collision.None? && s'.store.inflight == s.store.inflight
  {
  }
}
