// Commands given while offline, and what the first connection does with them.
module OfflineBacklog {
  import opened Bytes
  import opened Types
  import opened Wrappers
  import opened PacketIds
  import opened Inflight
  import opened SessionState
  import opened Driver
  import opened SessionInvariant
  import opened Conservation
  import opened ReplayLosses
  import opened RunConservation
  import opened Reconnect

  // Commands as clients issue them: those that need a packet id leave it to the runtime.
  ghost predicate Unnumbered(cs: seq<Command>) {
    forall i :: 0 <= i < |cs| ==> Trackable(cs[i]) && (NeedsAck(cs[i]) ==> PkidOf(cs[i]) == 0)
  }

  function Submits(cs: seq<Command>, now: int): seq<Event> {
    seq(|cs|, i requires 0 <= i < |cs| => Submit(cs[i], now))
  }

  // The ops queued for the commands, each with the candidate its turn gives it.
  function Queued(pool: Pool, cs: seq<Command>): seq<Op>
    requires forall i :: 0 <= i < |cs| ==> Trackable(cs[i])
    decreases cs
  {
    if cs == [] then []
    else
      var (pool', c) := AssignPkid(pool, cs[0]);
      [OpOf(c)] + Queued(pool', cs[1..])
  }

  function PoolAfter(pool: Pool, cs: seq<Command>): Pool
    decreases cs
  {
    if cs == [] then pool else PoolAfter(AssignPkid(pool, cs[0]).0, cs[1..])
  }

  // Offline, commands only queue; the outputs are empty.
  lemma {:induction false} OfflineQueues(d: DriverState, cs: seq<Command>, now: int)
    requires Inv(d.session) && !d.session.active && Unnumbered(cs)
    ensures Run(d, Submits(cs, now)).0.session
         == d.session.(
              pool := PoolAfter(d.session.pool, cs),
              store := d.session.store.(pending := d.session.store.pending + Queued(d.session.pool, cs)))
    ensures forall i :: 0 <= i < |cs| ==> Run(d, Submits(cs, now)).1[i] == Ok([])
    decreases cs
  {
    var s := d.session;
    if cs == [] {
      assert s.store.pending + [] == s.store.pending;
    } else {
      var (pool, c) := AssignPkid(s.pool, cs[0]);
      StepKeepsInv(d, Submit(cs[0], now));
      var d1 := Step(d, Submit(cs[0], now)).0;
      assert Submits(cs, now)[1..] == Submits(cs[1..], now);
      OfflineQueues(d1, cs[1..], now);
      assert s.store.pending + [OpOf(c)] + Queued(pool, cs[1..]) == s.store.pending + Queued(s.pool, cs);
    }
  }

  // The tracked ops carry k+1, k+2, ... up to max, in order (later ones may carry anything).
  ghost predicate CountUp(ops: seq<Op>, k: nat, max: nat) {
    ops == [] || k >= max
    || (if NeedsAck(ops[0].command) then PkidOf(ops[0].command) == k + 1 && CountUp(ops[1..], k + 1, max)
        else CountUp(ops[1..], k, max))
  }

  lemma {:induction false} QueuedCountUp(pool: Pool, cs: seq<Command>)
    requires ValidPool(pool) && Unnumbered(cs)
    ensures CountUp(Queued(pool, cs), pool.last, pool.max)
    decreases cs
  {
    if cs != [] && pool.last < pool.max {
      QueuedCountUp(AssignPkid(pool, cs[0]).0, cs[1..]);
    }
  }

  // Numbering changes nothing else, and keeps the order.
  lemma {:induction false} QueuedKeepsCommands(pool: Pool, cs: seq<Command>)
    requires ValidPool(pool) && Unnumbered(cs)
    ensures |Queued(pool, cs)| == |cs| && QueueOk(Queued(pool, cs))
    ensures forall i :: 0 <= i < |cs| ==>
              Core(Queued(pool, cs)[i].command) == Core(cs[i]) && Queued(pool, cs)[i].command.tokenId == cs[i].tokenId
              && Queued(pool, cs)[i].command.clientId == cs[i].clientId
    decreases cs
  {
    if cs != [] {
      QueuedKeepsCommands(AssignPkid(pool, cs[0]).0, cs[1..]);
    }
  }

  // The ops a table with `room` free slots lets out: every QoS 0 publish, and the first
  // `room` of the others.
  function LetOut(ops: seq<Op>, room: nat): seq<Op> {
    if ops == [] then []
    else if !NeedsAck(ops[0].command) then [ops[0]] + LetOut(ops[1..], room)
    else if room > 0 then [ops[0]] + LetOut(ops[1..], room - 1)
    else LetOut(ops[1..], 0)
  }

  // The ops it keeps back.
  function KeptBack(ops: seq<Op>, room: nat): seq<Op> {
    if ops == [] then []
    else if !NeedsAck(ops[0].command) then KeptBack(ops[1..], room)
    else if room > 0 then KeptBack(ops[1..], room - 1)
    else [ops[0]] + KeptBack(ops[1..], 0)
  }

  function TrackedOps(ops: seq<Op>): seq<Op> {
    if ops == [] then [] else (if NeedsAck(ops[0].command) then [ops[0]] else []) + TrackedOps(ops[1..])
  }

  lemma {:induction false} SplitsQueue(ops: seq<Op>, room: nat)
    requires QueueOk(ops)
    ensures QueueOk(LetOut(ops, room)) && QueueOk(KeptBack(ops, room)) && QueueOk(TrackedOps(ops))
    decreases ops
  {
    if ops != [] {
      SplitsQueue(ops[1..], room);
      if room > 0 {
        SplitsQueue(ops[1..], room - 1);
      } else {
        SplitsQueue(ops[1..], 0);
      }
    }
  }

  // Exactly the ids 1..k are taken.
  ghost predicate FilledTo(st: Store, k: nat) {
    && k <= st.maxInflight && st.inflight == k && st.collision == None
    && forall p :: 0 <= p < |st.outgoing| ==> (st.outgoing[p].Some? <==> 1 <= p <= k)
  }

  // Up to id k the slots are as they were; above it they hold these ops, in order.
  ghost predicate SlotsFrom(slots: seq<Option<Op>>, slots': seq<Option<Op>>, tracked: seq<Op>, k: nat)
    requires QueueOk(tracked)
  {
    && |slots'| == |slots|
    && (forall p :: 0 <= p <= k && p < |slots| ==> slots'[p] == slots[p])
    && (forall p :: k < p < |slots| ==>
          slots'[p] == if p - k - 1 < |tracked| then Some(Redelivered(tracked[p - k - 1])) else None)
  }

  ghost predicate SlotsHold(slots: seq<Option<Op>>, slots': seq<Option<Op>>, ops: seq<Op>, k: nat)
    requires QueueOk(ops)
  {
    SplitsQueue(ops, 0);
    SlotsFrom(slots, slots', TrackedOps(ops), k)
  }

  ghost predicate Drained(s: Session, r: (Session, seq<Packet>), ops: seq<Op>, k: nat)
    requires QueueOk(ops) && k <= s.store.maxInflight
  {
    var room := s.store.maxInflight - k;
    SplitsQueue(ops, room);
    var st, st' := s.store, r.0.store;
    && r.1 == RedeliveredPackets(LetOut(ops, room))
    && st'.pending == st.pending + RedeliveredAll(KeptBack(ops, room))
    && st'.collision == None
    && SlotsHold(st.outgoing, st'.outgoing, ops, k)
  }

  // The three kinds of step: a QoS 0 publish, an op that gets its slot, an op kept back.
  lemma {:induction false} StepQos0(s: Session, ops: seq<Op>, k: nat)
    requires Inv(s) && ops != [] && QueueOk(ops) && QueueOk(ops[1..]) && FilledTo(s.store, k)
    requires !NeedsAck(ops[0].command)
    requires Drained(s, Replay(s, ops[1..]), ops[1..], k)
    ensures Drained(s, Replay(s, ops), ops, k)
  {
    assert ReplayOne(s, ops[0]) == (s, [Redelivered(ops[0]).packet]);
    DrainedSkip(s, Replay(s, ops[1..]), ops, k);
  }

  lemma {:induction false} DrainedSkip(s: Session, r: (Session, seq<Packet>), ops: seq<Op>, k: nat)
    requires ops != [] && QueueOk(ops) && QueueOk(ops[1..]) && !NeedsAck(ops[0].command)
    requires k <= s.store.maxInflight && Drained(s, r, ops[1..], k)
    ensures Drained(s, (r.0, [Redelivered(ops[0]).packet] + r.1), ops, k)
  {
    var rest, room := ops[1..], s.store.maxInflight - k;
    SplitsQueue(rest, room);
    SkipSplits(ops, room);
    SlotsSkip(s.store.outgoing, r.0.store.outgoing, ops, k);
    assert r.0.store.pending == s.store.pending + RedeliveredAll(KeptBack(ops, room));
  }

  lemma {:induction false} SlotsSkip(slots: seq<Option<Op>>, slots': seq<Option<Op>>, ops: seq<Op>, k: nat)
    requires ops != [] && QueueOk(ops) && QueueOk(ops[1..]) && !NeedsAck(ops[0].command)
    requires SlotsHold(slots, slots', ops[1..], k)
    ensures SlotsHold(slots, slots', ops, k)
  {
    assert [] + TrackedOps(ops[1..]) == TrackedOps(ops[1..]);
  }

  // A QoS 0 publish at the head only adds its packet.
  lemma {:induction false} SkipSplits(ops: seq<Op>, room: nat)
    requires ops != [] && QueueOk(ops) && QueueOk(ops[1..]) && !NeedsAck(ops[0].command)
    ensures TrackedOps(ops) == TrackedOps(ops[1..]) && KeptBack(ops, room) == KeptBack(ops[1..], room)
    ensures QueueOk(LetOut(ops, room)) && QueueOk(LetOut(ops[1..], room))
    ensures RedeliveredPackets(LetOut(ops, room))
         == [Redelivered(ops[0]).packet] + RedeliveredPackets(LetOut(ops[1..], room))
  {
    SplitsQueue(ops, room);
    SplitsQueue(ops[1..], room);
    RedeliveredCons(ops[0], LetOut(ops[1..], room));
  }

  lemma {:induction false} StepInserted(s: Session, ops: seq<Op>, k: nat)
    requires Inv(s) && ops != [] && QueueOk(ops) && QueueOk(ops[1..]) && FilledTo(s.store, k)
    requires NeedsAck(ops[0].command) && k < s.store.maxInflight && PkidOf(ops[0].command) == k + 1
    requires var s1 := ReplayOne(s, ops[0]).0;
             k < s1.store.maxInflight ==> Drained(s1, Replay(s1, ops[1..]), ops[1..], k + 1)
    ensures Drained(s, Replay(s, ops), ops, k)
  {
    var (s1, sent) := ReplayOne(s, ops[0]);
    InsertedNext(s, ops[0], k);
    DrainedStep(s, s1, Replay(s1, ops[1..]), ops, k);
  }

  lemma {:induction false} InsertedNext(s: Session, op: Op, k: nat)
    requires Inv(s) && QueuedOp(op) && FilledTo(s.store, k)
    requires NeedsAck(op.command) && k < s.store.maxInflight && PkidOf(op.command) == k + 1
    ensures ReplayOne(s, op) == (s.(store := s.store.(outgoing := s.store.outgoing[k + 1 := Some(Redelivered(op))],
                                                      inflight := k + 1)), [Redelivered(op).packet])
  {
    assert s.store.outgoing[k + 1].None?;
  }

  lemma {:induction false} DrainedStep(s: Session, s1: Session, r: (Session, seq<Packet>), ops: seq<Op>, k: nat)
    requires ops != [] && QueueOk(ops) && QueueOk(ops[1..]) && NeedsAck(ops[0].command)
    requires k < s.store.maxInflight == |s.store.outgoing| - 1 && s.store.outgoing[k + 1].None?
    requires s1.store == s.store.(outgoing := s.store.outgoing[k + 1 := Some(Redelivered(ops[0]))], inflight := k + 1)
    requires Drained(s1, r, ops[1..], k + 1)
    ensures Drained(s, (r.0, [Redelivered(ops[0]).packet] + r.1), ops, k)
  {
    var op, rest, room := ops[0], ops[1..], s.store.maxInflight - k;
    SplitsQueue(ops, room);
    SplitsQueue(rest, room - 1);
    RedeliveredCons(op, LetOut(rest, room - 1));
    assert s1.store.outgoing[k + 1 := None] == s.store.outgoing;
    SlotsShift(s1.store.outgoing, r.0.store.outgoing, ops, k);
  }

  lemma {:induction false} SlotsShift(slots1: seq<Option<Op>>, slots': seq<Option<Op>>, ops: seq<Op>, k: nat)
    requires ops != [] && QueueOk(ops) && QueueOk(ops[1..]) && NeedsAck(ops[0].command)
    requires k + 1 < |slots1| && slots1[k + 1] == Some(Redelivered(ops[0]))
    requires SlotsHold(slots1, slots', ops[1..], k + 1)
    ensures SlotsHold(slots1[k + 1 := None], slots', ops, k)
  {
    SplitsQueue(ops[1..], 0);
    ShiftFrom(slots1, slots', ops[0], TrackedOps(ops[1..]), k);
  }

  lemma {:induction false} ShiftFrom(slots1: seq<Option<Op>>, slots': seq<Option<Op>>, op: Op, tracked: seq<Op>, k: nat)
    requires QueuedOp(op) && QueueOk(tracked)
    requires k + 1 < |slots1| && slots1[k + 1] == Some(Redelivered(op)) && SlotsFrom(slots1, slots', tracked, k + 1)
    ensures SlotsFrom(slots1[k + 1 := None], slots', [op] + tracked, k)
  {
    var all := [op] + tracked;
    forall p | k < p < |slots1|
      ensures slots'[p] == if p - k - 1 < |all| then Some(Redelivered(all[p - k - 1])) else None
    {
      if k + 1 < p && p - k - 1 < |all| {
        assert all[p - k - 1] == tracked[p - k - 2];
      }
    }
  }

  lemma {:induction false} StepKeptBack(s: Session, ops: seq<Op>, k: nat)
    requires Inv(s) && ops != [] && QueueOk(ops) && QueueOk(ops[1..]) && FilledTo(s.store, k)
    requires NeedsAck(ops[0].command) && k == s.store.maxInflight
    requires var s1 := ReplayOne(s, ops[0]).0;
             k <= s1.store.maxInflight ==> Drained(s1, Replay(s1, ops[1..]), ops[1..], k)
    ensures Drained(s, Replay(s, ops), ops, k)
  {
    var op, rest := ops[0], ops[1..];
    var s1 := ReplayOne(s, op).0;
    SplitsQueue(rest, 0);
    assert s1.store == s.store.(pending := s.store.pending + [Redelivered(op)]);
    assert s1.store.pending + RedeliveredAll(KeptBack(rest, 0))
        == s.store.pending + RedeliveredAll([op] + KeptBack(rest, 0));
  }

  lemma {:induction false} ReplayCountUp(s: Session, ops: seq<Op>, k: nat)
    requires Inv(s) && QueueOk(ops) && FilledTo(s.store, k) && CountUp(ops, k, s.store.maxInflight)
    ensures Drained(s, Replay(s, ops), ops, k)
    ensures LostOnReplay(s, ops) == []
    decreases ops
  {
    if ops == [] {
      assert s.store.pending + [] == s.store.pending;
    } else {
      CountUpNext(s, ops, k);
      ReplayCountUp(ReplayOne(s, ops[0]).0, ops[1..], FilledNext(s, ops[0], k));
      if !NeedsAck(ops[0].command) {
        StepQos0(s, ops, k);
      } else if k < s.store.maxInflight {
        StepInserted(s, ops, k);
      } else {
        StepKeptBack(s, ops, k);
      }
    }
  }

  // How far the table is filled after one more turn.
  function FilledNext(s: Session, op: Op, k: nat): nat {
    if NeedsAck(op.command) && k < s.store.maxInflight then k + 1 else k
  }

  lemma {:induction false} CountUpNext(s: Session, ops: seq<Op>, k: nat)
    requires Inv(s) && ops != [] && QueueOk(ops) && FilledTo(s.store, k) && CountUp(ops, k, s.store.maxInflight)
    ensures var s1, k1 := ReplayOne(s, ops[0]).0, FilledNext(s, ops[0], k);
            && Inv(s1) && QueueOk(ops[1..]) && s1.store.maxInflight == s.store.maxInflight
            && FilledTo(s1.store, k1) && CountUp(ops[1..], k1, s.store.maxInflight)
            && (!NeedsAck(ops[0].command) ==> s1 == s)
            && LostOnReplayOne(s, ops[0]) == []
  {
    var op := ops[0];
    ReplayOneKeepsInv(s, op);
    if NeedsAck(op.command) && k < s.store.maxInflight {
      InsertedNext(s, op, k);
    }
  }

  // A connection made while the table is empty and the queue counts up from 1.
  lemma {:induction false} FirstConnection(d: DriverState, now: int)
    requires Inv(d.session) && EmptyTable(d.session.store)
    requires CountUp(d.session.store.pending, 0, d.session.store.maxInflight)
    ensures var ops, start := d.session.store.pending, ReplayStart(d.session, now);
            var r := Replay(start, ops);
            && Drained(start, r, ops, 0)
            && Step(d, ConnectionRestored(now)) == (d.(session := r.0), Ok(Sends(r.1)))
            && !Loses(d.session, ConnectionRestored(now))
  {
    var ops, start := d.session.store.pending, ReplayStart(d.session, now);
    OccupiedNone(d.session.store.outgoing);
    assert FilledTo(start.store, 0);
    ReplayCountUp(start, ops, 0);
    ReplayLosesIff(start, ops);
  }

  // From a fresh session: commands given offline leave their ops in the queue.
  lemma {:induction false} FreshOffline(max: uint16, keepAlive: nat, t0: int, clean: bool, cs: seq<Command>, now: int)
    requires max > 0 && Unnumbered(cs)
    ensures Inv(InitialSession(max, keepAlive, t0))
    ensures var s := Run(DriverState(InitialSession(max, keepAlive, t0), clean), Submits(cs, now)).0.session;
            && EmptyTable(s.store) && s.store.maxInflight == max
            && s.store.pending == Queued(Pool(0, max), cs)
            && CountUp(s.store.pending, 0, max)
  {
    var s := InitialSession(max, keepAlive, t0);
    InitialInv(max, keepAlive, t0);
    OfflineQueues(DriverState(s, clean), cs, now);
    QueuedCountUp(s.pool, cs);
    assert [] + Queued(s.pool, cs) == Queued(s.pool, cs);
  }

  // Commands given offline to a fresh session, then a connection. Every QoS 0 publish
  // and the first max tracked ops go out, in order, these with ids 1, 2, ...; the rest stay
  // queued, in order; nothing is parked and nothing is lost.
  lemma {:induction false} OfflineBacklogDrains(max: uint16, keepAlive: nat, t0: int, clean: bool,
                                                cs: seq<Command>, now: int)
    requires max > 0 && Unnumbered(cs)
    ensures Inv(InitialSession(max, keepAlive, t0))
    ensures var d := Run(DriverState(InitialSession(max, keepAlive, t0), clean), Submits(cs, now)).0;
            var ops, start := Queued(Pool(0, max), cs), ReplayStart(d.session, now);
            var r := Replay(start, ops);
            && d.session.store.pending == ops
            && QueueOk(ops) && |ops| == |cs|
            && (forall i :: 0 <= i < |cs| ==> Core(ops[i].command) == Core(cs[i]))
            && Drained(start, r, ops, 0)
            && Step(d, ConnectionRestored(now)) == (d.(session := r.0), Ok(Sends(r.1)))
            && !Loses(d.session, ConnectionRestored(now))
  {
    FreshOffline(max, keepAlive, t0, clean, cs, now);
    QueuedKeepsCommands(Pool(0, max), cs);
    FirstConnection(Run(DriverState(InitialSession(max, keepAlive, t0), clean), Submits(cs, now)).0, now);
  }

  // ---------- what is queued waits for a connection ----------

  lemma {:induction false} IncomingKeepsQueue(s: Session, packet: Packet, now: int)
    requires Inv(s)
    ensures OnIncoming(s, packet, now).0.store.pending == s.store.pending
  {
  }

  // No event but a restoration takes an op out of the queue, not even one that frees its
  // slot; later ops join at the end.
  lemma {:induction false} StepKeepsQueue(d: DriverState, e: Event)
    requires Inv(d.session) && !e.ConnectionRestored?
    ensures d.session.store.pending <= Step(d, e).0.session.store.pending
    ensures e.Incoming? ==> Step(d, e).0.session.store.pending == d.session.store.pending
  {
    match e {
      case Incoming(packet, now) => IncomingKeepsQueue(d.session, packet, now);
      case _ =>
    }
  }

  // So an op queued because the table was full, while online, waits for the next
  // restoration, however many slots the broker frees in between.
  lemma {:induction false} QueuedWaits(d: DriverState, es: seq<Event>)
    requires Inv(d.session) && forall i :: 0 <= i < |es| ==> !es[i].ConnectionRestored?
    ensures d.session.store.pending <= Run(d, es).0.session.store.pending
    decreases es
  {
    if es != [] {
      StepKeepsInv(d, es[0]);
      StepKeepsQueue(d, es[0]);
      QueuedWaits(Step(d, es[0]).0, es[1..]);
    }
  }
}
