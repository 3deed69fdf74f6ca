// Loss and replay: what a reconnect brings back (MQTT 3.1.1, section 4.4).
module Reconnect {
  import opened Bytes
  import opened Types
  import opened Wrappers
  import opened PacketIds
  import opened Inflight
  import opened SessionState
  import opened Driver
  import opened SessionInvariant
  import opened Conservation
  import opened ReplayLosses
  import opened RunConservation

  // The op as replay rebuilds it: same token, client, id and content; DUP on a QoS 1 or
  // QoS 2 publish.
  function Redelivered(op: Op): Op
    requires Trackable(op.command)
  {
    OpOf(WithDup(op.command))
  }

  ghost predicate DistinctIds(ops: seq<Op>) {
    forall i, j :: 0 <= i < j < |ops| && NeedsAck(ops[i].command) && NeedsAck(ops[j].command) ==>
      PkidOf(ops[i].command) != PkidOf(ops[j].command)
  }

  // Every op that needs a slot finds its own one empty.
  ghost predicate SlotsFree(st: Store, ops: seq<Op>) {
    forall i :: 0 <= i < |ops| && NeedsAck(ops[i].command) ==>
      1 <= PkidOf(ops[i].command) < |st.outgoing| && st.outgoing[PkidOf(ops[i].command)].None?
  }

  function RedeliveredPackets(ops: seq<Op>): seq<Packet>
    requires forall i :: 0 <= i < |ops| ==> Trackable(ops[i].command)
  {
    seq(|ops|, i requires 0 <= i < |ops| => Redelivered(ops[i]).packet)
  }

  lemma {:induction false} RedeliveredCons(op: Op, rest: seq<Op>)
    requires QueuedOp(op) && QueueOk(rest)
    ensures QueueOk([op] + rest)
    ensures RedeliveredPackets([op] + rest) == [Redelivered(op).packet] + RedeliveredPackets(rest)
  {
  }

  function RedeliveredAll(ops: seq<Op>): seq<Op>
    requires forall i :: 0 <= i < |ops| ==> Trackable(ops[i].command)
  {
    seq(|ops|, i requires 0 <= i < |ops| => Redelivered(ops[i]))
  }

  ghost predicate Refilled(st: Store, st': Store, ops: seq<Op>)
    requires QueueOk(ops)
  {
    && |st'.outgoing| == |st.outgoing|
    && (forall i :: 0 <= i < |ops| && NeedsAck(ops[i].command) && PkidOf(ops[i].command) < |st.outgoing| ==>
          st'.outgoing[PkidOf(ops[i].command)] == Some(Redelivered(ops[i])))
    && (forall p :: 0 <= p < |st.outgoing| ==>
          st'.outgoing[p] == st.outgoing[p]
          || exists i :: 0 <= i < |ops| && NeedsAck(ops[i].command) && PkidOf(ops[i].command) == p)
  }

  // One op onto its own free slot.
  lemma {:induction false} ReplayOneFree(s: Session, op: Op)
    requires Inv(s) && QueuedOp(op) && s.store.collision.None? && SlotsFree(s.store, [op])
    ensures var s1 := ReplayOne(s, op).0;
            && Inv(s1)
            && s1 == s.(store := s1.store)
            && s1.store.(outgoing := s.store.outgoing, inflight := s.store.inflight) == s.store
            && s1.store.outgoing == (if NeedsAck(op.command) && PkidOf(op.command) < |s.store.outgoing|
                                     then s.store.outgoing[PkidOf(op.command) as int := Some(Redelivered(op))]
                                     else s.store.outgoing)
    ensures ReplayOne(s, op).1 == [Redelivered(op).packet]
    ensures LostOnReplayOne(s, op) == []
  {
    ReplayOneKeepsInv(s, op);
    if NeedsAck(op.command) {
      assert [op][0] == op;
      FreeIdHasRoom(s.store, PkidOf(op.command));
    }
  }

  // Replaying ops with distinct ids onto free slots: every one is inserted at its own id
  // and every one is sent, in order; nothing is parked, queued or lost.
  lemma {:induction false} ReplayDistinct(s: Session, ops: seq<Op>)
    requires Inv(s) && QueueOk(ops) && s.store.collision.None?
    requires DistinctIds(ops) && SlotsFree(s.store, ops)
    ensures var s' := Replay(s, ops).0;
            s'.store.(outgoing := s.store.outgoing, inflight := s.store.inflight) == s.store
            && s'.pool == s.pool
            && Refilled(s.store, s'.store, ops)
    ensures Replay(s, ops).1 == RedeliveredPackets(ops)
    ensures LostOnReplay(s, ops) == []
  {
    ReplayDistinctSlots(s, ops);
    ReplayDistinctSends(s, ops);
  }

  lemma {:induction false} ReplayDistinctSlots(s: Session, ops: seq<Op>)
    requires Inv(s) && QueueOk(ops) && s.store.collision.None?
    requires DistinctIds(ops) && SlotsFree(s.store, ops)
    ensures var s' := Replay(s, ops).0;
            s'.store.(outgoing := s.store.outgoing, inflight := s.store.inflight) == s.store
            && s'.pool == s.pool
            && Refilled(s.store, s'.store, ops)
    decreases ops
  {
    if ops != [] {
      var s1 := ReplayOne(s, ops[0]).0;
      ReplayFirst(s, ops);
      ReplayDistinctSlots(s1, ops[1..]);
      RefilledStep(s.store, s1.store, Replay(s1, ops[1..]).0.store, ops);
    }
  }

  lemma {:induction false} ReplayDistinctSends(s: Session, ops: seq<Op>)
    requires Inv(s) && QueueOk(ops) && s.store.collision.None?
    requires DistinctIds(ops) && SlotsFree(s.store, ops)
    ensures Replay(s, ops).1 == RedeliveredPackets(ops)
    ensures LostOnReplay(s, ops) == []
    decreases ops
  {
    if ops != [] {
      ReplayFirst(s, ops);
      ReplayDistinctSends(ReplayOne(s, ops[0]).0, ops[1..]);
      RedeliveredCons(ops[0], ops[1..]);
      assert [ops[0]] + ops[1..] == ops;
    }
  }

  // The first turn, and what it leaves for the others.
  lemma {:induction false} ReplayFirst(s: Session, ops: seq<Op>)
    requires Inv(s) && ops != [] && QueueOk(ops) && s.store.collision.None?
    requires DistinctIds(ops) && SlotsFree(s.store, ops)
    ensures var (s1, sent) := ReplayOne(s, ops[0]);
            && Inv(s1) && QueueOk(ops[1..]) && DistinctIds(ops[1..]) && SlotsFree(s1.store, ops[1..])
            && s1.store.(outgoing := s.store.outgoing, inflight := s.store.inflight) == s.store
            && s1.pool == s.pool
            && s1.store.outgoing == (if NeedsAck(ops[0].command) && PkidOf(ops[0].command) < |s.store.outgoing|
                                     then s.store.outgoing[PkidOf(ops[0].command) as int := Some(Redelivered(ops[0]))]
                                     else s.store.outgoing)
            && sent == [Redelivered(ops[0]).packet]
            && LostOnReplayOne(s, ops[0]) == []
  {
    assert [ops[0]][0] == ops[0];
    ReplayOneFree(s, ops[0]);
    RestFree(s.store, ReplayOne(s, ops[0]).0.store, ops);
  }

  lemma {:induction false} RestFree(st: Store, st1: Store, ops: seq<Op>)
    requires ops != [] && QueueOk(ops) && DistinctIds(ops) && SlotsFree(st, ops)
    requires st1.outgoing == if NeedsAck(ops[0].command)
                             then st.outgoing[PkidOf(ops[0].command) as int := Some(Redelivered(ops[0]))]
                             else st.outgoing
    ensures QueueOk(ops[1..]) && DistinctIds(ops[1..]) && SlotsFree(st1, ops[1..])
  {
    assert forall i :: 0 <= i < |ops[1..]| ==> ops[1..][i] == ops[i + 1];
  }

  lemma {:induction false} RefilledStep(st: Store, st1: Store, st': Store, ops: seq<Op>)
    requires ops != [] && QueueOk(ops) && QueueOk(ops[1..]) && DistinctIds(ops)
    requires Refilled(st1, st', ops[1..])
    requires var op := ops[0];
             st1.outgoing == if NeedsAck(op.command) && PkidOf(op.command) < |st.outgoing|
                             then st.outgoing[PkidOf(op.command) as int := Some(Redelivered(op))]
                             else st.outgoing
    ensures Refilled(st, st', ops)
  {
    forall i | 0 <= i < |ops| && NeedsAck(ops[i].command) && PkidOf(ops[i].command) < |st.outgoing|
      ensures st'.outgoing[PkidOf(ops[i].command)] == Some(Redelivered(ops[i]))
    {
      if i > 0 {
        assert ops[1..][i - 1] == ops[i];
      } else {
        var p := PkidOf(ops[0].command);
        assert st1.outgoing[p] == Some(Redelivered(ops[0]));
        forall j | 0 <= j < |ops[1..]| && NeedsAck(ops[1..][j].command)
          ensures PkidOf(ops[1..][j].command) != p
        {
          assert ops[1..][j] == ops[j + 1];
        }
      }
    }
    forall p | 0 <= p < |st.outgoing|
      ensures st'.outgoing[p] == st.outgoing[p]
        || exists i :: 0 <= i < |ops| && NeedsAck(ops[i].command) && PkidOf(ops[i].command) == p
    {
      if st'.outgoing[p] != st1.outgoing[p] {
        var j :| 0 <= j < |ops[1..]| && NeedsAck(ops[1..][j].command) && PkidOf(ops[1..][j].command) == p;
        assert ops[j + 1] == ops[1..][j];
      } else if st1.outgoing[p] != st.outgoing[p] {
        assert NeedsAck(ops[0].command) && PkidOf(ops[0].command) == p;
      }
    }
  }

  // ---------- the backlog of a loss ----------

  lemma {:induction false} DrainedCount(slots: seq<Option<Op>>)
    ensures |DrainSlots(slots)| == Occupied(slots)
  {
    if slots != [] {
      DrainedCount(slots[1..]);
    }
  }

  // Each op sits in the slot of its id, in a table whose first slot has id `base`.
  ghost predicate InSlots(ops: seq<Op>, slots: seq<Option<Op>>, base: nat) {
    forall k :: 0 <= k < |ops| ==>
      base <= PkidOf(ops[k].command) < base + |slots| && slots[PkidOf(ops[k].command) - base] == Some(ops[k])
  }

  ghost predicate AscendingIds(ops: seq<Op>) {
    forall j, k :: 0 <= j < k < |ops| ==> PkidOf(ops[j].command) < PkidOf(ops[k].command)
  }

  lemma {:induction false} DrainedIds(slots: seq<Option<Op>>, base: nat)
    requires forall i :: 0 <= i < |slots| && slots[i].Some? ==> TrackedOp(slots[i].value, base + i)
    ensures InSlots(DrainSlots(slots), slots, base) && AscendingIds(DrainSlots(slots))
  {
    if slots != [] {
      var rest := DrainSlots(slots[1..]);
      DrainedIds(slots[1..], base + 1);
      assert InSlots(rest, slots, base) by {
        forall k | 0 <= k < |rest|
          ensures base <= PkidOf(rest[k].command) < base + |slots|
               && slots[PkidOf(rest[k].command) - base] == Some(rest[k])
        {
          assert slots[1..][PkidOf(rest[k].command) - (base + 1)] == Some(rest[k]);
        }
      }
      if slots[0].Some? {
        assert DrainSlots(slots) == [slots[0].value] + rest;
        assert TrackedOp(slots[0].value, base + 0);
      } else {
        assert DrainSlots(slots) == rest;
      }
    }
  }

  lemma {:induction false} DrainedAll(slots: seq<Option<Op>>, i: nat)
    requires i < |slots| && slots[i].Some?
    ensures slots[i].value in DrainSlots(slots)
  {
    if i > 0 {
      DrainedAll(slots[1..], i - 1);
    }
  }

  // Draining lists the ops of the slots, each once, by ascending id.
  lemma {:induction false} DrainedAscending(slots: seq<Option<Op>>)
    requires forall i :: 0 <= i < |slots| && slots[i].Some? ==> TrackedOp(slots[i].value, i)
    ensures var ops := DrainSlots(slots);
            && |ops| == Occupied(slots)
            && InSlots(ops, slots, 0) && AscendingIds(ops)
            && (forall i :: 0 <= i < |slots| && slots[i].Some? ==> slots[i].value in ops)
  {
    DrainedCount(slots);
    DrainedIds(slots, 0);
    forall i | 0 <= i < |slots| && slots[i].Some?
      ensures slots[i].value in DrainSlots(slots)
    {
      DrainedAll(slots, i);
    }
  }

  lemma {:induction false} OccupiedSame(a: seq<Option<Op>>, b: seq<Option<Op>>)
    requires |a| == |b| && forall i :: 0 <= i < |a| ==> a[i].Some? == b[i].Some?
    ensures Occupied(a) == Occupied(b)
  {
    if a != [] {
      OccupiedSame(a[1..], b[1..]);
    }
  }

  function Reconnected(s: Session, clean: bool, now: int): (Session, seq<Packet>) {
    AfterResend(Awake(AfterLoss(s, clean), now))
  }

  // What a loss leaves: an empty table, everything held in the queue, in this order, and the
  // flags and ids of the session unless it starts clean.
  lemma {:induction false} LossLeaves(s: Session, clean: bool)
    requires Inv(s)
    ensures var st, st' := s.store, AfterLoss(s, clean).store;
            && EmptyTable(st') && |st'.outgoing| == |st.outgoing| && st'.inflight == 0
            && st'.maxInflight == st.maxInflight
            && st'.pending == st.pending + DrainSlots(st.outgoing)
                              + (if st.collision.Some? then [st.collision.value.op] else [])
            && |st'.outgoingRel| == |st.outgoingRel| && |st'.incomingPub| == |st.incomingPub|
            && (forall p :: 0 <= p < |st.outgoingRel| ==> st'.outgoingRel[p] == (!clean && st.outgoingRel[p]))
            && (forall p :: 0 <= p < |st.incomingPub| ==> st'.incomingPub[p] == (!clean && st.incomingPub[p]))
            && AfterLoss(s, clean).pool == s.pool.(last := if clean then 0 else s.pool.last)
  {
  }

  // The slots of a session after loss and replay are those before, redelivered.
  ghost predicate SameSlots(st: Store, st': Store)
    requires SlotsOk(st.outgoing)
  {
    && |st'.outgoing| == |st.outgoing|
    && st'.inflight == st.inflight
    && forall i :: 0 <= i < |st.outgoing| ==>
         st'.outgoing[i] == if st.outgoing[i].None? then None else Some(Redelivered(st.outgoing[i].value))
  }

  lemma {:induction false} RefilledIsSame(slots: seq<Option<Op>>, st: Store, st': Store)
    requires SlotsOk(slots) && EmptyTable(st) && |st.outgoing| == |slots|
    requires QueueOk(DrainSlots(slots)) && Refilled(st, st', DrainSlots(slots))
    ensures |st'.outgoing| == |slots|
    ensures forall i :: 0 <= i < |slots| ==>
              st'.outgoing[i] == if slots[i].None? then None else Some(Redelivered(slots[i].value))
  {
    var ops := DrainSlots(slots);
    DrainedAscending(slots);
    forall i | 0 <= i < |slots|
      ensures st'.outgoing[i] == if slots[i].None? then None else Some(Redelivered(slots[i].value))
    {
      if slots[i].Some? {
        var k :| 0 <= k < |ops| && ops[k] == slots[i].value;
        assert PkidOf(ops[k].command) == i;
      }
    }
  }

  lemma {:induction false} ReplayOntoEmpty(start: Session, slots: seq<Option<Op>>)
    requires Inv(start) && EmptyTable(start.store)
    requires SlotsOk(slots) && |slots| == |start.store.outgoing|
    ensures var ops := DrainSlots(slots);
            var s' := Replay(start, ops).0;
            && QueueOk(ops) && Inv(s') && Replay(start, ops).1 == RedeliveredPackets(ops)
            && s'.store.(outgoing := start.store.outgoing, inflight := start.store.inflight) == start.store
            && s'.pool == start.pool
            && s'.store.inflight == Occupied(slots)
            && |s'.store.outgoing| == |slots|
            && (forall i :: 0 <= i < |slots| ==>
                  s'.store.outgoing[i] == if slots[i].None? then None else Some(Redelivered(slots[i].value)))
            && LostOnReplay(start, ops) == []
  {
    var ops := DrainSlots(slots);
    DrainedOpsQueue(slots, 0);
    DrainedAscending(slots);
    ReplayKeepsInv(start, ops);
    ReplayDistinct(start, ops);
    var st' := Replay(start, ops).0.store;
    RefilledIsSame(slots, start.store, st');
    OccupiedSame(slots, st'.outgoing);
  }

  // The drained slots replay onto the emptied table.
  lemma {:induction false} ReplayDrained(s: Session, clean: bool, now: int)
    requires Inv(s)
    ensures var ops := DrainSlots(s.store.outgoing);
            var start := ReplayStart(AfterLoss(s, clean), now);
            var s' := Replay(start, ops).0;
            && Inv(start) && QueueOk(ops) && Inv(s')
            && Replay(start, ops).1 == RedeliveredPackets(ops)
            && SameSlots(s.store, s'.store)
            && s'.store.collision == None && s'.store.pending == []
            && s'.store.outgoingRel == start.store.outgoingRel && s'.store.incomingPub == start.store.incomingPub
            && s'.store.maxInflight == s.store.maxInflight && s'.pool == start.pool
            && LostOnReplay(start, ops) == []
  {
    LossKeepsInv(s, clean);
    ReplayOntoEmpty(ReplayStart(AfterLoss(s, clean), now), s.store.outgoing);
  }

  // A reconnect replays the backlog of the loss; it loses what the replay loses.
  lemma {:induction false} ReconnectReplays(s: Session, clean: bool, now: int)
    requires Inv(s)
    ensures var start := ReplayStart(AfterLoss(s, clean), now);
            && Reconnected(s, clean, now) == Replay(start, Backlog(s.store))
            && (LostOnReplay(start, Backlog(s.store)) == [] ==> !Loses(AfterLoss(s, clean), ConnectionRestored(now)))
  {
    var lost := AfterLoss(s, clean);
    LossKeepsInv(s, clean);
    assert lost.store.pending == Backlog(s.store);
    ReplayLosesIff(ReplayStart(lost, now), lost.store.pending);
  }

  // From a session with nothing parked or queued, losing the connection and restoring it
  // refills every slot with the same op, DUP set on exactly the QoS 1 and QoS 2 publishes,
  // restores the count, and sends the ops' packets in ascending packet-id order.
  lemma {:induction false} SessionRoundTrip(s: Session, clean: bool, now: int)
    requires Inv(s) && s.store.pending == [] && s.store.collision.None?
    ensures var (s', sent) := Reconnected(s, clean, now);
            var ops := DrainSlots(s.store.outgoing);
            && SameSlots(s.store, s'.store)
            && s'.store.pending == [] && s'.store.collision == None && s'.active
            && s'.pool == (if clean then s.pool.(last := 0) else s.pool)
            && s'.store.outgoingRel == (if clean then Cleared(s.store.outgoingRel, false) else s.store.outgoingRel)
            && s'.store.incomingPub == (if clean then Cleared(s.store.incomingPub, false) else s.store.incomingPub)
            && QueueOk(ops) && |ops| == s.store.inflight
            && sent == RedeliveredPackets(ops)
            && InSlots(ops, s.store.outgoing, 0) && AscendingIds(ops)
            && !Loses(AfterLoss(s, clean), ConnectionRestored(now))
  {
    var ops := DrainSlots(s.store.outgoing);
    assert Backlog(s.store) == ops;
    ReconnectReplays(s, clean, now);
    ReplayDrained(s, clean, now);
    DrainedAscending(s.store.outgoing);
    ReplayKeepsTimers(ReplayStart(AfterLoss(s, clean), now), ops);
  }

  lemma {:induction false} ReplayAppend(s: Session, a: seq<Op>, op: Op)
    ensures var mid, last := Replay(s, a), ReplayOne(Replay(s, a).0, op);
            Replay(s, a + [op]) == (last.0, mid.1 + last.1)
    decreases a
  {
    if a == [] {
      var sent := ReplayOne(s, op).1;
      assert a + [op] == [op] && [op][0] == op && [op][1..] == [];
      assert sent + [] == sent == [] + sent;
    } else {
      var (s1, sent) := ReplayOne(s, a[0]);
      assert (a + [op])[0] == a[0] && (a + [op])[1..] == a[1..] + [op];
      ReplayAppend(s1, a[1..], op);
      var mid, last := Replay(s1, a[1..]), ReplayOne(Replay(s1, a[1..]).0, op);
      assert sent + (mid.1 + last.1) == (sent + mid.1) + last.1;
    }
  }

  lemma {:induction false} LostAppend(s: Session, a: seq<Op>, op: Op)
    requires LostOnReplay(s, a) == [] && LostOnReplayOne(Replay(s, a).0, op) == []
    ensures LostOnReplay(s, a + [op]) == []
    decreases a
  {
    if a == [] {
      assert a + [op] == [op] && [op][1..] == [];
    } else {
      assert (a + [op])[0] == a[0] && (a + [op])[1..] == a[1..] + [op];
      LostAppend(ReplayOne(s, a[0]).0, a[1..], op);
    }
  }

  // An op whose slot is taken is parked, or queued when the table is full.
  lemma {:induction false} ReplayOneTaken(s: Session, op: Op)
    requires Inv(s) && QueuedOp(op) && NeedsAck(op.command)
    requires s.store.collision.None? && SlotAt(s.store, PkidOf(op.command)).Some?
    ensures ReplayOne(s, op) == (s.(store := s.store.(
              collision := if s.store.inflight < s.store.maxInflight
                           then Some(Parked(PkidOf(op.command), Redelivered(op))) else None,
              pending := if s.store.inflight < s.store.maxInflight
                         then s.store.pending else s.store.pending + [Redelivered(op)])), [])
    ensures LostOnReplayOne(s, op) == []
  {
  }

  // With one op parked behind its slot and nothing queued nothing is lost either: the
  // slots come back as before, and the parked op is parked again, or queued when the
  // table is full.
  lemma {:induction false} SessionRoundTripWithPark(s: Session, clean: bool, now: int)
    requires Inv(s) && s.store.pending == [] && s.store.collision.Some?
    requires SlotAt(s.store, s.store.collision.value.pkid).Some?
    ensures var (s', sent) := Reconnected(s, clean, now);
            var ops := DrainSlots(s.store.outgoing);
            var parked := Redelivered(s.store.collision.value.op);
            && SameSlots(s.store, s'.store)
            && QueueOk(ops) && sent == RedeliveredPackets(ops)
            && (if s.store.inflight < s.store.maxInflight
                then s'.store.pending == [] && s'.store.collision == Some(Parked(s.store.collision.value.pkid, parked))
                else s'.store.pending == [parked] && s'.store.collision == None)
            && !Loses(AfterLoss(s, clean), ConnectionRestored(now))
  {
    var ops := DrainSlots(s.store.outgoing);
    var start := ReplayStart(AfterLoss(s, clean), now);
    var op := s.store.collision.value.op;
    assert Backlog(s.store) == ops + [op];
    ReconnectReplays(s, clean, now);
    ReplayDrained(s, clean, now);
    ReplayAppend(start, ops, op);
    ReplayOneTaken(Replay(start, ops).0, op);
    LostAppend(start, ops, op);
  }

  // An op parked on an id whose slot is empty gets that slot, and goes out last.
  lemma {:induction false} StrandedOpComesBack(s: Session, clean: bool, now: int)
    requires Inv(s) && s.store.pending == [] && s.store.collision.Some?
    requires SlotAt(s.store, s.store.collision.value.pkid).None?
    ensures var (s', sent) := Reconnected(s, clean, now);
            var ops := DrainSlots(s.store.outgoing);
            var Parked(pkid, op) := s.store.collision.value;
            && pkid < |s'.store.outgoing| && s'.store.outgoing[pkid] == Some(Redelivered(op))
            && SameSlots(s.store, s'.store.(outgoing := s'.store.outgoing[pkid as int := None],
                                            inflight := s'.store.inflight - 1))
            && QueueOk(ops) && sent == RedeliveredPackets(ops) + [Redelivered(op).packet]
            && s'.store.pending == [] && s'.store.collision == None
            && !Loses(AfterLoss(s, clean), ConnectionRestored(now))
  {
    var ops := DrainSlots(s.store.outgoing);
    var start := ReplayStart(AfterLoss(s, clean), now);
    var Parked(pkid, op) := s.store.collision.value;
    assert Backlog(s.store) == ops + [op];
    ReconnectReplays(s, clean, now);
    ReplayDrained(s, clean, now);
    ReplayAppend(start, ops, op);
    ReplayOneInserted(Replay(start, ops).0, op);
    LostAppend(start, ops, op);
  }

  lemma {:induction false} ReplayOneInserted(s: Session, op: Op)
    requires Inv(s) && QueuedOp(op) && NeedsAck(op.command) && s.store.collision.None?
    requires PkidOf(op.command) <= s.store.maxInflight && SlotAt(s.store, PkidOf(op.command)).None?
    ensures var (s', sent) := ReplayOne(s, op);
            var pkid := PkidOf(op.command);
            && pkid < |s'.store.outgoing| && s'.store.outgoing[pkid] == Some(Redelivered(op))
            && s'.store.(outgoing := s'.store.outgoing[pkid as int := None], inflight := s'.store.inflight - 1)
               == s.store
            && sent == [Redelivered(op).packet]
    ensures LostOnReplayOne(s, op) == []
  {
    assert [op][0] == op;
    ReplayOneFree(s, op);
    var pkid, st' := PkidOf(op.command), ReplayOne(s, op).0.store;
    assert st'.outgoing[pkid as int := None] == s.store.outgoing;
    OccupiedUpdate(s.store.outgoing, pkid, Some(Redelivered(op)));
  }

  // ---------- any replay keeps order ----------

  // a is b with some elements left out.
  ghost predicate Subsequence<T>(a: seq<T>, b: seq<T>) {
    a == [] || (b != [] && ((a[0] == b[0] && Subsequence(a[1..], b[1..])) || Subsequence(a, b[1..])))
  }

  lemma {:induction false} SubsequenceKeep<T>(x: T, a: seq<T>, b: seq<T>)
    requires Subsequence(a, b)
    ensures Subsequence([x] + a, [x] + b) && Subsequence(a, [x] + b)
  {
    assert ([x] + a)[1..] == a && ([x] + b)[1..] == b;
  }

  lemma {:induction false} ReplayOneSendsOrQueues(s: Session, op: Op)
    requires Inv(s) && QueuedOp(op)
    ensures Inv(ReplayOne(s, op).0)
    ensures ReplayOne(s, op).1 == [] || ReplayOne(s, op).1 == [Redelivered(op).packet]
    ensures var queued := ReplayOne(s, op).0.store.pending;
            queued == s.store.pending || queued == s.store.pending + [Redelivered(op)]
  {
    ReplayOneKeepsInv(s, op);
  }

  // Whatever is in the way, a replay sends packets of the backlog in backlog order.
  lemma {:induction false} ReplaySendsInOrder(s: Session, ops: seq<Op>)
    requires Inv(s) && QueueOk(ops)
    ensures Subsequence(Replay(s, ops).1, RedeliveredPackets(ops))
    decreases ops
  {
    if ops != [] {
      var (s1, sent) := ReplayOne(s, ops[0]);
      var packet := Redelivered(ops[0]).packet;
      ReplayOneSendsOrQueues(s, ops[0]);
      ReplaySendsInOrder(s1, ops[1..]);
      var rest := Replay(s1, ops[1..]).1;
      assert RedeliveredPackets(ops) == [packet] + RedeliveredPackets(ops[1..]);
      SubsequenceKeep(packet, rest, RedeliveredPackets(ops[1..]));
      assert [] + rest == rest;
    }
  }

  // queued is `before` followed by some of `ops`, in order.
  ghost predicate QueuedAfter(before: seq<Op>, queued: seq<Op>, ops: seq<Op>) {
    |before| <= |queued| && queued[..|before|] == before && Subsequence(queued[|before|..], ops)
  }

  lemma {:induction false} QueuedAfterStep(before: seq<Op>, op: Op, queued: seq<Op>, ops: seq<Op>)
    ensures QueuedAfter(before, queued, ops) ==> QueuedAfter(before, queued, [op] + ops)
    ensures QueuedAfter(before + [op], queued, ops) ==> QueuedAfter(before, queued, [op] + ops)
  {
    var n := |before|;
    if QueuedAfter(before, queued, ops) {
      SubsequenceKeep(op, queued[n..], ops);
    }
    if QueuedAfter(before + [op], queued, ops) {
      SubsequenceKeep(op, queued[n + 1..], ops);
      assert queued[n] == queued[..n + 1][n];
      assert queued[n..] == [op] + queued[n + 1..];
      assert queued[..n] == queued[..n + 1][..n];
    }
  }

  // What a replay queues again keeps the order of the backlog.
  lemma {:induction false} ReplayQueuesInOrder(s: Session, ops: seq<Op>)
    requires Inv(s) && QueueOk(ops)
    ensures QueuedAfter(s.store.pending, Replay(s, ops).0.store.pending, RedeliveredAll(ops))
    decreases ops
  {
    if ops != [] {
      var s1 := ReplayOne(s, ops[0]).0;
      ReplayOneSendsOrQueues(s, ops[0]);
      ReplayQueuesInOrder(s1, ops[1..]);
      var queued := Replay(s1, ops[1..]).0.store.pending;
      QueuedAfterStep(s.store.pending, Redelivered(ops[0]), queued, RedeliveredAll(ops[1..]));
      assert RedeliveredAll(ops) == [Redelivered(ops[0])] + RedeliveredAll(ops[1..]);
    }
  }
}
