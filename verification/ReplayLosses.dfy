// Which replays lose ops, and how many: read off the packet ids of the backlog.
module ReplayLosses {
  import opened Bytes
  import opened Types
  import opened Wrappers
  import opened PacketIds
  import opened Inflight
  import opened SessionState
  import opened Driver
  import opened SessionInvariant
  import opened Conservation

  // The ids of the ops of a backlog that need a slot, in order.
  function TrackedIds(ops: seq<Op>): seq<uint16> {
    if ops == [] then []
    else (if NeedsAck(ops[0].command) then [PkidOf(ops[0].command)] else []) + TrackedIds(ops[1..])
  }

  // Id p is taken when turn i comes: its slot was occupied to begin with, or an earlier op
  // of the backlog carries it.
  ghost predicate Taken(st: Store, ids: seq<uint16>, i: nat, p: uint16)
    requires i <= |ids|
  {
    SlotAt(st, p).Some? || p in ids[..i]
  }

  // Op i cannot get a slot: its id lies outside the table or is taken.
  ghost predicate NoPlace(st: Store, ids: seq<uint16>, i: nat)
    requires i < |ids|
  {
    ids[i] > st.maxInflight || Taken(st, ids, i, ids[i])
  }

  // Op i goes to the park: its id is in the table and taken while some other id is free.
  ghost predicate Parks(st: Store, ids: seq<uint16>, i: nat)
    requires i < |ids|
  {
    ids[i] <= st.maxInflight && Taken(st, ids, i, ids[i])
    && exists p: uint16 :: 1 <= p <= st.maxInflight && !Taken(st, ids, i, p)
  }

  // Turn j loses an op: its own finds no place, and the park is in use since the start or
  // since an earlier turn.
  ghost predicate LosingTurn(st: Store, ids: seq<uint16>, j: nat)
    requires j < |ids|
  {
    NoPlace(st, ids, j) && (st.collision.Some? || exists i :: 0 <= i < j && Parks(st, ids, i))
  }

  ghost predicate BacklogLoses(st: Store, ops: seq<Op>) {
    var ids := TrackedIds(ops);
    exists j :: 0 <= j < |ids| && LosingTurn(st, ids, j)
  }

  // The losing turns from turn j on.
  ghost function LosingTurns(st: Store, ids: seq<uint16>, j: nat): nat
    requires j <= |ids|
    decreases |ids| - j
  {
    if j == |ids| then 0 else (if LosingTurn(st, ids, j) then 1 else 0) + LosingTurns(st, ids, j + 1)
  }

  // ---------- one turn ----------

  lemma {:induction false} RoomIffFree(st: Store, p: uint16)
    requires StoreInv(st) && p != 0
    ensures HasRoomAt(st, p) <==> p <= st.maxInflight && SlotAt(st, p).None?
    ensures st.inflight < st.maxInflight <==> exists q: uint16 :: 1 <= q <= st.maxInflight && SlotAt(st, q).None?
  {
    if p <= st.maxInflight && SlotAt(st, p).None? {
      FreeIdHasRoom(st, p);
    }
    if st.inflight < st.maxInflight {
      var free := RoomMeansFreeId(st);
    }
    if q: uint16 :| 1 <= q <= st.maxInflight && SlotAt(st, q).None? {
      FreeIdHasRoom(st, q);
    }
  }

  // What one turn does to the ids taken and to the park.
  lemma {:induction false} TurnTakes(s: Session, op: Op)
    requires Inv(s) && QueuedOp(op) && NeedsAck(op.command)
    ensures var st, st' := s.store, ReplayOne(s, op).0.store;
            var ids := [PkidOf(op.command)];
            && st'.maxInflight == st.maxInflight
            && (forall p: uint16 :: 1 <= p <= st.maxInflight ==> (SlotAt(st', p).Some? <==> Taken(st, ids, 1, p)))
            && (st'.collision.Some? <==> st.collision.Some? || Parks(st, ids, 0))
            && |LostOnReplayOne(s, op)| == (if LosingTurn(st, ids, 0) then 1 else 0)
  {
    var p := PkidOf(op.command);
    var ids := [p];
    RoomIffFree(s.store, p);
    assert ids[..0] == [] && ids[..1] == [p];
    var st' := ReplayOne(s, op).0.store;
    assert st' == Admit(s.store, OpOf(WithDup(op.command))).0;
    assert forall q: uint16 :: !Taken(s.store, ids, 0, q) <==> SlotAt(s.store, q).None?;
    if !HasRoomAt(s.store, p) {
      assert st'.outgoing == s.store.outgoing;
    }
  }

  // ---------- the turns that follow, seen from one turn later ----------

  ghost predicate AfterFirst(st: Store, st1: Store, id: uint16) {
    && st1.maxInflight == st.maxInflight
    && (forall p: uint16 :: 1 <= p <= st.maxInflight ==> (SlotAt(st1, p).Some? <==> Taken(st, [id], 1, p)))
    && (st1.collision.Some? <==> st.collision.Some? || Parks(st, [id], 0))
  }

  lemma {:induction false} TakenLater(st: Store, st1: Store, ids: seq<uint16>, i: nat, p: uint16)
    requires i < |ids| && AfterFirst(st, st1, ids[0]) && 1 <= p <= st.maxInflight
    ensures Taken(st1, ids[1..], i, p) <==> Taken(st, ids, i + 1, p)
  {
    assert [ids[0]][..1] == [ids[0]];
    assert ids[..i + 1] == [ids[0]] + ids[1..][..i];
  }

  lemma {:induction false} ParksLater(st: Store, st1: Store, ids: seq<uint16>, i: nat)
    requires i + 1 < |ids| && AfterFirst(st, st1, ids[0]) && 0 !in ids && st.maxInflight > 0
    ensures NoPlace(st1, ids[1..], i) <==> NoPlace(st, ids, i + 1)
    ensures Parks(st1, ids[1..], i) <==> Parks(st, ids, i + 1)
  {
    assert ids[1..][i] == ids[i + 1] && ids[i + 1] in ids;
    TakenLater(st, st1, ids, i, if ids[i + 1] <= st.maxInflight then ids[i + 1] else 1);
    if p: uint16 :| 1 <= p <= st.maxInflight && !Taken(st1, ids[1..], i, p) {
      TakenLater(st, st1, ids, i, p);
    }
    var next := i + 1;
    if p: uint16 :| 1 <= p <= st.maxInflight && !Taken(st, ids, next, p) {
      TakenLater(st, st1, ids, i, p);
    }
  }

  lemma {:induction false} FirstParks(st: Store, ids: seq<uint16>)
    requires ids != []
    ensures Parks(st, ids, 0) <==> Parks(st, [ids[0]], 0)
    ensures LosingTurn(st, ids, 0) <==> LosingTurn(st, [ids[0]], 0)
  {
    assert ids[..0] == [ids[0]][..0] == [];
    assert forall p: uint16 :: Taken(st, ids, 0, p) <==> Taken(st, [ids[0]], 0, p);
  }

  lemma {:induction false} LosingLater(st: Store, st1: Store, ids: seq<uint16>, j: nat)
    requires j + 1 < |ids| && AfterFirst(st, st1, ids[0]) && 0 !in ids && st.maxInflight > 0
    ensures LosingTurn(st1, ids[1..], j) <==> LosingTurn(st, ids, j + 1)
  {
    ParksLater(st, st1, ids, j);
    FirstParks(st, ids);
    forall i | 0 <= i < j
      ensures Parks(st1, ids[1..], i) <==> Parks(st, ids, i + 1)
    {
      ParksLater(st, st1, ids, i);
    }
    if i :| 0 <= i < j && Parks(st1, ids[1..], i) {
      assert Parks(st, ids, i + 1);
    }
    if i :| 0 <= i < j + 1 && Parks(st, ids, i) {
      if i > 0 {
        assert Parks(st1, ids[1..], i - 1);
      }
    }
  }

  lemma {:induction false} LosingTurnsLater(st: Store, st1: Store, ids: seq<uint16>, j: nat)
    requires j < |ids| && AfterFirst(st, st1, ids[0]) && 0 !in ids && st.maxInflight > 0
    ensures LosingTurns(st1, ids[1..], j) == LosingTurns(st, ids, j + 1)
    decreases |ids| - j
  {
    if j + 1 < |ids| {
      LosingLater(st, st1, ids, j);
      LosingTurnsLater(st, st1, ids, j + 1);
    }
  }

  lemma {:induction false} TrackedIdsNonZero(ops: seq<Op>)
    requires QueueOk(ops)
    ensures 0 !in TrackedIds(ops)
  {
    if ops != [] {
      TrackedIdsNonZero(ops[1..]);
    }
  }

  // ---------- the whole replay ----------

  // A replay loses exactly one op at each losing turn of its backlog.
  lemma {:induction false} ReplayLosesAtLosingTurns(s: Session, ops: seq<Op>)
    requires Inv(s) && QueueOk(ops)
    ensures |LostOnReplay(s, ops)| == LosingTurns(s.store, TrackedIds(ops), 0)
    decreases ops
  {
    if ops != [] {
      var op, ids := ops[0], TrackedIds(ops);
      var s1 := ReplayOne(s, op).0;
      ReplayOneKeepsInv(s, op);
      ReplayLosesAtLosingTurns(s1, ops[1..]);
      TrackedIdsNonZero(ops);
      if NeedsAck(op.command) {
        assert ids[1..] == TrackedIds(ops[1..]);
        TurnTakes(s, op);
        FirstParks(s.store, ids);
        LosingTurnsLater(s.store, s1.store, ids, 0);
      } else {
        assert ids == TrackedIds(ops[1..]);
        assert s1 == s;
      }
    }
  }

  lemma {:induction false} NoLosingTurns(st: Store, ids: seq<uint16>, j: nat)
    requires j <= |ids|
    ensures LosingTurns(st, ids, j) == 0 <==> forall k :: j <= k < |ids| ==> !LosingTurn(st, ids, k)
    decreases |ids| - j
  {
    if j < |ids| {
      NoLosingTurns(st, ids, j + 1);
    }
  }

  // So a replay is lossless if and only if its backlog has no losing turn.
  lemma {:induction false} ReplayLosesIff(s: Session, ops: seq<Op>)
    requires Inv(s) && QueueOk(ops)
    ensures LostOnReplay(s, ops) != [] <==> BacklogLoses(s.store, ops)
  {
    ReplayLosesAtLosingTurns(s, ops);
    NoLosingTurns(s.store, TrackedIds(ops), 0);
  }

  // After a loss the table and the park are empty, so the ids of the backlog decide alone:
  // an id repeats while some id has not occurred, and a later op has an id out of range or
  // one that occurred before.
  ghost predicate IdsLose(ids: seq<uint16>, max: uint16) {
    exists i, j :: 0 <= i < j < |ids| && RepeatsEarly(ids, max, i) && NoneLeftFor(ids, max, j)
  }

  // Id number i has occurred before, while some id has not.
  ghost predicate RepeatsEarly(ids: seq<uint16>, max: uint16, i: nat)
    requires i < |ids|
  {
    ids[i] <= max && ids[i] in ids[..i] && exists p: uint16 :: 1 <= p <= max && p !in ids[..i]
  }

  ghost predicate NoneLeftFor(ids: seq<uint16>, max: uint16, j: nat)
    requires j < |ids|
  {
    ids[j] > max || ids[j] in ids[..j]
  }

  ghost predicate EmptyTable(st: Store) {
    st.collision.None? && forall p :: 0 <= p < |st.outgoing| ==> st.outgoing[p].None?
  }

  lemma {:induction false} EmptyTableLosesIff(st: Store, ops: seq<Op>)
    requires EmptyTable(st)
    ensures BacklogLoses(st, ops) <==> IdsLose(TrackedIds(ops), st.maxInflight)
  {
    var ids, max := TrackedIds(ops), st.maxInflight;
    forall i: nat | i < |ids|
      ensures (NoPlace(st, ids, i) <==> NoneLeftFor(ids, max, i)) && (Parks(st, ids, i) <==> RepeatsEarly(ids, max, i))
    {
      assert forall p: uint16 :: Taken(st, ids, i, p) <==> p in ids[..i];
    }
    if BacklogLoses(st, ops) {
      var j :| 0 <= j < |ids| && LosingTurn(st, ids, j);
      var i :| 0 <= i < j && Parks(st, ids, i);
      assert RepeatsEarly(ids, max, i) && NoneLeftFor(ids, max, j);
    }
    if IdsLose(ids, max) {
      var i, j :| 0 <= i < j < |ids| && RepeatsEarly(ids, max, i) && NoneLeftFor(ids, max, j);
      assert Parks(st, ids, i);
      assert LosingTurn(st, ids, j);
    }
  }
}
