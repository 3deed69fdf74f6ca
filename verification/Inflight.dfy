// The in-flight store: one slot per packet id, a one-place collision park, a pending
// queue and the QoS 2 phase flags (src/runtime/inflight.rs).
module Inflight {
  import opened Bytes
  import opened Types
  import opened Wrappers

  datatype Op = Op(tokenId: nat, clientId: nat, command: Command, packet: Packet)

  datatype Parked = Parked(pkid: uint16, op: Op)

  // The values of an InflightStore's fields.
  datatype Store = Store(
    outgoing: seq<Option<Op>>,
    inflight: int,
    maxInflight: uint16,
    collision: Option<Parked>,
    pending: seq<Op>,
    outgoingRel: seq<bool>,
    incomingPub: seq<bool>)

  function Occupied(slots: seq<Option<Op>>): nat {
    if slots == [] then 0 else (if slots[0].Some? then 1 else 0) + Occupied(slots[1..])
  }

  // What the store's own methods need and keep: the tables have one entry per id and
  // `inflight` counts the occupied slots.
  ghost predicate ValidStore(s: Store) {
    && |s.outgoing| == |s.outgoingRel| == |s.incomingPub| == s.maxInflight + 1
    && s.inflight == Occupied(s.outgoing) <= s.maxInflight
  }

  function EmptyStore(max: uint16): Store {
    Store(seq(max + 1, _ => None), 0, max, None, [], seq(max + 1, _ => false), seq(max + 1, _ => false))
  }

  predicate HasRoomAt(s: Store, pkid: uint16) {
    s.inflight < s.maxInflight && pkid < |s.outgoing| && s.outgoing[pkid].None?
  }

  function Inserted(s: Store, pkid: uint16, op: Op): (Store, bool) {
    if HasRoomAt(s, pkid) then
      (s.(outgoing := s.outgoing[pkid as int := Some(op)], inflight := s.inflight + 1), true)
    else if s.inflight < s.maxInflight && pkid < |s.outgoing| then
      (s.(collision := Some(Parked(pkid, op))), false)
    else
      (s, false)
  }

  function SlotAt(s: Store, pkid: uint16): Option<Op> {
    if pkid < |s.outgoing| then s.outgoing[pkid] else None
  }

  function Released(s: Store, pkid: uint16): (Store, Option<Op>) {
    match SlotAt(s, pkid)
    case None => (s, None)
    case Some(op) => (s.(outgoing := s.outgoing[pkid as int := None], inflight := s.inflight - 1), Some(op))
  }

  // The ops of the occupied slots, in packet-id order.
  function DrainSlots(slots: seq<Option<Op>>): seq<Op> {
    if slots == [] then []
    else (if slots[0].Some? then [slots[0].value] else []) + DrainSlots(slots[1..])
  }

  lemma {:induction false} OccupiedUpdate(slots: seq<Option<Op>>, i: nat, v: Option<Op>)
    requires i < |slots|
    ensures Occupied(slots[i := v])
         == Occupied(slots) - (if slots[i].Some? then 1 else 0) + (if v.Some? then 1 else 0)
  {
    var slots' := slots[i := v];
    if i == 0 {
      assert slots'[1..] == slots[1..];
    } else {
      assert slots'[1..] == slots[1..][i - 1 := v];
      OccupiedUpdate(slots[1..], i - 1, v);
    }
  }

  lemma {:induction false} OccupiedNone(slots: seq<Option<Op>>)
    requires forall i :: 0 <= i < |slots| ==> slots[i].None?
    ensures Occupied(slots) == 0
  {
    if slots != [] {
      OccupiedNone(slots[1..]);
    }
  }

  // A free slot among the ids leaves room in the count: with slot 0 never used, a table
  // with one more empty slot holds fewer than max ops.
  lemma {:induction false} FreeSlotLeavesRoom(slots: seq<Option<Op>>, i: nat)
    requires i < |slots| && slots[i].None?
    ensures Occupied(slots) <= |slots| - 1
  {
    if i == 0 {
      OccupiedBound(slots[1..]);
    } else {
      FreeSlotLeavesRoom(slots[1..], i - 1);
    }
  }

  lemma {:induction false} OccupiedBound(slots: seq<Option<Op>>)
    ensures Occupied(slots) <= |slots|
  {
    if slots != [] {
      OccupiedBound(slots[1..]);
    }
  }

  // Every update of the slot table keeps the store's count.
  lemma {:induction false} InsertKeepsValid(s: Store, pkid: uint16, op: Op)
    requires ValidStore(s)
    ensures ValidStore(Inserted(s, pkid, op).0)
  {
    if HasRoomAt(s, pkid) {
      OccupiedUpdate(s.outgoing, pkid, Some(op));
    }
  }

  lemma {:induction false} ReleaseKeepsValid(s: Store, pkid: uint16)
    requires ValidStore(s)
    ensures ValidStore(Released(s, pkid).0)
  {
    if SlotAt(s, pkid).Some? {
      OccupiedUpdate(s.outgoing, pkid, None);
    }
  }

  class InflightStore {
    const outgoing: array<Option<Op>>
    var inflight: uint16
    const maxInflight: uint16
    var collision: Option<Parked>
    var pending: seq<Op>
    const outgoingRel: array<bool>
    const incomingPub: array<bool>

    ghost function Repr(): set<object> {
      {this, outgoing, outgoingRel, incomingPub}
    }

    ghost function View(): Store
      reads Repr()
    {
      Store(outgoing[..], inflight, maxInflight, collision, pending, outgoingRel[..], incomingPub[..])
    }

    ghost predicate Valid()
      reads Repr()
    {
      ValidStore(View()) && outgoingRel != incomingPub
    }

    constructor (max: uint16)
      ensures Valid() && fresh(Repr())
      ensures View() == EmptyStore(max)
    {
      var n := max + 1;
      outgoing := new Option<Op>[n](_ => None);
      inflight := 0;
      maxInflight := max;
      collision := None;
      pending := [];
      outgoingRel := new bool[n](_ => false);
      incomingPub := new bool[n](_ => false);
      new;
      OccupiedNone(outgoing[..]);
      assert outgoing[..] == EmptyStore(max).outgoing;
      assert outgoingRel[..] == EmptyStore(max).outgoingRel;
      assert incomingPub[..] == EmptyStore(max).incomingPub;
    }

    method TryInsert(pkid: uint16, op: Op) returns (inserted: bool)
      requires Valid()
      modifies Repr()
      ensures Valid()
      ensures (View(), inserted) == Inserted(old(View()), pkid, op)
    {
      InsertKeepsValid(View(), pkid, op);
      ghost var was := outgoing[..];
      if inflight >= maxInflight {
        return false;
      }
      if pkid < outgoing.Length {
        if outgoing[pkid].Some? {
          collision := Some(Parked(pkid, op));
          return false;
        } else {
          outgoing[pkid] := Some(op);
          inflight := inflight + 1;
          assert outgoing[..] == was[pkid as int := Some(op)];
          return true;
        }
      }
      return false;
    }

    method ReleaseAck(pkid: uint16) returns (out: Option<Op>)
      requires Valid()
      modifies Repr()
      ensures Valid()
      ensures (View(), out) == Released(old(View()), pkid)
    {
      ReleaseKeepsValid(View(), pkid);
      ghost var was := outgoing[..];
      if pkid >= outgoing.Length {
        return None;
      }
      out := outgoing[pkid];
      outgoing[pkid] := None;
      assert outgoing[..] == was[pkid as int := None];
      if out.Some? {
        OccupiedUpdate(was, pkid, None);
        inflight := inflight - 1;
      } else {
        assert was[pkid as int := None] == was;
      }
    }
  }
}
