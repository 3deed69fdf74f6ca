// The MQTT session state machine (src/runtime/state.rs): its transitions as functions on
// values, and the class whose methods carry them out in place.
module SessionState {
  import opened Bytes
  import opened Types
  import opened Wrappers
  import opened PacketIds
  import opened Inflight

  datatype Completion =
    | PubAck(tokenId: nat, pkid: uint16)
    | PubComp(tokenId: nat, pkid: uint16)
    | SubAck(tokenId: nat, pkid: uint16)
    | UnsubAck(tokenId: nat, pkid: uint16)

  datatype RuntimeError =
    | InvalidCommand
    | UnsolicitedAck(pkid: uint16)
    | UnsolicitedPubRec(pkid: uint16)
    | UnsolicitedPubComp(pkid: uint16)
    | UnsolicitedPubRel(pkid: uint16)
    | PacketIdOutOfRange(pkid: uint16)
    | AwaitPingRespTimeout

  datatype AckResult = AckResult(clientId: nat, completion: Completion, nextPacket: Option<Packet>)

  datatype SubscribeAckResult =
    SubscribeAckResult(clientId: nat, tokenId: nat, filters: seq<Filter>, completion: Completion)

  datatype UnsubscribeAckResult =
    UnsubscribeAckResult(clientId: nat, tokenId: nat, filters: seq<Text>, completion: Completion)

  datatype IncomingQos2Result = FirstSeen(pubrec: Packet) | Duplicate(pubrec: Packet)

  type Reply<T> = Result<T, RuntimeError>

  // The values of a session's fields. Times are integers on one clock.
  datatype Session = Session(
    pool: Pool,
    store: Store,
    active: bool,
    keepAlive: nat,
    awaitPingresp: bool,
    lastIncoming: int,
    lastOutgoing: int)

  // ---------- commands and the ops made of them ----------

  predicate Trackable(c: Command) {
    c.Publish? || c.Subscribe? || c.Unsubscribe?
  }

  // Commands whose op waits in a slot for an acknowledgement.
  predicate NeedsAck(c: Command) {
    match c
    case Publish(_, p, _) => p.qos != AtMostOnce
    case Subscribe(_, _, _) => true
    case Unsubscribe(_, _, _) => true
    case _ => false
  }

  function PkidOf(c: Command): uint16 {
    match c
    case Publish(_, p, _) => p.pkid
    case Subscribe(_, p, _) => p.pkid
    case Unsubscribe(_, p, _) => p.pkid
    case _ => 0
  }

  function WithPkid(c: Command, pkid: uint16): Command {
    match c
    case Publish(_, p, _) => c.(publish := p.(pkid := pkid))
    case Subscribe(_, p, _) => c.(subscribe := p.(pkid := pkid))
    case Unsubscribe(_, p, _) => c.(unsubscribe := p.(pkid := pkid))
    case _ => c
  }

  // The command as a replay or a promotion sends it: DUP set on a QoS 1 or QoS 2 publish,
  // whether or not it was sent before.
  function WithDup(c: Command): Command {
    if c.Publish? && NeedsAck(c) then c.(publish := c.publish.(dup := true)) else c
  }

  function PacketOf(c: Command): Packet {
    match c
    case Publish(_, p, _) => Packet.Publish(p)
    case Subscribe(_, p, _) => Packet.Subscribe(p)
    case Unsubscribe(_, p, _) => Packet.Unsubscribe(p)
    case Ping => PingReq
    case Disconnect => Packet.Disconnect
  }

  function OpOf(c: Command): Op
    requires Trackable(c)
  {
    Op(c.tokenId, c.clientId, c, PacketOf(c))
  }

  function MarkPublishDup(packet: Packet): Packet {
    match packet
    case Publish(p) => Packet.Publish(if p.qos != AtMostOnce then p.(dup := true) else p)
    case other => other
  }

  // A command that needs an id and brought none gets the next candidate.
  function AssignPkid(pool: Pool, c: Command): (Pool, Command) {
    if NeedsAck(c) && PkidOf(c) == 0 then (Advance(pool), WithPkid(c, NextId(pool))) else (pool, c)
  }

  // Into its slot; else parked or queued; else, when another op is parked already, nowhere.
  function Admit(st: Store, op: Op): (Store, bool) {
    var (st', inserted) := Inserted(st, PkidOf(op.command), op);
    if !inserted && st'.collision.None? then (st'.(pending := st'.pending + [op]), false) else (st', inserted)
  }

  // ---------- transitions ----------

  function InitialSession(max: uint16, keepAlive: nat, now: int): Session
    requires max > 0
  {
    Session(Pool(0, max), EmptyStore(max), false, keepAlive, false, now, now)
  }

  function AfterCommand(s: Session, c: Command): (Session, Option<Packet>)
    requires Trackable(c)
  {
    var (pool, c) := AssignPkid(s.pool, c);
    var s := s.(pool := pool);
    if !s.active then
      (s.(store := s.store.(pending := s.store.pending + [OpOf(c)])), None)
    else if NeedsAck(c) then
      var (store, inserted) := Admit(s.store, OpOf(c));
      (s.(store := store), if inserted then Some(PacketOf(c)) else None)
    else
      (s, Some(PacketOf(c)))
  }

  function AfterPromotion(s: Session, acked: uint16): (Session, Option<Packet>) {
    match s.store.collision
    case None => (s, None)
    case Some(parked) =>
      if parked.pkid != acked then (s, None)
      else
        var (store, inserted) := Inserted(s.store.(collision := None), acked, parked.op);
        (s.(store := store), if inserted then Some(MarkPublishDup(parked.op.packet)) else None)
  }

  function AfterPubAck(s: Session, pkid: uint16): (Session, Reply<AckResult>) {
    match Released(s.store, pkid)
    case (_, None) => (s, Err(UnsolicitedAck(pkid)))
    case (store, Some(op)) =>
      var (s', next) := AfterPromotion(s.(store := store), pkid);
      (s', Ok(AckResult(op.clientId, Completion.PubAck(op.tokenId, pkid), next)))
  }

  predicate InRange(s: Session, pkid: uint16) {
    pkid != 0 && pkid < |s.store.outgoing|
  }

  function AfterPubRec(s: Session, pkid: uint16): (Session, Reply<Packet>)
    requires ValidStore(s.store)
  {
    if !InRange(s, pkid) then (s, Err(PacketIdOutOfRange(pkid)))
    else if s.store.outgoing[pkid].None? then (s, Err(UnsolicitedPubRec(pkid)))
    else (s.(store := s.store.(outgoingRel := s.store.outgoingRel[pkid as int := true])), Ok(PubRel(pkid)))
  }

  function AfterPubComp(s: Session, pkid: uint16): (Session, Reply<AckResult>)
    requires ValidStore(s.store)
  {
    if !InRange(s, pkid) then (s, Err(PacketIdOutOfRange(pkid)))
    else if !s.store.outgoingRel[pkid] || s.store.outgoing[pkid].None? then (s, Err(UnsolicitedPubComp(pkid)))
    else
      var op := s.store.outgoing[pkid].value;
      var released := Released(s.store.(outgoingRel := s.store.outgoingRel[pkid as int := false]), pkid).0;
      var (s', next) := AfterPromotion(s.(store := released), pkid);
      (s', Ok(AckResult(op.clientId, Completion.PubComp(op.tokenId, pkid), next)))
  }

  function AfterSubAck(s: Session, pkid: uint16): (Session, Reply<SubscribeAckResult>) {
    match Released(s.store, pkid)
    case (_, None) => (s, Err(UnsolicitedAck(pkid)))
    case (store, Some(op)) =>
      (s.(store := store),
       match op.command
       case Subscribe(token, p, client) =>
         Ok(SubscribeAckResult(client, token, p.filters, Completion.SubAck(token, pkid)))
       case _ => Err(InvalidCommand))
  }

  function AfterUnsubAck(s: Session, pkid: uint16): (Session, Reply<UnsubscribeAckResult>) {
    match Released(s.store, pkid)
    case (_, None) => (s, Err(UnsolicitedAck(pkid)))
    case (store, Some(op)) =>
      (s.(store := store),
       match op.command
       case Unsubscribe(token, p, client) =>
         Ok(UnsubscribeAckResult(client, token, p.filters, Completion.UnsubAck(token, pkid)))
       case _ => Err(InvalidCommand))
  }

  function AfterIncomingQos2(s: Session, pkid: uint16): (Session, Reply<IncomingQos2Result>)
    requires ValidStore(s.store)
  {
    if !InRange(s, pkid) then (s, Err(PacketIdOutOfRange(pkid)))
    else if s.store.incomingPub[pkid] then (s, Ok(Duplicate(PubRec(pkid))))
    else
      (s.(store := s.store.(incomingPub := s.store.incomingPub[pkid as int := true])), Ok(FirstSeen(PubRec(pkid))))
  }

  function AfterPubRel(s: Session, pkid: uint16): (Session, Reply<Packet>)
    requires ValidStore(s.store)
  {
    if !InRange(s, pkid) then (s, Err(PacketIdOutOfRange(pkid)))
    else if !s.store.incomingPub[pkid] then (s, Err(UnsolicitedPubRel(pkid)))
    else
      (s.(store := s.store.(incomingPub := s.store.incomingPub[pkid as int := false])), Ok(Packet.PubComp(pkid)))
  }

  // Instant::duration_since, which saturates at zero.
  function Since(now: int, earlier: int): nat {
    if now >= earlier then now - earlier else 0
  }

  function Max(a: int, b: int): int {
    if a >= b then a else b
  }

  function AfterTick(s: Session, now: int): (Session, Reply<Option<Packet>>) {
    if !s.active then (s, Ok(None))
    else if s.awaitPingresp && Since(now, s.lastOutgoing) >= s.keepAlive then (s, Err(AwaitPingRespTimeout))
    else if Since(now, Max(s.lastIncoming, s.lastOutgoing)) >= s.keepAlive then
      (s.(awaitPingresp := true, lastOutgoing := now), Ok(Some(PingReq)))
    else (s, Ok(None))
  }

  // Slots in id order, then the parked op, join the end of the pending queue.
  function Backlog(st: Store): seq<Op> {
    st.pending + DrainSlots(st.outgoing) + (if st.collision.Some? then [st.collision.value.op] else [])
  }

  function Cleared<T>(s: seq<T>, v: T): seq<T> {
    seq(|s|, _ => v)
  }

  function AfterLoss(s: Session, cleanSession: bool): Session {
    var store := s.store.(
      outgoing := Cleared(s.store.outgoing, None),
      inflight := 0,
      collision := None,
      pending := Backlog(s.store));
    var lost := s.(active := false, awaitPingresp := false, store := store);
    if cleanSession then
      lost.(
        pool := s.pool.(last := 0),
        store := store.(
          outgoingRel := Cleared(store.outgoingRel, false),
          incomingPub := Cleared(store.incomingPub, false)))
    else lost
  }

  // One op of the backlog: what replay does with it and what it sends.
  function ReplayOne(s: Session, op: Op): (Session, seq<Packet>) {
    if !Trackable(op.command) then (s, [])
    else
      var (pool, numbered) := AssignPkid(s.pool, op.command);
      var c := WithDup(numbered);
      var s := s.(pool := pool);
      if NeedsAck(c) then
        var (store, inserted) := Admit(s.store, OpOf(c));
        (s.(store := store), if inserted then [PacketOf(c)] else [])
      else (s, [PacketOf(c)])
  }

  function Replay(s: Session, ops: seq<Op>): (Session, seq<Packet>)
    decreases ops
  {
    if ops == [] then (s, [])
    else
      var (s1, sent) := ReplayOne(s, ops[0]);
      var (s2, rest) := Replay(s1, ops[1..]);
      (s2, sent + rest)
  }

  function AfterResend(s: Session): (Session, seq<Packet>) {
    Replay(s.(active := true, store := s.store.(pending := [])), s.store.pending)
  }

  // What is sent so far and what the remaining ops will do make up the whole.
  ghost predicate Replaying(whole: (Session, seq<Packet>), s: Session, sent: seq<Packet>, ops: seq<Op>) {
    whole == (Replay(s, ops).0, sent + Replay(s, ops).1)
  }

  lemma {:induction false} ReplayingStep(whole: (Session, seq<Packet>), s: Session, sent: seq<Packet>,
                                         ops: seq<Op>, i: nat)
    requires i < |ops| && Replaying(whole, s, sent, ops[i..])
    ensures Replaying(whole, ReplayOne(s, ops[i]).0, sent + ReplayOne(s, ops[i]).1, ops[i + 1..])
  {
    assert ops[i..][0] == ops[i] && ops[i..][1..] == ops[i + 1..];
    var (s1, first) := ReplayOne(s, ops[i]);
    assert sent + (first + Replay(s1, ops[i + 1..]).1) == (sent + first) + Replay(s1, ops[i + 1..]).1;
  }

  // ---------- the state machine in place ----------

  class RuntimeState {
    const pkidPool: PacketIdPool
    const inflight: InflightStore
    var active: bool
    const keepAlive: nat
    var awaitPingresp: bool
    var lastIncoming: int
    var lastOutgoing: int

    ghost function Repr(): set<object> {
      {this, pkidPool} + inflight.Repr()
    }

    ghost predicate Valid()
      reads Repr()
    {
      inflight.Valid()
    }

    ghost function View(): Session
      reads Repr()
    {
      Session(pkidPool.View(), inflight.View(), active, keepAlive, awaitPingresp, lastIncoming, lastOutgoing)
    }

    constructor (max: uint16, keepAlive: nat, now: int)
      requires max > 0
      ensures Valid() && fresh(Repr())
      ensures View() == InitialSession(max, keepAlive, now)
    {
      pkidPool := new PacketIdPool(max);
      inflight := new InflightStore(max);
      active := false;
      this.keepAlive := keepAlive;
      awaitPingresp := false;
      lastIncoming := now;
      lastOutgoing := now;
    }

    method OnCommandSubscribe(cmd: Command) returns (r: Reply<Option<Packet>>)
      requires Valid()
      modifies Repr()
      ensures Valid()
      ensures !cmd.Subscribe? ==> r == Err(InvalidCommand) && View() == old(View())
      ensures cmd.Subscribe? ==> r.Ok? && (View(), r.value) == AfterCommand(old(View()), cmd)
    {
      if !cmd.Subscribe? {
        return Err(InvalidCommand);
      }
      var subscribe := cmd.subscribe;
      if subscribe.pkid == 0 {
        var id := pkidPool.NextCandidate();
        subscribe := subscribe.(pkid := id);
      }
      var wire := Packet.Subscribe(subscribe);
      var op := Op(cmd.tokenId, cmd.clientId, Command.Subscribe(cmd.tokenId, subscribe, cmd.clientId), wire);
      if !active {
        inflight.pending := inflight.pending + [op];
        return Ok(None);
      }
      var inserted := inflight.TryInsert(subscribe.pkid, op);
      if !inserted {
        if inflight.collision.None? {
          inflight.pending := inflight.pending + [op];
        }
        return Ok(None);
      }
      return Ok(Some(wire));
    }

    method OnCommandUnsubscribe(cmd: Command) returns (r: Reply<Option<Packet>>)
      requires Valid()
      modifies Repr()
      ensures Valid()
      ensures !cmd.Unsubscribe? ==> r == Err(InvalidCommand) && View() == old(View())
      ensures cmd.Unsubscribe? ==> r.Ok? && (View(), r.value) == AfterCommand(old(View()), cmd)
    {
      if !cmd.Unsubscribe? {
        return Err(InvalidCommand);
      }
      var unsubscribe := cmd.unsubscribe;
      if unsubscribe.pkid == 0 {
        var id := pkidPool.NextCandidate();
        unsubscribe := unsubscribe.(pkid := id);
      }
      var wire := Packet.Unsubscribe(unsubscribe);
      var op := Op(cmd.tokenId, cmd.clientId, Command.Unsubscribe(cmd.tokenId, unsubscribe, cmd.clientId), wire);
      if !active {
        inflight.pending := inflight.pending + [op];
        return Ok(None);
      }
      var inserted := inflight.TryInsert(unsubscribe.pkid, op);
      if !inserted {
        if inflight.collision.None? {
          inflight.pending := inflight.pending + [op];
        }
        return Ok(None);
      }
      return Ok(Some(wire));
    }

    method OnCommandPublish(cmd: Command) returns (r: Reply<Option<Packet>>)
      requires Valid()
      modifies Repr()
      ensures Valid()
      ensures !cmd.Publish? ==> r == Err(InvalidCommand) && View() == old(View())
      ensures cmd.Publish? ==> r.Ok? && (View(), r.value) == AfterCommand(old(View()), cmd)
    {
      if !cmd.Publish? {
        return Err(InvalidCommand);
      }
      var publish := cmd.publish;
      var needsAck := publish.qos != AtMostOnce;
      if needsAck && publish.pkid == 0 {
        var id := pkidPool.NextCandidate();
        publish := publish.(pkid := id);
      }
      var wire := Packet.Publish(publish);
      var op := Op(cmd.tokenId, cmd.clientId, Command.Publish(cmd.tokenId, publish, cmd.clientId), wire);
      if !active {
        inflight.pending := inflight.pending + [op];
        return Ok(None);
      }
      if needsAck {
        var inserted := inflight.TryInsert(publish.pkid, op);
        if !inserted {
          if inflight.collision.None? {
            inflight.pending := inflight.pending + [op];
          }
          return Ok(None);
        }
      }
      return Ok(Some(wire));
    }

    method PromoteCollision(acked: uint16) returns (next: Option<Packet>)
      requires Valid()
      modifies Repr()
      ensures Valid()
      ensures (View(), next) == AfterPromotion(old(View()), acked)
    {
      if inflight.collision.None? {
        return None;
      }
      var parked := inflight.collision.value;
      if parked.pkid != acked {
        return None;
      }
      inflight.collision := None;
      var wire := MarkPublishDup(parked.op.packet);
      var inserted := inflight.TryInsert(parked.pkid, parked.op);
      return if inserted then Some(wire) else None;
    }

    method OnPubAckChecked(pkid: uint16) returns (r: Reply<AckResult>)
      requires Valid()
      modifies Repr()
      ensures Valid()
      ensures (View(), r) == AfterPubAck(old(View()), pkid)
    {
      var released := inflight.ReleaseAck(pkid);
      if released.None? {
        return Err(UnsolicitedAck(pkid));
      }
      var op := released.value;
      var next := PromoteCollision(pkid);
      return Ok(AckResult(op.clientId, Completion.PubAck(op.tokenId, pkid), next));
    }

    method OnPubRecChecked(pkid: uint16) returns (r: Reply<Packet>)
      requires Valid()
      modifies Repr()
      ensures Valid()
      ensures (View(), r) == AfterPubRec(old(View()), pkid)
    {
      if pkid == 0 || pkid >= inflight.outgoing.Length {
        return Err(PacketIdOutOfRange(pkid));
      }
      if inflight.outgoing[pkid].None? {
        return Err(UnsolicitedPubRec(pkid));
      }
      inflight.outgoingRel[pkid] := true;
      return Ok(PubRel(pkid));
    }

    method OnPubCompChecked(pkid: uint16) returns (r: Reply<AckResult>)
      requires Valid()
      modifies Repr()
      ensures Valid()
      ensures (View(), r) == AfterPubComp(old(View()), pkid)
    {
      if pkid == 0 || pkid >= inflight.outgoing.Length {
        return Err(PacketIdOutOfRange(pkid));
      }
      if !inflight.outgoingRel[pkid] || inflight.outgoing[pkid].None? {
        return Err(UnsolicitedPubComp(pkid));
      }
      inflight.outgoingRel[pkid] := false;
      var released := inflight.ReleaseAck(pkid);
      var op := released.value;
      var next := PromoteCollision(pkid);
      return Ok(AckResult(op.clientId, Completion.PubComp(op.tokenId, pkid), next));
    }

    method OnSubAckChecked(pkid: uint16) returns (r: Reply<SubscribeAckResult>)
      requires Valid()
      modifies Repr()
      ensures Valid()
      ensures (View(), r) == AfterSubAck(old(View()), pkid)
    {
      var released := inflight.ReleaseAck(pkid);
      if released.None? {
        return Err(UnsolicitedAck(pkid));
      }
      match released.value.command {
        case Subscribe(token, subscribe, client) =>
          return Ok(SubscribeAckResult(client, token, subscribe.filters, Completion.SubAck(token, pkid)));
        case _ =>
          return Err(InvalidCommand);
      }
    }

    method OnUnsubAckChecked(pkid: uint16) returns (r: Reply<UnsubscribeAckResult>)
      requires Valid()
      modifies Repr()
      ensures Valid()
      ensures (View(), r) == AfterUnsubAck(old(View()), pkid)
    {
      var released := inflight.ReleaseAck(pkid);
      if released.None? {
        return Err(UnsolicitedAck(pkid));
      }
      match released.value.command {
        case Unsubscribe(token, unsubscribe, client) =>
          return Ok(UnsubscribeAckResult(client, token, unsubscribe.filters, Completion.UnsubAck(token, pkid)));
        case _ =>
          return Err(InvalidCommand);
      }
    }

    method OnIncomingQos2PublishChecked(pkid: uint16) returns (r: Reply<IncomingQos2Result>)
      requires Valid()
      modifies Repr()
      ensures Valid()
      ensures (View(), r) == AfterIncomingQos2(old(View()), pkid)
    {
      if pkid == 0 || pkid >= inflight.outgoing.Length {
        return Err(PacketIdOutOfRange(pkid));
      }
      var pubrec := PubRec(pkid);
      if inflight.incomingPub[pkid] {
        return Ok(Duplicate(pubrec));
      }
      inflight.incomingPub[pkid] := true;
      return Ok(FirstSeen(pubrec));
    }

    method OnIncomingPubRelChecked(pkid: uint16) returns (r: Reply<Packet>)
      requires Valid()
      modifies Repr()
      ensures Valid()
      ensures (View(), r) == AfterPubRel(old(View()), pkid)
    {
      if pkid == 0 || pkid >= inflight.outgoing.Length {
        return Err(PacketIdOutOfRange(pkid));
      }
      if !inflight.incomingPub[pkid] {
        return Err(UnsolicitedPubRel(pkid));
      }
      inflight.incomingPub[pkid] := false;
      return Ok(Packet.PubComp(pkid));
    }

    method OnTick(now: int) returns (r: Reply<Option<Packet>>)
      requires Valid()
      modifies this
      ensures Valid()
      ensures (View(), r) == AfterTick(old(View()), now)
    {
      if !active {
        return Ok(None);
      }
      if awaitPingresp && Since(now, lastOutgoing) >= keepAlive {
        return Err(AwaitPingRespTimeout);
      }
      var idleSince := Max(lastIncoming, lastOutgoing);
      if Since(now, idleSince) >= keepAlive {
        awaitPingresp := true;
        lastOutgoing := now;
        return Ok(Some(PingReq));
      }
      return Ok(None);
    }

    method OnPingResp(now: int)
      requires Valid()
      modifies this
      ensures Valid()
      ensures View() == old(View()).(awaitPingresp := false, lastIncoming := now)
    {
      awaitPingresp := false;
      lastIncoming := now;
    }

    // Moves the op of every occupied slot, in id order, to the pending queue.
    method DrainOutgoing()
      modifies inflight.outgoing, inflight`pending
      ensures inflight.outgoing[..] == Cleared(old(inflight.outgoing[..]), None)
      ensures inflight.pending == old(inflight.pending) + DrainSlots(old(inflight.outgoing[..]))
    {
      ghost var slots := inflight.outgoing[..];
      for i := 0 to inflight.outgoing.Length
        invariant forall k :: 0 <= k < i ==> inflight.outgoing[k].None?
        invariant inflight.outgoing[i..] == slots[i..]
        invariant inflight.pending + DrainSlots(slots[i..]) == old(inflight.pending) + DrainSlots(slots)
      {
        assert slots[i..][0] == inflight.outgoing[i..][0];
        assert slots[i..][1..] == slots[i + 1..];
        if inflight.outgoing[i].Some? {
          inflight.pending := inflight.pending + [inflight.outgoing[i].value];
          inflight.outgoing[i] := None;
        }
      }
    }

    method ClearQos2Flags()
      requires inflight.outgoingRel != inflight.incomingPub
      modifies inflight.outgoingRel, inflight.incomingPub
      ensures inflight.outgoingRel[..] == Cleared(old(inflight.outgoingRel[..]), false)
      ensures inflight.incomingPub[..] == Cleared(old(inflight.incomingPub[..]), false)
    {
      forall i | 0 <= i < inflight.outgoingRel.Length {
        inflight.outgoingRel[i] := false;
      }
      forall i | 0 <= i < inflight.incomingPub.Length {
        inflight.incomingPub[i] := false;
      }
    }

    method OnConnectionLost(cleanSession: bool)
      requires Valid()
      modifies Repr()
      ensures Valid()
      ensures View() == AfterLoss(old(View()), cleanSession)
    {
      active := false;
      awaitPingresp := false;
      DrainOutgoing();
      if inflight.collision.Some? {
        inflight.pending := inflight.pending + [inflight.collision.value.op];
        inflight.collision := None;
      }
      inflight.inflight := 0;
      OccupiedNone(inflight.outgoing[..]);
      if cleanSession {
        pkidPool.Reset();
        ClearQos2Flags();
      }
    }

    // Insert, or queue when nothing is parked.
    method Readmit(op: Op) returns (inserted: bool)
      requires Valid()
      modifies Repr()
      ensures Valid()
      ensures View().(store := old(View()).store) == old(View())
      ensures (View().store, inserted) == Admit(old(View()).store, op)
    {
      inserted := inflight.TryInsert(PkidOf(op.command), op);
      if !inserted && inflight.collision.None? {
        inflight.pending := inflight.pending + [op];
      }
    }

    // The body of the replay loop: rebuild one op, with DUP, and send it if it is admitted.
    method ResendOne(op: Op) returns (sent: seq<Packet>)
      requires Valid()
      modifies Repr()
      ensures Valid()
      ensures (View(), sent) == ReplayOne(old(View()), op)
    {
      match op.command {
        case Publish(tokenId, publish, clientId) =>
          var publish := publish;
          if publish.qos != AtMostOnce {
            if publish.pkid == 0 {
              var id := pkidPool.NextCandidate();
              publish := publish.(pkid := id);
            }
            publish := publish.(dup := true);
          }
          var wire := Packet.Publish(publish);
          if publish.qos != AtMostOnce {
            var inserted := Readmit(Op(tokenId, clientId, Command.Publish(tokenId, publish, clientId), wire));
            if !inserted {
              return [];
            }
          }
          return [wire];
        case Subscribe(tokenId, subscribe, clientId) =>
          var subscribe := subscribe;
          if subscribe.pkid == 0 {
            var id := pkidPool.NextCandidate();
            subscribe := subscribe.(pkid := id);
          }
          var wire := Packet.Subscribe(subscribe);
          var inserted := Readmit(Op(tokenId, clientId, Command.Subscribe(tokenId, subscribe, clientId), wire));
          return if inserted then [wire] else [];
        case Unsubscribe(tokenId, unsubscribe, clientId) =>
          var unsubscribe := unsubscribe;
          if unsubscribe.pkid == 0 {
            var id := pkidPool.NextCandidate();
            unsubscribe := unsubscribe.(pkid := id);
          }
          var wire := Packet.Unsubscribe(unsubscribe);
          var inserted := Readmit(Op(tokenId, clientId, Command.Unsubscribe(tokenId, unsubscribe, clientId), wire));
          return if inserted then [wire] else [];
        case Ping => return [];
        case Disconnect => return [];
      }
    }

    method ResendPendingOnReconnect() returns (out: seq<Packet>)
      requires Valid()
      modifies Repr()
      ensures Valid()
      ensures (View(), out) == AfterResend(old(View()))
    {
      active := true;
      var pending := inflight.pending;
      inflight.pending := [];
      out := [];
      ghost var whole := Replay(View(), pending);
      assert pending[0..] == pending && [] + whole.1 == whole.1;
      for i := 0 to |pending|
        invariant Valid() && Replaying(whole, View(), out, pending[i..])
      {
        ReplayingStep(whole, View(), out, pending, i);
        var sent := ResendOne(pending[i]);
        out := out + sent;
      }
      assert pending[|pending|..] == [] && out + [] == out;
    }
  }
}
