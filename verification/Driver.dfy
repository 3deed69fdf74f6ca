// Event dispatch (src/runtime/driver.rs): one event in, new state and actions out.
module Driver {
  import opened Bytes
  import opened Types
  import opened Wrappers
  import opened Inflight
  import opened SessionState

  // A Submit carries the clock reading its handler takes.
  datatype Event =
    | Tick(now: int)
    | Submit(command: Command, now: int)
    | Incoming(packet: Packet, now: int)
    | ConnectionLost(cleanSession: bool)
    | ConnectionRestored(now: int)

  datatype Action =
    | Send(packet: Packet)
    | TriggerReconnect
    | CompleteFor(clientId: nat, completion: Completion)
    | SubscribeAckFor(clientId: nat, filters: seq<Filter>, completion: Completion)
    | UnsubscribeAckFor(clientId: nat, topics: seq<Text>, completion: Completion)

  // The values of a RuntimeDriver's fields.
  datatype DriverState = DriverState(session: Session, cleanSession: bool)

  type Outcome = Reply<seq<Action>>

  function Sends(packets: seq<Packet>): seq<Action> {
    seq(|packets|, i requires 0 <= i < |packets| => Send(packets[i]))
  }

  // Replying to the broker counts as outgoing activity.
  function Sending(s: Session, now: int, packet: Packet): (Session, Outcome) {
    (s.(lastOutgoing := now), Ok([Send(packet)]))
  }

  function Acked(s: Session, now: int, ack: Reply<AckResult>): (Session, Outcome) {
    match ack
    case Err(e) => (s, Err(e))
    case Ok(AckResult(client, completion, None)) => (s, Ok([CompleteFor(client, completion)]))
    case Ok(AckResult(client, completion, Some(next))) =>
      (s.(lastOutgoing := now), Ok([CompleteFor(client, completion), Send(next)]))
  }

  function Answered(s: Session, now: int, answer: Reply<Packet>): (Session, Outcome) {
    match answer
    case Err(e) => (s, Err(e))
    case Ok(packet) => Sending(s, now, packet)
  }

  function OnTick(d: DriverState, now: int): (Session, Outcome) {
    match AfterTick(d.session, now)
    case (s, Ok(Some(ping))) => Sending(s, now, ping)
    case (s, Ok(None)) => (s, Ok([]))
    case (s, Err(_)) => (AfterLoss(s, d.cleanSession), Ok([TriggerReconnect]))
  }

  function OnSubmit(s: Session, c: Command, now: int): (Session, Outcome) {
    if !Trackable(c) then (s, Ok([]))
    else
      match AfterCommand(s, c)
      case (s', Some(packet)) => Sending(s', now, packet)
      case (s', None) => (s', Ok([]))
  }

  function OnIncoming(s: Session, packet: Packet, now: int): (Session, Outcome)
    requires ValidStore(s.store)
  {
    var s := s.(lastIncoming := now);
    match packet
    case PingResp => (s.(awaitPingresp := false), Ok([]))
    case PubAck(pkid) =>
      var (s', r) := AfterPubAck(s, pkid);
      Acked(s', now, r)
    case PubRec(pkid) =>
      var (s', r) := AfterPubRec(s, pkid);
      Answered(s', now, r)
    case PubComp(pkid) =>
      var (s', r) := AfterPubComp(s, pkid);
      Acked(s', now, r)
    case Publish(p) =>
      if p.qos != ExactlyOnce then (s, Ok([]))
      else
        (match AfterIncomingQos2(s, p.pkid)
         case (s', Ok(seen)) => Sending(s', now, seen.pubrec)
         case (s', Err(e)) => (s', Err(e)))
    case PubRel(pkid) =>
      var (s', r) := AfterPubRel(s, pkid);
      Answered(s', now, r)
    case SubAck(p) =>
      (match AfterSubAck(s, p.pkid)
       case (s', Ok(ack)) => (s', Ok([SubscribeAckFor(ack.clientId, ack.filters, ack.completion)]))
       case (s', Err(e)) => (s', Err(e)))
    case UnsubAck(pkid) =>
      (match AfterUnsubAck(s, pkid)
       case (s', Ok(ack)) => (s', Ok([UnsubscribeAckFor(ack.clientId, ack.filters, ack.completion)]))
       case (s', Err(e)) => (s', Err(e)))
    case _ => (s, Ok([]))
  }

  function Awake(s: Session, now: int): Session {
    s.(active := true, awaitPingresp := false, lastIncoming := now, lastOutgoing := now)
  }

  // Where the replay of the backlog starts.
  function ReplayStart(s: Session, now: int): Session {
    Awake(s, now).(store := s.store.(pending := []))
  }

  function OnRestored(s: Session, now: int): (Session, Outcome) {
    var (s', sent) := AfterResend(Awake(s, now));
    (s', Ok(Sends(sent)))
  }

  function Handle(d: DriverState, e: Event): (Session, Outcome)
    requires ValidStore(d.session.store)
  {
    match e
    case Tick(now) => OnTick(d, now)
    case Submit(c, now) => OnSubmit(d.session, c, now)
    case Incoming(packet, now) => OnIncoming(d.session, packet, now)
    case ConnectionLost(clean) => (AfterLoss(d.session, clean), Ok([TriggerReconnect]))
    case ConnectionRestored(now) => OnRestored(d.session, now)
  }

  // The step relation whose runs the theorems speak of.
  function Step(d: DriverState, e: Event): (DriverState, Outcome)
    requires ValidStore(d.session.store)
  {
    var (s, out) := Handle(d, e);
    (d.(session := s), out)
  }

  class RuntimeDriver {
    const state: RuntimeState
    const cleanSession: bool

    ghost function Repr(): set<object> {
      state.Repr()
    }

    ghost predicate Valid()
      reads Repr()
    {
      state.Valid()
    }

    ghost function View(): DriverState
      reads Repr()
    {
      DriverState(state.View(), cleanSession)
    }

    constructor (state: RuntimeState, cleanSession: bool)
      requires state.Valid()
      ensures Valid() && this.state == state && this.cleanSession == cleanSession
      ensures View() == DriverState(old(state.View()), cleanSession)
    {
      this.state := state;
      this.cleanSession := cleanSession;
    }

    method HandleTick(now: int) returns (r: Outcome)
      requires Valid()
      modifies Repr()
      ensures Valid()
      ensures (View().session, r) == OnTick(old(View()), now)
    {
      var t := state.OnTick(now);
      match t {
        case Ok(Some(packet)) =>
          state.lastOutgoing := now;
          return Ok([Send(packet)]);
        case Ok(None) =>
          return Ok([]);
        case Err(_) =>
          state.OnConnectionLost(cleanSession);
          return Ok([TriggerReconnect]);
      }
    }

    method HandleCommand(c: Command, now: int) returns (r: Outcome)
      requires Valid()
      modifies Repr()
      ensures Valid()
      ensures (View().session, r) == OnSubmit(old(View().session), c, now)
    {
      var sent: Reply<Option<Packet>>;
      match c {
        case Publish(_, _, _) => sent := state.OnCommandPublish(c);
        case Subscribe(_, _, _) => sent := state.OnCommandSubscribe(c);
        case Unsubscribe(_, _, _) => sent := state.OnCommandUnsubscribe(c);
        case _ => return Ok([]);
      }
      r := EmitSent(sent, now);
    }

    method EmitSent(sent: Reply<Option<Packet>>, now: int) returns (r: Outcome)
      requires Valid()
      modifies state
      ensures Valid()
      ensures View() == old(View()).(session := View().session)
      ensures sent == Ok(None) ==> View() == old(View()) && r == Ok([])
      ensures sent.Ok? && sent.value.Some? ==>
                (View().session, r) == Sending(old(View().session), now, sent.value.value)
      ensures sent.Err? ==> View() == old(View()) && r == Err(sent.error)
    {
      var packet :- sent;
      if packet.None? {
        return Ok([]);
      }
      state.lastOutgoing := now;
      return Ok([Send(packet.value)]);
    }

    method HandleIncoming(packet: Packet, now: int) returns (r: Outcome)
      requires Valid()
      modifies Repr()
      ensures Valid()
      ensures (View().session, r) == OnIncoming(old(View().session), packet, now)
    {
      state.lastIncoming := now;
      match packet {
        case PingResp =>
          state.OnPingResp(now);
          return Ok([]);
        case PubAck(pkid) =>
          var ack :- state.OnPubAckChecked(pkid);
          r := EmitAck(ack, now);
        case PubComp(pkid) =>
          var ack :- state.OnPubCompChecked(pkid);
          r := EmitAck(ack, now);
        case PubRec(pkid) =>
          var rel :- state.OnPubRecChecked(pkid);
          r := EmitReply(rel, now);
        case Publish(p) =>
          if p.qos != ExactlyOnce {
            return Ok([]);
          }
          var seen :- state.OnIncomingQos2PublishChecked(p.pkid);
          r := EmitReply(seen.pubrec, now);
        case PubRel(pkid) =>
          var comp :- state.OnIncomingPubRelChecked(pkid);
          r := EmitReply(comp, now);
        case SubAck(p) =>
          var ack :- state.OnSubAckChecked(p.pkid);
          return Ok([SubscribeAckFor(ack.clientId, ack.filters, ack.completion)]);
        case UnsubAck(pkid) =>
          var ack :- state.OnUnsubAckChecked(pkid);
          return Ok([UnsubscribeAckFor(ack.clientId, ack.filters, ack.completion)]);
        case _ =>
          return Ok([]);
      }
    }

    method EmitReply(packet: Packet, now: int) returns (r: Outcome)
      requires Valid()
      modifies state
      ensures Valid()
      ensures (View().session, r) == Sending(old(View().session), now, packet)
    {
      state.lastOutgoing := now;
      return Ok([Send(packet)]);
    }

    // The completion, then the packet promoted from the park, if any.
    method EmitAck(ack: AckResult, now: int) returns (r: Outcome)
      requires Valid()
      modifies state
      ensures Valid()
      ensures (View().session, r) == Acked(old(View().session), now, Ok(ack))
    {
      var out := [CompleteFor(ack.clientId, ack.completion)];
      if ack.nextPacket.Some? {
        state.lastOutgoing := now;
        out := out + [Send(ack.nextPacket.value)];
        assert out == [CompleteFor(ack.clientId, ack.completion), Send(ack.nextPacket.value)];
      }
      return Ok(out);
    }

    method HandleRestored(now: int) returns (r: Outcome)
      requires Valid()
      modifies Repr()
      ensures Valid()
      ensures (View().session, r) == OnRestored(old(View().session), now)
    {
      state.active := true;
      state.awaitPingresp := false;
      state.lastIncoming := now;
      state.lastOutgoing := now;
      var sent := state.ResendPendingOnReconnect();
      ReplayKeepsClock(Awake(old(View().session), now));
      var out := [];
      for i := 0 to |sent|
        invariant out == Sends(sent[..i])
        invariant View() == old(View()).(session := OnRestored(old(View().session), now).0)
        invariant Valid()
        modifies state
      {
        state.lastOutgoing := now;
        out := out + [Send(sent[i])];
      }
      assert sent[..|sent|] == sent;
      return Ok(out);
    }

    method HandleEvent(e: Event) returns (r: Outcome)
      requires Valid()
      modifies Repr()
      ensures Valid()
      ensures (View(), r) == Step(old(View()), e)
    {
      match e {
        case Tick(now) => r := HandleTick(now);
        case Submit(c, now) => r := HandleCommand(c, now);
        case Incoming(packet, now) => r := HandleIncoming(packet, now);
        case ConnectionLost(clean) =>
          state.OnConnectionLost(clean);
          r := Ok([TriggerReconnect]);
        case ConnectionRestored(now) => r := HandleRestored(now);
      }
    }
  }

  lemma {:induction false} ReplayKeepsClock(s: Session)
    ensures AfterResend(s).0.lastOutgoing == s.lastOutgoing
  {
    ReplayKeepsTimers(s.(active := true, store := s.store.(pending := [])), s.store.pending);
  }

  // Replay touches the store and the id pool only.
  lemma {:induction false} ReplayKeepsTimers(s: Session, ops: seq<Op>)
    ensures var s' := Replay(s, ops).0;
            s'.(store := s.store, pool := s.pool) == s
    decreases ops
  {
    if ops != [] {
      ReplayKeepsTimers(ReplayOne(s, ops[0]).0, ops[1..]);
    }
  }
}
