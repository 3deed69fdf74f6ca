// Keep-alive over whole runs (MQTT 3.1.1, section 3.1.2.10).
module Keepalive {
  import opened Bytes
  import opened Types
  import opened Wrappers
  import opened PacketIds
  import opened Inflight
  import opened SessionState
  import opened Driver
  import opened SessionInvariant

  predicate Pings(out: Outcome) {
    out == Ok([Send(PingReq)])
  }

  predicate Reconnects(out: Outcome) {
    out == Ok([TriggerReconnect])
  }

  // An event that settles an outstanding PINGREQ: its answer, or a loss or restoration of
  // the connection.
  predicate Settles(e: Event, out: Outcome) {
    (e.Incoming? && e.packet.PingResp?) || e.ConnectionLost? || e.ConnectionRestored?
    || (e.Tick? && Reconnects(out))
  }

  // The two clocks and the flag are touched by no handler but these.
  lemma {:induction false} StepTimers(d: DriverState, e: Event)
    requires Inv(d.session)
    ensures var s, s' := d.session, Step(d, e).0.session;
            && s'.keepAlive == s.keepAlive && Step(d, e).0.cleanSession == d.cleanSession
            && (s'.lastOutgoing == s.lastOutgoing
                || (!e.ConnectionLost? && s'.lastOutgoing == e.now))
            && (s'.lastIncoming == s.lastIncoming
                || (!e.ConnectionLost? && s'.lastIncoming == e.now))
            && (e.Incoming? || e.Submit? ==> s'.active == s.active)
            && (e.Submit? ==> s'.awaitPingresp == s.awaitPingresp)
            && (e.Incoming? ==> s'.awaitPingresp == (s.awaitPingresp && !e.packet.PingResp?))
            && (e.ConnectionLost? || e.ConnectionRestored? ==> !s'.awaitPingresp)
  {
    match e {
      case ConnectionRestored(now) =>
        ReplayKeepsTimers(ReplayStart(d.session, now), d.session.store.pending);
      case Incoming(packet, now) => IncomingTimers(d.session, packet, now);
      case _ =>
    }
  }

  // Every packet sent counts as outgoing activity, every packet received as incoming.
  lemma {:induction false} ActivityIsNoted(d: DriverState, e: Event, packet: Packet)
    requires Inv(d.session) && !e.ConnectionLost?
    ensures Step(d, e).1.Ok? && Send(packet) in Step(d, e).1.value ==> Step(d, e).0.session.lastOutgoing == e.now
    ensures e.Incoming? ==> Step(d, e).0.session.lastIncoming == e.now
  {
    match e {
      case ConnectionRestored(now) =>
        ReplayKeepsTimers(ReplayStart(d.session, now), d.session.store.pending);
      case Incoming(p, now) => IncomingNotes(d.session, p, now, packet);
      case _ =>
    }
  }

  lemma {:induction false} IncomingNotes(s: Session, p: Packet, now: int, packet: Packet)
    requires Inv(s)
    ensures var (s', out) := OnIncoming(s, p, now);
            s'.lastIncoming == now && (out.Ok? && Send(packet) in out.value ==> s'.lastOutgoing == now)
  {
    IncomingTimers(s, p, now);
  }

  lemma {:induction false} IncomingTimers(s: Session, packet: Packet, now: int)
    requires Inv(s)
    ensures var s' := OnIncoming(s, packet, now).0;
            && s'.keepAlive == s.keepAlive && s'.active == s.active
            && (s'.lastOutgoing == s.lastOutgoing || s'.lastOutgoing == now)
            && s'.lastIncoming == now
            && s'.awaitPingresp == (s.awaitPingresp && !packet.PingResp?)
  {
    if packet.PubAck? || packet.PubComp? {
      AckTimers(s, packet, now);
    }
  }

  lemma {:induction false} AckTimers(s: Session, packet: Packet, now: int)
    requires Inv(s) && (packet.PubAck? || packet.PubComp?)
    ensures var s' := OnIncoming(s, packet, now).0;
            && s'.keepAlive == s.keepAlive && s'.active == s.active && s'.awaitPingresp == s.awaitPingresp
            && (s'.lastOutgoing == s.lastOutgoing || s'.lastOutgoing == now) && s'.lastIncoming == now
  {
  }

  lemma {:induction false} ReplayedPacketsAreNoPings(s: Session, ops: seq<Op>)
    requires QueueOk(ops)
    ensures PingReq !in Replay(s, ops).1
    decreases ops
  {
    if ops != [] {
      ReplayedPacketsAreNoPings(ReplayOne(s, ops[0]).0, ops[1..]);
    }
  }

  // A PINGREQ is sent on a tick only, never while one is outstanding, and leaves one
  // outstanding; only a settling event ends that.
  lemma {:induction false} StepPings(d: DriverState, e: Event)
    requires Inv(d.session)
    ensures var (d', out) := Step(d, e);
            && (out.Ok? && Send(PingReq) in out.value ==>
                  e.Tick? && Pings(out) && !d.session.awaitPingresp && d'.session.awaitPingresp)
            && (d.session.awaitPingresp && !Settles(e, out) ==> d'.session.awaitPingresp)
            && (!d.session.awaitPingresp && d'.session.awaitPingresp ==> Pings(out))
  {
    match e {
      case ConnectionRestored(now) =>
        ReplayedPacketsAreNoPings(ReplayStart(d.session, now), d.session.store.pending);
        StepTimers(d, e);
      case Incoming(packet, now) =>
        IncomingTimers(d.session, packet, now);
        IncomingSendsNoPing(d.session, packet, now);
      case Submit(c, now) => StepTimers(d, e);
      case _ =>
    }
  }

  lemma {:induction false} IncomingSendsNoPing(s: Session, packet: Packet, now: int)
    requires Inv(s)
    ensures OnIncoming(s, packet, now).1.Ok? ==> Send(PingReq) !in OnIncoming(s, packet, now).1.value
  {
  }

  // What a tick of an active session does: with a PINGREQ outstanding, reconnect once
  // nothing has been sent for the keep-alive time; with none, send one once nothing has
  // been sent or received for that time; nothing otherwise, or when inactive.
  lemma {:induction false} TickDecides(d: DriverState, now: int)
    requires Inv(d.session)
    ensures var s, out := d.session, Step(d, Tick(now)).1;
            var sentLongAgo := now - s.lastOutgoing >= s.keepAlive || s.keepAlive == 0;
            var heardLongAgo := now - s.lastIncoming >= s.keepAlive || s.keepAlive == 0;
            && (Reconnects(out) <==> s.active && s.awaitPingresp && sentLongAgo)
            && (Pings(out) <==> s.active && !s.awaitPingresp && sentLongAgo && heardLongAgo)
            && (Pings(out) ==> Step(d, Tick(now)).0 == d.(session := s.(awaitPingresp := true, lastOutgoing := now)))
            && (Reconnects(out) ==> Step(d, Tick(now)).0 == Step(d, ConnectionLost(d.cleanSession)).0)
            && (!Reconnects(out) && !Pings(out) ==> out == Ok([]) && Step(d, Tick(now)).0 == d)
  {
    assert Send(PingReq) != TriggerReconnect;
    assert [Send(PingReq)][0] != [TriggerReconnect][0];
  }

  // The session's own tick, before the driver sees it: it notes the PINGREQ itself, and a
  // timeout changes nothing yet.
  lemma {:induction false} SessionTick(s: Session, now: int)
    ensures var (s', r) := AfterTick(s, now);
            match r
            case Ok(Some(packet)) => packet == PingReq && s' == s.(awaitPingresp := true, lastOutgoing := now)
            case Ok(None) => s' == s
            case Err(error) => error == AwaitPingRespTimeout && s' == s
  {
  }

  // A loss, announced or noticed, takes the session down and settles the PINGREQ; the
  // clocks and the keep-alive time stay.
  lemma {:induction false} LossTimers(d: DriverState, clean: bool)
    requires Inv(d.session)
    ensures var (d', out) := Step(d, ConnectionLost(clean));
            && out == Ok([TriggerReconnect]) && d'.cleanSession == d.cleanSession
            && !d'.session.active && !d'.session.awaitPingresp && d'.session.keepAlive == d.session.keepAlive
            && d'.session.lastOutgoing == d.session.lastOutgoing && d'.session.lastIncoming == d.session.lastIncoming
  {
  }

  // A submission touches the outgoing clock, when a packet goes out, and no other.
  lemma {:induction false} SubmissionTimers(d: DriverState, c: Command, now: int)
    requires Inv(d.session)
    ensures var s, s', out := d.session, Step(d, Submit(c, now)).0.session, Step(d, Submit(c, now)).1;
            && out.Ok? && |out.value| <= 1
            && s'.active == s.active && s'.awaitPingresp == s.awaitPingresp && s'.keepAlive == s.keepAlive
            && s'.lastIncoming == s.lastIncoming
            && s'.lastOutgoing == (if out.value != [] then now else s.lastOutgoing)
  {
  }

  // A restoration starts both clocks anew, whatever is queued.
  lemma {:induction false} RestorationTimers(d: DriverState, now: int)
    requires Inv(d.session)
    ensures var s, s' := d.session, Step(d, ConnectionRestored(now)).0.session;
            && s'.active && !s'.awaitPingresp && s'.keepAlive == s.keepAlive
            && s'.lastIncoming == now && s'.lastOutgoing == now
  {
    ReplayKeepsTimers(ReplayStart(d.session, now), d.session.store.pending);
  }

  // So after a restoration no tick does anything before the keep-alive time is over, if
  // nothing else happens.
  lemma {:induction false} QuietAfterRestoration(d: DriverState, now: int, ts: seq<int>)
    requires Inv(d.session) && forall i :: 0 <= i < |ts| ==> now <= ts[i] < now + d.session.keepAlive
    ensures var d1 := Step(d, ConnectionRestored(now)).0;
            && Inv(d1.session) && Run(d1, Ticks(ts)).0 == d1
            && forall i :: 0 <= i < |ts| ==> Run(d1, Ticks(ts)).1[i] == Ok([])
  {
    var d1 := Step(d, ConnectionRestored(now)).0;
    StepKeepsInv(d, ConnectionRestored(now));
    RestorationTimers(d, now);
    EarlyTicks(d1, ts);
  }

  lemma {:induction false} EarlyTicks(d: DriverState, ts: seq<int>)
    requires Inv(d.session)
    requires forall i :: 0 <= i < |ts| ==> 0 <= ts[i] - d.session.lastOutgoing < d.session.keepAlive
    ensures Run(d, Ticks(ts)).0 == d
    ensures forall i :: 0 <= i < |ts| ==> Run(d, Ticks(ts)).1[i] == Ok([])
    decreases ts
  {
    if ts != [] {
      TickDecides(d, ts[0]);
      StepKeepsInv(d, Tick(ts[0]));
      assert Ticks(ts)[1..] == Ticks(ts[1..]);
      EarlyTicks(d, ts[1..]);
      assert Run(d, Ticks(ts)).1 == [Step(d, Tick(ts[0])).1] + Run(d, Ticks(ts[1..])).1;
    }
  }

  ghost predicate SettledBetween(es: seq<Event>, outs: seq<Outcome>, from: nat, to: nat)
    requires |es| == |outs|
  {
    exists k :: from < k < to && k < |es| && Settles(es[k], outs[k])
  }

  // While a PINGREQ is outstanding no other goes out before a settling event.
  lemma {:induction false} NoPingWhileAwaiting(d: DriverState, es: seq<Event>, j: nat)
    requires Inv(d.session) && d.session.awaitPingresp && j < |es| && Pings(Run(d, es).1[j])
    ensures exists k :: 0 <= k < j && Settles(es[k], Run(d, es).1[k])
    decreases es
  {
    StepKeepsInv(d, es[0]);
    var (d1, out) := Step(d, es[0]);
    var outs := Run(d, es).1;
    assert outs == [out] + Run(d1, es[1..]).1;
    assert Pings(out) ==> Send(PingReq) in out.value;
    StepPings(d, es[0]);
    if j == 0 {
      assert false;
    } else if Settles(es[0], out) {
      assert Settles(es[0], outs[0]);
    } else {
      NoPingWhileAwaiting(d1, es[1..], j - 1);
      var k :| 0 <= k < j - 1 && Settles(es[1..][k], Run(d1, es[1..]).1[k]);
      assert Settles(es[k + 1], outs[k + 1]);
    }
  }

  // Between any two PINGREQs of a run there is a PINGRESP, a loss or a restoration.
  lemma {:induction false} NeverTwoPings(d: DriverState, es: seq<Event>, i: nat, j: nat)
    requires Inv(d.session) && i < j < |es|
    requires Pings(Run(d, es).1[i]) && Pings(Run(d, es).1[j])
    ensures SettledBetween(es, Run(d, es).1, i, j)
    decreases es
  {
    StepKeepsInv(d, es[0]);
    var (d1, out) := Step(d, es[0]);
    var outs := Run(d, es).1;
    assert outs == [out] + Run(d1, es[1..]).1;
    if i == 0 {
      StepPings(d, es[0]);
      assert out.value[0] == Send(PingReq);
      NoPingWhileAwaiting(d1, es[1..], j - 1);
      var k :| 0 <= k < j - 1 && Settles(es[1..][k], Run(d1, es[1..]).1[k]);
      assert Settles(es[k + 1], outs[k + 1]);
    } else {
      NeverTwoPings(d1, es[1..], i - 1, j - 1);
      var k :| i - 1 < k < j - 1 && k < |es[1..]| && Settles(es[1..][k], Run(d1, es[1..]).1[k]);
      assert Settles(es[k + 1], outs[k + 1]);
    }
  }

  // ---------- reconnects are deserved ----------

  // The events' clock readings never decrease (losses carry none).
  ghost predicate ClockRuns(es: seq<Event>, from: int)
    decreases es
  {
    es == [] || (if es[0].ConnectionLost? then ClockRuns(es[1..], from)
                 else from <= es[0].now && ClockRuns(es[1..], es[0].now))
  }

  // The outstanding PINGREQ, by when it was sent, after an event.
  function Outstanding(ping: Option<int>, e: Event, out: Outcome): Option<int> {
    if e.Tick? && Pings(out) then Some(e.now)
    else if Settles(e, out) then None
    else ping
  }

  // If waiting, then for the PINGREQ of that time, which is no later than the last
  // outgoing activity; and no activity is later than the clock.
  ghost predicate TimersOk(s: Session, ping: Option<int>, clock: int) {
    && s.lastOutgoing <= clock && s.lastIncoming <= clock
    && (s.awaitPingresp ==> ping.Some? && ping.value <= s.lastOutgoing)
  }

  lemma {:induction false} StepTimersOk(d: DriverState, e: Event, ping: Option<int>, clock: int)
    requires Inv(d.session) && TimersOk(d.session, ping, clock)
    requires !e.ConnectionLost? ==> clock <= e.now
    ensures var (d', out) := Step(d, e);
            && TimersOk(d'.session, Outstanding(ping, e, out), if e.ConnectionLost? then clock else e.now)
            && (e.Tick? && Reconnects(out) ==> ping.Some? && e.now - ping.value >= d.session.keepAlive)
  {
    StepTimers(d, e);
    StepPings(d, e);
    if e.Tick? && Pings(Step(d, e).1) {
      assert Step(d, e).1.value[0] == Send(PingReq);
    }
  }

  // Every tick of a run that triggers a reconnect finds a PINGREQ of the run (or the one
  // outstanding at its start) unanswered for at least the keep-alive time.
  ghost predicate ReconnectsDeserved(d: DriverState, es: seq<Event>, ping: Option<int>)
    requires Inv(d.session)
    decreases es
  {
    es == [] ||
    (StepKeepsInv(d, es[0]);
     var (d1, out) := Step(d, es[0]);
     (es[0].Tick? && Reconnects(out) ==> ping.Some? && es[0].now - ping.value >= d.session.keepAlive)
     && ReconnectsDeserved(d1, es[1..], Outstanding(ping, es[0], out)))
  }

  lemma {:induction false} ReconnectNeedsSilence(d: DriverState, es: seq<Event>, ping: Option<int>, clock: int)
    requires Inv(d.session) && TimersOk(d.session, ping, clock) && ClockRuns(es, clock)
    ensures ReconnectsDeserved(d, es, ping)
    decreases es
  {
    if es != [] {
      StepKeepsInv(d, es[0]);
      StepTimersOk(d, es[0], ping, clock);
      var (d1, out) := Step(d, es[0]);
      ReconnectNeedsSilence(d1, es[1..], Outstanding(ping, es[0], out),
                            if es[0].ConnectionLost? then clock else es[0].now);
    }
  }

  // ---------- a dead connection is noticed ----------

  function Ticks(ts: seq<int>): seq<Event> {
    seq(|ts|, i requires 0 <= i < |ts| => Tick(ts[i]))
  }

  // Clock readings at most d apart, the first at most d after `from`.
  ghost predicate Paced(ts: seq<int>, from: int, d: nat) {
    ts == [] || (from <= ts[0] <= from + d && Paced(ts[1..], ts[0], d))
  }

  function EndOf(ts: seq<int>, from: int): int {
    if ts == [] then from else ts[|ts| - 1]
  }

  // Some tick no later than the deadline triggers a reconnect.
  ghost predicate ReconnectBy(ds: DriverState, ts: seq<int>, deadline: int)
    requires Inv(ds.session)
  {
    exists k :: 0 <= k < |ts| && ts[k] <= deadline && Reconnects(Run(ds, Ticks(ts)).1[k])
  }

  lemma {:induction false} ReconnectLater(ds: DriverState, ts: seq<int>, deadline: int)
    requires Inv(ds.session) && ts != [] && Inv(Step(ds, Tick(ts[0])).0.session)
    requires ReconnectBy(Step(ds, Tick(ts[0])).0, ts[1..], deadline)
    ensures ReconnectBy(ds, ts, deadline)
  {
    var (d1, out) := Step(ds, Tick(ts[0]));
    assert Ticks(ts)[1..] == Ticks(ts[1..]);
    assert Run(ds, Ticks(ts)).1 == [out] + Run(d1, Ticks(ts[1..])).1;
    var k :| 0 <= k < |ts[1..]| && ts[1..][k] <= deadline && Reconnects(Run(d1, Ticks(ts[1..])).1[k]);
    assert Reconnects(Run(ds, Ticks(ts)).1[k + 1]) && ts[k + 1] <= deadline;
  }

  // Waiting for a PINGRESP: the timeout fires within keepAlive + d of the last send.
  lemma {:induction false} TimeoutFires(ds: DriverState, ts: seq<int>, from: int, d: nat)
    requires Inv(ds.session) && ds.session.active && ds.session.awaitPingresp
    requires Paced(ts, from, d) && ds.session.lastOutgoing <= from
    requires from < ds.session.lastOutgoing + ds.session.keepAlive || from == ds.session.lastOutgoing
    requires EndOf(ts, from) > ds.session.lastOutgoing + ds.session.keepAlive
    ensures ReconnectBy(ds, ts, ds.session.lastOutgoing + ds.session.keepAlive + d)
    decreases ts
  {
    var e := Tick(ts[0]);
    StepKeepsInv(ds, e);
    var (d1, out) := Step(ds, e);
    if Reconnects(out) {
      assert Reconnects(Run(ds, Ticks(ts)).1[0]);
    } else {
      assert d1 == ds;
      TimeoutFires(d1, ts[1..], ts[0], d);
      ReconnectLater(ds, ts, ds.session.lastOutgoing + ds.session.keepAlive + d);
    }
  }

  // With no traffic but ticks at most d apart that go on for long enough, a reconnect is
  // triggered within 2 * keepAlive + 2 * d of the last activity, whether or not a PINGREQ
  // is outstanding to begin with.
  lemma {:induction false} SilenceReconnects(ds: DriverState, ts: seq<int>, from: int, d: nat)
    requires Inv(ds.session) && ds.session.active
    requires var last := Max(ds.session.lastIncoming, ds.session.lastOutgoing);
             && Paced(ts, from, d)
             && last <= from && (from < last + ds.session.keepAlive || from == last)
             && EndOf(ts, from) > last + 2 * ds.session.keepAlive + d
    ensures ReconnectBy(ds, ts,
              Max(ds.session.lastIncoming, ds.session.lastOutgoing) + 2 * ds.session.keepAlive + 2 * d)
    decreases ts
  {
    var last, ka := Max(ds.session.lastIncoming, ds.session.lastOutgoing), ds.session.keepAlive;
    var e := Tick(ts[0]);
    StepKeepsInv(ds, e);
    var (d1, out) := Step(ds, e);
    if Reconnects(out) {
      assert Reconnects(Run(ds, Ticks(ts)).1[0]);
      return;
    } else if ds.session.awaitPingresp {
      TimeoutFires(ds, ts, from, d);
      return;
    } else if Pings(out) {
      TimeoutFires(d1, ts[1..], ts[0], d);
      var k :| 0 <= k < |ts[1..]| && ts[1..][k] <= ts[0] + ka + d && Reconnects(Run(d1, Ticks(ts[1..])).1[k]);
      assert ts[1..][k] <= last + 2 * ka + 2 * d;
    } else {
      assert d1 == ds;
      SilenceReconnects(d1, ts[1..], ts[0], d);
    }
    ReconnectLater(ds, ts, last + 2 * ka + 2 * d);
  }

  // ---------- a client that keeps sending notices nothing ----------

  predicate Qos0Publish(c: Command) {
    c.Publish? && c.publish.qos == AtMostOnce
  }

  // QoS 0 publishes and ticks, each tick less than the keep-alive time after the last
  // publish; nothing from the broker.
  ghost predicate KeepsSending(es: seq<Event>, last: int, keepAlive: nat)
    decreases es
  {
    es == [] ||
    match es[0]
    case Tick(now) => Since(now, last) < keepAlive && KeepsSending(es[1..], last, keepAlive)
    case Submit(c, now) => Qos0Publish(c) && KeepsSending(es[1..], now, keepAlive)
    case _ => false
  }

  // Then every publish goes out and no tick does anything, whether or not a PINGREQ is
  // outstanding and however long the broker has been silent.
  lemma {:induction false} BusyClientNeverPings(d: DriverState, es: seq<Event>)
    requires Inv(d.session) && d.session.active
    requires KeepsSending(es, d.session.lastOutgoing, d.session.keepAlive)
    ensures forall i :: 0 <= i < |es| ==>
              Run(d, es).1[i] == Ok(if es[i].Submit? then [Send(PacketOf(es[i].command))] else [])
    ensures var s' := Run(d, es).0.session;
            s' == d.session.(lastOutgoing := s'.lastOutgoing)
    decreases es
  {
    if es != [] {
      StepKeepsInv(d, es[0]);
      var (d1, out) := Step(d, es[0]);
      BusyStep(d, es[0]);
      BusyClientNeverPings(d1, es[1..]);
      var outs := Run(d1, es[1..]).1;
      assert Run(d, es).1 == [out] + outs;
      forall i | 0 <= i < |es|
        ensures Run(d, es).1[i] == Ok(if es[i].Submit? then [Send(PacketOf(es[i].command))] else [])
      {
        if i > 0 {
          assert es[i] == es[1..][i - 1] && Run(d, es).1[i] == outs[i - 1];
        }
      }
    }
  }

  lemma {:induction false} BusyStep(d: DriverState, e: Event)
    requires Inv(d.session) && d.session.active
    requires (e.Tick? && Since(e.now, d.session.lastOutgoing) < d.session.keepAlive)
             || (e.Submit? && Qos0Publish(e.command))
    ensures Step(d, e) == if e.Tick? then (d, Ok([]))
                          else (d.(session := d.session.(lastOutgoing := e.now)), Ok([Send(PacketOf(e.command))]))
  {
  }

  // n rounds of a publish and a tick, g apart.
  function Rounds(c: Command, t: int, g: nat, n: nat): seq<Event>
    decreases n
  {
    if n == 0 then [] else [Submit(c, t), Tick(t + g)] + Rounds(c, t + g, g, n - 1)
  }

  lemma {:induction false} RoundsKeepSending(c: Command, t: int, g: nat, n: nat, last: int, keepAlive: nat)
    requires Qos0Publish(c) && g < keepAlive
    ensures KeepsSending(Rounds(c, t, g, n), last, keepAlive)
    ensures |Rounds(c, t, g, n)| == 2 * n
    ensures n > 0 ==> Rounds(c, t, g, n)[2 * n - 1] == Tick(t + n * g)
    decreases n
  {
    if n > 0 {
      var es, rest := Rounds(c, t, g, n), Rounds(c, t + g, g, n - 1);
      assert (t + g) + (n - 1) * g == t + n * g;
      RoundsKeepSending(c, t + g, g, n - 1, t, keepAlive);
      assert es[0] == Submit(c, t) && es[1..][0] == Tick(t + g) && es[1..][1..] == rest;
      assert KeepsSending(es[1..], t, keepAlive);
    }
  }

  // So a dead connection can stay unnoticed for any length of time.
  lemma {:induction false} SilenceUnnoticed(d: DriverState, c: Command, t: int, g: nat, n: nat)
    requires Inv(d.session) && d.session.active && Qos0Publish(c) && g < d.session.keepAlive
    ensures var es := Rounds(c, t, g, n);
            && |es| == 2 * n && (n > 0 ==> es[2 * n - 1] == Tick(t + n * g))
            && (forall i :: 0 <= i < |es| ==> !Pings(Run(d, es).1[i]) && !Reconnects(Run(d, es).1[i]))
            && Run(d, es).0.session.active && Run(d, es).0.session.lastIncoming == d.session.lastIncoming
  {
    var es := Rounds(c, t, g, n);
    RoundsKeepSending(c, t, g, n, d.session.lastOutgoing, d.session.keepAlive);
    BusyClientNeverPings(d, es);
    forall i | 0 <= i < |es|
      ensures !Pings(Run(d, es).1[i]) && !Reconnects(Run(d, es).1[i])
    {
      BusyIsNotPing(es, i, d.session.lastOutgoing, d.session.keepAlive);
    }
  }

  lemma {:induction false} BusyIsNotPing(es: seq<Event>, i: nat, last: int, keepAlive: nat)
    requires i < |es| && KeepsSending(es, last, keepAlive)
    ensures es[i].Submit? ==> PacketOf(es[i].command).Publish?
    decreases es
  {
    if i > 0 {
      BusyIsNotPing(es[1..], i - 1, if es[0].Submit? then es[0].now else last, keepAlive);
    }
  }
}
