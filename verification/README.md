# A verified model of the MQTT 3.1.1 client runtime

This project models the core of the MQTT 3.1.1 client in Dafny and proves what it promises over whole runs:
the session state machine with its in-flight store, the wire codec, the incremental frame parser, and the topic
router with the task that drives it. `dafny verify dfyconfig.toml` checks everything.

Each stateful component appears twice. Its transitions are functions on immutable values (`Session`, `Store`,
`Pool`, routing entries, byte strings), about which the theorems are proved; and a class with the same fields
carries them out in place, each method proved to move the class's `View()` exactly as the function says. Runs are
lists of driver or task events, in any order, with arbitrary packets from the broker unless a theorem restricts it.

| file | what it holds |
|---|---|
| `Wrappers.dfy`, `Types.dfy`, `Utf8.dfy` | options and results; bytes, packets and commands; text as the encodings of scalar values |
| `PacketIds.dfy`, `Inflight.dfy` | packet-id candidates; the slot table, the park, the pending queue |
| `SessionState.dfy`, `Driver.dfy` | the session's transitions; event dispatch |
| `SessionInvariant.dfy` | the invariant every event keeps, and runs |
| `Conservation.dfy`, `ReplayLosses.dfy`, `RunConservation.dfy`, `LossWitnesses.dfy` | where every accepted command goes; exactly when, and how many, are lost; two runs that lose one |
| `Collision.dfy`, `Reconnect.dfy`, `OfflineBacklog.dfy` | promotion of a parked op; loss and replay; commands given offline, and the queue |
| `CommandsOnWire.dfy`, `Outcomes.dfy` | what commands put on the wire and where they go; what each packet from the broker does |
| `SlotsAndWire.dfy`, `DupFlags.dfy`, `Encodability.dfy` | slots against packets sent; which publishes carry DUP; what can be encoded |
| `Qos2Sender.dfy`, `Qos2Exchanges.dfy` | QoS 2 phases, by id, and by op across losses; which op holds each slot after a reconnect |
| `ResendOrder.dfy`, `Progress.dfy` | the order of resends; acknowledgements and reconnects settle everything held |
| `Keepalive.dfy` | PINGREQ, reconnects, and silence that goes unnoticed |
| `Router.dfy`, `Task.dfy`, `TaskRuns.dfy`, `TaskReports.dfy`, `TurnEffects.dfy` | topic matching and the subscription table; the task; exactly-once delivery and routes; what clients are told; the order of effects and the refusals of a turn |
| `HostedTask.dfy`, `TaskWitnesses.dfy` | the task as the host starts it; runs of an active one |
| `Primitives.dfy`, `PacketCodec.dfy`, `CodecProofs.dfy`, `WireLayout.dfy`, `PacketIO.dfy`, `Stream.dfy` | the codec on values, its proofs, the layout of every frame in arithmetic, the encoders and decoders in place, the frame parser |

## Results that are not what one would expect

* An accepted command can be lost, silently. The park for an op whose packet id is taken holds one op: a second
  collision overwrites it, and an op that finds the table full while another is parked is dropped
  (`src/runtime/inflight.rs:55-57`, `src/runtime/state.rs:283`). It happens to ids the runtime assigned itself.
  `OfflinePublishLost`: with a table of max >= 3, max + 2 publishes given offline, a connection, a loss and a
  restoration lose the first publish. `OnlinePublishLost`: max publishes, a PUBACK for the second, and three more
  lose the last. `LosslessIff` gives the guard of every losing event. For a restoration it speaks of the packet ids of
  the backlog only: an id repeats while another has not occurred yet, and a later op has an id that has occurred or
  that the table lacks. A SUBACK or UNSUBACK for a slot of another kind loses that slot's op. Nothing else loses
  anything, and nothing is ever duplicated.
* An op queued while the connection is up, because the table is full, waits for the next restoration, however many
  slots acknowledgements free before it (`QueuedWaits`).
* A SUBACK or UNSUBACK releases its slot without promoting an op parked on it: `StepStrandsIff` says exactly when a
  parked op is left waiting for a slot that is empty.
* A loss that keeps the session keeps the sender's QoS 2 flags while the slots are refilled from the queue first. An
  exchange open on p survives if and only if no other queued op has id p (`ReconnectKeepsExchangeIff`); otherwise its
  PUBCOMP completes an op for which no PUBREC came (`StaleFlagCompletesAnother`).
* The task that `RuntimeHost::new` starts (`src/runtime/host.rs:30-43`) is inactive, and nothing activates it: only a
  reconnect does, and only an active session reconnects. `HostedTaskNeverSends`: in every run it writes PUBACK, PUBREC
  and PUBCOMP and nothing else, every command stays queued, and no client hears of one. The theorems about task runs
  therefore start from any task, such as one made active beforehand (`src/runtime/task.rs:366-367`);
  `SubscriptionTakesEffect` and `ReportedAfterReplay` are runs of such a task.
* A tick looks for silence only when nothing has been sent for the keep-alive time, so a client that keeps sending QoS 0
  publishes never notices a dead connection (`SilenceUnnoticed`).
* A reconnect sends queued ops before those in flight, and these by ascending id. `ResendsInOrderIff` says when that is
  the order in which they were sent, as section 4.6 of MQTT 3.1.1 asks; `LastIsResentFirst` shows that it need not be.
* DUP is set on every QoS 1 and QoS 2 publish that does not leave in the event of its submission, sent before or not
  (`RunDup`), so a first delivery may carry it (`FirstDeliveryWithDup`), against section 3.3.1.1 of MQTT 3.1.1.
* A command that cannot be encoded is accepted, and its packet fails when it is sent, which ends the task. `RunEncodes`
  and `SubmitEncodesIff` say which commands those are: a QoS 0 publish with a packet id, a list of no topics, a body
  over the maximum length.
* The encoder writes the length of a string cut down to 16 bits and the string in full. `DecodeEncode` shows that
  decoding gives the packet back if and only if every length-prefixed field is at most 65535 bytes long.
* `docs/runtime/driver.md` describes a driver that routes publish commands only; the code also routes subscribe and
  unsubscribe, and the model follows the code.

## Reading the model

* Packet ids are 16-bit and `next_candidate`'s addition wraps. Times are integers on one clock, and
  `Instant::duration_since` saturates at zero. The driver's own `Instant::now()` reading for a command is part of
  the event. A turn of the task takes one reading.
* Bytes are integers from 0 to 255 and bit operations are written as arithmetic (`flags / 8 % 4` for bits 3 and 4).
  Strings are byte sequences that satisfy the UTF-8 predicate of RFC 3629.
* Two ops count as the same if their commands agree up to packet id and DUP, which the runtime itself sets (`Core`).
  Counts are taken relative to an arbitrary test on such cores. Since a theorem holds for every test, it says that
  multisets are equal; for the test `IssuedBy(client, token)` it speaks of one client's token.
* Effects on transport and client mailboxes are an append-only list (`Task.Effect`). Whether the n-th of them finds
  its receiver is a function given to the task from outside; a packet must encode as well.

## Model

| member | source | states |
|---|---|---|
| `RunConservation.RunConserves` | src/runtime/state.rs:89-551 | in every run, whatever the broker sends: commands accepted, with what was held before, are held, completed, sent at QoS 0 or lost, each exactly once |
| `Conservation.StepConserves` | src/runtime/driver.rs:50-199 | the same for one event, with the account of that event given by the slots, flags and queue it meets |
| `RunConservation.LosslessIff` | src/runtime/inflight.rs:48-68 | an event conserves every command if and only if it meets none of the losing guards: a submission that finds no place while another op is parked, a SUBACK/UNSUBACK for a slot of another kind, or a restoration whose backlog has a losing turn: an op whose id is taken, or outside the table, with the park in use from before or by an earlier turn |
| `RunConservation.RestoringLosesIff` | src/runtime/state.rs:398-521 | after any run of a fresh session, if the connection is down: restoring it loses an op if and only if, among the ids of the queued ops that need a slot, one within the table repeats while some id has not occurred, and a later one has occurred or lies outside the table |
| `RunConservation.ReconnectLosesIff` | src/runtime/state.rs:153-175 | the same for the restoration after a loss, read off the queue, the slots by ascending id and the parked op |
| `ReplayLosses.ReplayLosesIff` | src/runtime/state.rs:398-521 | a replay from any table loses an op if and only if its backlog has a losing turn |
| `RunConservation.LossesCounted` | src/runtime/state.rs:398-521 | how many ops an event loses: a replay one at each losing turn of its backlog, any other event one if it meets its guard |
| `LossWitnesses.OfflinePublishLost` | src/runtime/state.rs:398-521 | for any table of at least three and any max + 2 QoS 1 publishes without ids: given offline, then connection, loss and restoration; the first publish is lost |
| `LossWitnesses.OnlinePublishLost` | src/runtime/state.rs:377-395 | for any table of at least three: connection, max QoS 1 publishes, a PUBACK for the second, three more publishes; the last one is lost, and it alone |
| `RunConservation.ThirdOnSameIdLosesSecond` | src/runtime/inflight.rs:54-58 | of three commands on one free id the first takes the slot, the second is parked, the third takes the park and the second is lost |
| `RunConservation.CompletionsAreReported` | src/runtime/driver.rs:113-179 | each op completed is reported once, under its command's token, to the client that issued it; nothing else is reported |
| `RunConservation.AtMostOnceToOwner` | src/runtime/driver.rs:50-199 | from a fresh session, through any collisions, losses and replays: completions a client gets under a token, plus ops of that token still held, never exceed the commands it issued under it |
| `Progress.AckTableCompletes` | src/runtime/state.rs:89-129 | with nothing parked, acknowledging every slot by its kind completes every op of the table, by ascending id, empties it, and touches nothing else |
| `Progress.CanFinish` | src/runtime/state.rs:398-550 | from any state whose queued ids lie within the table there are acknowledgements by kind and reconnects after which nothing is held; each op held is then completed, sent at QoS 0 or lost |
| `Progress.AnyRunCanFinish` | src/runtime/state.rs:398-550 | so it is after any run of a fresh session whose commands leave their ids to the runtime |
| `RunConservation.Qos0AreSent` | src/runtime/state.rs:377-396 | the QoS 0 publishes among an event's packets are exactly the ops it settles that way |
| `SessionInvariant.StepKeepsInv` | src/runtime/driver.rs:50-199 | every event keeps the session invariant |
| `SessionInvariant.StoreAfterAnyRun` | src/runtime/inflight.rs:23-77 | after any run of a fresh session: inflight counts the occupied slots, at most the maximum; slot 0 is empty; slot i holds a tracked op whose command and packet carry id i and whose token and client are the command's; a parked op likewise, on an id from 1 to the maximum |
| `SessionInvariant.FreshSession` | src/runtime/state.rs:77-88 | a fresh session is down, holds nothing, has no exchange open on either side, and counts ids from 1 |
| `CommandsOnWire.SentWasGiven` | src/runtime/state.rs:254-551 | in every run, each publish, subscribe and unsubscribe packet sent has the QoS, retain, topic and payload, the filters or the topics of a command submitted by then, or held when the run began |
| `CommandsOnWire.SubmissionWrites` | src/runtime/state.rs:347-397 | a submission sends one packet at most, with these fields of its command, under its own id or the next one, and with its DUP |
| `CommandsOnWire.SubmissionGoesTo` | src/runtime/state.rs:254-397 | where a submitted command goes, slot, park, queue or nowhere, and the id pool after it |
| `CommandsOnWire.OthersIgnored` | src/runtime/driver.rs:111 | a ping or disconnect command changes nothing and sends nothing |
| `CommandsOnWire.WaitingOpsDescribed` | src/runtime/state.rs:361-371 | every op in a slot, in the park or in the queue holds a packet with the fields of its command, under the id of its place, and its command's token and client |
| `CommandsOnWire.ReplayWrites` | src/runtime/state.rs:398-521 | a replay sends, in order, packets with the fields and ids of its ops' commands, with DUP exactly on QoS 1 and QoS 2 publishes |
| `CommandsOnWire.ReplayTurnGoesTo` | src/runtime/state.rs:398-521 | where each op of a replay goes, and when its packet is sent |
| `CommandsOnWire.PromotionWrites` | src/runtime/state.rs:538-563 | a promotion sends the fields of the parked command under its id and DUP |
| `Outcomes.IncomingAnswered` | src/runtime/driver.rs:113-182 | the outcome of every packet from the broker on every session: the actions in order, or the exact error with its id |
| `Outcomes.IncomingLeaves` | src/runtime/driver.rs:113-182 | every field of the session after it: slots, count, park, flags, queue, clocks |
| `SlotsAndWire.StepMatches` | src/runtime/state.rs:254-551 | an op that enters a slot has its packet sent in that very event, and a packet that awaits an acknowledgement is sent only with its op in the slot of its id |
| `DupFlags.RunDup` | src/runtime/state.rs:409-414 | in every run: a QoS 1 or QoS 2 publish sent in the event of a submission carries the DUP it was given, one sent in any other event carries DUP |
| `DupFlags.SubmitSends` | src/runtime/state.rs:347-397 | a submitted command is sent at once, as given but for its id, exactly when the session is active and the command needs no slot or finds its own |
| `DupFlags.FirstDeliveryWithDup` | src/runtime/state.rs:413 | a publish given offline without DUP, after a run in which nothing was sent, is the first packet of the connection and carries DUP |
| `Encodability.RunEncodes` | src/codec/packet.rs:13-30 | if every submitted command is sendable, every packet sent in every run can be encoded |
| `Encodability.SubmitEncodesIff` | src/codec/packet.rs:13-30 | the packet of a command that is sent at once can be encoded if and only if the command is sendable |
| `Collision.PubAckPromotes` | src/runtime/state.rs:523-550 | an accepted PUBACK sends a next packet exactly when an op was parked on that id; its insert cannot fail, and its packet carries DUP if it is a QoS 1 or 2 publish |
| `Collision.PubCompPromotes` | src/runtime/state.rs:200-219 | the same for an accepted PUBCOMP, which also closes the exchange |
| `Collision.StepStrandsIff` | src/runtime/state.rs:89-129 | a parked op stays behind an occupied slot unless, and only unless, a SUBACK or UNSUBACK comes for its id |
| `Collision.RunKeepsBehind` | src/runtime/state.rs:523-550 | in a run without SUBACK and UNSUBACK a parked op always sits behind an occupied slot |
| `Reconnect.ReplayDistinct` | src/runtime/state.rs:398-521 | replaying ops with distinct ids onto free slots inserts every one at its own id and sends every op in order; none is parked, queued or lost |
| `Reconnect.SessionRoundTrip` | src/runtime/state.rs:153-179 | with nothing parked or queued, loss and restoration refill every slot with the same op, DUP set on exactly the QoS 1 and 2 publishes, restore the count and send the packets by ascending id |
| `Reconnect.SessionRoundTripWithPark` | src/runtime/state.rs:164-166 | with one op parked behind its slot nothing is lost either: it is parked again, or queued when the table is full |
| `Reconnect.StrandedOpComesBack` | src/runtime/state.rs:164-166 | an op parked on an id whose slot is empty gets that slot on the replay and is sent last; nothing is lost |
| `Reconnect.ReplaySendsInOrder` | src/runtime/state.rs:398-521 | whatever is in the way, a replay sends packets of the backlog in backlog order |
| `Reconnect.ReplayQueuesInOrder` | src/runtime/state.rs:398-521 | what a replay queues again keeps backlog order |
| `Reconnect.DrainedAscending` | src/runtime/state.rs:158-162 | draining lists each slot's op once, by ascending id |
| `Reconnect.LossLeaves` | src/runtime/state.rs:153-175 | every part of the store after a loss, and the id pool |
| `ResendOrder.ResendsInOrderIff` | src/runtime/state.rs:158-162 | after any run, with nothing queued or parked: a reconnect sends in the order of the sends so far, which in a run without losses are the first sends, if and only if that order was by ascending id |
| `ResendOrder.LastIsResentFirst` | src/runtime/pkid.rs:16-23 | for any table of at least two: max publishes, a PUBACK for the first, one more publish; a reconnect sends that last one first |
| `OfflineBacklog.OfflineQueues` | src/runtime/state.rs:373-376 | offline, any number of commands queue in order, numbered in turn, and nothing is output |
| `OfflineBacklog.OfflineBacklogDrains` | src/runtime/state.rs:398-521 | the first connection then sends every QoS 0 publish and the first max tracked ops, in order, in slots 1, 2, ...; the rest stay queued in order and nothing is lost |
| `OfflineBacklog.QueuedWaits` | src/runtime/state.rs:398-400 | in every run without a restoration the queue only grows at its end: no other event takes an op out of it |
| `PacketIds.WindowIsPermutation` | src/runtime/pkid.rs:16-23 | from any pool, max consecutive candidates are a permutation of 1..max |
| `Qos2Sender.CompletionsFollowPubRels` | src/runtime/state.rs:191-219 | in every run, PUBCOMP completions for an id plus the exchange open on it never exceed the PUBRELs sent for it |
| `Qos2Sender.PubRelAnswersPubRec` | src/runtime/driver.rs:128-132 | a PUBREL goes out exactly on a PUBREC for an occupied slot |
| `Qos2Sender.ExchangeCompletes` | src/runtime/state.rs:191-219 | on an occupied slot PUBREC is answered by PUBREL, and only then PUBCOMP completes the op, to its owner, and closes the exchange |
| `Qos2Exchanges.ReconnectRefills` | src/runtime/state.rs:398-521 | after any loss and restoration each slot holds the first queued op with its id, else the op it held, else the op parked on it, redelivered; else nothing |
| `Qos2Exchanges.RestorationRefills` | src/runtime/state.rs:398-521 | after a restoration by itself occupied slots are as they were, free ones hold the first queued op with their id, and flags and ids are unchanged |
| `Qos2Exchanges.ReconnectKeepsExchangeIff` | src/runtime/state.rs:153-219 | an exchange open on an occupied slot, a loss that keeps the session, a restoration: the flag stays and PUBCOMP completes the op then in the slot, which is the op of the exchange if and only if no other queued op has its id |
| `Qos2Exchanges.OpenHandshakeHasPublish` | src/runtime/state.rs:191-219 | against a broker that acknowledges each slot by its kind, through any losses that meet no other op queued under the id of an open exchange: an open exchange belongs to a QoS 2 publish, in its slot or, while the connection is down, first in the queue |
| `Qos2Sender.LossKeepsPhasesIff` | src/runtime/state.rs:153-175 | until the restoration a loss leaves flags and slots in agreement if and only if it is clean or no exchange is open |
| `Qos2Exchanges.CompletesConfirmed` | src/runtime/state.rs:191-219 | in such runs a PUBCOMP completes the very op for which PUBREC was last accepted under its id |
| `Qos2Exchanges.StaleFlagCompletesAnother` | src/runtime/state.rs:153-175 | with a loss that meets such an op it need not: a run in which the PUBCOMP for one publish completes another, for which no PUBREC came |
| `Keepalive.StepPings` | src/runtime/state.rs:130-152 | a PINGREQ is sent on a tick only and never while one is outstanding; only PINGRESP, loss or restoration settles it |
| `Keepalive.TickDecides` | src/runtime/state.rs:130-147 | exactly when a tick reconnects, sends a PINGREQ or changes nothing, by clock differences, and the session after it; a timeout is a loss in the driver's mode |
| `Keepalive.SessionTick` | src/runtime/state.rs:130-147 | the session's own tick notes its PINGREQ as outgoing activity, and a timeout changes nothing in it |
| `Keepalive.RestorationTimers` | src/runtime/driver.rs:187-196 | a restoration sets both clocks to its time and settles the PINGREQ, whatever is queued |
| `Keepalive.QuietAfterRestoration` | src/runtime/state.rs:130-147 | after it no tick does anything until the keep-alive time is over, if nothing else happens |
| `Keepalive.LossTimers` | src/runtime/state.rs:153-156 | a loss takes the session down, settles the PINGREQ and leaves the clocks |
| `Keepalive.SubmissionTimers` | src/runtime/driver.rs:68-112 | a submission sets the outgoing clock exactly when it sends |
| `Keepalive.NeverTwoPings` | src/runtime/state.rs:130-152 | between any two PINGREQs of a run there is a PINGRESP, a loss or a restoration |
| `Keepalive.ReconnectNeedsSilence` | src/runtime/state.rs:134-137 | with a clock that does not run backwards, a tick triggers a reconnect only if a PINGREQ has been unanswered for at least the keep-alive time |
| `Keepalive.SilenceReconnects` | src/runtime/driver.rs:53-67 | with only ticks, at most d apart, a reconnect is triggered within 2*keepAlive + 2*d of the last activity, whether or not a PINGREQ is outstanding at the start |
| `Keepalive.BusyClientNeverPings` | src/runtime/state.rs:130-147 | in a run of QoS 0 publishes and ticks, each tick less than the keep-alive time after the last publish, every publish goes out and no tick does anything |
| `Keepalive.SilenceUnnoticed` | src/runtime/state.rs:130-147 | so for any n, n rounds of a publish and a tick pass without PINGREQ or reconnect while nothing is received |
| `Keepalive.ActivityIsNoted` | src/runtime/driver.rs:183-196 | every packet sent is noted as outgoing activity and every packet received as incoming |
| `Routing.LevelsJoin` | src/runtime/router.rs:13-14 | splitting at separators loses nothing and leaves none inside a level |
| `Routing.MatchesIffFits` | src/runtime/router.rs:12-37 | level-by-level matching holds if and only if all levels fit one to one, or all but a final #, which also matches its parent level |
| `Routing.TopicMatchesIff` | src/runtime/router.rs:12-37 | a filter matches a topic if and only if its levels fit the topic's |
| `Routing.Characters` | src/runtime/router.rs:12-37 | the separator is /, the wildcards are + and # |
| `Routing.MatchTopic` | src/runtime/router.rs:12-37 | the loop over split levels computes the recursive relation |
| `Routing.AddedIsUnion` | src/runtime/router.rs:40-52 | adding a subscription adds the (client, filter) pair and keeps filters unique and client lists non-empty without repetition |
| `Routing.AddedInPlace` | src/runtime/router.rs:40-52 | adding touches the filter's entry only, where the client comes last; a new filter comes last |
| `Routing.RemovedIsDifference` | src/runtime/router.rs:54-62 | removing a subscription removes the pair, and entries without clients go |
| `Routing.RemovedInPlace` | src/runtime/router.rs:54-62 | removing works entry by entry and keeps their order |
| `Routing.MatchingExact` | src/runtime/router.rs:64-78 | a client is listed once, and exactly when one of its filters matches the topic |
| `Routing.MatchingInOrder` | src/runtime/router.rs:64-78 | clients are listed in the order in which the matching entries first name them |
| `Routing.Router.AddSubscription` | src/runtime/router.rs:40-52 | the table after it, and the pairs it stands for |
| `Routing.Router.RemoveSubscription` | src/runtime/router.rs:54-62 | the table after it, and the pairs it stands for |
| `Routing.Router.MatchingClients` | src/runtime/router.rs:64-78 | the clients in order, without repetition, exactly those with a matching filter |
| `TaskRuns.PublishReachesMatching` | src/runtime/task.rs:155-190 | an incoming publish reaches each client with a matching filter in exactly one copy, nobody else, and none if it is a QoS 2 publish already received; the broker gets the acknowledgement of its QoS once; and if the turn is cut off nobody gets more |
| `TurnEffects.DeliveredBeforeAcked` | src/runtime/task.rs:166-171 | a QoS 1 publish: in whatever part of the turn gets through, if the PUBACK is among it so is the copy of every client with a matching filter; the PUBACK is last |
| `TurnEffects.AckedBeforeDelivered` | src/runtime/task.rs:172-187 | a QoS 2 publish: the PUBREC is first, and all else are deliveries |
| `TurnEffects.Qos0OnlyDelivered` | src/runtime/task.rs:162-165 | a QoS 0 publish: deliveries only, to exactly the clients with a matching filter |
| `TurnEffects.EffectsFollowActions` | src/runtime/task.rs:249-289 | a turn that keeps the connection has one effect for each action, in order |
| `TurnEffects.ReconnectEffects` | src/runtime/task.rs:192-265 | a turn that gives it up tells all clients, sends the replay in order, and tells them again |
| `TurnEffects.TurnRefusals` | src/runtime/task.rs:203-247 | commands and ticks are never refused, and a packet exactly when and as its outcome says |
| `TurnEffects.ThroughMeans` | src/runtime/task.rs:305-315 | effects get through up to the first packet that does not encode or send that finds no receiver |
| `TaskRuns.Qos2PublishEffects` | src/runtime/task.rs:172-187 | a QoS 2 publish is always answered by PUBREC, and delivered if and only if it is first seen |
| `TaskRuns.PubRelEffects` | src/runtime/state.rs:234-241 | a PUBREL is accepted exactly when a delivery with its id is open, and then answered by PUBCOMP and nothing else |
| `TaskRuns.DeliveredExactlyOnce` | src/runtime/state.rs:221-241 | in every run: QoS 2 messages delivered for an id are the accepted PUBRELs plus the exchange open now, plus those a clean session forgot, at most one each; without clean sessions the equation is exact |
| `TaskRuns.RoutesFollowAcks` | src/runtime/task.rs:266-285 | through losses and replays the routed pairs are the SUBACK additions and UNSUBACK removals folded in order of arrival |
| `TaskRuns.ChangesAnswerCommands` | src/runtime/task.rs:266-285 | from any task, each route change repeats client and filters of a subscribe or unsubscribe command given in an earlier turn, or of an op held when the run began |
| `TaskReports.ClientsAreToldOnce` | src/runtime/task.rs:249-289 | in every run of any task, through timeouts and replays: completions put in a client's mailbox under a token, plus ops of that token held at the end, never exceed those held at the start plus the commands it gave under it |
| `TaskReports.ToldOnceThoughCutOff` | src/runtime/task.rs:249-289 | nor do the completions if the task ends in the middle of a further turn because a send fails |
| `TaskWitnesses.SubscriptionTakesEffect` | src/runtime/task.rs:266-275 | a run of an active task: a subscribe command and its SUBACK; the client is told once and its filters are routed to it |
| `TaskWitnesses.ReportedAfterReplay` | src/runtime/task.rs:192-265 | a run of an active task: a QoS 1 publish, a PINGREQ, a timeout with the publish sent again under DUP, a PUBACK; the client is told once |
| `HostedTask.HostedTaskNeverSends` | src/runtime/host.rs:26-49 | in every run of the task the host starts, each turn writes PUBACK, PUBREC or PUBCOMP and nothing else, and every command given is still queued |
| `TaskReports.TurnIsDriverRun` | src/runtime/task.rs:192-247 | a turn moves the driver as a run of its event does, followed by a restoration if that gave the connection up; the PUBACK for a QoS 1 publish is noted on top |
| `Task.TaskStepKeepsInv` | src/runtime/task.rs:203-288 | every turn of the task keeps the session invariant and the table valid |
| `CodecProofs.DecodeEncode` | src/codec/packet.rs:13-134 | for all 14 packet types: decoding an encoding, whatever bytes follow, gives the packet back if and only if its length-prefixed fields are at most 65535 bytes long |
| `CodecProofs.EncodeDecode` | src/codec/packet.rs:136-176 | an accepted frame re-encodes with the same first byte and body, and byte for byte exactly when its remaining length was the shortest |
| `CodecProofs.DecodeInjective` | src/codec/packet.rs:136-176 | on frames with the shortest remaining length decoding is injective |
| `WireLayout.EncodingIsLaidOut` | src/codec/packet.rs:13-134 | the bytes of every encoding: first byte with its type code and flags, remaining length in seven bits a byte, ids and lengths high byte first, CONNECT flags bit by bit, fields in order |
| `WireLayout.EncodesIff` | src/codec/packet.rs:13-134 | exactly which packets can be encoded, and the error of the others |
| `WireLayout.AcceptedIff` | src/codec/packet.rs:136-176 | a frame is accepted as a packet if and only if it has that packet's first byte and body, however its length is written, and fields that fit 16 bits |
| `WireLayout.LengthRead` | src/codec/primitives.rs:71-89 | the value of one to four digits, and the error of any others |
| `WireLayout.HeaderRead` | src/codec/fixed_header.rs:23-34 | first byte, length and start of the body |
| `WireLayout.Refusals` | src/codec/packet.rs:136-176 | a frame is refused for what is missing, and else as its header or its body is |
| `WireLayout.BodyRefusals` | src/codec/packet.rs:144-175 | the error for an unknown type, wrong flags, QoS 3, a body where none may be, and an id-only body of another length or with id 0 |
| `WireLayout.ConnectRefusals` | src/codec/packet.rs:178-211 | the error for another protocol name, another level, and each bad combination of CONNECT flags |
| `WireLayout.LeftoverRefused` | src/codec/packet.rs:226-249 | bytes left over after the last field make a CONNECT malformed |
| `WireLayout.TopicRefusals` | src/codec/packet.rs:308-493 | the error for id 0, no topics or codes, an unknown code, and a QoS above 2 |
| `WireLayout.ShortReads` | src/codec/primitives.rs:4-46 | reads that find too little say how much is missing; bytes that are no text are malformed |
| `Utf8.TextIff` | src/codec/primitives.rs:42-46 | the byte strings accepted as text are exactly the encodings of sequences of Unicode scalar values |
| `CodecProofs.PartsRoundTrip` | src/codec/packet.rs:136-547 | reading the body under the flags of the first byte gives the packet back, for each packet type |
| `CodecProofs.PartsCanonical` | src/codec/packet.rs:178-547 | an accepted body under given type and flags is the one the packet read from it encodes to |
| `CodecProofs.ConnectRoundTrip` | src/codec/packet.rs:178-249 | CONNECT with any optional will, username and password |
| `CodecProofs.ConnectCanonical` | src/codec/packet.rs:178-249 | an accepted CONNECT body is the one the value read from it encodes to, flags included |
| `Primitives.LeastDigits` | src/codec/primitives.rs:52-69 | the remaining length takes the least number of base-128 digits, at most four up to the maximum |
| `Primitives.LengthRoundTrip` | src/codec/primitives.rs:71-89 | decoding an encoded length gives it back with its size, whatever follows |
| `Primitives.ProperPrefixAsksForMore` | src/codec/primitives.rs:74-77 | every proper prefix of an encoded length reports insufficient bytes |
| `Primitives.VerdictStable` | src/codec/primitives.rs:71-89 | a value or a malformed verdict is unchanged by appending bytes |
| `Primitives.MinimalIsCanonical` | src/codec/primitives.rs:52-89 | a decoded length equals the encoding of its value exactly when it is no longer |
| `Primitives.FieldRoundTrip` | src/codec/primitives.rs:23-36 | a length-prefixed field of at most 65535 bytes is read back as written |
| `Primitives.TextRoundTrip` | src/codec/primitives.rs:42-50 | the same for strings |
| `Stream.ChunkingIndependent` | src/codec/stream.rs:22-37 | for every chunking and every interleaving of push and next_frame: frames and buffer hold all bytes in order, and the frames are those of a one-shot split |
| `Stream.AnswerStable` | src/codec/stream.rs:25-37 | a complete frame, or a malformed verdict, is the answer whatever is pushed after it |
| `Stream.NeedIsHonest` | src/codec/stream.rs:28-35 | Need(n): with fewer than n further bytes there is still no frame, and the need shrinks by what was pushed |
| `Stream.NeedIsMet` | src/codec/stream.rs:28-35 | once the header is there, just as many bytes as asked for complete the frame; before that one byte is asked for |
| `Stream.AskingConsumes` | src/codec/stream.rs:38-43 | next_packet consumes a complete frame whether or not it decodes, and nothing else, and gives the packet or its error |
| `Stream.PacketsInOrder` | src/codec/stream.rs:38-43 | while encoded packets arrive in any chunks, next_packet yields them in order and without error |
| `Stream.AllPacketsArrive` | src/codec/stream.rs:38-43 | when all bytes have arrived, every packet has been yielded if and only if the parser asks for more |
| `PacketIds.PacketIdPool.constructor` | src/runtime/pkid.rs:8-14 | counting starts before 1; a maximum of 0 is refused |
| `PacketIds.PacketIdPool.NextCandidate` | src/runtime/pkid.rs:16-23 | the candidate and the pool after it |
| `PacketIds.PacketIdPool.Reset` | src/runtime/pkid.rs:24-26 | counting starts over |
| `Inflight.InflightStore.constructor` | src/runtime/inflight.rs:35-47 | the tables start empty, one entry for each id and one for 0 |
| `Inflight.InflightStore.TryInsert` | src/runtime/inflight.rs:48-68 | slot, count and park after the insert, and whether it took place |
| `Inflight.InflightStore.ReleaseAck` | src/runtime/inflight.rs:69-77 | the op taken out, and slot and count after it |
| `SessionState.RuntimeState.constructor` | src/runtime/state.rs:77-88 | an inactive session with an empty store |
| `SessionState.RuntimeState.OnCommandSubscribe` | src/runtime/state.rs:254-298 | the session after the command and the packet to send; another command is refused and changes nothing |
| `SessionState.RuntimeState.OnCommandUnsubscribe` | src/runtime/state.rs:299-346 | the same for unsubscribe |
| `SessionState.RuntimeState.OnCommandPublish` | src/runtime/state.rs:347-397 | the same for publish, QoS 0 not tracked |
| `SessionState.RuntimeState.PromoteCollision` | src/runtime/state.rs:538-550 | park and slot after it, and the packet to send |
| `SessionState.RuntimeState.OnPubAckChecked` | src/runtime/state.rs:523-537 | the completion and promotion of a PUBACK, or its refusal |
| `SessionState.RuntimeState.OnPubRecChecked` | src/runtime/state.rs:191-198 | the flag after a PUBREC and the PUBREL, or its refusal |
| `SessionState.RuntimeState.OnPubCompChecked` | src/runtime/state.rs:200-219 | the completion and promotion of a PUBCOMP, or its refusal |
| `SessionState.RuntimeState.OnSubAckChecked` | src/runtime/state.rs:89-109 | the result of a SUBACK; a slot of another kind is released all the same |
| `SessionState.RuntimeState.OnUnsubAckChecked` | src/runtime/state.rs:110-129 | the result of an UNSUBACK; a slot of another kind is released all the same |
| `SessionState.RuntimeState.OnIncomingQos2PublishChecked` | src/runtime/state.rs:221-232 | first seen or duplicate, and the flag after it |
| `SessionState.RuntimeState.OnIncomingPubRelChecked` | src/runtime/state.rs:234-241 | the PUBCOMP and the flag after it, or its refusal |
| `SessionState.RuntimeState.OnTick` | src/runtime/state.rs:130-147 | timeout, PINGREQ or nothing, and the timers after it |
| `SessionState.RuntimeState.OnPingResp` | src/runtime/state.rs:149-152 | the flag and clock after a PINGRESP |
| `SessionState.RuntimeState.OnConnectionLost` | src/runtime/state.rs:153-175 | slots in id order, then the parked op, join the queue; a clean session clears flags and ids |
| `SessionState.RuntimeState.ResendOne` | src/runtime/state.rs:403-518 | one op of the replay: its rebuilding, its place, its packet |
| `SessionState.RuntimeState.ResendPendingOnReconnect` | src/runtime/state.rs:398-521 | the replay of the whole queue and the packets sent |
| `Driver.RuntimeDriver.constructor` | src/runtime/driver.rs:44-49 | the driver starts from the given session |
| `Driver.RuntimeDriver.HandleTick` | src/runtime/driver.rs:53-67 | the actions of a tick; a timeout loses the connection |
| `Driver.RuntimeDriver.HandleCommand` | src/runtime/driver.rs:68-112 | the actions of a command |
| `Driver.RuntimeDriver.HandleIncoming` | src/runtime/driver.rs:113-182 | the actions of each packet from the broker, or the error |
| `Driver.RuntimeDriver.HandleRestored` | src/runtime/driver.rs:187-196 | the replayed packets as actions, timers set |
| `Driver.RuntimeDriver.HandleEvent` | src/runtime/driver.rs:50-199 | the driver steps as the step relation says |
| `Task.RuntimeTask.SendPacket` | src/runtime/task.rs:305-315 | the packet on the wire, noted as outgoing activity; or the error, with nothing sent or noted, if it does not encode or the write fails |
| `Task.RuntimeTask.FanoutPublish` | src/runtime/task.rs:98-104 | one delivery for each matching client, in order, up to the first whose mailbox is closed, and then the error |
| `Task.RuntimeTask.HandleIncomingPublish` | src/runtime/task.rs:155-190 | effects and state after an incoming publish, or the refusal of its id; a failing send cuts the effects off |
| `Task.RuntimeTask.ReconnectNow` | src/runtime/task.rs:192-201 | the connection restored, the backlog sent, the clients told; or the packets sent before the first that fails |
| `Task.RuntimeTask.HandleAction` | src/runtime/task.rs:250-286 | effects and state after one action; a failing send cuts the effects off |
| `Task.RuntimeTask.HandleActions` | src/runtime/task.rs:249-289 | effects and state after all actions, in order; the first failing send ends it there |
| `Task.RuntimeTask.HandleTurn` | src/runtime/task.rs:203-247 | one turn of the task is one step of the task relation, its effects cut off at the first send that fails |
| `Primitives.Cursor.ReadU8` | src/codec/primitives.rs:4-11 | one byte, or how many are missing |
| `Primitives.Cursor.ReadU16` | src/codec/primitives.rs:13-21 | a big-endian integer, or how many bytes are missing |
| `Primitives.Cursor.ReadBytes` | src/codec/primitives.rs:23-31 | a length-prefixed field, or how many bytes are missing |
| `Primitives.Cursor.ReadText` | src/codec/primitives.rs:42-46 | a valid UTF-8 string, or the error |
| `Primitives.Buffer.WriteU16` | src/codec/primitives.rs:38-40 | two bytes appended |
| `Primitives.Buffer.WriteField` | src/codec/primitives.rs:33-36 | the field appended, its length cut to 16 bits |
| `Primitives.EncodeRemainingLength` | src/codec/primitives.rs:52-69 | the digits, which decode to the length whatever follows; refused above the maximum |
| `Primitives.DecodeRemainingLength` | src/codec/primitives.rs:71-89 | the loop computes the recursive reading of the digits |
| `PacketIO.EncodePacket` | src/codec/packet.rs:13-30 | the encoding appended, or the error and how much was written |
| `PacketIO.WriteFrame` | src/codec/packet.rs:83-85 | first byte, remaining length, body; a body too long leaves the first byte written |
| `PacketIO.ConstructFlags` | src/codec/packet.rs:90-134 | the CONNECT flags, or the refusal of a password without a username |
| `PacketIO.EncodeConnect` | src/codec/packet.rs:54-88 | as EncodePacket |
| `PacketIO.EncodeConnAck` | src/codec/packet.rs:38-52 | as EncodePacket |
| `PacketIO.EncodePublish` | src/codec/packet.rs:284-306 | as EncodePacket |
| `PacketIO.EncodePkidOnly` | src/codec/packet.rs:274-282 | an id-only frame, or the refusal of id 0 |
| `PacketIO.EncodeSubscribe` | src/codec/packet.rs:357-380 | as EncodePacket, over any number of filters |
| `PacketIO.EncodeUnsubscribe` | src/codec/packet.rs:401-417 | as EncodePacket, over any number of topics |
| `PacketIO.WriteFilters` | src/codec/packet.rs:367-375 | the loop appends exactly the filters' fields, in order |
| `PacketIO.WriteTopics` | src/codec/packet.rs:410-412 | the loop appends exactly the topics' fields, in order |
| `PacketIO.EncodeSubAck` | src/codec/packet.rs:382-399 | as EncodePacket |
| `PacketIO.EncodeEmpty` | src/codec/packet.rs:516-520 | a frame without body |
| `PacketIO.DecodePacket` | src/codec/packet.rs:136-176 | the packet or the error; an accepted packet encodes to a frame that decodes to it again |
| `PacketIO.DecodeBody` | src/codec/packet.rs:144-175 | dispatch on the packet type |
| `PacketIO.DecodeConnect` | src/codec/packet.rs:178-211 | the CONNECT body up to its flags |
| `PacketIO.DecodeConnectPayload` | src/codec/packet.rs:210-249 | the rest of the CONNECT body, all of it consumed |
| `PacketIO.DecodeWill` | src/codec/packet.rs:213-225 | the optional will |
| `PacketIO.DecodePublish` | src/codec/packet.rs:308-333 | the PUBLISH body under its flags |
| `PacketIO.DecodeSubscribe` | src/codec/packet.rs:428-451 | the SUBSCRIBE body |
| `PacketIO.ReadFilters` | src/codec/packet.rs:440-446 | the loop reads exactly the filters up to the end of the body |
| `PacketIO.DecodeUnsubscribe` | src/codec/packet.rs:452-472 | the UNSUBSCRIBE body |
| `PacketIO.ReadTopics` | src/codec/packet.rs:464-467 | the loop reads exactly the topics up to the end of the body |
| `PacketIO.DecodeSubAck` | src/codec/packet.rs:473-493 | the SUBACK body and its codes |
| `Stream.FrameParser.constructor` | src/codec/stream.rs:19-21 | the buffer starts empty |
| `Stream.FrameParser.Push` | src/codec/stream.rs:22-24 | the chunk appended |
| `Stream.FrameParser.NextFrame` | src/codec/stream.rs:25-37 | a frame drained, a need, or an error |
| `Stream.FrameParser.NextPacket` | src/codec/stream.rs:38-43 | a packet, nothing, or an error; a frame that does not decode is consumed |

## Left out

- `Transport`, sockets, threads, channels, the client registry, `RuntimeHost` and `ClientHandle`: plumbing around the model.
- `RuntimeTask::run`, `run_once`, `poll_*` and `read_one_packet`: scheduling, and the ending of the task on the first error; a modelled run may go on after one.
- The bytes of a packet that a failing `write_all` may have written, and the state of the task after a failing send, which ends it.
- `last_ack` and `ping_retry_count`: written, never read for a decision.
- Error message texts, and `ConnectionInactive`, which no code raises.
- The panics of debug builds on u16 overflow: the wrapping of release builds is modelled.
- The bound test in `decode_remaining_length` on its result: four digits cannot exceed the bound (`Primitives.DecodedWithinBound`).
- The tests in the encoders for a QoS above 2: no value of the QoS type has one.
- `$`-topics, resending PUBREL after a reconnect and SUBACK failure codes: the code treats none of them specially, and neither does the model.
- `encode_unsuback`, `encode_ping` and `encode_disconnect` as members of their own: `PacketIO.EncodePkidOnly` and `PacketIO.EncodeEmpty` write the same frames.
- The decoders without loops for CONNACK, the id-only packets and the empty ones in cursor form: they are the functions of `PacketCodec`, called by `PacketIO.DecodeBody`.
