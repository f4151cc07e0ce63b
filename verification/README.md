# saasy-sfu: a verified model of the control plane

saasy-sfu hands out sessions on a pool of mediasoup routers and tells the participants of a
session which media producers come and go. This project models both parts and proves what they
keep over every run.

**The parts.** `RouterPool` is the round-robin scan as a function of its cursor.
`RouterManagement.RouterManager` is the pool with its persistent cursor. `CoreModel` gives the
state of the core as a value and every operation done under its lock as a function on it;
`SfuCoreObject.SfuCore` is the core itself, a class whose maps are updated in place and whose
methods are proved to compute those functions. `SystemModel` is the whole control plane as a state
machine: the core, the tasks spawned to broadcast later, one close flag per media resource, and the
receiving ends of the event channels. `GrpcHandler.SfuHandler` is the request handler; each of its
methods is proved to be one step of that state machine. `SystemInvariant` and `SystemSteps` hold the
invariant and its preservation by every step. `Allocation`, `Participants`, `Resources` and
`Subscriptions` read the state off the steps of a run: which sessions live and where, who sits in them
and holds what, which resources and tasks there are, who is subscribed over which channel.
`Announcements`, `Delivery` and `Lifecycle` prove what subscribers are told. `Witnesses` holds concrete
runs that meet the bounds.

**Steps.** A request holds the core lock from start to end of its core call, so it is one step.
Spawned broadcasts are separate steps that run in any order and at any later time. Close callbacks
and the receiving ends need no lock. A request whose caller goes away while it waits is a step of its
own: a registration may have moved the cursor past full routers, and a subscription may have opened
a channel that nobody reads. A run is a sequence of states, the first a start state, and the enabled
labels that lead from each to the next; a label carries what the code does not decide itself (fresh
ids, mediasoup's answers, hash map orders, which task runs).

**Two findings.**
- A subscription waits for room in its channel while it holds the core lock, and its receiver is
  handed out only after the call returns. When the confirmation and the replay do not fit the
  channel, the call can never finish: it stops every request and every broadcast until its caller
  drops it. `Lifecycle.ReplayBound` gives the exact condition, `Lifecycle.SuspensionStopsTheServer` the
  consequence, and `Witnesses.SubscriptionSuspends` a run that gets there, for every capacity.
- A subscriber to whom a producer was replayed is offered its announcement a second time, now or
  later, exactly when the broadcast had not yet run at the moment of the subscription:
  `Announcements.ReplayedCopiesExactly`, with `Witnesses.AnnouncedTwice` as a run in which both arrive.

**Assumptions.** Session ids are fresh (version 4 UUIDs, section 5.4 of RFC 9562). mediasoup's ids of
routers, and of transports, producers and consumers within their kind, are fresh. A channel has room
for at least one event, because tokio refuses to build one without. `usize` has 64 bits. tokio's bounded
channels are a table of first-in-first-out queues, and a sender or receiver is a handle into it. A
subscription call that is dropped while it waits gives up the lock and its receiver in one step; in
the code the guard goes just before the receiver, so another thread can still broadcast into that
channel in between, which nobody will ever read.

**Where code and comments differ.** The comment on `RouterManager::new` promises one router per
worker; the code pairs workers with WebRTC servers and drops the surplus of either. The model follows
the code.

## Model

| member | source | states |
|---|---|---|
| RouterManagement.RouterManager.New | src/sfu/router_manager.rs:27-46 | one router per worker that has a WebRTC server, in order and each mapped to its own server, cursor at zero; otherwise the first failure |
| RouterManagement.RouterManager.GetNextRouter | src/sfu/router_manager.rs:57-71 | an empty pool is an error; otherwise one grant: the router under the cursor, which steps on cyclically |
| RouterManagement.RouterManager.GetAvailableRouter | src/sfu/router_manager.rs:73-96 | nothing, and the cursor unmoved, exactly when no router has room; otherwise the router with room at least cyclic distance, the cursor just behind it |
| RouterPool.FindRouterSpec | src/sfu/router_manager.rs:73-96 | the scan refines "take the nearest router with room" and fails exactly when all are full, putting the cursor back |
| RouterPool.RoundRobinWindow | src/sfu/router_manager.rs:57-71 | of any series of consecutive calls, as many as there are routers grant each router once, and in any number grants differ by at most one |
| CoreModel.RegisterSpec | src/sfu/core.rs:122-166 | a registration is refused, changing nothing, exactly when no router has room; otherwise it lands on the nearest router with room |
| CoreModel.BroadcastAnyOrder | src/sfu/core.rs:483-505 | iterating the senders in any order gives the same result: every installed, not excluded channel of the session is offered the event on its own |
| CoreModel.ShutdownDrains | src/sfu/core.rs:527-531 | closing all sessions in any order leaves no session, no sender, and every counter zero |
| SfuCoreObject.SfuCore.constructor | src/sfu/core.rs:107-120 | an empty core with a zero counter for every router of the pool and no other |
| SfuCoreObject.SfuCore.RegisterSession | src/sfu/core.rs:122-166 | computes the registration function and keeps the core invariant (exact counters, cap, seats, wiring) |
| SfuCoreObject.SfuCore.JoinSession | src/sfu/core.rs:168-197 | computes the join function, errors in their order, and keeps the invariant |
| SfuCoreObject.SfuCore.CreateTransport | src/sfu/core.rs:228-277 | computes the transport function; the WebRTC server lookup never fails |
| SfuCoreObject.SfuCore.CreateProducer | src/sfu/core.rs:306-348 | computes the producer function: only on the current send transport |
| SfuCoreObject.SfuCore.CreateConsumer | src/sfu/core.rs:350-398 | computes the consumer function: only on the current recv transport and only when the router can consume |
| SfuCoreObject.SfuCore.Close | src/sfu/core.rs:426-437 | computes the close function and removes exactly that session; unknown ids change nothing |
| SfuCoreObject.SfuCore.GetExistingProducers | src/sfu/core.rs:507-525 | every producer of the session with kind and owner, each once, whatever the iteration order |
| SfuCoreObject.SfuCore.SubscribeToEvents | src/sfu/core.rs:439-481 | installs the channel, then confirmation and replay of a complete listing; unknown session, dead receiver and lack of room as the code has them |
| SfuCoreObject.SfuCore.SendReplay | src/sfu/core.rs:467-478 | the replay loop sends everything that fits and waits exactly when something is left over |
| SfuCoreObject.SfuCore.BroadcastEvent | src/sfu/core.rs:483-505 | the loop over the senders, in any order, is the pointwise broadcast |
| SfuCoreObject.SfuCore.OfferToAll | src/sfu/core.rs:485-503 | each targeted channel is offered the event once and every other channel is left alone |
| SfuCoreObject.SfuCore.Shutdown | src/sfu/core.rs:527-531 | closes all sessions and leaves every counter zero |
| GrpcHandler.SfuHandler.constructor | src/grpc/handler.rs:43-49 | starts in a start state of the system model |
| GrpcHandler.SfuHandler.SetupEventHandlers | src/grpc/handler.rs:53-110 | one unset close flag per resource, and one announcement task per producer that leaves its creator out |
| GrpcHandler.SfuHandler.RegisterSession | src/grpc/handler.rs:117-150 | an empty participant id is rejected without effect; otherwise one registration step of the system |
| GrpcHandler.SfuHandler.JoinSession | src/grpc/handler.rs:152-191 | one join step of the system |
| GrpcHandler.SfuHandler.CreateTransport | src/grpc/handler.rs:269-329 | an unspecified direction is rejected without effect; otherwise one transport step, kept even when its data do not convert into a response; answers the new id or the error |
| GrpcHandler.SfuHandler.CreateProducer | src/grpc/handler.rs:377-433 | one producer step: stored under the lock, announced by a task spawned after it; answers the new id or the core's error |
| GrpcHandler.SfuHandler.CreateConsumer | src/grpc/handler.rs:435-499 | one consumer step, kept even when its data do not convert into a response; answers the new id or the error |
| GrpcHandler.SfuHandler.CloseSession | src/grpc/handler.rs:542-570 | one close step |
| GrpcHandler.SfuHandler.SubscribeToEvents | src/grpc/handler.rs:572-602 | one subscription step over a new channel; the channel is handed out as a stream if and only if confirmation and replay fit, and an unknown session is an error |
| GrpcHandler.SfuHandler.DropSuspended | src/grpc/handler.rs:590-597 | dropping a suspended call frees the lock and leaves its channel without a receiver |
| GrpcHandler.SfuHandler.RunSpawned | src/grpc/handler.rs:87-92 | a spawned task is one broadcast step under the lock |
| GrpcHandler.SfuHandler.OnClose | src/sfu/event_handler.rs:90-212 | only the first close callback of a resource spawns a report, to everyone in its session |
| GrpcHandler.SfuHandler.Shutdown | src/main.rs:110-113 | one shutdown step, after which no session and no sender is left |
| SystemSteps.StepKeeps | src/sfu/core.rs:122-531 | every step of every kind keeps the system invariant |
| SystemSteps.ReachableOk | src/sfu/core.rs:107-531 | the system invariant holds after every run |
| Announcements.NoLostAnnouncement | src/sfu/core.rs:439-505 | a producer in a subscriber's session held by another is announced, waiting to be, refused by a full channel, or the receiver is gone or the subscription suspended |
| Announcements.AnnouncementAccounting | src/grpc/handler.rs:87-92 | for a listening channel, copies accepted, copies refused and broadcasts waiting add up to one, or to one or two when the producer was replayed |
| Announcements.AtMostTwoCopies | src/sfu/core.rs:467-478 | on any channel, copies received and broadcasts waiting never exceed two |
| Announcements.AtMostOneCopyWhenSubscribedFirst | src/sfu/core.rs:345-347 | at most one when the channel was opened before the producer existed |
| Announcements.ReplayedCopiesExactly | src/sfu/core.rs:467-478 | a replayed producer is announced once, and once more if and only if its broadcast was still waiting at the subscription |
| Announcements.LaterCopiesExactly | src/grpc/handler.rs:72-93 | a producer created while a channel listens is announced on it exactly once, counting a broadcast still to come |
| Announcements.AnnouncementsAreIsolated | src/sfu/core.rs:471-491 | a channel only ever carries announcements of producers another participant created in its own session in this run |
| Delivery.ConfirmationFirst | src/sfu/core.rs:454-465 | every non-empty channel starts with its one confirmation, and one that lacks part of its replay carries nothing else |
| Delivery.ConfirmationThenReplay | src/sfu/core.rs:449-478 | a subscription fixes the head: the confirmation, then each producer the others hold at that moment, once each and nobody else's; the log is a part of it, or all of it and more |
| Delivery.BroadcastsInRunOrder | src/sfu/core.rs:454-505 | after as much of the head as fits, the log is exactly the broadcasts offered while there was room, in the order they ran, and the refused ones are the rest in that order |
| Delivery.ListenersHearEverything | src/sfu/core.rs:483-505 | a channel that listens was offered every broadcast to its session since it was opened that did not leave its participant out, and no other |
| Delivery.BroadcastOrderAgrees | src/sfu/core.rs:483-505 | any two channels carry any two broadcasts in the same order |
| Lifecycle.OneReportPerResource | src/sfu/event_handler.rs:98-124 | for any number and interleaving of close callbacks, one report is spawned if any fired and none otherwise |
| Lifecycle.AtMostOneCloseEvent | src/sfu/event_handler.rs:134-211 | each channel carries at most one closed event per resource, and none before a callback fired |
| Lifecycle.CloseEventExactly | src/sfu/event_handler.rs:98-124 | a channel that listens in the session of the request that created the resource, and was open before the first callback fired, has accepted, refused or is still to be offered exactly one closed event if a callback fired, and none otherwise |
| Lifecycle.LateChannelReports | src/sfu/core.rs:483-505 | a channel opened after a callback fired gets the closed event only if the report was still waiting then, exactly once while it listens, and never if the report had run |
| Lifecycle.ClosedSessionsStaySilent | src/sfu/core.rs:426-448 | after a close, in every run, no channel of the session gets anything, waiting broadcasts do nothing, and requests on it fail |
| Lifecycle.ReplayBound | src/sfu/core.rs:462-478 | a subscription completes if and only if one plus the number of the others' producers fits the channel; otherwise it keeps the lock |
| Lifecycle.QueuesAreBounded | src/sfu/core.rs:493-502 | every queue stays within its capacity |
| Lifecycle.SuspensionStopsTheServer | src/grpc/handler.rs:590-599 | while a subscription is suspended no request and no broadcast runs and its queue stays full, until it is dropped |
| Allocation.ExactCapacity | src/sfu/core.rs:130-163 | a registration succeeds if and only if live sessions number fewer than routers times cap; a refused one changes nothing |
| Allocation.ReachableStructure | src/sfu/core.rs:141-197 | counters equal live sessions per router within the cap, one or two participants, routers known, senders only for live sessions, producers held once |
| Allocation.LookupsNeverFail | src/sfu/core.rs:141-244 | the missing-counter and missing-server errors are unreachable |
| Allocation.CloseIsExact | src/sfu/core.rs:426-437 | a close lowers exactly one counter by one without underflow; a second close does nothing |
| Allocation.CloseUndoesRegister | src/sfu/core.rs:140-163 | closing a session just registered restores everything but the cursor |
| Allocation.BoundedBypass | src/sfu/router_manager.rs:73-96 | a router with room is picked before as many further registrations are granted as there are routers, whatever else happens |
| Allocation.BalancedLoad | src/sfu/router_manager.rs:57-96 | without closes, after k registrations router i of n holds k / n sessions and one more if i is below k mod n; all fill together |
| Allocation.LiveSessions | src/sfu/core.rs:122-166 | a session lives if and only if it was registered while there was place and nothing has closed it since |
| Allocation.SessionsStay | src/sfu/core.rs:140-163 | a session stays on the router it was registered on |
| Participants.SeatsAreGranted | src/sfu/core.rs:168-197 | exactly those sit in an unclosed session who registered it or took its second seat |
| Participants.JoinTakesTheSecondSeat | src/sfu/core.rs:176-196 | exactly which join succeeds in a reachable state, which error the others get, and that whoever joins has nothing yet and nothing else changes |
| Participants.TransportAnswers | src/sfu/core.rs:228-277 | which transport request is granted and which error the others get, in order; a granted one fills the slot of its direction and changes nothing else |
| Participants.ProducerAnswers | src/sfu/core.rs:306-348 | which producer request is granted and which error the others get, in order; a granted one adds the producer with its kind and changes nothing else |
| Participants.ConsumerAnswers | src/sfu/core.rs:350-398 | which consumer request is granted and which error the others get, in order; a granted one adds the consumer with its source and changes nothing else |
| Participants.SlotIsLastOpened | src/sfu/core.rs:257-267 | over every run, a participant's slot for a direction holds the transport it opened last for that direction |
| Participants.ProducersAreCreated | src/sfu/core.rs:331-347 | over every run, a participant holds exactly the producers of its granted requests, with their kinds |
| Participants.ConsumersAreCreated | src/sfu/core.rs:390-396 | over every run, a participant holds exactly the consumers of its granted requests, each with its source |
| Participants.DirectionsAreSeparate | src/sfu/core.rs:257-398 | over every run, a participant can produce on a transport if and only if it is the one it opened last for sending, and consume on one if and only if it is the one it opened last for receiving and the router agrees |
| Resources.ResourcesAreMade | src/grpc/handler.rs:53-110 | every close flag belongs to a resource that an earlier granted request created, and every granted request leaves one: for its own session, and up if and only if a callback has fired |
| Resources.TasksAreSpawned | src/grpc/handler.rs:72-93 | what waits to run is exactly what was spawned and has not run: one announcement per created producer and one report per first firing, each for its session and audience |
| Resources.CreatedProducerIsKnown | src/grpc/handler.rs:72-93 | a granted producer request records who created it and spawns its announcement |
| Resources.SetUpComposes | src/grpc/handler.rs:53-57 | setting up a list of resources is setting up one after the other |
| Subscriptions.SubscriptionTakesOver | src/sfu/core.rs:449-452 | a subscription replaces the participant's sender, listens at once, and leaves every other sender and channel alone |
| Subscriptions.SenderIsLastSubscribed | src/sfu/core.rs:449-452 | over every run, until its session is closed a participant is subscribed over the channel of its last subscription, if it made one |
| Subscriptions.ReplacedNeverListens | src/sfu/core.rs:449-452 | a channel that a later subscription replaced never listens again |
| Subscriptions.ListeningExactly | src/sfu/core.rs:439-505 | a channel listens if and only if its session lives, its participant has not subscribed again and its receiver is there |
| Subscriptions.SubscribingToNobody | src/sfu/core.rs:449-465 | a subscription without a receiver fails with the channel-closed error and leaves its sender behind |
| Subscriptions.ReceiversAreHistory | src/grpc/handler.rs:590-599 | what a receiver has taken is what it took in the run, and it is there until it is dropped, alone or with its suspended call |
| Subscriptions.ChannelsAreOpened | src/sfu/core.rs:449-452 | every channel was opened by a subscription of its participant to its session while that was live |
| Witnesses.AnnouncedTwice | src/sfu/core.rs:467-478 | a run after which one announcement has arrived twice |
| Witnesses.SubscriptionSuspends | src/sfu/core.rs:462-478 | for every capacity, a run after which a subscription is suspended with the lock |

## Left out

- GrpcHandler.SfuHandler.OnClose: says what follows once a callback fires, not that one fires; whether mediasoup keeps a callback whose handle is discarded is not part of this model.
- GrpcHandler.SfuHandler.DropSuspended: the lock and the receiver go in one step; a broadcast between the two drops, into a channel nobody reads, is not modelled.
- GrpcHandler.SfuHandler.CreateTransport: the ICE and DTLS data of the response are media setup and not modelled; the response is its id, and whether they convert is an argument.
- GrpcHandler.SfuHandler.CreateConsumer: the consumer's description in the response is not modelled; the response is its id, and whether it converts is an argument.
- SfuCoreObject.SfuCore.CreateConsumer: whether the router can consume a producer is an argument, so nothing relates the consumed producer to the session.
- SfuCoreObject.SfuCore.SubscribeToEvents: a call that waits for room returns `Suspended` here; in the code it does not return.
- Decoding of request envelopes and conversion of wire formats: field checks without state.
- `get_router_rtp_capabilities`, `set_rtp_capabilities`, `connect_transport`, `resume_consumer`: they change nothing the rest reads.
- Participant types and RTP capabilities: stored and never read.
- Error message text and logging: only the kind of error is kept.
- Codecs, workers, configuration, HTTP health checks and start-up.
- Media: routing, RTP, ICE, DTLS and codec negotiation; creation of routers, transports, producers and consumers is an outcome given from outside.
- The end of a replaced channel's stream: the receiver of a channel whose sender was replaced can still drain it, and that its stream then ends is not stated.
- Fairness of the scheduler: that a spawned broadcast eventually runs is not claimed.
