/**
 The state of the SFU core as a value, and every operation done under its lock as a function
 from that state to the next. Outcomes decided elsewhere (a fresh id, whether mediasoup
 succeeds, the iteration order of a hash map) are arguments.
 */
module CoreModel {
  import opened Types
  import opened RouterPool

  datatype Participant = Participant(
    send: Option<TransportId>,
    recv: Option<TransportId>,
    producers: map<ProducerId, MediaKind>,
    consumers: map<ConsumerId, ProducerId>)

  datatype Session = Session(router: RouterId, participants: map<ParticipantId, Participant>, maxParticipants: nat)

  /**
   A bounded event channel. `log` is every event accepted so far, of which the receiver has
   taken the first `taken`; `refused` is every event turned away because the queue was full;
   `head` is what the subscription set out to send: the confirmation and the replay.
   */
  datatype Channel = Channel(
    session: SessionId,
    participant: ParticipantId,
    capacity: nat,
    head: seq<Event>,
    log: seq<Event>,
    taken: nat,
    refused: seq<Event>,
    alive: bool)

  datatype Core = Core(
    pool: seq<RouterId>,
    servers: map<RouterId, ServerId>,
    cursor: nat,
    cap: usize,
    sessions: map<SessionId, Session>,
    counters: map<RouterId, usize>,
    senders: map<SessionId, map<ParticipantId, ChannelId>>,
    channels: map<ChannelId, Channel>)

  datatype Reply<+T> = Reply(core: Core, result: Result<T, SessionError>)

  const MAX_PARTICIPANTS: nat := 2

  function NewParticipant(): Participant {
    Participant(None, None, map[], map[])
  }

  predicate CursorOk(c: Core) {
    c.pool != [] ==> c.cursor < |c.pool|
  }

  /** `AtomicUsize::fetch_add(1)` and `fetch_sub(1)` wrap around. */
  function FetchAdd(x: usize): usize {
    if x + 1 == USIZE_LIMIT then 0 else x + 1
  }

  function FetchSub(x: usize): usize {
    if x == 0 then USIZE_LIMIT - 1 else x - 1
  }

  // ---------------------------------------------------------------- sessions

  function Register(c: Core, s: SessionId, p: ParticipantId): Reply<SessionId>
  {
    var found := FindRouter(c.pool, c.counters, c.cap, c.cursor);
    var moved := c.(cursor := found.cursor);
    match found.router
    case None => Reply(moved, Err(AllRoutersFull))
    case Some(r) =>
      if r !in c.counters then Reply(moved, Err(MissingRouterCounter))
      else
        Reply(moved.(counters := c.counters[r := FetchAdd(c.counters[r])],
                     sessions := c.sessions[s := Session(r, map[p := NewParticipant()], MAX_PARTICIPANTS)]),
              Ok(s))
  }

  function Join(c: Core, s: SessionId, p: ParticipantId): Reply<()> {
    if s !in c.sessions then Reply(c, Err(SessionNotFound))
    else
      var session := c.sessions[s];
      if |session.participants| >= session.maxParticipants then Reply(c, Err(SessionFull))
      else if p in session.participants then Reply(c, Err(ParticipantAlreadyExists))
      else Reply(WithParticipant(c, s, p, NewParticipant()), Ok(()))
  }

  function WithParticipant(c: Core, s: SessionId, p: ParticipantId, participant: Participant): Core
    requires s in c.sessions
  {
    var session := c.sessions[s];
    c.(sessions := c.sessions[s := session.(participants := session.participants[p := participant])])
  }

  function FindParticipant(c: Core, s: SessionId, p: ParticipantId): Result<Participant, SessionError> {
    if s !in c.sessions then Err(SessionNotFound)
    else if p !in c.sessions[s].participants then Err(ParticipantNotFound)
    else Ok(c.sessions[s].participants[p])
  }

  function CloseSession(c: Core, s: SessionId): Core {
    if s in c.sessions then
      var r := c.sessions[s].router;
      c.(sessions := c.sessions - {s},
         counters := if r in c.counters then c.counters[r := FetchSub(c.counters[r])] else c.counters,
         senders := c.senders - {s})
    else c
  }

  /** Closing the sessions of `order`, one after the other. */
  function CloseAll(c: Core, order: seq<SessionId>): Core
    decreases order
  {
    if order == [] then c else CloseAll(CloseSession(c, order[0]), order[1..])
  }

  // ---------------------------------------------------------------- media resources

  function CreateTransport(
    c: Core, s: SessionId, p: ParticipantId, direction: string, made: Option<TransportId>): Reply<PendingEventSetup>
  {
    match FindParticipant(c, s, p)
    case Err(e) => Reply(c, Err(e))
    case Ok(participant) =>
      if c.sessions[s].router !in c.servers then Reply(c, Err(MissingWebRtcServer))
      else if made.None? then Reply(c, Err(TransportCreationFailed))
      else if direction == "send" then
        Reply(WithParticipant(c, s, p, participant.(send := made)), Ok(TransportSetup(made.value, s, p)))
      else if direction == "recv" then
        Reply(WithParticipant(c, s, p, participant.(recv := made)), Ok(TransportSetup(made.value, s, p)))
      else Reply(c, Err(InvalidTransportDirection))
  }

  function CreateProducer(
    c: Core, s: SessionId, p: ParticipantId, t: TransportId, kind: MediaKind, made: Option<ProducerId>)
    : Reply<PendingEventSetup>
  {
    match FindParticipant(c, s, p)
    case Err(e) => Reply(c, Err(e))
    case Ok(participant) =>
      if participant.send != Some(t) then Reply(c, Err(InvalidTransport))
      else if made.None? then Reply(c, Err(ProducerCreationFailed))
      else
        Reply(WithParticipant(c, s, p, participant.(producers := participant.producers[made.value := kind])),
              Ok(ProducerSetup(made.value, s, p, kind)))
  }

  function CreateConsumer(
    c: Core, s: SessionId, p: ParticipantId, t: TransportId, q: ProducerId, canConsume: bool, made: Option<ConsumerId>)
    : Reply<PendingEventSetup>
  {
    match FindParticipant(c, s, p)
    case Err(e) => Reply(c, Err(e))
    case Ok(participant) =>
      if participant.recv != Some(t) then Reply(c, Err(InvalidTransport))
      else if !canConsume then Reply(c, Err(RtpCapabilitiesMismatch))
      else if made.None? then Reply(c, Err(ConsumerCreationFailed))
      else
        Reply(WithParticipant(c, s, p, participant.(consumers := participant.consumers[made.value := q])),
              Ok(ConsumerSetup(made.value, s, p)))
  }

  /** Only who sits in the sessions, and what they hold, differs. */
  predicate SameAllocation(c: Core, d: Core) {
    && d == c.(sessions := d.sessions) && d.sessions.Keys == c.sessions.Keys
    && forall s :: s in c.sessions ==> d.sessions[s] == c.sessions[s].(participants := d.sessions[s].participants)
  }

  lemma WithParticipantFrame(c: Core, s: SessionId, p: ParticipantId, participant: Participant)
    requires s in c.sessions
    ensures SameAllocation(c, WithParticipant(c, s, p, participant))
  {
  }

  /** The requests of participants change nothing but the contents of their session. */
  lemma JoinFrame(c: Core, s: SessionId, p: ParticipantId)
    ensures SameAllocation(c, Join(c, s, p).core)
  {
    if Join(c, s, p).result.Ok? { WithParticipantFrame(c, s, p, NewParticipant()); }
  }

  lemma TransportFrame(c: Core, s: SessionId, p: ParticipantId, direction: string, made: Option<TransportId>)
    ensures SameAllocation(c, CreateTransport(c, s, p, direction, made).core)
  {
    var holder := TransportSpec(c, s, p, direction, made);
    if CreateTransport(c, s, p, direction, made).result.Ok? { WithParticipantFrame(c, s, p, holder); }
  }

  lemma ProducerFrame(
    c: Core, s: SessionId, p: ParticipantId, t: TransportId, kind: MediaKind, made: Option<ProducerId>)
    ensures SameAllocation(c, CreateProducer(c, s, p, t, kind, made).core)
  {
    var holder := ProducerSpec(c, s, p, t, kind, made);
    if CreateProducer(c, s, p, t, kind, made).result.Ok? { WithParticipantFrame(c, s, p, holder); }
  }

  lemma ConsumerFrame(
    c: Core, s: SessionId, p: ParticipantId, t: TransportId, q: ProducerId, canConsume: bool, made: Option<ConsumerId>)
    ensures SameAllocation(c, CreateConsumer(c, s, p, t, q, canConsume, made).core)
  {
    var holder := ConsumerSpec(c, s, p, t, q, canConsume, made);
    if CreateConsumer(c, s, p, t, q, canConsume, made).result.Ok? { WithParticipantFrame(c, s, p, holder); }
  }

  // ---------------------------------------------------------------- events

  /** One producer of a session as `get_existing_producers_for_session` reports it. */
  datatype Listing = Listing(producer: ProducerId, kind: MediaKind, owner: ParticipantId)

  predicate Listed(session: Session, x: Listing) {
    && x.owner in session.participants
    && x.producer in session.participants[x.owner].producers
    && session.participants[x.owner].producers[x.producer] == x.kind
  }

  /** `order` lists every producer of the session once, in some order. */
  ghost predicate IsListing(session: Session, order: seq<Listing>) {
    Distinct(order) && forall x: Listing :: x in order <==> Listed(session, x)
  }

  /** What is replayed to `p` of one producer: nothing of its own. */
  function ReplayOf(p: ParticipantId, x: Listing): seq<Event> {
    if x.owner != p then [NewProducer(x.producer, x.kind)] else []
  }

  /** The announcements replayed to `p`: everyone's producers but its own. */
  function Replay(p: ParticipantId, order: seq<Listing>): (events: seq<Event>)
    decreases order
  {
    if order == [] then [] else ReplayOf(p, order[0]) + Replay(p, order[1..])
  }

  lemma {:induction false} ReplayAppends(p: ParticipantId, front: seq<Listing>, back: seq<Listing>)
    ensures Replay(p, front + back) == Replay(p, front) + Replay(p, back)
    decreases front
  {
    if front == [] {
      assert front + back == back;
    } else {
      ReplayAppends(p, front[1..], back);
      assert (front + back)[1..] == front[1..] + back;
      Associative(ReplayOf(p, front[0]), Replay(p, front[1..]), Replay(p, back));
    }
  }

  lemma Associative(a: seq<Event>, b: seq<Event>, c: seq<Event>)
    ensures (a + b) + c == a + (b + c)
  {
  }

  /** The replay after one more producer; what comes later only adds to it. */
  lemma ReplayNext(p: ParticipantId, order: seq<Listing>, i: nat)
    requires i < |order|
    ensures Replay(p, order[..i + 1]) == Replay(p, order[..i]) + ReplayOf(p, order[i])
    ensures Replay(p, order[..i + 1]) <= Replay(p, order)
  {
    assert order[..i + 1] == order[..i] + [order[i]];
    assert order == order[..i + 1] + order[i + 1..];
    ReplayAppends(p, order[..i], [order[i]]);
    ReplayAppends(p, order[..i + 1], order[i + 1..]);
  }

  /** What a subscription sends: the confirmation, then the replay. */
  function Head(s: SessionId, p: ParticipantId, order: seq<Listing>): (events: seq<Event>) {
    [SubscriptionConfirmed(s)] + Replay(p, order)
  }

  datatype SubscribeOutcome = Completed | Failed(error: SessionError) | Suspended

  datatype Subscription = Subscription(core: Core, outcome: SubscribeOutcome)

  function Opened(s: SessionId, p: ParticipantId, capacity: nat, head: seq<Event>, sent: nat, alive: bool): Channel
    requires sent <= |head|
  {
    Channel(s, p, capacity, head, head[..sent], 0, [], alive)
  }

  /** Installing the sender of channel `ch`, which replaces the participant's earlier one. */
  function Install(c: Core, ch: ChannelId, channel: Channel): Core {
    var s := channel.session;
    var mine := if s in c.senders then c.senders[s] else map[];
    c.(senders := c.senders[s := mine[channel.participant := ch]], channels := c.channels[ch := channel])
  }

  /**
   Subscribing over the new channel `ch`. The sends wait for room, and nothing takes events
   out before the call returns, so the call is suspended as soon as the channel is full. A
   channel whose receiver is already gone accepts nothing and fails the confirmation.
   */
  function Subscribe(
    c: Core, s: SessionId, p: ParticipantId, ch: ChannelId, capacity: nat, alive: bool, order: seq<Listing>)
    : Subscription
  {
    if s !in c.sessions then Subscription(c, Failed(SessionNotFound))
    else
      var head := Head(s, p, order);
      if !alive then
        Subscription(Install(c, ch, Opened(s, p, capacity, [SubscriptionConfirmed(s)], 0, false)),
                     Failed(EventChannelClosed))
      else if |head| <= capacity then
        Subscription(Install(c, ch, Opened(s, p, capacity, head, |head|, true)), Completed)
      else
        Subscription(Install(c, ch, Opened(s, p, capacity, head, capacity, true)), Suspended)
  }

  lemma InstallThenFeed(c: Core, ch: ChannelId, channel: Channel, fed: Channel)
    requires fed.session == channel.session && fed.participant == channel.participant
    ensures WithChannel(Install(c, ch, channel), ch, fed) == Install(c, ch, fed)
  {
    assert c.channels[ch := channel][ch := fed] == c.channels[ch := fed];
  }

  lemma SubscribeToNobody(
    c: Core, s: SessionId, p: ParticipantId, ch: ChannelId, capacity: nat, order: seq<Listing>, channel: Channel)
    requires s in c.sessions && channel == Channel(s, p, capacity, [SubscriptionConfirmed(s)], [], 0, [], false)
    ensures Subscribe(c, s, p, ch, capacity, false, order)
         == Subscription(Install(c, ch, channel), Failed(EventChannelClosed))
  {
  }

  /** A subscription over a live channel installs it with as much of its head as fits. */
  lemma SubscribeIs(
    c: Core, s: SessionId, p: ParticipantId, ch: ChannelId, capacity: nat, order: seq<Listing>, channel: Channel)
    requires s in c.sessions
    requires var head := Head(s, p, order);
             var sent := if |head| <= capacity then head else head[..capacity];
             channel == Channel(s, p, capacity, head, sent, 0, [], true)
    ensures var fits := |Head(s, p, order)| <= capacity;
            Subscribe(c, s, p, ch, capacity, true, order)
            == Subscription(Install(c, ch, channel), if fits then Completed else Suspended)
  {
    var head := Head(s, p, order);
    assert head[..|head|] == head;
  }

  /** `try_send`: refused without a trace when the receiver is gone, and noted when the queue is full. */
  function Offer(channel: Channel, e: Event): Channel {
    if !channel.alive then channel
    else if |channel.log| - channel.taken >= channel.capacity then channel.(refused := channel.refused + [e])
    else channel.(log := channel.log + [e])
  }

  /** The receiver takes the oldest event out of the queue. */
  function Taken(channel: Channel): Channel {
    channel.(taken := channel.taken + 1)
  }

  /** The receiver goes away. */
  function Dropped(channel: Channel): Channel {
    channel.(alive := false)
  }

  /** Only the receiving end has moved: events taken, or the receiver gone. */
  predicate ReceiverMoved(before: Channel, after: Channel) {
    && after == before.(taken := after.taken, alive := after.alive)
    && before.taken <= after.taken
    && (before.taken <= |before.log| ==> after.taken <= |after.log|)
    && (after.alive ==> before.alive)
  }

  function WithChannel(c: Core, ch: ChannelId, channel: Channel): Core {
    c.(channels := c.channels[ch := channel])
  }

  /** The channel's sender is the one installed for its participant. */
  predicate Installed(senders: map<SessionId, map<ParticipantId, ChannelId>>, ch: ChannelId, channel: Channel) {
    && channel.session in senders
    && channel.participant in senders[channel.session]
    && senders[channel.session][channel.participant] == ch
  }

  predicate Targeted(
    senders: map<SessionId, map<ParticipantId, ChannelId>>, ch: ChannelId, channel: Channel,
    s: SessionId, exclude: Option<ParticipantId>)
  {
    Installed(senders, ch, channel) && channel.session == s && exclude != Some(channel.participant)
  }

  /** The channel as a broadcast leaves it. */
  function Delivered(
    senders: map<SessionId, map<ParticipantId, ChannelId>>, ch: ChannelId, channel: Channel,
    s: SessionId, e: Event, exclude: Option<ParticipantId>): Channel
  {
    if Targeted(senders, ch, channel, s, exclude) then Offer(channel, e) else channel
  }

  /** Broadcasting offers the event to every installed channel of the session but the excluded one. */
  function Broadcast(c: Core, s: SessionId, e: Event, exclude: Option<ParticipantId>): Core {
    c.(channels := map ch | ch in c.channels :: Delivered(c.senders, ch, c.channels[ch], s, e, exclude))
  }

  /** The loop of `broadcast_event` when the sender map is iterated in `order`. */
  function BroadcastInOrder(
    c: Core, s: SessionId, e: Event, exclude: Option<ParticipantId>, order: seq<ParticipantId>): Core
    requires s in c.senders && forall p :: p in order ==> p in c.senders[s] && c.senders[s][p] in c.channels
    decreases order
  {
    if order == [] then c
    else
      var ch := c.senders[s][order[0]];
      var next := if exclude == Some(order[0]) then c else c.(channels := c.channels[ch := Offer(c.channels[ch], e)]);
      BroadcastInOrder(next, s, e, exclude, order[1..])
  }

  // ---------------------------------------------------------------- the core's own invariant

  /** The sessions a router serves. */
  ghost function Served(sessions: map<SessionId, Session>, r: RouterId): set<SessionId> {
    set s | s in sessions && sessions[s].router == r
  }

  /** The counters are an exact index of the session map, within the cap. */
  ghost predicate AllocationOk(
    pool: seq<RouterId>, servers: map<RouterId, ServerId>, cap: usize,
    sessions: map<SessionId, Session>, counters: map<RouterId, usize>)
  {
    && Distinct(pool)
    && (forall r :: r in counters <==> r in pool)
    && (forall r :: r in servers <==> r in pool)
    && (forall s :: s in sessions ==> sessions[s].router in pool)
    && (forall r :: r in counters ==> counters[r] == |Served(sessions, r)| && counters[r] <= cap)
  }

  /** Every session holds one or two participants. */
  ghost predicate PartiesOk(sessions: map<SessionId, Session>) {
    forall s :: s in sessions ==>
      sessions[s].maxParticipants == MAX_PARTICIPANTS && 1 <= |sessions[s].participants| <= MAX_PARTICIPANTS
  }

  /** Senders belong to live sessions and lead to channels opened for that session and participant. */
  ghost predicate WiringOk(
    live: set<SessionId>, senders: map<SessionId, map<ParticipantId, ChannelId>>, channels: map<ChannelId, Channel>)
  {
    && senders.Keys <= live
    && forall s, p :: s in senders && p in senders[s] ==>
         && senders[s][p] in channels
         && channels[senders[s][p]].session == s
         && channels[senders[s][p]].participant == p
  }

  ghost predicate CoreOk(c: Core) {
    match c
    case Core(pool, servers, _, cap, sessions, counters, senders, channels) =>
      && CursorOk(c)
      && AllocationOk(pool, servers, cap, sessions, counters)
      && PartiesOk(sessions)
      && WiringOk(sessions.Keys, senders, channels)
  }

  // ---------------------------------------------------------------- it is kept by every operation

  lemma ServedUnchanged(before: map<SessionId, Session>, after: map<SessionId, Session>, r: RouterId)
    requires before.Keys == after.Keys && forall s :: s in before ==> before[s].router == after[s].router
    ensures Served(after, r) == Served(before, r)
  {
  }

  lemma AddedSession(c: Core, s: SessionId, session: Session)
    requires AllocationOk(c.pool, c.servers, c.cap, c.sessions, c.counters)
    requires s !in c.sessions && HasRoom(c.counters, c.cap, session.router)
    ensures AllocationOk(c.pool, c.servers, c.cap, c.sessions[s := session],
                         c.counters[session.router := FetchAdd(c.counters[session.router])])
  {
    var r := session.router;
    var sessions := c.sessions[s := session];
    var counters := c.counters[r := FetchAdd(c.counters[r])];
    assert counters.Keys == c.counters.Keys;
    forall x | x in c.counters ensures counters[x] == |Served(sessions, x)| && counters[x] <= c.cap {
      ServedWith(c.sessions, s, session, x);
    }
  }

  lemma ServedWith(sessions: map<SessionId, Session>, s: SessionId, session: Session, r: RouterId)
    requires s !in sessions
    ensures |Served(sessions[s := session], r)| == |Served(sessions, r)| + if session.router == r then 1 else 0
  {
    assert Served(sessions[s := session], r) == Served(sessions, r) + if session.router == r then {s} else {};
  }

  lemma ServedWithout(sessions: map<SessionId, Session>, s: SessionId, r: RouterId)
    requires s in sessions
    ensures |Served(sessions - {s}, r)| == |Served(sessions, r)| - if sessions[s].router == r then 1 else 0
  {
    assert Served(sessions - {s}, r) == Served(sessions, r) - if sessions[s].router == r then {s} else {};
  }

  lemma RemovedSession(c: Core, s: SessionId)
    requires AllocationOk(c.pool, c.servers, c.cap, c.sessions, c.counters) && s in c.sessions
    ensures var r := c.sessions[s].router;
            && r in c.counters && c.counters[r] > 0
            && AllocationOk(c.pool, c.servers, c.cap, c.sessions - {s}, c.counters[r := FetchSub(c.counters[r])])
  {
    var r := c.sessions[s].router;
    var sessions := c.sessions - {s};
    var counters := c.counters[r := FetchSub(c.counters[r])];
    assert s in Served(c.sessions, r);
    assert counters.Keys == c.counters.Keys;
    forall x | x in c.counters ensures counters[x] == |Served(sessions, x)| && counters[x] <= c.cap {
      ServedWithout(c.sessions, s, x);
    }
  }

  lemma SameRouters(c: Core, sessions: map<SessionId, Session>)
    requires AllocationOk(c.pool, c.servers, c.cap, c.sessions, c.counters)
    requires sessions.Keys == c.sessions.Keys
    requires forall x :: x in c.sessions ==> sessions[x].router == c.sessions[x].router
    ensures AllocationOk(c.pool, c.servers, c.cap, sessions, c.counters)
  {
    forall r | r in c.counters ensures Served(sessions, r) == Served(c.sessions, r) {
      ServedUnchanged(c.sessions, sessions, r);
    }
  }

  lemma WiringWithin(
    live: set<SessionId>, more: set<SessionId>,
    senders: map<SessionId, map<ParticipantId, ChannelId>>, channels: map<ChannelId, Channel>)
    requires WiringOk(live, senders, channels) && live <= more
    ensures WiringOk(more, senders, channels)
  {
  }

  lemma WiringWithout(
    live: set<SessionId>, senders: map<SessionId, map<ParticipantId, ChannelId>>, channels: map<ChannelId, Channel>,
    s: SessionId)
    requires WiringOk(live, senders, channels)
    ensures WiringOk(live - {s}, senders - {s}, channels)
  {
  }

  lemma WiringWith(
    live: set<SessionId>, senders: map<SessionId, map<ParticipantId, ChannelId>>, channels: map<ChannelId, Channel>,
    ch: ChannelId, channel: Channel)
    requires WiringOk(live, senders, channels) && ch !in channels && channel.session in live
    ensures var mine := if channel.session in senders then senders[channel.session] else map[];
            WiringOk(live, senders[channel.session := mine[channel.participant := ch]], channels[ch := channel])
  {
  }

  /** Wiring depends on a channel's session and participant only. */
  lemma WiringSame(
    live: set<SessionId>, senders: map<SessionId, map<ParticipantId, ChannelId>>,
    channels: map<ChannelId, Channel>, after: map<ChannelId, Channel>)
    requires WiringOk(live, senders, channels) && after.Keys == channels.Keys
    requires forall ch :: ch in channels ==>
               after[ch].session == channels[ch].session && after[ch].participant == channels[ch].participant
    ensures WiringOk(live, senders, after)
  {
  }

  /** The core with a new session on the router at index `i`. */
  function WithSession(c: Core, s: SessionId, p: ParticipantId, i: nat): Core
    requires i < |c.pool| && c.pool[i] in c.counters
  {
    var r := c.pool[i];
    c.(cursor := Advance(|c.pool|, i),
       counters := c.counters[r := FetchAdd(c.counters[r])],
       sessions := c.sessions[s := Session(r, map[p := NewParticipant()], MAX_PARTICIPANTS)])
  }

  /**
   A registration is refused exactly when no router has room, and then changes nothing;
   otherwise it goes to the nearest router with room.
   */
  lemma RegisterSpec(c: Core, s: SessionId, p: ParticipantId) returns (i: nat)
    requires CursorOk(c)
    ensures if forall j :: 0 <= j < |c.pool| ==> !HasRoom(c.counters, c.cap, c.pool[j]) then
              Register(c, s, p) == Reply(c, Err(AllRoutersFull))
            else
              && i < |c.pool| && NearestWithRoom(c.pool, c.counters, c.cap, c.cursor, i)
              && Register(c, s, p) == Reply(WithSession(c, s, p, i), Ok(s))
  {
    FindRouterSpec(c.pool, c.counters, c.cap, c.cursor);
    var found := FindRouter(c.pool, c.counters, c.cap, c.cursor);
    i := 0;
    if found.router.Some? {
      i :| i < |c.pool| && NearestWithRoom(c.pool, c.counters, c.cap, c.cursor, i)
        && found == Scanned(Some(c.pool[i]), Advance(|c.pool|, i));
    }
  }

  /** A registration whose scan finds a router with a counter puts the session there. */
  lemma RegisterIs(c: Core, s: SessionId, p: ParticipantId, r: RouterId, cursor: nat)
    requires FindRouter(c.pool, c.counters, c.cap, c.cursor) == Scanned(Some(r), cursor) && r in c.counters
    ensures Register(c, s, p)
         == Reply(c.(cursor := cursor, counters := c.counters[r := FetchAdd(c.counters[r])],
                     sessions := c.sessions[s := Session(r, map[p := NewParticipant()], MAX_PARTICIPANTS)]),
                  Ok(s))
  {
  }

  lemma RegisterKeeps(c: Core, s: SessionId, p: ParticipantId)
    requires CoreOk(c) && s !in c.sessions
    ensures CoreOk(Register(c, s, p).core)
    ensures Register(c, s, p).result != Err(MissingRouterCounter)
    ensures Register(c, s, p).result.Err? ==> Register(c, s, p) == Reply(c, Err(AllRoutersFull))
    ensures Register(c, s, p).result.Ok? ==> Register(c, s, p).core.sessions.Keys == c.sessions.Keys + {s}
  {
    var i := RegisterSpec(c, s, p);
    if Register(c, s, p).result.Ok? {
      WithSessionKeeps(c, s, p, i);
    }
  }

  lemma WithSessionKeeps(c: Core, s: SessionId, p: ParticipantId, i: nat)
    requires CoreOk(c) && s !in c.sessions && i < |c.pool| && HasRoom(c.counters, c.cap, c.pool[i])
    ensures CoreOk(WithSession(c, s, p, i))
    ensures WithSession(c, s, p, i).sessions.Keys == c.sessions.Keys + {s}
  {
    var d := WithSession(c, s, p, i);
    assert CursorOk(d) by { ModBelow(|c.pool|, i + 1); }
    AddedSession(c, s, Session(c.pool[i], map[p := NewParticipant()], MAX_PARTICIPANTS));
    assert d.sessions.Keys == c.sessions.Keys + {s};
    WiringWithin(c.sessions.Keys, d.sessions.Keys, c.senders, c.channels);
    RegisterParties(c.sessions, s, c.pool[i], p);
  }

  lemma RegisterParties(sessions: map<SessionId, Session>, s: SessionId, r: RouterId, p: ParticipantId)
    requires PartiesOk(sessions)
    ensures PartiesOk(sessions[s := Session(r, map[p := NewParticipant()], MAX_PARTICIPANTS)])
  {
  }

  lemma WithParticipantKeeps(c: Core, s: SessionId, p: ParticipantId, participant: Participant)
    requires CoreOk(c) && s in c.sessions
    requires p in c.sessions[s].participants || |c.sessions[s].participants| < MAX_PARTICIPANTS
    ensures CoreOk(WithParticipant(c, s, p, participant))
    ensures WithParticipant(c, s, p, participant).sessions.Keys == c.sessions.Keys
  {
    var d := WithParticipant(c, s, p, participant);
    assert d.sessions.Keys == c.sessions.Keys;
    SameRouters(c, d.sessions);
    PartiesWith(c.sessions, s, p, participant);
  }

  lemma PartiesWith(sessions: map<SessionId, Session>, s: SessionId, p: ParticipantId, participant: Participant)
    requires PartiesOk(sessions) && s in sessions
    requires p in sessions[s].participants || |sessions[s].participants| < MAX_PARTICIPANTS
    ensures PartiesOk(sessions[s := sessions[s].(participants := sessions[s].participants[p := participant])])
  {
    var before := sessions[s].participants;
    var after := before[p := participant];
    assert |after| == if p in before then |before| else |before| + 1;
  }

  lemma JoinKeeps(c: Core, s: SessionId, p: ParticipantId)
    requires CoreOk(c)
    ensures CoreOk(Join(c, s, p).core)
    ensures Join(c, s, p).result.Err? ==> Join(c, s, p).core == c
    ensures Join(c, s, p).result.Ok? ==>
              && s in c.sessions && p !in c.sessions[s].participants
              && Join(c, s, p).core == WithParticipant(c, s, p, NewParticipant())
  {
    if Join(c, s, p).result.Ok? { WithParticipantKeeps(c, s, p, NewParticipant()); }
  }

  /** A created transport changes nothing but its holder's slot for that direction. */
  lemma TransportSpec(c: Core, s: SessionId, p: ParticipantId, direction: string, made: Option<TransportId>)
    returns (holder: Participant)
    ensures var r := CreateTransport(c, s, p, direction, made);
            if r.result.Ok? then
              && made.Some? && s in c.sessions && p in c.sessions[s].participants
              && r == Reply(WithParticipant(c, s, p, holder), Ok(TransportSetup(made.value, s, p)))
              && var before := c.sessions[s].participants[p];
                 holder == if direction == "send" then before.(send := made) else before.(recv := made)
            else
              r.core == c
  {
    holder := NewParticipant();
    if CreateTransport(c, s, p, direction, made).result.Ok? {
      var before := c.sessions[s].participants[p];
      holder := if direction == "send" then before.(send := made) else before.(recv := made);
    }
  }

  /** A created producer changes nothing but its holder's producers. */
  lemma ProducerSpec(c: Core, s: SessionId, p: ParticipantId, t: TransportId, kind: MediaKind, made: Option<ProducerId>)
    returns (holder: Participant)
    ensures var r := CreateProducer(c, s, p, t, kind, made);
            if r.result.Ok? then
              && made.Some? && s in c.sessions && p in c.sessions[s].participants
              && r == Reply(WithParticipant(c, s, p, holder), Ok(ProducerSetup(made.value, s, p, kind)))
              && var before := c.sessions[s].participants[p];
                 holder == before.(producers := before.producers[made.value := kind])
            else
              r.core == c
  {
    holder := NewParticipant();
    if CreateProducer(c, s, p, t, kind, made).result.Ok? {
      var before := c.sessions[s].participants[p];
      holder := before.(producers := before.producers[made.value := kind]);
    }
  }

  /** A created consumer changes nothing but its holder's consumers. */
  lemma ConsumerSpec(
    c: Core, s: SessionId, p: ParticipantId, t: TransportId, q: ProducerId, canConsume: bool, made: Option<ConsumerId>)
    returns (holder: Participant)
    ensures var r := CreateConsumer(c, s, p, t, q, canConsume, made);
            if r.result.Ok? then
              && made.Some? && s in c.sessions && p in c.sessions[s].participants
              && r == Reply(WithParticipant(c, s, p, holder), Ok(ConsumerSetup(made.value, s, p)))
              && var before := c.sessions[s].participants[p];
                 holder == before.(consumers := before.consumers[made.value := q])
            else
              r.core == c
  {
    holder := NewParticipant();
    if CreateConsumer(c, s, p, t, q, canConsume, made).result.Ok? {
      var before := c.sessions[s].participants[p];
      holder := before.(consumers := before.consumers[made.value := q]);
    }
  }

  lemma CloseSessionKeeps(c: Core, s: SessionId)
    requires CoreOk(c)
    ensures CoreOk(CloseSession(c, s))
    ensures CloseSession(c, s).sessions.Keys == c.sessions.Keys - {s}
    ensures s in c.sessions ==> c.sessions[s].router in c.counters && c.counters[c.sessions[s].router] > 0
  {
    if s in c.sessions {
      RemovedSession(c, s);
      WiringWithout(c.sessions.Keys, c.senders, c.channels, s);
      assert (c.sessions - {s}).Keys == c.sessions.Keys - {s};
      ClosedParties(c.sessions, s);
    }
  }

  lemma ClosedParties(sessions: map<SessionId, Session>, s: SessionId)
    requires PartiesOk(sessions)
    ensures PartiesOk(sessions - {s})
  {
  }

  lemma {:induction false} CloseAllKeeps(c: Core, order: seq<SessionId>)
    requires CoreOk(c)
    ensures CoreOk(CloseAll(c, order))
    ensures CloseAll(c, order).sessions.Keys == c.sessions.Keys - Elements(order)
    decreases order
  {
    if order != [] {
      var d := CloseSession(c, order[0]);
      CloseSessionKeeps(c, order[0]);
      CloseAllKeeps(d, order[1..]);
      ElementsOf(order);
    }
  }

  lemma ElementsOf(order: seq<SessionId>)
    requires order != []
    ensures Elements(order) == {order[0]} + Elements(order[1..])
  {
    assert order == [order[0]] + order[1..];
  }

  ghost function Elements(order: seq<SessionId>): set<SessionId> {
    set s | s in order
  }

  lemma InstallKeeps(c: Core, ch: ChannelId, channel: Channel)
    requires CoreOk(c) && ch !in c.channels && channel.session in c.sessions
    ensures CoreOk(Install(c, ch, channel))
  {
    WiringWith(c.sessions.Keys, c.senders, c.channels, ch, channel);
  }

  /** The receiving end of a channel is invisible to the core. */
  lemma ReceiverKeeps(c: Core, ch: ChannelId, channel: Channel)
    requires CoreOk(c) && ch in c.channels && ReceiverMoved(c.channels[ch], channel)
    ensures CoreOk(WithChannel(c, ch, channel))
  {
    var after := c.channels[ch := channel];
    assert after.Keys == c.channels.Keys;
    WiringSame(c.sessions.Keys, c.senders, c.channels, after);
  }

  lemma BroadcastKeeps(c: Core, s: SessionId, e: Event, exclude: Option<ParticipantId>)
    requires CoreOk(c)
    ensures CoreOk(Broadcast(c, s, e, exclude))
  {
    BroadcastParties(c, s, e, exclude);
    WiringSame(c.sessions.Keys, c.senders, c.channels, Broadcast(c, s, e, exclude).channels);
  }

  lemma BroadcastParties(c: Core, s: SessionId, e: Event, exclude: Option<ParticipantId>)
    ensures var after := Broadcast(c, s, e, exclude).channels;
            && after.Keys == c.channels.Keys
            && forall ch :: ch in c.channels ==>
                 after[ch].session == c.channels[ch].session && after[ch].participant == c.channels[ch].participant
  {
  }

  /**
   Shutdown drains the core whatever the key order: no sessions, no senders, every counter zero.
   */
  lemma ShutdownDrains(c: Core, order: seq<SessionId>)
    requires CoreOk(c) && Enumerates(order, c.sessions.Keys)
    ensures var d := CloseAll(c, order);
            && d.sessions == map[] && d.senders == map[]
            && (forall r :: r in d.counters <==> r in c.pool)
            && (forall r :: r in d.counters ==> d.counters[r] == 0)
  {
    CloseAllKeeps(c, order);
    var d := CloseAll(c, order);
    CloseAllPool(c, order);
    assert d.sessions.Keys == {};
    forall r | r in d.counters ensures d.counters[r] == 0 {
      assert Served(d.sessions, r) == {};
    }
  }

  lemma {:induction false} CloseAllPool(c: Core, order: seq<SessionId>)
    ensures var d := CloseAll(c, order);
            d == c.(sessions := d.sessions, counters := d.counters, senders := d.senders)
    decreases order
  {
    if order != [] { CloseAllPool(CloseSession(c, order[0]), order[1..]); }
  }

  // ---------------------------------------------------------------- broadcast order

  /** Whatever order the sender map is iterated in, the loop is the pointwise update. */
  lemma BroadcastAnyOrder(c: Core, s: SessionId, e: Event, exclude: Option<ParticipantId>, order: seq<ParticipantId>)
    requires WiringOk(c.sessions.Keys, c.senders, c.channels) && s in c.senders
    requires Enumerates(order, c.senders[s].Keys)
    ensures BroadcastInOrder(c, s, e, exclude, order) == Broadcast(c, s, e, exclude)
  {
    BroadcastPrefix(c, s, e, exclude, order);
    var d := BroadcastInOrder(c, s, e, exclude, order);
    assert d.channels == Broadcast(c, s, e, exclude).channels;
  }

  /** The channel after the loop has been through `order`. */
  function OfferedIn(
    c: Core, ch: ChannelId, s: SessionId, e: Event, exclude: Option<ParticipantId>, order: seq<ParticipantId>): Channel
    requires ch in c.channels
  {
    var channel := c.channels[ch];
    if Targeted(c.senders, ch, channel, s, exclude) && channel.participant in order then Offer(channel, e) else channel
  }

  lemma {:induction false} BroadcastPrefix(
    c: Core, s: SessionId, e: Event, exclude: Option<ParticipantId>, order: seq<ParticipantId>)
    requires WiringOk(c.sessions.Keys, c.senders, c.channels) && s in c.senders && Distinct(order)
    requires forall p :: p in order ==> p in c.senders[s]
    ensures var d := BroadcastInOrder(c, s, e, exclude, order);
            && d == c.(channels := d.channels) && d.channels.Keys == c.channels.Keys
            && forall ch :: ch in c.channels ==> d.channels[ch] == OfferedIn(c, ch, s, e, exclude, order)
    decreases order
  {
    if order != [] {
      var p := order[0];
      var ch := c.senders[s][p];
      var next := if exclude == Some(p) then c else c.(channels := c.channels[ch := Offer(c.channels[ch], e)]);
      BroadcastToOne(c, s, e, exclude, p, next);
      assert order == [p] + order[1..];
      BroadcastPrefix(next, s, e, exclude, order[1..]);
      forall x | x in c.channels
        ensures OfferedIn(next, x, s, e, exclude, order[1..]) == OfferedIn(c, x, s, e, exclude, order)
      {
        OfferedNext(c, next, x, s, e, exclude, order);
      }
    }
  }

  lemma OfferedNext(
    c: Core, next: Core, ch: ChannelId, s: SessionId, e: Event, exclude: Option<ParticipantId>,
    order: seq<ParticipantId>)
    requires ch in c.channels && ch in next.channels && next.senders == c.senders && order != [] && Distinct(order)
    requires next.channels[ch] == OfferedIn(c, ch, s, e, exclude, [order[0]])
    ensures OfferedIn(next, ch, s, e, exclude, order[1..]) == OfferedIn(c, ch, s, e, exclude, order)
  {
    assert order == [order[0]] + order[1..];
  }

  /** One round of the loop reaches the channel of `p` alone. */
  lemma BroadcastToOne(
    c: Core, s: SessionId, e: Event, exclude: Option<ParticipantId>, p: ParticipantId, next: Core)
    requires WiringOk(c.sessions.Keys, c.senders, c.channels) && s in c.senders && p in c.senders[s]
    requires var ch := c.senders[s][p];
             next == if exclude == Some(p) then c else c.(channels := c.channels[ch := Offer(c.channels[ch], e)])
    ensures WiringOk(c.sessions.Keys, c.senders, next.channels)
    ensures next == c.(channels := next.channels) && next.channels.Keys == c.channels.Keys
    ensures forall ch :: ch in c.channels ==> next.channels[ch] == OfferedIn(c, ch, s, e, exclude, [p])
  {
    assert next.channels.Keys == c.channels.Keys;
    WiringSame(c.sessions.Keys, c.senders, c.channels, next.channels);
  }
}
