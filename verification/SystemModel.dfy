/**
 The whole control plane as a state machine: the locked core, the tasks spawned to broadcast
 later, one close flag per media resource, and the receiving ends of the channels.

 Every request runs under one lock, so it is one step. A label carries everything the code
 does not decide itself: fresh ids, mediasoup's answers, hash map orders, and which of the
 waiting tasks runs next. A request may also be dropped by its caller while it waits.
 */
module SystemModel {
  import opened Types
  import opened RouterPool
  import opened CoreModel

  /** A spawned task that will take the lock and broadcast. */
  datatype Task = Task(session: SessionId, event: Event, exclude: Option<ParticipantId>)

  /** The close flag shared by all close callbacks of one resource, and the session they report to. */
  datatype Closer = Closer(session: SessionId, closed: bool)

  /** Who created a producer, and of which kind. */
  datatype Origin = Origin(session: SessionId, participant: ParticipantId, kind: MediaKind)

  /**
   `lock` names the channel of a subscription that is suspended inside the lock, if any.
   `finished`, `origins` and `used` are history: the tasks that have run, every producer ever
   created, and every session id ever drawn.
   */
  datatype System = System(
    core: Core,
    capacity: nat,
    lock: Option<ChannelId>,
    closers: map<Resource, Closer>,
    pending: multiset<Task>,
    finished: multiset<Task>,
    origins: map<ProducerId, Origin>,
    used: set<SessionId>)

  datatype Label =
    | Register(session: SessionId, participant: ParticipantId)
    | AbandonRegister(passed: nat)
    | Join(session: SessionId, participant: ParticipantId)
    | CreateTransport(session: SessionId, participant: ParticipantId, direction: string, transport: Option<TransportId>)
    | CreateProducer(session: SessionId, participant: ParticipantId, on: TransportId, kind: MediaKind,
                     producer: Option<ProducerId>)
    | CreateConsumer(session: SessionId, participant: ParticipantId, on: TransportId, source: ProducerId,
                     canConsume: bool, consumer: Option<ConsumerId>)
    | Close(session: SessionId)
    | Subscribe(session: SessionId, participant: ParticipantId, channel: ChannelId, order: seq<Listing>)
    | AbandonSubscribe(session: SessionId, participant: ParticipantId, channel: ChannelId, order: seq<Listing>,
                       sent: nat)
    | CancelSuspended
    | RunTask(task: Task)
    | FireClose(resource: Resource)
    | Receive(channel: ChannelId)
    | DropReceiver(channel: ChannelId)
    | Shutdown(keys: seq<SessionId>)

  /** The steps that have to take the core lock. */
  predicate NeedsLock(l: Label) {
    !l.CancelSuspended? && !l.FireClose? && !l.Receive? && !l.DropReceiver?
  }

  /** What the environment may do in a state; every refused request is a step too. */
  ghost predicate Enabled(st: System, l: Label) {
    match st
    case System(core, capacity, lock, closers, pending, _, _, used) =>
      && (NeedsLock(l) ==> lock.None?)
      && match l
         case Register(s, _) => s !in used
         case AbandonRegister(passed) => CanAbandon(core, passed)
         case Join(_, _) => true
         case CreateTransport(_, _, _, made) => made.Some? ==> TransportResource(made.value) !in closers
         case CreateProducer(_, _, _, _, made) => made.Some? ==> ProducerResource(made.value) !in closers
         case CreateConsumer(_, _, _, _, _, made) => made.Some? ==> ConsumerResource(made.value) !in closers
         case Close(_) => true
         case Subscribe(s, _, ch, order) =>
           ch !in core.channels && (s in core.sessions ==> IsListing(core.sessions[s], order))
         case AbandonSubscribe(s, p, ch, order, sent) =>
           && ch !in core.channels && s in core.sessions && IsListing(core.sessions[s], order)
           && sent < |Head(s, p, order)| && sent <= capacity
         case CancelSuspended => lock.Some?
         case RunTask(t) => t in pending
         case FireClose(r) => r in closers
         case Receive(ch) =>
           && ch in core.channels && lock != Some(ch) && core.channels[ch].alive
           && core.channels[ch].taken < |core.channels[ch].log|
         case DropReceiver(ch) => ch in core.channels && lock != Some(ch)
         case Shutdown(keys) => Enumerates(keys, core.sessions.Keys)
  }

  /** A registration dropped while it waits for the cursor has passed only routers without room. */
  ghost predicate CanAbandon(c: Core, passed: nat) {
    c.cursor < |c.pool| ==> passed <= |c.pool| && FullBetween(c.pool, c.counters, c.cap, c.cursor, passed)
  }

  function CloseEvent(r: Resource): Event {
    Closed(r)
  }

  /** The close callbacks exclude nobody. */
  function CloseTask(s: SessionId, r: Resource): Task {
    Task(s, CloseEvent(r), None)
  }

  /** The announcement of a new producer leaves its creator out. */
  function AnnounceTask(q: ProducerId, o: Origin): Task {
    Task(o.session, NewProducer(q, o.kind), Some(o.participant))
  }

  function ResourceOf(setup: PendingEventSetup): Resource {
    match setup
    case TransportSetup(t, _, _) => TransportResource(t)
    case ProducerSetup(q, _, _, _) => ProducerResource(q)
    case ConsumerSetup(c, _, _) => ConsumerResource(c)
  }

  /** Installing the close callbacks, and spawning the announcement of a producer. */
  function SetUp(st: System, setup: PendingEventSetup): System {
    var watched := st.(closers := st.closers[ResourceOf(setup) := Closer(setup.session, false)]);
    if setup.ProducerSetup? then
      var o := Origin(setup.session, setup.participant, setup.kind);
      watched.(origins := st.origins[setup.producer := o],
               pending := st.pending + multiset{AnnounceTask(setup.producer, o)})
    else watched
  }

  /** The handler's loop over several setups. */
  function SetUpAll(st: System, setups: seq<PendingEventSetup>): System
    decreases setups
  {
    if setups == [] then st else SetUpAll(SetUp(st, setups[0]), setups[1..])
  }

  /** A request that yields something to set up does so after the lock is released. */
  function Created(st: System, r: Reply<PendingEventSetup>): System {
    var done := st.(core := r.core);
    if r.result.Ok? then SetUp(done, r.result.value) else done
  }

  ghost function Next(st: System, l: Label): System
    requires Enabled(st, l)
  {
    match l
    case Register(s, p) => st.(core := CoreModel.Register(st.core, s, p).core, used := st.used + {s})
    case AbandonRegister(passed) =>
      if |st.core.pool| <= st.core.cursor then st
      else st.(core := st.core.(cursor := Ahead(|st.core.pool|, st.core.cursor, passed)))
    case Join(s, p) => st.(core := CoreModel.Join(st.core, s, p).core)
    case CreateTransport(s, p, direction, made) =>
      Created(st, CoreModel.CreateTransport(st.core, s, p, direction, made))
    case CreateProducer(s, p, t, kind, made) => Created(st, CoreModel.CreateProducer(st.core, s, p, t, kind, made))
    case CreateConsumer(s, p, t, q, canConsume, made) =>
      Created(st, CoreModel.CreateConsumer(st.core, s, p, t, q, canConsume, made))
    case Close(s) => st.(core := CloseSession(st.core, s))
    case Subscribe(s, p, ch, order) =>
      var sub := CoreModel.Subscribe(st.core, s, p, ch, st.capacity, true, order);
      st.(core := sub.core, lock := if sub.outcome.Suspended? then Some(ch) else None)
    case AbandonSubscribe(s, p, ch, order, sent) =>
      st.(core := Install(st.core, ch, Opened(s, p, st.capacity, Head(s, p, order), sent, false)))
    case CancelSuspended =>
      var ch := st.lock.value;
      st.(core := if ch in st.core.channels then WithChannel(st.core, ch, Dropped(st.core.channels[ch])) else st.core,
          lock := None)
    case RunTask(t) =>
      st.(core := Broadcast(st.core, t.session, t.event, t.exclude),
          pending := st.pending - multiset{t}, finished := st.finished + multiset{t})
    case FireClose(r) =>
      if st.closers[r].closed then st
      else st.(closers := st.closers[r := st.closers[r].(closed := true)],
               pending := st.pending + multiset{CloseTask(st.closers[r].session, r)})
    case Receive(ch) => st.(core := WithChannel(st.core, ch, Taken(st.core.channels[ch])))
    case DropReceiver(ch) => st.(core := WithChannel(st.core, ch, Dropped(st.core.channels[ch])))
    case Shutdown(keys) => st.(core := CloseAll(st.core, keys))
  }

  // ---------------------------------------------------------------- runs

  ghost predicate StartOk(st: System) {
    && CoreOk(st.core) && st.core.cursor == 0
    && st.core.sessions == map[] && st.core.senders == map[] && st.core.channels == map[]
    && 1 <= st.capacity && st.lock == None
    && st.closers == map[] && st.pending == multiset{} && st.finished == multiset{}
    && st.origins == map[] && st.used == {}
  }

  ghost predicate Step(before: System, l: Label, after: System) {
    Enabled(before, l) && after == Next(before, l)
  }

  /** The states a run passes through, and the label that leads from each to the next. */
  datatype Run = Run(states: seq<System>, labels: seq<Label>)

  /** State `i` is a start state, or the state before it leads there. */
  ghost predicate ReachedAt(run: Run, i: nat)
    requires i < |run.states| == |run.labels| + 1
  {
    if i == 0 then StartOk(run.states[0]) else Step(run.states[i - 1], run.labels[i - 1], run.states[i])
  }

  /** A run from a start state; `run.states[k]` is an arbitrary reachable state. */
  ghost predicate IsRun(run: Run) {
    |run.states| == |run.labels| + 1 && forall i: nat :: i < |run.states| ==> ReachedAt(run, i)
  }
}
