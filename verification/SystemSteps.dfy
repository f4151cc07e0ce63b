/** Every step keeps the system invariant, so it holds after every run. */
module SystemSteps {
  import opened Types
  import opened RouterPool
  import opened CoreModel
  import opened SystemModel
  import opened SystemInvariant

  // ---------------------------------------------------------------- sessions and who holds what

  lemma OriginsWithSession(st: System, s: SessionId, session: Session)
    requires OriginsOk(st.core.sessions, st.origins, st.used, st.closers) && s !in st.used
    requires forall p :: p in session.participants ==> session.participants[p].producers == map[]
    ensures OriginsOk(st.core.sessions[s := session], st.origins, st.used + {s}, st.closers)
  {
    var after := st.core.sessions[s := session];
    forall q, o | Holds(after, q, o) ensures q in st.origins && st.origins[q] == o {
      assert Holds(st.core.sessions, q, o);
    }
    forall q | q in st.origins && st.origins[q].session in after ensures Holds(after, q, st.origins[q]) {
      assert Holds(st.core.sessions, q, st.origins[q]);
    }
  }

  lemma OriginsWithout(st: System, s: SessionId)
    requires OriginsOk(st.core.sessions, st.origins, st.used, st.closers)
    ensures OriginsOk(st.core.sessions - {s}, st.origins, st.used, st.closers)
  {
    var after := st.core.sessions - {s};
    forall q, o | Holds(after, q, o) ensures q in st.origins && st.origins[q] == o {
      assert Holds(st.core.sessions, q, o);
    }
    forall q | q in st.origins && st.origins[q].session in after ensures Holds(after, q, st.origins[q]) {
      assert Holds(st.core.sessions, q, st.origins[q]);
    }
  }

  /** The producers a participant has, none when it is not in the session. */
  function ProducersOf(session: Session, p: ParticipantId): map<ProducerId, MediaKind> {
    if p in session.participants then session.participants[p].producers else map[]
  }

  lemma OriginsWithParticipant(st: System, s: SessionId, p: ParticipantId, participant: Participant)
    requires OriginsOk(st.core.sessions, st.origins, st.used, st.closers) && s in st.core.sessions
    requires participant.producers == ProducersOf(st.core.sessions[s], p)
    ensures OriginsOk(WithParticipant(st.core, s, p, participant).sessions, st.origins, st.used, st.closers)
  {
    var after := WithParticipant(st.core, s, p, participant).sessions;
    forall q, o | Holds(after, q, o) ensures q in st.origins && st.origins[q] == o {
      assert Holds(st.core.sessions, q, o);
    }
    forall q | q in st.origins && st.origins[q].session in after ensures Holds(after, q, st.origins[q]) {
      assert Holds(st.core.sessions, q, st.origins[q]);
    }
    assert after.Keys == st.core.sessions.Keys;
  }

  lemma OriginsWithProducer(
    st: System, s: SessionId, p: ParticipantId, participant: Participant, q: ProducerId, o: Origin, closer: Closer)
    requires OriginsOk(st.core.sessions, st.origins, st.used, st.closers)
    requires s in st.core.sessions && p in st.core.sessions[s].participants && q !in st.origins
    requires o.session == s && o.participant == p
    requires participant.producers == st.core.sessions[s].participants[p].producers[q := o.kind]
    ensures OriginsOk(WithParticipant(st.core, s, p, participant).sessions, st.origins[q := o], st.used,
                      st.closers[ProducerResource(q) := closer])
  {
    var after := WithParticipant(st.core, s, p, participant).sessions;
    var origins := st.origins[q := o];
    forall x, y | Holds(after, x, y) ensures x in origins && origins[x] == y {
      if !(x == q && y == o) { assert Holds(st.core.sessions, x, y); }
    }
    forall x | x in origins && origins[x].session in after ensures Holds(after, x, origins[x]) {
      if x != q { assert Holds(st.core.sessions, x, st.origins[x]); }
    }
    assert after.Keys == st.core.sessions.Keys;
  }

  lemma OriginsWithCloser(st: System, r: Resource, closer: Closer)
    requires OriginsOk(st.core.sessions, st.origins, st.used, st.closers)
    ensures OriginsOk(st.core.sessions, st.origins, st.used, st.closers[r := closer])
  {
  }

  // ---------------------------------------------------------------- tasks

  lemma TasksWithResource(st: System, r: Resource, s: SessionId)
    requires TasksOk(st.pending, st.finished, st.origins, st.closers) && r !in st.closers
    ensures TasksOk(st.pending, st.finished, st.origins, st.closers[r := Closer(s, false)])
  {
    assert !TaskHasSource(CloseTask(s, r), st.origins, st.closers);
  }

  lemma TasksWithProducer(st: System, q: ProducerId, o: Origin)
    requires TasksOk(st.pending, st.finished, st.origins, st.closers) && q !in st.origins
    ensures TasksOk(st.pending + multiset{AnnounceTask(q, o)}, st.finished, st.origins[q := o], st.closers)
  {
    var t := AnnounceTask(q, o);
    var pending, origins := st.pending + multiset{t}, st.origins[q := o];
    assert !TaskHasSource(t, st.origins, st.closers);
    forall x | x in pending || x in st.finished ensures TaskHasSource(x, origins, st.closers) {
      if x != t { assert TaskHasSource(x, st.origins, st.closers); }
    }
    forall x | x in origins
      ensures pending[AnnounceTask(x, origins[x])] + st.finished[AnnounceTask(x, origins[x])] == 1
    {
      assert x != q ==> AnnounceTask(x, origins[x]) != t;
    }
  }

  lemma TasksWithClosing(st: System, r: Resource)
    requires TasksOk(st.pending, st.finished, st.origins, st.closers) && r in st.closers && !st.closers[r].closed
    ensures TasksOk(st.pending + multiset{CloseTask(st.closers[r].session, r)}, st.finished, st.origins,
                    st.closers[r := st.closers[r].(closed := true)])
  {
  }

  lemma TasksWithFinished(st: System, t: Task)
    requires TasksOk(st.pending, st.finished, st.origins, st.closers) && t in st.pending
    ensures TasksOk(st.pending - multiset{t}, st.finished + multiset{t}, st.origins, st.closers)
  {
  }

  // ---------------------------------------------------------------- the steps, kind by kind

  /** A step that touches sessions and counters only, or drops senders. */
  lemma CoreStepKeeps(st: System, after: System)
    requires Inv(st) && CoreOk(after.core)
    requires after == st.(core := after.core, used := after.used)
    requires after.core.channels == st.core.channels
    requires forall s :: s in after.core.senders ==> s in st.core.senders && after.core.senders[s] == st.core.senders[s]
    requires OriginsOk(after.core.sessions, after.origins, after.used, after.closers)
    ensures Inv(after)
  {
    forall ch | ch in after.core.channels ensures ChannelOk(ch, after.core.channels[ch], after) {
      ChannelUntouched(ch, st.core.channels[ch], st, after);
    }
  }

  lemma NewSessionStep(st: System, s: SessionId, p: ParticipantId, i: nat)
    requires Inv(st) && s !in st.used
    requires i < |st.core.pool| && HasRoom(st.core.counters, st.core.cap, st.core.pool[i])
    ensures Inv(st.(core := WithSession(st.core, s, p, i), used := st.used + {s}))
  {
    var core := WithSession(st.core, s, p, i);
    WithSessionKeeps(st.core, s, p, i);
    NewSessionOrigins(st, s, p, i);
    CoreStepKeeps(st, st.(core := core, used := st.used + {s}));
  }

  lemma NewSessionOrigins(st: System, s: SessionId, p: ParticipantId, i: nat)
    requires OriginsOk(st.core.sessions, st.origins, st.used, st.closers) && s !in st.used
    requires i < |st.core.pool| && st.core.pool[i] in st.core.counters
    ensures OriginsOk(WithSession(st.core, s, p, i).sessions, st.origins, st.used + {s}, st.closers)
  {
    OriginsWithSession(st, s, WithSession(st.core, s, p, i).sessions[s]);
  }

  lemma RegisterStep(st: System, s: SessionId, p: ParticipantId)
    requires Inv(st) && Enabled(st, Label.Register(s, p))
    ensures Inv(Next(st, Label.Register(s, p)))
  {
    var i := RegisterSpec(st.core, s, p);
    if forall j :: 0 <= j < |st.core.pool| ==> !HasRoom(st.core.counters, st.core.cap, st.core.pool[j]) {
      CoreStepKeeps(st, st.(used := st.used + {s}));
    } else {
      NewSessionStep(st, s, p, i);
    }
  }

  lemma AbandonRegisterStep(st: System, passed: nat)
    requires Inv(st) && Enabled(st, AbandonRegister(passed))
    ensures Inv(Next(st, AbandonRegister(passed)))
  {
    var after := Next(st, AbandonRegister(passed));
    if st.core.cursor < |st.core.pool| {
      AheadIs(|st.core.pool|, st.core.cursor, passed);
    }
    CoreStepKeeps(st, after);
  }

  lemma JoinStep(st: System, s: SessionId, p: ParticipantId)
    requires Inv(st) && Enabled(st, Label.Join(s, p))
    ensures Inv(Next(st, Label.Join(s, p)))
  {
    JoinKeeps(st.core, s, p);
    if CoreModel.Join(st.core, s, p).result.Ok? {
      OriginsWithParticipant(st, s, p, NewParticipant());
      CoreStepKeeps(st, st.(core := CoreModel.Join(st.core, s, p).core));
    } else {
      assert Next(st, Label.Join(s, p)) == st;
    }
  }

  lemma CloseStep(st: System, s: SessionId)
    requires Inv(st)
    ensures Inv(st.(core := CloseSession(st.core, s)))
  {
    CloseSessionKeeps(st.core, s);
    CloseFrame(st.core, s);
    OriginsWithout(st, s);
    CoreStepKeeps(st, st.(core := CloseSession(st.core, s)));
  }

  lemma CloseFrame(c: Core, s: SessionId)
    ensures CloseSession(c, s).channels == c.channels && CloseSession(c, s).sessions == c.sessions - {s}
    ensures forall x :: x in CloseSession(c, s).senders ==>
              x in c.senders && CloseSession(c, s).senders[x] == c.senders[x]
  {
    if s !in c.sessions { assert c.sessions - {s} == c.sessions; }
  }

  lemma {:induction false} CloseAllStep(st: System, keys: seq<SessionId>)
    requires Inv(st)
    ensures Inv(st.(core := CloseAll(st.core, keys)))
    decreases keys
  {
    if keys != [] {
      CloseStep(st, keys[0]);
      CloseAllStep(st.(core := CloseSession(st.core, keys[0])), keys[1..]);
    }
  }

  /** A media resource other than a producer: its holder changes, and its close flag is set up. */
  lemma ResourceStep(st: System, s: SessionId, p: ParticipantId, participant: Participant, r: Resource)
    requires Inv(st) && s in st.core.sessions && p in st.core.sessions[s].participants && r !in st.closers
    requires participant.producers == st.core.sessions[s].participants[p].producers
    ensures Inv(st.(core := WithParticipant(st.core, s, p, participant), closers := st.closers[r := Closer(s, false)]))
  {
    var core := WithParticipant(st.core, s, p, participant);
    var after := st.(core := core, closers := st.closers[r := Closer(s, false)]);
    WithParticipantKeeps(st.core, s, p, participant);
    OriginsWithParticipant(st, s, p, participant);
    OriginsWithCloser(st.(core := core), r, Closer(s, false));
    TasksWithResource(st, r, s);
    forall ch | ch in after.core.channels ensures ChannelOk(ch, after.core.channels[ch], after) {
      ChannelBesideResource(ch, st.core.channels[ch], st, after, r, Closer(s, false));
    }
  }

  lemma TransportStep(st: System, s: SessionId, p: ParticipantId, direction: string, made: Option<TransportId>)
    requires Inv(st) && Enabled(st, Label.CreateTransport(s, p, direction, made))
    ensures Inv(Next(st, Label.CreateTransport(s, p, direction, made)))
  {
    var holder := TransportSpec(st.core, s, p, direction, made);
    if CoreModel.CreateTransport(st.core, s, p, direction, made).result.Ok? {
      ResourceStep(st, s, p, holder, TransportResource(made.value));
    }
  }

  lemma ConsumerStep(
    st: System, s: SessionId, p: ParticipantId, t: TransportId, q: ProducerId, canConsume: bool,
    made: Option<ConsumerId>)
    requires Inv(st) && Enabled(st, Label.CreateConsumer(s, p, t, q, canConsume, made))
    ensures Inv(Next(st, Label.CreateConsumer(s, p, t, q, canConsume, made)))
  {
    var holder := ConsumerSpec(st.core, s, p, t, q, canConsume, made);
    if CoreModel.CreateConsumer(st.core, s, p, t, q, canConsume, made).result.Ok? {
      ResourceStep(st, s, p, holder, ConsumerResource(made.value));
    }
  }

  lemma NewProducerStep(st: System, s: SessionId, p: ParticipantId, kind: MediaKind, q: ProducerId)
    requires Inv(st) && s in st.core.sessions && p in st.core.sessions[s].participants
    requires ProducerResource(q) !in st.closers
    ensures var earlier := st.core.sessions[s].participants[p];
            Inv(SetUp(st.(core := WithParticipant(st.core, s, p, earlier.(producers := earlier.producers[q := kind]))),
                      ProducerSetup(q, s, p, kind)))
  {
    var before := st.core.sessions[s].participants[p];
    var participant := before.(producers := before.producers[q := kind]);
    var core := WithParticipant(st.core, s, p, participant);
    var o := Origin(s, p, kind);
    var r := ProducerResource(q);
    var watched := st.(core := core, closers := st.closers[r := Closer(s, false)]);
    var after := SetUp(st.(core := core), ProducerSetup(q, s, p, kind));
    WithParticipantKeeps(st.core, s, p, participant);
    OriginsWithProducer(st, s, p, participant, q, o, Closer(s, false));
    TasksWithResource(st, r, s);
    TasksWithProducer(watched, q, o);
    forall ch | ch in after.core.channels ensures ChannelOk(ch, after.core.channels[ch], after) {
      ChannelBesideResource(ch, st.core.channels[ch], st, watched, r, Closer(s, false));
      ChannelBesideProducer(ch, st.core.channels[ch], watched, after, q, o);
    }
  }

  lemma ProducerStep(
    st: System, s: SessionId, p: ParticipantId, t: TransportId, kind: MediaKind, made: Option<ProducerId>)
    requires Inv(st) && Enabled(st, Label.CreateProducer(s, p, t, kind, made))
    ensures Inv(Next(st, Label.CreateProducer(s, p, t, kind, made)))
  {
    var holder := ProducerSpec(st.core, s, p, t, kind, made);
    if CoreModel.CreateProducer(st.core, s, p, t, kind, made).result.Ok? {
      NewProducerStep(st, s, p, kind, made.value);
    }
  }

  lemma OpenChannels(
    st: System, after: System, s: SessionId, p: ParticipantId, ch: ChannelId, order: seq<Listing>, sent: nat,
    alive: bool)
    requires forall x :: x in st.core.channels ==> ChannelOk(x, st.core.channels[x], st)
    requires OriginsOk(st.core.sessions, st.origins, st.used, st.closers)
    requires st.lock.None? && ch !in st.core.channels
    requires s in st.core.sessions && IsListing(st.core.sessions[s], order)
    requires sent <= |Head(s, p, order)| && sent <= st.capacity
    requires sent < |Head(s, p, order)| ==> !alive || after.lock == Some(ch)
    requires after == st.(core := Install(st.core, ch, Opened(s, p, st.capacity, Head(s, p, order), sent, alive)),
                          lock := after.lock)
    requires after.lock == None || after.lock == Some(ch)
    ensures forall x :: x in after.core.channels ==> ChannelOk(x, after.core.channels[x], after)
  {
    forall x | x in after.core.channels ensures ChannelOk(x, after.core.channels[x], after) {
      if x == ch {
        OpenedOk(st, after, s, p, ch, order, sent, alive);
      } else {
        ChannelUntouched(x, st.core.channels[x], st, after);
      }
    }
  }

  /** Opening a channel that got `sent` events of its head out, alive only when complete or suspended. */
  lemma OpenStep(
    st: System, s: SessionId, p: ParticipantId, ch: ChannelId, order: seq<Listing>, sent: nat, alive: bool,
    suspended: bool)
    requires Inv(st) && st.lock.None? && ch !in st.core.channels
    requires s in st.core.sessions && IsListing(st.core.sessions[s], order)
    requires sent <= |Head(s, p, order)| && sent <= st.capacity
    requires suspended ==> alive && sent == st.capacity < |Head(s, p, order)|
    requires sent < |Head(s, p, order)| ==> !alive || suspended
    ensures Inv(st.(core := Install(st.core, ch, Opened(s, p, st.capacity, Head(s, p, order), sent, alive)),
                    lock := if suspended then Some(ch) else None))
  {
    var channel := Opened(s, p, st.capacity, Head(s, p, order), sent, alive);
    var after := st.(core := Install(st.core, ch, channel), lock := if suspended then Some(ch) else None);
    InstallKeeps(st.core, ch, channel);
    OpenChannels(st, after, s, p, ch, order, sent, alive);
  }

  lemma AbandonSubscribeStep(
    st: System, s: SessionId, p: ParticipantId, ch: ChannelId, order: seq<Listing>, sent: nat)
    requires Inv(st) && Enabled(st, AbandonSubscribe(s, p, ch, order, sent))
    ensures Inv(Next(st, AbandonSubscribe(s, p, ch, order, sent)))
  {
    OpenStep(st, s, p, ch, order, sent, false, false);
  }

  lemma SubscribeStep(st: System, s: SessionId, p: ParticipantId, ch: ChannelId, order: seq<Listing>)
    requires Inv(st) && Enabled(st, Label.Subscribe(s, p, ch, order))
    ensures Inv(Next(st, Label.Subscribe(s, p, ch, order)))
  {
    if s in st.core.sessions {
      var head := Head(s, p, order);
      if |head| <= st.capacity {
        OpenStep(st, s, p, ch, order, |head|, true, false);
      } else {
        OpenStep(st, s, p, ch, order, st.capacity, true, true);
      }
    } else {
      assert Next(st, Label.Subscribe(s, p, ch, order)) == st;
    }
  }

  lemma RunTaskChannels(st: System, after: System, t: Task)
    requires forall ch :: ch in st.core.channels ==> ChannelOk(ch, st.core.channels[ch], st)
    requires st.lock.None? && TaskHasSource(t, st.origins, st.closers)
    requires after == st.(core := Broadcast(st.core, t.session, t.event, t.exclude), pending := after.pending,
                          finished := st.finished + multiset{t})
    ensures forall ch :: ch in after.core.channels ==> ChannelOk(ch, after.core.channels[ch], after)
  {
    forall ch | ch in after.core.channels ensures ChannelOk(ch, after.core.channels[ch], after) {
      ChannelAfterOffer(ch, st.core.channels[ch], st, after, t);
      assert after.core.channels[ch] == Reached(ch, st.core.channels[ch], st, t);
    }
  }

  lemma RunTaskStep(st: System, t: Task)
    requires Inv(st) && Enabled(st, RunTask(t))
    ensures Inv(Next(st, RunTask(t)))
  {
    BroadcastKeeps(st.core, t.session, t.event, t.exclude);
    TasksWithFinished(st, t);
    RunTaskChannels(st, Next(st, RunTask(t)), t);
  }

  lemma FireCloseStep(st: System, r: Resource)
    requires Inv(st) && Enabled(st, FireClose(r))
    ensures Inv(Next(st, FireClose(r)))
  {
    if !st.closers[r].closed {
      var after := Next(st, FireClose(r));
      OriginsWithCloser(st, r, after.closers[r]);
      TasksWithClosing(st, r);
      forall ch | ch in after.core.channels ensures ChannelOk(ch, after.core.channels[ch], after) {
        ChannelBesideClosing(ch, st.core.channels[ch], st, after, r);
      }
    }
  }

  /** The receiving end takes events or goes away; the sending side does not notice. */
  lemma ReceiverStep(st: System, after: System, ch: ChannelId, channel: Channel)
    requires Inv(st) && ch in st.core.channels && ReceiverMoved(st.core.channels[ch], channel)
    requires after == st.(core := WithChannel(st.core, ch, channel), lock := after.lock)
    requires || (after.lock == st.lock && st.lock != Some(ch))
             || (after.lock == None && st.lock == Some(ch) && !channel.alive)
    ensures Inv(after)
  {
    ReceiverKeeps(st.core, ch, channel);
    ReceiverChannels(st, after, ch, channel);
  }

  lemma ReceiverChannels(st: System, after: System, ch: ChannelId, channel: Channel)
    requires forall x :: x in st.core.channels ==> ChannelOk(x, st.core.channels[x], st)
    requires ch in st.core.channels && ReceiverMoved(st.core.channels[ch], channel)
    requires after == st.(core := WithChannel(st.core, ch, channel), lock := after.lock)
    requires after.lock == st.lock || (after.lock == None && st.lock == Some(ch) && !channel.alive)
    ensures forall x :: x in after.core.channels ==> ChannelOk(x, after.core.channels[x], after)
  {
    forall x | x in after.core.channels ensures ChannelOk(x, after.core.channels[x], after) {
      if x == ch {
        ReceiverChannel(ch, st.core.channels[ch], channel, st, after);
      } else {
        BystanderChannel(x, st.core.channels[x], st, after, ch);
      }
    }
  }

  lemma BystanderChannel(x: ChannelId, channel: Channel, st: System, after: System, ch: ChannelId)
    requires ChannelOk(x, channel, st) && x != ch
    requires after == st.(core := after.core, lock := after.lock) && after.core.senders == st.core.senders
    requires after.lock == st.lock || (after.lock == None && st.lock == Some(ch))
    ensures ChannelOk(x, channel, after)
  {
  }

  lemma ReceiverChannel(ch: ChannelId, channel: Channel, next: Channel, st: System, after: System)
    requires ChannelOk(ch, channel, st) && ReceiverMoved(channel, next)
    requires after == st.(core := after.core, lock := after.lock) && after.core.senders == st.core.senders
    requires after.lock == st.lock || !next.alive
    ensures ChannelOk(ch, next, after)
  {
    forall e | e in next.head || e in next.log || e in next.refused
      ensures EventHasSource(e, next, after.origins, after.closers)
    {
      assert EventHasSource(e, channel, st.origins, st.closers);
    }
    forall e ensures Seen(next, e) == Seen(channel, e) { }
  }

  lemma CancelStep(st: System)
    requires Inv(st) && Enabled(st, CancelSuspended)
    ensures Inv(Next(st, CancelSuspended))
  {
    var ch := st.lock.value;
    ReceiverStep(st, Next(st, CancelSuspended), ch, Dropped(st.core.channels[ch]));
  }

  lemma ReceiveStep(st: System, ch: ChannelId)
    requires Inv(st) && Enabled(st, Receive(ch))
    ensures Inv(Next(st, Receive(ch)))
  {
    ReceiverStep(st, Next(st, Receive(ch)), ch, Taken(st.core.channels[ch]));
  }

  lemma DropStep(st: System, ch: ChannelId)
    requires Inv(st) && Enabled(st, DropReceiver(ch))
    ensures Inv(Next(st, DropReceiver(ch)))
  {
    ReceiverStep(st, Next(st, DropReceiver(ch)), ch, Dropped(st.core.channels[ch]));
  }

  // ---------------------------------------------------------------- every step, every run

  lemma StepKeeps(st: System, l: Label)
    requires Inv(st) && Enabled(st, l)
    ensures Inv(Next(st, l))
  {
    match l
    case Register(s, p) => RegisterStep(st, s, p);
    case AbandonRegister(passed) => AbandonRegisterStep(st, passed);
    case Join(s, p) => JoinStep(st, s, p);
    case CreateTransport(s, p, direction, made) => TransportStep(st, s, p, direction, made);
    case CreateProducer(s, p, t, kind, made) => ProducerStep(st, s, p, t, kind, made);
    case CreateConsumer(s, p, t, q, canConsume, made) => ConsumerStep(st, s, p, t, q, canConsume, made);
    case Close(s) => CloseStep(st, s);
    case Subscribe(s, p, ch, order) => SubscribeStep(st, s, p, ch, order);
    case AbandonSubscribe(s, p, ch, order, sent) => AbandonSubscribeStep(st, s, p, ch, order, sent);
    case CancelSuspended => CancelStep(st);
    case RunTask(t) => RunTaskStep(st, t);
    case FireClose(r) => FireCloseStep(st, r);
    case Receive(ch) => ReceiveStep(st, ch);
    case DropReceiver(ch) => DropStep(st, ch);
    case Shutdown(keys) => CloseAllStep(st, keys);
  }

  lemma StepsTo(before: System, l: Label, after: System)
    requires Inv(before) && Step(before, l, after)
    ensures Inv(after)
  {
    StepKeeps(before, l);
  }

  /** Every reachable state satisfies the invariant. */
  lemma {:induction false} ReachableOk(run: Run, k: nat)
    requires IsRun(run) && k < |run.states|
    ensures Inv(run.states[k])
    decreases k
  {
    if k == 0 {
      StartEstablishes(run.states[0]);
    } else {
      ReachableOk(run, k - 1);
      assert ReachedAt(run, k);
      StepsTo(run.states[k - 1], run.labels[k - 1], run.states[k]);
    }
  }
}
