/** What each family of steps leaves alone. */
module SystemFrames {
  import opened Types
  import opened CoreModel
  import opened SystemModel

  /** The requests participants make inside their session. */
  predicate IsRequest(l: Label) {
    l.Join? || l.CreateTransport? || l.CreateProducer? || l.CreateConsumer?
  }

  /** The steps that open, feed or empty a channel. */
  predicate IsChannelStep(l: Label) {
    l.Subscribe? || l.AbandonSubscribe? || l.CancelSuspended? || l.RunTask? || l.Receive? || l.DropReceiver?
  }

  /** What is set up after a request leaves the core and the tasks that have run alone. */
  lemma CreatedFrame(st: System, r: Reply<PendingEventSetup>)
    ensures var after := Created(st, r);
            after == st.(core := r.core, closers := after.closers, origins := after.origins, pending := after.pending)
  {
  }

  /** A session request touches the contents of sessions and what is set up afterwards. */
  lemma RequestStep(st: System, l: Label)
    requires Enabled(st, l) && IsRequest(l)
    ensures SameAllocation(st.core, Next(st, l).core)
    ensures Next(st, l).used == st.used && Next(st, l).lock == st.lock && Next(st, l).finished == st.finished
  {
    var c := st.core;
    if l.Join? {
      JoinFrame(c, l.session, l.participant);
    } else if l.CreateTransport? {
      TransportFrame(c, l.session, l.participant, l.direction, l.transport);
      CreatedFrame(st, CoreModel.CreateTransport(c, l.session, l.participant, l.direction, l.transport));
    } else if l.CreateProducer? {
      ProducerFrame(c, l.session, l.participant, l.on, l.kind, l.producer);
      CreatedFrame(st, CoreModel.CreateProducer(c, l.session, l.participant, l.on, l.kind, l.producer));
    } else {
      ConsumerFrame(c, l.session, l.participant, l.on, l.source, l.canConsume, l.consumer);
      CreatedFrame(st, CoreModel.CreateConsumer(c, l.session, l.participant, l.on, l.source, l.canConsume, l.consumer));
    }
  }

  /** The channel as a subscription leaves it: nothing but a first part of its head. */
  predicate JustOpened(channel: Channel) {
    channel.log <= channel.head && channel.refused == [] && channel.taken == 0
  }

  /** One channel is opened, or one receiving end moves, or nothing happens. */
  ghost predicate OneChannel(before: Core, after: Core, x: ChannelId) {
    || after == before
    || (&& x in after.channels && after.channels == before.channels[x := after.channels[x]]
        && if x in before.channels then
             ReceiverMoved(before.channels[x], after.channels[x]) && after.senders == before.senders
           else
             && JustOpened(after.channels[x]) && after.channels[x].session in before.sessions
             && after == Install(before, x, after.channels[x]))
  }

  lemma SubscribeOpens(c: Core, s: SessionId, p: ParticipantId, ch: ChannelId, capacity: nat, order: seq<Listing>)
    requires ch !in c.channels
    ensures OneChannel(c, CoreModel.Subscribe(c, s, p, ch, capacity, true, order).core, ch)
  {
  }

  /** What every channel step but a broadcast does. */
  lemma OneChannelStep(st: System, l: Label) returns (x: ChannelId)
    requires Enabled(st, l) && IsChannelStep(l) && !l.RunTask?
    ensures OneChannel(st.core, Next(st, l).core, x)
    ensures Next(st, l).pending == st.pending && Next(st, l).finished == st.finished
  {
    x := if l.CancelSuspended? then st.lock.value else l.channel;
    if l.Subscribe? { SubscribeOpens(st.core, l.session, l.participant, x, st.capacity, l.order); }
  }

  /** A channel step touches senders and channels, the lock, and which tasks wait. */
  lemma ChannelStep(st: System, l: Label)
    requires Enabled(st, l) && IsChannelStep(l)
    ensures var d := Next(st, l);
            d == st.(core := d.core, lock := d.lock, pending := d.pending, finished := d.finished)
    ensures Next(st, l).core == st.core.(senders := Next(st, l).core.senders, channels := Next(st, l).core.channels)
  {
  }

  /** Senders only ever go. */
  predicate SendersWithin(after: Core, before: Core) {
    forall s :: s in after.senders ==> s in before.senders && after.senders[s] == before.senders[s]
  }

  /** Registering and closing leave every channel alone. */
  lemma AllocationStep(st: System, l: Label)
    requires Enabled(st, l) && (l.Register? || l.AbandonRegister? || l.Close? || l.Shutdown?)
    ensures var d := Next(st, l);
            && d == st.(core := d.core, used := d.used)
            && d.core.channels == st.core.channels && SendersWithin(d.core, st.core)
  {
    if l.Register? {
      RegisterFrame(st.core, l.session, l.participant);
    } else if l.Shutdown? {
      CloseAllPool(st.core, l.keys);
      forall s | s in CloseAll(st.core, l.keys).senders
        ensures s in st.core.senders && CloseAll(st.core, l.keys).senders[s] == st.core.senders[s]
      {
        CloseAllDropsSenders(st.core, l.keys, s);
      }
    }
  }

  lemma RegisterFrame(c: Core, s: SessionId, p: ParticipantId)
    ensures var d := CoreModel.Register(c, s, p).core;
            d == c.(cursor := d.cursor, counters := d.counters, sessions := d.sessions)
  {
  }

  lemma {:induction false} CloseAllDropsSenders(c: Core, order: seq<SessionId>, s: SessionId)
    requires s in CloseAll(c, order).senders
    ensures s in c.senders && c.senders[s] == CloseAll(c, order).senders[s]
    decreases order
  {
    if order != [] { CloseAllDropsSenders(CloseSession(c, order[0]), order[1..], s); }
  }

  /** Registering, closing and firing callbacks leave every channel alone. */
  lemma OtherStep(st: System, l: Label)
    requires Enabled(st, l) && !IsRequest(l) && !IsChannelStep(l)
    ensures Next(st, l).core.channels == st.core.channels && Next(st, l).origins == st.origins
    ensures SendersWithin(Next(st, l).core, st.core)
    ensures l.FireClose? ==> Next(st, l).core == st.core && Next(st, l).used == st.used
    ensures !l.FireClose? ==> Next(st, l).closers == st.closers
  {
    if !l.FireClose? { AllocationStep(st, l); }
  }

  lemma {:induction false} CloseAllOnlyRemoves(c: Core, order: seq<SessionId>, s: SessionId)
    requires s in CloseAll(c, order).sessions
    ensures s in c.sessions && CloseAll(c, order).sessions[s] == c.sessions[s]
    decreases order
  {
    if order != [] { CloseAllOnlyRemoves(CloseSession(c, order[0]), order[1..], s); }
  }

  /** No request but a registration under a fresh id brings a session into being. */
  lemma GoneStep(st: System, l: Label, s: SessionId)
    requires Enabled(st, l) && s in st.used && s !in st.core.sessions
    ensures s in Next(st, l).used && s !in Next(st, l).core.sessions
  {
    if IsRequest(l) {
      RequestStep(st, l);
    } else if IsChannelStep(l) {
      ChannelStep(st, l);
    } else if l.Shutdown? {
      if s in Next(st, l).core.sessions { CloseAllOnlyRemoves(st.core, l.keys, s); }
    }
  }

  /** The session is live, or nobody has registered it yet. */
  predicate Unclosed(st: System, s: SessionId) {
    s in st.used ==> s in st.core.sessions
  }
}
