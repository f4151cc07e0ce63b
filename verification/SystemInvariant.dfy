/** What holds in every reachable state of the control plane, kept by each kind of step. */
module SystemInvariant {
  import opened Types
  import opened CoreModel
  import opened SystemModel

  // ---------------------------------------------------------------- the invariant

  /** `o` says who in a live session holds producer `q`, and of which kind. */
  predicate Holds(sessions: map<SessionId, Session>, q: ProducerId, o: Origin) {
    && o.session in sessions
    && o.participant in sessions[o.session].participants
    && q in sessions[o.session].participants[o.participant].producers
    && sessions[o.session].participants[o.participant].producers[q] == o.kind
  }

  /** Each producer ever created has one origin, and the live sessions hold exactly their own producers. */
  ghost predicate OriginsOk(
    sessions: map<SessionId, Session>, origins: map<ProducerId, Origin>, used: set<SessionId>,
    closers: map<Resource, Closer>)
  {
    && sessions.Keys <= used
    && (forall q :: q in origins ==> origins[q].session in used && ProducerResource(q) in closers)
    && (forall q, o :: Holds(sessions, q, o) ==> q in origins && origins[q] == o)
    && (forall q :: q in origins && origins[q].session in sessions ==> Holds(sessions, q, origins[q]))
  }

  /** A task announces a producer as its origin says, or reports the one closing of a resource. */
  predicate TaskHasSource(t: Task, origins: map<ProducerId, Origin>, closers: map<Resource, Closer>) {
    match t.event
    case SubscriptionConfirmed(_) => false
    case NewProducer(q, _) => q in origins && t == AnnounceTask(q, origins[q])
    case Closed(r) => r in closers && closers[r].closed && t == CloseTask(closers[r].session, r)
  }

  /** One announcement was spawned per producer, one report per closed resource, and nothing else. */
  ghost predicate TasksOk(
    pending: multiset<Task>, finished: multiset<Task>, origins: map<ProducerId, Origin>, closers: map<Resource, Closer>)
  {
    && (forall t :: t in pending || t in finished ==> TaskHasSource(t, origins, closers))
    && (forall q :: q in origins ==>
          pending[AnnounceTask(q, origins[q])] + finished[AnnounceTask(q, origins[q])] == 1)
    && (forall r :: r in closers ==>
          pending[CloseTask(closers[r].session, r)] + finished[CloseTask(closers[r].session, r)]
          == if closers[r].closed then 1 else 0)
  }

  /** Copies of `e` the channel accepted or refused. */
  function Seen(channel: Channel, e: Event): nat {
    multiset(channel.log)[e] + multiset(channel.refused)[e]
  }

  /** The subscription got out everything it set out to send. */
  predicate HeadSent(channel: Channel) {
    |channel.head| <= |channel.log|
  }

  /** The head comes first, bounds hold, and only a dead or suspended channel lacks part of its head. */
  ghost predicate ShapeOk(ch: ChannelId, channel: Channel, capacity: nat, lock: Option<ChannelId>) {
    && channel.capacity == capacity
    && channel.taken <= |channel.log| <= channel.taken + capacity
    && channel.head != [] && channel.head[0] == SubscriptionConfirmed(channel.session)
    && (forall i :: 0 < i < |channel.head| ==> channel.head[i].NewProducer?)
    && (forall e :: e in channel.refused ==> !e.SubscriptionConfirmed?)
    && (if HeadSent(channel) then
          && channel.log[..|channel.head|] == channel.head
          && forall i :: |channel.head| <= i < |channel.log| ==> !channel.log[i].SubscriptionConfirmed?
        else
          channel.log == channel.head[..|channel.log|] && (lock == Some(ch) || !channel.alive))
  }

  /** Everything a channel carries belongs to its session and was not announced by its own participant. */
  predicate EventHasSource(
    e: Event, channel: Channel, origins: map<ProducerId, Origin>, closers: map<Resource, Closer>)
  {
    match e
    case SubscriptionConfirmed(s) => s == channel.session
    case NewProducer(q, kind) =>
      && q in origins && origins[q].session == channel.session
      && origins[q].kind == kind && origins[q].participant != channel.participant
    case Closed(r) => r in closers && closers[r].closed && closers[r].session == channel.session
  }

  ghost predicate SourcesOk(channel: Channel, origins: map<ProducerId, Origin>, closers: map<Resource, Closer>) {
    forall e :: e in channel.head || e in channel.log || e in channel.refused
      ==> EventHasSource(e, channel, origins, closers)
  }

  /** A channel sees an announcement at most once by replay and once per finished task. */
  ghost predicate CountsOk(
    channel: Channel, origins: map<ProducerId, Origin>, closers: map<Resource, Closer>, finished: multiset<Task>)
  {
    && (forall q :: q in origins ==> multiset(channel.head)[NewProducer(q, origins[q].kind)] <= 1)
    && (forall q :: q in origins ==>
          Seen(channel, NewProducer(q, origins[q].kind))
          <= multiset(channel.head)[NewProducer(q, origins[q].kind)] + finished[AnnounceTask(q, origins[q])])
    && (forall r :: r in closers ==> Seen(channel, Closed(r)) <= finished[CloseTask(closers[r].session, r)])
  }

  /** The producer is one the channel's participant should hear about. */
  predicate Concerns(channel: Channel, o: Origin) {
    o.session == channel.session && o.participant != channel.participant
  }

  /** A listening channel has replayed the producer or seen exactly what its finished task offered. */
  ghost predicate ReceiptOk(
    ch: ChannelId, channel: Channel, lock: Option<ChannelId>, senders: map<SessionId, map<ParticipantId, ChannelId>>,
    origins: map<ProducerId, Origin>, finished: multiset<Task>)
  {
    Installed(senders, ch, channel) && channel.alive && lock != Some(ch) ==>
      forall q :: q in origins && Concerns(channel, origins[q]) ==>
        || NewProducer(q, origins[q].kind) in channel.head
        || Seen(channel, NewProducer(q, origins[q].kind)) == finished[AnnounceTask(q, origins[q])]
  }

  ghost predicate ChannelOk(ch: ChannelId, channel: Channel, st: System) {
    && ShapeOk(ch, channel, st.capacity, st.lock)
    && SourcesOk(channel, st.origins, st.closers)
    && CountsOk(channel, st.origins, st.closers, st.finished)
    && ReceiptOk(ch, channel, st.lock, st.core.senders, st.origins, st.finished)
  }

  /** The suspended subscription fills its channel, and nothing can have been taken out. */
  ghost predicate LockOk(lock: Option<ChannelId>, channels: map<ChannelId, Channel>) {
    lock.Some? ==>
      && lock.value in channels
      && var channel := channels[lock.value];
         channel.alive && channel.taken == 0 && |channel.log| == channel.capacity < |channel.head|
  }

  ghost predicate Inv(st: System) {
    match st
    case System(core, capacity, lock, closers, pending, finished, origins, used) =>
      && CoreOk(core) && 1 <= capacity
      && OriginsOk(core.sessions, origins, used, closers)
      && TasksOk(pending, finished, origins, closers)
      && LockOk(lock, core.channels)
      && forall ch :: ch in core.channels ==> ChannelOk(ch, core.channels[ch], st)
  }

  lemma StartEstablishes(st: System)
    requires StartOk(st)
    ensures Inv(st)
  {
  }

  // ---------------------------------------------------------------- one channel at a time

  /** A step that leaves a channel, the history and the lock alone keeps it, whatever senders go. */
  lemma ChannelUntouched(ch: ChannelId, channel: Channel, st: System, after: System)
    requires ChannelOk(ch, channel, st)
    requires after.capacity == st.capacity && after.origins == st.origins && after.closers == st.closers
    requires after.finished == st.finished
    requires after.lock == st.lock || (st.lock.None? && after.lock != Some(ch))
    requires Installed(after.core.senders, ch, channel) ==> Installed(st.core.senders, ch, channel)
    ensures ChannelOk(ch, channel, after)
  {
  }

  /** A new, unclosed resource has been reported nowhere. */
  lemma ChannelBesideResource(ch: ChannelId, channel: Channel, st: System, after: System, r: Resource, closer: Closer)
    requires ChannelOk(ch, channel, st) && r !in st.closers && !closer.closed
    requires after == st.(core := after.core, closers := st.closers[r := closer])
    requires after.core.senders == st.core.senders
    ensures ChannelOk(ch, channel, after)
  {
    assert Closed(r) !in channel.log && Closed(r) !in channel.refused by {
      assert !EventHasSource(Closed(r), channel, st.origins, st.closers);
    }
    assert Seen(channel, Closed(r)) == 0;
    forall e | e in channel.head || e in channel.log || e in channel.refused
      ensures EventHasSource(e, channel, after.origins, after.closers)
    {
      assert EventHasSource(e, channel, st.origins, st.closers);
    }
  }

  /** A new producer has not been seen on any channel, and its task has not run. */
  lemma ChannelBesideProducer(ch: ChannelId, channel: Channel, st: System, after: System, q: ProducerId, o: Origin)
    requires ChannelOk(ch, channel, st) && q !in st.origins
    requires after == st.(core := after.core, origins := st.origins[q := o], pending := after.pending)
    requires after.core.senders == st.core.senders
    requires forall t :: t in st.finished ==> TaskHasSource(t, st.origins, st.closers)
    ensures ChannelOk(ch, channel, after)
  {
    var e := NewProducer(q, o.kind);
    assert !EventHasSource(e, channel, st.origins, st.closers);
    assert e !in channel.log && e !in channel.refused && e !in channel.head;
    assert Seen(channel, e) == 0 && multiset(channel.head)[e] == 0;
    assert !TaskHasSource(AnnounceTask(q, o), st.origins, st.closers);
    assert st.finished[AnnounceTask(q, o)] == 0;
    forall x | x in channel.head || x in channel.log || x in channel.refused
      ensures EventHasSource(x, channel, after.origins, after.closers)
    {
      assert EventHasSource(x, channel, st.origins, st.closers);
    }
  }

  /** Closing a resource only widens what may have been reported. */
  lemma ChannelBesideClosing(ch: ChannelId, channel: Channel, st: System, after: System, r: Resource)
    requires ChannelOk(ch, channel, st) && r in st.closers
    requires after == st.(closers := st.closers[r := st.closers[r].(closed := true)], pending := after.pending)
    ensures ChannelOk(ch, channel, after)
  {
    forall e | e in channel.head || e in channel.log || e in channel.refused
      ensures EventHasSource(e, channel, after.origins, after.closers)
    {
      assert EventHasSource(e, channel, st.origins, st.closers);
    }
  }

  // ---------------------------------------------------------------- running a broadcast

  /** The channel as the broadcast of `t` leaves it. */
  function Reached(ch: ChannelId, channel: Channel, st: System, t: Task): Channel {
    Delivered(st.core.senders, ch, channel, t.session, t.event, t.exclude)
  }

  lemma OfferCounts(channel: Channel, e: Event, x: Event)
    ensures Seen(Offer(channel, e), x) == Seen(channel, x) + if channel.alive && x == e then 1 else 0
  {
  }

  lemma ShapeAfterOffer(ch: ChannelId, channel: Channel, st: System, t: Task)
    requires ShapeOk(ch, channel, st.capacity, st.lock) && st.lock.None?
    requires TaskHasSource(t, st.origins, st.closers)
    ensures ShapeOk(ch, Reached(ch, channel, st, t), st.capacity, st.lock)
  {
    var after := Reached(ch, channel, st, t);
    if HeadSent(channel) {
      assert after.log[..|channel.head|] == channel.log[..|channel.head|];
    }
  }

  lemma SourcesAfterOffer(ch: ChannelId, channel: Channel, st: System, t: Task)
    requires SourcesOk(channel, st.origins, st.closers)
    requires TaskHasSource(t, st.origins, st.closers)
    ensures SourcesOk(Reached(ch, channel, st, t), st.origins, st.closers)
  {
    var after := Reached(ch, channel, st, t);
    forall e | e in after.head || e in after.log || e in after.refused
      ensures EventHasSource(e, after, st.origins, st.closers)
    {
      if e in channel.head || e in channel.log || e in channel.refused {
        assert EventHasSource(e, channel, st.origins, st.closers);
      }
    }
  }

  /** What one finished task adds to the task count that an event is measured against. */
  lemma CountsAfterOffer(ch: ChannelId, channel: Channel, st: System, t: Task)
    requires CountsOk(channel, st.origins, st.closers, st.finished)
    requires TaskHasSource(t, st.origins, st.closers)
    ensures CountsOk(Reached(ch, channel, st, t), st.origins, st.closers, st.finished + multiset{t})
  {
    var after, finished := Reached(ch, channel, st, t), st.finished + multiset{t};
    forall q | q in st.origins
      ensures Seen(after, NewProducer(q, st.origins[q].kind))
           <= multiset(after.head)[NewProducer(q, st.origins[q].kind)] + finished[AnnounceTask(q, st.origins[q])]
    {
      SeenAfterOffer(ch, channel, st, t, AnnounceTask(q, st.origins[q]));
    }
    forall r | r in st.closers ensures Seen(after, Closed(r)) <= finished[CloseTask(st.closers[r].session, r)] {
      SeenAfterOffer(ch, channel, st, t, CloseTask(st.closers[r].session, r));
    }
  }

  /** A channel sees another copy of an event only when a task with that event finishes. */
  lemma SeenAfterOffer(ch: ChannelId, channel: Channel, st: System, t: Task, x: Task)
    requires t.event == x.event ==> t == x
    ensures var after := Reached(ch, channel, st, t);
            && after.head == channel.head
            && Seen(after, x.event) - Seen(channel, x.event) <= (st.finished + multiset{t})[x] - st.finished[x]
  {
    OfferCounts(channel, t.event, x.event);
  }

  lemma ReceiptAfterOffer(ch: ChannelId, channel: Channel, st: System, t: Task)
    requires ReceiptOk(ch, channel, st.lock, st.core.senders, st.origins, st.finished)
    requires TaskHasSource(t, st.origins, st.closers)
    ensures ReceiptOk(ch, Reached(ch, channel, st, t), st.lock, st.core.senders, st.origins, st.finished + multiset{t})
  {
    var after := Reached(ch, channel, st, t);
    if Installed(st.core.senders, ch, after) && after.alive && st.lock != Some(ch) {
      forall q | q in st.origins && Concerns(after, st.origins[q])
        ensures || NewProducer(q, st.origins[q].kind) in after.head
                || Seen(after, NewProducer(q, st.origins[q].kind))
                   == (st.finished + multiset{t})[AnnounceTask(q, st.origins[q])]
      {
        OfferCounts(channel, t.event, NewProducer(q, st.origins[q].kind));
      }
    }
  }

  lemma ChannelAfterOffer(ch: ChannelId, channel: Channel, st: System, after: System, t: Task)
    requires ChannelOk(ch, channel, st) && st.lock.None?
    requires TaskHasSource(t, st.origins, st.closers)
    requires after == st.(core := after.core, pending := after.pending, finished := st.finished + multiset{t})
    requires after.core.senders == st.core.senders
    ensures ChannelOk(ch, Reached(ch, channel, st, t), after)
  {
    ShapeAfterOffer(ch, channel, st, t);
    SourcesAfterOffer(ch, channel, st, t);
    CountsAfterOffer(ch, channel, st, t);
    ReceiptAfterOffer(ch, channel, st, t);
  }

  // ---------------------------------------------------------------- opening a subscription

  /** The replay announces each listed producer of another participant once, and nothing else. */
  lemma {:induction false} ReplayCounts(
    s: SessionId, p: ParticipantId, order: seq<Listing>, origins: map<ProducerId, Origin>, q: ProducerId)
    requires Distinct(order) && q in origins
    requires forall x :: x in order ==>
               x.producer in origins && origins[x.producer] == Origin(s, x.owner, x.kind)
    ensures multiset(Replay(p, order))[NewProducer(q, origins[q].kind)]
         == if Listing(q, origins[q].kind, origins[q].participant) in order && origins[q].session == s
               && origins[q].participant != p then 1 else 0
    decreases order
  {
    if order != [] {
      var x := order[0];
      assert order == [x] + order[1..];
      ReplayCounts(s, p, order[1..], origins, q);
      assert x !in order[1..];
    }
  }

  lemma {:induction false} ReplayEvents(p: ParticipantId, order: seq<Listing>, e: Event)
    requires e in Replay(p, order)
    ensures e.NewProducer? && exists owner :: owner != p && Listing(e.producer, e.kind, owner) in order
    decreases order
  {
    if order != [] {
      var x := order[0];
      assert order == [x] + order[1..];
      if x.owner != p && e == NewProducer(x.producer, x.kind) {
        assert Listing(e.producer, e.kind, x.owner) in order;
      } else {
        ReplayEvents(p, order[1..], e);
      }
    }
  }

  lemma ListingsHaveOrigins(st: System, s: SessionId, order: seq<Listing>, x: Listing)
    requires OriginsOk(st.core.sessions, st.origins, st.used, st.closers)
    requires s in st.core.sessions && IsListing(st.core.sessions[s], order) && x in order
    ensures x.producer in st.origins && st.origins[x.producer] == Origin(s, x.owner, x.kind)
  {
    assert Listed(st.core.sessions[s], x);
    assert Holds(st.core.sessions, x.producer, Origin(s, x.owner, x.kind));
  }

  /** The head announces exactly the producers in the session that concern the subscriber, once each. */
  lemma HeadAnnounces(st: System, s: SessionId, p: ParticipantId, order: seq<Listing>, q: ProducerId)
    requires OriginsOk(st.core.sessions, st.origins, st.used, st.closers)
    requires s in st.core.sessions && IsListing(st.core.sessions[s], order) && q in st.origins
    ensures multiset(Head(s, p, order))[NewProducer(q, st.origins[q].kind)]
         == if st.origins[q].session == s && st.origins[q].participant != p then 1 else 0
  {
    forall x | x in order ensures x.producer in st.origins && st.origins[x.producer] == Origin(s, x.owner, x.kind) {
      ListingsHaveOrigins(st, s, order, x);
    }
    ReplayCounts(s, p, order, st.origins, q);
    var o := st.origins[q];
    if o.session == s {
      assert Holds(st.core.sessions, q, o);
      assert Listed(st.core.sessions[s], Listing(q, o.kind, o.participant));
    }
    assert multiset(Head(s, p, order))
        == multiset{SubscriptionConfirmed(s)} + multiset(Replay(p, order));
  }

  lemma HeadSources(st: System, s: SessionId, p: ParticipantId, order: seq<Listing>, channel: Channel, e: Event)
    requires OriginsOk(st.core.sessions, st.origins, st.used, st.closers)
    requires s in st.core.sessions && IsListing(st.core.sessions[s], order)
    requires channel.session == s && channel.participant == p && e in Head(s, p, order)
    ensures EventHasSource(e, channel, st.origins, st.closers)
    ensures e == SubscriptionConfirmed(s) || e.NewProducer?
  {
    if e != SubscriptionConfirmed(s) {
      ReplayEvents(p, order, e);
      var owner :| owner != p && Listing(e.producer, e.kind, owner) in order;
      ListingsHaveOrigins(st, s, order, Listing(e.producer, e.kind, owner));
    }
  }

  lemma PrefixCount(xs: seq<Event>, k: nat, e: Event)
    requires k <= |xs|
    ensures multiset(xs[..k])[e] <= multiset(xs)[e]
  {
    assert xs == xs[..k] + xs[k..];
  }

  lemma OpenedSources(
    st: System, s: SessionId, p: ParticipantId, order: seq<Listing>, sent: nat, alive: bool, channel: Channel)
    requires OriginsOk(st.core.sessions, st.origins, st.used, st.closers)
    requires s in st.core.sessions && IsListing(st.core.sessions[s], order) && sent <= |Head(s, p, order)|
    requires channel == Opened(s, p, st.capacity, Head(s, p, order), sent, alive)
    ensures SourcesOk(channel, st.origins, st.closers)
    ensures forall r :: r in st.closers ==> Seen(channel, Closed(r)) == 0
  {
    forall e | e in channel.head || e in channel.log || e in channel.refused
      ensures EventHasSource(e, channel, st.origins, st.closers)
    {
      HeadSources(st, s, p, order, channel, e);
    }
    forall r | r in st.closers ensures Seen(channel, Closed(r)) == 0 {
      if Closed(r) in channel.log { HeadSources(st, s, p, order, channel, Closed(r)); }
    }
  }

  lemma OpenedCounts(
    st: System, s: SessionId, p: ParticipantId, order: seq<Listing>, sent: nat, alive: bool, channel: Channel,
    q: ProducerId)
    requires OriginsOk(st.core.sessions, st.origins, st.used, st.closers) && q in st.origins
    requires s in st.core.sessions && IsListing(st.core.sessions[s], order) && sent <= |Head(s, p, order)|
    requires channel == Opened(s, p, st.capacity, Head(s, p, order), sent, alive)
    ensures var e := NewProducer(q, st.origins[q].kind);
            && Seen(channel, e) <= multiset(channel.head)[e] <= 1
            && (Concerns(channel, st.origins[q]) ==> e in channel.head)
  {
    HeadAnnounces(st, s, p, order, q);
    PrefixCount(channel.head, sent, NewProducer(q, st.origins[q].kind));
  }

  /** A new channel that got the first `sent` events of its head out. */
  lemma OpenedOk(
    st: System, after: System, s: SessionId, p: ParticipantId, ch: ChannelId, order: seq<Listing>, sent: nat,
    alive: bool)
    requires OriginsOk(st.core.sessions, st.origins, st.used, st.closers)
    requires s in st.core.sessions && IsListing(st.core.sessions[s], order)
    requires sent <= |Head(s, p, order)| && sent <= st.capacity
    requires after == st.(core := after.core, lock := after.lock)
    requires sent < |Head(s, p, order)| ==> !alive || after.lock == Some(ch)
    ensures ChannelOk(ch, Opened(s, p, st.capacity, Head(s, p, order), sent, alive), after)
  {
    var channel := Opened(s, p, st.capacity, Head(s, p, order), sent, alive);
    OpenedSources(st, s, p, order, sent, alive, channel);
    forall q | q in st.origins
      ensures var e := NewProducer(q, st.origins[q].kind);
              Seen(channel, e) <= multiset(channel.head)[e] <= 1
              && (Concerns(channel, st.origins[q]) ==> e in channel.head)
    {
      OpenedCounts(st, s, p, order, sent, alive, channel, q);
    }
    OpenedShape(s, p, ch, order, sent, alive, st.capacity, after.lock);
  }

  lemma OpenedShape(
    s: SessionId, p: ParticipantId, ch: ChannelId, order: seq<Listing>, sent: nat, alive: bool, capacity: nat,
    lock: Option<ChannelId>)
    requires sent <= |Head(s, p, order)| && sent <= capacity
    requires sent < |Head(s, p, order)| ==> !alive || lock == Some(ch)
    ensures ShapeOk(ch, Opened(s, p, capacity, Head(s, p, order), sent, alive), capacity, lock)
  {
    var head := Head(s, p, order);
    forall i | 0 < i < |head| ensures head[i].NewProducer? {
      ReplayEvents(p, order, head[i]);
    }
  }
}
